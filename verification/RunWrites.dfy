/** What each transaction accepts and writes, in the plain facts of the rows: when
    exactly it is accepted, every field it sets, and everything it leaves alone. */
module RunWrites {
  import opened Options
  import opened Runs
  import opened StackTemplates
  import opened RunTables
  import opened RunProtocol
  import opened RunInvariant
  import opened RunReachability

  // ---- Starting a run ----

  /** The document a config column stands for. */
  function DocumentOf(config: Config): Config {
    match config
    case Absent => Document(JObject(map[]))
    case _ => config
  }

  /** No run of the template is queued, running, waiting or approved. */
  ghost predicate AllEnded(db: Db, t: TemplateId) {
    forall r :: r in db.runs && db.runs[r].template == t ==> db.runs[r].status !in {Queued, Running, WaitingApproval, Approved}
  }

  lemma EndedExactly(status: Status)
    ensures Terminal(status) <==> status !in {Queued, Running, WaitingApproval, Approved}
  {
  }

  lemma InFlightExactly(db: Db, t: TemplateId)
    ensures InFlight(db, t) <==> !AllEnded(db, t)
  {
    forall r | r in db.runs
      ensures Terminal(db.runs[r].status) <==> db.runs[r].status !in {Queued, Running, WaitingApproval, Approved}
    {
      EndedExactly(db.runs[r].status);
    }
  }

  /** A start is accepted exactly for an installed, active template with no run that
      is queued, running, waiting or approved, under a new id, and auto-approved only
      to apply. */
  lemma StartIsAcceptedExactly(db: Db, id: RunId, command: StartCommand)
    ensures StartRun(db, id, command).Ok? <==>
              && (command.autoApprove ==> command.operation == Apply)
              && command.template in db.templates && db.templates[command.template].lifecycle == Active
              && id !in db.runs && AllEnded(db, command.template)
  {
    InFlightExactly(db, command.template);
  }

  /** It makes the run the command asks for, of the template's desired state at that
      moment, with the one start intent its approval calls for, and nothing else. */
  lemma StartedRunIsAsAsked(db: Db, id: RunId, command: StartCommand)
    requires StartRun(db, id, command).Ok?
    ensures var db' := StartRun(db, id, command).value;
            && db'.templates == db.templates
            && db'.runs.Keys == db.runs.Keys + {id} && (forall r :: r in db.runs ==> db'.runs[r] == db.runs[r])
            && var run, template := db'.runs[id], db.templates[command.template];
            && run.template == command.template && run.operation == command.operation
            && run.autoApprove == command.autoApprove && run.triggerActor == command.actor
            && run.revision == template.desiredRevision && run.config == DocumentOf(template.desiredConfig)
            && run.status == Queued && run.planKey == None && run.approvedBy == None
            && run.plan == None && run.apply == None
  {
  }

  lemma StartedRunIsInTheOutbox(db: Db, id: RunId, command: StartCommand)
    requires StartRun(db, id, command).Ok?
    ensures var db' := StartRun(db, id, command).value;
            var input := WorkflowInput(id, command.template, command.operation, command.autoApprove);
            if command.autoApprove
            then db'.planIntents == db.planIntents
                 && db'.applyIntents == if id in db.applyIntents then db.applyIntents else db.applyIntents[id := input]
            else db'.applyIntents == db.applyIntents
                 && db'.planIntents == if id in db.planIntents then db.planIntents else db.planIntents[id := input]
  {
  }

  // ---- Approving and discarding ----

  /** A plan still matches when it is of the desired revision and its document is the
      desired one, an absent one being the empty object. */
  lemma PlanMatchesExactly(template: StackTemplate)
    ensures PlanStateOf(template) == PlanNone <==> template.pending.None?
    ensures PlanStateOf(template) == PlanMatches <==>
              && template.pending.Some?
              && var planned := template.pending.value;
                 && planned.revision == template.desiredRevision
                 && planned.config.Document? && planned.config == DocumentOf(template.desiredConfig)
  {
  }

  lemma LiveMatchesExactly(template: StackTemplate)
    ensures LiveStateOf(template) == LiveNever <==> template.lastApplied.None?
    ensures LiveStateOf(template) == LiveMatches <==>
              && template.lastApplied.Some?
              && var live := template.lastApplied.value;
                 && live.revision == template.desiredRevision
                 && live.config.Document? && live.config == DocumentOf(template.desiredConfig)
  {
  }

  /** An approval is accepted exactly of a waiting run nobody approved, that its
      template is waiting on with a plan that still matches; it moves the status and
      names the approver. */
  lemma ApprovalIsAcceptedExactly(id: RunId, scope: Scope, actor: UserId)
    ensures var approved := ApproveRun(id, scope, actor); var pending := scope.template.pending;
            && (approved.Ok? <==>
                  && scope.run.status == WaitingApproval && scope.run.approvedBy == None
                  && pending.Some? && pending.value.run == id && pending.value.revision == scope.template.desiredRevision
                  && pending.value.config.Document? && pending.value.config == DocumentOf(scope.template.desiredConfig))
            && (approved.Ok? ==> approved.value == scope.run.(status := Approved, approvedBy := Some(actor)))
  {
  }

  /** A discard is accepted exactly of a waiting or approved run, ends it, takes its
      key and, if its template was waiting on it, the pending plan. */
  lemma DiscardIsAcceptedExactly(id: RunId, scope: Scope)
    ensures var discarded := Discard(id, scope);
            && (discarded.Ok? <==> scope.run.status == WaitingApproval || scope.run.status == Approved)
            && (discarded.Ok? ==>
                  && discarded.value.run == scope.run.(status := Canceled, planKey := None)
                  && discarded.value.template ==
                       if scope.template.pending.Some? && scope.template.pending.value.run == id
                       then scope.template.(pending := None) else scope.template)
  {
  }

  /** In every reachable state a discard takes effect exactly on a waiting or approved
      run: it is then canceled, without a key, never to be applied, and its template
      waits on nothing; nothing else moves. On any other run it changes nothing. */
  lemma DiscardsTakeEffectExactly(actions: seq<Action>, r: RunId)
    requires r in Replay(actions).db.runs
    ensures var s, s' := Replay(actions), Do(Replay(actions), OnRun(r, DiscardMove));
            && Known(s, r)
            && var run, template := s.db.runs[r], s.db.templates[s.db.runs[r].template];
            if run.status == WaitingApproval || run.status == Approved
            then && run.apply == None && template.pending.Some? && template.pending.value.run == r
                 && s' == s.(db := s.db.(
                      runs := s.db.runs[r := run.(status := Canceled, planKey := None)],
                      templates := s.db.templates[run.template := template.(pending := None)]))
            else s' == s
  {
    RunHolds(actions, r);
    var s := Replay(actions);
    var c := CellOf(s, r);
    DiscardIsAcceptedExactly(r, ScopeOf(c));
    if s.db.runs[r].status in {WaitingApproval, Approved} { HeldPlan(r, c); }
    PutIsTheirWrite(s, r, DiscardedCell(r, c));
  }

  lemma HeldPlan(id: RunId, c: Cell)
    requires CellOk(id, c) && (c.run.status == WaitingApproval || c.run.status == Approved)
    ensures c.run.apply == None && c.template.pending.Some? && c.template.pending.value.run == id
  {
  }

  lemma PutIsTheirWrite(s: System, r: RunId, c: Cell)
    requires Known(s, r) && c == CellOf(s, r).(run := c.run, template := c.template)
    ensures Put(s, r, c) == s.(db := s.db.(runs := s.db.runs[r := c.run], templates := s.db.templates[c.run.template := c.template]))
    ensures c == CellOf(s, r) ==> Put(s, r, c) == s
  {
    assert s.db.runs[r := s.db.runs[r]] == s.db.runs;
  }

  // ---- Status writes ----

  /** Who an execution's actor is: the approver of a run that was approved, for its
      apply, and otherwise whoever started the run. */
  predicate ActedBy(run: Run, phase: Phase, actor: UserId) {
    actor == if phase == ApplyPhase && run.approvedBy.Some? then run.approvedBy.value else run.triggerActor
  }

  function PhaseOf(run: Run, phase: Phase): Option<Execution> {
    match phase
    case PlanPhase => run.plan
    case ApplyPhase => run.apply
  }

  /** The timeline ended: what was running stands as the end does. */
  predicate EndedTimelineOf(before: seq<StepRow>, after: seq<StepRow>, status: ExecutionStatus) {
    && |after| == |before|
    && forall i :: 0 <= i < |before| ==>
         after[i].step == before[i].step
         && after[i].status == if before[i].status == InProgress then status else before[i].status
  }

  predicate EndedExecutionOf(before: Execution, after: Execution, status: ExecutionStatus, error: string) {
    && after.status == status && after.error == error && after.actor == before.actor && after.counts == before.counts
    && EndedTimelineOf(before.steps, after.steps, status)
  }

  predicate FreshExecution(run: Run, phase: Phase, execution: Option<Execution>, status: ExecutionStatus, error: string) {
    && execution.Some? && ActedBy(run, phase, execution.value.actor)
    && execution.value.status == status && execution.value.error == error
    && execution.value.counts == None && execution.value.steps == []
  }

  predicate IsRunning(run: Run, phase: Phase) {
    PhaseOf(run, phase).Some? && PhaseOf(run, phase).value.status == InProgress
  }

  /** A status a workflow records is running, completed or failed, of its own run, and
      repeated, or from a status it can follow. */
  lemma StatusIsRefusedExactly(id: RunId, scope: Scope, input: StatusInput)
    requires !(IsRunning(scope.run, PlanPhase) && IsRunning(scope.run, ApplyPhase))
    ensures RecordStatus(id, scope, input).Err? <==>
              || input.status !in {Running, Completed, Failed}
              || scope.run.template != input.template || scope.run.operation != input.operation
              || (scope.run.status != input.status && !CanFollow(scope.run, input))
  {
  }

  /** A run runs once it is queued and nothing of it does; completes while an
      execution of it runs; and fails from anything but an end. */
  predicate CanFollow(run: Run, input: StatusInput) {
    var busy := IsRunning(run, PlanPhase) || IsRunning(run, ApplyPhase);
    match input.status
    case Running => run.status == Queued && (PhaseOf(run, input.phase).Some? || !busy)
    case Completed => run.status == Running && busy
    case _ => run.status in {Queued, Running, WaitingApproval, Approved}
  }

  /** Running starts the phase's execution with the run. */
  lemma RunningStarts(id: RunId, scope: Scope, input: StatusInput)
    requires RecordStatus(id, scope, input).Ok? && input.status == Running && scope.run.status != Running
    ensures var s := RecordStatus(id, scope, input).value;
            && s.template == scope.template && s.run.status == Running
            && (PhaseOf(scope.run, input.phase).Some? ==> s.run == scope.run.(status := Running))
            && (PhaseOf(scope.run, input.phase).None? ==>
                  && FreshExecution(scope.run, input.phase, PhaseOf(s.run, input.phase), InProgress, "")
                  && s.run == (if input.phase == PlanPhase then scope.run.(status := Running, plan := s.run.plan)
                               else scope.run.(status := Running, apply := s.run.apply)))
  {
  }

  /** A terminal write is its phase's to make when the phase's execution is running,
      or, for a failure, when no execution is and the phase has none. */
  predicate IsTheirs(run: Run, input: StatusInput) {
    if IsRunning(run, PlanPhase) || IsRunning(run, ApplyPhase) then IsRunning(run, input.phase)
    else PhaseOf(run, input.phase).None?
  }

  /** It ends the execution and the run, takes the key, stops the template waiting on
      it, and marks a destroy that was under way as failed. Any other changes
      nothing. */
  lemma TerminalWrites(id: RunId, scope: Scope, input: StatusInput)
    requires RecordStatus(id, scope, input).Ok? && input.status in {Completed, Failed} && scope.run.status != input.status
    requires !(IsRunning(scope.run, PlanPhase) && IsRunning(scope.run, ApplyPhase))
    ensures !IsTheirs(scope.run, input) ==> RecordStatus(id, scope, input).value == scope
    ensures IsTheirs(scope.run, input) ==>
              var s, was := RecordStatus(id, scope, input).value, PhaseOf(scope.run, input.phase);
              var status := if input.status == Completed then Succeeded else Broken;
              && s.run == (if input.phase == PlanPhase
                           then scope.run.(status := input.status, planKey := None, plan := s.run.plan)
                           else scope.run.(status := input.status, planKey := None, apply := s.run.apply))
              && (if was.Some?
                  then PhaseOf(s.run, input.phase).Some?
                       && EndedExecutionOf(was.value, PhaseOf(s.run, input.phase).value, status, input.error)
                  else FreshExecution(scope.run, input.phase, PhaseOf(s.run, input.phase), Broken, input.error))
    ensures IsTheirs(scope.run, input) ==>
              var template := RecordStatus(id, scope, input).value.template;
              && template.desiredRevision == scope.template.desiredRevision
              && template.desiredConfig == scope.template.desiredConfig
              && template.lastApplied == scope.template.lastApplied
              && template.pending == (if scope.template.pending.Some? && scope.template.pending.value.run == id then None
                                      else scope.template.pending)
              && template.lifecycle == (if input.status == Failed && scope.run.operation == Destroy
                                           && scope.template.lifecycle == BeingDestroyed
                                        then Interrupted else scope.template.lifecycle)
  {
  }

  // ---- Steps and events ----

  lemma {:induction false} StepStatusIs(steps: seq<StepRow>, step: Step)
    ensures StepStatus(steps, step).None? <==> forall i :: 0 <= i < |steps| ==> steps[i].step != step
    ensures StepStatus(steps, step).Some? ==> exists i :: 0 <= i < |steps| && steps[i] == StepRow(step, StepStatus(steps, step).value)
  {
    if steps != [] {
      StepStatusIs(steps[1..], step);
      assert forall i :: 0 < i < |steps| ==> steps[i] == steps[1..][i - 1];
    }
  }

  /** A running run records a step it has not taken: the steps before it have
      succeeded, and it is running, last. */
  lemma NewStepIsRecorded(run: Run, step: Step, phase: Phase)
    requires run.status == Running && IsRunning(run, phase) && (phase == ApplyPhase ==> !IsRunning(run, PlanPhase))
    requires forall i :: 0 <= i < |PhaseOf(run, phase).value.steps| ==> PhaseOf(run, phase).value.steps[i].step != step
    ensures RecordStep(run, step).Ok?
    ensures var run' := RecordStep(run, step).value;
            var was := PhaseOf(run, phase).value;
            && PhaseOf(run', phase).Some?
            && var now := PhaseOf(run', phase).value;
            && now == was.(steps := now.steps) && |now.steps| == |was.steps| + 1
            && EndedTimelineOf(was.steps, now.steps[..|was.steps|], Succeeded)
            && now.steps[|was.steps|] == StepRow(step, InProgress)
            && run' == (if phase == PlanPhase then run.(plan := run'.plan) else run.(apply := run'.apply))
  {
    StepStatusIs(PhaseOf(run, phase).value.steps, step);
  }

  /** The running step recorded again changes nothing, and a step that ended is
      refused. */
  lemma OldStepIsRefused(run: Run, step: Step, phase: Phase, i: nat)
    requires run.status == Running && IsRunning(run, phase) && (phase == ApplyPhase ==> !IsRunning(run, PlanPhase))
    requires var steps := PhaseOf(run, phase).value.steps;
             && i < |steps| && steps[i].step == step
             && forall j, k :: 0 <= j < k < |steps| ==> steps[j].step != steps[k].step
    ensures RecordStep(run, step) ==
            if PhaseOf(run, phase).value.steps[i].status == InProgress then Ok(run) else Err(StepAlreadyRan)
  {
    StepStatusIs(PhaseOf(run, phase).value.steps, step);
  }

  /** A run that is not running records none. */
  lemma IdleRunsRecordNoStep(run: Run, step: Step)
    requires run.status != Running || !(IsRunning(run, PlanPhase) || IsRunning(run, ApplyPhase))
    ensures RecordStep(run, step) == Err(NotFound)
  {
  }

  /** An event is recorded exactly of a running run of its kind; it moves its
      template's live state or lifecycle, and the counts it carries go to the running
      execution. */
  lemma EventIsRecordedExactly(id: RunId, scope: Scope, input: EventInput)
    ensures var run := scope.run;
            RecordEvent(id, scope, input).Ok? <==>
              && input.operation == (if input.event == AppliedEvent then Apply else Destroy)
              && run.template == input.template && run.operation == input.operation && run.status == Running
              && (input.summary.Some? ==> IsRunning(run, PlanPhase) || IsRunning(run, ApplyPhase))
    ensures RecordEvent(id, scope, input).Ok? ==>
              var s := RecordEvent(id, scope, input).value;
              s.template == match input.event
                case AppliedEvent => scope.template.(lastApplied := Some(Recorded(id, scope.run.revision, scope.run.config)))
                case DestroyingEvent => scope.template.(lifecycle := BeingDestroyed)
                case DestroyedEvent => scope.template.(lifecycle := Gone)
    ensures RecordEvent(id, scope, input).Ok? ==>
              var run, run' := scope.run, RecordEvent(id, scope, input).value.run;
              run' == if input.summary.None? then run
                      else if IsRunning(run, PlanPhase) then run.(plan := Some(run.plan.value.(counts := input.summary)))
                      else run.(apply := Some(run.apply.value.(counts := input.summary)))
  {
  }

  // ---- A finished plan ----

  /** A finished plan without changes makes its run's snapshot live, whatever kind of
      run it is, but for a destroy. */
  lemma UnchangedFinish(id: RunId, scope: Scope, input: FinishInput)
    requires !input.hasChanges && scope.run.template == input.template && scope.run.operation == input.operation
    ensures FinishPlan(id, scope, input) == Ok((
              Scope(scope.run, if input.operation == Destroy then scope.template
                               else scope.template.(lastApplied := Some(Recorded(id, scope.run.revision, scope.run.config)))),
              NoChangesOutcome))
  {
  }

  /** A plan run's changes are counted, and that is all. */
  lemma CountedFinish(id: RunId, scope: Scope, input: FinishInput)
    requires input.hasChanges && input.operation == Plan
    requires scope.run.template == input.template && scope.run.operation == input.operation && scope.run.plan.Some?
    ensures FinishPlan(id, scope, input) == Ok((
              scope.(run := scope.run.(plan := Some(scope.run.plan.value.(counts := Some(input.summary))))),
              PlannedOutcome))
  {
  }

  /** Any other run's changes wait: counted, the running plan ended, the run waiting
      as its template's pending plan. */
  lemma WaitingFinish(id: RunId, scope: Scope, input: FinishInput)
    requires input.hasChanges && input.operation != Plan
    requires scope.run.template == input.template && scope.run.operation == input.operation && scope.run.plan.Some?
    ensures FinishPlan(id, scope, input).Ok? <==> IsRunning(scope.run, PlanPhase) || scope.run.status == WaitingApproval
    ensures FinishPlan(id, scope, input).Ok? ==>
              var (s, outcome) := FinishPlan(id, scope, input).value;
              var was := scope.run.plan.value;
              && outcome == WaitingOutcome
              && s.run == scope.run.(status := WaitingApproval, plan := s.run.plan) && s.run.plan.Some?
              && s.run.plan.value.counts == Some(input.summary)
              && (if was.status == InProgress
                  then EndedExecutionOf(was.(counts := Some(input.summary)), s.run.plan.value, Succeeded, "")
                  else s.run.plan.value == was.(counts := Some(input.summary)))
              && s.template == scope.template.(pending := Some(Recorded(id, scope.run.revision, scope.run.config)))
  {
  }

  lemma FinishIsRefused(id: RunId, scope: Scope, input: FinishInput)
    ensures scope.run.template != input.template || scope.run.operation != input.operation ==>
              FinishPlan(id, scope, input) == Err(NotFound)
    ensures input.hasChanges && scope.run.plan.None? ==> FinishPlan(id, scope, input).Err?
  {
  }

  // ---- The claim and the key ----

  /** A claim is won exactly of a run of its kind of approval that is ready for its
      apply, or already running; it starts the apply execution unless there is one,
      and is refused only where a plan execution runs. */
  lemma ClaimIsWonExactly(run: Run, autoApprove: bool)
    ensures var claim := BeginApply(run, autoApprove);
            var ready := run.autoApprove == autoApprove
                         && run.status in {Running, if autoApprove then Queued else Approved};
            && (claim.Err? <==> ready && run.apply.None? && IsRunning(run, PlanPhase))
            && (claim.Ok? ==> (claim.value.1 <==> ready))
            && (claim.Ok? && !ready ==> claim.value.0 == run)
            && (claim.Ok? && ready ==>
                  && claim.value.0 == run.(status := Running, apply := claim.value.0.apply)
                  && if run.apply.Some? then claim.value.0.apply == run.apply
                     else FreshExecution(run, ApplyPhase, claim.value.0.apply, InProgress, ""))
  {
  }

  /** A run has the key made for it first, and an ended run gets none. */
  lemma KeyIsMadeExactly(run: Run, made: Key)
    ensures CreatePlanKey(run, made).Ok? <==> run.planKey.Some? || run.status !in {Completed, Failed, Canceled}
    ensures run.planKey.Some? ==> CreatePlanKey(run, made) == Ok((run, run.planKey.value)) && PlanKey(run) == Ok(run.planKey.value)
    ensures run.planKey.None? && CreatePlanKey(run, made).Ok? ==>
              CreatePlanKey(run, made).value == (run.(planKey := Some(made)), made) && PlanKey(run).Err?
  {
  }

  // ---- Desired state ----

  /** Desired state moves exactly on an active template with no unfinished run, to
      what was asked for, and nothing else moves. */
  lemma DesiredMovesExactly(db: Db, t: TemplateId, revision: Revision, config: Config)
    ensures ChangeDesired(db, t, revision, config).Ok? <==>
              t in db.templates && db.templates[t].lifecycle == Active && AllEnded(db, t)
    ensures ChangeDesired(db, t, revision, config).Ok? ==>
              var was := db.templates[t];
              ChangeDesired(db, t, revision, config).value ==
                Db(db.runs,
                   db.templates[t := StackTemplate(revision, config, was.lastApplied, was.pending, was.lifecycle)],
                   db.planIntents, db.applyIntents)
  {
    InFlightExactly(db, t);
  }

  /** An upgrade moves it exactly when, besides, the target is an active revision of
      the template's source with a valid config. */
  lemma UpgradeMovesExactly(db: Db, t: TemplateId, target: Target)
    ensures Upgrade(db, t, target).Ok? <==>
              && target.Target? && target.active && target.sameSource && target.config.Some?
              && ChangeDesired(db, t, target.revision, target.config.value).Ok?
    ensures Upgrade(db, t, target).Ok? ==> Upgrade(db, t, target) == ChangeDesired(db, t, target.revision, target.config.value)
  {
  }

  lemma InstallIsFresh(db: Db, t: TemplateId, revision: Revision, config: Config)
    ensures Install(db, t, revision, config).Ok? <==> t !in db.templates
    ensures t !in db.templates ==>
              Install(db, t, revision, config) ==
              Ok(Db(db.runs, db.templates[t := StackTemplate(revision, config, None, None, Active)], db.planIntents, db.applyIntents))
  {
  }

  // ---- In every reachable state ----

  /** A plan execution's actor is whoever started its run. */
  lemma PlansAreTheirStarters(actions: seq<Action>, r: RunId)
    requires r in Replay(actions).db.runs && Replay(actions).db.runs[r].plan.Some?
    ensures Replay(actions).db.runs[r].plan.value.actor == Replay(actions).db.runs[r].triggerActor
  {
    RowHolds(actions, r);
  }

  /** An applied activity leaves the same rows whether or not its acknowledgement is
      lost, and one that is not applied leaves them as they were; only an
      acknowledged one takes its workflow on. */
  lemma LostAcknowledgementsStillWrite(id: RunId, c: Cell, env: Env)
    ensures c.plan.Some? ==>
              var acked, lost, failed := PlanMoves(id, c, Acked, env), PlanMoves(id, c, AckLost, env), PlanMoves(id, c, NotApplied, env);
              && lost.run == acked.run && lost.template == acked.template
              && failed.run == c.run && failed.template == c.template
              && failed.plan == lost.plan && lost.plan.value.pc in {PlanFails, PlanEnded}
    ensures c.apply.Some? ==>
              var acked, lost, failed := ApplyMoves(id, c, Acked, env), ApplyMoves(id, c, AckLost, env), ApplyMoves(id, c, NotApplied, env);
              && lost.run == acked.run && lost.template == acked.template
              && failed.run == c.run && failed.template == c.template
              && failed.apply == lost.apply && lost.apply.value.pc in {ApplyFails, ApplyEnded}
  {
  }

  /** A delivery starts the workflow from its intent, unless it has started, and takes
      the intent out only when it completes. */
  lemma DeliveriesStart(c: Cell, completes: bool)
    ensures c.planIntent.Some? ==>
              var c' := DeliveredPlan(c, completes);
              && c'.plan.Some? && (c.plan.Some? ==> c'.plan == c.plan)
              && (c.plan.None? ==> c'.plan.value.input == c.planIntent.value && c'.plan.value.pc == PlanCarries)
              && c'.planIntent == if completes then None else c.planIntent
    ensures c.applyIntent.Some? ==>
              var c' := DeliveredApply(c, completes);
              && c'.apply.Some? && (c.apply.Some? ==> c'.apply == c.apply)
              && (c.apply.None? ==> c'.apply.value.input == c.applyIntent.value && c'.apply.value.pc == ApplyCarries)
              && c'.applyIntent == if completes then None else c.applyIntent
  {
  }

  /** The plan workflow carries every run but an auto-approved one, and the apply
      workflow an apply, and a destroy that was not auto-approved. */
  lemma CarriedExactly(input: WorkflowInput)
    ensures PlanCarriesInput(input) <==> !input.autoApprove
    ensures ApplyCarriesInput(input) <==> input.operation == Apply || (input.operation == Destroy && !input.autoApprove)
  {
  }

  /** A failure its workflow records says why, on the execution that failed or on one
      made for it; a success says nothing. */
  lemma FailuresSayWhy(id: RunId, c: Cell, env: Env)
    requires CellOk(id, c)
    ensures c.plan.Some? && c.plan.value.pc == PlanFails && (c.run.status == Queued || IsRunning(c.run, PlanPhase)) ==>
              var run := PlanMoves(id, c, Acked, env).run;
              run.status == Failed && run.plan.Some? && run.plan.value.status == Broken && run.plan.value.error == env.error
    ensures c.plan.Some? && c.plan.value.pc == PlanCompletes ==>
              var run := PlanMoves(id, c, Acked, env).run;
              run.status == Completed && run.plan.Some? && run.plan.value.error == ""
  {
  }

  lemma AppliesSayWhy(id: RunId, c: Cell, env: Env)
    requires CellOk(id, c)
    ensures c.apply.Some? && c.apply.value.pc == ApplyFails && !Terminal(c.run.status) ==>
              var run := ApplyMoves(id, c, Acked, env).run;
              run.status == Failed && run.apply.Some? && run.apply.value.status == Broken && run.apply.value.error == env.error
    ensures c.apply.Some? && c.apply.value.pc == ApplyCompletes ==>
              var run := ApplyMoves(id, c, Acked, env).run;
              run.status == Completed && run.apply.Some? && run.apply.value.error == ""
  {
  }
}
