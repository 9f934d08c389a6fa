/** The store: the tables as fields, and each transaction as the statements it
    makes, in their order, with a rollback where one fails. Each is proved to
    leave exactly the tables the functions of RunTables describe. */
module RunStore {
  import opened Options
  import opened Runs
  import opened StackTemplates
  import opened RunTables

  // ---- A run's transactions, on whole tables ----

  function ScopeIn(db: Db, r: RunId): Scope
    requires r in db.runs && db.runs[r].template in db.templates
  {
    Scope(db.runs[r], db.templates[db.runs[r].template])
  }

  function PutScope(db: Db, r: RunId, scope: Scope): Db {
    db.(runs := db.runs[r := scope.run], templates := db.templates[scope.run.template := scope.template])
  }

  /** The tables after a transaction on one run: an error rolls it back. */
  function Committed(db: Db, r: RunId, result: Result<Scope>): Db {
    if result.Ok? then PutScope(db, r, result.value) else db
  }

  function ErrorOf<T>(result: Result<T>): Option<Error> {
    if result.Ok? then None else Some(result.error)
  }

  function OnTable(db: Db, r: RunId, result: Result<Run>): Result<Scope>
    requires r in db.runs && db.runs[r].template in db.templates
  {
    if result.Ok? then Ok(ScopeIn(db, r).(run := result.value)) else Err(result.error)
  }

  lemma UnchangedPut(db: Db, r: RunId)
    requires r in db.runs && db.runs[r].template in db.templates
    ensures PutScope(db, r, ScopeIn(db, r)) == db
  {
    assert db.runs == db.runs[r := db.runs[r]];
    assert db.templates == db.templates[db.runs[r].template := db.templates[db.runs[r].template]];
  }

  /** Ending a run's execution, and then the run, is one write of its scope. */
  lemma EndedPut(db: Db, r: RunId, ended: Run, input: StatusInput)
    requires r in db.runs && db.runs[r].template in db.templates
    requires EndPhase(db.runs[r], input) == Ok(Some(ended))
    ensures var t, s := db.runs[r].template, RunTables.Terminate(r, ScopeIn(db, r).(run := ended), input.status);
            && ended.template == t
            && Committed(db, r, RunTables.EndRun(r, ScopeIn(db, r), input)) ==
               db.(runs := db.runs[r := ended][r := s.run], templates := db.templates[t := s.template])
  {
    var run := RunTables.Terminate(r, ScopeIn(db, r).(run := ended), input.status).run;
    assert db.runs[r := ended][r := run] == db.runs[r := run];
  }

  class Store {
    var runs: map<RunId, Run>
    var templates: map<TemplateId, StackTemplate>
    var planIntents: map<RunId, WorkflowInput>
    var applyIntents: map<RunId, WorkflowInput>

    ghost function Contents(): Db
      reads this
    {
      Db(runs, templates, planIntents, applyIntents)
    }

    /** The tables' own constraints: a run references a template, at most one of
        its executions is running, and a pending plan is a run of its template. */
    ghost predicate Valid()
      reads this
    {
      && (forall r :: r in runs ==> runs[r].template in templates)
      && (forall r :: r in runs ==> !(IsInProgress(runs[r].plan) && IsInProgress(runs[r].apply)))
      && (forall t :: t in templates && templates[t].pending.Some? ==>
            templates[t].pending.value.run in runs && runs[templates[t].pending.value.run].template == t)
    }

    constructor ()
      ensures Valid() && Contents() == Db(map[], map[], map[], map[])
    {
      runs, templates, planIntents, applyIntents := map[], map[], map[], map[];
    }

    // ---- Statements ----

    method SetRun(r: RunId, run: Run)
      requires r in runs
      modifies this`runs
      ensures runs == old(runs)[r := run]
    {
      runs := runs[r := run];
    }

    method SetTemplate(t: TemplateId, template: StackTemplate)
      requires t in templates
      modifies this`templates
      ensures templates == old(templates)[t := template]
    {
      templates := templates[t := template];
    }

    /** Inserts an execution of the phase; one that is there already keeps its
        row. */
    method InsertWorkflowExecution(r: RunId, phase: Phase, status: ExecutionStatus, error: string)
      returns (result: Result<bool>)
      requires r in runs
      modifies this`runs
      ensures match Insert(old(runs[r]), phase, status, error)
              case Ok((run, inserted)) => result == Ok(inserted) && runs == old(runs)[r := run]
              case Err(e) => result == Err(e) && runs == old(runs)
    {
      var run := runs[r];
      if ExecutionOf(run, phase).Some? {
        assert runs == runs[r := run];
        return Ok(false);
      }
      if status == InProgress && (IsInProgress(run.plan) || IsInProgress(run.apply)) {
        return Err(UniqueViolation);
      }
      var actor := run.triggerActor;
      if phase == ApplyPhase && run.approvedBy.Some? {
        actor := run.approvedBy.value;
      }
      SetRun(r, WithExecution(run, phase, Execution(actor, status, error, None, [])));
      return Ok(true);
    }

    /** Ends the running execution of the phase, its running step first. */
    method FinishRunningExecution(r: RunId, phase: Phase, status: ExecutionStatus, error: string) returns (ended: bool)
      requires r in runs
      modifies this`runs
      ensures ended == IsInProgress(ExecutionOf(old(runs[r]), phase))
      ensures ended ==>
                runs == old(runs)[r := WithExecution(old(runs[r]), phase, EndExecution(ExecutionOf(old(runs[r]), phase).value, status, error))]
      ensures !ended ==> runs == old(runs)
    {
      var run := runs[r];
      var execution := ExecutionOf(run, phase);
      ended := IsInProgress(execution);
      if ended {
        var finished := execution.value.(steps := EndSteps(execution.value.steps, status));
        finished := finished.(status := status, error := error);
        SetRun(r, WithExecution(run, phase, finished));
      }
    }

    /** Ends the input phase's execution as its run becomes terminal; false is a
        write that is not this workflow's to make. */
    method EndWorkflowExecution(r: RunId, input: StatusInput) returns (result: Result<bool>)
      requires Valid() && r in runs
      modifies this`runs
      ensures Valid()
      ensures match EndPhase(old(runs[r]), input)
              case Ok(Some(run)) => result == Ok(true) && runs == old(runs)[r := run]
              case Ok(None) => result == Ok(false) && runs == old(runs)
              case Err(e) => result == Err(e) && runs == old(runs)
    {
      var status := if input.status == Failed then Broken else Succeeded;
      var running := RunningPhase(runs[r]);
      if running.Some? {
        if running.value != input.phase {
          return Ok(false);
        }
        var _ := FinishRunningExecution(r, input.phase, status, input.error);
        return Ok(true);
      }
      if input.status != Failed {
        return Err(NoExecution);
      }
      var run := runs[r];
      result := InsertWorkflowExecution(r, input.phase, Broken, input.error);
      assert runs[r := run] == old(runs)[r := run] == old(runs);
    }

    method RecordPlanCounts(r: RunId, summary: Summary) returns (found: bool)
      requires r in runs
      modifies this`runs
      ensures found == old(runs[r]).plan.Some?
      ensures found ==> runs == old(runs)[r := old(runs[r]).(plan := Some(old(runs[r]).plan.value.(counts := Some(summary))))]
      ensures !found ==> runs == old(runs)
    {
      var run := runs[r];
      found := run.plan.Some?;
      if found {
        SetRun(r, run.(plan := Some(run.plan.value.(counts := Some(summary)))));
      }
    }

    /** Drops the run's plan key, and clears it from whichever template is
        waiting on it. */
    method ReleaseRunPlan(r: RunId)
      requires Valid() && r in runs
      modifies this`runs, this`templates
      ensures Valid()
      ensures var s := Release(r, Scope(old(runs[r]), old(templates[runs[r].template])));
              && runs == old(runs)[r := s.run]
              && templates == old(templates)[old(runs[r]).template := s.template]
    {
      SetRun(r, runs[r].(planKey := None));
      templates := map t | t in templates ::
        if templates[t].pending.Some? && templates[t].pending.value.run == r
        then templates[t].(pending := None)
        else templates[t];
    }

    // ---- Transactions ----

    method Rollback(runs0: map<RunId, Run>, templates0: map<TemplateId, StackTemplate>)
      modifies this`runs, this`templates
      ensures runs == runs0 && templates == templates0
    {
      runs, templates := runs0, templates0;
    }

    method RecordTemplateRunStatus(r: RunId, input: StatusInput) returns (error: Option<Error>)
      requires Valid()
      modifies this`runs, this`templates
      ensures Valid()
      ensures r !in old(runs) ==> Contents() == old(Contents()) && error.Some?
      ensures r in old(runs) ==>
                var result := RecordStatus(r, ScopeIn(old(Contents()), r), input);
                Contents() == Committed(old(Contents()), r, result) && error == ErrorOf(result)
    {
      if input.status !in {Running, Completed, Failed} {
        return Some(Unsupported);
      }
      if r !in runs || runs[r].template != input.template || runs[r].operation != input.operation {
        return Some(NotFound);
      }
      ghost var before := Contents();
      var current := runs[r].status;
      if current == input.status {
        UnchangedPut(before, r);
        return None;
      }
      if current !in StatusSources(input.status) {
        return Some(BadTransition);
      }
      if input.status == Running {
        error := MarkRunning(r, input.phase);
      } else {
        error := EndRun(r, input);
      }
    }

    /** Moves a run to running and starts the phase's execution with it. */
    method MarkRunning(r: RunId, phase: Phase) returns (error: Option<Error>)
      requires Valid() && r in runs
      modifies this`runs
      ensures Valid()
      ensures match Insert(old(runs[r]).(status := Running), phase, InProgress, "")
              case Ok((run, _)) => runs == old(runs)[r := run] && error == None
              case Err(e) => runs == old(runs) && error == Some(e)
    {
      var runs0 := runs;
      SetRun(r, runs[r].(status := Running));
      var inserted := InsertWorkflowExecution(r, phase, InProgress, "");
      if inserted.Err? {
        runs := runs0;
        return Some(inserted.error);
      }
      return None;
    }

    /** Ends a run with its workflow's execution, if the write is that
        workflow's to make. */
    method EndRun(r: RunId, input: StatusInput) returns (error: Option<Error>)
      requires Valid() && r in runs
      modifies this`runs, this`templates
      ensures Valid()
      ensures var result := RunTables.EndRun(r, ScopeIn(old(Contents()), r), input);
              Contents() == Committed(old(Contents()), r, result) && error == ErrorOf(result)
    {
      ghost var before := Contents();
      var carried := EndWorkflowExecution(r, input);
      if carried.Err? {
        return Some(carried.error);
      }
      if !carried.value {
        UnchangedPut(before, r);
        return None;
      }
      ghost var ended := runs[r];
      Terminate(r, input.status);
      EndedPut(before, r, ended, input);
      return None;
    }

    /** Writes the terminal status; a destroy that failed after it began leaves
        its template failed, and the saved plan is released. */
    method Terminate(r: RunId, status: Status)
      requires Valid() && r in runs
      modifies this`runs, this`templates
      ensures Valid()
      ensures var s := RunTables.Terminate(r, Scope(old(runs[r]), old(templates[runs[r].template])), status);
              runs == old(runs)[r := s.run] && templates == old(templates)[old(runs[r]).template := s.template]
    {
      ghost var runs0, templates0 := runs, templates;
      SetRun(r, runs[r].(status := status));
      var t := runs[r].template;
      if status == Failed && runs[r].operation == Destroy && templates[t].lifecycle == BeingDestroyed {
        SetTemplate(t, templates[t].(lifecycle := Interrupted));
      }
      assert runs == runs0[r := runs[r]] && templates == templates0[t := templates[t]];
      ReleaseRunPlan(r);
      assert runs == runs0[r := runs[r]] && templates == templates0[t := templates[t]];
    }

    method RecordTemplateRunStep(r: RunId, step: Step) returns (error: Option<Error>)
      requires Valid()
      modifies this`runs
      ensures Valid()
      ensures r !in old(runs) ==> Contents() == old(Contents()) && error == Some(NotFound)
      ensures r in old(runs) ==>
                var result := OnTable(old(Contents()), r, RecordStep(old(runs[r]), step));
                Contents() == Committed(old(Contents()), r, result) && error == ErrorOf(result)
    {
      if r !in runs || runs[r].status != Running {
        return Some(NotFound);
      }
      ghost var before := Contents();
      var phase := RunningPhase(runs[r]);
      if phase.None? {
        return Some(NotFound);
      }
      var execution := ExecutionOf(runs[r], phase.value).value;
      var existing := StepStatus(execution.steps, step);
      if existing == Some(InProgress) {
        UnchangedPut(before, r);
        return None;
      }
      if existing.Some? {
        return Some(StepAlreadyRan);
      }
      execution := execution.(steps := EndSteps(execution.steps, Succeeded));
      execution := execution.(steps := execution.steps + [StepRow(step, InProgress)]);
      SetRun(r, WithExecution(runs[r], phase.value, execution));
      return None;
    }

    method RecordTemplateRunEvent(r: RunId, input: EventInput) returns (error: Option<Error>)
      requires Valid()
      modifies this`runs, this`templates
      ensures Valid()
      ensures r !in old(runs) ==> Contents() == old(Contents()) && error.Some?
      ensures r in old(runs) ==>
                var result := RecordEvent(r, ScopeIn(old(Contents()), r), input);
                Contents() == Committed(old(Contents()), r, result) && error == ErrorOf(result)
    {
      if input.operation != EventOperation(input.event) {
        return Some(Unsupported);
      }
      if r !in runs || runs[r].template != input.template || runs[r].operation != input.operation
         || runs[r].status != Running {
        return Some(NotFound);
      }
      if input.summary.Some? {
        var phase := RunningPhase(runs[r]);
        if phase.None? {
          return Some(NoExecution);
        }
        var execution := ExecutionOf(runs[r], phase.value).value;
        SetRun(r, WithExecution(runs[r], phase.value, execution.(counts := input.summary)));
      }
      RecordOnTemplate(r, input.event);
      assert input.summary.None? ==> runs == runs[r := runs[r]];
      return None;
    }

    /** Records what the event says of the run's template: what is live, or how far
        its destroy has come. */
    method RecordOnTemplate(r: RunId, event: Event)
      requires Valid() && r in runs
      modifies this`templates
      ensures Valid()
      ensures templates == old(templates)[runs[r].template := EventOnTemplate(r, Scope(runs[r], old(templates)[runs[r].template]), event)]
    {
      var t := runs[r].template;
      match event {
        case AppliedEvent => SetTemplate(t, templates[t].(lastApplied := Some(Recorded(r, runs[r].revision, runs[r].config))));
        case DestroyingEvent => SetTemplate(t, templates[t].(lifecycle := BeingDestroyed));
        case DestroyedEvent => SetTemplate(t, templates[t].(lifecycle := Gone));
      }
    }

    method FinishTemplatePlan(r: RunId, input: FinishInput) returns (result: Result<PlanOutcome>)
      requires Valid()
      modifies this`runs, this`templates
      ensures Valid()
      ensures r !in old(runs) ==> Contents() == old(Contents()) && result == Err(NotFound)
      ensures r in old(runs) ==>
                match FinishPlan(r, ScopeIn(old(Contents()), r), input)
                case Ok((s, outcome)) => Contents() == PutScope(old(Contents()), r, s) && result == Ok(outcome)
                case Err(e) => Contents() == old(Contents()) && result == Err(e)
    {
      if r !in runs || runs[r].template != input.template || runs[r].operation != input.operation {
        return Err(NotFound);
      }
      var t := runs[r].template;
      if !input.hasChanges {
        if input.operation != Destroy {
          SetTemplate(t, templates[t].(lastApplied := Some(Recorded(r, runs[r].revision, runs[r].config))));
        }
        assert runs == runs[r := runs[r]] && templates == templates[t := templates[t]];
        return Ok(NoChangesOutcome);
      }
      if input.operation == Plan {
        var counted := RecordPlanCounts(r, input.summary);
        assert templates == templates[t := templates[t]];
        return if counted then Ok(PlannedOutcome) else Err(NoPlanExecution);
      }
      result := RecordPendingPlan(r, input);
    }

    /** Writes the run waiting and its plan pending, before it is known whether the
        plan was this run's to end. */
    method WritePending(r: RunId)
      requires Valid() && r in runs
      modifies this`runs, this`templates
      ensures Valid()
      ensures runs == old(runs)[r := old(runs[r]).(status := WaitingApproval)]
      ensures var t := old(runs[r]).template;
              templates == old(templates)[t := old(templates)[t].(pending := Some(Snapshot(r, old(runs[r]))))]
    {
      var t := runs[r].template;
      SetRun(r, runs[r].(status := WaitingApproval));
      SetTemplate(t, templates[t].(pending := Some(Recorded(r, runs[r].revision, runs[r].config))));
    }

    /** Counts the plan and ends its execution, if it is there, and running. */
    method CountAndEndPlan(r: RunId, summary: Summary) returns (counted: bool, ended: bool)
      requires Valid() && r in runs
      modifies this`runs
      ensures counted == old(runs[r]).plan.Some? && ended == IsInProgress(old(runs[r]).plan)
      ensures !counted ==> runs == old(runs)
      ensures counted ==>
                var plan := old(runs[r]).plan.value.(counts := Some(summary));
                Valid() && runs == old(runs)[r := old(runs[r]).(plan := Some(if ended then EndExecution(plan, Succeeded, "") else plan))]
    {
      ended := false;
      counted := RecordPlanCounts(r, summary);
      if counted {
        ended := FinishRunningExecution(r, PlanPhase, Succeeded, "");
      }
    }

    /** Takes the writes back when the plan was not this run's to end. */
    method RecordPendingPlan(r: RunId, input: FinishInput) returns (result: Result<PlanOutcome>)
      requires Valid() && r in runs && runs[r].template == input.template && runs[r].operation == input.operation
      requires input.hasChanges && input.operation != Plan
      modifies this`runs, this`templates
      ensures Valid()
      ensures match FinishPlan(r, ScopeIn(old(Contents()), r), input)
              case Ok((s, outcome)) => Contents() == PutScope(old(Contents()), r, s) && result == Ok(outcome)
              case Err(e) => Contents() == old(Contents()) && result == Err(e)
    {
      var runs0, templates0 := runs, templates;
      WritePending(r);
      var counted, ended := CountAndEndPlan(r, input.summary);
      if !counted {
        Rollback(runs0, templates0);
        return Err(NoPlanExecution);
      }
      if !ended && runs0[r].status != WaitingApproval {
        Rollback(runs0, templates0);
        return Err(NoExecution);
      }
      return Ok(WaitingOutcome);
    }

    method BeginTemplateApply(r: RunId, autoApprove: bool) returns (result: Result<bool>)
      requires Valid()
      modifies this`runs
      ensures Valid()
      ensures r !in old(runs) ==> Contents() == old(Contents()) && result == Ok(false)
      ensures r in old(runs) ==>
                match BeginApply(old(runs[r]), autoApprove)
                case Ok((run, claimed)) =>
                  Contents() == PutScope(old(Contents()), r, ScopeIn(old(Contents()), r).(run := run)) && result == Ok(claimed)
                case Err(e) => Contents() == old(Contents()) && result == Err(e)
    {
      var from := if autoApprove then Queued else Approved;
      if r !in runs || runs[r].status !in {from, Running} || runs[r].autoApprove != autoApprove {
        if r in runs { UnchangedPut(Contents(), r); }
        return Ok(false);
      }
      UnchangedPut(Contents(), r);
      var refused := MarkRunning(r, ApplyPhase);
      return if refused.Some? then Err(refused.value) else Ok(true);
    }

    method CreatePlanKeyColumn(r: RunId, made: Key) returns (result: Result<Key>)
      requires Valid()
      modifies this`runs
      ensures Valid()
      ensures r !in old(runs) ==> Contents() == old(Contents()) && result == Err(NotFound)
      ensures r in old(runs) ==>
                match CreatePlanKey(old(runs[r]), made)
                case Ok((run, key)) =>
                  Contents() == PutScope(old(Contents()), r, ScopeIn(old(Contents()), r).(run := run)) && result == Ok(key)
                case Err(e) => Contents() == old(Contents()) && result == Err(e)
    {
      if r !in runs {
        return Err(NotFound);
      }
      assert templates == templates[runs[r].template := templates[runs[r].template]];
      if runs[r].planKey.Some? {
        assert runs == runs[r := runs[r]];
        return Ok(runs[r].planKey.value);
      }
      if Terminal(runs[r].status) {
        return Err(NoPlanKey);
      }
      SetRun(r, runs[r].(planKey := Some(made)));
      return Ok(made);
    }

    // ---- Service commands ----

    /** Whether a run of the template is unfinished, looked for run by run. */
    method HasRunInFlight(t: TemplateId) returns (found: bool)
      ensures found <==> InFlight(Db(runs, templates, planIntents, applyIntents), t)
    {
      var rest := runs.Keys;
      while rest != {}
        invariant rest <= runs.Keys
        invariant forall r :: r in runs && r !in rest && runs[r].template == t ==> Terminal(runs[r].status)
        decreases |rest|
      {
        var r :| r in rest;
        if runs[r].template == t && !Terminal(runs[r].status) {
          return true;
        }
        rest := rest - {r};
      }
      return false;
    }

    /** Creates a queued run; its start intent commits with it. */
    method StartTemplateRun(r: RunId, command: StartCommand) returns (error: Option<Error>)
      requires Valid()
      modifies this`runs, this`planIntents, this`applyIntents
      ensures Valid()
      ensures match StartRun(old(Contents()), r, command)
              case Ok(db) => Contents() == db && error == None
              case Err(e) => Contents() == old(Contents()) && error == Some(e)
    {
      if command.autoApprove && command.operation != Apply {
        return Some(InvalidCommand);
      }
      if command.template !in templates {
        return Some(NotFound);
      }
      var template := templates[command.template];
      if template.lifecycle != Active {
        return Some(NotRunnable);
      }
      var run := Run(command.template, command.operation, command.autoApprove,
        template.desiredRevision, DesiredConfig(template), command.actor, Queued, None, None, None, None);
      var input := WorkflowInput(r, run.template, run.operation, run.autoApprove);
      if r in runs {
        return Some(UniqueViolation);
      }
      var busy := HasRunInFlight(command.template);
      if busy {
        return Some(RunInFlight);
      }
      runs := runs[r := run];
      if command.autoApprove {
        if r !in applyIntents { applyIntents := applyIntents[r := input]; }
      } else {
        if r !in planIntents { planIntents := planIntents[r := input]; }
      }
      return None;
    }

    /** Moves a waiting run to approved and inserts its approval, of which a run has
        at most one. */
    method ApproveRow(r: RunId, actor: UserId) returns (error: Option<Error>)
      requires Valid() && r in runs
      modifies this`runs
      ensures Valid()
      ensures match Approve(old(runs[r]), actor)
              case Ok(run) => error == None && runs == old(runs)[r := run]
              case Err(e) => error == Some(e) && runs == old(runs)
    {
      var runs0 := runs;
      if runs[r].status != WaitingApproval {
        return Some(NotApprovable);
      }
      SetRun(r, runs[r].(status := Approved));
      if runs[r].approvedBy.Some? {
        runs := runs0;
        return Some(UniqueViolation);
      }
      SetRun(r, runs[r].(approvedBy := Some(actor)));
      return None;
    }

    /** Approves a waiting run; the approval and the apply's start intent commit
        together. */
    method ApproveTemplateRun(r: RunId, actor: UserId) returns (error: Option<Error>)
      requires Valid()
      modifies this`runs, this`applyIntents
      ensures Valid()
      ensures r !in old(runs) ==> Contents() == old(Contents()) && error == Some(NotFound)
      ensures r in old(runs) ==>
                match ApproveRun(r, ScopeIn(old(Contents()), r), actor)
                case Ok(run) =>
                  && error == None
                  && Contents() == old(Contents()).(
                       runs := old(runs)[r := run],
                       applyIntents := Enqueue(old(applyIntents), InputOf(r, run)))
                case Err(e) => Contents() == old(Contents()) && error == Some(e)
    {
      if r !in runs {
        return Some(NotFound);
      }
      var run := runs[r];
      if run.status != WaitingApproval {
        return Some(NotApprovable);
      }
      var template := templates[run.template];
      if template.pending.None? || template.pending.value.run != r || PlanStateOf(template) != PlanMatches {
        return Some(PlanIsStale);
      }
      error := ApproveRow(r, actor);
      if error.Some? {
        return;
      }
      if r !in applyIntents {
        applyIntents := applyIntents[r := WorkflowInput(r, run.template, run.operation, run.autoApprove)];
      }
      return None;
    }

    method DiscardTemplateRun(r: RunId) returns (error: Option<Error>)
      requires Valid()
      modifies this`runs, this`templates
      ensures Valid()
      ensures r !in old(runs) ==> Contents() == old(Contents()) && error == Some(NotFound)
      ensures r in old(runs) ==>
                var result := Discard(r, ScopeIn(old(Contents()), r));
                Contents() == Committed(old(Contents()), r, result) && error == ErrorOf(result)
    {
      if r !in runs {
        return Some(NotFound);
      }
      if runs[r].status !in {WaitingApproval, Approved} {
        return Some(NotDiscardable);
      }
      SetRun(r, runs[r].(status := Canceled));
      ReleaseRunPlan(r);
      return None;
    }

    /** Moves an active template with no run in flight to another active revision of
        its source, with a config valid for it. */
    method UpgradeStackTemplate(t: TemplateId, target: Target) returns (error: Option<Error>)
      requires Valid()
      modifies this`templates
      ensures Valid()
      ensures match Upgrade(old(Contents()), t, target)
              case Ok(db) => Contents() == db && error == None
              case Err(e) => Contents() == old(Contents()) && error == Some(e)
    {
      if t !in templates {
        return Some(NotFound);
      }
      if templates[t].lifecycle != Active {
        return Some(UpgradeInvalid);
      }
      var busy := HasRunInFlight(t);
      if busy {
        return Some(RunInFlight);
      }
      match target {
        case UnknownRevision => return Some(NotFound);
        case Target(revision, active, sameSource, config) =>
          if !active {
            return Some(NotInstallable);
          }
          if !sameSource {
            return Some(UpgradeInvalid);
          }
          if config.None? {
            return Some(InvalidCommand);
          }
          SetTemplate(t, templates[t].(desiredRevision := revision, desiredConfig := config.value));
          return None;
      }
    }
  }
}
