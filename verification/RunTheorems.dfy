/** What the template-run protocol guarantees, in every state that any sequence
    of commands, deliveries and workflow activities reaches. */
module RunTheorems {
  import opened Options
  import opened Runs
  import opened StackTemplates
  import opened RunTables
  import opened RunProtocol
  import opened RunInvariant
  import opened RunReachability

  // ---- In every reachable state ----

  /** A run is running exactly when one of its executions is, and never both. */
  lemma RunningExactlyWithOneExecution(actions: seq<Action>, r: RunId)
    requires r in Replay(actions).db.runs
    ensures var run := Replay(actions).db.runs[r];
            && (run.status == Running <==> IsInProgress(run.plan) || IsInProgress(run.apply))
            && !(IsInProgress(run.plan) && IsInProgress(run.apply))
  {
    RunHolds(actions, r);
  }

  /** An apply about to claim its run never meets a running plan: the claim is
      never refused by the database, and it is lost exactly when a discard won. */
  lemma ClaimMeetsNoRunningPlan(actions: seq<Action>, r: RunId)
    requires r in Replay(actions).applies && Replay(actions).applies[r].pc == ApplyClaims
    ensures r in Replay(actions).db.runs
    ensures var run := Replay(actions).db.runs[r];
            var claim := BeginApply(run, Replay(actions).applies[r].input.autoApprove);
            && !IsInProgress(run.plan) && run.apply.None?
            && claim.Ok? && (claim.value.1 <==> run.status != Canceled)
            && (claim.value.1 ==> claim.value.0.apply.Some? && claim.value.0.apply.value.actor == ActorOf(run, ApplyPhase))
  {
    OwnedHolds(actions);
    RunHolds(actions, r);
  }

  /** A queued run has its start intent pending or its workflow started, of the
      kind its auto-approval calls for; so has an approved run its apply. */
  lemma NothingStranded(actions: seq<Action>, r: RunId)
    requires r in Replay(actions).db.runs
    ensures var s := Replay(actions); var run := s.db.runs[r];
            && (run.status == Queued && !run.autoApprove ==> r in s.plans || Lookup(s.db.planIntents, r) == Some(InputOf(r, run)))
            && (run.status == Queued && run.autoApprove ==> r in s.applies || Lookup(s.db.applyIntents, r) == Some(InputOf(r, run)))
            && (run.status == Approved ==> r in s.applies || Lookup(s.db.applyIntents, r) == Some(InputOf(r, run)))
  {
    RunHolds(actions, r);
  }

  /** A run that waits or is approved has its plan key; a run that ended has
      none. */
  lemma PlanKeyWhileWanted(actions: seq<Action>, r: RunId)
    requires r in Replay(actions).db.runs
    ensures var run := Replay(actions).db.runs[r];
            && (HoldsPlan(run) ==> run.planKey.Some?)
            && (Terminal(run.status) ==> run.planKey.None?)
  {
    RunHolds(actions, r);
  }

  /** A template's pending plan names a run exactly when that run is the
      template's and holds a saved plan, and is then the run's own snapshot. */
  lemma PendingPlanNames(actions: seq<Action>, t: TemplateId, r: RunId)
    requires t in Replay(actions).db.templates
    ensures var db := Replay(actions).db; var pending := db.templates[t].pending;
            && ((pending.Some? && pending.value.run == r)
                <==> (r in db.runs && db.runs[r].template == t && HoldsPlan(db.runs[r])))
            && (pending.Some? && pending.value.run == r ==> pending == Some(Snapshot(r, db.runs[r])))
  {
    TemplateHolds(actions, t);
    if r in Replay(actions).db.runs { RunHolds(actions, r); }
  }

  /** A run in flight is a run of its template's desired state, the only one in
      flight; so a waiting run's plan matches, and approving it is never refused
      as stale. */
  lemma ApprovalNeverStale(actions: seq<Action>, r: RunId, actor: UserId)
    requires r in Replay(actions).db.runs
    ensures var s := Replay(actions); var run := s.db.runs[r];
            && Known(s, r)
            && var template := s.db.templates[run.template];
            && (!Terminal(run.status) ==> run.revision == template.desiredRevision && run.config == template.desiredConfig)
            && (!Terminal(run.status) ==> forall q :: q in s.db.runs && s.db.runs[q].template == run.template && q != r ==>
                  Terminal(s.db.runs[q].status))
            && (run.status == WaitingApproval ==> PlanStateOf(template) == PlanMatches)
            && (ApproveRun(r, ScopeOf(CellOf(s, r)), actor).Ok? <==> run.status == WaitingApproval)
            && (run.status != WaitingApproval ==> ApproveRun(r, ScopeOf(CellOf(s, r)), actor) == Err(NotApprovable))
  {
    RunHolds(actions, r);
    TemplateHolds(actions, Replay(actions).db.runs[r].template);
  }

  /** A template being destroyed has exactly one run in flight, a destroy that
      is running its apply: no ended run leaves its template destroying. */
  lemma DestroyingHasItsRun(actions: seq<Action>, t: TemplateId)
    requires t in Replay(actions).db.templates && Replay(actions).db.templates[t].lifecycle == BeingDestroyed
    ensures var db := Replay(actions).db;
            exists r :: r in db.runs && db.runs[r].template == t && DestroyApplying(db.runs[r])
              && forall q :: q in db.runs && db.runs[q].template == t && q != r ==> Terminal(db.runs[q].status)
  {
    TemplateHolds(actions, t);
    var db := Replay(actions).db;
    var r :| r in db.runs && db.runs[r].template == t && DestroyApplying(db.runs[r]);
    assert forall q :: q in db.runs && db.runs[q].template == t && q != r ==> Terminal(db.runs[q].status);
  }

  lemma RowTimeline(run: Run, phase: Phase)
    requires RowOk(run) && ExecutionOf(run, phase).Some?
    ensures Timeline(ExecutionOf(run, phase).value.steps, ExecutionOf(run, phase).value.status)
  {
  }

  /** Each execution's steps are in the order a run takes them; all but the last
      succeeded, and the last stands as the execution does. */
  lemma TimelinesAreWhole(actions: seq<Action>, r: RunId, phase: Phase)
    requires r in Replay(actions).db.runs && ExecutionOf(Replay(actions).db.runs[r], phase).Some?
    ensures var execution := ExecutionOf(Replay(actions).db.runs[r], phase).value;
            Timeline(execution.steps, execution.status)
  {
    RowHolds(actions, r);
    RowTimeline(Replay(actions).db.runs[r], phase);
  }

  lemma NextStepIsNew(id: RunId, c: Cell)
    requires CellOk(id, c)
    ensures c.plan.Some? && c.plan.value.pc.PlanRecords? ==> RecordStep(c.run, c.plan.value.pc.step).Ok?
    ensures c.apply.Some? && c.apply.value.pc.ApplyRecords? ==> RecordStep(c.run, c.apply.value.pc.step).Ok?
  {
    if c.plan.Some? && c.plan.value.pc.PlanRecords? { StepExtends(c.run, c.plan.value.pc.step, PlanPhase); }
    if c.apply.Some? && c.apply.value.pc.ApplyRecords? { StepExtends(c.run, c.apply.value.pc.step, ApplyPhase); }
  }

  /** No workflow is ever told that a step already ran, nor that its run is not
      running. */
  lemma StepsAreAlwaysNew(actions: seq<Action>, r: RunId)
    requires r in Replay(actions).db.runs
    ensures var s := Replay(actions);
            && (r in s.plans && s.plans[r].pc.PlanRecords? ==> RecordStep(s.db.runs[r], s.plans[r].pc.step).Ok?)
            && (r in s.applies && s.applies[r].pc.ApplyRecords? ==> RecordStep(s.db.runs[r], s.applies[r].pc.step).Ok?)
  {
    RunHolds(actions, r);
    NextStepIsNew(r, CellOf(Replay(actions), r));
  }

  // ---- Late writers ----

  /** Once a run's plan execution has ended, no status write of the plan phase
      changes anything, whatever it says: in flight, applying or ended. */
  lemma LatePlanStatusIsHarmless(id: RunId, scope: Scope, input: StatusInput)
    requires RowOk(scope.run) && scope.run.plan.Some? && !IsInProgress(scope.run.plan)
    requires input.phase == PlanPhase
    ensures RecordStatus(id, scope, input).Err? || RecordStatus(id, scope, input) == Ok(scope)
  {
  }

  /** Nor does a late FinishPlan with changes move the run, touch its apply, its
      approval or its key, or reopen its plan. It is accepted for a plan run, and for
      a run still waiting, and then only the counts it records can differ. */
  lemma RetriedFinishIsHarmless(id: RunId, scope: Scope, input: FinishInput)
    requires RowOk(scope.run) && scope.run.plan.Some? && !IsInProgress(scope.run.plan)
    requires input.hasChanges && scope.run.template == input.template && scope.run.operation == input.operation
    ensures FinishPlan(id, scope, input).Ok? <==> input.operation == Plan || scope.run.status == WaitingApproval
    ensures FinishPlan(id, scope, input).Ok? ==>
              var s := FinishPlan(id, scope, input).value.0;
              && s.run == scope.run.(plan := Some(scope.run.plan.value.(counts := Some(input.summary))))
              && s.template == if input.operation == Plan then scope.template else scope.template.(pending := Some(Snapshot(id, scope.run)))
  {
  }

  /** Without changes FinishPlan has no such guard: it rewrites what is live
      whatever the run's status, so it leaves the template alone exactly for a
      destroy, or for a run that is live already. */
  lemma UnchangedFinishIsUnguarded(id: RunId, scope: Scope, input: FinishInput)
    requires !input.hasChanges && scope.run.template == input.template && scope.run.operation == input.operation
    ensures FinishPlan(id, scope, input).Ok?
    ensures FinishPlan(id, scope, input).value.0.template == scope.template
            <==> input.operation == Destroy || scope.template.lastApplied == Some(Snapshot(id, scope.run))
  {
  }

  /** So in any interleaving with approvals, discards and the apply: once a run's
      plan execution has ended, a late write of the plan phase, whatever it says,
      leaves its template, its status, its approval, its key and its apply as they
      are. */
  lemma LatePlanWritersAreHarmless(actions: seq<Action>, r: RunId, status: StatusInput, finish: FinishInput)
    requires r in Replay(actions).db.runs
    requires var run := Replay(actions).db.runs[r]; run.plan.Some? && !IsInProgress(run.plan)
    requires status.phase == PlanPhase && finish.hasChanges
    ensures var s := Replay(actions); var run := s.db.runs[r];
            && Known(s, r)
            && var scope := ScopeOf(CellOf(s, r));
               var late, again := RecordStatus(r, scope, status), FinishPlan(r, scope, finish);
            && (late.Ok? ==> late.value == scope)
            && (again.Ok? ==>
                  && (run.operation == Plan || run.status == WaitingApproval)
                  && again.value.0 == scope.(run := run.(plan := Some(run.plan.value.(counts := Some(finish.summary))))))
  {
    RunHolds(actions, r);
    var s := Replay(actions);
    LatePlanStatusIsHarmless(r, ScopeOf(CellOf(s, r)), status);
    if finish.template == s.db.runs[r].template && finish.operation == s.db.runs[r].operation {
      RetriedFinishIsHarmless(r, ScopeOf(CellOf(s, r)), finish);
    }
  }
}
