/** What the protocol guarantees over whole histories: how a run's status moves,
    where approvals and applies come from, and what a run leaves behind. */
module RunHistory {
  import opened Options
  import opened Runs
  import opened StackTemplates
  import opened RunTables
  import opened RunProtocol
  import opened RunInvariant
  import opened RunReachability

  /** The run's row after the actions. */
  function RunAfter(actions: seq<Action>, r: RunId): Option<Run> {
    Lookup(Replay(actions).db.runs, r)
  }

  function Before(actions: seq<Action>): seq<Action>
    requires actions != []
  {
    actions[..|actions| - 1]
  }

  /** The history, one action longer. */
  function Longer(actions: seq<Action>, action: Action): (after: seq<Action>)
    ensures Replay(after) == Do(Replay(actions), action)
    ensures after != [] && Before(after) == actions
  {
    var after := actions + [action];
    assert after[..|after| - 1] == actions;
    after
  }

  // ---- A run only moves on ----

  /** run' is run at a later moment: what a run is never changes, its stage never
      falls, its approval and its key stay while it is in flight, and a run that
      has ended keeps its whole row. */
  predicate Later(run: Run, run': Run) {
    && SameRun(run, run')
    && Stage(run) <= Stage(run')
    && (Terminal(run.status) ==> run' == run)
    && (run.approvedBy.Some? ==> run'.approvedBy == run.approvedBy)
    && (run.planKey.Some? ==> run'.planKey == run.planKey || Terminal(run'.status))
  }

  lemma LastActionIsLater(actions: seq<Action>, r: RunId)
    requires actions != [] && RunAfter(Before(actions), r).Some?
    ensures RunAfter(actions, r).Some?
    ensures var run, run' := RunAfter(Before(actions), r).value, RunAfter(actions, r).value;
            Later(run, run') && (run'.status != run.status ==> Stage(run) < Stage(run'))
  {
    var s := Replay(Before(actions));
    Reachable(Before(actions));
    DoMovesRun(s, actions[|actions| - 1], r);
  }

  lemma {:induction false} RunsOnlyMoveOn(actions: seq<Action>, n: nat, r: RunId)
    requires n <= |actions| && RunAfter(actions[..n], r).Some?
    ensures RunAfter(actions, r).Some?
    ensures Later(RunAfter(actions[..n], r).value, RunAfter(actions, r).value)
  {
    if n == |actions| {
      assert actions[..n] == actions;
    } else {
      assert Before(actions)[..n] == actions[..n];
      RunsOnlyMoveOn(Before(actions), n, r);
      LastActionIsLater(actions, r);
    }
  }

  /** Whenever a run has a plan key, it is the same key. */
  lemma PlanKeysAgree(actions: seq<Action>, n: nat, r: RunId)
    requires n <= |actions| && RunAfter(actions[..n], r).Some? && RunAfter(actions, r).Some?
    requires RunAfter(actions[..n], r).value.planKey.Some? && RunAfter(actions, r).value.planKey.Some?
    ensures RunAfter(actions[..n], r).value.planKey == RunAfter(actions, r).value.planKey
  {
    RunsOnlyMoveOn(actions, n, r);
    RowHolds(actions, r);
  }

  // ---- How often a status changes ----

  /** The last action moved the run to another status. */
  predicate StatusMoved(actions: seq<Action>, r: RunId)
    requires actions != []
  {
    var before, after := RunAfter(Before(actions), r), RunAfter(actions, r);
    before.Some? && after.Some? && before.value.status != after.value.status
  }

  function StatusChanges(actions: seq<Action>, r: RunId): nat {
    if actions == [] then 0
    else StatusChanges(Before(actions), r) + if StatusMoved(actions, r) then 1 else 0
  }

  /** How often the run came to a stage: 1 planning, 2 waiting, 3 approved,
      4 applying, 5 ended. */
  function Entries(actions: seq<Action>, r: RunId, stage: nat): nat {
    if actions == [] then 0
    else Entries(Before(actions), r, stage) +
         if StatusMoved(actions, r) && Stage(RunAfter(actions, r).value) == stage then 1 else 0
  }

  /** A run that is not there has no history. */
  lemma {:induction false} NoRunNoHistory(actions: seq<Action>, r: RunId, stage: nat)
    requires RunAfter(actions, r).None?
    ensures StatusChanges(actions, r) == 0 && Entries(actions, r, stage) == 0
  {
    if actions != [] {
      if RunAfter(Before(actions), r).Some? { LastActionIsLater(actions, r); }
      NoRunNoHistory(Before(actions), r, stage);
    }
  }

  lemma {:induction false} ChangesClimb(actions: seq<Action>, r: RunId)
    requires RunAfter(actions, r).Some?
    ensures StatusChanges(actions, r) <= Stage(RunAfter(actions, r).value)
  {
    if actions != [] {
      if RunAfter(Before(actions), r).Some? {
        ChangesClimb(Before(actions), r);
        LastActionIsLater(actions, r);
      } else {
        NoRunNoHistory(Before(actions), r, 0);
      }
    }
  }

  /** Any history of a run has at most five status changes. */
  lemma AtMostFiveStatusChanges(actions: seq<Action>, r: RunId)
    ensures StatusChanges(actions, r) <= 5
  {
    if RunAfter(actions, r).Some? { ChangesClimb(actions, r); } else { NoRunNoHistory(actions, r, 0); }
  }

  /** A run comes to each stage at most once: it waits at most once, is approved
      at most once, applies at most once and ends at most once. */
  lemma {:induction false} EachStageAtMostOnce(actions: seq<Action>, r: RunId, stage: nat)
    ensures Entries(actions, r, stage) <= 1
    ensures Entries(actions, r, stage) == 1 ==> RunAfter(actions, r).Some? && stage <= Stage(RunAfter(actions, r).value)
  {
    if actions != [] {
      EachStageAtMostOnce(Before(actions), r, stage);
      if RunAfter(Before(actions), r).Some? { LastActionIsLater(actions, r); }
    }
  }

  // ---- Where an apply comes from ----

  lemma StatusKeepsApproval(id: RunId, scope: Scope, input: StatusInput)
    ensures var result := RecordStatus(id, scope, input);
            result.Ok? ==> result.value.run.approvedBy == scope.run.approvedBy
  {
  }

  lemma PlanKeepsApproval(id: RunId, c: Cell, env: Env)
    requires c.plan.Some?
    ensures var effect := PlanEffect(id, c, env);
            effect.Ok? ==> effect.value.run.approvedBy == c.run.approvedBy
  {
    match c.plan.value.pc
    case PlanMarksRunning => StatusKeepsApproval(id, ScopeOf(c), PlanStatus(c, Running, ""));
    case PlanCompletes => StatusKeepsApproval(id, ScopeOf(c), PlanStatus(c, Completed, ""));
    case PlanFails => StatusKeepsApproval(id, ScopeOf(c), PlanStatus(c, Failed, env.error));
    case _ =>
  }

  lemma ApplyKeepsApproval(id: RunId, c: Cell, env: Env)
    requires c.apply.Some?
    ensures var effect := ApplyEffect(id, c, env);
            effect.Ok? ==> effect.value.run.approvedBy == c.run.approvedBy
  {
    match c.apply.value.pc
    case ApplyCompletes => StatusKeepsApproval(id, ScopeOf(c), ApplyStatus(c, Completed, ""));
    case ApplyFails => StatusKeepsApproval(id, ScopeOf(c), ApplyStatus(c, Failed, env.error));
    case _ =>
  }

  lemma ApprovalSource(id: RunId, c: Cell, move: Move)
    ensures var c' := Moved(id, c, move);
            c'.run.approvedBy == c.run.approvedBy
            || (move.ApproveMove? && c'.run.approvedBy == Some(move.actor)
                && c.run.status == WaitingApproval && c.run.approvedBy.None? && c'.run.status == Approved)
  {
    match move
    case PlanMove(_, env) => if c.plan.Some? { PlanKeepsApproval(id, c, env); }
    case ApplyMove(_, env) => if c.apply.Some? { ApplyKeepsApproval(id, c, env); }
    case _ =>
  }

  /** Only an approval that takes effect, on a waiting run, sets who approved it. */
  lemma DoApprovalSource(s: System, action: Action, r: RunId)
    requires Known(s, r)
    ensures r in Do(s, action).db.runs
    ensures var run, run' := s.db.runs[r], Do(s, action).db.runs[r];
            run'.approvedBy == run.approvedBy
            || (run'.approvedBy.Some? && action == OnRun(r, ApproveMove(run'.approvedBy.value))
                && run.status == WaitingApproval && run.approvedBy.None? && run'.status == Approved)
  {
    if action.OnRun? && Known(s, action.run) {
      ApprovalSource(action.run, CellOf(s, action.run), action.move);
    }
  }

  /** The n-th action is the actor's approval of the run, and takes effect. */
  predicate ApprovedAt(actions: seq<Action>, n: nat, r: RunId, actor: UserId) {
    && n < |actions| && actions[n] == OnRun(r, ApproveMove(actor))
    && RunAfter(actions[..n], r).Some? && RunAfter(actions[..n + 1], r).Some?
    && var run, run' := RunAfter(actions[..n], r).value, RunAfter(actions[..n + 1], r).value;
       && run.status == WaitingApproval && run.approvedBy == None
       && run'.status == Approved && run'.approvedBy == Some(actor)
  }

  lemma ApprovalStays(actions: seq<Action>, n: nat, r: RunId, actor: UserId)
    requires actions != [] && ApprovedAt(Before(actions), n, r, actor)
    ensures ApprovedAt(actions, n, r, actor)
  {
    assert Before(actions)[..n] == actions[..n] && Before(actions)[..n + 1] == actions[..n + 1];
  }

  /** Whoever a run's row says approved it did: at one action of the run's history
      their approval found it waiting and left it approved by them. */
  lemma {:induction false} ApproversApproved(actions: seq<Action>, r: RunId) returns (n: nat)
    requires RunAfter(actions, r).Some? && RunAfter(actions, r).value.approvedBy.Some?
    ensures ApprovedAt(actions, n, r, RunAfter(actions, r).value.approvedBy.value)
  {
    if RunAfter(Before(actions), r).Some? {
      KnownHolds(Before(actions), r);
      DoApprovalSource(Replay(Before(actions)), actions[|actions| - 1], r);
      if RunAfter(Before(actions), r).value.approvedBy == RunAfter(actions, r).value.approvedBy {
        n := ApproversApproved(Before(actions), r);
        ApprovalStays(actions, n, r, RunAfter(actions, r).value.approvedBy.value);
      } else {
        n := |actions| - 1;
        assert actions[..n] == Before(actions) && actions[..n + 1] == actions;
      }
    } else {
      var _ := StartedBy(Replay(Before(actions)), actions[|actions| - 1], r);
    }
  }

  /** The n-th action is the start command, and creates the run as it asks: queued,
      with the revision and config its template is then to have, an absent config
      being the empty object. */
  predicate StartedAt(actions: seq<Action>, n: nat, r: RunId, command: StartCommand) {
    && n < |actions| && actions[n] == Start(r, command)
    && RunAfter(actions[..n], r) == None && RunAfter(actions[..n + 1], r).Some?
    && command.template in Replay(actions[..n]).db.templates
    && var run, template := RunAfter(actions[..n + 1], r).value, Replay(actions[..n]).db.templates[command.template];
       && run.template == command.template && run.operation == command.operation
       && run.autoApprove == command.autoApprove && run.triggerActor == command.actor
       && run.revision == template.desiredRevision
       && run.config == (if template.desiredConfig.Absent? then Document(JObject(map[])) else template.desiredConfig)
       && run.status == Queued && run.planKey == None && run.approvedBy == None && run.plan == None && run.apply == None
  }

  /** Every run was created by one start command of its history, and is still what
      that made it, down to the revision and config it snapshotted. */
  lemma {:induction false} RunsWereStarted(actions: seq<Action>, r: RunId) returns (n: nat, command: StartCommand)
    requires RunAfter(actions, r).Some?
    ensures StartedAt(actions, n, r, command)
    ensures SameRun(RunAfter(actions[..n + 1], r).value, RunAfter(actions, r).value)
  {
    if RunAfter(Before(actions), r).Some? {
      n, command := RunsWereStarted(Before(actions), r);
      assert Before(actions)[..n] == actions[..n] && Before(actions)[..n + 1] == actions[..n + 1];
      LastActionIsLater(actions, r);
    } else {
      n := |actions| - 1;
      assert actions[..n] == Before(actions) && actions[..n + 1] == actions;
      command := StartedBy(Replay(Before(actions)), actions[n], r);
    }
  }

  lemma StartedBy(s: System, action: Action, r: RunId) returns (command: StartCommand)
    requires r !in s.db.runs && r in Do(s, action).db.runs
    ensures action == Start(r, command) && command.template in s.db.templates
    ensures Do(s, action).db.runs[r] == QueuedRun(s.db.templates[command.template], command)
  {
    command := action.command;
  }

  /** In every reachable state an apply execution is its run's starter's, if the run
      is auto-approved, and its recorded approver's if not. */
  lemma AppliesAreAuthorized(actions: seq<Action>, r: RunId)
    requires RunAfter(actions, r).Some? && RunAfter(actions, r).value.apply.Some?
    ensures var run := RunAfter(actions, r).value; var actor := run.apply.value.actor;
            if run.autoApprove then actor == run.triggerActor else run.approvedBy == Some(actor)
  {
    RowHolds(actions, r);
  }

  /** No apply without approval: the actor of an apply execution started the run
      auto-approved, by the very command that created it, or approved it, by an
      approval that found it waiting. */
  lemma NoApplyWithoutApproval(actions: seq<Action>, r: RunId)
    requires RunAfter(actions, r).Some? && RunAfter(actions, r).value.apply.Some?
    ensures var run := RunAfter(actions, r).value; var actor := run.apply.value.actor;
            if run.autoApprove
            then exists n: nat, command :: StartedAt(actions, n, r, command) && command.autoApprove && command.actor == actor
            else run.approvedBy == Some(actor) && exists n: nat :: ApprovedAt(actions, n, r, actor)
  {
    AppliesAreAuthorized(actions, r);
    if RunAfter(actions, r).value.autoApprove {
      var n, command := RunsWereStarted(actions, r);
      assert StartedAt(actions, n, r, command);
    } else {
      var n := ApproversApproved(actions, r);
      assert ApprovedAt(actions, n, r, RunAfter(actions, r).value.apply.value.actor);
    }
  }

  // ---- What a run leaves behind ----

  /** The last action completed the run. */
  predicate JustCompleted(actions: seq<Action>, r: RunId) {
    && actions != [] && RunAfter(Before(actions), r).Some? && RunAfter(actions, r).Some?
    && RunAfter(Before(actions), r).value.status != Completed && RunAfter(actions, r).value.status == Completed
  }

  /** When an apply run completes, by whichever workflow, what is live is its
      own snapshot; when a destroy completes, its template is gone. */
  lemma CompletionIsRecorded(actions: seq<Action>, r: RunId)
    ensures JustCompleted(actions, r) ==>
              var s, run := Replay(actions), RunAfter(actions, r).value;
              && run.template in s.db.templates
              && (run.operation == Apply ==> s.db.templates[run.template].lastApplied == Some(Snapshot(r, run)))
              && (run.operation == Destroy ==> s.db.templates[run.template].lifecycle == Gone)
  {
    if JustCompleted(actions, r) {
      Reachable(Before(actions));
      DoMovesRun(Replay(Before(actions)), actions[|actions| - 1], r);
    }
  }

  /** And the template is then live as it is desired. */
  lemma CompletedApplyIsLive(actions: seq<Action>, r: RunId)
    ensures JustCompleted(actions, r) && RunAfter(actions, r).value.operation == Apply ==>
              var s, template := Replay(actions), RunAfter(actions, r).value.template;
              template in s.db.templates && LiveStateOf(s.db.templates[template]) == LiveMatches
  {
    if JustCompleted(actions, r) && RunAfter(actions, r).value.operation == Apply {
      var s := Replay(Before(actions));
      RunHolds(Before(actions), r);
      Reachable(Before(actions));
      DoMovesRun(s, actions[|actions| - 1], r);
      MovedRunIsLive(r, CellOf(s, r), CellOf(Replay(actions), r));
    }
  }

  lemma MovedRunIsLive(r: RunId, c: Cell, c': Cell)
    requires CellOk(r, c) && MoveOk(r, c, c')
    requires c.run.status != Completed && c'.run.status == Completed && c.run.operation == Apply
    ensures LiveStateOf(c'.template) == LiveMatches
  {
  }

  /** A template's lifecycle only moves from active to destroying or destroyed,
      and from destroying to destroyed or failed. */
  lemma LifecycleOnlyMovesOn(actions: seq<Action>, t: TemplateId)
    requires actions != [] && t in Replay(Before(actions)).db.templates
    ensures t in Replay(actions).db.templates
    ensures LifecycleMove(Replay(Before(actions)).db.templates[t].lifecycle, Replay(actions).db.templates[t].lifecycle)
  {
    Reachable(Before(actions));
    DoMovesLifecycle(Replay(Before(actions)), actions[|actions| - 1], t);
  }

  lemma DoMovesLifecycle(s: System, action: Action, t: TemplateId)
    requires RunsOk(s) && t in s.db.templates
    ensures t in Do(s, action).db.templates
    ensures LifecycleMove(s.db.templates[t].lifecycle, Do(s, action).db.templates[t].lifecycle)
  {
    if action.OnRun? && Known(s, action.run) {
      assert RunOk(s, action.run);
      MoveKeeps(action.run, CellOf(s, action.run), action.move);
    }
  }
}
