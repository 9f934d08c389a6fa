/** How the protocol moves forward: which activities the store refuses, that every
    workflow ends, and that each activity is one of the store's transactions. */
module RunProgress {
  import opened Options
  import opened Runs
  import opened StackTemplates
  import opened RunTables
  import opened RunProtocol
  import opened RunInvariant
  import opened RunReachability
  import RunStore

  // ---- What the store refuses ----

  lemma PlanFailsUnless(id: RunId, c: Cell, env: Env)
    requires CellOk(id, c) && c.plan.Some? && c.plan.value.pc == PlanFails
    ensures PlanEffect(id, c, env).Ok? <==> c.run.status !in {Completed, Canceled}
  {
  }

  lemma ApplyFailsUnless(id: RunId, c: Cell, env: Env)
    requires CellOk(id, c) && c.apply.Some? && c.apply.value.pc == ApplyFails
    ensures ApplyEffect(id, c, env).Ok? <==> c.run.status !in {Completed, Canceled}
  {
  }

  /** The store refuses a plan workflow only the failure of a run that completed or
      was discarded. */
  lemma PlanRefusedExactly(id: RunId, c: Cell, env: Env)
    requires CellOk(id, c) && c.plan.Some?
    ensures PlanEffect(id, c, env).Err? <==>
              c.plan.value.pc == PlanEnded || (c.plan.value.pc == PlanFails && c.run.status in {Completed, Canceled})
  {
    match c.plan.value.pc
    case PlanRecords(_) => PlanRecordsKeeps(id, c, env);
    case PlanFinishes(hasChanges) =>
      if hasChanges && c.run.operation != Plan { PlanWaitsKeeps(id, c, env); } else { PlanSettlesKeeps(id, c, env); }
    case PlanMarksRunning => PlanMarksRunningKeeps(id, c, env);
    case PlanCompletes => PlanCompletesKeeps(id, c, env);
    case PlanFails => PlanFailsUnless(id, c, env);
    case _ =>
  }

  lemma ApplyRefusedExactly(id: RunId, c: Cell, env: Env)
    requires CellOk(id, c) && c.apply.Some?
    ensures ApplyEffect(id, c, env).Err? <==>
              c.apply.value.pc == ApplyEnded || (c.apply.value.pc == ApplyFails && c.run.status in {Completed, Canceled})
  {
    match c.apply.value.pc
    case ApplyRecords(_) => ApplyRecordsKeeps(id, c, env);
    case ApplyClaims => ApplyClaimsKeeps(id, c, env);
    case ApplyCompletes => ApplyCompletesKeeps(id, c, env);
    case ApplyFails => ApplyFailsUnless(id, c, env);
    case ApplyRecordsDestroying => ApplyDestroyingKeeps(id, c, env);
    case ApplyRecordsDone => ApplyDoneKeeps(id, c, env);
    case _ =>
  }

  /** In every reachable state, whatever activity a workflow that has not ended
      makes next, the store accepts it, but for the failure of a run that completed
      or was discarded: all other errors are the environment's. */
  lemma ActivitiesRefusedExactly(actions: seq<Action>, r: RunId, env: Env)
    requires r in Replay(actions).db.runs
    ensures var s := Replay(actions);
            && Known(s, r)
            && (r in s.plans ==>
                  (PlanEffect(r, CellOf(s, r), env).Err? <==>
                   s.plans[r].pc == PlanEnded
                   || (s.plans[r].pc == PlanFails && s.db.runs[r].status in {Completed, Canceled})))
            && (r in s.applies ==>
                  (ApplyEffect(r, CellOf(s, r), env).Err? <==>
                   s.applies[r].pc == ApplyEnded
                   || (s.applies[r].pc == ApplyFails && s.db.runs[r].status in {Completed, Canceled})))
  {
    RunHolds(actions, r);
    var c := CellOf(Replay(actions), r);
    if c.plan.Some? { PlanRefusedExactly(r, c, env); }
    if c.apply.Some? { ApplyRefusedExactly(r, c, env); }
  }

  // ---- Every workflow ends ----

  const PLAN_LENGTH := 23
  const APPLY_LENGTH := 22

  /** How far a workflow has come. */
  function PlanProgress(pc: PlanPc): (n: nat)
    ensures n <= PLAN_LENGTH
    ensures n == PLAN_LENGTH <==> pc == PlanEnded
  {
    match pc
    case PlanCarries => 0
    case PlanMarksRunning => 1
    case PlanRecords(step) => 2 * Rank(step) + 2
    case PlanMakesKey => 15
    case PlanFinishes(_) => 19
    case PlanRecordsDestroyed => 20
    case PlanCompletes => 21
    case PlanFails => 22
    case PlanEnded => PLAN_LENGTH
  }

  function ApplyProgress(pc: ApplyPc): (n: nat)
    ensures n <= APPLY_LENGTH
    ensures n == APPLY_LENGTH <==> pc == ApplyEnded
  {
    match pc
    case ApplyCarries => 0
    case ApplyClaims => 1
    case ApplyRecords(step) => 2 * Rank(step) + 2
    case ApplyReadsKey => 7
    case ApplyRecordsDestroying => 13
    case ApplyRecordsDone => 19
    case ApplyCompletes => 20
    case ApplyFails => 21
    case ApplyEnded => APPLY_LENGTH
  }

  lemma PlanEffectAdvances(id: RunId, c: Cell, env: Env)
    requires c.plan.Some?
    ensures var effect := PlanEffect(id, c, env);
            effect.Ok? ==>
              && effect.value.plan.Some? && effect.value.apply == c.apply
              && PlanProgress(effect.value.plan.value.pc) > PlanProgress(c.plan.value.pc)
  {
  }

  lemma ApplyEffectAdvances(id: RunId, c: Cell, env: Env)
    requires c.apply.Some?
    ensures var effect := ApplyEffect(id, c, env);
            effect.Ok? ==>
              && effect.value.apply.Some? && effect.value.plan == c.plan
              && ApplyProgress(effect.value.apply.value.pc) > ApplyProgress(c.apply.value.pc)
  {
  }

  /** Whatever becomes of an activity, its workflow is further on after it. */
  predicate PlanAdvanced(moved: bool, plan: Option<PlanFlow>, plan': Option<PlanFlow>) {
    plan.Some? ==>
      && plan'.Some?
      && if moved && plan.value.pc != PlanEnded
         then PlanProgress(plan'.value.pc) > PlanProgress(plan.value.pc)
         else plan' == plan
  }

  predicate ApplyAdvanced(moved: bool, apply: Option<ApplyFlow>, apply': Option<ApplyFlow>) {
    apply.Some? ==>
      && apply'.Some?
      && if moved && apply.value.pc != ApplyEnded
         then ApplyProgress(apply'.value.pc) > ApplyProgress(apply.value.pc)
         else apply' == apply
  }

  lemma MovesAdvance(id: RunId, c: Cell, move: Move)
    ensures PlanAdvanced(move.PlanMove?, c.plan, Moved(id, c, move).plan)
    ensures ApplyAdvanced(move.ApplyMove?, c.apply, Moved(id, c, move).apply)
  {
    match move
    case PlanMove(_, env) => if c.plan.Some? { PlanEffectAdvances(id, c, env); }
    case ApplyMove(_, env) => if c.apply.Some? { ApplyEffectAdvances(id, c, env); }
    case _ =>
  }

  /** How many activities a run's workflows have made. */
  function PlanActivities(actions: seq<Action>, r: RunId): nat {
    if actions == [] then 0
    else
      var before, last := Replay(actions[..|actions| - 1]), actions[|actions| - 1];
      PlanActivities(actions[..|actions| - 1], r) +
      if last.OnRun? && last.run == r && last.move.PlanMove? && r in before.plans && before.plans[r].pc != PlanEnded then 1 else 0
  }

  function ApplyActivities(actions: seq<Action>, r: RunId): nat {
    if actions == [] then 0
    else
      var before, last := Replay(actions[..|actions| - 1]), actions[|actions| - 1];
      ApplyActivities(actions[..|actions| - 1], r) +
      if last.OnRun? && last.run == r && last.move.ApplyMove? && r in before.applies && before.applies[r].pc != ApplyEnded then 1 else 0
  }

  lemma DoAdvances(s: System, action: Action, r: RunId)
    requires Known(s, r)
    ensures PlanAdvanced(action.OnRun? && action.run == r && action.move.PlanMove?, Lookup(s.plans, r), Lookup(Do(s, action).plans, r))
    ensures ApplyAdvanced(action.OnRun? && action.run == r && action.move.ApplyMove?, Lookup(s.applies, r), Lookup(Do(s, action).applies, r))
  {
    if action.OnRun? && action.run == r {
      var c := CellOf(s, r);
      MovesAdvance(r, c, action.move);
      PutsFlows(s, r, Moved(r, c, action.move));
    }
  }

  lemma PutsFlows(s: System, r: RunId, c: Cell)
    ensures Lookup(Put(s, r, c).plans, r) == c.plan && Lookup(Put(s, r, c).applies, r) == c.apply
  {
  }

  /** However its activities fare, a workflow makes at most a fixed number of them:
      none is retried, and none is repeated. */
  lemma {:induction false} WorkflowsEnd(actions: seq<Action>, r: RunId)
    ensures var s := Replay(actions);
            && PlanActivities(actions, r) <= (if r in s.plans then PlanProgress(s.plans[r].pc) else 0)
            && ApplyActivities(actions, r) <= (if r in s.applies then ApplyProgress(s.applies[r].pc) else 0)
  {
    if actions != [] {
      var before := actions[..|actions| - 1];
      WorkflowsEnd(before, r);
      OwnedHolds(before);
      if r in Replay(before).db.runs {
        KnownHolds(before, r);
        DoAdvances(Replay(before), actions[|actions| - 1], r);
      }
    }
  }

  // ---- Activities are the store's transactions ----

  /** Committing one run's transaction in the store, and putting the run back in
      the protocol, are the same write. */
  lemma ActivitiesAreTransactions(s: System, r: RunId, scope: Scope)
    requires Known(s, r) && scope.run.template == s.db.runs[r].template
    ensures ScopeOf(CellOf(s, r)) == RunStore.ScopeIn(s.db, r)
    ensures Put(s, r, InScope(CellOf(s, r), scope)) == s.(db := RunStore.PutScope(s.db, r, scope))
  {
    Unassigned(s.db.planIntents, r);
    Unassigned(s.db.applyIntents, r);
    Unassigned(s.plans, r);
    Unassigned(s.applies, r);
  }

  lemma Unassigned<V>(m: map<RunId, V>, r: RunId)
    ensures Assign(m, r, Lookup(m, r)) == m
  {
  }
}
