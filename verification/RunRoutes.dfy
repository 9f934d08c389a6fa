/** The steps a run takes, one by one: each execution follows the one route its
    workflow has, and has taken the whole of it when it succeeds. */
module RunRoutes {
  import opened Options
  import opened Runs
  import opened StackTemplates
  import opened RunTables
  import opened RunProtocol
  import opened RunInvariant
  import opened RunReachability

  /** A plan's route, and the longer one of a plan that is saved. */
  const PLAN_ROUTE := [
    WaitingForExecutor, PreparingWorkspace, FetchingSource, Initializing, SelectingWorkspace, Planning]
  const SAVED_ROUTE := [
    WaitingForExecutor, PreparingWorkspace, FetchingSource, Initializing, SelectingWorkspace, Planning, SavingPlan]

  /** An apply's route without a saved plan, and the one that restores it. */
  const AUTO_ROUTE := [
    WaitingForExecutor, PreparingWorkspace, FetchingSource, Initializing, SelectingWorkspace, Applying]
  const RESTORED_ROUTE := [
    WaitingForExecutor, PreparingWorkspace, FetchingSource, RestoringPlan, Initializing, SelectingWorkspace, Applying]

  function ApplyRoute(autoApprove: bool): seq<Step> {
    if autoApprove then AUTO_ROUTE else RESTORED_ROUTE
  }

  /** The steps an execution has taken, in order. */
  function Taken(execution: Option<Execution>): seq<Step> {
    if execution.None? then []
    else seq(|execution.value.steps|, i requires 0 <= i < |execution.value.steps| => execution.value.steps[i].step)
  }

  /** How many steps of its route come before a step. */
  function PlanPlace(step: Step): nat {
    match step
    case WaitingForExecutor => 0
    case PreparingWorkspace => 1
    case FetchingSource => 2
    case Initializing => 3
    case SelectingWorkspace => 4
    case Planning => 5
    case _ => 6
  }

  function ApplyPlace(autoApprove: bool, step: Step): nat {
    match step
    case WaitingForExecutor => 0
    case PreparingWorkspace => 1
    case FetchingSource => 2
    case RestoringPlan => 3
    case Initializing => if autoApprove then 3 else 4
    case SelectingWorkspace => if autoApprove then 4 else 5
    case _ => if autoApprove then 5 else 6
  }

  predicate HasSucceeded(execution: Option<Execution>) {
    execution.Some? && execution.value.status == Succeeded
  }

  /** The run completed with its plan: nothing of it was left to apply. */
  predicate EndedByPlan(run: Run) {
    run.status == Completed && run.apply.None?
  }

  // ---- Where the routes are, at every moment ----

  predicate PlanRouteOk(run: Run, flow: Option<PlanFlow>) {
    var taken := Taken(run.plan);
    && taken <= SAVED_ROUTE
    && (HasSucceeded(run.plan) ==> taken == if EndedByPlan(run) then PLAN_ROUTE else SAVED_ROUTE)
    && (flow.Some? ==>
          match flow.value.pc
          case PlanRecords(step) => step !in {RestoringPlan, Applying} && taken == SAVED_ROUTE[..PlanPlace(step)]
          case PlanMakesKey => taken == PLAN_ROUTE
          case PlanFinishes(hasChanges) => taken == if hasChanges && run.operation != Plan then SAVED_ROUTE else PLAN_ROUTE
          case PlanRecordsDestroyed => taken == PLAN_ROUTE
          case PlanCompletes => taken == PLAN_ROUTE
          case _ => true)
  }

  predicate ApplyRouteOk(run: Run, flow: Option<ApplyFlow>) {
    var taken, route := Taken(run.apply), ApplyRoute(run.autoApprove);
    && taken <= route
    && (HasSucceeded(run.apply) ==> taken == route)
    && (flow.Some? ==>
          match flow.value.pc
          case ApplyRecords(step) =>
            && step !in {Planning, SavingPlan} && (step == RestoringPlan ==> !run.autoApprove)
            && taken == route[..ApplyPlace(run.autoApprove, step)]
          case ApplyReadsKey => !run.autoApprove && taken == route[..3]
          case ApplyRecordsDestroying => taken == route[..|route| - 1]
          case ApplyRecordsDone => taken == route
          case ApplyCompletes => taken == route
          case _ => true)
  }

  predicate RouteOk(p: Part) {
    PlanRouteOk(p.run, p.plan) && ApplyRouteOk(p.run, p.apply)
  }

  // ---- What a step and an end do to a timeline ----

  lemma RecordingTakes(run: Run, step: Step, phase: Phase)
    requires run.status == Running && RunningPhase(run) == Some(phase)
    requires Below(ExecutionOf(run, phase), Rank(step))
    ensures RecordStep(run, step).Ok?
    ensures var run' := RecordStep(run, step).value;
            && Taken(ExecutionOf(run', phase)) == Taken(ExecutionOf(run, phase)) + [step]
            && run' == WithExecution(run, phase, ExecutionOf(run', phase).value)
            && ExecutionOf(run', phase).value.status == InProgress
  {
    LaterStepIsNew(ExecutionOf(run, phase).value.steps, step);
  }

  lemma EndingTakesNothing(execution: Execution, status: ExecutionStatus, error: string)
    ensures Taken(Some(EndExecution(execution, status, error))) == Taken(Some(execution))
  {
  }

  lemma CountingTakesNothing(execution: Execution, counts: Option<Summary>)
    ensures Taken(Some(execution.(counts := counts))) == Taken(Some(execution))
  {
  }

  lemma PlanPlaces(step: Step)
    requires step !in {RestoringPlan, Applying}
    ensures PlanPlace(step) < |SAVED_ROUTE| && SAVED_ROUTE[..PlanPlace(step)] + [step] == SAVED_ROUTE[..PlanPlace(step) + 1]
    ensures SAVED_ROUTE[..6] == PLAN_ROUTE && SAVED_ROUTE[..7] == SAVED_ROUTE
  {
  }

  lemma ApplyPlaces(autoApprove: bool, step: Step)
    requires step !in {Planning, SavingPlan} && (step == RestoringPlan ==> !autoApprove)
    ensures var route, place := ApplyRoute(autoApprove), ApplyPlace(autoApprove, step);
            place < |route| && route[..place] + [step] == route[..place + 1] && route[..|route|] == route
  {
  }

  /** From one step of a plan's route to the next, or past it. */
  lemma NextOnPlanRoute(run: Run, run': Run, flow: PlanFlow, flow': PlanFlow, hasChanges: bool)
    requires PlanRouteOk(run, Some(flow)) && flow.pc.PlanRecords?
    requires Taken(run'.plan) == Taken(run.plan) + [flow.pc.step] && !HasSucceeded(run'.plan)
    requires flow'.pc == AfterPlanStep(flow.pc.step, run'.operation, hasChanges)
    requires flow.pc.step == SavingPlan ==> run'.operation != Plan
    ensures PlanRouteOk(run', Some(flow'))
  {
    PlanPlaces(flow.pc.step);
  }

  lemma NextOnApplyRoute(run: Run, run': Run, flow: ApplyFlow, flow': ApplyFlow)
    requires ApplyRouteOk(run, Some(flow)) && flow.pc.ApplyRecords? && flow.input.autoApprove == run.autoApprove
    requires Taken(run'.apply) == Taken(run.apply) + [flow.pc.step] && !HasSucceeded(run'.apply)
    requires run'.autoApprove == run.autoApprove && flow'.pc == AfterApplyStep(flow.pc.step, flow.input)
    ensures ApplyRouteOk(run', Some(flow'))
  {
    ApplyPlaces(run.autoApprove, flow.pc.step);
  }

  // ---- Every move keeps to the routes ----

  lemma PlanRecordsRoute(id: RunId, c: Cell, env: Env)
    requires CellOk(id, c) && PlanRouteOk(c.run, c.plan) && c.plan.Some? && c.plan.value.pc.PlanRecords?
    ensures var effect := PlanEffect(id, c, env); effect.Ok? && PlanRouteOk(effect.value.run, effect.value.plan)
  {
    var step := c.plan.value.pc.step;
    RecordingTakes(c.run, step, PlanPhase);
    var c' := PlanEffect(id, c, env).value;
    NextOnPlanRoute(c.run, c'.run, c.plan.value, c'.plan.value, env.hasChanges);
  }

  lemma PlanEndsRoute(id: RunId, c: Cell, env: Env)
    requires CellOk(id, c) && PlanRouteOk(c.run, c.plan) && c.plan.Some? && c.plan.value.pc in {PlanCompletes, PlanFails}
    ensures var effect := PlanEffect(id, c, env); effect.Ok? ==> PlanRouteOk(effect.value.run, effect.value.plan)
  {
    if c.run.plan.Some? {
      EndingTakesNothing(c.run.plan.value, Succeeded, "");
      EndingTakesNothing(c.run.plan.value, Broken, env.error);
    }
  }

  lemma PlanFinishesRoute(id: RunId, c: Cell, env: Env)
    requires CellOk(id, c) && PlanRouteOk(c.run, c.plan) && c.plan.Some? && c.plan.value.pc.PlanFinishes?
    ensures var effect := PlanEffect(id, c, env); effect.Ok? ==> PlanRouteOk(effect.value.run, effect.value.plan)
  {
    if c.run.plan.Some? {
      var counted := c.run.plan.value.(counts := Some(c.plan.value.output));
      CountingTakesNothing(c.run.plan.value, counted.counts);
      EndingTakesNothing(counted, Succeeded, "");
    }
  }

  lemma PlanEffectRoute(id: RunId, c: Cell, env: Env)
    requires CellOk(id, c) && PlanRouteOk(c.run, c.plan) && c.plan.Some?
    ensures var effect := PlanEffect(id, c, env); effect.Ok? ==> PlanRouteOk(effect.value.run, effect.value.plan)
  {
    match c.plan.value.pc
    case PlanRecords(_) => PlanRecordsRoute(id, c, env);
    case PlanFinishes(_) => PlanFinishesRoute(id, c, env);
    case PlanCompletes => PlanEndsRoute(id, c, env);
    case PlanFails => PlanEndsRoute(id, c, env);
    case _ =>
  }

  /** A status write touches only the execution of its own phase. */
  lemma StatusLeavesOther(id: RunId, scope: Scope, input: StatusInput)
    ensures var result := RecordStatus(id, scope, input);
            result.Ok? ==>
              && (input.phase == PlanPhase ==> result.value.run.apply == scope.run.apply)
              && (input.phase == ApplyPhase ==> result.value.run.plan == scope.run.plan)
              && SameRun(scope.run, result.value.run)
  {
  }

  lemma PlanLeavesApply(id: RunId, c: Cell, env: Env)
    requires CellOk(id, c) && c.plan.Some?
    ensures var effect := PlanEffect(id, c, env);
            effect.Ok? ==>
              && effect.value.run.apply == c.run.apply && effect.value.run.autoApprove == c.run.autoApprove
              && effect.value.apply == c.apply
  {
    match c.plan.value.pc
    case PlanRecords(step) => RecordingTakes(c.run, step, PlanPhase);
    case PlanMarksRunning => StatusLeavesOther(id, ScopeOf(c), PlanStatus(c, Running, ""));
    case PlanCompletes => StatusLeavesOther(id, ScopeOf(c), PlanStatus(c, Completed, ""));
    case PlanFails => StatusLeavesOther(id, ScopeOf(c), PlanStatus(c, Failed, env.error));
    case _ =>
  }

  lemma ApplyRecordsRoute(id: RunId, c: Cell, env: Env)
    requires CellOk(id, c) && ApplyRouteOk(c.run, c.apply) && c.apply.Some? && c.apply.value.pc.ApplyRecords?
    ensures var effect := ApplyEffect(id, c, env); effect.Ok? && ApplyRouteOk(effect.value.run, effect.value.apply)
  {
    RecordingTakes(c.run, c.apply.value.pc.step, ApplyPhase);
    var c' := ApplyEffect(id, c, env).value;
    NextOnApplyRoute(c.run, c'.run, c.apply.value, c'.apply.value);
  }

  lemma EndedRouteOk(run: Run, status: Status, error: string, flow: ApplyFlow)
    requires run.apply.Some? && Taken(run.apply) <= ApplyRoute(run.autoApprove) && flow.pc == ApplyEnded
    requires status in {Completed, Failed} && (status == Completed ==> Taken(run.apply) == ApplyRoute(run.autoApprove))
    ensures ApplyRouteOk(EndedRun(run, ApplyPhase, status, error), Some(flow))
  {
    EndingTakesNothing(run.apply.value, EndedAs(status), error);
  }

  lemma ApplyEndsRoute(id: RunId, c: Cell, env: Env)
    requires CellOk(id, c) && ApplyRouteOk(c.run, c.apply) && c.apply.Some? && c.apply.value.pc in {ApplyCompletes, ApplyFails}
    ensures var effect := ApplyEffect(id, c, env); effect.Ok? ==> ApplyRouteOk(effect.value.run, effect.value.apply)
  {
    if c.run.status == Running {
      var status, error := if c.apply.value.pc == ApplyCompletes then Completed else Failed,
                           if c.apply.value.pc == ApplyCompletes then "" else env.error;
      EndsRunningPhase(id, ScopeOf(c), ApplyStatus(c, status, error));
      EndedRouteOk(c.run, status, error, c.apply.value.(pc := ApplyEnded));
    }
  }

  lemma ApplyEffectRoute(id: RunId, c: Cell, env: Env)
    requires CellOk(id, c) && ApplyRouteOk(c.run, c.apply) && c.apply.Some?
    ensures var effect := ApplyEffect(id, c, env); effect.Ok? ==> ApplyRouteOk(effect.value.run, effect.value.apply)
  {
    match c.apply.value.pc
    case ApplyRecords(_) => ApplyRecordsRoute(id, c, env);
    case ApplyCompletes => ApplyEndsRoute(id, c, env);
    case ApplyFails => ApplyEndsRoute(id, c, env);
    case ApplyRecordsDone =>
      if c.run.apply.Some? { CountingTakesNothing(c.run.apply.value, Some(c.apply.value.output)); }
    case ApplyReadsKey => ApplyPlaces(false, FetchingSource);
    case _ =>
  }

  lemma ApplyLeavesPlan(id: RunId, c: Cell, env: Env)
    requires CellOk(id, c) && c.apply.Some?
    ensures var effect := ApplyEffect(id, c, env);
            effect.Ok? ==>
              && effect.value.run.plan == c.run.plan && effect.value.run.operation == c.run.operation
              && effect.value.plan == c.plan
  {
    match c.apply.value.pc
    case ApplyRecords(step) => RecordingTakes(c.run, step, ApplyPhase);
    case ApplyCompletes => StatusLeavesOther(id, ScopeOf(c), ApplyStatus(c, Completed, ""));
    case ApplyFails => StatusLeavesOther(id, ScopeOf(c), ApplyStatus(c, Failed, env.error));
    case _ =>
  }

  /** No apply workflow belongs to a run that ended with its plan. */
  lemma ApplyMeansNotEnded(id: RunId, c: Cell)
    requires CellOk(id, c) && c.apply.Some? && HasSucceeded(c.run.plan)
    ensures !EndedByPlan(c.run)
  {
  }

  lemma ApplyLeavesPlanRoute(id: RunId, c: Cell, env: Env)
    requires CellOk(id, c) && PlanRouteOk(c.run, c.plan) && c.apply.Some? && ApplyEffect(id, c, env).Ok?
    ensures PlanRouteOk(ApplyEffect(id, c, env).value.run, c.plan)
  {
    ApplyLeavesPlan(id, c, env);
    if HasSucceeded(c.run.plan) {
      ApplyEffectKeeps(id, c, env);
      ApplyMeansNotEnded(id, c);
      ApplyMeansNotEnded(id, ApplyEffect(id, c, env).value);
    }
  }

  /** A workflow that sees an error still has taken what it has taken. */
  lemma PlanMoveRoute(id: RunId, c: Cell, ack: Ack, env: Env)
    requires CellOk(id, c) && RouteOk(CellPart(c)) && c.plan.Some?
    ensures RouteOk(CellPart(PlanMoves(id, c, ack, env)))
  {
    PlanEffectRoute(id, c, env);
    PlanLeavesApply(id, c, env);
  }

  lemma ApplyMoveRoute(id: RunId, c: Cell, ack: Ack, env: Env)
    requires CellOk(id, c) && RouteOk(CellPart(c)) && c.apply.Some?
    ensures RouteOk(CellPart(ApplyMoves(id, c, ack, env)))
  {
    ApplyEffectRoute(id, c, env);
    if ApplyEffect(id, c, env).Ok? {
      ApplyLeavesPlanRoute(id, c, env);
      ApplyLeavesPlan(id, c, env);
    }
  }

  lemma MovesKeepRoute(id: RunId, c: Cell, move: Move)
    requires CellOk(id, c) && RouteOk(CellPart(c))
    ensures RouteOk(CellPart(Moved(id, c, move)))
  {
    match move
    case PlanMove(ack, env) => if c.plan.Some? { PlanMoveRoute(id, c, ack, env); }
    case ApplyMove(ack, env) => if c.apply.Some? { ApplyMoveRoute(id, c, ack, env); }
    case _ =>
  }

  // ---- In every reachable state ----

  lemma {:induction false} RouteHolds(actions: seq<Action>, r: RunId)
    requires r in Replay(actions).db.runs
    ensures RouteOk(PartOf(Replay(actions), r))
  {
    var before, action := actions[..|actions| - 1], actions[|actions| - 1];
    var s := Replay(before);
    Reachable(before);
    if r in s.db.runs {
      RouteHolds(before, r);
      DoMovesPart(s, action, r);
      RunHolds(before, r);
      if action.OnRun? && action.run == r { MovesKeepRoute(r, CellOf(s, r), action.move); }
    } else {
      NewPart(s, action, r);
    }
  }

  /** Every execution has taken a beginning of its route, and nothing else; one that
      succeeded has taken all of it. A plan's is the longer one, with the plan saved,
      unless its run ended there. */
  lemma ExecutionsFollowTheirRoute(actions: seq<Action>, r: RunId)
    requires r in Replay(actions).db.runs
    ensures var run := Replay(actions).db.runs[r];
            && Taken(run.plan) <= SAVED_ROUTE
            && Taken(run.apply) <= ApplyRoute(run.autoApprove)
            && (HasSucceeded(run.plan) ==> Taken(run.plan) == if EndedByPlan(run) then PLAN_ROUTE else SAVED_ROUTE)
            && (HasSucceeded(run.apply) ==> Taken(run.apply) == ApplyRoute(run.autoApprove))
  {
    RouteHolds(actions, r);
  }

  /** An apply workflow past its command has run it: the last step of its execution
      is Applying, before it records what the command did as after. */
  lemma NothingIsRecordedUnapplied(actions: seq<Action>, r: RunId)
    requires r in Replay(actions).db.runs && r in Replay(actions).applies
    requires Replay(actions).applies[r].pc in {ApplyRecordsDone, ApplyCompletes}
    ensures var run := Replay(actions).db.runs[r];
            && run.apply.Some? && run.apply.value.steps != []
            && run.apply.value.steps[|run.apply.value.steps| - 1] == StepRow(Applying, InProgress)
            && Taken(run.apply) == ApplyRoute(run.autoApprove)
  {
    RouteHolds(actions, r);
    RunHolds(actions, r);
    ApplyingIsLast(r, CellOf(Replay(actions), r));
  }

  lemma ApplyingIsLast(id: RunId, c: Cell)
    requires CellOk(id, c) && ApplyRouteOk(c.run, c.apply) && c.apply.Some?
    requires c.apply.value.pc in {ApplyRecordsDone, ApplyCompletes}
    ensures c.run.apply.Some? && c.run.apply.value.steps != []
    ensures c.run.apply.value.steps[|c.run.apply.value.steps| - 1] == StepRow(Applying, InProgress)
    ensures Taken(c.run.apply) == ApplyRoute(c.run.autoApprove)
  {
    var taken, route := Taken(c.run.apply), ApplyRoute(c.run.autoApprove);
    assert route[|route| - 1] == Applying && |c.run.apply.value.steps| == |taken| == |route|;
    assert taken[|taken| - 1] == c.run.apply.value.steps[|taken| - 1].step;
  }

  /** A run that completed with an apply applied: every step of the route is in its
      timeline and succeeded, the command last, the saved plan restored before it
      unless the run was auto-approved. */
  lemma CompletedMeansApplied(actions: seq<Action>, r: RunId)
    requires r in Replay(actions).db.runs
    requires Replay(actions).db.runs[r].status == Completed && Replay(actions).db.runs[r].apply.Some?
    ensures var run := Replay(actions).db.runs[r]; var route := ApplyRoute(run.autoApprove);
            && |run.apply.value.steps| == |route|
            && forall i :: 0 <= i < |route| ==> run.apply.value.steps[i] == StepRow(route[i], Succeeded)
  {
    RouteHolds(actions, r);
    RowHolds(actions, r);
    CompletedRoute(PartOf(Replay(actions), r));
  }

  lemma CompletedRoute(p: Part)
    requires RowOk(p.run) && RouteOk(p) && p.run.status == Completed && p.run.apply.Some?
    ensures var route := ApplyRoute(p.run.autoApprove);
            && |p.run.apply.value.steps| == |route|
            && forall i :: 0 <= i < |route| ==> p.run.apply.value.steps[i] == StepRow(route[i], Succeeded)
  {
    AllSucceeded(p.run.apply.value, ApplyRoute(p.run.autoApprove));
  }

  lemma AllSucceeded(execution: Execution, route: seq<Step>)
    requires execution.status == Succeeded && Timeline(execution.steps, Succeeded) && Taken(Some(execution)) == route
    ensures |execution.steps| == |route|
    ensures forall i :: 0 <= i < |route| ==> execution.steps[i] == StepRow(route[i], Succeeded)
  {
    forall i | 0 <= i < |route| ensures execution.steps[i] == StepRow(route[i], Succeeded) {
      assert Taken(Some(execution))[i] == execution.steps[i].step;
    }
  }

  // ---- Destroyed only by destroying ----

  /** A template that is being destroyed is gone only by a destroy's apply that has
      taken its whole route, the command last. */
  lemma GoneAfterApplying(id: RunId, c: Cell, move: Move)
    requires CellOk(id, c) && ApplyRouteOk(c.run, c.apply)
    requires c.template.lifecycle == BeingDestroyed && Moved(id, c, move).template.lifecycle == Gone
    ensures move.ApplyMove? && c.run.operation == Destroy && c.run.status == Running
    ensures Taken(c.run.apply) == RESTORED_ROUTE
  {
    if move.ApplyMove? { ApplyGoesAt(id, c, move.ack, move.env); } else { OthersDestroyNothing(id, c, move); }
  }

  lemma StatusNeverDestroys(id: RunId, scope: Scope, input: StatusInput)
    ensures var result := RecordStatus(id, scope, input);
            result.Ok? ==> result.value.template.lifecycle in {scope.template.lifecycle, Interrupted}
  {
  }

  lemma ApplyGoesAt(id: RunId, c: Cell, ack: Ack, env: Env)
    requires CellOk(id, c) && c.template.lifecycle == BeingDestroyed
    requires Moved(id, c, ApplyMove(ack, env)).template.lifecycle == Gone
    ensures c.apply.Some? && c.apply.value.pc == ApplyRecordsDone
    ensures c.run.operation == Destroy && c.run.status == Running && !c.run.autoApprove
  {
    if c.apply.Some? {
      match c.apply.value.pc
      case ApplyFails => StatusNeverDestroys(id, ScopeOf(c), ApplyStatus(c, Failed, env.error));
      case _ =>
    }
  }

  lemma OthersDestroyNothing(id: RunId, c: Cell, move: Move)
    requires CellOk(id, c) && c.template.lifecycle == BeingDestroyed && !move.ApplyMove?
    ensures Moved(id, c, move).template.lifecycle != Gone
  {
  }

  /** Over any history: only an action of a destroy run of the template, whose apply
      has taken its whole route, takes the template from destroying to gone. */
  lemma DestroyedByItsCommand(actions: seq<Action>, t: TemplateId)
    requires actions != [] && t in Replay(actions[..|actions| - 1]).db.templates && t in Replay(actions).db.templates
    requires Replay(actions[..|actions| - 1]).db.templates[t].lifecycle == BeingDestroyed
    requires Replay(actions).db.templates[t].lifecycle == Gone
    ensures var s, action := Replay(actions[..|actions| - 1]), actions[|actions| - 1];
            && action.OnRun? && action.run in s.db.runs && s.db.runs[action.run].template == t
            && s.db.runs[action.run].operation == Destroy
            && Taken(s.db.runs[action.run].apply) == RESTORED_ROUTE
  {
    var before, action := actions[..|actions| - 1], actions[|actions| - 1];
    DestroyedOnRun(Replay(before), action, t);
    Reachable(before);
    RunHolds(before, action.run);
    RouteHolds(before, action.run);
    MovedTemplate(Replay(before), action.run, action.move, t);
    GoneAfterApplying(action.run, CellOf(Replay(before), action.run), action.move);
  }

  lemma DestroyedOnRun(s: System, action: Action, t: TemplateId)
    requires t in s.db.templates && t in Do(s, action).db.templates
    requires Do(s, action).db.templates[t].lifecycle != s.db.templates[t].lifecycle
    ensures action.OnRun? && Known(s, action.run)
  {
  }

  /** A run's move changes no other template than its own. */
  lemma MovedTemplate(s: System, r: RunId, move: Move, t: TemplateId)
    requires RunOk(s, r) && t in s.db.templates
    requires Do(s, OnRun(r, move)).db.templates[t].lifecycle != s.db.templates[t].lifecycle
    ensures s.db.runs[r].template == t
    ensures Moved(r, CellOf(s, r), move).template == Do(s, OnRun(r, move)).db.templates[t]
  {
    MoveKeeps(r, CellOf(s, r), move);
  }
}
