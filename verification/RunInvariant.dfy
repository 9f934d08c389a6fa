/** What holds of every run at every moment of the protocol, and the proof that
    each move of one run keeps it. */
module RunInvariant {
  import opened Options
  import opened Runs
  import opened StackTemplates
  import opened RunTables
  import opened RunProtocol

  // ---- Step timelines ----

  /** The steps are in the order a run takes them, all but the last succeeded,
      and the last stands as its execution does. */
  ghost predicate Timeline(steps: seq<StepRow>, status: ExecutionStatus) {
    && (forall i, j :: 0 <= i < j < |steps| ==> Rank(steps[i].step) < Rank(steps[j].step))
    && (forall i :: 0 <= i < |steps| - 1 ==> steps[i].status == Succeeded)
    && (steps != [] ==> steps[|steps| - 1].status == status)
  }

  ghost predicate Below(execution: Option<Execution>, rank: nat) {
    execution.Some? ==> forall i :: 0 <= i < |execution.value.steps| ==> Rank(execution.value.steps[i].step) < rank
  }

  lemma EndedTimeline(steps: seq<StepRow>, status: ExecutionStatus)
    requires Timeline(steps, InProgress)
    ensures Timeline(EndSteps(steps, status), status)
  {
  }

  lemma {:induction false} LaterStepIsNew(steps: seq<StepRow>, step: Step)
    requires forall i :: 0 <= i < |steps| ==> Rank(steps[i].step) < Rank(step)
    ensures StepStatus(steps, step) == None
  {
    if steps != [] {
      assert forall i :: 0 <= i < |steps[1..]| ==> steps[1..][i] == steps[i + 1];
      LaterStepIsNew(steps[1..], step);
    }
  }

  /** Recording a later step extends the timeline by it, whole. */
  lemma ExtendedTimeline(steps: seq<StepRow>, step: Step)
    requires Timeline(steps, InProgress)
    requires forall i :: 0 <= i < |steps| ==> Rank(steps[i].step) < Rank(step)
    ensures var extended := EndSteps(steps, Succeeded) + [StepRow(step, InProgress)];
            && Timeline(extended, InProgress)
            && forall i :: 0 <= i < |extended| ==> Rank(extended[i].step) < Rank(step) + 1
  {
    EndedTimeline(steps, Succeeded);
  }

  // ---- One run's rows ----

  ghost predicate ExecutionOk(run: Run, phase: Phase) {
    var execution := ExecutionOf(run, phase);
    execution.Some? ==>
      && Timeline(execution.value.steps, execution.value.status)
      && execution.value.actor == ActorOf(run, phase)
  }

  predicate PlanEndedWell(run: Run) {
    run.plan.Some? && run.plan.value.status == Succeeded
  }

  predicate ApplyAs(run: Run, status: ExecutionStatus) {
    && run.apply.Some? && run.apply.value.status == status
    && (run.autoApprove || (PlanEndedWell(run) && run.approvedBy.Some?))
  }

  predicate PlanAs(run: Run, status: ExecutionStatus) {
    && run.plan.Some? && run.plan.value.status == status
    && run.apply.None? && run.approvedBy.None?
  }

  /** What a status says about the run's executions, approval and key. */
  predicate StatusOk(run: Run) {
    match run.status
    case Queued => run.plan.None? && run.apply.None? && run.approvedBy.None? && run.planKey.None?
    case Running =>
      if run.apply.Some? then ApplyAs(run, InProgress) && (run.autoApprove || run.planKey.Some?)
      else PlanAs(run, InProgress)
    case WaitingApproval => PlanAs(run, Succeeded) && run.planKey.Some? && run.operation != Plan
    case Approved =>
      && PlanEndedWell(run) && run.apply.None? && run.approvedBy.Some?
      && run.planKey.Some? && run.operation != Plan
    case Completed => run.planKey.None? && (if run.apply.Some? then ApplyAs(run, Succeeded) else PlanAs(run, Succeeded))
    case Failed => run.planKey.None? && (if run.apply.Some? then ApplyAs(run, Broken) else PlanAs(run, Broken))
    case Canceled => run.planKey.None? && PlanEndedWell(run) && run.apply.None?
  }

  ghost predicate RowOk(run: Run) {
    && ExecutionOk(run, PlanPhase)
    && ExecutionOk(run, ApplyPhase)
    && (run.autoApprove ==> run.operation == Apply && run.plan.None? && run.approvedBy.None?)
    && (run.operation == Plan ==> run.apply.None? && run.approvedBy.None?)
    && StatusOk(run)
  }

  // ---- One run's workflows ----

  predicate Authorized(run: Run) {
    run.autoApprove || run.approvedBy.Some?
  }

  predicate InputOk(id: RunId, run: Run, input: Option<WorkflowInput>) {
    input.Some? ==> input.value == InputOf(id, run)
  }

  predicate AppliedIs(id: RunId, c: Cell) {
    c.template.lastApplied == Some(Snapshot(id, c.run))
  }

  /** What the plan workflow may count on at the activity it makes next. */
  ghost predicate PlanPcOk(id: RunId, c: Cell, pc: PlanPc) {
    var run := c.run;
    var planning := run.status == Running && run.apply.None?;
    var untouched := c.template.lifecycle == Active;
    match pc
    case PlanCarries => run.status == Queued
    case PlanMarksRunning => run.status == Queued
    case PlanRecords(step) =>
      && planning && untouched && Below(run.plan, Rank(step)) && step !in {RestoringPlan, Applying}
      && (step == SavingPlan ==> run.planKey.Some? && run.operation != Plan)
    case PlanMakesKey => planning && untouched && Below(run.plan, Rank(SavingPlan)) && run.operation != Plan
    case PlanFinishes(hasChanges) =>
      planning && untouched && (hasChanges && run.operation != Plan ==> run.planKey.Some?)
    case PlanRecordsDestroyed => planning && untouched && run.operation == Destroy
    case PlanCompletes =>
      && planning
      && (run.operation == Apply ==> AppliedIs(id, c))
      && (run.operation == Destroy ==> c.template.lifecycle == Gone)
    case PlanFails => true
    case PlanEnded => true
  }

  /** What the apply workflow may count on at the activity it makes next. */
  ghost predicate ApplyPcOk(id: RunId, c: Cell, pc: ApplyPc) {
    var run := c.run;
    var applying := run.status == Running && run.apply.Some?;
    var lifecycle := c.template.lifecycle;
    match pc
    case ApplyCarries => if run.autoApprove then run.status == Queued else run.status in {Approved, Canceled}
    case ApplyClaims => if run.autoApprove then run.status == Queued else run.status in {Approved, Canceled}
    case ApplyRecords(step) =>
      && applying && Below(run.apply, Rank(step)) && step !in {Planning, SavingPlan}
      && lifecycle == (if step == Applying && run.operation == Destroy then BeingDestroyed else Active)
    case ApplyReadsKey => applying && lifecycle == Active && Below(run.apply, Rank(RestoringPlan)) && !run.autoApprove
    case ApplyRecordsDestroying =>
      applying && lifecycle == Active && Below(run.apply, Rank(Applying)) && run.operation == Destroy
    case ApplyRecordsDone =>
      applying && lifecycle == (if run.operation == Destroy then BeingDestroyed else Active)
    case ApplyCompletes =>
      && applying
      && (run.operation == Apply ==> AppliedIs(id, c) && lifecycle == Active)
      && (run.operation == Destroy ==> lifecycle == Gone)
    case ApplyFails => true
    case ApplyEnded => true
  }

  /** A start intent stays pending until its workflow has started, and until
      then the run stands where its start left it. */
  predicate IntentsOk(id: RunId, c: Cell) {
    && InputOk(id, c.run, c.planIntent) && InputOk(id, c.run, c.applyIntent)
    && (c.plan.Some? ==> c.plan.value.input == InputOf(id, c.run))
    && (c.apply.Some? ==> c.apply.value.input == InputOf(id, c.run))
    && (c.planIntent.Some? || c.plan.Some? ==> !c.run.autoApprove)
    && (c.applyIntent.Some? || c.apply.Some? ==> Authorized(c.run))
    && (!c.run.autoApprove && c.plan.None? ==> c.run.status == Queued && c.planIntent.Some?)
    && (Authorized(c.run) && c.apply.None? ==>
          && c.applyIntent.Some?
          && if c.run.autoApprove then c.run.status == Queued else c.run.status in {Approved, Canceled})
  }

  // ---- One run and its template ----

  /** The run's saved plan is the one its template is waiting on. */
  predicate HoldsPlan(run: Run) {
    run.status in {WaitingApproval, Approved} || (run.status == Running && run.apply.Some? && !run.autoApprove)
  }

  predicate DestroyApplying(run: Run) {
    run.operation == Destroy && run.status == Running && run.apply.Some?
  }

  predicate LifecycleOk(run: Run, lifecycle: Lifecycle) {
    || lifecycle == Active
    || (lifecycle == BeingDestroyed && DestroyApplying(run))
    || (lifecycle == Gone && run.operation == Destroy && run.status == Running)
  }

  predicate TemplateOk(id: RunId, c: Cell) {
    && c.template.desiredConfig.Document?
    && (!Terminal(c.run.status) ==>
          && c.run.revision == c.template.desiredRevision
          && c.run.config == c.template.desiredConfig
          && LifecycleOk(c.run, c.template.lifecycle))
    && (HoldsPlan(c.run) <==> c.template.pending.Some? && c.template.pending.value.run == id)
    && (HoldsPlan(c.run) ==> c.template.pending == Some(Snapshot(id, c.run)))
  }

  ghost predicate CellOk(id: RunId, c: Cell) {
    && RowOk(c.run)
    && IntentsOk(id, c)
    && (c.plan.Some? ==> PlanPcOk(id, c, c.plan.value.pc))
    && (c.apply.Some? ==> ApplyPcOk(id, c, c.apply.value.pc))
    && TemplateOk(id, c)
  }

  // ---- What a move may do ----

  /** The refined order a run's status moves through. */
  function Stage(run: Run): nat {
    match run.status
    case Queued => 0
    case Running => if run.apply.Some? then 4 else 1
    case WaitingApproval => 2
    case Approved => 3
    case _ => 5
  }

  predicate SameRun(run: Run, run': Run) {
    && run'.template == run.template && run'.operation == run.operation && run'.autoApprove == run.autoApprove
    && run'.revision == run.revision && run'.config == run.config && run'.triggerActor == run.triggerActor
  }

  predicate LifecycleMove(from: Lifecycle, to: Lifecycle) {
    || from == to
    || (from == Active && to in {BeingDestroyed, Gone})
    || (from == BeingDestroyed && to in {Gone, Interrupted})
  }

  predicate PendingMove(id: RunId, from: Option<Recorded>, to: Option<Recorded>) {
    || from == to
    || (to.Some? && to.value.run == id)
    || (to.None? && from.Some? && from.value.run == id)
  }

  /** Everything one move of run id may change, and how. */
  predicate MoveOk(id: RunId, c: Cell, c': Cell) {
    && SameRun(c.run, c'.run)
    && (Terminal(c.run.status) ==> c'.run == c.run && c'.template == c.template)
    && (if c'.run.status == c.run.status then Stage(c'.run) == Stage(c.run) else Stage(c.run) < Stage(c'.run))
    && (c.run.approvedBy.Some? ==> c'.run.approvedBy == c.run.approvedBy)
    && (c.run.planKey.Some? ==> c'.run.planKey == c.run.planKey || Terminal(c'.run.status))
    && c'.template.desiredRevision == c.template.desiredRevision
    && c'.template.desiredConfig == c.template.desiredConfig
    && PendingMove(id, c.template.pending, c'.template.pending)
    && LifecycleMove(c.template.lifecycle, c'.template.lifecycle)
    && (c'.template.lifecycle == BeingDestroyed ==>
          || DestroyApplying(c'.run)
          || (c.template.lifecycle == BeingDestroyed && !DestroyApplying(c.run)))
    && (c'.run.status == Completed && c.run.status != Completed ==>
          && (c.run.operation == Apply ==> AppliedIs(id, c'))
          && (c.run.operation == Destroy ==> c'.template.lifecycle == Gone))
  }

  // ---- Service commands and deliveries ----

  lemma ApproveKeeps(id: RunId, c: Cell, actor: UserId)
    requires CellOk(id, c)
    ensures CellOk(id, ApprovedCell(id, c, actor)) && MoveOk(id, c, ApprovedCell(id, c, actor))
  {
  }

  lemma DiscardKeeps(id: RunId, c: Cell)
    requires CellOk(id, c)
    ensures CellOk(id, DiscardedCell(id, c)) && MoveOk(id, c, DiscardedCell(id, c))
  {
  }

  lemma DeliverPlanKeeps(id: RunId, c: Cell, completes: bool)
    requires CellOk(id, c)
    ensures CellOk(id, DeliveredPlan(c, completes)) && MoveOk(id, c, DeliveredPlan(c, completes))
  {
  }

  lemma DeliverApplyKeeps(id: RunId, c: Cell, completes: bool)
    requires CellOk(id, c)
    ensures CellOk(id, DeliveredApply(c, completes)) && MoveOk(id, c, DeliveredApply(c, completes))
  {
  }

  // ---- Workflow activities ----

  /** A workflow that has seen an error counts on nothing. */
  lemma PlanErrorKeeps(id: RunId, c: Cell, pc: PlanPc)
    requires CellOk(id, c) && c.plan.Some? && pc in {PlanFails, PlanEnded}
    ensures CellOk(id, AtPlan(c, pc)) && MoveOk(id, c, AtPlan(c, pc))
  {
  }

  lemma ApplyErrorKeeps(id: RunId, c: Cell, pc: ApplyPc)
    requires CellOk(id, c) && c.apply.Some? && pc in {ApplyFails, ApplyEnded}
    ensures CellOk(id, AtApply(c, pc)) && MoveOk(id, c, AtApply(c, pc))
  {
  }

  ghost predicate Kept(id: RunId, c: Cell, effect: Result<Cell>) {
    effect.Ok? ==> CellOk(id, effect.value) && MoveOk(id, c, effect.value)
  }

  /** A running execution that stays running, with a whole timeline, keeps its run's
      rows whole. */
  lemma RunningRowOk(run: Run, phase: Phase, execution: Execution)
    requires RowOk(run) && run.status == Running && RunningPhase(run) == Some(phase)
    requires execution.status == InProgress && Timeline(execution.steps, InProgress)
    requires execution.actor == ExecutionOf(run, phase).value.actor
    ensures RowOk(WithExecution(run, phase, execution))
    ensures RunningPhase(WithExecution(run, phase, execution)) == Some(phase)
  {
  }

  /** A running run records a later step on its running execution, and nothing
      else of it changes. */
  lemma StepExtends(run: Run, step: Step, phase: Phase)
    requires RowOk(run) && run.status == Running && RunningPhase(run) == Some(phase)
    requires Below(ExecutionOf(run, phase), Rank(step))
    ensures RecordStep(run, step).Ok?
    ensures var run' := RecordStep(run, step).value;
            && RowOk(run')
            && RunningPhase(run') == Some(phase)
            && Below(ExecutionOf(run', phase), Rank(step) + 1)
            && run' == WithExecution(run, phase, ExecutionOf(run', phase).value)
  {
    var execution := ExecutionOf(run, phase).value;
    LaterStepIsNew(execution.steps, step);
    ExtendedTimeline(execution.steps, step);
    RunningRowOk(run, phase, execution.(steps := EndSteps(execution.steps, Succeeded) + [StepRow(step, InProgress)]));
  }

  /** A move that only writes the plan's running execution. */
  lemma PlanningKeeps(id: RunId, c: Cell, run': Run, pc: PlanPc, output: Summary)
    requires CellOk(id, c) && c.plan.Some? && c.run.status == Running && c.run.apply.None?
    requires RowOk(run') && run' == c.run.(plan := run'.plan)
    requires PlanPcOk(id, c.(run := run'), pc)
    ensures var c' := c.(run := run', plan := Some(PlanFlow(c.plan.value.input, pc, output)));
            CellOk(id, c') && MoveOk(id, c, c')
  {
  }

  /** Each step leads to one that comes later, or past the steps. */
  lemma PlanStepLeads(id: RunId, c: Cell, run': Run, step: Step, hasChanges: bool)
    requires PlanPcOk(id, c, PlanRecords(step))
    requires run' == c.run.(plan := run'.plan) && Below(run'.plan, Rank(step) + 1)
    ensures PlanPcOk(id, c.(run := run'), AfterPlanStep(step, run'.operation, hasChanges))
  {
  }

  lemma PlanRecordsKeeps(id: RunId, c: Cell, env: Env)
    requires CellOk(id, c) && c.plan.Some? && c.plan.value.pc.PlanRecords?
    ensures Kept(id, c, PlanEffect(id, c, env))
    ensures PlanEffect(id, c, env).Ok?
  {
    var step := c.plan.value.pc.step;
    StepExtends(c.run, step, PlanPhase);
    var run' := RecordStep(c.run, step).value;
    var pc := AfterPlanStep(step, c.run.operation, env.hasChanges);
    PlanStepLeads(id, c, run', step, env.hasChanges);
    PlanningKeeps(id, c, run', pc, PlanAnswered(c, step, env).plan.value.output);
  }

  /** The run as a terminal write of its running phase leaves it. */
  function EndedRun(run: Run, phase: Phase, status: Status, error: string): Run
    requires ExecutionOf(run, phase).Some?
  {
    WithExecution(run, phase, EndExecution(ExecutionOf(run, phase).value, EndedAs(status), error)).(status := status, planKey := None)
  }

  /** Ending a run with its running execution keeps its rows whole. */
  lemma EndedRowOk(run: Run, phase: Phase, status: Status, error: string)
    requires RowOk(run) && run.status == Running && RunningPhase(run) == Some(phase)
    requires status in {Completed, Failed}
    ensures RowOk(EndedRun(run, phase, status, error))
  {
    EndedTimeline(ExecutionOf(run, phase).value.steps, EndedAs(status));
  }

  lemma EndsRunningPhase(id: RunId, scope: Scope, input: StatusInput)
    requires scope.run.status == Running && RunningPhase(scope.run) == Some(input.phase)
    requires input.status in {Completed, Failed}
    requires input.template == scope.run.template && input.operation == scope.run.operation
    ensures var run := EndedRun(scope.run, input.phase, input.status, input.error);
            RecordStatus(id, scope, input) == Ok(Terminate(id, scope.(run := run), input.status))
  {
  }

  lemma PlanMarksRunningKeeps(id: RunId, c: Cell, env: Env)
    requires CellOk(id, c) && c.plan.Some? && c.plan.value.pc == PlanMarksRunning
    ensures Kept(id, c, PlanEffect(id, c, env))
    ensures PlanEffect(id, c, env).Ok?
  {
  }

  lemma PlanCompletesKeeps(id: RunId, c: Cell, env: Env)
    requires CellOk(id, c) && c.plan.Some? && c.plan.value.pc == PlanCompletes
    ensures Kept(id, c, PlanEffect(id, c, env))
    ensures PlanEffect(id, c, env).Ok?
  {
    EndedRowOk(c.run, PlanPhase, Completed, "");
    EndsRunningPhase(id, ScopeOf(c), PlanStatus(c, Completed, ""));
  }

  /** A plan that fails while it carries the run ends it failed. */
  lemma CarriedPlanFails(id: RunId, c: Cell, env: Env)
    requires CellOk(id, c) && c.plan.Some? && c.plan.value.pc == PlanFails
    requires c.run.status == Queued || (c.run.status == Running && c.run.apply.None?)
    ensures Kept(id, c, PlanEffect(id, c, env))
  {
    if c.run.status == Running {
      EndedRowOk(c.run, PlanPhase, Failed, env.error);
      EndsRunningPhase(id, ScopeOf(c), PlanStatus(c, Failed, env.error));
    }
  }

  /** A plan that fails after its execution ended changes nothing. */
  lemma LatePlanFails(id: RunId, c: Cell, env: Env)
    requires CellOk(id, c) && c.plan.Some? && c.plan.value.pc == PlanFails
    requires c.run.status != Queued && !(c.run.status == Running && c.run.apply.None?)
    ensures PlanEffect(id, c, env) in {Err(BadTransition), Ok(AtPlan(c, PlanEnded))}
  {
  }

  lemma PlanFailsKeeps(id: RunId, c: Cell, env: Env)
    requires CellOk(id, c) && c.plan.Some? && c.plan.value.pc == PlanFails
    ensures Kept(id, c, PlanEffect(id, c, env))
  {
    if c.run.status == Queued || (c.run.status == Running && c.run.apply.None?) {
      CarriedPlanFails(id, c, env);
    } else {
      LatePlanFails(id, c, env);
      PlanErrorKeeps(id, c, PlanEnded);
    }
  }

  /** A plan with changes ends its execution and waits as its template's pending
      plan. */
  lemma PlanWaitsKeeps(id: RunId, c: Cell, env: Env)
    requires CellOk(id, c) && c.plan.Some? && c.plan.value.pc == PlanFinishes(true) && c.run.operation != Plan
    ensures Kept(id, c, PlanEffect(id, c, env))
    ensures PlanEffect(id, c, env).Ok?
  {
    EndedTimeline(c.run.plan.value.steps, Succeeded);
  }

  /** A plan with nothing to apply leaves its run running, to be completed. */
  lemma PlanSettlesKeeps(id: RunId, c: Cell, env: Env)
    requires CellOk(id, c) && c.plan.Some? && c.plan.value.pc.PlanFinishes?
    requires c.plan.value.pc.hasChanges ==> c.run.operation == Plan
    ensures Kept(id, c, PlanEffect(id, c, env))
    ensures PlanEffect(id, c, env).Ok?
  {
  }

  lemma PlanEffectKeeps(id: RunId, c: Cell, env: Env)
    requires CellOk(id, c) && c.plan.Some?
    ensures Kept(id, c, PlanEffect(id, c, env))
  {
    match c.plan.value.pc
    case PlanRecords(_) => PlanRecordsKeeps(id, c, env);
    case PlanFinishes(hasChanges) =>
      if hasChanges && c.run.operation != Plan { PlanWaitsKeeps(id, c, env); } else { PlanSettlesKeeps(id, c, env); }
    case PlanMarksRunning => PlanMarksRunningKeeps(id, c, env);
    case PlanCompletes => PlanCompletesKeeps(id, c, env);
    case PlanFails => PlanFailsKeeps(id, c, env);
    case _ =>
  }

  /** A move that only writes the apply's running execution. */
  lemma ApplyingKeeps(id: RunId, c: Cell, run': Run, pc: ApplyPc, output: Summary)
    requires CellOk(id, c) && c.apply.Some? && c.run.status == Running && c.run.apply.Some?
    requires RowOk(run') && run' == c.run.(apply := run'.apply)
    requires ApplyPcOk(id, c.(run := run'), pc)
    ensures var c' := c.(run := run', apply := Some(ApplyFlow(c.apply.value.input, pc, output)));
            CellOk(id, c') && MoveOk(id, c, c')
  {
  }

  lemma ApplyStepLeads(id: RunId, c: Cell, run': Run, step: Step)
    requires ApplyPcOk(id, c, ApplyRecords(step))
    requires run' == c.run.(apply := run'.apply) && run'.apply.Some? && Below(run'.apply, Rank(step) + 1)
    ensures ApplyPcOk(id, c.(run := run'), AfterApplyStep(step, InputOf(id, run')))
  {
  }

  lemma ApplyRecordsKeeps(id: RunId, c: Cell, env: Env)
    requires CellOk(id, c) && c.apply.Some? && c.apply.value.pc.ApplyRecords?
    ensures Kept(id, c, ApplyEffect(id, c, env))
    ensures ApplyEffect(id, c, env).Ok?
  {
    var step := c.apply.value.pc.step;
    StepExtends(c.run, step, ApplyPhase);
    var run' := RecordStep(c.run, step).value;
    var pc := AfterApplyStep(step, InputOf(id, c.run));
    ApplyStepLeads(id, c, run', step);
    ApplyingKeeps(id, c, run', pc, ApplyAnswered(c, step, env).apply.value.output);
  }

  lemma ApplyClaimsKeeps(id: RunId, c: Cell, env: Env)
    requires CellOk(id, c) && c.apply.Some? && c.apply.value.pc.ApplyClaims?
    ensures Kept(id, c, ApplyEffect(id, c, env))
    ensures ApplyEffect(id, c, env).Ok?
  {
  }

  /** The run and its template as the apply's terminal write leaves them. */
  function EndedApply(id: RunId, c: Cell, status: Status, error: string): Cell
    requires c.run.apply.Some? && c.apply.Some?
  {
    AtApply(InScope(c, Terminate(id, ScopeOf(c).(run := EndedRun(c.run, ApplyPhase, status, error)), status)), ApplyEnded)
  }

  lemma ApplyEndKeepsCell(id: RunId, c: Cell, status: Status, error: string)
    requires CellOk(id, c) && c.apply.Some? && c.run.status == Running && c.run.apply.Some? && status in {Completed, Failed}
    requires c.apply.value.pc in {ApplyCompletes, ApplyFails}
    ensures CellOk(id, EndedApply(id, c, status, error))
  {
    EndedRowOk(c.run, ApplyPhase, status, error);
  }

  lemma ApplyEndMoves(id: RunId, c: Cell, status: Status, error: string)
    requires CellOk(id, c) && c.apply.Some? && c.run.status == Running && c.run.apply.Some? && status in {Completed, Failed}
    requires c.apply.value.pc == if status == Completed then ApplyCompletes else ApplyFails
    ensures MoveOk(id, c, EndedApply(id, c, status, error))
  {
  }

  lemma ApplyCompletesKeeps(id: RunId, c: Cell, env: Env)
    requires CellOk(id, c) && c.apply.Some? && c.apply.value.pc == ApplyCompletes
    ensures Kept(id, c, ApplyEffect(id, c, env))
    ensures ApplyEffect(id, c, env).Ok?
  {
    ApplyEndKeepsCell(id, c, Completed, "");
    ApplyEndMoves(id, c, Completed, "");
    EndsRunningPhase(id, ScopeOf(c), ApplyStatus(c, Completed, ""));
    assert ApplyEffect(id, c, env) == Ok(EndedApply(id, c, Completed, ""));
  }

  /** An apply that fails before it could claim its run leaves a failed
      execution for its error. */
  lemma UnclaimedApplyFails(id: RunId, c: Cell, env: Env)
    requires CellOk(id, c) && c.apply.Some? && c.apply.value.pc == ApplyFails
    requires c.run.status in {Queued, Approved}
    ensures Kept(id, c, ApplyEffect(id, c, env))
  {
    if c.run.status == Queued {
    } else {
    }
  }

  lemma ClaimedApplyFails(id: RunId, c: Cell, env: Env)
    requires CellOk(id, c) && c.apply.Some? && c.apply.value.pc == ApplyFails
    requires c.run.status == Running
    ensures Kept(id, c, ApplyEffect(id, c, env))
  {
    ApplyEndKeepsCell(id, c, Failed, env.error);
    ApplyEndMoves(id, c, Failed, env.error);
    EndsRunningPhase(id, ScopeOf(c), ApplyStatus(c, Failed, env.error));
    assert ApplyEffect(id, c, env) == Ok(EndedApply(id, c, Failed, env.error));
  }

  /** An apply that fails after its run ended changes nothing. */
  lemma LateApplyFails(id: RunId, c: Cell, env: Env)
    requires CellOk(id, c) && c.apply.Some? && c.apply.value.pc == ApplyFails
    requires Terminal(c.run.status)
    ensures ApplyEffect(id, c, env) in {Err(BadTransition), Ok(AtApply(c, ApplyEnded))}
    ensures Kept(id, c, ApplyEffect(id, c, env))
  {
    ApplyErrorKeeps(id, c, ApplyEnded);
  }

  lemma ApplyFailsKeeps(id: RunId, c: Cell, env: Env)
    requires CellOk(id, c) && c.apply.Some? && c.apply.value.pc == ApplyFails
    ensures Kept(id, c, ApplyEffect(id, c, env))
  {
    match c.run.status
    case Running => ClaimedApplyFails(id, c, env);
    case Queued => UnclaimedApplyFails(id, c, env);
    case Approved => UnclaimedApplyFails(id, c, env);
    case WaitingApproval =>
    case _ => LateApplyFails(id, c, env);
  }

  lemma ApplyDestroyingKeeps(id: RunId, c: Cell, env: Env)
    requires CellOk(id, c) && c.apply.Some? && c.apply.value.pc == ApplyRecordsDestroying
    ensures Kept(id, c, ApplyEffect(id, c, env))
    ensures ApplyEffect(id, c, env).Ok?
  {
  }

  lemma ApplyDoneKeeps(id: RunId, c: Cell, env: Env)
    requires CellOk(id, c) && c.apply.Some? && c.apply.value.pc == ApplyRecordsDone
    ensures Kept(id, c, ApplyEffect(id, c, env))
    ensures ApplyEffect(id, c, env).Ok?
  {
    if c.run.operation == Destroy {
    } else {
    }
  }

  lemma ApplyEffectKeeps(id: RunId, c: Cell, env: Env)
    requires CellOk(id, c) && c.apply.Some?
    ensures Kept(id, c, ApplyEffect(id, c, env))
  {
    match c.apply.value.pc
    case ApplyRecords(_) => ApplyRecordsKeeps(id, c, env);
    case ApplyClaims => ApplyClaimsKeeps(id, c, env);
    case ApplyCompletes => ApplyCompletesKeeps(id, c, env);
    case ApplyFails => ApplyFailsKeeps(id, c, env);
    case ApplyRecordsDestroying => ApplyDestroyingKeeps(id, c, env);
    case ApplyRecordsDone => ApplyDoneKeeps(id, c, env);
    case _ =>
  }

  /** Every move of a run keeps its invariant, and changes only what MoveOk
      allows. */
  lemma MoveKeeps(id: RunId, c: Cell, move: Move)
    requires CellOk(id, c)
    ensures CellOk(id, Moved(id, c, move)) && MoveOk(id, c, Moved(id, c, move))
  {
    match move
    case ApproveMove(actor) => ApproveKeeps(id, c, actor);
    case DiscardMove => DiscardKeeps(id, c);
    case DeliverPlan(completes) => DeliverPlanKeeps(id, c, completes);
    case DeliverApply(completes) => DeliverApplyKeeps(id, c, completes);
    case PlanMove(ack, env) =>
      if c.plan.Some? { PlanMovesKeeps(id, c, ack, env); }
    case ApplyMove(ack, env) =>
      if c.apply.Some? { ApplyMovesKeeps(id, c, ack, env); }
  }

  lemma PlanMovesKeeps(id: RunId, c: Cell, ack: Ack, env: Env)
    requires CellOk(id, c) && c.plan.Some?
    ensures CellOk(id, PlanMoves(id, c, ack, env)) && MoveOk(id, c, PlanMoves(id, c, ack, env))
  {
    PlanEffectKeeps(id, c, env);
    var pc := PlanAfterError(c).plan.value.pc;
    PlanErrorKeeps(id, c, pc);
    var effect := PlanEffect(id, c, env);
    if effect.Ok? { PlanErrorKeeps(id, effect.value, pc); }
  }

  lemma ApplyMovesKeeps(id: RunId, c: Cell, ack: Ack, env: Env)
    requires CellOk(id, c) && c.apply.Some?
    ensures CellOk(id, ApplyMoves(id, c, ack, env)) && MoveOk(id, c, ApplyMoves(id, c, ack, env))
  {
    ApplyEffectKeeps(id, c, env);
    var pc := ApplyAfterError(c).apply.value.pc;
    var effect := ApplyEffect(id, c, env);
    if effect.Err? || ack == NotApplied {
      ApplyErrorKeeps(id, c, pc);
    } else if ack == AckLost {
      LostApplyKeeps(id, c, effect.value, pc);
    }
  }

  lemma LostApplyKeeps(id: RunId, c: Cell, applied: Cell, pc: ApplyPc)
    requires CellOk(id, applied) && MoveOk(id, c, applied) && applied.apply.Some? && c.apply.Some?
    requires applied.apply.value.input == c.apply.value.input && pc in {ApplyFails, ApplyEnded}
    ensures var lost := applied.(apply := Some(c.apply.value.(pc := pc)));
            CellOk(id, lost) && MoveOk(id, c, lost)
  {
  }
}
