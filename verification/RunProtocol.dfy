/** The template-run protocol: service commands, the outbox that delivers start
    intents, and the plan and apply workflows, all acting on the tables of
    RunTables. Every transaction is one atomic step; a workflow's activity may
    be applied and acknowledged, applied with its acknowledgement lost, or not
    applied at all. */
module RunProtocol {
  import opened Options
  import opened Runs
  import opened StackTemplates
  import opened RunTables

  // ---- Where a workflow stands: the activity it makes next ----

  datatype PlanPc =
    | PlanCarries
    | PlanMarksRunning
    | PlanRecords(step: Step)
    | PlanMakesKey
    | PlanFinishes(hasChanges: bool)
    | PlanRecordsDestroyed
    | PlanCompletes
    | PlanFails
    | PlanEnded

  datatype ApplyPc =
    | ApplyCarries
    | ApplyClaims
    | ApplyRecords(step: Step)
    | ApplyReadsKey
    | ApplyRecordsDestroying
    | ApplyRecordsDone
    | ApplyCompletes
    | ApplyFails
    | ApplyEnded

  /** A workflow: what it started from, the activity it makes next, and the counts
      its plan or apply command answered with, once it has. */
  datatype PlanFlow = PlanFlow(input: WorkflowInput, pc: PlanPc, output: Summary)
  datatype ApplyFlow = ApplyFlow(input: WorkflowInput, pc: ApplyPc, output: Summary)

  const NO_OUTPUT := Summary(0, 0, 0)

  /** The control plane, and the workflows started so far: at most one for each
      workflow ID, which a run and a phase determine. */
  datatype System = System(db: Db, plans: map<RunId, PlanFlow>, applies: map<RunId, ApplyFlow>)

  /** Everything one run's step reads and writes. */
  datatype Cell = Cell(
    run: Run,
    template: StackTemplate,
    planIntent: Option<WorkflowInput>,
    applyIntent: Option<WorkflowInput>,
    plan: Option<PlanFlow>,
    apply: Option<ApplyFlow>)

  function ScopeOf(c: Cell): Scope {
    Scope(c.run, c.template)
  }

  function InScope(c: Cell, scope: Scope): Cell {
    c.(run := scope.run, template := scope.template)
  }

  /** What happens to an activity. An activity that is not applied has failed:
      it gets one attempt. */
  datatype Ack = Acked | AckLost | NotApplied

  /** What the executor, the clock and the random source answer in a step. */
  datatype Env = Env(hasChanges: bool, summary: Summary, key: Key, error: string)

  // ---- The plan workflow ----

  predicate PlanCarriesInput(input: WorkflowInput) {
    !input.autoApprove
  }

  function AtPlan(c: Cell, pc: PlanPc): Cell
    requires c.plan.Some?
  {
    c.(plan := Some(c.plan.value.(pc := pc)))
  }

  function PlanStatus(c: Cell, status: Status, error: string): StatusInput
    requires c.plan.Some?
  {
    StatusInput(c.plan.value.input.template, c.plan.value.input.operation, status, error, PlanPhase)
  }

  /** The plan command runs in the Planning step, and answers with its counts. */
  function PlanAnswered(c: Cell, step: Step, env: Env): Cell
    requires c.plan.Some?
  {
    if step == Planning then c.(plan := Some(c.plan.value.(output := env.summary))) else c
  }

  /** The activity after a recorded step: a plan with changes to apply is saved,
      under a key made for it; any other is finished. */
  function AfterPlanStep(step: Step, operation: Operation, hasChanges: bool): PlanPc {
    match step
    case WaitingForExecutor => PlanRecords(PreparingWorkspace)
    case PreparingWorkspace => PlanRecords(FetchingSource)
    case FetchingSource => PlanRecords(Initializing)
    case Initializing => PlanRecords(SelectingWorkspace)
    case SelectingWorkspace => PlanRecords(Planning)
    case Planning => if hasChanges && operation != Plan then PlanMakesKey else PlanFinishes(hasChanges)
    case _ => PlanFinishes(true)
  }

  function AfterPlan(outcome: PlanOutcome, operation: Operation): PlanPc {
    match outcome
    case NoChangesOutcome => if operation == Destroy then PlanRecordsDestroyed else PlanCompletes
    case PlannedOutcome => PlanCompletes
    case WaitingOutcome => PlanEnded
  }

  /** The plan workflow's next activity, applied and acknowledged. */
  function PlanEffect(id: RunId, c: Cell, env: Env): Result<Cell>
    requires c.plan.Some?
  {
    var input := c.plan.value.input;
    match c.plan.value.pc
    case PlanCarries =>
      if PlanCarriesInput(input) then Ok(AtPlan(c, PlanMarksRunning)) else Err(NotCarried)
    case PlanMarksRunning =>
      (match RecordStatus(id, ScopeOf(c), PlanStatus(c, Running, ""))
       case Err(e) => Err(e)
       case Ok(s) => Ok(AtPlan(InScope(c, s), PlanRecords(WaitingForExecutor))))
    case PlanRecords(step) =>
      (match RecordStep(c.run, step)
       case Err(e) => Err(e)
       case Ok(run) => Ok(AtPlan(PlanAnswered(c.(run := run), step, env), AfterPlanStep(step, input.operation, env.hasChanges))))
    case PlanMakesKey =>
      (match CreatePlanKey(c.run, env.key)
       case Err(e) => Err(e)
       case Ok((run, _)) => Ok(AtPlan(c.(run := run), PlanRecords(SavingPlan))))
    case PlanFinishes(hasChanges) =>
      (match FinishPlan(id, ScopeOf(c), FinishInput(input.template, input.operation, hasChanges, c.plan.value.output))
       case Err(e) => Err(e)
       case Ok((s, outcome)) => Ok(AtPlan(InScope(c, s), AfterPlan(outcome, input.operation))))
    case PlanRecordsDestroyed =>
      (match RecordEvent(id, ScopeOf(c), EventInput(input.template, input.operation, DestroyedEvent, None))
       case Err(e) => Err(e)
       case Ok(s) => Ok(AtPlan(InScope(c, s), PlanCompletes)))
    case PlanCompletes =>
      (match RecordStatus(id, ScopeOf(c), PlanStatus(c, Completed, ""))
       case Err(e) => Err(e)
       case Ok(s) => Ok(AtPlan(InScope(c, s), PlanEnded)))
    case PlanFails =>
      (match RecordStatus(id, ScopeOf(c), PlanStatus(c, Failed, env.error))
       case Err(e) => Err(e)
       case Ok(s) => Ok(AtPlan(InScope(c, s), PlanEnded)))
    case PlanEnded => Err(NotCarried)
  }

  /** An error marks the run failed; a failure write that fails ends the
      workflow. */
  function PlanAfterError(c: Cell): Cell
    requires c.plan.Some?
  {
    AtPlan(c, if c.plan.value.pc in {PlanFails, PlanEnded} then PlanEnded else PlanFails)
  }

  function PlanMoves(id: RunId, c: Cell, ack: Ack, env: Env): Cell
    requires c.plan.Some?
  {
    match PlanEffect(id, c, env)
    case Err(_) => PlanAfterError(c)
    case Ok(applied) =>
      match ack
      case Acked => applied
      case AckLost => applied.(plan := PlanAfterError(c).plan)
      case NotApplied => PlanAfterError(c)
  }

  // ---- The apply workflow ----

  predicate ApplyCarriesInput(input: WorkflowInput) {
    input.operation == Apply || (input.operation == Destroy && !input.autoApprove)
  }

  function AtApply(c: Cell, pc: ApplyPc): Cell
    requires c.apply.Some?
  {
    c.(apply := Some(c.apply.value.(pc := pc)))
  }

  function ApplyStatus(c: Cell, status: Status, error: string): StatusInput
    requires c.apply.Some?
  {
    StatusInput(c.apply.value.input.template, c.apply.value.input.operation, status, error, ApplyPhase)
  }

  /** The apply or destroy command runs in the Applying step. */
  function ApplyAnswered(c: Cell, step: Step, env: Env): Cell
    requires c.apply.Some?
  {
    if step == Applying then c.(apply := Some(c.apply.value.(output := env.summary))) else c
  }

  /** The activity after a recorded step: an approved apply restores its saved
      plan, and a destroy marks its template before it starts. */
  function AfterApplyStep(step: Step, input: WorkflowInput): ApplyPc {
    match step
    case WaitingForExecutor => ApplyRecords(PreparingWorkspace)
    case PreparingWorkspace => ApplyRecords(FetchingSource)
    case FetchingSource => if input.autoApprove then ApplyRecords(Initializing) else ApplyReadsKey
    case RestoringPlan => ApplyRecords(Initializing)
    case Initializing => ApplyRecords(SelectingWorkspace)
    case SelectingWorkspace => if input.operation == Destroy then ApplyRecordsDestroying else ApplyRecords(Applying)
    case _ => ApplyRecordsDone
  }

  function DoneEvent(operation: Operation): Event {
    if operation == Destroy then DestroyedEvent else AppliedEvent
  }

  /** The apply workflow's next activity, applied and acknowledged. */
  function ApplyEffect(id: RunId, c: Cell, env: Env): Result<Cell>
    requires c.apply.Some?
  {
    var input := c.apply.value.input;
    match c.apply.value.pc
    case ApplyCarries =>
      if ApplyCarriesInput(input) then Ok(AtApply(c, ApplyClaims)) else Err(NotCarried)
    case ApplyClaims =>
      (match BeginApply(c.run, input.autoApprove)
       case Err(e) => Err(e)
       case Ok((run, claimed)) =>
         Ok(AtApply(c.(run := run), if claimed then ApplyRecords(WaitingForExecutor) else ApplyEnded)))
    case ApplyRecords(step) =>
      (match RecordStep(c.run, step)
       case Err(e) => Err(e)
       case Ok(run) => Ok(AtApply(ApplyAnswered(c.(run := run), step, env), AfterApplyStep(step, input))))
    case ApplyReadsKey =>
      (match PlanKey(c.run)
       case Err(e) => Err(e)
       case Ok(_) => Ok(AtApply(c, ApplyRecords(RestoringPlan))))
    case ApplyRecordsDestroying =>
      (match RecordEvent(id, ScopeOf(c), EventInput(input.template, input.operation, DestroyingEvent, None))
       case Err(e) => Err(e)
       case Ok(s) => Ok(AtApply(InScope(c, s), ApplyRecords(Applying))))
    case ApplyRecordsDone =>
      (match RecordEvent(id, ScopeOf(c), EventInput(input.template, input.operation, DoneEvent(input.operation), Some(c.apply.value.output)))
       case Err(e) => Err(e)
       case Ok(s) => Ok(AtApply(InScope(c, s), ApplyCompletes)))
    case ApplyCompletes =>
      (match RecordStatus(id, ScopeOf(c), ApplyStatus(c, Completed, ""))
       case Err(e) => Err(e)
       case Ok(s) => Ok(AtApply(InScope(c, s), ApplyEnded)))
    case ApplyFails =>
      (match RecordStatus(id, ScopeOf(c), ApplyStatus(c, Failed, env.error))
       case Err(e) => Err(e)
       case Ok(s) => Ok(AtApply(InScope(c, s), ApplyEnded)))
    case ApplyEnded => Err(NotCarried)
  }

  function ApplyAfterError(c: Cell): Cell
    requires c.apply.Some?
  {
    AtApply(c, if c.apply.value.pc in {ApplyFails, ApplyEnded} then ApplyEnded else ApplyFails)
  }

  function ApplyMoves(id: RunId, c: Cell, ack: Ack, env: Env): Cell
    requires c.apply.Some?
  {
    match ApplyEffect(id, c, env)
    case Err(_) => ApplyAfterError(c)
    case Ok(applied) =>
      match ack
      case Acked => applied
      case AckLost => applied.(apply := ApplyAfterError(c).apply)
      case NotApplied => ApplyAfterError(c)
  }

  // ---- One run's moves ----

  /** A delivery of a start intent starts its workflow, unless it was started
      already; the row is completed only after that, and may not be. */
  datatype Move =
    | ApproveMove(actor: UserId)
    | DiscardMove
    | DeliverPlan(completes: bool)
    | DeliverApply(completes: bool)
    | PlanMove(ack: Ack, env: Env)
    | ApplyMove(ack: Ack, env: Env)

  function ApprovedCell(id: RunId, c: Cell, actor: UserId): Cell {
    match ApproveRun(id, ScopeOf(c), actor)
    case Err(_) => c
    case Ok(run) => c.(run := run, applyIntent := if c.applyIntent.Some? then c.applyIntent else Some(InputOf(id, run)))
  }

  function DiscardedCell(id: RunId, c: Cell): Cell {
    match Discard(id, ScopeOf(c))
    case Err(_) => c
    case Ok(s) => InScope(c, s)
  }

  function DeliveredPlan(c: Cell, completes: bool): Cell {
    if c.planIntent.None? then c
    else c.(
      plan := if c.plan.Some? then c.plan else Some(PlanFlow(c.planIntent.value, PlanCarries, NO_OUTPUT)),
      planIntent := if completes then None else c.planIntent)
  }

  function DeliveredApply(c: Cell, completes: bool): Cell {
    if c.applyIntent.None? then c
    else c.(
      apply := if c.apply.Some? then c.apply else Some(ApplyFlow(c.applyIntent.value, ApplyCarries, NO_OUTPUT)),
      applyIntent := if completes then None else c.applyIntent)
  }

  function Moved(id: RunId, c: Cell, move: Move): Cell {
    match move
    case ApproveMove(actor) => ApprovedCell(id, c, actor)
    case DiscardMove => DiscardedCell(id, c)
    case DeliverPlan(completes) => DeliveredPlan(c, completes)
    case DeliverApply(completes) => DeliveredApply(c, completes)
    case PlanMove(ack, env) => if c.plan.Some? then PlanMoves(id, c, ack, env) else c
    case ApplyMove(ack, env) => if c.apply.Some? then ApplyMoves(id, c, ack, env) else c
  }

  // ---- The whole system ----

  function Lookup<V>(m: map<RunId, V>, r: RunId): Option<V> {
    if r in m then Some(m[r]) else None
  }

  function Assign<V>(m: map<RunId, V>, r: RunId, v: Option<V>): (n: map<RunId, V>)
    ensures forall k :: k in n <==> (if k == r then v.Some? else k in m)
    ensures v.Some? ==> n[r] == v.value
    ensures forall k :: k in m && k != r ==> k in n && n[k] == m[k]
  {
    if v.Some? then m[r := v.value] else m - {r}
  }

  predicate Known(s: System, r: RunId) {
    r in s.db.runs && s.db.runs[r].template in s.db.templates
  }

  function CellOf(s: System, r: RunId): Cell
    requires Known(s, r)
  {
    Cell(
      s.db.runs[r], s.db.templates[s.db.runs[r].template],
      Lookup(s.db.planIntents, r), Lookup(s.db.applyIntents, r),
      Lookup(s.plans, r), Lookup(s.applies, r))
  }

  function Put(s: System, r: RunId, c: Cell): System {
    System(
      Db(s.db.runs[r := c.run], s.db.templates[c.run.template := c.template],
         Assign(s.db.planIntents, r, c.planIntent), Assign(s.db.applyIntents, r, c.applyIntent)),
      Assign(s.plans, r, c.plan),
      Assign(s.applies, r, c.apply))
  }

  datatype Action =
    | InstallTemplate(template: TemplateId, revision: Revision, config: Json)
    | UpdateDesired(template: TemplateId, revision: Revision, config: Json)
    | Start(run: RunId, command: StartCommand)
    | OnRun(run: RunId, move: Move)

  function Committed(s: System, result: Result<Db>): System {
    if result.Ok? then s.(db := result.value) else s
  }

  /** One action. A command the control plane refuses changes nothing. */
  function Do(s: System, action: Action): System {
    match action
    case InstallTemplate(t, revision, config) => Committed(s, Install(s.db, t, revision, Document(config)))
    case UpdateDesired(t, revision, config) => Committed(s, ChangeDesired(s.db, t, revision, Document(config)))
    case Start(r, command) => Committed(s, StartRun(s.db, r, command))
    case OnRun(r, move) => if Known(s, r) then Put(s, r, Moved(r, CellOf(s, r), move)) else s
  }

  const EMPTY := System(Db(map[], map[], map[], map[]), map[], map[])

  /** The system after any sequence of actions: every interleaving of commands,
      deliveries and workflow activities is one. */
  function Replay(actions: seq<Action>): System {
    if actions == [] then EMPTY
    else Do(Replay(actions[..|actions| - 1]), actions[|actions| - 1])
  }
}
