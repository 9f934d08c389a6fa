/** The tables a template run lives in, and what each of the store's
    transactions makes of them, as functions: the run's row, its workflow
    executions with their steps, its approval, and its stack template. */
module RunTables {
  import opened Options
  import opened Runs
  import opened StackTemplates

  datatype StepRow = StepRow(step: Step, status: ExecutionStatus)

  datatype Execution = Execution(
    actor: UserId,
    status: ExecutionStatus,
    error: string,
    counts: Option<Summary>,
    steps: seq<StepRow>)

  /** A run's row, with the rows that reference it: at most one execution for
      each phase, and at most one approval. */
  datatype Run = Run(
    template: TemplateId,
    operation: Operation,
    autoApprove: bool,
    revision: Revision,
    config: Config,
    triggerActor: UserId,
    status: Status,
    planKey: Option<Key>,
    approvedBy: Option<UserId>,
    plan: Option<Execution>,
    apply: Option<Execution>)

  /** What a workflow starts from. */
  datatype WorkflowInput = WorkflowInput(run: RunId, template: TemplateId, operation: Operation, autoApprove: bool)

  /** The work queue's pending start intents, one per (kind, run), are the
      outbox: they commit with the rows. */
  datatype Db = Db(
    runs: map<RunId, Run>,
    templates: map<TemplateId, StackTemplate>,
    planIntents: map<RunId, WorkflowInput>,
    applyIntents: map<RunId, WorkflowInput>)

  /** One run with its template: all that a run's transaction reads and writes. */
  datatype Scope = Scope(run: Run, template: StackTemplate)

  function Snapshot(id: RunId, run: Run): Recorded {
    Recorded(id, run.revision, run.config)
  }

  // ---- Executions and steps ----

  function ExecutionOf(run: Run, phase: Phase): Option<Execution> {
    if phase == PlanPhase then run.plan else run.apply
  }

  function WithExecution(run: Run, phase: Phase, execution: Execution): Run {
    if phase == PlanPhase then run.(plan := Some(execution)) else run.(apply := Some(execution))
  }

  predicate IsInProgress(execution: Option<Execution>) {
    execution.Some? && execution.value.status == InProgress
  }

  /** The phase whose execution is running, if one is. */
  function RunningPhase(run: Run): Option<Phase> {
    if IsInProgress(run.plan) then Some(PlanPhase)
    else if IsInProgress(run.apply) then Some(ApplyPhase)
    else None
  }

  /** Whoever approved the run for an approved apply, and whoever started the
      run otherwise. */
  function ActorOf(run: Run, phase: Phase): UserId {
    if phase == ApplyPhase && run.approvedBy.Some? then run.approvedBy.value else run.triggerActor
  }

  /** Every running step ends as status; the others keep theirs. */
  function EndSteps(steps: seq<StepRow>, status: ExecutionStatus): (ended: seq<StepRow>)
    ensures |ended| == |steps|
    ensures forall i :: 0 <= i < |steps| ==>
      ended[i] == StepRow(steps[i].step, if steps[i].status == InProgress then status else steps[i].status)
  {
    seq(|steps|, i requires 0 <= i < |steps| =>
      StepRow(steps[i].step, if steps[i].status == InProgress then status else steps[i].status))
  }

  function EndExecution(execution: Execution, status: ExecutionStatus, error: string): Execution {
    execution.(status := status, error := error, steps := EndSteps(execution.steps, status))
  }

  /** The status a step has in a timeline, if it is there. */
  function StepStatus(steps: seq<StepRow>, step: Step): Option<ExecutionStatus> {
    if steps == [] then None
    else if steps[0].step == step then Some(steps[0].status)
    else StepStatus(steps[1..], step)
  }

  /** Inserts an execution of the phase, unless the run has one already. A run
      is carried by one workflow at a time: a second running execution violates
      a unique index. */
  function Insert(run: Run, phase: Phase, status: ExecutionStatus, error: string): Result<(Run, bool)> {
    if ExecutionOf(run, phase).Some? then Ok((run, false))
    else if status == InProgress && RunningPhase(run).Some? then Err(UniqueViolation)
    else Ok((WithExecution(run, phase, Execution(ActorOf(run, phase), status, error, None, [])), true))
  }

  // ---- The run's status ----

  datatype StatusInput = StatusInput(
    template: TemplateId, operation: Operation, status: Status, error: string, phase: Phase)

  /** The statuses a run may be in when a workflow records one. */
  function StatusSources(status: Status): set<Status> {
    match status
    case Running => {Queued}
    case Completed => {Running}
    case Failed => {Queued, Running, WaitingApproval, Approved}
    case _ => {}
  }

  /** What becoming terminal does to a run's saved plan: its key goes, and it
      stops being its template's pending plan. */
  function Release(id: RunId, scope: Scope): Scope {
    var pending := scope.template.pending;
    Scope(
      scope.run.(planKey := None),
      if pending.Some? && pending.value.run == id
      then scope.template.(pending := None)
      else scope.template)
  }

  function EndedAs(status: Status): ExecutionStatus {
    if status == Failed then Broken else Succeeded
  }

  /** What ending the phase's execution leaves, or nothing when the write is not
      this phase's to make. */
  function EndPhase(run: Run, input: StatusInput): Result<Option<Run>> {
    match RunningPhase(run)
    case Some(phase) =>
      if phase != input.phase then Ok(None)
      else
        var execution := ExecutionOf(run, phase).value;
        Ok(Some(WithExecution(run, phase, EndExecution(execution, EndedAs(input.status), input.error))))
    case None =>
      if input.status != Failed then Err(NoExecution)
      else
        match Insert(run, input.phase, Broken, input.error)
        case Err(e) => Err(e)
        case Ok((failed, inserted)) => Ok(if inserted then Some(failed) else None)
  }

  /** A terminal write: the phase's execution ends with its run, a destroy that
      failed after it began leaves its template failed, and the saved plan is
      released. A write that is not the phase's to make changes nothing. */
  function EndRun(id: RunId, scope: Scope, input: StatusInput): Result<Scope> {
    match EndPhase(scope.run, input)
    case Err(e) => Err(e)
    case Ok(None) => Ok(scope)
    case Ok(Some(ended)) => Ok(Terminate(id, scope.(run := ended), input.status))
  }

  function Terminate(id: RunId, scope: Scope, status: Status): Scope {
    var interrupted := status == Failed && scope.run.operation == Destroy
                       && scope.template.lifecycle == BeingDestroyed;
    Release(id, Scope(
      scope.run.(status := status),
      if interrupted then scope.template.(lifecycle := Interrupted) else scope.template))
  }

  function RecordStatus(id: RunId, scope: Scope, input: StatusInput): Result<Scope> {
    var run := scope.run;
    if input.status !in {Running, Completed, Failed} then Err(Unsupported)
    else if run.template != input.template || run.operation != input.operation then Err(NotFound)
    else if run.status == input.status then Ok(scope)
    else if run.status !in StatusSources(input.status) then Err(BadTransition)
    else if input.status == Running then
      match Insert(run.(status := Running), input.phase, InProgress, "")
      case Err(e) => Err(e)
      case Ok((started, _)) => Ok(scope.(run := started))
    else EndRun(id, scope, input)
  }

  // ---- Steps and events ----

  function RecordStep(run: Run, step: Step): Result<Run> {
    match RunningPhase(run)
    case None => Err(NotFound)
    case Some(phase) =>
      if run.status != Running then Err(NotFound)
      else
        var execution := ExecutionOf(run, phase).value;
        match StepStatus(execution.steps, step)
        case Some(InProgress) => Ok(run)
        case Some(_) => Err(StepAlreadyRan)
        case None =>
          var steps := EndSteps(execution.steps, Succeeded) + [StepRow(step, InProgress)];
          Ok(WithExecution(run, phase, execution.(steps := steps)))
  }

  datatype EventInput = EventInput(
    template: TemplateId, operation: Operation, event: Event, summary: Option<Summary>)

  function EventOnTemplate(id: RunId, scope: Scope, event: Event): StackTemplate {
    match event
    case AppliedEvent => scope.template.(lastApplied := Some(Snapshot(id, scope.run)))
    case DestroyingEvent => scope.template.(lifecycle := BeingDestroyed)
    case DestroyedEvent => scope.template.(lifecycle := Gone)
  }

  function RecordEvent(id: RunId, scope: Scope, input: EventInput): Result<Scope> {
    var run := scope.run;
    if input.operation != EventOperation(input.event) then Err(Unsupported)
    else if run.template != input.template || run.operation != input.operation || run.status != Running then Err(NotFound)
    else if input.summary.None? then Ok(scope.(template := EventOnTemplate(id, scope, input.event)))
    else
      match RunningPhase(run)
      case None => Err(NoExecution)
      case Some(phase) =>
        var execution := ExecutionOf(run, phase).value;
        Ok(Scope(
          WithExecution(run, phase, execution.(counts := input.summary)),
          EventOnTemplate(id, scope, input.event)))
  }

  // ---- From the plan to its apply ----

  datatype FinishInput = FinishInput(
    template: TemplateId, operation: Operation, hasChanges: bool, summary: Summary)

  /** A finished plan settles what follows it. A plan with changes ends its own
      execution and waits, or is this write retried; anything else refuses it. */
  function FinishPlan(id: RunId, scope: Scope, input: FinishInput): Result<(Scope, PlanOutcome)> {
    var run := scope.run;
    if run.template != input.template || run.operation != input.operation then Err(NotFound)
    else if !input.hasChanges then
      var template :=
        if input.operation == Destroy then scope.template
        else scope.template.(lastApplied := Some(Snapshot(id, run)));
      Ok((scope.(template := template), NoChangesOutcome))
    else if run.plan.None? then Err(NoPlanExecution)
    else
      var counted := run.plan.value.(counts := Some(input.summary));
      if input.operation == Plan then Ok((scope.(run := run.(plan := Some(counted))), PlannedOutcome))
      else if counted.status != InProgress && run.status != WaitingApproval then Err(NoExecution)
      else
        var plan := if counted.status == InProgress then EndExecution(counted, Succeeded, "") else counted;
        Ok((Scope(
          run.(status := WaitingApproval, plan := Some(plan)),
          scope.template.(pending := Some(Snapshot(id, run)))), WaitingOutcome))
  }

  /** Claims a run for its apply; false is a claim that lost to a discard. */
  function BeginApply(run: Run, autoApprove: bool): Result<(Run, bool)> {
    var from := if autoApprove then Queued else Approved;
    if run.status !in {from, Running} || run.autoApprove != autoApprove then Ok((run, false))
    else
      match Insert(run.(status := Running), ApplyPhase, InProgress, "")
      case Err(e) => Err(e)
      case Ok((claimed, _)) => Ok((claimed, true))
  }

  function Approve(run: Run, actor: UserId): Result<Run> {
    if run.status != WaitingApproval then Err(NotApprovable)
    else if run.approvedBy.Some? then Err(UniqueViolation)
    else Ok(run.(status := Approved, approvedBy := Some(actor)))
  }

  function Discard(id: RunId, scope: Scope): Result<Scope> {
    if scope.run.status !in {WaitingApproval, Approved} then Err(NotDiscardable)
    else Ok(Release(id, scope.(run := scope.run.(status := Canceled))))
  }

  // ---- The plan key ----

  function PlanKey(run: Run): Result<Key> {
    if run.planKey.Some? then Ok(run.planKey.value) else Err(NoPlanKey)
  }

  /** The run with its key and the key, made when it has none. */
  function CreatePlanKey(run: Run, made: Key): Result<(Run, Key)> {
    if run.planKey.Some? then Ok((run, run.planKey.value))
    else if Terminal(run.status) then Err(NoPlanKey)
    else Ok((run.(planKey := Some(made)), made))
  }

  // ---- Service commands ----

  predicate InFlight(db: Db, template: TemplateId) {
    exists r :: r in db.runs && db.runs[r].template == template && !Terminal(db.runs[r].status)
  }

  function InputOf(id: RunId, run: Run): WorkflowInput {
    WorkflowInput(id, run.template, run.operation, run.autoApprove)
  }

  datatype StartCommand = StartCommand(template: TemplateId, operation: Operation, autoApprove: bool, actor: UserId)

  function QueuedRun(template: StackTemplate, command: StartCommand): Run {
    Run(command.template, command.operation, command.autoApprove,
        template.desiredRevision, DesiredConfig(template), command.actor,
        Queued, None, None, None, None)
  }

  /** A job intent is enqueued once: a key already pending keeps its row. */
  function Enqueue(intents: map<RunId, WorkflowInput>, input: WorkflowInput): map<RunId, WorkflowInput> {
    if input.run in intents then intents else intents[input.run := input]
  }

  function StartRun(db: Db, id: RunId, command: StartCommand): Result<Db> {
    if command.autoApprove && command.operation != Apply then Err(InvalidCommand)
    else if command.template !in db.templates then Err(NotFound)
    else if db.templates[command.template].lifecycle != Active then Err(NotRunnable)
    else if id in db.runs then Err(UniqueViolation)
    else if InFlight(db, command.template) then Err(RunInFlight)
    else
      var run := QueuedRun(db.templates[command.template], command);
      var input := InputOf(id, run);
      Ok(db.(
        runs := db.runs[id := run],
        planIntents := if run.autoApprove then db.planIntents else Enqueue(db.planIntents, input),
        applyIntents := if run.autoApprove then Enqueue(db.applyIntents, input) else db.applyIntents))
  }

  /** ApproveRun on one run: the run's approval, and whether its start intent
      joins the outbox. */
  function ApproveRun(id: RunId, scope: Scope, actor: UserId): Result<Run> {
    if scope.run.status != WaitingApproval then Err(NotApprovable)
    else if scope.template.pending.None? || scope.template.pending.value.run != id
            || PlanStateOf(scope.template) != PlanMatches then Err(PlanIsStale)
    else Approve(scope.run, actor)
  }

  /** A template's desired state moves only while it is active and has no run in
      flight. */
  function ChangeDesired(db: Db, template: TemplateId, revision: Revision, config: Config): Result<Db> {
    if template !in db.templates then Err(NotFound)
    else if db.templates[template].lifecycle != Active then Err(UpgradeInvalid)
    else if InFlight(db, template) then Err(RunInFlight)
    else Ok(db.(templates := db.templates[template := db.templates[template].(desiredRevision := revision, desiredConfig := config)]))
  }

  /** What a command looks up of the revision it moves a template to: whether it is
      active, whether it is of the template's source, and the config as validated
      against its variables, if it is valid. */
  datatype Target = UnknownRevision | Target(revision: Revision, active: bool, sameSource: bool, config: Option<Config>)

  /** An upgrade checks the template first, then the revision, then the config. */
  function Upgrade(db: Db, template: TemplateId, target: Target): Result<Db> {
    if template !in db.templates then Err(NotFound)
    else if db.templates[template].lifecycle != Active then Err(UpgradeInvalid)
    else if InFlight(db, template) then Err(RunInFlight)
    else if target.UnknownRevision? then Err(NotFound)
    else if !target.active then Err(NotInstallable)
    else if !target.sameSource then Err(UpgradeInvalid)
    else if target.config.None? then Err(InvalidCommand)
    else ChangeDesired(db, template, target.revision, target.config.value)
  }

  function Install(db: Db, template: TemplateId, revision: Revision, config: Config): Result<Db> {
    if template in db.templates then Err(UniqueViolation)
    else Ok(db.(templates := db.templates[template := StackTemplate(revision, config, None, None, Active)]))
  }
}
