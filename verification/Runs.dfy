/** The words a template run is described in: its operation, its status, the
    phases and steps of the workflows that carry it, and the errors the control
    plane answers with.

    An identifier stands for the (tenant, id) pair every table is keyed by. */
module Runs {
  import opened Options

  datatype Result<+T> = Ok(value: T) | Err(error: Error)

  datatype Error =
    | NotFound
    | Unsupported        // a status no workflow records, or an event of another operation
    | BadTransition      // the run's status does not allow the write
    | NoExecution        // no running workflow execution to write to
    | NoPlanExecution    // no plan execution to hold the counts
    | UniqueViolation    // a unique index of the database refused the row
    | StepAlreadyRan
    | NoPlanKey
    | RunInFlight
    | NotRunnable
    | NotInstallable     // the target revision is not active
    | UpgradeInvalid     // the template is not active, or the target revision of another source template
    | NotApprovable
    | PlanIsStale
    | NotDiscardable
    | InvalidCommand
    | NotCarried         // the workflow does not carry this kind of run

  type RunId = nat
  type TemplateId = nat
  type Revision = nat
  type UserId = string
  type Key = nat

  datatype Operation = Plan | Apply | Destroy

  datatype Status = Queued | Running | WaitingApproval | Approved | Completed | Failed | Canceled

  predicate Terminal(status: Status) {
    status in {Completed, Failed, Canceled}
  }

  datatype Phase = PlanPhase | ApplyPhase

  datatype ExecutionStatus = InProgress | Succeeded | Broken

  datatype Step =
    | WaitingForExecutor
    | PreparingWorkspace
    | FetchingSource
    | RestoringPlan
    | Initializing
    | SelectingWorkspace
    | Planning
    | SavingPlan
    | Applying

  /** A step's place in the order a run takes its steps. */
  function Rank(step: Step): nat {
    match step
    case WaitingForExecutor => 0
    case PreparingWorkspace => 1
    case FetchingSource => 2
    case RestoringPlan => 3
    case Initializing => 4
    case SelectingWorkspace => 5
    case Planning => 6
    case SavingPlan => 7
    case Applying => 8
  }

  datatype Event = AppliedEvent | DestroyingEvent | DestroyedEvent

  /** The one kind of run each event belongs to. */
  function EventOperation(event: Event): Operation {
    match event
    case AppliedEvent => Apply
    case DestroyingEvent => Destroy
    case DestroyedEvent => Destroy
  }

  datatype Summary = Summary(add: nat, change: nat, destroy: nat)

  datatype PlanOutcome = NoChangesOutcome | PlannedOutcome | WaitingOutcome
}
