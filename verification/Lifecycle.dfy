/** The lifecycle contract of plans, tasks, jobs and agent runs, and the gate
    through which every status write passes. */
module Lifecycle {

  datatype Option<+T> = None | Some(value: T)

  datatype Resource = PlanResource | TaskResource | JobResource | AgentRunResource

  /** The union of the status words the four resources use. */
  datatype Status =
    | Generating | Ready | Running | Validating | Blocked | Cancelling
    | Completed | Failed | Interrupted | Cancelled
    | Pending | Queued | Succeeded
    | Leased | RetryWait
    | Starting | TimedOut

  /** Identity of a worker: its backend instance and its number in the pool. */
  datatype Worker = Worker(instance: string, number: nat)

  datatype Error = NotFound | InvalidTransition | VersionConflict | InvalidMetadata

  // ---- contract tables -------------------------------------------------

  function Known(r: Resource): set<Status> {
    match r
    case PlanResource =>
      {Generating, Ready, Running, Validating, Blocked, Cancelling, Completed, Failed, Interrupted, Cancelled}
    case TaskResource =>
      {Pending, Queued, Running, Cancelling, Succeeded, Failed, Interrupted, Cancelled}
    case JobResource =>
      {Queued, Leased, Running, RetryWait, Cancelling, Succeeded, Failed, Interrupted, Cancelled}
    case AgentRunResource =>
      {Starting, Running, Cancelling, Succeeded, Failed, Interrupted, Cancelled, TimedOut}
  }

  function Successors(r: Resource, from: Status): set<Status> {
    match r
    case PlanResource => (
      match from
      case Generating => {Ready, Failed, Cancelling, Interrupted}
      case Ready => {Running, Cancelled}
      case Running => {Validating, Completed, Failed, Blocked, Cancelling, Interrupted}
      case Validating => {Completed, Failed, Blocked, Cancelling, Interrupted}
      case Blocked => {Ready, Running, Cancelled}
      case Cancelling => {Cancelled, Interrupted}
      case Interrupted => {Generating, Ready, Running, Validating, Cancelled}
      case _ => {})
    case TaskResource => (
      match from
      case Pending => {Queued, Cancelled}
      case Queued => {Running, Pending, Cancelled, Interrupted}
      case Running => {Succeeded, Failed, Cancelling, Interrupted}
      case Cancelling => {Cancelled, Interrupted}
      case Interrupted => {Pending, Queued, Cancelled}
      case _ => {})
    case JobResource => (
      match from
      case Queued => {Leased, Cancelled}
      case RetryWait => {Queued, Leased, Cancelled}
      case Leased => {Running, Queued, Cancelled, Interrupted}
      case Running => {Succeeded, RetryWait, Failed, Cancelling, Interrupted}
      case Cancelling => {Cancelled, Interrupted}
      case Interrupted => {Queued, Cancelled}
      case _ => {})
    case AgentRunResource => (
      match from
      case Starting => {Running, Failed, Cancelling, Interrupted}
      case Running => {Succeeded, Failed, Cancelling, Interrupted}
      case Cancelling => {Cancelled, Interrupted}
      case Interrupted => {Starting, Cancelled}
      case _ => {})
  }

  function Terminals(r: Resource): set<Status> {
    match r
    case PlanResource => {Completed, Failed, Interrupted, Cancelled}
    case TaskResource => {Succeeded, Failed, Interrupted, Cancelled}
    case JobResource => {Succeeded, Failed, Interrupted, Cancelled}
    case AgentRunResource => {Succeeded, Failed, Interrupted, Cancelled, TimedOut}
  }

  predicate Terminal(r: Resource, s: Status) { s in Terminals(r) }

  predicate RecoverableTerminal(r: Resource, s: Status) { s == Interrupted }

  datatype Disposition = ReplayedStatus | ContractStep | OutsideContract

  function EvaluateTransition(r: Resource, from: Status, to: Status): Disposition {
    if from !in Known(r) || to !in Known(r) then OutsideContract
    else if from == to then ReplayedStatus
    else if to in Successors(r, from) then ContractStep
    else OutsideContract
  }

  /** The only way the contract leaves a terminal status is the recoverable one,
      and no contract step invents a status the resource does not know. */
  lemma ContractClosed(r: Resource, from: Status, to: Status)
    requires EvaluateTransition(r, from, to) == ContractStep
    ensures Terminal(r, from) ==> RecoverableTerminal(r, from)
    ensures to in Known(r) && to != from
  {
    match r {
      case PlanResource => assert from == Interrupted || !Terminal(r, from);
      case TaskResource => assert from == Interrupted || !Terminal(r, from);
      case JobResource => assert from == Interrupted || !Terminal(r, from);
      case AgentRunResource => assert from == Interrupted || !Terminal(r, from);
    }
  }

  // ---- the gate ---------------------------------------------------------

  /** A transition request. `version` 0 means "no expected version"; an empty
      `expected` set means "any status". `blankReason` records that the trimmed
      reason text is empty, which metadata validation refuses. */
  datatype Request = Request(
    status: Status,
    expected: set<Status>,
    version: nat := 0,
    worker: Option<Worker> := None,
    nonContract: bool := false,
    allowTerminal: bool := false,
    ignoreTerminal: bool := false,
    mismatch: Error := InvalidTransition,
    blankReason: bool := false)

  datatype Verdict = Applied | Replayed | Refused(error: Error)

  /** The decision of the gate for a row in `status` at `version`, held by
      `holder` when it is a job row. */
  function Gate(r: Resource, status: Status, version: nat, holder: Option<Worker>, q: Request): Verdict {
    if status == q.status then Replayed
    else if Terminal(r, status) && !q.allowTerminal && q.ignoreTerminal then Replayed
    else if Terminal(r, status) && !q.allowTerminal && !RecoverableTerminal(r, status) then Refused(InvalidTransition)
    else if q.version > 0 && version != q.version then Refused(VersionConflict)
    else if q.expected != {} && status !in q.expected then Refused(q.mismatch)
    else if q.worker.Some? && r != JobResource then Refused(InvalidTransition)
    else if q.worker.Some? && holder != q.worker then Refused(q.mismatch)
    else if !q.nonContract && EvaluateTransition(r, status, q.status) == OutsideContract then Refused(InvalidTransition)
    else if q.blankReason then Refused(InvalidMetadata)
    else Applied
  }
}
