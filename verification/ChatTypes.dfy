/** The values exchanged by the two-context chat experiment: identities, requests,
    message receipts, transcript lines and the command catalogue. */
module ChatTypes {
  import opened Wrappers

  const U64_MAX: int := 0xFFFF_FFFF_FFFF_FFFF

  type u64 = x: int | 0 <= x <= U64_MAX

  function CheckedIncrement(x: u64): Option<u64> {
    if x == U64_MAX then None else Some(x + 1)
  }

  function SaturatingAdd(x: u64, y: u64): u64 {
    if x + y > U64_MAX then U64_MAX else x + y
  }

  function SaturatingSub(x: u64, y: u64): u64 {
    if x < y then 0 else x - y
  }

  function Later(x: u64, y: u64): u64 {
    if x < y then y else x
  }

  // ------------------------------------------------------------ identities

  datatype Project = Studio | Observatory

  datatype Scope = Scope(generation: u64, project: Project, conversation: u64)

  datatype TaskRef = TaskRef(id: u64, revision: u64)

  datatype Target = Target(scope: Scope, task: Option<TaskRef>, connectionRevision: u64)

  datatype RequestId = RequestId(scope: Scope, sequence: u64)

  datatype Action = NewTurn | Steer | Queue

  /** Issue order: an earlier generation first, then the request sequence. */
  predicate Before(a: RequestId, b: RequestId) {
    a.scope.generation < b.scope.generation
    || (a.scope.generation == b.scope.generation && a.sequence < b.sequence)
  }

  // ---------------------------------------------------------------- errors

  datatype SubmitError =
    | AlreadyPending | Empty | TooLarge | IdentityExhausted | Disconnected | StaleTarget
    | RequiresChoice | NoActiveTask | Capacity | StaleDecision | StaleCommand
    | UnsupportedCommandMode | InvalidCommandArguments

  /** Why a retained request is where it is. */
  datatype Reason =
    | Refused(error: SubmitError)
    | FixtureRejected
    | QueuedBehindTask
    | SourceUnavailable
    | WorkStopped
    | WorkFailed

  // -------------------------------------------------------------- commands

  /** A contribution source. Any other source name a capture may carry is `NoSource`. */
  datatype Source = Core | Checks | Other | Skill | NoSource

  datatype Availability = Available | Unavailable | Stale | Revoked

  /** A command captured by the client; `definition` names the catalogue entry by the source
      that contributes it, since each source contributes exactly one. */
  datatype CommandCapture = CommandCapture(
    definition: Source,
    source: Source,
    sourceRevision: u64,
    definitionRevision: u64,
    catalogueRevision: u64,
    target: Target,
    draftRevision: u64,
    action: Action,
    arguments: string)

  datatype SourceState = SourceState(revision: u64, availability: Availability)

  datatype Catalogue = Catalogue(
    revision: u64,
    complete: bool,
    core: SourceState,
    checks: SourceState,
    other: SourceState,
    skill: SourceState)

  // -------------------------------------------------------------- requests

  /** The part of a request that nothing may alter between submission and recovery. */
  datatype Request = Request(
    id: RequestId,
    text: string,
    target: Target,
    action: Action,
    draftRevision: u64,
    command: Option<CommandCapture>)

  datatype Outcome = Accepted | Rejected(reason: Reason)

  datatype Pending = Pending(request: Request, unknown: bool, dueMs: u64, outcome: Option<Outcome>)

  datatype Retained = Retained(request: Request, reason: Reason)

  datatype Decision = Decision(id: u64, target: Target)

  datatype Task = Task(
    ref: TaskRef,
    progress: nat,
    decision: Option<Decision>,
    startedMs: u64,
    nextProgressMs: u64)

  datatype DecisionAction = Continue | Stop

  // -------------------------------------------------------------- receipts

  datatype MessageState =
    | AwaitingOutcome | UnknownOutcome | Acknowledged | Queued | Running | Held | Completed | Stopped | Failed

  predicate Settled(state: MessageState) {
    state == Acknowledged || state == Completed || state == Stopped || state == Failed
  }

  datatype MessageView = MessageView(
    id: RequestId,
    target: Target,
    action: Action,
    text: string,
    state: MessageState,
    execution: Option<TaskRef>,
    reason: Option<Reason>,
    stale: bool)

  datatype MessageTray = MessageTray(items: seq<MessageView>, historyTrimmed: bool)

  // ------------------------------------------------------------ transcript

  datatype Kind = Output | User(action: Action)

  /** The text of one transcript entry: a fixed notice, or a notice that quotes user text. */
  datatype Line =
    | Opening(project: Project, index: nat)
    | Verbatim(text: string)
    | SteerLine(text: string)
    | QueueLine(text: string)
    | FollowUp(text: string)
    | RejectedLine(reason: Reason)
    | EndedLine(reason: Reason)
    | TaskStarted | SteerNoted | QueueNoted | TaskCompleted
    | DecisionRaised | DecisionExpired | DecisionAnswered
    | Reconnected | ConnectionLost

  datatype Entry = Entry(kind: Kind, line: Line)

  function CharBytes(c: char): (n: nat)
    ensures 1 <= n <= 4
  {
    var v := c as int;
    if v < 0x80 then 1 else if v < 0x800 then 2 else if v < 0x1_0000 then 3 else 4
  }

  /** The UTF-8 length of a text. */
  function TextBytes(text: string): (n: nat)
    ensures |text| <= n <= 4 * |text|
  {
    if text == [] then 0 else CharBytes(text[0]) + TextBytes(text[1..])
  }

  predicate WhiteSpace(c: char) {
    var v := c as int;
    || 0x9 <= v <= 0xD || v == 0x20 || v == 0x85 || v == 0xA0 || v == 0x1680
    || 0x2000 <= v <= 0x200A || v == 0x2028 || v == 0x2029 || v == 0x202F || v == 0x205F || v == 0x3000
  }

  predicate Blank(text: string) {
    forall c :: c in text ==> WhiteSpace(c)
  }

  function ErrorBytes(error: SubmitError): nat {
    match error
    case AlreadyPending => 57
    case Empty => 31
    case TooLarge => 51
    case IdentityExhausted => 48
    case Disconnected => 52
    case StaleTarget => 66
    case RequiresChoice => 49
    case NoActiveTask => 51
    case Capacity => 74
    case StaleDecision => 63
    case StaleCommand => 78
    case UnsupportedCommandMode => 74
    case InvalidCommandArguments => 61
  }

  function ReasonBytes(reason: Reason): nat {
    match reason
    case Refused(error) => ErrorBytes(error)
    case FixtureRejected => 48
    case QueuedBehindTask => 40
    case SourceUnavailable => 52
    case WorkStopped => 47
    case WorkFailed => 46
  }

  /** The byte length of the displayed text, with the fixed wording counted exactly. */
  function EntryBytes(entry: Entry): nat {
    match entry.line
    case Opening(project, index) =>
      if index == 0 then (if project == Studio then 39 else 44)
      else if index == 1 then 70
      else if index == 2 then 69
      else 80
    case Verbatim(text) => TextBytes(text)
    case SteerLine(text) => 7 + TextBytes(text)
    case QueueLine(text) => 7 + TextBytes(text)
    case FollowUp(text) => 36 + TextBytes(text)
    case RejectedLine(reason) => 27 + ReasonBytes(reason)
    case EndedLine(reason) => 9 + ReasonBytes(reason)
    case TaskStarted => 54
    case SteerNoted => 65
    case QueueNoted => 48
    case TaskCompleted => 37
    case DecisionRaised => 60
    case DecisionExpired => 73
    case DecisionAnswered => 46
    case Reconnected => 77
    case ConnectionLost => 54
  }

  function Notice(line: Line): Entry {
    Entry(Output, line)
  }
}
