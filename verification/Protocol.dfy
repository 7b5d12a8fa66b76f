/** The client/owner request protocol as a state and its transitions. Each function is one
    operation of the chat fixture; an operation that refuses returns the state unchanged
    except where it records the time first. */
module Protocol {
  import opened ChatTypes
  import opened Wrappers
  import opened Transcript
  import M = Messages

  const PROTECTED_LIMIT: nat := 8
  const DRAFT_LIMIT: nat := 65_536
  const ACCEPTANCE_MS: u64 := 250
  const TASK_MS: u64 := 12_000

  /** What has happened to requests so far. Nothing in the protocol reads it. */
  datatype Ledger = Ledger(
    issued: seq<Request>,       // every request that received an identity, in order
    applied: seq<RequestId>,    // one element for each effect the owner applied
    consumed: seq<Request>,     // requests whose text became work: a turn or a steering
    discarded: seq<Request>,    // requests given up by explicit discard or reset
    current: Option<RequestId>) // the request whose turn is executing

  datatype State = State(
    scope: Scope,
    pending: Option<Pending>,
    connected: bool,
    task: Option<Task>,
    queued: seq<Retained>,
    recoverable: seq<Retained>,
    rejectArmed: bool,
    nextRequest: u64,
    nextTask: u64,
    nextDecision: u64,
    connectionRevision: u64,
    nowMs: u64,
    deliveryHeld: bool,
    messages: MessageTray,
    delivered: MessageTray,
    catalogue: Catalogue,
    display: Display,
    stream: Stream,
    ledger: Ledger)

  function Openings(project: Project): seq<Entry> {
    [Notice(Opening(project, 0)), Notice(Opening(project, 1)), Notice(Opening(project, 2)), Notice(Opening(project, 3))]
  }

  const FRESH_CATALOGUE: Catalogue :=
    Catalogue(1, true, SourceState(1, Available), SourceState(1, Available), SourceState(1, Available), SourceState(1, Available))

  function Fresh(project: Project, generation: u64, ledger: Ledger): State {
    State(Scope(generation, project, 1), None, true, None, [], [], false, 1, 1, 1, 1, 0, false,
          MessageTray([], false), MessageTray([], false), FRESH_CATALOGUE,
          Display(Openings(project), false, 0, [], 0, false),
          Stream(Openings(project), Openings(project), [], 0),
          ledger)
  }

  function Initial(project: Project): State {
    Fresh(project, 1, Ledger([], [], [], [], None))
  }

  // -------------------------------------------------------------- readers

  function CurrentTarget(s: State): Target {
    Target(s.scope, if s.task.Some? then Some(s.task.value.ref) else None, s.connectionRevision)
  }

  predicate TargetValid(s: State, target: Target) {
    s.connected && target == CurrentTarget(s)
  }

  predicate Blocked(s: State) {
    !s.connected || s.deliveryHeld
  }

  function PendingId(s: State): Option<RequestId> {
    if s.pending.Some? then Some(s.pending.value.request.id) else None
  }

  function RetainedIds(list: seq<Retained>): set<RequestId> {
    set r | r in list :: r.request.id
  }

  /** Distinct protected requests: a pending request that is already queued or held counts once. */
  function Protected(queued: seq<Retained>, recoverable: seq<Retained>, p: Option<Pending>): nat {
    |queued| + |recoverable| +
    if p.Some? && p.value.request.id !in RetainedIds(queued) && p.value.request.id !in RetainedIds(recoverable)
    then 1 else 0
  }

  function ProtectedCount(s: State): nat {
    Protected(s.queued, s.recoverable, s.pending)
  }

  /** None when the operation is admitted, otherwise the first refusal. */
  function Validate(s: State, target: Target, action: Action): Option<SubmitError> {
    if !s.connected then Some(Disconnected)
    else if !TargetValid(s, target) then Some(StaleTarget)
    else if action == NewTurn && s.task.Some? then Some(RequiresChoice)
    else if action != NewTurn && s.task.None? then Some(NoActiveTask)
    else None
  }

  function Admit(s: State, target: Target, action: Action): Option<SubmitError> {
    if s.pending.Some? then Some(AlreadyPending)
    else if Validate(s, target, action).Some? then Validate(s, target, action)
    else if ProtectedCount(s) >= PROTECTED_LIMIT then Some(Capacity)
    else if CheckedIncrement(s.nextRequest).None? then Some(IdentityExhausted)
    else None
  }

  // ------------------------------------------------------------- commands

  function SourceOf(c: Catalogue, source: Source): SourceState
    requires source != NoSource
  {
    match source
    case Core => c.core
    case Checks => c.checks
    case Other => c.other
    case Skill => c.skill
  }

  function WithSource(c: Catalogue, source: Source, state: SourceState): Catalogue {
    match source
    case Core => c.(core := state)
    case Checks => c.(checks := state)
    case Other => c.(other := state)
    case Skill => c.(skill := state)
    case NoSource => c
  }

  predicate Supports(source: Source, action: Action) {
    source == Skill ==> action != Steer
  }

  function ValidateCommand(c: Catalogue, capture: CommandCapture): Option<SubmitError> {
    if !c.complete || c.revision != capture.catalogueRevision then Some(StaleCommand)
    else if capture.definition != capture.source || capture.source == NoSource then Some(StaleCommand)
    else
      var source := SourceOf(c, capture.source);
      if source.availability != Available
         || source.revision != capture.sourceRevision
         || source.revision != capture.definitionRevision then Some(StaleCommand)
      else if !Supports(capture.source, capture.action) then Some(UnsupportedCommandMode)
      else None
  }

  function CommandName(source: Source): string {
    match source
    case Core => "/ext:core/check"
    case Checks => "/ext:checks/test"
    case Other => "/ext:other/review"
    case Skill => "/skill:project/review"
    case NoSource => ""
  }

  /** The raw text is the command name, optionally followed by one separator and the arguments. */
  predicate ArgumentsMatch(name: string, raw: string, arguments: string) {
    && name <= raw
    && var body := raw[|name|..];
       if body == [] then arguments == []
       else (body[0] == ' ' || body[0] == '\n') && body[1..] == arguments
  }

  // --------------------------------------------------------- small effects

  function Emit(s: State, e: Entry): State {
    s.(display := Append(s.display, Blocked(s), e), stream := NoteAppend(s.stream, Blocked(s), e))
  }

  function Relabel(s: State, id: RequestId, state: MessageState, execution: Option<TaskRef>, reason: Option<Reason>): State {
    s.(messages := s.messages.(items := M.ChangeMessage(s.messages.items, id, state, execution, reason)))
  }

  function Refresh(s: State): State {
    var tray := M.Refreshed(s.messages, PendingId(s));
    s.(messages := tray, delivered := if Blocked(s) then s.delivered else tray)
  }

  function Deliver(s: State): State {
    if !s.connected || s.pending.Some? then s
    else Refresh(s.(deliveryHeld := false, display := Flush(s.display), stream := NoteFlush(s.stream, s.display)))
  }

  function StartedTask(s: State): Task {
    Task(TaskRef(s.nextTask, 1), 0, None, s.nowMs, SaturatingAdd(s.nowMs, ACCEPTANCE_MS))
  }

  // --------------------------------------------------------------- submit

  function SubmitRefusal(s: State, target: Target, action: Action, text: string): Option<SubmitError> {
    if s.pending.Some? then Some(AlreadyPending)
    else if Blank(text) then Some(Empty)
    else if TextBytes(text) > DRAFT_LIMIT then Some(TooLarge)
    else Admit(s, target, action)
  }

  function Submit(s: State, target: Target, action: Action, draftRevision: u64, text: string, nowMs: u64,
                  command: Option<CommandCapture>): State
  {
    if SubmitRefusal(s, target, action, text).Some? then s else
    var request := Request(RequestId(s.scope, s.nextRequest), text, target, action, draftRevision, command);
    var now := Later(s.nowMs, nowMs);
    var view := MessageView(request.id, target, action, text, AwaitingOutcome, None, None, false);
    Refresh(s.(nextRequest := s.nextRequest + 1,
               nowMs := now,
               messages := s.messages.(items := s.messages.items + [view]),
               pending := Some(Pending(request, false, SaturatingAdd(now, ACCEPTANCE_MS), None)),
               ledger := s.ledger.(issued := s.ledger.issued + [request])))
  }

  function CommandRefusal(s: State, capture: CommandCapture, raw: string): Option<SubmitError> {
    if TextBytes(raw) > DRAFT_LIMIT then Some(TooLarge)
    else if ValidateCommand(s.catalogue, capture).Some? then ValidateCommand(s.catalogue, capture)
    else if !ArgumentsMatch(CommandName(capture.source), raw, capture.arguments) then Some(InvalidCommandArguments)
    else SubmitRefusal(s, capture.target, capture.action, raw)
  }

  function SubmitCommand(s: State, capture: CommandCapture, raw: string, nowMs: u64): State {
    if CommandRefusal(s, capture, raw).Some? then s
    else Submit(s, capture.target, capture.action, capture.draftRevision, raw, nowMs, Some(capture))
  }

  // --------------------------------------------------- acceptance, delivery

  /** The owner's admission of a pending request: the captured target and command must still hold. */
  function OwnerRefusal(s: State, request: Request): Option<SubmitError> {
    if Validate(s, request.target, request.action).Some? then Validate(s, request.target, request.action)
    else if request.command.Some? then ValidateCommand(s.catalogue, request.command.value)
    else None
  }

  /** The effect itself can still refuse when an identity is exhausted. */
  function EffectRefusal(s: State, request: Request): Option<SubmitError> {
    match request.action
    case NewTurn => if CheckedIncrement(s.nextTask).None? then Some(IdentityExhausted) else None
    case Steer =>
      if s.task.None? then Some(NoActiveTask)
      else if CheckedIncrement(s.task.value.ref.revision).None? then Some(IdentityExhausted) else None
    case Queue => None
  }

  function BeginTurn(s: State, request: Request): State
    requires s.nextTask < U64_MAX
  {
    var task := StartedTask(s);
    var relabelled := Relabel(s, request.id, Running, Some(task.ref), None);
    var started := relabelled.(nextTask := s.nextTask + 1, task := Some(task),
                               ledger := s.ledger.(consumed := s.ledger.consumed + [request], current := Some(request.id)));
    Emit(Emit(started, Entry(User(NewTurn), Verbatim(request.text))), Notice(TaskStarted))
  }

  /** Advance the task revision and carry an open decision to the new target. */
  function BumpRevision(s: State): State
    requires s.task.Some? && s.task.value.ref.revision < U64_MAX
  {
    var t := s.task.value;
    s.(task := Some(t.(ref := t.ref.(revision := t.ref.revision + 1))))
  }

  function RetargetDecision(s: State): State {
    if s.task.Some? && s.task.value.decision.Some?
    then s.(task := Some(s.task.value.(decision := Some(s.task.value.decision.value.(target := CurrentTarget(s))))))
    else s
  }

  function SteerTask(s: State, request: Request): State
    requires s.task.Some? && s.task.value.ref.revision < U64_MAX
  {
    var steered := Relabel(RetargetDecision(BumpRevision(s)), request.id, Acknowledged, None, None);
    var noted := steered.(ledger := s.ledger.(consumed := s.ledger.consumed + [request]));
    Emit(Emit(noted, Entry(User(Steer), SteerLine(request.text))), Notice(SteerNoted))
  }

  function Enqueue(s: State, request: Request): State {
    var relabelled := Relabel(s, request.id, Queued, None, None);
    var queued := relabelled.(queued := s.queued + [Retained(request, QueuedBehindTask)]);
    Emit(Emit(queued, Entry(User(Queue), QueueLine(request.text))), Notice(QueueNoted))
  }

  function Effect(s: State, request: Request): State
    requires EffectRefusal(s, request).None?
  {
    match request.action
    case NewTurn => BeginTurn(s, request)
    case Steer => SteerTask(s, request)
    case Queue => Enqueue(s, request)
  }

  function Record(s: State, outcome: Outcome): State
    requires s.pending.Some?
  {
    s.(pending := Some(s.pending.value.(outcome := Some(outcome))))
  }

  function Reject(s: State, reason: Reason): State
    requires s.pending.Some?
  {
    Record(Emit(Relabel(s, s.pending.value.request.id, Held, None, Some(reason)), Notice(RejectedLine(reason))),
           Rejected(reason))
  }

  /** Decide a pending request that has no outcome, withholding delivery from here on. */
  function Decide(s: State): State
    requires s.pending.Some? && s.connected
  {
    var request := s.pending.value.request;
    var held := s.(deliveryHeld := true);
    var refusal := OwnerRefusal(held, request);
    if refusal.Some? then Reject(held, Refused(refusal.value))
    else if s.rejectArmed then Reject(held.(rejectArmed := false), FixtureRejected)
    else if EffectRefusal(held, request).Some? then Reject(held, Refused(EffectRefusal(held, request).value))
    else
      var done := Effect(held, request);
      Record(done.(ledger := done.ledger.(applied := done.ledger.applied + [request.id])), Accepted)
  }

  predicate CanAccept(s: State) {
    s.pending.Some? && s.pending.value.outcome.None? && s.connected
  }

  function Accept(s: State, nowMs: u64): State {
    var timed := s.(nowMs := Later(s.nowMs, nowMs));
    if CanAccept(timed) then Refresh(Decide(timed)) else timed
  }

  predicate CanAcknowledge(s: State, id: RequestId) {
    s.connected && PendingId(s) == Some(id)
  }

  /** Give the recorded outcome to the client: rejected text becomes recoverable. */
  function Resolve(s: State): State
    requires s.pending.Some? && s.pending.value.outcome.Some?
  {
    var p := s.pending.value;
    match p.outcome.value
    case Accepted => s.(pending := None)
    case Rejected(reason) => s.(pending := None, recoverable := s.recoverable + [Retained(p.request, reason)])
  }

  function Acknowledge(s: State, id: RequestId): State {
    if !CanAcknowledge(s, id) then s
    else
      var accepted := Accept(s, s.nowMs);
      if accepted.pending.Some? && accepted.pending.value.outcome.Some? then Deliver(Resolve(accepted)) else accepted
  }

  function AcknowledgePending(s: State): State {
    if s.pending.Some? then Acknowledge(s, s.pending.value.request.id) else s
  }

  // ------------------------------------------------------------ task ends

  /** Settle the receipt of the turn that executes a task. */
  function FinishedItems(items: seq<MessageView>, task: u64, state: MessageState, reason: Option<Reason>): seq<MessageView> {
    var at := RunningPosition(items, task);
    if at < |items| then M.ChangeMessage(items, items[at].id, state, items[at].execution, reason) else items
  }

  function FinishTurn(s: State, state: MessageState, reason: Option<Reason>): State
    requires s.task.Some?
  {
    s.(messages := s.messages.(items := FinishedItems(s.messages.items, s.task.value.ref.id, state, reason)),
       task := None, ledger := s.ledger.(current := None))
  }

  predicate Executing(v: MessageView, task: u64) {
    v.state == Running && v.execution.Some? && v.execution.value.id == task
  }

  function RunningPosition(items: seq<MessageView>, task: u64): (at: nat)
    ensures at <= |items|
    ensures at < |items| ==> Executing(items[at], task)
    ensures forall i :: 0 <= i < at ==> !Executing(items[i], task)
  {
    if items == [] || Executing(items[0], task) then 0 else 1 + RunningPosition(items[1..], task)
  }

  /** Which queued requests an interruption holds for recovery. */
  datatype Filter = Everything | AnyCommand | CommandFrom(source: Source)

  predicate Selected(filter: Filter, request: Request) {
    match filter
    case Everything => true
    case AnyCommand => request.command.Some?
    case CommandFrom(source) => request.command.Some? && request.command.value.source == source
  }

  /** The requests of a list that a filter selects, or those that it does not, in their order. */
  function Picked(list: seq<Retained>, filter: Filter, selected: bool): seq<Retained> {
    if list == [] then []
    else (if Selected(filter, list[0].request) == selected then [list[0]] else []) + Picked(list[1..], filter, selected)
  }

  function HeldAs(list: seq<Retained>, reason: Reason): seq<Retained> {
    if list == [] then [] else [Retained(list[0].request, reason)] + HeldAs(list[1..], reason)
  }

  /** Move the i-th queued request to the recoverable list. */
  function HoldAt(s: State, i: nat, reason: Reason): State
    requires i < |s.queued|
  {
    var request := s.queued[i].request;
    Relabel(s, request.id, Held, None, Some(reason)).(
      queued := s.queued[..i] + s.queued[i + 1..],
      recoverable := s.recoverable + [Retained(request, reason)])
  }

  /** Hold every selected request from position i on, in queue order. */
  function HoldFrom(s: State, i: nat, filter: Filter, reason: Reason): State
    requires i <= |s.queued|
    decreases |s.queued| - i
  {
    if i == |s.queued| then s
    else if Selected(filter, s.queued[i].request) then HoldFrom(HoldAt(s, i, reason), i, filter, reason)
    else HoldFrom(s, i + 1, filter, reason)
  }

  /** Start the oldest follow-up as a new task. */
  function StartNext(s: State): State
    requires s.queued != [] && s.nextTask < U64_MAX
  {
    var request := s.queued[0].request;
    var task := StartedTask(s);
    var relabelled := Relabel(s, request.id, Running, Some(task.ref), None);
    var popped := relabelled.(queued := s.queued[1..],
                              nextTask := s.nextTask + 1,
                              ledger := s.ledger.(consumed := s.ledger.consumed + [request], current := Some(request.id)));
    Emit(popped, Notice(FollowUp(request.text))).(task := Some(task))
  }

  function Complete(s: State, nowMs: u64): State {
    var timed := s.(nowMs := Later(s.nowMs, nowMs));
    if timed.task.None? then timed
    else
      var ended := Emit(FinishTurn(timed, Completed, None), Notice(TaskCompleted));
      Refresh(if ended.queued == [] then ended
              else if ended.nextTask < U64_MAX then StartNext(ended)
              else HoldFrom(ended, 0, Everything, Refused(IdentityExhausted)))
  }

  function EndUnsuccessfully(s: State, state: MessageState, reason: Reason): State {
    if s.task.None? then s
    else Refresh(Emit(HoldFrom(FinishTurn(s, state, Some(reason)), 0, Everything, reason), Notice(EndedLine(reason))))
  }

  function StopTask(s: State): State {
    if !s.connected then s else EndUnsuccessfully(s, Stopped, WorkStopped)
  }

  function FailTask(s: State): State {
    EndUnsuccessfully(s, Failed, WorkFailed)
  }

  // ------------------------------------------------------------ decisions

  predicate CanToggleDecision(s: State) {
    && s.connected && s.task.Some?
    && (s.task.value.decision.None? ==> s.nextDecision < U64_MAX)
    && s.task.value.ref.revision < U64_MAX
  }

  function ToggleDecision(s: State): State {
    if !CanToggleDecision(s) then s
    else
      var raising := s.task.value.decision.None?;
      var bumped := BumpRevision(s);
      var decision := if raising then Some(Decision(s.nextDecision, CurrentTarget(bumped))) else None;
      Emit(bumped.(task := Some(bumped.task.value.(decision := decision)),
                   nextDecision := if raising then s.nextDecision + 1 else s.nextDecision),
           Notice(if raising then DecisionRaised else DecisionExpired))
  }

  predicate DecisionOpen(s: State, target: Target, id: u64) {
    && TargetValid(s, target)
    && s.task.Some? && s.task.value.decision.Some?
    && s.task.value.decision.value.id == id && s.task.value.decision.value.target == target
  }

  function RespondRefusal(s: State, target: Target, id: u64, answer: DecisionAction): Option<SubmitError> {
    if !DecisionOpen(s, target, id) then Some(StaleDecision)
    else if answer == Continue && s.task.value.ref.revision == U64_MAX then Some(IdentityExhausted)
    else None
  }

  function Respond(s: State, target: Target, id: u64, answer: DecisionAction): State {
    if RespondRefusal(s, target, id, answer).Some? then s
    else match answer
      case Continue =>
        var bumped := BumpRevision(s);
        Emit(bumped.(task := Some(bumped.task.value.(decision := None))), Notice(DecisionAnswered))
      case Stop => StopTask(s)
  }

  // ----------------------------------------------------------- connection

  predicate CanSetConnected(s: State, connected: bool) {
    s.connected != connected && s.connectionRevision < U64_MAX
  }

  /** The connection itself, before any reconciliation. */
  function Switch(s: State, connected: bool): State
    requires s.connectionRevision < U64_MAX
  {
    var moved := RetargetDecision(s.(connectionRevision := s.connectionRevision + 1,
                                     connected := connected,
                                     deliveryHeld := s.deliveryHeld || !connected));
    var marked := if moved.pending.Some?
                  then moved.(pending := Some(moved.pending.value.(unknown := !connected)))
                  else moved;
    Emit(marked, Notice(if connected then Reconnected else ConnectionLost))
  }

  function SetConnected(s: State, connected: bool): State {
    if !CanSetConnected(s, connected) then s
    else if connected then Deliver(AcknowledgePending(Switch(s, true)))
    else Switch(s, false)
  }

  function LoseAcknowledgement(s: State, nowMs: u64): State {
    if !s.connected || s.pending.None? then s else SetConnected(Accept(s, nowMs), false)
  }

  // ------------------------------------------------------ recovery, reset

  function RetainedPosition(list: seq<Retained>, id: RequestId): (at: nat)
    ensures at <= |list|
    ensures at < |list| ==> list[at].request.id == id
    ensures at < |list| <==> id in RetainedIds(list)
    ensures forall i :: 0 <= i < at ==> list[i].request.id != id
  {
    if list == [] || list[0].request.id == id then 0
    else
      assert list == [list[0]] + list[1..];
      1 + RetainedPosition(list[1..], id)
  }

  predicate CanDiscard(s: State, id: RequestId) {
    !Blocked(s) && PendingId(s) != Some(id) && id in RetainedIds(s.recoverable)
  }

  function DropId(items: seq<MessageView>, id: RequestId): seq<MessageView> {
    if items == [] then []
    else if items[0].id == id then DropId(items[1..], id)
    else [items[0]] + DropId(items[1..], id)
  }

  function Discard(s: State, id: RequestId): State {
    if !CanDiscard(s, id) then s
    else
      var at := RetainedPosition(s.recoverable, id);
      Refresh(s.(recoverable := s.recoverable[..at] + s.recoverable[at + 1..],
                 messages := s.messages.(items := DropId(s.messages.items, id)),
                 ledger := s.ledger.(discarded := s.ledger.discarded + [s.recoverable[at].request])))
  }

  function Requests(list: seq<Retained>): seq<Request> {
    if list == [] then [] else [list[0].request] + Requests(list[1..])
  }

  /** A pending request whose text nothing else holds. */
  function Unplaced(p: Option<Pending>): seq<Request> {
    if p.Some? && p.value.outcome != Some(Accepted) then [p.value.request] else []
  }

  function Reset(s: State): State {
    if s.scope.generation == U64_MAX then s
    else Fresh(s.scope.project, s.scope.generation + 1,
               s.ledger.(current := None,
                         discarded := s.ledger.discarded + Unplaced(s.pending) + Requests(s.queued) + Requests(s.recoverable)))
  }

  // ------------------------------------------------------- source changes

  predicate CanChangeSources(s: State) {
    && s.catalogue.revision < U64_MAX && s.catalogue.checks.revision < U64_MAX && s.catalogue.core.revision < U64_MAX
    && s.catalogue.other.revision < U64_MAX && s.catalogue.skill.revision < U64_MAX
  }

  function Moved(state: SourceState, available: bool): SourceState
    requires state.revision < U64_MAX
  {
    SourceState(state.revision + 1, if available then Available else Revoked)
  }

  function ChangeSources(s: State, available: bool): State {
    if !CanChangeSources(s) then s
    else
      var c := s.catalogue;
      var changed := s.(catalogue := Catalogue(c.revision + 1, c.complete, Moved(c.core, available), Moved(c.checks, available),
                                               Moved(c.other, available), Moved(c.skill, available)));
      if available then changed else Refresh(HoldFrom(changed, 0, AnyCommand, SourceUnavailable))
  }

  predicate CanReplaceSource(s: State, source: Source) {
    s.catalogue.revision < U64_MAX && source != NoSource && SourceOf(s.catalogue, source).revision < U64_MAX
  }

  function ReplaceSource(s: State, source: Source, available: bool): State {
    if !CanReplaceSource(s, source) then s
    else
      var moved := Moved(SourceOf(s.catalogue, source), available);
      var changed := s.(catalogue := WithSource(s.catalogue, source, moved).(revision := s.catalogue.revision + 1));
      if available then changed else Refresh(HoldFrom(changed, 0, CommandFrom(source), SourceUnavailable))
  }

  // ----------------------------------------------------------------- time

  predicate TaskDue(s: State) {
    s.task.Some? && s.task.value.decision.None? && SaturatingSub(s.nowMs, s.task.value.startedMs) >= TASK_MS
  }

  predicate ProgressDue(s: State) {
    s.task.Some? && s.nowMs >= s.task.value.nextProgressMs
  }

  function Progressed(t: Task, nowMs: u64): Task {
    var passed := SaturatingSub(nowMs, t.startedMs);
    var elapsed := if passed < TASK_MS then passed else TASK_MS;
    var percent := elapsed * 100 / TASK_MS;
    t.(progress := if percent < 99 then percent else 99, nextProgressMs := SaturatingAdd(nowMs, ACCEPTANCE_MS))
  }

  predicate AcknowledgementDue(s: State) {
    s.connected && s.pending.Some? && s.nowMs >= s.pending.value.dueMs
  }

  /** Whether advancing the clock reports a change. */
  predicate AdvanceReports(s: State, nowMs: u64) {
    var timed := s.(nowMs := Later(s.nowMs, nowMs));
    var acked := if AcknowledgementDue(timed) then AcknowledgePending(timed) else timed;
    || AcknowledgementDue(timed) || TaskDue(acked)
    || (ProgressDue(acked) && Progressed(acked.task.value, acked.nowMs).progress != acked.task.value.progress)
  }

  function Advance(s: State, nowMs: u64): State {
    var timed := s.(nowMs := Later(s.nowMs, nowMs));
    var acked := if AcknowledgementDue(timed) then AcknowledgePending(timed) else timed;
    if TaskDue(acked) then Complete(acked, acked.nowMs)
    else if ProgressDue(acked) then acked.(task := Some(Progressed(acked.task.value, acked.nowMs)))
    else acked
  }

  // ----------------------------------------------------------------- runs

  /** The operations a client, a scenario or the clock may perform, in any order. */
  datatype Step =
    | DoSubmit(target: Target, action: Action, draftRevision: u64, text: string, nowMs: u64)
    | DoSubmitCommand(capture: CommandCapture, raw: string, nowMs: u64)
    | DoAccept(nowMs: u64)
    | DoAcknowledge(id: RequestId)
    | DoLoseAcknowledgement(nowMs: u64)
    | DoAdvance(nowMs: u64)
    | DoComplete(nowMs: u64)
    | DoStop
    | DoFail
    | DoToggleDecision
    | DoRespond(target: Target, decision: u64, answer: DecisionAction)
    | DoSetConnected(connected: bool)
    | DoRejectNext
    | DoDiscard(id: RequestId)
    | DoReset
    | DoChangeSources(available: bool)
    | DoReplaceSource(source: Source, available: bool)
    | DoSetCatalogueComplete(complete: bool)

  function Next(s: State, step: Step): State {
    match step
    case DoSubmit(target, action, draftRevision, text, nowMs) => Submit(s, target, action, draftRevision, text, nowMs, None)
    case DoSubmitCommand(capture, raw, nowMs) => SubmitCommand(s, capture, raw, nowMs)
    case DoAccept(nowMs) => Accept(s, nowMs)
    case DoAcknowledge(id) => Acknowledge(s, id)
    case DoLoseAcknowledgement(nowMs) => LoseAcknowledgement(s, nowMs)
    case DoAdvance(nowMs) => Advance(s, nowMs)
    case DoComplete(nowMs) => Complete(s, nowMs)
    case DoStop => StopTask(s)
    case DoFail => FailTask(s)
    case DoToggleDecision => ToggleDecision(s)
    case DoRespond(target, decision, answer) => Respond(s, target, decision, answer)
    case DoSetConnected(connected) => SetConnected(s, connected)
    case DoRejectNext => s.(rejectArmed := !s.rejectArmed)
    case DoDiscard(id) => Discard(s, id)
    case DoReset => Reset(s)
    case DoChangeSources(available) => ChangeSources(s, available)
    case DoReplaceSource(source, available) => ReplaceSource(s, source, available)
    case DoSetCatalogueComplete(complete) => s.(catalogue := s.catalogue.(complete := complete))
  }

  function Run(s: State, steps: seq<Step>): State
    decreases |steps|
  {
    if steps == [] then s else Run(Next(s, steps[0]), steps[1..])
  }
}
