/** The chat fixture as the object the client holds: fields updated in place by operations, each
    proved to make exactly the transition the protocol describes. */
module ChatFixture {
  import opened ChatTypes
  import opened Wrappers
  import T = Transcript
  import P = Protocol
  import I = ProtocolInvariant
  import Safety = ProtocolSafety
  import Steps = ProtocolSteps
  import O = ProtocolOperations
  import C = ClientTray
  import M = Messages

  lemma TrimStep(entries: seq<Entry>)
    requires !T.Fits(entries)
    ensures entries != [] && T.Trim(entries) == T.Trim(entries[1..])
    ensures T.Bytes(entries) == EntryBytes(entries[0]) + T.Bytes(entries[1..])
  {
  }

  lemma HoldStep(s: P.State, i: nat, filter: P.Filter, reason: Reason)
    requires i <= |s.queued|
    ensures i == |s.queued| ==> P.HoldFrom(s, i, filter, reason) == s
    ensures i < |s.queued| && P.Selected(filter, s.queued[i].request) ==>
              |P.HoldAt(s, i, reason).queued| == |s.queued| - 1
              && P.HoldFrom(s, i, filter, reason) == P.HoldFrom(P.HoldAt(s, i, reason), i, filter, reason)
    ensures i < |s.queued| && !P.Selected(filter, s.queued[i].request) ==>
              P.HoldFrom(s, i, filter, reason) == P.HoldFrom(s, i + 1, filter, reason)
  {
    hide M.ChangeMessage, P.Selected;
  }

  lemma SubmitRefused(s: P.State, target: Target, action: Action, draftRevision: u64, text: string, now: u64,
                      command: Option<CommandCapture>)
    ensures P.SubmitRefusal(s, target, action, text).Some? ==> P.Submit(s, target, action, draftRevision, text, now, command) == s
  {
    hide P.SubmitRefusal, M.Refreshed;
  }

  /** The backlog's byte count is exact, so trimming it terminates. */
  ghost predicate Counted(s: P.State) {
    s.display.backlogBytes == T.Bytes(s.display.backlog)
  }

  lemma ReachableIsCounted(s: P.State)
    requires I.Inv(s)
    ensures Counted(s)
  {
    hide I.Linked, I.DeliveredOk, I.DeliveryOk, I.Sourced, I.Synced, I.Waiting;
  }

  /** Publishing does not look at the backlog. */
  lemma PublishKeepsBacklog(d: T.Display, entry: Entry)
    ensures T.Publish(d, entry).(backlog := []) == T.Publish(d.(backlog := []), entry)
    ensures T.Publish(d, entry).backlog == d.backlog
  {
    hide T.Trim;
  }

  lemma RoomForIdentity(s: P.State, target: Target, action: Action, text: string)
    requires P.SubmitRefusal(s, target, action, text).None?
    ensures s.nextRequest < U64_MAX
  {
    hide Blank, TextBytes, P.ProtectedCount;
  }

  lemma EffectKeepsPending(s: P.State, request: Request)
    requires P.EffectRefusal(s, request).None?
    ensures P.Effect(s, request).pending == s.pending
  {
    hide M.ChangeMessage, T.Append, T.NoteAppend;
  }

  lemma AcceptRecords(s: P.State)
    requires I.Inv(s) && s.connected && s.pending.Some?
    ensures var t := P.Accept(s, s.nowMs);
            t.pending.Some? && t.pending.value.outcome.Some?
  {
    hide I.Sound, I.Synced, I.Waiting, P.Decide, P.Refresh, I.DeliveryOk;
    if P.CanAccept(s) {
      Safety.AcceptKeepsSound(s, s.nowMs);
    }
  }

  /** Holding the first of the remaining requests is holding it inside the whole queue. */
  lemma HoldInside(s: P.State, retained: seq<Retained>, reason: Reason)
    requires s.queued != []
    ensures var whole := s.(queued := retained + s.queued);
            P.HoldAt(s, 0, reason).(queued := retained + s.queued[1..]) == P.HoldAt(whole, |retained|, reason)
  {
    hide M.ChangeMessage;
    var whole := retained + s.queued;
    assert whole[|retained|] == s.queued[0];
    assert whole[..|retained|] + whole[|retained| + 1..] == retained + s.queued[1..];
  }

  /** One turn of the filtering loop, on the queue as a whole. */
  lemma RevokedStep(s: P.State, retained: seq<Retained>, filter: P.Filter)
    requires s.queued != []
    ensures var whole := s.(queued := retained + s.queued);
            var next := if P.Selected(filter, s.queued[0].request)
                        then P.HoldAt(s, 0, SourceUnavailable).(queued := retained + s.queued[1..]) else whole;
            var at := if P.Selected(filter, s.queued[0].request) then |retained| else |retained| + 1;
            P.HoldFrom(whole, |retained|, filter, SourceUnavailable) == P.HoldFrom(next, at, filter, SourceUnavailable)
    ensures retained + s.queued == (retained + [s.queued[0]]) + s.queued[1..]
  {
    hide P.Selected, P.HoldAt, P.HoldFrom;
    var whole := s.(queued := retained + s.queued);
    assert whole.queued[|retained|] == s.queued[0];
    HoldInside(s, retained, SourceUnavailable);
    HoldStep(whole, |retained|, filter, SourceUnavailable);
  }

  /** What holding leaves in the two lists, also once the receipts are refreshed. */
  lemma HoldsExactly(s: P.State, filter: P.Filter, reason: Reason)
    ensures var t := P.HoldFrom(s, 0, filter, reason);
            && t.queued == P.Refresh(t).queued == P.Picked(s.queued, filter, false)
            && t.recoverable == P.Refresh(t).recoverable == s.recoverable + P.HeldAs(P.Picked(s.queued, filter, true), reason)
  {
    hide P.HoldFrom, P.Refresh, P.Picked, P.HeldAs;
    Steps.HoldFromIsExact(s, 0, filter, reason);
    assert s.queued[0..] == s.queued && s.queued[..0] == [];
    Safety.RefreshFrame(P.HoldFrom(s, 0, filter, reason));
  }

  lemma BoundedProtection(s: P.State)
    requires I.Inv(s)
    ensures P.ProtectedCount(s) <= P.PROTECTED_LIMIT
  {
    hide I.Projected, I.Ordered, I.Ledgered, I.Targets, I.DeliveredOk, I.DeliveryOk, I.Sourced, I.DisplayOk, I.Synced, I.Waiting, P.RetainedIds;
  }

  class Fixture {
    var transcript: seq<Entry>
    var pending: Option<Pending>
    var truncated: bool
    var connected: bool
    var task: Option<Task>
    var queued: seq<Retained>
    var recoverable: seq<Retained>
    var rejectArmed: bool
    var scope: Scope
    var baseId: nat
    var nextRequest: u64
    var nextTask: u64
    var nextDecision: u64
    var connectionRevision: u64
    var nowMs: u64
    var deliveryHeld: bool
    var displayBacklog: seq<Entry>
    var backlogBytes: nat
    var backlogTruncated: bool
    var messages: MessageTray
    var deliveredMessages: MessageTray
    var catalogue: Catalogue
    ghost var stream: T.Stream
    ghost var ledger: P.Ledger

    ghost function Display(): T.Display
      reads this
    {
      T.Display(transcript, truncated, baseId, displayBacklog, backlogBytes, backlogTruncated)
    }

    ghost function Snapshot(): (s: P.State)
      reads this
      ensures s.scope == scope && s.pending == pending && s.connected == connected && s.task == task
      ensures s.queued == queued && s.recoverable == recoverable && s.rejectArmed == rejectArmed
      ensures s.nextRequest == nextRequest && s.nextTask == nextTask && s.nextDecision == nextDecision
      ensures s.connectionRevision == connectionRevision && s.nowMs == nowMs && s.deliveryHeld == deliveryHeld
      ensures s.messages == messages && s.delivered == deliveredMessages && s.catalogue == catalogue
      ensures s.ledger == ledger && s.stream == stream && s.display == Display()
    {
      P.State(scope, pending, connected, task, queued, recoverable, rejectArmed, nextRequest, nextTask, nextDecision,
              connectionRevision, nowMs, deliveryHeld, messages, deliveredMessages, catalogue, Display(), stream, ledger)
    }

    ghost predicate Valid()
      reads this
    {
      I.Inv(Snapshot())
    }

    constructor (project: Project)
      ensures Valid() && Snapshot() == P.Initial(project)
    {
      transcript := P.Openings(project);
      pending, truncated, connected, task := None, false, true, None;
      queued, recoverable, rejectArmed := [], [], false;
      scope, baseId := Scope(1, project, 1), 0;
      nextRequest, nextTask, nextDecision, connectionRevision, nowMs := 1, 1, 1, 1, 0;
      deliveryHeld, displayBacklog, backlogBytes, backlogTruncated := false, [], 0, false;
      messages, deliveredMessages := MessageTray([], false), MessageTray([], false);
      catalogue := P.FRESH_CATALOGUE;
      stream := T.Stream(P.Openings(project), P.Openings(project), [], 0);
      ledger := P.Ledger([], [], [], [], None);
      new;
      hide I.Inv, P.Openings;
      Safety.InitialIsInv(project);
    }

    predicate DeliveryBlocked()
      reads this
    {
      !connected || deliveryHeld
    }

    function CurrentTarget(): Target
      reads this
    {
      Target(scope, if task.Some? then Some(task.value.ref) else None, connectionRevision)
    }

    // ---------------------------------------------------- single updates

    method ObserveTime(now: u64)
      modifies this`nowMs
      ensures Snapshot() == old(Snapshot()).(nowMs := Later(old(nowMs), now))
    {
      nowMs := Later(nowMs, now);
    }

    method SetTask(next: Option<Task>)
      modifies this`task
      ensures Snapshot() == old(Snapshot()).(task := next)
    {
      task := next;
    }

    method SetPending(next: Option<Pending>)
      modifies this`pending
      ensures Snapshot() == old(Snapshot()).(pending := next)
    {
      pending := next;
    }

    method SetQueued(next: seq<Retained>)
      modifies this`queued
      ensures Snapshot() == old(Snapshot()).(queued := next)
    {
      queued := next;
    }

    method SetRecoverable(next: seq<Retained>)
      modifies this`recoverable
      ensures Snapshot() == old(Snapshot()).(recoverable := next)
    {
      recoverable := next;
    }

    method SetCatalogue(next: Catalogue)
      modifies this`catalogue
      ensures Snapshot() == old(Snapshot()).(catalogue := next)
    {
      catalogue := next;
    }

    method SetFlags(held: bool, armed: bool)
      modifies this`deliveryHeld, this`rejectArmed
      ensures Snapshot() == old(Snapshot()).(deliveryHeld := held, rejectArmed := armed)
    {
      deliveryHeld, rejectArmed := held, armed;
    }

    method SetMessages(next: MessageTray)
      modifies this`messages
      ensures Snapshot() == old(Snapshot()).(messages := next)
    {
      messages := next;
    }

    method SetDelivered(next: MessageTray)
      modifies this`deliveredMessages
      ensures Snapshot() == old(Snapshot()).(delivered := next)
    {
      deliveredMessages := next;
    }

    method SetScope(next: Scope)
      modifies this`scope
      ensures Snapshot() == old(Snapshot()).(scope := next)
    {
      scope := next;
    }

    method SetCounters(request: u64, first: u64, decision: u64)
      modifies this`nextRequest, this`nextTask, this`nextDecision
      ensures Snapshot() == old(Snapshot()).(nextRequest := request, nextTask := first, nextDecision := decision)
    {
      nextRequest, nextTask, nextDecision := request, first, decision;
    }

    method SetLink(revision: u64, on: bool, held: bool)
      modifies this`connectionRevision, this`connected, this`deliveryHeld
      ensures Snapshot() == old(Snapshot()).(connectionRevision := revision, connected := on, deliveryHeld := held)
    {
      connectionRevision, connected, deliveryHeld := revision, on, held;
    }

    method SetClock(now: u64)
      modifies this`nowMs
      ensures Snapshot() == old(Snapshot()).(nowMs := now)
    {
      nowMs := now;
    }

    ghost method NoteStream(next: T.Stream)
      modifies this`stream
      ensures Snapshot() == old(Snapshot()).(stream := next)
    {
      stream := next;
    }

    ghost method Note(next: P.Ledger)
      modifies this`ledger
      ensures Snapshot() == old(Snapshot()).(ledger := next)
    {
      ledger := next;
    }

    // --------------------------------------------------------- transcript

    method AppendDelivered(entry: Entry)
      modifies this`transcript, this`baseId, this`truncated
      ensures Display() == T.Publish(old(Display()), entry)
    {
      transcript := transcript + [entry];
      ghost var whole := transcript;
      T.TrimKeepsSuffix(whole);
      while |transcript| > T.ENTRY_LIMIT || T.Bytes(transcript) > T.BYTE_LIMIT
        invariant T.Trim(transcript) == T.Trim(whole)
        invariant |transcript| <= |whole|
        invariant baseId == old(baseId) + (|whole| - |transcript|)
        invariant truncated == (old(truncated) || |transcript| < |whole|)
        decreases |transcript|
      {
        TrimStep(transcript);
        transcript := transcript[1..];
        baseId := baseId + 1;
        truncated := true;
      }
    }

    method WithholdEntry(entry: Entry)
      requires backlogBytes == T.Bytes(displayBacklog)
      modifies this`displayBacklog, this`backlogBytes, this`backlogTruncated
      ensures Display() == T.Withhold(old(Display()), entry)
    {
      T.BytesConcat(displayBacklog, [entry]);
      assert T.Bytes([entry]) == EntryBytes(entry) + T.Bytes([entry][1..]);
      backlogBytes := backlogBytes + EntryBytes(entry);
      displayBacklog := displayBacklog + [entry];
      ghost var whole := displayBacklog;
      T.TrimKeepsSuffix(whole);
      while |displayBacklog| > T.ENTRY_LIMIT || backlogBytes > T.BYTE_LIMIT
        invariant T.Trim(displayBacklog) == T.Trim(whole)
        invariant |displayBacklog| <= |whole|
        invariant backlogBytes == T.Bytes(displayBacklog)
        invariant backlogTruncated == (old(backlogTruncated) || |displayBacklog| < |whole|)
        decreases |displayBacklog|
      {
        TrimStep(displayBacklog);
        backlogBytes := backlogBytes - EntryBytes(displayBacklog[0]);
        displayBacklog := displayBacklog[1..];
        backlogTruncated := true;
      }
    }

    method ShowEntry(entry: Entry)
      requires backlogBytes == T.Bytes(displayBacklog)
      modifies this`transcript, this`baseId, this`truncated, this`displayBacklog, this`backlogBytes, this`backlogTruncated
      ensures Snapshot() == old(Snapshot()).(display := T.Append(old(Display()), DeliveryBlocked(), entry))
    {
      hide T.Publish, T.Withhold, T.Bytes, Display;
      if DeliveryBlocked() {
        WithholdEntry(entry);
      } else {
        AppendDelivered(entry);
      }
    }

    method AppendEntry(entry: Entry)
      requires Counted(Snapshot())
      modifies this`transcript, this`baseId, this`truncated, this`displayBacklog, this`backlogBytes, this`backlogTruncated, this`stream
      ensures Snapshot() == P.Emit(old(Snapshot()), entry) && Counted(Snapshot())
    {
      hide T.Append, T.NoteAppend, T.Bytes, Snapshot;
      NoteStream(T.NoteAppend(stream, DeliveryBlocked(), entry));
      AppendIsCounted(Snapshot(), entry);
      ShowEntry(entry);
    }

    static lemma AppendIsCounted(s: P.State, entry: Entry)
      requires Counted(s)
      ensures var d := T.Append(s.display, P.Blocked(s), entry); d.backlogBytes == T.Bytes(d.backlog)
    {
      hide T.Trim, T.Bytes;
    }

    /** Publish the withheld entries in order. */
    method PublishBacklog()
      modifies this`transcript, this`baseId, this`truncated, this`displayBacklog, this`backlogBytes, this`backlogTruncated
      ensures Display() == T.Flush(old(Display()))
    {
      hide T.Publish;
      truncated := truncated || backlogTruncated;
      backlogTruncated := false;
      backlogBytes := 0;
      while displayBacklog != []
        invariant T.PublishAll(Display().(backlog := []), displayBacklog) == T.Flush(old(Display()))
        decreases |displayBacklog|
      {
        ghost var now := Display();
        var entry := displayBacklog[0];
        displayBacklog := displayBacklog[1..];
        AppendDelivered(entry);
        PublishKeepsBacklog(now, entry);
        PublishKeepsBacklog(now.(backlog := now.backlog[1..]), entry);
      }
    }

    method ShowBacklog()
      modifies this`transcript, this`baseId, this`truncated, this`displayBacklog, this`backlogBytes, this`backlogTruncated
      ensures Snapshot() == old(Snapshot()).(display := T.Flush(old(Display())))
    {
      hide T.Flush, Display;
      PublishBacklog();
    }

    method DeliverBacklog()
      modifies this
      ensures Snapshot() == P.Deliver(old(Snapshot()))
    {
      hide T.Flush, T.NoteFlush, P.Refresh, Snapshot;
      if !connected || pending.Some? {
        return;
      }
      SetFlags(false, rejectArmed);
      NoteStream(T.NoteFlush(stream, Display()));
      ShowBacklog();
      RefreshMessages();
    }

    // ------------------------------------------------------------ receipts

    method ChangeMessage(id: RequestId, state: MessageState, execution: Option<TaskRef>, reason: Option<Reason>)
      modifies this`messages
      ensures Snapshot() == P.Relabel(old(Snapshot()), id, state, execution, reason)
    {
      var at := M.Position(messages.items, id);
      if at == |messages.items| {
        return;
      }
      var message := messages.items[at];
      var rest := messages.items[..at] + messages.items[at + 1..];
      messages := messages.(items := rest + [message.(state := state, execution := execution, reason := reason)]);
    }

    method PruneReceipts()
      modifies this`messages
      ensures messages == M.Refreshed(old(messages), P.PendingId(Snapshot()))
    {
      hide M.Prune, M.PrunableCount, M.FirstPrunable, M.Prunable;
      var protectedId := if pending.Some? then Some(pending.value.request.id) else None;
      while M.PrunableCount(messages.items, protectedId) > M.SETTLED_LIMIT
        invariant M.Prune(messages.items, protectedId) == M.Prune(old(messages.items), protectedId)
        invariant |messages.items| <= |old(messages.items)|
        invariant messages.historyTrimmed == (old(messages.historyTrimmed) || |messages.items| < |old(messages.items)|)
        decreases |messages.items|
      {
        M.PruneStep(messages.items, protectedId);
        var at := M.FirstPrunable(messages.items, protectedId);
        messages := MessageTray(M.Without(messages.items, at), true);
      }
      M.PruneStep(messages.items, protectedId);
    }

    method RefreshMessages()
      modifies this`messages, this`deliveredMessages
      ensures Snapshot() == P.Refresh(old(Snapshot()))
    {
      hide M.Refreshed;
      PruneReceipts();
      if !DeliveryBlocked() {
        deliveredMessages := messages;
      }
    }

    // ------------------------------------------------------------- readers

    method ProtectedCount() returns (count: nat)
      requires Valid()
      ensures count == P.ProtectedCount(Snapshot()) && count <= P.PROTECTED_LIMIT
    {
      hide I.Inv;
      BoundedProtection(Snapshot());
      count := |queued| + |recoverable|;
      if pending.Some? && P.RetainedPosition(queued, pending.value.request.id) == |queued|
         && P.RetainedPosition(recoverable, pending.value.request.id) == |recoverable| {
        count := count + 1;
      }
    }

    static method MarkedStale(shown: seq<MessageView>, stale: bool) returns (items: seq<MessageView>)
      ensures items == C.MarkStale(shown, stale)
    {
      items := [];
      for i := 0 to |shown|
        invariant |items| == i
        invariant forall k :: 0 <= k < i ==> items[k] == shown[k].(stale := stale)
      {
        items := items + [shown[i].(stale := stale)];
      }
    }

    /** The rows shown to the client. */
    method Tray() returns (tray: MessageTray)
      ensures tray == C.Tray(Snapshot())
    {
      hide P.DropId, C.SortRows, C.Reversed, C.MarkStale, Snapshot;
      var items := MarkedStale(deliveredMessages.items, DeliveryBlocked());
      if pending.Some? {
        var at := M.Position(messages.items, pending.value.request.id);
        if at < |messages.items| {
          var message := messages.items[at].(state := if pending.value.unknown then UnknownOutcome else AwaitingOutcome,
                                             execution := None, reason := None, stale := false);
          items := P.DropId(items, pending.value.request.id) + [message];
        }
      }
      tray := MessageTray(C.SortRows(C.Reversed(items)), deliveredMessages.historyTrimmed);
    }

    // ---------------------------------------------------------- submission

    /** The first reason to refuse a submission, if any. */
    method AdmissionRefusal(target: Target, action: Action, text: string) returns (refusal: Option<SubmitError>)
      requires Valid()
      ensures refusal == P.SubmitRefusal(Snapshot(), target, action, text)
      ensures refusal.None? <==> O.Admissible(Snapshot(), target, action, text)
    {
      hide I.Inv, Blank, TextBytes, P.ProtectedCount, Snapshot, O.Admissible;
      O.SubmissionIsDecisive(Snapshot(), target, action, text);
      if pending.Some? {
        return Some(AlreadyPending);
      }
      if Blank(text) {
        return Some(Empty);
      }
      if TextBytes(text) > P.DRAFT_LIMIT {
        return Some(TooLarge);
      }
      if !connected {
        return Some(Disconnected);
      }
      if target != CurrentTarget() {
        return Some(StaleTarget);
      }
      if action == NewTurn && task.Some? {
        return Some(RequiresChoice);
      }
      if action != NewTurn && task.None? {
        return Some(NoActiveTask);
      }
      var protectedCount := ProtectedCount();
      if protectedCount >= P.PROTECTED_LIMIT {
        return Some(Capacity);
      }
      if nextRequest == U64_MAX {
        return Some(IdentityExhausted);
      }
      refusal := None;
    }

    /** Enter a request as pending, with its receipt. */
    method EnterRequest(request: Request)
      requires nextRequest < U64_MAX && request.id == RequestId(scope, nextRequest)
      modifies this
      ensures Snapshot() == old(Snapshot()).(
                nextRequest := old(nextRequest) + 1,
                messages := old(messages).(items := old(messages.items)
                  + [MessageView(request.id, request.target, request.action, request.text, AwaitingOutcome, None, None, false)]),
                pending := Some(Pending(request, false, SaturatingAdd(nowMs, P.ACCEPTANCE_MS), None)),
                ledger := old(ledger).(issued := old(ledger.issued) + [request]))
    {
      hide Snapshot;
      SetCounters(nextRequest + 1, nextTask, nextDecision);
      SetMessages(messages.(items := messages.items
        + [MessageView(request.id, request.target, request.action, request.text, AwaitingOutcome, None, None, false)]));
      SetPending(Some(Pending(request, false, SaturatingAdd(nowMs, P.ACCEPTANCE_MS), None)));
      Note(ledger.(issued := ledger.issued + [request]));
    }

    method SubmitRequest(target: Target, action: Action, draftRevision: u64, text: string, now: u64, command: Option<CommandCapture>)
      returns (result: Result<RequestId, SubmitError>)
      requires Valid()
      modifies this
      ensures Valid()
      ensures Snapshot() == P.Submit(old(Snapshot()), target, action, draftRevision, text, now, command)
      ensures var refusal := P.SubmitRefusal(old(Snapshot()), target, action, text);
              result == if refusal.Some? then Err(refusal.value) else Ok(RequestId(old(scope), old(nextRequest)))
      ensures result.Ok? <==> O.Admissible(old(Snapshot()), target, action, text)
      ensures result.Ok? ==> pending.Some? && pending.value.request == Request(result.value, text, target, action, draftRevision, command)
    {
      hide I.Inv, P.Refresh, P.SubmitRefusal, Snapshot, O.Admissible;
      ghost var before := Snapshot();
      Safety.SubmitKeepsInv(before, target, action, draftRevision, text, now, command);
      var refusal := AdmissionRefusal(target, action, text);
      if refusal.Some? {
        return Err(refusal.value);
      }
      RoomForIdentity(before, target, action, text);
      var id := RequestId(scope, nextRequest);
      ObserveTime(now);
      EnterRequest(Request(id, text, target, action, draftRevision, command));
      RefreshMessages();
      return Ok(id);
    }

    method SubmitCommandRequest(capture: CommandCapture, raw: string, now: u64) returns (result: Result<RequestId, SubmitError>)
      requires Valid()
      modifies this
      ensures Valid()
      ensures Snapshot() == P.SubmitCommand(old(Snapshot()), capture, raw, now)
      ensures var refusal := P.CommandRefusal(old(Snapshot()), capture, raw);
              result == if refusal.Some? then Err(refusal.value) else Ok(RequestId(old(scope), old(nextRequest)))
    {
      hide I.Inv, TextBytes, P.SubmitRefusal, P.Submit, P.ArgumentsMatch, P.ValidateCommand, P.CommandName, Snapshot;
      if TextBytes(raw) > P.DRAFT_LIMIT {
        return Err(TooLarge);
      }
      var refusal := P.ValidateCommand(catalogue, capture);
      if refusal.Some? {
        return Err(refusal.value);
      }
      if !P.ArgumentsMatch(P.CommandName(capture.source), raw, capture.arguments) {
        return Err(InvalidCommandArguments);
      }
      SubmitRefused(Snapshot(), capture.target, capture.action, capture.draftRevision, raw, now, Some(capture));
      result := SubmitRequest(capture.target, capture.action, capture.draftRevision, raw, now, Some(capture));
    }

    // ---------------------------------------------------------- acceptance

    /** Allocate the next task. */
    method NewTask() returns (started: Task)
      requires nextTask < U64_MAX
      modifies this`nextTask
      ensures started == P.StartedTask(old(Snapshot()))
      ensures Snapshot() == old(Snapshot()).(nextTask := old(nextTask) + 1)
    {
      started := Task(TaskRef(nextTask, 1), 0, None, nowMs, SaturatingAdd(nowMs, P.ACCEPTANCE_MS));
      nextTask := nextTask + 1;
    }

    method BeginTurn(request: Request)
      requires nextTask < U64_MAX && Counted(Snapshot())
      modifies this
      ensures Snapshot() == P.BeginTurn(old(Snapshot()), request) && Counted(Snapshot())
    {
      hide Counted, M.ChangeMessage, P.Emit, Snapshot;
      ghost var l := ledger;
      var started := NewTask();
      KeepsCount(old(Snapshot()), Snapshot());
      ChangeMessage(request.id, Running, Some(started.ref), None);
      SetTask(Some(started));
      Note(l.(consumed := l.consumed + [request], current := Some(request.id)));
      KeepsCount(old(Snapshot()), Snapshot());
      AppendEntry(Entry(User(NewTurn), Verbatim(request.text)));
      AppendEntry(Notice(TaskStarted));
    }

    static lemma KeepsCount(s: P.State, t: P.State)
      requires Counted(s) && t.display == s.display
      ensures Counted(t)
    {
      hide T.Bytes;
    }

    method BumpRevision()
      requires task.Some? && task.value.ref.revision < U64_MAX
      modifies this`task
      ensures Snapshot() == P.BumpRevision(old(Snapshot()))
    {
      task := Some(task.value.(ref := task.value.ref.(revision := task.value.ref.revision + 1)));
    }

    method RefreshDecisionTarget()
      modifies this`task
      ensures Snapshot() == P.RetargetDecision(old(Snapshot()))
    {
      if task.Some? && task.value.decision.Some? {
        task := Some(task.value.(decision := Some(task.value.decision.value.(target := CurrentTarget()))));
      }
    }

    method SteerTask(request: Request)
      requires task.Some? && task.value.ref.revision < U64_MAX && Counted(Snapshot())
      modifies this
      ensures Snapshot() == P.SteerTask(old(Snapshot()), request) && Counted(Snapshot())
    {
      hide Counted, M.ChangeMessage, P.Emit, Snapshot;
      ghost var l := ledger;
      BumpRevision();
      RefreshDecisionTarget();
      ChangeMessage(request.id, Acknowledged, None, None);
      Note(l.(consumed := l.consumed + [request]));
      KeepsCount(old(Snapshot()), Snapshot());
      AppendEntry(Entry(User(Steer), SteerLine(request.text)));
      AppendEntry(Notice(SteerNoted));
    }

    method Enqueue(request: Request)
      requires Counted(Snapshot())
      modifies this
      ensures Snapshot() == P.Enqueue(old(Snapshot()), request) && Counted(Snapshot())
    {
      hide Counted, M.ChangeMessage, P.Emit, Snapshot;
      ChangeMessage(request.id, Queued, None, None);
      SetQueued(queued + [Retained(request, QueuedBehindTask)]);
      KeepsCount(old(Snapshot()), Snapshot());
      AppendEntry(Entry(User(Queue), QueueLine(request.text)));
      AppendEntry(Notice(QueueNoted));
    }

    method Apply(request: Request) returns (refusal: Option<SubmitError>)
      requires Counted(Snapshot())
      modifies this
      ensures refusal == P.EffectRefusal(old(Snapshot()), request)
      ensures refusal.Some? ==> Snapshot() == old(Snapshot())
      ensures refusal.None? ==> Snapshot() == P.Effect(old(Snapshot()), request)
      ensures Counted(Snapshot())
    {
      hide Counted, P.BeginTurn, P.SteerTask, P.Enqueue, Snapshot;
      match request.action {
        case NewTurn =>
          if nextTask == U64_MAX {
            return Some(IdentityExhausted);
          }
          BeginTurn(request);
        case Steer =>
          if task.None? {
            return Some(NoActiveTask);
          }
          if task.value.ref.revision == U64_MAX {
            return Some(IdentityExhausted);
          }
          SteerTask(request);
        case Queue =>
          Enqueue(request);
      }
      refusal := None;
    }

    /** Whether the owner still admits a request: its captured target and command must hold. */
    method OwnerRefusal(request: Request) returns (refusal: Option<SubmitError>)
      requires connected
      ensures refusal == P.OwnerRefusal(Snapshot(), request)
    {
      hide P.ValidateCommand, Snapshot;
      if request.target != CurrentTarget() {
        return Some(StaleTarget);
      }
      if request.action == NewTurn && task.Some? {
        return Some(RequiresChoice);
      }
      if request.action != NewTurn && task.None? {
        return Some(NoActiveTask);
      }
      if request.command.Some? {
        return P.ValidateCommand(catalogue, request.command.value);
      }
      refusal := None;
    }

    method RejectPending(reason: Reason)
      requires pending.Some? && Counted(Snapshot())
      modifies this
      ensures Snapshot() == P.Reject(old(Snapshot()), reason) && Counted(Snapshot())
    {
      hide Counted, M.ChangeMessage, T.Append, T.NoteAppend, Snapshot;
      ChangeMessage(pending.value.request.id, Held, None, Some(reason));
      KeepsCount(old(Snapshot()), Snapshot());
      AppendEntry(Notice(RejectedLine(reason)));
      ghost var told := Snapshot();
      SetPending(Some(pending.value.(outcome := Some(Rejected(reason)))));
      KeepsCount(told, Snapshot());
    }

    method AcceptEffect(request: Request)
      requires pending.Some?
      modifies this`pending, this`ledger
      ensures Snapshot() == P.Record(old(Snapshot()).(ledger := old(ledger).(applied := old(ledger.applied) + [request.id])), Accepted)
    {
      hide Snapshot;
      Note(ledger.(applied := ledger.applied + [request.id]));
      SetPending(Some(pending.value.(outcome := Some(Accepted))));
    }

    /** Decide the pending request. It stays in its field: nothing reads it before its outcome is
        recorded. */
    method Settle()
      requires P.CanAccept(Snapshot()) && Counted(Snapshot())
      modifies this
      ensures Snapshot() == P.Decide(old(Snapshot()))
    {
      hide Counted, P.OwnerRefusal, P.Effect, P.EffectRefusal, P.Reject, P.Record, Snapshot;
      SetFlags(true, rejectArmed);
      KeepsCount(old(Snapshot()), Snapshot());
      ghost var held := Snapshot();
      var request := pending.value.request;
      var refusal := OwnerRefusal(request);
      if refusal.Some? {
        RejectPending(Refused(refusal.value));
      } else if rejectArmed {
        SetFlags(true, false);
        KeepsCount(held, Snapshot());
        RejectPending(FixtureRejected);
      } else {
        refusal := Apply(request);
        if refusal.Some? {
          RejectPending(Refused(refusal.value));
        } else {
          EffectKeepsPending(held, request);
          AcceptEffect(request);
        }
      }
    }

    method AcceptPending(now: u64) returns (accepted: bool)
      requires Valid()
      modifies this
      ensures Valid()
      ensures Snapshot() == P.Accept(old(Snapshot()), now) && accepted == P.CanAccept(old(Snapshot()))
    {
      hide I.Inv, Counted, P.Decide, P.Refresh, Snapshot;
      Safety.AcceptKeepsInv(Snapshot(), now);
      ReachableIsCounted(Snapshot());
      ObserveTime(now);
      KeepsCount(old(Snapshot()), Snapshot());
      if pending.None? || pending.value.outcome.Some? || !connected {
        return false;
      }
      Settle();
      RefreshMessages();
      accepted := true;
    }

    /** Hand the recorded outcome over: rejected text becomes recoverable. */
    method ResolvePending()
      requires pending.Some? && pending.value.outcome.Some?
      modifies this`pending, this`recoverable
      ensures Snapshot() == P.Resolve(old(Snapshot()))
    {
      hide Snapshot;
      var taken := pending.value;
      SetPending(None);
      if taken.outcome.value.Rejected? {
        SetRecoverable(recoverable + [Retained(taken.request, taken.outcome.value.reason)]);
      }
    }

    method Acknowledge(id: RequestId) returns (done: bool)
      requires Valid()
      modifies this
      ensures Valid()
      ensures Snapshot() == P.Acknowledge(old(Snapshot()), id) && done == P.CanAcknowledge(old(Snapshot()), id)
    {
      hide I.Inv, P.Accept, P.Deliver, P.Resolve, Snapshot;
      Safety.AcknowledgeKeepsInv(Snapshot(), id);
      if !connected || pending.None? || pending.value.request.id != id {
        return false;
      }
      AcceptRecords(Snapshot());
      var accepted := AcceptPending(nowMs);
      ResolvePending();
      DeliverBacklog();
      done := true;
    }

    // ----------------------------------------------------------- task ends

    method FinishReceipt(ended: TaskRef, state: MessageState, reason: Option<Reason>)
      modifies this`messages
      ensures Snapshot() == old(Snapshot()).(
                messages := old(messages).(items := P.FinishedItems(old(messages.items), ended.id, state, reason)))
    {
      hide M.ChangeMessage, Snapshot;
      var at := P.RunningPosition(messages.items, ended.id);
      if at < |messages.items| {
        ChangeMessage(messages.items[at].id, state, messages.items[at].execution, reason);
      }
    }

    method EndTurn(state: MessageState, reason: Option<Reason>)
      requires task.Some?
      modifies this`task, this`messages, this`ledger
      ensures Snapshot() == P.FinishTurn(old(Snapshot()), state, reason)
    {
      hide P.FinishedItems, Snapshot;
      var ref := task.value.ref;
      SetTask(None);
      FinishReceipt(ref, state, reason);
      Note(ledger.(current := None));
    }

    /** Move the oldest queued request to the recoverable list. */
    method HoldFirst(reason: Reason)
      requires queued != []
      modifies this`queued, this`recoverable, this`messages
      ensures Snapshot() == P.HoldAt(old(Snapshot()), 0, reason) && queued == old(queued)[1..]
    {
      hide M.ChangeMessage, Snapshot;
      var next := queued[0];
      assert queued[..0] + queued[0 + 1..] == queued[1..];
      SetQueued(queued[1..]);
      ChangeMessage(next.request.id, Held, None, Some(reason));
      SetRecoverable(recoverable + [next.(reason := reason)]);
    }

    method HoldQueue(reason: Reason)
      modifies this`queued, this`recoverable, this`messages
      ensures Snapshot() == P.HoldFrom(old(Snapshot()), 0, P.Everything, reason)
      ensures Snapshot().display == old(Snapshot()).display
      ensures queued == P.Picked(old(queued), P.Everything, false)
      ensures recoverable == old(recoverable) + P.HeldAs(P.Picked(old(queued), P.Everything, true), reason)
    {
      hide P.HoldFrom, P.HoldAt, P.Picked, P.HeldAs, Snapshot;
      HoldsExactly(Snapshot(), P.Everything, reason);
      while queued != []
        invariant P.HoldFrom(Snapshot(), 0, P.Everything, reason) == P.HoldFrom(old(Snapshot()), 0, P.Everything, reason)
        decreases |queued|
      {
        HoldStep(Snapshot(), 0, P.Everything, reason);
        HoldFirst(reason);
      }
      HoldStep(Snapshot(), 0, P.Everything, reason);
    }

    /** Hold the queued commands of one source, or of every source. */
    method HoldRevokedCommands(filter: P.Filter)
      modifies this`queued, this`recoverable, this`messages, this`deliveredMessages
      ensures Snapshot() == P.Refresh(P.HoldFrom(old(Snapshot()), 0, filter, SourceUnavailable))
      ensures queued == P.Picked(old(queued), filter, false)
      ensures recoverable == old(recoverable) + P.HeldAs(P.Picked(old(queued), filter, true), SourceUnavailable)
    {
      hide *;
      HoldsExactly(Snapshot(), filter, SourceUnavailable);
      SiftQueue(filter);
      RefreshMessages();
    }

    /** One pass over the queue: selected commands are held, the others kept in order. */
    method SiftQueue(filter: P.Filter)
      modifies this`queued, this`recoverable, this`messages
      ensures Snapshot() == P.HoldFrom(old(Snapshot()), 0, filter, SourceUnavailable)
    {
      hide *;
      var retained: seq<Retained> := [];
      assert retained + queued == queued;
      while queued != []
        invariant P.HoldFrom(Snapshot().(queued := retained + queued), |retained|, filter, SourceUnavailable)
                  == P.HoldFrom(old(Snapshot()), 0, filter, SourceUnavailable)
        decreases |queued|
      {
        RevokedStep(Snapshot(), retained, filter);
        var next := queued[0];
        if P.Selected(filter, next.request) {
          HoldFirst(SourceUnavailable);
        } else {
          SetQueued(queued[1..]);
          retained := retained + [next];
        }
      }
      assert retained + queued == retained;
      HoldStep(Snapshot().(queued := retained), |retained|, filter, SourceUnavailable);
      SetQueued(retained);
    }

    method StartNext()
      requires queued != [] && nextTask < U64_MAX && Counted(Snapshot())
      modifies this
      ensures Snapshot() == P.StartNext(old(Snapshot()))
    {
      hide Counted, P.Emit, M.ChangeMessage, Snapshot;
      ghost var l := ledger;
      var started := NewTask();
      var next := queued[0];
      SetQueued(queued[1..]);
      ChangeMessage(next.request.id, Running, Some(started.ref), None);
      Note(l.(consumed := l.consumed + [next.request], current := Some(next.request.id)));
      KeepsCount(old(Snapshot()), Snapshot());
      AppendEntry(Notice(FollowUp(next.request.text)));
      SetTask(Some(started));
    }

    method Complete(now: u64) returns (completed: bool)
      requires Valid()
      modifies this
      ensures Valid()
      ensures Snapshot() == P.Complete(old(Snapshot()), now) && completed == old(task.Some?)
    {
      hide I.Inv, Counted, P.Emit, P.FinishedItems, P.StartNext, P.Refresh, P.HoldFrom, Snapshot;
      Safety.CompleteKeepsInv(Snapshot(), now);
      ReachableIsCounted(Snapshot());
      ObserveTime(now);
      if task.None? {
        return false;
      }
      EndTurn(Completed, None);
      KeepsCount(old(Snapshot()), Snapshot());
      AppendEntry(Notice(TaskCompleted));
      if queued != [] {
        if nextTask < U64_MAX {
          StartNext();
        } else {
          HoldQueue(Refused(IdentityExhausted));
        }
      }
      RefreshMessages();
      completed := true;
    }

    method EndUnsuccessfully(state: MessageState, reason: Reason) returns (ended: bool)
      requires Valid() && Settled(state)
      modifies this
      ensures Valid()
      ensures Snapshot() == P.EndUnsuccessfully(old(Snapshot()), state, reason) && ended == old(task.Some?)
    {
      hide I.Inv, Counted, P.Emit, P.FinishTurn, P.FinishedItems, P.Refresh, P.HoldFrom, Settled, Snapshot;
      Safety.EndUnsuccessfullyKeepsInv(Snapshot(), state, reason);
      ReachableIsCounted(Snapshot());
      if task.None? {
        return false;
      }
      EndTurn(state, Some(reason));
      HoldQueue(reason);
      KeepsCount(old(Snapshot()), Snapshot());
      AppendEntry(Notice(EndedLine(reason)));
      RefreshMessages();
      ended := true;
    }

    method Stop() returns (stopped: bool)
      requires Valid()
      modifies this
      ensures Valid()
      ensures Snapshot() == P.StopTask(old(Snapshot())) && stopped == old(connected && task.Some?)
    {
      hide I.Inv, P.EndUnsuccessfully, Snapshot;
      if !connected {
        return false;
      }
      stopped := EndUnsuccessfully(Stopped, WorkStopped);
    }

    method Fail() returns (failed: bool)
      requires Valid()
      modifies this
      ensures Valid()
      ensures Snapshot() == P.FailTask(old(Snapshot())) && failed == old(task.Some?)
    {
      hide I.Inv, P.EndUnsuccessfully, Snapshot;
      failed := EndUnsuccessfully(Failed, WorkFailed);
    }

    // ----------------------------------------------------------- decisions

    method RaiseOrExpire(raising: bool)
      requires task.Some? && (raising ==> nextDecision < U64_MAX)
      modifies this`task, this`nextDecision
      ensures Snapshot() == old(Snapshot()).(
                task := Some(old(task).value.(decision := if raising then Some(Decision(old(nextDecision), old(CurrentTarget()))) else None)),
                nextDecision := if raising then old(nextDecision) + 1 else old(nextDecision))
    {
      if raising {
        task := Some(task.value.(decision := Some(Decision(nextDecision, CurrentTarget()))));
        nextDecision := nextDecision + 1;
      } else {
        task := Some(task.value.(decision := None));
      }
    }

    method ToggleDecision() returns (toggled: bool)
      requires Valid()
      modifies this
      ensures Valid()
      ensures Snapshot() == P.ToggleDecision(old(Snapshot())) && toggled == P.CanToggleDecision(old(Snapshot()))
    {
      hide I.Inv, Counted, P.Emit, Snapshot;
      Safety.ToggleDecisionKeepsInv(Snapshot());
      ReachableIsCounted(Snapshot());
      if !connected || task.None? {
        return false;
      }
      var raising := task.value.decision.None?;
      if raising && nextDecision == U64_MAX {
        return false;
      }
      if task.value.ref.revision == U64_MAX {
        return false;
      }
      BumpRevision();
      RaiseOrExpire(raising);
      KeepsCount(old(Snapshot()), Snapshot());
      AppendEntry(Notice(if raising then DecisionRaised else DecisionExpired));
      toggled := true;
    }

    method RespondDecision(target: Target, id: u64, answer: DecisionAction) returns (refusal: Option<SubmitError>)
      requires Valid()
      modifies this
      ensures Valid()
      ensures Snapshot() == P.Respond(old(Snapshot()), target, id, answer)
      ensures refusal == P.RespondRefusal(old(Snapshot()), target, id, answer)
    {
      hide I.Inv, Counted, P.Emit, P.EndUnsuccessfully, Snapshot;
      Safety.RespondKeepsInv(Snapshot(), target, id, answer);
      ReachableIsCounted(Snapshot());
      if !(connected && target == CurrentTarget()) || task.None? || task.value.decision.None?
         || task.value.decision.value.id != id || task.value.decision.value.target != target {
        return Some(StaleDecision);
      }
      match answer {
        case Continue =>
          if task.value.ref.revision == U64_MAX {
            return Some(IdentityExhausted);
          }
          BumpRevision();
          SetTask(Some(task.value.(decision := None)));
          KeepsCount(old(Snapshot()), Snapshot());
          AppendEntry(Notice(DecisionAnswered));
        case Stop =>
          var stopped := Stop();
      }
      refusal := None;
    }

    // ---------------------------------------------------------- connection

    /** Withhold or restore the connection, before reconciliation. */
    method SwitchConnection(on: bool)
      requires connectionRevision < U64_MAX && Counted(Snapshot())
      modifies this
      ensures Snapshot() == P.Switch(old(Snapshot()), on) && Counted(Snapshot())
    {
      hide Counted, P.Emit, P.RetargetDecision, Snapshot;
      SetLink(connectionRevision + 1, on, deliveryHeld || !on);
      RetargetKeepsDisplay(Snapshot());
      RefreshDecisionTarget();
      if pending.Some? {
        SetPending(Some(pending.value.(unknown := !on)));
      }
      KeepsCount(old(Snapshot()), Snapshot());
      AppendEntry(Notice(if on then Reconnected else ConnectionLost));
    }

    static lemma RetargetKeepsDisplay(s: P.State)
      ensures P.RetargetDecision(s).display == s.display
    {
    }

    /** The acknowledgement inside reconnection, where delivery is already withheld. */
    method ReconcilePending()
      requires connected && Counted(Snapshot())
      modifies this
      ensures Snapshot() == P.AcknowledgePending(old(Snapshot()))
    {
      hide Counted, P.Decide, P.Refresh, P.Deliver, P.Resolve, Snapshot;
      if pending.None? {
        return;
      }
      if pending.value.outcome.None? {
        ObserveTime(nowMs);
        KeepsCount(old(Snapshot()), Snapshot());
        Safety.DecideShape(Snapshot());
        Settle();
        Safety.RefreshFrame(Snapshot());
        RefreshMessages();
      }
      ResolvePending();
      DeliverBacklog();
    }

    method SetConnected(on: bool) returns (changed: bool)
      requires Valid()
      modifies this
      ensures Valid()
      ensures Snapshot() == P.SetConnected(old(Snapshot()), on) && changed == P.CanSetConnected(old(Snapshot()), on)
    {
      hide I.Inv, Counted, P.Switch, P.AcknowledgePending, P.Deliver, Snapshot;
      Safety.SetConnectedKeepsInv(Snapshot(), on);
      ReachableIsCounted(Snapshot());
      if connected == on || connectionRevision == U64_MAX {
        return false;
      }
      Safety.SwitchShape(Snapshot(), on);
      SwitchConnection(on);
      if on {
        ReconcilePending();
        DeliverBacklog();
      }
      changed := true;
    }

    method LoseAcknowledgement(now: u64) returns (lost: bool)
      requires Valid()
      modifies this
      ensures Valid()
      ensures Snapshot() == P.LoseAcknowledgement(old(Snapshot()), now) && lost == old(connected && pending.Some?)
    {
      hide I.Inv, P.Accept, P.SetConnected, Snapshot;
      if !connected || pending.None? {
        return false;
      }
      var accepted := AcceptPending(now);
      var changed := SetConnected(false);
      lost := true;
    }

    // ----------------------------------------------------- recovery, reset

    method RejectNext()
      requires Valid()
      modifies this`rejectArmed
      ensures Valid() && Snapshot() == P.Next(old(Snapshot()), P.DoRejectNext)
    {
      hide I.Inv;
      Safety.RejectNextKeepsInv(Snapshot());
      rejectArmed := !rejectArmed;
    }

    /** Take one recovered request and its receipt away. */
    method RemoveRecovered(at: nat)
      requires at < |recoverable|
      modifies this`recoverable, this`messages, this`ledger
      ensures Snapshot() == old(Snapshot()).(
                recoverable := old(recoverable)[..at] + old(recoverable)[at + 1..],
                messages := old(messages).(items := P.DropId(old(messages.items), old(recoverable)[at].request.id)),
                ledger := old(ledger).(discarded := old(ledger.discarded) + [old(recoverable)[at].request]))
    {
      hide P.DropId, Snapshot;
      var id := recoverable[at].request.id;
      Note(ledger.(discarded := ledger.discarded + [recoverable[at].request]));
      SetRecoverable(recoverable[..at] + recoverable[at + 1..]);
      SetMessages(messages.(items := P.DropId(messages.items, id)));
    }

    method DiscardRecovered(id: RequestId) returns (discarded: bool)
      requires Valid()
      modifies this
      ensures Valid()
      ensures Snapshot() == P.Discard(old(Snapshot()), id) && discarded == P.CanDiscard(old(Snapshot()), id)
    {
      hide I.Inv, P.DropId, P.Refresh, P.RetainedIds, Snapshot;
      Safety.DiscardKeepsInv(Snapshot(), id);
      if DeliveryBlocked() || (pending.Some? && pending.value.request.id == id) {
        return false;
      }
      var at := P.RetainedPosition(recoverable, id);
      if at == |recoverable| {
        return false;
      }
      RemoveRecovered(at);
      RefreshMessages();
      discarded := true;
    }

    method ClearDisplay(entries: seq<Entry>)
      modifies this`transcript, this`truncated, this`baseId, this`displayBacklog, this`backlogBytes, this`backlogTruncated
      ensures Display() == T.Display(entries, false, 0, [], 0, false)
    {
      transcript, truncated, baseId := entries, false, 0;
      displayBacklog, backlogBytes, backlogTruncated := [], 0, false;
    }

    method RestartDisplay(entries: seq<Entry>)
      modifies this`transcript, this`truncated, this`baseId, this`displayBacklog, this`backlogBytes, this`backlogTruncated
      ensures Snapshot() == old(Snapshot()).(display := T.Display(entries, false, 0, [], 0, false))
    {
      hide Display;
      ClearDisplay(entries);
    }

    method ClearRequests()
      modifies this
      ensures Snapshot() == old(Snapshot()).(pending := None, task := None, queued := [], recoverable := [],
                                             messages := MessageTray([], false), delivered := MessageTray([], false))
    {
      hide Snapshot;
      SetPending(None);
      SetTask(None);
      SetQueued([]);
      SetRecoverable([]);
      SetMessages(MessageTray([], false));
      SetDelivered(MessageTray([], false));
    }

    method BeginGeneration(next: Scope)
      modifies this
      ensures Snapshot() == old(Snapshot()).(scope := next, connected := true, nextRequest := 1, nextTask := 1, nextDecision := 1,
                                             connectionRevision := 1, nowMs := 0, deliveryHeld := false, rejectArmed := false,
                                             catalogue := P.FRESH_CATALOGUE)
    {
      hide Snapshot;
      SetScope(next);
      SetCounters(1, 1, 1);
      SetClock(0);
      SetFlags(false, false);
      SetLink(1, true, false);
      SetCatalogue(P.FRESH_CATALOGUE);
    }

    method Reset() returns (refusal: Option<SubmitError>)
      requires Valid()
      modifies this
      ensures Valid()
      ensures Snapshot() == P.Reset(old(Snapshot()))
      ensures refusal == if old(scope.generation) == U64_MAX then Some(IdentityExhausted) else None
    {
      hide I.Inv, P.Openings, P.Requests, P.Unplaced, Snapshot;
      Safety.ResetKeepsInv(Snapshot());
      if scope.generation == U64_MAX {
        return Some(IdentityExhausted);
      }
      Note(ledger.(current := None,
                   discarded := ledger.discarded + P.Unplaced(pending) + P.Requests(queued) + P.Requests(recoverable)));
      var openings := P.Openings(scope.project);
      NoteStream(T.Stream(openings, openings, [], 0));
      RestartDisplay(openings);
      ClearRequests();
      BeginGeneration(Scope(scope.generation + 1, scope.project, 1));
      refusal := None;
    }

    // ------------------------------------------------------------- sources

    method ChangeCommandSources(available: bool) returns (changed: bool)
      requires Valid()
      modifies this
      ensures Valid()
      ensures Snapshot() == P.ChangeSources(old(Snapshot()), available) && changed == P.CanChangeSources(old(Snapshot()))
    {
      hide I.Inv, P.HoldFrom, P.Refresh, Snapshot;
      Safety.ChangeSourcesKeepsInv(Snapshot(), available);
      var c := catalogue;
      if c.revision == U64_MAX || c.checks.revision == U64_MAX || c.core.revision == U64_MAX
         || c.other.revision == U64_MAX || c.skill.revision == U64_MAX {
        return false;
      }
      var state := if available then Available else Revoked;
      SetCatalogue(c.(revision := c.revision + 1,
                      checks := SourceState(c.checks.revision + 1, state),
                      core := SourceState(c.core.revision + 1, state),
                      other := SourceState(c.other.revision + 1, state),
                      skill := SourceState(c.skill.revision + 1, state)));
      if !available {
        HoldRevokedCommands(P.AnyCommand);
      }
      changed := true;
    }

    method ReplaceCommandSource(source: Source, available: bool) returns (changed: bool)
      requires Valid()
      modifies this
      ensures Valid()
      ensures Snapshot() == P.ReplaceSource(old(Snapshot()), source, available) && changed == P.CanReplaceSource(old(Snapshot()), source)
    {
      hide I.Inv, P.HoldFrom, P.Refresh, Snapshot;
      Safety.ReplaceSourceKeepsInv(Snapshot(), source, available);
      if catalogue.revision == U64_MAX || source == NoSource {
        return false;
      }
      var current := P.SourceOf(catalogue, source);
      if current.revision == U64_MAX {
        return false;
      }
      var next := SourceState(current.revision + 1, if available then Available else Revoked);
      SetCatalogue(P.WithSource(catalogue.(revision := catalogue.revision + 1), source, next));
      if !available {
        HoldRevokedCommands(P.CommandFrom(source));
      }
      changed := true;
    }

    method SetCatalogueComplete(complete: bool)
      requires Valid()
      modifies this`catalogue
      ensures Valid() && Snapshot() == P.Next(old(Snapshot()), P.DoSetCatalogueComplete(complete))
    {
      hide I.Inv, Snapshot;
      Safety.SetCatalogueCompleteKeepsInv(Snapshot(), complete);
      SetCatalogue(catalogue.(complete := complete));
    }

    // ---------------------------------------------------------------- time

    method Progress()
      requires task.Some?
      modifies this`task
      ensures Snapshot() == old(Snapshot()).(task := Some(P.Progressed(old(task).value, nowMs)))
    {
      hide Snapshot;
      var passed := SaturatingSub(nowMs, task.value.startedMs);
      var elapsed := if passed < P.TASK_MS then passed else P.TASK_MS;
      var percent := elapsed * 100 / P.TASK_MS;
      SetTask(Some(task.value.(progress := if percent < 99 then percent else 99,
                               nextProgressMs := SaturatingAdd(nowMs, P.ACCEPTANCE_MS))));
    }

    method Advance(now: u64) returns (changed: bool)
      requires Valid()
      modifies this
      ensures Valid() && Snapshot() == P.Advance(old(Snapshot()), now) && changed == P.AdvanceReports(old(Snapshot()), now)
    {
      hide I.Inv, P.Acknowledge, P.Complete, P.Progressed, Snapshot;
      Safety.AdvanceKeepsInv(Snapshot(), now);
      Safety.NowKeepsInv(Snapshot(), Later(nowMs, now));
      ObserveTime(now);
      changed := false;
      if connected && pending.Some? && nowMs >= pending.value.dueMs {
        changed := Acknowledge(pending.value.request.id);
      }
      if task.Some? && task.value.decision.None? && SaturatingSub(nowMs, task.value.startedMs) >= P.TASK_MS {
        var completed := Complete(nowMs);
        changed := changed || completed;
      } else if task.Some? && nowMs >= task.value.nextProgressMs {
        var before := task.value.progress;
        Progress();
        changed := changed || task.value.progress != before;
      }
    }

    // ---------------------------------------------------------------- runs

    /** One operation, whichever it is. */
    method Perform(step: P.Step)
      requires Valid()
      modifies this
      ensures Valid() && Snapshot() == P.Next(old(Snapshot()), step)
    {
      hide I.Inv, Snapshot, P.Submit, P.SubmitCommand, P.Accept, P.Acknowledge, P.LoseAcknowledgement, P.Advance, P.Complete, P.StopTask, P.FailTask,
        P.ToggleDecision, P.Respond, P.SetConnected, P.Discard, P.Reset, P.ChangeSources, P.ReplaceSource, P.SubmitRefusal, P.CommandRefusal,
        P.CanAccept, P.CanAcknowledge, P.CanDiscard, P.AdvanceReports;
      match step {
        case DoSubmit(target, action, draftRevision, text, now) =>
          var submitted := SubmitRequest(target, action, draftRevision, text, now, None);
        case DoSubmitCommand(capture, raw, now) =>
          var submitted := SubmitCommandRequest(capture, raw, now);
        case DoAccept(now) =>
          var accepted := AcceptPending(now);
        case DoAcknowledge(id) =>
          var acknowledged := Acknowledge(id);
        case DoLoseAcknowledgement(now) =>
          var lost := LoseAcknowledgement(now);
        case DoAdvance(now) =>
          var changed := Advance(now);
        case DoComplete(now) =>
          var completed := Complete(now);
        case DoDiscard(id) =>
          var discarded := DiscardRecovered(id);
        case _ =>
          Arrange(step);
      }
    }

    /** The operations that are about the work, the connection and the sources, not about a request. */
    method Arrange(step: P.Step)
      requires Valid()
      requires step.DoStop? || step.DoFail? || step.DoToggleDecision? || step.DoRespond? || step.DoSetConnected? || step.DoRejectNext?
               || step.DoReset? || step.DoChangeSources? || step.DoReplaceSource? || step.DoSetCatalogueComplete?
      modifies this
      ensures Valid() && Snapshot() == P.Next(old(Snapshot()), step)
    {
      hide I.Inv, Snapshot, P.Submit, P.SubmitCommand, P.Accept, P.Acknowledge, P.LoseAcknowledgement, P.Advance, P.Complete, P.StopTask, P.FailTask,
        P.ToggleDecision, P.Respond, P.SetConnected, P.Discard, P.Reset, P.ChangeSources, P.ReplaceSource, P.CanToggleDecision,
        P.RespondRefusal, P.CanSetConnected, P.CanChangeSources, P.CanReplaceSource;
      match step {
        case DoStop =>
          var stopped := Stop();
        case DoFail =>
          var failed := Fail();
        case DoToggleDecision =>
          var toggled := ToggleDecision();
        case DoRespond(target, decision, answer) =>
          var refused := RespondDecision(target, decision, answer);
        case DoSetConnected(on) =>
          var switched := SetConnected(on);
        case DoRejectNext =>
          RejectNext();
        case DoReset =>
          var refused := Reset();
        case DoChangeSources(available) =>
          var changed := ChangeCommandSources(available);
        case DoReplaceSource(source, available) =>
          var changed := ReplaceCommandSource(source, available);
        case DoSetCatalogueComplete(complete) =>
          SetCatalogueComplete(complete);
      }
    }

    /** Any run of operations: the object goes where the protocol goes, so what is proved of runs
        holds of it. */
    method Execute(steps: seq<P.Step>)
      requires Valid()
      modifies this
      ensures Valid() && Snapshot() == P.Run(old(Snapshot()), steps)
    {
      hide I.Inv, Snapshot, P.Next;
      for i := 0 to |steps|
        invariant Valid() && P.Run(Snapshot(), steps[i..]) == P.Run(old(Snapshot()), steps)
      {
        assert steps[i..][0] == steps[i] && steps[i..][1..] == steps[i + 1..];
        Perform(steps[i]);
      }
    }
  }
}
