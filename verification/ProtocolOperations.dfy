/** When each operation of the protocol does something, and what it then does, stated over the fields
    of the state. */
module ProtocolOperations {
  import opened ChatTypes
  import opened Wrappers
  import opened Transcript
  import opened Protocol
  import opened ProtocolInvariant
  import opened ProtocolSafety
  import Theorems = ProtocolTheorems
  import Steps = ProtocolSteps
  import M = Messages

  // ----------------------------------------------------------- submission

  /** A character that is not white space. */
  ghost predicate Written(text: string) {
    exists i :: 0 <= i < |text| && !WhiteSpace(text[i])
  }

  /** The captured target is where the work is now. */
  predicate Current(s: State, target: Target) {
    && target.scope == s.scope && target.connectionRevision == s.connectionRevision
    && target.task == (if s.task.Some? then Some(s.task.value.ref) else None)
  }

  /** Nothing is pending, the text is written and at most 64 KiB, the client is connected and aims at
      the current work with an action that fits it, fewer than eight texts are protected and an
      identity is left. */
  ghost predicate Admissible(s: State, target: Target, action: Action, text: string) {
    && s.pending.None? && Written(text) && TextBytes(text) <= 65_536 && s.connected && Current(s, target)
    && (action == NewTurn <==> s.task.None?) && |s.queued| + |s.recoverable| < 8 && s.nextRequest < U64_MAX
  }

  /** A request is admitted exactly when nothing is pending, its text is written and at most 64 KiB,
      the client is connected and aims at the current work with an action that fits it, fewer than
      eight texts are protected and an identity is left. Each refusal is given exactly when its own
      condition is the first that fails. */
  lemma SubmissionIsDecisive(s: State, target: Target, action: Action, text: string)
    ensures var refusal := SubmitRefusal(s, target, action, text);
            && (refusal.None? <==> Admissible(s, target, action, text))
            && (refusal == Some(AlreadyPending) <==> s.pending.Some?)
            && (refusal == Some(Empty) <==> s.pending.None? && !Written(text))
            && (refusal == Some(TooLarge) <==> s.pending.None? && Written(text) && TextBytes(text) > 65_536)
            && (refusal == Some(Disconnected) <==> s.pending.None? && Written(text) && TextBytes(text) <= 65_536 && !s.connected)
    ensures var refusal := SubmitRefusal(s, target, action, text);
            s.pending.None? && Written(text) && TextBytes(text) <= 65_536 && s.connected ==>
              && (refusal == Some(StaleTarget) <==> !Current(s, target))
              && (refusal == Some(RequiresChoice) <==> Current(s, target) && action == NewTurn && s.task.Some?)
              && (refusal == Some(NoActiveTask) <==> Current(s, target) && action != NewTurn && s.task.None?)
              && (refusal == Some(Capacity) <==>
                    Current(s, target) && (action == NewTurn <==> s.task.None?) && |s.queued| + |s.recoverable| >= 8)
              && (refusal == Some(IdentityExhausted) <==>
                    && Current(s, target) && (action == NewTurn <==> s.task.None?) && |s.queued| + |s.recoverable| < 8
                    && s.nextRequest == U64_MAX)
  {
    hide WhiteSpace, TextBytes;
    assert Written(text) <==> !Blank(text) by {
      if !Blank(text) {
        var c :| c in text && !WhiteSpace(c);
        var i :| 0 <= i < |text| && text[i] == c;
      }
    }
    assert target == CurrentTarget(s) <==> Current(s, target);
  }

  /** What an admitted request becomes: the one pending request, under the next identity, due for
      acknowledgement a quarter of a second later, and on record as issued; nothing else moves but the
      clock. A refused one changes nothing. */
  lemma SubmissionIsPending(s: State, target: Target, action: Action, draftRevision: u64, text: string, nowMs: u64, command: Option<CommandCapture>)
    ensures var t := Submit(s, target, action, draftRevision, text, nowMs, command);
            if SubmitRefusal(s, target, action, text).Some? then t == s else
              var request := Request(RequestId(s.scope, s.nextRequest), text, target, action, draftRevision, command);
              && t == s.(pending := t.pending, nextRequest := s.nextRequest + 1, nowMs := t.nowMs, messages := t.messages, delivered := t.delivered,
                         ledger := s.ledger.(issued := s.ledger.issued + [request]))
              && t.pending.Some? && t.pending.value.request == request && t.pending.value.outcome.None? && !t.pending.value.unknown
              && t.nowMs >= s.nowMs && t.nowMs >= nowMs && (t.nowMs == s.nowMs || t.nowMs == nowMs)
              && (t.nowMs <= U64_MAX - 250 ==> t.pending.value.dueMs == t.nowMs + 250)
              && (t.nowMs > U64_MAX - 250 ==> t.pending.value.dueMs == U64_MAX)
    ensures Inv(s) && SubmitRefusal(s, target, action, text).None? ==>
              var t := Submit(s, target, action, draftRevision, text, nowMs, command);
              var id := RequestId(s.scope, s.nextRequest);
              && id in M.ById(t.messages.items)
              && M.ById(t.messages.items)[id] == MessageView(id, target, action, text, AwaitingOutcome, None, None, false)
  {
    hide TextBytes, Blank, Validate, ProtectedCount, Inv, M.ById;
    if SubmitRefusal(s, target, action, text).None? {
      var id := RequestId(s.scope, s.nextRequest);
      var now := Later(s.nowMs, nowMs);
      var view := MessageView(id, target, action, text, AwaitingOutcome, None, None, false);
      var entered := s.(nextRequest := s.nextRequest + 1, nowMs := now, messages := s.messages.(items := s.messages.items + [view]),
                        pending := Some(Pending(Request(id, text, target, action, draftRevision, command), false,
                                                SaturatingAdd(now, ACCEPTANCE_MS), None)),
                        ledger := s.ledger.(issued := s.ledger.issued + [Request(id, text, target, action, draftRevision, command)]));
      RefreshFrame(entered);
      if Inv(s) {
        NextIsFresh(s);
        M.PushLookups(s.messages.items, view);
        M.PruneLookups(s.messages.items + [view], Some(id));
      }
    }
  }

  lemma NextIsFresh(s: State)
    requires Inv(s)
    ensures M.Distinct(s.messages.items) && RequestId(s.scope, s.nextRequest) !in M.Ids(s.messages.items)
  {
    hide M.Distinct, Roles, Shown, Shows, Ordered, Ledgered, TargetsOk, Protected, Waiting, Synced;
    SoundOf(s);
    assert M.ById(s.messages.items).Keys == M.Ids(s.messages.items);
  }

  // ------------------------------------------------------------- commands

  /** What the catalogue says of the source a command comes from. */
  function Contribution(c: Catalogue, source: Source): Option<SourceState> {
    match source
    case Core => Some(c.core)
    case Checks => Some(c.checks)
    case Other => Some(c.other)
    case Skill => Some(c.skill)
    case NoSource => None
  }

  /** The capture is of a complete catalogue at its revision, and of a source that is available at the
      captured revisions. */
  predicate Backed(c: Catalogue, capture: CommandCapture) {
    && c.complete && c.revision == capture.catalogueRevision && capture.definition == capture.source
    && var source := Contribution(c, capture.source);
       source.Some? && source.value == SourceState(capture.sourceRevision, Available) && capture.definitionRevision == capture.sourceRevision
  }

  /** A capture holds exactly when it is backed and its source supports the action; only a skill does
      not support steering. */
  lemma CommandValidity(c: Catalogue, capture: CommandCapture)
    ensures ValidateCommand(c, capture) ==
              if !Backed(c, capture) then Some(StaleCommand)
              else if capture.source == Skill && capture.action == Steer then Some(UnsupportedCommandMode)
              else None
  {
  }

  /** The text is the command's name, alone or followed by a space or a line break and the arguments. */
  ghost predicate Spelled(name: string, raw: string, arguments: string) {
    || (raw == name && arguments == "")
    || raw == name + " " + arguments || raw == name + "\n" + arguments
  }

  lemma HeadAndTail(text: string)
    requires |text| > 0
    ensures text == [text[0]] + text[1..]
  {
  }

  lemma SpellingIsExact(name: string, raw: string, arguments: string)
    ensures ArgumentsMatch(name, raw, arguments) <==> Spelled(name, raw, arguments)
  {
    if ArgumentsMatch(name, raw, arguments) {
      var body := raw[|name|..];
      assert raw == name + body;
      if |body| > 0 {
        HeadAndTail(body);
        assert raw == name + [body[0]] + arguments;
      }
    }
    if Spelled(name, raw, arguments) && raw != name {
      var separator := if raw == name + " " + arguments then " " else "\n";
      assert raw == name + (separator + arguments);
      assert raw[|name|..] == separator + arguments;
    }
  }

  /** A command is admitted exactly when its text is at most 64 KiB and spells the captured command and
      arguments, the capture is backed, its mode is supported, and the request itself is admitted. Each
      refusal of its own is given exactly when it is the first that applies. */
  lemma CommandSubmissionIsDecisive(s: State, capture: CommandCapture, raw: string)
    ensures var refusal := CommandRefusal(s, capture, raw);
            var supported := capture.source != Skill || capture.action != Steer;
            && (refusal.None? <==>
                  && TextBytes(raw) <= 65_536 && Backed(s.catalogue, capture) && supported
                  && Spelled(CommandName(capture.source), raw, capture.arguments)
                  && SubmitRefusal(s, capture.target, capture.action, raw).None?)
            && (refusal == Some(StaleCommand) <==> TextBytes(raw) <= 65_536 && !Backed(s.catalogue, capture))
            && (refusal == Some(UnsupportedCommandMode) <==> TextBytes(raw) <= 65_536 && Backed(s.catalogue, capture) && !supported)
            && (refusal == Some(InvalidCommandArguments) <==>
                  && TextBytes(raw) <= 65_536 && Backed(s.catalogue, capture) && supported
                  && !Spelled(CommandName(capture.source), raw, capture.arguments))
            && (refusal == Some(TooLarge) <==> TextBytes(raw) > 65_536)
            && (TextBytes(raw) <= 65_536 && Backed(s.catalogue, capture) && supported
                && Spelled(CommandName(capture.source), raw, capture.arguments) ==>
                  refusal == SubmitRefusal(s, capture.target, capture.action, raw))
  {
    hide Backed, Spelled, ArgumentsMatch, ValidateCommand, CommandName, TextBytes, SubmitRefusal;
    CommandValidity(s.catalogue, capture);
    SpellingIsExact(CommandName(capture.source), raw, capture.arguments);
    SubmissionErrors(s, capture.target, capture.action, raw);
    SubmissionIsDecisive(s, capture.target, capture.action, raw);
  }

  /** A submission is never refused for a reason of commands. */
  lemma SubmissionErrors(s: State, target: Target, action: Action, text: string)
    ensures SubmitRefusal(s, target, action, text) !in
              {Some(StaleCommand), Some(UnsupportedCommandMode), Some(InvalidCommandArguments), Some(StaleDecision)}
  {
    hide Blank, TextBytes;
  }

  /** The four commands there are, and an admitted one becomes the pending request with its capture. */
  lemma CommandIsPending(s: State, capture: CommandCapture, raw: string, nowMs: u64)
    ensures [CommandName(Core), CommandName(Checks), CommandName(Other), CommandName(Skill)]
            == ["/ext:core/check", "/ext:checks/test", "/ext:other/review", "/skill:project/review"]
    ensures var t := SubmitCommand(s, capture, raw, nowMs);
            if CommandRefusal(s, capture, raw).Some? then t == s
            else t.pending.Some?
                 && t.pending.value.request
                    == Request(RequestId(s.scope, s.nextRequest), raw, capture.target, capture.action, capture.draftRevision, Some(capture))
  {
    hide SubmitRefusal, ValidateCommand, ArgumentsMatch, TextBytes, Submit;
    SubmissionIsPending(s, capture.target, capture.action, capture.draftRevision, raw, nowMs, Some(capture));
  }

  // ------------------------------------------------------ acknowledgement

  lemma AcceptFrame(s: State, nowMs: u64)
    ensures var a := Accept(s, nowMs);
            && a.scope == s.scope && a.connected == s.connected && a.connectionRevision == s.connectionRevision
            && a.nowMs == Later(s.nowMs, nowMs) && (a.pending.Some? <==> s.pending.Some?)
            && (s.connected && s.pending.Some? ==> a.pending.value.outcome.Some?)
  {
    hide Refresh, Reject, Effect, ValidateCommand;
    var timed := s.(nowMs := Later(s.nowMs, nowMs));
    if CanAccept(timed) {
      var held, r := timed.(deliveryHeld := true), s.pending.value.request;
      RefreshFrame(Decide(timed));
      EffectFrame(held, r);
      if OwnerRefusal(held, r).Some? {
        RejectFrame(held, Refused(OwnerRefusal(held, r).value));
      } else if s.rejectArmed {
        RejectFrame(held.(rejectArmed := false), FixtureRejected);
      } else if EffectRefusal(held, r).Some? {
        RejectFrame(held, Refused(EffectRefusal(held, r).value));
      }
    }
  }

  /** The outcome a pending request has or is given now. */
  function OutcomeNow(s: State): Outcome
    requires s.pending.Some?
  {
    var p := s.pending.value;
    var rejection := Theorems.RejectionOf(s, p.request);
    if p.outcome.Some? then p.outcome.value else if rejection.Some? then Rejected(rejection.value) else Accepted
  }

  /** An acknowledgement is of the pending request only, and only while connected. It decides a request
      that is not yet decided, ends the withholding of delivery, and gives rejected text back for
      recovery with its reason; what acceptance did to work, queue and record stays. */
  lemma AcknowledgementIsExact(s: State, id: RequestId)
    ensures !(s.connected && s.pending.Some? && s.pending.value.request.id == id) ==> Acknowledge(s, id) == s
    ensures s.connected && s.pending.Some? && s.pending.value.request.id == id ==>
              var t, a := Acknowledge(s, id), Accept(s, s.nowMs);
              && t.pending.None? && t.connected && !t.deliveryHeld && t.delivered == t.messages && t.display == Flush(a.display)
              && t.queued == a.queued && t.task == a.task && t.ledger == a.ledger && t.scope == s.scope
              && t.recoverable == s.recoverable + match OutcomeNow(s)
                 case Accepted => []
                 case Rejected(reason) => [Retained(s.pending.value.request, reason)]
  {
    hide Refresh, Decide, Deliver, Append, NoteAppend, ValidateCommand, Flush;
    if s.connected && s.pending.Some? && s.pending.value.request.id == id {
      var a := Accept(s, s.nowMs);
      if s.pending.value.outcome.None? {
        Theorems.AcceptanceIsDecisive(s, s.nowMs);
        AcceptFrame(s, s.nowMs);
      } else {
        AcceptRepeated(s);
      }
      DeliverFrame(Resolve(a));
    }
  }

  // -------------------------------------------------------- ended receipts

  /** No receipt after this one can be pruned. */
  ghost predicate Newest(items: seq<MessageView>, pending: Option<RequestId>, v: MessageView) {
    exists k :: 0 <= k < |items| && items[k] == v && forall j :: k < j < |items| ==> !M.Prunable(items[j], pending)
  }

  /** Pruning drops the earliest settled receipts, never the newest. */
  lemma {:induction false} NewestStays(items: seq<MessageView>, pending: Option<RequestId>, v: MessageView)
    requires Newest(items, pending, v)
    ensures v in M.Prune(items, pending)
    decreases |items|
  {
    hide M.Prunable;
    M.PruneStep(items, pending);
    if M.PrunableCount(items, pending) > M.SETTLED_LIMIT {
      var at := M.FirstPrunable(items, pending);
      var k :| 0 <= k < |items| && items[k] == v && forall j :: k < j < |items| ==> !M.Prunable(items[j], pending);
      var rest := M.Without(items, at);
      OneAtMost(items, pending, k);
      assert at < k;
      assert forall j :: 0 <= j < |rest| ==> rest[j] == items[if j < at then j else j + 1];
      assert rest[k - 1] == v;
      NewestStays(rest, pending, v);
    }
  }

  /** When nothing after a position can be pruned and what comes first there is the position itself, at
      most one receipt can. */
  lemma {:induction false} OneAtMost(items: seq<MessageView>, pending: Option<RequestId>, k: nat)
    requires k < |items| && forall j :: k < j < |items| ==> !M.Prunable(items[j], pending)
    ensures (forall j :: 0 <= j < k ==> !M.Prunable(items[j], pending)) ==> M.PrunableCount(items, pending) <= 1
  {
    hide M.Prunable;
    if k > 0 {
      OneAtMost(items[1..], pending, k - 1);
    } else {
      NoneAtAll(items[1..], pending);
    }
  }

  lemma {:induction false} NoneAtAll(items: seq<MessageView>, pending: Option<RequestId>)
    ensures (forall j :: 0 <= j < |items| ==> !M.Prunable(items[j], pending)) ==> M.PrunableCount(items, pending) == 0
  {
    hide M.Prunable;
    if items != [] {
      NoneAtAll(items[1..], pending);
    }
  }

  lemma MoveShape(items: seq<MessageView>, at: nat, moved: MessageView)
    requires at < |items|
    ensures var next := M.Without(items, at) + [moved];
            && |next| == |items| && next[|items| - 1] == moved
            && forall j :: 0 <= j < |items| - 1 ==> next[j] == items[if j < at then j else j + 1]
  {
  }

  /** Moving another receipt to the end, unsettled, keeps this one the newest. */
  lemma NewestThrough(items: seq<MessageView>, pending: Option<RequestId>, v: MessageView, id: RequestId, state: MessageState,
                      execution: Option<TaskRef>, reason: Option<Reason>)
    requires Newest(items, pending, v) && id != v.id && !Settled(state)
    ensures Newest(M.ChangeMessage(items, id, state, execution, reason), pending, v)
  {
    hide M.Position, M.Without;
    var k :| 0 <= k < |items| && items[k] == v && forall j :: k < j < |items| ==> !M.Prunable(items[j], pending);
    var at := M.Position(items, id);
    if at < |items| {
      var moved := M.Changed(items[at], state, execution, reason);
      assert !M.Prunable(moved, pending);
      hide M.Prunable, M.Changed;
      MoveShape(items, at, moved);
      var next, i := M.Without(items, at) + [moved], if k < at then k else k - 1;
      assert next[i] == v;
      assert forall j :: i < j < |next| ==> !M.Prunable(next[j], pending);
    }
  }

  lemma {:induction false} HoldKeepsNewest(s: State, reason: Reason, v: MessageView)
    requires Newest(s.messages.items, PendingId(s), v) && v.id !in RetainedIds(s.queued)
    ensures var t := HoldFrom(s, 0, Everything, reason); Newest(t.messages.items, PendingId(s), v)
    decreases |s.queued|
  {
    hide M.ChangeMessage, Newest;
    if s.queued != [] {
      var u := HoldAt(s, 0, reason);
      assert u.queued == s.queued[1..];
      NewestThrough(s.messages.items, PendingId(s), v, s.queued[0].request.id, Held, None, Some(reason));
      HoldKeepsNewest(u, reason, v);
    }
  }

  /** The receipt of the turn that executes, as it is when the turn ended. */
  ghost predicate Marked(s: State, t: State, state: MessageState, reason: Option<Reason>) {
    && s.ledger.current.Some? && s.ledger.current.value in M.ById(s.messages.items)
    && var v := M.ById(s.messages.items)[s.ledger.current.value];
       v.(state := state, reason := reason) in t.messages.items
  }

  /** The end of a turn is on its receipt: completed without a reason, stopped or failed with the reason
      that work stopped or failed, and the execution that it names is kept. Only stopping needs the
      connection. */
  lemma EndedTurnIsMarked(s: State, nowMs: u64)
    requires Inv(s) && s.task.Some?
    ensures Marked(s, Complete(s, nowMs), Completed, None)
    ensures s.connected ==> Marked(s, StopTask(s), Stopped, Some(WorkStopped))
    ensures !s.connected ==> StopTask(s) == s
    ensures Marked(s, FailTask(s), Failed, Some(WorkFailed))
  {
    hide Inv, Marked, Complete, EndUnsuccessfully, Sound;
    CompletedIsMarked(s, nowMs);
    UnsuccessfulIsMarked(s, Stopped, WorkStopped);
    UnsuccessfulIsMarked(s, Failed, WorkFailed);
  }

  lemma RunningIsNotWaiting(s: State)
    requires Projection(s) && s.ledger.current.Some?
    ensures s.ledger.current.value !in RetainedIds(s.queued)
    ensures s.ledger.current.value in M.ById(s.messages.items) && M.ById(s.messages.items)[s.ledger.current.value].id == s.ledger.current.value
  {
    hide Shown, Shows, M.Distinct, M.ById, RetainedIds;
  }

  /** The receipt of the ended turn is the newest, and is none of those waiting. */
  lemma FinishedIsNewest(s: State, state: MessageState, reason: Option<Reason>) returns (v: MessageView)
    requires Inv(s) && s.task.Some?
    ensures s.ledger.current.Some? && s.ledger.current.value in M.ById(s.messages.items)
    ensures v == M.ById(s.messages.items)[s.ledger.current.value].(state := state, reason := reason)
    ensures v.id !in RetainedIds(s.queued) && Newest(FinishTurn(s, state, reason).messages.items, PendingId(s), v)
  {
    hide Inv, Agrees, Roles, M.Distinct, M.ById, RunningPosition, M.Prunable, M.ChangeMessage, M.Without, Ordered, Ledgered, TargetsOk, Protected,
      Waiting, DeliveredOk, Sourced, DisplayOk;
    SoundOf(s);
    Steps.RunningIsCurrent(s);
    RunningIsNotWaiting(s);
    var items, id := s.messages.items, s.ledger.current.value;
    var at := RunningPosition(items, s.task.value.ref.id);
    v := M.ById(items)[id].(state := state, reason := reason);
    M.AtPosition(items, at);
    M.ChangeShape(items, id, state, items[at].execution, reason);
    var next := M.ChangeMessage(items, id, state, items[at].execution, reason);
    assert next[|items| - 1] == v;
  }

  lemma CompletedIsMarked(s: State, nowMs: u64)
    requires Inv(s) && s.task.Some?
    ensures Marked(s, Complete(s, nowMs), Completed, None)
  {
    hide Inv, M.ChangeMessage, FinishedItems, Append, NoteAppend, Newest, M.Prune, M.ById, HoldFrom;
    var timed := s.(nowMs := Later(s.nowMs, nowMs));
    NowKeepsInv(s, timed.nowMs);
    var v := FinishedIsNewest(timed, Completed, None);
    var ended := Emit(FinishTurn(timed, Completed, None), Notice(TaskCompleted));
    if ended.queued == [] {
      NewestStays(ended.messages.items, PendingId(s), v);
    } else if ended.nextTask < U64_MAX {
      NewestThrough(ended.messages.items, PendingId(s), v, ended.queued[0].request.id, Running, Some(StartedTask(ended).ref), None);
      NewestStays(StartNext(ended).messages.items, PendingId(s), v);
    } else {
      var held := HoldFrom(ended, 0, Everything, Refused(IdentityExhausted));
      HoldKeepsNewest(ended, Refused(IdentityExhausted), v);
      Theorems.HoldEverythingInOrder(ended, Refused(IdentityExhausted));
      NewestStays(held.messages.items, PendingId(s), v);
    }
  }

  lemma UnsuccessfulIsMarked(s: State, state: MessageState, reason: Reason)
    requires Inv(s) && s.task.Some?
    ensures Marked(s, EndUnsuccessfully(s, state, reason), state, Some(reason))
  {
    hide Inv, M.ChangeMessage, FinishedItems, Append, NoteAppend, Newest, M.Prune, M.ById, HoldFrom;
    var v := FinishedIsNewest(s, state, Some(reason));
    var finished := FinishTurn(s, state, Some(reason));
    HoldKeepsNewest(finished, reason, v);
    Theorems.HoldEverythingInOrder(finished, reason);
    NewestStays(HoldFrom(finished, 0, Everything, reason).messages.items, PendingId(s), v);
  }

  // ------------------------------------------------------------ decisions

  /** A decision is raised or expired exactly while connected with work under way and identities left.
      Either way the work moves on by one revision, and a raised decision is aimed at where it then is. */
  lemma TogglingIsExact(s: State)
    ensures var t := ToggleDecision(s);
            if s.connected && s.task.Some? && s.task.value.ref.revision < U64_MAX
               && (s.task.value.decision.Some? || s.nextDecision < U64_MAX) then
              var raised := s.task.value.decision.None?;
              && t == s.(task := t.task, nextDecision := t.nextDecision, display := t.display, stream := t.stream)
              && t.task == Some(s.task.value.(ref := TaskRef(s.task.value.ref.id, s.task.value.ref.revision + 1), decision := t.task.value.decision))
              && t.task.value.decision == (if raised then Some(Decision(s.nextDecision, CurrentTarget(t))) else None)
              && t.nextDecision == s.nextDecision + (if raised then 1 else 0)
            else t == s
  {
    hide Append, NoteAppend;
  }

  /** A decision is answered exactly when it is the open one, with the target it was raised for still
      current; to continue also takes a revision. Continuing closes it and moves the work on by one
      revision; stopping stops the work; a refused answer changes nothing. */
  lemma RespondingIsExact(s: State, target: Target, id: u64, answer: DecisionAction)
    ensures var t, refusal := Respond(s, target, id, answer), RespondRefusal(s, target, id, answer);
            var open := s.connected && Current(s, target) && s.task.Some? && s.task.value.decision == Some(Decision(id, target));
            && (refusal == Some(StaleDecision) <==> !open)
            && (refusal == Some(IdentityExhausted) <==> open && answer == Continue && s.task.value.ref.revision == U64_MAX)
            && (refusal.None? <==> open && (answer == Continue ==> s.task.value.ref.revision < U64_MAX))
            && (refusal.Some? ==> t == s)
            && (refusal.None? && answer == Continue ==>
                  && t == s.(task := t.task, display := t.display, stream := t.stream)
                  && t.task == Some(s.task.value.(ref := TaskRef(s.task.value.ref.id, s.task.value.ref.revision + 1), decision := None)))
            && (refusal.None? && answer == DecisionAction.Stop ==> t == StopTask(s) && t.task.None?)
  {
    hide Append, NoteAppend, EndUnsuccessfully;
    if s.task.Some? {
      Theorems.EndingHoldsTheQueue(s, Stopped, WorkStopped);
    }
  }

  // ----------------------------------------------------------- connection

  /** The connection changes exactly when it is asked to and a revision is left. Losing it withholds
      delivery and leaves a pending request's outcome unknown; work, queue and recovery stay. Losing an
      acknowledgement also decides the request first. */
  lemma LossIsExact(s: State, nowMs: u64)
    ensures var t := SetConnected(s, false);
            if s.connected && s.connectionRevision < U64_MAX then
              && !t.connected && t.deliveryHeld && t.connectionRevision == s.connectionRevision + 1
              && t.pending == (if s.pending.Some? then Some(s.pending.value.(unknown := true)) else None)
              && t.queued == s.queued && t.recoverable == s.recoverable && t.ledger == s.ledger && t.scope == s.scope
              && t.messages == s.messages && t.delivered == s.delivered && t.catalogue == s.catalogue
              && (t.task.Some? <==> s.task.Some?) && (t.task.Some? ==> t.task.value.ref == s.task.value.ref)
            else t == s
    ensures SetConnected(s, true) == s <==> s.connected || s.connectionRevision == U64_MAX
    ensures LoseAcknowledgement(s, nowMs)
            == if s.connected && s.pending.Some? then SetConnected(Accept(s, nowMs), false) else s
    ensures s.connected && s.pending.Some? ==>
              var a := Accept(s, nowMs); a.connected && a.pending.Some? && a.pending.value.outcome.Some? && a.connectionRevision == s.connectionRevision
  {
    hide Append, NoteAppend, Refresh, Decide, Acknowledge, Deliver;
    AcceptFrame(s, nowMs);
    if !s.connected && s.connectionRevision < U64_MAX {
      ReconnectMoves(s);
    }
  }

  lemma ReconnectMoves(s: State)
    requires !s.connected && s.connectionRevision < U64_MAX
    ensures SetConnected(s, true).connected
  {
    hide Append, NoteAppend, Acknowledge, Deliver;
    var switched := Switch(s, true);
    assert switched.connected;
    if switched.pending.Some? {
      AcknowledgementIsExact(switched, switched.pending.value.request.id);
    }
    DeliverFrame(AcknowledgePending(switched));
  }

  // ------------------------------------------------------ recovery, reset

  /** Recovered text is discarded exactly when it is held, is not the pending request and delivery is not
      withheld; otherwise nothing changes. */
  lemma DiscardingIsExact(s: State, id: RequestId)
    ensures CanDiscard(s, id) <==>
              && s.connected && !s.deliveryHeld && !(s.pending.Some? && s.pending.value.request.id == id)
              && exists i :: 0 <= i < |s.recoverable| && s.recoverable[i].request.id == id
    ensures !CanDiscard(s, id) ==> Discard(s, id) == s
  {
    if id in RetainedIds(s.recoverable) {
      assert s.recoverable[RetainedPosition(s.recoverable, id)].request.id == id;
    }
  }

  /** A reset begins the next generation of the same project with nothing pending, under way, queued,
      recoverable or listed, and every counter at one; at the last generation it changes nothing. */
  lemma ResettingIsExact(s: State)
    ensures var t := Reset(s);
            if s.scope.generation == U64_MAX then t == s else
              && t.scope == Scope(s.scope.generation + 1, s.scope.project, 1)
              && t.pending.None? && t.task.None? && t.queued == [] && t.recoverable == [] && t.messages.items == [] && t.delivered.items == []
              && t.connected && !t.deliveryHeld && !t.rejectArmed && t.nowMs == 0
              && t.nextRequest == t.nextTask == t.nextDecision == t.connectionRevision == 1
              && t.catalogue.complete && t.catalogue.revision == 1
              && (forall source :: source != NoSource ==> SourceOf(t.catalogue, source) == SourceState(1, Available))
              && t.ledger.issued == s.ledger.issued && t.ledger.applied == s.ledger.applied && t.ledger.consumed == s.ledger.consumed
              && t.ledger.current.None?
  {
  }

  // -------------------------------------------------------------- sources

  /** A source change happens exactly when every revision it raises has a next one. */
  lemma SourceGuards(s: State, source: Source)
    ensures CanChangeSources(s) <==> s.catalogue.revision < U64_MAX && forall x :: x != NoSource ==> SourceOf(s.catalogue, x).revision < U64_MAX
    ensures CanReplaceSource(s, source) <==>
              && s.catalogue.revision < U64_MAX
              && Contribution(s.catalogue, source).Some? && Contribution(s.catalogue, source).value.revision < U64_MAX
    ensures forall state: SourceState, available: bool :: state.revision < U64_MAX ==>
              Moved(state, available) == SourceState(state.revision + 1, if available then Available else Revoked)
  {
    var c := s.catalogue;
    if forall x :: x != NoSource ==> SourceOf(c, x).revision < U64_MAX {
      assert SourceOf(c, Core) == c.core && SourceOf(c, Checks) == c.checks && SourceOf(c, Other) == c.other && SourceOf(c, Skill) == c.skill;
    }
  }

  // ---------------------------------------------------------------- clock

  /** When no acknowledgement is due, advancing the clock completes work that has run for twelve seconds
      without an open decision, and otherwise reports its progress when a report is due: the percentage
      of twelve seconds that has passed, never a hundred, with the next report a quarter of a second on. */
  lemma ClockIsExact(s: State, nowMs: u64)
    requires !AcknowledgementDue(s.(nowMs := Later(s.nowMs, nowMs)))
    ensures var timed := s.(nowMs := Later(s.nowMs, nowMs)); var now := timed.nowMs; var t := Advance(s, nowMs);
            if s.task.Some? && s.task.value.decision.None? && now >= s.task.value.startedMs + 12_000 then t == Complete(timed, now)
            else if s.task.Some? && now >= s.task.value.nextProgressMs then
              var elapsed := if now <= s.task.value.startedMs then 0 else if now < s.task.value.startedMs + 12_000 then now - s.task.value.startedMs else 12_000;
              && t == timed.(task := t.task) && t.task.Some?
              && t.task.value == s.task.value.(progress := t.task.value.progress, nextProgressMs := t.task.value.nextProgressMs)
              && t.task.value.progress <= 99 && t.task.value.progress * 12_000 <= elapsed * 100
              && (t.task.value.progress < 99 ==> elapsed * 100 < (t.task.value.progress + 1) * 12_000)
              && (now <= U64_MAX - 250 ==> t.task.value.nextProgressMs == now + 250)
            else t == timed
  {
    hide Complete;
  }

  /** A due acknowledgement is delivered first, and then the clock does what it does without one. */
  lemma DueAcknowledgementIsFirst(s: State, nowMs: u64)
    requires var timed := s.(nowMs := Later(s.nowMs, nowMs)); AcknowledgementDue(timed)
    ensures var timed := s.(nowMs := Later(s.nowMs, nowMs));
            var acked := Acknowledge(timed, s.pending.value.request.id);
            acked.pending.None? && acked.nowMs == timed.nowMs && Advance(s, nowMs) == Advance(acked, timed.nowMs)
  {
    hide Acknowledge, Complete;
    var timed := s.(nowMs := Later(s.nowMs, nowMs));
    AcknowledgementIsExact(timed, s.pending.value.request.id);
    AcknowledgementKeepsTime(timed, s.pending.value.request.id);
  }

  lemma AcknowledgementKeepsTime(s: State, id: RequestId)
    requires s.connected && s.pending.Some? && s.pending.value.request.id == id
    ensures Acknowledge(s, id).nowMs == s.nowMs
  {
    hide Refresh, Reject, Effect, ValidateCommand, Flush, NoteFlush;
    AcceptFrame(s, s.nowMs);
    var resolved := Resolve(Accept(s, s.nowMs));
    RefreshFrame(resolved.(deliveryHeld := false, display := Flush(resolved.display), stream := NoteFlush(resolved.stream, resolved.display)));
  }

  // -------------------------------------------------------- what is written

  /** The entries a decision on a pending request writes. */
  function Narrated(s: State, r: Request): seq<Entry> {
    var rejection := Theorems.RejectionOf(s, r);
    if rejection.Some? then [Notice(RejectedLine(rejection.value))]
    else match r.action
      case NewTurn => [Entry(User(NewTurn), Verbatim(r.text)), Notice(TaskStarted)]
      case Steer => [Entry(User(Steer), SteerLine(r.text)), Notice(SteerNoted)]
      case Queue => [Entry(User(Queue), QueueLine(r.text)), Notice(QueueNoted)]
  }

  /** Acceptance writes the request as the client worded it and what became of it, or why it was
      rejected. */
  lemma AcceptanceIsNarrated(s: State, nowMs: u64)
    requires CanAccept(s)
    ensures Accept(s, nowMs).stream.emitted == s.stream.emitted + Narrated(s, s.pending.value.request)
  {
    hide Refresh, ValidateCommand, Effect, Reject;
    var timed := s.(nowMs := Later(s.nowMs, nowMs));
    var held, r := timed.(deliveryHeld := true), s.pending.value.request;
    RefreshFrame(Decide(timed));
    EffectIsNarrated(held, r);
    if OwnerRefusal(held, r).Some? {
      RejectionIsNarrated(held, Refused(OwnerRefusal(held, r).value));
    } else if s.rejectArmed {
      RejectionIsNarrated(held.(rejectArmed := false), FixtureRejected);
    } else if EffectRefusal(held, r).Some? {
      RejectionIsNarrated(held, Refused(EffectRefusal(held, r).value));
    }
  }

  lemma RejectionIsNarrated(s: State, reason: Reason)
    requires s.pending.Some?
    ensures Reject(s, reason).stream.emitted == s.stream.emitted + [Notice(RejectedLine(reason))]
  {
    hide M.ChangeMessage, Append;
  }

  lemma EffectIsNarrated(s: State, r: Request)
    ensures EffectRefusal(s, r).None? ==>
              Effect(s, r).stream.emitted == s.stream.emitted + match r.action
                case NewTurn => [Entry(User(NewTurn), Verbatim(r.text)), Notice(TaskStarted)]
                case Steer => [Entry(User(Steer), SteerLine(r.text)), Notice(SteerNoted)]
                case Queue => [Entry(User(Queue), QueueLine(r.text)), Notice(QueueNoted)]
  {
    hide M.ChangeMessage, Append, ValidateCommand;
    match r.action
    case NewTurn =>
    case Steer =>
    case Queue =>
  }

  lemma {:induction false} HoldingIsSilent(s: State, reason: Reason)
    ensures HoldFrom(s, 0, Everything, reason).stream == s.stream
    decreases |s.queued|
  {
    hide M.ChangeMessage;
    if s.queued != [] {
      var u := HoldAt(s, 0, reason);
      assert u.queued == s.queued[1..];
      HoldingIsSilent(u, reason);
    }
  }

  lemma EmitIsNarrated(s: State, e: Entry)
    ensures Emit(s, e).stream.emitted == s.stream.emitted + [e]
    ensures Emit(s, e) == s.(display := Emit(s, e).display, stream := Emit(s, e).stream)
  {
    hide Append;
  }

  lemma FollowUpIsNarrated(s: State)
    requires s.queued != [] && s.nextTask < U64_MAX
    ensures StartNext(s).stream.emitted == s.stream.emitted + [Notice(FollowUp(s.queued[0].request.text))]
  {
    hide M.ChangeMessage, Append;
  }

  /** Completion writes that the task completed and, when a follow-up starts, its text. */
  lemma CompletionIsNarrated(s: State, nowMs: u64)
    requires s.task.Some?
    ensures Complete(s, nowMs).stream.emitted
            == s.stream.emitted + [Notice(TaskCompleted)]
               + (if s.queued != [] && s.nextTask < U64_MAX then [Notice(FollowUp(s.queued[0].request.text))] else [])
  {
    hide Refresh, FinishedItems, HoldFrom, Emit, StartNext;
    var timed := s.(nowMs := Later(s.nowMs, nowMs));
    var finished := FinishTurn(timed, Completed, None);
    var ended := Emit(finished, Notice(TaskCompleted));
    EmitIsNarrated(finished, Notice(TaskCompleted));
    if ended.queued == [] {
      RefreshFrame(ended);
    } else if ended.nextTask < U64_MAX {
      FollowUpIsNarrated(ended);
      RefreshFrame(StartNext(ended));
    } else {
      HoldingIsSilent(ended, Refused(IdentityExhausted));
      RefreshFrame(HoldFrom(ended, 0, Everything, Refused(IdentityExhausted)));
    }
  }

  /** An end without success writes its reason, once, however many follow-ups it holds. */
  lemma EndingIsNarrated(s: State, state: MessageState, reason: Reason)
    requires s.task.Some?
    ensures EndUnsuccessfully(s, state, reason).stream.emitted == s.stream.emitted + [Notice(EndedLine(reason))]
  {
    hide Refresh, FinishedItems, HoldFrom, Emit;
    var finished := FinishTurn(s, state, Some(reason));
    var held := HoldFrom(finished, 0, Everything, reason);
    HoldingIsSilent(finished, reason);
    EmitIsNarrated(held, Notice(EndedLine(reason)));
    RefreshFrame(Emit(held, Notice(EndedLine(reason))));
  }

  /** Raising, expiring and answering a decision and losing the connection write one entry each. */
  lemma DecisionsAreNarrated(s: State, target: Target, id: u64)
    ensures ToggleDecision(s) != s ==>
              ToggleDecision(s).stream.emitted
              == s.stream.emitted + [Notice(if s.task.Some? && s.task.value.decision.Some? then DecisionExpired else DecisionRaised)]
    ensures RespondRefusal(s, target, id, Continue).None? ==>
              Respond(s, target, id, Continue).stream.emitted == s.stream.emitted + [Notice(DecisionAnswered)]
    ensures s.connected && s.connectionRevision < U64_MAX ==>
              SetConnected(s, false).stream.emitted == s.stream.emitted + [Notice(ConnectionLost)]
  {
    hide Append;
  }
}
