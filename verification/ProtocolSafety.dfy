/** Every operation keeps the whole invariant. */
module ProtocolSafety {
  import opened ChatTypes
  import opened Wrappers
  import opened Transcript
  import opened Protocol
  import opened ProtocolInvariant
  import opened ProtocolSteps
  import opened ProtocolOutcomes
  import opened ProtocolRecovery
  import M = Messages

  // ------------------------------------------------------------- the bound

  lemma {:induction false} RetainedIdsSize(list: seq<Retained>)
    ensures |RetainedIds(list)| <= |list|
  {
    if list == [] {
      assert RetainedIds(list) == {};
    } else {
      RetainedIdsSize(list[1..]);
      assert list == [list[0]] + list[1..];
      assert RetainedIds(list) == {list[0].request.id} + RetainedIds(list[1..]);
    }
  }

  lemma UnionSize(a: set<RequestId>, b: set<RequestId>)
    ensures |a + b| <= |a| + |b|
  {
    assert a + b == a + (b - a);
    assert |b - a| + |b * a| == |b| by {
      assert (b - a) + (b * a) == b;
    }
  }

  /** The identities that may not be pruned. */
  ghost function LiveIds(s: State): set<RequestId> {
    RetainedIds(s.queued) + RetainedIds(s.recoverable)
    + (if s.pending.Some? then {s.pending.value.request.id} else {})
    + (if s.ledger.current.Some? then {s.ledger.current.value} else {})
  }

  lemma LiveIdsSize(s: State)
    ensures |LiveIds(s)| <= ProtectedCount(s) + 1
  {
    var q, r := RetainedIds(s.queued), RetainedIds(s.recoverable);
    RetainedIdsSize(s.queued);
    RetainedIdsSize(s.recoverable);
    hide RetainedIds;
    UnionSize(q, r);
    LiveIdsParts(s);
    hide LiveIds;
    var p: set<RequestId> := if s.pending.Some? && s.pending.value.request.id !in q && s.pending.value.request.id !in r
                             then {s.pending.value.request.id} else {};
    var c: set<RequestId> := if s.ledger.current.Some? then {s.ledger.current.value} else {};
    UnionSize(q + r, p);
    UnionSize(q + r + p, c);
  }

  /** A pending request that is already queued or recoverable is counted once. */
  lemma LiveIdsParts(s: State)
    ensures var q, r := RetainedIds(s.queued), RetainedIds(s.recoverable);
            var p: set<RequestId> := if s.pending.Some? && s.pending.value.request.id !in q && s.pending.value.request.id !in r
                                     then {s.pending.value.request.id} else {};
            var c: set<RequestId> := if s.ledger.current.Some? then {s.ledger.current.value} else {};
            LiveIds(s) == q + r + p + c
  {
    hide RetainedIds;
  }

  lemma LiveOrPrunable(s: State)
    requires Projection(s)
    ensures M.Ids(s.messages.items) == LiveIds(s) + M.PrunableIds(s.messages.items, PendingId(s))
  {
    hide Shown, Shows, M.Distinct;
    var items := s.messages.items;
    forall id | id in M.Ids(items)
      ensures id in LiveIds(s) + M.PrunableIds(items, PendingId(s))
    {
      assert id in M.ById(items);
      M.LookupIsMember(items, id);
      var v := M.ById(items)[id];
      assert v in items;
    }
    assert LiveIds(s) <= M.Ids(items);
  }

  lemma TrayBound(s: State)
    requires Linked(s) && M.PrunableCount(s.messages.items, PendingId(s)) <= M.SETTLED_LIMIT
    ensures |s.messages.items| <= TRAY_LIMIT
  {
    LiveIdsSize(s);
    LiveOrPrunable(s);
    M.CountIds(s.messages.items);
    M.CountPrunable(s.messages.items, PendingId(s));
    hide LiveIds, M.PrunableIds, M.Ids, Agrees, Ordered, Ledgered, TargetsOk, Protected;
    UnionSize(LiveIds(s), M.PrunableIds(s.messages.items, PendingId(s)));
  }

  // ------------------------------------------------------------ the pieces

  lemma EmitKeepsDisplay(s: State, e: Entry)
    requires DisplayOk(s.display, s.stream, Blocked(s))
    ensures DisplayOk(Emit(s, e).display, Emit(s, e).stream, Blocked(s))
  {
    hide Faithful, Withhold, Publish;
    if Blocked(s) {
      WithholdFaithful(s.display, s.stream, e);
    } else {
      PublishFaithful(s.display, s.stream, e);
    }
  }

  lemma EmitKeepsSound(s: State, e: Entry)
    requires Sound(s)
    ensures Sound(Emit(s, e))
  {
    hide Linked, DeliveredOk, Sourced, DisplayOk, Append, NoteAppend;
    EmitKeepsLinked(s, e);
    EmitKeepsDisplay(s, e);
  }

  lemma PendingHasReceipt(s: State)
    requires Projection(s) && s.pending.Some?
    ensures s.pending.value.request.id in M.Ids(s.messages.items)
  {
    hide RoleOk, Shown, RetainedIds;
  }

  lemma RefreshFrame(s: State)
    ensures var t := Refresh(s);
            t == s.(messages := t.messages, delivered := t.delivered)
            && (Blocked(s) ==> t.delivered == s.delivered) && (!Blocked(s) ==> t.delivered == t.messages)
  {
    hide M.Refreshed;
  }

  /** Refreshing turns the linked state into a delivered and pruned one. */
  lemma RefreshDelivers(s: State)
    requires Linked(s) && (Blocked(s) ==> DeliveredOk(s.delivered.items, s.pending))
    ensures DeliveredOk(Refresh(s).delivered.items, s.pending)
    ensures Linked(Refresh(s)) && Synced(Refresh(s))
  {
    RefreshFrame(s);
    hide Refresh, Agrees, Ordered, Ledgered, TargetsOk, Protected, M.PrunableCount, M.Ids, M.ById, M.Distinct;
    RefreshKeepsLinked(s);
    TrayBound(Refresh(s));
    if s.pending.Some? {
      PendingHasReceipt(Refresh(s));
    }
  }

  lemma RefreshRestores(s: State)
    requires Sound(s)
    ensures Sound(Refresh(s)) && Synced(Refresh(s))
  {
    RefreshFrame(s);
    hide Refresh, Linked, DeliveryOk, DeliveredOk, Sourced, DisplayOk, Synced;
    RefreshDelivers(s);
  }

  lemma FinishTurnKeepsSound(s: State, state: MessageState, reason: Option<Reason>)
    requires Sound(s) && s.task.Some? && Settled(state)
    ensures Sound(FinishTurn(s, state, reason))
  {
    hide Linked, DeliveredOk, Sourced, DisplayOk, FinishedItems, Settled;
    FinishTurnKeepsLinked(s, state, reason);
  }

  lemma SourcedSubset(a: seq<Retained>, b: seq<Retained>, catalogue: Catalogue)
    requires Sourced(a, catalogue) && forall r :: r in b ==> r in a
    ensures Sourced(b, catalogue)
  {
  }

  lemma StartNextKeepsSound(s: State)
    requires Sound(s) && s.task.None? && s.queued != [] && s.nextTask < U64_MAX
    ensures Sound(StartNext(s))
  {
    hide Linked, DeliveredOk, Sourced, DisplayOk, M.ChangeMessage, Append, NoteAppend;
    StartNextKeepsLinked(s);
    SourcedSubset(s.queued, s.queued[1..], s.catalogue);
    EmitKeepsDisplay(s, Notice(FollowUp(s.queued[0].request.text)));
  }

  lemma HoldFromKeepsSound(s: State, filter: Filter, reason: Reason)
    requires Sound(s)
    ensures var t := HoldFrom(s, 0, filter, reason);
            && Sound(t) && OnlyHeld(s, t)
            && (forall r :: r in t.queued ==> r in s.queued && !Selected(filter, r.request))
  {
    hide Linked, DeliveredOk, Sourced, DisplayOk, HoldFrom, Selected;
    HoldFromKeepsLinked(s, 0, filter, reason);
    SourcedSubset(s.queued, HoldFrom(s, 0, filter, reason).queued, s.catalogue);
  }

  lemma NowKeepsSound(s: State, now: u64)
    requires Sound(s)
    ensures Sound(s.(nowMs := now))
  {
    hide Projected, Ordered, Ledgered, TargetsOk, Protected, DeliveryOk, DeliveredOk, Sourced, DisplayOk;
  }

  // --------------------------------------------------------------- ending

  lemma CompleteKeepsInv(s: State, nowMs: u64)
    requires Inv(s)
    ensures Inv(Complete(s, nowMs))
  {
    hide Sound, FinishTurn, Emit, StartNext, HoldFrom, Synced, Refresh;
    var timed := s.(nowMs := Later(s.nowMs, nowMs));
    NowKeepsSound(s, timed.nowMs);
    if timed.task.None? {
      NowKeepsSynced(s, timed.nowMs);
    } else {
      FinishTurnKeepsSound(timed, Completed, None);
      FinishShape(timed, Completed, None);
      var finished := FinishTurn(timed, Completed, None);
      EmitKeepsSound(finished, Notice(TaskCompleted));
      EmitShape(finished, Notice(TaskCompleted));
      var ended := Emit(finished, Notice(TaskCompleted));
      if ended.queued == [] {
        RefreshRestores(ended);
        RefreshFrame(ended);
      } else if ended.nextTask < U64_MAX {
        StartNextKeepsSound(ended);
        StartShape(ended);
        RefreshRestores(StartNext(ended));
        RefreshFrame(StartNext(ended));
      } else {
        HoldEverything(ended, Refused(IdentityExhausted));
        RefreshRestores(HoldFrom(ended, 0, Everything, Refused(IdentityExhausted)));
        RefreshFrame(HoldFrom(ended, 0, Everything, Refused(IdentityExhausted)));
      }
    }
  }

  lemma NowKeepsSynced(s: State, now: u64)
    requires Synced(s)
    ensures Synced(s.(nowMs := now))
  {
  }

  lemma FinishShape(s: State, state: MessageState, reason: Option<Reason>)
    requires s.task.Some?
    ensures var t := FinishTurn(s, state, reason);
            && t.task.None? && t.queued == s.queued && t.nextTask == s.nextTask
            && t.pending == s.pending && t.connected == s.connected && t.deliveryHeld == s.deliveryHeld
            && t.connectionRevision == s.connectionRevision
  {
    hide FinishedItems;
  }

  lemma EmitShape(s: State, e: Entry)
    ensures Emit(s, e) == s.(display := Emit(s, e).display, stream := Emit(s, e).stream)
  {
    hide Append, NoteAppend;
  }

  lemma StartShape(s: State)
    requires s.queued != [] && s.nextTask < U64_MAX
    ensures var t := StartNext(s);
            && t.task.Some?
            && t.pending == s.pending && t.connected == s.connected && t.deliveryHeld == s.deliveryHeld
            && t.connectionRevision == s.connectionRevision
  {
    hide Append, NoteAppend, M.ChangeMessage;
  }

  lemma HoldEverything(s: State, reason: Reason)
    requires Sound(s)
    ensures var t := HoldFrom(s, 0, Everything, reason);
            && Sound(t) && t.queued == [] && t.task == s.task
            && t.pending == s.pending && t.connected == s.connected && t.deliveryHeld == s.deliveryHeld
            && t.connectionRevision == s.connectionRevision
  {
    hide Sound, HoldFrom;
    HoldFromKeepsSound(s, Everything, reason);
    var t := HoldFrom(s, 0, Everything, reason);
    forall i | 0 <= i < |t.queued|
      ensures !Selected(Everything, t.queued[i].request)
    {
      assert t.queued[i] in t.queued;
    }
    assert |t.queued| > 0 ==> !Selected(Everything, t.queued[0].request);
  }

  lemma EndUnsuccessfullyKeepsInv(s: State, state: MessageState, reason: Reason)
    requires Inv(s) && Settled(state)
    ensures Inv(EndUnsuccessfully(s, state, reason))
  {
    hide Sound, FinishTurn, Emit, HoldFrom, Synced, Refresh;
    if s.task.Some? {
      FinishTurnKeepsSound(s, state, Some(reason));
      FinishShape(s, state, Some(reason));
      var finished := FinishTurn(s, state, Some(reason));
      HoldEverything(finished, reason);
      var held := HoldFrom(finished, 0, Everything, reason);
      EmitKeepsSound(held, Notice(EndedLine(reason)));
      EmitShape(held, Notice(EndedLine(reason)));
      RefreshRestores(Emit(held, Notice(EndedLine(reason))));
      RefreshFrame(Emit(held, Notice(EndedLine(reason))));
    }
  }

  // ------------------------------------------------------------ decisions

  lemma RetaskKeepsInv(s: State, after: Task, nextDecision: u64)
    requires Inv(s) && s.task.Some? && after.ref.id == s.task.value.ref.id
    requires Targets(s.(task := Some(after), nextDecision := nextDecision))
    ensures Inv(s.(task := Some(after), nextDecision := nextDecision))
  {
    hide Linked, DeliveredOk, Sourced, DisplayOk, M.PrunableCount;
    RetaskKeepsLinked(s, after, nextDecision);
  }

  lemma EmitKeepsInv(s: State, e: Entry)
    requires Inv(s)
    ensures Inv(Emit(s, e))
  {
    EmitShape(s, e);
    EmitKeepsSound(s, e);
    hide Sound, Emit, M.PrunableCount;
  }

  lemma TargetsOf(s: State)
    requires Inv(s)
    ensures Targets(s)
  {
    hide Projected, Ordered, Ledgered, Protected, DeliveryOk, DeliveredOk, Sourced, DisplayOk, Synced;
  }

  lemma ToggleDecisionKeepsInv(s: State)
    requires Inv(s)
    ensures Inv(ToggleDecision(s))
  {
    hide Sound, Synced, Waiting, Emit;
    if CanToggleDecision(s) {
      TargetsOf(s);
      var raising := s.task.value.decision.None?;
      var bumped := BumpRevision(s);
      var after := bumped.task.value.(decision := if raising then Some(Decision(s.nextDecision, CurrentTarget(bumped))) else None);
      var next := if raising then s.nextDecision + 1 else s.nextDecision;
      RetaskKeepsInv(s, after, next);
      EmitKeepsInv(s.(task := Some(after), nextDecision := next), Notice(if raising then DecisionRaised else DecisionExpired));
    }
  }

  lemma RespondKeepsInv(s: State, target: Target, id: u64, answer: DecisionAction)
    requires Inv(s)
    ensures Inv(Respond(s, target, id, answer))
  {
    hide Sound, Synced, Waiting, Emit, EndUnsuccessfully;
    if RespondRefusal(s, target, id, answer).None? {
      match answer
      case Continue =>
        TargetsOf(s);
        var after := BumpRevision(s).task.value.(decision := None);
        RetaskKeepsInv(s, after, s.nextDecision);
        EmitKeepsInv(s.(task := Some(after)), Notice(DecisionAnswered));
      case Stop => StopKeepsInv(s);
    }
  }

  lemma StopKeepsInv(s: State)
    requires Inv(s)
    ensures Inv(StopTask(s))
  {
    hide Sound, Synced, Waiting, EndUnsuccessfully;
    EndUnsuccessfullyKeepsInv(s, Stopped, WorkStopped);
  }

  lemma FailKeepsInv(s: State)
    requires Inv(s)
    ensures Inv(FailTask(s))
  {
    hide Sound, Synced, Waiting, EndUnsuccessfully;
    EndUnsuccessfullyKeepsInv(s, Failed, WorkFailed);
  }

  // ------------------------------------------------------------ submission

  lemma SubmitIsEntered(s: State, target: Target, action: Action, draftRevision: u64, text: string, nowMs: u64,
                        command: Option<CommandCapture>) returns (request: Request, view: MessageView)
    requires SubmitRefusal(s, target, action, text).None?
    ensures s.nextRequest < U64_MAX && s.connected && s.pending.None? && ProtectedCount(s) < PROTECTED_LIMIT
    ensures request.id == NextId(s) && view.state == AwaitingOutcome && Shows(view, request)
    ensures request == Request(NextId(s), text, target, action, draftRevision, command) && target == CurrentTarget(s)
    ensures Submit(s, target, action, draftRevision, text, nowMs, command) == Refresh(Entered(s, request, view, Later(s.nowMs, nowMs)))
  {
    hide Refresh, TextBytes, Blank, ProtectedCount;
    request := Request(RequestId(s.scope, s.nextRequest), text, target, action, draftRevision, command);
    view := MessageView(request.id, target, action, text, AwaitingOutcome, None, None, false);
  }

  lemma EnteredKeepsInv(s: State, request: Request, view: MessageView, now: u64)
    requires Inv(s) && s.connected && s.pending.None? && s.nextRequest < U64_MAX && ProtectedCount(s) < PROTECTED_LIMIT
    requires request.id == NextId(s) && view.state == AwaitingOutcome && Shows(view, request)
    requires request.target == CurrentTarget(s)
    ensures Inv(Refresh(Entered(s, request, view, now)))
  {
    hide Linked, DeliveredOk, Sourced, DisplayOk, Refresh, M.PrunableCount, ProtectedCount;
    var entered := Entered(s, request, view, now);
    EnteredKeepsLinked(s, request, view, now);
    RefreshDelivers(entered);
    RefreshFrame(entered);
  }

  lemma SubmitKeepsInv(s: State, target: Target, action: Action, draftRevision: u64, text: string, nowMs: u64,
                       command: Option<CommandCapture>)
    requires Inv(s)
    ensures Inv(Submit(s, target, action, draftRevision, text, nowMs, command))
  {
    hide Inv, Refresh, SubmitRefusal, ProtectedCount;
    if SubmitRefusal(s, target, action, text).None? {
      var request, view := SubmitIsEntered(s, target, action, draftRevision, text, nowMs, command);
      EnteredKeepsInv(s, request, view, Later(s.nowMs, nowMs));
    }
  }

  lemma SubmitCommandKeepsInv(s: State, capture: CommandCapture, raw: string, nowMs: u64)
    requires Inv(s)
    ensures Inv(SubmitCommand(s, capture, raw, nowMs))
  {
    hide Inv, Submit, CommandRefusal;
    SubmitKeepsInv(s, capture.target, capture.action, capture.draftRevision, raw, nowMs, Some(capture));
  }

  // ------------------------------------------------------------ acceptance

  lemma ValidatedIsSourced(queued: seq<Retained>, catalogue: Catalogue, request: Request, reason: Reason)
    requires Sourced(queued, catalogue)
    requires request.command.Some? ==> ValidateCommand(catalogue, request.command.value).None?
    ensures Sourced(queued + [Retained(request, reason)], catalogue)
  {
  }

  /** What deciding leaves alone, and what it adds to the queue. */
  lemma DecideShape(s: State)
    requires CanAccept(s)
    ensures var t := Decide(s); var p := s.pending.value;
            && t.connected == s.connected && t.deliveryHeld && t.delivered == s.delivered && t.catalogue == s.catalogue
            && t.scope == s.scope && t.nextRequest == s.nextRequest && t.recoverable == s.recoverable
            && t.connectionRevision == s.connectionRevision
            && (s.task.Some? ==> t.task.Some?)
            && t.pending.Some? && t.pending.value == p.(outcome := t.pending.value.outcome) && t.pending.value.outcome.Some?
            && (t.queued == s.queued
                || (t.queued == s.queued + [Retained(p.request, QueuedBehindTask)] && p.request.action == Queue
                    && OwnerRefusal(s.(deliveryHeld := true), p.request).None?))
  {
    hide Effect, EffectRefusal, Reject, OwnerRefusal;
    var held, request := s.(deliveryHeld := true), s.pending.value.request;
    EffectFrame(held, request);
    if OwnerRefusal(held, request).Some? {
      RejectFrame(held, Refused(OwnerRefusal(held, request).value));
    } else if s.rejectArmed {
      RejectFrame(held.(rejectArmed := false), FixtureRejected);
    } else if EffectRefusal(held, request).Some? {
      RejectFrame(held, Refused(EffectRefusal(held, request).value));
    }
  }

  lemma RejectFrame(s: State, reason: Reason)
    requires s.pending.Some?
    ensures var t := Reject(s, reason);
            t == s.(messages := t.messages, display := t.display, stream := t.stream,
                    pending := Some(s.pending.value.(outcome := Some(Rejected(reason)))))
  {
    hide M.ChangeMessage, Append, NoteAppend;
  }

  lemma EffectFrame(s: State, request: Request)
    ensures EffectRefusal(s, request).None? ==>
              var t := Effect(s, request);
              && t == s.(messages := t.messages, display := t.display, stream := t.stream, task := t.task, nextTask := t.nextTask,
                         ledger := t.ledger, queued := t.queued)
              && (s.task.Some? ==> t.task.Some?)
              && (t.queued == s.queued || (t.queued == s.queued + [Retained(request, QueuedBehindTask)] && request.action == Queue))
  {
    hide M.ChangeMessage, Append, NoteAppend, ValidateCommand;
    match request.action
    case NewTurn =>
    case Steer =>
    case Queue =>
  }

  lemma RejectKeepsDisplay(s: State, reason: Reason)
    requires DisplayOk(s.display, s.stream, true) && Blocked(s) && s.pending.Some?
    ensures DisplayOk(Reject(s, reason).display, Reject(s, reason).stream, true)
  {
    hide M.ChangeMessage, Append, NoteAppend, DisplayOk;
    EmitKeepsDisplay(Relabel(s, s.pending.value.request.id, Held, None, Some(reason)), Notice(RejectedLine(reason)));
  }

  lemma TwoNoticesKeepDisplay(s: State, a: Entry, b: Entry)
    requires DisplayOk(s.display, s.stream, true) && Blocked(s)
    ensures DisplayOk(Emit(Emit(s, a), b).display, Emit(Emit(s, a), b).stream, true)
  {
    hide Append, NoteAppend, DisplayOk;
    EmitKeepsDisplay(s, a);
    EmitKeepsDisplay(Emit(s, a), b);
  }

  /** An effect writes two notices. */
  lemma EffectNotices(s: State, request: Request)
    requires EffectRefusal(s, request).None?
    ensures exists a, b :: Effect(s, request).display == Emit(Emit(s, a), b).display
                           && Effect(s, request).stream == Emit(Emit(s, a), b).stream
  {
    hide M.ChangeMessage, Append, NoteAppend;
    match request.action
    case NewTurn =>
      var a, b := Entry(User(NewTurn), Verbatim(request.text)), Notice(TaskStarted);
      assert Effect(s, request).display == Emit(Emit(s, a), b).display && Effect(s, request).stream == Emit(Emit(s, a), b).stream;
    case Steer =>
      var a, b := Entry(User(Steer), SteerLine(request.text)), Notice(SteerNoted);
      assert Effect(s, request).display == Emit(Emit(s, a), b).display && Effect(s, request).stream == Emit(Emit(s, a), b).stream;
    case Queue =>
      var a, b := Entry(User(Queue), QueueLine(request.text)), Notice(QueueNoted);
      assert Effect(s, request).display == Emit(Emit(s, a), b).display && Effect(s, request).stream == Emit(Emit(s, a), b).stream;
  }

  lemma DecideKeepsDisplay(s: State)
    requires CanAccept(s) && DisplayOk(s.display, s.stream, Blocked(s))
    ensures DisplayOk(Decide(s).display, Decide(s).stream, true)
  {
    var held := s.(deliveryHeld := true);
    var request := s.pending.value.request;
    assert DisplayOk(held.display, held.stream, true);
    hide DisplayOk, Reject, Effect, OwnerRefusal, Emit;
    if OwnerRefusal(held, request).Some? {
      RejectKeepsDisplay(held, Refused(OwnerRefusal(held, request).value));
    } else if s.rejectArmed {
      RejectKeepsDisplay(held.(rejectArmed := false), FixtureRejected);
    } else if EffectRefusal(held, request).Some? {
      RejectKeepsDisplay(held, Refused(EffectRefusal(held, request).value));
    } else {
      EffectNotices(held, request);
      var a, b :| Effect(held, request).display == Emit(Emit(held, a), b).display
                  && Effect(held, request).stream == Emit(Emit(held, a), b).stream;
      TwoNoticesKeepDisplay(held, a, b);
    }
  }

  lemma DecideKeepsSources(s: State)
    requires CanAccept(s) && Sourced(s.queued, s.catalogue) && Waiting(s)
    ensures Sourced(Decide(s).queued, s.catalogue) && Waiting(Decide(s))
  {
    DecideShape(s);
    hide Decide, OwnerRefusal, Sourced;
    if Decide(s).queued != s.queued {
      OwnerAdmits(s.(deliveryHeld := true), s.pending.value.request);
      ValidatedIsSourced(s.queued, s.catalogue, s.pending.value.request, QueuedBehindTask);
    }
  }

  lemma DecideKeepsSound(s: State)
    requires Sound(s) && Waiting(s) && CanAccept(s)
    ensures Sound(Decide(s)) && Waiting(Decide(s))
  {
    hide Decide, Linked, DeliveredOk, Sourced, DisplayOk, OwnerRefusal, Waiting;
    DecideShape(s);
    DecideKeepsLinked(s);
    DecideKeepsDisplay(s);
    DecideKeepsSources(s);
    DeliveredSamePending(s.delivered.items, s.pending.value, Decide(s).pending.value);
  }

  lemma OwnerAdmits(s: State, request: Request)
    requires OwnerRefusal(s, request).None?
    ensures request.command.Some? ==> ValidateCommand(s.catalogue, request.command.value).None?
    ensures request.action != NewTurn ==> s.task.Some?
  {
  }

  lemma DeliveredSamePending(items: seq<MessageView>, p: Pending, after: Pending)
    requires DeliveredOk(items, Some(p)) && after.request == p.request
    ensures DeliveredOk(items, Some(after)) && DeliveredOk(items, None)
  {
  }

  lemma AcceptKeepsSound(s: State, nowMs: u64)
    requires Sound(s) && Waiting(s) && CanAccept(s)
    ensures var t := Accept(s, nowMs);
            && Sound(t) && Synced(t) && Waiting(t)
            && t.connected && t.deliveryHeld && t.connectionRevision == s.connectionRevision
            && t.pending.Some? && t.pending.value == s.pending.value.(outcome := t.pending.value.outcome) && t.pending.value.outcome.Some?
  {
    hide Sound, Decide, Refresh, Synced, Waiting;
    var timed := s.(nowMs := Later(s.nowMs, nowMs));
    NowKeepsSound(s, timed.nowMs);
    assert Waiting(timed) by {
      NowKeepsWaiting(s, timed.nowMs);
    }
    DecideKeepsSound(timed);
    DecideShape(timed);
    RefreshRestores(Decide(timed));
    RefreshKeepsWaiting(Decide(timed));
    RefreshFrame(Decide(timed));
  }

  lemma NowKeepsWaiting(s: State, now: u64)
    requires Waiting(s)
    ensures Waiting(s.(nowMs := now))
  {
  }

  lemma RefreshKeepsWaiting(s: State)
    requires Waiting(s)
    ensures Waiting(Refresh(s))
  {
    hide M.Refreshed;
  }

  lemma AcceptKeepsInv(s: State, nowMs: u64)
    requires Inv(s)
    ensures Inv(Accept(s, nowMs))
  {
    if CanAccept(s) {
      hide Sound, Accept, Synced, Waiting;
      AcceptKeepsSound(s, nowMs);
    } else {
      hide Sound, Synced, Decide, Refresh;
      NowKeepsSound(s, Later(s.nowMs, nowMs));
      NowKeepsSynced(s, Later(s.nowMs, nowMs));
    }
  }

  // ------------------------------------------------------- acknowledgement

  lemma DeliverFrame(s: State)
    requires s.connected && s.pending.None?
    ensures var t := Deliver(s);
            && t.pending.None? && t.queued == s.queued && t.task == s.task && t.catalogue == s.catalogue
            && t.connected && !t.deliveryHeld && t.delivered == t.messages
            && t.display == Flush(s.display) && t.stream == NoteFlush(s.stream, s.display)
            && t.recoverable == s.recoverable && t.ledger == s.ledger && t.scope == s.scope
  {
    hide M.Refreshed, Flush, NoteFlush;
  }

  lemma FlagAndDisplayKeepLinked(s: State, held: bool, display: Display, stream: Stream)
    requires Linked(s)
    ensures Linked(s.(deliveryHeld := held, display := display, stream := stream))
  {
    hide Projected, Ordered, Ledgered, TargetsOk, Protected;
  }

  lemma FlushKeepsDisplay(s: State)
    requires DisplayOk(s.display, s.stream, Blocked(s))
    ensures DisplayOk(Flush(s.display), NoteFlush(s.stream, s.display), false)
  {
    hide Flush, NoteFlush, Faithful;
    FlushFaithful(s.display, s.stream);
  }

  /** Delivering an acknowledged state restores the whole invariant. */
  lemma DeliverRestores(s: State)
    requires Linked(s) && Sourced(s.queued, s.catalogue) && DisplayOk(s.display, s.stream, Blocked(s)) && Waiting(s)
    requires s.connected && s.pending.None?
    ensures Inv(Deliver(s))
  {
    hide Linked, Flush, NoteFlush, DisplayOk, DeliveredOk, Sourced, M.PrunableCount, Refresh;
    var flushed := s.(deliveryHeld := false, display := Flush(s.display), stream := NoteFlush(s.stream, s.display));
    FlagAndDisplayKeepLinked(s, false, Flush(s.display), NoteFlush(s.stream, s.display));
    FlushKeepsDisplay(s);
    RefreshDelivers(flushed);
    RefreshFrame(flushed);
  }

  lemma ResolveShape(s: State)
    requires s.pending.Some? && s.pending.value.outcome.Some?
    ensures Resolve(s) == s.(pending := None, recoverable := Resolve(s).recoverable)
  {
  }

  lemma ResolveThenDeliver(s: State)
    requires Sound(s) && Waiting(s) && s.connected && s.pending.Some? && s.pending.value.outcome.Some?
    ensures Inv(Deliver(Resolve(s)))
  {
    hide Linked, Resolve, Deliver, DeliveredOk, Sourced, DisplayOk, Synced, Inv;
    ResolveShape(s);
    ResolveKeepsLinked(s);
    DeliverRestores(Resolve(s));
  }

  /** Acknowledging settles any pending request, decided or not. */
  lemma AcknowledgeRestores(s: State)
    requires Sound(s) && Waiting(s) && s.connected && s.pending.Some?
    ensures var t := Acknowledge(s, s.pending.value.request.id);
            Inv(t) && t.pending.None? && t.connected
  {
    hide Sound, Waiting, Decide, Resolve, Deliver, Inv, Accept;
    var accepted := Accept(s, s.nowMs);
    if CanAccept(s) {
      AcceptKeepsSound(s, s.nowMs);
    } else {
      AcceptRepeated(s);
    }
    ResolveThenDeliver(accepted);
    ResolveShape(accepted);
    DeliverFrame(Resolve(accepted));
  }

  /** Accepting again changes nothing once an outcome is recorded. */
  lemma AcceptRepeated(s: State)
    requires !CanAccept(s)
    ensures Accept(s, s.nowMs) == s
  {
  }

  lemma AcknowledgeKeepsInv(s: State, id: RequestId)
    requires Inv(s)
    ensures Inv(Acknowledge(s, id))
  {
    hide Sound, DeliveryOk, Synced, Waiting, Accept, Deliver, Resolve;
    if CanAcknowledge(s, id) {
      AcknowledgeRestores(s);
    }
  }

  // ------------------------------------------------------------ connection

  lemma SwitchShape(s: State, connected: bool)
    requires s.connectionRevision < U64_MAX
    ensures var t := Switch(s, connected);
            && t.connected == connected && t.deliveryHeld == (s.deliveryHeld || !connected)
            && t.connectionRevision == s.connectionRevision + 1
            && t.delivered == s.delivered && t.messages == s.messages && t.queued == s.queued && t.catalogue == s.catalogue
            && t.recoverable == s.recoverable && t.ledger == s.ledger && t.scope == s.scope
            && (t.task.Some? <==> s.task.Some?)
            && t.pending == (if s.pending.Some? then Some(s.pending.value.(unknown := !connected)) else None)
  {
    hide Append, NoteAppend;
  }

  lemma SwitchKeepsDisplay(s: State, connected: bool)
    requires s.connectionRevision < U64_MAX && DisplayOk(s.display, s.stream, Blocked(s)) && s.connected != connected
    requires s.deliveryHeld || s.connected
    ensures DisplayOk(Switch(s, connected).display, Switch(s, connected).stream, true)
  {
    var line := Notice(if connected then Reconnected else ConnectionLost);
    var quiet := s.(connected := connected, deliveryHeld := s.deliveryHeld || !connected);
    assert DisplayOk(quiet.display, quiet.stream, true);
    assert Blocked(quiet);
    hide Append, NoteAppend, DisplayOk;
    EmitKeepsDisplay(quiet, line);
  }

  lemma SwitchKeepsSound(s: State, connected: bool)
    requires Inv(s) && CanSetConnected(s, connected)
    ensures Sound(Switch(s, connected)) && Waiting(Switch(s, connected))
  {
    hide Switch, Linked, DeliveredOk, Sourced, DisplayOk, Synced;
    SwitchShape(s, connected);
    SwitchKeepsLinked(s, connected);
    SwitchKeepsDisplay(s, connected);
    if s.pending.Some? {
      DeliveredSamePending(s.delivered.items, s.pending.value, Switch(s, connected).pending.value);
    }
  }

  lemma DisconnectKeepsInv(s: State)
    requires Inv(s) && CanSetConnected(s, false)
    ensures Inv(Switch(s, false))
  {
    hide Switch, Sound, M.PrunableCount, M.Prune, M.ById;
    SwitchKeepsSound(s, false);
    SwitchShape(s, false);
  }

  /** Reconnecting settles everything: nothing pending, nothing withheld. */
  lemma ReconnectRestores(s: State)
    requires Inv(s) && CanSetConnected(s, true)
    ensures var t := SetConnected(s, true);
            Inv(t) && t.pending.None? && t.connected
  {
    hide Switch, Sound, Acknowledge, Deliver, Inv, Waiting;
    SwitchKeepsSound(s, true);
    SwitchShape(s, true);
    var switched := Switch(s, true);
    var acked := AcknowledgePending(switched);
    if switched.pending.Some? {
      AcknowledgeRestores(switched);
      SoundOf(acked);
    }
    DeliverIsSound(acked);
    DeliverFrame(acked);
  }

  lemma SoundOf(s: State)
    requires Inv(s)
    ensures Sound(s) && Waiting(s)
  {
    hide Sound, Synced, Waiting;
  }

  lemma DeliverIsSound(s: State)
    requires Sound(s) && Waiting(s) && s.connected && s.pending.None?
    ensures Inv(Deliver(s))
  {
    hide Linked, DeliveredOk, Sourced, DisplayOk, Waiting, Deliver, Inv;
    DeliverRestores(s);
  }

  lemma SetConnectedKeepsInv(s: State, connected: bool)
    requires Inv(s)
    ensures Inv(SetConnected(s, connected))
  {
    hide Inv, Switch, AcknowledgePending, Deliver;
    if CanSetConnected(s, connected) {
      if connected {
        ReconnectRestores(s);
      } else {
        DisconnectKeepsInv(s);
      }
    }
  }

  lemma LoseAcknowledgementKeepsInv(s: State, nowMs: u64)
    requires Inv(s)
    ensures Inv(LoseAcknowledgement(s, nowMs))
  {
    hide Inv, Accept, SetConnected;
    AcceptKeepsInv(s, nowMs);
    SetConnectedKeepsInv(Accept(s, nowMs), false);
  }

  // --------------------------------------------------------------- discard

  lemma DiscardKeepsInv(s: State, id: RequestId)
    requires Inv(s)
    ensures Inv(Discard(s, id))
    ensures CanDiscard(s, id) ==> ProtectedCount(Discard(s, id)) == ProtectedCount(s) - 1
  {
    hide Linked, DeliveredOk, Sourced, DisplayOk, Refresh, M.PrunableCount, Protected, RetainedIds, RetainedPosition, DropId;
    if CanDiscard(s, id) {
      var at := RetainedPosition(s.recoverable, id);
      var dropped := Dropped(s, at);
      DroppedKeepsLinked(s, at);
      RefreshDelivers(dropped);
      RefreshFrame(dropped);
    }
  }

  // --------------------------------------------------------------- sources

  lemma CatalogueKeepsLinked(s: State, catalogue: Catalogue)
    requires Linked(s)
    ensures Linked(s.(catalogue := catalogue))
  {
    hide Projected, Ordered, Ledgered, TargetsOk, Protected;
  }

  /** After holding what a source contributed, every queued command is still backed by its source. */
  lemma HoldRestoresSources(s: State, filter: Filter)
    requires Linked(s) && DeliveredOk(s.delivered.items, s.pending) && DisplayOk(s.display, s.stream, Blocked(s))
    requires DeliveryOk(s.deliveryHeld, s.connected, s.pending, s.connectionRevision) && Waiting(s)
    requires Sourced(HoldFrom(s, 0, filter, SourceUnavailable).queued, s.catalogue)
    ensures Inv(Refresh(HoldFrom(s, 0, filter, SourceUnavailable)))
  {
    hide Linked, DeliveryOk, DeliveredOk, Sourced, DisplayOk, HoldFrom, Selected, Refresh, Synced;
    HoldFromKeepsLinked(s, 0, filter, SourceUnavailable);
    var held := HoldFrom(s, 0, filter, SourceUnavailable);
    HeldWaits(s, held);
    RefreshRestores(held);
    RefreshFrame(held);
  }

  lemma HeldWaits(s: State, held: State)
    requires OnlyHeld(s, held) && Waiting(s) && forall r :: r in held.queued ==> r in s.queued
    ensures Waiting(held)
  {
    assert held.queued != [] ==> held.queued[0] in held.queued;
  }

  lemma UnselectedFrom(s: State, filter: Filter)
    requires Linked(s)
    ensures forall r :: r in HoldFrom(s, 0, filter, SourceUnavailable).queued ==> r in s.queued && !Selected(filter, r.request)
  {
    hide Linked, HoldFrom, Selected;
    HoldFromKeepsLinked(s, 0, filter, SourceUnavailable);
  }

  lemma ChangeSourcesKeepsInv(s: State, available: bool)
    requires Inv(s)
    ensures Inv(ChangeSources(s, available))
  {
    hide Linked, DeliveryOk, DeliveredOk, DisplayOk, HoldFrom, Refresh, M.PrunableCount;
    if CanChangeSources(s) {
      var c := s.catalogue;
      var changed := Catalogue(c.revision + 1, c.complete, Moved(c.core, available), Moved(c.checks, available),
                               Moved(c.other, available), Moved(c.skill, available));
      CatalogueKeepsLinked(s, changed);
      if !available {
        UnselectedFrom(s.(catalogue := changed), AnyCommand);
        HoldRestoresSources(s.(catalogue := changed), AnyCommand);
      }
    }
  }

  lemma ReplaceSourceKeepsInv(s: State, source: Source, available: bool)
    requires Inv(s)
    ensures Inv(ReplaceSource(s, source, available))
  {
    hide Linked, DeliveryOk, DeliveredOk, DisplayOk, HoldFrom, Refresh, M.PrunableCount;
    if CanReplaceSource(s, source) {
      var moved := Moved(SourceOf(s.catalogue, source), available);
      var changed := WithSource(s.catalogue, source, moved).(revision := s.catalogue.revision + 1);
      CatalogueKeepsLinked(s, changed);
      if !available {
        UnselectedFrom(s.(catalogue := changed), CommandFrom(source));
        HoldRestoresSources(s.(catalogue := changed), CommandFrom(source));
      }
    }
  }

  lemma SetCatalogueCompleteKeepsInv(s: State, complete: bool)
    requires Inv(s)
    ensures Inv(s.(catalogue := s.catalogue.(complete := complete)))
  {
    hide Linked, DeliveryOk, DeliveredOk, DisplayOk, M.PrunableCount;
    CatalogueKeepsLinked(s, s.catalogue.(complete := complete));
  }

  lemma RejectNextKeepsInv(s: State)
    requires Inv(s)
    ensures Inv(s.(rejectArmed := !s.rejectArmed))
  {
    hide Linked, DeliveryOk, DeliveredOk, Sourced, DisplayOk, M.PrunableCount;
    FlagsKeepLinked(s, s.deliveryHeld, !s.rejectArmed);
  }

  // ------------------------------------------------------- time, beginning

  lemma NowKeepsInv(s: State, now: u64)
    requires Inv(s)
    ensures Inv(s.(nowMs := now))
  {
    hide Sound, Synced;
    NowKeepsSound(s, now);
    NowKeepsSynced(s, now);
  }

  lemma ProgressKeepsInv(s: State, after: Task)
    requires Inv(s) && s.task.Some?
    requires after == s.task.value.(progress := after.progress, nextProgressMs := after.nextProgressMs)
    ensures Inv(s.(task := Some(after)))
  {
    hide Sound, Synced, Waiting;
    TargetsOf(s);
    RetaskKeepsInv(s, after, s.nextDecision);
  }

  lemma AdvanceKeepsInv(s: State, nowMs: u64)
    requires Inv(s)
    ensures Inv(Advance(s, nowMs))
  {
    hide Inv, Acknowledge, Complete;
    var timed := s.(nowMs := Later(s.nowMs, nowMs));
    NowKeepsInv(s, timed.nowMs);
    var acked := if AcknowledgementDue(timed) then AcknowledgePending(timed) else timed;
    if acked != timed {
      AcknowledgeKeepsInv(timed, timed.pending.value.request.id);
    }
    if TaskDue(acked) {
      CompleteKeepsInv(acked, acked.nowMs);
    } else if ProgressDue(acked) {
      ProgressKeepsInv(acked, Progressed(acked.task.value, acked.nowMs));
    }
  }

  lemma OpeningsFit(project: Project)
    ensures Fits(Openings(project))
  {
    var o := Openings(project);
    assert Bytes(o) == EntryBytes(o[0]) + Bytes(o[1..]);
    assert Bytes(o[1..]) == EntryBytes(o[1]) + Bytes(o[2..]);
    assert Bytes(o[2..]) == EntryBytes(o[2]) + Bytes(o[3..]);
    assert Bytes(o[3..]) == EntryBytes(o[3]) + Bytes(o[4..]);
  }

  lemma FreshIsLinked(project: Project, generation: u64, ledger: Ledger)
    requires Ledgered(ledger, None, [], [], RequestId(Scope(generation, project, 1), 1)) && ledger.current.None?
    ensures Linked(Fresh(project, generation, ledger))
  {
    var s := Fresh(project, generation, ledger);
    assert M.ById(s.messages.items) == map[];
    hide Ledgered;
  }

  lemma FreshIsInv(project: Project, generation: u64, ledger: Ledger)
    requires Ledgered(ledger, None, [], [], RequestId(Scope(generation, project, 1), 1)) && ledger.current.None?
    ensures Inv(Fresh(project, generation, ledger))
  {
    FreshIsLinked(project, generation, ledger);
    OpeningsFit(project);
    hide Linked, Ledgered, Openings, EntryBytes;
    assert Openings(project) + [] == Openings(project);
  }

  /** A reset gives up the text that was still unplaced, queued or recoverable, and nothing else. */
  lemma ResetPlaces(l: Ledger, p: Option<Pending>, queued: seq<Retained>, recoverable: seq<Retained>)
    ensures Places(l.(current := None, discarded := l.discarded + Unplaced(p) + Requests(queued) + Requests(recoverable)), None, [], [])
            == Places(l, p, queued, recoverable)
  {
    assert Requests([]) == [] && Unplaced(None) == [];
    hide Requests, Unplaced;
  }

  lemma ResetBounds(l: Ledger, queued: seq<Retained>, near: RequestId, far: RequestId, next: RequestId)
    requires IssuedInOrder(l.issued, near) && AppliedInOrder(l.applied, far) && FollowUpsInOrder(l.consumed, queued, far)
    requires near.scope.generation < next.scope.generation && far.scope.generation < next.scope.generation
    ensures IssuedInOrder(l.issued, next) && AppliedInOrder(l.applied, next) && FollowUpsInOrder(l.consumed, [], next)
  {
  }

  lemma HorizonGeneration(queued: seq<Retained>, recoverable: seq<Retained>, p: Option<Pending>, next: RequestId)
    requires Ordered(queued, recoverable, p, next)
    ensures Horizon(p, next).scope == next.scope
  {
    hide Increasing, DistinctRetained, RetainedIds;
  }

  lemma ResetLedgers(s: State, next: RequestId)
    requires Ordered(s.queued, s.recoverable, s.pending, NextId(s))
    requires Ledgered(s.ledger, s.pending, s.queued, s.recoverable, NextId(s)) && s.scope.generation < next.scope.generation
    ensures Ledgered(s.ledger.(current := None,
                               discarded := s.ledger.discarded + Unplaced(s.pending) + Requests(s.queued) + Requests(s.recoverable)),
                     None, [], [], next)
  {
    hide IssuedInOrder, AppliedInOrder, FollowUpsInOrder, Places, Requests, Unplaced, Ordered;
    HorizonGeneration(s.queued, s.recoverable, s.pending, NextId(s));
    ResetBounds(s.ledger, s.queued, NextId(s), Horizon(s.pending, NextId(s)), next);
    ResetPlaces(s.ledger, s.pending, s.queued, s.recoverable);
  }

  lemma ResetKeepsInv(s: State)
    requires Inv(s)
    ensures Inv(Reset(s))
  {
    hide Projected, Ordered, Ledgered, Targets, Protected, DeliveredOk, DeliveryOk, Sourced, DisplayOk, Synced, Waiting, Fresh, Requests;
    if s.scope.generation < U64_MAX {
      var next := RequestId(Scope(s.scope.generation + 1, s.scope.project, 1), 1);
      ResetLedgers(s, next);
      var ledger := s.ledger.(current := None,
                              discarded := s.ledger.discarded + Unplaced(s.pending) + Requests(s.queued) + Requests(s.recoverable));
      FreshIsInv(s.scope.project, s.scope.generation + 1, ledger);
    }
  }

  lemma InitialIsInv(project: Project)
    ensures Inv(Initial(project))
  {
    var l := Ledger([], [], [], [], None);
    assert Requests([]) == [] && Unplaced(None) == [];
    assert multiset(l.issued) == Places(l, None, [], []);
    FreshIsInv(project, 1, l);
  }

  // ------------------------------------------------------------- all steps

  /** Whatever is done next, the invariant survives. */
  lemma NextKeepsInv(s: State, step: Step)
    requires Inv(s)
    ensures Inv(Next(s, step))
  {
    hide Inv, Submit, SubmitCommand, Accept, Acknowledge, LoseAcknowledgement, Advance, Complete, StopTask, FailTask,
      ToggleDecision, Respond, SetConnected, Discard, Reset, ChangeSources, ReplaceSource;
    match step
    case DoSubmit(target, action, draftRevision, text, nowMs) => SubmitKeepsInv(s, target, action, draftRevision, text, nowMs, None);
    case DoSubmitCommand(capture, raw, nowMs) => SubmitCommandKeepsInv(s, capture, raw, nowMs);
    case DoAccept(nowMs) => AcceptKeepsInv(s, nowMs);
    case DoAcknowledge(id) => AcknowledgeKeepsInv(s, id);
    case DoLoseAcknowledgement(nowMs) => LoseAcknowledgementKeepsInv(s, nowMs);
    case DoAdvance(nowMs) => AdvanceKeepsInv(s, nowMs);
    case DoComplete(nowMs) => CompleteKeepsInv(s, nowMs);
    case DoStop => StopKeepsInv(s);
    case DoFail => FailKeepsInv(s);
    case DoToggleDecision => ToggleDecisionKeepsInv(s);
    case DoRespond(target, decision, answer) => RespondKeepsInv(s, target, decision, answer);
    case DoSetConnected(connected) => SetConnectedKeepsInv(s, connected);
    case DoRejectNext => RejectNextKeepsInv(s);
    case DoDiscard(id) => DiscardKeepsInv(s, id);
    case DoReset => ResetKeepsInv(s);
    case DoChangeSources(available) => ChangeSourcesKeepsInv(s, available);
    case DoReplaceSource(source, available) => ReplaceSourceKeepsInv(s, source, available);
    case DoSetCatalogueComplete(complete) => SetCatalogueCompleteKeepsInv(s, complete);
  }

  lemma {:induction false} RunKeepsInv(s: State, steps: seq<Step>)
    requires Inv(s)
    ensures Inv(Run(s, steps))
    decreases |steps|
  {
    hide Inv, Next;
    if steps != [] {
      NextKeepsInv(s, steps[0]);
      RunKeepsInv(Next(s, steps[0]), steps[1..]);
    }
  }

  /** Every state that any sequence of operations can reach satisfies the invariant. */
  lemma ReachableIsInv(project: Project, steps: seq<Step>)
    ensures Inv(Run(Initial(project), steps))
  {
    hide Inv;
    InitialIsInv(project);
    RunKeepsInv(Initial(project), steps);
  }
}
