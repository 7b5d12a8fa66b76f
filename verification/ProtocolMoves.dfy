/** How far one operation moves a receipt: along one edge of the receipt life cycle. */
module ProtocolMoves {
  import opened ChatTypes
  import opened Wrappers
  import opened Transcript
  import opened Protocol
  import opened ProtocolInvariant
  import opened ProtocolSteps
  import opened ProtocolOutcomes
  import opened ProtocolRecovery
  import opened ProtocolSafety
  import opened ProtocolEvolution
  import Theorems = ProtocolTheorems
  import M = Messages

  /** The edges: an awaited request runs, is acknowledged, queued or held; a queued one runs or is
      held; a running one ends. */
  predicate MovesTo(a: MessageState, b: MessageState) {
    || a == b
    || (a == AwaitingOutcome && b in {Running, Acknowledged, Queued, Held})
    || (a == Queued && b in {Running, Held})
    || (a == Running && b in {Completed, Stopped, Failed})
  }

  predicate Ended(a: MessageState) {
    a in {Completed, Stopped, Failed}
  }

  /** What a receipt may become over a run is what the edges reach. */
  lemma EdgesReachWhatMayBecome(a: MessageState, b: MessageState)
    ensures MayBecome(a, b) <==> exists x, y :: MovesTo(a, x) && MovesTo(x, y) && MovesTo(y, b)
  {
    if MayBecome(a, b) {
      var x, y := if a == AwaitingOutcome && Ended(b) then Queued else a, if Ended(b) && a != b then Running else a;
      assert MovesTo(a, x) && MovesTo(x, y) && MovesTo(y, b);
    }
  }

  /** No receipt but possibly one, named, ended. */
  ghost predicate EndsOnly(a: seq<MessageView>, b: seq<MessageView>, current: Option<RequestId>) {
    forall id :: id in M.ById(b) && Ended(M.ById(b)[id].state) ==>
      (id in M.ById(a) && M.ById(a)[id].state == M.ById(b)[id].state) || current == Some(id)
  }

  ghost predicate Silent(s: State, t: State) {
    EndsOnly(s.messages.items, t.messages.items, None)
  }

  lemma Then(a: seq<MessageView>, b: seq<MessageView>, c: seq<MessageView>, first: Option<RequestId>, second: Option<RequestId>)
    requires EndsOnly(a, b, first) && EndsOnly(b, c, second) && (first.None? || second.None?)
    ensures EndsOnly(a, c, if first.Some? then first else second)
  {
    hide M.ById, Ended;
  }

  lemma SilentThen(s: State, t: State, u: State)
    requires Silent(s, t) && Silent(t, u)
    ensures Silent(s, u)
  {
    hide EndsOnly;
    Then(s.messages.items, t.messages.items, u.messages.items, None, None);
  }

  lemma SameItems(s: State, t: State)
    requires t.messages.items == s.messages.items
    ensures Silent(s, t)
  {
    hide M.ById;
  }

  // ------------------------------------------------------------ the pieces

  lemma RelabelSilent(s: State, t: State, id: RequestId, state: MessageState, execution: Option<TaskRef>, reason: Option<Reason>)
    requires Projection(s) && id in M.ById(s.messages.items) && !Ended(state)
    requires t.messages == Relabel(s, id, state, execution, reason).messages
    ensures Silent(s, t)
  {
    hide M.ById, Projection, Relabel;
    RelabelMap(s, id, state, execution, reason);
  }

  lemma RefreshSilent(s: State)
    requires Linked(s)
    ensures Silent(s, Refresh(s))
  {
    M.PruneLookups(s.messages.items, PendingId(s));
    RefreshFrame(s);
    hide M.ById, M.Prune, M.PrunableCount, M.Distinct, Linked, Ended;
  }

  lemma {:induction false} HoldFromSilent(s: State, i: nat, filter: Filter, reason: Reason)
    requires Linked(s) && i <= |s.queued|
    ensures Silent(s, HoldFrom(s, i, filter, reason))
    decreases |s.queued| - i
  {
    hide Linked, Silent, Selected, Projection, M.ChangeMessage;
    if i == |s.queued| {
      SameItems(s, s);
    } else if Selected(filter, s.queued[i].request) {
      var u := HoldAt(s, i, reason);
      ProjectionOf(s);
      QueuedState(s, i);
      RelabelSilent(s, u, s.queued[i].request.id, Held, None, Some(reason));
      HoldAtKeepsLinked(s, i, reason);
      HoldFromSilent(u, i, filter, reason);
      SilentThen(s, u, HoldFrom(u, i, filter, reason));
    } else {
      HoldFromSilent(s, i + 1, filter, reason);
    }
  }

  lemma StartNextSilent(s: State)
    requires Linked(s) && s.queued != [] && s.nextTask < U64_MAX
    ensures Silent(s, StartNext(s))
  {
    hide Linked, Silent, Projection, M.ChangeMessage, Append, NoteAppend;
    ProjectionOf(s);
    QueuedState(s, 0);
    RelabelSilent(s, StartNext(s), s.queued[0].request.id, Running, Some(StartedTask(s).ref), None);
  }

  lemma RejectSilent(s: State, reason: Reason)
    requires Linked(s) && s.pending.Some? && s.pending.value.outcome.None?
    ensures Silent(s, Reject(s, reason))
  {
    hide Linked, Silent, Projection, M.ChangeMessage, Append, NoteAppend;
    ProjectionOf(s);
    PendingState(s);
    RelabelSilent(s, Reject(s, reason), s.pending.value.request.id, Held, None, Some(reason));
  }

  lemma EffectSilent(s: State, r: Request)
    requires Linked(s) && s.pending.Some? && s.pending.value.outcome.None? && r == s.pending.value.request
    requires EffectRefusal(s, r).None?
    ensures Silent(s, Effect(s, r))
  {
    hide Linked, Silent, Projection, M.ChangeMessage, Append, NoteAppend;
    ProjectionOf(s);
    PendingState(s);
    match r.action
    case NewTurn => RelabelSilent(s, BeginTurn(s, r), r.id, Running, Some(StartedTask(s).ref), None);
    case Steer => SteerSilent(s, r);
    case Queue => RelabelSilent(s, Enqueue(s, r), r.id, Queued, None, None);
  }

  lemma SteerSilent(s: State, r: Request)
    requires Projection(s) && r.id in M.ById(s.messages.items) && s.task.Some? && s.task.value.ref.revision < U64_MAX
    ensures Silent(s, SteerTask(s, r))
  {
    hide Silent, Projection, M.ChangeMessage, Append, NoteAppend;
    RelabelSilent(s, SteerTask(s, r), r.id, Acknowledged, None, None);
  }

  lemma DecideSilent(s: State)
    requires Linked(s) && CanAccept(s)
    ensures Silent(s, Decide(s))
  {
    hide Linked, Silent, OwnerRefusal, Reject, Effect, EffectRefusal;
    FlagsKeepLinked(s, true, s.rejectArmed);
    FlagsKeepLinked(s, true, false);
    var held, r := s.(deliveryHeld := true), s.pending.value.request;
    SameItems(s, held);
    if OwnerRefusal(held, r).Some? {
      RejectSilent(held, Refused(OwnerRefusal(held, r).value));
    } else if s.rejectArmed {
      SameItems(held, held.(rejectArmed := false));
      RejectSilent(held.(rejectArmed := false), FixtureRejected);
      SilentThen(held, held.(rejectArmed := false), Decide(s));
    } else if EffectRefusal(held, r).Some? {
      RejectSilent(held, Refused(EffectRefusal(held, r).value));
    } else {
      EffectFrame(held, r);
      EffectSilent(held, r);
      SameItems(Effect(held, r), Decide(s));
      SilentThen(held, Effect(held, r), Decide(s));
    }
    SilentThen(s, held, Decide(s));
  }

  // ------------------------------------------------- operations that end nothing

  lemma AcceptSilent(s: State, nowMs: u64)
    requires Linked(s)
    ensures Silent(s, Accept(s, nowMs))
  {
    hide Linked, Silent, Decide, Refresh;
    var timed := s.(nowMs := Later(s.nowMs, nowMs));
    SameItems(s, timed);
    NowKeepsLinked(s, timed.nowMs);
    if CanAccept(timed) {
      DecideSilent(timed);
      DecideKeepsLinked(timed);
      RefreshSilent(Decide(timed));
      SilentThen(s, timed, Decide(timed));
      SilentThen(s, Decide(timed), Accept(s, nowMs));
    }
  }

  lemma NowKeepsLinked(s: State, now: u64)
    requires Linked(s)
    ensures Linked(s.(nowMs := now))
  {
    hide Projected, Ordered, Ledgered, Protected, TargetsOk;
  }

  lemma DeliverSilent(s: State)
    requires Linked(s)
    ensures Silent(s, Deliver(s))
  {
    hide Linked, Silent, Refresh, Flush, NoteFlush;
    SameItems(s, s);
    if s.connected && s.pending.None? {
      var flushed := s.(deliveryHeld := false, display := Flush(s.display), stream := NoteFlush(s.stream, s.display));
      SameItems(s, flushed);
      FlagAndDisplayKeepLinked(s, false, flushed.display, flushed.stream);
      RefreshSilent(flushed);
      SilentThen(s, flushed, Refresh(flushed));
    }
  }

  lemma AcknowledgeSilent(s: State, id: RequestId)
    requires Sound(s) && Waiting(s)
    ensures Silent(s, Acknowledge(s, id))
  {
    hide Sound, Linked, Silent, Accept, Resolve, Deliver, Waiting;
    SameItems(s, s);
    LinkedOf(s);
    if CanAcknowledge(s, id) {
      var accepted := Accept(s, s.nowMs);
      AcceptSilent(s, s.nowMs);
      if CanAccept(s) {
        AcceptKeepsSound(s, s.nowMs);
      } else {
        AcceptRepeated(s);
      }
      LinkedOf(accepted);
      if accepted.pending.Some? && accepted.pending.value.outcome.Some? {
        var resolved := Resolve(accepted);
        ResolveShape(accepted);
        SameItems(accepted, resolved);
        ResolveKeepsLinked(accepted);
        DeliverSilent(resolved);
        SilentThen(s, accepted, resolved);
        SilentThen(s, resolved, Deliver(resolved));
      }
    }
  }

  lemma SubmitSilent(s: State, target: Target, action: Action, draftRevision: u64, text: string, nowMs: u64, command: Option<CommandCapture>)
    requires Sound(s)
    ensures Silent(s, Submit(s, target, action, draftRevision, text, nowMs, command))
  {
    hide Sound, Linked, Silent, Refresh, SubmitRefusal, ProtectedCount, Entered;
    LinkedOf(s);
    SameItems(s, s);
    if SubmitRefusal(s, target, action, text).None? {
      var request, view := SubmitIsEntered(s, target, action, draftRevision, text, nowMs, command);
      var entered := Entered(s, request, view, Later(s.nowMs, nowMs));
      EnteredKeepsLinked(s, request, view, Later(s.nowMs, nowMs));
      EnteredSilent(s, request, view, Later(s.nowMs, nowMs));
      RefreshSilent(entered);
      SilentThen(s, entered, Refresh(entered));
    } else {
      Theorems.RefusedSubmission(s, target, action, draftRevision, text, nowMs, command);
    }
  }

  lemma EnteredSilent(s: State, request: Request, view: MessageView, now: u64)
    requires Linked(s) && s.nextRequest < U64_MAX && view.id == NextId(s) && view.state == AwaitingOutcome
    ensures Silent(s, Entered(s, request, view, now))
  {
    hide Linked, M.ById, M.Distinct, M.Ids;
    EnteredMap(s, view);
  }

  lemma SetConnectedSilent(s: State, connected: bool)
    requires Inv(s)
    ensures Silent(s, SetConnected(s, connected))
  {
    hide Inv, Sound, Linked, Silent, Switch, Acknowledge, Deliver, Waiting;
    SameItems(s, s);
    if CanSetConnected(s, connected) {
      var switched := Switch(s, connected);
      SwitchShape(s, connected);
      SameItems(s, switched);
      if connected {
        SwitchKeepsSound(s, true);
        var acked := AcknowledgePending(switched);
        if switched.pending.Some? {
          AcknowledgeSilent(switched, switched.pending.value.request.id);
          AcknowledgeRestores(switched);
          SoundOf(acked);
          SilentThen(s, switched, acked);
        }
        LinkedOf(acked);
        DeliverSilent(acked);
        SilentThen(s, acked, Deliver(acked));
      }
    }
  }

  lemma LoseAcknowledgementSilent(s: State, nowMs: u64)
    requires Inv(s)
    ensures Silent(s, LoseAcknowledgement(s, nowMs))
  {
    hide Inv, Sound, Linked, Silent, Accept, SetConnected, Waiting;
    SameItems(s, s);
    if s.connected && s.pending.Some? {
      SoundOf(s);
      LinkedOf(s);
      AcceptSilent(s, nowMs);
      AcceptKeepsInv(s, nowMs);
      SetConnectedSilent(Accept(s, nowMs), false);
      SilentThen(s, Accept(s, nowMs), LoseAcknowledgement(s, nowMs));
    }
  }

  lemma DiscardSilent(s: State, id: RequestId)
    requires Linked(s)
    ensures Silent(s, Discard(s, id))
  {
    hide Linked, Silent, Refresh, RetainedPosition, DropId, RetainedIds;
    SameItems(s, s);
    if CanDiscard(s, id) {
      var at := RetainedPosition(s.recoverable, id);
      var dropped := Dropped(s, at);
      DroppedKeepsLinked(s, at);
      DroppedSilent(s, at);
      RefreshSilent(dropped);
      SilentThen(s, dropped, Refresh(dropped));
    }
  }

  lemma DroppedSilent(s: State, at: nat)
    requires Linked(s) && at < |s.recoverable|
    ensures Silent(s, Dropped(s, at))
  {
    hide M.ById, M.Distinct, M.Ids, M.Without, DropId, Agrees, Ordered, Ledgered, Protected, TargetsOk;
    var items, id := s.messages.items, s.recoverable[at].request.id;
    DropIdIsWithout(items, id);
    if id in M.Ids(items) {
      M.WithoutLookups(items, M.Position(items, id));
    }
  }

  lemma HoldCommandsSilent(s: State, catalogue: Catalogue, filter: Filter)
    requires Linked(s)
    ensures Silent(s, Refresh(HoldFrom(s.(catalogue := catalogue), 0, filter, SourceUnavailable)))
  {
    hide Linked, Silent, HoldFrom, Refresh;
    var changed := s.(catalogue := catalogue);
    CatalogueKeepsLinked(s, catalogue);
    SameItems(s, changed);
    var held := HoldFrom(changed, 0, filter, SourceUnavailable);
    HoldFromSilent(changed, 0, filter, SourceUnavailable);
    HoldFromKeepsLinked(changed, 0, filter, SourceUnavailable);
    SilentThen(s, changed, held);
    RefreshSilent(held);
    SilentThen(s, held, Refresh(held));
  }

  lemma SourcesSilent(s: State, source: Source, available: bool)
    requires Linked(s)
    ensures Silent(s, ChangeSources(s, available)) && Silent(s, ReplaceSource(s, source, available))
  {
    hide Linked, Silent, HoldFrom, Refresh;
    SameItems(s, s);
    if CanChangeSources(s) {
      var c := s.catalogue;
      var changed := Catalogue(c.revision + 1, c.complete, Moved(c.core, available), Moved(c.checks, available),
                               Moved(c.other, available), Moved(c.skill, available));
      SameItems(s, s.(catalogue := changed));
      HoldCommandsSilent(s, changed, AnyCommand);
    }
    if CanReplaceSource(s, source) {
      var changed := WithSource(s.catalogue, source, Moved(SourceOf(s.catalogue, source), available)).(revision := s.catalogue.revision + 1);
      SameItems(s, s.(catalogue := changed));
      HoldCommandsSilent(s, changed, CommandFrom(source));
    }
  }

  // ------------------------------------------------------ operations that end the task

  /** Only the receipt of the running turn may have ended. */
  ghost predicate EndsCurrent(s: State, t: State) {
    EndsOnly(s.messages.items, t.messages.items, s.ledger.current)
  }

  lemma FinishEnds(s: State, state: MessageState, reason: Option<Reason>)
    requires Linked(s) && s.task.Some?
    ensures EndsCurrent(s, FinishTurn(s, state, reason)) && s.ledger.current.Some?
  {
    hide M.ById, M.ChangeMessage, M.Distinct, Agrees, RunningPosition, Ordered, Ledgered, Protected;
    RunningIsCurrent(s);
    RunningState(s);
    var at := RunningPosition(s.messages.items, s.task.value.ref.id);
    RelabelMap(s, s.ledger.current.value, state, s.messages.items[at].execution, reason);
  }

  lemma EndsThen(s: State, t: State, u: State)
    requires EndsCurrent(s, t) && Silent(t, u)
    ensures EndsCurrent(s, u)
  {
    hide EndsOnly;
    Then(s.messages.items, t.messages.items, u.messages.items, s.ledger.current, None);
  }

  lemma SilentEnds(s: State, t: State)
    requires Silent(s, t)
    ensures EndsCurrent(s, t)
  {
    hide M.ById;
  }

  lemma CompleteEnds(s: State, nowMs: u64)
    requires Linked(s)
    ensures EndsCurrent(s, Complete(s, nowMs))
  {
    hide Linked, Silent, EndsCurrent, FinishTurn, Emit, StartNext, HoldFrom, Refresh;
    var timed := s.(nowMs := Later(s.nowMs, nowMs));
    NowKeepsLinked(s, timed.nowMs);
    SameItems(s, timed);
    SilentEnds(s, timed);
    if timed.task.Some? {
      var finished := FinishTurn(timed, Completed, None);
      FinishEnds(timed, Completed, None);
      SameStart(s, timed, finished);
      FinishTurnKeepsLinked(timed, Completed, None);
      FinishShape(timed, Completed, None);
      var ended := Emit(finished, Notice(TaskCompleted));
      EmitShape(finished, Notice(TaskCompleted));
      EmitKeepsLinked(finished, Notice(TaskCompleted));
      SameItems(finished, ended);
      EndsThen(s, finished, ended);
      CompletedTail(s, ended);
    }
  }

  lemma SameStart(s: State, timed: State, t: State)
    requires timed.messages == s.messages && timed.ledger == s.ledger && EndsCurrent(timed, t)
    ensures EndsCurrent(s, t)
  {
  }

  /** What follows the end of a completed turn. */
  lemma CompletedTail(s: State, ended: State)
    requires Linked(ended) && ended.task.None? && EndsCurrent(s, ended)
    ensures EndsCurrent(s, Refresh(if ended.queued == [] then ended
                                   else if ended.nextTask < U64_MAX then StartNext(ended)
                                   else HoldFrom(ended, 0, Everything, Refused(IdentityExhausted))))
  {
    hide Linked, Silent, EndsCurrent, StartNext, HoldFrom, Refresh;
    if ended.queued == [] {
      RefreshSilent(ended);
      EndsThen(s, ended, Refresh(ended));
    } else if ended.nextTask < U64_MAX {
      StartNextSilent(ended);
      StartNextKeepsLinked(ended);
      RefreshSilent(StartNext(ended));
      EndsThen(s, ended, StartNext(ended));
      EndsThen(s, StartNext(ended), Refresh(StartNext(ended)));
    } else {
      var held := HoldFrom(ended, 0, Everything, Refused(IdentityExhausted));
      HoldFromSilent(ended, 0, Everything, Refused(IdentityExhausted));
      HoldFromKeepsLinked(ended, 0, Everything, Refused(IdentityExhausted));
      RefreshSilent(held);
      EndsThen(s, ended, held);
      EndsThen(s, held, Refresh(held));
    }
  }

  lemma EndUnsuccessfullyEnds(s: State, state: MessageState, reason: Reason)
    requires Linked(s) && Ended(state)
    ensures EndsCurrent(s, EndUnsuccessfully(s, state, reason))
  {
    hide Linked, Silent, EndsCurrent, FinishTurn, Emit, HoldFrom, Refresh;
    SameItems(s, s);
    SilentEnds(s, s);
    if s.task.Some? {
      var finished := FinishTurn(s, state, Some(reason));
      FinishEnds(s, state, Some(reason));
      FinishTurnKeepsLinked(s, state, Some(reason));
      var held := HoldFrom(finished, 0, Everything, reason);
      HoldFromSilent(finished, 0, Everything, reason);
      HoldFromKeepsLinked(finished, 0, Everything, reason);
      EndsThen(s, finished, held);
      var told := Emit(held, Notice(EndedLine(reason)));
      EmitShape(held, Notice(EndedLine(reason)));
      EmitKeepsLinked(held, Notice(EndedLine(reason)));
      SameItems(held, told);
      EndsThen(s, held, told);
      RefreshSilent(told);
      EndsThen(s, told, Refresh(told));
    }
  }

  lemma RespondEnds(s: State, target: Target, id: u64, answer: DecisionAction)
    requires Linked(s)
    ensures EndsCurrent(s, Respond(s, target, id, answer))
  {
    hide Linked, Silent, EndsCurrent, EndUnsuccessfully, Append, NoteAppend;
    SameItems(s, s);
    SilentEnds(s, s);
    EndUnsuccessfullyEnds(s, Stopped, WorkStopped);
    if RespondRefusal(s, target, id, answer).None? && answer == Continue {
      SameItems(s, Respond(s, target, id, answer));
      SilentEnds(s, Respond(s, target, id, answer));
    }
  }

  /** An acknowledgement does not change which turn runs, and a turn it starts has only just begun. */
  lemma AcknowledgedTurn(s: State)
    requires Sound(s) && Waiting(s) && s.connected && s.pending.Some?
    ensures var t := AcknowledgePending(s);
            && t.nowMs == s.nowMs
            && (s.task.Some? ==> t.ledger.current == s.ledger.current)
            && (s.task.None? && t.task.Some? ==> t.task.value.startedMs == s.nowMs)
  {
    hide Sound, Waiting, Decide, Refresh, Deliver, Resolve;
    var accepted := Accept(s, s.nowMs);
    if CanAccept(s) {
      var timed := s.(nowMs := Later(s.nowMs, s.nowMs));
      assert timed == s;
      DecidedTurn(s);
      RefreshFrame(Decide(s));
      AcceptKeepsSound(s, s.nowMs);
    } else {
      AcceptRepeated(s);
    }
    ResolveShape(accepted);
    DecidedConnection(s);
    DeliverFrame(Resolve(accepted));
    DeliverKeepsTime(Resolve(accepted));
  }

  lemma DecidedConnection(s: State)
    requires s.connected
    ensures Accept(s, s.nowMs).connected
  {
    hide Decide, Refresh;
    if CanAccept(s) {
      var timed := s.(nowMs := Later(s.nowMs, s.nowMs));
      DecideShape(timed);
      RefreshFrame(Decide(timed));
    }
  }

  lemma DeliverKeepsTime(s: State)
    ensures Deliver(s).nowMs == s.nowMs
  {
    hide M.Refreshed, Flush, NoteFlush;
  }

  lemma DecidedTurn(s: State)
    requires CanAccept(s)
    ensures var t := Decide(s);
            && t.nowMs == s.nowMs
            && (s.task.Some? ==> t.ledger.current == s.ledger.current)
            && (s.task.None? && t.task.Some? ==> t.task.value.startedMs == s.nowMs)
  {
    hide Effect, Reject, EffectRefusal, ValidateCommand;
    var held, r := s.(deliveryHeld := true), s.pending.value.request;
    EffectFrame(held, r);
    EffectTurn(held, r);
    if OwnerRefusal(held, r).Some? {
      RejectFrame(held, Refused(OwnerRefusal(held, r).value));
    } else if s.rejectArmed {
      RejectFrame(held.(rejectArmed := false), FixtureRejected);
    } else if EffectRefusal(held, r).Some? {
      RejectFrame(held, Refused(EffectRefusal(held, r).value));
    }
  }

  lemma EffectTurn(s: State, r: Request)
    ensures EffectRefusal(s, r).None? ==>
              var t := Effect(s, r);
              && (r.action != NewTurn ==> t.ledger.current == s.ledger.current && (t.task.Some? ==> s.task.Some?))
              && (r.action == NewTurn ==> t.task.Some? && t.task.value.startedMs == s.nowMs)
  {
    hide M.ChangeMessage, Append, NoteAppend, BeginTurn, SteerTask, Enqueue;
    match r.action
    case NewTurn =>
      if s.nextTask < U64_MAX {
        BeginStarts(s, r);
      }
    case Steer =>
      if s.task.Some? && s.task.value.ref.revision < U64_MAX {
        Theorems.SteerOf(s, r);
      }
    case Queue =>
      Theorems.EnqueueOf(s, r);
  }

  lemma BeginStarts(s: State, r: Request)
    requires s.nextTask < U64_MAX
    ensures BeginTurn(s, r).task.Some? && BeginTurn(s, r).task.value.startedMs == s.nowMs
  {
    hide M.ChangeMessage, Append, NoteAppend;
  }

  lemma AdvanceEnds(s: State, nowMs: u64)
    requires Inv(s)
    ensures EndsCurrent(s, Advance(s, nowMs))
  {
    hide Inv, Sound, Linked, Silent, EndsCurrent, EndsOnly, AcknowledgePending, Complete, Waiting, Progressed;
    var timed := s.(nowMs := Later(s.nowMs, nowMs));
    NowKeepsInv(s, timed.nowMs);
    SoundOf(timed);
    SameItems(s, timed);
    var due := AcknowledgementDue(timed);
    var acked := if due then AcknowledgePending(timed) else timed;
    SameItems(timed, timed);
    if due {
      AcknowledgedSilent(timed);
      AcknowledgedTurn(timed);
    }
    SilentThen(s, timed, acked);
    SilentEnds(s, acked);
    LinkedOf(acked);
    if TaskDue(acked) {
      CompleteEnds(acked, acked.nowMs);
      SilentThenEnds(s, acked, Complete(acked, acked.nowMs));
    } else if ProgressDue(acked) {
      SameItems(acked, Advance(s, nowMs));
      SilentThen(s, acked, Advance(s, nowMs));
      SilentEnds(s, Advance(s, nowMs));
    }
  }

  lemma AcknowledgedSilent(s: State)
    requires Inv(s) && s.connected && s.pending.Some?
    ensures Silent(s, AcknowledgePending(s)) && Sound(AcknowledgePending(s)) && Waiting(s)
  {
    hide Inv, Sound, Linked, Silent, Acknowledge, Waiting;
    SoundOf(s);
    AcknowledgeSilent(s, s.pending.value.request.id);
    AcknowledgeKeepsInv(s, s.pending.value.request.id);
    SoundOf(AcknowledgePending(s));
  }

  lemma SilentThenEnds(s: State, t: State, u: State)
    requires Silent(s, t) && EndsCurrent(t, u) && t.ledger.current == s.ledger.current
    ensures EndsCurrent(s, u)
  {
    hide EndsOnly;
    Then(s.messages.items, t.messages.items, u.messages.items, None, s.ledger.current);
  }

  // --------------------------------------------------------------- one step

  lemma ToggleSilent(s: State)
    ensures Silent(s, ToggleDecision(s))
  {
    hide Silent, Append, NoteAppend;
    SameItems(s, ToggleDecision(s));
  }

  lemma ResetSilent(s: State)
    ensures Silent(s, Reset(s))
  {
    hide Requests;
    if s.scope.generation == U64_MAX {
      SameItems(s, s);
    }
  }

  lemma NextEnds(s: State, step: Step)
    requires Inv(s)
    ensures EndsCurrent(s, Next(s, step))
  {
    hide Inv, Sound, Linked, Waiting, Silent, EndsCurrent, Submit, Accept, Acknowledge, LoseAcknowledgement, Advance, Complete, EndUnsuccessfully,
      ToggleDecision, Respond, SetConnected, Discard, Reset, ChangeSources, ReplaceSource, CommandRefusal;
    SoundOf(s);
    LinkedOf(s);
    SameItems(s, s);
    var t := Next(s, step);
    match step {
      case DoSubmit(target, action, draftRevision, text, nowMs) => SubmitSilent(s, target, action, draftRevision, text, nowMs, None);
      case DoSubmitCommand(capture, raw, nowMs) =>
        SubmitSilent(s, capture.target, capture.action, capture.draftRevision, raw, nowMs, Some(capture));
      case DoAccept(nowMs) => AcceptSilent(s, nowMs);
      case DoAcknowledge(id) => WaitingOf(s); AcknowledgeSilent(s, id);
      case DoLoseAcknowledgement(nowMs) => LoseAcknowledgementSilent(s, nowMs);
      case DoAdvance(nowMs) => AdvanceEnds(s, nowMs); return;
      case DoComplete(nowMs) => CompleteEnds(s, nowMs); return;
      case DoStop => EndUnsuccessfullyEnds(s, Stopped, WorkStopped);
        if s.connected { return; }
      case DoFail => EndUnsuccessfullyEnds(s, Failed, WorkFailed); return;
      case DoToggleDecision => ToggleSilent(s);
      case DoRespond(target, decision, answer) => RespondEnds(s, target, decision, answer); return;
      case DoSetConnected(connected) => SetConnectedSilent(s, connected);
      case DoRejectNext => SameItems(s, t);
      case DoDiscard(id) => DiscardSilent(s, id);
      case DoReset => ResetSilent(s);
      case DoChangeSources(available) => SourcesSilent(s, Core, available);
      case DoReplaceSource(source, available) => SourcesSilent(s, source, available);
      case DoSetCatalogueComplete(complete) => SameItems(s, t);
    }
    SilentEnds(s, t);
  }

  lemma WaitingOf(s: State)
    requires Inv(s)
    ensures Waiting(s)
  {
    hide Sound, Synced;
  }

  /** One operation moves a receipt along one edge at most, and keeps what it shows. */
  lemma ReceiptsMoveByOneEdge(s: State, step: Step, id: RequestId)
    requires Inv(s) && id in M.ById(s.messages.items)
    ensures var t := Next(s, step);
            t.scope == s.scope && id in M.ById(t.messages.items) ==>
              var v, w := M.ById(s.messages.items)[id], M.ById(t.messages.items)[id];
              && w.id == v.id && w.target == v.target && w.action == v.action && w.text == v.text
              && MovesTo(v.state, w.state)
  {
    hide Inv, Next, StandingEvolves, M.ById, LedgerEvolves, Projection, Roles;
    NextEvolves(s, step);
    NextEnds(s, step);
    if s.ledger.current.Some? {
      CurrentRuns(s);
    }
  }

  lemma CurrentRuns(s: State)
    requires Inv(s) && s.ledger.current.Some?
    ensures s.ledger.current.value in M.ById(s.messages.items) && M.ById(s.messages.items)[s.ledger.current.value].state == Running
  {
    hide Inv, Sound, Linked, Projection, M.ById;
    SoundOf(s);
    LinkedOf(s);
    ProjectionOf(s);
    RunningState(s);
  }
}
