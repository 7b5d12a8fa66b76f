/** What any later state of a run owes to an earlier one. */
module ProtocolEvolution {
  import opened ChatTypes
  import opened Wrappers
  import opened Transcript
  import opened Protocol
  import opened ProtocolInvariant
  import opened ProtocolSteps
  import opened ProtocolOutcomes
  import opened ProtocolRecovery
  import opened ProtocolSafety
  import M = Messages

  // -------------------------------------------------- receipts move forward

  /** The states a receipt may take later: from awaiting an outcome to running, acknowledged,
      queued or held; from queued to running or held; from running to an end. */
  predicate MayBecome(a: MessageState, b: MessageState) {
    || a == b
    || (a == AwaitingOutcome && b != UnknownOutcome)
    || (a == Queued && b in {Running, Held, Completed, Stopped, Failed})
    || (a == Running && b in {Completed, Stopped, Failed})
  }

  ghost predicate ViewEvolves(v: MessageView, w: MessageView) {
    && w.id == v.id && w.target == v.target && w.action == v.action && w.text == v.text
    && MayBecome(v.state, w.state)
  }

  /** A receipt that is still listed shows the same request in a later state, and a receipt that
      was pruned or discarded never comes back: what is new was issued later. */
  ghost predicate ReceiptsEvolve(m: map<RequestId, MessageView>, n: map<RequestId, MessageView>, next: u64) {
    forall id :: id in n ==> if id in m then ViewEvolves(m[id], n[id]) else id.sequence >= next
  }

  lemma ReceiptsTransitive(m: map<RequestId, MessageView>, n: map<RequestId, MessageView>, o: map<RequestId, MessageView>,
                           a: u64, b: u64)
    requires ReceiptsEvolve(m, n, a) && ReceiptsEvolve(n, o, b) && a <= b
    requires forall id :: id in m ==> id.sequence < a
    requires forall id :: id in n ==> id.sequence < b
    ensures ReceiptsEvolve(m, o, a)
  {
    forall id | id in o
      ensures if id in m then ViewEvolves(m[id], o[id]) else id.sequence >= a
    {
      if id in n {
        assert ViewEvolves(n[id], o[id]);
      }
    }
  }

  // ------------------------------------------------------ positions advance

  /** Where a state stands: connection, task and task revision, compared in that order. An idle
      state stands just before the next task. */
  datatype Position = Position(connection: int, task: int, revision: int)

  function PositionOf(s: State): Position {
    Position(s.connectionRevision,
             if s.task.Some? then s.task.value.ref.id else s.nextTask,
             if s.task.Some? then s.task.value.ref.revision else 0)
  }

  predicate NotAfter(a: Position, b: Position) {
    || a.connection < b.connection
    || (a.connection == b.connection && a.task < b.task)
    || (a.connection == b.connection && a.task == b.task && a.revision <= b.revision)
  }

  function OpenDecision(s: State): Option<Decision> {
    if s.task.Some? then s.task.value.decision else None
  }

  ghost predicate StandingEvolves(s: State, t: State) {
    && NotAfter(PositionOf(s), PositionOf(t))
    && (s.connectionRevision == t.connectionRevision ==> s.connected == t.connected)
    && (PositionOf(s) == PositionOf(t) && s.task.Some? ==> t.task.Some? && OpenDecision(s) == OpenDecision(t))
    && s.catalogue.revision <= t.catalogue.revision
    && s.nextRequest <= t.nextRequest
    && s.stream.published <= t.stream.published
  }

  ghost predicate LedgerEvolves(l: Ledger, k: Ledger) {
    l.issued <= k.issued && l.applied <= k.applied && l.consumed <= k.consumed && l.discarded <= k.discarded
  }

  ghost predicate SameGeneration(s: State, t: State) {
    && t.scope == s.scope
    && StandingEvolves(s, t)
    && ReceiptsEvolve(M.ById(s.messages.items), M.ById(t.messages.items), s.nextRequest)
  }

  /** Within a generation everything moves forward; a reset begins a later generation. The record
      of what was issued, applied, consumed and discarded only grows, across resets too. */
  ghost predicate Evolves(s: State, t: State) {
    && LedgerEvolves(s.ledger, t.ledger)
    && (SameGeneration(s, t) || s.scope.generation < t.scope.generation)
    && s.scope.generation <= t.scope.generation
  }

  lemma BelowNext(s: State)
    requires Projection(s)
    ensures forall id :: id in M.ById(s.messages.items) ==> id.sequence < s.nextRequest
  {
    hide Roles, Shown;
  }

  lemma StandingTransitive(s: State, t: State, u: State)
    requires StandingEvolves(s, t) && StandingEvolves(t, u)
    ensures StandingEvolves(s, u)
  {
  }

  lemma SameGenerationTransitive(s: State, t: State, u: State)
    requires Projection(s) && Projection(t)
    requires SameGeneration(s, t) && SameGeneration(t, u)
    ensures SameGeneration(s, u)
  {
    BelowNext(s);
    BelowNext(t);
    StandingTransitive(s, t, u);
    assert s.nextRequest <= t.nextRequest;
    hide Projected, StandingEvolves, M.ById, ReceiptsEvolve;
    ReceiptsTransitive(M.ById(s.messages.items), M.ById(t.messages.items), M.ById(u.messages.items), s.nextRequest, t.nextRequest);
  }

  lemma EvolvesTransitive(s: State, t: State, u: State)
    requires Projection(s) && Projection(t)
    requires Evolves(s, t) && Evolves(t, u)
    ensures Evolves(s, u)
  {
    if SameGeneration(s, t) && SameGeneration(t, u) {
      SameGenerationTransitive(s, t, u);
    }
    hide StandingEvolves, ReceiptsEvolve, M.ById, Projected;
  }

  /** No change of receipts, only of the standing. */
  lemma SameReceipts(s: State, t: State)
    requires t.messages.items == s.messages.items
    ensures ReceiptsEvolve(M.ById(s.messages.items), M.ById(t.messages.items), s.nextRequest)
  {
  }

  lemma EvolvesReflexive(s: State)
    ensures Evolves(s, s)
  {
    SameReceipts(s, s);
    hide M.ById, ReceiptsEvolve;
  }

  // ------------------------------------------------------------ the pieces

  /** One receipt changed state. */
  lemma RelabelEvolves(m: map<RequestId, MessageView>, id: RequestId, state: MessageState, execution: Option<TaskRef>,
                       reason: Option<Reason>, next: u64)
    requires id in m && MayBecome(m[id].state, state)
    ensures ReceiptsEvolve(m, m[id := M.Changed(m[id], state, execution, reason)], next)
  {
    hide MayBecome;
    assert forall v: MessageView :: MayBecome(v.state, v.state) by {
      SelfMove();
    }
  }

  lemma SelfMove()
    ensures forall a: MessageState :: MayBecome(a, a)
  {
  }

  lemma RefreshEvolves(s: State)
    requires Linked(s)
    ensures Evolves(s, Refresh(s))
  {
    M.PruneLookups(s.messages.items, PendingId(s));
    RefreshFrame(s);
    SelfMove();
    hide M.ById, M.Prune, M.PrunableCount, M.Distinct, MayBecome, Linked;
  }

  lemma EmitEvolves(s: State, e: Entry)
    ensures Evolves(s, Emit(s, e))
  {
    SameReceipts(s, Emit(s, e));
    hide M.ById, ReceiptsEvolve, Append;
  }

  lemma FinishTurnEvolves(s: State, state: MessageState, reason: Option<Reason>)
    requires Linked(s) && s.task.Some? && state in {Completed, Stopped, Failed}
    ensures Evolves(s, FinishTurn(s, state, reason))
  {
    hide M.ById, M.ChangeMessage, M.Distinct, Agrees, RunningPosition, Ordered, Ledgered, Protected, ReceiptsEvolve;
    RunningIsCurrent(s);
    var at := RunningPosition(s.messages.items, s.task.value.ref.id);
    var id := s.ledger.current.value;
    RunningState(s);
    RelabelMap(s, id, state, s.messages.items[at].execution, reason);
    RelabelEvolves(M.ById(s.messages.items), id, state, s.messages.items[at].execution, reason, s.nextRequest);
  }

  lemma RunningState(s: State)
    requires Projection(s) && s.ledger.current.Some?
    ensures s.ledger.current.value in M.ById(s.messages.items)
    ensures M.ById(s.messages.items)[s.ledger.current.value].state == Running
  {
    hide Shown, RetainedIds, M.ById;
  }

  lemma QueuedState(s: State, i: nat)
    requires Projection(s) && i < |s.queued|
    ensures s.queued[i].request.id in M.ById(s.messages.items)
    ensures M.ById(s.messages.items)[s.queued[i].request.id].state == Queued
  {
    assert s.queued[i] in s.queued && s.queued[i].request.id in RetainedIds(s.queued);
    hide Shown, RetainedIds, M.ById;
  }

  lemma PendingState(s: State)
    requires Projection(s) && s.pending.Some? && s.pending.value.outcome.None?
    ensures s.pending.value.request.id in M.ById(s.messages.items)
    ensures M.ById(s.messages.items)[s.pending.value.request.id].state == AwaitingOutcome
  {
    hide Shown, RetainedIds, M.ById;
  }

  lemma HoldAtEvolves(s: State, i: nat, reason: Reason)
    requires Linked(s) && i < |s.queued|
    ensures Evolves(s, HoldAt(s, i, reason))
  {
    hide M.ById, M.ChangeMessage, M.Distinct, Agrees, Ordered, Ledgered, Protected, TargetsOk, ReceiptsEvolve;
    var id := s.queued[i].request.id;
    QueuedState(s, i);
    RelabelMap(s, id, Held, None, Some(reason));
    RelabelEvolves(M.ById(s.messages.items), id, Held, None, Some(reason), s.nextRequest);
  }

  lemma ProjectionOf(s: State)
    requires Linked(s)
    ensures Projection(s)
  {
    hide Projected, Ordered, Ledgered, Protected, TargetsOk;
  }

  lemma {:induction false} HoldFromEvolves(s: State, i: nat, filter: Filter, reason: Reason)
    requires Linked(s) && i <= |s.queued|
    ensures Evolves(s, HoldFrom(s, i, filter, reason))
    decreases |s.queued| - i
  {
    hide Linked, Evolves, HoldAt, Selected, Projection;
    if i == |s.queued| {
      EvolvesReflexive(s);
    } else if Selected(filter, s.queued[i].request) {
      var u := HoldAt(s, i, reason);
      HoldAtEvolves(s, i, reason);
      HoldAtKeepsLinked(s, i, reason);
      HoldAtShortens(s, i, reason);
      HoldFromEvolves(u, i, filter, reason);
      ProjectionOf(s);
      ProjectionOf(u);
      EvolvesTransitive(s, u, HoldFrom(u, i, filter, reason));
    } else {
      HoldFromEvolves(s, i + 1, filter, reason);
    }
  }

  lemma HoldAtShortens(s: State, i: nat, reason: Reason)
    requires i < |s.queued|
    ensures |HoldAt(s, i, reason).queued| == |s.queued| - 1
  {
    hide M.ChangeMessage;
  }

  lemma StartNextEvolves(s: State)
    requires Linked(s) && s.task.None? && s.queued != [] && s.nextTask < U64_MAX
    ensures Evolves(s, StartNext(s))
  {
    hide M.ById, M.ChangeMessage, M.Distinct, Agrees, Ordered, Ledgered, Protected, TargetsOk, ReceiptsEvolve, Append;
    var id := s.queued[0].request.id;
    var ref := StartedTask(s).ref;
    QueuedState(s, 0);
    RelabelMap(s, id, Running, Some(ref), None);
    RelabelEvolves(M.ById(s.messages.items), id, Running, Some(ref), None, s.nextRequest);
  }

  lemma RejectEvolves(s: State, reason: Reason)
    requires Linked(s) && s.pending.Some? && s.pending.value.outcome.None?
    ensures Evolves(s, Reject(s, reason))
  {
    hide M.ById, M.ChangeMessage, M.Distinct, Agrees, Ordered, Ledgered, Protected, TargetsOk, ReceiptsEvolve, Append;
    var id := s.pending.value.request.id;
    PendingState(s);
    RelabelMap(s, id, Held, None, Some(reason));
    RelabelEvolves(M.ById(s.messages.items), id, Held, None, Some(reason), s.nextRequest);
  }

  lemma TurnEvolves(s: State)
    requires Ready(s) && OwnerRefusal(s, s.pending.value.request).None? && s.pending.value.request.action == NewTurn
    ensures Evolves(s, Applied(s))
  {
    hide M.ById, M.ChangeMessage, M.Distinct, Agrees, Ordered, Ledgered, Protected, TargetsOk, ReceiptsEvolve, Append, ValidateCommand;
    var id := s.pending.value.request.id;
    PendingState(s);
    RelabelMap(s, id, Running, Some(StartedTask(s).ref), None);
    RelabelEvolves(M.ById(s.messages.items), id, Running, Some(StartedTask(s).ref), None, s.nextRequest);
  }

  lemma SteeringEvolves(s: State)
    requires Ready(s) && OwnerRefusal(s, s.pending.value.request).None? && s.pending.value.request.action == Steer
    ensures Evolves(s, Applied(s))
  {
    hide M.ById, M.ChangeMessage, M.Distinct, Agrees, Ordered, Ledgered, Protected, TargetsOk, ReceiptsEvolve, Append, ValidateCommand;
    var id := s.pending.value.request.id;
    PendingState(s);
    RelabelMap(s, id, Acknowledged, None, None);
    RelabelEvolves(M.ById(s.messages.items), id, Acknowledged, None, None, s.nextRequest);
  }

  lemma QueueingEvolves(s: State)
    requires Ready(s) && OwnerRefusal(s, s.pending.value.request).None? && s.pending.value.request.action == Queue
    ensures Evolves(s, Applied(s))
  {
    hide M.ById, M.ChangeMessage, M.Distinct, Agrees, Ordered, Ledgered, Protected, TargetsOk, ReceiptsEvolve, Append, ValidateCommand;
    var id := s.pending.value.request.id;
    PendingState(s);
    RelabelMap(s, id, Queued, None, None);
    RelabelEvolves(M.ById(s.messages.items), id, Queued, None, None, s.nextRequest);
  }

  lemma AppliedEvolves(s: State)
    requires Ready(s) && OwnerRefusal(s, s.pending.value.request).None?
    ensures Evolves(s, Applied(s))
  {
    hide Evolves, Applied, OwnerRefusal, Linked;
    match s.pending.value.request.action
    case NewTurn => TurnEvolves(s);
    case Steer => SteeringEvolves(s);
    case Queue => QueueingEvolves(s);
  }

  /** A change of flags, lists and clock that touches no receipt, target, record or stream. */
  lemma PlainEvolves(s: State, t: State)
    requires t.messages.items == s.messages.items && t.scope == s.scope && t.ledger == s.ledger
    requires t.task == s.task && t.connectionRevision == s.connectionRevision && t.connected == s.connected
    requires t.nextTask == s.nextTask && t.nextRequest == s.nextRequest
    requires s.catalogue.revision <= t.catalogue.revision && s.stream.published <= t.stream.published
    ensures Evolves(s, t)
  {
    SameReceipts(s, t);
    hide M.ById, ReceiptsEvolve;
  }

  lemma DecideEvolves(s: State)
    requires Linked(s) && CanAccept(s)
    ensures Evolves(s, Decide(s))
  {
    hide Linked, OwnerRefusal, Reject, Effect, Evolves, Projection;
    FlagsKeepLinked(s, true, s.rejectArmed);
    FlagsKeepLinked(s, true, false);
    ProjectionOf(s);
    var held := s.(deliveryHeld := true);
    ProjectionOf(held);
    PlainEvolves(s, held);
    var request := s.pending.value.request;
    if OwnerRefusal(held, request).Some? {
      RejectEvolves(held, Refused(OwnerRefusal(held, request).value));
    } else if s.rejectArmed {
      var unarmed := held.(rejectArmed := false);
      PlainEvolves(held, unarmed);
      ProjectionOf(unarmed);
      RejectEvolves(unarmed, FixtureRejected);
      EvolvesTransitive(held, unarmed, Decide(s));
    } else if EffectRefusal(held, request).Some? {
      RejectEvolves(held, Refused(EffectRefusal(held, request).value));
    } else {
      assert Decide(s) == Applied(held);
      AppliedEvolves(held);
    }
    EvolvesTransitive(s, held, Decide(s));
  }

  // ------------------------------------------------------- the operations

  /** Evolution along a chain of two, with the middle state linked. */
  lemma Chain(s: State, t: State, u: State)
    requires Linked(s) && Linked(t) && Evolves(s, t) && Evolves(t, u)
    ensures Evolves(s, u)
  {
    hide Linked, Evolves, Projection;
    ProjectionOf(s);
    ProjectionOf(t);
    EvolvesTransitive(s, t, u);
  }

  lemma LinkedOf(s: State)
    requires Sound(s)
    ensures Linked(s)
  {
    hide Linked, DeliveredOk, Sourced, DisplayOk;
  }

  lemma NowEvolves(s: State, now: u64)
    ensures Evolves(s, s.(nowMs := now))
  {
    hide Evolves;
    PlainEvolves(s, s.(nowMs := now));
  }

  lemma AcceptEvolves(s: State, nowMs: u64)
    requires Sound(s)
    ensures Evolves(s, Accept(s, nowMs))
  {
    hide Sound, Linked, Evolves, Decide, Refresh;
    var timed := s.(nowMs := Later(s.nowMs, nowMs));
    NowEvolves(s, timed.nowMs);
    NowKeepsSound(s, timed.nowMs);
    LinkedOf(s);
    LinkedOf(timed);
    if CanAccept(timed) {
      DecideEvolves(timed);
      DecideKeepsLinked(timed);
      Chain(s, timed, Decide(timed));
      RefreshEvolves(Decide(timed));
      Chain(s, Decide(timed), Accept(s, nowMs));
    }
  }

  lemma ResolveEvolves(s: State)
    requires s.pending.Some? && s.pending.value.outcome.Some?
    ensures Evolves(s, Resolve(s))
  {
    hide Evolves, Resolve;
    ResolveShape(s);
    PlainEvolves(s, Resolve(s));
  }

  lemma DeliverEvolves(s: State)
    requires Linked(s)
    ensures Evolves(s, Deliver(s))
  {
    hide Linked, Evolves, Refresh, Flush;
    if s.connected && s.pending.None? {
      var flushed := s.(deliveryHeld := false, display := Flush(s.display), stream := NoteFlush(s.stream, s.display));
      PlainEvolves(s, flushed);
      FlagAndDisplayKeepLinked(s, false, flushed.display, flushed.stream);
      RefreshEvolves(flushed);
      Chain(s, flushed, Refresh(flushed));
    } else {
      EvolvesReflexive(s);
    }
  }

  lemma AcknowledgeEvolves(s: State, id: RequestId)
    requires Sound(s) && Waiting(s)
    ensures Evolves(s, Acknowledge(s, id))
  {
    hide Sound, Linked, Evolves, Accept, Resolve, Deliver, Waiting;
    if CanAcknowledge(s, id) {
      var accepted := Accept(s, s.nowMs);
      AcceptEvolves(s, s.nowMs);
      if CanAccept(s) {
        AcceptKeepsSound(s, s.nowMs);
      } else {
        AcceptRepeated(s);
      }
      LinkedOf(s);
      LinkedOf(accepted);
      if accepted.pending.Some? && accepted.pending.value.outcome.Some? {
        ResolveEvolves(accepted);
        ResolveKeepsLinked(accepted);
        DeliverEvolves(Resolve(accepted));
        Chain(s, accepted, Resolve(accepted));
        Chain(s, Resolve(accepted), Deliver(Resolve(accepted)));
      }
    } else {
      EvolvesReflexive(s);
    }
  }

  lemma CompleteEvolves(s: State, nowMs: u64)
    requires Sound(s)
    ensures Evolves(s, Complete(s, nowMs))
  {
    hide Sound, Linked, Evolves, FinishTurn, Emit, StartNext, HoldFrom, Refresh;
    var timed := s.(nowMs := Later(s.nowMs, nowMs));
    NowEvolves(s, timed.nowMs);
    NowKeepsSound(s, timed.nowMs);
    LinkedOf(s);
    LinkedOf(timed);
    if timed.task.Some? {
      var finished := FinishTurn(timed, Completed, None);
      FinishTurnEvolves(timed, Completed, None);
      FinishTurnKeepsLinked(timed, Completed, None);
      FinishShape(timed, Completed, None);
      Chain(s, timed, finished);
      var ended := Emit(finished, Notice(TaskCompleted));
      EmitEvolves(finished, Notice(TaskCompleted));
      EmitKeepsLinked(finished, Notice(TaskCompleted));
      EmitShape(finished, Notice(TaskCompleted));
      Chain(s, finished, ended);
      if ended.queued == [] {
        RefreshEvolves(ended);
        Chain(s, ended, Refresh(ended));
      } else if ended.nextTask < U64_MAX {
        StartNextEvolves(ended);
        StartNextKeepsLinked(ended);
        Chain(s, ended, StartNext(ended));
        RefreshEvolves(StartNext(ended));
        Chain(s, StartNext(ended), Refresh(StartNext(ended)));
      } else {
        var held := HoldFrom(ended, 0, Everything, Refused(IdentityExhausted));
        HoldFromEvolves(ended, 0, Everything, Refused(IdentityExhausted));
        HoldFromKeepsLinked(ended, 0, Everything, Refused(IdentityExhausted));
        Chain(s, ended, held);
        RefreshEvolves(held);
        Chain(s, held, Refresh(held));
      }
    }
  }

  lemma EndUnsuccessfullyEvolves(s: State, state: MessageState, reason: Reason)
    requires Sound(s) && state in {Stopped, Failed}
    ensures Evolves(s, EndUnsuccessfully(s, state, reason))
  {
    hide Sound, Linked, Evolves, FinishTurn, Emit, HoldFrom, Refresh;
    LinkedOf(s);
    if s.task.Some? {
      var finished := FinishTurn(s, state, Some(reason));
      FinishTurnEvolves(s, state, Some(reason));
      FinishTurnKeepsLinked(s, state, Some(reason));
      var held := HoldFrom(finished, 0, Everything, reason);
      HoldFromEvolves(finished, 0, Everything, reason);
      HoldFromKeepsLinked(finished, 0, Everything, reason);
      Chain(s, finished, held);
      var told := Emit(held, Notice(EndedLine(reason)));
      EmitEvolves(held, Notice(EndedLine(reason)));
      EmitKeepsLinked(held, Notice(EndedLine(reason)));
      Chain(s, held, told);
      RefreshEvolves(told);
      Chain(s, told, Refresh(told));
    } else {
      EvolvesReflexive(s);
    }
  }

  lemma SubmitEvolves(s: State, target: Target, action: Action, draftRevision: u64, text: string, nowMs: u64,
                      command: Option<CommandCapture>)
    requires Sound(s)
    ensures Evolves(s, Submit(s, target, action, draftRevision, text, nowMs, command))
  {
    hide Sound, Linked, Evolves, Refresh, SubmitRefusal, ProtectedCount, Entered;
    LinkedOf(s);
    if SubmitRefusal(s, target, action, text).None? {
      var request, view := SubmitIsEntered(s, target, action, draftRevision, text, nowMs, command);
      var entered := Entered(s, request, view, Later(s.nowMs, nowMs));
      EnteredKeepsLinked(s, request, view, Later(s.nowMs, nowMs));
      EnteredEvolves(s, request, view, Later(s.nowMs, nowMs));
      RefreshEvolves(entered);
      Chain(s, entered, Refresh(entered));
    } else {
      EvolvesReflexive(s);
    }
  }

  lemma EnteredMap(s: State, view: MessageView)
    requires Linked(s) && view.id == NextId(s)
    ensures view.id !in M.ById(s.messages.items) && M.ById(s.messages.items + [view]) == M.ById(s.messages.items)[view.id := view]
  {
    hide Linked, M.ById, M.Distinct, M.Ids;
    ProjectionOf(s);
    BelowNext(s);
    DistinctItems(s);
    NotInIds(s.messages.items, NextId(s));
    M.PushLookups(s.messages.items, view);
  }

  lemma DistinctItems(s: State)
    requires Projection(s)
    ensures M.Distinct(s.messages.items)
  {
    hide Roles, Shown, M.ById, M.Distinct;
  }

  lemma EnteredEvolves(s: State, request: Request, view: MessageView, now: u64)
    requires Linked(s) && s.nextRequest < U64_MAX && view.id == NextId(s)
    ensures Evolves(s, Entered(s, request, view, now))
  {
    hide M.ById, Linked, MayBecome;
    EnteredMap(s, view);
    SelfMove();
  }

  /** Changing the task forward, or carrying its decision to a new connection. */
  lemma RetaskEvolves(s: State, t: State)
    requires t == s.(task := t.task, nextDecision := t.nextDecision)
    requires s.task.Some? && t.task.Some? && t.task.value.ref.id == s.task.value.ref.id
    requires s.task.value.ref.revision < t.task.value.ref.revision
             || (s.task.value.ref.revision == t.task.value.ref.revision && s.task.value.decision == t.task.value.decision)
    ensures Evolves(s, t)
  {
    SameReceipts(s, t);
    hide M.ById, ReceiptsEvolve;
  }

  lemma ToggleDecisionEvolves(s: State)
    requires Sound(s)
    ensures Evolves(s, ToggleDecision(s))
  {
    hide Evolves, Emit, Linked, DeliveredOk, Sourced, DisplayOk;
    if CanToggleDecision(s) {
      TargetsOfLinked(s);
      var raising := s.task.value.decision.None?;
      var bumped := BumpRevision(s);
      var after := bumped.task.value.(decision := if raising then Some(Decision(s.nextDecision, CurrentTarget(bumped))) else None);
      var t := s.(task := Some(after), nextDecision := if raising then s.nextDecision + 1 else s.nextDecision);
      RetaskEvolves(s, t);
      RetaskKeepsLinked(s, after, t.nextDecision);
      EmitEvolves(t, Notice(if raising then DecisionRaised else DecisionExpired));
      Chain(s, t, ToggleDecision(s));
    } else {
      EvolvesReflexive(s);
    }
  }

  lemma TargetsOfLinked(s: State)
    requires Linked(s)
    ensures Targets(s)
  {
    hide Projected, Ordered, Ledgered, Protected;
  }

  lemma RespondEvolves(s: State, target: Target, id: u64, answer: DecisionAction)
    requires Sound(s)
    ensures Evolves(s, Respond(s, target, id, answer))
  {
    hide Evolves, Emit, Linked, DeliveredOk, Sourced, DisplayOk, EndUnsuccessfully;
    if RespondRefusal(s, target, id, answer).None? {
      match answer
      case Continue =>
        TargetsOfLinked(s);
        var after := BumpRevision(s).task.value.(decision := None);
        var t := s.(task := Some(after));
        RetaskEvolves(s, t);
        RetaskKeepsLinked(s, after, s.nextDecision);
        EmitEvolves(t, Notice(DecisionAnswered));
        Chain(s, t, Respond(s, target, id, answer));
      case Stop => EndUnsuccessfullyEvolves(s, Stopped, WorkStopped);
    } else {
      EvolvesReflexive(s);
    }
  }

  lemma SwitchEvolves(s: State, connected: bool)
    requires s.connectionRevision < U64_MAX
    ensures Evolves(s, Switch(s, connected))
  {
    SwitchShape(s, connected);
    SameReceipts(s, Switch(s, connected));
    hide M.ById, ReceiptsEvolve, Append;
  }

  lemma SetConnectedEvolves(s: State, connected: bool)
    requires Inv(s)
    ensures Evolves(s, SetConnected(s, connected))
  {
    hide Inv, Sound, Linked, Evolves, Switch, Acknowledge, Deliver, Waiting;
    SoundOf(s);
    LinkedOf(s);
    if CanSetConnected(s, connected) {
      var switched := Switch(s, connected);
      SwitchEvolves(s, connected);
      if connected {
        SwitchKeepsSound(s, true);
        LinkedOf(switched);
        SwitchShape(s, true);
        var acked := AcknowledgePending(switched);
        if switched.pending.Some? {
          AcknowledgeEvolves(switched, switched.pending.value.request.id);
          AcknowledgeRestores(switched);
          SoundOf(acked);
          LinkedOf(acked);
          Chain(s, switched, acked);
        }
        DeliverEvolves(acked);
        Chain(s, acked, Deliver(acked));
      }
    } else {
      EvolvesReflexive(s);
    }
  }

  lemma DiscardEvolves(s: State, id: RequestId)
    requires Inv(s)
    ensures Evolves(s, Discard(s, id))
  {
    hide Inv, Sound, Linked, Evolves, Refresh, RetainedPosition, DropId, RetainedIds, Waiting;
    SoundOf(s);
    LinkedOf(s);
    if CanDiscard(s, id) {
      var at := RetainedPosition(s.recoverable, id);
      var dropped := Dropped(s, at);
      DroppedKeepsLinked(s, at);
      DroppedEvolves(s, at);
      RefreshEvolves(dropped);
      Chain(s, dropped, Refresh(dropped));
    } else {
      EvolvesReflexive(s);
    }
  }

  lemma RemovalEvolves(items: seq<MessageView>, id: RequestId, next: u64)
    requires M.Distinct(items)
    ensures ReceiptsEvolve(M.ById(items), M.ById(DropId(items, id)), next)
  {
    SelfMove();
    hide M.ById, M.Distinct, M.Ids, M.Without, DropId, MayBecome;
    DropIdIsWithout(items, id);
    if id in M.Ids(items) {
      M.WithoutLookups(items, M.Position(items, id));
    }
  }

  lemma DroppedEvolves(s: State, at: nat)
    requires Linked(s) && at < |s.recoverable|
    ensures Evolves(s, Dropped(s, at))
  {
    hide M.ById, M.Distinct, DropId, ReceiptsEvolve, Agrees, Ordered, Ledgered, Protected, TargetsOk;
    RemovalEvolves(s.messages.items, s.recoverable[at].request.id, s.nextRequest);
  }

  lemma HoldCommandsEvolves(s: State, catalogue: Catalogue, filter: Filter)
    requires Linked(s) && s.catalogue.revision <= catalogue.revision
    ensures Evolves(s, Refresh(HoldFrom(s.(catalogue := catalogue), 0, filter, SourceUnavailable)))
  {
    hide Linked, Evolves, HoldFrom, Refresh;
    var changed := s.(catalogue := catalogue);
    CatalogueKeepsLinked(s, catalogue);
    PlainEvolves(s, changed);
    var held := HoldFrom(changed, 0, filter, SourceUnavailable);
    HoldFromEvolves(changed, 0, filter, SourceUnavailable);
    HoldFromKeepsLinked(changed, 0, filter, SourceUnavailable);
    Chain(s, changed, held);
    RefreshEvolves(held);
    Chain(s, held, Refresh(held));
  }

  lemma ChangeSourcesEvolves(s: State, available: bool)
    requires Linked(s)
    ensures Evolves(s, ChangeSources(s, available))
  {
    hide Linked, Evolves, HoldFrom, Refresh;
    if CanChangeSources(s) {
      var c := s.catalogue;
      var changed := Catalogue(c.revision + 1, c.complete, Moved(c.core, available), Moved(c.checks, available),
                               Moved(c.other, available), Moved(c.skill, available));
      if available {
        PlainEvolves(s, s.(catalogue := changed));
      } else {
        HoldCommandsEvolves(s, changed, AnyCommand);
      }
    } else {
      EvolvesReflexive(s);
    }
  }

  lemma ReplaceSourceEvolves(s: State, source: Source, available: bool)
    requires Linked(s)
    ensures Evolves(s, ReplaceSource(s, source, available))
  {
    hide Linked, Evolves, HoldFrom, Refresh;
    if CanReplaceSource(s, source) {
      var moved := Moved(SourceOf(s.catalogue, source), available);
      var changed := WithSource(s.catalogue, source, moved).(revision := s.catalogue.revision + 1);
      if available {
        PlainEvolves(s, s.(catalogue := changed));
      } else {
        HoldCommandsEvolves(s, changed, CommandFrom(source));
      }
    } else {
      EvolvesReflexive(s);
    }
  }

  lemma AdvanceEvolves(s: State, nowMs: u64)
    requires Inv(s)
    ensures Evolves(s, Advance(s, nowMs))
  {
    hide Inv, Sound, Linked, Evolves, Acknowledge, Complete, Waiting;
    var timed := s.(nowMs := Later(s.nowMs, nowMs));
    NowEvolves(s, timed.nowMs);
    NowKeepsInv(s, timed.nowMs);
    SoundOf(s);
    SoundOf(timed);
    LinkedOf(s);
    LinkedOf(timed);
    var acked := if AcknowledgementDue(timed) then AcknowledgePending(timed) else timed;
    if acked != timed {
      AcknowledgeEvolves(timed, timed.pending.value.request.id);
      AcknowledgeKeepsInv(timed, timed.pending.value.request.id);
      SoundOf(acked);
      LinkedOf(acked);
      Chain(s, timed, acked);
    }
    if TaskDue(acked) {
      CompleteEvolves(acked, acked.nowMs);
      Chain(s, acked, Complete(acked, acked.nowMs));
    } else if ProgressDue(acked) {
      RetaskEvolves(acked, Advance(s, nowMs));
      Chain(s, acked, Advance(s, nowMs));
    }
  }

  lemma ResetEvolves(s: State)
    ensures Evolves(s, Reset(s))
  {
    if s.scope.generation == U64_MAX {
      EvolvesReflexive(s);
    }
    hide SameGeneration, Requests;
  }

  lemma LoseAcknowledgementEvolves(s: State, nowMs: u64)
    requires Inv(s)
    ensures Evolves(s, LoseAcknowledgement(s, nowMs))
  {
    hide Inv, Sound, Linked, Evolves, Accept, SetConnected, Waiting;
    if s.connected && s.pending.Some? {
      SoundOf(s);
      LinkedOf(s);
      var accepted := Accept(s, nowMs);
      AcceptEvolves(s, nowMs);
      AcceptKeepsInv(s, nowMs);
      SoundOf(accepted);
      LinkedOf(accepted);
      SetConnectedEvolves(accepted, false);
      Chain(s, accepted, SetConnected(accepted, false));
    } else {
      EvolvesReflexive(s);
    }
  }

  /** One operation moves everything forward. */
  lemma NextEvolves(s: State, step: Step)
    requires Inv(s)
    ensures Evolves(s, Next(s, step))
  {
    hide Inv, Sound, Linked, Waiting, Evolves, Submit, Accept, Acknowledge, LoseAcknowledgement, Advance, Complete, EndUnsuccessfully,
      ToggleDecision, Respond, SetConnected, Discard, Reset, ChangeSources, ReplaceSource, CommandRefusal;
    SoundOf(s);
    LinkedOf(s);
    EvolvesReflexive(s);
    match step
    case DoSubmit(target, action, draftRevision, text, nowMs) => SubmitEvolves(s, target, action, draftRevision, text, nowMs, None);
    case DoSubmitCommand(capture, raw, nowMs) =>
      SubmitEvolves(s, capture.target, capture.action, capture.draftRevision, raw, nowMs, Some(capture));
    case DoAccept(nowMs) => AcceptEvolves(s, nowMs);
    case DoAcknowledge(id) => AcknowledgeEvolves(s, id);
    case DoLoseAcknowledgement(nowMs) => LoseAcknowledgementEvolves(s, nowMs);
    case DoAdvance(nowMs) => AdvanceEvolves(s, nowMs);
    case DoComplete(nowMs) => CompleteEvolves(s, nowMs);
    case DoStop => EndUnsuccessfullyEvolves(s, Stopped, WorkStopped);
    case DoFail => EndUnsuccessfullyEvolves(s, Failed, WorkFailed);
    case DoToggleDecision => ToggleDecisionEvolves(s);
    case DoRespond(target, decision, answer) => RespondEvolves(s, target, decision, answer);
    case DoSetConnected(connected) => SetConnectedEvolves(s, connected);
    case DoRejectNext => PlainEvolves(s, Next(s, step));
    case DoDiscard(id) => DiscardEvolves(s, id);
    case DoReset => ResetEvolves(s);
    case DoChangeSources(available) => ChangeSourcesEvolves(s, available);
    case DoReplaceSource(source, available) => ReplaceSourceEvolves(s, source, available);
    case DoSetCatalogueComplete(complete) => PlainEvolves(s, Next(s, step));
  }

  /** Any run moves everything forward. */
  lemma {:induction false} RunEvolves(s: State, steps: seq<Step>)
    requires Inv(s)
    ensures Evolves(s, Run(s, steps))
    decreases |steps|
  {
    hide Inv, Sound, Linked, Waiting, Evolves, Next;
    if steps == [] {
      EvolvesReflexive(s);
    } else {
      var t := Next(s, steps[0]);
      NextEvolves(s, steps[0]);
      NextKeepsInv(s, steps[0]);
      RunEvolves(t, steps[1..]);
      SoundOf(s);
      SoundOf(t);
      LinkedOf(s);
      LinkedOf(t);
      Chain(s, t, Run(s, steps));
    }
  }
}
