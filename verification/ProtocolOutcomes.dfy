/** Submission, the owner's decision, its delivery, and recovery keep the internal agreement. */
module ProtocolOutcomes {
  import opened ChatTypes
  import opened Wrappers
  import opened Transcript
  import opened Protocol
  import opened ProtocolInvariant
  import opened ProtocolSteps
  import M = Messages

  function Decided(p: Pending, outcome: Outcome): Option<Pending> {
    Some(p.(outcome := Some(outcome)))
  }

  // ------------------------------------------------------ receipts agree

  lemma AgreesReject(m: map<RequestId, MessageView>, queued: seq<Retained>, recoverable: seq<Retained>, p: Pending,
                     current: Option<RequestId>, task: Option<Task>, next: RequestId, reason: Reason)
    requires Agrees(m, queued, recoverable, Some(p), current, task, next) && p.outcome.None?
    ensures p.request.id in m
    ensures Agrees(m[p.request.id := M.Changed(m[p.request.id], Held, None, Some(reason))], queued, recoverable,
                   Decided(p, Rejected(reason)), current, task, next)
  {
    RolesReject(m, RetainedIds(queued), RetainedIds(recoverable), p, current, task, reason);
    hide RoleOk, RetainedIds;
    ShownAfterChange(m, queued, p.request.id, Held, None, Some(reason));
    ShownAfterChange(m, recoverable, p.request.id, Held, None, Some(reason));
  }

  lemma AgreesBegin(m: map<RequestId, MessageView>, queued: seq<Retained>, recoverable: seq<Retained>, p: Pending,
                    next: RequestId, task: Task)
    requires Agrees(m, queued, recoverable, Some(p), None, None, next) && p.outcome.None?
    ensures p.request.id in m
    ensures Agrees(m[p.request.id := M.Changed(m[p.request.id], Running, Some(task.ref), None)], queued, recoverable,
                   Decided(p, Accepted), Some(p.request.id), Some(task), next)
  {
    RolesBegin(m, RetainedIds(queued), RetainedIds(recoverable), p, task);
    hide RoleOk, RetainedIds;
    ShownAfterChange(m, queued, p.request.id, Running, Some(task.ref), None);
    ShownAfterChange(m, recoverable, p.request.id, Running, Some(task.ref), None);
  }

  lemma AgreesSteer(m: map<RequestId, MessageView>, queued: seq<Retained>, recoverable: seq<Retained>, p: Pending,
                    current: Option<RequestId>, task: Task, after: Task, next: RequestId)
    requires Agrees(m, queued, recoverable, Some(p), current, Some(task), next) && p.outcome.None? && after.ref.id == task.ref.id
    ensures p.request.id in m
    ensures Agrees(m[p.request.id := M.Changed(m[p.request.id], Acknowledged, None, None)], queued, recoverable,
                   Decided(p, Accepted), current, Some(after), next)
  {
    RolesSteer(m, RetainedIds(queued), RetainedIds(recoverable), p, current, task, after);
    hide RoleOk, RetainedIds;
    ShownAfterChange(m, queued, p.request.id, Acknowledged, None, None);
    ShownAfterChange(m, recoverable, p.request.id, Acknowledged, None, None);
  }

  lemma AgreesEnqueue(m: map<RequestId, MessageView>, queued: seq<Retained>, recoverable: seq<Retained>, p: Pending,
                      current: Option<RequestId>, task: Option<Task>, next: RequestId, reason: Reason)
    requires Agrees(m, queued, recoverable, Some(p), current, task, next) && p.outcome.None?
    ensures p.request.id in m && p.request.id !in RetainedIds(queued)
    ensures forall j :: 0 <= j < |queued| ==> queued[j].request.id.scope == next.scope && queued[j].request.id.sequence < next.sequence
    ensures Agrees(m[p.request.id := M.Changed(m[p.request.id], Queued, None, None)], queued + [Retained(p.request, reason)],
                   recoverable, Decided(p, Accepted), current, task, next)
  {
    var n := m[p.request.id := M.Changed(m[p.request.id], Queued, None, None)];
    RolesEnqueue(m, RetainedIds(queued), RetainedIds(recoverable), p, current, task);
    RetainedIdsPush(queued, Retained(p.request, reason));
    assert m[p.request.id].state == AwaitingOutcome;
    forall j | 0 <= j < |queued|
      ensures queued[j].request.id in m
    {
      assert queued[j] in queued;
    }
    hide RoleOk, RetainedIds;
    ShownAfterChange(m, queued, p.request.id, Queued, None, None);
    ShownAfterChange(m, recoverable, p.request.id, Queued, None, None);
    assert Shows(n[p.request.id], p.request);
  }

  // --------------------------------------------------------- ledger agrees

  lemma LedgerReject(l: Ledger, p: Pending, queued: seq<Retained>, recoverable: seq<Retained>, next: RequestId, reason: Reason)
    requires Ledgered(l, Some(p), queued, recoverable, next) && p.outcome.None?
    ensures Ledgered(l, Decided(p, Rejected(reason)), queued, recoverable, next)
  {
    hide IssuedInOrder, AppliedInOrder, FollowUpsInOrder, Requests;
  }

  lemma ApplyInOrder(applied: seq<RequestId>, id: RequestId, next: RequestId)
    requires AppliedInOrder(applied, id) && Before(id, next)
    ensures AppliedInOrder(applied + [id], next)
  {
  }

  lemma ConsumeInOrder(consumed: seq<Request>, queued: seq<Retained>, request: Request, next: RequestId)
    requires FollowUpsInOrder(consumed, queued, request.id) && Before(request.id, next) && request.action != Queue
    ensures FollowUpsInOrder(consumed + [request], queued, next)
  {
  }

  lemma EnqueueInOrder(consumed: seq<Request>, queued: seq<Retained>, request: Request, reason: Reason, next: RequestId)
    requires FollowUpsInOrder(consumed, queued, request.id) && Before(request.id, next) && request.action == Queue
    ensures FollowUpsInOrder(consumed, queued + [Retained(request, reason)], next)
  {
    assert forall i :: 0 <= i < |consumed| ==> Before(consumed[i].id, next);
  }

  lemma LedgerConsume(l: Ledger, p: Pending, queued: seq<Retained>, recoverable: seq<Retained>, next: RequestId,
                      current: Option<RequestId>)
    requires Ledgered(l, Some(p), queued, recoverable, next) && p.outcome.None? && p.request.action != Queue
    requires Before(p.request.id, next)
    ensures Ledgered(l.(consumed := l.consumed + [p.request], applied := l.applied + [p.request.id], current := current),
                     Decided(p, Accepted), queued, recoverable, next)
  {
    hide IssuedInOrder, AppliedInOrder, FollowUpsInOrder, Requests, Before;
    ApplyInOrder(l.applied, p.request.id, next);
    ConsumeInOrder(l.consumed, queued, p.request, next);
  }

  lemma LedgerEnqueue(l: Ledger, p: Pending, queued: seq<Retained>, recoverable: seq<Retained>, next: RequestId, reason: Reason)
    requires Ledgered(l, Some(p), queued, recoverable, next) && p.outcome.None? && p.request.action == Queue
    requires Before(p.request.id, next)
    ensures Ledgered(l.(applied := l.applied + [p.request.id]), Decided(p, Accepted),
                     queued + [Retained(p.request, reason)], recoverable, next)
  {
    hide IssuedInOrder, AppliedInOrder, FollowUpsInOrder, Requests, Before;
    ApplyInOrder(l.applied, p.request.id, next);
    EnqueueInOrder(l.consumed, queued, p.request, reason, next);
    RequestsPush(queued, Retained(p.request, reason));
  }

  // -------------------------------------------------- order and capacity

  lemma DecidedOrders(queued: seq<Retained>, recoverable: seq<Retained>, p: Pending, next: RequestId, outcome: Outcome)
    requires Ordered(queued, recoverable, Some(p), next) && p.outcome.None?
    ensures Ordered(queued, recoverable, Decided(p, outcome), next)
    ensures Protected(queued, recoverable, Decided(p, outcome)) == Protected(queued, recoverable, Some(p))
    ensures Before(p.request.id, next)
  {
    hide RetainedIds;
  }

  lemma EnqueueOrders(queued: seq<Retained>, recoverable: seq<Retained>, p: Pending, next: RequestId, reason: Reason)
    requires Ordered(queued, recoverable, Some(p), next) && p.outcome.None?
    requires p.request.id !in RetainedIds(queued)
    requires forall j :: 0 <= j < |queued| ==> queued[j].request.id.scope == next.scope && queued[j].request.id.sequence < next.sequence
    ensures var q := queued + [Retained(p.request, reason)];
            && Ordered(q, recoverable, Decided(p, Accepted), next)
            && Protected(q, recoverable, Decided(p, Accepted)) == Protected(queued, recoverable, Some(p))
  {
    RetainedIdsPush(queued, Retained(p.request, reason));
    forall j | 0 <= j < |queued|
      ensures queued[j].request.id.sequence < p.request.id.sequence
    {
      assert queued[j] in queued;
    }
  }

  // -------------------------------------------------------- the decision

  lemma RejectKeepsLinked(s: State, reason: Reason)
    requires Linked(s) && s.pending.Some? && s.pending.value.outcome.None?
    ensures Linked(Reject(s, reason))
  {
    hide Agrees, Ordered, Ledgered, TargetsOk, Protected, M.ById, M.Distinct, M.ChangeMessage, M.Changed, Append, NoteAppend;
    var p := s.pending.value;
    AgreesReject(M.ById(s.messages.items), s.queued, s.recoverable, p, s.ledger.current, s.task, NextId(s), reason);
    RelabelMap(s, p.request.id, Held, None, Some(reason));
    LedgerReject(s.ledger, p, s.queued, s.recoverable, NextId(s), reason);
    DecidedOrders(s.queued, s.recoverable, p, NextId(s), Rejected(reason));
  }

  /** The state after an accepted effect, with its outcome recorded. */
  function Applied(s: State): State
    requires s.pending.Some? && EffectRefusal(s, s.pending.value.request).None?
  {
    var request := s.pending.value.request;
    var done := Effect(s, request);
    Record(done.(ledger := done.ledger.(applied := done.ledger.applied + [request.id])), Accepted)
  }

  ghost predicate Ready(s: State) {
    && Linked(s) && s.pending.Some? && s.pending.value.outcome.None?
    && EffectRefusal(s, s.pending.value.request).None?
  }

  lemma BeginKeepsLinked(s: State)
    requires Ready(s) && s.pending.value.request.action == NewTurn && s.task.None?
    ensures Linked(Applied(s))
  {
    IdleHasNoCurrent(s);
    hide Agrees, Ordered, Ledgered, Protected, M.ById, M.Distinct, M.ChangeMessage, M.Changed, Append, NoteAppend, Before;
    var p := s.pending.value;
    AgreesBegin(M.ById(s.messages.items), s.queued, s.recoverable, p, NextId(s), StartedTask(s));
    RelabelMap(s, p.request.id, Running, Some(StartedTask(s).ref), None);
    DecidedOrders(s.queued, s.recoverable, p, NextId(s), Accepted);
    LedgerConsume(s.ledger, p, s.queued, s.recoverable, NextId(s), Some(p.request.id));
  }

  lemma SteerKeepsLinked(s: State)
    requires Ready(s) && s.pending.value.request.action == Steer
    ensures Linked(Applied(s))
  {
    hide Agrees, Ordered, Ledgered, Protected, M.ById, M.Distinct, M.ChangeMessage, M.Changed, Append, NoteAppend, Before;
    var p := s.pending.value;
    AgreesSteer(M.ById(s.messages.items), s.queued, s.recoverable, p, s.ledger.current, s.task.value, Applied(s).task.value, NextId(s));
    RelabelMap(s, p.request.id, Acknowledged, None, None);
    DecidedOrders(s.queued, s.recoverable, p, NextId(s), Accepted);
    LedgerConsume(s.ledger, p, s.queued, s.recoverable, NextId(s), s.ledger.current);
  }

  lemma EnqueueKeepsLinked(s: State)
    requires Ready(s) && s.pending.value.request.action == Queue
    ensures Linked(Applied(s))
  {
    hide Agrees, Ordered, Ledgered, TargetsOk, Protected, M.ById, M.Distinct, M.ChangeMessage, M.Changed, Append, NoteAppend, Before, RetainedIds;
    var p := s.pending.value;
    AgreesEnqueue(M.ById(s.messages.items), s.queued, s.recoverable, p, s.ledger.current, s.task, NextId(s), QueuedBehindTask);
    RelabelMap(s, p.request.id, Queued, None, None);
    DecidedOrders(s.queued, s.recoverable, p, NextId(s), Accepted);
    EnqueueOrders(s.queued, s.recoverable, p, NextId(s), QueuedBehindTask);
    LedgerEnqueue(s.ledger, p, s.queued, s.recoverable, NextId(s), QueuedBehindTask);
  }

  lemma FlagsKeepLinked(s: State, held: bool, armed: bool)
    requires Linked(s)
    ensures Linked(s.(deliveryHeld := held, rejectArmed := armed))
  {
    hide Projected, Ordered, Ledgered, TargetsOk, Protected;
  }

  lemma DecideKeepsLinked(s: State)
    requires Linked(s) && CanAccept(s)
    ensures Linked(Decide(s))
  {
    hide Linked, OwnerRefusal, Reject, Effect;
    FlagsKeepLinked(s, true, s.rejectArmed);
    FlagsKeepLinked(s, true, false);
    var held := s.(deliveryHeld := true);
    var request := s.pending.value.request;
    if OwnerRefusal(held, request).Some? {
      RejectKeepsLinked(held, Refused(OwnerRefusal(held, request).value));
    } else if s.rejectArmed {
      RejectKeepsLinked(held.(rejectArmed := false), FixtureRejected);
    } else if EffectRefusal(held, request).Some? {
      RejectKeepsLinked(held, Refused(EffectRefusal(held, request).value));
    } else {
      assert Decide(s) == Applied(held);
      AppliedKeepsLinked(held);
    }
  }

  lemma AppliedKeepsLinked(s: State)
    requires Ready(s) && OwnerRefusal(s, s.pending.value.request).None?
    ensures Linked(Applied(s))
  {
    hide Linked, Effect, ValidateCommand;
    match s.pending.value.request.action
    case NewTurn => BeginKeepsLinked(s);
    case Steer => SteerKeepsLinked(s);
    case Queue => EnqueueKeepsLinked(s);
  }
}
