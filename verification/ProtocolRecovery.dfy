/** Submission, acknowledgement, discard and target changes keep the internal agreement. */
module ProtocolRecovery {
  import opened ChatTypes
  import opened Wrappers
  import opened Transcript
  import opened Protocol
  import opened ProtocolInvariant
  import opened ProtocolSteps
  import opened ProtocolOutcomes
  import M = Messages

  // ----------------------------------------------------------- submission

  /** A submission before the receipts are refreshed. */
  function Entered(s: State, request: Request, view: MessageView, now: u64): State
    requires s.nextRequest < U64_MAX
  {
    s.(nextRequest := s.nextRequest + 1,
       nowMs := now,
       messages := s.messages.(items := s.messages.items + [view]),
       pending := Some(Pending(request, false, SaturatingAdd(now, ACCEPTANCE_MS), None)),
       ledger := s.ledger.(issued := s.ledger.issued + [request]))
  }

  lemma AgreesSubmit(m: map<RequestId, MessageView>, queued: seq<Retained>, recoverable: seq<Retained>,
                     current: Option<RequestId>, task: Option<Task>, next: RequestId, p: Pending, v: MessageView)
    requires Agrees(m, queued, recoverable, None, current, task, next) && next.sequence < U64_MAX
    requires p.outcome.None? && p.request.id == next && v.state == AwaitingOutcome && Shows(v, p.request)
    ensures next !in m
    ensures Agrees(m[next := v], queued, recoverable, Some(p), current, task, next.(sequence := next.sequence + 1))
    ensures next !in RetainedIds(queued) && next !in RetainedIds(recoverable)
  {
    RolesSubmit(m, RetainedIds(queued), RetainedIds(recoverable), current, task, p, v);
    forall r | r in queued || r in recoverable
      ensures r.request.id != next
    {
      assert r.request.id in m;
    }
  }

  lemma LedgerSubmit(l: Ledger, queued: seq<Retained>, recoverable: seq<Retained>, next: RequestId, p: Pending)
    requires Ledgered(l, None, queued, recoverable, next) && next.sequence < U64_MAX
    requires p.outcome.None? && p.request.id == next
    ensures Ledgered(l.(issued := l.issued + [p.request]), Some(p), queued, recoverable, next.(sequence := next.sequence + 1))
  {
    hide AppliedInOrder, FollowUpsInOrder, Requests;
    IssueInOrder(l.issued, p.request, next);
  }

  lemma IssueInOrder(issued: seq<Request>, request: Request, next: RequestId)
    requires IssuedInOrder(issued, next) && request.id == next && next.sequence < U64_MAX
    ensures IssuedInOrder(issued + [request], next.(sequence := next.sequence + 1))
  {
  }

  lemma SubmitOrders(queued: seq<Retained>, recoverable: seq<Retained>, next: RequestId, p: Pending)
    requires Ordered(queued, recoverable, None, next) && next.sequence < U64_MAX
    requires p.request.id == next && next !in RetainedIds(recoverable)
    ensures Ordered(queued, recoverable, Some(p), next.(sequence := next.sequence + 1))
    ensures Protected(queued, recoverable, Some(p)) <= Protected(queued, recoverable, None) + 1
  {
  }

  lemma EnteredKeepsLinked(s: State, request: Request, view: MessageView, now: u64)
    requires Linked(s) && s.pending.None? && s.nextRequest < U64_MAX && ProtectedCount(s) < PROTECTED_LIMIT
    requires request.id == NextId(s) && view.state == AwaitingOutcome && Shows(view, request)
    ensures Linked(Entered(s, request, view, now))
  {
    hide Agrees, Ordered, Ledgered, TargetsOk, Protected, M.ById, M.Distinct, RetainedIds;
    var p := Pending(request, false, SaturatingAdd(now, ACCEPTANCE_MS), None);
    AgreesSubmit(M.ById(s.messages.items), s.queued, s.recoverable, s.ledger.current, s.task, NextId(s), p, view);
    NotInIds(s.messages.items, NextId(s));
    M.PushLookups(s.messages.items, view);
    LedgerSubmit(s.ledger, s.queued, s.recoverable, NextId(s), p);
    SubmitOrders(s.queued, s.recoverable, NextId(s), p);
  }

  lemma NotInIds(items: seq<MessageView>, id: RequestId)
    requires id !in M.ById(items)
    ensures id !in M.Ids(items)
  {
  }

  // ------------------------------------------------------ acknowledgement

  lemma AgreesResolve(m: map<RequestId, MessageView>, queued: seq<Retained>, recoverable: seq<Retained>, p: Pending,
                      current: Option<RequestId>, task: Option<Task>, next: RequestId)
    requires Agrees(m, queued, recoverable, Some(p), current, task, next) && p.outcome.Some?
    ensures p.outcome.value.Accepted? ==> Agrees(m, queued, recoverable, None, current, task, next)
    ensures p.outcome.value.Rejected? ==>
              Agrees(m, queued, recoverable + [Retained(p.request, p.outcome.value.reason)], None, current, task, next)
  {
    RolesResolve(m, RetainedIds(queued), RetainedIds(recoverable), p, current, task);
    if p.outcome.value.Rejected? {
      RetainedIdsPush(recoverable, Retained(p.request, p.outcome.value.reason));
    }
    hide RoleOk, RetainedIds;
  }

  lemma LedgerResolve(l: Ledger, p: Pending, queued: seq<Retained>, recoverable: seq<Retained>, next: RequestId)
    requires Ledgered(l, Some(p), queued, recoverable, next) && p.outcome.Some? && Before(p.request.id, next)
    ensures p.outcome.value.Accepted? ==> Ledgered(l, None, queued, recoverable, next)
    ensures p.outcome.value.Rejected? ==>
              Ledgered(l, None, queued, recoverable + [Retained(p.request, p.outcome.value.reason)], next)
  {
    hide IssuedInOrder, Requests;
    if p.outcome.value.Rejected? {
      RequestsPush(recoverable, Retained(p.request, p.outcome.value.reason));
      WidenBounds(l, queued, p.request.id, next);
    }
    hide AppliedInOrder, FollowUpsInOrder;
  }

  lemma WidenBounds(l: Ledger, queued: seq<Retained>, near: RequestId, far: RequestId)
    requires AppliedInOrder(l.applied, near) && FollowUpsInOrder(l.consumed, queued, near) && Before(near, far)
    ensures AppliedInOrder(l.applied, far) && FollowUpsInOrder(l.consumed, queued, far)
  {
  }

  lemma ResolveOrders(queued: seq<Retained>, recoverable: seq<Retained>, p: Pending, next: RequestId)
    requires Ordered(queued, recoverable, Some(p), next) && p.outcome.Some?
    ensures Before(p.request.id, next)
    ensures p.outcome.value.Accepted? ==>
              && Ordered(queued, recoverable, None, next)
              && Protected(queued, recoverable, None) <= Protected(queued, recoverable, Some(p))
    ensures p.outcome.value.Rejected? && p.request.id !in RetainedIds(queued) ==>
              var r := recoverable + [Retained(p.request, p.outcome.value.reason)];
              && Ordered(queued, r, None, next)
              && Protected(queued, r, None) <= Protected(queued, recoverable, Some(p))
  {
    if p.outcome.value.Rejected? {
      forall k | 0 <= k < |recoverable|
        ensures recoverable[k].request.id != p.request.id
      {
        assert recoverable[k] in recoverable;
      }
    }
  }

  lemma RejectedIsNotQueued(s: State)
    requires Projection(s) && s.pending.Some? && s.pending.value.outcome.Some? && s.pending.value.outcome.value.Rejected?
    ensures s.pending.value.request.id !in RetainedIds(s.queued)
  {
    hide Shown, RetainedIds;
    var v := M.ById(s.messages.items)[s.pending.value.request.id];
    hide M.ById;
    assert v.state == Held;
  }

  lemma ResolveKeepsLinked(s: State)
    requires Linked(s) && s.pending.Some? && s.pending.value.outcome.Some?
    ensures Linked(Resolve(s)) && Resolve(s).pending.None?
  {
    hide Agrees, Ordered, Ledgered, TargetsOk, Protected, M.ById, M.Distinct, RetainedIds, Before;
    var p := s.pending.value;
    if p.outcome.value.Rejected? {
      RejectedIsNotQueued(s);
    }
    AgreesResolve(M.ById(s.messages.items), s.queued, s.recoverable, p, s.ledger.current, s.task, NextId(s));
    ResolveOrders(s.queued, s.recoverable, p, NextId(s));
    LedgerResolve(s.ledger, p, s.queued, s.recoverable, NextId(s));
  }

  // -------------------------------------------------------------- discard

  /** Removing an identity that occurs once removes exactly that receipt. */
  lemma {:induction false} DropIdIsWithout(items: seq<MessageView>, id: RequestId)
    requires M.Distinct(items)
    ensures id !in M.Ids(items) ==> DropId(items, id) == items
    ensures id in M.Ids(items) ==> DropId(items, id) == M.Without(items, M.Position(items, id))
  {
    if items != [] {
      M.HeadIsFresh(items);
      DropIdIsWithout(items[1..], id);
      var rest := items[1..];
      if items[0].id != id && id in M.Ids(items) {
        var at := M.Position(rest, id);
        assert M.Position(items, id) == at + 1;
        assert M.Without(items, at + 1) == [items[0]] + M.Without(rest, at);
      } else if items[0].id == id {
        assert M.Position(items, id) == 0;
        assert M.Without(items, 0) == rest;
      }
    }
  }

  lemma AgreesDiscard(m: map<RequestId, MessageView>, queued: seq<Retained>, recoverable: seq<Retained>, p: Option<Pending>,
                      current: Option<RequestId>, task: Option<Task>, next: RequestId, at: nat)
    requires Agrees(m, queued, recoverable, p, current, task, next) && DistinctRetained(recoverable)
    requires at < |recoverable| && (p.Some? ==> p.value.request.id != recoverable[at].request.id)
    ensures recoverable[at].request.id in m
    ensures Agrees(m - {recoverable[at].request.id}, queued, recoverable[..at] + recoverable[at + 1..], p, current, task, next)
  {
    var id := recoverable[at].request.id;
    var rest := recoverable[..at] + recoverable[at + 1..];
    assert recoverable[at] in recoverable && id in RetainedIds(recoverable);
    RetainedIdsWithout(recoverable, at);
    RolesDiscard(m, RetainedIds(queued), RetainedIds(recoverable), p, current, task, id);
    forall r | r in rest
      ensures r.request.id != id
    {
      assert r.request.id in RetainedIds(rest);
    }
    forall r | r in queued
      ensures r.request.id != id
    {
      assert m[id].state == Held && r.request.id in RetainedIds(queued);
    }
    hide Roles, RetainedIds;
  }

  lemma LedgerDiscard(l: Ledger, p: Option<Pending>, queued: seq<Retained>, recoverable: seq<Retained>, next: RequestId, at: nat)
    requires Ledgered(l, p, queued, recoverable, next) && at < |recoverable|
    ensures Ledgered(l.(discarded := l.discarded + [recoverable[at].request]), p, queued,
                     recoverable[..at] + recoverable[at + 1..], next)
  {
    hide IssuedInOrder, AppliedInOrder, FollowUpsInOrder, Requests, Unplaced, Horizon;
    RequestsWithout(recoverable, at);
  }

  lemma DiscardOrders(queued: seq<Retained>, recoverable: seq<Retained>, p: Option<Pending>, next: RequestId, at: nat)
    requires Ordered(queued, recoverable, p, next) && at < |recoverable|
    requires p.Some? ==> p.value.request.id != recoverable[at].request.id
    ensures var rest := recoverable[..at] + recoverable[at + 1..];
            && Ordered(queued, rest, p, next)
            && Protected(queued, rest, p) == Protected(queued, recoverable, p) - 1
  {
    RetainedIdsWithout(recoverable, at);
    hide RetainedIds;
  }

  /** A discard before the receipts are refreshed. */
  function Dropped(s: State, at: nat): State
    requires at < |s.recoverable|
  {
    s.(recoverable := s.recoverable[..at] + s.recoverable[at + 1..],
       messages := s.messages.(items := DropId(s.messages.items, s.recoverable[at].request.id)),
       ledger := s.ledger.(discarded := s.ledger.discarded + [s.recoverable[at].request]))
  }

  lemma DroppedProjects(s: State, at: nat)
    requires Linked(s) && at < |s.recoverable|
    requires PendingId(s) != Some(s.recoverable[at].request.id)
    ensures Projection(Dropped(s, at))
  {
    hide Agrees, Ledgered, TargetsOk, Protected, M.ById, M.Distinct, RetainedIds, DropId;
    var id := s.recoverable[at].request.id;
    AgreesDiscard(M.ById(s.messages.items), s.queued, s.recoverable, s.pending, s.ledger.current, s.task, NextId(s), at);
    InIds(s.messages.items, id);
    DropIdIsWithout(s.messages.items, id);
    M.WithoutLookups(s.messages.items, M.Position(s.messages.items, id));
  }

  lemma InIds(items: seq<MessageView>, id: RequestId)
    requires id in M.ById(items)
    ensures id in M.Ids(items)
  {
  }

  lemma DroppedKeepsLinked(s: State, at: nat)
    requires Linked(s) && at < |s.recoverable|
    requires PendingId(s) != Some(s.recoverable[at].request.id)
    ensures Linked(Dropped(s, at))
    ensures ProtectedCount(Dropped(s, at)) == ProtectedCount(s) - 1
  {
    hide Projected, Ordered, Ledgered, TargetsOk, Protected, DropId;
    DroppedProjects(s, at);
    DiscardOrders(s.queued, s.recoverable, s.pending, NextId(s), at);
    LedgerDiscard(s.ledger, s.pending, s.queued, s.recoverable, NextId(s), at);
  }

  // ---------------------------------------------------- task and connection

  /** Changing the task without changing which task it is keeps every receipt. */
  lemma TaskKeepsProjection(items: seq<MessageView>, queued: seq<Retained>, recoverable: seq<Retained>, p: Option<Pending>,
                            current: Option<RequestId>, task: Task, after: Task, next: RequestId)
    requires Projected(items, queued, recoverable, p, current, Some(task), next) && after.ref.id == task.ref.id
    ensures Projected(items, queued, recoverable, p, current, Some(after), next)
  {
    hide RoleOk, Shown, RetainedIds, M.ById, M.Distinct;
  }

  lemma RetaskKeepsLinked(s: State, after: Task, nextDecision: u64)
    requires Linked(s) && s.task.Some? && after.ref.id == s.task.value.ref.id
    requires var t := s.(task := Some(after), nextDecision := nextDecision); Targets(t)
    ensures Linked(s.(task := Some(after), nextDecision := nextDecision))
  {
    hide Projected, Ordered, Ledgered, TargetsOk, Protected;
    TaskKeepsProjection(s.messages.items, s.queued, s.recoverable, s.pending, s.ledger.current, s.task.value, after, NextId(s));
  }

  /** Marking a pending outcome as unknown, or known again, changes no role. */
  lemma MarkKeepsProjection(items: seq<MessageView>, queued: seq<Retained>, recoverable: seq<Retained>, p: Pending,
                            current: Option<RequestId>, task: Option<Task>, next: RequestId, unknown: bool)
    requires Projected(items, queued, recoverable, Some(p), current, task, next)
    ensures Projected(items, queued, recoverable, Some(p.(unknown := unknown)), current, task, next)
  {
    hide Shown, RetainedIds, M.ById, M.Distinct;
  }

  lemma MarkKeepsRest(l: Ledger, queued: seq<Retained>, recoverable: seq<Retained>, p: Pending, next: RequestId, unknown: bool)
    requires Ledgered(l, Some(p), queued, recoverable, next) && Ordered(queued, recoverable, Some(p), next)
    ensures Ledgered(l, Some(p.(unknown := unknown)), queued, recoverable, next)
    ensures Ordered(queued, recoverable, Some(p.(unknown := unknown)), next)
    ensures Protected(queued, recoverable, Some(p.(unknown := unknown))) == Protected(queued, recoverable, Some(p))
  {
    hide IssuedInOrder, AppliedInOrder, FollowUpsInOrder, Requests, RetainedIds, Increasing, DistinctRetained;
  }

  lemma RetargetKeepsLinked(s: State, revision: u64, connected: bool, held: bool)
    requires Linked(s)
    ensures Linked(RetargetDecision(s.(connectionRevision := revision, connected := connected, deliveryHeld := held)))
  {
    hide Projected, Ordered, Ledgered, Protected;
    if s.task.Some? && s.task.value.decision.Some? {
      var t := RetargetDecision(s.(connectionRevision := revision, connected := connected, deliveryHeld := held));
      TaskKeepsProjection(s.messages.items, s.queued, s.recoverable, s.pending, s.ledger.current, s.task.value, t.task.value, NextId(s));
    }
  }

  lemma MarkKeepsLinked(s: State, unknown: bool)
    requires Linked(s) && s.pending.Some?
    ensures Linked(s.(pending := Some(s.pending.value.(unknown := unknown))))
  {
    hide Projected, Ordered, Ledgered, TargetsOk, Protected;
    MarkKeepsProjection(s.messages.items, s.queued, s.recoverable, s.pending.value, s.ledger.current, s.task, NextId(s), unknown);
    MarkKeepsRest(s.ledger, s.queued, s.recoverable, s.pending.value, NextId(s), unknown);
  }

  lemma EmitKeepsLinked(s: State, e: Entry)
    requires Linked(s)
    ensures Linked(Emit(s, e))
  {
    hide Projected, Ordered, Ledgered, TargetsOk, Protected, Append, NoteAppend;
  }

  lemma SwitchKeepsLinked(s: State, connected: bool)
    requires Linked(s) && s.connectionRevision < U64_MAX
    ensures Linked(Switch(s, connected))
  {
    hide Linked, RetargetDecision, Emit;
    RetargetKeepsLinked(s, s.connectionRevision + 1, connected, s.deliveryHeld || !connected);
    var moved := RetargetDecision(s.(connectionRevision := s.connectionRevision + 1, connected := connected,
                                     deliveryHeld := s.deliveryHeld || !connected));
    if moved.pending.Some? {
      MarkKeepsLinked(moved, !connected);
      EmitKeepsLinked(moved.(pending := Some(moved.pending.value.(unknown := !connected))),
                      Notice(if connected then Reconnected else ConnectionLost));
    } else {
      EmitKeepsLinked(moved, Notice(if connected then Reconnected else ConnectionLost));
    }
  }
}
