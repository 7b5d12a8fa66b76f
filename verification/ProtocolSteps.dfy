/** Each part of an operation keeps the internal agreement. */
module ProtocolSteps {
  import opened ChatTypes
  import opened Wrappers
  import opened Transcript
  import opened Protocol
  import opened ProtocolInvariant
  import M = Messages

  // ---------------------------------------------------- receipts, as a map

  lemma RelabelMap(s: State, id: RequestId, state: MessageState, execution: Option<TaskRef>, reason: Option<Reason>)
    requires Projection(s) && id in M.ById(s.messages.items)
    ensures var m := M.ById(s.messages.items);
            var after := Relabel(s, id, state, execution, reason).messages.items;
            && M.Distinct(after) && M.ById(after) == m[id := M.Changed(m[id], state, execution, reason)]
  {
    M.ChangeLookups(s.messages.items, id, state, execution, reason);
  }

  lemma RolesHold(m: map<RequestId, MessageView>, q: set<RequestId>, r: set<RequestId>, p: Option<Pending>,
                  current: Option<RequestId>, task: Option<Task>, id: RequestId, reason: Reason)
    requires Roles(m, q, r, p, current, task) && id in q
    ensures Roles(m[id := M.Changed(m[id], Held, None, Some(reason))], q - {id}, r + {id}, p, current, task)
  {
  }

  lemma RolesStart(m: map<RequestId, MessageView>, q: set<RequestId>, r: set<RequestId>, p: Option<Pending>,
                   id: RequestId, task: Task)
    requires Roles(m, q, r, p, None, None) && id in q
    ensures Roles(m[id := M.Changed(m[id], Running, Some(task.ref), None)], q - {id}, r, p, Some(id), Some(task))
  {
  }

  lemma RolesFinish(m: map<RequestId, MessageView>, q: set<RequestId>, r: set<RequestId>, p: Option<Pending>,
                    current: RequestId, task: Task, state: MessageState, execution: Option<TaskRef>, reason: Option<Reason>)
    requires Roles(m, q, r, p, Some(current), Some(task)) && Settled(state)
    ensures Roles(m[current := M.Changed(m[current], state, execution, reason)], q, r, p, None, None)
  {
  }

  lemma RolesReject(m: map<RequestId, MessageView>, q: set<RequestId>, r: set<RequestId>, p: Pending,
                    current: Option<RequestId>, task: Option<Task>, reason: Reason)
    requires Roles(m, q, r, Some(p), current, task) && p.outcome.None?
    ensures Roles(m[p.request.id := M.Changed(m[p.request.id], Held, None, Some(reason))], q, r,
                  Some(p.(outcome := Some(Rejected(reason)))), current, task)
  {
  }

  lemma RolesBegin(m: map<RequestId, MessageView>, q: set<RequestId>, r: set<RequestId>, p: Pending, task: Task)
    requires Roles(m, q, r, Some(p), None, None) && p.outcome.None?
    ensures Roles(m[p.request.id := M.Changed(m[p.request.id], Running, Some(task.ref), None)], q, r,
                  Some(p.(outcome := Some(Accepted))), Some(p.request.id), Some(task))
  {
  }

  lemma RolesSteer(m: map<RequestId, MessageView>, q: set<RequestId>, r: set<RequestId>, p: Pending,
                   current: Option<RequestId>, task: Task, after: Task)
    requires Roles(m, q, r, Some(p), current, Some(task)) && p.outcome.None? && after.ref.id == task.ref.id
    ensures Roles(m[p.request.id := M.Changed(m[p.request.id], Acknowledged, None, None)], q, r,
                  Some(p.(outcome := Some(Accepted))), current, Some(after))
  {
  }

  lemma RolesEnqueue(m: map<RequestId, MessageView>, q: set<RequestId>, r: set<RequestId>, p: Pending,
                     current: Option<RequestId>, task: Option<Task>)
    requires Roles(m, q, r, Some(p), current, task) && p.outcome.None?
    ensures Roles(m[p.request.id := M.Changed(m[p.request.id], Queued, None, None)], q + {p.request.id}, r,
                  Some(p.(outcome := Some(Accepted))), current, task)
  {
  }

  lemma RolesSubmit(m: map<RequestId, MessageView>, q: set<RequestId>, r: set<RequestId>,
                    current: Option<RequestId>, task: Option<Task>, p: Pending, v: MessageView)
    requires Roles(m, q, r, None, current, task) && p.outcome.None? && p.request.id !in m
    requires v.id == p.request.id && v.state == AwaitingOutcome
    ensures Roles(m[v.id := v], q, r, Some(p), current, task)
  {
  }

  /** Acknowledging gives a rejected text to the recoverable list and forgets an accepted one. */
  lemma RolesResolve(m: map<RequestId, MessageView>, q: set<RequestId>, r: set<RequestId>, p: Pending,
                     current: Option<RequestId>, task: Option<Task>)
    requires Roles(m, q, r, Some(p), current, task) && p.outcome.Some?
    ensures Roles(m, q, if p.outcome.value.Rejected? then r + {p.request.id} else r, None, current, task)
  {
  }

  lemma RolesDiscard(m: map<RequestId, MessageView>, q: set<RequestId>, r: set<RequestId>, p: Option<Pending>,
                     current: Option<RequestId>, task: Option<Task>, id: RequestId)
    requires Roles(m, q, r, p, current, task) && id in r && (p.Some? ==> p.value.request.id != id)
    ensures Roles(m - {id}, q, r - {id}, p, current, task)
  {
  }

  /** Dropping receipts that are neither live nor pending keeps the agreement. */
  lemma RolesPrune(m: map<RequestId, MessageView>, n: map<RequestId, MessageView>, q: set<RequestId>, r: set<RequestId>,
                   p: Option<Pending>, current: Option<RequestId>, task: Option<Task>)
    requires Roles(m, q, r, p, current, task)
    requires n.Keys <= m.Keys && forall id :: id in n ==> n[id] == m[id]
    requires forall id :: id in m && !M.Prunable(m[id], if p.Some? then Some(p.value.request.id) else None) ==> id in n
    ensures Roles(n, q, r, p, current, task)
  {
    forall id | id in q
      ensures id in n
    {
      assert m[id].state == Queued;
    }
    forall id | id in r
      ensures id in n
    {
      assert m[id].state == Held;
    }
  }

  lemma ShownAfterPrune(m: map<RequestId, MessageView>, n: map<RequestId, MessageView>, list: seq<Retained>)
    requires Shown(m, list) && RetainedIds(list) <= n.Keys
    requires n.Keys <= m.Keys && forall id :: id in n ==> n[id] == m[id]
    ensures Shown(n, list)
  {
    forall r | r in list
      ensures r.request.id in n && Shows(n[r.request.id], r.request)
    {
      assert r.request.id in RetainedIds(list);
    }
  }

  /** Changing the state of a receipt leaves what it shows of a request. */
  lemma ShownAfterChange(m: map<RequestId, MessageView>, list: seq<Retained>, id: RequestId, state: MessageState,
                         execution: Option<TaskRef>, reason: Option<Reason>)
    requires Shown(m, list) && id in m
    ensures Shown(m[id := M.Changed(m[id], state, execution, reason)], list)
  {
  }

  // -------------------------------------------------------------- refresh

  lemma AgreesPrune(m: map<RequestId, MessageView>, n: map<RequestId, MessageView>, queued: seq<Retained>, recoverable: seq<Retained>,
                    p: Option<Pending>, current: Option<RequestId>, task: Option<Task>, next: RequestId)
    requires Agrees(m, queued, recoverable, p, current, task, next)
    requires n.Keys <= m.Keys && forall id :: id in n ==> n[id] == m[id]
    requires forall id :: id in m && !M.Prunable(m[id], if p.Some? then Some(p.value.request.id) else None) ==> id in n
    ensures Agrees(n, queued, recoverable, p, current, task, next)
  {
    RolesPrune(m, n, RetainedIds(queued), RetainedIds(recoverable), p, current, task);
    hide RoleOk, M.Prunable;
    ShownAfterPrune(m, n, queued);
    ShownAfterPrune(m, n, recoverable);
    hide Shown, RetainedIds;
  }

  lemma RefreshProjects(s: State)
    requires Projection(s)
    ensures Projection(Refresh(s)) && Synced(Refresh(s))
  {
    M.PruneLookups(s.messages.items, PendingId(s));
    hide M.ById, M.Prune, M.PrunableCount, M.Distinct, M.Prunable, Agrees;
    AgreesPrune(M.ById(s.messages.items), M.ById(Refresh(s).messages.items), s.queued, s.recoverable, s.pending,
                s.ledger.current, s.task, NextId(s));
  }

  lemma RefreshKeepsLinked(s: State)
    requires Linked(s)
    ensures Linked(Refresh(s)) && Synced(Refresh(s))
  {
    RefreshProjects(s);
    hide Projected, Ordered, Ledgered, TargetsOk, Protected, Synced;
  }

  // --------------------------------------------------- holding queued text

  lemma AgreesHold(m: map<RequestId, MessageView>, queued: seq<Retained>, recoverable: seq<Retained>, p: Option<Pending>,
                   current: Option<RequestId>, task: Option<Task>, next: RequestId, i: nat, reason: Reason)
    requires Agrees(m, queued, recoverable, p, current, task, next)
    requires DistinctRetained(queued) && i < |queued|
    ensures queued[i].request.id in m && queued[i].request.id !in RetainedIds(recoverable)
    ensures p.Some? && p.value.outcome != Some(Accepted) ==> queued[i].request.id != p.value.request.id
    ensures Agrees(m[queued[i].request.id := M.Changed(m[queued[i].request.id], Held, None, Some(reason))],
                   queued[..i] + queued[i + 1..], recoverable + [Retained(queued[i].request, reason)], p, current, task, next)
  {
    var held := queued[i];
    var id := held.request.id;
    var q, r := RetainedIds(queued), RetainedIds(recoverable);
    assert held in queued && id in q;
    RetainedIdsWithout(queued, i);
    RetainedIdsPush(recoverable, Retained(held.request, reason));
    RolesHold(m, q, r, p, current, task, id, reason);
    assert m[id].state == Queued;
    hide RetainedIds, Roles;
    ShownAfterChange(m, queued, id, Held, None, Some(reason));
    ShownAfterChange(m, recoverable, id, Held, None, Some(reason));
  }

  lemma HoldAtProjects(s: State, i: nat, reason: Reason)
    requires Projection(s) && Ordered(s.queued, s.recoverable, s.pending, NextId(s)) && i < |s.queued|
    ensures Projection(HoldAt(s, i, reason))
    ensures s.queued[i].request.id !in RetainedIds(s.recoverable)
    ensures s.pending.Some? && s.pending.value.outcome != Some(Accepted) ==> s.queued[i].request.id != s.pending.value.request.id
  {
    hide M.ById, M.ChangeMessage, M.Distinct, RetainedIds, Agrees, M.Changed;
    AgreesHold(M.ById(s.messages.items), s.queued, s.recoverable, s.pending, s.ledger.current, s.task, NextId(s), i, reason);
    RelabelMap(s, s.queued[i].request.id, Held, None, Some(reason));
  }

  lemma HoldAtOrders(s: State, i: nat, reason: Reason)
    requires Ordered(s.queued, s.recoverable, s.pending, NextId(s)) && i < |s.queued|
    requires s.queued[i].request.id !in RetainedIds(s.recoverable)
    requires s.pending.Some? && s.pending.value.outcome != Some(Accepted) ==> s.queued[i].request.id != s.pending.value.request.id
    ensures var t := HoldAt(s, i, reason);
            && Ordered(t.queued, t.recoverable, t.pending, NextId(t))
            && ProtectedCount(t) == ProtectedCount(s)
  {
    var t := HoldAt(s, i, reason);
    hide M.ChangeMessage;
    RetainedIdsWithout(s.queued, i);
    RetainedIdsPush(s.recoverable, Retained(s.queued[i].request, reason));
    assert forall j :: 0 <= j < |t.queued| ==> t.queued[j] == s.queued[if j < i then j else j + 1];
    forall k | 0 <= k < |s.recoverable|
      ensures s.recoverable[k].request.id != s.queued[i].request.id
    {
      assert s.recoverable[k] in s.recoverable;
    }
  }

  lemma HoldPlaces(l: Ledger, p: Option<Pending>, queued: seq<Retained>, recoverable: seq<Retained>, i: nat, reason: Reason)
    requires i < |queued|
    ensures Places(l, p, queued[..i] + queued[i + 1..], recoverable + [Retained(queued[i].request, reason)])
            == Places(l, p, queued, recoverable)
  {
    RequestsWithout(queued, i);
    RequestsPush(recoverable, Retained(queued[i].request, reason));
    hide Requests, Unplaced;
  }

  lemma HoldLedgers(l: Ledger, p: Option<Pending>, queued: seq<Retained>, recoverable: seq<Retained>, next: RequestId,
                    i: nat, reason: Reason)
    requires Ledgered(l, p, queued, recoverable, next) && i < |queued|
    ensures Ledgered(l, p, queued[..i] + queued[i + 1..], recoverable + [Retained(queued[i].request, reason)], next)
  {
    HoldPlaces(l, p, queued, recoverable, i, reason);
    hide Places, IssuedInOrder, AppliedInOrder, Horizon, FollowUpsInOrder;
    HoldKeepsFollowUps(l.consumed, queued, Horizon(p, next), i);
  }

  lemma HoldKeepsFollowUps(consumed: seq<Request>, queued: seq<Retained>, bound: RequestId, i: nat)
    requires FollowUpsInOrder(consumed, queued, bound) && i < |queued|
    ensures FollowUpsInOrder(consumed, queued[..i] + queued[i + 1..], bound)
  {
    hide Before;
    var rest := queued[..i] + queued[i + 1..];
    assert forall j :: 0 <= j < |rest| ==> rest[j] == queued[if j < i then j else j + 1];
  }

  lemma HoldAtKeepsLinked(s: State, i: nat, reason: Reason)
    requires Linked(s) && i < |s.queued|
    ensures Linked(HoldAt(s, i, reason))
  {
    hide Projected, Ordered, Ledgered, TargetsOk, Protected, RetainedIds, M.ChangeMessage;
    HoldAtProjects(s, i, reason);
    HoldAtOrders(s, i, reason);
    HoldLedgers(s.ledger, s.pending, s.queued, s.recoverable, NextId(s), i, reason);
  }

  /** The fields no part of holding touches. */
  ghost predicate OnlyHeld(s: State, t: State) {
    t == s.(queued := t.queued, recoverable := t.recoverable, messages := s.messages.(items := t.messages.items))
  }

  /** Holding moves exactly the selected requests to the recoverable list, in order and with the given
      reason, and keeps exactly the others in order. */
  lemma {:induction false} HoldFromIsExact(s: State, i: nat, filter: Filter, reason: Reason)
    requires i <= |s.queued|
    ensures var t := HoldFrom(s, i, filter, reason);
            && t.queued == s.queued[..i] + Picked(s.queued[i..], filter, false)
            && t.recoverable == s.recoverable + HeldAs(Picked(s.queued[i..], filter, true), reason)
    decreases |s.queued| - i
  {
    hide HoldAt, Selected, Picked, HeldAs;
    var rest := s.queued[i..];
    PickedStep(rest, filter, reason);
    if i == |s.queued| {
      assert s.queued[..i] + [] == s.queued && s.recoverable + [] == s.recoverable;
    } else {
      assert rest[0] == s.queued[i] && rest[1..] == s.queued[i + 1..];
      if Selected(filter, s.queued[i].request) {
        HoldAtLists(s, i, reason);
        HoldFromIsExact(HoldAt(s, i, reason), i, filter, reason);
        var more := HeldAs(Picked(rest[1..], filter, true), reason);
        assert s.recoverable + [Retained(rest[0].request, reason)] + more == s.recoverable + ([Retained(rest[0].request, reason)] + more);
      } else {
        HoldFromIsExact(s, i + 1, filter, reason);
        var more := Picked(rest[1..], filter, false);
        assert s.queued[..i + 1] + more == s.queued[..i] + ([rest[0]] + more);
      }
    }
  }

  lemma HoldAtLists(s: State, i: nat, reason: Reason)
    requires i < |s.queued|
    ensures var u := HoldAt(s, i, reason);
            && |u.queued| == |s.queued| - 1 && u.queued[..i] == s.queued[..i] && u.queued[i..] == s.queued[i + 1..]
            && u.recoverable == s.recoverable + [Retained(s.queued[i].request, reason)]
  {
    hide M.ChangeMessage;
  }

  lemma PickedStep(list: seq<Retained>, filter: Filter, reason: Reason)
    ensures list == [] ==> Picked(list, filter, true) == Picked(list, filter, false) == HeldAs(Picked(list, filter, true), reason) == []
    ensures list != [] && Selected(filter, list[0].request) ==>
              && Picked(list, filter, false) == Picked(list[1..], filter, false)
              && HeldAs(Picked(list, filter, true), reason)
                 == [Retained(list[0].request, reason)] + HeldAs(Picked(list[1..], filter, true), reason)
    ensures list != [] && !Selected(filter, list[0].request) ==>
              && Picked(list, filter, false) == [list[0]] + Picked(list[1..], filter, false)
              && Picked(list, filter, true) == Picked(list[1..], filter, true)
  {
    hide Selected;
    if list != [] && Selected(filter, list[0].request) {
      var picked := Picked(list, filter, true);
      assert picked[0] == list[0] && picked[1..] == Picked(list[1..], filter, true);
    }
  }

  /** Holding keeps the state linked and touches nothing else. */
  lemma {:induction false} HoldFromKeepsLinked(s: State, i: nat, filter: Filter, reason: Reason)
    requires Linked(s) && i <= |s.queued|
    ensures var t := HoldFrom(s, i, filter, reason);
            && Linked(t) && OnlyHeld(s, t)
            && |t.queued| >= i && t.queued[..i] == s.queued[..i]
            && (forall j :: i <= j < |t.queued| ==> !Selected(filter, t.queued[j].request))
            && (forall r :: r in t.queued ==> r in s.queued)
    decreases |s.queued| - i
  {
    hide Linked, M.ChangeMessage, Selected;
    if i < |s.queued| {
      if Selected(filter, s.queued[i].request) {
        HoldAtKeepsLinked(s, i, reason);
        var u := HoldAt(s, i, reason);
        assert forall r :: r in u.queued ==> r in s.queued;
        assert u.queued[..i] == s.queued[..i];
        HoldFromKeepsLinked(u, i, filter, reason);
      } else {
        HoldFromKeepsLinked(s, i + 1, filter, reason);
        var t := HoldFrom(s, i + 1, filter, reason);
        assert t.queued[i] == t.queued[..i + 1][i] == s.queued[i];
        assert t.queued[..i] == t.queued[..i + 1][..i];
        assert s.queued[..i] == s.queued[..i + 1][..i];
      }
    }
  }

  // -------------------------------------------------------- ending a turn

  lemma RunningIsCurrent(s: State)
    requires Projection(s) && s.task.Some?
    ensures s.ledger.current.Some? && s.ledger.current.value in M.ById(s.messages.items)
    ensures var at := RunningPosition(s.messages.items, s.task.value.ref.id);
            && at < |s.messages.items| && s.messages.items[at].id == s.ledger.current.value
  {
    var items := s.messages.items;
    var at := RunningPosition(items, s.task.value.ref.id);
    var home := M.Position(items, s.ledger.current.value);
    hide M.Position, RunningPosition, Shown;
    assert Executing(items[home], s.task.value.ref.id);
    assert at <= home;
    M.AtPosition(items, at);
  }

  lemma AgreesFinish(m: map<RequestId, MessageView>, queued: seq<Retained>, recoverable: seq<Retained>, p: Option<Pending>,
                     current: RequestId, task: Task, next: RequestId, state: MessageState, execution: Option<TaskRef>, reason: Option<Reason>)
    requires Agrees(m, queued, recoverable, p, Some(current), Some(task), next) && Settled(state)
    ensures current in m
    ensures Agrees(m[current := M.Changed(m[current], state, execution, reason)], queued, recoverable, p, None, None, next)
  {
    RolesFinish(m, RetainedIds(queued), RetainedIds(recoverable), p, current, task, state, execution, reason);
    hide RoleOk, RetainedIds;
    ShownAfterChange(m, queued, current, state, execution, reason);
    ShownAfterChange(m, recoverable, current, state, execution, reason);
  }

  lemma FinishTurnProjects(s: State, state: MessageState, reason: Option<Reason>)
    requires Projection(s) && s.task.Some? && Settled(state)
    ensures Projection(FinishTurn(s, state, reason))
  {
    RunningIsCurrent(s);
    hide M.ById, M.ChangeMessage, M.Distinct, Agrees, M.Changed, RunningPosition;
    var at := RunningPosition(s.messages.items, s.task.value.ref.id);
    var execution := s.messages.items[at].execution;
    AgreesFinish(M.ById(s.messages.items), s.queued, s.recoverable, s.pending, s.ledger.current.value, s.task.value, NextId(s),
                 state, execution, reason);
    RelabelMap(s, s.ledger.current.value, state, execution, reason);
  }

  lemma LedgerCurrent(l: Ledger, p: Option<Pending>, queued: seq<Retained>, recoverable: seq<Retained>, next: RequestId,
                      current: Option<RequestId>)
    requires Ledgered(l, p, queued, recoverable, next)
    ensures Ledgered(l.(current := current), p, queued, recoverable, next)
  {
    hide IssuedInOrder, AppliedInOrder, FollowUpsInOrder, Horizon, Requests, Unplaced;
  }

  lemma FinishTurnKeepsLinked(s: State, state: MessageState, reason: Option<Reason>)
    requires Linked(s) && s.task.Some? && Settled(state)
    ensures Linked(FinishTurn(s, state, reason))
  {
    hide FinishedItems, Projected, Ordered, Ledgered, Protected, M.ChangeMessage, RunningPosition, Settled;
    FinishTurnProjects(s, state, reason);
    LedgerCurrent(s.ledger, s.pending, s.queued, s.recoverable, NextId(s), None);
  }

  // --------------------------------------------------- starting a follow-up

  lemma AgreesStart(m: map<RequestId, MessageView>, queued: seq<Retained>, recoverable: seq<Retained>, p: Option<Pending>,
                    next: RequestId, task: Task)
    requires Agrees(m, queued, recoverable, p, None, None, next)
    requires DistinctRetained(queued) && queued != []
    ensures var id := queued[0].request.id;
            && id in m && id.scope == next.scope && id.sequence < next.sequence
            && (p.Some? && p.value.outcome != Some(Accepted) ==> id != p.value.request.id)
            && Agrees(m[id := M.Changed(m[id], Running, Some(task.ref), None)], queued[1..], recoverable, p, Some(id), Some(task), next)
  {
    var id := queued[0].request.id;
    var q, r := RetainedIds(queued), RetainedIds(recoverable);
    assert queued[0] in queued && id in q;
    RetainedIdsWithout(queued, 0);
    assert queued[..0] + queued[0 + 1..] == queued[1..];
    RolesStart(m, q, r, p, id, task);
    assert m[id].state == Queued;
    hide RetainedIds, Roles;
    ShownAfterChange(m, queued, id, Running, Some(task.ref), None);
    ShownAfterChange(m, recoverable, id, Running, Some(task.ref), None);
  }

  lemma IdleHasNoCurrent(s: State)
    requires Projection(s) && s.task.None?
    ensures s.ledger.current == None
  {
    hide RoleOk, Shown, M.ById;
  }

  lemma StartNextProjects(s: State)
    requires Projection(s) && Ordered(s.queued, s.recoverable, s.pending, NextId(s))
    requires s.task.None? && s.queued != [] && s.nextTask < U64_MAX
    ensures Projection(StartNext(s))
    ensures Before(s.queued[0].request.id, Horizon(s.pending, NextId(s)))
  {
    hide M.ById, M.ChangeMessage, M.Distinct, RetainedIds, Agrees, M.Changed, Append, NoteAppend;
    IdleHasNoCurrent(s);
    AgreesStart(M.ById(s.messages.items), s.queued, s.recoverable, s.pending, NextId(s), StartedTask(s));
    RelabelMap(s, s.queued[0].request.id, Running, Some(StartedTask(s).ref), None);
  }

  lemma StartOrders(queued: seq<Retained>, recoverable: seq<Retained>, p: Option<Pending>, next: RequestId)
    requires Ordered(queued, recoverable, p, next) && queued != []
    ensures Ordered(queued[1..], recoverable, p, next)
    ensures Protected(queued[1..], recoverable, p) <= Protected(queued, recoverable, p)
  {
    assert queued == [queued[0]] + queued[1..];
    if p.Some? && p.value.request.id in RetainedIds(queued) && p.value.request.id != queued[0].request.id {
      assert p.value.request.id in RetainedIds(queued[1..]);
    }
  }

  lemma StartPlaces(l: Ledger, p: Option<Pending>, queued: seq<Retained>, recoverable: seq<Retained>, current: Option<RequestId>)
    requires queued != []
    ensures Places(l.(consumed := l.consumed + [queued[0].request], current := current), p, queued[1..], recoverable)
            == Places(l, p, queued, recoverable)
  {
    RequestsWithout(queued, 0);
    assert queued[..0] + queued[0 + 1..] == queued[1..];
    hide Requests, Unplaced;
  }

  lemma StartInOrder(consumed: seq<Request>, queued: seq<Retained>, bound: RequestId)
    requires FollowUpsInOrder(consumed, queued, bound) && queued != []
    requires forall j :: 1 <= j < |queued| ==> Before(queued[0].request.id, queued[j].request.id)
    requires Before(queued[0].request.id, bound)
    ensures FollowUpsInOrder(consumed + [queued[0].request], queued[1..], bound)
  {
    hide Before;
    var c := consumed + [queued[0].request];
    assert forall j :: 0 <= j < |queued[1..]| ==> queued[1..][j] == queued[j + 1];
    assert forall i :: 0 <= i < |consumed| ==> c[i] == consumed[i];
    assert c[|consumed|] == queued[0].request;
  }

  lemma StartLedgers(l: Ledger, p: Option<Pending>, queued: seq<Retained>, recoverable: seq<Retained>, next: RequestId)
    requires Ledgered(l, p, queued, recoverable, next) && queued != []
    requires forall j :: 1 <= j < |queued| ==> Before(queued[0].request.id, queued[j].request.id)
    requires Before(queued[0].request.id, Horizon(p, next))
    ensures Ledgered(l.(consumed := l.consumed + [queued[0].request], current := Some(queued[0].request.id)),
                     p, queued[1..], recoverable, next)
  {
    hide Places, IssuedInOrder, AppliedInOrder, FollowUpsInOrder, Horizon, Before;
    StartPlaces(l, p, queued, recoverable, Some(queued[0].request.id));
    StartInOrder(l.consumed, queued, Horizon(p, next));
  }

  lemma QueueBefore(s: State)
    requires Projection(s) && Ordered(s.queued, s.recoverable, s.pending, NextId(s)) && s.queued != []
    ensures forall j :: 1 <= j < |s.queued| ==> Before(s.queued[0].request.id, s.queued[j].request.id)
  {
    hide M.ById, Roles, RetainedIds;
    forall j | 0 <= j < |s.queued|
      ensures s.queued[j].request.id.scope == s.scope
    {
      assert s.queued[j] in s.queued;
    }
  }

  lemma StartNextKeepsLinked(s: State)
    requires Linked(s) && s.task.None? && s.queued != [] && s.nextTask < U64_MAX
    ensures Linked(StartNext(s))
  {
    hide Projected, Ordered, Ledgered, Protected, M.ChangeMessage, Append, NoteAppend, Before, Horizon;
    StartNextProjects(s);
    QueueBefore(s);
    StartOrders(s.queued, s.recoverable, s.pending, NextId(s));
    StartLedgers(s.ledger, s.pending, s.queued, s.recoverable, NextId(s));
  }
}
