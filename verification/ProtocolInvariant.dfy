/** What every reachable state of the protocol satisfies. */
module ProtocolInvariant {
  import opened ChatTypes
  import opened Wrappers
  import opened Transcript
  import opened Protocol
  import M = Messages

  // --------------------------------------------------------- the projection

  /** The state of a receipt is exactly the executable role of its request. */
  ghost predicate RoleOk(v: MessageView, q: set<RequestId>, r: set<RequestId>, p: Option<Pending>, current: Option<RequestId>) {
    && (v.state == Queued <==> v.id in q)
    && (v.state == Held <==> v.id in r || (p.Some? && p.value.request.id == v.id && p.value.outcome.Some? && p.value.outcome.value.Rejected?))
    && (v.state == Running <==> current == Some(v.id))
    && (v.state == AwaitingOutcome <==> p.Some? && p.value.request.id == v.id && p.value.outcome.None?)
    && v.state != UnknownOutcome
  }

  /** Receipts agree with the executable state, and every live request has one. */
  ghost predicate Roles(m: map<RequestId, MessageView>, q: set<RequestId>, r: set<RequestId>, p: Option<Pending>,
                        current: Option<RequestId>, task: Option<Task>)
  {
    && (forall id :: id in m ==> m[id].id == id && RoleOk(m[id], q, r, p, current))
    && q <= m.Keys && r <= m.Keys
    && (p.Some? ==> p.value.request.id in m)
    && (current.Some? ==> current.value in m)
    && (current.Some? <==> task.Some?)
    && (current.Some? && task.Some? ==> Executing(m[current.value], task.value.ref.id))
  }

  ghost predicate Shows(v: MessageView, request: Request) {
    v.id == request.id && v.target == request.target && v.action == request.action && v.text == request.text
  }

  ghost predicate Shown(m: map<RequestId, MessageView>, list: seq<Retained>) {
    forall r :: r in list ==> r.request.id in m && Shows(m[r.request.id], r.request)
  }

  ghost predicate Agrees(m: map<RequestId, MessageView>, queued: seq<Retained>, recoverable: seq<Retained>, p: Option<Pending>,
                         current: Option<RequestId>, task: Option<Task>, next: RequestId)
  {
    && Roles(m, RetainedIds(queued), RetainedIds(recoverable), p, current, task)
    && Shown(m, queued) && Shown(m, recoverable)
    && (p.Some? ==> Shows(m[p.value.request.id], p.value.request))
    && (forall id :: id in m ==> id.scope == next.scope && id.sequence < next.sequence)
  }

  ghost predicate Projected(items: seq<MessageView>, queued: seq<Retained>, recoverable: seq<Retained>, p: Option<Pending>,
                            current: Option<RequestId>, task: Option<Task>, next: RequestId)
  {
    M.Distinct(items) && Agrees(M.ById(items), queued, recoverable, p, current, task, next)
  }

  ghost predicate Projection(s: State) {
    Projected(s.messages.items, s.queued, s.recoverable, s.pending, s.ledger.current, s.task, NextId(s))
  }

  // ------------------------------------------------------------- the order

  ghost predicate Increasing(list: seq<Retained>) {
    forall i, j :: 0 <= i < j < |list| ==> list[i].request.id.sequence < list[j].request.id.sequence
  }

  ghost predicate DistinctRetained(list: seq<Retained>) {
    forall i, j :: 0 <= i < j < |list| ==> list[i].request.id != list[j].request.id
  }

  function NextId(s: State): RequestId {
    RequestId(s.scope, s.nextRequest)
  }

  ghost predicate Ordered(queued: seq<Retained>, recoverable: seq<Retained>, p: Option<Pending>, next: RequestId) {
    && Increasing(queued)
    && DistinctRetained(recoverable)
    && (p.Some? ==> next.sequence > 0 && p.value.request.id == RequestId(next.scope, next.sequence - 1))
    && (p.Some? && p.value.outcome != Some(Accepted) ==> p.value.request.id !in RetainedIds(recoverable))
  }

  // ------------------------------------------------------------ the ledger

  /** Everything applied or consumed was issued before this identity. */
  function Horizon(p: Option<Pending>, next: RequestId): RequestId {
    if p.Some? && p.value.outcome != Some(Accepted) then p.value.request.id else next
  }

  /** Where the text of issued requests is: unplaced, queued, recoverable, consumed or discarded. */
  ghost function Places(l: Ledger, p: Option<Pending>, queued: seq<Retained>, recoverable: seq<Retained>): multiset<Request> {
    multiset(Unplaced(p)) + multiset(Requests(queued)) + multiset(Requests(recoverable))
    + multiset(l.consumed) + multiset(l.discarded)
  }

  ghost predicate IssuedInOrder(issued: seq<Request>, bound: RequestId) {
    && (forall i, j :: 0 <= i < j < |issued| ==> Before(issued[i].id, issued[j].id))
    && (forall i :: 0 <= i < |issued| ==> Before(issued[i].id, bound))
  }

  ghost predicate AppliedInOrder(applied: seq<RequestId>, bound: RequestId) {
    && (forall i, j :: 0 <= i < j < |applied| ==> Before(applied[i], applied[j]))
    && (forall i :: 0 <= i < |applied| ==> Before(applied[i], bound))
  }

  /** Follow-ups were consumed in issue order, and before everything still queued. */
  ghost predicate FollowUpsInOrder(consumed: seq<Request>, queued: seq<Retained>, bound: RequestId) {
    && (forall i, j :: 0 <= i < j < |consumed| && consumed[i].action == Queue && consumed[j].action == Queue
          ==> Before(consumed[i].id, consumed[j].id))
    && (forall i, j :: 0 <= i < |consumed| && 0 <= j < |queued| && consumed[i].action == Queue
          ==> Before(consumed[i].id, queued[j].request.id))
    && (forall i :: 0 <= i < |consumed| ==> Before(consumed[i].id, bound))
    && (forall j :: 0 <= j < |queued| ==> queued[j].request.action == Queue)
  }

  ghost predicate Ledgered(l: Ledger, p: Option<Pending>, queued: seq<Retained>, recoverable: seq<Retained>, next: RequestId) {
    && IssuedInOrder(l.issued, next)
    && AppliedInOrder(l.applied, Horizon(p, next))
    && FollowUpsInOrder(l.consumed, queued, Horizon(p, next))
    && multiset(l.issued) == Places(l, p, queued, recoverable)
  }

  // ----------------------------------------------------------- the targets

  /** An open decision names the current target, and identities stay below the next ones. */
  ghost predicate TargetsOk(task: Option<Task>, target: Target, nextTask: u64, nextDecision: u64) {
    task.Some? ==>
      && task.value.ref.id < nextTask
      && (task.value.decision.Some? ==>
            task.value.decision.value.target == target && task.value.decision.value.id < nextDecision)
  }

  ghost predicate Targets(s: State) {
    TargetsOk(s.task, CurrentTarget(s), s.nextTask, s.nextDecision)
  }

  /** Internal agreement, which holds even between the parts of one operation. */
  ghost predicate Linked(s: State) {
    && Projection(s)
    && Ordered(s.queued, s.recoverable, s.pending, NextId(s))
    && Ledgered(s.ledger, s.pending, s.queued, s.recoverable, NextId(s))
    && Targets(s)
    && ProtectedCount(s) <= PROTECTED_LIMIT
  }

  // ---------------------------------------------------------- the delivery

  /** Delivery is withheld exactly while disconnected or while an outcome awaits acknowledgement,
      and a pending request was captured under a connection that is over once disconnected. */
  ghost predicate DeliveryOk(held: bool, connected: bool, p: Option<Pending>, connection: u64) {
    && (held <==> !connected || (p.Some? && p.value.outcome.Some?))
    && (p.Some? ==> p.value.unknown == !connected)
    && (p.Some? ==> p.value.request.target.connectionRevision <= connection)
    && (p.Some? && !connected ==> p.value.request.target.connectionRevision < connection)
  }

  /** The most receipts the tray can hold: protected requests, settled receipts and one running turn. */
  const TRAY_LIMIT: nat := PROTECTED_LIMIT + M.SETTLED_LIMIT + 1

  ghost predicate DeliveredOk(items: seq<MessageView>, p: Option<Pending>) {
    && M.Distinct(items)
    && |items| <= TRAY_LIMIT
    && (p.Some? ==> p.value.request.id in M.Ids(items))
  }

  ghost predicate Synced(s: State) {
    && M.PrunableCount(s.messages.items, PendingId(s)) <= M.SETTLED_LIMIT
    && (!Blocked(s) ==> s.delivered == s.messages)
  }

  /** Every queued command comes from a source that is still available. */
  ghost predicate Sourced(queued: seq<Retained>, catalogue: Catalogue) {
    forall r :: r in queued && r.request.command.Some? ==>
      r.request.command.value.source != NoSource
      && SourceOf(catalogue, r.request.command.value.source).availability == Available
  }

  ghost predicate DisplayOk(display: Display, stream: Stream, blocked: bool) {
    Faithful(display, stream) && (!blocked ==> stream.withheld == [])
  }

  /** Everything but the delivery flag and the refreshed receipts, which an operation restores last. */
  ghost predicate Sound(s: State) {
    && Linked(s)
    && DeliveredOk(s.delivered.items, s.pending)
    && Sourced(s.queued, s.catalogue)
    && DisplayOk(s.display, s.stream, Blocked(s))
  }

  /** A follow-up never waits without a task to wait for. */
  ghost predicate Waiting(s: State) {
    s.queued != [] ==> s.task.Some?
  }

  ghost predicate Inv(s: State) {
    Sound(s) && DeliveryOk(s.deliveryHeld, s.connected, s.pending, s.connectionRevision) && Synced(s) && Waiting(s)
  }

  // ------------------------------------------------------- list arithmetic

  lemma {:induction false} RequestsConcat(a: seq<Retained>, b: seq<Retained>)
    ensures Requests(a + b) == Requests(a) + Requests(b)
  {
    if a == [] {
      assert a + b == b;
    } else {
      assert (a + b)[1..] == a[1..] + b;
      RequestsConcat(a[1..], b);
    }
  }

  /** Taking one request out of a list takes exactly its text out. */
  lemma MultisetMiddle(a: seq<Request>, x: Request, b: seq<Request>)
    ensures multiset(a + ([x] + b)) == multiset(a + b) + multiset{x}
  {
  }

  lemma RequestsMiddle(before: seq<Retained>, r: Retained, after: seq<Retained>)
    ensures multiset(Requests(before + ([r] + after))) == multiset(Requests(before + after)) + multiset{r.request}
  {
    assert Requests([r]) == [r.request];
    hide Requests;
    RequestsConcat(before, after);
    RequestsConcat(before, [r] + after);
    RequestsConcat([r], after);
    MultisetMiddle(Requests(before), r.request, Requests(after));
  }

  lemma RequestsWithout(list: seq<Retained>, i: nat)
    requires i < |list|
    ensures multiset(Requests(list)) == multiset(Requests(list[..i] + list[i + 1..])) + multiset{list[i].request}
  {
    hide Requests;
    assert list == list[..i] + ([list[i]] + list[i + 1..]);
    RequestsMiddle(list[..i], list[i], list[i + 1..]);
  }

  lemma RequestsPush(list: seq<Retained>, r: Retained)
    ensures multiset(Requests(list + [r])) == multiset(Requests(list)) + multiset{r.request}
  {
    RequestsConcat(list, [r]);
    assert Requests([r]) == [r.request];
  }

  lemma RetainedIdsPush(list: seq<Retained>, r: Retained)
    ensures RetainedIds(list + [r]) == RetainedIds(list) + {r.request.id}
  {
  }

  lemma RetainedIdsWithout(list: seq<Retained>, i: nat)
    requires i < |list| && DistinctRetained(list)
    ensures var rest := list[..i] + list[i + 1..];
            && RetainedIds(rest) == RetainedIds(list) - {list[i].request.id}
            && DistinctRetained(rest)
            && (forall r :: r in rest ==> r in list)
  {
    var rest := list[..i] + list[i + 1..];
    forall id | id in RetainedIds(list) && id != list[i].request.id
      ensures id in RetainedIds(rest)
    {
      var k :| 0 <= k < |list| && list[k].request.id == id;
      assert rest[if k < i then k else k - 1] == list[k];
    }
    forall r | r in rest
      ensures r in list && r.request.id != list[i].request.id
    {
      var k :| 0 <= k < |rest| && rest[k] == r;
      assert rest[k] == list[if k < i then k else k + 1];
    }
  }
}
