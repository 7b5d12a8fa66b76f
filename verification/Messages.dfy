/** The ordered list of message receipts, addressed by request identity. */
module Messages {
  import opened ChatTypes
  import opened Wrappers

  const SETTLED_LIMIT: nat := 8

  function Ids(items: seq<MessageView>): set<RequestId> {
    set v | v in items :: v.id
  }

  ghost predicate Distinct(items: seq<MessageView>) {
    forall i, j :: 0 <= i < j < |items| ==> items[i].id != items[j].id
  }

  /** The first position of an identity, or the length when it is absent. */
  function Position(items: seq<MessageView>, id: RequestId): (at: nat)
    ensures at <= |items|
    ensures at < |items| ==> items[at].id == id
    ensures at < |items| <==> id in Ids(items)
    ensures forall i :: 0 <= i < at ==> items[i].id != id
  {
    if items == [] then 0
    else if items[0].id == id then 0
    else
      assert items == [items[0]] + items[1..];
      1 + Position(items[1..], id)
  }

  function ById(items: seq<MessageView>): map<RequestId, MessageView> {
    map id | id in Ids(items) :: items[Position(items, id)]
  }

  function Without(items: seq<MessageView>, at: nat): seq<MessageView>
    requires at < |items|
  {
    items[..at] + items[at + 1..]
  }

  function Changed(v: MessageView, state: MessageState, execution: Option<TaskRef>, reason: Option<Reason>): MessageView {
    v.(state := state, execution := execution, reason := reason)
  }

  /** Move a receipt to the end of the list with a new state; an unknown identity changes nothing. */
  function ChangeMessage(items: seq<MessageView>, id: RequestId, state: MessageState,
                         execution: Option<TaskRef>, reason: Option<Reason>): seq<MessageView>
  {
    var at := Position(items, id);
    if at == |items| then items else Without(items, at) + [Changed(items[at], state, execution, reason)]
  }

  predicate Prunable(v: MessageView, pending: Option<RequestId>) {
    Settled(v.state) && Some(v.id) != pending
  }

  function PrunableCount(items: seq<MessageView>, pending: Option<RequestId>): nat {
    if items == [] then 0
    else (if Prunable(items[0], pending) then 1 else 0) + PrunableCount(items[1..], pending)
  }

  function FirstPrunable(items: seq<MessageView>, pending: Option<RequestId>): (at: nat)
    requires PrunableCount(items, pending) > 0
    ensures at < |items| && Prunable(items[at], pending)
    ensures forall i :: 0 <= i < at ==> !Prunable(items[i], pending)
  {
    if Prunable(items[0], pending) then 0 else 1 + FirstPrunable(items[1..], pending)
  }

  /** Drop the receipts that settled first until at most eight settled receipts remain. */
  function Prune(items: seq<MessageView>, pending: Option<RequestId>): seq<MessageView>
    decreases |items|
  {
    if PrunableCount(items, pending) <= SETTLED_LIMIT then items
    else Prune(Without(items, FirstPrunable(items, pending)), pending)
  }

  /** One round of pruning. */
  lemma PruneStep(items: seq<MessageView>, pending: Option<RequestId>)
    ensures PrunableCount(items, pending) <= SETTLED_LIMIT ==> Prune(items, pending) == items
    ensures PrunableCount(items, pending) > SETTLED_LIMIT ==>
              Prune(items, pending) == Prune(Without(items, FirstPrunable(items, pending)), pending)
  {
  }

  function Refreshed(tray: MessageTray, pending: Option<RequestId>): MessageTray {
    var kept := Prune(tray.items, pending);
    MessageTray(kept, tray.historyTrimmed || |kept| < |tray.items|)
  }

  // ------------------------------------------------------------- lookups

  lemma AtPosition(items: seq<MessageView>, i: nat)
    requires Distinct(items) && i < |items|
    ensures Position(items, items[i].id) == i
    ensures items[i].id in ById(items) && ById(items)[items[i].id] == items[i]
  {
    assert items[i] in items;
    var p := Position(items, items[i].id);
    assert items[p].id == items[i].id;
  }

  /** An identity is in the map exactly when some receipt carries it. */
  lemma LookupIsMember(items: seq<MessageView>, id: RequestId)
    requires id in ById(items)
    ensures ById(items)[id] in items && ById(items)[id].id == id
  {
  }

  lemma SameLookups(items: seq<MessageView>, m: map<RequestId, MessageView>)
    requires Distinct(items)
    requires forall v :: v in items ==> v.id in m && m[v.id] == v
    requires forall id :: id in m ==> m[id] in items && m[id].id == id
    ensures ById(items) == m
  {
    forall id | id in m
      ensures id in ById(items) && ById(items)[id] == m[id]
    {
      var i :| 0 <= i < |items| && items[i] == m[id];
      AtPosition(items, i);
    }
    forall id | id in ById(items)
      ensures id in m
    {
      LookupIsMember(items, id);
    }
  }

  lemma PushLookups(items: seq<MessageView>, v: MessageView)
    requires Distinct(items) && v.id !in Ids(items)
    ensures Distinct(items + [v])
    ensures ById(items + [v]) == ById(items)[v.id := v]
  {
    forall i | 0 <= i < |items|
      ensures items[i].id != v.id
    {
      assert items[i] in items;
    }
    assert Distinct(items + [v]);
    forall w | w in items + [v]
      ensures w.id in ById(items)[v.id := v] && ById(items)[v.id := v][w.id] == w
    {
      if w != v {
        var i :| 0 <= i < |items| && items[i] == w;
        AtPosition(items, i);
      }
    }
    SameLookups(items + [v], ById(items)[v.id := v]);
  }

  lemma Absent(items: seq<MessageView>, id: RequestId)
    requires forall v :: v in items ==> v.id != id
    ensures id !in Ids(items)
  {
  }

  lemma WithoutShape(items: seq<MessageView>, at: nat)
    requires Distinct(items) && at < |items|
    ensures Distinct(Without(items, at)) && |Without(items, at)| == |items| - 1
    ensures forall i :: 0 <= i < |items| - 1 ==> Without(items, at)[i] == items[if i < at then i else i + 1]
  {
    var rest := Without(items, at);
    assert forall i :: 0 <= i < |rest| ==> rest[i] == items[if i < at then i else i + 1];
  }

  lemma WithoutKeeps(items: seq<MessageView>, at: nat, i: nat)
    requires Distinct(items) && at < |items| && i < |Without(items, at)|
    ensures var w := Without(items, at)[i];
            w.id in ById(items) && w.id != items[at].id && ById(items)[w.id] == w
  {
    WithoutShape(items, at);
    hide Without, ById, Position, Ids;
    AtPosition(items, if i < at then i else i + 1);
  }

  lemma WithoutDropsOnly(items: seq<MessageView>, at: nat, id: RequestId)
    requires Distinct(items) && at < |items| && id in ById(items) && id != items[at].id
    ensures ById(items)[id] in Without(items, at) && ById(items)[id].id == id
  {
    WithoutShape(items, at);
    LookupIsMember(items, id);
    hide Distinct, Without, ById, Position, Ids;
    var p :| 0 <= p < |items| && items[p] == ById(items)[id];
    assert Without(items, at)[if p < at then p else p - 1] == items[p];
  }

  lemma WithoutLookups(items: seq<MessageView>, at: nat)
    requires Distinct(items) && at < |items|
    ensures Distinct(Without(items, at))
    ensures ById(Without(items, at)) == ById(items) - {items[at].id}
    ensures items[at].id !in Ids(Without(items, at))
  {
    WithoutShape(items, at);
    hide *;
    var rest, gone := Without(items, at), items[at].id;
    forall w | w in rest
      ensures w.id in ById(items) && w.id != gone && ById(items)[w.id] == w
    {
      var i :| 0 <= i < |rest| && rest[i] == w;
      WithoutKeeps(items, at, i);
    }
    forall id | id in ById(items) && id != gone
      ensures ById(items)[id] in rest && ById(items)[id].id == id
    {
      WithoutDropsOnly(items, at, id);
    }
    SameLookups(rest, ById(items) - {gone});
    Absent(rest, gone);
  }

  lemma ChangeShape(items: seq<MessageView>, id: RequestId, state: MessageState,
                    execution: Option<TaskRef>, reason: Option<Reason>)
    requires Distinct(items) && id in ById(items)
    ensures Position(items, id) < |items|
    ensures var at := Position(items, id);
            && ChangeMessage(items, id, state, execution, reason) == Without(items, at) + [Changed(items[at], state, execution, reason)]
            && |Without(items, at)| == |items| - 1
            && ById(items)[id] == items[at] && Changed(items[at], state, execution, reason).id == id
  {
    hide Distinct;
  }

  lemma ChangeLookups(items: seq<MessageView>, id: RequestId, state: MessageState,
                      execution: Option<TaskRef>, reason: Option<Reason>)
    requires Distinct(items) && id in ById(items)
    ensures var after := ChangeMessage(items, id, state, execution, reason);
            && Distinct(after)
            && ById(after) == ById(items)[id := Changed(ById(items)[id], state, execution, reason)]
            && |after| == |items|
  {
    hide *;
    var at := Position(items, id);
    ChangeShape(items, id, state, execution, reason);
    WithoutLookups(items, at);
    PushLookups(Without(items, at), Changed(items[at], state, execution, reason));
  }

  // ------------------------------------------------------------- pruning

  lemma {:induction false} PrunableCountConcat(a: seq<MessageView>, b: seq<MessageView>, pending: Option<RequestId>)
    ensures PrunableCount(a + b, pending) == PrunableCount(a, pending) + PrunableCount(b, pending)
  {
    if a == [] {
      assert a + b == b;
    } else {
      assert (a + b)[1..] == a[1..] + b;
      PrunableCountConcat(a[1..], b, pending);
    }
  }

  lemma CountWithout(items: seq<MessageView>, pending: Option<RequestId>, at: nat)
    requires at < |items| && Prunable(items[at], pending)
    ensures PrunableCount(Without(items, at), pending) == PrunableCount(items, pending) - 1
  {
    var head, tail := items[..at], items[at + 1..];
    assert items == head + ([items[at]] + tail) && ([items[at]] + tail)[1..] == tail;
    PrunableCountConcat(head, tail, pending);
    PrunableCountConcat(head, [items[at]] + tail, pending);
  }

  /** Pruning removes only settled receipts of other requests, and leaves eight of them or all. */
  lemma {:induction false} PruneLookups(items: seq<MessageView>, pending: Option<RequestId>)
    requires Distinct(items)
    ensures var kept := Prune(items, pending);
            && Distinct(kept)
            && |kept| <= |items|
            && ById(kept).Keys <= ById(items).Keys
            && (forall id :: id in ById(kept) ==> ById(kept)[id] == ById(items)[id])
            && (forall id :: id in ById(items) && !Prunable(ById(items)[id], pending) ==> id in ById(kept))
            && PrunableCount(kept, pending) == (if PrunableCount(items, pending) <= 8 then PrunableCount(items, pending) else 8)
    decreases |items|
  {
    if PrunableCount(items, pending) > SETTLED_LIMIT {
      var at := FirstPrunable(items, pending);
      CountWithout(items, pending, at);
      WithoutLookups(items, at);
      AtPosition(items, at);
      PruneLookups(Without(items, at), pending);
    }
  }

  function PrunableIds(items: seq<MessageView>, pending: Option<RequestId>): set<RequestId> {
    set v | v in items && Prunable(v, pending) :: v.id
  }

  lemma HeadIsFresh(items: seq<MessageView>)
    requires Distinct(items) && items != []
    ensures Distinct(items[1..]) && items[0].id !in Ids(items[1..])
    ensures Ids(items) == {items[0].id} + Ids(items[1..])
  {
    assert items == [items[0]] + items[1..];
  }

  /** Under distinct identities, counting positions is counting identities. */
  lemma {:induction false} CountIds(items: seq<MessageView>)
    requires Distinct(items)
    ensures |Ids(items)| == |items|
  {
    if items == [] {
      assert Ids(items) == {};
    } else {
      HeadIsFresh(items);
      CountIds(items[1..]);
    }
  }

  lemma PrunableIdsOfHead(items: seq<MessageView>, pending: Option<RequestId>)
    requires items != []
    ensures PrunableIds(items, pending)
            == (if Prunable(items[0], pending) then {items[0].id} else {}) + PrunableIds(items[1..], pending)
  {
    assert items == [items[0]] + items[1..];
  }

  lemma {:induction false} CountPrunable(items: seq<MessageView>, pending: Option<RequestId>)
    requires Distinct(items)
    ensures |PrunableIds(items, pending)| == PrunableCount(items, pending)
  {
    if items == [] {
      assert PrunableIds(items, pending) == {};
    } else {
      HeadIsFresh(items);
      CountPrunable(items[1..], pending);
      PrunableIdsOfHead(items, pending);
      assert items[0].id !in PrunableIds(items[1..], pending);
    }
  }
}
