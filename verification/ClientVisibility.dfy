/** What the client can tell: nothing while delivery is withheld, and the queue in order otherwise. */
module ClientVisibility {
  import opened ChatTypes
  import opened Wrappers
  import opened Transcript
  import opened Protocol
  import opened ProtocolInvariant
  import opened ProtocolSteps
  import opened ProtocolSafety
  import opened ProtocolEvolution
  import opened ProtocolTheorems
  import opened ClientTray
  import M = Messages

  // ------------------------------------------------------ the pending row

  /** The pending row is determined by the request alone. */
  function RowOf(p: Pending): MessageView {
    MessageView(p.request.id, p.request.target, p.request.action, p.request.text,
                if p.unknown then UnknownOutcome else AwaitingOutcome, None, None, false)
  }

  function MergedFrom(delivered: seq<MessageView>, blocked: bool, p: Option<Pending>): seq<MessageView> {
    var shown := MarkStale(delivered, blocked);
    if p.None? then shown else DropId(shown, p.value.request.id) + [RowOf(p.value)]
  }

  lemma MergedIsFromDelivered(s: State)
    requires Projection(s)
    ensures Merged(s) == MergedFrom(s.delivered.items, Blocked(s), s.pending)
  {
    hide RoleOk, Shown, MarkStale, DropId, RetainedIds;
    if s.pending.Some? {
      var id := s.pending.value.request.id;
      var at := M.Position(s.messages.items, id);
      assert id in M.ById(s.messages.items);
      assert Shows(s.messages.items[at], s.pending.value.request);
    }
  }

  // ------------------------------------------------------------ no leakage

  /** What the client's view is computed from while delivery is withheld. */
  ghost predicate Quiet(s: State, t: State) {
    && t.scope == s.scope && t.connected == s.connected && t.deliveryHeld == s.deliveryHeld
    && t.pending == s.pending && t.delivered == s.delivered
    && t.display.transcript == s.display.transcript && t.display.truncated == s.display.truncated
    && t.display.baseId == s.display.baseId
  }

  lemma QuietView(s: State, t: State)
    requires Projection(s) && Projection(t) && Quiet(s, t) && Blocked(s)
    ensures ViewOf(t) == ViewOf(s)
  {
    hide Projected, Merged, SortRows, Reversed;
    MergedIsFromDelivered(s);
    MergedIsFromDelivered(t);
  }

  lemma EmitIsQuiet(s: State, e: Entry)
    requires Blocked(s)
    ensures Quiet(s, Emit(s, e))
  {
    hide Trim, Bytes;
  }

  lemma RefreshIsQuiet(s: State)
    requires Blocked(s)
    ensures Quiet(s, Refresh(s))
  {
    hide Refresh;
    RefreshFrame(s);
  }

  lemma {:induction false} HoldFrame(s: State, i: nat, filter: Filter, reason: Reason)
    requires i <= |s.queued|
    ensures OnlyHeld(s, HoldFrom(s, i, filter, reason))
    decreases |s.queued| - i
  {
    hide M.ChangeMessage, Selected;
    if i < |s.queued| {
      if Selected(filter, s.queued[i].request) {
        HoldFrame(HoldAt(s, i, reason), i, filter, reason);
      } else {
        HoldFrame(s, i + 1, filter, reason);
      }
    }
  }

  lemma HoldIsQuiet(s: State, filter: Filter, reason: Reason)
    ensures Quiet(s, HoldFrom(s, 0, filter, reason))
    ensures HoldFrom(s, 0, filter, reason).catalogue == s.catalogue
  {
    hide HoldFrom;
    HoldFrame(s, 0, filter, reason);
  }

  lemma FinishIsQuiet(s: State, state: MessageState, reason: Option<Reason>)
    requires s.task.Some?
    ensures Quiet(s, FinishTurn(s, state, reason))
  {
    hide FinishedItems;
  }

  lemma StartIsQuiet(s: State)
    requires s.queued != [] && s.nextTask < U64_MAX && Blocked(s)
    ensures Quiet(s, StartNext(s))
    ensures StartNext(s).catalogue == s.catalogue
  {
    hide M.ChangeMessage, Trim, Bytes;
  }

  lemma CompleteIsQuiet(s: State, nowMs: u64)
    requires Blocked(s)
    ensures Quiet(s, Complete(s, nowMs)) && Complete(s, nowMs).catalogue == s.catalogue
  {
    hide FinishTurn, Emit, StartNext, HoldFrom, Refresh;
    var timed := s.(nowMs := Later(s.nowMs, nowMs));
    if timed.task.Some? {
      var finished := FinishTurn(timed, Completed, None);
      FinishIsQuiet(timed, Completed, None);
      FinishKeepsCatalogue(timed, Completed, None);
      EmitIsQuiet(finished, Notice(TaskCompleted));
      EmitShape(finished, Notice(TaskCompleted));
      var ended := Emit(finished, Notice(TaskCompleted));
      if ended.queued == [] {
        RefreshIsQuiet(ended);
        RefreshFrame(ended);
      } else if ended.nextTask < U64_MAX {
        StartIsQuiet(ended);
        RefreshIsQuiet(StartNext(ended));
        RefreshFrame(StartNext(ended));
      } else {
        var held := HoldFrom(ended, 0, Everything, Refused(IdentityExhausted));
        HoldIsQuiet(ended, Everything, Refused(IdentityExhausted));
        RefreshIsQuiet(held);
        RefreshFrame(held);
      }
    }
  }

  lemma FinishKeepsCatalogue(s: State, state: MessageState, reason: Option<Reason>)
    requires s.task.Some?
    ensures FinishTurn(s, state, reason).catalogue == s.catalogue
  {
    hide FinishedItems;
  }

  lemma EndIsQuiet(s: State, state: MessageState, reason: Reason)
    requires Blocked(s)
    ensures Quiet(s, EndUnsuccessfully(s, state, reason)) && EndUnsuccessfully(s, state, reason).catalogue == s.catalogue
  {
    hide FinishTurn, Emit, HoldFrom, Refresh;
    if s.task.Some? {
      var finished := FinishTurn(s, state, Some(reason));
      FinishIsQuiet(s, state, Some(reason));
      FinishKeepsCatalogue(s, state, Some(reason));
      var held := HoldFrom(finished, 0, Everything, reason);
      HoldIsQuiet(finished, Everything, reason);
      EmitIsQuiet(held, Notice(EndedLine(reason)));
      EmitShape(held, Notice(EndedLine(reason)));
      RefreshIsQuiet(Emit(held, Notice(EndedLine(reason))));
      RefreshFrame(Emit(held, Notice(EndedLine(reason))));
    }
  }

  lemma ToggleIsQuiet(s: State)
    requires Blocked(s)
    ensures Quiet(s, ToggleDecision(s)) && ToggleDecision(s).catalogue == s.catalogue
  {
    hide Trim, Bytes;
  }

  lemma RespondIsQuiet(s: State, target: Target, id: u64, answer: DecisionAction)
    requires Blocked(s)
    ensures Quiet(s, Respond(s, target, id, answer)) && Respond(s, target, id, answer).catalogue == s.catalogue
  {
    hide Trim, Bytes, EndUnsuccessfully;
    EndIsQuiet(s, Stopped, WorkStopped);
  }

  lemma SourcesAreQuiet(s: State, source: Source, available: bool)
    requires Blocked(s)
    ensures Quiet(s, ChangeSources(s, available)) && Quiet(s, ReplaceSource(s, source, available))
    ensures ChangeSources(s, available).catalogue.revision == s.catalogue.revision + (if CanChangeSources(s) then 1 else 0)
    ensures ReplaceSource(s, source, available).catalogue.revision == s.catalogue.revision + (if CanReplaceSource(s, source) then 1 else 0)
  {
    hide HoldFrom, Refresh;
    if CanChangeSources(s) {
      var c := s.catalogue;
      var changed := s.(catalogue := Catalogue(c.revision + 1, c.complete, Moved(c.core, available), Moved(c.checks, available),
                                               Moved(c.other, available), Moved(c.skill, available)));
      HoldIsQuiet(changed, AnyCommand, SourceUnavailable);
      RefreshIsQuiet(HoldFrom(changed, 0, AnyCommand, SourceUnavailable));
      RefreshFrame(HoldFrom(changed, 0, AnyCommand, SourceUnavailable));
    }
    if CanReplaceSource(s, source) {
      var moved := Moved(SourceOf(s.catalogue, source), available);
      var changed := s.(catalogue := WithSource(s.catalogue, source, moved).(revision := s.catalogue.revision + 1));
      HoldIsQuiet(changed, CommandFrom(source), SourceUnavailable);
      RefreshIsQuiet(HoldFrom(changed, 0, CommandFrom(source), SourceUnavailable));
      RefreshFrame(HoldFrom(changed, 0, CommandFrom(source), SourceUnavailable));
    }
  }

  /** The operations that neither acknowledge, nor change the connection, nor reset. */
  predicate Unseen(s: State, step: Step) {
    match step
    case DoAcknowledge(id) => !CanAcknowledge(s, id)
    case DoAdvance(nowMs) => !s.connected || s.pending.None? || Later(s.nowMs, nowMs) < s.pending.value.dueMs
    case DoSetConnected(connected) => !CanSetConnected(s, connected)
    case DoLoseAcknowledgement(_) => !s.connected || s.pending.None?
    case DoReset => s.scope.generation == U64_MAX
    case _ => true
  }

  lemma DeliveryOf(s: State)
    requires Inv(s)
    ensures DeliveryOk(s.deliveryHeld, s.connected, s.pending, s.connectionRevision)
  {
    hide Sound, Synced, Waiting, DeliveryOk;
  }

  lemma AdvanceIsQuiet(s: State, nowMs: u64)
    requires Blocked(s) && Unseen(s, DoAdvance(nowMs))
    ensures Quiet(s, Advance(s, nowMs)) && Advance(s, nowMs).catalogue == s.catalogue
  {
    hide Complete, AcknowledgePending;
    var timed := s.(nowMs := Later(s.nowMs, nowMs));
    CompleteIsQuiet(timed, timed.nowMs);
  }

  lemma SubmitIsRefused(s: State, target: Target, action: Action, text: string)
    requires DeliveryOk(s.deliveryHeld, s.connected, s.pending, s.connectionRevision) && Blocked(s)
    ensures SubmitRefusal(s, target, action, text).Some?
  {
    hide TextBytes, Blank;
  }

  /** Refused operations change at most the clock. */
  lemma RefusalsAreQuiet(s: State, step: Step)
    requires DeliveryOk(s.deliveryHeld, s.connected, s.pending, s.connectionRevision) && Blocked(s) && Unseen(s, step)
    requires step.DoSubmit? || step.DoSubmitCommand? || step.DoAccept? || step.DoAcknowledge? || step.DoLoseAcknowledgement?
             || step.DoSetConnected? || step.DoDiscard? || step.DoReset?
    ensures Next(s, step) == s.(nowMs := Next(s, step).nowMs)
  {
    hide Decide, Refresh, Switch, Deliver, Resolve, AcknowledgePending, Fresh, SubmitRefusal, ValidateCommand, ArgumentsMatch,
      TextBytes, RetainedIds, CommandName, Requests;
    match step
    case DoSubmit(target, action, _, text, _) => SubmitIsRefused(s, target, action, text);
    case DoSubmitCommand(capture, raw, _) => SubmitIsRefused(s, capture.target, capture.action, raw);
    case _ =>
  }

  lemma UnseenIsQuiet(s: State, step: Step)
    requires Inv(s) && Blocked(s) && Unseen(s, step)
    ensures Quiet(s, Next(s, step))
    ensures Next(s, step).catalogue.revision
            == s.catalogue.revision + (if (step.DoChangeSources? && CanChangeSources(s))
                                          || (step.DoReplaceSource? && CanReplaceSource(s, step.source)) then 1 else 0)
  {
    hide Inv, Submit, SubmitCommand, Accept, Acknowledge, LoseAcknowledgement, Complete, EndUnsuccessfully, ToggleDecision, Respond,
      ChangeSources, ReplaceSource, Advance, SetConnected, Discard, Reset, CanChangeSources, CanReplaceSource, Unseen, DeliveryOk;
    DeliveryOf(s);
    match step
    case DoAdvance(nowMs) => AdvanceIsQuiet(s, nowMs);
    case DoComplete(nowMs) => CompleteIsQuiet(s, nowMs);
    case DoStop => EndIsQuiet(s, Stopped, WorkStopped);
    case DoFail => EndIsQuiet(s, Failed, WorkFailed);
    case DoToggleDecision => ToggleIsQuiet(s);
    case DoRespond(target, decision, answer) => RespondIsQuiet(s, target, decision, answer);
    case DoRejectNext =>
    case DoChangeSources(available) => SourcesAreQuiet(s, NoSource, available);
    case DoReplaceSource(source, available) => SourcesAreQuiet(s, source, available);
    case DoSetCatalogueComplete(_) =>
    case _ => RefusalsAreQuiet(s, step);
  }

  lemma ProjectionOfInv(s: State)
    requires Inv(s)
    ensures Projection(s)
  {
    hide Projected, Ordered, Ledgered, TargetsOk, Protected, DeliveredOk, DeliveryOk, Sourced, DisplayOk, Synced, Waiting;
  }

  /** Every step of a run is unseen at the state where it happens. */
  ghost predicate AllUnseen(s: State, steps: seq<Step>)
    decreases |steps|
  {
    steps != [] ==> Unseen(s, steps[0]) && AllUnseen(Next(s, steps[0]), steps[1..])
  }

  /** Hidden effects do not leak: while delivery is withheld, any sequence of completions, failures,
      stops, progress, decisions and source changes leaves the whole view of the client unchanged:
      tray, transcript, identities, task, queue length, recovered texts and project status. */
  lemma {:induction false} HiddenEffectsDoNotLeak(s: State, steps: seq<Step>)
    requires Inv(s) && Blocked(s) && AllUnseen(s, steps)
    ensures ViewOf(Run(s, steps)) == ViewOf(s) && Blocked(Run(s, steps))
    decreases |steps|
  {
    hide Inv, Next, ViewOf, Projection, Unseen;
    if steps != [] {
      var t := Next(s, steps[0]);
      UnseenIsQuiet(s, steps[0]);
      NextKeepsInv(s, steps[0]);
      ProjectionOfInv(s);
      ProjectionOfInv(t);
      QuietView(s, t);
      HiddenEffectsDoNotLeak(t, steps[1..]);
    }
  }

  /** One number does leak: the catalogue revision shown while delivery is withheld moves exactly when
      a source change happens behind the client's back. */
  lemma CatalogueRevisionLeaks(s: State, step: Step)
    requires Inv(s) && Blocked(s) && Unseen(s, step)
    ensures DisplayCatalogue(Next(s, step)) == DisplayCatalogue(s)
            <==> !((step.DoChangeSources? && CanChangeSources(s)) || (step.DoReplaceSource? && CanReplaceSource(s, step.source)))
  {
    hide Inv, Next, Unseen, CanChangeSources, CanReplaceSource;
    UnseenIsQuiet(s, step);
  }

  // ----------------------------------------------------------- tray bounds

  lemma {:induction false} DropIdMarked(items: seq<MessageView>, stale: bool, id: RequestId)
    ensures DropId(MarkStale(items, stale), id) == MarkStale(DropId(items, id), stale)
  {
    if items != [] {
      DropIdMarked(items[1..], stale, id);
    }
  }

  lemma {:induction false} DropIdIds(items: seq<MessageView>, id: RequestId)
    requires M.Distinct(items)
    ensures M.Ids(DropId(items, id)) == M.Ids(items) - {id}
    ensures |DropId(items, id)| == |items| - (if id in M.Ids(items) then 1 else 0)
  {
    if items == [] {
      assert M.Ids(items) == {};
    } else {
      M.HeadIsFresh(items);
      DropIdIds(items[1..], id);
      if items[0].id != id {
        var rest := DropId(items[1..], id);
        assert M.Ids([items[0]] + rest) == {items[0].id} + M.Ids(rest);
      }
    }
  }

  lemma MarkedIds(items: seq<MessageView>, stale: bool)
    ensures M.Ids(MarkStale(items, stale)) == M.Ids(items)
  {
    var marked := MarkStale(items, stale);
    forall id | id in M.Ids(items)
      ensures id in M.Ids(marked)
    {
      var i :| 0 <= i < |items| && items[i].id == id;
      assert marked[i] in marked;
    }
  }

  lemma SameRowsSameIds(a: seq<MessageView>, b: seq<MessageView>)
    requires multiset(a) == multiset(b)
    ensures M.Ids(a) == M.Ids(b)
  {
    assert forall v :: v in a <==> v in multiset(a);
    assert forall v :: v in b <==> v in multiset(b);
  }

  lemma RowsStay(items: seq<MessageView>, blocked: bool, p: Option<Pending>, v: MessageView)
    requires v in items && !(p.Some? && p.value.request.id == v.id)
    ensures v.(stale := blocked) in MergedFrom(items, blocked, p)
  {
    var i :| 0 <= i < |items| && items[i] == v;
    var shown := MarkStale(items, blocked);
    assert shown[i] == v.(stale := blocked);
    if p.Some? {
      DropIdKeeps(shown, p.value.request.id, v.(stale := blocked));
    }
  }

  lemma {:induction false} DropIdKeeps(items: seq<MessageView>, id: RequestId, v: MessageView)
    requires v in items && v.id != id
    ensures v in DropId(items, id)
  {
    if items[0] != v {
      DropIdKeeps(items[1..], id, v);
    }
  }

  /** The tray lists exactly the delivered receipts, the pending one in its client-side form and the
      others as delivered but marked stale while delivery is withheld, each once and at most seventeen
      in all. */
  lemma TrayIsBounded(s: State)
    requires Inv(s)
    ensures M.Ids(Tray(s).items) == M.Ids(s.delivered.items)
    ensures |Tray(s).items| == |s.delivered.items| == |M.Ids(Tray(s).items)| <= TRAY_LIMIT
    ensures s.pending.Some? ==> RowOf(s.pending.value) in Tray(s).items
    ensures forall v :: v in s.delivered.items && PendingId(s) != Some(v.id) ==> v.(stale := !s.connected || s.deliveryHeld) in Tray(s).items
  {
    ProjectionOfInv(s);
    MergedIsFromDelivered(s);
    DeliveredOf(s);
    hide Inv, Merged, Projection, SortRows, Reversed, Sorted;
    TrayOrder(s, RowKey(0, 0));
    SameRowsSameIds(Tray(s).items, Merged(s));
    var items := s.delivered.items;
    M.CountIds(items);
    MergedRows(items, Blocked(s), s.pending);
    forall v | v in items && PendingId(s) != Some(v.id) ensures v.(stale := Blocked(s)) in Tray(s).items {
      RowsStay(items, Blocked(s), s.pending, v);
      assert v.(stale := Blocked(s)) in multiset(Merged(s));
    }
    if s.pending.Some? {
      assert RowOf(s.pending.value) in multiset(Merged(s));
    }
  }

  lemma DeliveredOf(s: State)
    requires Inv(s)
    ensures DeliveredOk(s.delivered.items, s.pending)
  {
    hide Linked, DeliveredOk, DeliveryOk, Sourced, DisplayOk, Synced, Waiting;
  }

  lemma MergedRows(items: seq<MessageView>, blocked: bool, p: Option<Pending>)
    requires DeliveredOk(items, p)
    ensures M.Ids(MergedFrom(items, blocked, p)) == M.Ids(items) && |MergedFrom(items, blocked, p)| == |items|
    ensures p.Some? ==> RowOf(p.value) in MergedFrom(items, blocked, p)
  {
    if p.None? {
      MarkedIds(items, blocked);
    } else {
      var id := p.value.request.id;
      DropIdMarked(items, blocked, id);
      DropIdIds(items, id);
      MarkedIds(DropId(items, id), blocked);
      var rest := DropId(MarkStale(items, blocked), id);
      assert M.Ids(rest + [RowOf(p.value)]) == M.Ids(rest) + {id};
    }
  }

  // ------------------------------------------------------------ tray order

  function QueuedSequences(rows: seq<MessageView>): seq<u64> {
    if rows == [] then []
    else if rows[0].state == Queued then [rows[0].id.sequence] + QueuedSequences(rows[1..])
    else QueuedSequences(rows[1..])
  }

  function Sequences(list: seq<Retained>): seq<u64> {
    if list == [] then [] else [list[0].request.id.sequence] + Sequences(list[1..])
  }

  ghost predicate Strict(a: seq<u64>) {
    forall i, j :: 0 <= i < j < |a| ==> a[i] < a[j]
  }

  /** Strictly increasing lists with the same elements are equal. */
  lemma {:induction false} StrictListsAreEqual(a: seq<u64>, b: seq<u64>)
    requires Strict(a) && Strict(b)
    requires forall x :: x in a <==> x in b
    ensures a == b
  {
    if a == [] {
      assert forall i :: 0 <= i < |b| ==> b[i] in b;
    } else {
      assert a[0] in b && b != [];
      assert b[0] in a;
      assert a[0] == b[0];
      forall x
        ensures x in a[1..] <==> x in b[1..]
      {
        if x in a[1..] {
          var i :| 1 <= i < |a| && a[i] == x;
          assert x in b && x != b[0];
        }
        if x in b[1..] {
          var i :| 1 <= i < |b| && b[i] == x;
          assert x in a && x != a[0];
        }
      }
      StrictListsAreEqual(a[1..], b[1..]);
    }
  }

  lemma StrictCons(x: u64, a: seq<u64>)
    requires Strict(a) && forall y :: y in a ==> x < y
    ensures Strict([x] + a)
  {
    forall i, j | 0 <= i < j < |[x] + a|
      ensures ([x] + a)[i] < ([x] + a)[j]
    {
      assert ([x] + a)[j] == a[j - 1] && a[j - 1] in a;
    }
  }

  lemma {:induction false} SequencesStrict(list: seq<Retained>)
    requires Increasing(list)
    ensures Strict(Sequences(list))
    ensures forall x :: x in Sequences(list) <==> exists i :: 0 <= i < |list| && list[i].request.id.sequence == x
  {
    if list != [] {
      SequencesStrict(list[1..]);
      assert list == [list[0]] + list[1..];
      forall x | x in Sequences(list[1..])
        ensures list[0].request.id.sequence < x
      {
        var i :| 0 <= i < |list[1..]| && list[1..][i].request.id.sequence == x;
        assert list[1..][i] == list[i + 1];
      }
      StrictCons(list[0].request.id.sequence, Sequences(list[1..]));
      forall x
        ensures x in Sequences(list) <==> exists i :: 0 <= i < |list| && list[i].request.id.sequence == x
      {
        if x in Sequences(list) && x != list[0].request.id.sequence {
          var i :| 0 <= i < |list[1..]| && list[1..][i].request.id.sequence == x;
          assert list[i + 1].request.id.sequence == x;
        }
        if i :| 0 <= i < |list| && list[i].request.id.sequence == x && i > 0 {
          assert list[1..][i - 1].request.id.sequence == x;
        }
      }
    }
  }

  lemma {:induction false} QueuedSequencesMembers(rows: seq<MessageView>, x: u64)
    ensures x in QueuedSequences(rows) <==> exists v :: v in rows && v.state == Queued && v.id.sequence == x
  {
    if rows != [] {
      assert rows == [rows[0]] + rows[1..];
      QueuedSequencesMembers(rows[1..], x);
      if x in QueuedSequences(rows[1..]) {
        var v :| v in rows[1..] && v.state == Queued && v.id.sequence == x;
        assert v in rows;
      }
    }
  }

  lemma LaterRowsFollow(rows: seq<MessageView>, scope: Scope, x: u64)
    requires rows != [] && Sorted(rows) && M.Distinct(rows) && forall v :: v in rows ==> v.id.scope == scope
    requires rows[0].state == Queued && x in QueuedSequences(rows[1..])
    ensures rows[0].id.sequence < x
  {
    QueuedSequencesMembers(rows[1..], x);
    var v :| v in rows[1..] && v.state == Queued && v.id.sequence == x;
    var i :| 0 <= i < |rows[1..]| && rows[1..][i] == v;
    hide QueuedSequences;
    assert rows[i + 1] == v && rows[0].id != rows[i + 1].id && KeyLeq(Key(rows[0]), Key(rows[i + 1]));
    assert rows[0] in rows && rows[i + 1] in rows;
  }

  /** Queued rows of a sorted tray with one scope and distinct identities are strictly increasing. */
  lemma {:induction false} QueuedSequencesStrict(rows: seq<MessageView>, scope: Scope)
    requires Sorted(rows) && M.Distinct(rows) && forall v :: v in rows ==> v.id.scope == scope
    ensures Strict(QueuedSequences(rows))
  {
    hide Strict, Key, KeyLeq;
    if rows == [] {
      StrictEmpty();
    } else {
      QueuedSequencesStrict(rows[1..], scope);
      if rows[0].state == Queued {
        forall x | x in QueuedSequences(rows[1..])
          ensures rows[0].id.sequence < x
        {
          LaterRowsFollow(rows, scope, x);
        }
        StrictCons(rows[0].id.sequence, QueuedSequences(rows[1..]));
      }
    }
  }

  lemma StrictEmpty()
    ensures Strict([])
  {
  }

  lemma DistinctByCount(rows: seq<MessageView>)
    requires |M.Ids(rows)| == |rows|
    ensures M.Distinct(rows)
  {
    if i, j :| 0 <= i < j < |rows| && rows[i].id == rows[j].id {
      var rest := rows[..j] + rows[j + 1..];
      assert M.Ids(rest) == M.Ids(rows) by {
        forall id | id in M.Ids(rows)
          ensures id in M.Ids(rest)
        {
          var k :| 0 <= k < |rows| && rows[k].id == id;
          var at := if k == j then i else k;
          assert rest[if at < j then at else at - 1] == rows[at];
          assert rest[if at < j then at else at - 1] in rest;
        }
      }
      IdsSize(rest);
    }
  }

  lemma {:induction false} IdsSize(rows: seq<MessageView>)
    ensures |M.Ids(rows)| <= |rows|
  {
    if rows == [] {
      assert M.Ids(rows) == {};
    } else {
      IdsSize(rows[1..]);
      assert rows == [rows[0]] + rows[1..];
      assert M.Ids(rows) == {rows[0].id} + M.Ids(rows[1..]);
    }
  }

  lemma {:induction false} DropIdMembers(items: seq<MessageView>, id: RequestId, v: MessageView)
    ensures v in DropId(items, id) <==> v in items && v.id != id
  {
    if items != [] {
      DropIdMembers(items[1..], id, v);
    }
  }

  lemma MarkedMembers(items: seq<MessageView>, stale: bool, state: MessageState)
    ensures WithState(MarkStale(items, stale), state) == WithState(items, state)
  {
    var marked := MarkStale(items, stale);
    forall id | id in WithState(items, state)
      ensures id in WithState(marked, state)
    {
      var i :| 0 <= i < |items| && items[i].id == id && items[i].state == state;
      assert marked[i] in marked;
    }
  }

  lemma MergedQueued(items: seq<MessageView>, blocked: bool, p: Option<Pending>)
    ensures WithState(MergedFrom(items, blocked, p), Queued)
            == WithState(items, Queued) - (if p.Some? then {p.value.request.id} else {})
  {
    var shown := MarkStale(items, blocked);
    MarkedMembers(items, blocked, Queued);
    hide MarkStale;
    if p.Some? {
      var id := p.value.request.id;
      forall v
        ensures v in DropId(shown, id) <==> v in shown && v.id != id
      {
        DropIdMembers(shown, id, v);
      }
    }
  }

  lemma SameRowsSameStates(a: seq<MessageView>, b: seq<MessageView>, state: MessageState)
    requires multiset(a) == multiset(b)
    ensures WithState(a, state) == WithState(b, state)
  {
    assert forall v :: v in a <==> v in multiset(a);
    assert forall v :: v in b <==> v in multiset(b);
  }

  lemma ScopeOfReceipts(s: State)
    requires Inv(s) && !Blocked(s)
    ensures forall id :: id in M.Ids(s.delivered.items) ==> id.scope == s.scope
    ensures WithState(s.delivered.items, Queued) == RetainedIds(s.queued)
    ensures Increasing(s.queued)
  {
    ReceiptsMatchRequestsIn(s);
    hide Roles, Shown, Ledgered, TargetsOk, Protected, DeliveredOk, DeliveryOk, Sourced, DisplayOk, M.PrunableCount, WithState, RetainedIds;
  }

  /** Where a row stands: what awaits its outcome first, then what is held, queued, acknowledged and
      running, and what has ended last. */
  const RANKS: seq<set<MessageState>> :=
    [{AwaitingOutcome, UnknownOutcome}, {Held}, {Queued}, {Acknowledged}, {Running}, {Completed, Stopped, Failed}]

  lemma TrayRanks(s: State, i: nat, j: nat)
    requires i < j < |Tray(s).items|
    ensures var a, b := Tray(s).items[i], Tray(s).items[j];
            && (exists x, y :: 0 <= x <= y < |RANKS| && a.state in RANKS[x] && b.state in RANKS[y])
            && (a.state == b.state == Queued ==> a.id.sequence <= b.id.sequence)
  {
    hide Tray;
    var a, b := Tray(s).items[i], Tray(s).items[j];
    TrayOrder(s, RowKey(0, 0));
    assert KeyLeq(Key(a), Key(b));
    assert a.state in RANKS[Priority(a.state)] && b.state in RANKS[Priority(b.state)];
  }

  /** While delivery is withheld the client reads no task, queue, recovered text, git state, context use
      or catalogue entry; otherwise it reads what there is. */
  lemma ReadersAreExact(s: State)
    ensures !s.connected || s.deliveryHeld ==>
              && DisplayTask(s).None? && DisplayQueuedCount(s).None? && DisplayRecoverable(s).None?
              && ProjectStatus(s) == Status(s.scope.project, None, None) && DisplayCatalogue(s) == (s.catalogue.revision, false, None)
    ensures s.connected && !s.deliveryHeld ==>
              && DisplayTask(s) == s.task && DisplayQueuedCount(s) == Some(|s.queued|) && DisplayRecoverable(s) == Some(s.recoverable)
              && ProjectStatus(s).git.Some? && ProjectStatus(s).contextUsedPercent.Some?
              && DisplayCatalogue(s) == (s.catalogue.revision, s.catalogue.complete, Some(s.catalogue))
  {
  }

  /** While delivery is not withheld, the queued rows of the sorted tray list exactly the executable
      queue, in its order. */
  lemma QueuedRowsAreTheQueue(s: State)
    requires Inv(s) && !Blocked(s)
    ensures QueuedSequences(Tray(s).items) == Sequences(s.queued)
    ensures forall v :: v in Tray(s).items ==> v.id.scope == s.scope
  {
    hide Inv, Merged, Projection, SortRows, Reversed, WithState, RetainedIds, Sorted, M.Ids, Increasing;
    var rows := Tray(s).items;
    ScopeOfReceipts(s);
    TrayIsBounded(s);
    DistinctByCount(rows);
    TrayOrder(s, RowKey(0, 0));
    ProjectionOfInv(s);
    MergedIsFromDelivered(s);
    MergedQueued(s.delivered.items, Blocked(s), s.pending);
    SameRowsSameStates(rows, Merged(s), Queued);
    if s.pending.Some? {
      VisiblePendingIsUnheld(s);
    }
    assert WithState(rows, Queued) == RetainedIds(s.queued);
    RowScopes(rows, M.Ids(s.delivered.items), s.scope);
    QueuedSequencesStrict(rows, s.scope);
    SequencesStrict(s.queued);
    SameElements(rows, s.queued, s.scope);
    StrictListsAreEqual(QueuedSequences(rows), Sequences(s.queued));
  }

  lemma RowScopes(rows: seq<MessageView>, ids: set<RequestId>, scope: Scope)
    requires M.Ids(rows) == ids && forall id :: id in ids ==> id.scope == scope
    ensures forall v :: v in rows ==> v.id.scope == scope
  {
    forall v | v in rows
      ensures v.id.scope == scope
    {
      assert v.id in M.Ids(rows);
    }
  }

  lemma SameElements(rows: seq<MessageView>, queued: seq<Retained>, scope: Scope)
    requires WithState(rows, Queued) == RetainedIds(queued)
    requires forall v :: v in rows ==> v.id.scope == scope
    requires forall x :: x in Sequences(queued) <==> exists i :: 0 <= i < |queued| && queued[i].request.id.sequence == x
    ensures forall x :: x in QueuedSequences(rows) <==> x in Sequences(queued)
  {
    forall x: u64
      ensures x in QueuedSequences(rows) <==> x in Sequences(queued)
    {
      QueuedSequencesMembers(rows, x);
      if x in QueuedSequences(rows) {
        var v :| v in rows && v.state == Queued && v.id.sequence == x;
        assert v.id in WithState(rows, Queued);
        var r :| r in queued && r.request.id == v.id;
        var i :| 0 <= i < |queued| && queued[i] == r;
      }
      if x in Sequences(queued) {
        var i :| 0 <= i < |queued| && queued[i].request.id.sequence == x;
        assert queued[i] in queued && queued[i].request.id in RetainedIds(queued);
        assert queued[i].request.id in WithState(rows, Queued);
      }
    }
  }
}
