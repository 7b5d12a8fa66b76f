/** What the client is shown: the sorted message tray and the masked project observations. */
module ClientTray {
  import opened ChatTypes
  import opened Wrappers
  import opened Transcript
  import opened Protocol
  import M = Messages

  // --------------------------------------------------------------- sorting

  function Priority(state: MessageState): nat {
    match state
    case AwaitingOutcome => 0
    case UnknownOutcome => 0
    case Held => 1
    case Queued => 2
    case Acknowledged => 3
    case Running => 4
    case _ => 5
  }

  datatype RowKey = RowKey(priority: nat, sequence: nat)

  function Key(v: MessageView): RowKey {
    RowKey(Priority(v.state), if v.state == Queued then v.id.sequence else 0)
  }

  predicate KeyLeq(a: RowKey, b: RowKey) {
    a.priority < b.priority || (a.priority == b.priority && a.sequence <= b.sequence)
  }

  /** Insert before the first row whose key is not smaller. */
  function Insert(v: MessageView, rows: seq<MessageView>): seq<MessageView> {
    if rows == [] || KeyLeq(Key(v), Key(rows[0])) then [v] + rows
    else [rows[0]] + Insert(v, rows[1..])
  }

  /** A stable sort by key. */
  function SortRows(rows: seq<MessageView>): seq<MessageView> {
    if rows == [] then [] else Insert(rows[0], SortRows(rows[1..]))
  }

  ghost predicate Sorted(rows: seq<MessageView>) {
    forall i, j :: 0 <= i < j < |rows| ==> KeyLeq(Key(rows[i]), Key(rows[j]))
  }

  /** The rows with a given key, in their order. */
  function WithKey(rows: seq<MessageView>, k: RowKey): seq<MessageView> {
    if rows == [] then []
    else if Key(rows[0]) == k then [rows[0]] + WithKey(rows[1..], k)
    else WithKey(rows[1..], k)
  }

  function Reversed(rows: seq<MessageView>): seq<MessageView> {
    if rows == [] then [] else Reversed(rows[1..]) + [rows[0]]
  }

  lemma {:induction false} InsertSorts(v: MessageView, rows: seq<MessageView>)
    requires Sorted(rows)
    ensures Sorted(Insert(v, rows))
    ensures multiset(Insert(v, rows)) == multiset(rows) + multiset{v}
    ensures |Insert(v, rows)| == |rows| + 1
  {
    if rows == [] || KeyLeq(Key(v), Key(rows[0])) {
    } else {
      var tail := Insert(v, rows[1..]);
      InsertSorts(v, rows[1..]);
      assert rows == [rows[0]] + rows[1..];
      forall j | 0 <= j < |tail|
        ensures KeyLeq(Key(rows[0]), Key(tail[j]))
      {
        assert tail[j] in multiset(tail);
        assert tail[j] in multiset(rows[1..]) + multiset{v};
        if tail[j] != v {
          assert tail[j] in rows[1..];
        }
      }
    }
  }

  lemma {:induction false} InsertKeepsOrder(v: MessageView, rows: seq<MessageView>, k: RowKey)
    ensures WithKey(Insert(v, rows), k) == WithKey([v] + rows, k)
  {
    assert ([v] + rows)[1..] == rows;
    if rows == [] || KeyLeq(Key(v), Key(rows[0])) {
    } else {
      InsertKeepsOrder(v, rows[1..], k);
      assert ([v] + rows[1..])[1..] == rows[1..];
      assert ([rows[0]] + Insert(v, rows[1..]))[1..] == Insert(v, rows[1..]);
    }
  }

  /** The tray sort orders rows by key, loses and invents none, and keeps the order of equal keys. */
  lemma {:induction false} SortIsStable(rows: seq<MessageView>, k: RowKey)
    ensures Sorted(SortRows(rows))
    ensures multiset(SortRows(rows)) == multiset(rows)
    ensures |SortRows(rows)| == |rows|
    ensures WithKey(SortRows(rows), k) == WithKey(rows, k)
  {
    if rows != [] {
      SortIsStable(rows[1..], k);
      InsertSorts(rows[0], SortRows(rows[1..]));
      InsertKeepsOrder(rows[0], SortRows(rows[1..]), k);
      assert rows == [rows[0]] + rows[1..];
      assert ([rows[0]] + SortRows(rows[1..]))[1..] == SortRows(rows[1..]);
    }
  }

  lemma {:induction false} WithKeyConcat(a: seq<MessageView>, b: seq<MessageView>, k: RowKey)
    ensures WithKey(a + b, k) == WithKey(a, k) + WithKey(b, k)
  {
    if a == [] {
      assert a + b == b;
    } else {
      assert (a + b)[1..] == a[1..] + b;
      WithKeyConcat(a[1..], b, k);
    }
  }

  lemma {:induction false} ReversedConcat(a: seq<MessageView>, b: seq<MessageView>)
    ensures Reversed(a + b) == Reversed(b) + Reversed(a)
  {
    if a == [] {
      assert a + b == b;
    } else {
      assert (a + b)[1..] == a[1..] + b;
      ReversedConcat(a[1..], b);
    }
  }

  lemma {:induction false} ReversedKeepsRows(rows: seq<MessageView>, k: RowKey)
    ensures multiset(Reversed(rows)) == multiset(rows) && |Reversed(rows)| == |rows|
    ensures WithKey(Reversed(rows), k) == Reversed(WithKey(rows, k))
  {
    if rows != [] {
      ReversedKeepsRows(rows[1..], k);
      assert rows == [rows[0]] + rows[1..];
      WithKeyConcat(Reversed(rows[1..]), [rows[0]], k);
      assert [rows[0]][1..] == [];
      if Key(rows[0]) == k {
        ReversedConcat([rows[0]], WithKey(rows[1..], k));
        assert Reversed([rows[0]]) == [rows[0]];
      }
    }
  }

  // -------------------------------------------------------------- the tray

  function MarkStale(items: seq<MessageView>, stale: bool): (marked: seq<MessageView>)
    ensures |marked| == |items|
    ensures forall i :: 0 <= i < |items| ==> marked[i] == items[i].(stale := stale)
  {
    if items == [] then [] else [items[0].(stale := stale)] + MarkStale(items[1..], stale)
  }

  /** The pending request as the client knows it: its text, but not its outcome or assignment. */
  function PendingRow(v: MessageView, unknown: bool): MessageView {
    v.(state := if unknown then UnknownOutcome else AwaitingOutcome, execution := None, reason := None, stale := false)
  }

  function Merged(s: State): seq<MessageView> {
    var shown := MarkStale(s.delivered.items, Blocked(s));
    if s.pending.None? then shown
    else
      var at := M.Position(s.messages.items, s.pending.value.request.id);
      if at == |s.messages.items| then shown
      else DropId(shown, s.pending.value.request.id) + [PendingRow(s.messages.items[at], s.pending.value.unknown)]
  }

  function Tray(s: State): MessageTray {
    MessageTray(SortRows(Reversed(Merged(s))), s.delivered.historyTrimmed)
  }

  /** Rows of equal rank appear newest transition first. */
  lemma TrayOrder(s: State, k: RowKey)
    ensures Sorted(Tray(s).items)
    ensures multiset(Tray(s).items) == multiset(Merged(s)) && |Tray(s).items| == |Merged(s)|
    ensures WithKey(Tray(s).items, k) == Reversed(WithKey(Merged(s), k))
  {
    hide Merged, SortRows, Reversed, WithKey, Sorted;
    SortIsStable(Reversed(Merged(s)), k);
    ReversedKeepsRows(Merged(s), k);
  }

  // -------------------------------------------------------- masked readers

  datatype Git = Git(branchCharacters: nat, added: nat, removed: nat, rebasing: bool)

  datatype Status = Status(project: Project, git: Option<Git>, contextUsedPercent: Option<nat>)

  function ProjectStatus(s: State): Status {
    var known := match s.scope.project
      case Studio => Status(Studio, Some(Git(4, 24, 8, false)), Some(18))
      case Observatory => Status(Observatory, Some(Git(12, 103, 21, true)), Some(42));
    if Blocked(s) then Status(known.project, None, None) else known
  }

  function DisplayTask(s: State): Option<Task> {
    if Blocked(s) then None else s.task
  }

  function DisplayQueuedCount(s: State): Option<nat> {
    if Blocked(s) then None else Some(|s.queued|)
  }

  function DisplayRecoverable(s: State): Option<seq<Retained>> {
    if Blocked(s) then None else Some(s.recoverable)
  }

  /** The catalogue shown to the client: empty and incomplete while delivery is withheld, but
      still carrying the current revision number. */
  function DisplayCatalogue(s: State): (u64, bool, Option<Catalogue>) {
    if Blocked(s) then (s.catalogue.revision, false, None) else (s.catalogue.revision, s.catalogue.complete, Some(s.catalogue))
  }

  /** Everything the client can read except the catalogue. */
  datatype View = View(
    tray: MessageTray,
    transcript: seq<Entry>,
    truncated: bool,
    baseId: nat,
    task: Option<Task>,
    queuedCount: Option<nat>,
    recoverable: Option<seq<Retained>>,
    status: Status)

  function ViewOf(s: State): View {
    View(Tray(s), s.display.transcript, s.display.truncated, s.display.baseId,
         DisplayTask(s), DisplayQueuedCount(s), DisplayRecoverable(s), ProjectStatus(s))
  }
}
