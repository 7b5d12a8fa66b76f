/** Bounded transcript retention: the delivered transcript, whose entries carry stable
    identities, and the backlog withheld while delivery is unavailable. */
module Transcript {
  import opened ChatTypes
  import opened Wrappers

  const ENTRY_LIMIT: nat := 200
  const BYTE_LIMIT: nat := 256 * 1024

  function Bytes(entries: seq<Entry>): nat {
    if entries == [] then 0 else EntryBytes(entries[0]) + Bytes(entries[1..])
  }

  predicate Fits(entries: seq<Entry>) {
    |entries| <= ENTRY_LIMIT && Bytes(entries) <= BYTE_LIMIT
  }

  /** Drop from the front, one entry at a time, until both limits hold. */
  function Trim(entries: seq<Entry>): seq<Entry> {
    if Fits(entries) then entries else Trim(entries[1..])
  }

  lemma {:induction false} BytesConcat(a: seq<Entry>, b: seq<Entry>)
    ensures Bytes(a + b) == Bytes(a) + Bytes(b)
  {
    if a == [] {
      assert a + b == b;
    } else {
      BytesConcat(a[1..], b);
      assert (a + b)[1..] == a[1..] + b;
    }
  }

  /** Trimming keeps the longest suffix within both limits. */
  lemma {:induction false} TrimIsLongestFittingSuffix(entries: seq<Entry>)
    ensures Fits(Trim(entries))
    ensures |Trim(entries)| <= |entries|
    ensures Trim(entries) == entries[|entries| - |Trim(entries)|..]
    ensures forall k :: 0 <= k <= |entries| && Fits(entries[k..]) ==> |entries| - k <= |Trim(entries)|
  {
    if !Fits(entries) {
      TrimIsLongestFittingSuffix(entries[1..]);
      forall k | 0 <= k <= |entries| && Fits(entries[k..])
        ensures |entries| - k <= |Trim(entries)|
      {
        assert k > 0 by {
          assert entries[0..] == entries;
        }
        assert entries[1..][k - 1..] == entries[k..];
      }
    }
  }

  /** The only sequence with the three properties above is the trimmed one. */
  lemma LongestFittingSuffixIsUnique(entries: seq<Entry>, d: nat)
    requires d <= |entries| && Fits(entries[d..])
    requires forall k :: 0 <= k < d ==> !Fits(entries[k..])
    ensures Trim(entries) == entries[d..]
  {
    TrimIsLongestFittingSuffix(entries);
    var t := |entries| - |Trim(entries)|;
    assert entries[t..] == Trim(entries);
  }

  /** Trimming early changes nothing: only the complete stream of entries matters. */
  lemma TrimAbsorbs(a: seq<Entry>, b: seq<Entry>)
    ensures Trim(Trim(a) + b) == Trim(a + b)
  {
    TrimIsLongestFittingSuffix(a);
    TrimIsLongestFittingSuffix(a + b);
    var da := |a| - |Trim(a)|;
    var d := |a + b| - |Trim(a + b)|;
    if d < da {
      // a suffix that starts inside the dropped part of `a` contains too much of `a`
      assert (a + b)[d..] == a[d..] + b;
      BytesConcat(a[d..], b);
      assert Fits(a[d..]);
      assert false;
    }
    var s := Trim(a) + b;
    assert forall k :: 0 <= k <= |s| ==> s[k..] == (a + b)[da + k..];
    assert s[d - da..] == (a + b)[d..];
    forall k | 0 <= k < d - da
      ensures !Fits(s[k..])
    {
      assert s[k..] == (a + b)[da + k..];
    }
    LongestFittingSuffixIsUnique(s, d - da);
  }

  /** What most users of the trimmed form need. */
  lemma TrimKeepsSuffix(entries: seq<Entry>)
    ensures Fits(Trim(entries))
    ensures |Trim(entries)| <= |entries|
    ensures |Trim(entries)| == |entries| <==> Trim(entries) == entries
  {
    TrimIsLongestFittingSuffix(entries);
  }

  // ------------------------------------------------------- display state

  datatype Display = Display(
    transcript: seq<Entry>,
    truncated: bool,
    baseId: nat,
    backlog: seq<Entry>,
    backlogBytes: nat,
    backlogTruncated: bool)

  /** Everything the owner emitted in this generation, in order; the part that received a
      display identity; the part withheld since delivery stopped; and how many withheld
      entries were discarded before they received an identity. */
  datatype Stream = Stream(emitted: seq<Entry>, published: seq<Entry>, withheld: seq<Entry>, lost: nat)

  function Publish(d: Display, e: Entry): Display {
    var kept := Trim(d.transcript + [e]);
    TrimKeepsSuffix(d.transcript + [e]);
    d.(transcript := kept,
       baseId := d.baseId + (|d.transcript| + 1 - |kept|),
       truncated := d.truncated || |kept| < |d.transcript| + 1)
  }

  function PublishAll(d: Display, entries: seq<Entry>): Display
    decreases |entries|
  {
    if entries == [] then d else PublishAll(Publish(d, entries[0]), entries[1..])
  }

  function Withhold(d: Display, e: Entry): Display {
    var kept := Trim(d.backlog + [e]);
    d.(backlog := kept,
       backlogBytes := Bytes(kept),
       backlogTruncated := d.backlogTruncated || |kept| < |d.backlog| + 1)
  }

  function Append(d: Display, blocked: bool, e: Entry): Display {
    if blocked then Withhold(d, e) else Publish(d, e)
  }

  function Flush(d: Display): Display {
    PublishAll(d.(truncated := d.truncated || d.backlogTruncated,
                  backlog := [], backlogBytes := 0, backlogTruncated := false),
               d.backlog)
  }

  function NoteAppend(st: Stream, blocked: bool, e: Entry): Stream {
    if blocked then st.(emitted := st.emitted + [e], withheld := st.withheld + [e])
    else st.(emitted := st.emitted + [e], published := st.published + [e])
  }

  function NoteFlush(st: Stream, d: Display): Stream {
    st.(published := st.published + d.backlog,
        withheld := [],
        lost := st.lost + if |st.withheld| < |d.backlog| then 0 else |st.withheld| - |d.backlog|)
  }

  /** The display is a function of the stream: the transcript is the longest fitting suffix of
      what was published, the identity of an entry is its position in the published stream,
      and the backlog is the longest fitting suffix of what is withheld. */
  ghost predicate Faithful(d: Display, st: Stream) {
    && d.transcript == Trim(st.published)
    && d.baseId == |st.published| - |d.transcript|
    && d.backlog == Trim(st.withheld)
    && d.backlogBytes == Bytes(d.backlog)
    && (d.backlogTruncated <==> |d.backlog| < |st.withheld|)
    && (d.truncated <==> d.baseId > 0 || st.lost > 0)
    && |st.emitted| == |st.published| + |st.withheld| + st.lost
    && (st.lost == 0 ==> st.emitted == st.published + st.withheld)
  }

  lemma PublishFaithful(d: Display, st: Stream, e: Entry)
    requires Faithful(d, st) && st.withheld == []
    ensures Faithful(Publish(d, e), NoteAppend(st, false, e))
  {
    TrimAbsorbs(st.published, [e]);
    TrimKeepsSuffix(st.published);
    TrimKeepsSuffix(st.published + [e]);
    TrimKeepsSuffix(d.transcript + [e]);
    assert st.published + [e] + st.withheld == st.published + st.withheld + [e];
  }

  lemma WithholdFaithful(d: Display, st: Stream, e: Entry)
    requires Faithful(d, st)
    ensures Faithful(Withhold(d, e), NoteAppend(st, true, e))
  {
    TrimAbsorbs(st.withheld, [e]);
    TrimKeepsSuffix(st.withheld);
    TrimKeepsSuffix(st.withheld + [e]);
    TrimKeepsSuffix(d.backlog + [e]);
    assert st.published + (st.withheld + [e]) == st.published + st.withheld + [e];
  }

  /** Publishing a batch equals trimming once, with one identity per entry. */
  lemma {:induction false} PublishAllIsOneTrim(d: Display, entries: seq<Entry>)
    requires Fits(d.transcript)
    ensures var p := PublishAll(d, entries);
            && p.transcript == Trim(d.transcript + entries)
            && p.baseId + |p.transcript| == d.baseId + |d.transcript| + |entries|
            && (p.truncated <==> d.truncated || |p.transcript| < |d.transcript| + |entries|)
            && p.baseId >= d.baseId
            && p == d.(transcript := p.transcript, baseId := p.baseId, truncated := p.truncated)
    decreases |entries|
  {
    if entries == [] {
      assert d.transcript + entries == d.transcript;
    } else {
      var one := Publish(d, entries[0]);
      TrimKeepsSuffix(d.transcript + [entries[0]]);
      PublishAllIsOneTrim(one, entries[1..]);
      TrimAbsorbs(d.transcript + [entries[0]], entries[1..]);
      assert d.transcript + [entries[0]] + entries[1..] == d.transcript + entries;
      TrimKeepsSuffix(one.transcript + entries[1..]);
    }
  }

  lemma FlushFaithful(d: Display, st: Stream)
    requires Faithful(d, st)
    ensures Faithful(Flush(d), NoteFlush(st, d))
    ensures Flush(d).backlog == [] && NoteFlush(st, d).withheld == []
  {
    var clean := d.(truncated := d.truncated || d.backlogTruncated,
                    backlog := [], backlogBytes := 0, backlogTruncated := false);
    TrimKeepsSuffix(st.published);
    TrimKeepsSuffix(st.withheld);
    PublishAllIsOneTrim(clean, d.backlog);
    TrimAbsorbs(st.published, d.backlog);
    TrimKeepsSuffix(st.published + d.backlog);
    TrimKeepsSuffix(d.transcript + d.backlog);
    var after := NoteFlush(st, d);
    assert after.published + after.withheld == st.published + d.backlog;
    if |d.backlog| == |st.withheld| {
      assert d.backlog == st.withheld;
    }
  }
}
