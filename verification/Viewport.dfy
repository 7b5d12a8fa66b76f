/** Transcript scrolling (experiments/tui-chat/src/viewport.rs): a position is an entry, a logical
    line of it and a wrapped row of that line. The model measures an entry by the wrapped row
    counts of its lines and writes every saturating operation out. */
module Viewport {
  import opened Wrappers

  const USIZE_MAX := 0xFFFF_FFFF_FFFF_FFFF
  const U128_MAX := 0xFFFF_FFFF_FFFF_FFFF_FFFF_FFFF_FFFF_FFFF
  const I64_MAX := 0x7FFF_FFFF_FFFF_FFFF
  const I64_MIN := -0x8000_0000_0000_0000
  const MIN_WIDTH := 26
  const MIN_HEIGHT := 3

  type usize = n: int | 0 <= n <= USIZE_MAX
  type u128 = n: int | 0 <= n <= U128_MAX
  type u16 = n: int | 0 <= n <= 0xFFFF
  type i32 = n: int | -0x8000_0000 <= n <= 0x7FFF_FFFF
  type i64 = n: int | I64_MIN <= n <= I64_MAX

  datatype EntryLayout = EntryLayout(width: u16, lines: seq<usize>)

  datatype Anchor = Anchor(entryId: u128, row: usize)

  datatype ScrollPlan = ScrollPlan(startEntry: nat, lineOffset: nat, rowOffset: nat, reading: bool, anchorEvicted: bool)

  /** A retained reading position, and the movement asked for since the last layout. */
  datatype Reading = Reading(anchor: Option<Anchor>, pendingRows: i64)

  // ------------------------------------------------------------ measuring

  /** Every entry has a line, every line takes a row, and a row of a line can be addressed in
      sixteen bits. */
  predicate Measured(entries: seq<EntryLayout>) {
    forall i :: 0 <= i < |entries| ==>
      entries[i].lines != [] && forall k :: 0 <= k < |entries[i].lines| ==> 1 <= entries[i].lines[k] <= 0x1_0000
  }

  /** Lines of an entry: decorations take one row each, and an entry is never without a line. */
  function Layout(text: seq<usize>, width: u16, padded: bool, separated: bool): EntryLayout {
    var lines := (if padded then [1] else []) + text + (if padded then [1] else []) + (if separated then [1] else []);
    EntryLayout(width, if lines == [] then [1] else lines)
  }

  function SaturatingPlus(a: usize, b: usize): usize {
    if a + b <= USIZE_MAX then a + b else USIZE_MAX
  }

  function SaturatingMinus(a: usize, b: usize): usize {
    if a >= b then a - b else 0
  }

  function Smaller(a: usize, b: usize): usize {
    if a <= b then a else b
  }

  function Larger(a: usize, b: usize): usize {
    if a >= b then a else b
  }

  /** The exact sum. */
  function Sum(counts: seq<usize>): nat {
    if counts == [] then 0 else Sum(counts[..|counts| - 1]) + counts[|counts| - 1]
  }

  /** The sum a saturating fold computes. */
  function Fold(counts: seq<usize>): usize {
    if counts == [] then 0 else SaturatingPlus(Fold(counts[..|counts| - 1]), counts[|counts| - 1])
  }

  function Counts(entries: seq<EntryLayout>): (counts: seq<usize>)
    ensures |counts| == |entries|
    ensures forall i :: 0 <= i < |entries| ==> counts[i] == Fold(entries[i].lines)
  {
    seq(|entries|, i requires 0 <= i < |entries| => Fold(entries[i].lines))
  }

  /** The page that shows the end. */
  function Latest(counts: seq<usize>, height: u16): usize {
    SaturatingMinus(Fold(counts), height)
  }

  // ------------------------------------------------------ flat reference

  function AnchorIndex(anchor: Anchor, baseId: u128, entries: nat): Option<nat> {
    if anchor.entryId < baseId then None
    else
      var index := anchor.entryId - baseId;
      if index <= USIZE_MAX && index < entries then Some(index) else None
  }

  function CurrentRow(anchor: Option<Anchor>, counts: seq<usize>, baseId: u128, height: u16): usize {
    if anchor.None? then Latest(counts, height)
    else
      var index := AnchorIndex(anchor.value, baseId, |counts|);
      if index.None? then 0
      else SaturatingPlus(Fold(counts[..index.value]), Smaller(anchor.value.row, SaturatingMinus(counts[index.value], 1)))
  }

  function Evicted(anchor: Option<Anchor>, baseId: u128, entries: nat): bool {
    anchor.Some? && AnchorIndex(anchor.value, baseId, entries).None?
  }

  function Distance(movement: i64): usize {
    if movement < 0 then 0 - (movement as int) else movement
  }

  /** Queued movement applied to a flat row number. */
  function Move(current: usize, movement: i64, latest: usize): usize {
    if movement < 0 then SaturatingMinus(current, Distance(movement))
    else if movement > 0 then Smaller(SaturatingPlus(current, Distance(movement)), Larger(latest, current))
    else current
  }

  function Top(r: Reading, entries: seq<EntryLayout>, baseId: u128, height: u16): usize {
    var counts := Counts(entries);
    Move(CurrentRow(r.anchor, counts, baseId, height), r.pendingRows, Latest(counts, height))
  }

  /** A row inside a list of row counts. */
  ghost predicate At(counts: seq<usize>, top: nat, index: nat, offset: nat) {
    index < |counts| && offset < counts[index] && Sum(counts[..index]) + offset == top
  }

  predicate Unpaintable(entries: seq<EntryLayout>, height: u16) {
    (exists i :: 0 <= i < |entries| && entries[i].width < MIN_WIDTH) || height < MIN_HEIGHT || entries == []
  }

  /** What planning promises: the plan addresses exactly the flat top row, movement is spent, and a
      reading position is retained as the identity of its entry. */
  ghost predicate Planned(r: Reading, entries: seq<EntryLayout>, baseId: u128, height: u16, plan: ScrollPlan, next: Reading) {
    if Unpaintable(entries, height) then
      plan == ScrollPlan(|entries|, 0, 0, r.anchor.Some?, false) && next == r
    else
      var counts := Counts(entries);
      && next.pendingRows == 0
      && plan.reading == next.anchor.Some? == (r.anchor.Some? || r.pendingRows < 0)
      && plan.anchorEvicted == Evicted(r.anchor, baseId, |entries|)
      && plan.rowOffset <= 0xFFFF
      && exists row: usize ::
           && At(counts, Top(r, entries, baseId, height), plan.startEntry, row)
           && At(entries[plan.startEntry].lines, row, plan.lineOffset, plan.rowOffset)
           && (next.anchor.Some? ==>
                 next.anchor == Some(Anchor(if baseId + plan.startEntry <= U128_MAX then baseId + plan.startEntry else U128_MAX, row)))
  }

  // --------------------------------------------------------------- sums

  lemma {:induction false} FoldIsClampedSum(counts: seq<usize>)
    ensures Fold(counts) == if Sum(counts) <= USIZE_MAX then Sum(counts) else USIZE_MAX
  {
    if counts != [] {
      FoldIsClampedSum(counts[..|counts| - 1]);
    }
  }

  lemma SumStep(counts: seq<usize>, i: nat)
    requires i < |counts|
    ensures Sum(counts[..i + 1]) == Sum(counts[..i]) + counts[i]
  {
    assert counts[..i + 1][..i] == counts[..i];
  }

  lemma {:induction false} PrefixSumsGrow(counts: seq<usize>, i: nat, j: nat)
    requires i <= j <= |counts|
    ensures Sum(counts[..i]) <= Sum(counts[..j])
    decreases j - i
  {
    if i < j {
      SumStep(counts, j - 1);
      PrefixSumsGrow(counts, i, j - 1);
    }
  }

  lemma PositionIsBelowTotal(counts: seq<usize>, index: nat, offset: nat)
    requires index < |counts| && offset < counts[index]
    ensures Sum(counts[..index]) + offset < Sum(counts)
  {
    SumStep(counts, index);
    PrefixSumsGrow(counts, index + 1, |counts|);
    assert counts[..|counts|] == counts;
  }

  /** A flat row has one address. */
  lemma AddressIsUnique(counts: seq<usize>, top: nat, i: nat, a: nat, j: nat, b: nat)
    requires At(counts, top, i, a) && At(counts, top, j, b)
    ensures i == j && a == b
  {
    SumStep(counts, i);
    SumStep(counts, j);
    if i < j {
      PrefixSumsGrow(counts, i + 1, j);
    } else if j < i {
      PrefixSumsGrow(counts, j + 1, i);
    }
  }

  lemma CountsArePositive(entries: seq<EntryLayout>)
    requires Measured(entries)
    ensures forall i :: 0 <= i < |entries| ==> 1 <= Counts(entries)[i] <= Sum(entries[i].lines)
  {
    forall i | 0 <= i < |entries| ensures 1 <= Counts(entries)[i] <= Sum(entries[i].lines) {
      var lines := entries[i].lines;
      FoldIsClampedSum(lines);
      PositionIsBelowTotal(lines, 0, 0);
    }
  }

  // ------------------------------------------------------- main results

  /** The chosen top row is always a row that exists, even when the sums saturate. */
  lemma TopIsARow(r: Reading, entries: seq<EntryLayout>, baseId: u128, height: u16)
    requires Measured(entries) && entries != [] && height >= MIN_HEIGHT
    ensures Top(r, entries, baseId, height) < Sum(Counts(entries))
  {
    var counts := Counts(entries);
    CountsArePositive(entries);
    FoldIsClampedSum(counts);
    PositionIsBelowTotal(counts, 0, 0);
    CurrentIsARow(r.anchor, counts, baseId, height);
  }

  lemma CurrentIsARow(anchor: Option<Anchor>, counts: seq<usize>, baseId: u128, height: u16)
    requires counts != [] && height >= MIN_HEIGHT
    requires forall i :: 0 <= i < |counts| ==> 1 <= counts[i]
    ensures CurrentRow(anchor, counts, baseId, height) < Sum(counts)
  {
    FoldIsClampedSum(counts);
    PositionIsBelowTotal(counts, 0, 0);
    if anchor.Some? {
      var index := AnchorIndex(anchor.value, baseId, |counts|);
      if index.Some? {
        FoldIsClampedSum(counts[..index.value]);
        PositionIsBelowTotal(counts, index.value, Smaller(anchor.value.row, counts[index.value] - 1));
      }
    }
  }

  /** The plan and the next reading position are determined by what planning promises. */
  lemma PlanIsUnique(r: Reading, entries: seq<EntryLayout>, baseId: u128, height: u16,
                     plan: ScrollPlan, next: Reading, plan': ScrollPlan, next': Reading)
    requires Planned(r, entries, baseId, height, plan, next)
    requires Planned(r, entries, baseId, height, plan', next')
    ensures plan == plan' && next == next'
  {
    if !Unpaintable(entries, height) {
      var counts, top := Counts(entries), Top(r, entries, baseId, height);
      var row: usize :| At(counts, top, plan.startEntry, row)
        && At(entries[plan.startEntry].lines, row, plan.lineOffset, plan.rowOffset)
        && (next.anchor.Some? ==>
              next.anchor == Some(Anchor(if baseId + plan.startEntry <= U128_MAX then baseId + plan.startEntry else U128_MAX, row)));
      var row': usize :| At(counts, top, plan'.startEntry, row')
        && At(entries[plan'.startEntry].lines, row', plan'.lineOffset, plan'.rowOffset)
        && (next'.anchor.Some? ==>
              next'.anchor == Some(Anchor(if baseId + plan'.startEntry <= U128_MAX then baseId + plan'.startEntry else U128_MAX, row')));
      AddressIsUnique(counts, top, plan.startEntry, row, plan'.startEntry, row');
      AddressIsUnique(entries[plan.startEntry].lines, row, plan.lineOffset, plan.rowOffset, plan'.lineOffset, plan'.rowOffset);
    }
  }

  /** Where a retained anchor points in a layout: its own entry, at its row or the entry's last. */
  function Kept(anchor: Anchor, counts: seq<usize>, index: nat): nat
    requires index < |counts|
  {
    Smaller(anchor.row, SaturatingMinus(counts[index], 1))
  }

  /** An anchor whose entry survives keeps that entry and its clamped row under any new layout,
      exactly when its flat row number can be represented. */
  lemma AnchorSurvives(anchor: Anchor, entries: seq<EntryLayout>, baseId: u128, height: u16, plan: ScrollPlan, next: Reading)
    requires Measured(entries) && !Unpaintable(entries, height)
    requires baseId <= anchor.entryId < baseId + |entries| && |entries| <= USIZE_MAX
    requires Planned(Reading(Some(anchor), 0), entries, baseId, height, plan, next)
    ensures var counts, index := Counts(entries), anchor.entryId - baseId;
            (plan.startEntry == index && next.anchor == Some(Anchor(anchor.entryId, Kept(anchor, counts, index))))
            <==> Sum(counts[..index]) + Kept(anchor, counts, index) <= USIZE_MAX
    ensures plan.reading && !plan.anchorEvicted && next.pendingRows == 0
    ensures next.anchor.Some? && plan.startEntry < |entries|
            && At(entries[plan.startEntry].lines, next.anchor.value.row, plan.lineOffset, plan.rowOffset)
  {
    var counts, index := Counts(entries), anchor.entryId - baseId;
    var kept := Kept(anchor, counts, index);
    var top := Top(Reading(Some(anchor), 0), entries, baseId, height);
    CountsArePositive(entries);
    FoldIsClampedSum(counts[..index]);
    assert top == if Sum(counts[..index]) + kept <= USIZE_MAX then Sum(counts[..index]) + kept else USIZE_MAX;
    var row: usize :| At(counts, top, plan.startEntry, row)
      && At(entries[plan.startEntry].lines, row, plan.lineOffset, plan.rowOffset)
      && next.anchor == Some(Anchor(if baseId + plan.startEntry <= U128_MAX then baseId + plan.startEntry else U128_MAX, row));
    if Sum(counts[..index]) + kept <= USIZE_MAX {
      AddressIsUnique(counts, top, index, kept, plan.startEntry, row);
    }
  }

  /** Appending entries and evicting a prefix that the reader is past leave the shown rows in
      place: the same line and row of the same entry, counted from the new start. */
  lemma AppendAndEvictionKeepTheView(anchor: Anchor, entries: seq<EntryLayout>, gone: nat, after: seq<EntryLayout>,
                                     baseId: u128, height: u16, height': u16,
                                     plan: ScrollPlan, next: Reading, plan': ScrollPlan, next': Reading)
    requires gone <= |entries| && baseId + gone <= anchor.entryId < baseId + |entries|
    requires entries[gone..] <= after
    requires Measured(entries) && !Unpaintable(entries, height) && Sum(Counts(entries)) <= USIZE_MAX
    requires Measured(after) && !Unpaintable(after, height') && Sum(Counts(after)) <= USIZE_MAX
    requires |entries| <= USIZE_MAX && |after| <= USIZE_MAX
    requires Planned(Reading(Some(anchor), 0), entries, baseId, height, plan, next)
    requires Planned(next, after, baseId + gone, height', plan', next')
    ensures baseId + plan.startEntry == anchor.entryId && plan'.startEntry + gone == plan.startEntry
    ensures plan'.lineOffset == plan.lineOffset && plan'.rowOffset == plan.rowOffset
    ensures plan'.reading && !plan'.anchorEvicted && next' == next
  {
    hide Planned, Unpaintable, Measured, Sum;
    var index := anchor.entryId - baseId;
    AnchorFits(anchor, entries, index);
    AnchorSurvives(anchor, entries, baseId, height, plan, next);
    var kept := next.anchor.value;
    assert next == Reading(Some(kept), 0);
    assert entries[gone..][index - gone] == after[index - gone];
    AnchorFits(kept, after, index - gone);
    AnchorSurvives(kept, after, baseId + gone, height', plan', next');
    AddressIsUnique(entries[index].lines, kept.row, plan.lineOffset, plan.rowOffset, plan'.lineOffset, plan'.rowOffset);
  }

  lemma AnchorFits(anchor: Anchor, entries: seq<EntryLayout>, index: nat)
    requires Measured(entries) && index < |entries| && Sum(Counts(entries)) <= USIZE_MAX
    ensures Sum(Counts(entries)[..index]) + Kept(anchor, Counts(entries), index) <= USIZE_MAX
  {
    CountsArePositive(entries);
    PositionIsBelowTotal(Counts(entries), index, Kept(anchor, Counts(entries), index));
  }

  // ----------------------------------------------------------- movement

  /** The flat row a plan shows first. */
  function Flat(entries: seq<EntryLayout>, plan: ScrollPlan): nat
    requires plan.startEntry < |entries| && plan.lineOffset <= |entries[plan.startEntry].lines|
  {
    Sum(Counts(entries)[..plan.startEntry]) + Sum(entries[plan.startEntry].lines[..plan.lineOffset]) + plan.rowOffset
  }

  /** One position is at or after another: by entry, then by the row inside the entry. */
  predicate Follows(entry: nat, row: nat, entry': nat, row': nat) {
    entry > entry' || (entry == entry' && row >= row')
  }

  /** One plan starts at or after another: by entry, then line, then row. */
  predicate StartsAfter(plan: ScrollPlan, plan': ScrollPlan) {
    plan.startEntry > plan'.startEntry
    || (plan.startEntry == plan'.startEntry && Follows(plan.lineOffset, plan.rowOffset, plan'.lineOffset, plan'.rowOffset))
  }

  lemma AddressesKeepOrder(counts: seq<usize>, top: nat, i: nat, a: nat, top': nat, j: nat, b: nat)
    requires At(counts, top, i, a) && At(counts, top', j, b)
    ensures top >= top' <==> Follows(i, a, j, b)
  {
    SumStep(counts, i);
    SumStep(counts, j);
    if i < j {
      PrefixSumsGrow(counts, i + 1, j);
    } else if j < i {
      PrefixSumsGrow(counts, j + 1, i);
    }
  }

  /** A plan addresses the chosen top row, and a retained row is that row of its first entry. */
  lemma PlanShowsTop(r: Reading, entries: seq<EntryLayout>, baseId: u128, height: u16, plan: ScrollPlan, next: Reading)
    returns (row: usize)
    requires !Unpaintable(entries, height) && Planned(r, entries, baseId, height, plan, next)
    ensures At(Counts(entries), Top(r, entries, baseId, height), plan.startEntry, row)
    ensures At(entries[plan.startEntry].lines, row, plan.lineOffset, plan.rowOffset)
    ensures Flat(entries, plan) == Top(r, entries, baseId, height)
    ensures next.anchor.Some? ==>
              && next.anchor.value.row == row
              && (baseId + plan.startEntry <= U128_MAX ==> next.anchor.value.entryId == baseId + plan.startEntry)
  {
    row :| At(Counts(entries), Top(r, entries, baseId, height), plan.startEntry, row)
      && At(entries[plan.startEntry].lines, row, plan.lineOffset, plan.rowOffset)
      && (next.anchor.Some? ==>
            next.anchor == Some(Anchor(if baseId + plan.startEntry <= U128_MAX then baseId + plan.startEntry else U128_MAX, row)));
  }

  lemma PlansKeepOrder(entries: seq<EntryLayout>, top: nat, plan: ScrollPlan, row: usize, top': nat, plan': ScrollPlan, row': usize)
    requires At(Counts(entries), top, plan.startEntry, row) && At(Counts(entries), top', plan'.startEntry, row')
    requires At(entries[plan.startEntry].lines, row, plan.lineOffset, plan.rowOffset)
    requires At(entries[plan'.startEntry].lines, row', plan'.lineOffset, plan'.rowOffset)
    ensures top >= top' <==> StartsAfter(plan, plan')
    ensures top >= top' <==> Follows(plan.startEntry, row, plan'.startEntry, row')
  {
    AddressesKeepOrder(Counts(entries), top, plan.startEntry, row, top', plan'.startEntry, row');
    if plan.startEntry == plan'.startEntry {
      AddressesKeepOrder(entries[plan.startEntry].lines, row, plan.lineOffset, plan.rowOffset, row', plan'.lineOffset, plan'.rowOffset);
    }
  }

  /** Of one reading position under one layout: scrolling toward newer output shows rows at or
      after those shown without scrolling, by exactly the rows asked for or up to the last page;
      scrolling toward earlier output mirrors it down to the first row. The same holds of the
      positions retained. */
  lemma ScrollingNeverTurnsBack(anchor: Option<Anchor>, rows: i64, entries: seq<EntryLayout>, baseId: u128, height: u16,
                                still: ScrollPlan, kept: Reading, plan: ScrollPlan, next: Reading)
    requires !Unpaintable(entries, height)
    requires Planned(Reading(anchor, 0), entries, baseId, height, still, kept)
    requires Planned(Reading(anchor, rows), entries, baseId, height, plan, next)
    ensures rows >= 0 ==> StartsAfter(plan, still)
    ensures rows <= 0 ==> StartsAfter(still, plan)
    ensures var before, latest := Flat(entries, still), Latest(Counts(entries), height);
            Flat(entries, plan) == if rows < 0 then (if before + rows >= 0 then before + rows else 0)
                                   else if before + rows <= latest then before + rows
                                   else if before <= latest then latest else before
    ensures kept.anchor.Some? && next.anchor.Some? && baseId + |entries| - 1 <= U128_MAX ==>
              && (rows >= 0 ==> Follows(next.anchor.value.entryId, next.anchor.value.row, kept.anchor.value.entryId, kept.anchor.value.row))
              && (rows <= 0 ==> Follows(kept.anchor.value.entryId, kept.anchor.value.row, next.anchor.value.entryId, next.anchor.value.row))
  {
    var row' := PlanShowsTop(Reading(anchor, 0), entries, baseId, height, still, kept);
    var row := PlanShowsTop(Reading(anchor, rows), entries, baseId, height, plan, next);
    hide Planned, At, StartsAfter, Flat, CurrentRow, Sum, Latest, Unpaintable;
    var top', top := Top(Reading(anchor, 0), entries, baseId, height), Top(Reading(anchor, rows), entries, baseId, height);
    PlansKeepOrder(entries, top, plan, row, top', still, row');
    PlansKeepOrder(entries, top', still, row', top, plan, row);
  }

  /** Against the place the reader left, which is the entry of a surviving anchor at its row or
      the entry's last: scrolling toward earlier output is never after it, and scrolling toward
      newer output is never before it exactly when the place has a flat row number. */
  lemma ScrollingIsRelativeToTheAnchor(anchor: Anchor, rows: i64, entries: seq<EntryLayout>, baseId: u128, height: u16,
                                       plan: ScrollPlan, next: Reading)
    requires Measured(entries) && !Unpaintable(entries, height)
    requires baseId <= anchor.entryId < baseId + |entries| && |entries| <= USIZE_MAX
    requires Planned(Reading(Some(anchor), rows), entries, baseId, height, plan, next)
    ensures var counts, index := Counts(entries), anchor.entryId - baseId;
            && next.anchor.Some?
            && (rows <= 0 ==> Follows(index, Kept(anchor, counts, index), plan.startEntry, next.anchor.value.row))
            && (rows >= 0 ==>
                  (Follows(plan.startEntry, next.anchor.value.row, index, Kept(anchor, counts, index))
                   <==> Sum(counts[..index]) + Kept(anchor, counts, index) <= USIZE_MAX))
  {
    var counts, index := Counts(entries), anchor.entryId - baseId;
    var place := Kept(anchor, counts, index);
    var row := PlanShowsTop(Reading(Some(anchor), rows), entries, baseId, height, plan, next);
    CountsArePositive(entries);
    FoldIsClampedSum(counts[..index]);
    var own, top := Sum(counts[..index]) + place, Top(Reading(Some(anchor), rows), entries, baseId, height);
    assert At(counts, own, index, place);
    AddressesKeepOrder(counts, own, index, place, top, plan.startEntry, row);
    AddressesKeepOrder(counts, top, plan.startEntry, row, own, index, place);
  }

  /** An evicted anchor falls back to the first retained row, and that is reported once. */
  lemma EvictionIsReportedOnce(anchor: Anchor, entries: seq<EntryLayout>, baseId: u128, height: u16,
                               plan: ScrollPlan, next: Reading, plan': ScrollPlan, next': Reading)
    requires Measured(entries) && !Unpaintable(entries, height) && |entries| <= USIZE_MAX
    requires Planned(Reading(Some(anchor), 0), entries, baseId, height, plan, next)
    requires Planned(next, entries, baseId, height, plan', next')
    requires anchor.entryId < baseId || anchor.entryId >= baseId + |entries|
    ensures plan == ScrollPlan(0, 0, 0, true, true) && next.anchor == Some(Anchor(baseId, 0))
    ensures plan' == ScrollPlan(0, 0, 0, true, false) && next' == next
  {
    var counts := Counts(entries);
    CountsArePositive(entries);
    StartIsFirst(entries, plan, Reading(Some(anchor), 0), baseId, height, next);
    StartIsFirst(entries, plan', next, baseId, height, next');
  }

  lemma StartIsFirst(entries: seq<EntryLayout>, plan: ScrollPlan, r: Reading, baseId: u128, height: u16, next: Reading)
    requires Measured(entries) && !Unpaintable(entries, height)
    requires Planned(r, entries, baseId, height, plan, next)
    requires r.anchor.Some? && r.pendingRows == 0
    requires AnchorIndex(r.anchor.value, baseId, |entries|).None? || r.anchor.value == Anchor(baseId, 0)
    ensures plan.startEntry == 0 && plan.lineOffset == 0 && plan.rowOffset == 0
    ensures next == Reading(Some(Anchor(baseId, 0)), 0)
  {
    var counts, top := Counts(entries), Top(r, entries, baseId, height);
    CountsArePositive(entries);
    assert counts[..0] == [];
    assert top == 0;
    var row: usize :| At(counts, top, plan.startEntry, row)
      && At(entries[plan.startEntry].lines, row, plan.lineOffset, plan.rowOffset)
      && next.anchor == Some(Anchor(if baseId + plan.startEntry <= U128_MAX then baseId + plan.startEntry else U128_MAX, row));
    AddressIsUnique(counts, 0, 0, 0, plan.startEntry, row);
    assert entries[0].lines[..0] == [];
    AddressIsUnique(entries[0].lines, 0, 0, 0, plan.lineOffset, plan.rowOffset);
  }

  /** Without a reading position the plan shows the end: the last page when there is one, the
      whole transcript when it is shorter. */
  lemma FollowingShowsTheEnd(pendingRows: i64, entries: seq<EntryLayout>, baseId: u128, height: u16)
    requires pendingRows >= 0 && Sum(Counts(entries)) <= USIZE_MAX
    ensures var total, top := Sum(Counts(entries)), Top(Reading(None, pendingRows), entries, baseId, height);
            total - top == if total <= height then total else height
  {
    FoldIsClampedSum(Counts(entries));
  }

  predicate Rows(lines: seq<usize>) {
    forall k :: 0 <= k < |lines| ==> 1 <= lines[k] <= 0x1_0000
  }

  lemma RowsConcat(a: seq<usize>, b: seq<usize>)
    requires Rows(a) && Rows(b)
    ensures Rows(a + b)
  {
  }

  lemma {:induction false} SumConcat(a: seq<usize>, b: seq<usize>)
    ensures Sum(a + b) == Sum(a) + Sum(b)
  {
    if b == [] {
      assert a + b == a;
    } else {
      assert (a + b)[..|a + b| - 1] == a + b[..|b| - 1];
      SumConcat(a, b[..|b| - 1]);
    }
  }

  /** An entry takes the rows of its text, with a row before and after it when padded and one more when
      separated, and never none; its text stands where it should. */
  lemma LayoutRows(text: seq<usize>, width: u16, padded: bool, separated: bool)
    ensures var lines := Layout(text, width, padded, separated).lines;
            var rows := Sum(text) + (if padded then 2 else 0) + (if separated then 1 else 0);
            && (text != [] || padded || separated ==> Sum(lines) == rows)
            && (text == [] && !padded && !separated ==> lines == [1])
            && var at := if padded then 1 else 0;
               at + |text| <= |lines| && lines[at..at + |text|] == text
  {
    var edge, gap: seq<usize> := if padded then [1] else [], if separated then [1] else [];
    assert Sum(edge) == |edge| && Sum(gap) == |gap| by {
      assert [1][..0] == [];
    }
    SumConcat(edge + text + edge, gap);
    SumConcat(edge + text, edge);
    SumConcat(edge, text);
  }

  /** What an entry's constructor measures is measured. */
  lemma LayoutIsMeasured(text: seq<usize>, width: u16, padded: bool, separated: bool)
    requires Rows(text)
    ensures Measured([Layout(text, width, padded, separated)])
  {
    assert Rows([1]) && Rows([]);
    var edge, gap := if padded then [1] else [], if separated then [1] else [];
    RowsConcat(edge, text);
    RowsConcat(edge + text, edge);
    RowsConcat(edge + text + edge, gap);
    assert Rows(Layout(text, width, padded, separated).lines);
  }

  function Gap(a: int, b: int): nat {
    if a <= b then b - a else a - b
  }

  /** No representable movement is nearer to an exact one. */
  ghost predicate Nearest(rows: i64, exact: int) {
    forall other: i64 :: Gap(rows, exact) <= Gap(other, exact)
  }

  function Clamp(n: int): (r: i64)
    ensures Nearest(r, n)
  {
    if n > I64_MAX then I64_MAX else if n < I64_MIN then I64_MIN else n
  }

  /** The movement queued by several scrolls. */
  function Queued(pending: i64, rows: seq<i32>): i64
    decreases rows
  {
    if rows == [] then pending else Queued(Clamp(pending + rows[0]), rows[1..])
  }

  function Total(rows: seq<i32>): int {
    if rows == [] then 0 else rows[0] + Total(rows[1..])
  }

  /** Scrolls between two layouts add up: starting from none queued, nothing is lost within
      2^32 - 1 of them, so the next layout applies their exact total. */
  lemma {:induction false} QueuedScrollsAddUp(pending: i64, rows: seq<i32>)
    requires Gap(pending, 0) + |rows| * 0x8000_0000 <= I64_MAX
    ensures Queued(pending, rows) == pending + Total(rows)
    ensures Gap(Total(rows), 0) <= |rows| * 0x8000_0000
    decreases rows
  {
    if rows != [] {
      QueuedScrollsAddUp(Clamp(pending + rows[0]), rows[1..]);
    }
  }

  // ----------------------------------------------------------- viewport

  /** The entry and row that hold a flat row; the last row when there is no such row. */
  method Locate(counts: seq<usize>, flat: usize) returns (index: nat, offset: usize)
    ensures flat < Sum(counts) ==> At(counts, flat, index, offset)
    ensures flat >= Sum(counts) ==>
              index == (if counts == [] then 0 else |counts| - 1)
              && offset == (if counts == [] then 0 else SaturatingMinus(counts[|counts| - 1], 1))
  {
    var row := flat;
    for i := 0 to |counts|
      invariant Sum(counts[..i]) + row == flat
    {
      SumStep(counts, i);
      if row < counts[i] {
        PositionIsBelowTotal(counts, i, row);
        return i, row;
      }
      row := SaturatingMinus(row, counts[i]);
    }
    assert counts[..|counts|] == counts;
    index := if counts == [] then 0 else |counts| - 1;
    offset := SaturatingMinus(if index < |counts| then counts[index] else 1, 1);
  }

  class TranscriptViewport {
    var anchor: Option<Anchor>
    var pendingRows: i64

    ghost function State(): Reading
      reads this
    {
      Reading(anchor, pendingRows)
    }

    constructor ()
      ensures State() == Reading(None, 0)
    {
      anchor, pendingRows := None, 0;
    }

    /** Queue a movement: what is queued is as near as it can be to the exact total. */
    method ScrollRows(rows: i32)
      modifies this`pendingRows
      ensures pendingRows == Clamp(old(pendingRows) + rows)
      ensures Nearest(pendingRows, old(pendingRows) + rows)
    {
      pendingRows := Clamp(pendingRows + rows);
    }

    method FollowLatest()
      modifies this
      ensures State() == Reading(None, 0)
    {
      anchor, pendingRows := None, 0;
    }

    /** Apply the queued movement to the current layout. */
    method Plan(entries: seq<EntryLayout>, baseId: u128, height: u16) returns (plan: ScrollPlan)
      requires Measured(entries) && |entries| <= USIZE_MAX
      modifies this
      ensures Planned(old(State()), entries, baseId, height, plan, State())
    {
      if Unpaintable(entries, height) {
        return ScrollPlan(|entries|, 0, 0, anchor.Some?, false);
      }
      var counts := Counts(entries);
      var latest := Latest(counts, height);
      var evicted := false;
      var current := latest;
      if anchor.Some? {
        var index := AnchorIndex(anchor.value, baseId, |entries|);
        if index.Some? {
          current := SaturatingPlus(Fold(counts[..index.value]), Smaller(anchor.value.row, SaturatingMinus(counts[index.value], 1)));
        } else {
          evicted, current := true, 0;
        }
      }
      var movement := pendingRows;
      pendingRows := 0;
      var top := Move(current, movement, latest);
      TopIsARow(old(State()), entries, baseId, height);
      var startEntry, entryRow := Locate(counts, top);
      if anchor.Some? || movement < 0 {
        anchor := Some(Anchor(if baseId + startEntry <= U128_MAX then baseId + startEntry else U128_MAX, entryRow));
      }
      CountsArePositive(entries);
      var lineOffset, rowOffset := Locate(entries[startEntry].lines, entryRow);
      plan := ScrollPlan(startEntry, lineOffset, rowOffset, anchor.Some?, evicted);
    }
  }
}
