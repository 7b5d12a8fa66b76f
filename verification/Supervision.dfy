/** Supervision of a child and the settlement of everything it started
    (rust/check-i0-driver.rs). The host's answers about pipes, exit, reaping and the delegated
    receipt are oracles like those of the process scope. */
module Supervision {
  import opened Wrappers
  import opened ProcessLog
  import opened ProcessLife
  import opened ProcessScope

  const POLL := 10
  const SCAN_GAP := 100
  const PHASE_SCANS := 64

  /** What waitid reported: code 1 is an exit, 2 a signal, 3 a signal with a core dump. */
  datatype Exit = Exit(code: int, status: int)

  datatype Status = Exited(status: int) | Killed(signal: int, core: bool)

  predicate ExitSuccess(e: Exit) {
    e.code == 1 && e.status == 0
  }

  predicate Matches(e: Exit, s: Status) {
    if e.code == 1 then s == Exited(e.status) else s.Killed? && s.signal == e.status && s.core == (e.code == 3)
  }

  datatype Host = Host(interrupted: nat -> bool,
                       spawn: Option<int>,
                       piped: Option<string>,
                       drained: nat -> Result<bool, string>,
                       exit: nat -> Result<Option<Exit>, string>,
                       reaped: Option<Status>,
                       receipt: bool)

  /** The host reported this exit. */
  ghost predicate Reported(host: Host, e: Exit) {
    exists t :: host.exit(t) == Ok(Some(e))
  }

  /** One scan: when and in which phase it was started, by when it had to end and whether the child
      had exited by then, its questions, what was retained before and after it, and what it found. A
      descendant is something live after the child had exited successfully. */
  datatype Scanned = Scanned(at: nat, phase: Option<int>, deadline: nat, exited: bool, asked: nat, answered: nat, before: Members, after: View,
                             finished: bool, clear: bool, residual: bool, descendant: bool)

  datatype Outcome = Outcome(result: Result<Status, string>, settled: bool)

  // ------------------------------------------------------------- trace

  /** Every lifetime retained so far is gone, but for the anchor's. */
  ghost predicate AllGone(s: Scanned, anchor: int) {
    forall k :: k in s.after.members ==> s.after.members[k].gone || k.pid == anchor
  }

  /** No lifetime is lost, and what is gone stays gone. */
  ghost predicate Keeps(a: Members, b: Members) {
    forall k :: k in a ==> k in b && (a[k].gone ==> b[k].gone)
  }

  /** A finished scan served what it left, found what lived through it, and found gone what was absent. */
  ghost predicate Witnessed(os: Os, s: Scanned, anchor: int, delegated: bool) {
    s.finished ==>
      && (forall k :: k in s.after.members && !(s.exited && k.pid == anchor) ==> Served(s.after.members, s.after.log, s.asked, k, s.phase))
      && AllFound(os, s.before, s.after, s.asked, s.answered, anchor, delegated, s.exited, s.phase, (s.clear, s.residual))
      && AllLeft(os, s.before, s.after.members, s.asked, s.answered, anchor, s.exited)
  }

  /** The trace of scans: finished unless a fault is recorded, clear only when all were gone, with
      what each left still retained and on record. */
  ghost predicate Traced(os: Os, trace: seq<Scanned>, v: View, anchor: int, delegated: bool) {
    forall i :: 0 <= i < |trace| ==>
      && Witnessed(os, trace[i], anchor, delegated)
      && (trace[i].clear ==> AllGone(trace[i], anchor))
      && Keeps(trace[i].after.members, v.members) && trace[i].after.log <= v.log
      && (v.fault.None? ==> trace[i].finished && trace[i].after.fault.None?)
  }

  /** From scan i on, every finished scan was clear. */
  ghost predicate ClearFrom(trace: seq<Scanned>, i: nat) {
    i < |trace| && trace[i].finished && forall j :: i <= j < |trace| && trace[j].finished ==> trace[j].clear
  }

  /** Two clear scans far enough apart, with none in between that was not clear. */
  ghost predicate TwiceClear(trace: seq<Scanned>, i: nat, j: nat) {
    i < j < |trace| && ClearFrom(trace, i) && trace[j].finished && trace[j].at >= trace[i].at + SCAN_GAP
  }

  /** What the clear-scan counter counts: none while the last finished scan was not clear, one while
      all clear scans since are close together, and more only with two that are far enough apart. */
  ghost predicate Counted(trace: seq<Scanned>, clearScans: nat, lastClear: Option<nat>) {
    && (clearScans == 0 <==> lastClear.None?)
    && (clearScans == 0 ==> forall i: nat :: !ClearFrom(trace, i))
    && (clearScans == 1 ==> forall i: nat :: ClearFrom(trace, i) ==> lastClear.value <= trace[i].at < lastClear.value + SCAN_GAP)
    && (clearScans >= 1 ==> exists i: nat :: ClearFrom(trace, i) && trace[i].at == lastClear.value)
    && (clearScans >= 2 ==> exists i: nat, j: nat :: TwiceClear(trace, i, j))
  }

  /** The counter reaches two exactly when there were two clear scans far enough apart. */
  lemma CountedTwice(trace: seq<Scanned>, clearScans: nat, lastClear: Option<nat>)
    requires Counted(trace, clearScans, lastClear)
    ensures clearScans >= 2 <==> exists i: nat, j: nat :: TwiceClear(trace, i, j)
  {
    if clearScans < 2 {
      forall i: nat, j: nat ensures !TwiceClear(trace, i, j) {
        if TwiceClear(trace, i, j) {
          assert ClearFrom(trace, j);
        }
      }
    }
  }

  ghost predicate Gentle(log: Log) {
    forall i :: 0 <= i < |log| && log[i].Signalled? ==> log[i].value == TERMINATE
  }

  lemma KeepsThrough(a: Members, b: Members, c: Members)
    requires Keeps(a, b) && Keeps(b, c)
    ensures Keeps(a, c)
  {
    forall k | k in a ensures k in c && (a[k].gone ==> c[k].gone) {
      assert k in b;
    }
  }

  /** The trace goes on while the scope follows, with one more scan. */
  lemma TraceGrows(os: Os, trace: seq<Scanned>, a: View, b: View, anchor: int, delegated: bool, scan: nat, phase: Option<int>, s: Scanned)
    requires Traced(os, trace, a, anchor, delegated) && Follows(a, b, scan, phase)
    requires Witnessed(os, s, anchor, delegated) && (s.clear ==> AllGone(s, anchor))
    requires s.after.members == b.members && s.after.log == b.log && (b.fault.None? ==> s.finished && s.after.fault.None?)
    ensures Traced(os, trace + [s], b, anchor, delegated)
  {
    hide Witnessed, AllGone;
    var next := trace + [s];
    forall i | 0 <= i < |next|
      ensures Witnessed(os, next[i], anchor, delegated) && (next[i].clear ==> AllGone(next[i], anchor))
      ensures Keeps(next[i].after.members, b.members) && next[i].after.log <= b.log
      ensures b.fault.None? ==> next[i].finished && next[i].after.fault.None?
    {
      if i < |trace| {
        assert next[i] == trace[i];
        KeepsThrough(trace[i].after.members, a.members, b.members);
      }
    }
  }

  lemma ScanIsWitnessed(os: Os, s: Scanned, anchor: int, delegated: bool)
    requires s.finished ==> forall k :: k in s.after.members && !(s.exited && k.pid == anchor) ==>
                              Served(s.after.members, s.after.log, s.asked, k, s.phase)
    requires s.finished ==> AllFound(os, s.before, s.after, s.asked, s.answered, anchor, delegated, s.exited, s.phase, (s.clear, s.residual))
    requires s.finished ==> AllLeft(os, s.before, s.after.members, s.asked, s.answered, anchor, s.exited)
    requires s.clear ==> forall k :: k in s.after.members ==> s.after.members[k].gone || k.pid == anchor
    ensures Witnessed(os, s, anchor, delegated) && (s.clear ==> AllGone(s, anchor))
  {
    hide Served, AllFound, AllLeft;
  }

  lemma ClearFromGrows(trace: seq<Scanned>, s: Scanned, i: nat)
    ensures i < |trace| ==> (ClearFrom(trace + [s], i) <==> ClearFrom(trace, i) && (s.finished ==> s.clear))
    ensures i == |trace| ==> (ClearFrom(trace + [s], i) <==> s.finished && s.clear)
  {
    var next := trace + [s];
    assert next[|trace|] == s;
    if i < |trace| {
      assert next[i] == trace[i];
      if ClearFrom(next, i) {
        forall j | i <= j < |trace| && trace[j].finished ensures trace[j].clear {
          assert next[j] == trace[j];
        }
      }
      if ClearFrom(trace, i) && (s.finished ==> s.clear) {
        forall j | i <= j < |next| && next[j].finished ensures next[j].clear {
          if j < |trace| {
            assert next[j] == trace[j];
          }
        }
      }
    }
  }

  lemma TwiceClearGrows(trace: seq<Scanned>, s: Scanned)
    requires s.finished ==> s.clear
    ensures (exists i: nat, j: nat :: TwiceClear(trace, i, j)) ==> exists i: nat, j: nat :: TwiceClear(trace + [s], i, j)
  {
    hide ClearFrom;
    if exists i: nat, j: nat :: TwiceClear(trace, i, j) {
      var i: nat, j: nat :| TwiceClear(trace, i, j);
      ClearFromGrows(trace, s, i);
      assert (trace + [s])[i] == trace[i] && (trace + [s])[j] == trace[j];
      assert TwiceClear(trace + [s], i, j);
    }
  }

  /** A finished clear scan counts when it is the first or far enough from the last counted one. */
  lemma ClearCounts(trace: seq<Scanned>, s: Scanned, clearScans: nat, lastClear: Option<nat>)
    requires Counted(trace, clearScans, lastClear) && s.finished && s.clear && (lastClear.Some? ==> lastClear.value <= s.at)
    ensures lastClear.None? || s.at >= lastClear.value + SCAN_GAP ==> Counted(trace + [s], clearScans + 1, Some(s.at))
    ensures lastClear.Some? && s.at < lastClear.value + SCAN_GAP ==> Counted(trace + [s], clearScans, lastClear)
  {
    hide ClearFrom;
    var next := trace + [s];
    forall i: nat ensures i < |trace| ==> (ClearFrom(next, i) <==> ClearFrom(trace, i)) && next[i] == trace[i] {
      ClearFromGrows(trace, s, i);
    }
    ClearFromGrows(trace, s, |trace|);
    assert next[|trace|] == s;
    assert forall i: nat :: ClearFrom(next, i) ==> i <= |trace| by {
      OnlyWithin(next);
    }
    TwiceClearGrows(trace, s);
    OnlyWithin(trace);
    if clearScans >= 1 {
      var i: nat :| ClearFrom(trace, i) && trace[i].at == lastClear.value;
      assert ClearFrom(next, i) && next[i].at == lastClear.value;
      if s.at >= lastClear.value + SCAN_GAP {
        assert TwiceClear(next, i, |trace|);
      }
    }
  }

  lemma OnlyWithin(trace: seq<Scanned>)
    ensures forall i: nat :: ClearFrom(trace, i) ==> i < |trace|
  {
  }

  /** A finished scan that was not clear starts the count again. */
  lemma UnclearCounts(trace: seq<Scanned>, s: Scanned)
    requires s.finished && !s.clear
    ensures Counted(trace + [s], 0, None)
  {
    forall i: nat ensures !ClearFrom(trace + [s], i) {
      ClearFromGrows(trace, s, i);
    }
  }

  /** An unfinished scan leaves the counter as it was. */
  lemma UnfinishedCounts(trace: seq<Scanned>, s: Scanned, clearScans: nat, lastClear: Option<nat>)
    requires Counted(trace, clearScans, lastClear) && !s.finished
    ensures Counted(trace + [s], clearScans, lastClear)
  {
    hide ClearFrom;
    var next := trace + [s];
    forall i: nat ensures i < |trace| ==> (ClearFrom(next, i) <==> ClearFrom(trace, i)) && next[i] == trace[i] {
      ClearFromGrows(trace, s, i);
    }
    ClearFromGrows(trace, s, |trace|);
    OnlyWithin(next);
    OnlyWithin(trace);
    TwiceClearGrows(trace, s);
    if clearScans >= 1 {
      var i: nat :| ClearFrom(trace, i) && trace[i].at == lastClear.value;
      assert ClearFrom(next, i) && next[i].at == lastClear.value;
    }
  }

  lemma EscalationGrows(a: View, b: View, scan: nat, phase: Option<int>)
    requires Follows(a, b, scan, phase) && Escalates(a.log)
    requires phase == Some(KILL) || Gentle(a.log)
    ensures phase == Some(KILL) || phase == None || phase == Some(TERMINATE) ==> Escalates(b.log)
    ensures phase != Some(KILL) && (phase == None || phase == Some(TERMINATE)) ==> Gentle(b.log)
  {
    forall i | 0 <= i < |b.log| ensures i < |a.log| ==> b.log[i] == a.log[i] {
    }
  }

  /** In cleanup a scan belongs to the kill phase exactly when it started after the grace period, and
      has that phase's deadline. */
  ghost predicate Phased(trace: seq<Scanned>, from: nat, start: nat, grace: nat) {
    forall i :: from <= i < |trace| ==>
      && trace[i].phase == Some(if trace[i].at >= start + grace then KILL else TERMINATE)
      && trace[i].deadline == if trace[i].at >= start + grace then start + grace + grace else start + grace
  }

  ghost predicate KillScan(s: Scanned, time: nat) {
    s.phase == Some(KILL) && s.at <= time
  }

  ghost predicate KilledBy(trace: seq<Scanned>, from: nat, time: nat) {
    exists i :: from <= i < |trace| && KillScan(trace[i], time)
  }

  /** By every time the clock was read after the grace period, the kill phase had made a scan. */
  ghost predicate Killing(trace: seq<Scanned>, from: nat, rounds: seq<nat>, limit: nat) {
    forall r :: 0 <= r < |rounds| && rounds[r] >= limit ==> KilledBy(trace, from, rounds[r])
  }

  // ------------------------------------------------------- supervision

  class Supervision {
    const world: World
    const host: Host
    const scope: ProcessScope
    var failure: Option<string>
    var exit: Option<Exit>
    var clearScans: nat
    var lastClear: Option<nat>
    var captureFailed: bool
    ghost var trace: seq<Scanned>

    ghost predicate Valid()
      reads this, scope, world
    {
      && scope.world == world && scope.latest <= world.tick
      && scope.Valid()
      && Traced(world.os, trace, scope.Seen(), scope.anchor, scope.delegated)
      && Counted(trace, clearScans, lastClear) && (lastClear.Some? ==> lastClear.value <= world.time)
      && Escalates(scope.log)
      && (exit.Some? ==> Reported(host, exit.value))
    }

    constructor (world: World, host: Host, anchor: int, delegated: bool)
      ensures Valid() && Gentle(scope.log) && this.world == world && this.host == host && fresh(scope)
      ensures trace == [] && exit.None? && scope.anchor == anchor && scope.delegated == delegated && scope.fault.None?
      ensures failure == host.piped
    {
      this.world, this.host := world, host;
      scope := new ProcessScope(world, anchor, delegated);
      failure, exit, clearScans, lastClear, captureFailed := host.piped, None, 0, None, false;
      trace := [];
    }

    /** A live descendant of a child that exited successfully is a failure. */
    ghost predicate Noticed()
      reads this
    {
      failure.None? ==> forall i :: 0 <= i < |trace| ==> !trace[i].descendant
    }

    method Doubt(error: string)
      requires Valid()
      modifies scope`fault
      ensures Valid() && scope.fault.Some? && (old(scope.fault).Some? ==> scope.fault == old(scope.fault))
    {
      hide Sound, Owned, Counted, Escalates, Witnessed, AllGone, Keeps;
      scope.Uncertain(error);
    }

    method Drain() returns (r: Result<bool, string>)
      modifies world
      ensures world.time == old(world.time) && world.tick == old(world.tick) + 1 && r == host.drained(world.tick)
    {
      world.tick := world.tick + 1;
      r := host.drained(world.tick);
    }

    method Interrupted() returns (yes: bool)
      modifies world
      ensures world.time == old(world.time) && world.tick == old(world.tick) + 1 && yes == host.interrupted(world.tick)
    {
      world.tick := world.tick + 1;
      yes := host.interrupted(world.tick);
    }

    /** Look for the child's exit without reaping it. A failed look is a reason for doubt. */
    method ObserveExit(end: nat) returns (error: Option<string>)
      requires Valid()
      modifies this`exit, scope`fault, world
      ensures Valid() && world.tick == old(world.tick) + 1 && world.time == old(world.time) + world.os.lapse(world.tick)
      ensures error.Some? ==> scope.fault.Some? && exit == old(exit)
      ensures error.None? ==> scope.fault == old(scope.fault) && host.exit(world.tick) == Ok(exit) && world.time < end
      ensures error.None? <==> world.time < end && host.exit(world.tick).Ok?
      ensures old(scope.fault).Some? ==> scope.fault == old(scope.fault)
    {
      hide Sound, Owned, Traced, Counted, Escalates;
      var now := world.Now();
      if now >= end {
        error := Some("exit observation deadline");
      } else {
        match host.exit(world.tick) {
          case Ok(value) =>
            exit := value;
            error := None;
          case Err(e) =>
            error := Some(e);
        }
      }
      if error.Some? {
        Doubt(error.value);
      }
    }

    /** A scan, its record, and the doubt that a scan without a verdict leaves. */
    method Scan(at: nat, end: nat, phase: Option<int>) returns (verdict: Option<(bool, bool)>)
      requires Valid() && at <= world.time && (lastClear.Some? ==> lastClear.value <= at)
      requires phase == Some(KILL) || ((phase.None? || phase == Some(TERMINATE)) && Gentle(scope.log))
      modifies this`trace, this`clearScans, this`lastClear, scope, world
      ensures Valid() && world.time >= old(world.time)
      ensures phase != Some(KILL) ==> Gentle(scope.log)
      ensures verdict.None? ==> scope.fault.Some?
      ensures old(scope.fault).Some? ==> scope.fault == old(scope.fault)
      ensures |trace| == |old(trace)| + 1 && trace[..|old(trace)|] == old(trace)
      ensures var s := trace[|old(trace)|];
              && s.at == at && s.phase == phase && s.deadline == end && s.exited == exit.Some? && s.finished == verdict.Some?
              && s.before == old(scope.members) && s.after.members == scope.members
              && (verdict.Some? ==> s.clear == verdict.value.0 && s.residual == verdict.value.1)
              && s.descendant == (verdict.Some? && verdict.value.1 && exit.Some? && ExitSuccess(exit.value))
      ensures verdict.Some? && verdict.value.0 ==> exit.Some?
      ensures verdict.Some? && !verdict.value.0 ==> clearScans == 0
    {
      hide Sound, Owned, Traced, Counted, Escalates, Gentle, Follows, Served, AllFound, AllLeft, Reported, Witnessed, AllGone, Keeps, ClearFrom, TwiceClear;
      ghost var before := scope.Seen();
      verdict := scope.Scan(end, phase, exit.Some?);
      ghost var after := scope.Seen();
      EscalationGrows(before, after, scope.scan, phase);
      FaultStays(before, after, scope.scan, phase);
      if verdict.None? {
        scope.Uncertain("scan");
      }
      DoubtFollows(before, after, scope.Seen(), scope.scan, phase);
      ghost var found := if verdict.Some? then verdict.value else (false, false);
      ghost var record := Scanned(at, phase, end, exit.Some?, scope.scan, world.tick, before.members, after, verdict.Some?, found.0, found.1,
                                  found.1 && exit.Some? && ExitSuccess(exit.value));
      Note(at, verdict, before, record);
    }

    /** Count a scan and put it on record. */
    method Note(at: nat, verdict: Option<(bool, bool)>, ghost before: View, ghost record: Scanned)
      requires scope.world == world && scope.latest <= world.tick && scope.Valid() && Escalates(scope.log)
      requires exit.Some? ==> Reported(host, exit.value)
      requires Traced(world.os, trace, before, scope.anchor, scope.delegated) && Follows(before, scope.Seen(), scope.scan, record.phase)
      requires Counted(trace, clearScans, lastClear) && at <= world.time && (lastClear.Some? ==> lastClear.value <= at)
      requires record.at == at && record.finished == verdict.Some? && record.clear == (verdict.Some? && verdict.value.0)
      requires record.after.members == scope.members && record.after.log == scope.log
      requires scope.fault.None? ==> record.finished && record.after.fault.None?
      requires record.finished ==>
                 && (forall k :: k in record.after.members && !(record.exited && k.pid == scope.anchor) ==>
                       Served(record.after.members, record.after.log, record.asked, k, record.phase))
                 && AllFound(world.os, record.before, record.after, record.asked, record.answered, scope.anchor, scope.delegated, record.exited,
                             record.phase, (record.clear, record.residual))
                 && AllLeft(world.os, record.before, record.after.members, record.asked, record.answered, scope.anchor, record.exited)
      requires record.clear ==> forall k :: k in record.after.members ==> record.after.members[k].gone || k.pid == scope.anchor
      modifies this`trace, this`clearScans, this`lastClear
      ensures Valid() && trace == old(trace) + [record]
      ensures verdict.Some? && !verdict.value.0 ==> clearScans == 0
    {
      hide Sound, Owned, Traced, Counted, Escalates, Follows, Served, AllFound, AllLeft, Reported, Witnessed, AllGone;
      ScanIsWitnessed(world.os, record, scope.anchor, scope.delegated);
      TraceGrows(world.os, trace, before, scope.Seen(), scope.anchor, scope.delegated, scope.scan, record.phase, record);
      Count(at, verdict, record);
      trace := trace + [record];
    }

    /** The counter of clear scans. */
    method Count(at: nat, verdict: Option<(bool, bool)>, ghost record: Scanned)
      requires Counted(trace, clearScans, lastClear) && (lastClear.Some? ==> lastClear.value <= at)
      requires record.at == at && record.finished == verdict.Some? && record.clear == (verdict.Some? && verdict.value.0)
      modifies this`clearScans, this`lastClear
      ensures Counted(trace + [record], clearScans, lastClear) && (lastClear.Some? ==> lastClear.value <= at)
      ensures verdict.Some? && !verdict.value.0 ==> clearScans == 0
    {
      if verdict.Some? {
        if verdict.value.0 {
          ClearCounts(trace, record, clearScans, lastClear);
          if lastClear.None? || at >= lastClear.value + SCAN_GAP {
            clearScans := clearScans + 1;
            lastClear := Some(at);
          }
        } else {
          UnclearCounts(trace, record);
          clearScans := 0;
          lastClear := None;
        }
      } else {
        UnfinishedCounts(trace, record, clearScans, lastClear);
      }
    }

    static lemma FaultStays(a: View, b: View, scan: nat, phase: Option<int>)
      requires Follows(a, b, scan, phase)
      ensures a.fault.Some? ==> b.fault == a.fault
    {
    }

    static lemma DoubtFollows(a: View, b: View, c: View, scan: nat, phase: Option<int>)
      requires Follows(a, b, scan, phase) && c.members == b.members && c.log == b.log && (b.fault.Some? ==> c.fault == b.fault)
      ensures Follows(a, c, scan, phase)
    {
    }

    /** The first failure of one round, in the order in which they are looked for. */
    ghost function FirstFailure(tick: nat, time: nat, deadline: nat, doubted: bool): Option<string> {
      if host.interrupted(tick + 1) then Some("interrupted")
      else if time + world.os.lapse(tick + 2) >= deadline then Some("deadline")
      else if host.drained(tick + 3).Err? then Some(host.drained(tick + 3).error)
      else if doubted then Some("cleanup_required")
      else None
    }

    /** Scans made while the child is watched signal nothing. */
    ghost predicate Watching()
      reads this
    {
      forall i :: 0 <= i < |trace| ==> trace[i].phase.None?
    }

    /** One round of watching the child. A scan that is due is made. */
    method WatchOnce(deadline: nat, nextScan: nat) returns (next: nat)
      requires Valid() && Gentle(scope.log) && exit.None? && scope.fault.None? && failure.None? && Noticed() && Watching()
      modifies this, scope, world
      ensures Valid() && Gentle(scope.log) && Noticed() && Watching() && world.time >= old(world.time)
      ensures failure == FirstFailure(old(world.tick), old(world.time), deadline, scope.fault.Some?)
      ensures failure.None? && exit.None? ==> old(world.time) < deadline && world.time >= old(world.time) + POLL
      ensures failure.None? && exit.None? && old(world.time) >= nextScan ==> |trace| == |old(trace)| + 1
      ensures failure.None? && exit.None? ==> (next == nextScan && trace == old(trace)) || (|trace| == |old(trace)| + 1 && next <= world.time + SCAN_GAP)
    {
      hide Sound, Owned, Traced, Counted, Escalates, Gentle, Reported;
      next := nextScan;
      var interrupted := Interrupted();
      if interrupted {
        failure := Some("interrupted");
        return;
      }
      var now := world.Now();
      if now >= deadline {
        failure := Some("deadline");
        return;
      }
      var drained := Drain();
      if drained.Err? {
        failure := Some(drained.error);
        return;
      }
      var error := ObserveExit(deadline);
      if error.Some? {
        failure := Some("cleanup_required");
        return;
      }
      if exit.Some? {
        return;
      }
      next := WatchScan(deadline, nextScan);
      if failure.None? {
        world.Sleep(POLL);
      }
    }

    /** A scan of the watched child when one is due. Nothing is signalled. */
    method WatchScan(deadline: nat, nextScan: nat) returns (next: nat)
      requires Valid() && Gentle(scope.log) && exit.None? && scope.fault.None? && failure.None? && Noticed() && Watching()
      modifies this, scope, world
      ensures Valid() && Gentle(scope.log) && Noticed() && Watching() && exit.None? && world.time >= old(world.time)
      ensures failure == if scope.fault.Some? then Some("cleanup_required") else None
      ensures var now := old(world.time) + world.os.lapse(old(world.tick) + 1);
              if now < nextScan then trace == old(trace) && next == nextScan
              else |trace| == |old(trace)| + 1 && (failure.None? ==> next == world.time + SCAN_GAP)
    {
      hide Sound, Owned, Traced, Counted, Escalates, Gentle;
      next := nextScan;
      var now := world.Now();
      if now >= nextScan {
        var verdict := Scan(now, deadline, None);
        if scope.fault.Some? {
          failure := Some("cleanup_required");
        } else {
          now := world.Now();
          next := now + SCAN_GAP;
        }
      }
    }

    /** Run until the child exits or something goes wrong, which is then the first failure of the
        last round. Nothing is signalled here. */
    method Watch(deadline: nat)
      requires Valid() && Gentle(scope.log) && exit.None? && scope.fault.None? && Noticed() && Watching()
      modifies this, scope, world
      ensures Valid() && Gentle(scope.log) && Noticed() && Watching() && world.time >= old(world.time)
      ensures old(failure).Some? ==> failure == old(failure) && exit.None? && scope.fault.None? && trace == old(trace)
      ensures failure.None? ==> exit.Some? && scope.fault.None?
      ensures old(failure).None? && failure.Some? ==>
                exists tick, time :: old(world.time) <= time && failure == FirstFailure(tick, time, deadline, scope.fault.Some?)
    {
      hide Sound, Owned, Traced, Counted, Escalates, Gentle, Reported, Noticed, Watching;
      var nextScan := world.Now();
      while failure.None? && exit.None?
        invariant Valid() && Gentle(scope.log) && Noticed() && Watching() && world.time >= old(world.time)
        invariant failure.None? ==> scope.fault.None?
        invariant old(failure).None? && failure.Some? ==>
                    exists tick, time :: old(world.time) <= time && failure == FirstFailure(tick, time, deadline, scope.fault.Some?)
        invariant old(failure).Some? ==> failure == old(failure) && exit.None? && scope.fault.None? && trace == old(trace)
        decreases failure.None? && exit.None?, if world.time < deadline then deadline - world.time else 0
      {
        nextScan := WatchOnce(deadline, nextScan);
      }
    }

    /** Read the pipes and look for the exit during cleanup; a failed read is remembered, and a first
        failure stays. */
    method CleanupLook(end: nat) returns (pipesDone: bool)
      requires Valid() && Noticed()
      modifies this`failure, this`captureFailed, this`exit, scope`fault, world
      ensures Valid() && Noticed() && world.time >= old(world.time)
      ensures var read := host.drained(old(world.tick) + 1);
              && pipesDone == (read == Ok(true))
              && captureFailed == (old(captureFailed) || read.Err?)
              && failure == if old(failure).None? && read.Err? then Some(read.error) else old(failure)
      ensures if old(exit).Some? then exit == old(exit) && scope.fault == old(scope.fault)
              else if world.time < end && host.exit(world.tick).Ok? then host.exit(world.tick) == Ok(exit) && scope.fault == old(scope.fault)
              else exit.None? && scope.fault.Some?
      ensures old(scope.fault).Some? ==> scope.fault == old(scope.fault)
    {
      hide Sound, Owned, Traced, Counted, Escalates;
      var drained := Drain();
      pipesDone := drained.Ok? && drained.value;
      if drained.Err? {
        captureFailed := true;
        if failure.None? {
          failure := Some(drained.error);
        }
      }
      if exit.None? {
        var error := ObserveExit(end);
      }
    }

    /** One scan of a signal phase, and whether it completes the evidence: two clear scans far enough
        apart, and pipes read to their end or given up. */
    method CleanupScan(now: nat, end: nat, phase: int, pipesDone: bool) returns (scopeClear: bool)
      requires Valid() && Noticed() && (phase == KILL || (phase == TERMINATE && Gentle(scope.log)))
      requires now <= world.time && (lastClear.Some? ==> lastClear.value <= now)
      modifies this, scope, world
      ensures Valid() && Noticed() && world.time >= old(world.time) && exit == old(exit) && captureFailed == old(captureFailed)
      ensures |trace| == |old(trace)| + 1 && trace[..|old(trace)|] == old(trace)
      ensures var s := trace[|old(trace)|];
              && s.at == now && s.phase == Some(phase) && s.deadline == end
              && (scopeClear <==> s.finished && (pipesDone || captureFailed) && exists i: nat, j: nat :: TwiceClear(trace, i, j))
              && failure == if old(failure).None? && s.descendant then Some("unexpected_descendant") else old(failure)
      ensures phase != KILL ==> Gentle(scope.log)
      ensures scopeClear ==> Complete()
      ensures old(scope.fault).Some? ==> scope.fault == old(scope.fault)
    {
      hide Sound, Owned, Traced, Counted, Escalates, Gentle, TwiceClear, Reported;
      scopeClear := false;
      var verdict := Scan(now, end, Some(phase));
      CountedTwice(trace, clearScans, lastClear);
      if verdict.Some? {
        if verdict.value.1 && exit.Some? && ExitSuccess(exit.value) && failure.None? {
          failure := Some("unexpected_descendant");
        }
        scopeClear := clearScans >= 2 && (pipesDone || captureFailed);
      }
    }

    /** Two clear scans were counted, and the last one is the last scan. */
    ghost predicate Complete()
      reads this, scope
    {
      && clearScans >= 2 && exit.Some?
      && trace != [] && trace[|trace| - 1].finished && trace[|trace| - 1].clear
      && trace[|trace| - 1].after.members == scope.members
    }

    /** A scan of the phase that the time calls for. */
    method PhaseScan(now: nat, begun: nat, grace: nat, phase: int, pipesDone: bool, ghost from: nat, ghost rounds: seq<nat>)
      returns (scopeClear: bool)
      requires Valid() && Noticed() && from <= |trace| && now <= world.time && (lastClear.Some? ==> lastClear.value <= now)
      requires phase == (if now >= begun + grace then KILL else TERMINATE) && (phase == TERMINATE ==> Gentle(scope.log))
      requires Phased(trace, from, begun, grace) && Killing(trace, from, rounds, begun + grace)
      modifies this, scope, world
      ensures Valid() && Noticed() && world.time >= old(world.time) && (phase == TERMINATE ==> Gentle(scope.log))
      ensures |trace| == |old(trace)| + 1 && trace[..|old(trace)|] == old(trace)
      ensures Phased(trace, from, begun, grace) && Killing(trace, from, rounds + [now], begun + grace)
      ensures phase == KILL ==> KilledBy(trace, from, world.time)
      ensures scopeClear ==> Complete()
      ensures old(scope.fault).Some? ==> scope.fault == old(scope.fault)
      ensures old(failure).Some? ==> failure == old(failure)
      ensures exit == old(exit)
    {
      hide Sound, Owned, Traced, Counted, Escalates, Gentle, Reported, Phased, Killing, KilledBy, TwiceClear, Noticed;
      ghost var before := trace;
      scopeClear := CleanupScan(now, if phase == TERMINATE then begun + grace else begun + grace + grace, phase, pipesDone);
      PhasesGrow(before, trace, from, begun, grace);
      KillsNow(before, trace, from, now);
      KillingGoesOn(before, trace, from, rounds, now, begun + grace);
      KilledLater(trace, from, now, world.time);
    }

    /** One round of cleanup: look, move on to the kill phase once the grace period is over, and scan
        when a scan is due. */
    method CleanupRound(begun: nat, grace: nat, phase0: int, scans0: nat, next0: nat, ghost from: nat, ghost rounds: seq<nat>)
      returns (phase: int, scans: nat, next: nat, ended: bool, scopeClear: bool, ghost now: nat)
      requires Valid() && Noticed() && begun <= world.time && scans0 <= PHASE_SCANS && from <= |trace|
      requires phase0 == KILL || (phase0 == TERMINATE && Gentle(scope.log))
      requires Phased(trace, from, begun, grace) && Killing(trace, from, rounds, begun + grace)
      requires phase0 == KILL ==> KilledBy(trace, from, world.time)
      modifies this, scope, world
      ensures Valid() && Noticed() && world.time >= now >= old(world.time) && (!ended ==> world.time >= old(world.time) + POLL)
      ensures phase == KILL || (phase == phase0 && Gentle(scope.log))
      ensures |old(trace)| <= |trace| <= |old(trace)| + 1 && trace[..|old(trace)|] == old(trace)
      ensures Phased(trace, from, begun, grace) && Killing(trace, from, rounds + [now], begun + grace)
      ensures phase == KILL ==> KilledBy(trace, from, world.time)
      ensures scans <= PHASE_SCANS && scans == (if phase == phase0 then scans0 else 0) + |trace| - |old(trace)|
      ensures next0 <= old(world.time) && scans0 == 0 ==> |trace| > |old(trace)|
      ensures ended ==> scopeClear || scans == PHASE_SCANS
      ensures scopeClear ==> ended && Complete()
      ensures ended && !scopeClear ==> scope.fault.Some?
      ensures old(scope.fault).Some? ==> scope.fault == old(scope.fault)
      ensures old(failure).Some? ==> failure == old(failure)
      ensures old(exit).Some? ==> exit == old(exit)
    {
      hide Sound, Owned, Traced, Counted, Escalates, Gentle, Reported, Phased, Killing, KilledBy, TwiceClear, Noticed;
      phase, scans, next, ended, scopeClear := phase0, scans0, next0, false, false;
      var end := begun + grace + grace;
      var pipesDone := CleanupLook(end);
      var time := world.Now();
      now := time;
      ghost var known := time;
      if phase0 == KILL {
        KillIsLate(trace, from, begun, grace, old(world.time));
      }
      KilledLater(trace, from, old(world.time), time);
      if time >= begun + grace && phase == TERMINATE {
        phase, scans, next := KILL, 0, time;
      }
      if time >= next {
        if scans == PHASE_SCANS {
          KillingGoesOn(trace, trace, from, rounds, now, begun + grace);
          Doubt("cleanup scan bound");
          ended := true;
          return;
        }
        scans := scans + 1;
        scopeClear := PhaseScan(time, begun, grace, phase, pipesDone, from, rounds);
        known := world.time;
        if scopeClear {
          ended := true;
          return;
        }
        var later := world.Now();
        next := later + SCAN_GAP;
      } else {
        KillingGoesOn(trace, trace, from, rounds, now, begun + grace);
      }
      world.Sleep(POLL);
      KilledLater(trace, from, known, world.time);
    }

    /** The signal phases: terminate for a grace period, then kill, until two clear scans. The rounds
        are the times at which the clock was read to decide. The first round scans, and so does the
        first one after the grace period, in the kill phase. Ending without two clear scans is a
        reason for doubt; it takes the whole time or all the scans of a phase. */
    method Cleanup(grace: nat) returns (scopeClear: bool, ghost start: nat, ghost rounds: seq<nat>)
      requires Valid() && Gentle(scope.log) && Noticed()
      modifies this, scope, world
      ensures Valid() && Noticed() && start == old(world.time) + world.os.lapse(old(world.tick) + 1)
      ensures |trace| >= |old(trace)| && trace[..|old(trace)|] == old(trace)
      ensures Phased(trace, |old(trace)|, start, grace) && Killing(trace, |old(trace)|, rounds, start + grace)
      ensures rounds != [] ==> |trace| > |old(trace)|
      ensures rounds == [] ==> world.time >= start + grace + grace
      ensures scopeClear ==> Complete()
      ensures !scopeClear ==> scope.fault.Some?
      ensures !scopeClear ==> world.time >= start + grace + grace || |trace| >= |old(trace)| + PHASE_SCANS
      ensures |trace| <= |old(trace)| + 2 * PHASE_SCANS
      ensures old(scope.fault).Some? ==> scope.fault == old(scope.fault)
      ensures old(failure).Some? ==> failure == old(failure)
      ensures old(exit).Some? ==> exit == old(exit)
    {
      hide Sound, Owned, Traced, Counted, Escalates, Gentle, Reported, Phased, Killing, KilledBy, TwiceClear, Noticed, KillScan, ClearFrom, AllGone, Witnessed, Keeps, ExitSuccess;
      var begun := world.Now();
      start, rounds := begun, [];
      var end := begun + grace + grace;
      var phase: int, phaseScans: nat, nextScan: nat, ended: bool := TERMINATE, 0, begun, false;
      scopeClear := false;
      ghost var from := |trace|;
      NoPhases(trace, start, grace);
      assert trace[..from] == trace;
      var now := world.Now();
      while now < end
        invariant Valid() && Noticed() && world.time >= now && world.time >= begun && start == begun && from == |old(trace)|
        invariant phase == KILL || (phase == TERMINATE && Gentle(scope.log))
        invariant phaseScans <= PHASE_SCANS && from + phaseScans <= |trace| <= from + phaseScans + (if phase == KILL then PHASE_SCANS else 0)
        invariant trace[..from] == old(trace)
        invariant Phased(trace, from, begun, grace) && Killing(trace, from, rounds, begun + grace)
        invariant phase == KILL ==> KilledBy(trace, from, world.time)
        invariant if rounds == [] then phaseScans == 0 && nextScan == begun else |trace| > from
        invariant old(scope.fault).Some? ==> scope.fault == old(scope.fault)
        invariant old(failure).Some? ==> failure == old(failure)
        invariant old(exit).Some? ==> exit == old(exit)
        invariant !scopeClear
        decreases if now < end then end - now else 0
      {
        ghost var read;
        phase, phaseScans, nextScan, ended, scopeClear, read := CleanupRound(begun, grace, phase, phaseScans, nextScan, from, rounds);
        rounds := rounds + [read];
        if ended {
          break;
        }
        now := world.Now();
        KilledLater(trace, from, world.time - world.os.lapse(world.tick), world.time);
      }
      if !scopeClear && scope.fault.None? {
        Doubt("scope observation incomplete");
      }
    }

    static lemma NoPhases(trace: seq<Scanned>, start: nat, grace: nat)
      ensures Phased(trace, |trace|, start, grace) && Killing(trace, |trace|, [], start + grace)
    {
    }

    static lemma PhasesGrow(a: seq<Scanned>, b: seq<Scanned>, from: nat, start: nat, grace: nat)
      requires Phased(a, from, start, grace) && |b| == |a| + 1 && b[..|a|] == a
      requires var s := b[|a|];
               && s.phase == Some(if s.at >= start + grace then KILL else TERMINATE)
               && s.deadline == if s.at >= start + grace then start + grace + grace else start + grace
      ensures Phased(b, from, start, grace)
    {
      assert forall i :: 0 <= i < |a| ==> b[i] == a[i];
    }

    /** One more reading of the clock. */
    static lemma KillingGoesOn(a: seq<Scanned>, b: seq<Scanned>, from: nat, rounds: seq<nat>, now: nat, limit: nat)
      requires Killing(a, from, rounds, limit) && |a| <= |b| && b[..|a|] == a
      requires now >= limit ==> KilledBy(b, from, now)
      ensures Killing(b, from, rounds + [now], limit)
    {
      hide KillScan;
      var all := rounds + [now];
      forall r | 0 <= r < |all| && all[r] >= limit ensures KilledBy(b, from, all[r]) {
        if r < |rounds| {
          assert all[r] == rounds[r];
          var i :| from <= i < |a| && KillScan(a[i], rounds[r]);
          assert b[i] == a[i];
        }
      }
    }

    static lemma KilledLater(trace: seq<Scanned>, from: nat, now: nat, later: nat)
      requires now <= later
      ensures KilledBy(trace, from, now) ==> KilledBy(trace, from, later)
    {
    }

    static lemma KillIsLate(trace: seq<Scanned>, from: nat, start: nat, grace: nat, time: nat)
      requires Phased(trace, from, start, grace) && KilledBy(trace, from, time)
      ensures time >= start + grace
    {
    }

    static lemma KillsNow(a: seq<Scanned>, b: seq<Scanned>, from: nat, now: nat)
      requires from <= |a| && |b| == |a| + 1 && b[..|a|] == a
      ensures b[|a|].phase == Some(KILL) && b[|a|].at <= now ==> KilledBy(b, from, now)
    {
      if b[|a|].phase == Some(KILL) && b[|a|].at <= now {
        assert KillScan(b[|a|], now);
      }
    }

    /** Reap the child and decide whether everything settled. */
    method Settle(scopeClear: bool) returns (outcome: Outcome, status: Option<Status>, rightFailed: bool)
      requires Valid() && (!scopeClear ==> scope.fault.Some?)
      modifies scope`fault, world
      ensures Valid() && rightFailed == world.os.rightFailed(world.tick)
      ensures status == if exit.Some? then host.reaped else None
      ensures scope.fault.None? <==> old(scope.fault).None? && (exit.Some? ==> status.Some? && Matches(exit.value, status.value))
      ensures old(scope.fault).Some? ==> scope.fault == old(scope.fault)
      ensures outcome.settled <==>
                && scopeClear && scope.fault.None? && status.Some? && !rightFailed
                && (scope.delegated ==> failure.None? && status == Some(Exited(0)) && host.receipt)
      ensures outcome.result.Ok? <==> failure.None? && scope.fault.None? && status == Some(Exited(0))
      ensures outcome.result.Ok? ==> outcome.result.value == Exited(0) && scopeClear && exit.Some? && ExitSuccess(exit.value)
      ensures failure.Some? ==> outcome.result == Err(failure.value)
      ensures failure.None? && outcome.result.Err? ==>
                outcome.result.error == if scope.fault.None? && status.Some? then "child_failed" else "cleanup_required"
    {
      hide Sound, Owned, Traced, Counted, Escalates;
      status := None;
      if exit.Some? {
        status := host.reaped;
        if status.None? {
          Doubt("final reap");
        } else if !Matches(exit.value, status.value) {
          Doubt("final wait status mismatch");
        }
      }
      var succeeded := status == Some(Exited(0));
      var delegatedSettled := !scope.delegated || (failure.None? && succeeded && host.receipt);
      rightFailed := world.RightFailed();
      var settled := scopeClear && scope.fault.None? && status.Some? && delegatedSettled && !rightFailed;
      var result: Result<Status, string>;
      if failure.Some? {
        result := Err(failure.value);
      } else if scope.fault.Some? {
        result := Err("cleanup_required");
      } else if status.None? {
        result := Err("cleanup_required");
      } else if succeeded {
        result := Ok(status.value);
      } else {
        result := Err("child_failed");
      }
      outcome := Outcome(result, settled);
    }
  }

  /** What was seen of a child that was started: the scans from a given one on are those of cleanup,
      which began at a given time and read the clock at the given ones. */
  datatype Run = Run(anchor: int, delegated: bool, view: View, latest: nat, trace: seq<Scanned>, from: nat, start: nat, rounds: seq<nat>,
                     failure: Option<string>, exit: Option<Exit>, status: Option<Status>)

  /** What every run satisfies: nothing but the anchor and what was seen in its session is retained or
      signalled, watching signals nothing, and cleanup terminates and then kills. */
  ghost predicate Ran(os: Os, run: Run, grace: nat) {
    && Sound(os, run.view.members, run.view.log, run.latest) && Escalates(run.view.log)
    && Owned(os, run.anchor, run.view.members, run.view.log)
    && Traced(os, run.trace, run.view, run.anchor, run.delegated)
    && run.from <= |run.trace| && (forall i :: 0 <= i < run.from ==> run.trace[i].phase.None?)
    && Phased(run.trace, run.from, run.start, grace) && Killing(run.trace, run.from, run.rounds, run.start + grace)
  }

  /** Nothing owned but the anchor lived through the scan, unless it had once been looked up in vain. */
  ghost predicate NoneLives(os: Os, s: Scanned, anchor: int) {
    forall pid :: pid != anchor && Listed(os, s.before, anchor, s.asked, pid) && Lives(os, pid, s.asked, s.answered) ==>
      WasAbsent(os, pid, s.asked)
  }

  ghost predicate Emptied(os: Os, s: Scanned, anchor: int) {
    AllGone(s, anchor) && NoneLives(os, s, anchor)
  }

  /** A settled run: no scan ever went without a verdict, the child's exit was seen and reaped as
      seen, every lifetime ever retained but the anchor's was seen to have departed and was gone in the
      last of two clear scans, through which no owned process lived, and a delegated run was without
      failure and left its receipt. */
  ghost predicate Settlement(os: Os, run: Run, host: Host) {
    && run.view.fault.None?
    && (forall i :: 0 <= i < |run.trace| ==> run.trace[i].finished)
    && run.exit.Some? && Reported(host, run.exit.value) && run.status.Some? && Matches(run.exit.value, run.status.value) && host.reaped == run.status
    && (exists i: nat, j: nat :: TwiceClear(run.trace, i, j) && Emptied(os, run.trace[i], run.anchor) && Emptied(os, run.trace[j], run.anchor))
    && (forall k :: k in run.view.members ==> k.pid == run.anchor || Left(run.view.log, k))
    && (run.delegated ==> run.failure.None? && run.status == Some(Exited(0)) && host.receipt)
  }

  /** Through a clear scan no owned process lived. */
  lemma ClearIsEmpty(os: Os, trace: seq<Scanned>, v: View, anchor: int, delegated: bool, i: nat)
    requires Traced(os, trace, v, anchor, delegated) && i < |trace| && trace[i].finished && trace[i].clear
    ensures Emptied(os, trace[i], anchor)
  {
    hide AllLeft, Served, Lives, Listed, AllGone, WasAbsent;
    var s := trace[i];
    forall pid | pid != anchor && Listed(os, s.before, anchor, s.asked, pid) && Lives(os, pid, s.asked, s.answered)
      ensures WasAbsent(os, pid, s.asked)
    {
      assert Found(os, s.before, s.after, s.asked, s.answered, anchor, s.phase, (s.clear, s.residual), pid);
    }
  }

  /** A lifetime that a finished scan of the kill phase left live has a delivered kill on record. */
  lemma KillIsDelivered(os: Os, trace: seq<Scanned>, v: View, anchor: int, delegated: bool, i: nat, k: Key) returns (e: nat)
    requires Traced(os, trace, v, anchor, delegated) && i < |trace| && trace[i].finished && trace[i].phase == Some(KILL)
    requires var s := trace[i];
             && k in s.after.members && !(s.exited && k.pid == anchor)
             && !s.after.members[k].gone && !s.after.members[k].pending && s.after.members[k].facts.status != ZOMBIE
    ensures var m := trace[i].after.members[k];
            && m.token.Some? && e < |v.log| && Succeeded(v.log[e])
            && v.log[e].key == k && v.log[e].generation == m.token.value.generation && v.log[e].value == KILL
  {
    hide AllFound, AllLeft, Unbroken, AllGone, Keeps;
    var s := trace[i];
    assert Served(s.after.members, s.after.log, s.asked, k, s.phase);
    var g := s.after.members[k].token.value.generation;
    e :| 0 <= e < |s.after.log| && Succeeded(s.after.log[e]) && s.after.log[e].key == k && s.after.log[e].generation == g
         && s.after.log[e].value == KILL && Unbroken(s.after.log, e);
    assert v.log[e] == s.after.log[e];
  }

  ghost predicate Hit(log: Log, k: Key) {
    exists e :: 0 <= e < |log| && Succeeded(log[e]) && log[e].key == k && log[e].value == KILL
  }

  /** An owned process that lives through a finished scan of the kill phase was killed, unless its
      signal missed or it had once been looked up in vain. */
  lemma WhatLivesIsKilled(os: Os, trace: seq<Scanned>, v: View, anchor: int, delegated: bool, i: nat, pid: int)
    requires Traced(os, trace, v, anchor, delegated) && i < |trace| && trace[i].finished && trace[i].phase == Some(KILL)
    requires var s := trace[i];
             Listed(os, s.before, anchor, s.asked, pid) && Lives(os, pid, s.asked, s.answered) && !(s.exited && pid == anchor)
    ensures var s, k := trace[i], Lifetime(os, pid, trace[i].asked);
            Hit(v.log, k) || Missed(os, k, KILL, s.asked, s.answered) || WasAbsent(os, pid, s.asked)
  {
    hide AllLeft, Served, Lives, Listed, AllGone, WasAbsent, Missed, Keeps;
    var s, k := trace[i], Lifetime(os, pid, trace[i].asked);
    assert Found(os, s.before, s.after, s.asked, s.answered, anchor, s.phase, (s.clear, s.residual), pid);
    if !s.after.members[k].gone && !s.after.members[k].pending {
      var e := KillIsDelivered(os, trace, v, anchor, delegated, i, k);
    }
  }

  lemma ClearRunSettles(os: Os, trace: seq<Scanned>, v: View, anchor: int, delegated: bool, clearScans: nat, lastClear: Option<nat>)
    requires Traced(os, trace, v, anchor, delegated) && v.fault.None? && Counted(trace, clearScans, lastClear) && clearScans >= 2
    requires trace != [] && trace[|trace| - 1].clear && trace[|trace| - 1].after.members == v.members
    ensures exists i: nat, j: nat :: TwiceClear(trace, i, j) && Emptied(os, trace[i], anchor) && Emptied(os, trace[j], anchor)
    ensures forall k :: k in v.members ==> v.members[k].gone || k.pid == anchor
    ensures forall i :: 0 <= i < |trace| ==> trace[i].finished
  {
    hide Witnessed, Keeps, Emptied;
    var i: nat, j: nat :| TwiceClear(trace, i, j);
    assert trace[i].clear && trace[j].clear;
    ClearIsEmpty(os, trace, v, anchor, delegated, i);
    ClearIsEmpty(os, trace, v, anchor, delegated, j);
    assert AllGone(trace[|trace| - 1], anchor);
  }

  lemma GoneHaveLeft(os: Os, members: Members, log: Log, latest: nat)
    requires Sound(os, members, log, latest)
    ensures forall k :: k in members && members[k].gone ==> Left(log, k)
  {
    hide Keyed, OnePerPid, Backed, Tracked, Separated, Attested, Left, Logged, Ordered, Timely;
  }

  lemma RunSettles(os: Os, run: Run, host: Host)
    requires Sound(os, run.view.members, run.view.log, run.latest) && run.view.fault.None?
    requires forall i :: 0 <= i < |run.trace| ==> run.trace[i].finished
    requires exists i: nat, j: nat :: TwiceClear(run.trace, i, j) && Emptied(os, run.trace[i], run.anchor) && Emptied(os, run.trace[j], run.anchor)
    requires forall k :: k in run.view.members ==> run.view.members[k].gone || k.pid == run.anchor
    requires run.exit.Some? && Reported(host, run.exit.value) && run.status.Some? && Matches(run.exit.value, run.status.value)
    requires host.reaped == run.status && (run.delegated ==> run.failure.None? && run.status == Some(Exited(0)) && host.receipt)
    ensures Settlement(os, run, host)
  {
    hide Sound, TwiceClear, Emptied, Left, Reported, Matches;
    GoneHaveLeft(os, run.view.members, run.view.log, run.latest);
  }

  /** Supervise a command to its end. */
  method Supervise(world: World, host: Host, deadline: nat, grace: nat, delegated: bool)
    returns (outcome: Outcome, rightFailed: bool, ghost run: Option<Run>)
    modifies world
    ensures run.None? ==> outcome.settled && outcome.result.Err?
    ensures run.None? <==> host.interrupted(old(world.tick) + 1) || old(world.time) + world.os.lapse(old(world.tick) + 1) >= deadline || host.spawn.None?
    ensures run.Some? ==> Ran(world.os, run.value, grace) && host.spawn == Some(run.value.anchor) && run.value.delegated == delegated
    ensures run.Some? && outcome.settled ==> Settlement(world.os, run.value, host)
    ensures outcome.result.Ok? ==> run.Some? && run.value.failure.None? && run.value.view.fault.None? && run.value.status == Some(Exited(0))
                                   && (forall k :: k in run.value.view.members ==> run.value.view.members[k].gone || k.pid == run.value.anchor)
                                   && (forall i :: 0 <= i < |run.value.trace| ==> !run.value.trace[i].descendant)
    ensures outcome.result.Ok? ==> (outcome.settled <==> (delegated ==> host.receipt) && !rightFailed)
  {
    hide Sound, Owned, Traced, Counted, Escalates, Gentle, TwiceClear, Emptied, Left, Reported, Phased, Killing, Settlement, ClearFrom, Matches, AllGone, Keeps, Witnessed, NeverReturns;
    var now := world.Now();
    if host.interrupted(world.tick) || now >= deadline || host.spawn.None? {
      return Outcome(Err("not_started"), true), false, None;
    }
    var s := new Supervision(world, host, host.spawn.value, delegated);
    s.Watch(deadline);
    ghost var watched := s.trace;
    var scopeClear, start, rounds := s.Cleanup(grace);
    var status;
    outcome, status, rightFailed := s.Settle(scopeClear);
    run := Some(Run(s.scope.anchor, delegated, s.scope.Seen(), s.scope.latest, s.trace, |watched|, start, rounds, s.failure, s.exit, status));
    assert forall i :: 0 <= i < |watched| ==> s.trace[i] == watched[i];
    if scopeClear && s.scope.fault.None? {
      ClearRunSettles(world.os, s.trace, s.scope.Seen(), s.scope.anchor, s.scope.delegated, s.clearScans, s.lastClear);
      if outcome.settled {
        RunSettles(world.os, run.value, host);
      }
    }
  }

  /** Over a whole supervised run, under a kernel that does not return to a generation, two
      successful signals to one execution generation of a lifetime are terminate and then kill. */
  lemma RunSignalsOnce(os: Os, run: Run, i: nat, j: nat)
    requires Sound(os, run.view.members, run.view.log, run.latest) && Escalates(run.view.log) && NeverReturns(os)
    requires i < j < |run.view.log| && Succeeded(run.view.log[i]) && Succeeded(run.view.log[j])
    requires run.view.log[i].key == run.view.log[j].key && run.view.log[i].generation == run.view.log[j].generation
    ensures run.view.log[i].value == TERMINATE && run.view.log[j].value == KILL
  {
    hide NeverReturns, Separated, Attested, Ordered, Keyed, OnePerPid, Tracked, Departures, Logged, Timely, Vouched;
    SignalsSucceedOnce(os, run.view.members, run.view.log, run.latest, i, j);
  }
}
