/** Observation of an owned process scope (rust/check-i0-driver.rs). Everything the operating system
    answers, and how long it takes to answer, comes from an arbitrary oracle; the proofs hold for
    every oracle. */
module ProcessScope {
  import opened Wrappers
  import opened ProcessLog
  import opened ProcessLife

  /** The questions asked so far and the time. */
  class World {
    const os: Os
    var tick: nat
    var time: nat

    constructor (os: Os)
      ensures this.os == os && tick == 0 && time == 0
    {
      this.os := os;
      tick, time := 0, 0;
    }

    /** Time passes by an arbitrary amount. */
    method Now() returns (now: nat)
      modifies this
      ensures now == time == old(time) + os.lapse(tick) && tick == old(tick) + 1
    {
      tick := tick + 1;
      time := time + os.lapse(tick);
      now := time;
    }

    method Sleep(ms: nat)
      modifies this
      ensures time >= old(time) + ms && tick == old(tick) + 1
    {
      tick := tick + 1;
      time := time + ms + os.lapse(tick);
    }

    method Census(end: nat) returns (pids: Option<seq<int>>)
      modifies this
      ensures pids == if time >= end then None else os.census(tick)
      ensures time == old(time) + os.lapse(tick) && tick == old(tick) + 1
    {
      var now := Now();
      if now >= end {
        return None;
      }
      pids := os.census(tick);
    }

    method Bsd(pid: int) returns (r: Result<Facts, int>)
      modifies this
      ensures r.Ok? ==> r.value.pid == pid && r.value.session == 0 && os.bsd(tick, pid) == Ok((r.value.status, r.value.start))
      ensures r.Err? ==> os.bsd(tick, pid) == Err(r.error)
      ensures time == old(time) && tick == old(tick) + 1
    {
      tick := tick + 1;
      match os.bsd(tick, pid) {
        case Ok(found) => r := Ok(Facts(pid, 0, found.0, found.1));
        case Err(errno) => r := Err(errno);
      }
    }

    method Session(pid: int) returns (r: Result<int, int>)
      modifies this
      ensures r == os.session(tick, pid)
      ensures time == old(time) && tick == old(tick) + 1
    {
      tick := tick + 1;
      r := os.session(tick, pid);
    }

    /** Identity facts with the session; a zombie may have lost its session. */
    method FactsOf(pid: int) returns (r: Result<Facts, int>)
      modifies this
      ensures r.Ok? ==> r.value.pid == pid && os.bsd(old(tick) + 1, pid) == Ok((r.value.status, r.value.start))
      ensures r.Ok? ==> os.session(old(tick) + 2, pid) == Ok(r.value.session)
                        || (os.session(old(tick) + 2, pid) == Err(ESRCH) && r.value.status == ZOMBIE && r.value.session == 0)
      ensures r.Err? ==> os.bsd(old(tick) + 1, pid) == Err(r.error)
                         || (tick == old(tick) + 2 && os.session(old(tick) + 2, pid) == Err(r.error))
      ensures r.Ok? ==> tick == old(tick) + 2
      ensures Quiet(os, pid) ==> r == Ok(Home(os, pid))
      ensures time == old(time) && old(tick) < tick <= old(tick) + 2
    {
      r := Bsd(pid);
      if r.Err? {
        return;
      }
      var sid := Session(pid);
      match sid {
        case Ok(value) => r := Ok(r.value.(session := value));
        case Err(errno) =>
          if !(errno == ESRCH && r.value.status == ZOMBIE) {
            r := Err(errno);
          }
      }
    }

    /** A kernel token for a lifetime, read between two agreeing observations of it. */
    method Acquire(expected: Facts) returns (r: Option<Token>, ghost granted: nat)
      modifies this
      ensures r.Some? ==> SameIdentity(expected, r.value.identity) && old(tick) < granted <= tick
                          && os.grant(granted, expected.pid) == Some(Grant(expected.pid, r.value.generation))
      ensures Quiet(os, expected.pid) && SameIdentity(expected, Home(os, expected.pid)) ==>
                r.Some? && r.value.identity == Home(os, expected.pid)
      ensures time == old(time) && old(tick) < tick <= old(tick) + 5
    {
      granted := 0;
      var before := FactsOf(expected.pid);
      if before.Err? {
        return None, 0;
      }
      if !SameIdentity(expected, before.value) {
        return None, 0;
      }
      tick := tick + 1;
      granted := tick;
      var grant := os.grant(tick, before.value.pid);
      if grant.None? {
        return None, 0;
      }
      var after := FactsOf(before.value.pid);
      if after.Err? || grant.value.pid != before.value.pid || !SameIdentity(before.value, after.value) {
        return None, 0;
      }
      r := Some(Token(after.value, grant.value.generation));
    }

    /** Two acquisitions of the same lifetime, in the same session, around a fresh look at it. On a
        quiet system it fails only while the generation changes. */
    method Certify(f: Facts, end: nat) returns (r: Certification, ghost one: nat, ghost looked: nat, ghost two: nat)
      modifies this
      ensures r.Granted? ==> SameIdentity(f, r.token.identity) && r.token.identity.session == f.session
      ensures r.Granted? ==> old(tick) < one < looked < two <= tick
                             && os.grant(one, f.pid) == os.grant(two, f.pid) == Some(Grant(f.pid, r.token.generation))
                             && os.bsd(looked, f.pid).Ok? && os.bsd(looked, f.pid).value.1 == f.start
      ensures r.Changing? ==> !Stable(os, f.pid, old(tick), tick)
      ensures Quiet(os, f.pid) && f == Home(os, f.pid) && old(time) < end ==> time == old(time) && !r.Refused?
      ensures time >= old(time) && old(tick) < tick <= old(tick) + 14
    {
      one, looked, two := 0, 0, 0;
      r := Refused;
      var now := Now();
      if now >= end {
        return;
      }
      var first;
      first, one := Acquire(f);
      if first.None? {
        return;
      }
      looked := tick + 1;
      var between := FactsOf(f.pid);
      if between.Err? {
        return;
      }
      now := Now();
      if now >= end {
        return;
      }
      var second;
      second, two := Acquire(between.value);
      if second.None? {
        return;
      }
      if !SameIdentity(f, between.value) || !SameIdentity(first.value.identity, second.value.identity) {
        return;
      }
      if first.value.identity.session != f.session || between.value.session != f.session || second.value.identity.session != f.session {
        return;
      }
      if first.value.generation != second.value.generation {
        assert os.grant(one, f.pid) != os.grant(two, f.pid);
        r := Changing;
        return;
      }
      r := Granted(second.value);
    }

    /** Whether a lifetime is proved gone: looked up as absent and missing from a fresh census. */
    method OldIdentityGone(f: Facts, end: nat) returns (gone: bool, ghost lookup: nat, ghost listing: nat)
      modifies this
      ensures gone ==> old(tick) < lookup <= tick && old(tick) < listing && os.bsd(lookup, f.pid) == Err(ESRCH)
                       && os.census(listing).Some? && f.pid !in os.census(listing).value
      ensures time >= old(time) && old(tick) < tick <= old(tick) + 2
    {
      var pids := Census(end);
      lookup, listing := 0, tick;
      if pids.None? {
        return false, 0, 0;
      }
      var current := Bsd(f.pid);
      lookup := tick;
      gone := current.Err? && current.error == ESRCH && f.pid !in pids.value;
    }

    method Signal(token: Token, value: int) returns (errno: int)
      modifies this
      ensures errno == os.signal(tick, token, value)
      ensures time == old(time) && tick == old(tick) + 1
    {
      tick := tick + 1;
      errno := os.signal(tick, token, value);
    }

    method RightFailed() returns (failed: bool)
      modifies this
      ensures failed == os.rightFailed(tick)
      ensures time == old(time) && tick == old(tick) + 1
    {
      tick := tick + 1;
      failed := os.rightFailed(tick);
    }
  }

  /** What an attempt to certify a lifetime found. */
  datatype Certification = Refused | Changing | Granted(token: Token)

  /** Nothing but one lifetime, or but the lifetimes of one process, changed. */
  ghost predicate OnlyKey(a: Members, b: Members, key: Key) {
    forall k: Key :: k != key ==> (k in a <==> k in b) && (k in a ==> a[k] == b[k])
  }

  ghost predicate OnlyPid(a: Members, b: Members, pid: int) {
    forall k: Key :: k.pid != pid ==> (k in a <==> k in b) && (k in a ==> a[k] == b[k])
  }

  ghost predicate AllServed(members: Members, log: Log, scan: nat, pid: int, phase: Option<int>) {
    forall k :: k in members && k.pid == pid ==> Served(members, log, scan, k, phase)
  }

  /** Every lifetime that is not gone is of a candidate. */
  ghost predicate Covered(members: Members, candidates: seq<int>) {
    forall k :: k in members && !members[k].gone ==> k.pid in candidates
  }

  ghost predicate ServedSo(members: Members, log: Log, scan: nat, candidates: seq<int>, except: Option<int>, phase: Option<int>) {
    forall pid :: pid in candidates && except != Some(pid) ==> AllServed(members, log, scan, pid, phase)
  }

  lemma CertifiedStays(a: Log, b: Log, scan: nat, k: Key, generation: int)
    requires CertifiedIn(a, scan, k, generation) && a <= b
    ensures CertifiedIn(b, scan, k, generation)
  {
    var i :| 0 <= i < |a| && a[i].Certified? && a[i].scan == scan && a[i].key == k && a[i].generation == generation;
    assert b[i] == a[i];
  }

  /** What a lifetime was served stays on record while others are served. */
  lemma StillServed(os: Os, a: View, b: View, latest: nat, scan: nat, k: Key, phase: Option<int>)
    requires Sound(os, b.members, b.log, latest) && k in a.members && k in b.members && a.members[k] == b.members[k]
    requires Served(a.members, a.log, scan, k, phase) && a.log <= b.log
    ensures Served(b.members, b.log, scan, k, phase)
  {
    hide Keyed, OnePerPid, Backed, Tracked, Separated, Attested, Departures, Ordered, Timely, Delivered, CertifiedIn;
    var m := a.members[k];
    if m.token.Some? && CertifiedIn(a.log, scan, k, m.token.value.generation) {
      CertifiedStays(a.log, b.log, scan, k, m.token.value.generation);
    }
  }

  lemma OneMoreServed(os: Os, a: View, b: View, latest: nat, scan: nat, candidates: seq<int>, i: nat, except: Option<int>, phase: Option<int>)
    requires Sound(os, b.members, b.log, latest) && a.log <= b.log
    requires i < |candidates| && Covered(a.members, candidates) && ServedSo(a.members, a.log, scan, candidates[..i], except, phase)
    requires OnlyPid(a.members, b.members, candidates[i])
    requires except != Some(candidates[i]) ==> AllServed(b.members, b.log, scan, candidates[i], phase)
    ensures Covered(b.members, candidates) && ServedSo(b.members, b.log, scan, candidates[..i + 1], except, phase)
  {
    hide Served, Sound;
    forall pid | pid in candidates[..i + 1] && except != Some(pid) ensures AllServed(b.members, b.log, scan, pid, phase) {
      if pid != candidates[i] {
        assert pid in candidates[..i];
        assert AllServed(a.members, a.log, scan, pid, phase);
        forall k | k in b.members && k.pid == pid ensures Served(b.members, b.log, scan, k, phase) {
          StillServed(os, a, b, latest, scan, k, phase);
        }
      }
    }
  }

  lemma GoneAreServed(members: Members, log: Log, scan: nat, phase: Option<int>)
    ensures forall k :: k in members && members[k].gone ==> Served(members, log, scan, k, phase)
  {
    hide Delivered, CertifiedIn;
  }

  /** What a sound record says of a member that remembers this phase's signal. */
  lemma MarkedIsServed(os: Os, members: Members, log: Log, latest: nat, scan: nat, k: Key, phase: Option<int>)
    requires Sound(os, members, log, latest) && k in members && members[k].token.Some?
    requires phase.Some? ==> members[k].sent == phase.value && CertifiedIn(log, scan, k, members[k].token.value.generation)
    ensures Served(members, log, scan, k, phase)
  {
    hide Keyed, OnePerPid, Backed, Tracked, Separated, Attested, Departures, Ordered, Timely, Delivered, CertifiedIn;
  }

  lemma VouchedIsCertified(log: Log, scan: nat, k: Key, generation: int, more: Log)
    requires Vouched(log, scan, k, generation)
    ensures CertifiedIn(log + more, scan, k, generation)
  {
    assert (log + more)[|log| - 1] == log[|log| - 1];
  }

  /** The lifetimes already reviewed: one of a live process is its own, and nothing is amiss with it. */
  ghost predicate Reviewed(os: Os, members: Members, anchor: int, scan: nat, until: nat, todo: set<Key>, exited: bool) {
    forall k :: k in members && k !in todo && !members[k].gone && !(exited && k.pid == anchor) && Lives(os, k.pid, scan, until) ==>
      k == Lifetime(os, k.pid, scan) && !members[k].pending
  }

  lemma ReviewedStep(os: Os, a: Members, b: Members, anchor: int, scan: nat, until: nat, later: nat, todo: set<Key>, exited: bool, key: Key)
    requires Reviewed(os, a, anchor, scan, until, todo, exited) && until <= later && OnlyKey(a, b, key)
    requires key in b && !b[key].gone && !(exited && key.pid == anchor) && Lives(os, key.pid, scan, later) ==>
               key == Lifetime(os, key.pid, scan) && !b[key].pending
    ensures Reviewed(os, b, anchor, scan, later, todo - {key}, exited)
  {
    hide Lives;
    forall k | k in b && k != key ensures Lives(os, k.pid, scan, later) ==> Lives(os, k.pid, scan, until) {
      LivesEarlier(os, k.pid, scan, until, later);
    }
  }

  /** The lifetimes already reviewed: one whose process is absent, from the census too, is gone. */
  ghost predicate Cleared(os: Os, members: Members, anchor: int, scan: nat, until: nat, todo: set<Key>, exited: bool, census: seq<int>) {
    forall k :: k in members && k !in todo && !(exited && k.pid == anchor) && Absent(os, k.pid, scan, until) && k.pid !in census ==>
      members[k].gone
  }

  lemma ClearedStep(os: Os, a: Members, b: Members, anchor: int, scan: nat, until: nat, later: nat, todo: set<Key>, exited: bool, census: seq<int>,
                    key: Key)
    requires Cleared(os, a, anchor, scan, until, todo, exited, census) && until <= later && OnlyKey(a, b, key)
    requires key in b && !(exited && key.pid == anchor) && Absent(os, key.pid, scan, later) && key.pid !in census ==> b[key].gone
    ensures Cleared(os, b, anchor, scan, later, todo - {key}, exited, census)
  {
    forall k | k in b && k != key ensures Absent(os, k.pid, scan, later) ==> Absent(os, k.pid, scan, until) {
    }
    hide Absent;
  }

  lemma ClearedLater(os: Os, a: View, b: View, anchor: int, scan: nat, until: nat, later: nat, exited: bool, census: seq<int>, phase: Option<int>)
    requires Cleared(os, a.members, anchor, scan, until, {}, exited, census) && until <= later && Follows(a, b, scan, phase)
    ensures forall k :: k in a.members && !(exited && k.pid == anchor) && Absent(os, k.pid, scan, later) && k.pid !in census ==> b.members[k].gone
  {
    forall k | k in a.members ensures Absent(os, k.pid, scan, later) ==> Absent(os, k.pid, scan, until) {
    }
    hide Absent;
  }

  lemma NothingReviewed(os: Os, members: Members, anchor: int, scan: nat, until: nat, exited: bool, census: seq<int>)
    ensures Reviewed(os, members, anchor, scan, until, members.Keys, exited)
    ensures Cleared(os, members, anchor, scan, until, members.Keys, exited, census)
  {
  }

  lemma ReviewedIsReady(os: Os, members: Members, anchor: int, scan: nat, until: nat, exited: bool)
    requires Reviewed(os, members, anchor, scan, until, {}, exited)
    ensures forall pid :: Lives(os, pid, scan, until) && !(exited && pid == anchor) ==> Ready(os, members, scan, pid)
  {
    hide Lives;
  }

  /** Every process that lives through the scan is met; before its inspection nothing is left for later
      of it, and after it, it is attended to if it is owned, and doubted if it left the session. */
  ghost predicate Watched(os: Os, held: Members, v: View, anchor: int, delegated: bool, scan: nat, until: nat, exited: bool,
                          phase: Option<int>, done: seq<int>)
  {
    forall pid :: Lives(os, pid, scan, until) && !(exited && pid == anchor) ==>
      && Met(os, v.members, scan, until, pid, phase)
      && (pid !in done ==> Ready(os, v.members, scan, pid))
      && (pid in done && Due(os, held, anchor, scan, pid) ==> Attended(os, v.members, scan, until, Lifetime(os, pid, scan), phase))
      && (pid in done && Escaped(os, held, anchor, delegated, scan, pid) ==> v.fault.Some?)
  }

  lemma WatchedStep(os: Os, held: Members, a: View, b: View, anchor: int, delegated: bool, scan: nat, until: nat, later: nat, exited: bool,
                    phase: Option<int>, candidates: seq<int>, i: nat)
    requires i < |candidates| && Watched(os, held, a, anchor, delegated, scan, until, exited, phase, candidates[..i])
    requires until <= later && OnlyPid(a.members, b.members, candidates[i]) && (a.fault.Some? ==> b.fault == a.fault)
    requires Lives(os, candidates[i], scan, later) && !(exited && candidates[i] == anchor) ==>
               && Met(os, b.members, scan, later, candidates[i], phase)
               && (Due(os, held, anchor, scan, candidates[i]) ==> Attended(os, b.members, scan, later, Lifetime(os, candidates[i], scan), phase))
               && (Ready(os, a.members, scan, candidates[i]) && Escaped(os, held, anchor, delegated, scan, candidates[i]) ==> b.fault.Some?)
    ensures Watched(os, held, b, anchor, delegated, scan, later, exited, phase, candidates[..i + 1])
  {
    hide Lives, Met, Attended, Ready, Due, Escaped;
    assert candidates[..i + 1] == candidates[..i] + [candidates[i]];
    forall pid | Lives(os, pid, scan, later) && !(exited && pid == anchor)
      ensures Met(os, b.members, scan, later, pid, phase)
      ensures pid !in candidates[..i + 1] ==> Ready(os, b.members, scan, pid)
      ensures pid in candidates[..i + 1] && Due(os, held, anchor, scan, pid) ==>
                Attended(os, b.members, scan, later, Lifetime(os, pid, scan), phase)
      ensures pid in candidates[..i + 1] && Escaped(os, held, anchor, delegated, scan, pid) ==> b.fault.Some?
    {
      LivesEarlier(os, pid, scan, until, later);
      if pid != candidates[i] {
        OthersWatched(os, a.members, b.members, scan, until, later, phase, candidates[i], pid);
      }
    }
  }

  lemma OthersWatched(os: Os, a: Members, b: Members, scan: nat, until: nat, later: nat, phase: Option<int>, inspected: int, pid: int)
    requires until <= later && OnlyPid(a, b, inspected) && pid != inspected
    ensures Met(os, a, scan, until, pid, phase) ==> Met(os, b, scan, later, pid, phase)
    ensures Ready(os, a, scan, pid) ==> Ready(os, b, scan, pid)
    ensures Attended(os, a, scan, until, Lifetime(os, pid, scan), phase) ==> Attended(os, b, scan, later, Lifetime(os, pid, scan), phase)
  {
    hide Attended;
    MetLater(os, a, b, scan, until, later, pid, phase);
    if Attended(os, a, scan, until, Lifetime(os, pid, scan), phase) {
      AttendedMembers(os, a, scan, until, Lifetime(os, pid, scan), phase);
      AttendedLater(os, a, b, scan, until, later, Lifetime(os, pid, scan), phase);
    }
  }

  lemma AttendedMembers(os: Os, members: Members, scan: nat, until: nat, k: Key, phase: Option<int>)
    requires Attended(os, members, scan, until, k, phase)
    ensures k in members
  {
  }

  lemma WatchedMeets(os: Os, held: Members, v: View, anchor: int, delegated: bool, scan: nat, until: nat, later: nat, exited: bool,
                     phase: Option<int>, done: seq<int>, pid: int)
    requires Watched(os, held, v, anchor, delegated, scan, until, exited, phase, done) && until <= later
    ensures Lives(os, pid, scan, later) && !(exited && pid == anchor) ==> Met(os, v.members, scan, until, pid, phase)
  {
    hide Lives, Met, Attended, Ready;
    LivesEarlier(os, pid, scan, until, later);
  }

  /** A smaller list of candidates, and of what was held, promises less. */
  lemma WatchedFewer(os: Os, a: View, v: View, b: View, latest: nat, anchor: int, delegated: bool, scan: nat, until: nat, later: nat, exited: bool,
                     phase: Option<int>, done: seq<int>, fewer: seq<int>)
    requires Watched(os, v.members, b, anchor, delegated, scan, later, exited, phase, done) && forall pid :: pid in fewer ==> pid in done
    requires Sound(os, v.members, v.log, latest) && latest <= until <= later && Follows(a, v, scan, phase) && Covered(v.members, done)
    ensures AllAttended(os, a.members, b, anchor, delegated, scan, later, exited, phase, fewer)
  {
    hide Lives, Met, Attended, Ready, Sound, Follows;
    forall pid | Lives(os, pid, scan, later) ensures Held(os, a.members, scan, pid) ==> Held(os, v.members, scan, pid) {
      LivesEarlier(os, pid, scan, until, later);
      HeldStill(os, a, v, latest, scan, pid, phase, until);
    }
  }

  lemma WatchedFirst(os: Os, held: Members, v: View, anchor: int, delegated: bool, scan: nat, until: nat, exited: bool, phase: Option<int>)
    requires forall pid :: Lives(os, pid, scan, until) && !(exited && pid == anchor) ==> Ready(os, v.members, scan, pid)
    ensures Watched(os, held, v, anchor, delegated, scan, until, exited, phase, [])
  {
    hide Lives, Met, Ready, Attended, Due, Escaped;
    forall pid | Lives(os, pid, scan, until) && !(exited && pid == anchor) ensures Met(os, v.members, scan, until, pid, phase) {
      ReadyIsMet(os, v.members, scan, until, pid, phase);
    }
  }

  /** Every owned process that lives through the scan is attended to, and doubted if it left the session. */
  ghost predicate AllAttended(os: Os, held: Members, v: View, anchor: int, delegated: bool, scan: nat, until: nat, exited: bool,
                              phase: Option<int>, done: seq<int>)
  {
    forall pid :: Lives(os, pid, scan, until) && !(exited && pid == anchor) && (pid in done || Held(os, held, scan, pid)) ==>
      && (Due(os, held, anchor, scan, pid) ==> Attended(os, v.members, scan, until, Lifetime(os, pid, scan), phase))
      && (Escaped(os, held, anchor, delegated, scan, pid) ==> v.fault.Some?)
  }

  /** What a finished scan owes an owned process that lived through it: its lifetime is retained and
      served, is gone only if it had been found gone before, and is left for later only when its
      signal missed; the scope is not clear, and the process counts as live. */
  ghost predicate Found(os: Os, before: Members, after: View, scan: nat, until: nat, anchor: int, phase: Option<int>, verdict: (bool, bool), pid: int) {
    var k := Lifetime(os, pid, scan);
    && k in after.members && Served(after.members, after.log, scan, k, phase)
    && (after.members[k].gone ==> k in before && before[k].gone && WasAbsent(os, pid, scan))
    && (!after.members[k].gone ==>
          && !verdict.0
          && after.members[k].facts.status != ZOMBIE
          && (after.members[k].pending ==> phase.Some? && Missed(os, k, phase.value, scan, until))
          && (pid != anchor && !after.members[k].pending ==> verdict.1))
  }

  /** It owes that to every process that lives in the session and is in the census it read, to the
      anchor, and to whatever was held before, wherever it lives now; and one that left the session is
      a reason for doubt. */
  ghost predicate AllFound(os: Os, before: Members, after: View, scan: nat, until: nat, anchor: int, delegated: bool, exited: bool,
                           phase: Option<int>, verdict: (bool, bool))
  {
    && os.census(scan + 2).Some?
    && forall pid :: Lives(os, pid, scan, until) && !(exited && pid == anchor) ==>
         && (Listed(os, before, anchor, scan, pid) ==> Found(os, before, after, scan, until, anchor, phase, verdict, pid))
         && (Escaped(os, before, anchor, delegated, scan, pid) ==> after.fault.Some?)
  }

  ghost predicate Listed(os: Os, held: Members, anchor: int, scan: nat, pid: int) {
    || (os.census(scan + 2).Some? && pid in os.census(scan + 2).value && Seat(os, pid, scan) == anchor)
    || pid == anchor || Held(os, held, scan, pid)
  }

  /** A retained lifetime whose process is absent throughout, from the census too, is gone. */
  ghost predicate AllLeft(os: Os, before: Members, after: Members, scan: nat, until: nat, anchor: int, exited: bool) {
    os.census(scan + 2).Some? ==>
      forall k :: k in before && !(exited && k.pid == anchor) && Absent(os, k.pid, scan, until) && k.pid !in os.census(scan + 2).value ==>
        k in after && after[k].gone
  }

  lemma AttendedIsFound(os: Os, before: View, earlier: nat, after: View, latest: nat, scan: nat, until: nat, anchor: int, delegated: bool,
                        exited: bool, phase: Option<int>, census: seq<int>, verdict: (bool, bool))
    requires Sound(os, before.members, before.log, earlier) && earlier <= scan
    requires Sound(os, after.members, after.log, latest) && latest <= until && Follows(before, after, scan, phase)
    requires os.census(scan + 2) == Some(census)
    requires AllAttended(os, before.members, after, anchor, delegated, scan, until, exited, phase, census + [anchor])
    requires forall k :: k in after.members && !(exited && k.pid == anchor) ==> Served(after.members, after.log, scan, k, phase)
    requires verdict.0 <==> exited && forall k :: k in after.members ==> after.members[k].gone || k.pid == anchor
    requires verdict.1 <==> exists k :: k in after.members && !after.members[k].gone && k.pid != anchor
                                        && after.members[k].facts.status != ZOMBIE && !after.members[k].pending
    ensures AllFound(os, before.members, after, scan, until, anchor, delegated, exited, phase, verdict)
  {
    hide Sound, Owned, Follows, Lives, Served, Missed, WasAbsent;
    forall pid | Lives(os, pid, scan, until) && !(exited && pid == anchor) && Listed(os, before.members, anchor, scan, pid)
      ensures Found(os, before.members, after, scan, until, anchor, phase, verdict, pid)
    {
      var k := Lifetime(os, pid, scan);
      assert Attended(os, after.members, scan, until, k, phase);
      if after.members[k].gone {
        LivingIsNotGone(os, before, after, latest, scan, k, phase, until);
        GoneWasAbsent(os, before.members, before.log, earlier, k);
        AbsentLater(os, pid, earlier, scan);
      }
    }
  }

  lemma AbsentLater(os: Os, pid: int, until: nat, later: nat)
    requires WasAbsent(os, pid, until) && until <= later
    ensures WasAbsent(os, pid, later)
  {
  }

  /** Go on with these facts, leave the candidate for now, or give up the scan. */
  datatype Step = Proceed(facts: Facts) | Leave | Abort

  class ProcessScope {
    const world: World
    const anchor: int
    const delegated: bool
    var members: Members
    var fault: Option<string>
    ghost var log: Log
    /** The scan under way or last made, by the number of questions asked before it. */
    ghost var scan: nat
    /** The last question of a recorded certification or signal. */
    ghost var latest: nat

    ghost function Seen(): View
      reads this
    {
      View(members, fault, log)
    }

    ghost predicate Valid()
      reads this
    {
      Sound(world.os, members, log, latest) && Owned(world.os, anchor, members, log)
    }

    /** The record is not ahead of the questions. */
    ghost predicate Current()
      reads this, world
    {
      scan <= world.tick && latest <= world.tick
    }

    /** The system is quiet around the anchor, and the deadline is ahead. */
    ghost predicate Calm(end: nat)
      reads this, world
    {
      Quiet(world.os, anchor) && AtHome(world.os, anchor, members) && world.time < end
    }

    /** The anchor kept its generation so far in this scan. */
    ghost predicate Steady()
      reads this, world
    {
      Stable(world.os, anchor, scan, world.tick)
    }

    /** The facts are of a process that has been alive throughout the scan so far. */
    ghost predicate Lively(f: Facts)
      reads this, world
    {
      && f.status != ZOMBIE && f.session == Seat(world.os, f.pid, scan) && KeyOf(f) == Lifetime(world.os, f.pid, scan)
      && Lives(world.os, f.pid, scan, world.tick)
    }

    lemma LivelyAt(f: Facts, t: nat)
      ensures Lively(f) && scan < t <= world.tick ==>
                world.os.bsd(t, f.pid).Ok? && world.os.bsd(t, f.pid).value.0 != ZOMBIE && world.os.bsd(t, f.pid).value.1 == f.start
    {
      hide Lives;
      LivesAt(world.os, f.pid, scan, world.tick, t);
    }

    constructor (world: World, anchor: int, delegated: bool)
      ensures Valid() && this.world == world && this.anchor == anchor && this.delegated == delegated
      ensures Seen() == View(map[], None, []) && scan == 0 && latest == 0
    {
      this.world, this.anchor, this.delegated := world, anchor, delegated;
      members, fault, log, scan, latest := map[], None, [], 0, 0;
    }

    /** The first reason for doubt is kept. */
    method Uncertain(error: string)
      modifies this`fault
      ensures fault.Some? && (old(fault).Some? ==> fault == old(fault))
    {
      if fault.None? {
        fault := Some(error);
      }
    }

    method Touch(k: Key, n: Member, ghost phase: Option<int>)
      requires Valid() && k in members && Touches(members[k], n)
      modifies this`members
      ensures Valid() && members == old(members)[k := n]
      ensures Follows(old(Seen()), Seen(), scan, phase)
    {
      hide Sound, Owned, Follows;
      TouchKeepsSound(world.os, members, log, latest, k, n);
      TouchFollows(Seen(), k, n, scan, phase);
      OwnedIsOurs(world.os, anchor, members, log, k);
      OwnedGrows(world.os, anchor, members, log, k, n, []);
      assert log + [] == log;
      members := members[k := n];
    }

    static lemma TouchFollows(a: View, k: Key, n: Member, scan: nat, phase: Option<int>)
      requires k in a.members && a.members[k].gone == n.gone
      ensures Follows(a, a.(members := a.members[k := n]), scan, phase)
    {
    }

    /** Mark a lifetime gone, on the strength of a failed lookup and a census without it. */
    method Depart(k: Key, ghost lookup: nat, ghost listing: nat, ghost phase: Option<int>)
      requires Valid() && Current() && k in members && scan < lookup <= world.tick && scan < listing
      requires world.os.bsd(lookup, k.pid) == Err(ESRCH) && world.os.census(listing).Some? && k.pid !in world.os.census(listing).value
      modifies this`members, this`log, this`latest
      ensures Current()
      ensures Valid() && Follows(old(Seen()), Seen(), scan, phase) && members == old(members)[k := old(members)[k].(gone := true)]
    {
      ghost var e := Departed(scan, k, lookup, listing);
      hide Sound, Owned, Follows;
      DepartureKeepsSound(world.os, members, log, latest, e, world.tick);
      DepartureFollows(Seen(), e, phase);
      OwnedIsOurs(world.os, anchor, members, log, k);
      OwnedGrows(world.os, anchor, members, log, k, members[k].(gone := true), [e]);
      log := log + [e];
      latest := world.tick;
      members := members[k := members[k].(gone := true)];
    }

    static lemma DepartureFollows(a: View, e: Event, phase: Option<int>)
      requires e.Departed? && e.key in a.members
      ensures Follows(a, a.(members := a.members[e.key := a.members[e.key].(gone := true)], log := a.log + [e]), e.scan, phase)
    {
      assert (a.log + [e])[|a.log|..][0] == e;
    }

    /** Record an event that changes no member but possibly one, and bring the record up to date. */
    static lemma EventFollows(a: View, e: Event, k: Key, n: Member, scan: nat, phase: Option<int>)
      requires e.scan == scan && !e.Departed? && (e.Signalled? ==> phase == Some(e.value))
      requires k in a.members && a.members[k].gone == n.gone
      ensures Follows(a, a.(log := a.log + [e]), scan, phase)
      ensures Follows(a, a.(members := a.members[k := n], log := a.log + [e]), scan, phase)
    {
    }

    static lemma CertificationFollows(a: View, e: Event, scan: nat, phase: Option<int>)
      requires e.Certified? && e.scan == scan
      ensures Follows(a, a.(log := a.log + [e]), scan, phase)
    {
    }

    // -------------------------------------------------- retained members

    /** Look one retained lifetime up again. */
    method Recheck(key: Key, census: seq<int>, ghost listing: nat, end: nat, ghost phase: Option<int>) returns (ok: bool)
      requires Valid() && Current() && key in members && !members[key].gone
      requires scan < listing <= world.tick && world.os.census(listing) == Some(census)
      modifies this`members, this`log, this`latest, world
      ensures Valid() && Follows(old(Seen()), Seen(), scan, phase) && members.Keys == old(members).Keys
      ensures old(Calm(end)) ==> ok && Calm(end)
      ensures ok && Lives(world.os, key.pid, scan, world.tick) ==>
                key == Lifetime(world.os, key.pid, scan) && !members[key].gone && !members[key].pending
      ensures OnlyKey(old(members), members, key)
      ensures Absent(world.os, key.pid, scan, world.tick) && key.pid !in census ==> ok && members[key].gone
      ensures world.time >= old(world.time) && old(world.tick) <= world.tick <= old(world.tick) + 3 && Current()
    {
      hide Sound, Owned, Follows, Quiet, Lives;
      KeyedBy(key);
      var known := members[key].facts;
      Touch(key, members[key].(pending := false), phase);
      ghost var reset := Seen();
      ok := LookAgain(key, known, census, listing, end, phase);
      FollowsThrough(old(Seen()), reset, Seen(), scan, phase);
    }

    /** The lookup itself: the same identity, a departure, or a change that is still under way. */
    method LookAgain(key: Key, known: Facts, census: seq<int>, ghost listing: nat, end: nat, ghost phase: Option<int>)
      returns (ok: bool)
      requires Valid() && Current() && key in members && !members[key].gone && !members[key].pending
      requires known == members[key].facts && KeyOf(known) == key
      requires scan < listing <= world.tick && world.os.census(listing) == Some(census)
      modifies this`members, this`log, this`latest, world
      ensures Valid() && Follows(old(Seen()), Seen(), scan, phase) && members.Keys == old(members).Keys
      ensures old(Calm(end)) ==> ok && members == old(members) && world.time == old(world.time)
      ensures ok && Lives(world.os, key.pid, scan, world.tick) ==> key == Lifetime(world.os, key.pid, scan) && members == old(members)
      ensures OnlyKey(old(members), members, key)
      ensures Absent(world.os, key.pid, scan, world.tick) && key.pid !in census ==> ok && members[key].gone
      ensures world.time >= old(world.time) && old(world.tick) <= world.tick <= old(world.tick) + 3 && Current()
    {
      hide Sound, Owned, Follows, Quiet, Lives;
      FollowsItself(Seen(), scan, phase);
      QuietLooks(world.os, anchor, world.tick + 1);
      ok := true;
      var now := world.Bsd(key.pid);
      ghost var asked := world.tick;
      if now.Ok? {
        ok := SameIdentity(known, now.value);
      } else if now.error == ESRCH {
        if key.pid !in census {
          Depart(key, world.tick, listing, phase);
        } else {
          Touch(key, members[key].(pending := true), phase);
        }
      } else {
        ghost var lookup, fresher;
        ok, lookup, fresher := world.OldIdentityGone(known, end);
        if ok {
          Depart(key, lookup, fresher, phase);
        }
      }
      LivesAt(world.os, key.pid, scan, world.tick, asked);
    }

    static lemma QuietLooks(os: Os, pid: int, t: nat)
      ensures Quiet(os, pid) ==> os.bsd(t, pid).Ok? && os.bsd(t, pid).value.1 == Home(os, pid).start && Home(os, pid).pid == pid
      ensures Quiet(os, pid) ==> os.lapse(t) == 0 && os.census(t) == Some([pid]) && !os.rightFailed(t)
      ensures Quiet(os, pid) ==> Home(os, pid).status != ZOMBIE && Home(os, pid).session == pid
    {
    }

    /** One retained lifetime of the review: one already gone, or the exited anchor's, is passed over. */
    method RecheckOne(key: Key, census: seq<int>, ghost listing: nat, end: nat, exited: bool, ghost phase: Option<int>) returns (ok: bool)
      requires Valid() && Current() && key in members
      requires scan < listing <= world.tick && world.os.census(listing) == Some(census)
      modifies this`members, this`log, this`latest, world
      ensures Valid() && Follows(old(Seen()), Seen(), scan, phase) && members.Keys == old(members).Keys && OnlyKey(old(members), members, key)
      ensures old(Calm(end)) ==> ok && Calm(end)
      ensures ok && !members[key].gone && !(exited && key.pid == anchor) && Lives(world.os, key.pid, scan, world.tick) ==>
                key == Lifetime(world.os, key.pid, scan) && !members[key].pending
      ensures ok && !(exited && key.pid == anchor) && Absent(world.os, key.pid, scan, world.tick) && key.pid !in census ==> members[key].gone
      ensures world.time >= old(world.time) && old(world.tick) <= world.tick <= old(world.tick) + 4 && Current()
    {
      hide Sound, Owned, Follows, Quiet, AtHome, Lives, Absent;
      FollowsItself(Seen(), scan, phase);
      QuietLooks(world.os, anchor, world.tick + 1);
      var now := world.Now();
      if now >= end {
        return false;
      }
      if members[key].gone || (exited && key.pid == anchor) {
        return true;
      }
      ok := Recheck(key, census, listing, end, phase);
    }

    method RecheckAll(census: seq<int>, ghost listing: nat, end: nat, exited: bool, ghost phase: Option<int>) returns (ok: bool)
      requires Valid() && Current() && scan < listing <= world.tick && world.os.census(listing) == Some(census)
      modifies this`members, this`log, this`latest, world
      ensures Valid() && Follows(old(Seen()), Seen(), scan, phase) && members.Keys == old(members).Keys
      ensures old(Calm(end)) ==> ok && Calm(end)
      ensures ok ==> forall pid :: Lives(world.os, pid, scan, world.tick) && !(exited && pid == anchor) ==>
                       Ready(world.os, members, scan, pid)
      ensures ok ==> Cleared(world.os, members, anchor, scan, world.tick, {}, exited, census)
      ensures world.time >= old(world.time) && old(world.tick) <= world.tick <= old(world.tick) + 4 * |old(members)| && Current()
    {
      hide Sound, Owned, Follows, Quiet, AtHome, Lives, Reviewed, OnlyKey, Ready, Cleared, Absent;
      FollowsItself(Seen(), scan, phase);
      var todo := members.Keys;
      NothingReviewed(world.os, members, anchor, scan, world.tick, exited, census);
      while todo != {}
        invariant Valid() && Follows(old(Seen()), Seen(), scan, phase)
        invariant members.Keys == old(members).Keys && todo <= members.Keys && |members.Keys| == |members|
        invariant world.time >= old(world.time) && Current()
        invariant old(world.tick) <= world.tick <= old(world.tick) + 4 * (|members| - |todo|)
        invariant old(Calm(end)) ==> Calm(end)
        invariant Reviewed(world.os, members, anchor, scan, world.tick, todo, exited)
        invariant Cleared(world.os, members, anchor, scan, world.tick, todo, exited, census)
        decreases |todo|
      {
        var key :| key in todo;
        ghost var before, asked := Seen(), world.tick;
        ok := RecheckOne(key, census, listing, end, exited, phase);
        FollowsThrough(old(Seen()), before, Seen(), scan, phase);
        if !ok {
          return;
        }
        ReviewedStep(world.os, before.members, members, anchor, scan, asked, world.tick, todo, exited, key);
        ClearedStep(world.os, before.members, members, anchor, scan, asked, world.tick, todo, exited, census, key);
        todo := todo - {key};
      }
      ReviewedIsReady(world.os, members, anchor, scan, world.tick, exited);
      ok := true;
    }

    // --------------------------------------------------------- candidates

    predicate Holds(pid: int)
      reads this
    {
      exists k :: k in members && !members[k].gone && members[k].facts.pid == pid
    }

    /** The facts of a candidate, or what to do without them. */
    method Observe(pid: int, end: nat, known: bool, ghost phase: Option<int>) returns (step: Step)
      requires Valid() && Current() && known == Holds(pid)
      modifies this`members, this`log, this`latest, world
      ensures Valid() && Follows(old(Seen()), Seen(), scan, phase)
      ensures step.Proceed? ==> step.facts.pid == pid && members == old(members)
      ensures step.Proceed? && step.facts.session == anchor ==> Ours(world.os, anchor, KeyOf(step.facts))
      ensures OnlyPid(old(members), members, pid) && (step.Leave? ==> AllServed(members, log, scan, pid, phase))
      ensures Quiet(world.os, pid) ==> step == Proceed(Home(world.os, pid)) && world.time == old(world.time)
      ensures Lives(world.os, pid, scan, world.tick) ==> step.Proceed? && Lively(step.facts)
      ensures world.time >= old(world.time) && old(world.tick) <= world.tick <= old(world.tick) + 5 && Current()
    {
      hide Sound, Owned, Follows, Quiet, Delivered, CertifiedIn, Lives;
      FollowsItself(Seen(), scan, phase);
      var f := world.FactsOf(pid);
      ghost var asked, looked := old(world.tick), world.tick;
      LivesAt(world.os, pid, scan, world.tick, asked + 1);
      LivesAt(world.os, pid, scan, world.tick, asked + 2);
      if f.Ok? {
        assert f.value.session == SessionRead(world.os, asked + 1 + 1, pid);
        return Proceed(f.value);
      }
      if f.error != ESRCH {
        return Abort;
      }
      if !known {
        NobodyHolds(pid);
        return Leave;
      }
      step := Vanished(pid, end, phase);
      LivesEarlier(world.os, pid, scan, looked, world.tick);
    }

    /** The recorded process of a lookup that found none: still there after all, gone, or going. */
    method Vanished(pid: int, end: nat, ghost phase: Option<int>) returns (step: Step)
      requires Valid() && Current() && Holds(pid)
      modifies this`members, this`log, this`latest, world
      ensures Valid() && Follows(old(Seen()), Seen(), scan, phase) && !step.Proceed?
      ensures OnlyPid(old(members), members, pid) && (step.Leave? ==> AllServed(members, log, scan, pid, phase))
      ensures world.time >= old(world.time) && old(world.tick) <= world.tick <= old(world.tick) + 3 && Current()
    {
      hide Sound, Owned, Follows, Delivered, CertifiedIn;
      FollowsItself(Seen(), scan, phase);
      var k :| k in members && !members[k].gone && members[k].facts.pid == pid;
      KeyedBy(k);
      Alone(k);
      var again := world.Bsd(pid);
      if again.Ok? && SameIdentity(members[k].facts, again.value) {
        Touch(k, members[k].(pending := true), phase);
        return Leave;
      }
      var gone, lookup, listing := world.OldIdentityGone(members[k].facts, end);
      if gone {
        Depart(k, lookup, listing, phase);
        return Leave;
      }
      if again.Err? && again.error == ESRCH {
        Touch(k, members[k].(pending := true), phase);
        return Leave;
      }
      step := Abort;
    }

    /** Certify a lifetime and record it; a retained member takes the token when it is given. */
    method Certify(f: Facts, end: nat, ghost phase: Option<int>) returns (r: Certification)
      requires Valid() && Current()
      requires KeyOf(f) !in members
      modifies this`log, this`latest, world
      ensures Valid() && Follows(old(Seen()), Seen(), scan, phase)
      ensures r.Granted? ==> KeyOf(r.token.identity) == KeyOf(f) && r.token.identity.session == f.session
      ensures old(Calm(end)) && Steady() && f == Home(world.os, anchor) ==> r.Granted? && world.time == old(world.time)
      ensures r.Changing? ==> !Stable(world.os, f.pid, old(world.tick), world.tick)
      ensures world.time >= old(world.time) && old(world.tick) <= world.tick <= old(world.tick) + 14 && Current()
    {
      hide Sound, Owned, Follows, Quiet;
      FollowsItself(Seen(), scan, phase);
      ghost var first, between, second;
      r, first, between, second := world.Certify(f, end);
      if r.Granted? {
        ghost var e := Certified(scan, KeyOf(f), r.token.generation, first, between, second);
        CertificationKeepsSound(world.os, members, log, latest, r.token, e, second);
        CertificationFollows(Seen(), e, scan, phase);
        OwnedCertifies(world.os, anchor, members, log, e);
        log := log + [e];
        latest := second;
      }
    }

    /** Qualify a lifetime for ownership before retaining it. */
    method Qualify(f: Facts, end: nat, ghost phase: Option<int>) returns (step: Step, pending: bool, token: Option<Token>)
      requires Valid() && Current() && KeyOf(f) !in members
      modifies this`log, this`latest, world
      ensures Valid() && Follows(old(Seen()), Seen(), scan, phase)
      ensures step.Proceed? ==> SameIdentity(f, step.facts) && (token.Some? ==> KeyOf(token.value.identity) == KeyOf(f))
      ensures old(Calm(end)) && Steady() && f == Home(world.os, anchor) ==>
                step == Proceed(f) && !pending && token.Some? && world.time == old(world.time)
      ensures Lively(f) ==> step.Abort? || (step == Proceed(f) && !pending)
      ensures world.time >= old(world.time) && old(world.tick) <= world.tick <= old(world.tick) + 17 && Current()
    {
      hide Sound, Owned, Follows, Quiet, Lives;
      FollowsItself(Seen(), scan, phase);
      QuietLooks(world.os, anchor, 0);
      pending, token := false, None;
      if f.status == ZOMBIE {
        return Proceed(f), false, None;
      }
      var certified := Certify(f, end, phase);
      if certified.Granted? {
        if certified.token.identity.session != anchor {
          return Abort, false, None;
        }
        return Proceed(f), false, Some(certified.token);
      }
      LivesStable(world.os, f.pid, scan, world.tick, old(world.tick), world.tick);
      if certified.Changing? {
        return Proceed(f), true, None;
      }
      var now := world.Bsd(f.pid);
      ghost var asked := world.tick;
      LivelyAt(f, asked);
      if now.Ok? && SameIdentity(f, now.value) && now.value.status == ZOMBIE {
        return Proceed(now.value), false, None;
      }
      var gone, lookup, listing := world.OldIdentityGone(f, end);
      LivelyAt(f, asked);
      LivelyAt(f, lookup);
      if gone {
        return Leave, false, None;
      }
      if now.Err? && now.error == ESRCH {
        return Proceed(f), true, None;
      }
      step := Abort;
    }

    /** Retain a lifetime seen for the first time, if it is owned. */
    method Admit(f: Facts, end: nat, ghost phase: Option<int>) returns (step: Step)
      requires Valid() && Current() && KeyOf(f) !in members
      requires forall j :: j in members && !members[j].gone ==> j.pid != f.pid
      requires f.session == anchor ==> Ours(world.os, anchor, KeyOf(f))
      modifies this`members, this`log, this`latest, world
      ensures Valid() && Follows(old(Seen()), Seen(), scan, phase)
      ensures step.Proceed? ==> SameIdentity(f, step.facts) && KeyOf(f) in members
      ensures OnlyKey(old(members), members, KeyOf(f)) && (!step.Proceed? ==> members == old(members))
      ensures old(Calm(end)) && Steady() && f == Home(world.os, anchor) ==> step == Proceed(f) && Calm(end)
      ensures f.session != anchor && f.pid != anchor ==> step.Leave?
      ensures Lively(f) && (f.session == anchor || f.pid == anchor) ==> step.Abort? || (step == Proceed(f) && !members[KeyOf(f)].pending)
      ensures world.time >= old(world.time) && old(world.tick) <= world.tick <= old(world.tick) + 17 && Current()
    {
      hide Sound, Owned, Ours, Follows, Quiet, Lives;
      FollowsItself(Seen(), scan, phase);
      QuietLooks(world.os, anchor, 0);
      HomeIsSmall(world.os, anchor, members, f);
      if f.pid != anchor && f.session != anchor {
        return Leave;
      }
      if |members| >= MEMBER_LIMIT {
        return Abort;
      }
      var pending, token;
      step, pending, token := Qualify(f, end, phase);
      if !step.Proceed? {
        return;
      }
      ghost var qualified := Seen();
      AnchorIsOurs(world.os, anchor, KeyOf(f));
      Retain(Member(pending, step.facts, token, false, 0, None), phase);
      FollowsThrough(old(Seen()), qualified, Seen(), scan, phase);
    }

    static lemma AnchorIsOurs(os: Os, anchor: int, k: Key)
      ensures k.pid == anchor ==> Ours(os, anchor, k)
    {
    }

    static lemma HomeIsSmall(os: Os, pid: int, members: Members, f: Facts)
      ensures Quiet(os, pid) && AtHome(os, pid, members) && f == Home(os, pid) && KeyOf(f) !in members ==> |members| == 0
    {
      hide Quiet;
      if Quiet(os, pid) && AtHome(os, pid, members) && f == Home(os, pid) && KeyOf(f) !in members {
        assert members == map[];
      }
    }

    method Retain(n: Member, ghost phase: Option<int>)
      requires Valid() && |members| < MEMBER_LIMIT && KeyOf(n.facts) !in members && !n.gone && n.sent == 0
      requires Fits(KeyOf(n.facts), n) && Ours(world.os, anchor, KeyOf(n.facts))
      requires forall j :: j in members && !members[j].gone ==> j.pid != n.facts.pid
      modifies this`members
      ensures Valid() && Follows(old(Seen()), Seen(), scan, phase) && members == old(members)[KeyOf(n.facts) := n]
    {
      hide Sound, Owned, Follows;
      AdmissionKeepsSound(world.os, members, log, latest, n);
      AdmissionFollows(Seen(), n, scan, phase);
      OwnedGrows(world.os, anchor, members, log, KeyOf(n.facts), n, []);
      assert log + [] == log;
      members := members[KeyOf(n.facts) := n];
    }

    static lemma AdmissionFollows(a: View, n: Member, scan: nat, phase: Option<int>)
      requires KeyOf(n.facts) !in a.members && !n.gone
      ensures Follows(a, a.(members := a.members[KeyOf(n.facts) := n]), scan, phase)
    {
    }

    /** A lifetime that is not gone is the only one of its process that is not. */
    lemma Alone(k: Key)
      requires Valid() && k in members && !members[k].gone
      ensures forall j :: j in members && j.pid == k.pid && j != k ==> members[j].gone
    {
      hide Backed, Separated, Tracked, Attested, Departures, Keyed, Logged, Ordered, Timely;
    }

    lemma NobodyHolds(pid: int)
      requires Valid() && !Holds(pid)
      ensures forall j :: j in members && !members[j].gone ==> j.pid != pid
    {
      hide Backed, Separated, Tracked, Attested, Departures, Logged, Ordered, Timely;
      forall j | j in members && !members[j].gone ensures j.pid != pid {
        assert members[j].facts.pid == j.pid;
      }
    }

    /** Take the token just certified, unless its generation already missed a signal. */
    method Adopt(f: Facts, token: Token, ghost first: nat, ghost between: nat, ghost second: nat, ghost phase: Option<int>)
      returns (adopted: bool)
      requires Valid() && KeyOf(f) in members && KeyOf(token.identity) == KeyOf(f)
      requires latest < first && Genuine(world.os, Certified(scan, KeyOf(f), token.generation, first, between, second))
      modifies this`members, this`log, this`latest
      ensures Valid() && Follows(old(Seen()), Seen(), scan, phase) && latest == second
      ensures adopted == (old(members)[KeyOf(f)].esrchGeneration != Some(token.generation))
      ensures members == if adopted then old(members)[KeyOf(f) := WithToken(old(members)[KeyOf(f)], token)] else old(members)
      ensures Vouched(log, scan, KeyOf(f), token.generation)
    {
      hide Sound, Owned, Follows;
      var key := KeyOf(f);
      ghost var e := Certified(scan, key, token.generation, first, between, second);
      MissedIsOwn(key);
      CertificationKeepsSound(world.os, members, log, latest, token, e, second);
      EventFollows(Seen(), e, key, WithToken(members[key], token), scan, phase);
      OwnedIsOurs(world.os, anchor, members, log, key);
      OwnedGrows(world.os, anchor, members, log, key, WithToken(members[key], token), [e]);
      log := log + [e];
      latest := second;
      adopted := members[key].esrchGeneration != Some(token.generation);
      if adopted {
        members := members[key := WithToken(members[key], token)];
      }
    }

    lemma MissedIsOwn(k: Key)
      requires Valid() && k in members
      ensures members[k].esrchGeneration.Some? ==>
                members[k].token.Some? && members[k].token.value.generation == members[k].esrchGeneration.value
    {
      hide Backed, Separated, Tracked, OnePerPid, Attested, Departures, Logged, Ordered, Timely;
      MemberFits(members, k);
    }

    /** Take a renewed token, doubting the scope when its process left the session. */
    method Renew(f: Facts, token: Token, ghost first: nat, ghost between: nat, ghost second: nat, ghost phase: Option<int>)
      returns (adopted: bool)
      requires Valid() && KeyOf(f) in members && KeyOf(token.identity) == KeyOf(f)
      requires latest < first && Genuine(world.os, Certified(scan, KeyOf(f), token.generation, first, between, second))
      modifies this`members, this`log, this`latest, this`fault
      ensures Valid() && Follows(old(Seen()), Seen(), scan, phase) && latest == second
      ensures adopted == (old(members)[KeyOf(f)].esrchGeneration != Some(token.generation))
      ensures members == if adopted then old(members)[KeyOf(f) := WithToken(old(members)[KeyOf(f)], token)] else old(members)
      ensures Vouched(log, scan, KeyOf(f), token.generation)
      ensures token.identity.session != anchor && !delegated ==> fault.Some?
    {
      hide Sound, Owned, Follows, Vouched, Genuine, WithToken;
      if token.identity.session != anchor && !delegated {
        Uncertain("session escape");
      }
      ghost var doubted := Seen();
      DoubtFollows(old(Seen()), doubted, phase);
      adopted := Adopt(f, token, first, between, second, phase);
      FollowsThrough(old(Seen()), doubted, Seen(), scan, phase);
    }

    /** Certify a live retained lifetime when a token is needed. */
    method Recertify(f: Facts, end: nat, phase: Option<int>) returns (step: Step)
      requires Valid() && Current() && KeyOf(f) in members
      modifies this`members, this`log, this`latest, this`fault, world
      ensures Valid() && Follows(old(Seen()), Seen(), scan, phase)
      ensures step.Proceed? ==> step.facts == f && KeyOf(f) in members && members[KeyOf(f)].token.Some?
                                && Vouched(log, scan, KeyOf(f), members[KeyOf(f)].token.value.generation)
      ensures OnlyKey(old(members), members, KeyOf(f)) && KeyOf(f) in members
      ensures step.Leave? ==> Served(members, log, scan, KeyOf(f), phase)
      ensures old(Calm(end)) && Steady() && f == Home(world.os, anchor) ==> step.Proceed? && Calm(end)
      ensures Lively(f) ==> step.Abort? || (step.Proceed? && members[KeyOf(f)].pending == old(members)[KeyOf(f)].pending)
      ensures world.time >= old(world.time) && old(world.tick) <= world.tick <= old(world.tick) + 18 && Current()
    {
      hide Sound, Owned, Follows, Quiet, Delivered, CertifiedIn, Vouched, Lives;
      var key := KeyOf(f);
      FollowsItself(Seen(), scan, phase);
      var certified, first, between, second := world.Certify(f, end);
      LivesStable(world.os, f.pid, scan, world.tick, old(world.tick), world.tick);
      if certified.Changing? {
        Touch(key, members[key].(pending := true), phase);
        return Leave;
      }
      if certified.Granted? {
        var adopted := Renew(f, certified.token, first, between, second, phase);
        return if adopted then Proceed(f) else Abort;
      }
      step := Excused(f, end, phase);
    }

    /** Why a retained lifetime could not be certified: it is a zombie, gone or going. */
    method Excused(f: Facts, end: nat, ghost phase: Option<int>) returns (step: Step)
      requires Valid() && Current() && KeyOf(f) in members
      modifies this`members, this`log, this`latest, world
      ensures Valid() && Follows(old(Seen()), Seen(), scan, phase) && !step.Proceed?
      ensures OnlyKey(old(members), members, KeyOf(f)) && KeyOf(f) in members
      ensures step.Leave? ==> Served(members, log, scan, KeyOf(f), phase)
      ensures Lively(f) ==> step.Abort?
      ensures world.time >= old(world.time) && old(world.tick) <= world.tick <= old(world.tick) + 4 && Current()
    {
      hide Sound, Owned, Follows, Delivered, CertifiedIn, Lives;
      var key := KeyOf(f);
      FollowsItself(Seen(), scan, phase);
      var now := world.Bsd(f.pid);
      LivelyAt(f, world.tick);
      if now.Ok? && SameIdentity(f, now.value) && now.value.status == ZOMBIE {
        KeyedBy(key);
        Touch(key, members[key].(facts := now.value), phase);
        return Leave;
      }
      var gone, lookup, listing := world.OldIdentityGone(f, end);
      LivelyAt(f, lookup);
      if gone {
        Depart(key, lookup, listing, phase);
        return Leave;
      }
      now := world.Bsd(f.pid);
      LivelyAt(f, world.tick);
      if now.Err? && now.error == ESRCH {
        Touch(key, members[key].(pending := true), phase);
        return Leave;
      }
      step := Abort;
    }

    lemma KeyedBy(k: Key)
      requires Valid() && k in members
      ensures KeyOf(members[k].facts) == k && (members[k].token.Some? ==> KeyOf(members[k].token.value.identity) == k)
    {
      hide Backed, Separated, Tracked, OnePerPid, Attested, Departures, Logged, Ordered, Timely;
    }

    /** Put a signal on record, with what the member remembers of it. */
    method NoteSignal(key: Key, next: Member, ghost e: Event)
      requires Valid() && Current() && e.Signalled? && e.scan == scan && e.key == key && key in members && latest < e.sent == world.tick
      requires Genuine(world.os, e) && Vouched(log, e.scan, e.key, e.generation) && (e.value == TERMINATE || e.value == KILL)
      requires members[key].token.Some? && members[key].token.value.generation == e.generation && members[key].sent != e.value
      requires next.token == members[key].token && next.facts == members[key].facts && next.gone == members[key].gone
      requires next.esrchGeneration == members[key].esrchGeneration || next.esrchGeneration == Some(e.generation)
      requires next.sent == if e.ok then e.value else members[key].sent
      modifies this`members, this`log, this`latest
      ensures Valid() && Current() && Follows(old(Seen()), Seen(), scan, Some(e.value))
      ensures members == old(members)[key := next] && log == old(log) + [e]
    {
      hide Sound, Owned, Follows, Vouched, Genuine;
      SignalKeepsSound(world.os, members, log, latest, e, next, world.tick);
      EventFollows(Seen(), e, e.key, next, scan, Some(e.value));
      OwnedIsOurs(world.os, anchor, members, log, e.key);
      OwnedGrows(world.os, anchor, members, log, e.key, next, [e]);
      log := log + [e];
      latest := world.tick;
      members := members[key := next];
    }

    /** Send this phase's signal once, on the token certified just before. */
    method Send(key: Key, value: int, ghost end: nat) returns (ok: bool)
      requires Valid() && Current() && key in members && members[key].token.Some? && members[key].sent != value
      requires Vouched(log, scan, key, members[key].token.value.generation)
      modifies this`members, this`log, this`latest, world
      ensures Valid() && Follows(old(Seen()), Seen(), scan, Some(value))
      ensures OnlyKey(old(members), members, key) && key in members && (ok ==> Served(members, log, scan, key, Some(value)))
      ensures old(Calm(end)) && (value == TERMINATE || value == KILL) ==> ok && Calm(end)
      ensures members[key].facts == old(members)[key].facts
      ensures ok && members[key].pending ==> old(members)[key].pending || Missed(world.os, key, value, scan, world.tick)
      ensures world.time >= old(world.time) && old(world.tick) <= world.tick <= old(world.tick) + 1 && Current()
    {
      hide Sound, Owned, Follows, Quiet, Delivered, CertifiedIn, Vouched, Missed;
      FollowsItself(Seen(), scan, Some(value));
      if value != TERMINATE && value != KILL {
        return false;
      }
      KeyedBy(key);
      var member := members[key];
      var token := member.token.value;
      var errno := world.Signal(token, value);
      QuietSignals(world.os, anchor, world.tick, token, value);
      MissedNow(world.os, key, value, scan, world.tick, token);
      var done := member.(sent := value);
      var missed := member.(esrchGeneration := Some(token.generation), pending := true);
      var next := if errno == 0 then done else if errno == ESRCH then missed else member;
      ghost var e := Signalled(scan, key, token.generation, value, errno == 0, token, world.tick);
      NoteSignal(key, next, e);
      ok := errno == 0 || errno == ESRCH;
      if errno == 0 {
        VouchedIsCertified(old(log), scan, key, token.generation, [e]);
        MarkedIsServed(world.os, members, log, latest, scan, key, Some(value));
      }
    }

    static lemma HomeTouched(os: Os, pid: int, members: Members, f: Facts)
      ensures Quiet(os, pid) && AtHome(os, pid, members) && f == Home(os, pid) && KeyOf(f) in members ==>
                AtHome(os, pid, members[KeyOf(f) := members[KeyOf(f)].(facts := f)])
    {
      hide Quiet;
    }

    static lemma StableEarlier(os: Os, pid: int, since: nat, a: nat, b: nat)
      ensures a <= b && Stable(os, pid, since, b) ==> Stable(os, pid, since, a)
    {
    }

    static lemma QuietSignals(os: Os, pid: int, t: nat, token: Token, value: int)
      ensures Quiet(os, pid) ==> os.signal(t, token, value) == 0
    {
    }

    /** Everything a scan does with a lifetime it holds. */
    method Engage(f: Facts, end: nat, phase: Option<int>) returns (ok: bool)
      requires Valid() && Current() && KeyOf(f) in members
      modifies this`members, this`log, this`latest, this`fault, world
      ensures Valid() && Follows(old(Seen()), Seen(), scan, phase)
      ensures OnlyKey(old(members), members, KeyOf(f)) && KeyOf(f) in members && (ok ==> Served(members, log, scan, KeyOf(f), phase))
      ensures old(Calm(end)) && Steady() && f == Home(world.os, anchor) && Allowed(phase) ==> ok && Calm(end)
      ensures ok && Lively(f) && !old(members)[KeyOf(f)].pending ==> Attended(world.os, members, scan, world.tick, KeyOf(f), phase)
      ensures world.time >= old(world.time) && old(world.tick) <= world.tick <= old(world.tick) + 19 && Current()
    {
      hide Sound, Owned, Follows, Quiet, Served, Vouched, AtHome, Stable, Lives, Missed;
      var key := KeyOf(f);
      FollowsItself(Seen(), scan, phase);
      if members[key].token.None? || phase.Some? {
        var step := Recertify(f, end, phase);
        if !step.Proceed? {
          return step.Leave?;
        }
      }
      ghost var certified, asked := Seen(), world.tick;
      ok := Hail(f, end, phase);
      FollowsThrough(old(Seen()), certified, Seen(), scan, phase);
      StableEarlier(world.os, anchor, scan, asked, world.tick);
      LivesEarlier(world.os, f.pid, scan, asked, world.tick);
    }

    /** Note the facts of a lifetime that holds a token and, in a phase, signal it unless it was. */
    method Hail(f: Facts, end: nat, phase: Option<int>) returns (ok: bool)
      requires Valid() && Current() && KeyOf(f) in members && members[KeyOf(f)].token.Some?
      requires phase.Some? ==> Vouched(log, scan, KeyOf(f), members[KeyOf(f)].token.value.generation)
      modifies this`members, this`log, this`latest, world
      ensures Valid() && Follows(old(Seen()), Seen(), scan, phase)
      ensures OnlyKey(old(members), members, KeyOf(f)) && KeyOf(f) in members && (ok ==> Served(members, log, scan, KeyOf(f), phase))
      ensures old(Calm(end)) && f == Home(world.os, anchor) && Allowed(phase) ==> ok && Calm(end)
      ensures ok && f.status != ZOMBIE && !old(members)[KeyOf(f)].pending ==>
                Attended(world.os, members, scan, world.tick, KeyOf(f), phase)
      ensures world.time >= old(world.time) && old(world.tick) <= world.tick <= old(world.tick) + 1 && Current()
    {
      hide Sound, Owned, Follows, Quiet, Served, Vouched, AtHome, Missed;
      var key := KeyOf(f);
      KeyedBy(key);
      HomeTouched(world.os, anchor, members, f);
      Touch(key, members[key].(facts := f), phase);
      if phase.Some? && members[key].sent != phase.value {
        ghost var touched := Seen();
        ok := Send(key, phase.value, end);
        FollowsThrough(old(Seen()), touched, Seen(), scan, phase);
      } else {
        if phase.Some? {
          VouchedIsCertified(log, scan, key, members[key].token.value.generation, []);
          assert log + [] == log;
        }
        MarkedIsServed(world.os, members, log, latest, scan, key, phase);
        ok := true;
      }
    }

    /** Serve a retained lifetime that was just observed. */
    method Serve(f: Facts, end: nat, phase: Option<int>, exited: bool) returns (ok: bool)
      requires Valid() && Current() && KeyOf(f) in members
      modifies this`members, this`log, this`latest, this`fault, world
      ensures Valid() && Follows(old(Seen()), Seen(), scan, phase)
      ensures OnlyKey(old(members), members, KeyOf(f)) && KeyOf(f) in members
      ensures ok && !(exited && f.pid == anchor) ==> Served(members, log, scan, KeyOf(f), phase)
      ensures old(Calm(end)) && Steady() && f == Home(world.os, anchor) && Allowed(phase) && !exited ==> ok && Calm(end)
      ensures ok && Lively(f) && !(exited && f.pid == anchor) && !old(members)[KeyOf(f)].pending ==>
                Attended(world.os, members, scan, world.tick, KeyOf(f), phase)
      ensures f.status != ZOMBIE && f.session != anchor && !delegated && !old(members)[KeyOf(f)].pending ==> fault.Some?
      ensures world.time >= old(world.time) && old(world.tick) <= world.tick <= old(world.tick) + 19 && Current()
    {
      hide Sound, Owned, Follows, Quiet, Delivered, CertifiedIn, Lives, Missed;
      var key := KeyOf(f);
      FollowsItself(Seen(), scan, phase);
      QuietLooks(world.os, anchor, 0);
      if members[key].pending {
        return true;
      }
      if f.status != ZOMBIE && f.session != anchor && !delegated {
        Uncertain("session escape");
      }
      ghost var doubted := Seen();
      DoubtFollows(old(Seen()), doubted, phase);
      if f.status == ZOMBIE || (f.pid == anchor && exited) {
        KeyedBy(key);
        Touch(key, members[key].(facts := f), phase);
        ok := true;
      } else {
        ok := Engage(f, end, phase);
      }
      FollowsThrough(old(Seen()), doubted, Seen(), scan, phase);
      FaultStays(doubted, Seen(), scan, phase);
    }

    /** Handle an observed candidate: retain it if it is new and owned, then serve it. */
    method Handle(seen: Facts, end: nat, phase: Option<int>, exited: bool) returns (ok: bool)
      requires Valid() && Current() && (seen.session == anchor ==> Ours(world.os, anchor, KeyOf(seen)))
      modifies this`members, this`log, this`latest, this`fault, world
      ensures Valid() && Follows(old(Seen()), Seen(), scan, phase)
      ensures OnlyKey(old(members), members, KeyOf(seen))
      ensures ok && !(exited && seen.pid == anchor) ==> AllServed(members, log, scan, seen.pid, phase)
      ensures old(Calm(end)) && Steady() && seen == Home(world.os, anchor) && Allowed(phase) && !exited ==>
                ok && Calm(end) && KeyOf(seen) in members
      ensures ok && Lively(seen) && !(exited && seen.pid == anchor) && KeyOf(seen) in old(members) && seen.session != anchor && !delegated ==>
                fault.Some? || old(members)[KeyOf(seen)].pending
      ensures seen.session != anchor && seen.pid != anchor && KeyOf(seen) !in old(members) ==> members == old(members)
      ensures ok && Lively(seen) && !(exited && seen.pid == anchor)
              && (seen.session == anchor || seen.pid == anchor || KeyOf(seen) in old(members))
              && (KeyOf(seen) in old(members) && old(members)[KeyOf(seen)].pending ==> old(members)[KeyOf(seen)].gone) ==>
                Attended(world.os, members, scan, world.tick, KeyOf(seen), phase)
      ensures world.time >= old(world.time) && old(world.tick) <= world.tick <= old(world.tick) + 36 && Current()
    {
      hide Sound, Owned, Ours, Follows, Served, AllServed, Displaced, Quiet, AtHome, Stable, Lives, Missed;
      FollowsItself(Seen(), scan, phase);
      HomeIsKnown(seen);
      var f := seen;
      if Displaced(f) {
        return false;
      }
      OthersGone(f);
      if KeyOf(f) !in members {
        NotHeldElsewhere(f);
        var step := Admit(f, end, phase);
        if !step.Proceed? {
          ServedAlone(members, log, scan, KeyOf(f), phase);
          return step.Leave?;
        }
        f := step.facts;
      }
      ghost var admitted, asked := Seen(), world.tick;
      ok := Serve(f, end, phase, exited);
      FollowsThrough(old(Seen()), admitted, Seen(), scan, phase);
      StableEarlier(world.os, anchor, scan, asked, world.tick);
      LivesEarlier(world.os, f.pid, scan, asked, world.tick);
      GoneStays(admitted, Seen(), scan, phase);
      ServedAlone(members, log, scan, KeyOf(f), phase);
    }

    static lemma ServedAlone(members: Members, log: Log, scan: nat, k: Key, phase: Option<int>)
      requires forall j :: j in members && j.pid == k.pid && j != k ==> members[j].gone
      ensures (k in members ==> Served(members, log, scan, k, phase)) ==> AllServed(members, log, scan, k.pid, phase)
    {
      hide Served;
      GoneAreServed(members, log, scan, phase);
    }

    static lemma FaultStays(a: View, b: View, scan: nat, phase: Option<int>)
      requires Follows(a, b, scan, phase)
      ensures a.fault.Some? ==> b.fault == a.fault
    {
    }

    static lemma RetainedStay(a: View, b: View, scan: nat, phase: Option<int>)
      requires Follows(a, b, scan, phase)
      ensures a.members.Keys <= b.members.Keys
    {
    }

    static lemma GoneStays(a: View, b: View, scan: nat, phase: Option<int>)
      requires Follows(a, b, scan, phase)
      ensures forall k :: k in a.members && a.members[k].gone ==> k in b.members && b.members[k].gone
    {
    }

    /** A lifetime that is not gone has the process identifier of another one seen now. */
    predicate Displaced(f: Facts)
      reads this
    {
      exists k :: k in members && !members[k].gone && members[k].facts.pid == f.pid && !SameIdentity(members[k].facts, f)
    }

    lemma HomeIsKnown(f: Facts)
      ensures Quiet(world.os, anchor) && AtHome(world.os, anchor, members) && f == Home(world.os, anchor) ==> !Displaced(f)
    {
      hide Quiet;
    }

    lemma DoubtFollows(a: View, b: View, phase: Option<int>)
      requires a.members == b.members && a.log == b.log && (a.fault.Some? ==> b.fault == a.fault)
      ensures Follows(a, b, scan, phase)
    {
    }

    lemma OthersGone(f: Facts)
      requires Valid()
      requires !Displaced(f)
      ensures forall j :: j in members && j.pid == f.pid && j != KeyOf(f) ==> members[j].gone
    {
      hide Backed, Separated, Tracked, OnePerPid, Attested, Departures, Logged, Ordered, Timely;
      forall j | j in members && j.pid == f.pid && j != KeyOf(f) ensures members[j].gone {
        assert KeyOf(members[j].facts) == j;
      }
    }

    /** A new lifetime of a process identifier nobody holds. */
    lemma NotHeldElsewhere(f: Facts)
      requires Valid() && KeyOf(f) !in members
      requires !Displaced(f)
      ensures forall j :: j in members && !members[j].gone ==> j.pid != f.pid
    {
      hide Backed, Separated, Tracked, OnePerPid, Attested, Departures, Logged, Ordered, Timely;
      forall j | j in members && !members[j].gone ensures j.pid != f.pid {
        assert KeyOf(members[j].facts) == j;
      }
    }

    /** One candidate of a scan. */
    method Inspect(pid: int, end: nat, phase: Option<int>, exited: bool) returns (ok: bool)
      requires Valid() && Current()
      modifies this`members, this`log, this`latest, this`fault, world
      ensures Valid() && Follows(old(Seen()), Seen(), scan, phase)
      ensures OnlyPid(old(members), members, pid)
      ensures ok && !(exited && pid == anchor) ==> AllServed(members, log, scan, pid, phase)
      ensures old(Calm(end)) && Steady() && pid == anchor && Allowed(phase) && !exited ==> ok && Calm(end) && Retained()
      ensures ok && Lives(world.os, pid, scan, world.tick) && !(exited && pid == anchor)
              && old(Met(world.os, members, scan, world.tick, pid, phase)) ==>
                && Met(world.os, members, scan, world.tick, pid, phase)
                && (Due(world.os, old(members), anchor, scan, pid) ==>
                      Attended(world.os, members, scan, world.tick, Lifetime(world.os, pid, scan), phase))
                && (Escaped(world.os, old(members), anchor, delegated, scan, pid) && old(Ready(world.os, members, scan, pid)) ==>
                      fault.Some?)
      ensures world.time >= old(world.time) && old(world.tick) <= world.tick <= old(world.tick) + 43 && Current()
    {
      hide Sound, Owned, Follows, Quiet, Stable, Lives, Served, AllServed, Met, Attended;
      FollowsItself(Seen(), scan, phase);
      if exited && pid == anchor {
        return true;
      }
      if exists k :: k in members && !members[k].gone && members[k].pending && members[k].facts.pid == pid {
        ghost var k :| k in members && !members[k].gone && members[k].pending && members[k].facts.pid == pid;
        WaitingIsServed(k, phase);
        return true;
      }
      QuietLooks(world.os, anchor, world.tick + 1);
      var now := world.Now();
      if now >= end {
        return false;
      }
      var known := Holds(pid);
      if !known && pid != anchor {
        var sid := world.Session(pid);
        NobodyToServe(pid, phase);
        LivesAt(world.os, pid, scan, world.tick, world.tick);
        MetLater(world.os, members, members, scan, old(world.tick), world.tick, pid, phase);
        match sid {
          case Ok(value) =>
            if value != anchor {
              return true;
            }
          case Err(errno) =>
            return errno == ESRCH;
        }
      }
      NothingPending(pid);
      MetLater(world.os, members, members, scan, old(world.tick), world.tick, pid, phase);
      ok := Look(pid, known, end, phase, exited);
    }

    /** A lifetime left for later is served as such, and is the one met. */
    lemma WaitingIsServed(k: Key, phase: Option<int>)
      requires Valid() && k in members && !members[k].gone && members[k].pending
      ensures members[k].facts.pid == k.pid && AllServed(members, log, scan, k.pid, phase)
      ensures Met(world.os, members, scan, world.tick, k.pid, phase) ==>
                Attended(world.os, members, scan, world.tick, Lifetime(world.os, k.pid, scan), phase)
    {
      hide Sound, Owned, Delivered, CertifiedIn, Missed;
      KeyedBy(k);
      Alone(k);
    }

    lemma NobodyToServe(pid: int, phase: Option<int>)
      requires Valid() && !Holds(pid)
      ensures AllServed(members, log, scan, pid, phase) && !Held(world.os, members, scan, pid)
    {
      hide Sound, Owned, Delivered, CertifiedIn, Holds;
      NobodyHolds(pid);
    }

    /** A candidate without anything pending. */
    lemma NothingPending(pid: int)
      requires Valid() && forall k :: k in members && !members[k].gone && members[k].pending ==> members[k].facts.pid != pid
      ensures forall k :: k in members && k.pid == pid && members[k].pending ==> members[k].gone
    {
      hide Sound, Owned;
      forall k | k in members && k.pid == pid && members[k].pending ensures members[k].gone {
        KeyedBy(k);
      }
    }

    /** Observe a candidate that may be owned, and handle what was observed. */
    method Look(pid: int, known: bool, end: nat, phase: Option<int>, exited: bool) returns (ok: bool)
      requires Valid() && Current() && known == Holds(pid)
      requires forall k :: k in members && k.pid == pid && members[k].pending ==> members[k].gone
      modifies this`members, this`log, this`latest, this`fault, world
      ensures Valid() && Follows(old(Seen()), Seen(), scan, phase)
      ensures OnlyPid(old(members), members, pid)
      ensures ok && !(exited && pid == anchor) ==> AllServed(members, log, scan, pid, phase)
      ensures old(Calm(end)) && Steady() && pid == anchor && Allowed(phase) && !exited ==> ok && Calm(end) && Retained()
      ensures ok && Lives(world.os, pid, scan, world.tick) && !(exited && pid == anchor)
              && old(Met(world.os, members, scan, world.tick, pid, phase)) ==>
                && Met(world.os, members, scan, world.tick, pid, phase)
                && (Due(world.os, old(members), anchor, scan, pid) ==>
                      Attended(world.os, members, scan, world.tick, Lifetime(world.os, pid, scan), phase))
                && (Escaped(world.os, old(members), anchor, delegated, scan, pid) && old(Ready(world.os, members, scan, pid)) ==>
                      fault.Some?)
      ensures world.time >= old(world.time) && old(world.tick) <= world.tick <= old(world.tick) + 41 && Current()
    {
      hide Sound, Owned, Ours, Follows, Quiet, Stable, Lives, Missed, Served, AllServed, AtHome, Met, Attended, OnlyPid, OnlyKey;
      var step := Observe(pid, end, known, phase);
      if !step.Proceed? {
        return step.Leave?;
      }
      ghost var observed, asked := Seen(), world.tick;
      ok := Handle(step.facts, end, phase, exited);
      FollowsThrough(old(Seen()), observed, Seen(), scan, phase);
      LivesEarlier(world.os, pid, scan, asked, world.tick);
      OnlyKeyIsOnlyPid(observed.members, members, KeyOf(step.facts));
      if old(Met(world.os, members, scan, world.tick, pid, phase)) && Lively(step.facts) {
        MetAgain(world.os, observed.members, members, scan, old(world.tick), world.tick, pid, phase);
        MetLater(world.os, observed.members, observed.members, scan, old(world.tick), world.tick, pid, phase);
      }
    }

    static lemma OnlyKeyIsOnlyPid(a: Members, b: Members, key: Key)
      requires OnlyKey(a, b, key)
      ensures OnlyPid(a, b, key.pid)
    {
    }

    static lemma MetAgain(os: Os, a: Members, b: Members, scan: nat, until: nat, later: nat, pid: int, phase: Option<int>)
      requires Met(os, a, scan, until, pid, phase) && OnlyKey(a, b, Lifetime(os, pid, scan))
      ensures Attended(os, b, scan, later, Lifetime(os, pid, scan), phase) ==> Met(os, b, scan, later, pid, phase)
    {
      hide Attended;
    }

    /** The quiet anchor is retained. */
    ghost predicate Retained()
      reads this
    {
      Quiet(world.os, anchor) && KeyOf(Home(world.os, anchor)) in members
    }

    // --------------------------------------------------------------- scan

    /** The census, the anchor and every retained process identifier. */
    method Candidates(census: seq<int>) returns (candidates: seq<int>)
      requires Valid()
      ensures forall pid :: pid in census || pid == anchor || Holds(pid) ==> pid in candidates
      ensures census == [anchor] && (forall k :: k in members ==> k.pid == anchor) ==> candidates == [anchor]
    {
      assert forall k :: k in members ==> members[k].facts.pid == k.pid by {
        forall k | k in members ensures members[k].facts.pid == k.pid {
          KeyedBy(k);
        }
      }
      hide Sound, Owned;
      candidates := if anchor in census then census else census + [anchor];
      var todo := members.Keys;
      while todo != {}
        invariant todo <= members.Keys
        invariant forall pid :: pid in census || pid == anchor ==> pid in candidates
        invariant forall k :: k in members && !members[k].gone && k !in todo ==> members[k].facts.pid in candidates
        invariant census == [anchor] && (forall k :: k in members ==> k.pid == anchor) ==> candidates == [anchor]
        decreases |todo|
      {
        var k :| k in todo;
        todo := todo - {k};
        if !members[k].gone && members[k].facts.pid !in candidates {
          candidates := candidates + [members[k].facts.pid];
        }
      }
    }

    /** Whether nothing but the exited anchor is left, and whether something else is still live. */
    method Verdict(exited: bool) returns (clear: bool, residual: bool)
      requires Valid()
      ensures clear <==> exited && forall k :: k in members ==> members[k].gone || k.pid == anchor
      ensures residual <==> exists k :: k in members && !members[k].gone && k.pid != anchor
                                        && members[k].facts.status != ZOMBIE && !members[k].pending
    {
      assert forall k :: k in members ==> members[k].facts.pid == k.pid by {
        forall k | k in members ensures members[k].facts.pid == k.pid {
          KeyedBy(k);
        }
      }
      hide Sound, Owned;
      clear, residual := exited, false;
      var todo := members.Keys;
      while todo != {}
        invariant todo <= members.Keys
        invariant clear <==> exited && forall k :: k in members && k !in todo ==> members[k].gone || k.pid == anchor
        invariant residual <==> exists k :: k in members && k !in todo && !members[k].gone && k.pid != anchor
                                            && members[k].facts.status != ZOMBIE && !members[k].pending
        decreases |todo|
      {
        var k :| k in todo;
        todo := todo - {k};
        var member := members[k];
        if member.gone || (member.facts.pid == anchor && exited) {
          continue;
        }
        clear := false;
        if member.facts.pid != anchor && member.facts.status != ZOMBIE && !member.pending {
          residual := true;
        }
      }
    }

    method InspectAll(candidates: seq<int>, end: nat, phase: Option<int>, exited: bool) returns (ok: bool)
      requires Valid() && Current() && Covered(members, candidates)
      requires Watched(world.os, members, Seen(), anchor, delegated, scan, world.tick, exited, phase, [])
      modifies this`members, this`log, this`latest, this`fault, world
      ensures Valid() && Follows(old(Seen()), Seen(), scan, phase)
      ensures ok ==> forall k :: k in members && !(exited && k.pid == anchor) ==> Served(members, log, scan, k, phase)
      ensures old(Calm(end)) && Steady() && candidates == [anchor] && Allowed(phase) && !exited ==> ok && Calm(end) && Retained()
      ensures ok ==> Watched(world.os, old(members), Seen(), anchor, delegated, scan, world.tick, exited, phase, candidates)
      ensures world.time >= old(world.time) && old(world.tick) <= world.tick <= old(world.tick) + 43 * |candidates| && Current()
    {
      hide Sound, Owned, Follows, Served, Covered, ServedSo, OnlyPid, AllServed, Quiet, AtHome, Watched, Lives, Met, Attended, Ready;
      FollowsItself(Seen(), scan, phase);
      ghost var except := if exited then Some(anchor) else None;
      NoneServed(members, log, scan, except, phase);
      for i := 0 to |candidates|
        invariant Valid() && Follows(old(Seen()), Seen(), scan, phase) && Covered(members, candidates)
        invariant world.time >= old(world.time) && old(world.tick) <= world.tick <= old(world.tick) + 43 * i && Current()
        invariant Watched(world.os, old(members), Seen(), anchor, delegated, scan, world.tick, exited, phase, candidates[..i])
        invariant ServedSo(members, log, scan, candidates[..i], except, phase)
        invariant old(Calm(end)) && Steady() && candidates == [anchor] && Allowed(phase) && !exited ==> Calm(end) && (i > 0 ==> Retained())
      {
        ghost var before, asked := Seen(), world.tick;
        assert Sound(world.os, before.members, before.log, latest) && latest <= asked;
        ghost var noted := latest;
        var fine := Inspect(candidates[i], end, phase, exited);
        assert Follows(old(Seen()), before, scan, phase);
        FollowsThrough(old(Seen()), before, Seen(), scan, phase);
        if !fine {
          return false;
        }
        LogGrows(before, Seen(), scan, phase);
        FaultStays(before, Seen(), scan, phase);
        LivesEarlier(world.os, candidates[i], scan, asked, world.tick);
        HeldStill(world.os, old(Seen()), before, noted, scan, candidates[i], phase, asked);
        WatchedMeets(world.os, old(members), before, anchor, delegated, scan, asked, world.tick, exited, phase, candidates[..i], candidates[i]);
        WatchedStep(world.os, old(members), before, Seen(), anchor, delegated, scan, asked, world.tick, exited, phase, candidates, i);
        OneMoreServed(world.os, before, Seen(), latest, scan, candidates, i, except, phase);
      }
      assert candidates[..|candidates|] == candidates;
      EveryoneServed(members, log, scan, candidates, except, phase);
      ok := true;
    }

    static lemma LogGrows(a: View, b: View, scan: nat, phase: Option<int>)
      requires Follows(a, b, scan, phase)
      ensures a.log <= b.log
    {
    }

    static lemma NoneServed(members: Members, log: Log, scan: nat, except: Option<int>, phase: Option<int>)
      ensures ServedSo(members, log, scan, [], except, phase)
    {
    }

    static lemma EveryoneServed(members: Members, log: Log, scan: nat, candidates: seq<int>, except: Option<int>, phase: Option<int>)
      requires Covered(members, candidates) && ServedSo(members, log, scan, candidates, except, phase)
      ensures forall k :: k in members && except != Some(k.pid) ==> Served(members, log, scan, k, phase)
    {
      hide Served;
      GoneAreServed(members, log, scan, phase);
    }

    lemma HeldAreCovered(candidates: seq<int>)
      requires Valid() && forall pid :: Holds(pid) ==> pid in candidates
      ensures Covered(members, candidates)
    {
      hide Sound, Owned;
      forall k | k in members && !members[k].gone ensures k.pid in candidates {
        KeyedBy(k);
        assert Holds(k.pid);
      }
    }

    static lemma HomeKeys(os: Os, pid: int, members: Members)
      ensures Quiet(os, pid) && AtHome(os, pid, members) ==> (forall k :: k in members ==> k.pid == pid) && |members| <= 1
    {
      hide Quiet;
      if Quiet(os, pid) && AtHome(os, pid, members) {
        var home := KeyOf(Home(os, pid));
        assert members.Keys <= {home};
        assert |members.Keys| <= |{home}| by {
          if members.Keys != {} {
            assert members.Keys == {home};
          }
        }
      }
    }

    /** Recheck what is retained against the census, then inspect every candidate. */
    method Survey(census: seq<int>, end: nat, phase: Option<int>, exited: bool) returns (ok: bool)
      requires Valid() && Current() && scan < world.tick && world.os.census(world.tick) == Some(census)
      modifies this`members, this`log, this`latest, this`fault, world
      ensures Valid() && Follows(old(Seen()), Seen(), scan, phase)
      ensures ok ==> forall k :: k in members && !(exited && k.pid == anchor) ==> Served(members, log, scan, k, phase)
      ensures old(Calm(end)) && census == [anchor] ==> world.tick <= old(world.tick) + 47
      ensures old(Calm(end)) && census == [anchor] && Steady() && Allowed(phase) && !exited ==> ok && Calm(end) && Retained()
      ensures ok ==> AllAttended(world.os, old(members), Seen(), anchor, delegated, scan, world.tick, exited, phase, census + [anchor])
      ensures ok ==>
                forall k :: k in old(members) && !(exited && k.pid == anchor) && Absent(world.os, k.pid, scan, world.tick) && k.pid !in census ==>
                  k in members && members[k].gone
      ensures world.time >= old(world.time) && world.tick >= old(world.tick) && Current()
    {
      hide Sound, Owned, Follows, Served, Holds, Covered, Quiet, AtHome, Stable, Watched, Lives, Ready, AllAttended, Cleared, Absent;
      HomeKeys(world.os, anchor, members);
      ok := RecheckAll(census, world.tick, end, exited, phase);
      if !ok {
        return;
      }
      HomeKeys(world.os, anchor, members);
      ghost var rechecked := Seen();
      var candidates := Candidates(census);
      HeldAreCovered(candidates);
      WatchedFirst(world.os, members, Seen(), anchor, delegated, scan, world.tick, exited, phase);
      ghost var noted, asked := latest, world.tick;
      ok := InspectAll(candidates, end, phase, exited);
      if ok {
        ClearedLater(world.os, rechecked, Seen(), anchor, scan, asked, world.tick, exited, census, phase);
        RetainedStay(rechecked, Seen(), scan, phase);
        WatchedFewer(world.os, old(Seen()), rechecked, Seen(), noted, anchor, delegated, scan, asked, world.tick, exited, phase, candidates,
                     census + [anchor]);
      }
      FollowsThrough(old(Seen()), rechecked, Seen(), scan, phase);
    }

    /** One scan. A scan that could not be finished gives no verdict; one that was finished served
        every lifetime it retains. While a quiet system keeps the anchor's generation, it finishes. */
    method Scan(end: nat, phase: Option<int>, exited: bool) returns (verdict: Option<(bool, bool)>)
      requires Valid() && latest <= world.tick
      modifies this, world
      ensures Valid() && scan == old(world.tick) && Follows(old(Seen()), Seen(), scan, phase)
      ensures verdict.Some? ==> forall k :: k in members && !(exited && k.pid == anchor) ==> Served(members, log, scan, k, phase)
      ensures verdict.Some? ==>
                (verdict.value.0 <==> exited && forall k :: k in members ==> members[k].gone || k.pid == anchor)
                && (verdict.value.1 <==> exists k :: k in members && !members[k].gone && k.pid != anchor
                                                     && members[k].facts.status != ZOMBIE && !members[k].pending)
      ensures verdict.Some? ==> AllFound(world.os, old(members), Seen(), scan, world.tick, anchor, delegated, exited, phase, verdict.value)
      ensures verdict.Some? ==> AllLeft(world.os, old(members), members, scan, world.tick, anchor, exited)
      ensures old(Calm(end)) ==> world.tick <= old(world.tick) + 49
      ensures old(Calm(end)) && Steady() && Allowed(phase) && !exited ==> verdict.Some? && Calm(end) && Retained()
      ensures world.time >= old(world.time) && world.tick > old(world.tick) && Current()
    {
      hide Sound, Owned, Follows, Served, Quiet, AtHome, Stable, AllAttended, Lives, AllFound, Absent;
      scan := world.tick;
      FollowsItself(Seen(), scan, phase);
      QuietLooks(world.os, anchor, world.tick + 1);
      QuietLooks(world.os, anchor, world.tick + 2);
      var failed := world.RightFailed();
      if failed {
        return None;
      }
      var census := world.Census(end);
      if census.None? {
        return None;
      }
      var ok := Survey(census.value, end, phase, exited);
      if !ok {
        return None;
      }
      var clear, residual := Verdict(exited);
      AttendedIsFound(world.os, old(Seen()), old(latest), Seen(), latest, scan, world.tick, anchor, delegated, exited, phase, census.value,
                      (clear, residual));
      verdict := Some((clear, residual));
    }
  }

  /** The phases there are. */
  predicate Allowed(phase: Option<int>) {
    phase.Some? ==> phase.value == TERMINATE || phase.value == KILL
  }
}
