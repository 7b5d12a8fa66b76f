/** A system on which one execution generation is signalled twice (rust/check-i0-driver.rs): the
    promise of one success per generation rests on a kernel that does not return to a generation. */
module ProcessReturn {
  import opened Wrappers
  import opened ProcessLog
  import opened ProcessScope

  const ANCHOR := 1

  /** The generation of the one process: it leaves generation 7 for a while and comes back. */
  function Generation(t: nat): int {
    if 1000 <= t < 2000 then 8 else 7
  }

  function ReturningOs(): Os {
    Os((t: nat) => 0,
       (t: nat) => Some([ANCHOR]),
       (t: nat, pid: int) => Ok((2, (0, 0))),
       (t: nat, pid: int) => Ok(ANCHOR),
       (t: nat, pid: int) => Some(Grant(ANCHOR, Generation(t))),
       (t: nat, token: Token, value: int) => 0,
       (t: nat) => false)
  }

  lemma ReturningIsQuiet()
    ensures Quiet(ReturningOs(), ANCHOR) && !NeverReturns(ReturningOs())
    ensures forall t: nat :: ReturningOs().grant(t, ANCHOR) == Some(Grant(ANCHOR, Generation(t)))
  {
    var os := ReturningOs();
    assert os.grant(1, ANCHOR) == os.grant(2000, ANCHOR) && os.grant(1000, ANCHOR) != os.grant(1, ANCHOR);
  }

  lemma SteadyWithin(since: nat, until: nat, generation: int)
    requires forall t: nat :: since < t <= until ==> Generation(t) == generation
    ensures Stable(ReturningOs(), ANCHOR, since, until)
  {
    ReturningIsQuiet();
  }

  /** A certification of a scan shows the generation of the time. */
  lemma CertifiedGeneration(members: Members, log: Log, latest: nat, scan: nat, k: Key, generation: int, until: nat) returns (m: nat)
    requires Sound(ReturningOs(), members, log, latest) && latest <= until && k.pid == ANCHOR
    requires CertifiedIn(log, scan, k, generation)
    ensures m < |log| && log[m].Certified? && log[m].scan == scan && log[m].key == k && log[m].generation == generation
    ensures exists t: nat :: scan < t <= until && generation == Generation(t)
  {
    hide Keyed, OnePerPid, Backed, Tracked, Separated, Departures, Logged, Ordered, Generation, ReturningOs;
    ReturningIsQuiet();
    m :| 0 <= m < |log| && log[m].Certified? && log[m].scan == scan && log[m].key == k && log[m].generation == generation;
    assert Genuine(ReturningOs(), log[m]);
    assert log[m].second <= latest;
    assert scan < log[m].second <= until && generation == Generation(log[m].second);
  }

  lemma DeliveredEvent(log: Log, k: Key, generation: int, value: int) returns (i: nat)
    requires Delivered(log, k, generation, value)
    ensures i < |log| && Succeeded(log[i]) && log[i].key == k && log[i].generation == generation && log[i].value == value
  {
    hide Unbroken;
    i :| 0 <= i < |log| && Succeeded(log[i]) && log[i].key == k && log[i].generation == generation && log[i].value == value && Unbroken(log, i);
  }

  /** Questions that pass the time. */
  method Idle(world: World, until: nat)
    requires world.tick <= until && Quiet(world.os, ANCHOR)
    modifies world
    ensures world.tick == until && world.time == old(world.time)
  {
    while world.tick < until
      invariant world.tick <= until && world.time == old(world.time)
    {
      var now := world.Now();
    }
  }

  /** What a finished scan of the termination phase left: the live anchor, its token certified in this
      scan and its signal delivered. */
  ghost predicate Terminated(s: ProcessScope, generation: int)
    reads s, s.world
  {
    && s.Valid() && s.Current() && s.world.os == ReturningOs() && s.anchor == ANCHOR && Quiet(s.world.os, ANCHOR) && s.Calm(1)
    && var k := KeyOf(Home(s.world.os, ANCHOR));
    && k in s.members && s.members[k].token.Some? && s.members[k].token.value.generation == generation
    && Served(s.members, s.log, s.scan, k, Some(TERMINATE))
    && !s.members[k].gone && !s.members[k].pending && s.members[k].facts.status != ZOMBIE
  }

  /** One scan of the termination phase, while the generation holds. */
  method TerminateAt(s: ProcessScope, at: nat, ghost generation: int) returns (ghost m: nat)
    requires s.Valid() && s.latest <= s.world.tick <= at && s.world.os == ReturningOs() && s.anchor == ANCHOR && s.Calm(1)
    requires forall t: nat :: at < t <= at + 49 ==> Generation(t) == generation
    modifies s, s.world
    ensures s.world.tick <= at + 49 && s.scan == at && Terminated(s, generation)
    ensures Follows(old(s.Seen()), s.Seen(), at, Some(TERMINATE))
    ensures m < |s.log| && s.log[m].Certified? && s.log[m].scan == at && s.log[m].key == KeyOf(Home(s.world.os, ANCHOR))
            && s.log[m].generation == generation
  {
    hide Sound, Quiet, AtHome, Stable, Follows, ReturningOs, Generation, Delivered, CertifiedIn;
    ReturningIsQuiet();
    Idle(s.world, at);
    var verdict := s.Scan(1, Some(TERMINATE), false);
    SteadyWithin(at, s.world.tick, generation);
    var k := KeyOf(Home(s.world.os, ANCHOR));
    HomeIsLive(s.world.os, s.members);
    m := CertifiedGeneration(s.members, s.log, s.latest, at, k, s.members[k].token.value.generation, s.world.tick);
  }

  lemma HomeIsLive(os: Os, members: Members)
    requires Quiet(os, ANCHOR) && AtHome(os, ANCHOR, members)
    ensures Home(os, ANCHOR).pid == ANCHOR
    ensures forall k :: k in members ==> !members[k].gone && !members[k].pending && members[k].facts.status != ZOMBIE
  {
  }

  lemma LaterScan(a: View, b: View, scan: nat, m: nat)
    requires Follows(a, b, scan, Some(TERMINATE)) && m < |b.log| && b.log[m].scan == scan
    requires forall i :: 0 <= i < |a.log| ==> a.log[i].scan < scan
    requires forall i :: 0 <= i < |a.log| && a.log[i].Signalled? ==> a.log[i].value == TERMINATE
    ensures |a.log| <= m && a.log <= b.log
    ensures forall i :: 0 <= i < |b.log| ==> b.log[i].scan <= scan
    ensures forall i :: 0 <= i < |b.log| && b.log[i].Signalled? ==> b.log[i].value == TERMINATE
  {
    assert forall i :: 0 <= i < |a.log| ==> a.log[i] == b.log[i];
  }

  /** Three scans of the termination phase on that system signal generation 7 twice. */
  method SignalledTwice() returns (s: ProcessScope, ghost i: nat, ghost j: nat)
    ensures s.Valid() && s.world.os == ReturningOs() && !NeverReturns(s.world.os) && Escalates(s.log)
    ensures i < j < |s.log| && Repeats(s.log[i], s.log[j])
  {
    hide Sound, Quiet, AtHome, Follows, ReturningOs, Generation, Delivered, CertifiedIn, NeverReturns;
    ReturningIsQuiet();
    GenerationBands();
    var world := new World(ReturningOs());
    s := new ProcessScope(world, ANCHOR, false);
    NobodyHome(s.world.os);
    ghost var start := s.Seen();
    var first := TerminateAt(s, 0, 7);
    ghost var one := s.Seen();
    var k := KeyOf(Home(s.world.os, ANCHOR));
    i := DeliveredEvent(s.log, k, 7, TERMINATE);
    FirstScan(start, one, 0);
    var second := TerminateAt(s, 1000, 8);
    ghost var two := s.Seen();
    LaterScan(one, two, 1000, second);
    var third := TerminateAt(s, 2000, 7);
    LaterScan(two, s.Seen(), 2000, third);
    j := ReturningGenerationIsSignalledAgain(s.members, s.log, 2000, k, TERMINATE, i, second);
  }

  lemma GenerationBands()
    ensures forall t: nat :: 0 < t <= 49 ==> Generation(t) == 7
    ensures forall t: nat :: 1000 < t <= 1049 ==> Generation(t) == 8
    ensures forall t: nat :: 2000 < t <= 2049 ==> Generation(t) == 7
  {
  }

  lemma NobodyHome(os: Os)
    requires Quiet(os, ANCHOR)
    ensures AtHome(os, ANCHOR, map[])
  {
  }

  lemma FirstScan(a: View, b: View, scan: nat)
    requires Follows(a, b, scan, Some(TERMINATE)) && a.log == []
    ensures forall i :: 0 <= i < |b.log| ==> b.log[i].scan == scan
    ensures forall i :: 0 <= i < |b.log| && b.log[i].Signalled? ==> b.log[i].value == TERMINATE
  {
  }
}
