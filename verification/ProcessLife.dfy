/** Processes that stay alive while a scan looks at them (rust/check-i0-driver.rs), as the operating
    system's answers show it. */
module ProcessLife {
  import opened Wrappers
  import opened ProcessLog

  /** At question t the process is live, and of the lifetime and execution generation it had
      at the first question after a given one. */
  ghost predicate Alive(os: Os, pid: int, since: nat, t: nat) {
    && os.bsd(t, pid).Ok? && os.bsd(t, pid).value.0 != ZOMBIE
    && os.bsd(since + 1, pid).Ok? && os.bsd(t, pid).value.1 == os.bsd(since + 1, pid).value.1
    && os.session(t, pid).Ok? && os.session(t, pid) == os.session(since + 1, pid)
    && os.grant(t, pid) == os.grant(since + 1, pid)
  }

  /** So it is at every question up to a given one, whichever of them are asked. */
  ghost predicate Lives(os: Os, pid: int, since: nat, until: nat) {
    forall t: nat :: since < t <= until ==> Alive(os, pid, since, t)
  }

  /** The lifetime the process then has. */
  function Lifetime(os: Os, pid: int, since: nat): Key {
    Key(pid, if os.bsd(since + 1, pid).Ok? then os.bsd(since + 1, pid).value.1 else (0, 0))
  }

  /** The session it then has. */
  function Seat(os: Os, pid: int, since: nat): int {
    if os.session(since + 1, pid).Ok? then os.session(since + 1, pid).value else 0
  }

  /** A signal on a token of this lifetime was answered with the absence of its execution. */
  ghost predicate Missed(os: Os, k: Key, value: int, since: nat, until: nat) {
    exists t: nat, token: Token :: since < t <= until && KeyOf(token.identity) == k && os.signal(t, token, value) == ESRCH
  }

  /** The process was once looked up in vain. */
  ghost predicate WasAbsent(os: Os, pid: int, until: nat) {
    exists t: nat :: t <= until && os.bsd(t, pid) == Err(ESRCH)
  }

  /** The lifetime is retained as live, and is left for later only when its signal missed. */
  ghost predicate Attended(os: Os, members: Members, scan: nat, until: nat, k: Key, phase: Option<int>) {
    && k in members
    && (members[k].gone || (members[k].facts.status != ZOMBIE
                            && (members[k].pending ==> phase.Some? && Missed(os, k, phase.value, scan, until))))
  }

  /** No other lifetime of a live process is held, and its own is left for later only when its signal
      missed. */
  ghost predicate Met(os: Os, members: Members, scan: nat, until: nat, pid: int, phase: Option<int>) {
    forall k :: k in members && k.pid == pid && !members[k].gone ==>
      k == Lifetime(os, pid, scan) && (members[k].pending ==> Attended(os, members, scan, until, k, phase))
  }

  /** Nothing is left for later of a live process. */
  ghost predicate Ready(os: Os, members: Members, scan: nat, pid: int) {
    forall k :: k in members && k.pid == pid && !members[k].gone ==> k == Lifetime(os, pid, scan) && !members[k].pending
  }

  /** The lifetime of the process is retained and not gone. */
  predicate Held(os: Os, members: Members, scan: nat, pid: int) {
    var k := Lifetime(os, pid, scan);
    k in members && !members[k].gone
  }

  /** The process is owned: by its session, as the anchor, or because it was held before. */
  predicate Due(os: Os, held: Members, anchor: int, scan: nat, pid: int) {
    Seat(os, pid, scan) == anchor || pid == anchor || Held(os, held, scan, pid)
  }

  /** An owned process has left the session. */
  predicate Escaped(os: Os, held: Members, anchor: int, delegated: bool, scan: nat, pid: int) {
    Seat(os, pid, scan) != anchor && !delegated && Held(os, held, scan, pid)
  }

  /** At every question up to a given one the process is looked up in vain. */
  ghost predicate Absent(os: Os, pid: int, since: nat, until: nat) {
    forall t: nat :: since < t <= until ==> os.bsd(t, pid) == Err(ESRCH)
  }

  /** The session read at question t; a lost one reads as none. */
  function SessionRead(os: Os, t: nat, pid: int): int {
    if os.session(t, pid).Ok? then os.session(t, pid).value else 0
  }

  /** The lifetime is the anchor's, or was seen in its session. */
  ghost predicate Ours(os: Os, anchor: int, k: Key) {
    || k.pid == anchor
    || exists t: nat :: os.bsd(t, k.pid).Ok? && os.bsd(t, k.pid).value.1 == k.start && SessionRead(os, t + 1, k.pid) == anchor
  }

  /** Nothing else is ever retained or signalled. */
  ghost predicate Owned(os: Os, anchor: int, members: Members, log: Log) {
    && (forall k :: k in members ==> Ours(os, anchor, k))
    && (forall i :: 0 <= i < |log| && log[i].Signalled? ==> Ours(os, anchor, log[i].key))
  }

  lemma OwnedGrows(os: Os, anchor: int, members: Members, log: Log, k: Key, n: Member, more: Log)
    requires Owned(os, anchor, members, log) && Ours(os, anchor, k)
    requires forall i :: 0 <= i < |more| ==> more[i].key == k
    ensures Owned(os, anchor, members[k := n], log + more) && Owned(os, anchor, members, log + more)
  {
    hide Ours;
  }

  lemma OwnedIsOurs(os: Os, anchor: int, members: Members, log: Log, k: Key)
    requires Owned(os, anchor, members, log) && k in members
    ensures Ours(os, anchor, k)
  {
    hide Ours;
  }

  /** A certification is neither a member nor a signal. */
  lemma OwnedCertifies(os: Os, anchor: int, members: Members, log: Log, e: Event)
    requires Owned(os, anchor, members, log) && !e.Signalled?
    ensures Owned(os, anchor, members, log + [e])
  {
    hide Ours;
  }

  lemma LivesAt(os: Os, pid: int, since: nat, until: nat, t: nat)
    ensures Lives(os, pid, since, until) && since < t <= until ==> Alive(os, pid, since, t)
  {
    hide Alive;
  }

  lemma LivesEarlier(os: Os, pid: int, since: nat, until: nat, later: nat)
    ensures Lives(os, pid, since, later) && until <= later ==> Lives(os, pid, since, until)
  {
    hide Alive;
  }

  lemma LivesStable(os: Os, pid: int, since: nat, until: nat, a: nat, b: nat)
    ensures Lives(os, pid, since, until) && since <= a && b <= until ==> Stable(os, pid, a, b)
  {
    if Lives(os, pid, since, until) && since <= a && b <= until {
      forall t: nat, u: nat | a < t <= b && a < u <= b ensures os.grant(t, pid) == os.grant(u, pid) {
        assert Alive(os, pid, since, t) && Alive(os, pid, since, u);
      }
    }
  }

  lemma MissedNow(os: Os, k: Key, value: int, since: nat, t: nat, token: Token)
    ensures since < t && KeyOf(token.identity) == k && os.signal(t, token, value) == ESRCH ==> Missed(os, k, value, since, t)
  {
  }

  lemma MissedLater(os: Os, k: Key, value: int, since: nat, until: nat, later: nat)
    ensures Missed(os, k, value, since, until) && until <= later ==> Missed(os, k, value, since, later)
  {
  }

  lemma AttendedLater(os: Os, a: Members, b: Members, scan: nat, until: nat, later: nat, k: Key, phase: Option<int>)
    requires until <= later && k in a && k in b && a[k] == b[k]
    ensures Attended(os, a, scan, until, k, phase) ==> Attended(os, b, scan, later, k, phase)
  {
    hide Missed;
    if phase.Some? {
      MissedLater(os, k, phase.value, scan, until, later);
    }
  }

  lemma MetLater(os: Os, a: Members, b: Members, scan: nat, until: nat, later: nat, pid: int, phase: Option<int>)
    requires until <= later && forall k: Key :: k.pid == pid ==> (k in a <==> k in b) && (k in a ==> a[k] == b[k])
    ensures Met(os, a, scan, until, pid, phase) ==> Met(os, b, scan, later, pid, phase)
  {
    hide Attended;
    forall k | k in b && k.pid == pid ensures Attended(os, a, scan, until, k, phase) ==> Attended(os, b, scan, later, k, phase) {
      AttendedLater(os, a, b, scan, until, later, k, phase);
    }
  }

  lemma ReadyIsMet(os: Os, members: Members, scan: nat, until: nat, pid: int, phase: Option<int>)
    ensures Ready(os, members, scan, pid) ==> Met(os, members, scan, until, pid, phase)
  {
    hide Attended;
  }

  /** A lifetime is not found gone while its process lives. */
  lemma LivingIsNotGone(os: Os, a: View, b: View, latest: nat, scan: nat, k: Key, phase: Option<int>, until: nat)
    requires Sound(os, b.members, b.log, latest) && latest <= until && Follows(a, b, scan, phase)
    requires k in b.members && b.members[k].gone && Lives(os, k.pid, scan, until)
    ensures k in a.members && a.members[k].gone
  {
    hide Keyed, OnePerPid, Backed, Tracked, Separated, Departures, Logged, Ordered, Lives;
    if !(k in a.members && a.members[k].gone) {
      var added := b.log[|a.log|..];
      var i :| 0 <= i < |added| && added[i].Departed? && added[i].key == k;
      var e := b.log[|a.log| + i];
      assert e == added[i] && Genuine(os, e) && e.scan == scan;
      assert Ends(e) <= latest;
      LivesAt(os, k.pid, scan, until, e.lookup);
    }
  }

  /** What was held of a living process still is. */
  lemma HeldStill(os: Os, a: View, b: View, latest: nat, scan: nat, pid: int, phase: Option<int>, until: nat)
    requires Sound(os, b.members, b.log, latest) && latest <= until && Follows(a, b, scan, phase)
    ensures Lives(os, pid, scan, until) && Held(os, a.members, scan, pid) ==> Held(os, b.members, scan, pid)
  {
    hide Sound, Lives;
    var k := Lifetime(os, pid, scan);
    if Lives(os, pid, scan, until) && Held(os, a.members, scan, pid) && b.members[k].gone {
      LivingIsNotGone(os, a, b, latest, scan, k, phase, until);
    }
  }

  /** What is gone was once looked up in vain. */
  lemma GoneWasAbsent(os: Os, members: Members, log: Log, latest: nat, k: Key)
    requires Sound(os, members, log, latest) && k in members && members[k].gone
    ensures WasAbsent(os, k.pid, latest)
  {
    hide Keyed, OnePerPid, Backed, Tracked, Separated, Logged, Ordered;
    assert Left(log, k);
    var i :| 0 <= i < |log| && log[i].Departed? && log[i].key == k;
    assert Genuine(os, log[i]) && Ends(log[i]) <= latest;
  }
}
