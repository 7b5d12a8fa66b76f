/** Owned process lifetimes and the record of what was certified and signalled
    (rust/check-i0-driver.rs). */
module ProcessLog {
  import opened Wrappers

  type Start = (nat, nat)

  datatype Facts = Facts(pid: int, session: int, status: int, start: Start)

  /** A lifetime: a process identifier with its start time. */
  datatype Key = Key(pid: int, start: Start)

  function KeyOf(f: Facts): Key {
    Key(f.pid, f.start)
  }

  predicate SameIdentity(a: Facts, b: Facts) {
    KeyOf(a) == KeyOf(b)
  }

  datatype Token = Token(identity: Facts, generation: int)

  datatype Member = Member(pending: bool, facts: Facts, token: Option<Token>, gone: bool, sent: int, esrchGeneration: Option<int>)

  type Members = map<Key, Member>

  datatype Grant = Grant(pid: int, generation: int)

  /** What the operating system answers, by when it is asked and what it is asked about. */
  datatype Os = Os(lapse: nat -> nat,
                   census: nat -> Option<seq<int>>,
                   bsd: (nat, int) -> Result<(int, Start), int>,
                   session: (nat, int) -> Result<int, int>,
                   grant: (nat, int) -> Option<Grant>,
                   signal: (nat, Token, int) -> int,
                   rightFailed: nat -> bool)

  /** What happened to a lifetime in a scan, with the questions whose answers show it. A scan is
      known by the number of questions asked before it. */
  datatype Event =
    | Certified(scan: nat, key: Key, generation: int, first: nat, between: nat, second: nat)
    | Signalled(scan: nat, key: Key, generation: int, value: int, ok: bool, token: Token, sent: nat)
    | Departed(scan: nat, key: Key, lookup: nat, listing: nat)

  type Log = seq<Event>

  const MEMBER_LIMIT := 4096
  const ZOMBIE := 5
  const ESRCH := 3
  const TERMINATE := 15
  const KILL := 9

  // ----------------------------------------------------------- invariant

  /** A member is kept under its own lifetime, and a missed signal was of its own generation. */
  ghost predicate Fits(k: Key, m: Member) {
    && KeyOf(m.facts) == k
    && (m.token.Some? ==> KeyOf(m.token.value.identity) == k)
    && (m.esrchGeneration.Some? ==> m.token.Some? && m.token.value.generation == m.esrchGeneration.value)
  }

  /** Members stay bounded and are kept under their own lifetime. */
  ghost predicate Keyed(members: Members) {
    |members| <= MEMBER_LIMIT && forall k :: k in members ==> Fits(k, members[k])
  }

  /** At most one member per process identifier is not gone. */
  ghost predicate OnePerPid(members: Members) {
    forall j, k :: j in members && k in members && !members[j].gone && !members[k].gone && j.pid == k.pid ==> j == k
  }

  /** The answers bear the event out: two agreeing grants around a look at the lifetime, the reply
      to the signal sent on its token, or a failed lookup of the process with a census that lacks it;
      all of this scan. */
  ghost predicate Genuine(os: Os, e: Event) {
    match e
    case Certified(scan, key, generation, first, between, second) =>
      && scan < first < between < second
      && os.grant(first, key.pid) == os.grant(second, key.pid) == Some(Grant(key.pid, generation))
      && os.bsd(between, key.pid).Ok? && os.bsd(between, key.pid).value.1 == key.start
    case Signalled(scan, key, generation, value, ok, token, sent) =>
      && scan < sent && KeyOf(token.identity) == key && token.generation == generation
      && ok == (os.signal(sent, token, value) == 0)
    case Departed(scan, key, lookup, listing) =>
      && scan < lookup && scan < listing
      && os.bsd(lookup, key.pid) == Err(ESRCH) && os.census(listing).Some? && key.pid !in os.census(listing).value
  }

  ghost predicate Attested(os: Os, log: Log) {
    forall i :: 0 <= i < |log| ==> Genuine(os, log[i])
  }

  /** A lifetime is gone only if it was seen to have departed. */
  ghost predicate Departures(members: Members, log: Log) {
    forall k :: k in members && members[k].gone ==> Left(log, k)
  }

  ghost predicate Left(log: Log, k: Key) {
    exists i :: 0 <= i < |log| && log[i].Departed? && log[i].key == k
  }

  ghost predicate Succeeded(e: Event) {
    e.Signalled? && e.ok
  }

  /** Every signal is one of the two allowed, sent on the certification just before it: of the same
      scan, the same lifetime and the same generation. */
  ghost predicate Backed(log: Log) {
    forall j :: 0 <= j < |log| && log[j].Signalled? ==>
      (log[j].value == TERMINATE || log[j].value == KILL) && Vouched(log[..j], log[j].scan, log[j].key, log[j].generation)
  }

  ghost predicate Vouched(log: Log, scan: nat, k: Key, generation: int) {
    log != [] && var e := log[|log| - 1]; e.Certified? && e.scan == scan && e.key == k && e.generation == generation
  }

  /** When the questions of an event were asked. */
  function Begins(e: Event): nat {
    match e
    case Certified(_, _, _, first, _, _) => first
    case Signalled(_, _, _, _, _, _, sent) => sent
    case Departed(_, _, lookup, _) => lookup
  }

  function Ends(e: Event): nat {
    if e.Certified? then e.second else Begins(e)
  }

  /** Certifications and signals are recorded in the order in which they were made. */
  ghost predicate Ordered(log: Log) {
    forall i, j :: 0 <= i < j < |log| && !log[i].Departed? && !log[j].Departed? ==> Ends(log[i]) < Begins(log[j])
  }

  ghost predicate Timely(log: Log, latest: nat) {
    forall i :: 0 <= i < |log| ==> Ends(log[i]) <= latest
  }

  /** Since event i nothing else happened to its lifetime: no other generation was certified and
      no other signal succeeded. */
  ghost predicate Unbroken(log: Log, i: nat)
    requires i < |log| && log[i].Signalled?
  {
    forall j :: i < j < |log| && log[j].key == log[i].key ==>
      && (log[j].Certified? ==> log[j].generation == log[i].generation)
      && (Succeeded(log[j]) ==> log[j].value == log[i].value)
  }

  /** A member remembers its last successful signal until something else happens to it. */
  ghost predicate Tracked(members: Members, log: Log) {
    forall i :: 0 <= i < |log| && Succeeded(log[i]) && Unbroken(log, i) ==> Remembers(members, log[i])
  }

  ghost predicate Remembers(members: Members, e: Event)
    requires e.Signalled?
  {
    && e.key in members
    && members[e.key].sent == e.value
    && members[e.key].token.Some? && members[e.key].token.value.generation == e.generation
  }

  /** A signal that succeeded succeeds again only after another generation was certified or
      another signal succeeded. */
  ghost predicate Separated(log: Log) {
    forall i, j :: 0 <= i < j < |log| && Repeats(log[i], log[j]) ==> !Unbroken(log[..j], i)
  }

  ghost predicate Repeats(a: Event, b: Event) {
    Succeeded(a) && Succeeded(b) && a.key == b.key && a.generation == b.generation && a.value == b.value
  }

  /** The signal succeeded for this generation, and nothing else happened to the lifetime since. */
  ghost predicate Delivered(log: Log, k: Key, generation: int, value: int) {
    exists i :: 0 <= i < |log| && Succeeded(log[i]) && log[i].key == k && log[i].generation == generation && log[i].value == value
                && Unbroken(log, i)
  }

  /** What a member remembers as sent was delivered to its generation. */
  ghost predicate Logged(members: Members, log: Log) {
    forall k :: k in members && members[k].sent != 0 ==>
      members[k].token.Some? && Delivered(log, k, members[k].token.value.generation, members[k].sent)
  }

  ghost predicate Sound(os: Os, members: Members, log: Log, latest: nat) {
    && Keyed(members) && OnePerPid(members) && Backed(log) && Tracked(members, log) && Separated(log)
    && Attested(os, log) && Departures(members, log) && Logged(members, log) && Ordered(log) && Timely(log, latest)
  }

  // ------------------------------------------------------- what is kept

  datatype View = View(members: Members, fault: Option<string>, log: Log)

  /** What every step of a scan does: retained lifetimes stay, gone ones stay gone, the first fault
      stays, only this scan's events, with this phase's signal, are added, and a lifetime becomes gone
      only with its departure among them. */
  ghost predicate Follows(a: View, b: View, scan: nat, phase: Option<int>) {
    && (forall k :: k in a.members ==> k in b.members && (a.members[k].gone ==> b.members[k].gone))
    && (a.fault.Some? ==> b.fault == a.fault)
    && a.log <= b.log
    && (forall i :: |a.log| <= i < |b.log| ==> b.log[i].scan == scan && (b.log[i].Signalled? ==> phase == Some(b.log[i].value)))
    && (forall k :: k in b.members && b.members[k].gone && !(k in a.members && a.members[k].gone) ==> Left(b.log[|a.log|..], k))
  }

  lemma FollowsItself(a: View, scan: nat, phase: Option<int>)
    ensures Follows(a, a, scan, phase)
  {
  }

  lemma FollowsThrough(a: View, b: View, c: View, scan: nat, phase: Option<int>)
    requires Follows(a, b, scan, phase) && Follows(b, c, scan, phase)
    ensures Follows(a, c, scan, phase)
  {
    forall k | k in a.members ensures k in c.members && (a.members[k].gone ==> c.members[k].gone) {
      assert k in b.members;
    }
    forall i | |a.log| <= i < |c.log|
      ensures c.log[i].scan == scan && (c.log[i].Signalled? ==> phase == Some(c.log[i].value))
    {
      if i < |b.log| {
        assert b.log[i] == c.log[i];
      }
    }
    forall k | k in c.members && c.members[k].gone && !(k in a.members && a.members[k].gone) ensures Left(c.log[|a.log|..], k) {
      DepartureThrough(a, b, c, k);
    }
  }

  lemma DepartureThrough(a: View, b: View, c: View, k: Key)
    requires a.log <= b.log <= c.log
    requires Left(b.log[|a.log|..], k) || Left(c.log[|b.log|..], k)
    ensures Left(c.log[|a.log|..], k)
  {
    var added := c.log[|a.log|..];
    if Left(b.log[|a.log|..], k) {
      var i :| 0 <= i < |b.log[|a.log|..]| && b.log[|a.log|..][i].Departed? && b.log[|a.log|..][i].key == k;
      assert added[i] == b.log[|a.log|..][i];
    } else {
      var i :| 0 <= i < |c.log[|b.log|..]| && c.log[|b.log|..][i].Departed? && c.log[|b.log|..][i].key == k;
      assert added[|b.log| - |a.log| + i] == c.log[|b.log|..][i];
    }
  }

  // --------------------------------------------------------- small steps

  /** A change to one member that keeps its lifetime, its token and what it remembers. */
  ghost predicate Touches(m: Member, n: Member) {
    && KeyOf(m.facts) == KeyOf(n.facts) && m.token == n.token && m.sent == n.sent && m.gone == n.gone
    && m.esrchGeneration == n.esrchGeneration
  }

  /** Replacing one member keeps the shape of the members. */
  lemma ReplaceKeepsShape(members: Members, k: Key, n: Member)
    requires Keyed(members) && OnePerPid(members) && k in members && Fits(k, n) && (members[k].gone ==> n.gone)
    ensures Keyed(members[k := n]) && OnePerPid(members[k := n])
  {
    hide Fits;
    var next := members[k := n];
    assert next.Keys == members.Keys;
    assert |next| == |next.Keys| == |members|;
  }

  lemma MemberFits(members: Members, k: Key)
    requires Keyed(members) && k in members
    ensures Fits(k, members[k])
  {
  }

  lemma TouchKeepsSound(os: Os, members: Members, log: Log, latest: nat, k: Key, n: Member)
    requires Sound(os, members, log, latest) && k in members && Touches(members[k], n)
    ensures Sound(os, members[k := n], log, latest)
  {
    hide Backed, Separated, Unbroken, Keyed, OnePerPid, Attested, Ordered, Timely, Left, Delivered;
    var next := members[k := n];
    MemberFits(members, k);
    ReplaceKeepsShape(members, k, n);
    forall i | 0 <= i < |log| && Succeeded(log[i]) && Unbroken(log, i) ensures Remembers(next, log[i]) {
      assert Remembers(members, log[i]);
    }
  }

  lemma AddKeepsShape(members: Members, n: Member)
    requires Keyed(members) && OnePerPid(members) && |members| < MEMBER_LIMIT
    requires var k := KeyOf(n.facts); k !in members && Fits(k, n) && forall j :: j in members && !members[j].gone ==> j.pid != k.pid
    ensures Keyed(members[KeyOf(n.facts) := n]) && OnePerPid(members[KeyOf(n.facts) := n])
  {
    hide Fits;
    var k := KeyOf(n.facts);
    var next := members[k := n];
    assert next.Keys == members.Keys + {k};
    assert |next| == |next.Keys| == |members.Keys| + 1 == |members| + 1;
  }

  /** A new lifetime with nothing sent. */
  lemma AdmissionKeepsSound(os: Os, members: Members, log: Log, latest: nat, n: Member)
    requires Sound(os, members, log, latest) && |members| < MEMBER_LIMIT
    requires var k := KeyOf(n.facts);
             k !in members && !n.gone && n.sent == 0 && Fits(k, n) && forall j :: j in members && !members[j].gone ==> j.pid != k.pid
    ensures Sound(os, members[KeyOf(n.facts) := n], log, latest)
  {
    hide Backed, Separated, Unbroken, Keyed, OnePerPid, Attested, Ordered, Timely, Left, Delivered, Fits;
    var next := members[KeyOf(n.facts) := n];
    AddKeepsShape(members, n);
    forall i | 0 <= i < |log| && Succeeded(log[i]) && Unbroken(log, i) ensures Remembers(next, log[i]) {
      assert Remembers(members, log[i]);
    }
  }

  lemma UnbrokenPrefix(log: Log, e: Event, i: nat)
    requires i < |log| && log[i].Signalled?
    ensures Unbroken(log + [e], i) <==>
              Unbroken(log, i) && (e.key == log[i].key ==>
                                     (e.Certified? ==> e.generation == log[i].generation) && (Succeeded(e) ==> e.value == log[i].value))
  {
    var all := log + [e];
    assert all[i] == log[i] && all[|log|] == e;
    if Unbroken(all, i) {
      forall j | i < j < |log| && log[j].key == log[i].key
        ensures (log[j].Certified? ==> log[j].generation == log[i].generation) && (Succeeded(log[j]) ==> log[j].value == log[i].value)
      {
        assert all[j] == log[j];
      }
    }
  }

  lemma BackedGrows(log: Log, e: Event)
    requires Backed(log)
    requires e.Signalled? ==> (e.value == TERMINATE || e.value == KILL) && Vouched(log, e.scan, e.key, e.generation)
    ensures Backed(log + [e])
  {
    hide Vouched;
    var all := log + [e];
    forall j | 0 <= j < |all| && all[j].Signalled?
      ensures (all[j].value == TERMINATE || all[j].value == KILL) && Vouched(all[..j], all[j].scan, all[j].key, all[j].generation)
    {
      if j < |log| {
        assert all[j] == log[j] && all[..j] == log[..j];
      } else {
        assert all[..j] == log;
      }
    }
  }

  lemma SeparatedGrows(log: Log, e: Event)
    requires Separated(log)
    requires forall i :: 0 <= i < |log| && Repeats(log[i], e) ==> !Unbroken(log, i)
    ensures Separated(log + [e])
  {
    hide Unbroken;
    var all := log + [e];
    forall i, j | 0 <= i < j < |all| && Repeats(all[i], all[j]) ensures !Unbroken(all[..j], i) {
      assert all[i] == log[i];
      if j < |log| {
        assert all[j] == log[j] && all[..j] == log[..j];
      } else {
        assert all[..j] == log;
      }
    }
  }

  lemma AttestedGrows(os: Os, log: Log, e: Event)
    requires Attested(os, log) && Genuine(os, e)
    ensures Attested(os, log + [e])
  {
    hide Genuine;
  }

  lemma OrderedGrows(log: Log, e: Event, latest: nat, next: nat)
    requires Ordered(log) && Timely(log, latest) && latest <= next && Ends(e) <= next
    requires !e.Departed? ==> latest < Begins(e) <= Ends(e)
    ensures Ordered(log + [e]) && Timely(log + [e], next)
  {
    hide Begins, Ends;
    var all := log + [e];
    assert all[|log|] == e;
    forall i, j | 0 <= i < j < |all| && !all[i].Departed? && !all[j].Departed? ensures Ends(all[i]) < Begins(all[j]) {
      assert all[i] == log[i];
      if j < |log| {
        assert all[j] == log[j];
      }
    }
  }

  lemma DeparturesGrow(members: Members, log: Log, e: Event)
    requires Departures(members, log)
    ensures Departures(members, log + [e])
  {
    forall k | k in members && members[k].gone ensures Left(log + [e], k) {
      var i :| 0 <= i < |log| && log[i].Departed? && log[i].key == k;
      assert (log + [e])[i] == log[i];
    }
  }

  /** A delivered signal stays delivered unless the event is another generation or another signal. */
  lemma DeliveredStays(log: Log, e: Event, k: Key, generation: int, value: int)
    requires Delivered(log, k, generation, value)
    requires e.key == k ==> (e.Certified? ==> e.generation == generation) && (Succeeded(e) ==> e.value == value)
    ensures Delivered(log + [e], k, generation, value)
  {
    hide Unbroken;
    var i :| 0 <= i < |log| && Succeeded(log[i]) && log[i].key == k && log[i].generation == generation && log[i].value == value && Unbroken(log, i);
    UnbrokenPrefix(log, e, i);
    assert (log + [e])[i] == log[i];
  }

  lemma DeliveredNow(log: Log, e: Event)
    requires Succeeded(e)
    ensures Delivered(log + [e], e.key, e.generation, e.value)
  {
    assert (log + [e])[|log|] == e;
    assert Unbroken(log + [e], |log|);
  }

  /** The parts of the record that do not look at the members. */
  lemma RecordGrows(os: Os, members: Members, log: Log, latest: nat, e: Event, next: nat)
    requires Sound(os, members, log, latest) && Genuine(os, e) && latest <= next && Ends(e) <= next
    requires !e.Departed? ==> latest < Begins(e) <= Ends(e)
    requires e.Signalled? ==> (e.value == TERMINATE || e.value == KILL) && Vouched(log, e.scan, e.key, e.generation)
    requires forall i :: 0 <= i < |log| && Repeats(log[i], e) ==> !Unbroken(log, i)
    ensures var all := log + [e];
            Backed(all) && Separated(all) && Attested(os, all) && Ordered(all) && Timely(all, next) && Departures(members, all)
  {
    hide Backed, Separated, Attested, Ordered, Timely, Departures, Unbroken, Genuine, Keyed, OnePerPid, Tracked, Logged, Begins, Ends, Vouched;
    BackedGrows(log, e);
    SeparatedGrows(log, e);
    AttestedGrows(os, log, e);
    OrderedGrows(log, e, latest, next);
    DeparturesGrow(members, log, e);
  }

  /** What the members remember still agrees with a record that grew by an event. */
  lemma MemoryGrows(members: Members, log: Log, e: Event)
    requires Tracked(members, log) && Logged(members, log)
    requires !Succeeded(e)
    requires e.Certified? && e.key in members ==> members[e.key].token.Some? && members[e.key].token.value.generation == e.generation
    ensures Tracked(members, log + [e]) && Logged(members, log + [e])
  {
    hide Unbroken, Delivered;
    var all := log + [e];
    forall i | 0 <= i < |all| && Succeeded(all[i]) && Unbroken(all, i) ensures Remembers(members, all[i]) {
      assert all[|log|] == e;
      assert all[i] == log[i];
      UnbrokenPrefix(log, e, i);
    }
    forall k | k in members && members[k].sent != 0
      ensures members[k].token.Some? && Delivered(all, k, members[k].token.value.generation, members[k].sent)
    {
      DeliveredStays(log, e, k, members[k].token.value.generation, members[k].sent);
    }
  }

  function WithToken(m: Member, token: Token): Member {
    if m.token.Some? && m.token.value.generation != token.generation
    then m.(token := Some(token), sent := 0, esrchGeneration := None)
    else m.(token := Some(token))
  }

  /** Taking a new token, when its certification is recorded. */
  lemma RetokenRemembers(members: Members, log: Log, token: Token, e: Event)
    requires Tracked(members, log) && Logged(members, log) && KeyOf(token.identity) in members
    requires e.Certified? && e.key == KeyOf(token.identity) && e.generation == token.generation
    ensures var next := members[e.key := WithToken(members[e.key], token)]; Tracked(next, log + [e]) && Logged(next, log + [e])
  {
    hide Unbroken, Delivered;
    var next, all := members[e.key := WithToken(members[e.key], token)], log + [e];
    forall i | 0 <= i < |all| && Succeeded(all[i]) && Unbroken(all, i) ensures Remembers(next, all[i]) {
      assert all[|log|] == e;
      assert all[i] == log[i];
      UnbrokenPrefix(log, e, i);
      assert Remembers(members, log[i]);
    }
    forall k | k in next && next[k].sent != 0
      ensures next[k].token.Some? && Delivered(all, k, next[k].token.value.generation, next[k].sent)
    {
      assert members[k].sent != 0;
      DeliveredStays(log, e, k, next[k].token.value.generation, next[k].sent);
    }
  }

  /** Recording a certification: a member that holds a token takes the new one when it is retained,
      and forgets its last signal when the generation changed. */
  lemma CertificationKeepsSound(os: Os, members: Members, log: Log, latest: nat, token: Token, e: Event, next: nat)
    requires Sound(os, members, log, latest) && Genuine(os, e) && latest <= next
    requires e.Certified? && e.key == KeyOf(token.identity) && e.generation == token.generation && latest < e.first && e.second <= next
    ensures e.key in members ==> Sound(os, members[e.key := WithToken(members[e.key], token)], log + [e], next)
    ensures (e.key in members ==> members[e.key].token.Some? && members[e.key].token.value.generation == e.generation) ==>
              Sound(os, members, log + [e], next)
  {
    hide Unbroken, Backed, Separated, Keyed, OnePerPid, Attested, Left, Ordered, Timely, Tracked, Logged;
    RecordGrows(os, members, log, latest, e, next);
    if e.key in members {
      MemberFits(members, e.key);
      ReplaceKeepsShape(members, e.key, WithToken(members[e.key], token));
      RetokenRemembers(members, log, token, e);
    }
    if e.key in members ==> members[e.key].token.Some? && members[e.key].token.value.generation == e.generation {
      MemoryGrows(members, log, e);
    }
  }

  /** Recording a departure and marking the lifetime gone. */
  lemma DepartureKeepsSound(os: Os, members: Members, log: Log, latest: nat, e: Event, later: nat)
    requires Sound(os, members, log, latest) && Genuine(os, e) && e.Departed? && e.key in members && latest <= later && e.lookup <= later
    ensures Sound(os, members[e.key := members[e.key].(gone := true)], log + [e], later)
  {
    hide Unbroken, Backed, Separated, Genuine, Attested, Keyed, OnePerPid, Ordered, Timely, Delivered;
    var next, all := members[e.key := members[e.key].(gone := true)], log + [e];
    RecordGrows(os, members, log, latest, e, later);
    MemberFits(members, e.key);
    ReplaceKeepsShape(members, e.key, members[e.key].(gone := true));
    MemoryGrows(members, log, e);
    assert all[|log|] == e;
    forall i | 0 <= i < |all| && Succeeded(all[i]) && Unbroken(all, i) ensures Remembers(next, all[i]) {
      assert Remembers(members, all[i]);
    }
  }

  /** What the members remember after a signal. */
  lemma SignalRemembers(members: Members, log: Log, e: Event, n: Member)
    requires Tracked(members, log) && Logged(members, log) && e.Signalled? && e.key in members
    requires members[e.key].token.Some? && members[e.key].token.value.generation == e.generation && members[e.key].sent != e.value
    requires n.token == members[e.key].token && n.sent == if e.ok then e.value else members[e.key].sent
    ensures Tracked(members[e.key := n], log + [e]) && Logged(members[e.key := n], log + [e])
  {
    hide Unbroken, Delivered;
    var next, all := members[e.key := n], log + [e];
    assert all[|log|] == e;
    forall i | 0 <= i < |all| && Succeeded(all[i]) && Unbroken(all, i) ensures Remembers(next, all[i]) {
      if i < |log| {
        assert all[i] == log[i];
        UnbrokenPrefix(log, e, i);
        assert Remembers(members, log[i]);
      }
    }
    if e.ok {
      DeliveredNow(log, e);
    }
    forall k | k in next && next[k].sent != 0
      ensures next[k].token.Some? && Delivered(all, k, next[k].token.value.generation, next[k].sent)
    {
      if !(k == e.key && e.ok) {
        DeliveredStays(log, e, k, members[k].token.value.generation, members[k].sent);
      }
    }
  }

  /** A signal that is not the last one sent, with the member's token, keeps the record sound. */
  lemma SignalKeepsSound(os: Os, members: Members, log: Log, latest: nat, e: Event, n: Member, next: nat)
    requires Sound(os, members, log, latest) && e.Signalled? && Genuine(os, e) && e.key in members && latest < e.sent <= next
    requires members[e.key].token.Some? && members[e.key].token.value.generation == e.generation && members[e.key].sent != e.value
    requires (e.value == TERMINATE || e.value == KILL) && Vouched(log, e.scan, e.key, e.generation)
    requires n.token == members[e.key].token && n.facts == members[e.key].facts && n.gone == members[e.key].gone
    requires n.esrchGeneration == members[e.key].esrchGeneration || n.esrchGeneration == Some(e.generation)
    requires n.sent == if e.ok then e.value else members[e.key].sent
    ensures Sound(os, members[e.key := n], log + [e], next)
  {
    hide Unbroken, Backed, Separated, Genuine, Attested, Left, Vouched, Keyed, OnePerPid, Ordered, Timely, Logged;
    assert forall i :: 0 <= i < |log| && Succeeded(log[i]) && Unbroken(log, i) ==> Remembers(members, log[i]);
    RecordGrows(os, members, log, latest, e, next);
    MemberFits(members, e.key);
    ReplaceKeepsShape(members, e.key, n);
    SignalRemembers(members, log, e, n);
  }

  // --------------------------------------------------------- at most once

  /** The kernel never returns to an execution generation of a process once it granted another. */
  ghost predicate NeverReturns(os: Os) {
    forall pid: int, a: nat, b: nat, c: nat ::
      a < b < c && os.grant(a, pid) == os.grant(c, pid) && os.grant(b, pid).Some? && os.grant(a, pid).Some?
      && os.grant(a, pid).value.pid == os.grant(b, pid).value.pid == pid
      ==> os.grant(b, pid) == os.grant(a, pid)
  }

  /** Termination is tried before killing, never after. */
  ghost predicate Escalates(log: Log) {
    forall i, j :: 0 <= i < j < |log| && log[i].Signalled? && log[j].Signalled? && log[i].value == KILL ==> log[j].value == KILL
  }

  /** A certification of another generation between two events. */
  ghost predicate Returned(log: Log, i: nat, m: nat, j: nat)
    requires i < |log| && log[i].Signalled?
  {
    i < m < j <= |log| && log[m].Certified? && log[m].key == log[i].key && log[m].generation != log[i].generation
  }

  /** A signal that succeeds again was separated by the certification of another generation. */
  lemma RepetitionNeedsAReturn(log: Log, i: nat, j: nat) returns (m: nat)
    requires Separated(log) && Backed(log) && Escalates(log)
    requires i < j < |log| && Repeats(log[i], log[j])
    ensures Returned(log, i, m, j)
  {
    hide Vouched;
    var before := log[..j];
    assert before[i] == log[i];
    m :| i < m < |before| && before[m].key == before[i].key
         && !((before[m].Certified? ==> before[m].generation == before[i].generation) && (Succeeded(before[m]) ==> before[m].value == before[i].value));
    assert log[m] == before[m];
  }

  /** A return in the record is a return of the kernel's grants. */
  lemma ReturnsAreGranted(os: Os, log: Log, i: nat, m: nat, j: nat)
    requires Attested(os, log) && Ordered(log) && Backed(log)
    requires j < |log| && i < |log| && log[i].Signalled? && log[j].Signalled? && Returned(log, i, m, j)
    requires log[i].key == log[j].key && log[i].generation == log[j].generation
    ensures !NeverReturns(os)
  {
    var c, d := log[..i][|log[..i]| - 1], log[..j][|log[..j]| - 1];
    assert Vouched(log[..i], log[i].scan, log[i].key, log[i].generation) && Vouched(log[..j], log[j].scan, log[j].key, log[j].generation);
    assert c == log[i - 1] && d == log[j - 1];
    assert Genuine(os, log[i - 1]) && Genuine(os, log[m]) && Genuine(os, log[j - 1]);
    assert m != j - 1;
    assert Ends(log[i - 1]) < Begins(log[m]) && Ends(log[m]) < Begins(log[j - 1]);
    var pid, a, b, e := log[i].key.pid, c.second, log[m].first, d.first;
    assert a < b < e && os.grant(a, pid) == os.grant(e, pid) && os.grant(b, pid) != os.grant(a, pid);
  }

  /** Each phase's signal succeeds at most once per execution generation of a lifetime, under a
      kernel that does not return to a generation. */
  lemma SignalsSucceedOnce(os: Os, members: Members, log: Log, latest: nat, i: nat, j: nat)
    requires Sound(os, members, log, latest) && NeverReturns(os) && Escalates(log)
    requires i < j < |log| && Succeeded(log[i]) && Succeeded(log[j])
    requires log[i].key == log[j].key && log[i].generation == log[j].generation
    ensures log[i].value != log[j].value
  {
    hide NeverReturns, Separated, Backed, Attested, Ordered, Keyed, OnePerPid, Tracked, Departures, Logged, Timely;
    if Repeats(log[i], log[j]) {
      var m := RepetitionNeedsAReturn(log, i, j);
      ReturnsAreGranted(os, log, i, m, j);
    }
  }

  /** The token was certified in this scan. */
  ghost predicate CertifiedIn(log: Log, scan: nat, k: Key, generation: int) {
    exists i :: 0 <= i < |log| && log[i].Certified? && log[i].scan == scan && log[i].key == k && log[i].generation == generation
  }

  /** What a scan owes a lifetime: a token and, in a phase, a certification of it in this scan and the
      phase's signal delivered to its generation, unless the lifetime is going, a zombie or gone. */
  ghost predicate Served(members: Members, log: Log, scan: nat, k: Key, phase: Option<int>)
    requires k in members
  {
    var m := members[k];
    || m.gone || m.pending || m.facts.status == ZOMBIE
    || (m.token.Some? && (phase.Some? ==>
          && m.sent == phase.value
          && CertifiedIn(log, scan, k, m.token.value.generation)
          && (phase.value != 0 ==> Delivered(log, k, m.token.value.generation, phase.value))))
  }

  /** The other direction: a live lifetime that a phase served at a generation which had been
      signalled before another was certified has been signalled again. */
  lemma ReturningGenerationIsSignalledAgain(members: Members, log: Log, scan: nat, k: Key, value: int, i: nat, m: nat) returns (j: nat)
    requires k in members && !members[k].gone && !members[k].pending && members[k].facts.status != ZOMBIE
    requires Served(members, log, scan, k, Some(value)) && value != 0
    requires i < |log| && Succeeded(log[i]) && log[i].key == k && log[i].value == value
    requires members[k].token.Some? && log[i].generation == members[k].token.value.generation && Returned(log, i, m, |log|)
    ensures m < j < |log| && Repeats(log[i], log[j])
  {
    j :| 0 <= j < |log| && Succeeded(log[j]) && log[j].key == k && log[j].generation == members[k].token.value.generation
         && log[j].value == value && Unbroken(log, j);
  }

  // -------------------------------------------------------- quiet systems

  /** A system that runs one live process, answers every question about it at once and delivers
      every signal. */
  ghost predicate Quiet(os: Os, pid: int) {
    && (forall t: nat :: os.lapse(t) == 0)
    && (forall t: nat :: os.census(t) == Some([pid]))
    && os.bsd(0, pid).Ok? && os.bsd(0, pid).value.0 != ZOMBIE
    && (forall t: nat :: os.bsd(t, pid) == os.bsd(0, pid))
    && (forall t: nat :: os.session(t, pid) == Ok(pid))
    && (forall t: nat :: os.grant(t, pid).Some? && os.grant(t, pid).value.pid == pid)
    && (forall t: nat, token: Token, value: int :: os.signal(t, token, value) == 0)
    && (forall t: nat :: !os.rightFailed(t))
  }

  ghost function Home(os: Os, pid: int): Facts
    requires Quiet(os, pid)
  {
    Facts(pid, pid, os.bsd(0, pid).value.0, os.bsd(0, pid).value.1)
  }

  /** The process keeps its execution generation while these questions are asked. */
  ghost predicate Stable(os: Os, pid: int, since: nat, until: nat) {
    forall t: nat, u: nat :: since < t <= until && since < u <= until ==> os.grant(t, pid) == os.grant(u, pid)
  }

  /** At most that one process is retained, and nothing is amiss with it. */
  ghost predicate AtHome(os: Os, pid: int, members: Members)
    requires Quiet(os, pid)
  {
    forall k :: k in members ==>
      && k == KeyOf(Home(os, pid)) && members[k].facts == Home(os, pid)
      && !members[k].gone && !members[k].pending && members[k].esrchGeneration.None?
  }
}
