/** The entity store's path and domain hierarchies
    (experiments/policy-engine-spike/src/store.rs): insertion with an early exit, and the two
    encoders that describe the same hierarchy, one by parent edges and one by ancestor lists. */
module EntityStore {
  import opened Wrappers

  /** Paths climb to the containing directory, domains drop their first label. */
  datatype Tree = Paths | Domains

  /** A stored name. A domain has no class: its kind is always the ordinary one. */
  datatype Node = Node(kind: string, parent: Option<string>)

  const ORDINARY := "ordinary"

  function LastSlash(path: string): (at: Option<nat>)
    ensures at.Some? ==> at.value < |path| && path[at.value] == '/' && forall k :: at.value < k < |path| ==> path[k] != '/'
    ensures at.None? ==> '/' !in path
  {
    if path == "" then None
    else if path[|path| - 1] == '/' then Some(|path| - 1)
    else LastSlash(path[..|path| - 1])
  }

  function ParentPath(path: string): (parent: Option<string>)
    ensures parent.Some? ==> |parent.value| < |path|
  {
    if path == "/" then None
    else
      match LastSlash(path)
      case None => None
      case Some(i) => if i == 0 then Some("/") else Some(path[..i])
  }

  function FirstDot(domain: string): (at: Option<nat>)
    ensures at.Some? ==> at.value < |domain| && domain[at.value] == '.' && forall k :: 0 <= k < at.value ==> domain[k] != '.'
    ensures at.None? ==> '.' !in domain
  {
    if domain == "" then None
    else if domain[0] == '.' then Some(0)
    else
      match FirstDot(domain[1..])
      case None => None
      case Some(i) => Some(i + 1)
  }

  function ParentDomain(domain: string): (parent: Option<string>)
    ensures parent.Some? ==> |parent.value| < |domain|
  {
    match FirstDot(domain)
    case None => None
    case Some(i) => Some(domain[i + 1..])
  }

  function Parent(t: Tree, x: string): (parent: Option<string>)
    ensures parent.Some? ==> |parent.value| < |x|
  {
    match t
    case Paths => ParentPath(x)
    case Domains => ParentDomain(x)
  }

  /** The names on the way to the root, nearest first. */
  function Ancestors(t: Tree, x: string): (a: seq<string>)
    ensures forall k :: 0 <= k < |a| ==> |a[k]| < |x|
    decreases |x|
  {
    match Parent(t, x)
    case None => []
    case Some(p) => [p] + Ancestors(t, p)
  }

  /** A name and everything above it. */
  ghost function Lineage(t: Tree, x: string): set<string> {
    {x} + (set a | a in Ancestors(t, x))
  }

  // ---------------------------------------------------- what parents are

  /** The parent of a path is what stands before its last name, or the root; only the root and a path
      without a slash have none. */
  lemma PathParents(p: string, name: string, x: string)
    ensures p != "" && '/' !in name ==> ParentPath(p + "/" + name) == Some(p)
    ensures name != "" && '/' !in name ==> ParentPath("/" + name) == Some("/")
    ensures ParentPath(x).None? <==> x == "/" || '/' !in x
  {
    if '/' !in name {
      var long, short := p + "/" + name, "/" + name;
      LastSlashIs(long, |p|);
      LastSlashIs(short, 0);
      assert long[..|p|] == p;
    }
    if LastSlash(x).Some? {
      assert x[LastSlash(x).value] == '/';
    }
  }

  lemma LastSlashIs(path: string, at: nat)
    requires at < |path| && path[at] == '/' && forall k :: at < k < |path| ==> path[k] != '/'
    ensures LastSlash(path) == Some(at)
  {
    var found := LastSlash(path);
    assert found.Some?;
    assert path[found.value] == '/';
  }

  /** The parent of a domain is what follows its first label; only a single label has none. */
  lemma DomainParents(head: string, d: string, x: string)
    ensures '.' !in head ==> ParentDomain(head + "." + d) == Some(d)
    ensures ParentDomain(x).None? <==> '.' !in x
  {
    if '.' !in head {
      var long := head + "." + d;
      assert long[|head|] == '.' && long[|head| + 1..] == d;
      var found := FirstDot(long);
      assert found.Some?;
      assert long[found.value] == '.' && found.value <= |head|;
      assert forall k :: 0 <= k < |head| ==> long[k] == head[k];
    }
    if FirstDot(x).Some? {
      assert x[FirstDot(x).value] == '.';
    }
  }

  /** The prefix of a path that ends before one of its slashes. */
  ghost predicate Above(x: string, a: string) {
    exists i :: 0 < i < |x| && x[i] == '/' && a == x[..i]
  }

  /** A path and everything above it: itself, its prefixes that end before a slash and, if it is
      absolute, the root. */
  lemma {:induction false} PathLineage(x: string, a: string)
    ensures a in Lineage(Paths, x) <==> a == x || Above(x, a) || (a == "/" && x != "" && x[0] == '/')
    decreases |x|
  {
    hide Ancestors;
    LineageStep(Paths, x);
    var parent := ParentPath(x);
    if parent.Some? {
      PathLineage(parent.value, a);
      AboveStep(x, a);
    } else {
      PathParents("", "", x);
    }
  }

  lemma AboveStep(x: string, a: string)
    requires ParentPath(x).Some?
    ensures var p := ParentPath(x).value;
            a == x || Above(x, a) || (a == "/" && x[0] == '/')
            <==> a == x || a == p || Above(p, a) || (a == "/" && p[0] == '/')
    ensures ParentPath(x).value != "" && x != ""
  {
    var at, p := LastSlash(x).value, ParentPath(x).value;
    assert x[at] == '/';
    if at > 0 {
      assert forall i :: 0 < i < at ==> x[i] == p[i] && x[..i] == p[..i];
      assert p[0] == x[0];
    }
  }

  /** What follows one of a domain's dots. */
  ghost predicate Within(x: string, a: string) {
    exists i :: 0 <= i < |x| && x[i] == '.' && a == x[i + 1..]
  }

  /** A domain and everything above it: itself and what follows each of its dots. */
  lemma {:induction false} DomainLineage(x: string, a: string)
    ensures a in Lineage(Domains, x) <==> a == x || Within(x, a)
    decreases |x|
  {
    hide Ancestors;
    LineageStep(Domains, x);
    var parent := ParentDomain(x);
    if parent.Some? {
      DomainLineage(parent.value, a);
      WithinStep(x, a);
    } else {
      DomainParents("", "", x);
    }
  }

  lemma WithinStep(x: string, a: string)
    requires ParentDomain(x).Some?
    ensures var p := ParentDomain(x).value; Within(x, a) <==> a == p || Within(p, a)
  {
    var at, p := FirstDot(x).value, ParentDomain(x).value;
    assert x[at] == '.' && p == x[at + 1..];
    if Within(x, a) {
      var i :| 0 <= i < |x| && x[i] == '.' && a == x[i + 1..];
      if i > at {
        assert p[i - at - 1] == '.' && a == p[i - at..];
      }
    }
    if Within(p, a) {
      var i :| 0 <= i < |p| && p[i] == '.' && a == p[i + 1..];
      assert x[at + 1 + i] == '.' && a == x[at + 1 + i + 1..];
    }
  }

  // -------------------------------------------------- hierarchy as stored

  ghost predicate Faithful(t: Tree, m: map<string, Node>) {
    forall x :: x in m ==> m[x].parent == Parent(t, x)
  }

  /** Every stored name's parent is stored. */
  ghost predicate Closed(t: Tree, m: map<string, Node>) {
    forall x :: x in m && Parent(t, x).Some? ==> Parent(t, x).value in m
  }

  ghost predicate Stored(t: Tree, m: map<string, Node>) {
    Faithful(t, m) && Closed(t, m)
  }

  /** Walking all the way to the root, filling in only what is missing. */
  ghost function Filled(t: Tree, m: map<string, Node>, x: string): (r: map<string, Node>) {
    map a | a in m.Keys + Lineage(t, x) :: if a in m then m[a] else Node(ORDINARY, Parent(t, a))
  }

  /** A path also takes the given class, whether or not it was there. */
  ghost function WithPath(m: map<string, Node>, path: string, kind: string): map<string, Node> {
    Filled(Paths, m[path := Node(kind, Parent(Paths, path))], path)
  }

  lemma {:induction false} AncestorsAreStored(t: Tree, m: map<string, Node>, x: string)
    requires Closed(t, m) && x in m
    ensures forall a :: a in Ancestors(t, x) ==> a in m
    decreases |x|
  {
    if Parent(t, x).Some? {
      AncestorsAreStored(t, m, Parent(t, x).value);
    }
  }

  /** Stopping at the first name that was stored gives what the full walk gives: everything above
      it was stored too. */
  lemma EarlyExitIsComplete(t: Tree, base: map<string, Node>, m: map<string, Node>, x: string)
    requires Closed(t, base) && x in base && base.Keys <= m.Keys
    ensures Filled(t, m, x) == m
  {
    AncestorsAreStored(t, base, x);
  }

  /** The stored parent leads to the rest of the way. */
  lemma NextAncestor(t: Tree, m: map<string, Node>, x: string)
    requires Stored(t, m) && x in m
    ensures m[x].parent.None? ==> Ancestors(t, x) == []
    ensures m[x].parent.Some? ==> m[x].parent.value in m && |m[x].parent.value| < |x|
                                  && Ancestors(t, x) == [m[x].parent.value] + Ancestors(t, m[x].parent.value)
  {
    hide Parent;
  }

  lemma LineageStep(t: Tree, x: string)
    ensures Lineage(t, x) == if Parent(t, x).Some? then {x} + Lineage(t, Parent(t, x).value) else {x}
  {
    hide Parent;
    if Parent(t, x).Some? {
      assert Ancestors(t, x) == [Parent(t, x).value] + Ancestors(t, Parent(t, x).value);
    } else {
      assert Ancestors(t, x) == [];
    }
  }

  lemma FilledStep(t: Tree, m: map<string, Node>, x: string)
    requires x !in m
    ensures var m' := m[x := Node(ORDINARY, Parent(t, x))];
            Filled(t, m, x) == if Parent(t, x).Some? then Filled(t, m', Parent(t, x).value) else m'
  {
    hide Parent, Ancestors, Lineage;
    LineageStep(t, x);
  }

  lemma {:induction false} LineageIsClosed(t: Tree, x: string, a: string)
    requires a in Lineage(t, x) && Parent(t, a).Some?
    ensures Parent(t, a).value in Lineage(t, x)
    decreases |x|
  {
    if a == x {
      assert Ancestors(t, x)[0] == Parent(t, x).value;
    } else {
      var p := Parent(t, x).value;
      assert Ancestors(t, x) == [p] + Ancestors(t, p);
      LineageIsClosed(t, p, a);
    }
  }

  lemma FilledIsStored(t: Tree, m: map<string, Node>, base: map<string, Node>, x: string)
    requires Stored(t, base) && Faithful(t, m) && m.Keys <= base.Keys + {x}
    requires base.Keys <= m.Keys
    ensures Stored(t, Filled(t, m, x))
  {
    var r := Filled(t, m, x);
    forall a | a in r && Parent(t, a).Some? ensures Parent(t, a).value in r {
      if a in Lineage(t, x) {
        LineageIsClosed(t, x, a);
      }
    }
  }

  // ------------------------------------------------------ insertion runs

  datatype Insertion = AddPath(path: string, kind: string) | AddDomain(domain: string)

  datatype Hierarchies = Hierarchies(paths: map<string, Node>, domains: map<string, Node>)

  ghost function Inserted(s: Hierarchies, op: Insertion): Hierarchies {
    match op
    case AddPath(path, kind) => s.(paths := WithPath(s.paths, path, kind))
    case AddDomain(domain) => s.(domains := Filled(Domains, s.domains, domain))
  }

  ghost function Built(ops: seq<Insertion>): Hierarchies {
    if ops == [] then Hierarchies(map[], map[]) else Inserted(Built(ops[..|ops| - 1]), ops[|ops| - 1])
  }

  ghost predicate Valid(s: Hierarchies) {
    Stored(Paths, s.paths) && Stored(Domains, s.domains)
  }

  lemma InsertedIsValid(s: Hierarchies, op: Insertion)
    requires Valid(s)
    ensures Valid(Inserted(s, op))
  {
    match op
    case AddPath(path, kind) =>
      FilledIsStored(Paths, s.paths[path := Node(kind, Parent(Paths, path))], s.paths, path);
    case AddDomain(domain) =>
      FilledIsStored(Domains, s.domains, s.domains, domain);
  }

  /** The store built by any sequence of insertions is ancestor-closed and faithful. */
  lemma {:induction false} BuiltIsValid(ops: seq<Insertion>)
    ensures Valid(Built(ops))
  {
    if ops != [] {
      BuiltIsValid(ops[..|ops| - 1]);
      InsertedIsValid(Built(ops[..|ops| - 1]), ops[|ops| - 1]);
    }
  }

  /** What one insertion does to one name. */
  lemma InsertedAt(s: Hierarchies, op: Insertion, x: string)
    ensures x in Inserted(s, op).paths <==> x in s.paths || Mentions(op, Paths, x)
    ensures x in Inserted(s, op).domains <==> x in s.domains || Mentions(op, Domains, x)
    ensures x in Inserted(s, op).paths ==>
              Inserted(s, op).paths[x]
              == (if op.AddPath? && op.path == x then Node(op.kind, Parent(Paths, x))
                  else if x in s.paths then s.paths[x] else Node(ORDINARY, Parent(Paths, x)))
    ensures x in Inserted(s, op).domains ==>
              Inserted(s, op).domains[x] == (if x in s.domains then s.domains[x] else Node(ORDINARY, Parent(Domains, x)))
    ensures op.AddPath? ==> op.path in Inserted(s, op).paths
  {
    hide Parent, Ancestors;
  }

  /** Insertions commute exactly when they do not give one path two classes. */
  lemma InsertionsCommute(s: Hierarchies, a: Insertion, b: Insertion)
    ensures Inserted(Inserted(s, a), b) == Inserted(Inserted(s, b), a)
            <==> (a.AddPath? && b.AddPath? && a.path == b.path ==> a.kind == b.kind)
  {
    hide Parent, Inserted, Mentions;
    var ab, ba := Inserted(Inserted(s, a), b), Inserted(Inserted(s, b), a);
    forall x: string
      ensures (x in ab.paths <==> x in ba.paths) && (x in ab.domains <==> x in ba.domains)
      ensures x in ab.domains ==> ab.domains[x] == ba.domains[x]
      ensures x in ab.paths && !(a.AddPath? && b.AddPath? && a.path == b.path == x && a.kind != b.kind) ==> ab.paths[x] == ba.paths[x]
    {
      InsertedAt(s, a, x);
      InsertedAt(s, b, x);
      InsertedAt(Inserted(s, a), b, x);
      InsertedAt(Inserted(s, b), a, x);
    }
    if a.AddPath? && b.AddPath? && a.path == b.path && a.kind != b.kind {
      InsertedAt(Inserted(s, a), b, a.path);
      InsertedAt(Inserted(s, b), a, a.path);
      assert ab.paths[a.path] != ba.paths[a.path];
    } else {
      assert ab.paths == ba.paths && ab.domains == ba.domains;
    }
  }

  /** The class a path was last given, if it was ever inserted itself. */
  ghost function LastKind(ops: seq<Insertion>, x: string): Option<string> {
    if ops == [] then None
    else
      var last := ops[|ops| - 1];
      if last.AddPath? && last.path == x then Some(last.kind) else LastKind(ops[..|ops| - 1], x)
  }

  ghost predicate Mentions(op: Insertion, t: Tree, x: string) {
    match op
    case AddPath(path, _) => t.Paths? && x in Lineage(Paths, path)
    case AddDomain(domain) => t.Domains? && x in Lineage(Domains, domain)
  }

  /** What a run of insertions leaves, name by name: exactly the inserted names and everything
      above them, each path with the class it was last given, or ordinary. */
  lemma {:induction false} BuiltContents(ops: seq<Insertion>, x: string)
    ensures x in Built(ops).paths <==> exists i :: 0 <= i < |ops| && Mentions(ops[i], Paths, x)
    ensures x in Built(ops).domains <==> exists i :: 0 <= i < |ops| && Mentions(ops[i], Domains, x)
    ensures x in Built(ops).paths ==>
              Built(ops).paths[x] == Node(if LastKind(ops, x).Some? then LastKind(ops, x).value else ORDINARY, Parent(Paths, x))
    ensures x in Built(ops).domains ==> Built(ops).domains[x] == Node(ORDINARY, Parent(Domains, x))
    ensures LastKind(ops, x).Some? ==> x in Built(ops).paths
  {
    hide Parent, Inserted, Mentions;
    if ops != [] {
      var before, last := ops[..|ops| - 1], ops[|ops| - 1];
      BuiltContents(before, x);
      InsertedAt(Built(before), last, x);
      MentionsSplit(ops, Paths, x);
      MentionsSplit(ops, Domains, x);
    }
  }

  lemma MentionsSplit(ops: seq<Insertion>, t: Tree, x: string)
    requires ops != []
    ensures var before := ops[..|ops| - 1];
            (exists i :: 0 <= i < |ops| && Mentions(ops[i], t, x))
            <==> (exists i :: 0 <= i < |before| && Mentions(before[i], t, x)) || Mentions(ops[|ops| - 1], t, x)
  {
    hide Mentions;
    var before := ops[..|ops| - 1];
    if exists i :: 0 <= i < |ops| && Mentions(ops[i], t, x) {
      var i :| 0 <= i < |ops| && Mentions(ops[i], t, x);
      assert i < |before| ==> before[i] == ops[i];
    }
    if exists i :: 0 <= i < |before| && Mentions(before[i], t, x) {
      var i :| 0 <= i < |before| && Mentions(before[i], t, x);
      assert ops[i] == before[i];
    }
  }

  // ------------------------------------------------------------ encoders

  /** An edge of the hierarchy given to Cedar. */
  ghost predicate Edge(m: map<string, Node>, x: string, y: string) {
    x in m && m[x].parent == Some(y)
  }

  /** A walk along one or more parent edges. */
  ghost predicate Walk(m: map<string, Node>, w: seq<string>, x: string, y: string) {
    |w| >= 2 && w[0] == x && w[|w| - 1] == y && forall k :: 0 <= k < |w| - 1 ==> Edge(m, w[k], w[k + 1])
  }

  lemma {:induction false} AncestorsHaveWalks(t: Tree, m: map<string, Node>, x: string, y: string) returns (w: seq<string>)
    requires Stored(t, m) && x in m && y in Ancestors(t, x)
    ensures Walk(m, w, x, y)
    decreases |x|
  {
    var p := Parent(t, x).value;
    assert Edge(m, x, p);
    if y == p {
      w := [x, p];
    } else {
      var rest := AncestorsHaveWalks(t, m, p, y);
      w := [x] + rest;
      forall k | 0 <= k < |w| - 1 ensures Edge(m, w[k], w[k + 1]) {
        if k > 0 {
          assert Edge(m, rest[k - 1], rest[k]);
        }
      }
    }
  }

  lemma {:induction false} WalksReachAncestors(t: Tree, m: map<string, Node>, w: seq<string>, x: string, y: string)
    requires Faithful(t, m) && Walk(m, w, x, y)
    ensures y in Ancestors(t, x)
    decreases |w|
  {
    assert Edge(m, w[0], w[1]);
    assert Ancestors(t, x) == [w[1]] + Ancestors(t, w[1]);
    if |w| > 2 {
      var rest := w[1..];
      forall k | 0 <= k < |rest| - 1 ensures Edge(m, rest[k], rest[k + 1]) {
        assert Edge(m, w[k + 1], w[k + 2]);
      }
      WalksReachAncestors(t, m, rest, w[1], y);
    }
  }

  /** The ancestor list given to Rego names exactly the nodes reachable by the parent edges given
      to Cedar, each once, nearest first. */
  lemma EncodersAgree(t: Tree, m: map<string, Node>, x: string, y: string)
    requires Stored(t, m) && x in m
    ensures y in Ancestors(t, x) <==> exists w :: Walk(m, w, x, y)
    ensures y in Ancestors(t, x) ==> y in m
    ensures forall i, j :: 0 <= i < j < |Ancestors(t, x)| ==> |Ancestors(t, x)[j]| < |Ancestors(t, x)[i]|
  {
    if y in Ancestors(t, x) {
      var w := AncestorsHaveWalks(t, m, x, y);
    }
    forall w | Walk(m, w, x, y) ensures y in Ancestors(t, x) {
      WalksReachAncestors(t, m, w, x, y);
    }
    AncestorsAreStored(t, m, x);
    AncestorsShrink(t, x);
  }

  lemma {:induction false} AncestorsShrink(t: Tree, x: string)
    ensures forall i, j :: 0 <= i < j < |Ancestors(t, x)| ==> |Ancestors(t, x)[j]| < |Ancestors(t, x)[i]|
    decreases |x|
  {
    if Parent(t, x).Some? {
      AncestorsShrink(t, Parent(t, x).value);
    }
  }

  // --------------------------------------------------------------- store

  class Store {
    var paths: map<string, Node>
    var domains: map<string, Node>

    ghost function Contents(): Hierarchies
      reads this
    {
      Hierarchies(paths, domains)
    }

    constructor ()
      ensures Contents() == Built([])
    {
      paths, domains := map[], map[];
    }

    /** Add a path and its missing ancestors, stopping at the first one already there. */
    method AddPath(path: string, kind: string)
      requires Valid(Contents())
      modifies this`paths
      ensures Contents() == Inserted(old(Contents()), Insertion.AddPath(path, kind)) && Valid(Contents())
    {
      InsertedIsValid(Contents(), Insertion.AddPath(path, kind));
      ghost var start := paths[path := Node(kind, Parent(Paths, path))];
      var cur, first := Some(path), true;
      while cur.Some?
        invariant first ==> cur == Some(path) && paths == old(paths)
        invariant !first && cur.Some? ==> |cur.value| < |path| && Filled(Paths, paths, cur.value) == Filled(Paths, start, path)
        invariant !first && cur.None? ==> paths == Filled(Paths, start, path)
        invariant !first && cur.Some? ==> forall x :: x in paths ==> x in old(paths) || |x| > |cur.value|
        invariant !first && cur.Some? ==> forall x :: x in old(paths) ==> x in paths
        decreases if cur.Some? then |cur.value| + 1 else 0
      {
        var p := cur.value;
        var parent := ParentPath(p);
        if first {
          PathStep(old(paths), path, kind);
          paths := paths[p := Node(kind, parent)];
          first := false;
        } else if p in paths {
          EarlyExitIsComplete(Paths, old(paths), paths, p);
          break;
        } else {
          FilledStep(Paths, paths, p);
          paths := paths[p := Node(ORDINARY, parent)];
        }
        cur := parent;
      }
    }

    method AddDomain(domain: string)
      requires Valid(Contents())
      modifies this`domains
      ensures Contents() == Inserted(old(Contents()), Insertion.AddDomain(domain)) && Valid(Contents())
    {
      InsertedIsValid(Contents(), Insertion.AddDomain(domain));
      var cur := Some(domain);
      while cur.Some?
        invariant cur.Some? ==> Filled(Domains, domains, cur.value) == Filled(Domains, old(domains), domain)
        invariant cur.None? ==> domains == Filled(Domains, old(domains), domain)
        invariant cur.Some? ==> forall x :: x in domains ==> x in old(domains) || |x| > |cur.value|
        invariant cur.Some? ==> forall x :: x in old(domains) ==> x in domains
        decreases if cur.Some? then |cur.value| + 1 else 0
      {
        var d := cur.value;
        if d in domains {
          EarlyExitIsComplete(Domains, old(domains), domains, d);
          break;
        }
        FilledStep(Domains, domains, d);
        var parent := ParentDomain(d);
        domains := domains[d := Node(ORDINARY, parent)];
        cur := parent;
      }
    }

    /** The ancestor list of the Rego document, following the stored parents. */
    method AncestorList(t: Tree, x: string) returns (list: seq<string>)
      requires Valid(Contents()) && x in (if t.Paths? then paths else domains)
      ensures list == Ancestors(t, x)
    {
      var m := if t.Paths? then paths else domains;
      assert Stored(t, m);
      NextAncestor(t, m, x);
      hide *;
      list := [];
      var cur := m[x].parent;
      while cur.Some?
        invariant cur.Some? ==> cur.value in m && list + [cur.value] + Ancestors(t, cur.value) == Ancestors(t, x)
        invariant cur.None? ==> list == Ancestors(t, x)
        decreases if cur.Some? then |cur.value| + 1 else 0
      {
        var p := cur.value;
        NextAncestor(t, m, p);
        cur := m[p].parent;
        list := list + [p];
      }
    }
  }

  lemma PathStep(m: map<string, Node>, path: string, kind: string)
    ensures var start := m[path := Node(kind, Parent(Paths, path))];
            Filled(Paths, start, path)
            == if Parent(Paths, path).Some? then Filled(Paths, start, Parent(Paths, path).value) else start
  {
    hide Parent, Ancestors, Lineage;
    LineageStep(Paths, path);
  }
}
