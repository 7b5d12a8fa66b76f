/** The message-reference check of the schema build step (rust/crates/asura-control/build.rs): a
    depth-first visit from every message type that refuses a schema with a recursive message. */
module SchemaCycle {

  /** edges[i] lists the message types that message i has fields of. */
  type Graph = seq<seq<nat>>

  predicate Resolved(edges: Graph) {
    forall i, k :: 0 <= i < |edges| && 0 <= k < |edges[i]| ==> edges[i][k] < |edges|
  }

  ghost predicate Path(edges: Graph, p: seq<nat>) {
    && p != []
    && (forall k :: 0 <= k < |p| ==> p[k] < |edges|)
    && (forall k :: 0 <= k < |p| - 1 ==> p[k + 1] in edges[p[k]])
  }

  /** A message that can contain itself. */
  ghost predicate Cycle(edges: Graph, p: seq<nat>) {
    Path(edges, p) && |p| >= 2 && p[0] == p[|p| - 1]
  }

  ghost predicate Acyclic(edges: Graph) {
    forall p :: Path(edges, p) ==> !Cycle(edges, p)
  }

  predicate NoRepeat(s: seq<nat>) {
    forall i, j :: 0 <= i < j < |s| ==> s[i] != s[j]
  }

  /** No path from a node meets the stack or itself. */
  ghost predicate Clear(edges: Graph, stack: seq<nat>, node: nat) {
    forall p :: Path(edges, p) && p[0] == node ==> NoRepeat(stack + p)
  }

  lemma {:induction false} NoRepeatIsBounded(s: seq<nat>, n: nat)
    requires NoRepeat(s) && forall k :: 0 <= k < |s| ==> s[k] < n
    ensures |s| <= n
  {
    if n == 0 {
      assert forall k :: k in s ==> 0 <= k < n;
    } else if n - 1 in s {
      var i :| 0 <= i < |s| && s[i] == n - 1;
      var rest := s[..i] + s[i + 1..];
      forall k | 0 <= k < |rest| ensures rest[k] < n - 1 {
        assert rest[k] == if k < i then s[k] else s[k + 1];
      }
      NoRepeatIsBounded(rest, n - 1);
    } else {
      forall k | 0 <= k < |s| ensures s[k] < n - 1 {
        assert s[k] in s;
      }
      NoRepeatIsBounded(s, n - 1);
    }
  }

  lemma PathTail(edges: Graph, p: seq<nat>)
    requires Path(edges, p) && |p| >= 2
    ensures Path(edges, p[1..]) && p[1] in edges[p[0]] && p == [p[0]] + p[1..]
  {
  }

  lemma PathCons(edges: Graph, node: nat, p: seq<nat>)
    requires node < |edges| && Path(edges, p) && p[0] in edges[node]
    ensures Path(edges, [node] + p)
  {
    var q := [node] + p;
    forall k | 0 <= k < |q| - 1 ensures q[k + 1] in edges[q[k]] {
      if k > 0 {
        assert p[k] in edges[p[k - 1]];
      }
    }
  }

  /** A node is clear exactly when it is not on the stack and all its children are clear below it. */
  lemma ClearStep(edges: Graph, stack: seq<nat>, node: nat)
    requires Resolved(edges) && node < |edges| && NoRepeat(stack)
    ensures Clear(edges, stack, node)
            <==> node !in stack && forall k :: 0 <= k < |edges[node]| ==> Clear(edges, stack + [node], edges[node][k])
  {
    if Clear(edges, stack, node) {
      assert Path(edges, [node]);
      ClearIsOffStack(stack, node);
      forall k | 0 <= k < |edges[node]| ensures Clear(edges, stack + [node], edges[node][k]) {
        forall p | Path(edges, p) && p[0] == edges[node][k] ensures NoRepeat(stack + [node] + p) {
          PathCons(edges, node, p);
          assert stack + [node] + p == stack + ([node] + p);
        }
      }
    }
    if node !in stack && forall k :: 0 <= k < |edges[node]| ==> Clear(edges, stack + [node], edges[node][k]) {
      forall p | Path(edges, p) && p[0] == node ensures NoRepeat(stack + p) {
        if |p| == 1 {
          assert p == [node];
        } else {
          PathTail(edges, p);
          var k :| 0 <= k < |edges[node]| && edges[node][k] == p[1];
          assert NoRepeat(stack + [node] + p[1..]);
          assert stack + p == stack + [node] + p[1..];
        }
      }
    }
  }

  lemma ClearIsOffStack(stack: seq<nat>, node: nat)
    requires NoRepeat(stack + [node])
    ensures node !in stack
  {
    var s := stack + [node];
    forall i | 0 <= i < |stack| ensures stack[i] != node {
      assert s[i] == stack[i] && s[|stack|] == node;
    }
  }

  lemma SubPath(edges: Graph, p: seq<nat>, i: nat, j: nat)
    requires Path(edges, p) && i < j < |p|
    ensures Path(edges, p[i..j + 1]) && p[i..j + 1][0] == p[i] && p[i..j + 1][j - i] == p[j]
  {
    var q := p[i..j + 1];
    forall k | 0 <= k < |q| - 1 ensures q[k + 1] in edges[q[k]] {
      assert p[i + k + 1] in edges[p[i + k]];
    }
  }

  /** Without a cycle no path repeats a message. */
  lemma PathsAreSimple(edges: Graph, p: seq<nat>)
    requires Acyclic(edges) && Path(edges, p)
    ensures NoRepeat([] + p)
  {
    hide Path;
    assert [] + p == p;
    forall i, j | 0 <= i < j < |p| ensures p[i] != p[j] {
      SubPath(edges, p, i, j);
    }
  }

  lemma SimpleIsAcyclic(edges: Graph, p: seq<nat>)
    requires Path(edges, p) && Clear(edges, [], p[0])
    ensures !Cycle(edges, p)
  {
    assert [] + p == p;
  }

  /** Some path repeats a message exactly when some path is a cycle. */
  lemma AcyclicIsSimple(edges: Graph)
    ensures Acyclic(edges) <==> forall node :: 0 <= node < |edges| ==> Clear(edges, [], node)
  {
    hide NoRepeat, Cycle;
    if Acyclic(edges) {
      forall node | 0 <= node < |edges| ensures Clear(edges, [], node) {
        forall p | Path(edges, p) && p[0] == node ensures NoRepeat([] + p) {
          PathsAreSimple(edges, p);
        }
      }
    }
    if forall node :: 0 <= node < |edges| ==> Clear(edges, [], node) {
      hide Clear;
      forall p | Path(edges, p) ensures !Cycle(edges, p) {
        SimpleIsAcyclic(edges, p);
      }
    }
  }

  class Visitor {
    var stack: seq<nat>

    constructor ()
      ensures stack == []
    {
      stack := [];
    }

    /** Visit a node and everything below it. The nodes off the stack run out, so it ends on every
        finite graph; a refusal leaves the stack where the repetition was found. */
    method Visit(node: nat, edges: Graph) returns (ok: bool)
      requires Resolved(edges) && node < |edges|
      requires NoRepeat(stack) && forall k :: 0 <= k < |stack| ==> stack[k] < |edges|
      modifies this
      ensures ok <==> Clear(edges, old(stack), node)
      ensures ok ==> stack == old(stack)
      decreases |edges| - |stack|
    {
      ClearStep(edges, stack, node);
      if node in stack {
        return false;
      }
      ghost var entered := stack + [node];
      assert NoRepeat(entered);
      NoRepeatIsBounded(entered, |edges|);
      stack := stack + [node];
      for k := 0 to |edges[node]|
        invariant stack == entered
        invariant forall j :: 0 <= j < k ==> Clear(edges, entered, edges[node][j])
      {
        var below := Visit(edges[node][k], edges);
        if !below {
          return false;
        }
      }
      stack := stack[..|stack| - 1];
      assert stack == old(stack);
      ok := true;
    }
  }

  /** The loop over every message type: it succeeds exactly when no message can contain itself. */
  method CheckSchema(edges: Graph) returns (ok: bool)
    requires Resolved(edges)
    ensures ok <==> Acyclic(edges)
  {
    AcyclicIsSimple(edges);
    for i := 0 to |edges|
      invariant forall j :: 0 <= j < i ==> Clear(edges, [], j)
    {
      var visitor := new Visitor();
      var clear := visitor.Visit(i, edges);
      if !clear {
        return false;
      }
    }
    ok := true;
  }
}
