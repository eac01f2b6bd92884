/**
 Directed graphs on nodes 0..n and a topological sort that succeeds exactly on the
 acyclic ones; stands for the graph library called by crates/nclav-graph/src/validate.rs.
 */
module Topology {
  import opened Prelude

  datatype Edge = Edge(from: nat, to: nat)

  ghost predicate InRange(edges: seq<Edge>, n: nat) {
    forall e :: e in edges ==> e.from < n && e.to < n
  }

  /** Each of the nodes 0..n, once. */
  ghost predicate ListsNodes(order: seq<nat>, n: nat) {
    && |order| == n
    && (forall i :: 0 <= i < n ==> order[i] < n)
    && Distinct(order)
  }

  ghost predicate Respects(order: seq<nat>, edges: seq<Edge>) {
    forall i, j :: 0 <= i < |order| && 0 <= j < |order| && Edge(order[i], order[j]) in edges ==> i < j
  }

  /** A walk along edges, at least one step long, that returns to where it began. */
  ghost predicate ClosedWalk(c: seq<nat>, edges: seq<Edge>) {
    && |c| >= 2 && c[0] == c[|c| - 1]
    && forall i :: 0 <= i < |c| - 1 ==> Edge(c[i], c[i + 1]) in edges
  }

  ghost predicate Cyclic(edges: seq<Edge>) {
    exists c :: ClosedWalk(c, edges)
  }

  ghost function Position(order: seq<nat>, v: nat): (i: nat)
    requires v in order
    ensures i < |order| && order[i] == v
  {
    var i :| 0 <= i < |order| && order[i] == v;
    i
  }

  ghost function Below(n: nat): (r: set<nat>)
    ensures |r| == n && forall v: nat :: v in r <==> v < n
  {
    if n == 0 then {} else Below(n - 1) + {n - 1}
  }

  lemma {:induction false} AllListed(order: seq<nat>, n: nat)
    requires ListsNodes(order, n)
    ensures forall v: nat :: v < n ==> v in order
  {
    DistinctExhausts(order, Below(n));
    forall v: nat | v < n ensures v in order {
      assert v in Below(n);
    }
  }

  /** An order that respects every edge leaves no room for a cycle. */
  lemma {:induction false} RespectsMeansAcyclic(order: seq<nat>, edges: seq<Edge>, n: nat)
    requires InRange(edges, n) && ListsNodes(order, n) && Respects(order, edges)
    ensures !Cyclic(edges)
  {
    AllListed(order, n);
    forall c | ClosedWalk(c, edges) ensures false {
      assert Edge(c[0], c[1]) in edges;
      PositionsRise(order, edges, n, c, |c| - 1);
    }
  }

  lemma {:induction false} PositionsRise(order: seq<nat>, edges: seq<Edge>, n: nat, c: seq<nat>, k: nat)
    requires InRange(edges, n) && ListsNodes(order, n) && Respects(order, edges)
    requires forall v: nat :: v < n ==> v in order
    requires |c| >= 2 && forall i :: 0 <= i < |c| - 1 ==> Edge(c[i], c[i + 1]) in edges
    requires 1 <= k < |c|
    ensures c[0] < n && c[k] < n && Position(order, c[0]) < Position(order, c[k])
  {
    assert Edge(c[k - 1], c[k]) in edges;
    assert Position(order, c[k - 1]) < Position(order, c[k]);
    if k > 1 {
      PositionsRise(order, edges, n, c, k - 1);
    }
  }

  ghost predicate HasPredecessor(v: nat, among: set<nat>, edges: seq<Edge>) {
    exists u :: u in among && Edge(u, v) in edges
  }

  /** Nodes that each have a predecessor among themselves contain a cycle. */
  lemma {:induction false} StuckMeansCyclic(stuck: set<nat>, edges: seq<Edge>)
    requires stuck != {} && forall v :: v in stuck ==> HasPredecessor(v, stuck, edges)
    ensures Cyclic(edges)
  {
    var v :| v in stuck;
    WalkBack(stuck, edges, [v]);
  }

  lemma {:induction false} WalkBack(stuck: set<nat>, edges: seq<Edge>, path: seq<nat>)
    requires forall v :: v in stuck ==> HasPredecessor(v, stuck, edges)
    requires path != [] && Distinct(path) && forall v :: v in path ==> v in stuck
    requires forall i :: 0 <= i < |path| - 1 ==> Edge(path[i], path[i + 1]) in edges
    ensures Cyclic(edges)
    decreases |stuck| - |path|
  {
    assert HasPredecessor(path[0], stuck, edges);
    var u :| u in stuck && Edge(u, path[0]) in edges;
    if u in path {
      CloseWalk(u, path, edges);
    } else {
      var longer := [u] + path;
      PathFits(longer, stuck);
      WalkBack(stuck, edges, longer);
    }
  }

  lemma {:induction false} CloseWalk(u: nat, path: seq<nat>, edges: seq<Edge>)
    requires u in path && Edge(u, path[0]) in edges
    requires forall i :: 0 <= i < |path| - 1 ==> Edge(path[i], path[i + 1]) in edges
    ensures Cyclic(edges)
  {
    var k :| 0 <= k < |path| && path[k] == u;
    var c := [u] + path[..k + 1];
    forall i | 0 <= i < |c| - 1 ensures Edge(c[i], c[i + 1]) in edges {
      if i > 0 {
        assert c[i] == path[i - 1] && c[i + 1] == path[i];
        assert Edge(path[i - 1], path[i - 1 + 1]) in edges;
      }
    }
    assert ClosedWalk(c, edges);
  }

  lemma {:induction false} PathFits(path: seq<nat>, among: set<nat>)
    requires Distinct(path) && forall v :: v in path ==> v in among
    ensures |path| <= |among|
  {
    CountDistinct(path);
    assert among == Elements(path) + (among - Elements(path));
  }

  /** Whether every edge into `v` starts at a node already placed. */
  predicate Ready(v: nat, placed: seq<nat>, edges: seq<Edge>) {
    v !in placed && forall e :: e in edges && e.to == v ==> e.from in placed
  }

  method TopoSort(n: nat, edges: seq<Edge>) returns (r: Option<seq<nat>>)
    requires InRange(edges, n)
    ensures r.Some? ==> ListsNodes(r.value, n) && Respects(r.value, edges)
    ensures r.None? <==> Cyclic(edges)
  {
    var order: seq<nat> := [];
    while |order| < n
      invariant |order| <= n
      invariant forall i :: 0 <= i < |order| ==> order[i] < n
      invariant Distinct(order)
      invariant Respects(order, edges)
      invariant forall e :: e in edges && e.to in order ==> e.from in order
    {
      var v := 0;
      while v < n && !Ready(v, order, edges)
        invariant v <= n
        invariant forall u :: 0 <= u < v ==> !Ready(u, order, edges)
      {
        v := v + 1;
      }
      if v == n {
        NoReadyNode(n, order, edges);
        return None;
      }
      assert Edge(v, v) !in edges;
      order := order + [v];
    }
    RespectsMeansAcyclic(order, edges, n);
    return Some(order);
  }

  lemma {:induction false} NoReadyNode(n: nat, order: seq<nat>, edges: seq<Edge>)
    requires InRange(edges, n) && |order| < n
    requires forall i :: 0 <= i < |order| ==> order[i] < n
    requires Distinct(order)
    requires forall u :: 0 <= u < n ==> !Ready(u, order, edges)
    ensures Cyclic(edges)
  {
    var stuck := Below(n) - Elements(order);
    CountDistinct(order);
    assert Elements(order) <= Below(n);
    assert Below(n) == Elements(order) + stuck;
    assert |stuck| > 0;
    forall v | v in stuck ensures HasPredecessor(v, stuck, edges) {
      assert !Ready(v, order, edges);
      var e :| e in edges && e.to == v && e.from !in order;
      assert e == Edge(e.from, v) && e.from in stuck;
    }
    StuckMeansCyclic(stuck, edges);
  }
}
