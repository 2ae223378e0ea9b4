/** The cycle check of submit_workflow: Kahn's algorithm over a multigraph on node indices. */
module Kahn {
  import opened Graphs

  type Edge = (nat, nat)

  predicate InRange(n: nat, edges: seq<Edge>) {
    forall e <- edges :: e.0 < n && e.1 < n
  }

  ghost function EdgeSet(edges: seq<Edge>): set<Edge> {
    Elems<Edge>(edges)
  }

  /** The multigraph has a directed cycle. */
  ghost predicate Cyclic(edges: seq<Edge>) {
    HasCycle<nat>(EdgeSet(edges))
  }

  /** Targets of the edges leaving `u`, in edge order, with repetitions: the list adj[u]. */
  function Targets(edges: seq<Edge>, u: nat): (ts: seq<nat>)
    ensures forall v <- ts :: (u, v) in edges
  {
    if edges == [] then []
    else
      var e := edges[|edges| - 1];
      Targets(edges[..|edges| - 1], u) + (if e.0 == u then [e.1] else [])
  }

  /** Number of edges into `m` (with repetitions) whose source is not yet in `done`. */
  ghost function Unmet(edges: seq<Edge>, done: set<nat>, m: nat): nat {
    if edges == [] then 0
    else
      var e := edges[|edges| - 1];
      Unmet(edges[..|edges| - 1], done, m) + (if e.1 == m && e.0 !in done then 1 else 0)
  }

  ghost function Count(s: seq<nat>, m: nat): nat {
    if s == [] then 0 else Count(s[..|s| - 1], m) + (if s[|s| - 1] == m then 1 else 0)
  }

  lemma {:induction false} CountAppend(s: seq<nat>, t: seq<nat>, m: nat)
    ensures Count(s + t, m) == Count(s, m) + Count(t, m)
  {
    if t == [] {
      assert s + t == s;
    } else {
      assert (s + t)[..|s + t| - 1] == s + t[..|t| - 1];
      CountAppend(s, t[..|t| - 1], m);
    }
  }

  /** Finishing node `u` meets exactly the edges listed in adj[u]. */
  lemma {:induction false} UnmetAfter(edges: seq<Edge>, done: set<nat>, u: nat, m: nat)
    requires u !in done
    ensures Unmet(edges, done, m) == Unmet(edges, done + {u}, m) + Count(Targets(edges, u), m)
  {
    if edges != [] {
      var e := edges[|edges| - 1];
      UnmetAfter(edges[..|edges| - 1], done, u, m);
      CountAppend(Targets(edges[..|edges| - 1], u), if e.0 == u then [e.1] else [], m);
      assert Count([e.1], m) == Count([], m) + (if e.1 == m then 1 else 0) by { assert [e.1][..0] == []; }
    }
  }

  lemma {:induction false} UnmetZero(edges: seq<Edge>, done: set<nat>, m: nat)
    ensures Unmet(edges, done, m) == 0 <==> forall e <- edges :: e.1 == m ==> e.0 in done
  {
    if edges != [] {
      var init := edges[..|edges| - 1];
      UnmetZero(init, done, m);
      assert edges == init + [edges[|edges| - 1]];
    }
  }

  lemma {:induction false} CountAt(s: seq<nat>, k: nat)
    requires k < |s|
    ensures Count(s, s[k]) >= Count(s[..k], s[k]) + 1
  {
    assert s == s[..k] + s[k..];
    CountAppend(s[..k], s[k..], s[k]);
    assert s[k..] == [s[k]] + s[k + 1..];
    CountAppend([s[k]], s[k + 1..], s[k]);
    assert [s[k]][..0] == [];
  }

  /** Every edge into order[i] starts inside order[..i]. */
  ghost predicate TopoPrefix(edges: seq<Edge>, order: seq<nat>) {
    forall i, e :: 0 <= i < |order| && e in edges && e.1 == order[i] ==> e.0 in order[..i]
  }

  method BuildGraph(n: nat, edges: seq<Edge>) returns (adj: seq<seq<nat>>, indegree: seq<nat>)
    requires InRange(n, edges)
    ensures |adj| == |indegree| == n
    ensures forall u :: 0 <= u < n ==> adj[u] == Targets(edges, u)
    ensures forall m :: 0 <= m < n ==> indegree[m] == Unmet(edges, {}, m)
  {
    adj := seq(n, _ => []);
    indegree := seq(n, _ => 0);
    for i := 0 to |edges|
      invariant |adj| == |indegree| == n
      invariant forall u :: 0 <= u < n ==> adj[u] == Targets(edges[..i], u)
      invariant forall m :: 0 <= m < n ==> indegree[m] == Unmet(edges[..i], {}, m)
    {
      var e := edges[i];
      assert e in edges;
      assert edges[..i + 1][..i] == edges[..i];
      adj := adj[e.0 := adj[e.0] + [e.1]];
      indegree := indegree[e.1 := indegree[e.1] + 1];
    }
    assert edges[..|edges|] == edges;
  }

  /** Ready nodes and finished nodes are exactly those without unmet edges. */
  ghost predicate Frontier(edges: seq<Edge>, deg: seq<nat>, ready: seq<nat>, order: seq<nat>) {
    && Distinct(order + ready)
    && (forall m <- order + ready :: m < |deg|)
    && (forall m :: 0 <= m < |deg| ==> (deg[m] == 0 <==> m in order + ready))
  }

  /** The inner loop: lower the degree of every target of `u`, collecting those that reach zero. */
  method MeetTargets(edges: seq<Edge>, adj: seq<nat>, deg0: seq<nat>, ready0: seq<nat>, u: nat, ghost order: seq<nat>)
    returns (deg: seq<nat>, ready: seq<nat>)
    requires InRange(|deg0|, edges) && adj == Targets(edges, u)
    requires u !in order && u < |deg0|
    requires Frontier(edges, deg0, ready0, order + [u])
    requires forall m :: 0 <= m < |deg0| ==> deg0[m] == Unmet(edges, Elems(order), m)
    ensures |deg| == |deg0| && Frontier(edges, deg, ready, order + [u])
    ensures forall m :: 0 <= m < |deg| ==> deg[m] == Unmet(edges, Elems(order + [u]), m)
  {
    deg, ready := deg0, ready0;
    ghost var done := Elems(order);
    assert Elems(order + [u]) == done + {u};
    for k := 0 to |adj|
      invariant |deg| == |deg0|
      invariant Frontier(edges, deg, ready, order + [u])
      invariant forall m :: 0 <= m < |deg| ==> deg[m] + Count(adj[..k], m) == deg0[m]
    {
      var m := adj[k];
      assert (u, m) in edges;
      UnmetAfter(edges, done, u, m);
      CountAt(adj, k);
      assert adj[..k + 1][..k] == adj[..k];
      deg := deg[m := deg[m] - 1];
      if deg[m] == 0 {
        ghost var was := order + [u] + ready;
        assert m !in was;
        ready := ready + [m];
        assert order + [u] + ready == was + [m];
      }
    }
    assert adj[..|adj|] == adj;
    forall m | 0 <= m < |deg| ensures deg[m] == Unmet(edges, Elems(order + [u]), m) {
      UnmetAfter(edges, done, u, m);
    }
  }

  /** Visits every node exactly when the multigraph has no directed cycle. */
  method CountOrderable(n: nat, edges: seq<Edge>, adj: seq<seq<nat>>, indegree: seq<nat>)
    returns (visited: nat, ghost order: seq<nat>)
    requires InRange(n, edges) && |adj| == |indegree| == n
    requires forall u :: 0 <= u < n ==> adj[u] == Targets(edges, u)
    requires forall m :: 0 <= m < n ==> indegree[m] == Unmet(edges, {}, m)
    ensures visited == n <==> !Cyclic(edges)
    ensures visited == |order| && Distinct(order) && (forall m <- order :: m < n) && TopoPrefix(edges, order)
  {
    var deg := indegree;
    var ready: seq<nat> := [];
    order := [];
    for i := 0 to n
      invariant Distinct(ready)
      invariant forall k :: 0 <= k < |ready| ==> ready[k] < i
      invariant forall m :: 0 <= m < i ==> (deg[m] == 0 <==> m in ready)
    {
      if deg[i] == 0 {
        ready := ready + [i];
      }
    }
    assert order + ready == ready;
    visited := 0;
    assert Elems(order) == {};
    while ready != []
      invariant |deg| == n && visited == |order|
      invariant Frontier(edges, deg, ready, order)
      invariant forall m :: 0 <= m < n ==> deg[m] == Unmet(edges, Elems(order), m)
      invariant TopoPrefix(edges, order)
      decreases n - visited
    {
      var u := ready[0];
      assert (order + ready)[|order|] == u && u in order + ready;
      assert u !in order by {
        forall i | 0 <= i < |order| ensures order[i] != u { assert (order + ready)[i] == order[i]; }
      }
      UnmetZero(edges, Elems(order), u);
      assert order + [u] + ready[1..] == order + ready;
      ready := ready[1..];
      visited := visited + 1;
      deg, ready := MeetTargets(edges, adj[u], deg, ready, u, order);
      ExtendTopo(edges, order, u);
      order := order + [u];
      OrderFits(n, order, ready);
    }
    assert order + ready == order;
    Verdict(n, edges, deg, order);
  }

  lemma ExtendTopo(edges: seq<Edge>, order: seq<nat>, u: nat)
    requires TopoPrefix(edges, order)
    requires forall e <- edges :: e.1 == u ==> e.0 in Elems(order)
    ensures TopoPrefix(edges, order + [u])
  {
    var next := order + [u];
    forall i, e | 0 <= i < |next| && e in edges && e.1 == next[i] ensures e.0 in next[..i] {
      if i < |order| {
        assert e.0 in order[..i];
        assert next[..i] == order[..i];
      } else {
        assert next[..i] == order;
      }
    }
  }

  lemma OrderFits(n: nat, order: seq<nat>, ready: seq<nat>)
    requires Distinct(order + ready) && forall m <- order + ready :: m < n
    ensures |order| <= n && Distinct(order)
  {
    var all := Below(n);
    assert Distinct(order) by {
      forall i, j | 0 <= i < j < |order| ensures order[i] != order[j] {
        assert (order + ready)[i] == order[i] && (order + ready)[j] == order[j];
      }
    }
    assert forall m <- order :: m in all by {
      forall i | 0 <= i < |order| ensures order[i] in all { assert order[i] in order + ready; }
    }
    DistinctSize(order, all);
  }

  ghost function Below(n: nat): (r: set<nat>)
    ensures |r| == n && forall m: nat :: m in r <==> m < n
  {
    if n == 0 then {} else Below(n - 1) + {n - 1}
  }

  lemma Verdict(n: nat, edges: seq<Edge>, deg: seq<nat>, order: seq<nat>)
    requires InRange(n, edges) && |deg| == n
    requires Frontier(edges, deg, [], order)
    requires forall m :: 0 <= m < n ==> deg[m] == Unmet(edges, Elems(order), m)
    requires TopoPrefix(edges, order)
    ensures |order| == n <==> !Cyclic(edges)
    ensures Distinct(order) && forall m <- order :: m < n
  {
    assert order + [] == order;
    OrderFits(n, order, []);
    var all := Below(n);
    var left := all - Elems(order);
    DistinctMembers(order);
    assert Elems(order) <= all;
    assert |all| == |Elems(order)| + |left| by { assert all == Elems(order) + left; }
    if left == {} {
      TopoOrderRanks(n, edges, order);
      RankedIsAcyclic<nat>(EdgeSet(edges));
    } else {
      forall v <- left ensures HasPredecessor<nat>(EdgeSet(edges), left, v) {
        UnmetZero(edges, Elems(order), v);
        assert deg[v] != 0;
        var e :| e in edges && e.1 == v && e.0 !in Elems(order);
        assert e.0 in left && (e.0, v) in EdgeSet(edges);
      }
      CycleFromPredecessors<nat>(EdgeSet(edges), left);
    }
  }

  lemma {:induction false} DistinctMembers(p: seq<nat>)
    requires Distinct(p)
    ensures |Elems(p)| == |p|
  {
    if p != [] {
      var init := p[..|p| - 1];
      DistinctMembers(init);
      assert Elems(p) == Elems(init) + {p[|p| - 1]};
      assert p[|p| - 1] !in init;
    }
  }

  ghost function Position(order: seq<nat>, m: nat): (i: nat)
    requires m in order
    ensures i < |order| && order[i] == m
  {
    var i :| 0 <= i < |order| && order[i] == m; i
  }

  /** A topological order of all nodes ranks the graph. */
  lemma TopoOrderRanks(n: nat, edges: seq<Edge>, order: seq<nat>)
    requires InRange(n, edges) && Distinct(order) && TopoPrefix(edges, order)
    requires Below(n) <= Elems(order)
    ensures Ranked<nat>(EdgeSet(edges))
    ensures Ranks<nat>(EdgeSet(edges), map m | m in Elems(order) :: Position(order, m))
  {
    var rank: map<nat, int> := map m | m in Elems(order) :: Position(order, m);
    forall e <- EdgeSet(edges) ensures e.0 in rank && e.1 in rank && rank[e.0] < rank[e.1] {
      assert e.0 < n && e.1 < n;
      assert e.0 in Below(n) && e.1 in Elems(order);
      var i := Position(order, e.1);
      assert e.0 in order[..i];
    }
    assert Ranks<nat>(EdgeSet(edges), rank);
  }
}
