/** The checks submit_workflow makes before it reserves anything: names, types, edges, acyclicity. */
module WorkflowGraph {
  import opened Graphs
  import opened Kahn

  datatype WorkflowStatus =
    | WfOk
    | Empty
    | UnknownType
    | DuplicateNode
    | UnknownNodeRef
    | SelfEdge
    | Cycle
    | QueueFull
    | StoreError

  ghost predicate NodesOk(names: seq<string>, known: seq<bool>) {
    |names| > 0 && Distinct(names) && |known| == |names| && forall i :: 0 <= i < |known| ==> known[i]
  }

  ghost predicate EdgesOk(names: seq<string>, edges: seq<(string, string)>) {
    forall e <- edges :: e.0 in names && e.1 in names && e.0 != e.1
  }

  /** The first `k` nodes are in order. */
  ghost predicate NodesUpTo(names: seq<string>, known: seq<bool>, k: nat) {
    k <= |names| == |known| && Distinct(names[..k]) && forall i :: 0 <= i < k ==> known[i]
  }

  /** Node `k` is the first one that is not, because its name is taken, or else because its type is unknown. */
  ghost predicate RepeatsAt(names: seq<string>, known: seq<bool>, k: nat) {
    k < |names| && NodesUpTo(names, known, k) && names[k] in names[..k]
  }

  ghost predicate UnknownAt(names: seq<string>, known: seq<bool>, k: nat) {
    k < |names| && NodesUpTo(names, known, k) && names[k] !in names[..k] && !known[k]
  }

  /** Edge `k` is the first one not in order, because an end is no node, or else because both are the same. */
  ghost predicate DanglesAt(names: seq<string>, edges: seq<(string, string)>, k: nat) {
    k < |edges| && EdgesOk(names, edges[..k]) && (edges[k].0 !in names || edges[k].1 !in names)
  }

  ghost predicate LoopsAt(names: seq<string>, edges: seq<(string, string)>, k: nat) {
    k < |edges| && EdgesOk(names, edges[..k]) && edges[k].0 in names && edges[k].0 == edges[k].1
  }

  lemma OneNodeFault(names: seq<string>, known: seq<bool>, j: nat, k: nat)
    requires RepeatsAt(names, known, j) || UnknownAt(names, known, j)
    requires RepeatsAt(names, known, k) || UnknownAt(names, known, k) || (k == |names| && NodesUpTo(names, known, k))
    ensures j == k
  {
    if j < k {
      NoFaultBefore(names, known, j, k);
    } else if k < j {
      NoFaultBefore(names, known, k, j);
    }
  }

  lemma NoFaultBefore(names: seq<string>, known: seq<bool>, j: nat, k: nat)
    requires j < k && NodesUpTo(names, known, k)
    ensures !RepeatsAt(names, known, j) && !UnknownAt(names, known, j)
  {
    forall i | 0 <= i < j ensures names[i] != names[j] {
      assert names[..k][i] == names[i] && names[..k][j] == names[j];
    }
  }

  lemma NoEdgeFaultBefore(names: seq<string>, edges: seq<(string, string)>, j: nat, k: nat)
    requires j < k <= |edges| && EdgesOk(names, edges[..k])
    ensures !DanglesAt(names, edges, j) && !LoopsAt(names, edges, j)
  {
    assert edges[..k][j] == edges[j] && edges[j] in edges[..k];
  }

  /** `index` is the position of every name. */
  ghost predicate Indexes(names: seq<string>, index: map<string, nat>) {
    && index.Keys == Elems(names)
    && forall i :: 0 <= i < |names| ==> names[i] in index && index[names[i]] == i
  }

  function Indexed(index: map<string, nat>, edges: seq<(string, string)>): (r: seq<Edge>)
    requires forall e <- edges :: e.0 in index && e.1 in index
    ensures |r| == |edges|
  {
    seq(|edges|, i requires 0 <= i < |edges| => assert edges[i] in edges; (index[edges[i].0], index[edges[i].1]))
  }

  // ---- graphs along a renaming of nodes ----

  ghost predicate Renames<A, B>(from: set<(A, A)>, to: set<(B, B)>, f: map<A, B>) {
    forall e <- from :: e.0 in f && e.1 in f && (f[e.0], f[e.1]) in to
  }

  lemma CycleRenamed<A(!new), B(!new)>(from: set<(A, A)>, to: set<(B, B)>, f: map<A, B>)
    requires Renames(from, to, f) && HasCycle(from)
    ensures HasCycle(to)
  {
    var v :| Reaches(from, v, v);
    var p :| WalkFromTo(from, p, v, v);
    forall i | 0 <= i < |p| ensures p[i] in f {
      if i + 1 < |p| { assert (p[i], p[i + 1]) in from; } else { assert (p[i - 1], p[i]) in from; }
    }
    var q := seq(|p|, i requires 0 <= i < |p| => f[p[i]]);
    forall i | 0 <= i < |q| - 1 ensures (q[i], q[i + 1]) in to { assert (p[i], p[i + 1]) in from; }
    assert WalkFromTo(to, q, f[v], f[v]);
    assert Reaches(to, f[v], f[v]);
  }

  lemma RankedRenamed<A(!new), B(!new)>(from: set<(A, A)>, to: set<(B, B)>, f: map<A, B>)
    requires Renames(from, to, f) && Ranked(to)
    ensures Ranked(from)
  {
    var r :| Ranks(to, r);
    var rank: map<A, int> := map a | a in f && f[a] in r :: r[f[a]];
    assert Ranks(from, rank);
  }

  lemma NamesAndIndexes(names: seq<string>, index: map<string, nat>, edges: seq<(string, string)>)
    requires Indexes(names, index) && EdgesOk(names, edges)
    ensures forall e <- edges :: e.0 in index && e.1 in index
    ensures InRange(|names|, Indexed(index, edges))
    ensures Cyclic(Indexed(index, edges)) <==> HasCycle(Elems(edges))
  {
    var indexed := Indexed(index, edges);
    var name: map<nat, string> := map i: nat | i < |names| :: names[i];
    forall e <- Elems(edges) ensures (index[e.0], index[e.1]) in EdgeSet(indexed) {
      var k :| 0 <= k < |edges| && edges[k] == e;
      assert indexed[k] in indexed;
    }
    forall e <- EdgeSet(indexed) ensures e.0 < |names| && e.1 < |names| && (names[e.0], names[e.1]) in Elems(edges) {
      var k :| 0 <= k < |indexed| && indexed[k] == e;
      assert edges[k] in edges;
    }
    if HasCycle(Elems(edges)) { CycleRenamed<string, nat>(Elems(edges), EdgeSet(indexed), index); }
    if Cyclic(indexed) { CycleRenamed<nat, string>(EdgeSet(indexed), Elems(edges), name); }
  }

  // ---- the checks ----

  method IndexNodes(names: seq<string>, known: seq<bool>) returns (status: WorkflowStatus, index: map<string, nat>)
    requires |known| == |names| > 0
    ensures status.WfOk? || status.DuplicateNode? || status.UnknownType?
    ensures status.WfOk? <==> NodesOk(names, known)
    ensures status.WfOk? ==> Indexes(names, index)
    ensures status.DuplicateNode? <==> exists k :: RepeatsAt(names, known, k)
    ensures status.UnknownType? <==> exists k :: UnknownAt(names, known, k)
  {
    index := map[];
    for i := 0 to |names|
      invariant Distinct(names[..i]) && forall k :: 0 <= k < i ==> known[k]
      invariant Indexes(names[..i], index)
    {
      if names[i] in index {
        assert RepeatsAt(names, known, i);
        NodeFaultIs(names, known, i);
        return DuplicateNode, index;
      }
      index := index[names[i] := i];
      if !known[i] {
        assert UnknownAt(names, known, i);
        NodeFaultIs(names, known, i);
        return UnknownType, index;
      }
      assert names[..i + 1] == names[..i] + [names[i]];
    }
    assert names[..|names|] == names;
    NodeFaultIs(names, known, |names|);
    status := WfOk;
  }

  lemma NodeFaultIs(names: seq<string>, known: seq<bool>, k: nat)
    requires RepeatsAt(names, known, k) || UnknownAt(names, known, k) || (k == |names| && NodesUpTo(names, known, k))
    ensures (exists j :: RepeatsAt(names, known, j)) <==> RepeatsAt(names, known, k)
    ensures (exists j :: UnknownAt(names, known, j)) <==> UnknownAt(names, known, k)
    ensures k < |names| ==> !NodesOk(names, known)
  {
    hide RepeatsAt, UnknownAt, NodesUpTo, NodesOk;
    forall j: nat | RepeatsAt(names, known, j) || UnknownAt(names, known, j) ensures j == k {
      OneNodeFault(names, known, j, k);
    }
    if NodesOk(names, known) { AllNodesOk(names, known, k); }
  }

  lemma AllNodesOk(names: seq<string>, known: seq<bool>, k: nat)
    requires NodesOk(names, known)
    ensures !RepeatsAt(names, known, k) && !UnknownAt(names, known, k)
  {
    if k < |names| {
      assert names[..|names|] == names;
      NoFaultBefore(names, known, k, |names|);
    }
  }

  lemma EdgeFaultIs(names: seq<string>, edges: seq<(string, string)>, k: nat)
    requires DanglesAt(names, edges, k) || LoopsAt(names, edges, k) || (k == |edges| && EdgesOk(names, edges))
    ensures (exists j :: DanglesAt(names, edges, j)) <==> DanglesAt(names, edges, k)
    ensures (exists j :: LoopsAt(names, edges, j)) <==> LoopsAt(names, edges, k)
    ensures k < |edges| ==> !EdgesOk(names, edges)
  {
    assert edges[..|edges|] == edges;
    assert k < |edges| ==> edges[k] in edges;
    forall j: nat | DanglesAt(names, edges, j) || LoopsAt(names, edges, j) ensures j == k {
      if j < k {
        NoEdgeFaultBefore(names, edges, j, k);
      } else if k < j {
        NoEdgeFaultBefore(names, edges, k, j);
      }
    }
  }

  method IndexEdges(names: seq<string>, index: map<string, nat>, edges: seq<(string, string)>)
    returns (status: WorkflowStatus, indexed: seq<Edge>)
    requires Distinct(names) && Indexes(names, index)
    ensures status.WfOk? || status.UnknownNodeRef? || status.SelfEdge?
    ensures status.WfOk? <==> EdgesOk(names, edges)
    ensures status.WfOk? ==> (forall e <- edges :: e.0 in index && e.1 in index) && indexed == Indexed(index, edges)
    ensures status.UnknownNodeRef? <==> exists k :: DanglesAt(names, edges, k)
    ensures status.SelfEdge? <==> exists k :: LoopsAt(names, edges, k)
  {
    indexed := [];
    for k := 0 to |edges|
      invariant EdgesOk(names, edges[..k]) && |indexed| == k
      invariant forall i :: 0 <= i < k ==> edges[i].0 in index && edges[i].1 in index
                                           && indexed[i] == (index[edges[i].0], index[edges[i].1])
    {
      var e := edges[k];
      assert e in edges;
      if e.0 !in index || e.1 !in index {
        assert DanglesAt(names, edges, k);
        EdgeFaultIs(names, edges, k);
        return UnknownNodeRef, indexed;
      }
      if index[e.0] == index[e.1] {
        SameIndex(names, index, e);
        assert LoopsAt(names, edges, k);
        EdgeFaultIs(names, edges, k);
        return SelfEdge, indexed;
      }
      indexed := indexed + [(index[e.0], index[e.1])];
      assert edges[..k + 1] == edges[..k] + [e];
    }
    assert edges[..|edges|] == edges;
    EdgeFaultIs(names, edges, |edges|);
    status := WfOk;
  }

  lemma SameIndex(names: seq<string>, index: map<string, nat>, e: (string, string))
    requires Indexes(names, index) && e.0 in index && e.1 in index && index[e.0] == index[e.1]
    ensures e.0 == e.1 && e.0 in names
  {
    assert e.0 in Elems(names) && e.1 in Elems(names);
  }

  /** Accepts exactly the nonempty acyclic graphs over distinct names of known type. */
  method CheckWorkflow(names: seq<string>, known: seq<bool>, edges: seq<(string, string)>)
    returns (status: WorkflowStatus, indexed: seq<Edge>, indegree: seq<nat>)
    requires |known| == |names|
    ensures status.Empty? <==> names == []
    ensures status.WfOk? <==> NodesOk(names, known) && EdgesOk(names, edges) && !HasCycle(Elems(edges))
    ensures status.Cycle? <==> NodesOk(names, known) && EdgesOk(names, edges) && HasCycle(Elems(edges))
    ensures status.DuplicateNode? <==> exists k :: RepeatsAt(names, known, k)
    ensures status.UnknownType? <==> exists k :: UnknownAt(names, known, k)
    ensures status.UnknownNodeRef? <==> NodesOk(names, known) && exists k :: DanglesAt(names, edges, k)
    ensures status.SelfEdge? <==> NodesOk(names, known) && exists k :: LoopsAt(names, edges, k)
    ensures !status.QueueFull? && !status.StoreError?
    ensures status.WfOk? ==>
              && InRange(|names|, indexed) && |indexed| == |edges|
              && (forall k :: 0 <= k < |edges| ==>
                  names[indexed[k].0] == edges[k].0 && names[indexed[k].1] == edges[k].1)
              && |indegree| == |names| && (forall m :: 0 <= m < |names| ==> indegree[m] == Unmet(indexed, {}, m))
              && Ranked<nat>(EdgeSet(indexed))
  {
    indexed, indegree := [], [];
    if names == [] { return Empty, indexed, indegree; }
    var index;
    status, index := IndexNodes(names, known);
    if !status.WfOk? { return; }
    status, indexed := IndexEdges(names, index, edges);
    if !status.WfOk? { return; }
    NamesAndIndexes(names, index, edges);
    var adj;
    adj, indegree := BuildGraph(|names|, indexed);
    var visited;
    ghost var order;
    visited, order := CountOrderable(|names|, indexed, adj, indegree);
    if visited != |names| { return Cycle, indexed, indegree; }
    FullOrderRanks(|names|, indexed, order);
    IndexedNames(names, index, edges);
    status := WfOk;
  }

  lemma IndexedNames(names: seq<string>, index: map<string, nat>, edges: seq<(string, string)>)
    requires Indexes(names, index) && EdgesOk(names, edges)
    requires forall e <- edges :: e.0 in index && e.1 in index
    requires InRange(|names|, Indexed(index, edges))
    ensures forall k :: 0 <= k < |edges| ==>
                          names[Indexed(index, edges)[k].0] == edges[k].0 &&
                            names[Indexed(index, edges)[k].1] == edges[k].1
  {
    forall k | 0 <= k < |edges|
      ensures names[index[edges[k].0]] == edges[k].0 && names[index[edges[k].1]] == edges[k].1
    {
      assert edges[k] in edges;
      var i :| 0 <= i < |names| && names[i] == edges[k].0;
      var j :| 0 <= j < |names| && names[j] == edges[k].1;
    }
  }

  lemma FullOrderRanks(n: nat, edges: seq<Edge>, order: seq<nat>)
    requires InRange(n, edges) && Distinct(order) && TopoPrefix(edges, order) && |order| == n
    requires forall m <- order :: m < n
    ensures Ranked<nat>(EdgeSet(edges))
  {
    DistinctMembers(order);
    assert Elems(order) <= Below(n);
    if !(Below(n) <= Elems(order)) {
      var m :| m in Below(n) && m !in Elems(order);
      assert Elems(order) <= Below(n) - {m};
      SubsetSize(Elems(order), Below(n) - {m});
    }
    TopoOrderRanks(n, edges, order);
  }
}
