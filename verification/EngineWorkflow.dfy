/** From a checked workflow graph over node indices to the rows and edges the engine stores. */
module EngineWorkflow {
  import opened Graphs
  import opened EngineModel
  import Kahn
  import G = WorkflowGraph

  function IdEdges(ids: seq<JobId>, indexed: seq<Kahn.Edge>): (r: seq<Edge>)
    requires Kahn.InRange(|ids|, indexed)
    ensures |r| == |indexed|
  {
    seq(|indexed|, k requires 0 <= k < |indexed| =>
        assert indexed[k] in indexed; (ids[indexed[k].0], ids[indexed[k].1]))
  }

  /** The id given to the node called `name`. */
  ghost function IdOf(names: seq<string>, ids: seq<JobId>, name: string): JobId
    requires |names| == |ids| && name in names
  {
    var i :| 0 <= i < |names| && names[i] == name; ids[i]
  }

  /** The named edges, as edges between job ids. */
  ghost function EdgesByName(names: seq<string>, ids: seq<JobId>, edges: seq<(string, string)>): seq<Edge>
    requires |names| == |ids| && G.EdgesOk(names, edges)
  {
    seq(|edges|, k requires 0 <= k < |edges| =>
          assert edges[k] in edges; (IdOf(names, ids, edges[k].0), IdOf(names, ids, edges[k].1)))
  }

  lemma IdEdgesByName(names: seq<string>, edges: seq<(string, string)>, ids: seq<JobId>, indexed: seq<Kahn.Edge>)
    requires |names| == |ids| && Distinct(names) && Kahn.InRange(|ids|, indexed) && |indexed| == |edges| &&
             G.EdgesOk(names, edges)
    requires forall k :: 0 <= k < |edges| ==>
                           indexed[k] in indexed && names[indexed[k].0] == edges[k].0 &&
                             names[indexed[k].1] == edges[k].1
    ensures IdEdges(ids, indexed) == EdgesByName(names, ids, edges)
  {
    forall k | 0 <= k < |edges| ensures IdEdges(ids, indexed)[k] == EdgesByName(names, ids, edges)[k] {
      assert edges[k] in edges && indexed[k] in indexed;
    }
  }

  lemma IdEdgesInIds(ids: seq<JobId>, indexed: seq<Kahn.Edge>)
    requires Kahn.InRange(|ids|, indexed)
    ensures forall e <- IdEdges(ids, indexed) :: e.0 in ids && e.1 in ids
  {
    forall e <- IdEdges(ids, indexed) ensures e.0 in ids && e.1 in ids {
      var k :| 0 <= k < |indexed| && IdEdges(ids, indexed)[k] == e;
      assert indexed[k] in indexed;
    }
  }

  lemma {:induction false} IndegreeIsInto(ids: seq<JobId>, indexed: seq<Kahn.Edge>, m: nat)
    requires Kahn.InRange(|ids|, indexed) && Distinct(ids) && m < |ids| && Distinct(IdEdges(ids, indexed))
    ensures Kahn.Unmet(indexed, {}, m) == |Into(Elems(IdEdges(ids, indexed)), ids[m])|
  {
    var all := IdEdges(ids, indexed);
    if indexed == [] {
      assert Into(Elems(all), ids[m]) == {};
    } else {
      var k := |indexed| - 1;
      var init := indexed[..k];
      assert forall e <- init :: e in indexed;
      var before := IdEdges(ids, init);
      assert before == all[..k];
      IndegreeIsInto(ids, init, m);
      assert indexed[k] in indexed;
      var e := all[k];
      assert e !in before;
      assert all == before + [e];
      assert Into(Elems(all), ids[m]) == Into(Elems(before), ids[m]) + (if e.1 == ids[m] then {e} else {});
    }
  }

  lemma IdEdgesRanked(ids: seq<JobId>, indexed: seq<Kahn.Edge>)
    requires Kahn.InRange(|ids|, indexed) && Distinct(ids) && Ranked<nat>(Kahn.EdgeSet(indexed))
    ensures Ranked(Elems(IdEdges(ids, indexed)))
  {
    var position: map<JobId, nat> := map x: JobId | x in ids :: Kahn.Position(ids, x);
    var from := Elems(IdEdges(ids, indexed));
    forall e <- from
      ensures e.0 in position && e.1 in position && (position[e.0], position[e.1]) in Kahn.EdgeSet(indexed)
    {
      var k :| 0 <= k < |indexed| && IdEdges(ids, indexed)[k] == e;
      assert indexed[k] in indexed;
    }
    G.RankedRenamed<JobId, nat>(from, Kahn.EdgeSet(indexed), position);
  }

  lemma SameDistinctness(names: seq<string>, edges: seq<(string, string)>, ids: seq<JobId>, indexed: seq<Kahn.Edge>)
    requires |names| == |ids| && Distinct(names) && Distinct(ids) && Kahn.InRange(|ids|, indexed) &&
             |indexed| == |edges|
    requires forall k :: 0 <= k < |edges| ==>
                           indexed[k] in indexed && names[indexed[k].0] == edges[k].0 &&
                             names[indexed[k].1] == edges[k].1
    ensures Distinct(IdEdges(ids, indexed)) <==> Distinct(edges)
  {
    forall j, k | 0 <= j < k < |edges|
      ensures edges[j] == edges[k] <==> IdEdges(ids, indexed)[j] == IdEdges(ids, indexed)[k]
    {
      assert indexed[j] in indexed && indexed[k] in indexed;
    }
  }
}
