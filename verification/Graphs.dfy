/** Directed graphs given by their edges: walks, reachability, cycles. */
module Graphs {

  function Elems<T(==)>(s: seq<T>): set<T> {
    set x | x in s
  }

  ghost predicate IsWalk<V>(edges: set<(V, V)>, p: seq<V>) {
    && |p| > 0
    && forall i :: 0 <= i < |p| - 1 ==> (p[i], p[i + 1]) in edges
  }

  /** `p` is a walk of at least one edge from `a` to `b`. */
  ghost predicate WalkFromTo<V>(edges: set<(V, V)>, p: seq<V>, a: V, b: V) {
    |p| > 1 && IsWalk(edges, p) && p[0] == a && p[|p| - 1] == b
  }

  ghost predicate Reaches<V(!new)>(edges: set<(V, V)>, a: V, b: V) {
    exists p :: WalkFromTo(edges, p, a, b)
  }

  ghost predicate HasCycle<V(!new)>(edges: set<(V, V)>) {
    exists v :: Reaches(edges, v, v)
  }

  /** `rank` strictly increases along every edge. */
  ghost predicate Ranks<V>(edges: set<(V, V)>, rank: map<V, int>) {
    forall e <- edges :: e.0 in rank && e.1 in rank && rank[e.0] < rank[e.1]
  }

  ghost predicate Ranked<V(!new)>(edges: set<(V, V)>) {
    exists rank :: Ranks(edges, rank)
  }

  lemma ReachesByEdge<V(!new)>(edges: set<(V, V)>, a: V, b: V)
    requires (a, b) in edges
    ensures Reaches(edges, a, b)
  {
    assert WalkFromTo(edges, [a, b], a, b);
  }

  lemma ReachesThenEdge<V(!new)>(edges: set<(V, V)>, a: V, b: V, c: V)
    requires Reaches(edges, a, b) && (b, c) in edges
    ensures Reaches(edges, a, c)
  {
    var p :| WalkFromTo(edges, p, a, b);
    assert WalkFromTo(edges, p + [c], a, c);
  }

  /** The last edge of a walk. */
  lemma ReachesLastEdge<V(!new)>(edges: set<(V, V)>, a: V, c: V) returns (b: V)
    requires Reaches(edges, a, c)
    ensures (b, c) in edges && (b == a || Reaches(edges, a, b))
  {
    var p :| WalkFromTo(edges, p, a, c);
    b := p[|p| - 2];
    assert (p[|p| - 2], p[|p| - 1]) in edges;
    if |p| > 2 {
      assert WalkFromTo(edges, p[..|p| - 1], a, b);
    }
  }

  /** A set that holds the successors of `a` and is closed under edges holds all that `a` reaches. */
  lemma {:induction false} ClosedHoldsReached<V(!new)>(edges: set<(V, V)>, a: V, closed: set<V>, p: seq<V>, b: V)
    requires WalkFromTo(edges, p, a, b)
    requires forall e <- edges :: (e.0 == a || e.0 in closed) ==> e.1 in closed
    ensures b in closed
    decreases |p|
  {
    assert (p[|p| - 2], p[|p| - 1]) in edges;
    if |p| > 2 {
      assert WalkFromTo(edges, p[..|p| - 1], a, p[|p| - 2]);
      ClosedHoldsReached(edges, a, closed, p[..|p| - 1], p[|p| - 2]);
    }
  }

  lemma {:induction false} RankAlongWalk<V>(edges: set<(V, V)>, rank: map<V, int>, p: seq<V>, a: V, b: V)
    requires Ranks(edges, rank) && WalkFromTo(edges, p, a, b)
    ensures a in rank && b in rank && rank[a] < rank[b]
    decreases |p|
  {
    assert (p[|p| - 2], p[|p| - 1]) in edges;
    if |p| > 2 {
      assert WalkFromTo(edges, p[..|p| - 1], a, p[|p| - 2]);
      RankAlongWalk(edges, rank, p[..|p| - 1], a, p[|p| - 2]);
    }
  }

  lemma RankedIsAcyclic<V(!new)>(edges: set<(V, V)>)
    requires Ranked(edges)
    ensures !HasCycle(edges)
  {
    var rank :| Ranks(edges, rank);
    forall v, p | WalkFromTo(edges, p, v, v) ensures false {
      RankAlongWalk(edges, rank, p, v, v);
    }
  }

  ghost predicate Distinct<V>(p: seq<V>) {
    forall i, j :: 0 <= i < j < |p| ==> p[i] != p[j]
  }

  lemma {:induction false} DistinctSize<V>(p: seq<V>, u: set<V>)
    requires Distinct(p)
    requires forall x <- p :: x in u
    ensures |p| <= |u|
  {
    if p != [] {
      var k := |p| - 1;
      assert forall x <- p[..k] :: x in u - {p[k]} by {
        forall i | 0 <= i < k ensures p[..k][i] in u - {p[k]} { assert p[i] in u; }
      }
      DistinctSize(p[..k], u - {p[k]});
    }
  }

  ghost predicate HasPredecessor<V(!new)>(edges: set<(V, V)>, u: set<V>, v: V) {
    exists w :: w in u && (w, v) in edges
  }

  /** A nonempty set whose every member has a predecessor inside it contains a cycle. */
  lemma CycleFromPredecessors<V(!new)>(edges: set<(V, V)>, u: set<V>)
    requires u != {}
    requires forall v <- u :: HasPredecessor(edges, u, v)
    ensures HasCycle(edges)
  {
    var v :| v in u;
    GrowBackwards(edges, u, [v]);
  }

  lemma {:induction false} GrowBackwards<V(!new)>(edges: set<(V, V)>, u: set<V>, p: seq<V>)
    requires forall v <- u :: HasPredecessor(edges, u, v)
    requires IsWalk(edges, p) && forall x <- p :: x in u
    ensures HasCycle(edges)
    decreases |u| + 1 - |p|
  {
    if Distinct(p) {
      DistinctSize(p, u);
      assert HasPredecessor(edges, u, p[0]);
      var w :| w in u && (w, p[0]) in edges;
      var q := [w] + p;
      assert forall x <- q :: x in u;
      assert forall i :: 0 < i < |q| ==> q[i] == p[i - 1];
      GrowBackwards(edges, u, q);
    } else {
      var i, j :| 0 <= i < j < |p| && p[i] == p[j];
      var c := p[i..j + 1];
      assert IsWalk(edges, c) by {
        forall k | 0 <= k < |c| - 1 ensures (c[k], c[k + 1]) in edges {
          assert (p[i + k], p[i + k + 1]) in edges;
        }
      }
      assert WalkFromTo(edges, c, p[i], p[i]);
      assert Reaches(edges, p[i], p[i]);
    }
  }

  lemma {:induction false} SubsetSize<T>(a: set<T>, b: set<T>)
    requires a <= b
    ensures |a| <= |b|
  {
    if a != {} {
      var x :| x in a;
      SubsetSize(a - {x}, b - {x});
    }
  }
}
