/** Directed reachability over a finite edge set: paths, mutual reachability, cycles. */
module Reachability {

  type Edges = set<(string, string)>

  ghost predicate Hop(edges: Edges, path: seq<string>, i: int)
    requires 0 <= i < |path| - 1
  {
    (path[i], path[i + 1]) in edges
  }

  ghost predicate IsPath(edges: Edges, path: seq<string>, source: string, target: string) {
    && |path| > 0
    && path[0] == source
    && path[|path| - 1] == target
    && forall i :: 0 <= i < |path| - 1 ==> Hop(edges, path, i)
  }

  ghost predicate Reaches(edges: Edges, source: string, target: string) {
    exists path :: IsPath(edges, path, source, target)
  }

  /** The relation whose classes are the strongly connected components. */
  ghost predicate Mutual(edges: Edges, x: string, y: string) {
    Reaches(edges, x, y) && Reaches(edges, y, x)
  }

  /** A cycle through `x`: a path of at least one hop from `x` back to itself. */
  ghost predicate OnCycle(edges: Edges, x: string) {
    exists path :: |path| > 1 && IsPath(edges, path, x, x)
  }

  ghost predicate Closed(edges: Edges, region: set<string>) {
    forall x, y :: x in region && (x, y) in edges ==> y in region
  }

  lemma ReachesSelf(edges: Edges, x: string)
    ensures Reaches(edges, x, x)
  {
    assert IsPath(edges, [x], x, x);
  }

  lemma ReachesHop(edges: Edges, x: string, y: string)
    requires (x, y) in edges
    ensures Reaches(edges, x, y)
  {
    assert IsPath(edges, [x, y], x, y);
  }

  lemma JoinPaths(edges: Edges, p: seq<string>, q: seq<string>, x: string, y: string, z: string)
    requires IsPath(edges, p, x, y) && IsPath(edges, q, y, z)
    ensures IsPath(edges, p + q[1..], x, z)
  {
    var joined := p + q[1..];
    forall i | 0 <= i < |joined| - 1
      ensures Hop(edges, joined, i)
    {
      if i < |p| - 1 {
        assert Hop(edges, p, i);
      } else {
        assert Hop(edges, q, i - |p| + 1);
      }
    }
  }

  lemma ReachesTransitive(edges: Edges, x: string, y: string, z: string)
    requires Reaches(edges, x, y) && Reaches(edges, y, z)
    ensures Reaches(edges, x, z)
  {
    var p :| IsPath(edges, p, x, y);
    var q :| IsPath(edges, q, y, z);
    JoinPaths(edges, p, q, x, y, z);
  }

  /** A region closed under edges cannot be left. */
  lemma {:induction false} ClosedPath(edges: Edges, region: set<string>, path: seq<string>, x: string, y: string)
    requires Closed(edges, region) && x in region && IsPath(edges, path, x, y)
    ensures y in region
    decreases |path|
  {
    if |path| > 1 {
      assert Hop(edges, path, 0);
      forall i | 0 <= i < |path| - 2
        ensures Hop(edges, path[1..], i)
      {
        assert Hop(edges, path, i + 1);
      }
      ClosedPath(edges, region, path[1..], path[1], y);
    }
  }

  lemma ClosedReach(edges: Edges, region: set<string>, x: string, y: string)
    requires Closed(edges, region) && x in region && Reaches(edges, x, y)
    ensures y in region
  {
    var path :| IsPath(edges, path, x, y);
    ClosedPath(edges, region, path, x, y);
  }

  /** A node lies on a cycle exactly when it has a self-loop or is mutual with another node. */
  lemma CycleIsMutualOrLoop(edges: Edges, x: string)
    ensures OnCycle(edges, x) <==> (x, x) in edges || exists y :: y != x && Mutual(edges, x, y)
  {
    if OnCycle(edges, x) {
      var path :| |path| > 1 && IsPath(edges, path, x, x);
      var y := path[1];
      assert Hop(edges, path, 0);
      if y != x {
        ReachesHop(edges, x, y);
        forall i | 0 <= i < |path| - 2
          ensures Hop(edges, path[1..], i)
        {
          assert Hop(edges, path, i + 1);
        }
        assert IsPath(edges, path[1..], y, x);
        assert Mutual(edges, x, y);
      }
    }
    if (x, x) in edges {
      assert IsPath(edges, [x, x], x, x);
    }
    if exists y :: y != x && Mutual(edges, x, y) {
      var y :| y != x && Mutual(edges, x, y);
      var p :| IsPath(edges, p, x, y);
      var q :| IsPath(edges, q, y, x);
      JoinPaths(edges, p, q, x, y, x);
    }
  }
}
