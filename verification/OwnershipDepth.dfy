/** ownershipDepth of GraphCanvas.vm.ts: the column of a node at object level. */
module OwnershipDepth {
  import opened TopologyGraph

  /** A node no edge points to. */
  ghost predicate Root(g: Graph, id: string) {
    (exists i :: 0 <= i < |g.nodes| && g.nodes[i].id == id) && forall e :: e in g.edges ==> e.target != id
  }

  /** Some path of exactly `steps` edges leads from a root to `id`. */
  ghost predicate Walk(g: Graph, id: string, steps: nat)
    decreases steps
  {
    if steps == 0 then Root(g, id)
    else exists e :: e in g.edges && e.target == id && Walk(g, e.source, steps - 1)
  }

  /** The shortest path from a root to `id` has `d` edges. */
  ghost predicate Distance(g: Graph, id: string, d: nat) {
    Walk(g, id, d) && forall m :: 0 <= m < d ==> !Walk(g, id, m)
  }

  /** `depth` is right for every ID within `level` edges of a root. */
  ghost predicate RightUpTo(g: Graph, depth: map<string, nat>, level: nat) {
    && (forall id :: id in depth ==> depth[id] <= level && Distance(g, id, depth[id]))
    && (forall id, m :: 0 <= m <= level && Walk(g, id, m) ==> id in depth)
  }

  /** Everything the edges or nodes name. */
  ghost function Ids(g: Graph): set<string> {
    NodeIds(g.nodes) + set i | 0 <= i < |g.edges| :: g.edges[i].target
  }

  method DepthsFromRoots(g: Graph) returns (depth: map<string, nat>)
    ensures forall id, d: nat :: (id in depth && depth[id] == d) <==> Distance(g, id, d)
  {
    depth := map[];
    var frontier: seq<string> := [];
    for i := 0 to |g.nodes|
      invariant forall id :: id in frontier <==> exists k :: 0 <= k < i && g.nodes[k].id == id && Root(g, id)
    {
      if forall e :: e in g.edges ==> e.target != g.nodes[i].id {
        frontier := frontier + [g.nodes[i].id];
      }
    }
    for i := 0 to |frontier|
      invariant forall id :: id in depth <==> id in frontier[..i]
      invariant forall id :: id in depth ==> depth[id] == 0
    {
      depth := depth[frontier[i] := 0];
    }
    assert frontier[..|frontier|] == frontier;
    ghost var level := 0;
    while |frontier| > 0
      invariant RightUpTo(g, depth, level)
      invariant forall id :: id in frontier <==> id in depth && depth[id] == level
      invariant depth.Keys <= Ids(g)
      decreases Ids(g) - depth.Keys, |frontier|
    {
      var before, beforeFrontier := depth, frontier;
      depth, frontier := NextLevel(g, before, beforeFrontier, level);
      NextLevelIsRight(g, before, beforeFrontier, depth, level);
      if |frontier| > 0 {
        assert frontier[0] in depth && frontier[0] !in before;
        assert frontier[0] in Ids(g) - before.Keys && frontier[0] !in Ids(g) - depth.Keys;
      } else {
        assert depth.Keys == before.Keys;
      }
      level := level + 1;
    }
    forall id, d: nat ensures (id in depth && depth[id] == d) <==> Distance(g, id, d) {
      if Walk(g, id, d) {
        NothingBeyond(g, depth, level, id, d);
      }
    }
  }

  /** What one pass over the edges adds: the unseen targets of edges that leave the frontier. */
  ghost predicate Extends(
    g: Graph, before: map<string, nat>, frontier: seq<string>, depth: map<string, nat>, level: nat) {
    && (forall id :: id in before ==> id in depth && depth[id] == before[id])
    && (forall id :: id in depth && id !in before ==>
          depth[id] == level + 1 && exists e :: e in g.edges && e.source in frontier && e.target == id)
    && (forall e :: e in g.edges && e.source in frontier ==> e.target in depth)
  }

  method NextLevel(g: Graph, before: map<string, nat>, frontier: seq<string>, ghost level: nat)
    returns (depth: map<string, nat>, next: seq<string>)
    requires forall id :: id in frontier ==> id in before && before[id] == level
    requires before.Keys <= Ids(g)
    ensures Extends(g, before, frontier, depth, level)
    ensures forall id :: id in next <==> id in depth && id !in before
    ensures depth.Keys <= Ids(g)
  {
    depth, next := before, [];
    for i := 0 to |g.edges|
      invariant forall id :: id in before ==> id in depth && depth[id] == before[id]
      invariant forall id :: id in depth && id !in before ==>
        depth[id] == level + 1 && exists e :: e in g.edges && e.source in frontier && e.target == id
      invariant forall k :: 0 <= k < i && g.edges[k].source in frontier ==> g.edges[k].target in depth
      invariant forall id :: id in next <==> id in depth && id !in before
      invariant depth.Keys <= Ids(g)
    {
      var source, target := g.edges[i].source, g.edges[i].target;
      if source in frontier && target !in depth {
        depth := depth[target := depth[source] + 1];
        next := next + [target];
        assert g.edges[i] in g.edges;
      }
    }
  }

  lemma NextLevelIsRight(g: Graph, before: map<string, nat>, frontier: seq<string>, depth: map<string, nat>, level: nat)
    requires RightUpTo(g, before, level)
    requires forall id :: id in frontier <==> id in before && before[id] == level
    requires Extends(g, before, frontier, depth, level)
    ensures RightUpTo(g, depth, level + 1)
    ensures forall id :: id in depth && id !in before <==> id in depth && depth[id] == level + 1
  {
    forall id | id in depth ensures depth[id] <= level + 1 && Distance(g, id, depth[id]) {
      if id !in before {
        var e :| e in g.edges && e.source in frontier && e.target == id;
        assert Walk(g, e.source, level);
        assert Walk(g, id, level + 1);
      }
    }
    forall id | Walk(g, id, level + 1) ensures id in depth {
      var e :| e in g.edges && e.target == id && Walk(g, e.source, level);
      var d := before[e.source];
      if d < level {
        assert Walk(g, id, d + 1);
      }
    }
  }

  /** Once a level is empty, every ID any path reaches has been mapped. */
  lemma {:induction false} NothingBeyond(g: Graph, depth: map<string, nat>, level: nat, id: string, steps: nat)
    requires RightUpTo(g, depth, level) && forall other :: other in depth ==> depth[other] != level
    requires Walk(g, id, steps)
    ensures id in depth
    decreases steps
  {
    if steps > level {
      var e :| e in g.edges && e.target == id && Walk(g, e.source, steps - 1);
      NothingBeyond(g, depth, level, e.source, steps - 1);
      assert Walk(g, id, depth[e.source] + 1);
    }
  }
}
