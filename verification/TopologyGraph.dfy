/** The graph one drill-down level is drawn from: KubeGraphDto of dto/kube_graph.go, which the
    client reads as KubeGraph. */
module TopologyGraph {

  /** Node statuses, from least to most severe; Unset is the zero value of a missing map entry. */
  datatype Status = Unset | Idle | Healthy | Warning | Error

  /** `group` is the ID of the group the node is drawn in, "" for none.  `externalPeers` is the
      "External peers" detail of a NetworkPolicy, 0 for every other kind. */
  datatype Node = Node(
    id: string, kind: string, apiGroup: string, name: string, namespace: string,
    status: Status, drillable: bool, group: string, weight: nat, externalPeers: nat)

  datatype Edge = Edge(source: string, target: string, kind: string)

  datatype Group = Group(id: string, name: string, kind: string)

  datatype Level = ClusterLevel | NamespaceLevel | ObjectLevel | NodeLevel | KindLevel

  datatype Graph = Graph(level: Level, nodes: seq<Node>, edges: seq<Edge>, groups: seq<Group>)

  ghost function NodeIds(nodes: seq<Node>): set<string> {
    set i | 0 <= i < |nodes| :: nodes[i].id
  }

  ghost function GroupIds(groups: seq<Group>): set<string> {
    set i | 0 <= i < |groups| :: groups[i].id
  }

  ghost predicate DistinctNodes(nodes: seq<Node>) {
    forall i, j :: 0 <= i < j < |nodes| ==> nodes[i].id != nodes[j].id
  }

  ghost predicate DistinctGroups(groups: seq<Group>) {
    forall i, j :: 0 <= i < j < |groups| ==> groups[i].id != groups[j].id
  }

  ghost predicate DistinctEdges(edges: seq<Edge>) {
    forall i, j :: 0 <= i < j < |edges| ==> edges[i] != edges[j]
  }

  ghost predicate DuplicateFree(g: Graph) {
    DistinctNodes(g.nodes) && DistinctEdges(g.edges) && DistinctGroups(g.groups)
  }

  /** Both ends of every edge and the group of every grouped node are in the graph.  d3's forceLink
      throws on an edge for which this fails. */
  ghost predicate Closed(g: Graph) {
    && (forall i :: 0 <= i < |g.edges| ==>
        g.edges[i].source in NodeIds(g.nodes) && g.edges[i].target in NodeIds(g.nodes))
    && (forall i :: 0 <= i < |g.nodes| ==> g.nodes[i].group == "" || g.nodes[i].group in GroupIds(g.groups))
  }
}
