/** How one level of a graph is put together.  Each of the three lists has a set of what it holds, so
    that whatever comes first under an ID stays: that the two never drift apart is the invariant every
    step of every view relies on.  (The maps to bool of kube_topology_service.go are only ever set to
    true; here they are sets.) */
module GraphBuilder {
  import opened TopologyGraph

  const GATEWAY_GROUP := "gateway.networking.k8s.io"

  /** kindGroups of kube_kinds.go: the API group of a built-in kind, "" for core kinds. */
  function KindGroup(kind: string): string {
    if kind in {"Deployment", "StatefulSet", "DaemonSet", "ReplicaSet"} then "apps"
    else if kind in {"Job", "CronJob"} then "batch"
    else if kind in {"Ingress", "NetworkPolicy"} then "networking.k8s.io"
    else if kind == "HorizontalPodAutoscaler" then "autoscaling"
    else if kind == "PodDisruptionBudget" then "policy"
    else if kind in {"Role", "RoleBinding", "ClusterRole", "ClusterRoleBinding"} then "rbac.authorization.k8s.io"
    else if kind == "StorageClass" then "storage.k8s.io"
    else if kind in {"Gateway", "HTTPRoute", "GRPCRoute", "TLSRoute", "TCPRoute", "UDPRoute"} then GATEWAY_GROUP
    else ""
  }

  /** The groups of the kinds the graphs draw; any other kind is taken for one of the core. */
  lemma KindGroupMeaning(kind: string)
    ensures KindGroup(kind) == "apps" <==> kind in {"Deployment", "StatefulSet", "DaemonSet", "ReplicaSet"}
    ensures KindGroup(kind) == "batch" <==> kind in {"Job", "CronJob"}
    ensures KindGroup(kind) == "networking.k8s.io" <==> kind in {"Ingress", "NetworkPolicy"}
    ensures KindGroup(kind) == "autoscaling" <==> kind == "HorizontalPodAutoscaler"
    ensures KindGroup(kind) == "policy" <==> kind == "PodDisruptionBudget"
    ensures KindGroup(kind) == "rbac.authorization.k8s.io"
            <==> kind in {"Role", "RoleBinding", "ClusterRole", "ClusterRoleBinding"}
    ensures KindGroup(kind) == "storage.k8s.io" <==> kind == "StorageClass"
    ensures KindGroup(kind) == "gateway.networking.k8s.io"
            <==> kind in {"Gateway", "HTTPRoute", "GRPCRoute", "TLSRoute", "TCPRoute", "UDPRoute"}
    ensures KindGroup(kind) in {"apps", "batch", "networking.k8s.io", "autoscaling", "policy",
                                "rbac.authorization.k8s.io", "storage.k8s.io", "gateway.networking.k8s.io", ""}
  {
  }

  function NodeId(kind: string, namespace: string, name: string): string {
    kind + "/" + namespace + "/" + name
  }

  /** Within a kind and a namespace, the name can be read back from the ID. */
  lemma SameIdSameName(kind: string, namespace: string, a: string, b: string)
    requires NodeId(kind, namespace, a) == NodeId(kind, namespace, b)
    ensures a == b
  {
    var prefix := kind + "/" + namespace + "/";
    assert NodeId(kind, namespace, a)[|prefix|..] == a && NodeId(kind, namespace, b)[|prefix|..] == b;
  }

  /** A node as addNode stores it: the API group of a built-in kind is filled in. */
  function Stored(node: Node): (n: Node)
    ensures n.id == node.id && n.group == node.group
  {
    if node.apiGroup == "" then node.(apiGroup := KindGroup(node.kind)) else node
  }

  /** The most common node: not grouped, of the group of its kind. */
  function Plain(kind: string, namespace: string, name: string, status: Status, drillable: bool, weight: nat): (n: Node)
    ensures n.id == NodeId(kind, namespace, name) && n.group == ""
  {
    Node(NodeId(kind, namespace, name), kind, "", name, namespace, status, drillable, "", weight, 0)
  }

  /** A node as it is drawn for an object of a built-in kind, field by field. */
  ghost predicate Spelled(
    n: Node, kind: string, namespace: string, name: string, status: Status, drillable: bool)
  {
    && n.id == kind + "/" + namespace + "/" + name
    && n.kind == kind && n.namespace == namespace && n.name == name && n.apiGroup == KindGroup(kind)
    && n.status == status && n.drillable == drillable && n.group == "" && n.weight == 1 && n.externalPeers == 0
  }

  lemma PlainIsSpelled(n: Node, kind: string, namespace: string, name: string, status: Status, drillable: bool)
    ensures n == Stored(Plain(kind, namespace, name, status, drillable, 1))
            <==> Spelled(n, kind, namespace, name, status, drillable)
  {
    hide KindGroup;
  }

  // The bookkeeping

  /** `ids` are the IDs of `nodes`, which are distinct; every node came from `written`. */
  ghost predicate NodesKept(nodes: seq<Node>, ids: set<string>, written: set<Node>) {
    && DistinctNodes(nodes)
    && (forall i :: 0 <= i < |nodes| ==> nodes[i].id in ids && nodes[i] in written)
    && (forall id :: id in ids ==> exists i :: 0 <= i < |nodes| && nodes[i].id == id)
    && (forall n :: n in written ==> n.id in ids)
  }

  ghost predicate EdgesKept(edges: seq<Edge>, edgeSet: set<Edge>) {
    && DistinctEdges(edges)
    && (forall i :: 0 <= i < |edges| ==> edges[i] in edgeSet)
    && (forall e :: e in edgeSet ==> e in edges)
  }

  ghost predicate GroupsKept(groups: seq<Group>, ids: set<string>) {
    && DistinctGroups(groups)
    && (forall i :: 0 <= i < |groups| ==> groups[i].id in ids)
    && (forall id :: id in ids ==> exists i :: 0 <= i < |groups| && groups[i].id == id)
  }

  ghost predicate EdgesClosed(edgeSet: set<Edge>, nodeIds: set<string>) {
    forall e :: e in edgeSet ==> e.source in nodeIds && e.target in nodeIds
  }

  ghost predicate GroupsClosed(nodes: seq<Node>, groupIds: set<string>) {
    forall i :: 0 <= i < |nodes| ==> nodes[i].group == "" || nodes[i].group in groupIds
  }

  /** A group stands for a machine or a namespace: its ID is spelled from its kind and its name. */
  ghost predicate Labelled(g: Group) {
    (g.kind == "Node" || g.kind == "Namespace") && g.id == NodeId(g.kind, "", g.name)
  }

  ghost predicate GroupsLabelled(groups: seq<Group>) {
    forall i :: 0 <= i < |groups| ==> Labelled(groups[i])
  }

  ghost function IdsIn(nodes: set<Node>): set<string> {
    set n | n in nodes :: n.id
  }

  lemma IdsInBoth(a: set<Node>, b: set<Node>)
    ensures IdsIn(a + b) == IdsIn(a) + IdsIn(b)
  {
  }

  lemma IdsInOne(n: Node)
    ensures IdsIn({n}) == {n.id} && IdsIn({}) == {}
  {
  }

  lemma WrittenIds(g: Builder)
    requires g.Valid()
    ensures g.nodeIds == IdsIn(g.written)
  {
  }

  lemma KeepOneMore(nodes: seq<Node>, ids: set<string>, written: set<Node>, n: Node)
    requires NodesKept(nodes, ids, written) && n.id !in ids
    ensures NodesKept(nodes + [n], ids + {n.id}, written + {n})
  {
    var all := nodes + [n];
    assert all[|nodes|] == n && forall i :: 0 <= i < |nodes| ==> all[i] == nodes[i];
  }

  lemma KeepOneMoreGroup(groups: seq<Group>, ids: set<string>, g: Group)
    requires GroupsKept(groups, ids) && g.id !in ids
    ensures GroupsKept(groups + [g], ids + {g.id})
  {
    var all := groups + [g];
    assert all[|groups|] == g && forall i :: 0 <= i < |groups| ==> all[i] == groups[i];
  }

  class Builder {
    const level: Level
    var nodes: seq<Node>
    var edges: seq<Edge>
    var groups: seq<Group>
    var nodeIds: set<string>
    var edgeSet: set<Edge>
    var groupIds: set<string>
    // every node handed to AddNode, as it would be stored
    ghost var written: set<Node>

    constructor (level: Level)
      ensures this.level == level && Valid() && Good(nodes)
      ensures nodes == [] && edges == [] && groups == []
      ensures nodeIds == {} && edgeSet == {} && groupIds == {} && written == {}
    {
      this.level := level;
      nodes, edges, groups := [], [], [];
      nodeIds, edgeSet, groupIds, written := {}, {}, {}, {};
    }

    /** The sets hold exactly what the sequences do, and nothing occurs twice. */
    ghost predicate Valid()
      reads this
    {
      NodesKept(nodes, nodeIds, written) && EdgesKept(edges, edgeSet) && GroupsKept(groups, groupIds)
    }

    /** The invariant every step keeps: sound bookkeeping, both ends of every edge and the group of
        every node present, groups labelled, and nothing drawn `before` the step changed. */
    ghost predicate Good(before: seq<Node>)
      reads this
    {
      Valid() && EdgesClosed(edgeSet, nodeIds) && GroupsClosed(nodes, groupIds) && GroupsLabelled(groups)
          && before <= nodes
    }

    /** The first node of an ID wins. */
    method AddNode(node: Node)
      requires Valid()
      modifies this`nodes, this`nodeIds, this`written
      ensures Valid()
      ensures nodeIds == old(nodeIds) + {node.id} && written == old(written) + {Stored(node)}
      ensures nodes == if node.id in old(nodeIds) then old(nodes) else old(nodes) + [Stored(node)]
      ensures forall before :: old(Good(before)) && (node.group == "" || node.group in groupIds) ==> Good(before)
    {
      hide Stored, EdgesKept, GroupsKept;
      if node.id in nodeIds {
        written := written + {Stored(node)};
        assert nodeIds == nodeIds + {node.id};
        return;
      }
      KeepOneMore(nodes, nodeIds, written, Stored(node));
      hide NodesKept;
      written := written + {Stored(node)};
      nodeIds := nodeIds + {node.id};
      nodes := nodes + [Stored(node)];
    }

    predicate HasNode(id: string)
      reads this
    {
      id in nodeIds
    }

    method AddEdge(source: string, target: string, kind: string)
      requires Valid()
      modifies this`edges, this`edgeSet
      ensures Valid()
      ensures edgeSet == old(edgeSet) + {Edge(source, target, kind)}
      ensures var edge := Edge(source, target, kind);
              edges == if edge in old(edgeSet) then old(edges) else old(edges) + [edge]
      ensures forall before :: old(Good(before)) && source in nodeIds && target in nodeIds ==> Good(before)
    {
      hide NodesKept, GroupsKept, GroupsClosed;
      var edge := Edge(source, target, kind);
      if edge in edgeSet {
        assert edgeSet == edgeSet + {edge};
        return;
      }
      edgeSet := edgeSet + {edge};
      edges := edges + [edge];
    }

    method AddGroup(id: string, name: string, kind: string)
      requires Valid()
      modifies this`groups, this`groupIds
      ensures Valid()
      ensures groupIds == old(groupIds) + {id}
      ensures groups == if id in old(groupIds) then old(groups) else old(groups) + [Group(id, name, kind)]
      ensures forall before :: old(Good(before)) && Labelled(Group(id, name, kind)) ==> Good(before)
    {
      hide NodesKept, EdgesKept, EdgesClosed, Labelled;
      if id in groupIds {
        assert groupIds == groupIds + {id};
        return;
      }
      KeepOneMoreGroup(groups, groupIds, Group(id, name, kind));
      hide GroupsKept;
      groupIds := groupIds + {id};
      groups := groups + [Group(id, name, kind)];
    }

    function Result(): (g: Graph)
      reads this
      ensures Valid() ==> DuplicateFree(g) && NodeIds(g.nodes) == nodeIds && GroupIds(g.groups) == groupIds
      ensures Valid() ==> forall e :: e in g.edges <==> e in edgeSet
      ensures Good(nodes) ==> Closed(g) && GroupsLabelled(g.groups)
    {
      Graph(level, nodes, edges, groups)
    }
  }

  /** What AddNode makes of the nodes: the first of an ID stays. */
  ghost function Added(nodes: seq<Node>, node: Node): seq<Node> {
    if node.id in NodeIds(nodes) then nodes else nodes + [Stored(node)]
  }

  lemma AddedNow(g: Builder, node: Node)
    requires g.Valid()
    ensures Added(g.nodes, node) == if node.id in g.nodeIds then g.nodes else g.nodes + [Stored(node)]
  {
    hide EdgesKept, GroupsKept, Stored;
  }

  lemma NodesAreWritten(g: Builder)
    requires g.Valid()
    ensures forall n :: n in g.nodes ==> n in g.written
  {
  }

  lemma GoodNow(g: Builder, before: seq<Node>)
    requires g.Good(before)
    ensures g.Good(g.nodes) && before <= g.nodes
  {
  }

  /** Where IDs tell the written nodes apart, every one of them is drawn. */
  lemma AllAreKept(nodes: seq<Node>, all: set<Node>)
    requires NodeIds(nodes) == IdsIn(all) && forall n :: n in nodes ==> n in all
    requires forall a, b :: a in all && b in all && a.id == b.id ==> a == b
    ensures forall n :: n in nodes <==> n in all
  {
    forall n | n in all ensures n in nodes {
      assert n.id in NodeIds(nodes);
      var k :| 0 <= k < |nodes| && nodes[k].id == n.id;
      assert nodes[k] == n;
    }
  }

  lemma KeptWithin(g: Builder, all: set<Node>)
    requires g.Valid() && g.nodeIds == IdsIn(all) && g.written <= all
    ensures NodesKept(g.nodes, IdsIn(all), all)
  {
  }
}
