/** The pure graph transformations of KubeDashboard.vm.ts: hiding nodes of a graph the server drew, and
    drawing a list of objects as a graph. */
module Dashboard {
  import opened GraphBuilder
  import opened TopologyGraph

  // withoutNodes

  ghost function VisibleIds(nodes: seq<Node>, keep: Node -> bool): set<string> {
    set n | n in nodes && keep(n) :: n.id
  }

  function IdsKept(nodes: seq<Node>, keep: Node -> bool): (ids: set<string>)
    ensures ids == VisibleIds(nodes, keep)
  {
    if nodes == [] then {}
    else
      var rest := IdsKept(nodes[1..], keep);
      assert nodes == [nodes[0]] + nodes[1..];
      if keep(nodes[0]) then {nodes[0].id} + rest else rest
  }

  function NodesWithin(nodes: seq<Node>, visible: set<string>): seq<Node> {
    if nodes == [] then []
    else (if nodes[0].id in visible then [nodes[0]] else []) + NodesWithin(nodes[1..], visible)
  }

  function EdgesWithin(edges: seq<Edge>, visible: set<string>): seq<Edge> {
    if edges == [] then []
    else (if edges[0].source in visible && edges[0].target in visible then [edges[0]] else [])
         + EdgesWithin(edges[1..], visible)
  }

  function WithoutNodes(g: Graph, keep: Node -> bool): Graph {
    var visible := IdsKept(g.nodes, keep);
    g.(nodes := NodesWithin(g.nodes, visible), edges := EdgesWithin(g.edges, visible))
  }

  lemma {:induction false} NodesWithinMeaning(nodes: seq<Node>, visible: set<string>)
    ensures forall n :: n in NodesWithin(nodes, visible) <==> n in nodes && n.id in visible
    ensures DistinctNodes(nodes) ==> DistinctNodes(NodesWithin(nodes, visible))
  {
    if nodes != [] {
      NodesWithinMeaning(nodes[1..], visible);
      assert nodes == [nodes[0]] + nodes[1..];
    }
  }

  lemma {:induction false} EdgesWithinMeaning(edges: seq<Edge>, visible: set<string>)
    ensures forall e :: e in EdgesWithin(edges, visible) <==> e in edges && e.source in visible && e.target in visible
    ensures DistinctEdges(edges) ==> DistinctEdges(EdgesWithin(edges, visible))
  {
    if edges != [] {
      EdgesWithinMeaning(edges[1..], visible);
      assert edges == [edges[0]] + edges[1..];
    }
  }

  /** Hiding nodes keeps a graph closed and free of duplicates, keeps exactly the wanted nodes, and
      loses exactly the edges that lost an end. */
  lemma HidingNodesKeepsGraphsClosed(g: Graph, keep: Node -> bool)
    requires DuplicateFree(g) && Closed(g)
    ensures var r := WithoutNodes(g, keep);
            && DuplicateFree(r) && Closed(r) && r.groups == g.groups && r.level == g.level
            && (forall n :: n in r.nodes <==> n in g.nodes && keep(n))
            && (forall e :: e in r.edges
                            <==> e in g.edges && e.source in NodeIds(r.nodes) && e.target in NodeIds(r.nodes))
  {
    hide IdsKept, NodesWithin, EdgesWithin;
    var r, visible := WithoutNodes(g, keep), IdsKept(g.nodes, keep);
    NodesWithinMeaning(g.nodes, visible);
    EdgesWithinMeaning(g.edges, visible);
    KeptAreWanted(g.nodes, keep, visible);
    VisibleAreKept(g.nodes, keep, r.nodes);
    GroupsStayDeclared(g, r);
  }

  lemma KeptAreWanted(nodes: seq<Node>, keep: Node -> bool, visible: set<string>)
    requires DistinctNodes(nodes) && visible == VisibleIds(nodes, keep)
    ensures forall n :: n in nodes && n.id in visible <==> n in nodes && keep(n)
  {
    forall n | n in nodes && n.id in visible ensures keep(n) {
      var m :| m in nodes && keep(m) && m.id == n.id;
      var i :| 0 <= i < |nodes| && nodes[i] == n;
      var j :| 0 <= j < |nodes| && nodes[j] == m;
    }
  }

  lemma VisibleAreKept(nodes: seq<Node>, keep: Node -> bool, kept: seq<Node>)
    requires forall n :: n in kept <==> n in nodes && keep(n)
    ensures NodeIds(kept) == VisibleIds(nodes, keep)
  {
    forall id | id in VisibleIds(nodes, keep) ensures id in NodeIds(kept) {
      var n :| n in nodes && keep(n) && n.id == id;
      var i :| 0 <= i < |kept| && kept[i] == n;
    }
  }

  lemma GroupsStayDeclared(g: Graph, r: Graph)
    requires Closed(g) && r.groups == g.groups && forall n :: n in r.nodes ==> n in g.nodes
    ensures forall i :: 0 <= i < |r.nodes| ==> r.nodes[i].group == "" || r.nodes[i].group in GroupIds(r.groups)
  {
    forall i | 0 <= i < |r.nodes| ensures r.nodes[i].group == "" || r.nodes[i].group in GroupIds(r.groups) {
      assert r.nodes[i] in g.nodes;
    }
  }

  // kindGraph

  /** A listed object; `namespace` is "" for an object of the cluster. */
  datatype KubeObject = KubeObject(group: string, kind: string, namespace: string, name: string, status: Status,
      drillable: bool)

  /** The distinct non-empty namespaces of the first n objects, in order of appearance. */
  function NamespacesOf(objects: seq<KubeObject>, n: nat): seq<string>
    requires n <= |objects|
  {
    if n == 0 then []
    else
      var before, namespace := NamespacesOf(objects, n - 1), objects[n - 1].namespace;
      if namespace == "" || namespace in before then before else before + [namespace]
  }

  function GroupId(namespace: string): (id: string)
    ensures id != ""
  {
    NodeId("Namespace", "", namespace)
  }

  function NamespaceGroups(namespaces: seq<string>): (groups: seq<Group>)
    ensures |groups| == |namespaces| && forall i :: 0 <= i < |groups| ==> groups[i].id == GroupId(namespaces[i])
  {
    if namespaces == [] then []
    else NamespaceGroups(namespaces[..|namespaces| - 1])
         + [Group(GroupId(namespaces[|namespaces| - 1]), namespaces[|namespaces| - 1], "Namespace")]
  }

  function ObjectNode(o: KubeObject, grouped: bool): Node {
    Node(NodeId(o.kind, o.namespace, o.name), o.kind, o.group, o.name, o.namespace, o.status, o.drillable,
         if grouped && o.namespace != "" then GroupId(o.namespace) else "", 1, 0)
  }

  function ObjectNodes(objects: seq<KubeObject>, grouped: bool): (nodes: seq<Node>)
    ensures |nodes| == |objects| && forall i :: 0 <= i < |nodes| ==> nodes[i] == ObjectNode(objects[i], grouped)
  {
    if objects == [] then []
    else ObjectNodes(objects[..|objects| - 1], grouped) + [ObjectNode(objects[|objects| - 1], grouped)]
  }

  function KindGraph(objects: seq<KubeObject>, groupByNamespace: bool): Graph {
    Graph(KindLevel, ObjectNodes(objects, groupByNamespace), [],
          if groupByNamespace then NamespaceGroups(NamespacesOf(objects, |objects|)) else [])
  }

  lemma {:induction false} NamespacesOfMeaning(objects: seq<KubeObject>, n: nat)
    requires n <= |objects|
    ensures forall namespace :: namespace in NamespacesOf(objects, n)
              <==> namespace != "" && exists i :: 0 <= i < n && objects[i].namespace == namespace
    ensures forall i, j :: 0 <= i < j < |NamespacesOf(objects, n)| ==>
              NamespacesOf(objects, n)[i] != NamespacesOf(objects, n)[j]
  {
    if n > 0 {
      NamespacesOfMeaning(objects, n - 1);
    }
  }

  /** A list of objects always makes a closed graph with distinct groups; it is free of duplicates
      exactly if the objects have distinct IDs, as the objects of one kind do. */
  lemma KindGraphsAreClosed(objects: seq<KubeObject>, groupByNamespace: bool)
    ensures var g := KindGraph(objects, groupByNamespace);
            && Closed(g) && DistinctGroups(g.groups)
            && (DuplicateFree(g) <==> forall i, j :: 0 <= i < j < |objects| ==>
                  NodeId(objects[i].kind, objects[i].namespace, objects[i].name)
                  != NodeId(objects[j].kind, objects[j].namespace, objects[j].name))
  {
    hide NodeId, NamespacesOf;
    var g, namespaces := KindGraph(objects, groupByNamespace), NamespacesOf(objects, |objects|);
    NamespacesOfMeaning(objects, |objects|);
    forall i, j | 0 <= i < j < |g.groups| ensures g.groups[i].id != g.groups[j].id {
      if g.groups[i].id == g.groups[j].id {
        SameIdSameName("Namespace", "", namespaces[i], namespaces[j]);
      }
    }
    forall i | 0 <= i < |g.nodes| ensures g.nodes[i].group == "" || g.nodes[i].group in GroupIds(g.groups) {
      if groupByNamespace && objects[i].namespace != "" {
        assert objects[i].namespace in namespaces;
        var k :| 0 <= k < |namespaces| && namespaces[k] == objects[i].namespace;
        assert g.groups[k].id == g.nodes[i].group;
      }
    }
  }
}
