/** The cluster-wide access lens of kube_access_graph.go: subject, binding, role, without the bindings
    Kubernetes itself sets up. */
module AccessGraph {
  import opened GraphBuilder
  import opened KubeObjects
  import opened ServiceAccounts
  import opened Sets
  import opened Text
  import opened TopologyGraph
  import opened Wrappers

  const SYSTEM_PREFIX := "system:"

  const KUBE_PREFIX := "kube-"

  predicate SystemSubject(sub: Subject) {
    SYSTEM_PREFIX <= sub.name || KUBE_PREFIX <= sub.namespace
  }

  /** A binding of the system: called so, or for nobody but subjects of the system. */
  ghost predicate SystemBinding(name: string, subjects: seq<Subject>) {
    SYSTEM_PREFIX <= name || (subjects != [] && forall i :: 0 <= i < |subjects| ==> SystemSubject(subjects[i]))
  }

  method IsSystemBinding(name: string, subjects: seq<Subject>) returns (system: bool)
    ensures system == SystemBinding(name, subjects)
  {
    if SYSTEM_PREFIX <= name {
      return true;
    }
    for i := 0 to |subjects|
      invariant forall k :: 0 <= k < i ==> SystemSubject(subjects[k])
    {
      if !(SYSTEM_PREFIX <= subjects[i].name) && !(KUBE_PREFIX <= subjects[i].namespace) {
        return false;
      }
    }
    return |subjects| > 0;
  }

  // One binding

  function SubjectHome(namespace: string, sub: Subject): string {
    if sub.kind != "ServiceAccount" then ""
    else if sub.namespace == "" then namespace
    else sub.namespace
  }

  function SubjectNode(namespace: string, sub: Subject): (n: Node)
    ensures n.id == NodeId(sub.kind, SubjectHome(namespace, sub), sub.name) && n.group == ""
  {
    Plain(sub.kind, SubjectHome(namespace, sub), sub.name, Healthy, false, 1)
  }

  function GrantNode(kind: string, namespace: string, b: Binding): (n: Node)
    ensures n.id == NodeId(kind, namespace, b.name) && n.group == ""
  {
    Plain(kind, namespace, b.name, Healthy, false, 1)
  }

  ghost function SubjectEdges(namespace: string, id: string, subjects: seq<Subject>, n: nat): set<Edge>
    requires n <= |subjects|
  {
    if n == 0 then {}
    else SubjectEdges(namespace, id, subjects, n - 1) + {Edge(id, SubjectNode(namespace, subjects[n - 1]).id, "binds")}
  }

  ghost function SubjectNodes(namespace: string, subjects: seq<Subject>, n: nat): set<Node>
    requires n <= |subjects|
  {
    if n == 0 then {} else SubjectNodes(namespace, subjects, n - 1) + {Stored(SubjectNode(namespace, subjects[n - 1]))}
  }

  ghost function GrantEdges(kind: string, namespace: string, b: Binding): set<Edge> {
    var id := GrantNode(kind, namespace, b).id;
    SubjectEdges(namespace, id, b.subjects, |b.subjects|) + {Edge(id, RoleNode(namespace, b.roleRef).id, "grants")}
  }

  ghost function GrantNodes(kind: string, namespace: string, b: Binding): set<Node> {
    {Stored(GrantNode(kind, namespace, b))} + SubjectNodes(namespace, b.subjects, |b.subjects|)
        + {Stored(RoleNode(namespace, b.roleRef))}
  }

  method AddSubjects(g: Builder, namespace: string, id: string, subjects: seq<Subject>)
    requires g.Valid() && id in g.nodeIds
    modifies g`nodes, g`nodeIds, g`written, g`edges, g`edgeSet
    ensures g.Valid() && old(g.nodeIds) <= g.nodeIds
    ensures forall before :: old(g.Good(before)) ==> g.Good(before)
    ensures g.edgeSet == old(g.edgeSet) + SubjectEdges(namespace, id, subjects, |subjects|)
    ensures g.written == old(g.written) + SubjectNodes(namespace, subjects, |subjects|)
  {
    hide Builder.Valid, Builder.Good, Stored, SubjectNode;
    ghost var ids0, edges0, written0 := g.nodeIds, g.edgeSet, g.written;
    for i := 0 to |subjects|
      invariant g.Valid() && ids0 <= g.nodeIds && forall before :: old(g.Good(before)) ==> g.Good(before)
      invariant g.edgeSet == edges0 + SubjectEdges(namespace, id, subjects, i)
      invariant g.written == written0 + SubjectNodes(namespace, subjects, i)
    {
      var node := SubjectNode(namespace, subjects[i]);
      g.AddNode(node);
      g.AddEdge(id, node.id, "binds");
    }
  }

  method AddAccessBinding(g: Builder, kind: string, namespace: string, b: Binding)
    requires g.Valid()
    modifies g`nodes, g`nodeIds, g`written, g`edges, g`edgeSet
    ensures g.Valid()
    ensures forall before :: old(g.Good(before)) ==> g.Good(before)
    ensures g.edgeSet == old(g.edgeSet) + GrantEdges(kind, namespace, b)
    ensures g.written == old(g.written) + GrantNodes(kind, namespace, b)
  {
    hide Builder.Valid, Builder.Good, Stored, GrantNode, SubjectEdges, SubjectNodes;
    ghost var edges0, written0 := g.edgeSet, g.written;
    var binding, role := GrantNode(kind, namespace, b), RoleNode(namespace, b.roleRef);
    hide RoleNode;
    g.AddNode(binding);
    AddSubjects(g, namespace, binding.id, b.subjects);
    g.AddNode(role);
    g.AddEdge(binding.id, role.id, "grants");
    UnionAssoc(edges0, SubjectEdges(namespace, binding.id, b.subjects, |b.subjects|),
        {Edge(binding.id, role.id, "grants")});
    UnionAssoc4(written0, {Stored(binding)}, SubjectNodes(namespace, b.subjects, |b.subjects|), {Stored(role)});
  }

  // All bindings

  /** Bindings of the cluster have no namespace. */
  function Home(kind: string, b: Binding): string {
    if kind == "ClusterRoleBinding" then "" else b.namespace
  }

  ghost function AllGrantEdges(kind: string, bindings: seq<Binding>, n: nat): set<Edge>
    requires n <= |bindings|
  {
    if n == 0 then {}
    else if SystemBinding(bindings[n - 1].name, bindings[n - 1].subjects) then AllGrantEdges(kind, bindings, n - 1)
    else AllGrantEdges(kind, bindings, n - 1) + GrantEdges(kind, Home(kind, bindings[n - 1]), bindings[n - 1])
  }

  ghost function AllGrantNodes(kind: string, bindings: seq<Binding>, n: nat): set<Node>
    requires n <= |bindings|
  {
    if n == 0 then {}
    else if SystemBinding(bindings[n - 1].name, bindings[n - 1].subjects) then AllGrantNodes(kind, bindings, n - 1)
    else AllGrantNodes(kind, bindings, n - 1) + GrantNodes(kind, Home(kind, bindings[n - 1]), bindings[n - 1])
  }

  method AddAccessBindings(g: Builder, kind: string, bindings: seq<Binding>)
    requires g.Valid()
    modifies g`nodes, g`nodeIds, g`written, g`edges, g`edgeSet
    ensures g.Valid()
    ensures forall before :: old(g.Good(before)) ==> g.Good(before)
    ensures g.edgeSet == old(g.edgeSet) + AllGrantEdges(kind, bindings, |bindings|)
    ensures g.written == old(g.written) + AllGrantNodes(kind, bindings, |bindings|)
  {
    hide Builder.Valid, Builder.Good, SystemBinding, GrantEdges, GrantNodes, Home;
    ghost var edges0, written0 := g.edgeSet, g.written;
    for i := 0 to |bindings|
      invariant g.Valid() && forall before :: old(g.Good(before)) ==> g.Good(before)
      invariant g.edgeSet == edges0 + AllGrantEdges(kind, bindings, i)
      invariant g.written == written0 + AllGrantNodes(kind, bindings, i)
    {
      var b := bindings[i];
      var system := IsSystemBinding(b.name, b.subjects);
      if system {
        continue;
      }
      UnionAssoc(edges0, AllGrantEdges(kind, bindings, i), GrantEdges(kind, Home(kind, b), b));
      UnionAssoc(written0, AllGrantNodes(kind, bindings, i), GrantNodes(kind, Home(kind, b), b));
      AddAccessBinding(g, kind, Home(kind, b), b);
    }
  }

  ghost function AccessEdges(clusterBindings: seq<Binding>, roleBindings: seq<Binding>): set<Edge> {
    AllGrantEdges("ClusterRoleBinding", clusterBindings, |clusterBindings|)
        + AllGrantEdges("RoleBinding", roleBindings, |roleBindings|)
  }

  ghost function AccessNodes(clusterBindings: seq<Binding>, roleBindings: seq<Binding>): set<Node> {
    AllGrantNodes("ClusterRoleBinding", clusterBindings, |clusterBindings|)
        + AllGrantNodes("RoleBinding", roleBindings, |roleBindings|)
  }

  /** A node that is determined by its kind, namespace and name. */
  ghost predicate IsSimple(node: Node) {
    node == Stored(Plain(node.kind, node.namespace, node.name, Healthy, false, 1))
  }

  lemma PlainIsSimple(kind: string, namespace: string, name: string)
    ensures IsSimple(Stored(Plain(kind, namespace, name, Healthy, false, 1)))
  {
    hide NodeId, KindGroup;
  }

  lemma {:induction false} SubjectNodesAreSimple(namespace: string, subjects: seq<Subject>, n: nat, node: Node)
    requires n <= |subjects| && node in SubjectNodes(namespace, subjects, n)
    ensures IsSimple(node)
  {
    hide IsSimple, Stored, SubjectHome, Plain;
    if node in SubjectNodes(namespace, subjects, n - 1) {
      SubjectNodesAreSimple(namespace, subjects, n - 1, node);
    } else {
      var sub := subjects[n - 1];
      PlainIsSimple(sub.kind, SubjectHome(namespace, sub), sub.name);
    }
  }

  lemma GrantNodesAreSimple(kind: string, namespace: string, b: Binding, node: Node)
    requires node in GrantNodes(kind, namespace, b)
    ensures IsSimple(node)
  {
    hide IsSimple, Stored, Plain, SubjectNodes;
    PlainIsSimple(kind, namespace, b.name);
    PlainIsSimple(b.roleRef.kind, if b.roleRef.kind == "ClusterRole" then "" else namespace, b.roleRef.name);
    if node in SubjectNodes(namespace, b.subjects, |b.subjects|) {
      SubjectNodesAreSimple(namespace, b.subjects, |b.subjects|, node);
    }
  }

  lemma {:induction false} AllGrantNodesAreSimple(kind: string, bindings: seq<Binding>, n: nat, node: Node)
    requires n <= |bindings| && node in AllGrantNodes(kind, bindings, n)
    ensures IsSimple(node)
  {
    hide IsSimple, GrantNodes, SystemBinding, Home;
    if node in AllGrantNodes(kind, bindings, n - 1) {
      AllGrantNodesAreSimple(kind, bindings, n - 1, node);
    } else {
      GrantNodesAreSimple(kind, Home(kind, bindings[n - 1]), bindings[n - 1], node);
    }
  }

  /** No kind and no namespace has a slash, as in a cluster. */
  ghost predicate SlashFree(nodes: set<Node>) {
    forall n :: n in nodes ==> Free('/', n.kind) && Free('/', n.namespace)
  }

  lemma SimpleById(a: Node, b: Node)
    requires IsSimple(a) && IsSimple(b) && a.id == b.id
    requires Free('/', a.kind) && Free('/', b.kind) && Free('/', a.namespace) && Free('/', b.namespace)
    ensures a == b
  {
    NodeIdReads(a.kind, a.namespace, a.name, b.kind, b.namespace, b.name);
    hide NodeId, Free;
  }

  lemma NodeIdReads(kind1: string, namespace1: string, name1: string, kind2: string, namespace2: string, name2: string)
    requires Free('/', kind1) && Free('/', kind2) && Free('/', namespace1) && Free('/', namespace2)
    requires NodeId(kind1, namespace1, name1) == NodeId(kind2, namespace2, name2)
    ensures kind1 == kind2 && namespace1 == namespace2 && name1 == name2
  {
    assert NodeId(kind1, namespace1, name1) == kind1 + "/" + (namespace1 + "/" + name1);
    assert NodeId(kind2, namespace2, name2) == kind2 + "/" + (namespace2 + "/" + name2);
    FirstSeparatorSplits('/', kind1, namespace1 + "/" + name1, kind2, namespace2 + "/" + name2);
    FirstSeparatorSplits('/', namespace1, name1, namespace2, name2);
  }

  /** Where kinds and namespaces have no slash, the lens shows exactly the nodes its bindings call for. */
  lemma AccessNodesAreKept(clusterBindings: seq<Binding>, roleBindings: seq<Binding>, nodes: seq<Node>)
    requires SlashFree(AccessNodes(clusterBindings, roleBindings))
    requires NodeIds(nodes) == IdsIn(AccessNodes(clusterBindings, roleBindings))
    requires forall n :: n in nodes ==> n in AccessNodes(clusterBindings, roleBindings)
    ensures forall n :: n in nodes <==> n in AccessNodes(clusterBindings, roleBindings)
  {
    hide IdsIn, NodeIds, AllGrantNodes, IsSimple, Free;
    var all := AccessNodes(clusterBindings, roleBindings);
    forall n | n in all ensures IsSimple(n) {
      if n in AllGrantNodes("ClusterRoleBinding", clusterBindings, |clusterBindings|) {
        AllGrantNodesAreSimple("ClusterRoleBinding", clusterBindings, |clusterBindings|, n);
      } else {
        AllGrantNodesAreSimple("RoleBinding", roleBindings, |roleBindings|, n);
      }
    }
    hide AccessNodes;
    forall a, b | a in all && b in all && a.id == b.id ensures a == b {
      SimpleById(a, b);
    }
    AllAreKept(nodes, all);
  }

  method DrawAccess(clusterBindings: seq<Binding>, roleBindings: seq<Binding>) returns (view: Graph)
    ensures DuplicateFree(view) && Closed(view) && view.level == ClusterLevel
    ensures forall e :: e in view.edges <==> e in AccessEdges(clusterBindings, roleBindings)
    ensures NodeIds(view.nodes) == IdsIn(AccessNodes(clusterBindings, roleBindings))
    ensures forall n :: n in view.nodes ==> n in AccessNodes(clusterBindings, roleBindings)
  {
    hide Builder.Good, DuplicateFree, Closed, NodesKept, EdgesKept, GroupsKept, IdsIn, AllGrantEdges, AllGrantNodes;
    var g := new Builder(ClusterLevel);
    UnionEmpty(AllGrantEdges("ClusterRoleBinding", clusterBindings, |clusterBindings|));
    UnionEmpty(AllGrantNodes("ClusterRoleBinding", clusterBindings, |clusterBindings|));
    AddAccessBindings(g, "ClusterRoleBinding", clusterBindings);
    AddAccessBindings(g, "RoleBinding", roleBindings);
    GoodNow(g, []);
    WrittenIds(g);
    NodesAreWritten(g);
    view := g.Result();
  }

  /** Both lists are needed. */
  method AccessView(clusterBindings: Listing<Binding>, roleBindings: Listing<Binding>) returns (view: Option<Graph>)
    ensures view.Some? <==> clusterBindings.Items? && roleBindings.Items?
    ensures view.Some? ==> DuplicateFree(view.value) && Closed(view.value) && view.value.level == ClusterLevel
    ensures view.Some? ==> forall e :: e in view.value.edges
                             <==> e in AccessEdges(clusterBindings.items, roleBindings.items)
    ensures view.Some? ==> NodeIds(view.value.nodes) == IdsIn(AccessNodes(clusterBindings.items, roleBindings.items))
    ensures view.Some? ==> forall n :: n in view.value.nodes ==>
              n in AccessNodes(clusterBindings.items, roleBindings.items)
    ensures view.Some? && SlashFree(AccessNodes(clusterBindings.items, roleBindings.items)) ==>
              forall n :: n in view.value.nodes <==> n in AccessNodes(clusterBindings.items, roleBindings.items)
  {
    hide DuplicateFree, Closed, AccessEdges, AccessNodes, IdsIn, NodeIds, SlashFree;
    if !clusterBindings.Items? || !roleBindings.Items? {
      return None;
    }
    var graph := DrawAccess(clusterBindings.items, roleBindings.items);
    if SlashFree(AccessNodes(clusterBindings.items, roleBindings.items)) {
      AccessNodesAreKept(clusterBindings.items, roleBindings.items, graph.nodes);
    }
    return Some(graph);
  }

  /** Exactly the bindings that are not the system's are shown. */
  lemma {:induction false} UserBindingsAreShown(kind: string, bindings: seq<Binding>, n: nat, e: Edge)
    requires n <= |bindings|
    ensures e in AllGrantEdges(kind, bindings, n)
            <==> exists i :: 0 <= i < n && !SystemBinding(bindings[i].name, bindings[i].subjects)
                             && e in GrantEdges(kind, Home(kind, bindings[i]), bindings[i])
  {
    hide SystemBinding, GrantEdges, Home;
    if n > 0 {
      UserBindingsAreShown(kind, bindings, n - 1, e);
    }
  }
}
