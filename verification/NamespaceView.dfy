/** The namespace view of kube_namespace_graph.go: the owners of the pods, then nine steps in order,
    the later ones linking to what the earlier ones drew. */
module NamespaceView {
  import opened ConfigRefs
  import opened GatewayGraph
  import opened GenericOwners
  import opened GraphBuilder
  import opened KubeObjects
  import opened NamespaceEdges
  import opened NamespaceGraph
  import opened NamespaceNodes
  import opened NamespacePolicies
  import opened NetworkPolicies
  import opened PodAttribution
  import opened PodOwners
  import opened ServiceAccounts
  import opened Sets
  import opened TopologyGraph
  import opened Wrappers

  /** Every list the view reads; `gateways` is None where the Gateway API is not served. */
  datatype NamespaceLists = NamespaceLists(
    inv: Inventory, services: Listing<Service>, slices: Listing<EndpointSlice>, ingresses: Listing<Ingress>,
    gateways: Option<Listing<Gateway>>, routes: Families, claims: Listing<Claim>, volumes: Listing<PersistentVolume>,
    hpas: Listing<Autoscaler>, pdbs: Listing<DisruptionBudget>, policies: Listing<NetworkPolicy>,
    roleBindings: Listing<Binding>, clusterBindings: Listing<Binding>, quotas: Listing<Quota>,
    limits: Listing<LimitRange>)

  function OrNone<T>(listing: Listing<T>): seq<T> {
    if listing.Items? then listing.items else []
  }

  // The owners

  ghost predicate OwnersFit(owners: NamespaceOwners) {
    Ungrouped(owners.owners) && forall name :: name in owners.podOwner ==>
        HasOwner(owners.owners, owners.podOwner[name])
  }

  method AddOwners(g: Builder, owners: NamespaceOwners)
    requires g.Valid() && OwnersFit(owners) && g.nodeIds == {}
    modifies g`nodes, g`nodeIds, g`written
    ensures g.Valid() && OwnersDrawn(g.nodeIds, owners) && OwnersShown(g.nodes, owners.owners)
    ensures forall before :: old(g.Good(before)) ==> g.Good(before)
    ensures g.written == old(g.written) + OwnerNodes(owners.owners, |owners.owners|)
  {
    hide Builder.Valid, Builder.Good, OwnersShown, OwnersDrawn, OwnerNodes, OwnerIds;
    AddEachOwner(g, owners.owners);
    EntriesAreDrawn(g.nodeIds, owners);
  }

  method AddEachOwner(g: Builder, owners: seq<Owner>)
    requires g.Valid() && Ungrouped(owners) && g.nodeIds == {}
    modifies g`nodes, g`nodeIds, g`written
    ensures g.Valid() && g.nodeIds == OwnerIds(owners, |owners|) && OwnersShown(g.nodes, owners)
    ensures forall before :: old(g.Good(before)) ==> g.Good(before)
    ensures g.written == old(g.written) + OwnerNodes(owners, |owners|)
  {
    ghost var written0 := g.written;
    NoneShown(g.nodes, owners);
    NoOwnersYet(written0, owners);
    hide Builder.Valid, Builder.Good, Stored, OwnersShown, ShownUpTo, OwnerIds, OwnerNodes;
    for i := 0 to |owners|
      invariant g.Valid() && forall before :: old(g.Good(before)) ==> g.Good(before)
      invariant g.nodeIds == OwnerIds(owners, i) && ShownUpTo(g.nodes, owners, i)
      invariant g.written == written0 + OwnerNodes(owners, i)
    {
      OwnersMore(written0, owners, i);
      AddOwner(g, owners, i);
    }
    AllShown(g.nodes, owners);
  }

  lemma NoOwnersYet(written: set<Node>, owners: seq<Owner>)
    ensures written == written + OwnerNodes(owners, 0)
  {
  }

  lemma OwnersMore(written: set<Node>, owners: seq<Owner>, i: nat)
    requires i < |owners|
    ensures written + OwnerNodes(owners, i + 1) == written + OwnerNodes(owners, i) + {Stored(owners[i].node)}
  {
    hide Stored;
  }

  method AddOwner(g: Builder, owners: seq<Owner>, i: nat)
    requires g.Valid() && i < |owners| && owners[i].node.group == ""
    requires g.nodeIds == OwnerIds(owners, i) && ShownUpTo(g.nodes, owners, i)
    modifies g`nodes, g`nodeIds, g`written
    ensures g.Valid() && g.nodeIds == OwnerIds(owners, i + 1) && ShownUpTo(g.nodes, owners, i + 1)
    ensures forall before :: old(g.Good(before)) ==> g.Good(before)
    ensures g.written == old(g.written) + {Stored(owners[i].node)}
  {
    hide Builder.Valid, Builder.Good, Stored, ShownUpTo, OwnerIds;
    ShownOneMore(g.nodes, owners, i);
    g.AddNode(owners[i].node);
  }

  lemma EntriesAreDrawn(ids: set<string>, owners: NamespaceOwners)
    requires OwnersFit(owners) && ids == OwnerIds(owners.owners, |owners.owners|)
    ensures OwnersDrawn(ids, owners)
  {
  }

  lemma AttributedOwnersFit(inv: Inventory)
    requires Readable(inv)
    ensures OwnersFit(NamespaceOwners(Attributed(inv).owners, Attributed(inv).podOwner))
  {
    hide Attributed;
    EveryEntryIsAnOwner(inv);
    OwnersAreUngrouped(inv);
  }

  /** A listed Gateway is drawn with its own status, whatever routes say of it, unless an owner or another
      Gateway has its ID. */
  ghost predicate GatewayShown(
    nodes: seq<Node>, owners: NamespaceOwners, namespace: string, gateways: seq<Gateway>, i: nat)
    requires i < |gateways|
  {
    && !HasOwner(owners.owners, NodeId("Gateway", namespace, gateways[i].name))
    && (forall k :: 0 <= k < |gateways| && k != i ==> gateways[k].name != gateways[i].name)
    ==> Stored(GatewayNode(namespace, gateways[i])) in nodes
  }

  ghost predicate GatewaysShown(
    nodes: seq<Node>, owners: NamespaceOwners, namespace: string, gateways: seq<Gateway>)
  {
    forall i :: 0 <= i < |gateways| ==> GatewayShown(nodes, owners, namespace, gateways, i)
  }

  lemma GatewaysShownInMore(
    before: seq<Node>, after: seq<Node>, owners: NamespaceOwners, namespace: string, gateways: seq<Gateway>)
    requires before <= after && GatewaysShown(before, owners, namespace, gateways)
    ensures GatewaysShown(after, owners, namespace, gateways)
  {
    forall i | 0 <= i < |gateways| ensures GatewayShown(after, owners, namespace, gateways, i) {
      assert GatewayShown(before, owners, namespace, gateways, i);
      hide HasOwner, NodeId, Stored, GatewayNode;
      assert forall n :: n in before ==> n in after;
    }
  }

  lemma {:induction false} GatewayNodesMeaning(namespace: string, gateways: seq<Gateway>, n: nat, node: Node)
    requires n <= |gateways|
    ensures node in GatewayNodes(namespace, gateways, n)
            <==> exists i :: 0 <= i < n && node == Stored(GatewayNode(namespace, gateways[i]))
  {
    hide Stored, GatewayNode;
    if n > 0 {
      GatewayNodesMeaning(namespace, gateways, n - 1, node);
    }
  }

  /** Before the routes, only an owner or a Gateway can have the ID of a Gateway. */
  lemma OnlyGatewaysOrOwners(owners: NamespaceOwners, o: NamespaceObjects, node: Node)
    requires node in NodesAtRoutes(owners, o) && node.id != "" && node.id[0] == 'G'
    ensures HasOwner(owners.owners, node.id) || node in GatewayNodes(o.namespace, o.gateways, |o.gateways|)
  {
    hide OwnerNodes, ServiceNodes, IngressNodes, GatewayNodes, HasOwner;
    IngressNodesAreIngresses(o.namespace, o.ingresses, |o.ingresses|);
    ServiceNodesMeaning(o.services, |o.services|);
    if node in OwnerNodes(owners.owners, |owners.owners|) {
      OwnerNodesMeaning(owners.owners, |owners.owners|, node.id);
      assert owners.owners[..|owners.owners|] == owners.owners;
    }
    if node in ServiceNodes(o.services, |o.services|) {
      assert node.id in IdsIn(ServiceNodes(o.services, |o.services|));
    }
  }

  lemma GatewayIsShown(nodes: seq<Node>, owners: NamespaceOwners, o: NamespaceObjects, i: nat)
    requires NodesKept(nodes, IdsIn(NodesAtRoutes(owners, o)), NodesAtRoutes(owners, o)) && i < |o.gateways|
    ensures GatewayShown(nodes, owners, o.namespace, o.gateways, i)
  {
    hide NodesAtIngresses, IngressNodes, GatewayNodes, GatewayNode, HasOwner, Stored;
    var name := o.gateways[i].name;
    var id := NodeId("Gateway", o.namespace, name);
    if !HasOwner(owners.owners, id)
       && forall k :: 0 <= k < |o.gateways| && k != i ==> o.gateways[k].name != name {
      var node := Stored(GatewayNode(o.namespace, o.gateways[i]));
      GatewayNodesMeaning(o.namespace, o.gateways, |o.gateways|, node);
      assert node in NodesAtRoutes(owners, o) && id in IdsIn(NodesAtRoutes(owners, o));
      var j :| 0 <= j < |nodes| && nodes[j].id == id;
      assert id[0] == 'G';
      OnlyGatewaysOrOwners(owners, o, nodes[j]);
      GatewayNodesMeaning(o.namespace, o.gateways, |o.gateways|, nodes[j]);
      var k :| 0 <= k < |o.gateways| && nodes[j] == Stored(GatewayNode(o.namespace, o.gateways[k]));
      assert id == NodeId("Gateway", o.namespace, o.gateways[k].name);
      SameIdSameName("Gateway", o.namespace, name, o.gateways[k].name);
    }
  }

  lemma GatewaysAreShown(nodes: seq<Node>, owners: NamespaceOwners, o: NamespaceObjects)
    requires NodesKept(nodes, IdsIn(NodesAtRoutes(owners, o)), NodesAtRoutes(owners, o))
    ensures GatewaysShown(nodes, owners, o.namespace, o.gateways)
  {
    hide NodesKept, NodesAtRoutes, GatewayShown;
    forall i | 0 <= i < |o.gateways| ensures GatewayShown(nodes, owners, o.namespace, o.gateways, i) {
      GatewayIsShown(nodes, owners, o, i);
    }
  }

  /** The owners and the first steps, up to what pods depend on. */
  method DrawWorkloads(g: Builder, owners: NamespaceOwners, o: NamespaceObjects)
    requires g.Valid() && g.Good(g.nodes) && g.nodeIds == {} && g.edgeSet == {} && g.written == {}
    requires OwnersFit(owners) && OtherKinds(o.routes)
    modifies g`nodes, g`nodeIds, g`written, g`edges, g`edgeSet
    ensures g.Valid() && g.Good(old(g.nodes)) && OwnersDrawn(g.nodeIds, owners) && OwnersShown(g.nodes, owners.owners)
    ensures g.nodeIds == IdsIn(NodesAtAutoscalers(owners, o)) && g.written <= NodesAtAutoscalers(owners, o)
    ensures g.edgeSet == WorkloadEdges(owners, o) && GatewaysShown(g.nodes, owners, o.namespace, o.gateways)
  {
    hide GatewaysShown, NodesKept;
    hide Builder.Valid, Builder.Good, NoAllows, NoPolicies, OwnersFit, OtherKinds, OwnersDrawn, SameServices, IdsIn;
    hide OwnersShown;
    hide OwnerNodes, ServiceNodes, IngressNodes, GatewayNodes, AllRouteNodes, DependencyNodes;
    hide ServiceEdges, IngressEdges, AllRouteEdges, DependencyEdges;
    UnionEmpty(OwnerNodes(owners.owners, |owners.owners|));
    UnionEmpty(ServiceEdges(o.services, o.slices, owners, |o.services|));
    AddOwners(g, owners);
    ghost var ids0, nodes0 := g.nodeIds, g.nodes;
    GoodNow(g, old(g.nodes));
    AddServices(g, o.services, o.slices, owners);
    WrittenIds(g);
    AddIngresses(g, o.namespace, o.ingresses);
    AddGateways(g, o.namespace, o.gateways);
    WrittenIds(g);
    ghost var nodes1 := g.nodes;
    GoodNow(g, nodes0);
    KeptWithin(g, NodesAtRoutes(owners, o));
    GatewaysAreShown(g.nodes, owners, o);
    AddAllRoutes(g, o.namespace, o.routes);
    StillDrawn(ids0, g.nodeIds, owners);
    ghost var ids1, written1 := g.nodeIds, g.written;
    WrittenIds(g);
    AddConfigRefs(g, o.namespace, o.claims, o.volumes, owners);
    WrittenIds(g);
    ghost var routes, more := AllRouteNodes(o.namespace, o.routes, |o.routes|),
        DependencyNodes(o.namespace, o.claims, o.volumes, owners);
    IdsInBoth(written1, more);
    IdsInBoth(NodesAtRoutes(owners, o), routes);
    IdsInBoth(NodesAtRoutes(owners, o) + routes, more);
    StillDrawn(ids1, g.nodeIds, owners);
    GoodNow(g, nodes1);
    ShownAmongMore(nodes0, g.nodes, owners.owners);
    GatewaysShownInMore(nodes1, g.nodes, owners, o.namespace, o.gateways);
  }

  /** The steps from the autoscalers to the NetworkPolicies. */
  method DrawPolicies(g: Builder, owners: NamespaceOwners, o: NamespaceObjects)
    requires g.Valid() && OwnersDrawn(g.nodeIds, owners)
    requires g.nodeIds == IdsIn(NodesAtAutoscalers(owners, o)) && g.written <= NodesAtAutoscalers(owners, o)
    modifies g`nodes, g`nodeIds, g`written, g`edges, g`edgeSet
    ensures g.Valid()
    ensures forall before :: old(g.Good(before)) ==> g.Good(before)
    ensures g.nodeIds == IdsIn(NodesAtAccounts(owners, o)) && g.written <= NodesAtAccounts(owners, o)
    ensures OwnersDrawn(g.nodeIds, owners)
    ensures g.edgeSet == old(g.edgeSet)
              + ScaleEdges(o.namespace, o.hpas, IdsIn(NodesAtAutoscalers(owners, o)), |o.hpas|)
              + ProtectEdges(o.namespace, owners, o.pdbs, |o.pdbs|)
              + AllPolicyEdges(o.namespace, owners, o.policies, |o.policies|)
  {
    hide Builder.Valid, Builder.Good, NoAllows, NoPolicies, OwnersDrawn, IdsIn, NodesAtAutoscalers;
    hide ScalerNodes, BudgetNodes, AllPolicyNodes, ScaleEdges, ProtectEdges, AllPolicyEdges;
    ghost var ids0, written0 := g.nodeIds, g.written;
    WrittenIds(g);
    AddAutoscalers(g, o.namespace, o.hpas);
    StillDrawn(ids0, g.nodeIds, owners);
    ghost var ids1 := g.nodeIds;
    AddDisruptionBudgets(g, o.namespace, o.pdbs, owners);
    StillDrawn(ids1, g.nodeIds, owners);
    ghost var ids2 := g.nodeIds;
    AddNetworkPolicies(g, o.namespace, o.policies, owners);
    StillDrawn(ids2, g.nodeIds, owners);
    WrittenIds(g);
    SameIds(written0, NodesAtAutoscalers(owners, o), ScalerNodes(o.namespace, o.hpas, |o.hpas|),
            BudgetNodes(o.namespace, o.pdbs, |o.pdbs|), AllPolicyNodes(o.namespace, o.policies, |o.policies|));
  }

  lemma SameIds(written: set<Node>, all: set<Node>, a: set<Node>, b: set<Node>, c: set<Node>)
    requires IdsIn(written) == IdsIn(all)
    ensures IdsIn(written + a + b + c) == IdsIn(all + a + b + c)
  {
    hide IdsIn;
    IdsInBoth(written, a);
    IdsInBoth(written + a, b);
    IdsInBoth(written + a + b, c);
    IdsInBoth(all, a);
    IdsInBoth(all + a, b);
    IdsInBoth(all + a + b, c);
  }

  /** The last steps. */
  method DrawAccounts(g: Builder, owners: NamespaceOwners, o: NamespaceObjects, usedBy: Users)
    requires g.Valid() && OwnersDrawn(g.nodeIds, owners) && UsersAre(usedBy, owners.owners, |owners.owners|)
    requires g.nodeIds == IdsIn(NodesAtAccounts(owners, o)) && g.written <= NodesAtAccounts(owners, o)
    modifies g`nodes, g`nodeIds, g`written, g`edges, g`edgeSet
    ensures g.Valid()
    ensures forall before :: old(g.Good(before)) ==> g.Good(before)
    ensures g.nodeIds == IdsIn(ViewNodes(owners, o)) && g.written <= ViewNodes(owners, o)
    ensures g.edgeSet == old(g.edgeSet)
              + RbacEdges(o.namespace, UsersBy(owners.owners), o.bindings, AccountsDrawn(owners, o))
  {
    hide Builder.Valid, Builder.Good, NoAllows, NoPolicies, OwnersDrawn, IdsIn, NodesAtAccounts, UsersAre, UsersDrawn;
    hide UsersBy, AccountsIn;
    hide DrawnAccounts, RbacEdges, RbacNodes, QuotaNodes, LimitNodes;
    ghost var written0 := g.written;
    UsersAreDrawn(g.nodeIds, owners, usedBy);
    UsersAreUsersBy(owners.owners, usedBy);
    WrittenIds(g);
    ghost var drawn := AddServiceAccounts(g, o.namespace, usedBy, o.bindings);
    WrittenIds(g);
    IdsInBoth(written0, RbacNodes(o.namespace, o.bindings, drawn));
    IdsInBoth(NodesAtAccounts(owners, o), RbacNodes(o.namespace, o.bindings, drawn));
    AddQuotas(g, o.namespace, o.quotas);
    AddLimitRanges(g, o.namespace, o.limits);
    WrittenIds(g);
    SameIds(written0, NodesAtAccounts(owners, o), RbacNodes(o.namespace, o.bindings, drawn),
            QuotaNodes(o.namespace, o.quotas, |o.quotas|), LimitNodes(o.namespace, o.limits, |o.limits|));
  }

  // Reading the lists

  predicate Mandatory(lists: NamespaceLists) {
    && lists.services.Items? && lists.ingresses.Items? && lists.claims.Items?
    && !lists.hpas.Failed? && !lists.pdbs.Failed? && !lists.policies.Failed? && !lists.quotas.Failed?
  }

  /** Where the ResourceQuotas are hidden, the LimitRanges are not asked for. */
  predicate LimitsReadable(lists: NamespaceLists) {
    lists.quotas.Items? ==> !lists.limits.Failed?
  }

  /** Without Gateways to list there are no routes either. */
  function RoutesIn(lists: NamespaceLists): Option<seq<KindRoute>> {
    if lists.gateways.None? || lists.gateways.value.Hidden? then Some([])
    else if lists.gateways.value.Failed? then None
    else RoutesFrom(lists.routes)
  }

  /** Where no pods run, the bindings are not asked for. */
  ghost function BindingsIn(lists: NamespaceLists, owners: seq<Owner>): Option<seq<AccountBinding>> {
    if owners == [] then Some([])
    else BindingsFor(lists.inv.namespace, AccountsIn(owners), lists.roleBindings, lists.clusterBindings)
  }

  /** The bindings of the namespace that are looked at, and those of the cluster, which are not where the
      former are hidden. */
  function OwnBindings(lists: NamespaceLists): seq<Binding> {
    OrNone(lists.roleBindings)
  }

  function AllBindings(lists: NamespaceLists): seq<Binding> {
    if lists.roleBindings.Items? then OrNone(lists.clusterBindings) else []
  }

  lemma BindingsRead(lists: NamespaceLists, owners: seq<Owner>)
    requires BindingsIn(lists, owners).Some?
    ensures BindingsIn(lists, owners).value
            == AccountBindings(lists.inv.namespace, AccountsIn(owners), OwnBindings(lists), AllBindings(lists))
  {
    var namespace, own, all := lists.inv.namespace, OwnBindings(lists), AllBindings(lists);
    NoAccountsNoBindings(own, "RoleBinding", namespace, namespace, |own|);
    NoAccountsNoBindings(all, "ClusterRoleBinding", "", namespace, |all|);
    hide BindingsNaming;
    if owners == [] {
      assert AccountsIn(owners) == {};
    }
  }

  ghost predicate ViewReadable(lists: NamespaceLists, owners: seq<Owner>) {
    Mandatory(lists) && LimitsReadable(lists) && RoutesIn(lists).Some? && BindingsIn(lists, owners).Some?
  }

  function ObjectsFrom(lists: NamespaceLists, routes: seq<KindRoute>, bindings: seq<AccountBinding>): NamespaceObjects {
    NamespaceObjects(
      lists.inv.namespace, OrNone(lists.services), OrNone(lists.slices), OrNone(lists.ingresses),
      if lists.gateways.Some? then OrNone(lists.gateways.value) else [], routes,
      OrNone(lists.claims), OrNone(lists.volumes), OrNone(lists.hpas), OrNone(lists.pdbs), OrNone(lists.policies),
      bindings, OrNone(lists.quotas), if lists.quotas.Items? then OrNone(lists.limits) else [])
  }

  ghost function ObjectsIn(lists: NamespaceLists, owners: seq<Owner>): NamespaceObjects
    requires ViewReadable(lists, owners)
  {
    ObjectsFrom(lists, RoutesIn(lists).value, BindingsIn(lists, owners).value)
  }

  method ReadRoutesIn(lists: NamespaceLists) returns (routes: Option<seq<KindRoute>>)
    ensures routes == RoutesIn(lists)
    ensures routes.Some? ==> OtherKinds(routes.value)
  {
    hide OtherKind, RoutesFrom;
    if lists.gateways.None? || lists.gateways.value.Hidden? {
      return Some([]);
    }
    if lists.gateways.value.Failed? {
      return None;
    }
    routes := ReadRoutes(lists.routes);
  }

  method ReadBindingsIn(
    lists: NamespaceLists, owners: NamespaceOwners) returns (usedBy: Users, bindings: Option<seq<AccountBinding>>)
    ensures UsersAre(usedBy, owners.owners, |owners.owners|) && bindings == BindingsIn(lists, owners.owners)
  {
    hide BindingsFor, AccountOf, UsersOf, AccountsIn;
    usedBy := CollectUsers(owners);
    UsersAreUsersBy(owners.owners, usedBy);
    if |owners.owners| == 0 {
      return usedBy, Some([]);
    }
    bindings := ReadBindings(lists.inv.namespace, usedBy.Keys, lists.roleBindings, lists.clusterBindings);
  }

  // The view

  ghost function OwnersIn(inv: Inventory): NamespaceOwners
    requires Readable(inv)
  {
    NamespaceOwners(Attributed(inv).owners, Attributed(inv).podOwner)
  }

  ghost predicate Answers(lists: NamespaceLists) {
    Readable(lists.inv) && ViewReadable(lists, OwnersIn(lists.inv).owners)
  }

  /** The graph shows exactly the IDs some step draws, each as one of the steps draws it, and exactly
      the edges of all steps. */
  ghost predicate Shows(view: Graph, owners: NamespaceOwners, o: NamespaceObjects) {
    && NodeIds(view.nodes) == IdsIn(ViewNodes(owners, o))
    && (forall n :: n in view.nodes ==> n in ViewNodes(owners, o))
    && forall e :: e in view.edges <==> e in ViewEdges(owners, o)
  }

  // What the edges of the view say

  /** The view has an edge exactly where one of the reasons for an edge holds. */
  ghost predicate EdgesExact(
    view: Graph, owners: NamespaceOwners, o: NamespaceObjects, own: seq<Binding>, all: seq<Binding>)
  {
    forall e :: e in view.edges <==> Justified(owners, o, own, all, e)
  }

  lemma EdgesInGraph(
    view: Graph, owners: NamespaceOwners, o: NamespaceObjects, own: seq<Binding>, all: seq<Binding>)
    requires Shows(view, owners, o)
    requires o.bindings == AccountBindings(o.namespace, AccountsIn(owners.owners), own, all)
    ensures EdgesExact(view, owners, o, own, all)
  {
    hide Justified, ViewEdges, ViewNodes, IdsIn, UsersBy, AccountBindings, AccountsIn;
    forall e ensures e in view.edges <==> Justified(owners, o, own, all, e) {
      EdgesAreJustified(owners, o, own, all, e);
    }
  }

  // What its nodes stand for

  /** Every node of the view stands for something, and everything that is to be drawn has its ID there. */
  ghost predicate NodesExact(
    view: Graph, owners: NamespaceOwners, o: NamespaceObjects, own: seq<Binding>, all: seq<Binding>)
  {
    && (forall n :: n in view.nodes ==> StandsFor(owners, o, own, all, n))
    && forall n :: StandsFor(owners, o, own, all, n) ==> n.id in NodeIds(view.nodes)
  }

  lemma NodesInGraph(
    view: Graph, owners: NamespaceOwners, o: NamespaceObjects, own: seq<Binding>, all: seq<Binding>)
    requires Shows(view, owners, o)
    requires o.bindings == AccountBindings(o.namespace, AccountsIn(owners.owners), own, all)
    ensures NodesExact(view, owners, o, own, all)
  {
    hide StandsFor, ViewEdges, ViewNodes, UsersBy, AccountBindings, AccountsIn, NodeIds;
    forall n ensures n in ViewNodes(owners, o) <==> StandsFor(owners, o, own, all, n) {
      NodesAreJustified(owners, o, own, all, n);
    }
  }

  // NetworkPolicies in the view

  lemma AllowsInView(owners: NamespaceOwners, o: NamespaceObjects, s: string, t: string)
    ensures Edge(s, t, "allows") in ViewEdges(owners, o)
            <==> exists i :: 0 <= i < |o.policies| && Permits(owners, o.policies[i], s, t)
  {
    hide Permits, ServiceEdges, IngressEdges, AllRouteEdges, DependencyEdges, ScaleEdges, ProtectEdges, AllPolicyEdges;
    hide RbacEdges;
    hide NodesAtIngresses, NodesAtRoutes, NodesAtAutoscalers, IdsIn;
    AllowsAreExact(o.namespace, owners, o.policies, s, t);
  }

  /** An "allows" edge joins exactly the owners some policy lets traffic flow between. */
  ghost predicate AllowsExact(view: Graph, owners: NamespaceOwners, policies: seq<NetworkPolicy>) {
    forall s, t :: Edge(s, t, "allows") in view.edges
        <==> exists i :: 0 <= i < |policies| && Permits(owners, policies[i], s, t)
  }

  lemma AllowsInGraph(view: Graph, owners: NamespaceOwners, o: NamespaceObjects)
    requires Shows(view, owners, o)
    ensures AllowsExact(view, owners, o.policies)
  {
    hide Permits, ViewEdges, ViewNodes, IdsIn, UsersBy;
    forall s, t
      ensures Edge(s, t, "allows") in view.edges
              <==> exists i :: 0 <= i < |o.policies| && Permits(owners, o.policies[i], s, t)
    {
      AllowsInView(owners, o, s, t);
    }
  }

  /** Before the ServiceAccounts, only an owner or a policy can have the ID of a policy. */
  lemma OnlyPoliciesOrOwners(owners: NamespaceOwners, o: NamespaceObjects, node: Node)
    requires node in NodesAtAccounts(owners, o) && OtherKinds(o.routes) && node.id != "" && node.id[0] == 'N'
    ensures HasOwner(owners.owners, node.id) || node in AllPolicyNodes(o.namespace, o.policies, |o.policies|)
  {
    hide OwnerNodes, ServiceNodes, IngressNodes, GatewayNodes, AllRouteNodes, DependencyNodes, ScalerNodes;
    hide BudgetNodes, AllPolicyNodes, HasOwner;
    RouteNodesAreNotPolicies(o.namespace, o.routes, |o.routes|);
    DependencyNodesAreNotPolicies(o.namespace, o.claims, o.volumes, owners);
    if node in OwnerNodes(owners.owners, |owners.owners|) {
      OwnerNodesMeaning(owners.owners, |owners.owners|, node.id);
      assert owners.owners[..|owners.owners|] == owners.owners;
    }
  }

  /** A policy with a valid selector is drawn with the number of peers the graph cannot show, unless
      an owner or another policy has its ID. */
  ghost predicate PolicyShown(
    nodes: seq<Node>, owners: NamespaceOwners, namespace: string, policies: seq<NetworkPolicy>, i: nat)
    requires i < |policies|
  {
    && policies[i].podSelector.Valid? && !HasOwner(owners.owners, NodeId("NetworkPolicy", namespace, policies[i].name))
    && (forall k :: 0 <= k < |policies| && k != i ==> policies[k].name != policies[i].name)
    ==> Stored(PolicyNode(namespace, policies[i])) in nodes
  }

  lemma PolicyIsShown(nodes: seq<Node>, owners: NamespaceOwners, o: NamespaceObjects, i: nat)
    requires NodesKept(nodes, IdsIn(NodesAtAccounts(owners, o)), NodesAtAccounts(owners, o)) && OtherKinds(o.routes)
    requires i < |o.policies|
    ensures PolicyShown(nodes, owners, o.namespace, o.policies, i)
  {
    hide NodesAtAutoscalers, ScalerNodes, BudgetNodes, AllPolicyNodes, PolicyNode, HasOwner, Stored;
    var policy := o.policies[i];
    var id, all := NodeId("NetworkPolicy", o.namespace, policy.name),
        AllPolicyNodes(o.namespace, o.policies, |o.policies|);
    if policy.podSelector.Valid? && !HasOwner(owners.owners, id)
       && forall k :: 0 <= k < |o.policies| && k != i ==> o.policies[k].name != policy.name {
      var node := Stored(PolicyNode(o.namespace, policy));
      PolicyNodesMeaning(o.namespace, o.policies, |o.policies|, node);
      assert node in NodesAtAccounts(owners, o) && id in IdsIn(NodesAtAccounts(owners, o));
      var j :| 0 <= j < |nodes| && nodes[j].id == id;
      assert id[0] == 'N';
      OnlyPoliciesOrOwners(owners, o, nodes[j]);
      PolicyNodesMeaning(o.namespace, o.policies, |o.policies|, nodes[j]);
      var k :| 0 <= k < |o.policies| && nodes[j] == Stored(PolicyNode(o.namespace, o.policies[k]));
      assert Stored(PolicyNode(o.namespace, o.policies[k])).id == PolicyNode(o.namespace, o.policies[k]).id;
      assert PolicyNode(o.namespace, o.policies[k]).id == NodeId("NetworkPolicy", o.namespace, o.policies[k].name);
      assert id == nodes[j].id;
      SameIdSameName("NetworkPolicy", o.namespace, policy.name, o.policies[k].name);
    }
  }

  /** Drawing, once everything is read. */
  method Draw(owners: NamespaceOwners, o: NamespaceObjects, usedBy: Users) returns (view: Graph,
      ghost mid: seq<Node>)
    requires OwnersFit(owners) && OtherKinds(o.routes) && UsersAre(usedBy, owners.owners, |owners.owners|)
    ensures DuplicateFree(view) && Closed(view) && view.level == NamespaceLevel && view.groups == []
    ensures Shows(view, owners, o) && OwnersShown(view.nodes, owners.owners)
    ensures GatewaysShown(view.nodes, owners, o.namespace, o.gateways)
    ensures mid <= view.nodes && NodesKept(mid, IdsIn(NodesAtAccounts(owners, o)), NodesAtAccounts(owners, o))
  {
    hide Builder.Good, NoAllows, NoPolicies, OwnersFit, OtherKinds, OwnersDrawn, IdsIn, UsersAre, UsersBy;
    hide NodesAtAutoscalers, NodesAtAccounts, ViewNodes, WorkloadEdges, ScaleEdges, ProtectEdges, AllPolicyEdges;
    hide RbacEdges;
    hide DuplicateFree, Closed, NodesKept, EdgesKept, GroupsKept, EdgesClosed, GroupsClosed, OwnersShown;
    hide GatewaysShown;
    var g := new Builder(NamespaceLevel);
    DrawWorkloads(g, owners, o);
    ghost var early := g.nodes;
    GoodNow(g, []);
    DrawPolicies(g, owners, o);
    mid := g.nodes;
    GoodNow(g, early);
    KeptWithin(g, NodesAtAccounts(owners, o));
    DrawAccounts(g, owners, o, usedBy);
    GoodNow(g, mid);
    ShownAmongMore(early, g.nodes, owners.owners);
    GatewaysShownInMore(early, g.nodes, owners, o.namespace, o.gateways);
    NodesAreWritten(g);
    view := g.Result();
  }

  /** The view of these owners and objects: its nodes and its edges, those of policies among them. */
  ghost predicate IsViewOf(
    view: Graph, owners: NamespaceOwners, o: NamespaceObjects, own: seq<Binding>, all: seq<Binding>)
  {
    && Shows(view, owners, o) && EdgesExact(view, owners, o, own, all) && NodesExact(view, owners, o, own, all)
    && OwnersShown(view.nodes, owners.owners) && AllowsExact(view, owners, o.policies)
    && GatewaysShown(view.nodes, owners, o.namespace, o.gateways)
    && forall i :: 0 <= i < |o.policies| ==> PolicyShown(view.nodes, owners, o.namespace, o.policies, i)
  }

  ghost function ObjectsRead(lists: NamespaceLists): NamespaceObjects
    requires Answers(lists)
  {
    ObjectsIn(lists, OwnersIn(lists.inv).owners)
  }

  /** The Namespace method of the service. */
  method Namespace(lists: NamespaceLists) returns (view: Option<Graph>)
    ensures view.Some? <==> Answers(lists)
    ensures view.Some? ==> DuplicateFree(view.value) && Closed(view.value) && view.value.level == NamespaceLevel
    ensures view.Some? ==> view.value.groups == []
    ensures view.Some? ==>
              IsViewOf(view.value, OwnersIn(lists.inv), ObjectsRead(lists), OwnBindings(lists), AllBindings(lists))
  {
    hide Readable, Attributed, Mandatory, LimitsReadable, RoutesIn, BindingsIn, UsersAre, OtherKinds, OwnersFit;
    hide Shows, DuplicateFree, Closed, AccountBindings, OwnBindings, AllBindings, AccountsIn;
    hide NodesKept, IdsIn, NodesAtAccounts, PolicyShown, AllowsExact, EdgesExact, NodesExact, OwnersShown;
    hide GatewaysShown;
    var owners := ListPodOwners(lists.inv);
    if owners.None? {
      return None;
    }
    AttributedOwnersFit(lists.inv);
    var routes := ReadRoutesIn(lists);
    var usedBy, bindings := ReadBindingsIn(lists, owners.value);
    if !Mandatory(lists) || !LimitsReadable(lists) || routes.None? || bindings.None? {
      return None;
    }
    var objects := ObjectsFrom(lists, routes.value, bindings.value);
    var graph;
    ghost var mid;
    graph, mid := Draw(owners.value, objects, usedBy);
    BindingsRead(lists, owners.value.owners);
    EdgesInGraph(graph, owners.value, objects, OwnBindings(lists), AllBindings(lists));
    NodesInGraph(graph, owners.value, objects, OwnBindings(lists), AllBindings(lists));
    AllowsInGraph(graph, owners.value, objects);
    forall i | 0 <= i < |objects.policies|
      ensures PolicyShown(graph.nodes, owners.value, objects.namespace, objects.policies, i)
    {
      PolicyIsShown(mid, owners.value, objects, i);
      ShownInMore(mid, graph.nodes, owners.value, objects, i);
    }
    return Some(graph);
  }

  lemma ShownInMore(before: seq<Node>, after: seq<Node>, owners: NamespaceOwners, o: NamespaceObjects, i: nat)
    requires before <= after && i < |o.policies| && PolicyShown(before, owners, o.namespace, o.policies, i)
    ensures PolicyShown(after, owners, o.namespace, o.policies, i)
  {
    hide HasOwner, NodeId, Stored, PolicyNode;
    assert forall n :: n in before ==> n in after;
  }
}
