/** What the namespace view draws, step by step, and what each of its edges says. */
module NamespaceEdges {
  import opened ConfigRefs
  import opened GatewayGraph
  import opened GraphBuilder
  import opened KubeObjects
  import opened NamespaceGraph
  import opened NamespacePolicies
  import opened NetworkPolicies
  import opened PodAttribution
  import opened PodOwners
  import opened PodSpecRefs
  import opened ServiceAccounts
  import opened TopologyGraph
  import opened Wrappers

  /** What is left to draw once the lists are read: a hidden family is empty. */
  datatype NamespaceObjects = NamespaceObjects(
    namespace: string, services: seq<Service>, slices: seq<EndpointSlice>, ingresses: seq<Ingress>,
    gateways: seq<Gateway>,
    routes: seq<KindRoute>, claims: seq<Claim>, volumes: seq<PersistentVolume>, hpas: seq<Autoscaler>,
    pdbs: seq<DisruptionBudget>, policies: seq<NetworkPolicy>, bindings: seq<AccountBinding>, quotas: seq<Quota>,
    limits: seq<LimitRange>)

  ghost function OwnerNodes(owners: seq<Owner>, n: nat): set<Node>
    requires n <= |owners|
  {
    if n == 0 then {} else OwnerNodes(owners, n - 1) + {Stored(owners[n - 1].node)}
  }

  // What is drawn: the nodes a step finds, and the edges of all steps

  ghost function NodesAtIngresses(owners: NamespaceOwners, o: NamespaceObjects): set<Node> {
    OwnerNodes(owners.owners, |owners.owners|) + ServiceNodes(o.services, |o.services|)
  }

  ghost function NodesAtRoutes(owners: NamespaceOwners, o: NamespaceObjects): set<Node> {
    NodesAtIngresses(owners, o) + IngressNodes(o.namespace, o.ingresses, |o.ingresses|)
    + GatewayNodes(o.namespace, o.gateways, |o.gateways|)
  }

  ghost function NodesAtAutoscalers(owners: NamespaceOwners, o: NamespaceObjects): set<Node> {
    NodesAtRoutes(owners, o) + AllRouteNodes(o.namespace, o.routes, |o.routes|)
    + DependencyNodes(o.namespace, o.claims, o.volumes, owners)
  }

  ghost function NodesAtAccounts(owners: NamespaceOwners, o: NamespaceObjects): set<Node> {
    NodesAtAutoscalers(owners, o) + ScalerNodes(o.namespace, o.hpas, |o.hpas|)
        + BudgetNodes(o.namespace, o.pdbs, |o.pdbs|)
    + AllPolicyNodes(o.namespace, o.policies, |o.policies|)
  }

  /** The ServiceAccounts that are drawn. */
  ghost function AccountsDrawn(owners: NamespaceOwners, o: NamespaceObjects): set<string> {
    DrawnAccounts(o.namespace, IdsIn(NodesAtAccounts(owners, o)), UsersBy(owners.owners), o.bindings)
  }

  ghost function ViewNodes(owners: NamespaceOwners, o: NamespaceObjects): set<Node> {
    NodesAtAccounts(owners, o) + RbacNodes(o.namespace, o.bindings, AccountsDrawn(owners, o))
        + QuotaNodes(o.namespace, o.quotas, |o.quotas|)
    + LimitNodes(o.namespace, o.limits, |o.limits|)
  }

  ghost function WorkloadEdges(owners: NamespaceOwners, o: NamespaceObjects): set<Edge> {
    ServiceEdges(o.services, o.slices, owners, |o.services|)
    + IngressEdges(o.namespace, o.ingresses, IdsIn(NodesAtIngresses(owners, o)), |o.ingresses|)
    + AllRouteEdges(o.namespace, o.routes, IdsIn(NodesAtRoutes(owners, o)), |o.routes|)
    + DependencyEdges(o.namespace, o.claims, o.volumes, owners)
  }

  ghost function ViewEdges(owners: NamespaceOwners, o: NamespaceObjects): set<Edge> {
    WorkloadEdges(owners, o)
    + ScaleEdges(o.namespace, o.hpas, IdsIn(NodesAtAutoscalers(owners, o)), |o.hpas|)
    + ProtectEdges(o.namespace, owners, o.pdbs, |o.pdbs|)
    + AllPolicyEdges(o.namespace, owners, o.policies, |o.policies|)
    + RbacEdges(o.namespace, UsersBy(owners.owners), o.bindings, AccountsDrawn(owners, o))
  }

  lemma {:induction false} OwnerNodesMeaning(owners: seq<Owner>, n: nat, id: string)
    requires n <= |owners|
    ensures id in IdsIn(OwnerNodes(owners, n)) <==> HasOwner(owners[..n], id)
  {
    hide Stored;
    if n > 0 {
      OwnerNodesMeaning(owners, n - 1, id);
      IdsInMore(OwnerNodes(owners, n - 1), owners[n - 1].node);
      assert owners[..n] == owners[..n - 1] + [owners[n - 1]];
      assert owners[..n][n - 1] == owners[n - 1];
      hide OwnerNodes, IdsIn;
      if HasOwner(owners[..n - 1], id) {
        OwnersStay(owners[..n - 1], owners[..n], id);
      }
    }
  }

  /** What is drawn before the Ingresses: owners and Services. */
  ghost function EarlyIds(owners: NamespaceOwners, o: NamespaceObjects): set<string> {
    (set i | 0 <= i < |owners.owners| :: owners.owners[i].node.id)
        + (set i | 0 <= i < |o.services| :: ServiceNode(o.services[i]).id)
  }

  lemma {:induction false} ServiceNodesMeaning(services: seq<Service>, n: nat)
    requires n <= |services|
    ensures IdsIn(ServiceNodes(services, n)) == set i | 0 <= i < n :: ServiceNode(services[i]).id
  {
    hide Stored, ServiceNode, NoPolicies;
    if n > 0 {
      ServiceNodesMeaning(services, n - 1);
      IdsInMore(ServiceNodes(services, n - 1), ServiceNode(services[n - 1]));
    }
  }

  lemma {:induction false} IngressNodesAreIngresses(namespace: string, ingresses: seq<Ingress>, n: nat)
    requires n <= |ingresses|
    ensures forall node :: node in IngressNodes(namespace, ingresses, n) ==> node.id != "" && node.id[0] == 'I'
  {
    hide Stored;
    if n > 0 {
      IngressNodesAreIngresses(namespace, ingresses, n - 1);
    }
  }

  lemma {:induction false} GatewayNodesAreGateways(namespace: string, gateways: seq<Gateway>, n: nat)
    requires n <= |gateways|
    ensures forall node :: node in GatewayNodes(namespace, gateways, n) ==> node.id != "" && node.id[0] == 'G'
  {
    hide Stored;
    if n > 0 {
      GatewayNodesAreGateways(namespace, gateways, n - 1);
    }
  }

  lemma EarlyNodes(owners: NamespaceOwners, o: NamespaceObjects)
    ensures IdsIn(NodesAtIngresses(owners, o)) == EarlyIds(owners, o)
  {
    hide ServiceNode, OwnerNodes, ServiceNodes;
    ServiceNodesMeaning(o.services, |o.services|);
    IdsInBoth(OwnerNodes(owners.owners, |owners.owners|), ServiceNodes(o.services, |o.services|));
    hide IdsIn;
    assert owners.owners[..|owners.owners|] == owners.owners;
    forall id ensures id in IdsIn(NodesAtIngresses(owners, o)) <==> id in EarlyIds(owners, o) {
      OwnerNodesMeaning(owners.owners, |owners.owners|, id);
    }
  }

  /** The steps in between draw no Service. */
  lemma EarlyServices(owners: NamespaceOwners, o: NamespaceObjects)
    ensures SameServices(o.namespace, EarlyIds(owners, o), IdsIn(NodesAtRoutes(owners, o)))
  {
    var more, gateways := IngressNodes(o.namespace, o.ingresses, |o.ingresses|),
        GatewayNodes(o.namespace, o.gateways, |o.gateways|);
    IngressNodesAreIngresses(o.namespace, o.ingresses, |o.ingresses|);
    GatewayNodesAreGateways(o.namespace, o.gateways, |o.gateways|);
    EarlyNodes(owners, o);
    hide EarlyIds, NodesAtIngresses, IngressNodes, GatewayNodes;
    forall name
      ensures NodeId("Service", o.namespace, name) in IdsIn(NodesAtRoutes(owners, o))
              <==> NodeId("Service", o.namespace, name) in IdsIn(NodesAtIngresses(owners, o))
    {
      assert NodeId("Service", o.namespace, name)[0] == 'S';
    }
  }

  // "selects"

  ghost predicate Selecting(svc: Service, slices: seq<EndpointSlice>, owners: NamespaceOwners, e: Edge) {
    e.kind == "selects" && e.source == ServiceNode(svc).id && LeadsTo(svc, slices, owners, e.target)
  }

  lemma {:induction false} ServiceEdgesMeaning(
    services: seq<Service>, slices: seq<EndpointSlice>, owners: NamespaceOwners, n: nat, e: Edge)
    requires n <= |services|
    ensures e in ServiceEdges(services, slices, owners, n)
            <==> exists i :: 0 <= i < n && Selecting(services[i], slices, owners, e)
  {
    hide ServiceNode, ServiceTargets, LeadsTo, NoAllows;
    if n > 0 {
      ServiceEdgesMeaning(services, slices, owners, n - 1, e);
      ServiceTargetsAreExact(services[n - 1], slices, owners, e.target);
    }
  }

  // "routes"

  ghost predicate IsBackend(ing: Ingress, name: string) {
    || ing.defaultBackend == Some(name)
    || exists r, k :: 0 <= r < |ing.rules| && 0 <= k < |ing.rules[r]| && ing.rules[r][k] == Some(name)
  }

  /** A reference without a kind is to a Service. */
  ghost predicate NamesService(ref: RouteRef, name: string) {
    (ref.kind == "" || ref.kind == "Service") && ref.name == name
  }

  ghost predicate IsRouteBackend(rules: seq<seq<RouteRef>>, name: string) {
    exists r, k :: 0 <= r < |rules| && 0 <= k < |rules[r]| && NamesService(rules[r][k], name)
  }

  ghost predicate ServiceAmong(namespace: string, ids: set<string>, name: string, id: string) {
    id == NodeId("Service", namespace, name) && id in ids
  }

  /** An Ingress links to those of its backends that are drawn. */
  ghost predicate IngressRouting(namespace: string, ing: Ingress, ids: set<string>, e: Edge) {
    && e.kind == "routes" && e.source == IngressNode(namespace, ing).id
    && exists name :: IsBackend(ing, name) && ServiceAmong(namespace, ids, name, e.target)
  }

  ghost predicate IsParent(namespace: string, parents: seq<RouteRef>, id: string) {
    exists k :: 0 <= k < |parents| && IsGateway(parents[k]) && SharedGateway(namespace, parents[k]).id == id
  }

  /** Its Gateways lead to a route, and a route to those of its backends that are drawn. */
  ghost predicate Routing(namespace: string, r: KindRoute, ids: set<string>, e: Edge) {
    && e.kind == "routes"
    && (|| (e.target == RouteNode(namespace, r).id && IsParent(namespace, r.route.parents, e.source))
        || (e.source == RouteNode(namespace, r).id
            && exists name :: IsRouteBackend(r.route.rules, name) && ServiceAmong(namespace, ids, name, e.target)))
  }

  lemma {:induction false} NamedMeaning(backends: seq<Option<string>>, n: nat, name: string)
    requires n <= |backends|
    ensures name in Named(backends, n) <==> exists k :: 0 <= k < n && backends[k] == Some(name)
  {
    if n > 0 {
      NamedMeaning(backends, n - 1, name);
    }
  }

  lemma {:induction false} RuleBackendsMeaning(rules: seq<seq<Option<string>>>, n: nat, name: string)
    requires n <= |rules|
    ensures name in RuleBackends(rules, n)
            <==> exists r, k :: 0 <= r < n && 0 <= k < |rules[r]| && rules[r][k] == Some(name)
  {
    hide Named;
    if n > 0 {
      RuleBackendsMeaning(rules, n - 1, name);
      NamedMeaning(rules[n - 1], |rules[n - 1]|, name);
    }
  }

  lemma BackendsOfMeaning(ing: Ingress, name: string)
    ensures name in BackendsOf(ing) <==> IsBackend(ing, name)
  {
    hide RuleBackends;
    RuleBackendsMeaning(ing.rules, |ing.rules|, name);
  }

  lemma {:induction false} BackendNamesMeaning(backends: seq<RouteRef>, n: nat, name: string)
    requires n <= |backends|
    ensures name in BackendNames(backends, n)
            <==> exists k :: 0 <= k < n && NamesService(backends[k], name)
  {
    if n > 0 {
      BackendNamesMeaning(backends, n - 1, name);
    }
  }

  lemma {:induction false} RuleNamesMeaning(rules: seq<seq<RouteRef>>, n: nat, name: string)
    requires n <= |rules|
    ensures name in RuleNames(rules, n)
            <==> exists r, k :: 0 <= r < n && 0 <= k < |rules[r]| && NamesService(rules[r][k], name)
  {
    hide BackendNames, IsService;
    if n > 0 {
      RuleNamesMeaning(rules, n - 1, name);
      BackendNamesMeaning(rules[n - 1], |rules[n - 1]|, name);
    }
  }

  lemma {:induction false} RouteEdgesMeaning(
    id: string, namespace: string, names: seq<string>, ids: set<string>, n: nat, e: Edge)
    requires n <= |names|
    ensures e in RouteEdges(id, namespace, names, ids, n) <==>
              && e.kind == "routes" && e.source == id
              && exists k :: 0 <= k < n && ServiceAmong(namespace, ids, names[k], e.target)
  {
    hide NodeId, NoAllows;
    if n > 0 {
      RouteEdgesMeaning(id, namespace, names, ids, n - 1, e);
    }
  }

  lemma {:induction false} ParentEdgesMeaning(namespace: string, id: string, parents: seq<RouteRef>, n: nat, e: Edge)
    requires n <= |parents|
    ensures e in ParentEdges(namespace, id, parents, n) <==>
              && e.kind == "routes" && e.target == id
              && exists k :: 0 <= k < n && IsGateway(parents[k]) && SharedGateway(namespace, parents[k]).id == e.source
  {
    hide NodeId, NoAllows, IsGateway, SharedGateway;
    if n > 0 {
      ParentEdgesMeaning(namespace, id, parents, n - 1, e);
    }
  }

  lemma IngressRoutingMeaning(namespace: string, ing: Ingress, ids: set<string>, e: Edge)
    ensures e in RouteEdges(IngressNode(namespace, ing).id, namespace, BackendsOf(ing), ids, |BackendsOf(ing)|)
            <==> IngressRouting(namespace, ing, ids, e)
  {
    hide NoAllows, RouteEdges, IngressNode, BackendsOf, IsBackend, ServiceAmong;
    var names := BackendsOf(ing);
    RouteEdgesMeaning(IngressNode(namespace, ing).id, namespace, names, ids, |names|, e);
    forall name ensures name in names <==> IsBackend(ing, name) {
      BackendsOfMeaning(ing, name);
    }
  }

  lemma {:induction false} IngressEdgesMeaning(
    namespace: string, ingresses: seq<Ingress>, ids: set<string>, n: nat, e: Edge)
    requires n <= |ingresses|
    ensures e in IngressEdges(namespace, ingresses, ids, n)
            <==> exists i :: 0 <= i < n && IngressRouting(namespace, ingresses[i], ids, e)
  {
    hide NoAllows, RouteEdges, IngressRouting, IngressNode, BackendsOf;
    if n > 0 {
      IngressEdgesMeaning(namespace, ingresses, ids, n - 1, e);
      IngressRoutingMeaning(namespace, ingresses[n - 1], ids, e);
    }
  }

  lemma RoutingMeaning(namespace: string, r: KindRoute, ids: set<string>, e: Edge)
    ensures e in OneRouteEdges(namespace, r, ids) <==> Routing(namespace, r, ids, e)
  {
    hide NoAllows, RouteEdges, ParentEdges, RouteNode, RuleNames, ServiceAmong, IsGateway, SharedGateway;
    var id, names := RouteNode(namespace, r).id, RuleNames(r.route.rules, |r.route.rules|);
    ParentEdgesMeaning(namespace, id, r.route.parents, |r.route.parents|, e);
    RouteEdgesMeaning(id, namespace, names, ids, |names|, e);
    forall name ensures name in names <==> IsRouteBackend(r.route.rules, name) {
      RuleNamesMeaning(r.route.rules, |r.route.rules|, name);
    }
  }

  lemma {:induction false} AllRouteEdgesMeaning(
    namespace: string, routes: seq<KindRoute>, ids: set<string>, n: nat, e: Edge)
    requires n <= |routes|
    ensures e in AllRouteEdges(namespace, routes, ids, n)
            <==> exists i :: 0 <= i < n && Routing(namespace, routes[i], ids, e)
  {
    hide NoAllows, OneRouteEdges, Routing;
    if n > 0 {
      AllRouteEdgesMeaning(namespace, routes, ids, n - 1, e);
      RoutingMeaning(namespace, routes[n - 1], ids, e);
    }
  }

  /** What routes link to depends on the Services among the IDs alone. */
  lemma SameRouting(namespace: string, r: KindRoute, a: set<string>, b: set<string>, e: Edge)
    requires SameServices(namespace, a, b)
    ensures Routing(namespace, r, a, e) <==> Routing(namespace, r, b, e)
  {
    hide NodeId, RouteNode, IsParent, IsRouteBackend;
    assert forall name :: ServiceAmong(namespace, a, name, e.target) <==> ServiceAmong(namespace, b, name, e.target);
    hide ServiceAmong;
  }

  // "uses" and "bound"

  /** The pods of an owner name it, or it is a claim made from one of the claim templates. */
  ghost predicate RefersTo(o: Owner, claims: Claims, r: SpecRef) {
    (Refers(o.spec, r) && r.name != "") || IsClaimUnder(r, claims, o.claimPrefixes)
  }

  ghost predicate Using(namespace: string, o: Owner, claims: Claims, e: Edge) {
    && e.kind == "uses" && e.source == o.node.id
    && exists r :: RefersTo(o, claims, r) && e.target == NodeId(r.kind, namespace, r.name)
  }

  ghost predicate InUse(owners: seq<Owner>, claims: Claims, name: string) {
    exists i :: 0 <= i < |owners| && RefersTo(owners[i], claims, SpecRef("PersistentVolumeClaim", name))
  }

  /** Behind a claim: its volume and the class of that or, if the volume is unknown, the class asked for. */
  ghost predicate IsBehind(namespace: string, name: string, claim: Claim, volumes: Volumes, e: Edge) {
    var id := NodeId("PersistentVolumeClaim", namespace, name);
    if claim.volume in volumes then
      var pv := volumes[claim.volume];
      e == Edge(id, VolumeNode(pv).id, "bound") || ClassUsed(VolumeNode(pv).id, pv.storageClass, e)
    else ClassUsed(id, ClassOf(claim), e)
  }

  lemma RefSetMeaning(o: Owner, claims: Claims, r: SpecRef)
    ensures r in RefSet(o, claims) <==> RefersTo(o, claims, r)
  {
    hide RefsOf, Refers, HasPrefix;
    RefsAreDistinctAndComplete(o.spec);
    if r.kind == "PersistentVolumeClaim" {
      assert r == SpecRef("PersistentVolumeClaim", r.name);
    }
  }

  lemma OwnerEdgesMeaning(namespace: string, o: Owner, claims: Claims, e: Edge)
    ensures e in RefEdges(o.node.id, namespace, RefSet(o, claims)) <==> Using(namespace, o, claims, e)
  {
    hide NoAllows, RefSet, RefersTo, NodeId;
    if r :| r in RefSet(o, claims) && e == Edge(o.node.id, NodeId(r.kind, namespace, r.name), "uses") {
      RefSetMeaning(o, claims, r);
    }
    if r :| RefersTo(o, claims, r) && e == Edge(o.node.id, NodeId(r.kind, namespace, r.name), "uses") {
      RefSetMeaning(o, claims, r);
    }
  }

  lemma {:induction false} ConfigEdgesMeaning(namespace: string, owners: seq<Owner>, claims: Claims, n: nat, e: Edge)
    requires n <= |owners|
    ensures e in ConfigEdges(namespace, owners, claims, n)
            <==> exists i :: 0 <= i < n && Using(namespace, owners[i], claims, e)
  {
    hide NoAllows, RefEdges, RefSet, Using;
    if n > 0 {
      ConfigEdgesMeaning(namespace, owners, claims, n - 1, e);
      OwnerEdgesMeaning(namespace, owners[n - 1], claims, e);
    }
  }

  lemma {:induction false} UsedClaimsMeaning(owners: seq<Owner>, claims: Claims, n: nat, name: string)
    requires n <= |owners|
    ensures name in UsedClaims(owners, claims, n) <==> InUse(owners[..n], claims, name)
  {
    hide RefSet, RefersTo;
    if n > 0 {
      UsedClaimsMeaning(owners, claims, n - 1, name);
      var r := SpecRef("PersistentVolumeClaim", name);
      RefSetMeaning(owners[n - 1], claims, r);
      assert name in ClaimNames(RefSet(owners[n - 1], claims)) <==> r in RefSet(owners[n - 1], claims);
      hide ClaimNames;
      var fewer, more := owners[..n - 1], owners[..n];
      assert more[n - 1] == owners[n - 1] && forall i :: 0 <= i < n - 1 ==> more[i] == fewer[i];
    }
  }

  lemma BehindMeaning(namespace: string, name: string, claims: Claims, volumes: Volumes, e: Edge)
    ensures e in BehindEdges(namespace, name, claims, volumes)
            <==> name in claims && IsBehind(namespace, name, claims[name], volumes, e)
  {
    hide NoAllows, NodeId, VolumeNode, ClassNode, ClassOf;
  }

  ghost predicate Behind(namespace: string, owners: seq<Owner>, claims: Claims, volumes: Volumes, e: Edge) {
    exists name :: name in claims && InUse(owners, claims, name) && IsBehind(namespace, name, claims[name], volumes, e)
  }

  lemma AllBehindMeaning(namespace: string, owners: seq<Owner>, claims: Claims, volumes: Volumes, e: Edge)
    ensures e in AllBehindEdges(namespace, UsedClaims(owners, claims, |owners|), claims, volumes)
            <==> Behind(namespace, owners, claims, volumes, e)
  {
    hide NoAllows, BehindEdges, IsBehind, InUse, UsedClaims;
    assert owners[..|owners|] == owners;
    forall name
      ensures name in UsedClaims(owners, claims, |owners|) <==> InUse(owners, claims, name)
      ensures e in BehindEdges(namespace, name, claims, volumes)
              <==> name in claims && IsBehind(namespace, name, claims[name], volumes, e)
    {
      UsedClaimsMeaning(owners, claims, |owners|, name);
      BehindMeaning(namespace, name, claims, volumes, e);
    }
  }

  // "scales" and "protects"

  /** The target is drawn: in an earlier step, or as one of the autoscalers up to this one. */
  ghost predicate ScalerTarget(namespace: string, hpas: seq<Autoscaler>, ids: set<string>, i: nat, id: string)
    requires i < |hpas|
  {
    && id == NodeId(hpas[i].targetKind, namespace, hpas[i].targetName)
    && (id in ids || exists k :: 0 <= k <= i && ScalerNode(namespace, hpas[k]).id == id)
  }

  ghost predicate Scaling(namespace: string, hpas: seq<Autoscaler>, ids: set<string>, i: nat, e: Edge)
    requires i < |hpas|
  {
    e.kind == "scales" && e.source == ScalerNode(namespace, hpas[i]).id
        && ScalerTarget(namespace, hpas, ids, i, e.target)
  }

  lemma {:induction false} ScalerIdsMeaning(namespace: string, hpas: seq<Autoscaler>, n: nat, id: string)
    requires n <= |hpas|
    ensures id in ScalerIds(namespace, hpas, n) <==> exists k :: 0 <= k < n && ScalerNode(namespace, hpas[k]).id == id
  {
    hide ScalerNode;
    if n > 0 {
      ScalerIdsMeaning(namespace, hpas, n - 1, id);
    }
  }

  lemma ScalingMeaning(namespace: string, hpas: seq<Autoscaler>, ids: set<string>, i: nat, e: Edge)
    requires i < |hpas|
    ensures e in ScaleEdge(namespace, hpas[i], ids + ScalerIds(namespace, hpas, i + 1))
            <==> Scaling(namespace, hpas, ids, i, e)
  {
    hide NoAllows, ScalerNode, ScalerIds, NodeId;
    ScalerIdsMeaning(namespace, hpas, i + 1, NodeId(hpas[i].targetKind, namespace, hpas[i].targetName));
  }

  lemma {:induction false} ScaleEdgesMeaning(
    namespace: string, hpas: seq<Autoscaler>, ids: set<string>, n: nat, e: Edge)
    requires n <= |hpas|
    ensures e in ScaleEdges(namespace, hpas, ids, n) <==> exists i: nat :: i < n && Scaling(namespace, hpas, ids, i, e)
  {
    hide NoAllows, Scaling, ScaleEdge;
    if n > 0 {
      ScaleEdgesMeaning(namespace, hpas, ids, n - 1, e);
      ScalingMeaning(namespace, hpas, ids, n - 1, e);
    }
  }

  ghost predicate Protecting(namespace: string, owners: NamespaceOwners, pdb: DisruptionBudget, e: Edge) {
    && e.kind == "protects" && e.source == BudgetNode(namespace, pdb).id
    && pdb.selector.Valid? && IsMatched(owners, pdb.selector.matches, e.target)
  }

  lemma {:induction false} ProtectEdgesMeaning(
    namespace: string, owners: NamespaceOwners, pdbs: seq<DisruptionBudget>, n: nat, e: Edge)
    requires n <= |pdbs|
    ensures e in ProtectEdges(namespace, owners, pdbs, n)
            <==> exists i :: 0 <= i < n && Protecting(namespace, owners, pdbs[i], e)
  {
    hide NoAllows, BudgetNode, Matched, IdsOf, IsMatched;
    if n > 0 {
      ProtectEdgesMeaning(namespace, owners, pdbs, n - 1, e);
      if pdbs[n - 1].selector.Valid? {
        MatchedMeaning(owners, pdbs[n - 1].selector.matches, e.target);
      }
    }
  }

  // "runs-as", "binds" and "grants"

  /** The owner runs as an account that is drawn. */
  ghost predicate RunningAs(namespace: string, o: Owner, drawn: set<string>, e: Edge) {
    exists account :: account in drawn && RunsAs(o, account)
                      && e == Edge(o.node.id, AccountNode(namespace, account).id, "runs-as")
  }

  ghost predicate Granting(namespace: string, b: AccountBinding, e: Edge) {
    && e.source == BindingNode(b).id
    && (|| (e.kind == "binds"
            && exists account :: account in b.accounts && e.target == AccountNode(namespace, account).id)
        || (e.kind == "grants" && e.target == RoleNode(namespace, b.roleRef).id))
  }

  lemma UserMeaning(owners: seq<Owner>, account: string, id: string)
    ensures id in UsersFor(UsersBy(owners), account)
            <==> exists i :: 0 <= i < |owners| && RunsAs(owners[i], account) && owners[i].node.id == id
  {
    forall o: Owner ensures RunsAs(o, account) <==> AccountOf(o) == account {
      RunsAsMeaning(o, account);
    }
    hide AccountOf, RunsAs, UsersOf;
    UsersOfMeaning(owners, account, |owners|, id);
  }

  lemma AccountEdgesMeaning(namespace: string, owners: seq<Owner>, drawn: set<string>, e: Edge)
    ensures e in AllAccountEdges(namespace, UsersBy(owners), drawn)
            <==> exists i :: 0 <= i < |owners| && RunningAs(namespace, owners[i], drawn, e)
  {
    hide NoAllows, AccountNode, RunsAs, UsersFor, UsersBy;
    var usedBy := UsersBy(owners);
    if name :| name in drawn && e in AccountEdges(namespace, usedBy, name) {
      UserMeaning(owners, name, e.source);
    }
    if i :| 0 <= i < |owners| && RunningAs(namespace, owners[i], drawn, e) {
      var account :| account in drawn && RunsAs(owners[i], account)
                     && e == Edge(owners[i].node.id, AccountNode(namespace, account).id, "runs-as");
      UserMeaning(owners, account, e.source);
      assert e in AccountEdges(namespace, usedBy, account);
    }
  }

  lemma RoleEdgesMeaning(namespace: string, b: AccountBinding, e: Edge)
    ensures e in RoleEdges(namespace, b) <==> Granting(namespace, b, e)
  {
    hide NoAllows, AccountNode, RoleNode, BindingNode;
  }

  lemma {:induction false} AllRoleEdgesMeaning(namespace: string, bindings: seq<AccountBinding>, n: nat, e: Edge)
    requires n <= |bindings|
    ensures e in AllRoleEdges(namespace, bindings, n) <==> exists i :: 0 <= i < n && Granting(namespace, bindings[i], e)
  {
    hide NoAllows, RoleEdges, Granting;
    if n > 0 {
      AllRoleEdgesMeaning(namespace, bindings, n - 1, e);
      RoleEdgesMeaning(namespace, bindings[n - 1], e);
    }
  }

  /** A subject of the binding names the account, in the namespace of the view (that of the binding if it
      names none), and an owner runs as it. */
  ghost predicate BindsAccount(namespace: string, owners: seq<Owner>, home: string, b: Binding, account: string) {
    && (exists i :: 0 <= i < |owners| && RunsAs(owners[i], account))
    && exists k :: 0 <= k < |b.subjects| && b.subjects[k].kind == "ServiceAccount" && b.subjects[k].name == account
                   && (if b.subjects[k].namespace == "" then home else b.subjects[k].namespace) == namespace
  }

  /** A binding leads to the accounts it binds, and to its role if it binds any. */
  ghost predicate BindingGrants(
    namespace: string, owners: seq<Owner>, kind: string, home: string, b: Binding, e: Edge)
  {
    && e.source == NodeId(kind, home, b.name)
    && exists account :: BindsAccount(namespace, owners, home, b, account)
         && ((e.kind == "binds" && e.target == AccountNode(namespace, account).id)
             || (e.kind == "grants" && e.target == RoleNode(namespace, b.roleRef).id))
  }

  ghost predicate Granted(namespace: string, owners: seq<Owner>, own: seq<Binding>, all: seq<Binding>, e: Edge) {
    || (exists i :: 0 <= i < |own| && BindingGrants(namespace, owners, "RoleBinding", namespace, own[i], e))
    || (exists i :: 0 <= i < |all| && BindingGrants(namespace, owners, "ClusterRoleBinding", "", all[i], e))
  }

  lemma NamesMeaning(namespace: string, owners: seq<Owner>, home: string, b: Binding, account: string)
    ensures account in NamedAccounts(b.subjects, home, namespace, AccountsIn(owners), |b.subjects|)
            <==> BindsAccount(namespace, owners, home, b, account)
  {
    forall o: Owner ensures RunsAs(o, account) <==> AccountOf(o) == account {
      RunsAsMeaning(o, account);
    }
    hide AccountOf, RunsAs, NamedAccounts;
    NamedAccountsMeaning(b.subjects, home, namespace, AccountsIn(owners), |b.subjects|, account);
  }

  lemma KeptGrants(
    namespace: string, owners: seq<Owner>, kind: string, home: string, b: Binding, kept: AccountBinding, e: Edge)
    requires kept == AccountBinding(kind, b.name, home, b.roleRef,
                                    NamedAccounts(b.subjects, home, namespace, AccountsIn(owners), |b.subjects|))
    ensures kept.accounts != [] && Granting(namespace, kept, e) <==> BindingGrants(namespace, owners, kind, home, b, e)
  {
    hide AccountNode, RoleNode, NodeId, NamedAccounts, BindsAccount, AccountsIn;
    forall account ensures account in kept.accounts <==> BindsAccount(namespace, owners, home, b, account) {
      NamesMeaning(namespace, owners, home, b, account);
    }
    if kept.accounts != [] {
      assert kept.accounts[0] in kept.accounts;
    }
  }

  lemma KeptBindingsMeaning(
    namespace: string, owners: seq<Owner>, kind: string, home: string, bindings: seq<Binding>, e: Edge)
    ensures (exists b :: b in BindingsNaming(bindings, kind, home, namespace, AccountsIn(owners), |bindings|)
                         && Granting(namespace, b, e))
            <==> exists i :: 0 <= i < |bindings| && BindingGrants(namespace, owners, kind, home, bindings[i], e)
  {
    hide Granting, BindingGrants, AccountsIn, BindingsNaming, NamedAccounts;
    var accounts := AccountsIn(owners);
    var kept := BindingsNaming(bindings, kind, home, namespace, accounts, |bindings|);
    if b :| b in kept && Granting(namespace, b, e) {
      BindingsNamingMeaning(bindings, kind, home, namespace, accounts, |bindings|, b);
      var i :| 0 <= i < |bindings| && KeptAs(bindings[i], kind, home, namespace, accounts, b);
      KeptGrants(namespace, owners, kind, home, bindings[i], b, e);
    }
    if i :| 0 <= i < |bindings| && BindingGrants(namespace, owners, kind, home, bindings[i], e) {
      var names := NamedAccounts(bindings[i].subjects, home, namespace, accounts, |bindings[i].subjects|);
      var b := AccountBinding(kind, bindings[i].name, home, bindings[i].roleRef, names);
      KeptGrants(namespace, owners, kind, home, bindings[i], b, e);
      BindingsNamingMeaning(bindings, kind, home, namespace, accounts, |bindings|, b);
      assert KeptAs(bindings[i], kind, home, namespace, accounts, b);
    }
  }

  /** The "binds" and "grants" edges, in terms of the bindings as they are read. */
  lemma BindingsMeaning(
    namespace: string, owners: seq<Owner>, own: seq<Binding>, all: seq<Binding>, bindings: seq<AccountBinding>, e: Edge)
    requires bindings == AccountBindings(namespace, AccountsIn(owners), own, all)
    ensures e in AllRoleEdges(namespace, bindings, |bindings|) <==> Granted(namespace, owners, own, all, e)
  {
    hide NoAllows, AllRoleEdges, Granting, BindingGrants, AccountsIn, BindingsNaming;
    AllRoleEdgesMeaning(namespace, bindings, |bindings|, e);
    KeptBindingsMeaning(namespace, owners, "RoleBinding", namespace, own, e);
    KeptBindingsMeaning(namespace, owners, "ClusterRoleBinding", "", all, e);
    assert (exists i :: 0 <= i < |bindings| && Granting(namespace, bindings[i], e))
        <==> exists b :: b in bindings && Granting(namespace, b, e);
  }

  // All of them

  /** The reasons for an edge, kind by kind, as far as the first steps draw it ... */
  ghost predicate WorkloadReason(owners: NamespaceOwners, o: NamespaceObjects, e: Edge) {
    var claims, volumes := ClaimsByName(o.claims, |o.claims|), VolumesByName(o.volumes, |o.volumes|);
    || (exists i :: 0 <= i < |o.services| && Selecting(o.services[i], o.slices, owners, e))
    || (exists i :: 0 <= i < |o.ingresses| && IngressRouting(o.namespace, o.ingresses[i], EarlyIds(owners, o), e))
    || (exists i :: 0 <= i < |o.routes| && Routing(o.namespace, o.routes[i], EarlyIds(owners, o), e))
    || (exists i :: 0 <= i < |owners.owners| && Using(o.namespace, owners.owners[i], claims, e))
    || Behind(o.namespace, owners.owners, claims, volumes, e)
  }

  /** ... and all of them.  Each reason is one for edges of one kind, or says which of two it is for. */
  ghost predicate Justified(
    owners: NamespaceOwners, o: NamespaceObjects, own: seq<Binding>, all: seq<Binding>, e: Edge)
  {
    || WorkloadReason(owners, o, e)
    || (exists i: nat :: i < |o.hpas| && Scaling(o.namespace, o.hpas, IdsIn(NodesAtAutoscalers(owners, o)), i, e))
    || (exists i :: 0 <= i < |o.pdbs| && Protecting(o.namespace, owners, o.pdbs[i], e))
    || (exists i :: 0 <= i < |o.policies| && Governs(o.namespace, owners, o.policies[i], e))
    || (exists i :: 0 <= i < |owners.owners| && RunningAs(o.namespace, owners.owners[i], AccountsDrawn(owners, o), e))
    || Granted(o.namespace, owners.owners, own, all, e)
  }

  lemma RoutesInView(owners: NamespaceOwners, o: NamespaceObjects, e: Edge)
    ensures e in AllRouteEdges(o.namespace, o.routes, IdsIn(NodesAtRoutes(owners, o)), |o.routes|)
            <==> exists i :: 0 <= i < |o.routes| && Routing(o.namespace, o.routes[i], EarlyIds(owners, o), e)
  {
    hide Routing, EarlyIds, IdsIn, NodesAtRoutes, SameServices, NoAllows, AllRouteEdges;
    var early, ids := EarlyIds(owners, o), IdsIn(NodesAtRoutes(owners, o));
    EarlyServices(owners, o);
    AllRouteEdgesMeaning(o.namespace, o.routes, ids, |o.routes|, e);
    forall i | 0 <= i < |o.routes|
      ensures Routing(o.namespace, o.routes[i], early, e) <==> Routing(o.namespace, o.routes[i], ids, e)
    {
      SameRouting(o.namespace, o.routes[i], early, ids, e);
    }
  }

  lemma DependenciesMeaning(
    namespace: string, claims: seq<Claim>, volumes: seq<PersistentVolume>, owners: NamespaceOwners, e: Edge)
    ensures var byName := ClaimsByName(claims, |claims|);
            e in DependencyEdges(namespace, claims, volumes, owners) <==>
              || (exists i :: 0 <= i < |owners.owners| && Using(namespace, owners.owners[i], byName, e))
              || Behind(namespace, owners.owners, byName, VolumesByName(volumes, |volumes|), e)
  {
    hide Using, Behind, NoAllows, ConfigEdges, AllBehindEdges, UsedClaims, ClaimsByName, VolumesByName;
    var byName := ClaimsByName(claims, |claims|);
    ConfigEdgesMeaning(namespace, owners.owners, byName, |owners.owners|, e);
    AllBehindMeaning(namespace, owners.owners, byName, VolumesByName(volumes, |volumes|), e);
  }

  lemma WorkloadEdgesMeaning(owners: NamespaceOwners, o: NamespaceObjects, e: Edge)
    ensures e in WorkloadEdges(owners, o) <==> WorkloadReason(owners, o, e)
  {
    hide Selecting, IngressRouting, Routing, Using, Behind, EarlyIds, IdsIn, NodesAtIngresses, NodesAtRoutes;
    hide NoAllows, ServiceEdges, IngressEdges, AllRouteEdges, DependencyEdges, ClaimsByName, VolumesByName;
    ServiceEdgesMeaning(o.services, o.slices, owners, |o.services|, e);
    EarlyNodes(owners, o);
    IngressEdgesMeaning(o.namespace, o.ingresses, EarlyIds(owners, o), |o.ingresses|, e);
    RoutesInView(owners, o, e);
    DependenciesMeaning(o.namespace, o.claims, o.volumes, owners, e);
  }

  /** Every edge of the view has one of these reasons, and everything with such a reason is an edge. */
  lemma EdgesAreJustified(
    owners: NamespaceOwners, o: NamespaceObjects, own: seq<Binding>, all: seq<Binding>, e: Edge)
    requires o.bindings == AccountBindings(o.namespace, AccountsIn(owners.owners), own, all)
    ensures e in ViewEdges(owners, o) <==> Justified(owners, o, own, all, e)
  {
    hide WorkloadReason, Scaling, Protecting, Governs, RunningAs, Granted, AccountBindings, AccountsIn, EarlyIds, IdsIn;
    hide NodesAtAutoscalers, WorkloadEdges, ScaleEdges, ProtectEdges, AllPolicyEdges, AllAccountEdges, AllRoleEdges;
    hide NoAllows;
    hide UsersBy, AccountsDrawn;
    WorkloadEdgesMeaning(owners, o, e);
    ScaleEdgesMeaning(o.namespace, o.hpas, IdsIn(NodesAtAutoscalers(owners, o)), |o.hpas|, e);
    ProtectEdgesMeaning(o.namespace, owners, o.pdbs, |o.pdbs|, e);
    AllPolicyEdgesMeaning(o.namespace, owners, o.policies, |o.policies|, e);
    AccountEdgesMeaning(o.namespace, owners.owners, AccountsDrawn(owners, o), e);
    BindingsMeaning(o.namespace, owners.owners, own, all, o.bindings, e);
  }
}
