/** What each node of the namespace view stands for: every one is drawn for an object that is listed or
    named, and has the fields that object gives it. */
module NamespaceNodes {
  import opened ConfigRefs
  import opened GatewayGraph
  import opened GraphBuilder
  import opened KubeObjects
  import opened NamespaceEdges
  import opened NamespaceGraph
  import opened NamespacePolicies
  import opened NetworkPolicies
  import opened PodAttribution
  import opened PodOwners
  import opened PodSpecRefs
  import opened ServiceAccounts
  import opened TopologyGraph

  lemma {:induction false} OwnerNodesAre(owners: seq<Owner>, n: nat, node: Node)
    requires n <= |owners|
    ensures node in OwnerNodes(owners, n) <==> exists i :: 0 <= i < n && node == Stored(owners[i].node)
  {
    hide Stored;
    if n > 0 {
      OwnerNodesAre(owners, n - 1, node);
    }
  }

  lemma {:induction false} ServiceNodesAre(services: seq<Service>, n: nat, node: Node)
    requires n <= |services|
    ensures node in ServiceNodes(services, n)
            <==> exists i :: 0 <= i < n
                             && Spelled(node, "Service", services[i].namespace, services[i].name, Healthy, true)
  {
    hide Stored, Plain, Spelled, NoPolicies;
    if n > 0 {
      ServiceNodesAre(services, n - 1, node);
      PlainIsSpelled(node, "Service", services[n - 1].namespace, services[n - 1].name, Healthy, true);
    }
  }

  lemma {:induction false} IngressNodesAre(namespace: string, ingresses: seq<Ingress>, n: nat, node: Node)
    requires n <= |ingresses|
    ensures node in IngressNodes(namespace, ingresses, n)
            <==> exists i :: 0 <= i < n && Spelled(node, "Ingress", namespace, ingresses[i].name, Healthy, true)
  {
    hide Stored, Plain, Spelled, NoPolicies;
    if n > 0 {
      IngressNodesAre(namespace, ingresses, n - 1, node);
      PlainIsSpelled(node, "Ingress", namespace, ingresses[n - 1].name, Healthy, true);
    }
  }

  lemma {:induction false} GatewayNodesAre(namespace: string, gateways: seq<Gateway>, n: nat, node: Node)
    requires n <= |gateways|
    ensures node in GatewayNodes(namespace, gateways, n)
            <==> exists i :: 0 <= i < n
                             && Spelled(node, "Gateway", namespace, gateways[i].name, gateways[i].status, false)
  {
    hide Stored, Plain, Spelled, NoPolicies;
    if n > 0 {
      GatewayNodesAre(namespace, gateways, n - 1, node);
      PlainIsSpelled(node, "Gateway", namespace, gateways[n - 1].name, gateways[n - 1].status, false);
    }
  }

  /** A route, or a Gateway it names, of whose status nothing is known. */
  ghost predicate RouteDrawn(namespace: string, r: KindRoute, node: Node) {
    || Spelled(node, r.kind, namespace, r.route.name, r.route.status, false)
    || exists k :: 0 <= k < |r.route.parents| && (r.route.parents[k].kind == "" || r.route.parents[k].kind == "Gateway")
         && Spelled(node, "Gateway", if r.route.parents[k].namespace == "" then namespace
             else r.route.parents[k].namespace,
                    r.route.parents[k].name, Idle, false)
  }

  lemma {:induction false} ParentNodesAre(namespace: string, parents: seq<RouteRef>, n: nat, node: Node)
    requires n <= |parents|
    ensures node in ParentNodes(namespace, parents, n)
            <==> exists k :: 0 <= k < n && (parents[k].kind == "" || parents[k].kind == "Gateway")
                   && Spelled(node, "Gateway", if parents[k].namespace == "" then namespace else parents[k].namespace,
                              parents[k].name, Idle, false)
  {
    hide Stored, Plain, Spelled, NoPolicies;
    if n > 0 {
      ParentNodesAre(namespace, parents, n - 1, node);
      PlainIsSpelled(node, "Gateway", GatewayHome(namespace, parents[n - 1]), parents[n - 1].name, Idle, false);
    }
  }

  lemma {:induction false} RouteNodesAre(namespace: string, routes: seq<KindRoute>, n: nat, node: Node)
    requires n <= |routes|
    ensures node in AllRouteNodes(namespace, routes, n)
            <==> exists i :: 0 <= i < n && RouteDrawn(namespace, routes[i], node)
  {
    hide Stored, Plain, Spelled, NoPolicies, ParentNodes;
    if n > 0 {
      var r := routes[n - 1];
      RouteNodesAre(namespace, routes, n - 1, node);
      PlainIsSpelled(node, r.kind, namespace, r.route.name, r.route.status, false);
      ParentNodesAre(namespace, r.route.parents, |r.route.parents|, node);
    }
  }

  /** Something an owner refers to; a claim shows its own status, or that it is missing. */
  ghost predicate RefDrawn(namespace: string, o: Owner, claims: Claims, node: Node) {
    exists r :: RefersTo(o, claims, r) && RefSpelled(namespace, claims, r, node)
  }

  ghost predicate RefSpelled(namespace: string, claims: Claims, r: SpecRef, node: Node) {
    Spelled(node, r.kind, namespace, r.name,
            if r.kind != "PersistentVolumeClaim" then Healthy
            else if r.name in claims then claims[r.name].status
            else Warning, true)
  }

  /** What is behind a claim: a volume with its class, or the class that is asked for. */
  ghost predicate BehindDrawn(claim: Claim, volumes: Volumes, node: Node) {
    if claim.volume in volumes then
      var pv := volumes[claim.volume];
      || Spelled(node, "PersistentVolume", "", pv.name, pv.status, false)
      || ClassDrawn(pv.storageClass, node)
    else claim.storageClass.Some? && ClassDrawn(claim.storageClass.value, node)
  }

  ghost predicate ClassDrawn(name: string, node: Node) {
    name != "" && Spelled(node, "StorageClass", "", name, Healthy, false)
  }

  lemma RefNodesAre(namespace: string, o: Owner, claims: Claims, node: Node)
    ensures node in RefNodes(namespace, RefSet(o, claims), claims) <==> RefDrawn(namespace, o, claims, node)
  {
    hide RefSet, RefersTo, RefSpelled, Stored, RefNode;
    if r :| r in RefSet(o, claims) && node == Stored(RefNode(namespace, r, claims)) {
      RefSetMeaning(o, claims, r);
      RefIsSpelled(namespace, claims, r, node);
    }
    if r :| RefersTo(o, claims, r) && RefSpelled(namespace, claims, r, node) {
      RefSetMeaning(o, claims, r);
      RefIsSpelled(namespace, claims, r, node);
    }
  }

  lemma RefIsSpelled(namespace: string, claims: Claims, r: SpecRef, node: Node)
    ensures node == Stored(RefNode(namespace, r, claims)) <==> RefSpelled(namespace, claims, r, node)
  {
    hide Stored, Plain, Spelled;
    var status := RefNode(namespace, r, claims).status;
    PlainIsSpelled(node, r.kind, namespace, r.name,
      if r.kind != "PersistentVolumeClaim" then Healthy else if r.name in claims then claims[r.name].status
      else Warning, true);
  }

  lemma {:induction false} ConfigNodesAre(namespace: string, owners: seq<Owner>, claims: Claims, n: nat, node: Node)
    requires n <= |owners|
    ensures node in ConfigNodes(namespace, owners, claims, n)
            <==> exists i :: 0 <= i < n && RefDrawn(namespace, owners[i], claims, node)
  {
    hide RefNodes, RefSet, RefDrawn;
    if n > 0 {
      ConfigNodesAre(namespace, owners, claims, n - 1, node);
      RefNodesAre(namespace, owners[n - 1], claims, node);
    }
  }

  lemma BehindNodesAre(name: string, claims: Claims, volumes: Volumes, node: Node)
    ensures node in BehindNodes(name, claims, volumes) <==> name in claims && BehindDrawn(claims[name], volumes, node)
  {
    hide Stored, Plain, Spelled, NoPolicies;
    if name in claims {
      if claims[name].volume in volumes {
        var pv := volumes[claims[name].volume];
        PlainIsSpelled(node, "PersistentVolume", "", pv.name, pv.status, false);
        PlainIsSpelled(node, "StorageClass", "", pv.storageClass, Healthy, false);
      } else {
        PlainIsSpelled(node, "StorageClass", "", ClassOf(claims[name]), Healthy, false);
      }
    }
  }

  ghost predicate AnyBehindDrawn(owners: seq<Owner>, claims: Claims, volumes: Volumes, node: Node) {
    exists name :: name in claims && InUse(owners, claims, name) && BehindDrawn(claims[name], volumes, node)
  }

  lemma DependencyNodesAre(
    namespace: string, claims: seq<Claim>, volumes: seq<PersistentVolume>, owners: NamespaceOwners, node: Node)
    ensures var byName, pvs := ClaimsByName(claims, |claims|), VolumesByName(volumes, |volumes|);
            node in DependencyNodes(namespace, claims, volumes, owners) <==>
              || (exists i :: 0 <= i < |owners.owners| && RefDrawn(namespace, owners.owners[i], byName, node))
              || AnyBehindDrawn(owners.owners, byName, pvs, node)
  {
    hide ConfigNodes, BehindNodes, RefDrawn, BehindDrawn, InUse, UsedClaims, ClaimsByName, VolumesByName, NoPolicies;
    var byName, pvs := ClaimsByName(claims, |claims|), VolumesByName(volumes, |volumes|);
    ConfigNodesAre(namespace, owners.owners, byName, |owners.owners|, node);
    assert owners.owners[..|owners.owners|] == owners.owners;
    forall name
      ensures name in UsedClaims(owners.owners, byName, |owners.owners|) <==> InUse(owners.owners, byName, name)
      ensures node in BehindNodes(name, byName, pvs) <==> name in byName && BehindDrawn(byName[name], pvs, node)
    {
      UsedClaimsMeaning(owners.owners, byName, |owners.owners|, name);
      BehindNodesAre(name, byName, pvs, node);
    }
  }

  lemma {:induction false} ScalerNodesAre(namespace: string, hpas: seq<Autoscaler>, n: nat, node: Node)
    requires n <= |hpas|
    ensures node in ScalerNodes(namespace, hpas, n)
            <==> exists i :: 0 <= i < n
                             && Spelled(node, "HorizontalPodAutoscaler", namespace, hpas[i].name, hpas[i].status, false)
  {
    hide Stored, Plain, Spelled, NoPolicies;
    if n > 0 {
      ScalerNodesAre(namespace, hpas, n - 1, node);
      PlainIsSpelled(node, "HorizontalPodAutoscaler", namespace, hpas[n - 1].name, hpas[n - 1].status, false);
    }
  }

  lemma {:induction false} BudgetNodesAre(namespace: string, pdbs: seq<DisruptionBudget>, n: nat, node: Node)
    requires n <= |pdbs|
    ensures node in BudgetNodes(namespace, pdbs, n)
            <==> exists i :: 0 <= i < n
                             && Spelled(node, "PodDisruptionBudget", namespace, pdbs[i].name, pdbs[i].status, false)
  {
    hide Stored, Plain, Spelled, NoPolicies;
    if n > 0 {
      BudgetNodesAre(namespace, pdbs, n - 1, node);
      PlainIsSpelled(node, "PodDisruptionBudget", namespace, pdbs[n - 1].name, pdbs[n - 1].status, false);
    }
  }

  /** A policy with a valid selector, and how many of its peers the graph cannot show. */
  ghost predicate PolicyDrawn(namespace: string, policy: NetworkPolicy, node: Node) {
    && policy.podSelector.Valid?
    && Spelled(node.(externalPeers := 0), "NetworkPolicy", namespace, policy.name, Healthy, false)
    && node.externalPeers == |ExternalPlaces(policy.ingress, |policy.ingress|)|
        + |ExternalPlaces(policy.egress, |policy.egress|)|
  }

  lemma OnePolicyNodeIs(namespace: string, policy: NetworkPolicy, node: Node)
    ensures node in PolicyNodes(namespace, policy) <==> PolicyDrawn(namespace, policy, node)
  {
    hide Plain, Spelled, NodeId, KindGroup, RulesExternal, ExternalPlaces;
    ExternalIsTheCount(policy.ingress, |policy.ingress|);
    ExternalIsTheCount(policy.egress, |policy.egress|);
    PlainIsSpelled(node.(externalPeers := 0), "NetworkPolicy", namespace, policy.name, Healthy, false);
    var plain := Plain("NetworkPolicy", namespace, policy.name, Healthy, false, 1);
    PlainHasNoPeers("NetworkPolicy", namespace, policy.name);
  }

  lemma PlainHasNoPeers(kind: string, namespace: string, name: string)
    ensures Plain(kind, namespace, name, Healthy, false, 1).externalPeers == 0
  {
  }

  lemma {:induction false} PolicyNodesAre(namespace: string, policies: seq<NetworkPolicy>, n: nat, node: Node)
    requires n <= |policies|
    ensures node in AllPolicyNodes(namespace, policies, n)
            <==> exists i :: 0 <= i < n && PolicyDrawn(namespace, policies[i], node)
  {
    hide PolicyNodes, PolicyDrawn;
    if n > 0 {
      PolicyNodesAre(namespace, policies, n - 1, node);
      OnePolicyNodeIs(namespace, policies[n - 1], node);
    }
  }

  lemma AccountNodesAre(namespace: string, names: set<string>, node: Node)
    ensures node in AccountNodes(namespace, names)
            <==> exists name :: name in names && Spelled(node, "ServiceAccount", namespace, name, Healthy, false)
  {
    hide Stored, Plain, Spelled;
    forall name
      ensures node == Stored(AccountNode(namespace, name))
              <==> Spelled(node, "ServiceAccount", namespace, name, Healthy, false)
    {
      PlainIsSpelled(node, "ServiceAccount", namespace, name, Healthy, false);
    }
  }

  /** A binding that binds an account in use, or its role; a ClusterRole has no namespace. */
  ghost predicate BindingDrawn(
    namespace: string, owners: seq<Owner>, kind: string, home: string, b: Binding, node: Node)
  {
    && (exists account :: BindsAccount(namespace, owners, home, b, account))
    && (|| Spelled(node, kind, home, b.name, Healthy, false)
        || Spelled(node, b.roleRef.kind, if b.roleRef.kind == "ClusterRole" then "" else namespace, b.roleRef.name,
                   Healthy, false))
  }

  lemma KeptBindingNodes(
    namespace: string, owners: seq<Owner>, kind: string, home: string, b: Binding, kept: AccountBinding, node: Node)
    requires kept == AccountBinding(kind, b.name, home, b.roleRef,
                                    NamedAccounts(b.subjects, home, namespace, AccountsIn(owners), |b.subjects|))
    ensures kept.accounts != [] && node in RoleNodes(namespace, kept)
            <==> BindingDrawn(namespace, owners, kind, home, b, node)
  {
    hide Stored, Plain, Spelled, NamedAccounts, BindsAccount, AccountsIn;
    forall account ensures account in kept.accounts <==> BindsAccount(namespace, owners, home, b, account) {
      NamesMeaning(namespace, owners, home, b, account);
    }
    if kept.accounts != [] {
      assert kept.accounts[0] in kept.accounts;
    }
    PlainIsSpelled(node, kind, home, b.name, Healthy, false);
    PlainIsSpelled(node, b.roleRef.kind, if b.roleRef.kind == "ClusterRole" then "" else namespace, b.roleRef.name,
      Healthy, false);
  }

  lemma {:induction false} RoleNodesAre(namespace: string, bindings: seq<AccountBinding>, n: nat, node: Node)
    requires n <= |bindings|
    ensures node in AllRoleNodes(namespace, bindings, n)
            <==> exists i :: 0 <= i < n && node in RoleNodes(namespace, bindings[i])
  {
    hide RoleNodes;
    if n > 0 {
      RoleNodesAre(namespace, bindings, n - 1, node);
    }
  }

  lemma KeptBindingsAre(
    namespace: string, owners: seq<Owner>, kind: string, home: string, bindings: seq<Binding>, node: Node)
    ensures (exists b :: b in BindingsNaming(bindings, kind, home, namespace, AccountsIn(owners), |bindings|)
                         && node in RoleNodes(namespace, b))
            <==> exists i :: 0 <= i < |bindings| && BindingDrawn(namespace, owners, kind, home, bindings[i], node)
  {
    hide RoleNodes, BindingDrawn, AccountsIn, BindingsNaming, NamedAccounts;
    var accounts := AccountsIn(owners);
    var kept := BindingsNaming(bindings, kind, home, namespace, accounts, |bindings|);
    if b :| b in kept && node in RoleNodes(namespace, b) {
      BindingsNamingMeaning(bindings, kind, home, namespace, accounts, |bindings|, b);
      var i :| 0 <= i < |bindings| && KeptAs(bindings[i], kind, home, namespace, accounts, b);
      KeptBindingNodes(namespace, owners, kind, home, bindings[i], b, node);
    }
    if i :| 0 <= i < |bindings| && BindingDrawn(namespace, owners, kind, home, bindings[i], node) {
      var names := NamedAccounts(bindings[i].subjects, home, namespace, accounts, |bindings[i].subjects|);
      var b := AccountBinding(kind, bindings[i].name, home, bindings[i].roleRef, names);
      KeptBindingNodes(namespace, owners, kind, home, bindings[i], b, node);
      BindingsNamingMeaning(bindings, kind, home, namespace, accounts, |bindings|, b);
      assert KeptAs(bindings[i], kind, home, namespace, accounts, b);
    }
  }

  ghost predicate AnyBindingDrawn(
    namespace: string, owners: seq<Owner>, own: seq<Binding>, all: seq<Binding>, node: Node)
  {
    || (exists i :: 0 <= i < |own| && BindingDrawn(namespace, owners, "RoleBinding", namespace, own[i], node))
    || (exists i :: 0 <= i < |all| && BindingDrawn(namespace, owners, "ClusterRoleBinding", "", all[i], node))
  }

  lemma BindingNodesAre(
    namespace: string, owners: seq<Owner>, own: seq<Binding>, all: seq<Binding>, bindings: seq<AccountBinding>,
    node: Node)
    requires bindings == AccountBindings(namespace, AccountsIn(owners), own, all)
    ensures node in AllRoleNodes(namespace, bindings, |bindings|)
            <==> AnyBindingDrawn(namespace, owners, own, all, node)
  {
    hide AllRoleNodes, RoleNodes, BindingDrawn, AccountsIn, BindingsNaming;
    RoleNodesAre(namespace, bindings, |bindings|, node);
    KeptBindingsAre(namespace, owners, "RoleBinding", namespace, own, node);
    KeptBindingsAre(namespace, owners, "ClusterRoleBinding", "", all, node);
    assert (exists i :: 0 <= i < |bindings| && node in RoleNodes(namespace, bindings[i]))
        <==> exists b :: b in bindings && node in RoleNodes(namespace, b);
  }

  lemma {:induction false} QuotaNodesAre(namespace: string, quotas: seq<Quota>, n: nat, node: Node)
    requires n <= |quotas|
    ensures node in QuotaNodes(namespace, quotas, n)
            <==> exists i :: 0 <= i < n
                             && Spelled(node, "ResourceQuota", namespace, quotas[i].name, QuotaShows(quotas[i]), false)
  {
    hide Stored, Plain, Spelled, QuotaShows, StatusOfUsage;
    if n > 0 {
      QuotaNodesAre(namespace, quotas, n - 1, node);
      QuotaShowsUsage(quotas[n - 1]);
      PlainIsSpelled(node, "ResourceQuota", namespace, quotas[n - 1].name, QuotaShows(quotas[n - 1]), false);
    }
  }

  /** The status of a quota: some resource is used up, or at least nine tenths of some is, or neither.  One
      that is not limited does not count. */
  ghost function QuotaShows(quota: Quota): Status {
    if exists i :: 0 <= i < |quota.resources| && UsedUp(quota.resources[i], 10) then Error
    else if exists i :: 0 <= i < |quota.resources| && UsedUp(quota.resources[i], 9) then Warning
    else Healthy
  }

  /** At least so many tenths of the resource are used. */
  ghost predicate UsedUp(u: Usage, tenths: nat) {
    || (u.hard > 0.0 && 10.0 * u.used >= (tenths as real) * u.hard)
    || (u.hard < 0.0 && 10.0 * u.used <= (tenths as real) * u.hard)
  }

  lemma Ratio(u: Usage, bound: real)
    requires u.hard != 0.0
    ensures u.used / u.hard >= bound <==> if u.hard > 0.0 then u.used >= bound * u.hard else u.used <= bound * u.hard
  {
    var r := u.used / u.hard;
    assert r * u.hard == u.used;
    if u.hard > 0.0 {
      if r >= bound {
        assert (r - bound) * u.hard >= 0.0;
      } else {
        assert (bound - r) * u.hard > 0.0;
      }
    } else {
      if r >= bound {
        assert (r - bound) * -u.hard >= 0.0;
      } else {
        assert (bound - r) * -u.hard > 0.0;
      }
    }
  }

  lemma FullMeaning(u: Usage)
    ensures Full(u) <==> UsedUp(u, 10)
    ensures NearlyFull(u) <==> UsedUp(u, 9)
  {
    if u.hard != 0.0 {
      Ratio(u, 1.0);
      Ratio(u, 0.9);
    }
  }

  lemma QuotaShowsUsage(quota: Quota)
    ensures StatusOfUsage(set u | u in quota.resources) == QuotaShows(quota)
  {
    forall u ensures (Full(u) <==> UsedUp(u, 10)) && (NearlyFull(u) <==> UsedUp(u, 9)) {
      FullMeaning(u);
    }
    hide Full, NearlyFull, UsedUp;
    assert forall u :: u in quota.resources <==> exists i :: 0 <= i < |quota.resources| && quota.resources[i] == u;
  }

  lemma {:induction false} LimitNodesAre(namespace: string, limits: seq<LimitRange>, n: nat, node: Node)
    requires n <= |limits|
    ensures node in LimitNodes(namespace, limits, n)
            <==> exists i :: 0 <= i < n && Spelled(node, "LimitRange", namespace, limits[i].name, Healthy, false)
  {
    hide Stored, Plain, Spelled;
    if n > 0 {
      LimitNodesAre(namespace, limits, n - 1, node);
      PlainIsSpelled(node, "LimitRange", namespace, limits[n - 1].name, Healthy, false);
    }
  }

  // All of them

  /** What the steps up to the routes, and what pods depend on, are drawn for ... */
  ghost predicate WorkloadDrawn(owners: NamespaceOwners, o: NamespaceObjects, n: Node) {
    var claims, volumes := ClaimsByName(o.claims, |o.claims|), VolumesByName(o.volumes, |o.volumes|);
    || (exists i :: 0 <= i < |owners.owners| && n == Stored(owners.owners[i].node))
    || (exists i :: 0 <= i < |o.services|
          && Spelled(n, "Service", o.services[i].namespace, o.services[i].name, Healthy, true))
    || (exists i :: 0 <= i < |o.ingresses| && Spelled(n, "Ingress", o.namespace, o.ingresses[i].name, Healthy, true))
    || (exists i :: 0 <= i < |o.gateways|
                    && Spelled(n, "Gateway", o.namespace, o.gateways[i].name, o.gateways[i].status, false))
    || (exists i :: 0 <= i < |o.routes| && RouteDrawn(o.namespace, o.routes[i], n))
    || (exists i :: 0 <= i < |owners.owners| && RefDrawn(o.namespace, owners.owners[i], claims, n))
    || AnyBehindDrawn(owners.owners, claims, volumes, n)
  }

  /** ... and the others. */
  ghost predicate StandsFor(
    owners: NamespaceOwners, o: NamespaceObjects, own: seq<Binding>, all: seq<Binding>, n: Node)
  {
    || WorkloadDrawn(owners, o, n)
    || (exists i :: 0 <= i < |o.hpas|
                    && Spelled(n, "HorizontalPodAutoscaler", o.namespace, o.hpas[i].name, o.hpas[i].status, false))
    || (exists i :: 0 <= i < |o.pdbs|
                    && Spelled(n, "PodDisruptionBudget", o.namespace, o.pdbs[i].name, o.pdbs[i].status, false))
    || (exists i :: 0 <= i < |o.policies| && PolicyDrawn(o.namespace, o.policies[i], n))
    || (exists name :: name in AccountsDrawn(owners, o)
          && Spelled(n, "ServiceAccount", o.namespace, name, Healthy, false))
    || AnyBindingDrawn(o.namespace, owners.owners, own, all, n)
    || (exists i :: 0 <= i < |o.quotas|
                    && Spelled(n, "ResourceQuota", o.namespace, o.quotas[i].name, QuotaShows(o.quotas[i]), false))
    || (exists i :: 0 <= i < |o.limits| && Spelled(n, "LimitRange", o.namespace, o.limits[i].name, Healthy, false))
  }

  lemma WorkloadNodesAre(owners: NamespaceOwners, o: NamespaceObjects, n: Node)
    ensures n in NodesAtAutoscalers(owners, o) <==> WorkloadDrawn(owners, o, n)
  {
    hide Spelled, RouteDrawn, RefDrawn, AnyBehindDrawn, ClaimsByName, VolumesByName, Stored, NoPolicies;
    hide OwnerNodes, ServiceNodes, IngressNodes, GatewayNodes, AllRouteNodes, DependencyNodes;
    OwnerNodesAre(owners.owners, |owners.owners|, n);
    ServiceNodesAre(o.services, |o.services|, n);
    IngressNodesAre(o.namespace, o.ingresses, |o.ingresses|, n);
    GatewayNodesAre(o.namespace, o.gateways, |o.gateways|, n);
    RouteNodesAre(o.namespace, o.routes, |o.routes|, n);
    DependencyNodesAre(o.namespace, o.claims, o.volumes, owners, n);
  }

  /** Every node a step of the view draws stands for one of these, and each of these is drawn. */
  lemma NodesAreJustified(
    owners: NamespaceOwners, o: NamespaceObjects, own: seq<Binding>, all: seq<Binding>, n: Node)
    requires o.bindings == AccountBindings(o.namespace, AccountsIn(owners.owners), own, all)
    ensures n in ViewNodes(owners, o) <==> StandsFor(owners, o, own, all, n)
  {
    hide Spelled, WorkloadDrawn, PolicyDrawn, AnyBindingDrawn, QuotaShows, NoPolicies, AccountsDrawn, AccountBindings;
    hide NodesAtAutoscalers, ScalerNodes, BudgetNodes, AllPolicyNodes, AccountNodes, AllRoleNodes, QuotaNodes;
    hide LimitNodes, AccountsIn;
    WorkloadNodesAre(owners, o, n);
    ScalerNodesAre(o.namespace, o.hpas, |o.hpas|, n);
    BudgetNodesAre(o.namespace, o.pdbs, |o.pdbs|, n);
    PolicyNodesAre(o.namespace, o.policies, |o.policies|, n);
    AccountNodesAre(o.namespace, AccountsDrawn(owners, o), n);
    BindingNodesAre(o.namespace, owners.owners, own, all, o.bindings, n);
    QuotaNodesAre(o.namespace, o.quotas, |o.quotas|, n);
    LimitNodesAre(o.namespace, o.limits, |o.limits|, n);
  }
}
