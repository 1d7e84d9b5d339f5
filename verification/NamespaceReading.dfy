/** Which lists the namespace view needs, which it can do without, and what it takes from each of them:
    told list by list, without the functions that read them. */
module NamespaceReading {
  import opened AttributedOwners
  import opened GatewayGraph
  import opened KubeObjects
  import opened NamespaceView
  import opened PodAttribution
  import opened ServiceAccounts
  import opened TopOwner

  // Routes

  /** The kinds of routes, in the order they are asked for. */
  const KINDS: seq<string> := ["HTTPRoute", "GRPCRoute", "TLSRoute", "TCPRoute", "UDPRoute"]

  ghost predicate HiddenBefore(families: Families, k: nat) {
    exists j :: 0 <= j < k && j < 5 && families[j].Some? && families[j].value.Hidden?
  }

  /** A list that cannot be read counts unless an earlier one was hidden, which ends the search. */
  ghost predicate FailsAt(families: Families, k: nat) {
    k < 5 && families[k].Some? && families[k].value.Failed? && !HiddenBefore(families, k)
  }

  ghost predicate ListedAt(families: Families, k: nat, r: KindRoute) {
    && k < 5 && families[k].Some? && families[k].value.Items? && !HiddenBefore(families, k)
    && r.kind == KINDS[k] && r.route in families[k].value.items
  }

  lemma {:induction false} OfKindMeaning(kind: string, routes: seq<Route>, n: nat, r: KindRoute)
    requires n <= |routes|
    ensures r in OfKind(kind, routes, n) <==> r.kind == kind && r.route in routes[..n]
  {
    if n > 0 {
      OfKindMeaning(kind, routes, n - 1, r);
    }
  }

  lemma {:induction false} SearchMeaning(families: Families, n: nat, r: KindRoute)
    requires n <= 5
    ensures SearchUpTo(families, n).Broken? <==> exists k: nat :: k < n && FailsAt(families, k)
    ensures SearchUpTo(families, n).Ended? ==> HiddenBefore(families, n)
    ensures SearchUpTo(families, n).Going? ==> !HiddenBefore(families, n)
    ensures !SearchUpTo(families, n).Broken? ==>
              (r in SearchUpTo(families, n).routes <==> exists k: nat :: k < n && ListedAt(families, k, r))
  {
    hide OfKind;
    if n > 0 {
      SearchMeaning(families, n - 1, r);
      OneMoreHidden(families, n);
      hide HiddenBefore;
      if families[n - 1].Some? && families[n - 1].value.Items? {
        var items := families[n - 1].value.items;
        OfKindMeaning(KINDS[n - 1], items, |items|, r);
        assert items[..|items|] == items;
      }
      assert FailsAt(families, n - 1) || !FailsAt(families, n - 1);
      assert ListedAt(families, n - 1, r) || !ListedAt(families, n - 1, r);
    }
  }

  lemma OneMoreHidden(families: Families, n: nat)
    requires 0 < n <= 5
    ensures HiddenBefore(families, n)
            <==> HiddenBefore(families, n - 1) || (families[n - 1].Some? && families[n - 1].value.Hidden?)
  {
  }

  // Owners

  /** There is an owner exactly where a workload is drawn or a pod runs. */
  lemma OwnersOrNone(inv: Inventory)
    requires Readable(inv)
    ensures Attributed(inv).owners == [] <==> Draws(inv) == [] && inv.pods.items == []
  {
    hide Draws, Attributed, MadeUpFor, StandsForItself;
    OwnersAreComplete(inv);
    if Draws(inv) != [] {
      assert Draws(inv)[0] in Draws(inv);
    } else if inv.pods.items != [] {
      NoWorkloadNoFate(inv);
      hide FatesIn;
      var fate := FatesIn(inv)[0];
      if fate.OfGeneric? {
        ThroughItsTop(inv.namespace, fate);
      }
    } else if Attributed(inv).owners != [] {
      OwnersAreJustified(inv, Attributed(inv).owners[0]);
    }
  }

  lemma ThroughItsTop(namespace: string, fate: Fate)
    requires fate.OfGeneric?
    ensures exists id :: Through(namespace, fate, id)
  {
    assert Through(namespace, fate, fate.top.kind + "/" + namespace + "/" + fate.top.name);
  }

  lemma NoWorkloadNoFate(inv: Inventory)
    requires Readable(inv) && Draws(inv) == [] && inv.pods.items != []
    ensures !FatesIn(inv)[0].OfWorkload?
  {
    var refs := inv.pods.items[0].ownerRefs;
    if refs != [] {
      ShownNothing(refs, Intermediates(inv));
    }
  }

  lemma ShownNothing(refs: seq<OwnerRef>, intermediate: Intermediate)
    requires refs != []
    ensures Top(refs, map[], intermediate).1 == ""
  {
    NothingAbove(ControllerRef(refs), intermediate, 5);
  }

  lemma {:induction false} NothingAbove(ref: OwnerRef, intermediate: Intermediate, steps: nat)
    ensures WalkUp(ref, map[], intermediate, steps).1 == ""
    decreases steps
  {
    if steps > 0 && ref.uid in intermediate && intermediate[ref.uid] != [] {
      NothingAbove(ControllerRef(intermediate[ref.uid]), intermediate, steps - 1);
    }
  }

  lemma RoutesFail(families: Families)
    ensures RoutesFrom(families).None? <==> exists k: nat :: FailsAt(families, k)
  {
    hide SearchUpTo;
    var r: KindRoute :| true;
    SearchMeaning(families, 5, r);
    hide HiddenBefore;
  }

  // What is needed

  /** The workloads, the ReplicaSets and the pods; ReplicationControllers may be hidden. */
  ghost predicate PodsAnswer(inv: Inventory) {
    && inv.deployments.Items? && inv.statefulSets.Items? && inv.daemonSets.Items? && inv.cronJobs.Items?
    && inv.jobs.Items? && inv.replicaSets.Items? && inv.pods.Items?
    && (inv.replicationControllers.Items? || inv.replicationControllers.Hidden?)
  }

  /** Services, Ingresses and claims are needed, the rest may be hidden. */
  ghost predicate ObjectsAnswer(lists: NamespaceLists) {
    && lists.services.Items? && lists.ingresses.Items? && lists.claims.Items?
    && (lists.hpas.Items? || lists.hpas.Hidden?) && (lists.pdbs.Items? || lists.pdbs.Hidden?)
    && (lists.policies.Items? || lists.policies.Hidden?)
    && (lists.quotas.Hidden? || (lists.quotas.Items? && (lists.limits.Items? || lists.limits.Hidden?)))
  }

  /** The Gateway API may be missing or hidden; where it is not, no kind of route may fail. */
  ghost predicate GatewaysAnswer(lists: NamespaceLists) {
    || lists.gateways.None? || lists.gateways.value.Hidden?
    || (lists.gateways.value.Items? && forall k: nat :: !FailsAt(lists.routes, k))
  }

  /** Bindings are only asked for where something runs, and those of the cluster only after those of the
      namespace. */
  ghost predicate BindingsAnswer(lists: NamespaceLists)
    requires PodsAnswer(lists.inv)
  {
    || (Draws(lists.inv) == [] && lists.inv.pods.items == [])
    || lists.roleBindings.Hidden?
    || (lists.roleBindings.Items? && (lists.clusterBindings.Items? || lists.clusterBindings.Hidden?))
  }

  /** The view is drawn exactly if all of these can be read.  EndpointSlices and volumes never stop it. */
  lemma AnswersMeaning(lists: NamespaceLists)
    ensures Answers(lists) <==>
              && PodsAnswer(lists.inv) && ObjectsAnswer(lists) && GatewaysAnswer(lists) && BindingsAnswer(lists)
  {
    hide SearchUpTo, BindingsNaming, Attributed, Draws;
    if PodsAnswer(lists.inv) {
      OwnersOrNone(lists.inv);
      RoutesFail(lists.routes);
    }
  }

  // What is taken from each list

  /** Every list that was read is taken as it is; one that was not counts as empty. */
  lemma ObjectsAreRead(lists: NamespaceLists)
    requires Answers(lists)
    ensures var o := ObjectsRead(lists);
            && o.namespace == lists.inv.namespace
            && o.services == lists.services.items && o.ingresses == lists.ingresses.items
            && o.claims == lists.claims.items
            && o.slices == (if lists.slices.Items? then lists.slices.items else [])
            && o.volumes == (if lists.volumes.Items? then lists.volumes.items else [])
            && o.hpas == (if lists.hpas.Items? then lists.hpas.items else [])
            && o.pdbs == (if lists.pdbs.Items? then lists.pdbs.items else [])
            && o.policies == (if lists.policies.Items? then lists.policies.items else [])
            && o.quotas == (if lists.quotas.Items? then lists.quotas.items else [])
            && o.limits == (if lists.quotas.Items? && lists.limits.Items? then lists.limits.items else [])
            && o.gateways == (if lists.gateways.Some?
                && lists.gateways.value.Items? then lists.gateways.value.items else [])
  {
    hide Attributed, RoutesFrom, BindingsFor, Readable;
  }

  /** A route is drawn exactly if the Gateways and the routes of its kind were listed, and no kind before
      it was hidden. */
  lemma RoutesAreRead(lists: NamespaceLists, r: KindRoute)
    requires Answers(lists)
    ensures r in ObjectsRead(lists).routes <==>
              && lists.gateways.Some? && lists.gateways.value.Items?
              && exists k: nat :: ListedAt(lists.routes, k, r)
  {
    hide Attributed, SearchUpTo, BindingsFor, Readable, ListedAt;
    SearchMeaning(lists.routes, 5, r);
    ListedAmongFive(lists.routes, r);
  }

  lemma ListedAmongFive(families: Families, r: KindRoute)
    ensures forall k: nat :: ListedAt(families, k, r) ==> k < 5
  {
  }

  /** The bindings the view looks at. */
  lemma BindingsAreRead(lists: NamespaceLists)
    ensures OwnBindings(lists) == if lists.roleBindings.Items? then lists.roleBindings.items else []
    ensures AllBindings(lists)
            == if lists.roleBindings.Items? && lists.clusterBindings.Items? then lists.clusterBindings.items else []
  {
  }
}
