/** The steps of kube_namespace_graph.go that draw Services, Ingresses and what pods depend on. */
module NamespaceGraph {
  import opened GraphBuilder
  import opened KubeObjects
  import opened PodAttribution
  import opened PodOwners
  import opened Seqs
  import opened TopologyGraph
  import opened Wrappers

  // Edges in bulk

  ghost function Links(source: string, targets: set<string>, kind: string): set<Edge> {
    set t | t in targets :: Edge(source, t, kind)
  }

  lemma LinksMore(source: string, targets: set<string>, target: string, kind: string)
    ensures Links(source, targets + {target}, kind) == Links(source, targets, kind) + {Edge(source, target, kind)}
    ensures Links(source, {}, kind) == {}
  {
  }

  ghost function LinksFrom(sources: set<string>, target: string, kind: string): set<Edge> {
    set s | s in sources :: Edge(s, target, kind)
  }

  lemma LinksFromMore(sources: set<string>, source: string, target: string, kind: string)
    ensures LinksFrom(sources + {source}, target, kind)
            == LinksFrom(sources, target, kind) + {Edge(source, target, kind)}
    ensures LinksFrom({}, target, kind) == {}
  {
  }

  /** The owners are drawn, and every pod is attributed to something drawn. */
  ghost predicate OwnersDrawn(ids: set<string>, owners: NamespaceOwners) {
    && (forall i :: 0 <= i < |owners.owners| ==> owners.owners[i].node.id in ids)
    && (forall name :: name in owners.podOwner ==> owners.podOwner[name] in ids)
  }

  lemma StillDrawn(before: set<string>, after: set<string>, owners: NamespaceOwners)
    requires OwnersDrawn(before, owners) && before <= after
    ensures OwnersDrawn(after, owners)
  {
  }

  /** What the steps other than the NetworkPolicies' draw: no edge of kind "allows" ... */
  ghost predicate NoAllows(edges: set<Edge>) {
    forall e :: e in edges ==> e.kind != "allows"
  }

  /** ... and no node that could take the ID of a NetworkPolicy: the kind comes first in an ID. */
  ghost predicate NoPolicies(nodes: set<Node>) {
    forall n :: n in nodes ==> n.id != "" && n.id[0] != 'N'
  }

  // Services

  function ServiceNode(svc: Service): Node {
    Plain("Service", svc.namespace, svc.name, Healthy, true, 1)
  }

  /** labels.SelectorFromSet: every pair of the selector is among the labels. */
  predicate Selects(selector: Labels, labels: Labels) {
    forall key :: key in selector ==> key in labels && labels[key] == selector[key]
  }

  /** A selector selects what carries all of its pairs. */
  lemma SelectsMeaning(selector: Labels, labels: Labels)
    ensures Selects(selector, labels) <==> selector.Items <= labels.Items
  {
    if Selects(selector, labels) {
      forall pair | pair in selector.Items ensures pair in labels.Items {
        assert pair.0 in selector && selector[pair.0] == pair.1;
      }
    }
    if selector.Items <= labels.Items {
      forall key | key in selector ensures key in labels && labels[key] == selector[key] {
        assert (key, selector[key]) in labels.Items;
      }
    }
  }

  ghost function SelectedOwners(owners: seq<Owner>, selector: Labels, n: nat): set<string>
    requires n <= |owners|
  {
    if n == 0 then {}
    else if !Selects(selector, owners[n - 1].labels) then SelectedOwners(owners, selector, n - 1)
    else SelectedOwners(owners, selector, n - 1) + {owners[n - 1].node.id}
  }

  function PodTargets(endpoints: seq<TargetRef>, n: nat): seq<string>
    requires n <= |endpoints|
  {
    if n == 0 then []
    else if endpoints[n - 1].kind == "Pod" then PodTargets(endpoints, n - 1) + [endpoints[n - 1].name]
    else PodTargets(endpoints, n - 1)
  }

  /** endpointPods: the pods behind a Service, from its EndpointSlices. */
  function PodsBehind(slices: seq<EndpointSlice>, service: string, n: nat): seq<string>
    requires n <= |slices|
  {
    if n == 0 then []
    else if slices[n - 1].service == service
    then PodsBehind(slices, service, n - 1) + PodTargets(slices[n - 1].endpoints, |slices[n - 1].endpoints|)
    else PodsBehind(slices, service, n - 1)
  }

  ghost function OwnersOfPods(pods: seq<string>, podOwner: map<string, string>, n: nat): set<string>
    requires n <= |pods|
  {
    if n == 0 then {}
    else if pods[n - 1] !in podOwner then OwnersOfPods(pods, podOwner, n - 1)
    else OwnersOfPods(pods, podOwner, n - 1) + {podOwner[pods[n - 1]]}
  }

  /** A Service selects owners by their pod labels or, without a selector, by its endpoints. */
  ghost function ServiceTargets(svc: Service, slices: seq<EndpointSlice>, owners: NamespaceOwners): set<string> {
    if svc.selector != map[] then SelectedOwners(owners.owners, svc.selector, |owners.owners|)
    else
      var pods := PodsBehind(slices, svc.name, |slices|);
      OwnersOfPods(pods, owners.podOwner, |pods|)
  }

  ghost function ServiceEdges(services: seq<Service>, slices: seq<EndpointSlice>, owners: NamespaceOwners, n: nat)
    : (edges: set<Edge>)
    requires n <= |services|
    ensures NoAllows(edges)
  {
    if n == 0 then {}
    else ServiceEdges(services, slices, owners, n - 1)
         + Links(ServiceNode(services[n - 1]).id, ServiceTargets(services[n - 1], slices, owners), "selects")
  }

  ghost function ServiceNodes(services: seq<Service>, n: nat): (nodes: set<Node>)
    requires n <= |services|
    ensures NoPolicies(nodes)
  {
    if n == 0 then {} else ServiceNodes(services, n - 1) + {Stored(ServiceNode(services[n - 1]))}
  }

  method AddServices(g: Builder, services: seq<Service>, slices: seq<EndpointSlice>, owners: NamespaceOwners)
    requires g.Valid() && OwnersDrawn(g.nodeIds, owners)
    modifies g`nodes, g`nodeIds, g`written, g`edges, g`edgeSet
    ensures g.Valid() && old(g.nodeIds) <= g.nodeIds
    ensures forall before :: old(g.Good(before)) ==> g.Good(before)
    ensures g.edgeSet == old(g.edgeSet) + ServiceEdges(services, slices, owners, |services|)
    ensures g.written == old(g.written) + ServiceNodes(services, |services|)
  {
    hide Builder.Valid, Builder.Good, NoAllows, NoPolicies, Stored, ServiceNode, ServiceTargets, Links, OwnersDrawn;
    ghost var ids0, edges0, written0 := g.nodeIds, g.edgeSet, g.written;
    for i := 0 to |services|
      invariant g.Valid() && ids0 <= g.nodeIds && forall before :: old(g.Good(before)) ==> g.Good(before)
      invariant g.edgeSet == edges0 + ServiceEdges(services, slices, owners, i)
      invariant g.written == written0 + ServiceNodes(services, i)
    {
      StillDrawn(ids0, g.nodeIds, owners);
      AddService(g, services[i], slices, owners);
    }
  }

  method AddService(g: Builder, svc: Service, slices: seq<EndpointSlice>, owners: NamespaceOwners)
    requires g.Valid() && OwnersDrawn(g.nodeIds, owners)
    modifies g`nodes, g`nodeIds, g`written, g`edges, g`edgeSet
    ensures g.Valid() && old(g.nodeIds) <= g.nodeIds
    ensures forall before :: old(g.Good(before)) ==> g.Good(before)
    ensures g.edgeSet == old(g.edgeSet) + Links(ServiceNode(svc).id, ServiceTargets(svc, slices, owners), "selects")
    ensures g.written == old(g.written) + {Stored(ServiceNode(svc))}
  {
    hide Builder.Valid, Builder.Good, NoAllows, NoPolicies, Stored, Links, Selects, NodeId, PodsBehind;
    ghost var edges0 := g.edgeSet;
    var node := ServiceNode(svc);
    var id := node.id;
    g.AddNode(node);
    hide ServiceNode;
    LinksMore(id, {}, "", "selects");
    if svc.selector != map[] {
      for k := 0 to |owners.owners|
        modifies g`edges, g`edgeSet
        invariant g.Valid() && forall before :: old(g.Good(before)) ==> g.Good(before)
        invariant g.edgeSet == edges0 + Links(id, SelectedOwners(owners.owners, svc.selector, k), "selects")
      {
        var o := owners.owners[k];
        if Selects(svc.selector, o.labels) {
          g.AddEdge(id, o.node.id, "selects");
          LinksMore(id, SelectedOwners(owners.owners, svc.selector, k), o.node.id, "selects");
        }
      }
      return;
    }
    var pods := PodsBehind(slices, svc.name, |slices|);
    for k := 0 to |pods|
      modifies g`edges, g`edgeSet
      invariant g.Valid() && forall before :: old(g.Good(before)) ==> g.Good(before)
      invariant g.edgeSet == edges0 + Links(id, OwnersOfPods(pods, owners.podOwner, k), "selects")
    {
      if pods[k] in owners.podOwner {
        g.AddEdge(id, owners.podOwner[pods[k]], "selects");
        LinksMore(id, OwnersOfPods(pods, owners.podOwner, k), owners.podOwner[pods[k]], "selects");
      }
    }
  }

  // What the edges of Services mean

  /** An endpoint of the Service is this pod. */
  ghost predicate IsEndpoint(slices: seq<EndpointSlice>, service: string, pod: string) {
    exists i, k :: 0 <= i < |slices| && 0 <= k < |slices[i].endpoints|
                   && slices[i].service == service && slices[i].endpoints[k] == TargetRef("Pod", pod)
  }

  lemma {:induction false} PodTargetsMeaning(endpoints: seq<TargetRef>, n: nat, pod: string)
    requires n <= |endpoints|
    ensures pod in PodTargets(endpoints, n) <==> exists k :: 0 <= k < n && endpoints[k] == TargetRef("Pod", pod)
  {
    if n > 0 {
      PodTargetsMeaning(endpoints, n - 1, pod);
    }
  }

  lemma {:induction false} PodsBehindMeaning(slices: seq<EndpointSlice>, service: string, n: nat, pod: string)
    requires n <= |slices|
    ensures pod in PodsBehind(slices, service, n) <==> IsEndpoint(slices[..n], service, pod)
  {
    hide PodTargets;
    if n > 0 {
      PodsBehindMeaning(slices, service, n - 1, pod);
      PodTargetsMeaning(slices[n - 1].endpoints, |slices[n - 1].endpoints|, pod);
      assert slices[..n] == slices[..n - 1] + [slices[n - 1]];
    }
  }

  lemma {:induction false} SelectedOwnersMeaning(owners: seq<Owner>, selector: Labels, n: nat, id: string)
    requires n <= |owners|
    ensures id in SelectedOwners(owners, selector, n)
            <==> exists i :: 0 <= i < n && owners[i].node.id == id && Selects(selector, owners[i].labels)
  {
    hide Selects;
    if n > 0 {
      SelectedOwnersMeaning(owners, selector, n - 1, id);
    }
  }

  lemma {:induction false} OwnersOfPodsMeaning(pods: seq<string>, podOwner: map<string, string>, n: nat, id: string)
    requires n <= |pods|
    ensures id in OwnersOfPods(pods, podOwner, n)
            <==> exists pod :: pod in pods[..n] && pod in podOwner && podOwner[pod] == id
  {
    if n > 0 {
      OwnersOfPodsMeaning(pods, podOwner, n - 1, id);
      assert pods[..n] == pods[..n - 1] + [pods[n - 1]];
    }
  }

  /** A Service leads to the owners whose pod labels its selector matches or, without a selector, to
      the owners its endpoints are attributed to. */
  ghost predicate LeadsTo(svc: Service, slices: seq<EndpointSlice>, owners: NamespaceOwners, id: string) {
    if svc.selector != map[]
    then exists i :: 0 <= i < |owners.owners| && owners.owners[i].node.id == id
           && Selects(svc.selector, owners.owners[i].labels)
    else exists pod :: IsEndpoint(slices, svc.name, pod) && pod in owners.podOwner && owners.podOwner[pod] == id
  }

  lemma ServiceTargetsAreExact(svc: Service, slices: seq<EndpointSlice>, owners: NamespaceOwners, id: string)
    ensures id in ServiceTargets(svc, slices, owners) <==> LeadsTo(svc, slices, owners, id)
  {
    hide Selects, IsEndpoint, PodsBehind;
    SelectedOwnersMeaning(owners.owners, svc.selector, |owners.owners|, id);
    var pods := PodsBehind(slices, svc.name, |slices|);
    OwnersOfPodsMeaning(pods, owners.podOwner, |pods|, id);
    assert pods[..|pods|] == pods && slices[..|slices|] == slices;
    forall pod ensures pod in pods <==> IsEndpoint(slices, svc.name, pod) {
      PodsBehindMeaning(slices, svc.name, |slices|, pod);
    }
  }

  // Ingresses

  function Named(backends: seq<Option<string>>, n: nat): seq<string>
    requires n <= |backends|
  {
    if n == 0 then []
    else if backends[n - 1].None? then Named(backends, n - 1)
    else Named(backends, n - 1) + [backends[n - 1].value]
  }

  function RuleBackends(rules: seq<seq<Option<string>>>, n: nat): seq<string>
    requires n <= |rules|
  {
    if n == 0 then [] else RuleBackends(rules, n - 1) + Named(rules[n - 1], |rules[n - 1]|)
  }

  function BackendsOf(ing: Ingress): seq<string> {
    (if ing.defaultBackend.Some? then [ing.defaultBackend.value] else []) + RuleBackends(ing.rules, |ing.rules|)
  }

  /** ingressBackends: the Services an Ingress routes to. */
  method IngressBackends(ing: Ingress) returns (names: seq<string>)
    ensures names == BackendsOf(ing)
  {
    hide Named;
    var first := if ing.defaultBackend.Some? then [ing.defaultBackend.value] else [];
    names := first;
    EmptyRight(first);
    for i := 0 to |ing.rules|
      invariant names == first + RuleBackends(ing.rules, i)
    {
      var more := NamedBackends(ing.rules[i]);
      Assoc(first, RuleBackends(ing.rules, i), more);
      names := names + more;
    }
  }

  method NamedBackends(backends: seq<Option<string>>) returns (names: seq<string>)
    ensures names == Named(backends, |backends|)
  {
    names := [];
    for k := 0 to |backends|
      invariant names == Named(backends, k)
    {
      if backends[k].Some? {
        names := names + [backends[k].value];
      }
    }
  }

  function IngressNode(namespace: string, ing: Ingress): Node {
    Plain("Ingress", namespace, ing.name, Healthy, true, 1)
  }

  /** What links to Services looks for them among the nodes; the two sets hold the same ones. */
  ghost predicate SameServices(namespace: string, before: set<string>, after: set<string>) {
    forall name :: NodeId("Service", namespace, name) in before <==> NodeId("Service", namespace, name) in after
  }

  /** The IDs of nodes of two kinds differ from the first character on. */
  lemma NoNewService(namespace: string, ids: set<string>, node: Node)
    requires node.id == NodeId(node.kind, node.namespace, node.name) && node.kind != "" && node.kind[0] != 'S'
    ensures SameServices(namespace, ids, ids + {node.id})
  {
    forall name ensures NodeId("Service", namespace, name) != node.id {
      assert NodeId("Service", namespace, name)[0] == 'S' && node.id[0] == node.kind[0];
    }
  }

  /** Links to those of the named Services that are drawn. */
  ghost function RouteEdges(id: string, namespace: string, names: seq<string>, ids: set<string>, n: nat)
    : (edges: set<Edge>)
    requires n <= |names|
    ensures NoAllows(edges)
  {
    if n == 0 then {}
    else RouteEdges(id, namespace, names, ids, n - 1)
         + (if NodeId("Service", namespace, names[n - 1]) !in ids then {}
            else {Edge(id, NodeId("Service", namespace, names[n - 1]), "routes")})
  }

  ghost function IngressEdges(namespace: string, ingresses: seq<Ingress>, ids: set<string>, n: nat)
    : (edges: set<Edge>)
    requires n <= |ingresses|
    ensures NoAllows(edges)
  {
    if n == 0 then {}
    else
      var ing := ingresses[n - 1];
      IngressEdges(namespace, ingresses, ids, n - 1)
      + RouteEdges(IngressNode(namespace, ing).id, namespace, BackendsOf(ing), ids, |BackendsOf(ing)|)
  }

  ghost function IngressNodes(namespace: string, ingresses: seq<Ingress>, n: nat): (nodes: set<Node>)
    requires n <= |ingresses|
    ensures NoPolicies(nodes)
  {
    if n == 0 then {}
    else IngressNodes(namespace, ingresses, n - 1) + {Stored(IngressNode(namespace, ingresses[n - 1]))}
  }

  method AddIngresses(g: Builder, namespace: string, ingresses: seq<Ingress>)
    requires g.Valid()
    modifies g`nodes, g`nodeIds, g`written, g`edges, g`edgeSet
    ensures g.Valid() && old(g.nodeIds) <= g.nodeIds && SameServices(namespace, old(g.nodeIds), g.nodeIds)
    ensures forall before :: old(g.Good(before)) ==> g.Good(before)
    ensures g.edgeSet == old(g.edgeSet) + IngressEdges(namespace, ingresses, old(g.nodeIds), |ingresses|)
    ensures g.written == old(g.written) + IngressNodes(namespace, ingresses, |ingresses|)
  {
    hide Builder.Valid, Builder.Good, NoAllows, NoPolicies, Stored, IngressNode, NodeId, BackendsOf, RouteEdges;
    ghost var ids0, edges0, written0 := g.nodeIds, g.edgeSet, g.written;
    for i := 0 to |ingresses|
      invariant g.Valid() && ids0 <= g.nodeIds && SameServices(namespace, ids0, g.nodeIds)
      invariant forall before :: old(g.Good(before)) ==> g.Good(before)
      invariant g.edgeSet == edges0 + IngressEdges(namespace, ingresses, ids0, i)
      invariant g.written == written0 + IngressNodes(namespace, ingresses, i)
    {
      AddIngress(g, namespace, ingresses[i], ids0);
    }
  }

  method AddIngress(g: Builder, namespace: string, ing: Ingress, ghost ids0: set<string>)
    requires g.Valid() && SameServices(namespace, ids0, g.nodeIds)
    modifies g`nodes, g`nodeIds, g`written, g`edges, g`edgeSet
    ensures g.Valid() && old(g.nodeIds) <= g.nodeIds && SameServices(namespace, ids0, g.nodeIds)
    ensures forall before :: old(g.Good(before)) ==> g.Good(before)
    ensures g.edgeSet == old(g.edgeSet)
              + RouteEdges(IngressNode(namespace, ing).id, namespace, BackendsOf(ing), ids0, |BackendsOf(ing)|)
    ensures g.written == old(g.written) + {Stored(IngressNode(namespace, ing))}
  {
    hide Builder.Valid, Builder.Good, NoAllows, NoPolicies, Stored, BackendsOf;
    var node := IngressNode(namespace, ing);
    NoNewService(namespace, g.nodeIds, node);
    hide NodeId;
    g.AddNode(node);
    hide IngressNode;
    var names := IngressBackends(ing);
    AddRoutes(g, node.id, namespace, names, ids0);
  }

  /** Links a node to the Services it routes to, where they are drawn. */
  method AddRoutes(g: Builder, id: string, namespace: string, names: seq<string>, ghost ids0: set<string>)
    requires g.Valid() && id in g.nodeIds && SameServices(namespace, ids0, g.nodeIds)
    modifies g`edges, g`edgeSet
    ensures g.Valid()
    ensures forall before :: old(g.Good(before)) ==> g.Good(before)
    ensures g.edgeSet == old(g.edgeSet) + RouteEdges(id, namespace, names, ids0, |names|)
  {
    hide Builder.Valid, Builder.Good, NoAllows, NoPolicies, NodeId;
    ghost var edges0 := g.edgeSet;
    for k := 0 to |names|
      invariant g.Valid() && forall before :: old(g.Good(before)) ==> g.Good(before)
      invariant g.edgeSet == edges0 + RouteEdges(id, namespace, names, ids0, k)
    {
      var target := NodeId("Service", namespace, names[k]);
      if g.HasNode(target) {
        g.AddEdge(id, target, "routes");
      }
    }
  }
}
