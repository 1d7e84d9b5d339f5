/** The step of kube_gateway_graph.go: Gateways, the routes attached to them, and the Services behind. */
module GatewayGraph {
  import opened GraphBuilder
  import opened KubeObjects
  import opened NamespaceGraph
  import opened Sets
  import opened TopologyGraph
  import opened Wrappers

  const ROUTE_KINDS := ["HTTPRoute", "GRPCRoute", "TLSRoute", "TCPRoute", "UDPRoute"]

  /** Nothing of such a kind can take the ID of a Service or of a NetworkPolicy. */
  ghost predicate OtherKind(kind: string) {
    kind != "" && kind[0] != 'S' && kind[0] != 'N'
  }

  lemma RouteKindsAreOther(i: nat)
    requires i < |ROUTE_KINDS|
    ensures OtherKind(ROUTE_KINDS[i])
  {
    if i == 0 {
      assert ROUTE_KINDS[i] == "HTTPRoute";
    } else if i == 1 {
      assert ROUTE_KINDS[i] == "GRPCRoute";
    } else if i == 2 {
      assert ROUTE_KINDS[i] == "TLSRoute";
    } else if i == 3 {
      assert ROUTE_KINDS[i] == "TCPRoute";
    } else {
      assert ROUTE_KINDS[i] == "UDPRoute";
    }
  }

  // Gateways

  function GatewayNode(namespace: string, gateway: Gateway): (n: Node)
    ensures n.id == NodeId("Gateway", namespace, gateway.name) && n.group == ""
  {
    Plain("Gateway", namespace, gateway.name, gateway.status, false, 1)
  }

  ghost function GatewayNodes(namespace: string, gateways: seq<Gateway>, n: nat): (nodes: set<Node>)
    requires n <= |gateways|
    ensures NoPolicies(nodes)
  {
    if n == 0 then {} else GatewayNodes(namespace, gateways, n - 1) + {Stored(GatewayNode(namespace, gateways[n - 1]))}
  }

  method AddGateways(g: Builder, namespace: string, gateways: seq<Gateway>)
    requires g.Valid()
    modifies g`nodes, g`nodeIds, g`written
    ensures g.Valid() && old(g.nodeIds) <= g.nodeIds && SameServices(namespace, old(g.nodeIds), g.nodeIds)
    ensures forall before :: old(g.Good(before)) ==> g.Good(before)
    ensures g.written == old(g.written) + GatewayNodes(namespace, gateways, |gateways|)
  {
    hide Builder.Valid, Builder.Good, NoPolicies, Stored, GatewayNode;
    ghost var ids0, written0 := g.nodeIds, g.written;
    for i := 0 to |gateways|
      invariant g.Valid() && ids0 <= g.nodeIds && SameServices(namespace, ids0, g.nodeIds)
      invariant forall before :: old(g.Good(before)) ==> g.Good(before)
      invariant g.written == written0 + GatewayNodes(namespace, gateways, i)
    {
      AddGateway(g, namespace, gateways[i], ids0);
    }
  }

  method AddGateway(g: Builder, namespace: string, gateway: Gateway, ghost ids0: set<string>)
    requires g.Valid() && SameServices(namespace, ids0, g.nodeIds)
    modifies g`nodes, g`nodeIds, g`written
    ensures g.Valid() && old(g.nodeIds) <= g.nodeIds && SameServices(namespace, ids0, g.nodeIds)
    ensures forall before :: old(g.Good(before)) ==> g.Good(before)
    ensures g.written == old(g.written) + {Stored(GatewayNode(namespace, gateway))}
  {
    hide Builder.Valid, Builder.Good, Stored;
    var node := GatewayNode(namespace, gateway);
    NoNewService(namespace, g.nodeIds, node);
    hide NodeId;
    g.AddNode(node);
  }

  lemma NoIds()
    ensures IdsIn({}) == {}
  {
  }

  lemma IdsInMore(nodes: set<Node>, n: Node)
    ensures IdsIn(nodes + {Stored(n)}) == IdsIn(nodes) + {n.id}
  {
    hide Stored;
    IdsInOne(Stored(n));
    IdsInBoth(nodes, {Stored(n)});
  }

  // Routes

  datatype KindRoute = KindRoute(kind: string, route: Route)

  function RouteNode(namespace: string, r: KindRoute): (n: Node)
    ensures n.id == NodeId(r.kind, namespace, r.route.name) && n.group == ""
  {
    Plain(r.kind, namespace, r.route.name, r.route.status, false, 1)
  }

  predicate IsGateway(ref: RouteRef) {
    ref.kind == "" || ref.kind == "Gateway"
  }

  function GatewayHome(namespace: string, ref: RouteRef): string {
    if ref.namespace == "" then namespace else ref.namespace
  }

  /** A Gateway a route refers to, which usually lives in another namespace. */
  function SharedGateway(namespace: string, ref: RouteRef): (n: Node)
    ensures n.id == NodeId("Gateway", GatewayHome(namespace, ref), ref.name) && n.group == ""
  {
    Plain("Gateway", GatewayHome(namespace, ref), ref.name, Idle, false, 1)
  }

  ghost function ParentEdges(namespace: string, id: string, parents: seq<RouteRef>, n: nat): (edges: set<Edge>)
    requires n <= |parents|
    ensures NoAllows(edges)
  {
    if n == 0 then {}
    else if !IsGateway(parents[n - 1]) then ParentEdges(namespace, id, parents, n - 1)
    else ParentEdges(namespace, id, parents, n - 1) + {Edge(SharedGateway(namespace, parents[n - 1]).id, id, "routes")}
  }

  /** Every Gateway a route may have to draw. */
  ghost function ParentNodes(namespace: string, parents: seq<RouteRef>, n: nat): (nodes: set<Node>)
    requires n <= |parents|
    ensures NoPolicies(nodes)
  {
    if n == 0 then {}
    else if !IsGateway(parents[n - 1]) then ParentNodes(namespace, parents, n - 1)
    else ParentNodes(namespace, parents, n - 1) + {Stored(SharedGateway(namespace, parents[n - 1]))}
  }

  /** The nodes after the Gateways of a route: one that is drawn already is left as it is. */
  ghost function WithParents(nodes: seq<Node>, namespace: string, parents: seq<RouteRef>, n: nat): seq<Node>
    requires n <= |parents|
  {
    if n == 0 then nodes
    else if !IsGateway(parents[n - 1]) then WithParents(nodes, namespace, parents, n - 1)
    else Added(WithParents(nodes, namespace, parents, n - 1), SharedGateway(namespace, parents[n - 1]))
  }

  lemma GatewayIsNoService(namespace: string, ids0: set<string>, ids: set<string>, ref: RouteRef)
    requires SameServices(namespace, ids0, ids)
    ensures SameServices(namespace, ids0, ids + {SharedGateway(namespace, ref).id})
  {
    hide GatewayHome;
    NoNewService(namespace, ids, SharedGateway(namespace, ref));
  }

  method AddParent(g: Builder, namespace: string, id: string, ref: RouteRef, ghost ids0: set<string>)
    requires g.Valid() && id in g.nodeIds && SameServices(namespace, ids0, g.nodeIds)
    modifies g`nodes, g`nodeIds, g`written, g`edges, g`edgeSet
    ensures g.Valid() && old(g.nodeIds) <= g.nodeIds && SameServices(namespace, ids0, g.nodeIds)
    ensures forall before :: old(g.Good(before)) ==> g.Good(before)
    ensures g.edgeSet == old(g.edgeSet) + {Edge(SharedGateway(namespace, ref).id, id, "routes")}
    ensures old(g.written) <= g.written <= old(g.written) + {Stored(SharedGateway(namespace, ref))}
    ensures g.nodeIds == old(g.nodeIds) + {SharedGateway(namespace, ref).id}
    ensures g.nodes == Added(old(g.nodes), SharedGateway(namespace, ref))
  {
    hide Builder.Valid, Builder.Good, Stored, Added, NodeId, SameServices, SharedGateway;
    var gateway := SharedGateway(namespace, ref);
    AddedNow(g, gateway);
    GatewayIsNoService(namespace, ids0, g.nodeIds, ref);
    if !g.HasNode(gateway.id) {
      g.AddNode(gateway);
    }
    assert g.nodeIds == g.nodeIds + {gateway.id};
    g.AddEdge(gateway.id, id, "routes");
  }

  method AddParents(g: Builder, namespace: string, id: string, parents: seq<RouteRef>, ghost ids0: set<string>)
    requires g.Valid() && id in g.nodeIds && SameServices(namespace, ids0, g.nodeIds)
    modifies g`nodes, g`nodeIds, g`written, g`edges, g`edgeSet
    ensures g.Valid() && old(g.nodeIds) <= g.nodeIds && SameServices(namespace, ids0, g.nodeIds)
    ensures forall before :: old(g.Good(before)) ==> g.Good(before)
    ensures g.edgeSet == old(g.edgeSet) + ParentEdges(namespace, id, parents, |parents|)
    ensures old(g.written) <= g.written <= old(g.written) + ParentNodes(namespace, parents, |parents|)
    ensures g.nodeIds == old(g.nodeIds) + IdsIn(ParentNodes(namespace, parents, |parents|))
    ensures g.nodes == WithParents(old(g.nodes), namespace, parents, |parents|)
  {
    NoIds();
    hide Builder.Valid, Builder.Good, NoAllows, NoPolicies, Stored, SharedGateway, IsGateway, SameServices, IdsIn;
    hide Added;
    ghost var nodes0, was, edges0, written0 := g.nodes, g.nodeIds, g.edgeSet, g.written;
    for i := 0 to |parents|
      invariant g.Valid() && was <= g.nodeIds && SameServices(namespace, ids0, g.nodeIds)
      invariant forall before :: old(g.Good(before)) ==> g.Good(before)
      invariant g.edgeSet == edges0 + ParentEdges(namespace, id, parents, i)
      invariant written0 <= g.written <= written0 + ParentNodes(namespace, parents, i)
      invariant g.nodeIds == was + IdsIn(ParentNodes(namespace, parents, i))
      invariant g.nodes == WithParents(nodes0, namespace, parents, i)
    {
      if IsGateway(parents[i]) {
        IdsInMore(ParentNodes(namespace, parents, i), SharedGateway(namespace, parents[i]));
        AddParent(g, namespace, id, parents[i], ids0);
      }
    }
  }

  predicate IsService(ref: RouteRef) {
    ref.kind == "" || ref.kind == "Service"
  }

  function BackendNames(backends: seq<RouteRef>, n: nat): seq<string>
    requires n <= |backends|
  {
    if n == 0 then []
    else if IsService(backends[n - 1]) then BackendNames(backends, n - 1) + [backends[n - 1].name]
    else BackendNames(backends, n - 1)
  }

  function RuleNames(rules: seq<seq<RouteRef>>, n: nat): seq<string>
    requires n <= |rules|
  {
    if n == 0 then [] else RuleNames(rules, n - 1) + BackendNames(rules[n - 1], |rules[n - 1]|)
  }

  method ServiceBackends(backends: seq<RouteRef>) returns (names: seq<string>)
    ensures names == BackendNames(backends, |backends|)
  {
    hide IsService;
    names := [];
    for i := 0 to |backends|
      invariant names == BackendNames(backends, i)
    {
      if IsService(backends[i]) {
        names := names + [backends[i].name];
      }
    }
  }

  method RouteBackends(rules: seq<seq<RouteRef>>) returns (names: seq<string>)
    ensures names == RuleNames(rules, |rules|)
  {
    hide BackendNames;
    names := [];
    for i := 0 to |rules|
      invariant names == RuleNames(rules, i)
    {
      var more := ServiceBackends(rules[i]);
      names := names + more;
    }
  }

  ghost function OneRouteEdges(namespace: string, r: KindRoute, ids: set<string>): (edges: set<Edge>)
    ensures NoAllows(edges)
  {
    var id, names := RouteNode(namespace, r).id, RuleNames(r.route.rules, |r.route.rules|);
    ParentEdges(namespace, id, r.route.parents, |r.route.parents|) + RouteEdges(id, namespace, names, ids, |names|)
  }

  ghost function OneRouteNodes(namespace: string, r: KindRoute): set<Node> {
    {Stored(RouteNode(namespace, r))} + ParentNodes(namespace, r.route.parents, |r.route.parents|)
  }

  lemma RouteIds(namespace: string, r: KindRoute)
    ensures IdsIn(OneRouteNodes(namespace, r)) == {RouteNode(namespace, r).id}
              + IdsIn(ParentNodes(namespace, r.route.parents, |r.route.parents|))
    ensures OneRouteNodes(namespace, r) == {Stored(RouteNode(namespace, r))}
              + ParentNodes(namespace, r.route.parents, |r.route.parents|)
  {
    hide Stored, RouteNode, ParentNodes;
    IdsInOne(Stored(RouteNode(namespace, r)));
    IdsInBoth({Stored(RouteNode(namespace, r))}, ParentNodes(namespace, r.route.parents, |r.route.parents|));
  }

  /** The nodes after a route. */
  ghost function WithRoute(nodes: seq<Node>, namespace: string, r: KindRoute): seq<Node> {
    WithParents(Added(nodes, RouteNode(namespace, r)), namespace, r.route.parents, |r.route.parents|)
  }

  /** addRoute; `ids0` are the nodes the step started from, among which the Services are. */
  method AddRoute(g: Builder, namespace: string, r: KindRoute, ghost ids0: set<string>)
    requires g.Valid() && SameServices(namespace, ids0, g.nodeIds) && OtherKind(r.kind)
    modifies g`nodes, g`nodeIds, g`written, g`edges, g`edgeSet
    ensures g.Valid() && old(g.nodeIds) <= g.nodeIds && SameServices(namespace, ids0, g.nodeIds)
    ensures forall before :: old(g.Good(before)) ==> g.Good(before)
    ensures g.edgeSet == old(g.edgeSet) + OneRouteEdges(namespace, r, ids0)
    ensures old(g.written) <= g.written <= old(g.written) + OneRouteNodes(namespace, r)
    ensures g.nodeIds == old(g.nodeIds) + IdsIn(OneRouteNodes(namespace, r))
    ensures g.nodes == WithRoute(old(g.nodes), namespace, r)
  {
    hide Builder.Valid, Builder.Good, NoAllows, NoPolicies, Stored, RuleNames, ParentEdges, ParentNodes, RouteEdges;
    hide OneRouteNodes, IdsIn, Added, WithParents, NodeId, RouteNode, SameServices, OtherKind;
    ghost var edges0, was := g.edgeSet, g.nodeIds;
    RouteIds(namespace, r);
    var id := AddRouteNode(g, namespace, r, ids0);
    AddParents(g, namespace, id, r.route.parents, ids0);
    UnionAssoc(was, {id}, IdsIn(ParentNodes(namespace, r.route.parents, |r.route.parents|)));
    var names := RouteBackends(r.route.rules);
    AddRoutes(g, id, namespace, names, ids0);
    UnionAssoc(edges0, ParentEdges(namespace, id, r.route.parents, |r.route.parents|),
               RouteEdges(id, namespace, names, ids0, |names|));
  }

  method AddRouteNode(g: Builder, namespace: string, r: KindRoute, ghost ids0: set<string>) returns (id: string)
    requires g.Valid() && SameServices(namespace, ids0, g.nodeIds) && OtherKind(r.kind)
    modifies g`nodes, g`nodeIds, g`written
    ensures g.Valid() && id == RouteNode(namespace, r).id && SameServices(namespace, ids0, g.nodeIds)
    ensures forall before :: old(g.Good(before)) ==> g.Good(before)
    ensures g.nodeIds == old(g.nodeIds) + {id} && g.written == old(g.written) + {Stored(RouteNode(namespace, r))}
    ensures g.nodes == Added(old(g.nodes), RouteNode(namespace, r))
  {
    hide Builder.Valid, Builder.Good, Stored, Added;
    var node := RouteNode(namespace, r);
    AddedNow(g, node);
    NoNewService(namespace, g.nodeIds, node);
    hide NodeId, RouteNode;
    g.AddNode(node);
    return node.id;
  }

  // All kinds of routes

  ghost function AllRouteEdges(namespace: string, routes: seq<KindRoute>, ids: set<string>, n: nat): (edges: set<Edge>)
    requires n <= |routes|
    ensures NoAllows(edges)
  {
    if n == 0 then {} else AllRouteEdges(namespace, routes, ids, n - 1) + OneRouteEdges(namespace, routes[n - 1], ids)
  }

  ghost function AllRouteNodes(namespace: string, routes: seq<KindRoute>, n: nat): set<Node>
    requires n <= |routes|
  {
    if n == 0 then {} else AllRouteNodes(namespace, routes, n - 1) + OneRouteNodes(namespace, routes[n - 1])
  }

  ghost function WithRoutes(nodes: seq<Node>, namespace: string, routes: seq<KindRoute>, n: nat): seq<Node>
    requires n <= |routes|
  {
    if n == 0 then nodes else WithRoute(WithRoutes(nodes, namespace, routes, n - 1), namespace, routes[n - 1])
  }

  ghost predicate OtherKinds(routes: seq<KindRoute>) {
    forall i :: 0 <= i < |routes| ==> OtherKind(routes[i].kind)
  }

  method AddAllRoutes(g: Builder, namespace: string, routes: seq<KindRoute>)
    requires g.Valid() && OtherKinds(routes)
    modifies g`nodes, g`nodeIds, g`written, g`edges, g`edgeSet
    ensures g.Valid() && old(g.nodeIds) <= g.nodeIds
    ensures forall before :: old(g.Good(before)) ==> g.Good(before)
    ensures g.edgeSet == old(g.edgeSet) + AllRouteEdges(namespace, routes, old(g.nodeIds), |routes|)
    ensures old(g.written) <= g.written <= old(g.written) + AllRouteNodes(namespace, routes, |routes|)
    ensures g.nodeIds == old(g.nodeIds) + IdsIn(AllRouteNodes(namespace, routes, |routes|))
    ensures g.nodes == WithRoutes(old(g.nodes), namespace, routes, |routes|)
  {
    hide Builder.Valid, Builder.Good, NoAllows, OneRouteEdges, OneRouteNodes, OtherKind, WithRoute;
    ghost var nodes0, ids0, edges0, written0 := g.nodes, g.nodeIds, g.edgeSet, g.written;
    assert SameServices(namespace, ids0, g.nodeIds);
    NoIds();
    hide SameServices, IdsIn;
    for i := 0 to |routes|
      invariant g.Valid() && ids0 <= g.nodeIds && SameServices(namespace, ids0, g.nodeIds)
      invariant forall before :: old(g.Good(before)) ==> g.Good(before)
      invariant g.edgeSet == edges0 + AllRouteEdges(namespace, routes, ids0, i)
      invariant written0 <= g.written <= written0 + AllRouteNodes(namespace, routes, i)
      invariant g.nodeIds == ids0 + IdsIn(AllRouteNodes(namespace, routes, i))
      invariant g.nodes == WithRoutes(nodes0, namespace, routes, i)
    {
      IdsInBoth(AllRouteNodes(namespace, routes, i), OneRouteNodes(namespace, routes[i]));
      UnionAssoc(ids0, IdsIn(AllRouteNodes(namespace, routes, i)), IdsIn(OneRouteNodes(namespace, routes[i])));
      UnionAssoc(edges0, AllRouteEdges(namespace, routes, ids0, i), OneRouteEdges(namespace, routes[i], ids0));
      AddRoute(g, namespace, routes[i], ids0);
    }
  }

  /** The step leaves the nodes it finds as they are, so a Gateway listed in the namespace keeps its status;
      what it adds are routes and Gateways whose IDs were free. */
  ghost predicate AddsOnly(before: seq<Node>, after: seq<Node>, more: set<Node>) {
    && before <= after
    && forall n :: n in after ==> n in before || (n in more && n.id !in NodeIds(before))
  }

  lemma AddedAddsOnly(before: seq<Node>, nodes: seq<Node>, node: Node, more: set<Node>)
    requires AddsOnly(before, nodes, more)
    ensures AddsOnly(before, Added(nodes, node), more + {Stored(node)})
  {
    hide Stored;
    assert NodeIds(before) <= NodeIds(nodes);
  }

  lemma {:induction false} ParentsAddOnly(
    before: seq<Node>, nodes: seq<Node>, namespace: string, parents: seq<RouteRef>, n: nat, more: set<Node>)
    requires n <= |parents| && AddsOnly(before, nodes, more)
    ensures AddsOnly(before, WithParents(nodes, namespace, parents, n), more + ParentNodes(namespace, parents, n))
  {
    hide Added, AddsOnly, IsGateway, SharedGateway, Stored, NoPolicies;
    UnionEmpty(more);
    if n > 0 {
      ParentsAddOnly(before, nodes, namespace, parents, n - 1, more);
      if IsGateway(parents[n - 1]) {
        var all := more + ParentNodes(namespace, parents, n - 1);
        AddedAddsOnly(before, WithParents(nodes, namespace, parents, n - 1),
                      SharedGateway(namespace, parents[n - 1]), all);
        UnionAssoc(more, ParentNodes(namespace, parents, n - 1), {Stored(SharedGateway(namespace, parents[n - 1]))});
      }
    }
  }

  lemma {:induction false} RoutesAddOnly(nodes: seq<Node>, namespace: string, routes: seq<KindRoute>, n: nat)
    requires n <= |routes|
    ensures AddsOnly(nodes, WithRoutes(nodes, namespace, routes, n), AllRouteNodes(namespace, routes, n))
  {
    hide Added, RouteNode, Stored, NoPolicies, WithParents, ParentNodes;
    if n > 0 {
      hide AddsOnly;
      RoutesAddOnly(nodes, namespace, routes, n - 1);
      var r, before := routes[n - 1], WithRoutes(nodes, namespace, routes, n - 1);
      var all := AllRouteNodes(namespace, routes, n - 1);
      AddedAddsOnly(nodes, before, RouteNode(namespace, r), all);
      var parents := r.route.parents;
      ParentsAddOnly(nodes, Added(before, RouteNode(namespace, r)), namespace, parents, |parents|,
                     all + {Stored(RouteNode(namespace, r))});
      UnionAssoc(all, {Stored(RouteNode(namespace, r))}, ParentNodes(namespace, parents, |parents|));
    }
  }

  /** What the lists of the route kinds yield: None for a kind the cluster does not serve. */
  type Families = f: seq<Option<Listing<Route>>> | |f| == |ROUTE_KINDS| witness [None, None, None, None, None]

  function OfKind(kind: string, routes: seq<Route>, n: nat): seq<KindRoute>
    requires n <= |routes|
  {
    if n == 0 then [] else OfKind(kind, routes, n - 1) + [KindRoute(kind, routes[n - 1])]
  }

  /** How the search for routes stands: going on, ended by a kind the user may not list, or failed. */
  datatype Search = Going(routes: seq<KindRoute>) | Ended(routes: seq<KindRoute>) | Broken

  function SearchUpTo(families: Families, n: nat): Search
    requires n <= |ROUTE_KINDS|
  {
    if n == 0 then Going([])
    else
      var before := SearchUpTo(families, n - 1);
      if !before.Going? || families[n - 1].None? then before
      else
        match families[n - 1].value
        case Hidden => Ended(before.routes)
        case Failed => Broken
        case Items(items) => Going(before.routes + OfKind(ROUTE_KINDS[n - 1], items, |items|))
  }

  lemma {:induction false} SearchStaysEnded(families: Families, n: nat, m: nat)
    requires n <= m <= |ROUTE_KINDS| && !SearchUpTo(families, n).Going?
    ensures SearchUpTo(families, m) == SearchUpTo(families, n)
  {
    if n < m {
      SearchStaysEnded(families, n, m - 1);
    }
  }

  /** The routes to draw; None if a list the user may read failed. */
  function RoutesFrom(families: Families): Option<seq<KindRoute>> {
    var search := SearchUpTo(families, |ROUTE_KINDS|);
    if search.Broken? then None else Some(search.routes)
  }

  method ReadRoutes(families: Families) returns (routes: Option<seq<KindRoute>>)
    ensures routes == RoutesFrom(families)
    ensures routes.Some? ==> OtherKinds(routes.value)
  {
    hide OtherKind;
    var found: seq<KindRoute> := [];
    for i := 0 to |ROUTE_KINDS|
      invariant OtherKinds(found) && SearchUpTo(families, i) == Going(found)
    {
      if families[i].None? {
        continue;
      }
      match families[i].value {
        case Hidden =>
          SearchStaysEnded(families, i + 1, |ROUTE_KINDS|);
          return Some(found);
        case Failed =>
          SearchStaysEnded(families, i + 1, |ROUTE_KINDS|);
          return None;
        case Items(items) =>
          var more := RoutesOfKind(i, items);
          found := found + more;
      }
    }
    return Some(found);
  }

  method RoutesOfKind(i: nat, items: seq<Route>) returns (routes: seq<KindRoute>)
    requires i < |ROUTE_KINDS|
    ensures routes == OfKind(ROUTE_KINDS[i], items, |items|) && OtherKinds(routes)
  {
    RouteKindsAreOther(i);
    hide OtherKind;
    routes := [];
    for k := 0 to |items|
      invariant routes == OfKind(ROUTE_KINDS[i], items, k) && OtherKinds(routes)
    {
      routes := routes + [KindRoute(ROUTE_KINDS[i], items[k])];
    }
  }

  lemma {:induction false} RouteNodesAreNotPolicies(namespace: string, routes: seq<KindRoute>, n: nat)
    requires n <= |routes| && OtherKinds(routes)
    ensures NoPolicies(AllRouteNodes(namespace, routes, n))
  {
    hide ParentNodes, Stored;
    if n > 0 {
      RouteNodesAreNotPolicies(namespace, routes, n - 1);
      assert OtherKind(routes[n - 1].kind) && RouteNode(namespace, routes[n - 1]).id[0] == routes[n - 1].kind[0];
    }
  }
}
