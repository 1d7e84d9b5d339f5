/** The Object method of kube_object_graph.go: one object and what it logically contains. */
module ObjectView {
  import opened ConfigRefs
  import opened GraphBuilder
  import opened KubeObjects
  import opened NamespaceGraph
  import opened ObjectChildren
  import opened ObjectGraph
  import opened PodSpecRefs
  import opened Sets
  import opened TopologyGraph
  import opened Wrappers

  datatype PodDetail = PodDetail(pod: Pod, containers: seq<ContainerState>)

  /** What Get and List calls yield for one namespace; a Get that fails finds nothing. */
  datatype ObjectSource = ObjectSource(
    scope: Scope, pods: map<string, PodDetail>, services: map<string, Service>, slices: Listing<EndpointSlice>,
    ingresses: map<string, Ingress>, claims: Claims, volumes: Volumes)

  predicate Drawable(src: ObjectSource, key: ObjectKey) {
    match ViewFor(key.group, key.kind)
    case PodView => key.name in src.pods
    case ServiceView => key.name in src.services && src.scope.inv.pods.Items?
    case IngressView => key.name in src.ingresses
    case ConsumersView => key in src.scope.objects && src.scope.inv.pods.Items?
    case _ => ViewReadable(src.scope, key)
  }

  /** The pods behind a Service without a selector. */
  ghost function EndpointsOf(src: ObjectSource, svc: Service, name: string): set<string> {
    if svc.selector != map[] || !src.slices.Items? then {}
    else Elements(PodsBehind(src.slices.items, name, |src.slices.items|))
  }

  function ClaimNamed(src: ObjectSource, name: string): Option<Claim> {
    if name in src.claims then Some(src.claims[name]) else None
  }

  ghost function ObjectEdges(src: ObjectSource, key: ObjectKey): set<Edge>
    requires Drawable(src, key)
  {
    var namespace := src.scope.inv.namespace;
    match ViewFor(key.group, key.kind)
    case PodView =>
      var detail := src.pods[key.name];
      ContainerEdges(namespace, detail.pod, detail.containers, |detail.containers|)
    case ServiceView =>
      var svc, pods := src.services[key.name], src.scope.inv.pods.items;
      BackendEdges(svc, EndpointsOf(src, svc, key.name), pods, |pods|)
    case IngressView =>
      var names := BackendsOf(src.ingresses[key.name]);
      TargetEdges(namespace, IngressRoot(namespace, key.name).id, src.services, names, |names|)
    case ConsumersView => UseEdges(namespace, key.kind, key.name, src.scope.inv.pods.items,
        ClaimNamed(src, key.name), src.volumes)
    case _ => OwnerEdges(src.scope, key)
  }

  ghost function ObjectNodes(src: ObjectSource, key: ObjectKey): set<Node>
    requires Drawable(src, key)
  {
    var namespace := src.scope.inv.namespace;
    match ViewFor(key.group, key.kind)
    case PodView =>
      var detail := src.pods[key.name];
      {Stored(PodRoot(detail.pod))} + ContainerNodes(namespace, detail.pod, detail.containers, |detail.containers|)
    case ServiceView =>
      var svc, pods := src.services[key.name], src.scope.inv.pods.items;
      {Stored(ServiceRoot(svc))} + BackendNodes(svc, EndpointsOf(src, svc, key.name), pods, |pods|)
    case IngressView =>
      var names := BackendsOf(src.ingresses[key.name]);
      {Stored(IngressRoot(namespace, key.name))} + TargetNodes(namespace, src.services, names, |names|)
    case ConsumersView =>
      {Stored(ConsumedRoot(namespace, key.kind, key.name, src.scope.objects[key].status))}
      + UseNodes(key.kind, key.name, src.scope.inv.pods.items, ClaimNamed(src, key.name), src.volumes)
    case _ => OwnerNodes(src.scope, key)
  }

  /** The IDs of the groups: the nodes the drawn pods run on. */
  ghost function ObjectGroups(src: ObjectSource, key: ObjectKey): set<string>
    requires Drawable(src, key)
  {
    match ViewFor(key.group, key.kind)
    case PodView => {}
    case ServiceView =>
      var svc, pods := src.services[key.name], src.scope.inv.pods.items;
      BackendGroups(svc, EndpointsOf(src, svc, key.name), pods, |pods|)
    case IngressView => {}
    case ConsumersView => ConsumerGroups(SpecRef(key.kind, key.name), src.scope.inv.pods.items,
        |src.scope.inv.pods.items|)
    case _ => OwnerGroups(src.scope, key)
  }

  method Endpoints(src: ObjectSource, svc: Service, name: string) returns (endpoints: set<string>)
    ensures endpoints == EndpointsOf(src, svc, name)
  {
    hide PodsBehind;
    endpoints := {};
    if svc.selector == map[] && src.slices.Items? {
      var pods := PodsBehind(src.slices.items, name, |src.slices.items|);
      for k := 0 to |pods|
        invariant endpoints == Elements(pods[..k])
      {
        ElementsMore(pods, k);
        endpoints := endpoints + {pods[k]};
      }
      ElementsOfNone(pods);
    }
  }

  /** Draws an object into a new graph; false when something it needs could not be read. */
  method AddObject(g: Builder, src: ObjectSource, key: ObjectKey) returns (ok: bool)
    requires g.Valid() && g.edgeSet == {} && g.written == {} && g.groupIds == {}
    modifies g`nodes, g`nodeIds, g`written, g`edges, g`edgeSet, g`groups, g`groupIds
    ensures g.Valid() && ok == Drawable(src, key)
    ensures forall before :: old(g.Good(before)) ==> g.Good(before)
    ensures ok ==> g.edgeSet == ObjectEdges(src, key) && g.written == ObjectNodes(src, key)
    ensures ok ==> g.groupIds == ObjectGroups(src, key)
  {
    hide Builder.Valid, Builder.Good, ViewFor, ViewReadable, OwnerEdges, OwnerNodes, OwnerGroups, OwnsOnlyContainers;
    hide ContainerEdges, ContainerNodes, BackendEdges, BackendNodes, BackendGroups, TargetEdges, TargetNodes;
    hide UseEdges, UseNodes, ConsumerGroups, BackendsOf, EndpointsOf, Stored, PodRoot, ServiceRoot, IngressRoot;
    hide ConsumedRoot;
    var inv := src.scope.inv;
    match ViewFor(key.group, key.kind) {
      case PodView =>
        if key.name !in src.pods {
          return false;
        }
        var detail := src.pods[key.name];
        AddPodContainers(g, inv.namespace, detail.pod, detail.containers);
        assert {} + {Stored(PodRoot(detail.pod))} == {Stored(PodRoot(detail.pod))};
      case ServiceView =>
        if key.name !in src.services || !inv.pods.Items? {
          return false;
        }
        var endpoints := Endpoints(src, src.services[key.name], key.name);
        AddServiceBackends(g, src.services[key.name], inv.pods.items, endpoints);
      case IngressView =>
        if key.name !in src.ingresses {
          return false;
        }
        AddIngressBackends(g, inv.namespace, key.name, src.ingresses[key.name], src.services);
      case ConsumersView =>
        if key !in src.scope.objects || !inv.pods.Items? {
          return false;
        }
        AddConsumers(g, inv.namespace, key.kind, key.name, src.scope.objects[key].status, inv.pods.items,
          ClaimNamed(src, key.name), src.volumes);
      case _ =>
        ok := AddOwnerTree(g, src.scope, key);
        return;
    }
    return true;
  }

  /** Whatever the object, the graph is closed and free of duplicates, and its nodes, edges and groups
      are those of the view of the object. */
  method Object(src: ObjectSource, key: ObjectKey) returns (view: Option<Graph>)
    ensures view.Some? <==> Drawable(src, key)
    ensures view.Some? ==> DuplicateFree(view.value) && Closed(view.value) && view.value.level == ObjectLevel
    ensures view.Some? ==> forall e :: e in view.value.edges <==> e in ObjectEdges(src, key)
    ensures view.Some? ==> NodeIds(view.value.nodes) == IdsIn(ObjectNodes(src, key))
    ensures view.Some? ==> forall n :: n in view.value.nodes ==> n in ObjectNodes(src, key)
    ensures view.Some? ==> GroupIds(view.value.groups) == ObjectGroups(src, key) && GroupsLabelled(view.value.groups)
  {
    hide Builder.Good, Drawable, ObjectEdges, ObjectNodes, ObjectGroups, DuplicateFree, Closed, NodesKept, EdgesKept;
    hide GroupsKept, GroupsLabelled, IdsIn;
    var g := new Builder(ObjectLevel);
    var ok := AddObject(g, src, key);
    if !ok {
      return None;
    }
    GoodNow(g, []);
    WrittenIds(g);
    NodesAreWritten(g);
    return Some(g.Result());
  }
}
