/** The object views of kube_object_children.go: what a pod, Service, Ingress, ConfigMap, Secret or
    claim contains or is used by. */
module ObjectChildren {
  import opened ConfigRefs
  import opened GraphBuilder
  import opened KubeObjects
  import opened NamespaceGraph
  import opened ObjectGraph
  import opened PodAttribution
  import opened PodSpecRefs
  import opened TopologyGraph
  import opened Wrappers

  /** What these views draw: nothing owns a pod or a Job, whose IDs start with other letters. */
  ghost predicate OwnsOnlyContainers(edges: set<Edge>) {
    forall e :: e in edges ==> e.kind != "owns" || (e.target != "" && e.target[0] == 'C')
  }

  // Pod and containers

  /** One container as containerDtos of kube_pod_service.go reports it. */
  datatype ContainerState = ContainerState(name: string, state: string, reason: string, ready: bool, init: bool)

  function StatusOfContainer(c: ContainerState): Status {
    if c.state == "running" then (if c.ready || c.init then Healthy else Warning)
    else if c.state == "terminated" then (if c.reason == "Completed" then Idle else Error)
    else if c.reason == "" || c.reason == "ContainerCreating" || c.reason == "PodInitializing" then Warning
    else Error
  }

  function ContainerNode(namespace: string, pod: Pod, c: ContainerState): (n: Node)
    ensures n.id == NodeId("Container", namespace, pod.name + "/" + c.name) && n.group == ""
  {
    Plain("Container", namespace, pod.name + "/" + c.name, StatusOfContainer(c), true, 1).(name := c.name)
  }

  function PodRoot(pod: Pod): (n: Node)
    ensures n.id == PodId(pod) && n.group == ""
  {
    PodNode(pod, "").(drillable := false, weight := 2)
  }

  ghost function ContainerEdges(
    namespace: string, pod: Pod, containers: seq<ContainerState>, n: nat): (edges: set<Edge>)
    requires n <= |containers|
    ensures OwnsOnlyContainers(edges)
  {
    if n == 0 then {}
    else ContainerEdges(namespace, pod, containers, n - 1) + {Edge(PodId(pod),
        ContainerNode(namespace, pod, containers[n - 1]).id, "owns")}
  }

  ghost function ContainerNodes(namespace: string, pod: Pod, containers: seq<ContainerState>, n: nat): set<Node>
    requires n <= |containers|
  {
    if n == 0 then {}
    else ContainerNodes(namespace, pod, containers, n - 1) + {Stored(ContainerNode(namespace, pod, containers[n - 1]))}
  }

  method AddPodContainers(g: Builder, namespace: string, pod: Pod, containers: seq<ContainerState>)
    requires g.Valid()
    modifies g`nodes, g`nodeIds, g`written, g`edges, g`edgeSet
    ensures g.Valid()
    ensures forall before :: old(g.Good(before)) ==> g.Good(before)
    ensures g.edgeSet == old(g.edgeSet) + ContainerEdges(namespace, pod, containers, |containers|)
    ensures g.written == old(g.written) + {Stored(PodRoot(pod))}
              + ContainerNodes(namespace, pod, containers, |containers|)
  {
    hide Builder.Valid, Builder.Good, OwnsOnlyContainers, Stored, NodeId, PodRoot, ContainerNode, PodId;
    ghost var edges0, written0 := g.edgeSet, g.written;
    var root := PodRoot(pod);
    g.AddNode(root);
    for i := 0 to |containers|
      invariant g.Valid() && root.id in g.nodeIds && forall before :: old(g.Good(before)) ==> g.Good(before)
      invariant g.edgeSet == edges0 + ContainerEdges(namespace, pod, containers, i)
      invariant g.written == written0 + {Stored(root)} + ContainerNodes(namespace, pod, containers, i)
    {
      var node := ContainerNode(namespace, pod, containers[i]);
      g.AddNode(node);
      g.AddEdge(root.id, node.id, "owns");
    }
  }

  // Service and the pods behind it

  function ServiceRoot(svc: Service): (n: Node)
    ensures n.id == NodeId("Service", svc.namespace, svc.name) && n.group == ""
  {
    ServiceNode(svc).(drillable := false, weight := 2)
  }

  /** By its labels or, for a Service without a selector, by being among the endpoints. */
  predicate IsBackend(svc: Service, endpoints: set<string>, pod: Pod) {
    if svc.selector == map[] then pod.name in endpoints else Selects(svc.selector, pod.labels)
  }

  ghost function BackendEdges(svc: Service, endpoints: set<string>, pods: seq<Pod>, n: nat): (edges: set<Edge>)
    requires n <= |pods|
    ensures OwnsOnlyContainers(edges)
  {
    if n == 0 then {}
    else if !IsBackend(svc, endpoints, pods[n - 1]) then BackendEdges(svc, endpoints, pods, n - 1)
    else BackendEdges(svc, endpoints, pods, n - 1) + {Edge(ServiceRoot(svc).id, PodId(pods[n - 1]), "selects")}
  }

  ghost function BackendNodes(svc: Service, endpoints: set<string>, pods: seq<Pod>, n: nat): set<Node>
    requires n <= |pods|
  {
    if n == 0 then {}
    else if !IsBackend(svc, endpoints, pods[n - 1]) then BackendNodes(svc, endpoints, pods, n - 1)
    else BackendNodes(svc, endpoints, pods, n - 1) + {Stored(PodNode(pods[n - 1], NodeGroupId(pods[n - 1])))}
  }

  ghost function BackendGroups(svc: Service, endpoints: set<string>, pods: seq<Pod>, n: nat): set<string>
    requires n <= |pods|
  {
    if n == 0 then {}
    else if !IsBackend(svc, endpoints, pods[n - 1]) then BackendGroups(svc, endpoints, pods, n - 1)
    else BackendGroups(svc, endpoints, pods, n - 1) + {NodeGroupId(pods[n - 1])}
  }

  method AddServiceBackends(g: Builder, svc: Service, pods: seq<Pod>, endpoints: set<string>)
    requires g.Valid()
    modifies g`nodes, g`nodeIds, g`written, g`edges, g`edgeSet, g`groups, g`groupIds
    ensures g.Valid()
    ensures forall before :: old(g.Good(before)) ==> g.Good(before)
    ensures g.edgeSet == old(g.edgeSet) + BackendEdges(svc, endpoints, pods, |pods|)
    ensures g.written == old(g.written) + {Stored(ServiceRoot(svc))} + BackendNodes(svc, endpoints, pods, |pods|)
    ensures g.groupIds == old(g.groupIds) + BackendGroups(svc, endpoints, pods, |pods|)
  {
    hide Builder.Valid, Builder.Good, OwnsOnlyContainers, Stored, NodeId, ServiceRoot, IsBackend, PodNode, NodeGroupId;
    hide PodId;
    ghost var edges0, written0, groups0 := g.edgeSet, g.written, g.groupIds;
    var root := ServiceRoot(svc);
    g.AddNode(root);
    for i := 0 to |pods|
      invariant g.Valid() && root.id in g.nodeIds && forall before :: old(g.Good(before)) ==> g.Good(before)
      invariant g.edgeSet == edges0 + BackendEdges(svc, endpoints, pods, i)
      invariant g.written == written0 + {Stored(root)} + BackendNodes(svc, endpoints, pods, i)
      invariant g.groupIds == groups0 + BackendGroups(svc, endpoints, pods, i)
    {
      if IsBackend(svc, endpoints, pods[i]) {
        var id := AddScheduledPod(g, pods[i]);
        g.AddEdge(root.id, id, "selects");
      }
    }
  }

  // Ingress and the Services it routes to

  function IngressRoot(namespace: string, name: string): (n: Node)
    ensures n.id == NodeId("Ingress", namespace, name) && n.group == ""
  {
    Plain("Ingress", namespace, name, Healthy, false, 2)
  }

  /** A backend as it is drawn: a Service that cannot be fetched is drawn as missing. */
  function BackendNode(namespace: string, services: map<string, Service>, name: string): (n: Node)
    ensures n.group == ""
  {
    if name in services then ServiceNode(services[name]) else Plain("Service", namespace, name, Warning, false, 1)
  }

  ghost function TargetEdges(
    namespace: string, id: string, services: map<string, Service>, names: seq<string>, n: nat): (edges: set<Edge>)
    requires n <= |names|
    ensures OwnsOnlyContainers(edges)
  {
    if n == 0 then {}
    else TargetEdges(namespace, id, services, names, n - 1)
         + {Edge(id, BackendNode(namespace, services, names[n - 1]).id, "routes")}
  }

  ghost function TargetNodes(namespace: string, services: map<string, Service>, names: seq<string>, n: nat): set<Node>
    requires n <= |names|
  {
    if n == 0 then {}
    else TargetNodes(namespace, services, names, n - 1) + {Stored(BackendNode(namespace, services, names[n - 1]))}
  }

  method AddIngressBackends(g: Builder, namespace: string, name: string, ing: Ingress, services: map<string, Service>)
    requires g.Valid()
    modifies g`nodes, g`nodeIds, g`written, g`edges, g`edgeSet
    ensures g.Valid()
    ensures forall before :: old(g.Good(before)) ==> g.Good(before)
    ensures g.edgeSet == old(g.edgeSet)
              + TargetEdges(namespace, IngressRoot(namespace, name).id, services, BackendsOf(ing), |BackendsOf(ing)|)
    ensures g.written == old(g.written) + {Stored(IngressRoot(namespace, name))}
              + TargetNodes(namespace, services, BackendsOf(ing), |BackendsOf(ing)|)
  {
    hide Builder.Valid, Builder.Good, OwnsOnlyContainers, Stored, NodeId, IngressRoot, BackendNode, BackendsOf;
    ghost var edges0, written0 := g.edgeSet, g.written;
    var root := IngressRoot(namespace, name);
    g.AddNode(root);
    var names := IngressBackends(ing);
    for i := 0 to |names|
      invariant g.Valid() && root.id in g.nodeIds && forall before :: old(g.Good(before)) ==> g.Good(before)
      invariant g.edgeSet == edges0 + TargetEdges(namespace, root.id, services, names, i)
      invariant g.written == written0 + {Stored(root)} + TargetNodes(namespace, services, names, i)
    {
      var node := BackendNode(namespace, services, names[i]);
      g.AddNode(node);
      g.AddEdge(root.id, node.id, "routes");
    }
  }

  // ConfigMap, Secret or claim and the pods that use it

  function ConsumedRoot(namespace: string, kind: string, name: string, status: Status): (n: Node)
    ensures n.id == NodeId(kind, namespace, name) && n.group == ""
  {
    Plain(kind, namespace, name, status, false, 2)
  }

  predicate Consumes(pod: Pod, target: SpecRef) {
    target in RefsOf(pod.spec)
  }

  method ConsumesTarget(pod: Pod, target: SpecRef) returns (consumes: bool)
    ensures consumes == Consumes(pod, target)
  {
    hide RefsOf;
    var refs := CollectRefs(pod.spec);
    for i := 0 to |refs|
      invariant target !in refs[..i]
    {
      if refs[i] == target {
        return true;
      }
    }
    assert refs[..|refs|] == refs;
    return false;
  }

  ghost function ConsumerEdges(rootId: string, target: SpecRef, pods: seq<Pod>, n: nat): (edges: set<Edge>)
    requires n <= |pods|
    ensures OwnsOnlyContainers(edges)
  {
    if n == 0 then {}
    else if !Consumes(pods[n - 1], target) then ConsumerEdges(rootId, target, pods, n - 1)
    else ConsumerEdges(rootId, target, pods, n - 1) + {Edge(PodId(pods[n - 1]), rootId, "uses")}
  }

  ghost function ConsumerNodes(target: SpecRef, pods: seq<Pod>, n: nat): set<Node>
    requires n <= |pods|
  {
    if n == 0 then {}
    else if !Consumes(pods[n - 1], target) then ConsumerNodes(target, pods, n - 1)
    else ConsumerNodes(target, pods, n - 1) + {Stored(PodNode(pods[n - 1], NodeGroupId(pods[n - 1])))}
  }

  ghost function ConsumerGroups(target: SpecRef, pods: seq<Pod>, n: nat): set<string>
    requires n <= |pods|
  {
    if n == 0 then {}
    else if !Consumes(pods[n - 1], target) then ConsumerGroups(target, pods, n - 1)
    else ConsumerGroups(target, pods, n - 1) + {NodeGroupId(pods[n - 1])}
  }

  method AddConsumingPods(g: Builder, rootId: string, target: SpecRef, pods: seq<Pod>)
    requires g.Valid() && rootId in g.nodeIds
    modifies g`nodes, g`nodeIds, g`written, g`edges, g`edgeSet, g`groups, g`groupIds
    ensures g.Valid() && rootId in g.nodeIds
    ensures forall before :: old(g.Good(before)) ==> g.Good(before)
    ensures g.edgeSet == old(g.edgeSet) + ConsumerEdges(rootId, target, pods, |pods|)
    ensures g.written == old(g.written) + ConsumerNodes(target, pods, |pods|)
    ensures g.groupIds == old(g.groupIds) + ConsumerGroups(target, pods, |pods|)
  {
    hide Builder.Valid, Builder.Good, OwnsOnlyContainers, Stored, NodeId, Consumes, PodNode, NodeGroupId, PodId;
    ghost var edges0, written0, groups0 := g.edgeSet, g.written, g.groupIds;
    for i := 0 to |pods|
      invariant g.Valid() && rootId in g.nodeIds && forall before :: old(g.Good(before)) ==> g.Good(before)
      invariant g.edgeSet == edges0 + ConsumerEdges(rootId, target, pods, i)
      invariant g.written == written0 + ConsumerNodes(target, pods, i)
      invariant g.groupIds == groups0 + ConsumerGroups(target, pods, i)
    {
      var consumes := ConsumesTarget(pods[i], target);
      if consumes {
        var id := AddScheduledPod(g, pods[i]);
        g.AddEdge(id, rootId, "uses");
      }
    }
  }

  // The volume behind a claim

  function VolumeOf(claim: Claim, volumes: Volumes): Option<PersistentVolume> {
    if claim.volume != "" && claim.volume in volumes then Some(volumes[claim.volume]) else None
  }

  ghost function ClaimVolumeEdges(claimId: string, claim: Option<Claim>, volumes: Volumes): (edges: set<Edge>)
    ensures OwnsOnlyContainers(edges)
  {
    if claim.None? then {}
    else if VolumeOf(claim.value, volumes).Some? then BoundEdges(claimId, VolumeOf(claim.value, volumes).value)
    else ClassEdges(claimId, ClassOf(claim.value))
  }

  ghost function ClaimVolumeNodes(claim: Option<Claim>, volumes: Volumes): set<Node> {
    if claim.None? then {}
    else if VolumeOf(claim.value, volumes).Some? then BoundNodes(VolumeOf(claim.value, volumes).value)
    else ClassNodes(ClassOf(claim.value))
  }

  method AddClaimVolume(g: Builder, claimId: string, claim: Option<Claim>, volumes: Volumes)
    requires g.Valid() && claimId in g.nodeIds
    modifies g`nodes, g`nodeIds, g`written, g`edges, g`edgeSet
    ensures g.Valid()
    ensures forall before :: old(g.Good(before)) ==> g.Good(before)
    ensures g.edgeSet == old(g.edgeSet) + ClaimVolumeEdges(claimId, claim, volumes)
    ensures g.written == old(g.written) + ClaimVolumeNodes(claim, volumes)
  {
    hide Builder.Valid, Builder.Good, OwnsOnlyContainers, BoundEdges, BoundNodes, ClassEdges, ClassNodes, ClassOf;
    hide VolumeOf;
    if claim.None? {
      return;
    }
    var volume := VolumeOf(claim.value, volumes);
    if volume.Some? {
      AddBoundVolume(g, claimId, volume.value);
      return;
    }
    AddClass(g, claimId, ClassOf(claim.value));
  }

  /** What a claim, ConfigMap or Secret is used by and, for a claim, what is behind it. */
  ghost function UseEdges(namespace: string, kind: string, name: string, pods: seq<Pod>, claim: Option<Claim>,
      volumes: Volumes): (edges: set<Edge>)
    ensures OwnsOnlyContainers(edges)
  {
    var id := NodeId(kind, namespace, name);
    ConsumerEdges(id, SpecRef(kind, name), pods, |pods|)
    + (if kind == "PersistentVolumeClaim" then ClaimVolumeEdges(id, claim, volumes) else {})
  }

  ghost function UseNodes(
    kind: string, name: string, pods: seq<Pod>, claim: Option<Claim>, volumes: Volumes): set<Node> {
    ConsumerNodes(SpecRef(kind, name), pods, |pods|)
    + (if kind == "PersistentVolumeClaim" then ClaimVolumeNodes(claim, volumes) else {})
  }

  method AddConsumers(
    g: Builder, namespace: string, kind: string, name: string, status: Status, pods: seq<Pod>, claim: Option<Claim>,
    volumes: Volumes)
    requires g.Valid()
    modifies g`nodes, g`nodeIds, g`written, g`edges, g`edgeSet, g`groups, g`groupIds
    ensures g.Valid()
    ensures forall before :: old(g.Good(before)) ==> g.Good(before)
    ensures g.edgeSet == old(g.edgeSet) + UseEdges(namespace, kind, name, pods, claim, volumes)
    ensures g.written == old(g.written) + {Stored(ConsumedRoot(namespace, kind, name, status))}
              + UseNodes(kind, name, pods, claim, volumes)
    ensures g.groupIds == old(g.groupIds) + ConsumerGroups(SpecRef(kind, name), pods, |pods|)
  {
    hide Builder.Valid, Builder.Good, OwnsOnlyContainers, Stored, NodeId, ConsumedRoot, ConsumerEdges, ConsumerNodes;
    hide ConsumerGroups, ClaimVolumeEdges, ClaimVolumeNodes;
    ghost var edges0 := g.edgeSet;
    var root := ConsumedRoot(namespace, kind, name, status);
    g.AddNode(root);
    AddConsumingPods(g, root.id, SpecRef(kind, name), pods);
    if kind == "PersistentVolumeClaim" {
      AddClaimVolume(g, root.id, claim, volumes);
    }
  }

  // What it means

  /** A pod is drawn as a user of an object exactly if its spec names the object somewhere. */
  lemma {:induction false} ConsumersAreExact(rootId: string, target: SpecRef, pods: seq<Pod>, n: nat, id: string)
    requires n <= |pods|
    ensures Edge(id, rootId, "uses") in ConsumerEdges(rootId, target, pods, n)
            <==> exists i :: 0 <= i < n && PodId(pods[i]) == id && target.name != "" && Refers(pods[i].spec, target)
  {
    hide Refers, RefsOf, PodId;
    if n > 0 {
      ConsumersAreExact(rootId, target, pods, n - 1, id);
      RefsAreDistinctAndComplete(pods[n - 1].spec);
    }
  }

  lemma {:induction false} BackendsAreExact(svc: Service, endpoints: set<string>, pods: seq<Pod>, n: nat, id: string)
    requires n <= |pods|
    ensures Edge(ServiceRoot(svc).id, id, "selects") in BackendEdges(svc, endpoints, pods, n)
            <==> exists i :: 0 <= i < n && PodId(pods[i]) == id && IsBackend(svc, endpoints, pods[i])
  {
    hide IsBackend, PodId, ServiceRoot;
    if n > 0 {
      BackendsAreExact(svc, endpoints, pods, n - 1, id);
    }
  }

  /** Opening a claim shows the same volume and StorageClass behind it as the overview, unless some
      volume has an empty name. */
  lemma ClaimViewAgreesWithOverview(namespace: string, name: string, claims: Claims, volumes: Volumes)
    requires name in claims && (claims[name].volume == "" ==> "" !in volumes)
    ensures ClaimVolumeEdges(NodeId("PersistentVolumeClaim", namespace, name), Some(claims[name]), volumes)
            == BehindEdges(namespace, name, claims, volumes)
  {
    hide NodeId, BoundEdges, ClassEdges;
  }
}
