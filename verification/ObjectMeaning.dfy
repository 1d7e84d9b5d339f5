/** What opening an object finds, needs and shows, by the group and kind of the object: told object by object
    and field by field, without the functions that compute the views. */
module ObjectMeaning {
  import opened Agreement
  import opened ConfigRefs
  import opened GraphBuilder
  import opened KubeObjects
  import opened KubeStatus
  import opened NamespaceEdges
  import opened NamespaceGraph
  import opened NamespaceNodes
  import opened ObjectChildren
  import opened ObjectGraph
  import opened ObjectView
  import opened PodAttribution
  import opened PodSpecRefs
  import opened TopologyGraph
  import opened Wrappers

  // Get calls

  /** The first item of that name is found, or there is none. */
  ghost predicate FindsFirst(items: seq<Workload>, name: string, found: Option<Found>) {
    || (exists i: nat :: i < |items| && items[i].name == name && (forall k :: 0 <= k < i ==> items[k].name != name)
                         && found == Some(Found(items[i].uid, items[i].status)))
    || (found == None && forall i :: 0 <= i < |items| ==> items[i].name != name)
  }

  lemma {:induction false} FindWorkloadIs(items: seq<Workload>, name: string)
    ensures FindsFirst(items, name, FindWorkload(items, name))
  {
    if items != [] && items[0].name != name {
      FindWorkloadIs(items[1..], name);
      if i: nat :| i < |items[1..]| && items[1..][i].name == name
                   && (forall k :: 0 <= k < i ==> items[1..][k].name != name)
                   && FindWorkload(items[1..], name) == Some(Found(items[1..][i].uid, items[1..][i].status)) {
        assert items[i + 1] == items[1..][i];
        assert forall k :: 0 < k < i + 1 ==> items[k] == items[1..][k - 1];
      } else {
        assert forall k :: 0 < k < |items| ==> items[k] == items[1..][k - 1];
      }
    }
  }

  lemma {:induction false} StatefulWorkloadsAre(items: seq<StatefulSet>)
    ensures |StatefulWorkloads(items)| == |items|
    ensures forall i :: 0 <= i < |items| ==> StatefulWorkloads(items)[i] == items[i].workload
  {
    if items != [] {
      StatefulWorkloadsAre(items[1..]);
    }
  }

  lemma {:induction false} JobWorkloadsAre(items: seq<Job>)
    ensures |JobWorkloads(items)| == |items|
    ensures forall i :: 0 <= i < |items| ==> JobWorkloads(items)[i] == items[i].workload
  {
    if items != [] {
      JobWorkloadsAre(items[1..]);
    }
  }

  ghost predicate FindsFirstSet(items: seq<StatefulSet>, name: string, found: Option<Found>) {
    exists all: seq<Workload> :: |all| == |items| && FindsFirst(all, name, found)
                                 && forall i :: 0 <= i < |items| ==> all[i] == items[i].workload
  }

  ghost predicate FindsFirstJob(items: seq<Job>, name: string, found: Option<Found>) {
    exists all: seq<Workload> :: |all| == |items| && FindsFirst(all, name, found)
                                 && forall i :: 0 <= i < |items| ==> all[i] == items[i].workload
  }

  /** The object a view starts from: the kinds of workloads are looked for among those listed, any other
      object by its own group, kind and name. */
  lemma RootMeaning(scope: Scope, key: ObjectKey)
    ensures var found, inv := RootOf(scope, key), scope.inv;
            match ViewByName(key.group, key.kind)
            case DeploymentView =>
              if inv.deployments.Items? then FindsFirst(inv.deployments.items, key.name, found) else found == None
            case StatefulSetView =>
              if inv.statefulSets.Items? then FindsFirstSet(inv.statefulSets.items, key.name, found) else found == None
            case DaemonSetView =>
              if inv.daemonSets.Items? then FindsFirst(inv.daemonSets.items, key.name, found) else found == None
            case JobView =>
              if inv.jobs.Items? then FindsFirstJob(inv.jobs.items, key.name, found) else found == None
            case CronJobView =>
              if inv.cronJobs.Items? then FindsFirst(inv.cronJobs.items, key.name, found) else found == None
            case _ => found == if key in scope.objects then Some(scope.objects[key]) else None
  {
    ViewForMeaning(key.group, key.kind);
    hide ViewFor, ViewByName, FindsFirst, FindWorkload;
    var inv := scope.inv;
    if inv.deployments.Items? {
      FindWorkloadIs(inv.deployments.items, key.name);
    }
    if inv.statefulSets.Items? {
      FindWorkloadIs(StatefulWorkloads(inv.statefulSets.items), key.name);
      StatefulWorkloadsAre(inv.statefulSets.items);
    }
    if inv.daemonSets.Items? {
      FindWorkloadIs(inv.daemonSets.items, key.name);
    }
    if inv.jobs.Items? {
      FindWorkloadIs(JobWorkloads(inv.jobs.items), key.name);
      JobWorkloadsAre(inv.jobs.items);
    }
    if inv.cronJobs.Items? {
      FindWorkloadIs(inv.cronJobs.items, key.name);
    }
  }

  // What a view needs

  /** The object itself, the pods wherever pods are looked through, the ReplicaSets of a Deployment or an
      object of another kind, and the Jobs of a CronJob or an object of another kind. */
  lemma DrawableMeaning(src: ObjectSource, key: ObjectKey)
    ensures var inv, found := src.scope.inv, RootOf(src.scope, key).Some?;
            Drawable(src, key) <==>
              match ViewByName(key.group, key.kind)
              case PodView => key.name in src.pods
              case ServiceView => key.name in src.services && inv.pods.Items?
              case IngressView => key.name in src.ingresses
              case ConsumersView => key in src.scope.objects && inv.pods.Items?
              case DeploymentView => found && inv.pods.Items? && inv.replicaSets.Items?
              case StatefulSetView => found && inv.pods.Items?
              case DaemonSetView => found && inv.pods.Items?
              case JobView => found && inv.pods.Items?
              case CronJobView => found && inv.pods.Items? && inv.jobs.Items?
              case GenericView => found && inv.pods.Items? && inv.replicaSets.Items? && inv.jobs.Items?
  {
    ViewForMeaning(key.group, key.kind);
    hide ViewFor, ViewByName, RootOf;
  }

  // Edges

  ghost predicate Names(refs: seq<OwnerRef>, uid: string) {
    exists i :: 0 <= i < |refs| && refs[i].uid == uid
  }

  /** The pod names the object, or a ReplicaSet that does, as far as the kind of the object counts. */
  ghost predicate Owns(scope: Scope, view: View, uid: string, pod: Pod)
    requires view.DeploymentView? || view.GenericView? ==> scope.inv.replicaSets.Items?
  {
    match view
    case DeploymentView => OwnsThroughSets(scope.inv.replicaSets.items, uid, pod)
    case CronJobView => false
    case GenericView => Names(pod.ownerRefs, uid) || OwnsThroughSets(scope.inv.replicaSets.items, uid, pod)
    case _ => Names(pod.ownerRefs, uid)
  }

  ghost predicate OwnsThroughSets(sets: seq<ReplicaSet>, uid: string, pod: Pod) {
    exists i :: 0 <= i < |sets| && Names(sets[i].ownerRefs, uid) && Names(pod.ownerRefs, sets[i].uid)
  }

  lemma ParentsMeaning(scope: Scope, view: View, uid: string, pod: Pod)
    requires OwnerView(view) && (CollapsesReplicaSets(view) ==> scope.inv.replicaSets.Items?)
    ensures HasParent(pod, ParentUids(view, uid, scope.inv.replicaSets)) <==> Owns(scope, view, uid, pod)
  {
    hide Names;
    var parents := ParentUids(view, uid, scope.inv.replicaSets);
    NamesAre(pod.ownerRefs, uid);
    if CollapsesReplicaSets(view) {
      var sets := scope.inv.replicaSets.items;
      forall i | 0 <= i < |pod.ownerRefs|
        ensures pod.ownerRefs[i].uid in Collapsed(sets, uid, |sets|)
                <==> exists k :: 0 <= k < |sets| && sets[k].uid == pod.ownerRefs[i].uid && Names(sets[k].ownerRefs, uid)
      {
        CollapsedMeaning(sets, uid, |sets|, pod.ownerRefs[i].uid);
        forall k | 0 <= k < |sets| ensures OwnedBy(sets[k].ownerRefs, uid) <==> Names(sets[k].ownerRefs, uid) {
          NamesAre(sets[k].ownerRefs, uid);
        }
      }
      hide OwnedBy, Collapsed;
      ThroughSets(sets, uid, pod);
    }
  }

  lemma NamesAre(refs: seq<OwnerRef>, uid: string)
    ensures OwnedBy(refs, uid) <==> Names(refs, uid)
    ensures Names(refs, uid) <==> exists i :: 0 <= i < |refs| && refs[i].uid == uid
  {
  }

  lemma ThroughSets(sets: seq<ReplicaSet>, uid: string, pod: Pod)
    ensures OwnsThroughSets(sets, uid, pod)
            <==> exists i :: 0 <= i < |pod.ownerRefs| && IsSetOf(sets, uid, pod.ownerRefs[i].uid)
  {
  }

  ghost predicate IsSetOf(sets: seq<ReplicaSet>, uid: string, setUid: string) {
    exists k :: 0 <= k < |sets| && sets[k].uid == setUid && Names(sets[k].ownerRefs, uid)
  }

  /** A pod behind a Service: its labels are selected or, without a selector, it is among the endpoints. */
  ghost predicate IsBehindService(src: ObjectSource, svc: Service, name: string, pod: Pod) {
    if svc.selector != map[] then svc.selector.Items <= pod.labels.Items
    else src.slices.Items? && IsEndpoint(src.slices.items, name, pod.name)
  }

  lemma BackendMeaning(src: ObjectSource, svc: Service, name: string, pod: Pod)
    ensures ObjectChildren.IsBackend(svc, EndpointsOf(src, svc, name), pod) <==> IsBehindService(src, svc, name, pod)
  {
    hide IsEndpoint, PodsBehind;
    SelectsMeaning(svc.selector, pod.labels);
    if svc.selector == map[] && src.slices.Items? {
      PodsBehindMeaning(src.slices.items, name, |src.slices.items|, pod.name);
      assert src.slices.items[..|src.slices.items|] == src.slices.items;
    }
  }

  lemma {:induction false} ContainerEdgesAre(
    namespace: string, pod: Pod, containers: seq<ContainerState>, n: nat, e: Edge)
    requires n <= |containers|
    ensures e in ContainerEdges(namespace, pod, containers, n)
            <==> exists i :: 0 <= i < n && e == Edge(PodId(pod), ContainerId(namespace, pod, containers[i]), "owns")
  {
    hide PodId, NodeId, OwnsOnlyContainers, ContainerNode;
    if n > 0 {
      ContainerEdgesAre(namespace, pod, containers, n - 1, e);
    }
  }

  ghost function ContainerId(namespace: string, pod: Pod, c: ContainerState): string {
    NodeId("Container", namespace, pod.name + "/" + c.name)
  }

  lemma {:induction false} BackendEdgesAre(
    src: ObjectSource, svc: Service, name: string, pods: seq<Pod>, n: nat, e: Edge)
    requires n <= |pods|
    ensures e in BackendEdges(svc, EndpointsOf(src, svc, name), pods, n)
            <==> exists i :: 0 <= i < n && IsBehindService(src, svc, name, pods[i])
                             && e == Edge(NodeId("Service", svc.namespace, svc.name), PodId(pods[i]), "selects")
  {
    hide PodId, NodeId, OwnsOnlyContainers, ServiceRoot, IsBehindService, EndpointsOf, ObjectChildren.IsBackend;
    if n > 0 {
      BackendEdgesAre(src, svc, name, pods, n - 1, e);
      BackendMeaning(src, svc, name, pods[n - 1]);
    }
  }

  /** The ID of a backend of an Ingress. */
  ghost function TargetId(namespace: string, services: map<string, Service>, name: string): string {
    if name in services then NodeId("Service", services[name].namespace, services[name].name)
    else NodeId("Service", namespace, name)
  }

  lemma {:induction false} TargetEdgesAre(
    namespace: string, id: string, services: map<string, Service>, names: seq<string>, n: nat, e: Edge)
    requires n <= |names|
    ensures e in ObjectChildren.TargetEdges(namespace, id, services, names, n)
            <==> exists i :: 0 <= i < n && e == Edge(id, TargetId(namespace, services, names[i]), "routes")
  {
    hide NodeId, OwnsOnlyContainers;
    if n > 0 {
      TargetEdgesAre(namespace, id, services, names, n - 1, e);
    }
  }

  lemma IngressEdgesAre(namespace: string, id: string, services: map<string, Service>, ing: Ingress, e: Edge)
    ensures e in ObjectChildren.TargetEdges(namespace, id, services, BackendsOf(ing), |BackendsOf(ing)|)
            <==> exists name :: NamespaceEdges.IsBackend(ing, name)
                                && e == Edge(id, TargetId(namespace, services, name), "routes")
  {
    hide NodeId, OwnsOnlyContainers, ObjectChildren.TargetEdges, BackendsOf, TargetId, NamespaceEdges.IsBackend;
    var names := BackendsOf(ing);
    TargetEdgesAre(namespace, id, services, names, |names|, e);
    forall name ensures name in names <==> NamespaceEdges.IsBackend(ing, name) {
      BackendsOfMeaning(ing, name);
    }
  }

  /** What is behind a claim that is opened. */
  ghost predicate LeadsBehind(id: string, claim: Claim, volumes: Volumes, e: Edge) {
    if claim.volume != "" && claim.volume in volumes then
      var pv := volumes[claim.volume];
      || e == Edge(id, NodeId("PersistentVolume", "", pv.name), "bound")
      || (pv.storageClass != ""
          && e == Edge(NodeId("PersistentVolume", "", pv.name), NodeId("StorageClass", "", pv.storageClass), "uses"))
    else
      claim.storageClass.Some? && claim.storageClass.value != ""
      && e == Edge(id, NodeId("StorageClass", "", claim.storageClass.value), "uses")
  }

  lemma {:induction false} ConsumerEdgesAre(id: string, target: SpecRef, pods: seq<Pod>, n: nat, e: Edge)
    requires n <= |pods|
    ensures e in ConsumerEdges(id, target, pods, n)
            <==> exists i :: 0 <= i < n && target.name != "" && Refers(pods[i].spec, target)
                             && e == Edge(PodId(pods[i]), id, "uses")
  {
    hide PodId, OwnsOnlyContainers, Refers, RefsOf;
    if n > 0 {
      ConsumerEdgesAre(id, target, pods, n - 1, e);
      RefsAreDistinctAndComplete(pods[n - 1].spec);
    }
  }

  lemma ClaimVolumeEdgesAre(id: string, claim: Option<Claim>, volumes: Volumes, e: Edge)
    ensures e in ClaimVolumeEdges(id, claim, volumes) <==> claim.Some? && LeadsBehind(id, claim.value, volumes, e)
  {
    hide NodeId, OwnsOnlyContainers, NoAllows;
  }

  lemma OwnerEdgesAre(scope: Scope, key: ObjectKey, e: Edge)
    requires ViewReadable(scope, key)
    ensures e in OwnerEdges(scope, key) <==> OwnerEdgeReason(scope, key, e)
  {
    hide NodeId, ViewFor, RootOf, Owns, Names, ParentUids, HasParent, OwnedBy, CollapsesReplicaSets;
    var view, uid, inv := ViewFor(key.group, key.kind), UidOf(scope, key), scope.inv;
    var rootId, parents := NodeId(key.kind, inv.namespace, key.name), ParentUids(view, uid, inv.replicaSets);
    ViewForMeaning(key.group, key.kind);
    hide ViewByName;
    PodEdgesMeaning(rootId, inv.pods.items, parents, |inv.pods.items|, e);
    NeedsSets(view);
    forall i | 0 <= i < |inv.pods.items|
      ensures HasParent(inv.pods.items[i], parents) <==> Owns(scope, view, uid, inv.pods.items[i])
    {
      ParentsMeaning(scope, view, uid, inv.pods.items[i]);
    }
    if DrawsJobs(view) {
      JobEdgesMeaning(rootId, inv.namespace, inv.jobs.items, uid, |inv.jobs.items|, e);
      forall i | 0 <= i < |inv.jobs.items|
        ensures OwnedBy(inv.jobs.items[i].ownerRefs, uid) <==> Names(inv.jobs.items[i].ownerRefs, uid)
      {
        NamesAre(inv.jobs.items[i].ownerRefs, uid);
      }
    }
  }

  lemma NeedsSets(view: View)
    ensures CollapsesReplicaSets(view) <==> view.DeploymentView? || view.GenericView?
  {
  }

  /** The pods the object owns and, for a CronJob or an object of another kind, the Jobs it owns. */
  ghost predicate OwnerEdgeReason(scope: Scope, key: ObjectKey, e: Edge)
    requires ViewReadable(scope, key)
  {
    ViewForMeaning(key.group, key.kind);
    var view, uid, inv := ViewByName(key.group, key.kind), UidOf(scope, key), scope.inv;
    var rootId := NodeId(key.kind, inv.namespace, key.name);
    || ((view.CronJobView? || view.GenericView?)
        && exists i :: 0 <= i < |inv.jobs.items| && Names(inv.jobs.items[i].ownerRefs, uid)
             && e == Edge(rootId, NodeId("Job", inv.namespace, inv.jobs.items[i].workload.name), "owns"))
    || (exists i :: 0 <= i < |inv.pods.items| && Owns(scope, view, uid, inv.pods.items[i])
          && e == Edge(rootId, NodeId("Pod", inv.pods.items[i].namespace, inv.pods.items[i].name), "owns"))
  }

  /** Why the view of an object has an edge. */
  ghost predicate EdgeReason(src: ObjectSource, key: ObjectKey, e: Edge)
    requires Drawable(src, key)
  {
    ViewForMeaning(key.group, key.kind);
    var inv, ns := src.scope.inv, src.scope.inv.namespace;
    match ViewByName(key.group, key.kind)
    case PodView =>
      var d := src.pods[key.name];
      exists i :: 0 <= i < |d.containers|
        && e == Edge(NodeId("Pod", d.pod.namespace, d.pod.name), ContainerId(ns, d.pod, d.containers[i]), "owns")
    case ServiceView =>
      var svc := src.services[key.name];
      exists i :: 0 <= i < |inv.pods.items| && IsBehindService(src, svc, key.name, inv.pods.items[i])
        && e == Edge(NodeId("Service", svc.namespace, svc.name), PodId(inv.pods.items[i]), "selects")
    case IngressView =>
      exists name :: NamespaceEdges.IsBackend(src.ingresses[key.name], name)
        && e == Edge(NodeId("Ingress", ns, key.name), TargetId(ns, src.services, name), "routes")
    case ConsumersView =>
      || (exists i :: 0 <= i < |inv.pods.items| && key.name != ""
            && Refers(inv.pods.items[i].spec, SpecRef(key.kind, key.name))
            && e == Edge(PodId(inv.pods.items[i]), NodeId(key.kind, ns, key.name), "uses"))
      || (key.kind == "PersistentVolumeClaim" && key.name in src.claims
          && LeadsBehind(NodeId(key.kind, ns, key.name), src.claims[key.name], src.volumes, e))
    case _ => OwnerEdgeReason(src.scope, key, e)
  }

  /** The edges of the view of an object are exactly those with a reason. */
  lemma ObjectEdgesAreJustified(src: ObjectSource, key: ObjectKey, e: Edge)
    requires Drawable(src, key)
    ensures e in ObjectEdges(src, key) <==> EdgeReason(src, key, e)
  {
    ViewForMeaning(key.group, key.kind);
    hide ViewFor, ViewByName, NodeId, OwnsOnlyContainers, IsBehindService, EndpointsOf, LeadsBehind, OwnerEdges;
    hide ContainerEdges, BackendEdges, ObjectChildren.TargetEdges, ConsumerEdges, ClaimVolumeEdges, BackendsOf;
    hide NamespaceEdges.IsBackend, Refers, OwnerEdgeReason, TargetId, ViewReadable, ContainerId;
    var inv, ns := src.scope.inv, src.scope.inv.namespace;
    match ViewFor(key.group, key.kind) {
      case PodView =>
        var d := src.pods[key.name];
        ContainerEdgesAre(ns, d.pod, d.containers, |d.containers|, e);
      case ServiceView =>
        BackendEdgesAre(src, src.services[key.name], key.name, inv.pods.items, |inv.pods.items|, e);
      case IngressView =>
        IngressEdgesAre(ns, NodeId("Ingress", ns, key.name), src.services, src.ingresses[key.name], e);
      case ConsumersView =>
        var id := NodeId(key.kind, ns, key.name);
        ConsumerEdgesAre(id, SpecRef(key.kind, key.name), inv.pods.items, |inv.pods.items|, e);
        ClaimVolumeEdgesAre(id, ClaimNamed(src, key.name), src.volumes, e);
      case _ => OwnerEdgesAre(src.scope, key, e);
    }
  }

  // Nodes and groups

  /** The object that is opened: it cannot be opened again, and weighs two. */
  ghost predicate SpelledRoot(n: Node, kind: string, namespace: string, name: string, status: Status) {
    n.weight == 2 && Spelled(n.(weight := 1), kind, namespace, name, status, false)
  }

  lemma RootIsSpelled(n: Node, kind: string, namespace: string, name: string, status: Status)
    ensures n == Stored(Plain(kind, namespace, name, status, false, 2))
            <==> SpelledRoot(n, kind, namespace, name, status)
  {
    PlainIsSpelled(n.(weight := 1), kind, namespace, name, status, false);
    hide KindGroup, Spelled;
  }

  ghost function MachineGroup(pod: Pod): string {
    NodeId("Node", "", if pod.spec.nodeName == "" then "unscheduled" else pod.spec.nodeName)
  }

  /** A pod in the group of the machine it runs on. */
  ghost predicate SpelledPod(n: Node, pod: Pod) {
    && n.group == MachineGroup(pod)
    && Spelled(n.(group := ""), "Pod", pod.namespace, pod.name, PodStatus(pod), true)
  }

  lemma PodIsSpelled(n: Node, pod: Pod)
    ensures n == Stored(PodNode(pod, NodeGroupId(pod))) <==> SpelledPod(n, pod)
    ensures NodeGroupId(pod) == MachineGroup(pod)
  {
    hide PodStatus, KindGroup;
  }

  /** The status of a container, each by its own condition. */
  ghost predicate ContainerShows(c: ContainerState, status: Status) {
    match status
    case Healthy => c.state == "running" && (c.ready || c.init)
    case Idle => c.state == "terminated" && c.reason == "Completed"
    case Warning =>
      || (c.state == "running" && !c.ready && !c.init)
      || (c.state !in {"running", "terminated"} && c.reason in {"", "ContainerCreating", "PodInitializing"})
    case Error =>
      || (c.state == "terminated" && c.reason != "Completed")
      || (c.state !in {"running", "terminated"} && c.reason !in {"", "ContainerCreating", "PodInitializing"})
    case Unset => false
  }

  lemma ContainerShowsItsStatus(c: ContainerState, status: Status)
    ensures StatusOfContainer(c) == status <==> ContainerShows(c, status)
  {
  }

  ghost predicate SpelledContainer(n: Node, namespace: string, pod: Pod, c: ContainerState) {
    && n.name == c.name && ContainerShows(c, n.status)
    && Spelled(n.(name := pod.name + "/" + c.name), "Container", namespace, pod.name + "/" + c.name, n.status, true)
  }

  lemma ContainerIsSpelled(n: Node, namespace: string, pod: Pod, c: ContainerState)
    ensures n == Stored(ContainerNode(namespace, pod, c)) <==> SpelledContainer(n, namespace, pod, c)
  {
    ContainerShowsItsStatus(c, n.status);
    var name := pod.name + "/" + c.name;
    PlainIsSpelled(n.(name := name), "Container", namespace, name, n.status, true);
    hide NodeId, KindGroup, StatusOfContainer, ContainerShows, Spelled;
  }

  lemma {:induction false} ContainerNodesAre(
    namespace: string, pod: Pod, containers: seq<ContainerState>, n: nat, node: Node)
    requires n <= |containers|
    ensures node in ContainerNodes(namespace, pod, containers, n)
            <==> exists i :: 0 <= i < n && SpelledContainer(node, namespace, pod, containers[i])
  {
    hide Stored, ContainerNode, SpelledContainer;
    if n > 0 {
      ContainerNodesAre(namespace, pod, containers, n - 1, node);
      ContainerIsSpelled(node, namespace, pod, containers[n - 1]);
    }
  }

  lemma {:induction false} BackendNodesAre(
    src: ObjectSource, svc: Service, name: string, pods: seq<Pod>, n: nat, node: Node, group: string)
    requires n <= |pods|
    ensures node in BackendNodes(svc, EndpointsOf(src, svc, name), pods, n)
            <==> exists i :: 0 <= i < n && IsBehindService(src, svc, name, pods[i]) && SpelledPod(node, pods[i])
    ensures group in BackendGroups(svc, EndpointsOf(src, svc, name), pods, n)
            <==> exists i :: 0 <= i < n && IsBehindService(src, svc, name, pods[i]) && group == MachineGroup(pods[i])
  {
    hide Stored, PodNode, SpelledPod, IsBehindService, EndpointsOf, ObjectChildren.IsBackend, NodeGroupId, MachineGroup;
    if n > 0 {
      BackendNodesAre(src, svc, name, pods, n - 1, node, group);
      BackendMeaning(src, svc, name, pods[n - 1]);
      PodIsSpelled(node, pods[n - 1]);
    }
  }

  /** A Service an Ingress leads to, or a warning in its place. */
  ghost predicate SpelledTarget(n: Node, namespace: string, services: map<string, Service>, name: string) {
    if name in services then Spelled(n, "Service", services[name].namespace, services[name].name, Healthy, true)
    else Spelled(n, "Service", namespace, name, Warning, false)
  }

  lemma {:induction false} TargetNodesAre(
    namespace: string, services: map<string, Service>, names: seq<string>, n: nat, node: Node)
    requires n <= |names|
    ensures node in TargetNodes(namespace, services, names, n)
            <==> exists i :: 0 <= i < n && SpelledTarget(node, namespace, services, names[i])
  {
    hide Stored, Plain, Spelled;
    if n > 0 {
      var name := names[n - 1];
      TargetNodesAre(namespace, services, names, n - 1, node);
      if name in services {
        PlainIsSpelled(node, "Service", services[name].namespace, services[name].name, Healthy, true);
      } else {
        PlainIsSpelled(node, "Service", namespace, name, Warning, false);
      }
    }
  }

  lemma IngressTargetsAre(namespace: string, services: map<string, Service>, ing: Ingress, node: Node)
    ensures node in TargetNodes(namespace, services, BackendsOf(ing), |BackendsOf(ing)|)
            <==> exists name :: NamespaceEdges.IsBackend(ing, name) && SpelledTarget(node, namespace, services, name)
  {
    hide TargetNodes, BackendsOf, SpelledTarget, NamespaceEdges.IsBackend;
    var names := BackendsOf(ing);
    TargetNodesAre(namespace, services, names, |names|, node);
    forall name ensures name in names <==> NamespaceEdges.IsBackend(ing, name) {
      BackendsOfMeaning(ing, name);
    }
  }

  lemma {:induction false} ConsumerNodesAre(target: SpecRef, pods: seq<Pod>, n: nat, node: Node, group: string)
    requires n <= |pods|
    ensures node in ConsumerNodes(target, pods, n)
            <==> exists i :: 0 <= i < n && target.name != "" && Refers(pods[i].spec, target)
                   && SpelledPod(node, pods[i])
    ensures group in ConsumerGroups(target, pods, n)
            <==> exists i :: 0 <= i < n && target.name != "" && Refers(pods[i].spec, target)
                             && group == MachineGroup(pods[i])
  {
    hide Stored, PodNode, SpelledPod, Refers, RefsOf, NodeGroupId, MachineGroup;
    if n > 0 {
      ConsumerNodesAre(target, pods, n - 1, node, group);
      RefsAreDistinctAndComplete(pods[n - 1].spec);
      PodIsSpelled(node, pods[n - 1]);
    }
  }

  /** What is behind a claim that is opened. */
  ghost predicate BehindSpelled(n: Node, claim: Claim, volumes: Volumes) {
    if claim.volume != "" && claim.volume in volumes then
      var pv := volumes[claim.volume];
      Spelled(n, "PersistentVolume", "", pv.name, pv.status, false) || ClassDrawn(pv.storageClass, n)
    else claim.storageClass.Some? && ClassDrawn(claim.storageClass.value, n)
  }

  lemma ClaimVolumeNodesAre(claim: Option<Claim>, volumes: Volumes, node: Node)
    ensures node in ClaimVolumeNodes(claim, volumes) <==> claim.Some? && BehindSpelled(node, claim.value, volumes)
  {
    hide Stored, Plain, Spelled, NoPolicies;
    if claim.Some? {
      var volume := VolumeOf(claim.value, volumes);
      if volume.Some? {
        PlainIsSpelled(node, "PersistentVolume", "", volume.value.name, volume.value.status, false);
        PlainIsSpelled(node, "StorageClass", "", volume.value.storageClass, Healthy, false);
      } else {
        PlainIsSpelled(node, "StorageClass", "", ClassOf(claim.value), Healthy, false);
      }
    }
  }

  lemma {:induction false} JobNodesAre(namespace: string, jobs: seq<Job>, uid: string, n: nat, node: Node)
    requires n <= |jobs|
    ensures node in JobNodes(namespace, jobs, uid, n)
            <==> exists i :: 0 <= i < n && Names(jobs[i].ownerRefs, uid)
                   && Spelled(node, "Job", namespace, jobs[i].workload.name, jobs[i].workload.status, true)
  {
    hide Stored, Plain, Spelled, OwnedBy, Names;
    if n > 0 {
      JobNodesAre(namespace, jobs, uid, n - 1, node);
      NamesAre(jobs[n - 1].ownerRefs, uid);
      PlainIsSpelled(node, "Job", namespace, jobs[n - 1].workload.name, jobs[n - 1].workload.status, true);
    }
  }

  lemma {:induction false} OwnedPodNodesAre(pods: seq<Pod>, parents: set<string>, n: nat, node: Node, group: string)
    requires n <= |pods|
    ensures node in OwnedPodNodes(pods, parents, n)
            <==> exists i :: 0 <= i < n && HasParent(pods[i], parents) && SpelledPod(node, pods[i])
    ensures group in OwnedPodGroups(pods, parents, n)
            <==> exists i :: 0 <= i < n && HasParent(pods[i], parents) && group == MachineGroup(pods[i])
  {
    hide Stored, PodNode, SpelledPod, HasParent, NodeGroupId, MachineGroup;
    if n > 0 {
      OwnedPodNodesAre(pods, parents, n - 1, node, group);
      PodIsSpelled(node, pods[n - 1]);
    }
  }

  /** The root of an owner; one of another kind shows the group it was opened with, if it has any. */
  ghost predicate SpelledOwner(n: Node, key: ObjectKey, namespace: string, status: Status) {
    if ViewByName(key.group, key.kind).GenericView? && key.group != ""
    then n.apiGroup == key.group
        && SpelledRoot(n.(apiGroup := KindGroup(key.kind)), key.kind, namespace, key.name, status)
    else SpelledRoot(n, key.kind, namespace, key.name, status)
  }

  lemma OwnerIsSpelled(n: Node, key: ObjectKey, namespace: string, status: Status)
    ensures n == Stored(RootNode(key, ViewFor(key.group, key.kind), namespace, status))
            <==> SpelledOwner(n, key, namespace, status)
  {
    ViewForMeaning(key.group, key.kind);
    RootIsSpelled(n, key.kind, namespace, key.name, status);
    RootIsSpelled(n.(apiGroup := KindGroup(key.kind)), key.kind, namespace, key.name, status);
    hide ViewFor, ViewByName, SpelledRoot, NodeId, KindGroup;
  }

  ghost predicate OwnerNodeReason(scope: Scope, key: ObjectKey, n: Node)
    requires ViewReadable(scope, key)
  {
    ViewForMeaning(key.group, key.kind);
    var view, uid, inv := ViewByName(key.group, key.kind), UidOf(scope, key), scope.inv;
    || SpelledOwner(n, key, inv.namespace, RootOf(scope, key).value.status)
    || ((view.CronJobView? || view.GenericView?)
        && exists i :: 0 <= i < |inv.jobs.items| && Names(inv.jobs.items[i].ownerRefs, uid)
             && Spelled(n, "Job", inv.namespace, inv.jobs.items[i].workload.name,
                 inv.jobs.items[i].workload.status, true))
    || (exists i :: 0 <= i < |inv.pods.items| && Owns(scope, view, uid, inv.pods.items[i])
          && SpelledPod(n, inv.pods.items[i]))
  }

  lemma OwnerNodesAre(scope: Scope, key: ObjectKey, n: Node, group: string)
    requires ViewReadable(scope, key)
    ensures n in ObjectGraph.OwnerNodes(scope, key) <==> OwnerNodeReason(scope, key, n)
    ensures group in OwnerGroups(scope, key) <==> OwnerGroupReason(scope, key, group)
  {
    hide NodeId, ViewFor, RootOf, Owns, Names, ParentUids, HasParent, OwnedBy, CollapsesReplicaSets, SpelledPod;
    hide Spelled;
    hide SpelledOwner, MachineGroup, RootNode, Stored;
    var view, uid, inv := ViewFor(key.group, key.kind), UidOf(scope, key), scope.inv;
    var parents := ParentUids(view, uid, inv.replicaSets);
    OwnerIsSpelled(n, key, inv.namespace, RootOf(scope, key).value.status);
    ViewForMeaning(key.group, key.kind);
    hide ViewByName;
    OwnedPodNodesAre(inv.pods.items, parents, |inv.pods.items|, n, group);
    NeedsSets(view);
    forall i | 0 <= i < |inv.pods.items|
      ensures HasParent(inv.pods.items[i], parents) <==> Owns(scope, view, uid, inv.pods.items[i])
    {
      ParentsMeaning(scope, view, uid, inv.pods.items[i]);
    }
    if DrawsJobs(view) {
      JobNodesAre(inv.namespace, inv.jobs.items, uid, |inv.jobs.items|, n);
    }
  }

  ghost predicate OwnerGroupReason(scope: Scope, key: ObjectKey, group: string)
    requires ViewReadable(scope, key)
  {
    ViewForMeaning(key.group, key.kind);
    var view, inv := ViewByName(key.group, key.kind), scope.inv;
    exists i :: 0 <= i < |inv.pods.items| && Owns(scope, view, UidOf(scope, key), inv.pods.items[i])
                && group == MachineGroup(inv.pods.items[i])
  }

  /** What a node of the view of an object stands for. */
  ghost predicate NodeReason(src: ObjectSource, key: ObjectKey, n: Node)
    requires Drawable(src, key)
  {
    ViewForMeaning(key.group, key.kind);
    var inv, ns := src.scope.inv, src.scope.inv.namespace;
    match ViewByName(key.group, key.kind)
    case PodView =>
      var d := src.pods[key.name];
      || SpelledRoot(n, "Pod", d.pod.namespace, d.pod.name, PodStatus(d.pod))
      || exists i :: 0 <= i < |d.containers| && SpelledContainer(n, ns, d.pod, d.containers[i])
    case ServiceView =>
      var svc := src.services[key.name];
      || SpelledRoot(n, "Service", svc.namespace, svc.name, Healthy)
      || exists i :: 0 <= i < |inv.pods.items| && IsBehindService(src, svc, key.name, inv.pods.items[i])
                     && SpelledPod(n, inv.pods.items[i])
    case IngressView =>
      || SpelledRoot(n, "Ingress", ns, key.name, Healthy)
      || exists name :: NamespaceEdges.IsBackend(src.ingresses[key.name], name)
          && SpelledTarget(n, ns, src.services, name)
    case ConsumersView =>
      || SpelledRoot(n, key.kind, ns, key.name, src.scope.objects[key].status)
      || (exists i :: 0 <= i < |inv.pods.items| && key.name != ""
            && Refers(inv.pods.items[i].spec, SpecRef(key.kind, key.name))
                      && SpelledPod(n, inv.pods.items[i]))
      || (key.kind == "PersistentVolumeClaim" && key.name in src.claims
          && BehindSpelled(n, src.claims[key.name], src.volumes))
    case _ => OwnerNodeReason(src.scope, key, n)
  }

  /** ... and a group: the machine some pod that is drawn runs on. */
  ghost predicate GroupReason(src: ObjectSource, key: ObjectKey, group: string)
    requires Drawable(src, key)
  {
    ViewForMeaning(key.group, key.kind);
    var inv := src.scope.inv;
    match ViewByName(key.group, key.kind)
    case PodView => false
    case ServiceView =>
      exists i :: 0 <= i < |inv.pods.items|
        && IsBehindService(src, src.services[key.name], key.name, inv.pods.items[i])
        && group == MachineGroup(inv.pods.items[i])
    case IngressView => false
    case ConsumersView =>
      exists i :: 0 <= i < |inv.pods.items| && key.name != ""
          && Refers(inv.pods.items[i].spec, SpecRef(key.kind, key.name))
                  && group == MachineGroup(inv.pods.items[i])
    case _ => OwnerGroupReason(src.scope, key, group)
  }

  /** The nodes and the groups of the view of an object are exactly those with a reason. */
  lemma ObjectNodesAreJustified(src: ObjectSource, key: ObjectKey, n: Node, group: string)
    requires Drawable(src, key)
    ensures n in ObjectNodes(src, key) <==> NodeReason(src, key, n)
    ensures group in ObjectGroups(src, key) <==> GroupReason(src, key, group)
  {
    ViewForMeaning(key.group, key.kind);
    hide ViewFor, ViewByName, NodeId, IsBehindService, EndpointsOf, BehindSpelled, ObjectGraph.OwnerNodes, OwnerGroups;
    hide ContainerNodes, BackendNodes, BackendGroups, TargetNodes, ConsumerNodes, ConsumerGroups, ClaimVolumeNodes;
    hide BackendsOf, NamespaceEdges.IsBackend, Refers, OwnerNodeReason, OwnerGroupReason, ViewReadable, MachineGroup;
    hide SpelledRoot, SpelledPod, SpelledContainer, SpelledTarget, Stored, PodRoot, ServiceRoot, IngressRoot;
    hide ConsumedRoot;
    var inv, ns := src.scope.inv, src.scope.inv.namespace;
    match ViewFor(key.group, key.kind) {
      case PodView =>
        var d := src.pods[key.name];
        PodRootIs(n, d.pod);
        ContainerNodesAre(ns, d.pod, d.containers, |d.containers|, n);
      case ServiceView =>
        ServiceRootIs(n, src.services[key.name]);
        BackendNodesAre(src, src.services[key.name], key.name, inv.pods.items, |inv.pods.items|, n, group);
      case IngressView =>
        IngressRootIs(n, ns, key.name);
        IngressTargetsAre(ns, src.services, src.ingresses[key.name], n);
      case ConsumersView =>
        ConsumedRootIs(n, ns, key.kind, key.name, src.scope.objects[key].status);
        ConsumerNodesAre(SpecRef(key.kind, key.name), inv.pods.items, |inv.pods.items|, n, group);
        ClaimVolumeNodesAre(ClaimNamed(src, key.name), src.volumes, n);
      case _ => OwnerNodesAre(src.scope, key, n, group);
    }
  }

  lemma PodRootIs(n: Node, pod: Pod)
    ensures n == Stored(PodRoot(pod)) <==> SpelledRoot(n, "Pod", pod.namespace, pod.name, PodStatus(pod))
  {
    hide PodStatus;
    RootIsSpelled(n, "Pod", pod.namespace, pod.name, PodStatus(pod));
  }

  lemma ServiceRootIs(n: Node, svc: Service)
    ensures n == Stored(ServiceRoot(svc)) <==> SpelledRoot(n, "Service", svc.namespace, svc.name, Healthy)
  {
    RootIsSpelled(n, "Service", svc.namespace, svc.name, Healthy);
  }

  lemma IngressRootIs(n: Node, namespace: string, name: string)
    ensures n == Stored(IngressRoot(namespace, name)) <==> SpelledRoot(n, "Ingress", namespace, name, Healthy)
  {
    RootIsSpelled(n, "Ingress", namespace, name, Healthy);
  }

  lemma ConsumedRootIs(n: Node, namespace: string, kind: string, name: string, status: Status)
    ensures n == Stored(ConsumedRoot(namespace, kind, name, status)) <==> SpelledRoot(n, kind, namespace, name, status)
  {
    RootIsSpelled(n, kind, namespace, name, status);
  }
}
