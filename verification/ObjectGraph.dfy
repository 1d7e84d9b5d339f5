/** The drill-down views of kube_object_graph.go: an owner, the pods it owns grouped by the node they
    run on, and the Jobs it created. */
module ObjectGraph {
  import opened GraphBuilder
  import opened KubeObjects
  import opened PodAttribution
  import opened Text
  import opened TopologyGraph
  import opened Wrappers

  const UNSCHEDULED := "unscheduled"

  datatype ObjectKey = ObjectKey(group: string, kind: string, name: string)

  /** An object as a Get call returns it. */
  datatype Found = Found(uid: string, status: Status)

  /** A namespace: its lists, and any object of it by group, kind and name. */
  datatype Scope = Scope(inv: Inventory, objects: map<ObjectKey, Found>)

  /** Which part of the code draws an object. */
  datatype View =
    | PodView | ServiceView | IngressView | ConsumersView
    | DeploymentView | StatefulSetView | DaemonSetView | JobView | CronJobView | GenericView

  function ViewFor(group: string, kind: string): View {
    var key := group + "/" + kind;
    if key == "/Pod" then PodView
    else if key == "/Service" then ServiceView
    else if key == "networking.k8s.io/Ingress" then IngressView
    else if key == "/ConfigMap" || key == "/Secret" || key == "/PersistentVolumeClaim" then ConsumersView
    else if key == "apps/Deployment" then DeploymentView
    else if key == "apps/StatefulSet" then StatefulSetView
    else if key == "apps/DaemonSet" then DaemonSetView
    else if key == "batch/Job" then JobView
    else if key == "batch/CronJob" then CronJobView
    else GenericView
  }

  /** Which view opens an object, by its group and kind. */
  ghost function ViewByName(group: string, kind: string): View {
    if group == "" && kind == "Pod" then PodView
    else if group == "" && kind == "Service" then ServiceView
    else if group == "networking.k8s.io" && kind == "Ingress" then IngressView
    else if group == "" && kind in {"ConfigMap", "Secret", "PersistentVolumeClaim"} then ConsumersView
    else if group == "apps" && kind == "Deployment" then DeploymentView
    else if group == "apps" && kind == "StatefulSet" then StatefulSetView
    else if group == "apps" && kind == "DaemonSet" then DaemonSetView
    else if group == "batch" && kind == "Job" then JobView
    else if group == "batch" && kind == "CronJob" then CronJobView
    else GenericView
  }

  lemma SpelledAs(group: string, kind: string, g: string, k: string, spelled: string)
    requires Free('/', g) && Free('/', k) && g + "/" + k == spelled
    ensures group + "/" + kind == spelled <==> group == g && kind == k
  {
    if group + "/" + kind == spelled {
      OneSlash(group, kind, g, k);
    }
  }

  /** Joining group and kind confuses no two objects, whatever characters they have. */
  lemma ViewForMeaning(group: string, kind: string)
    ensures ViewFor(group, kind) == ViewByName(group, kind)
  {
    CoreSpellings(group, kind);
    ConsumerSpellings(group, kind);
    ClaimSpelling(group, kind);
    AppsSpellings(group, kind);
    OtherSpellings(group, kind);
  }

  lemma CoreSpellings(group: string, kind: string)
    ensures group + "/" + kind == "/Pod" <==> group == "" && kind == "Pod"
    ensures group + "/" + kind == "/Service" <==> group == "" && kind == "Service"
  {
    SpelledAs(group, kind, "", "Pod", "/Pod");
    SpelledAs(group, kind, "", "Service", "/Service");
  }

  lemma ConsumerSpellings(group: string, kind: string)
    ensures group + "/" + kind == "/ConfigMap" <==> group == "" && kind == "ConfigMap"
    ensures group + "/" + kind == "/Secret" <==> group == "" && kind == "Secret"
  {
    SpelledAs(group, kind, "", "ConfigMap", "/ConfigMap");
    SpelledAs(group, kind, "", "Secret", "/Secret");
  }

  lemma ClaimSpelling(group: string, kind: string)
    ensures group + "/" + kind == "/PersistentVolumeClaim" <==> group == "" && kind == "PersistentVolumeClaim"
  {
    SpelledAs(group, kind, "", "PersistentVolumeClaim", "/PersistentVolumeClaim");
  }

  lemma AppsSpellings(group: string, kind: string)
    ensures group + "/" + kind == "apps/Deployment" <==> group == "apps" && kind == "Deployment"
    ensures group + "/" + kind == "apps/StatefulSet" <==> group == "apps" && kind == "StatefulSet"
    ensures group + "/" + kind == "apps/DaemonSet" <==> group == "apps" && kind == "DaemonSet"
  {
    SpelledAs(group, kind, "apps", "Deployment", "apps/Deployment");
    SpelledAs(group, kind, "apps", "StatefulSet", "apps/StatefulSet");
    SpelledAs(group, kind, "apps", "DaemonSet", "apps/DaemonSet");
  }

  lemma OtherSpellings(group: string, kind: string)
    ensures group + "/" + kind == "networking.k8s.io/Ingress" <==> group == "networking.k8s.io" && kind == "Ingress"
    ensures group + "/" + kind == "batch/Job" <==> group == "batch" && kind == "Job"
    ensures group + "/" + kind == "batch/CronJob" <==> group == "batch" && kind == "CronJob"
  {
    SpelledAs(group, kind, "networking.k8s.io", "Ingress", "networking.k8s.io/Ingress");
    SpelledAs(group, kind, "batch", "Job", "batch/Job");
    SpelledAs(group, kind, "batch", "CronJob", "batch/CronJob");
  }

  /** Opening a node drawn for a built-in kind, under the group it carries, reaches the view of that kind. */
  lemma DrawnKindsOpenTheirViews(kind: string)
    ensures match ViewFor(KindGroup(kind), kind)
            case PodView => kind == "Pod"
            case ServiceView => kind == "Service"
            case IngressView => kind == "Ingress"
            case ConsumersView => kind in {"ConfigMap", "Secret", "PersistentVolumeClaim"}
            case DeploymentView => kind == "Deployment"
            case StatefulSetView => kind == "StatefulSet"
            case DaemonSetView => kind == "DaemonSet"
            case JobView => kind == "Job"
            case CronJobView => kind == "CronJob"
            case GenericView => kind !in {
                "Pod", "Service", "Ingress", "ConfigMap", "Secret", "PersistentVolumeClaim",
                    "Deployment", "StatefulSet",
                "DaemonSet", "Job", "CronJob"}
  {
    ViewForMeaning(KindGroup(kind), kind);
    KindGroupMeaning(kind);
    hide ViewFor, KindGroup;
  }

  predicate OwnerView(view: View) {
    !view.PodView? && !view.ServiceView? && !view.IngressView? && !view.ConsumersView?
  }

  // Get calls

  function FindWorkload(items: seq<Workload>, name: string): Option<Found> {
    if items == [] then None
    else if items[0].name == name then Some(Found(items[0].uid, items[0].status))
    else FindWorkload(items[1..], name)
  }

  function StatefulWorkloads(items: seq<StatefulSet>): seq<Workload> {
    if items == [] then [] else [items[0].workload] + StatefulWorkloads(items[1..])
  }

  function JobWorkloads(items: seq<Job>): seq<Workload> {
    if items == [] then [] else [items[0].workload] + JobWorkloads(items[1..])
  }

  /** The object a drill-down starts from; None when the Get fails. */
  function RootOf(scope: Scope, key: ObjectKey): Option<Found> {
    var inv := scope.inv;
    match ViewFor(key.group, key.kind)
    case DeploymentView => if inv.deployments.Items? then FindWorkload(inv.deployments.items, key.name) else None
    case StatefulSetView =>
      if inv.statefulSets.Items? then FindWorkload(StatefulWorkloads(inv.statefulSets.items), key.name) else None
    case DaemonSetView => if inv.daemonSets.Items? then FindWorkload(inv.daemonSets.items, key.name) else None
    case JobView => if inv.jobs.Items? then FindWorkload(JobWorkloads(inv.jobs.items), key.name) else None
    case CronJobView => if inv.cronJobs.Items? then FindWorkload(inv.cronJobs.items, key.name) else None
    case _ => if key in scope.objects then Some(scope.objects[key]) else None
  }

  // What is drawn

  predicate OwnedBy(refs: seq<OwnerRef>, uid: string) {
    exists i :: 0 <= i < |refs| && refs[i].uid == uid
  }

  /** The ReplicaSets an object owns stand for the object itself. */
  ghost function Collapsed(items: seq<ReplicaSet>, uid: string, n: nat): set<string>
    requires n <= |items|
  {
    if n == 0 then {}
    else Collapsed(items, uid, n - 1) + (if OwnedBy(items[n - 1].ownerRefs, uid) then {items[n - 1].uid} else {})
  }

  predicate CollapsesReplicaSets(view: View) {
    view.DeploymentView? || view.GenericView?
  }

  predicate DrawsJobs(view: View) {
    view.CronJobView? || view.GenericView?
  }

  predicate OwnsPodsItself(view: View) {
    view.StatefulSetView? || view.DaemonSetView? || view.JobView? || view.GenericView?
  }

  /** The UIDs whose pods are drawn under the root. */
  ghost function ParentUids(view: View, uid: string, replicaSets: Listing<ReplicaSet>): set<string> {
    (if OwnsPodsItself(view) then {uid} else {})
    + (if !CollapsesReplicaSets(view) || !replicaSets.Items? then {}
       else Collapsed(replicaSets.items, uid, |replicaSets.items|))
  }

  predicate HasParent(pod: Pod, parents: set<string>) {
    exists i :: 0 <= i < |pod.ownerRefs| && pod.ownerRefs[i].uid in parents
  }

  ghost function PodEdges(rootId: string, pods: seq<Pod>, parents: set<string>, n: nat): set<Edge>
    requires n <= |pods|
  {
    if n == 0 then {}
    else PodEdges(rootId, pods, parents, n - 1)
         + (if HasParent(pods[n - 1], parents) then {Edge(rootId, PodId(pods[n - 1]), "owns")} else {})
  }

  ghost function OwnedPodNodes(pods: seq<Pod>, parents: set<string>, n: nat): set<Node>
    requires n <= |pods|
  {
    if n == 0 then {}
    else OwnedPodNodes(pods, parents, n - 1)
         + (if HasParent(pods[n - 1], parents) then {Stored(PodNode(pods[n - 1], NodeGroupId(pods[n - 1])))} else {})
  }

  ghost function OwnedPodGroups(pods: seq<Pod>, parents: set<string>, n: nat): set<string>
    requires n <= |pods|
  {
    if n == 0 then {}
    else OwnedPodGroups(pods, parents, n - 1)
         + (if HasParent(pods[n - 1], parents) then {NodeGroupId(pods[n - 1])} else {})
  }

  function PodId(pod: Pod): string {
    NodeId("Pod", pod.namespace, pod.name)
  }

  function NodeGroupName(pod: Pod): string {
    if pod.spec.nodeName == "" then UNSCHEDULED else pod.spec.nodeName
  }

  function NodeGroupId(pod: Pod): (id: string)
    ensures id != ""
  {
    NodeId("Node", "", NodeGroupName(pod))
  }

  function JobId(namespace: string, job: Job): string {
    NodeId("Job", namespace, job.workload.name)
  }

  ghost function JobEdges(rootId: string, namespace: string, jobs: seq<Job>, uid: string, n: nat): set<Edge>
    requires n <= |jobs|
  {
    if n == 0 then {}
    else JobEdges(rootId, namespace, jobs, uid, n - 1)
         + (if OwnedBy(jobs[n - 1].ownerRefs, uid) then {Edge(rootId, JobId(namespace, jobs[n - 1]), "owns")} else {})
  }

  ghost function JobNodes(namespace: string, jobs: seq<Job>, uid: string, n: nat): set<Node>
    requires n <= |jobs|
  {
    if n == 0 then {}
    else JobNodes(namespace, jobs, uid, n - 1)
         + (if OwnedBy(jobs[n - 1].ownerRefs, uid)
            then {Stored(Plain("Job", namespace, jobs[n - 1].workload.name, jobs[n - 1].workload.status, true, 1))}
            else {})
  }

  /** A generic root carries the group it was asked for. */
  function RootNode(key: ObjectKey, view: View, namespace: string, status: Status): (n: Node)
    ensures n.id == NodeId(key.kind, namespace, key.name) && n.group == ""
  {
    Plain(key.kind, namespace, key.name, status, false, 2).(apiGroup := if view.GenericView? then key.group else "")
  }

  /** Everything the view of an object needs can be read. */
  predicate ViewReadable(scope: Scope, key: ObjectKey) {
    var view := ViewFor(key.group, key.kind);
    && OwnerView(view) && RootOf(scope, key).Some? && scope.inv.pods.Items?
    && (CollapsesReplicaSets(view) ==> scope.inv.replicaSets.Items?)
    && (DrawsJobs(view) ==> scope.inv.jobs.Items?)
  }

  /** The edges of the view of an object. */
  ghost function OwnerEdges(scope: Scope, key: ObjectKey): set<Edge>
    requires ViewReadable(scope, key)
  {
    var view, uid, rootId := ViewFor(key.group, key.kind), RootOf(scope, key).value.uid,
        NodeId(key.kind, scope.inv.namespace, key.name);
    (if DrawsJobs(view) then JobEdges(rootId, scope.inv.namespace, scope.inv.jobs.items, uid, |scope.inv.jobs.items|)
     else {})
    + PodEdges(rootId, scope.inv.pods.items, ParentUids(view, uid, scope.inv.replicaSets), |scope.inv.pods.items|)
  }

  ghost function OwnerNodes(scope: Scope, key: ObjectKey): set<Node>
    requires ViewReadable(scope, key)
  {
    var view, root := ViewFor(key.group, key.kind), RootOf(scope, key).value;
    {Stored(RootNode(key, view, scope.inv.namespace, root.status))}
    + (if DrawsJobs(view) then JobNodes(scope.inv.namespace, scope.inv.jobs.items, root.uid, |scope.inv.jobs.items|)
       else {})
    + OwnedPodNodes(scope.inv.pods.items, ParentUids(view, root.uid, scope.inv.replicaSets), |scope.inv.pods.items|)
  }

  /** The groups of the view, by ID: the nodes its pods run on. */
  ghost function OwnerGroups(scope: Scope, key: ObjectKey): set<string>
    requires ViewReadable(scope, key)
  {
    var parents := ParentUids(ViewFor(key.group, key.kind), RootOf(scope, key).value.uid, scope.inv.replicaSets);
    OwnedPodGroups(scope.inv.pods.items, parents, |scope.inv.pods.items|)
  }

  // Drawing it

  /** podParents: the graph node pods of an owner hang from, by the owner's UID.  All of them hang
      from the root. */
  ghost predicate ParentsAre(podParents: map<string, string>, rootId: string, uids: set<string>) {
    podParents.Keys == uids && forall uid :: uid in podParents ==> podParents[uid] == rootId
  }

  method CollapseReplicaSets(replicaSets: seq<ReplicaSet>, owner: string, ownerId: string, before: map<string, string>)
    returns (podParents: map<string, string>)
    requires forall uid :: uid in before ==> before[uid] == ownerId
    ensures ParentsAre(podParents, ownerId, before.Keys + Collapsed(replicaSets, owner, |replicaSets|))
  {
    podParents := before;
    for i := 0 to |replicaSets|
      invariant ParentsAre(podParents, ownerId, before.Keys + Collapsed(replicaSets, owner, i))
    {
      if OwnedBy(replicaSets[i].ownerRefs, owner) {
        podParents := podParents[replicaSets[i].uid := ownerId];
      }
    }
  }

  /** The part of addCronJob and addGenericOwner that draws the Jobs. */
  method AddOwnedJobs(g: Builder, rootId: string, namespace: string, jobs: seq<Job>, uid: string)
    requires g.Valid() && rootId in g.nodeIds
    modifies g`nodes, g`nodeIds, g`written, g`edges, g`edgeSet
    ensures g.Valid() && old(g.nodeIds) <= g.nodeIds
    ensures forall before :: old(g.Good(before)) ==> g.Good(before)
    ensures g.edgeSet == old(g.edgeSet) + JobEdges(rootId, namespace, jobs, uid, |jobs|)
    ensures g.written == old(g.written) + JobNodes(namespace, jobs, uid, |jobs|)
  {
    hide Builder.Valid, Builder.Good, Stored, OwnedBy, NodeId;
    ghost var ids0, edges0, written0 := g.nodeIds, g.edgeSet, g.written;
    for i := 0 to |jobs|
      invariant g.Valid() && ids0 <= g.nodeIds && forall before :: old(g.Good(before)) ==> g.Good(before)
      invariant g.edgeSet == edges0 + JobEdges(rootId, namespace, jobs, uid, i)
      invariant g.written == written0 + JobNodes(namespace, jobs, uid, i)
    {
      var j := jobs[i];
      if !OwnedBy(j.ownerRefs, uid) {
        continue;
      }
      var id := NodeId("Job", namespace, j.workload.name);
      g.AddNode(Plain("Job", namespace, j.workload.name, j.workload.status, true, 1));
      g.AddEdge(rootId, id, "owns");
    }
  }

  /** addScheduledPod: the pod in the group of the node it runs on. */
  method AddScheduledPod(g: Builder, pod: Pod) returns (id: string)
    requires g.Valid()
    modifies g`nodes, g`nodeIds, g`written, g`groups, g`groupIds
    ensures g.Valid() && id == PodId(pod)
    ensures forall before :: old(g.Good(before)) ==> g.Good(before)
    ensures g.nodeIds == old(g.nodeIds) + {id}
    ensures g.written == old(g.written) + {Stored(PodNode(pod, NodeGroupId(pod)))}
    ensures g.groupIds == old(g.groupIds) + {NodeGroupId(pod)}
  {
    hide Builder.Valid, Builder.Good, Stored, NodeId;
    var nodeName := pod.spec.nodeName;
    if nodeName == "" {
      nodeName := UNSCHEDULED;
    }
    var groupId := NodeId("Node", "", nodeName);
    assert Labelled(Group(groupId, nodeName, "Node"));
    hide Labelled;
    g.AddGroup(groupId, nodeName, "Node");
    var node := PodNode(pod, groupId);
    g.AddNode(node);
    return node.id;
  }

  /** The i-th reference is a parent, and none before it is. */
  ghost predicate IsFirstParent(refs: seq<OwnerRef>, podParents: map<string, string>, i: nat)
    requires i < |refs|
  {
    refs[i].uid in podParents && forall k :: 0 <= k < i ==> refs[k].uid !in podParents
  }

  /** The node a pod hangs from, by the first of its references that is a parent; "" for none. */
  method FindParent(refs: seq<OwnerRef>, podParents: map<string, string>) returns (parentId: string)
    ensures if exists i :: 0 <= i < |refs| && refs[i].uid in podParents
            then exists i :: 0 <= i < |refs| && IsFirstParent(refs, podParents, i)
                   && parentId == podParents[refs[i].uid]
            else parentId == ""
  {
    for i := 0 to |refs|
      invariant forall k :: 0 <= k < i ==> refs[k].uid !in podParents
    {
      if refs[i].uid in podParents {
        return podParents[refs[i].uid];
      }
    }
    return "";
  }

  method AddOwnedPods(g: Builder, pods: seq<Pod>, podParents: map<string, string>, ghost rootId: string)
    requires g.Valid() && rootId in g.nodeIds && rootId != ""
    requires ParentsAre(podParents, rootId, podParents.Keys)
    modifies g`nodes, g`nodeIds, g`written, g`edges, g`edgeSet, g`groups, g`groupIds
    ensures g.Valid() && old(g.nodeIds) <= g.nodeIds
    ensures forall before :: old(g.Good(before)) ==> g.Good(before)
    ensures g.edgeSet == old(g.edgeSet) + PodEdges(rootId, pods, podParents.Keys, |pods|)
    ensures g.written == old(g.written) + OwnedPodNodes(pods, podParents.Keys, |pods|)
    ensures g.groupIds == old(g.groupIds) + OwnedPodGroups(pods, podParents.Keys, |pods|)
  {
    hide Builder.Valid, Builder.Good, Stored, NodeId, PodNode, NodeGroupId, PodId;
    ghost var ids0, edges0, written0, groups0 := g.nodeIds, g.edgeSet, g.written, g.groupIds;
    for i := 0 to |pods|
      invariant g.Valid() && ids0 <= g.nodeIds && forall before :: old(g.Good(before)) ==> g.Good(before)
      invariant g.edgeSet == edges0 + PodEdges(rootId, pods, podParents.Keys, i)
      invariant g.written == written0 + OwnedPodNodes(pods, podParents.Keys, i)
      invariant g.groupIds == groups0 + OwnedPodGroups(pods, podParents.Keys, i)
    {
      var pod := pods[i];
      var parentId := FindParent(pod.ownerRefs, podParents);
      if parentId == "" {
        continue;
      }
      var id := AddScheduledPod(g, pod);
      g.AddEdge(parentId, id, "owns");
    }
  }

  /** addOwnerTree; false when a Get or a list failed. */
  method AddOwnerTree(g: Builder, scope: Scope, key: ObjectKey) returns (ok: bool)
    requires g.Valid() && OwnerView(ViewFor(key.group, key.kind))
    modifies g`nodes, g`nodeIds, g`written, g`edges, g`edgeSet, g`groups, g`groupIds
    ensures g.Valid()
    ensures forall before :: old(g.Good(before)) ==> g.Good(before)
    ensures ok <==> ViewReadable(scope, key)
    ensures ok ==> g.edgeSet == old(g.edgeSet) + OwnerEdges(scope, key)
    ensures ok ==> g.written == old(g.written) + OwnerNodes(scope, key)
    ensures ok ==> g.groupIds == old(g.groupIds) + OwnerGroups(scope, key)
  {
    hide Builder.Valid, Builder.Good, Stored, ViewFor, RootOf, PodNode;
    var inv, view := scope.inv, ViewFor(key.group, key.kind);
    var root := RootOf(scope, key);
    if root.None? {
      return false;
    }
    var uid := root.value.uid;
    var rootId := NodeId(key.kind, inv.namespace, key.name);
    NodeIdNotEmpty(key.kind, inv.namespace, key.name);
    hide NodeId;
    g.AddNode(RootNode(key, view, inv.namespace, root.value.status));
    var podParents: map<string, string> := map[];
    if OwnsPodsItself(view) {
      podParents := podParents[uid := rootId];
    }
    if CollapsesReplicaSets(view) {
      if !inv.replicaSets.Items? {
        return false;
      }
      podParents := CollapseReplicaSets(inv.replicaSets.items, uid, rootId, podParents);
    }
    assert podParents.Keys == ParentUids(view, uid, inv.replicaSets);
    if DrawsJobs(view) {
      if !inv.jobs.Items? {
        return false;
      }
      AddOwnedJobs(g, rootId, inv.namespace, inv.jobs.items, uid);
    }
    if !inv.pods.Items? {
      return false;
    }
    AddOwnedPods(g, inv.pods.items, podParents, rootId);
    return true;
  }

  lemma NodeIdNotEmpty(kind: string, namespace: string, name: string)
    ensures NodeId(kind, namespace, name) != ""
  {
  }
}
