/** The namespace overview and the drill-down views attribute pods to owners by different
    algorithms: listPodOwners walks up the references, addOwnerTree collects the pods below an
    object.  This module says exactly when they agree. */
module Agreement {
  import opened GraphBuilder
  import opened KubeObjects
  import opened NamespaceGraph
  import opened ObjectChildren
  import opened ObjectGraph
  import opened ObjectView
  import opened PodAttribution
  import opened Seqs
  import opened Text
  import opened TopOwner
  import opened TopologyGraph

  // Identifiers

  lemma NodeIdInjective(kind1: string, kind2: string, namespace: string, name1: string, name2: string)
    requires Free('/', kind1) && Free('/', kind2)
    requires NodeId(kind1, namespace, name1) == NodeId(kind2, namespace, name2)
    ensures kind1 == kind2 && name1 == name2
  {
    NodeIdParts(kind1, namespace, name1);
    NodeIdParts(kind2, namespace, name2);
    FirstSeparatorSplits('/', kind1, namespace + "/" + name1, kind2, namespace + "/" + name2);
    TakeDrop(namespace + "/", name1);
    TakeDrop(namespace + "/", name2);
  }

  lemma NodeIdParts(kind: string, namespace: string, name: string)
    ensures NodeId(kind, namespace, name) == kind + "/" + (namespace + "/" + name)
  {
  }

  /** The API group of a node as it is drawn, which decides the view it opens. */
  function DrawnGroup(apiGroup: string, kind: string): string {
    if apiGroup == "" then KindGroup(kind) else apiGroup
  }

  function ViewOfKey(key: ObjectKey): View {
    ViewFor(key.group, key.kind)
  }

  /** The object a reference names. */
  function RefKey(ref: OwnerRef): ObjectKey {
    ObjectKey(DrawnGroup(ApiGroup(ref.apiVersion), ref.kind), ref.kind, ref.name)
  }

  // The state of a cluster

  /** The Get call for an object finds it. */
  ghost predicate IsFound(scope: Scope, key: ObjectKey, uid: string) {
    RootOf(scope, key).Some? && RootOf(scope, key).value.uid == uid
  }

  function BuiltIn(kind: string, name: string): ObjectKey {
    ObjectKey(KindGroup(kind), kind, name)
  }

  /** At most one owner, and it exists. */
  ghost predicate SingleOwner(scope: Scope, refs: seq<OwnerRef>) {
    |refs| <= 1 && forall i :: 0 <= i < |refs| ==> IsFound(scope, RefKey(refs[i]), refs[i].uid)
  }

  /** Listed objects can be fetched. */
  ghost predicate ListsMatch(scope: Scope)
    requires Readable(scope.inv)
  {
    && (forall d :: d in Draws(scope.inv) ==> IsFound(scope, BuiltIn(d.owner.node.kind, d.owner.node.name), d.uid))
    && (forall i :: 0 <= i < |scope.inv.jobs.items| ==>
          IsFound(scope, BuiltIn("Job", scope.inv.jobs.items[i].workload.name), scope.inv.jobs.items[i].workload.uid))
    && (forall i :: 0 <= i < |scope.inv.replicaSets.items| ==>
          IsFound(scope, BuiltIn("ReplicaSet", scope.inv.replicaSets.items[i].name),
              scope.inv.replicaSets.items[i].uid))
  }

  /** UIDs identify objects. */
  ghost predicate Identifies(scope: Scope) {
    forall a, b, uid :: IsFound(scope, a, uid) && IsFound(scope, b, uid) ==> a == b
  }

  ghost predicate DistinctEntries(inv: Inventory)
    requires Readable(inv)
  {
    && (forall i, j :: 0 <= i < j < |inv.jobs.items| ==>
        inv.jobs.items[i].workload.uid != inv.jobs.items[j].workload.uid)
    && (forall i, j :: 0 <= i < j < |inv.replicaSets.items| ==>
        inv.replicaSets.items[i].uid != inv.replicaSets.items[j].uid)
    && DistinctNames(inv.pods.items)
    && forall i :: 0 <= i < |inv.pods.items| ==> inv.pods.items[i].namespace == inv.namespace
  }

  ghost predicate SingleOwners(scope: Scope)
    requires Readable(scope.inv)
  {
    && (forall i :: 0 <= i < |scope.inv.pods.items| ==> SingleOwner(scope, scope.inv.pods.items[i].ownerRefs))
    && (forall i :: 0 <= i < |scope.inv.jobs.items| ==> SingleOwner(scope, scope.inv.jobs.items[i].ownerRefs))
    && (forall i :: 0 <= i < |scope.inv.replicaSets.items| ==>
        SingleOwner(scope, scope.inv.replicaSets.items[i].ownerRefs))
  }

  ghost predicate Consistent(scope: Scope) {
    && Readable(scope.inv) && ListsMatch(scope) && Identifies(scope)
    && DistinctEntries(scope.inv) && SingleOwners(scope)
  }

  // The lookup maps of the overview

  lemma {:induction false} JobParentsMeaning(items: seq<Job>, n: nat)
    requires n <= |items| && forall i, j :: 0 <= i < j < |items| ==> items[i].workload.uid != items[j].workload.uid
    ensures forall uid :: uid in JobParents(items, n)
              <==> exists i :: 0 <= i < n && items[i].workload.uid == uid && items[i].ownerRefs != []
    ensures forall i :: 0 <= i < n && items[i].ownerRefs != [] ==>
              JobParents(items, n)[items[i].workload.uid] == items[i].ownerRefs
  {
    if n > 0 { JobParentsMeaning(items, n - 1); }
  }

  lemma {:induction false} ReplicaSetParentsMeaning(jobs: Intermediate, items: seq<ReplicaSet>, n: nat)
    requires n <= |items| && forall i, j :: 0 <= i < j < |items| ==> items[i].uid != items[j].uid
    ensures forall uid :: uid in ReplicaSetParents(jobs, items, n)
              <==> uid in jobs || exists i :: 0 <= i < n && items[i].uid == uid
    ensures forall i :: 0 <= i < n ==> ReplicaSetParents(jobs, items, n)[items[i].uid] == items[i].ownerRefs
    ensures forall uid :: uid in jobs && (forall i :: 0 <= i < n ==> items[i].uid != uid) ==>
              ReplicaSetParents(jobs, items, n)[uid] == jobs[uid]
  {
    if n > 0 { ReplicaSetParentsMeaning(jobs, items, n - 1); }
  }

  ghost predicate IsReplicaSet(inv: Inventory, uid: string, refs: seq<OwnerRef>)
    requires Readable(inv)
  {
    exists i :: 0 <= i < |inv.replicaSets.items| && inv.replicaSets.items[i].uid == uid
        && inv.replicaSets.items[i].ownerRefs == refs
  }

  ghost predicate IsJob(inv: Inventory, uid: string, refs: seq<OwnerRef>)
    requires Readable(inv)
  {
    exists i :: 0 <= i < |inv.jobs.items| && inv.jobs.items[i].workload.uid == uid
        && inv.jobs.items[i].ownerRefs == refs
  }

  lemma ReplicaSetKey(scope: Scope, uid: string, refs: seq<OwnerRef>) returns (key: ObjectKey)
    requires Consistent(scope) && IsReplicaSet(scope.inv, uid, refs)
    ensures IsFound(scope, key, uid) && key.kind == "ReplicaSet"
  {
    hide IsFound, KindGroup, DistinctEntries, SingleOwners, Identifies;
    var i :| 0 <= i < |scope.inv.replicaSets.items| && scope.inv.replicaSets.items[i].uid == uid;
    key := BuiltIn("ReplicaSet", scope.inv.replicaSets.items[i].name);
  }

  lemma JobKey(scope: Scope, uid: string, refs: seq<OwnerRef>) returns (key: ObjectKey)
    requires Consistent(scope) && IsJob(scope.inv, uid, refs)
    ensures IsFound(scope, key, uid) && key.kind == "Job"
    ensures exists i :: 0 <= i < |scope.inv.jobs.items| && scope.inv.jobs.items[i].workload.uid == uid
              && key == BuiltIn("Job", scope.inv.jobs.items[i].workload.name)
  {
    hide IsFound, KindGroup, DistinctEntries, SingleOwners, Identifies;
    var i :| 0 <= i < |scope.inv.jobs.items| && scope.inv.jobs.items[i].workload.uid == uid;
    key := BuiltIn("Job", scope.inv.jobs.items[i].workload.name);
  }

  /** A UID belongs to one object. */
  lemma SameUidSameKey(scope: Scope, a: ObjectKey, b: ObjectKey, uid: string)
    requires Consistent(scope) && IsFound(scope, a, uid) && IsFound(scope, b, uid)
    ensures a == b
  {
    hide ListsMatch, DistinctEntries, SingleOwners, IsFound;
  }

  /** No ReplicaSet has the UID of a Job. */
  lemma ReplicaSetsAreNotJobs(scope: Scope, uid: string, refs: seq<OwnerRef>, jobRefs: seq<OwnerRef>)
    requires Consistent(scope) && IsReplicaSet(scope.inv, uid, refs)
    ensures !IsJob(scope.inv, uid, jobRefs)
  {
    hide ListsMatch, DistinctEntries, SingleOwners, Identifies, IsFound;
    var a := ReplicaSetKey(scope, uid, refs);
    if IsJob(scope.inv, uid, jobRefs) {
      var b := JobKey(scope, uid, jobRefs);
      SameUidSameKey(scope, a, b, uid);
    }
  }

  /** The parents the overview knows for a UID: those of a ReplicaSet, or of a Job that has some. */
  lemma IntermediateMeaning(scope: Scope, uid: string)
    requires Consistent(scope)
    ensures var m := Intermediates(scope.inv);
            && (forall refs :: IsReplicaSet(scope.inv, uid, refs) ==> uid in m && m[uid] == refs)
            && (forall refs :: IsJob(scope.inv, uid, refs) && refs != [] ==> uid in m && m[uid] == refs)
            && (uid in m ==> IsReplicaSet(scope.inv, uid, m[uid]) || (IsJob(scope.inv, uid, m[uid]) && m[uid] != []))
  {
    hide ListsMatch, Identifies, SingleOwners, DistinctNames;
    var inv := scope.inv;
    var jobs := JobParents(inv.jobs.items, |inv.jobs.items|);
    JobParentsMeaning(inv.jobs.items, |inv.jobs.items|);
    ReplicaSetParentsMeaning(jobs, inv.replicaSets.items, |inv.replicaSets.items|);
    forall refs | IsJob(inv, uid, refs) && refs != []
      ensures uid in Intermediates(inv) && Intermediates(inv)[uid] == refs
    {
      forall i | 0 <= i < |inv.replicaSets.items| ensures inv.replicaSets.items[i].uid != uid {
        if inv.replicaSets.items[i].uid == uid {
          ReplicaSetsAreNotJobs(scope, uid, inv.replicaSets.items[i].ownerRefs, refs);
        }
      }
    }
  }

  function ShownIn(scope: Scope): Shown
    requires Readable(scope.inv)
  {
    ShownBy(Draws(scope.inv))
  }

  function ParentsIn(scope: Scope): Intermediate
    requires Readable(scope.inv)
  {
    Intermediates(scope.inv)
  }

  /** The ID of the overview node a pod is attributed to. */
  function OverviewOwner(scope: Scope, pod: Pod): string
    requires Readable(scope.inv)
  {
    OwnerId(pod, scope.inv.namespace, FateOf(pod, ShownIn(scope), ParentsIn(scope)))
  }

  /** A drawn workload is the node of the object with its UID. */
  lemma ShownIsTheObject(scope: Scope, uid: string) returns (key: ObjectKey)
    requires Consistent(scope) && uid in ShownIn(scope)
    ensures IsFound(scope, key, uid) && ShownIn(scope)[uid] == NodeId(key.kind, scope.inv.namespace, key.name)
    ensures key.kind == "Job" ==> IsJob(scope.inv, uid, [])
    ensures key.kind != "ReplicaSet"
  {
    hide Draws, IsFound, KindGroup, Identifies, DistinctEntries, SingleOwners, NodeId;
    var draws := Draws(scope.inv);
    ShownMeaning(draws);
    DrawsAreWellDrawn(scope.inv);
    var i :| 0 <= i < |draws| && draws[i].uid == uid && draws[i].owner.node.id == ShownBy(draws)[uid];
    assert draws[i] in draws;
    key := BuiltIn(draws[i].owner.node.kind, draws[i].owner.node.name);
  }

  /** What has owners of its own is not drawn. */
  lemma OwnedIsNotShown(scope: Scope, uid: string, refs: seq<OwnerRef>)
    requires Consistent(scope)
    requires IsReplicaSet(scope.inv, uid, refs) || (IsJob(scope.inv, uid, refs) && refs != [])
    ensures uid !in ShownIn(scope)
  {
    hide ListsMatch, Identifies, SingleOwners, IsFound, ShownIn;
    if uid in ShownIn(scope) {
      var key := ShownIsTheObject(scope, uid);
      if IsReplicaSet(scope.inv, uid, refs) {
        var other := ReplicaSetKey(scope, uid, refs);
        SameUidSameKey(scope, key, other, uid);
      } else {
        var other := JobKey(scope, uid, refs);
        SameUidSameKey(scope, key, other, uid);
      }
    }
  }

  // The walk of the overview

  /** Nothing is above this object in the overview. */
  ghost predicate TopLevel(scope: Scope, uid: string)
    requires Readable(scope.inv)
  {
    uid in ShownIn(scope) || uid !in ParentsIn(scope) || ParentsIn(scope)[uid] == []
  }

  /** The ID the overview uses for the object a walk ends at. */
  lemma EndIsNamed(scope: Scope, ref: OwnerRef)
    requires Consistent(scope) && IsFound(scope, RefKey(ref), ref.uid) && ref.uid in ShownIn(scope)
    ensures ShownIn(scope)[ref.uid] == NodeId(ref.kind, scope.inv.namespace, ref.name)
  {
    hide ListsMatch, Identifies, DistinctEntries, SingleOwners, IsFound, ShownIn, DrawnGroup, ApiGroup, NodeId;
    var key := ShownIsTheObject(scope, ref.uid);
    SameUidSameKey(scope, key, RefKey(ref), ref.uid);
  }

  lemma WalkEndsHere(scope: Scope, ref: OwnerRef, depth: nat)
    requires Consistent(scope) && IsFound(scope, RefKey(ref), ref.uid) && TopLevel(scope, ref.uid) && depth > 0
    ensures var (top, id) := WalkUp(ref, ShownIn(scope), ParentsIn(scope), depth);
            top == ref && (id == "" || id == NodeId(ref.kind, scope.inv.namespace, ref.name))
  {
    hide ListsMatch, Identifies, DistinctEntries, SingleOwners, IsFound, RefKey, ShownIn, ParentsIn, NodeId;
    if ref.uid in ShownIn(scope) {
      EndIsNamed(scope, ref);
    }
  }

  ghost predicate OwnedPod(scope: Scope, pod: Pod)
    requires Readable(scope.inv)
  {
    pod in scope.inv.pods.items && |pod.ownerRefs| == 1
  }

  lemma OwnerOfPodExists(scope: Scope, pod: Pod)
    requires Consistent(scope) && OwnedPod(scope, pod)
    ensures IsFound(scope, RefKey(pod.ownerRefs[0]), pod.ownerRefs[0].uid)
  {
    hide ListsMatch, Identifies, DistinctEntries, IsFound, RefKey;
    var i :| 0 <= i < |scope.inv.pods.items| && scope.inv.pods.items[i] == pod;
  }

  /** The owner of something that is itself owned. */
  lemma NextOwnerExists(scope: Scope, uid: string)
    requires Consistent(scope) && uid in ParentsIn(scope) && ParentsIn(scope)[uid] != []
    ensures |ParentsIn(scope)[uid]| == 1
    ensures IsFound(scope, RefKey(ParentsIn(scope)[uid][0]), ParentsIn(scope)[uid][0].uid)
    ensures uid !in ShownIn(scope)
    ensures IsReplicaSet(scope.inv, uid, ParentsIn(scope)[uid]) || IsJob(scope.inv, uid, ParentsIn(scope)[uid])
  {
    hide ListsMatch, Identifies, DistinctEntries, IsFound, RefKey, ShownIn, Intermediates;
    IntermediateMeaning(scope, uid);
    OwnedIsNotShown(scope, uid, ParentsIn(scope)[uid]);
  }

  /** The next reference of the chain; only meaningful below the top level. */
  function Above(scope: Scope, ref: OwnerRef): OwnerRef
    requires Readable(scope.inv)
  {
    if ref.uid in ParentsIn(scope) && ParentsIn(scope)[ref.uid] != [] then ParentsIn(scope)[ref.uid][0] else ref
  }

  /** A pod whose owner is at the top belongs to that owner. */
  lemma OwnedAtTop(scope: Scope, pod: Pod)
    requires Consistent(scope) && OwnedPod(scope, pod) && TopLevel(scope, pod.ownerRefs[0].uid)
    ensures OverviewOwner(scope, pod) == NodeId(pod.ownerRefs[0].kind, scope.inv.namespace, pod.ownerRefs[0].name)
  {
    hide ListsMatch, Identifies, DistinctEntries, SingleOwners, IsFound, RefKey, ShownIn, ParentsIn, NodeId, WalkUp;
    hide TopLevel;
    var ref := pod.ownerRefs[0];
    OwnerOfPodExists(scope, pod);
    WalkEndsHere(scope, ref, MAX_OWNER_DEPTH);
    assert ControllerRef(pod.ownerRefs) == ref;
  }

  /** A pod whose owner's owner is at the top belongs to that one. */
  lemma OwnedBelowTop(scope: Scope, pod: Pod)
    requires Consistent(scope) && OwnedPod(scope, pod)
    requires !TopLevel(scope, pod.ownerRefs[0].uid) && TopLevel(scope, Above(scope, pod.ownerRefs[0]).uid)
    ensures var top := Above(scope, pod.ownerRefs[0]);
            OverviewOwner(scope, pod) == NodeId(top.kind, scope.inv.namespace, top.name)
  {
    hide ListsMatch, Identifies, DistinctEntries, SingleOwners, IsFound, RefKey, ShownIn, ParentsIn, NodeId;
    var ref := pod.ownerRefs[0];
    var refs := ParentsIn(scope)[ref.uid];
    NextOwnerExists(scope, ref.uid);
    WalkEndsHere(scope, refs[0], MAX_OWNER_DEPTH - 1);
    assert ControllerRef(pod.ownerRefs) == ref && ControllerRef(refs) == refs[0];
  }

  // The drill-down

  /** Opening an object shows something it owns. */
  ghost predicate ShowsOwned(src: ObjectSource, key: ObjectKey, id: string) {
    Drawable(src, key) && Edge(NodeId(key.kind, src.scope.inv.namespace, key.name), id, "owns") in ObjectEdges(src, key)
  }

  /** The pod hangs from an object: in the view of that object, or in the view of a Job drawn there. */
  ghost predicate Reaches(src: ObjectSource, key: ObjectKey, pod: Pod)
    requires Readable(src.scope.inv)
  {
    || ShowsOwned(src, key, PodId(pod))
    || exists i :: 0 <= i < |src.scope.inv.jobs.items| && ReachesThroughJob(src, key, pod, src.scope.inv.jobs.items[i])
  }

  ghost predicate ReachesThroughJob(src: ObjectSource, key: ObjectKey, pod: Pod, job: Job) {
    ShowsOwned(src, key, JobId(src.scope.inv.namespace, job))
        && ShowsOwned(src, BuiltIn("Job", job.workload.name), PodId(pod))
  }

  /** Objects opened as owners can all be drawn from lists that can be read. */
  lemma OwnersAreDrawn(src: ObjectSource, key: ObjectKey)
    requires Consistent(src.scope) && RootOf(src.scope, key).Some? && OwnerView(ViewOfKey(key))
    ensures ViewReadable(src.scope, key) && Drawable(src, key) && ObjectEdges(src, key) == OwnerEdges(src.scope, key)
  {
    hide ListsMatch, Identifies, DistinctEntries, SingleOwners, RootOf, OwnerEdges, ViewFor;
    hide ContainerEdges, BackendEdges, TargetEdges, UseEdges, BackendsOf, EndpointsOf, IngressRoot, OwnsOnlyContainers;
  }

  /** The other views show nothing that a pod or a Job hangs from. */
  lemma OthersOwnNothing(src: ObjectSource, key: ObjectKey, id: string)
    requires !OwnerView(ViewOfKey(key)) && id != "" && id[0] != 'C'
    ensures !ShowsOwned(src, key, id)
  {
    hide OwnerEdges, NodeId, ViewFor, ViewReadable;
    hide ContainerEdges, BackendEdges, TargetEdges, UseEdges, BackendsOf, EndpointsOf, IngressRoot;
  }

  lemma {:induction false} PodEdgesMeaning(rootId: string, pods: seq<Pod>, parents: set<string>, n: nat, e: Edge)
    requires n <= |pods|
    ensures e in PodEdges(rootId, pods, parents, n) <==>
            exists i :: 0 <= i < n && HasParent(pods[i], parents) && e == Edge(rootId, PodId(pods[i]), "owns")
  {
    hide HasParent, PodId;
    if n > 0 { PodEdgesMeaning(rootId, pods, parents, n - 1, e); }
  }

  lemma {:induction false} JobEdgesMeaning(
    rootId: string, namespace: string, jobs: seq<Job>, uid: string, n: nat, e: Edge)
    requires n <= |jobs|
    ensures e in JobEdges(rootId, namespace, jobs, uid, n) <==>
            exists i :: 0 <= i < n && OwnedBy(jobs[i].ownerRefs, uid)
                && e == Edge(rootId, JobId(namespace, jobs[i]), "owns")
  {
    hide OwnedBy, JobId;
    if n > 0 { JobEdgesMeaning(rootId, namespace, jobs, uid, n - 1, e); }
  }

  lemma {:induction false} CollapsedMeaning(items: seq<ReplicaSet>, owner: string, n: nat, uid: string)
    requires n <= |items|
    ensures uid in Collapsed(items, owner, n)
            <==> exists i :: 0 <= i < n && items[i].uid == uid && OwnedBy(items[i].ownerRefs, owner)
  {
    hide OwnedBy;
    if n > 0 { CollapsedMeaning(items, owner, n - 1, uid); }
  }

  lemma PodIdInjective(scope: Scope, a: Pod, b: Pod)
    requires Consistent(scope) && a in scope.inv.pods.items && b in scope.inv.pods.items && PodId(a) == PodId(b)
    ensures a == b
  {
    hide ListsMatch, Identifies, SingleOwners;
    var i :| 0 <= i < |scope.inv.pods.items| && scope.inv.pods.items[i] == a;
    var j :| 0 <= j < |scope.inv.pods.items| && scope.inv.pods.items[j] == b;
    assert Free('/', "Pod");
    NodeIdInjective("Pod", "Pod", scope.inv.namespace, a.name, b.name);
  }

  /** The uid of the object a view is of. */
  function UidOf(scope: Scope, key: ObjectKey): string
    requires RootOf(scope, key).Some?
  {
    RootOf(scope, key).value.uid
  }

  /** A pod edge of a view says that the pod's owner is a parent there. */
  lemma PodEdgeInView(scope: Scope, key: ObjectKey, pod: Pod)
    requires Consistent(scope) && ViewReadable(scope, key) && OwnedPod(scope, pod)
    ensures Edge(NodeId(key.kind, scope.inv.namespace, key.name), PodId(pod), "owns") in OwnerEdges(scope, key)
            <==> pod.ownerRefs[0].uid
                 in ParentUids(ViewFor(key.group, key.kind), UidOf(scope, key), scope.inv.replicaSets)
  {
    hide ListsMatch, Identifies, DistinctEntries, SingleOwners, RootOf, ViewFor, ParentUids, PodId, NodeId;
    var inv, view, uid := scope.inv, ViewFor(key.group, key.kind), UidOf(scope, key);
    var rootId, parents := NodeId(key.kind, inv.namespace, key.name), ParentUids(view, uid, inv.replicaSets);
    var e := Edge(rootId, PodId(pod), "owns");
    PodEdgesMeaning(rootId, inv.pods.items, parents, |inv.pods.items|, e);
    assert HasParent(pod, parents) <==> pod.ownerRefs[0].uid in parents;
    if e in PodEdges(rootId, inv.pods.items, parents, |inv.pods.items|) {
      var i :| 0 <= i < |inv.pods.items| && HasParent(inv.pods.items[i], parents)
          && e == Edge(rootId, PodId(inv.pods.items[i]), "owns");
      PodIdInjective(scope, inv.pods.items[i], pod);
    }
    if DrawsJobs(view) {
      JobEdgesMeaning(rootId, inv.namespace, inv.jobs.items, uid, |inv.jobs.items|, e);
      forall i | 0 <= i < |inv.jobs.items| ensures PodId(pod) != JobId(inv.namespace, inv.jobs.items[i]) {
        JobIsNotPod(scope, inv.jobs.items[i], pod);
      }
    }
  }

  lemma JobIsNotPod(scope: Scope, job: Job, pod: Pod)
    ensures PodId(pod) != JobId(scope.inv.namespace, job)
  {
    assert PodId(pod)[0] == 'P' && JobId(scope.inv.namespace, job)[0] == 'J';
  }

  /** A Job edge of a view says that the view draws Jobs and its object owns this one. */
  lemma JobEdgeInView(scope: Scope, key: ObjectKey, job: Job)
    requires Consistent(scope) && ViewReadable(scope, key) && job in scope.inv.jobs.items
    ensures Edge(NodeId(key.kind, scope.inv.namespace, key.name), JobId(scope.inv.namespace, job), "owns")
            in OwnerEdges(scope, key)
            <==> DrawsJobs(ViewFor(key.group, key.kind)) && OwnedBy(job.ownerRefs, UidOf(scope, key))
  {
    hide ListsMatch, Identifies, DistinctEntries, SingleOwners, RootOf, ViewFor, ParentUids, PodId, NodeId, JobId;
    hide OwnedBy;
    var inv, view, uid := scope.inv, ViewFor(key.group, key.kind), UidOf(scope, key);
    var rootId, parents := NodeId(key.kind, inv.namespace, key.name), ParentUids(view, uid, inv.replicaSets);
    var e := Edge(rootId, JobId(inv.namespace, job), "owns");
    PodEdgesMeaning(rootId, inv.pods.items, parents, |inv.pods.items|, e);
    forall i | 0 <= i < |inv.pods.items| ensures PodId(inv.pods.items[i]) != JobId(inv.namespace, job) {
      JobIsNotPod(scope, job, inv.pods.items[i]);
    }
    if DrawsJobs(view) {
      JobEdgesMeaning(rootId, inv.namespace, inv.jobs.items, uid, |inv.jobs.items|, e);
      forall i | 0 <= i < |inv.jobs.items| && JobId(inv.namespace, inv.jobs.items[i]) == JobId(inv.namespace, job)
        ensures inv.jobs.items[i] == job
      {
        JobIdInjective(scope, inv.jobs.items[i], job);
      }
    }
  }

  lemma JobIdInjective(scope: Scope, a: Job, b: Job)
    requires Consistent(scope) && a in scope.inv.jobs.items && b in scope.inv.jobs.items
    requires JobId(scope.inv.namespace, a) == JobId(scope.inv.namespace, b)
    ensures a == b
  {
    hide Identifies, SingleOwners;
    var i :| 0 <= i < |scope.inv.jobs.items| && scope.inv.jobs.items[i] == a;
    var j :| 0 <= j < |scope.inv.jobs.items| && scope.inv.jobs.items[j] == b;
    assert Free('/', "Job");
    NodeIdInjective("Job", "Job", scope.inv.namespace, a.workload.name, b.workload.name);
    assert IsFound(scope, BuiltIn("Job", a.workload.name), a.workload.uid);
    assert IsFound(scope, BuiltIn("Job", b.workload.name), b.workload.uid);
  }

  // Agreement

  /** The reference is to something the overview looks through, owned by the object with this UID. */
  ghost predicate JustBelow(scope: Scope, ref: OwnerRef, uid: string)
    requires Readable(scope.inv)
  {
    !TopLevel(scope, ref.uid) && Above(scope, ref).uid == uid
  }

  ghost predicate ThroughReplicaSet(scope: Scope, ref: OwnerRef)
    requires Readable(scope.inv)
  {
    ref.uid in ParentsIn(scope) && IsReplicaSet(scope.inv, ref.uid, ParentsIn(scope)[ref.uid])
  }

  ghost predicate ThroughJob(scope: Scope, ref: OwnerRef)
    requires Readable(scope.inv)
  {
    ref.uid in ParentsIn(scope) && IsJob(scope.inv, ref.uid, ParentsIn(scope)[ref.uid])
  }

  /** The owner chains the drill-down can show, by the views of the owners: a pod owned by an object
      whose view has pods of its own, or by a ReplicaSet of one whose view collapses ReplicaSets, or by
      a Job of one whose view draws Jobs. */
  ghost predicate DrillableChain(scope: Scope, pod: Pod)
    requires Readable(scope.inv) && |pod.ownerRefs| == 1
  {
    var ref := pod.ownerRefs[0];
    if TopLevel(scope, ref.uid) then OwnsPodsItself(ViewOfKey(RefKey(ref)))
    else
      var top := Above(scope, ref);
      && TopLevel(scope, top.uid)
      && ((ThroughReplicaSet(scope, ref) && CollapsesReplicaSets(ViewOfKey(RefKey(top))))
          || (ThroughJob(scope, ref) && DrawsJobs(ViewOfKey(RefKey(top)))))
  }

  lemma BelowHasParents(scope: Scope, ref: OwnerRef, uid: string)
    requires Readable(scope.inv) && JustBelow(scope, ref, uid)
    ensures ref.uid in ParentsIn(scope) && ParentsIn(scope)[ref.uid] != []
  {
  }

  /** Being owned, through the reference lists. */
  lemma OwnedMeansBelow(scope: Scope, ref: OwnerRef, refs: seq<OwnerRef>, uid: string)
    requires Consistent(scope)
    requires IsReplicaSet(scope.inv, ref.uid, refs) || (IsJob(scope.inv, ref.uid, refs) && refs != [])
    ensures OwnedBy(refs, uid) <==> JustBelow(scope, ref, uid)
    ensures refs != [] ==> ref.uid in ParentsIn(scope) && ParentsIn(scope)[ref.uid] == refs
  {
    hide ListsMatch, Identifies, DistinctEntries, IsFound, ShownIn, RefKey, Intermediates;
    IntermediateMeaning(scope, ref.uid);
    if refs != [] {
      OwnedIsNotShown(scope, ref.uid, refs);
      NextOwnerExists(scope, ref.uid);
    }
  }

  lemma DirectParents(scope: Scope, key: ObjectKey, ref: OwnerRef)
    requires Consistent(scope) && ViewReadable(scope, key)
    ensures var view, uid := ViewOfKey(key), UidOf(scope, key);
            ref.uid in ParentUids(view, uid, scope.inv.replicaSets) <==>
              (OwnsPodsItself(view) && ref.uid == uid)
              || (CollapsesReplicaSets(view) && ThroughReplicaSet(scope, ref) && JustBelow(scope, ref, uid))
  {
    hide ListsMatch, Identifies, DistinctEntries, SingleOwners, RootOf, ViewFor, OwnedBy, ParentsIn, JustBelow;
    var uid, items := UidOf(scope, key), scope.inv.replicaSets.items;
    CollapsedMeaning(items, uid, |items|, ref.uid);
    if ref.uid in Collapsed(items, uid, |items|) {
      var i :| 0 <= i < |items| && items[i].uid == ref.uid && OwnedBy(items[i].ownerRefs, uid);
      OwnedMeansBelow(scope, ref, items[i].ownerRefs, uid);
      assert items[i].ownerRefs != [] by { OwnedNotEmpty(items[i].ownerRefs, uid); }
    }
    if ThroughReplicaSet(scope, ref) && JustBelow(scope, ref, uid) {
      var i :| 0 <= i < |items| && items[i].uid == ref.uid && items[i].ownerRefs == ParentsIn(scope)[ref.uid];
      OwnedMeansBelow(scope, ref, items[i].ownerRefs, uid);
    }
  }

  lemma OwnedNotEmpty(refs: seq<OwnerRef>, uid: string)
    requires OwnedBy(refs, uid)
    ensures refs != []
  {
  }

  /** The view of a listed Job shows the pods that name it. */
  lemma JobViewShowsItsPods(src: ObjectSource, job: Job, pod: Pod)
    requires Consistent(src.scope) && OwnedPod(src.scope, pod) && job in src.scope.inv.jobs.items
    ensures ShowsOwned(src, BuiltIn("Job", job.workload.name), PodId(pod)) <==> pod.ownerRefs[0].uid == job.workload.uid
  {
    hide Identifies, DistinctEntries, SingleOwners, RootOf, PodId, NodeId, OwnerEdges, ObjectEdges, Drawable;
    var scope := src.scope;
    var i :| 0 <= i < |scope.inv.jobs.items| && scope.inv.jobs.items[i] == job;
    var jobKey := BuiltIn("Job", job.workload.name);
    assert IsFound(scope, jobKey, job.workload.uid);
    assert ViewFor(jobKey.group, jobKey.kind) == JobView;
    hide ViewFor;
    OwnersAreDrawn(src, jobKey);
    PodEdgeInView(scope, jobKey, pod);
  }

  lemma JobReach(src: ObjectSource, key: ObjectKey, pod: Pod)
    requires Consistent(src.scope) && RootOf(src.scope, key).Some? && OwnerView(ViewOfKey(key))
              && OwnedPod(src.scope, pod)
    ensures (exists i :: 0 <= i < |src.scope.inv.jobs.items|
              && ReachesThroughJob(src, key, pod, src.scope.inv.jobs.items[i])) <==>
            var ref := pod.ownerRefs[0];
            DrawsJobs(ViewOfKey(key)) && ThroughJob(src.scope, ref) && JustBelow(src.scope, ref, UidOf(src.scope, key))
  {
    hide ListsMatch, Identifies, DistinctEntries, SingleOwners, RootOf, ViewFor, PodId, NodeId, JobId, OwnerEdges;
    hide OwnedBy, ParentsIn, JustBelow, ObjectEdges, Drawable, ViewReadable;
    var scope := src.scope;
    var uid, ref, jobs := UidOf(scope, key), pod.ownerRefs[0], scope.inv.jobs.items;
    OwnersAreDrawn(src, key);
    if exists i :: 0 <= i < |jobs| && ReachesThroughJob(src, key, pod, jobs[i]) {
      var i :| 0 <= i < |jobs| && ReachesThroughJob(src, key, pod, jobs[i]);
      JobEdgeInView(scope, key, jobs[i]);
      JobViewShowsItsPods(src, jobs[i], pod);
      OwnedNotEmpty(jobs[i].ownerRefs, uid);
      OwnedMeansBelow(scope, ref, jobs[i].ownerRefs, uid);
    }
    if DrawsJobs(ViewOfKey(key)) && ThroughJob(scope, ref) && JustBelow(scope, ref, uid) {
      var i :| 0 <= i < |jobs| && jobs[i].workload.uid == ref.uid && jobs[i].ownerRefs == ParentsIn(scope)[ref.uid];
      BelowHasParents(scope, ref, uid);
      OwnedMeansBelow(scope, ref, jobs[i].ownerRefs, uid);
      JobEdgeInView(scope, key, jobs[i]);
      JobViewShowsItsPods(src, jobs[i], pod);
      assert ReachesThroughJob(src, key, pod, jobs[i]);
    }
  }

  /** Reaching a pod, in terms of its owner chain. */
  lemma ReachMeaning(src: ObjectSource, key: ObjectKey, pod: Pod)
    requires Consistent(src.scope) && RootOf(src.scope, key).Some? && OwnedPod(src.scope, pod)
    ensures var scope := src.scope;
            var view, uid, ref := ViewOfKey(key), UidOf(scope, key), pod.ownerRefs[0];
            Reaches(src, key, pod) <==>
              (OwnsPodsItself(view) && ref.uid == uid)
              || (JustBelow(scope, ref, uid)
                  && ((CollapsesReplicaSets(view) && ThroughReplicaSet(scope, ref))
                      || (DrawsJobs(view) && ThroughJob(scope, ref))))
  {
    hide ListsMatch, Identifies, DistinctEntries, SingleOwners, RootOf, ViewFor, PodId, NodeId, OwnerEdges, ParentsIn;
    hide JustBelow, ParentUids, ThroughJob, ThroughReplicaSet, ObjectEdges, Drawable, ViewReadable, JobId;
    var scope := src.scope;
    if OwnerView(ViewOfKey(key)) {
      OwnersAreDrawn(src, key);
      PodEdgeInView(scope, key, pod);
      DirectParents(scope, key, pod.ownerRefs[0]);
      JobReach(src, key, pod);
    } else {
      IdsOfOwned(scope, pod);
      OthersOwnNothing(src, key, PodId(pod));
      forall i | 0 <= i < |scope.inv.jobs.items| ensures !ReachesThroughJob(src, key, pod, scope.inv.jobs.items[i]) {
        OthersOwnNothing(src, key, JobId(scope.inv.namespace, scope.inv.jobs.items[i]));
      }
    }
  }

  lemma IdsOfOwned(scope: Scope, pod: Pod)
    ensures PodId(pod) != "" && PodId(pod)[0] == 'P'
    ensures forall job :: JobId(scope.inv.namespace, job) != "" && JobId(scope.inv.namespace, job)[0] == 'J'
  {
  }

  /** The object the overview walks up to, if that is no more than one object away.  The ID of its
      node leaves its group out, so another object may be drawn under that ID. */
  ghost function TopKey(scope: Scope, pod: Pod): ObjectKey
    requires Readable(scope.inv) && |pod.ownerRefs| == 1
  {
    var ref := pod.ownerRefs[0];
    if TopLevel(scope, ref.uid) then RefKey(ref) else RefKey(Above(scope, ref))
  }

  lemma RefKeyNames(ref: OwnerRef)
    ensures RefKey(ref).kind == ref.kind && RefKey(ref).name == ref.name
  {
  }

  /** What drilling down reaches, against what the overview says: opening a top-level object of any
      kind (and, where Jobs are drawn, one of its Jobs) leads to a pod if and only if the overview
      attributes the pod to the ID of that object, the walk ended at that object and not at a namesake
      of another group, and the chain of owners is drillable. */
  lemma OverviewAndDrillDownAgree(src: ObjectSource, key: ObjectKey, pod: Pod)
    requires Consistent(src.scope) && RootOf(src.scope, key).Some? && OwnedPod(src.scope, pod)
    requires TopLevel(src.scope, UidOf(src.scope, key))
    ensures Reaches(src, key, pod) <==>
            && OverviewOwner(src.scope, pod) == NodeId(key.kind, src.scope.inv.namespace, key.name)
            && TopKey(src.scope, pod) == key && DrillableChain(src.scope, pod)
  {
    hide ListsMatch, Identifies, DistinctEntries, SingleOwners, RootOf, ViewFor, NodeId, ParentsIn, ShownIn, RefKey;
    hide Reaches, ThroughJob, ThroughReplicaSet, OverviewOwner;
    var scope := src.scope;
    var uid, ref := UidOf(scope, key), pod.ownerRefs[0];
    ReachMeaning(src, key, pod);
    OwnerOfPodExists(scope, pod);
    if TopLevel(scope, ref.uid) {
      OwnedAtTop(scope, pod);
      RefKeyNames(ref);
      if ref.uid == uid {
        SameUidSameKey(scope, RefKey(ref), key, uid);
      }
    } else {
      NextOwnerExists(scope, ref.uid);
      var top := Above(scope, ref);
      RefKeyNames(top);
      if TopLevel(scope, top.uid) {
        OwnedBelowTop(scope, pod);
        if top.uid == uid {
          SameUidSameKey(scope, RefKey(top), key, uid);
        }
      }
    }
  }

  /** So the two agree on an object and a pod exactly if the pod is not the object's in the overview,
      or the walk ended at that very object and the chain of owners is drillable. */
  lemma AgreementIsExact(src: ObjectSource, key: ObjectKey, pod: Pod)
    requires Consistent(src.scope) && RootOf(src.scope, key).Some? && OwnedPod(src.scope, pod)
    requires TopLevel(src.scope, UidOf(src.scope, key))
    ensures var inOverview := OverviewOwner(src.scope, pod) == NodeId(key.kind, src.scope.inv.namespace, key.name);
            (Reaches(src, key, pod) <==> inOverview)
            <==> (inOverview ==> TopKey(src.scope, pod) == key && DrillableChain(src.scope, pod))
  {
    hide Consistent, RootOf, Reaches, OverviewOwner, NodeId, TopKey, DrillableChain, TopLevel, OwnedPod;
    OverviewAndDrillDownAgree(src, key, pod);
  }

  /** No two objects that can be fetched share kind and name, and no kind has a slash. */
  ghost predicate NoNamesakes(scope: Scope) {
    && (forall a, b :: RootOf(scope, a).Some? && RootOf(scope, b).Some? ==>
        a.kind == b.kind && a.name == b.name ==> a == b)
    && (forall a :: RootOf(scope, a).Some? ==> Free('/', a.kind))
  }

  /** Without namesakes the ID is enough: only the chain of owners decides. */
  lemma AgreementWithoutNamesakes(src: ObjectSource, key: ObjectKey, pod: Pod)
    requires Consistent(src.scope) && NoNamesakes(src.scope) && RootOf(src.scope, key).Some?
    requires OwnedPod(src.scope, pod) && TopLevel(src.scope, UidOf(src.scope, key))
    ensures Reaches(src, key, pod) <==>
            && OverviewOwner(src.scope, pod) == NodeId(key.kind, src.scope.inv.namespace, key.name)
            && DrillableChain(src.scope, pod)
  {
    hide ListsMatch, Identifies, DistinctEntries, SingleOwners, RootOf, ViewFor, NodeId, ParentsIn, ShownIn, RefKey;
    hide Reaches, ThroughJob, ThroughReplicaSet, OverviewOwner;
    var scope := src.scope;
    var ref := pod.ownerRefs[0];
    OverviewAndDrillDownAgree(src, key, pod);
    OwnerOfPodExists(scope, pod);
    if TopLevel(scope, ref.uid) {
      OwnedAtTop(scope, pod);
      SameNodeSameKey(scope, ref, key);
    } else {
      NextOwnerExists(scope, ref.uid);
      if TopLevel(scope, Above(scope, ref).uid) {
        OwnedBelowTop(scope, pod);
        SameNodeSameKey(scope, Above(scope, ref), key);
      }
    }
  }

  lemma SameNodeSameKey(scope: Scope, ref: OwnerRef, key: ObjectKey)
    requires NoNamesakes(scope) && RootOf(scope, RefKey(ref)).Some? && RootOf(scope, key).Some?
    ensures NodeId(ref.kind, scope.inv.namespace, ref.name) == NodeId(key.kind, scope.inv.namespace, key.name) ==>
              RefKey(ref) == key
  {
    hide NodeId, RootOf, RefKey;
    RefKeyNames(ref);
    if NodeId(ref.kind, scope.inv.namespace, ref.name) == NodeId(key.kind, scope.inv.namespace, key.name) {
      NodeIdInjective(ref.kind, key.kind, scope.inv.namespace, ref.name, key.name);
    }
  }
}
