/** Namespaces in which the overview draws a pod under an object whose drill-down does not show it,
    because the chain of owners is not one the drill-down can show or because the object only shares
    its ID with the owner, and one in which both show it. */
module MissedPods {
  import opened Agreement
  import opened GenericOwners
  import opened GraphBuilder
  import opened KubeObjects
  import opened ObjectGraph
  import opened ObjectView
  import opened PodAttribution
  import opened Text
  import opened TopOwner
  import opened TopologyGraph
  import opened Wrappers

  /** The overview puts the pod under an object that can be opened, and opening it does not show it. */
  ghost predicate Missed(src: ObjectSource, key: ObjectKey, pod: Pod) {
    && Consistent(src.scope) && OwnedPod(src.scope, pod) && Drawable(src, key)
    && OverviewOwner(src.scope, pod) == NodeId(key.kind, src.scope.inv.namespace, key.name)
    && !Reaches(src, key, pod)
  }

  /** A pod that names an object at the top whose view has no pods of its own is missed. */
  lemma DirectPodsAreMissed(src: ObjectSource, pod: Pod)
    requires Consistent(src.scope) && OwnedPod(src.scope, pod) && TopLevel(src.scope, pod.ownerRefs[0].uid)
    requires Drawable(src, RefKey(pod.ownerRefs[0])) && !OwnsPodsItself(ViewOfKey(RefKey(pod.ownerRefs[0])))
    ensures Missed(src, RefKey(pod.ownerRefs[0]), pod)
  {
    hide Consistent, RootOf, ViewFor, NodeId, RefKey, Drawable, OverviewOwner, Reaches, TopLevel;
    OwnerOfPodExists(src.scope, pod);
    RefKeyNames(pod.ownerRefs[0]);
    OwnedAtTop(src.scope, pod);
    OverviewAndDrillDownAgree(src, RefKey(pod.ownerRefs[0]), pod);
  }

  /** A pod that one object leads to is missed in every other object of that kind and name. */
  lemma NamesakesMissPods(src: ObjectSource, owner: ObjectKey, other: ObjectKey, pod: Pod)
    requires Consistent(src.scope) && OwnedPod(src.scope, pod) && Reaches(src, owner, pod)
    requires RootOf(src.scope, owner).Some? && TopLevel(src.scope, UidOf(src.scope, owner))
    requires RootOf(src.scope, other).Some? && TopLevel(src.scope, UidOf(src.scope, other)) && Drawable(src, other)
    requires owner.kind == other.kind && owner.name == other.name && owner != other
    ensures Missed(src, other, pod)
  {
    hide Consistent, RootOf, NodeId, TopKey, Drawable, OverviewOwner, Reaches, TopLevel, DrillableChain;
    OverviewAndDrillDownAgree(src, owner, pod);
    OverviewAndDrillDownAgree(src, other, pod);
  }

  // Small namespaces: at most one workload the overview lists, and at most one ReplicaSet

  datatype Controller = OfDeployment | OfCronJob | OfJob

  datatype Shop = Shop(
    controller: Controller, workloads: seq<Workload>, replicaSets: seq<ReplicaSet>, pods: seq<Pod>,
    objects: map<ObjectKey, Found>)

  function KindOf(controller: Controller): string {
    match controller
    case OfDeployment => "Deployment"
    case OfCronJob => "CronJob"
    case OfJob => "Job"
  }

  function ViewOf(controller: Controller): View {
    match controller
    case OfDeployment => DeploymentView
    case OfCronJob => CronJobView
    case OfJob => JobView
  }

  function Ownerless(workloads: seq<Workload>): seq<Job> {
    if workloads == [] then [] else [Job(workloads[0], [])]
  }

  function ScopeOf(shop: Shop): (scope: Scope)
    ensures scope.inv.namespace == "shop" && scope.objects == shop.objects
    ensures scope.inv.pods == Items(shop.pods) && scope.inv.replicaSets == Items(shop.replicaSets)
  {
    var none: seq<Workload> := [];
    Scope(
      Inventory(
        "shop", Items(if shop.controller.OfDeployment? then shop.workloads else none), Items([]), Items([]),
        Items(if shop.controller.OfCronJob? then shop.workloads else none),
        Items(if shop.controller.OfJob? then Ownerless(shop.workloads) else []),
        Items(shop.replicaSets), Items([]), Items(shop.pods)),
      shop.objects)
  }

  function SourceOf(shop: Shop): ObjectSource {
    ObjectSource(ScopeOf(shop), map[], map[], Items([]), map[], map[], map[])
  }

  predicate BuiltInView(view: View) {
    OwnerView(view) && !view.GenericView?
  }

  /** Every owner can be fetched, UIDs identify objects, and the one ReplicaSet is among the objects. */
  ghost predicate Fits(shop: Shop) {
    && |shop.workloads| <= 1 && |shop.replicaSets| <= 1
    && (forall a :: a in shop.objects ==> !BuiltInView(ViewOfKey(a)))
    && (forall a, b :: a in shop.objects && b in shop.objects && shop.objects[a].uid == shop.objects[b].uid ==> a == b)
    && (forall a, w :: a in shop.objects && w in shop.workloads ==> shop.objects[a].uid != w.uid)
    && (forall r :: r in shop.replicaSets ==>
          IsFound(ScopeOf(shop), BuiltIn("ReplicaSet", r.name), r.uid) && SingleOwner(ScopeOf(shop), r.ownerRefs))
    && DistinctNames(shop.pods)
    && (forall p :: p in shop.pods ==> p.namespace == "shop" && SingleOwner(ScopeOf(shop), p.ownerRefs))
  }

  function GroupOf(controller: Controller): (group: string)
    ensures group != ""
  {
    if controller.OfDeployment? then "apps" else "batch"
  }

  lemma ControllerIsSpelled(controller: Controller)
    ensures ViewFor(GroupOf(controller), KindOf(controller)) == ViewOf(controller)
  {
    hide ViewFor;
    ViewForMeaning(GroupOf(controller), KindOf(controller));
  }

  lemma ControllerIsBuiltIn(controller: Controller, name: string)
    ensures BuiltIn(KindOf(controller), name) == ObjectKey(GroupOf(controller), KindOf(controller), name)
    ensures Free('/', GroupOf(controller)) && Free('/', KindOf(controller))
  {
  }

  /** The view of a controller opens objects of its group and kind only. */
  lemma ViewIsSpelled(key: ObjectKey, controller: Controller)
    requires ViewOfKey(key) == ViewOf(controller)
    ensures key == BuiltIn(KindOf(controller), key.name)
  {
    hide ViewFor;
    ViewForMeaning(key.group, key.kind);
  }

  /** What Get calls find. */
  lemma Roots(shop: Shop, key: ObjectKey)
    requires |shop.workloads| <= 1
    ensures var view := ViewOfKey(key);
            RootOf(ScopeOf(shop), key) ==
              if view == ViewOf(shop.controller) then FindWorkload(shop.workloads, key.name)
              else if BuiltInView(view) then None
              else if key in shop.objects then Some(shop.objects[key]) else None
    ensures forall w :: w in shop.workloads ==>
              FindWorkload(shop.workloads, key.name)
              == if w.name == key.name then Some(Found(w.uid, w.status)) else None
    ensures shop.workloads == [] ==> FindWorkload(shop.workloads, key.name) == None
  {
    hide ViewFor;
    assert FindWorkload([], key.name) == None && StatefulWorkloads([]) == [] && JobWorkloads([]) == [];
    if shop.workloads != [] {
      assert shop.workloads == [shop.workloads[0]] && shop.workloads[1..] == [];
      assert Ownerless(shop.workloads)[1..] == [];
    }
  }

  lemma DrawsOf(shop: Shop)
    requires |shop.workloads| <= 1
    ensures Readable(ScopeOf(shop).inv)
    ensures Draws(ScopeOf(shop).inv)
            == if shop.workloads == [] then [] else [DrawWorkload(KindOf(shop.controller), "shop", shop.workloads[0])]
  {
    hide DrawWorkload;
    var inv := ScopeOf(shop).inv;
    if shop.workloads != [] {
      assert DrawWorkloads(KindOf(shop.controller), "shop", shop.workloads, 0) == [];
      assert DrawJobs("shop", Ownerless(shop.workloads), 0) == [];
    }
  }

  lemma ShopIsConsistent(shop: Shop)
    requires Fits(shop)
    ensures Consistent(ScopeOf(shop))
  {
    DrawsOf(shop);
    ListsAreMatched(shop);
    UidsIdentify(shop);
    OwnersAreSingle(shop);
    hide ListsMatch, Identifies, SingleOwners, Draws, Fits, ScopeOf;
    EntriesAreDistinct(shop);
  }

  lemma OwnersAreSingle(shop: Shop)
    requires Fits(shop) && Readable(ScopeOf(shop).inv)
    ensures SingleOwners(ScopeOf(shop))
  {
    hide IsFound, RefKey, Draws, DistinctNames;
  }

  lemma EntriesAreDistinct(shop: Shop)
    requires Fits(shop) && Readable(ScopeOf(shop).inv)
    ensures DistinctEntries(ScopeOf(shop).inv)
  {
    hide IsFound, SingleOwner, Draws, DistinctNames;
  }

  lemma WorkloadIsFound(shop: Shop)
    requires |shop.workloads| == 1
    ensures IsFound(ScopeOf(shop), BuiltIn(KindOf(shop.controller), shop.workloads[0].name), shop.workloads[0].uid)
  {
    hide ScopeOf, KindOf, GroupOf, ViewFor, ViewOf, RootOf, FindWorkload;
    var key := BuiltIn(KindOf(shop.controller), shop.workloads[0].name);
    ControllerIsBuiltIn(shop.controller, key.name);
    ControllerIsSpelled(shop.controller);
    Roots(shop, key);
  }

  lemma ListsAreMatched(shop: Shop)
    requires Fits(shop) && Readable(ScopeOf(shop).inv)
    ensures ListsMatch(ScopeOf(shop))
  {
    DrawsOf(shop);
    hide Draws, IsFound, SingleOwner, DistinctNames, BuiltIn;
    if shop.workloads != [] {
      WorkloadIsFound(shop);
    }
  }

  /** Only a workload and the other objects are found. */
  lemma FoundMeaning(shop: Shop, key: ObjectKey, uid: string)
    requires Fits(shop) && IsFound(ScopeOf(shop), key, uid)
    ensures (key in shop.objects && shop.objects[key].uid == uid)
            || (|shop.workloads| == 1 && shop.workloads[0].uid == uid
                && key == BuiltIn(KindOf(shop.controller), shop.workloads[0].name))
  {
    Roots(shop, key);
    if ViewOfKey(key) == ViewOf(shop.controller) {
      ViewIsSpelled(key, shop.controller);
    }
    hide ScopeOf, KindOf, GroupOf, ViewFor, ViewOf, RootOf, FindWorkload, BuiltIn, SingleOwner;
  }

  lemma UidsIdentify(shop: Shop)
    requires Fits(shop)
    ensures Identifies(ScopeOf(shop))
  {
    hide IsFound, BuiltIn, KindOf, SingleOwner;
    forall a, b, uid | IsFound(ScopeOf(shop), a, uid) && IsFound(ScopeOf(shop), b, uid) ensures a == b {
      FoundMeaning(shop, a, uid);
      FoundMeaning(shop, b, uid);
    }
  }

  lemma ParentsOf(shop: Shop)
    requires |shop.workloads| <= 1 && |shop.replicaSets| <= 1 && Readable(ScopeOf(shop).inv)
    ensures ParentsIn(ScopeOf(shop))
            == if shop.replicaSets == [] then map[] else map[shop.replicaSets[0].uid := shop.replicaSets[0].ownerRefs]
  {
    var jobs := ScopeOf(shop).inv.jobs.items;
    assert JobParents(jobs, 0) == map[] && JobParents(jobs, |jobs|) == map[];
    assert ReplicaSetParents(map[], shop.replicaSets, 0) == map[];
  }

  /** Nothing is above what is no ReplicaSet. */
  lemma StandsAtTop(shop: Shop, uid: string)
    requires Fits(shop) && forall r :: r in shop.replicaSets ==> r.uid != uid
    ensures Readable(ScopeOf(shop).inv) && TopLevel(ScopeOf(shop), uid)
  {
    DrawsOf(shop);
    ParentsOf(shop);
    hide Fits, ScopeOf, Draws, ShownIn, ParentsIn;
  }

  function BareSpec(): PodSpec {
    PodSpec("", "", [], [], [], [])
  }

  function RunningPod(name: string, refs: seq<OwnerRef>): Pod {
    Pod("shop", name, map[], refs, BareSpec(), "Running", [], false)
  }

  function BareWorkload(uid: string, name: string): Workload {
    Workload(uid, name, Healthy, map[], BareSpec())
  }

  /** The API group of "group/v1". */
  lemma RefOf(uid: string, group: string, kind: string, name: string)
    requires Free('/', group) && group != ""
    ensures RefKey(OwnerRef(uid, kind, group + "/v1", name, true)) == ObjectKey(group, kind, name)
  {
    assert group + "/v1" == group + "/" + "v1" && '/' !in "v1";
    SplitAtFirst(group, "v1", '/');
    SplitWhole("v1", '/');
  }

  // A controller named directly

  function DirectPod(controller: Controller): Pod {
    RunningPod("web-1", [OwnerRef("u", KindOf(controller), GroupOf(controller) + "/v1", "web", true)])
  }

  function DirectShop(controller: Controller): Shop {
    Shop(controller, [BareWorkload("u", "web")], [], [DirectPod(controller)], map[])
  }

  lemma DirectShopFits(controller: Controller)
    ensures Fits(DirectShop(controller))
    ensures RefKey(DirectPod(controller).ownerRefs[0]) == BuiltIn(KindOf(controller), "web")
  {
    hide ScopeOf, KindOf, GroupOf, RefKey, IsFound;
    ControllerIsBuiltIn(controller, "web");
    RefOf("u", GroupOf(controller), KindOf(controller), "web");
    WorkloadIsFound(DirectShop(controller));
  }

  /** A pod that names a Deployment or a CronJob itself: the view of a Deployment only collects the pods
      of its ReplicaSets, and that of a CronJob its Jobs. */
  lemma DirectlyOwnedPodIsMissed(controller: Controller)
    requires !controller.OfJob?
    ensures Missed(SourceOf(DirectShop(controller)), BuiltIn(KindOf(controller), "web"), DirectPod(controller))
  {
    hide ScopeOf, Fits, KindOf, GroupOf, RefKey, IsFound, BuiltIn, Missed, TopLevel, Consistent, Drawable;
    var shop := DirectShop(controller);
    DirectShopFits(controller);
    ShopIsConsistent(shop);
    StandsAtTop(shop, "u");
    ControllerViewIsDrawable(shop);
    assert DirectPod(controller) in shop.pods;
    DirectPodsAreMissed(SourceOf(shop), DirectPod(controller));
  }

  lemma ControllerViewIsDrawable(shop: Shop)
    requires |shop.workloads| == 1
    ensures var key := BuiltIn(KindOf(shop.controller), shop.workloads[0].name);
            Drawable(SourceOf(shop), key) && ViewOfKey(key) == ViewOf(shop.controller)
  {
    ControllerIsBuiltIn(shop.controller, shop.workloads[0].name);
    ControllerIsSpelled(shop.controller);
    WorkloadIsFound(shop);
    hide ViewFor, RootOf, KindOf, GroupOf;
  }

  // A pod that owns pods

  const DRIVER_KEY := ObjectKey("", "Pod", "driver")

  function Driver(): Pod {
    RunningPod("driver", [])
  }

  function Executor(name: string): Pod {
    RunningPod(name, [OwnerRef("u", "Pod", "v1", "driver", true)])
  }

  function DriverShop(): Shop {
    Shop(OfJob, [], [], [Driver(), Executor("executor-1"), Executor("executor-2")],
      map[DRIVER_KEY := Found("u", Healthy)])
  }

  function DriverSource(): ObjectSource {
    SourceOf(DriverShop()).(pods := map["driver" := PodDetail(Driver(), [])])
  }

  lemma DriverIsSpelled(name: string)
    ensures ViewOfKey(DRIVER_KEY) == PodView && RefKey(Executor(name).ownerRefs[0]) == DRIVER_KEY
  {
    assert Free('/', "v1");
    SplitWhole("v1", '/');
  }

  lemma DriverShopFits()
    ensures Fits(DriverShop()) && IsFound(ScopeOf(DriverShop()), DRIVER_KEY, "u")
  {
    hide ScopeOf, RefKey, RootOf, ViewFor;
    DriverIsSpelled("executor-1");
    DriverIsSpelled("executor-2");
    Roots(DriverShop(), DRIVER_KEY);
  }

  /** Pods owned by a pod, as the executors of a Spark driver are: the view of a pod only shows its
      containers. */
  lemma ExecutorsAreMissed(name: string)
    requires name == "executor-1" || name == "executor-2"
    ensures Missed(DriverSource(), DRIVER_KEY, Executor(name))
  {
    hide ScopeOf, Fits, RefKey, IsFound, Missed, TopLevel, Consistent, RootOf, ViewFor;
    DriverShopFits();
    ShopIsConsistent(DriverShop());
    StandsAtTop(DriverShop(), "u");
    DriverIsSpelled(name);
    DirectPodsAreMissed(DriverSource(), Executor(name));
  }

  /** The driver stands for itself, and its executors are attributed through its reference. */
  lemma DriverFates()
    ensures Readable(ScopeOf(DriverShop()).inv)
    ensures var fates := FatesIn(ScopeOf(DriverShop()).inv);
            && |fates| == 3 && fates[0] == Bare
            && fates[1] == OfGeneric(Executor("").ownerRefs[0]) && fates[2] == fates[1]
  {
    DrawsOf(DriverShop());
    ParentsOf(DriverShop());
    hide ScopeOf, Draws, ParentsIn, FatesIn, FateOf;
    FatesOf(DriverShop());
    ExecutorFate("executor-1");
    ExecutorFate("executor-2");
    DriverFate();
  }

  lemma FatesOf(shop: Shop)
    requires Readable(ScopeOf(shop).inv) && Draws(ScopeOf(shop).inv) == []
    ensures forall i :: 0 <= i < |shop.pods| ==>
              FatesIn(ScopeOf(shop).inv)[i] == FateOf(shop.pods[i], map[], ParentsIn(ScopeOf(shop)))
  {
    hide ScopeOf, Draws, FateOf;
  }

  lemma DriverFate()
    ensures FateOf(Driver(), map[], map[]) == Bare
  {
  }

  lemma ExecutorFate(name: string)
    ensures FateOf(Executor(name), map[], map[]) == OfGeneric(Executor("").ownerRefs[0])
  {
    assert ControllerRef(Executor(name).ownerRefs) == Executor("").ownerRefs[0];
  }

  /** In the overview of that namespace the driver stands in the place of the owner of its two executors:
      their number does not show. */
  lemma DriverHidesItsExecutors(nodes: seq<Node>) returns (k: nat)
    requires Readable(ScopeOf(DriverShop()).inv) && DistinctNodes(nodes)
    requires OwnersShown(nodes, Attributed(ScopeOf(DriverShop()).inv).owners)
    ensures var inv, id := ScopeOf(DriverShop()).inv, NodeId("Pod", "shop", "driver");
            && GenericCount(inv.namespace, FatesIn(inv), |inv.pods.items|, id) == 2
            && k < |nodes| && nodes[k].id == id && nodes[k].weight == 1
  {
    var inv, id := ScopeOf(DriverShop()).inv, NodeId("Pod", "shop", "driver");
    var pods, fates := inv.pods.items, FatesIn(inv);
    DriverFates();
    hide ScopeOf, NodeId, FatesIn, Attributed, OwnersShown, DistinctNodes, Draws;
    assert Through("shop", fates[1], id) && !Through("shop", fates[0], id) && BareAs(pods[0], fates[0], id);
    assert GenericCount("shop", fates, 0, id) == 0;
    assert GenericCount("shop", fates, 1, id) == 0;
    assert GenericCount("shop", fates, 2, id) == 1;
    assert GenericCount("shop", fates, 3, id) == 2;
    k := GenericOwnerIsShown(inv, nodes, id);
    assert !ComesFirst(inv, id) by {
      assert forall p :: 0 < p < 3 ==> BareAmong(pods, fates, p, id);
    }
  }

  // Two objects of one kind and name

  const VOLCANO_KEY := ObjectKey("batch.volcano.sh", "Job", "train")

  function VolcanoPod(): Pod {
    RunningPod("train-1", [OwnerRef("v", "Job", VOLCANO_KEY.group + "/v1", "train", true)])
  }

  function VolcanoShop(): Shop {
    Shop(OfJob, [BareWorkload("u", "train")], [], [VolcanoPod()], map[VOLCANO_KEY := Found("v", Healthy)])
  }

  lemma VolcanoRef()
    ensures RefKey(VolcanoPod().ownerRefs[0]) == VOLCANO_KEY
  {
    hide RefKey;
    RefOf("v", VOLCANO_KEY.group, "Job", "train");
  }

  lemma VolcanoIsGeneric()
    ensures ViewOfKey(VOLCANO_KEY) == GenericView
  {
    hide ViewFor;
    ViewForMeaning(VOLCANO_KEY.group, VOLCANO_KEY.kind);
  }

  lemma VolcanoShopFits()
    ensures Fits(VolcanoShop()) && IsFound(ScopeOf(VolcanoShop()), VOLCANO_KEY, "v")
  {
    hide ScopeOf, RefKey, RootOf, ViewFor;
    VolcanoRef();
    VolcanoIsGeneric();
    Roots(VolcanoShop(), VOLCANO_KEY);
  }

  /** The pod of a Job of another group than "batch" is drawn under the batch Job of that name, which
      does not lead to it; the Job that owns the pod does. */
  lemma PodOfNamesakeIsMissed()
    ensures Missed(SourceOf(VolcanoShop()), BuiltIn("Job", "train"), VolcanoPod())
    ensures Reaches(SourceOf(VolcanoShop()), VOLCANO_KEY, VolcanoPod())
    ensures DrillableChain(ScopeOf(VolcanoShop()), VolcanoPod())
  {
    hide ScopeOf, Fits, RefKey, Missed, TopLevel, Consistent, ViewFor, RootOf, KindGroup, Drawable, Reaches;
    hide OverviewOwner;
    var shop, src := VolcanoShop(), SourceOf(VolcanoShop());
    VolcanoShopFits();
    VolcanoRef();
    VolcanoIsGeneric();
    ShopIsConsistent(shop);
    StandsAtTop(shop, "u");
    StandsAtTop(shop, "v");
    ControllerViewIsDrawable(shop);
    WorkloadIsFound(shop);
    OwnedAtTop(src.scope, VolcanoPod());
    OverviewAndDrillDownAgree(src, VOLCANO_KEY, VolcanoPod());
    NamesakesMissPods(src, VOLCANO_KEY, BuiltIn("Job", "train"), VolcanoPod());
  }

  // A Deployment, its ReplicaSet, and a pod of that

  function WebPod(): Pod {
    RunningPod("web-1", [OwnerRef("r", "ReplicaSet", "apps" + "/v1", "web-set", true)])
  }

  function WebShop(): Shop {
    var replicas := ReplicaSet("r", "web-set", [OwnerRef("u", "Deployment", "apps" + "/v1", "web", true)]);
    Shop(OfDeployment, [BareWorkload("u", "web")], [replicas], [WebPod()],
      map[BuiltIn("ReplicaSet", "web-set") := Found("r", Healthy)])
  }

  /** What both algorithms are made for: the pod is the Deployment's in the overview and in its view. */
  lemma PodOfDeploymentIsReached()
    ensures Consistent(ScopeOf(WebShop())) && OwnedPod(ScopeOf(WebShop()), WebPod())
    ensures OverviewOwner(ScopeOf(WebShop()), WebPod()) == NodeId("Deployment", "shop", "web")
    ensures Reaches(SourceOf(WebShop()), BuiltIn("Deployment", "web"), WebPod())
  {
    hide ScopeOf, Fits, RefKey, Consistent, ViewFor, RootOf, KindGroup, Reaches, OverviewOwner, Draws, ParentsIn;
    var shop, src := WebShop(), SourceOf(WebShop());
    WebShopFits();
    ShopIsConsistent(shop);
    StandsAtTop(shop, "u");
    DrawsOf(shop);
    ParentsOf(shop);
    WebIsSpelled();
    ControllerViewIsDrawable(shop);
    WorkloadIsFound(shop);
    assert WebPod() in shop.pods && ThroughReplicaSet(src.scope, WebPod().ownerRefs[0]) by {
      assert IsReplicaSet(src.scope.inv, "r", shop.replicaSets[0].ownerRefs);
    }
    OwnedBelowTop(src.scope, WebPod());
    OverviewAndDrillDownAgree(src, BuiltIn("Deployment", "web"), WebPod());
  }

  lemma WebIsSpelled()
    ensures RefKey(WebShop().replicaSets[0].ownerRefs[0]) == BuiltIn("Deployment", "web")
    ensures RefKey(WebPod().ownerRefs[0]) == BuiltIn("ReplicaSet", "web-set")
  {
    hide RefKey;
    assert Free('/', "apps");
    RefOf("u", "apps", "Deployment", "web");
    RefOf("r", "apps", "ReplicaSet", "web-set");
  }

  lemma ReplicaSetIsGeneric()
    ensures ViewFor("apps", "ReplicaSet") == GenericView
  {
    hide ViewFor;
    ViewForMeaning("apps", "ReplicaSet");
  }

  lemma WebShopFits()
    ensures Fits(WebShop())
  {
    hide ScopeOf, RefKey, RootOf, ViewFor;
    WebIsSpelled();
    ReplicaSetIsGeneric();
    WorkloadIsFound(WebShop());
    Roots(WebShop(), BuiltIn("ReplicaSet", "web-set"));
  }
}
