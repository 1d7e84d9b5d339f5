/** What listPodOwners of kube_pod_owners.go computes, on values: every pod of a namespace is
    attributed to the top-level object that controls it. */
module PodAttribution {
  import opened GraphBuilder
  import opened KubeObjects
  import opened KubeStatus
  import opened Seqs
  import Text
  import opened TopologyGraph
  import opened TopOwner

  /** podTemplateOwner: anything at namespace level that runs pods. */
  datatype Owner = Owner(node: Node, labels: Labels, spec: PodSpec, claimPrefixes: seq<string>)

  // Drawn workloads

  datatype Drawn = Drawn(uid: string, owner: Owner)

  function DrawWorkload(kind: string, namespace: string, w: Workload): Drawn {
    Drawn(w.uid, Owner(Plain(kind, namespace, w.name, w.status, true, 1), w.labels, w.spec, []))
  }

  function DrawWorkloads(kind: string, namespace: string, items: seq<Workload>, n: nat): (r: seq<Drawn>)
    requires n <= |items|
    ensures |r| == n
  {
    if n == 0 then [] else DrawWorkloads(kind, namespace, items, n - 1) + [DrawWorkload(kind, namespace, items[n - 1])]
  }

  /** The claims of a StatefulSet are named after its claim templates. */
  function ClaimPrefixes(templates: seq<string>, name: string, n: nat): seq<string>
    requires n <= |templates|
  {
    if n == 0 then [] else ClaimPrefixes(templates, name, n - 1) + [templates[n - 1] + "-" + name + "-"]
  }

  function DrawStatefulSet(namespace: string, s: StatefulSet): Drawn {
    var d := DrawWorkload("StatefulSet", namespace, s.workload);
    d.(owner := d.owner.(claimPrefixes := ClaimPrefixes(s.claimTemplates, s.workload.name, |s.claimTemplates|)))
  }

  function DrawStatefulSets(namespace: string, items: seq<StatefulSet>, n: nat): (r: seq<Drawn>)
    requires n <= |items|
    ensures |r| == n
  {
    if n == 0 then [] else DrawStatefulSets(namespace, items, n - 1) + [DrawStatefulSet(namespace, items[n - 1])]
  }

  /** A Job something else created is not drawn. */
  function DrawJobs(namespace: string, items: seq<Job>, n: nat): seq<Drawn>
    requires n <= |items|
  {
    if n == 0 then []
    else if items[n - 1].ownerRefs != [] then DrawJobs(namespace, items, n - 1)
    else DrawJobs(namespace, items, n - 1) + [DrawWorkload("Job", namespace, items[n - 1].workload)]
  }

  function DrawControllers(namespace: string, items: seq<ReplicationController>, n: nat): seq<Drawn>
    requires n <= |items|
  {
    if n == 0 then []
    else if !items[n - 1].hasTemplate then DrawControllers(namespace, items, n - 1)
    else DrawControllers(namespace, items, n - 1)
         + [DrawWorkload("ReplicationController", namespace, items[n - 1].workload)]
  }

  /** Lists that cannot be read make the view fail, except for ReplicationControllers. */
  predicate WorkloadsReadable(inv: Inventory) {
    && inv.deployments.Items? && inv.statefulSets.Items? && inv.daemonSets.Items? && inv.cronJobs.Items?
    && inv.jobs.Items? && inv.replicaSets.Items? && !inv.replicationControllers.Failed?
  }

  predicate Readable(inv: Inventory) {
    WorkloadsReadable(inv) && inv.pods.Items?
  }

  function Controllers(inv: Inventory): seq<ReplicationController> {
    if inv.replicationControllers.Items? then inv.replicationControllers.items else []
  }

  function Draws(inv: Inventory): seq<Drawn>
    requires WorkloadsReadable(inv)
  {
    var ns := inv.namespace;
    DrawWorkloads("Deployment", ns, inv.deployments.items, |inv.deployments.items|)
    + DrawStatefulSets(ns, inv.statefulSets.items, |inv.statefulSets.items|)
    + DrawWorkloads("DaemonSet", ns, inv.daemonSets.items, |inv.daemonSets.items|)
    + DrawWorkloads("CronJob", ns, inv.cronJobs.items, |inv.cronJobs.items|)
    + DrawJobs(ns, inv.jobs.items, |inv.jobs.items|)
    + DrawControllers(ns, Controllers(inv), |Controllers(inv)|)
  }

  function Owners(draws: seq<Drawn>): (r: seq<Owner>)
    ensures |r| == |draws|
    ensures forall i :: 0 <= i < |draws| ==> r[i] == draws[i].owner
  {
    if draws == [] then [] else Owners(draws[..|draws| - 1]) + [draws[|draws| - 1].owner]
  }

  function ShownBy(draws: seq<Drawn>): Shown {
    if draws == [] then map[]
    else
      var last := draws[|draws| - 1];
      ShownBy(draws[..|draws| - 1])[last.uid := last.owner.node.id]
  }

  lemma {:induction false} ShownMeaning(draws: seq<Drawn>)
    ensures forall i :: 0 <= i < |draws| ==> draws[i].uid in ShownBy(draws)
    ensures forall uid :: uid in ShownBy(draws) ==>
              exists i :: 0 <= i < |draws| && draws[i].uid == uid && draws[i].owner.node.id == ShownBy(draws)[uid]
  {
    if draws != [] {
      ShownMeaning(draws[..|draws| - 1]);
    }
  }

  lemma DrawOneMore(draws: seq<Drawn>, d: Drawn)
    ensures Owners(draws + [d]) == Owners(draws) + [d.owner]
    ensures ShownBy(draws + [d]) == ShownBy(draws)[d.uid := d.owner.node.id]
  {
    TakeDrop(draws, [d]);
  }

  function JobParents(items: seq<Job>, n: nat): Intermediate
    requires n <= |items|
  {
    if n == 0 then map[]
    else if items[n - 1].ownerRefs == [] then JobParents(items, n - 1)
    else JobParents(items, n - 1)[items[n - 1].workload.uid := items[n - 1].ownerRefs]
  }

  function ReplicaSetParents(jobs: Intermediate, items: seq<ReplicaSet>, n: nat): Intermediate
    requires n <= |items|
  {
    if n == 0 then jobs else ReplicaSetParents(jobs, items, n - 1)[items[n - 1].uid := items[n - 1].ownerRefs]
  }

  function Intermediates(inv: Inventory): Intermediate
    requires inv.jobs.Items? && inv.replicaSets.Items?
  {
    ReplicaSetParents(JobParents(inv.jobs.items, |inv.jobs.items|), inv.replicaSets.items, |inv.replicaSets.items|)
  }

  // Pods

  function PodNode(pod: Pod, group: string): (n: Node)
    ensures n.id == NodeId("Pod", pod.namespace, pod.name) && n.group == group
  {
    Node(NodeId("Pod", pod.namespace, pod.name), "Pod", "", pod.name, pod.namespace, PodStatus(pod), true, group, 1, 0)
  }

  /** schema.ParseGroupVersion: the part before the only slash; anything else has no group. */
  function ApiGroup(apiVersion: string): string {
    var pieces := Text.Split(apiVersion, '/');
    if |pieces| == 2 then pieces[0] else ""
  }

  /** Only what stands before a single slash is a group. */
  lemma ApiGroupMeaning(apiVersion: string, group: string)
    requires group != ""
    ensures ApiGroup(apiVersion) == group
            <==> Text.Free('/', group) && exists version :: Text.Free('/', version)
                                            && apiVersion == group + "/" + version
  {
    var pieces := Text.Split(apiVersion, '/');
    Text.JoinInvertsSplit(apiVersion, '/');
    if ApiGroup(apiVersion) == group {
      assert pieces == [group, pieces[1]] && pieces[1..] == [pieces[1]];
      assert Text.Join(pieces, '/') == group + ['/'] + pieces[1];
      assert pieces[0] in pieces && pieces[1] in pieces;
    }
    if version :| Text.Free('/', group) && Text.Free('/', version) && apiVersion == group + "/" + version {
      Text.SplitAtFirst(group, version, '/');
      Text.SplitWhole(version, '/');
      assert pieces == [group, version];
    }
  }

  /** Where a pod goes: it stands for itself, belongs to a drawn workload, or to another object. */
  datatype Fate = Bare | OfWorkload(id: string) | OfGeneric(top: OwnerRef)

  function FateOf(pod: Pod, shown: Shown, intermediate: Intermediate): Fate {
    if pod.ownerRefs == [] then Bare
    else
      var (top, id) := Top(pod.ownerRefs, shown, intermediate);
      if id != "" then OfWorkload(id) else OfGeneric(top)
  }

  function OwnerId(pod: Pod, namespace: string, fate: Fate): string {
    match fate
    case Bare => NodeId("Pod", pod.namespace, pod.name)
    case OfWorkload(id) => id
    case OfGeneric(top) => NodeId(top.kind, namespace, top.name)
  }

  /** A generic owner before any pod was counted for it. */
  function GenericOwner(namespace: string, top: OwnerRef, pod: Pod): Owner {
    var id := NodeId(top.kind, namespace, top.name);
    Owner(Node(id, top.kind, ApiGroup(top.apiVersion), top.name, namespace, Idle, true, "", 0, 0),
        pod.labels, pod.spec, [])
  }

  function Bumped(node: Node, status: Status): Node {
    node.(status := WorstStatus(node.status, status), weight := node.weight + 1)
  }

  /** The owners so far, which of them are generic (by ID), and the owner of each pod by its name. */
  datatype Book = Book(owners: seq<Owner>, generic: map<string, nat>, podOwner: map<string, string>) {
    ghost predicate Valid() {
      && (forall id :: id in generic ==> generic[id] < |owners| && owners[generic[id]].node.id == id)
      && (forall a, b :: a in generic && b in generic && generic[a] == generic[b] ==> a == b)
    }
  }

  function WithGeneric(book: Book, namespace: string, top: OwnerRef, pod: Pod): (r: Book)
    ensures NodeId(top.kind, namespace, top.name) in r.generic
    ensures book.Valid() ==> r.Valid()
  {
    var id := NodeId(top.kind, namespace, top.name);
    if id in book.generic then book
    else book.(owners := book.owners + [GenericOwner(namespace, top, pod)],
               generic := book.generic[id := |book.owners|])
  }

  /** What listPodOwners does with one pod. */
  function Record(book: Book, namespace: string, pod: Pod, fate: Fate): (r: Book)
    requires book.Valid()
    ensures r.Valid()
    ensures r.podOwner == book.podOwner[pod.name := OwnerId(pod, namespace, fate)]
  {
    var id := OwnerId(pod, namespace, fate);
    match fate
    case Bare =>
      book.(owners := book.owners + [Owner(PodNode(pod, ""), pod.labels, pod.spec, [])],
          podOwner := book.podOwner[pod.name := id])
    case OfWorkload(_) => book.(podOwner := book.podOwner[pod.name := id])
    case OfGeneric(top) =>
      var with := WithGeneric(book, namespace, top, pod);
      var owner := with.owners[with.generic[id]];
      with.(owners := with.owners[with.generic[id] := owner.(node := Bumped(owner.node, PodStatus(pod)))],
            podOwner := book.podOwner[pod.name := id])
  }

  function Fates(pods: seq<Pod>, shown: Shown, intermediate: Intermediate): (r: seq<Fate>)
    ensures |r| == |pods| && forall i :: 0 <= i < |pods| ==> r[i] == FateOf(pods[i], shown, intermediate)
  {
    if pods == [] then [] else [FateOf(pods[0], shown, intermediate)] + Fates(pods[1..], shown, intermediate)
  }

  /** The book after the first n pods. */
  function RecordAll(first: Book, namespace: string, pods: seq<Pod>, fates: seq<Fate>, n: nat): (r: Book)
    requires first.Valid() && n <= |pods| == |fates|
    ensures r.Valid()
  {
    if n == 0 then first
    else Record(RecordAll(first, namespace, pods, fates, n - 1), namespace, pods[n - 1], fates[n - 1])
  }

  function FirstBook(owners: seq<Owner>): (book: Book)
    ensures book.Valid()
  {
    Book(owners, map[], map[])
  }

  function FatesIn(inv: Inventory): (r: seq<Fate>)
    requires Readable(inv)
    ensures |r| == |inv.pods.items|
  {
    Fates(inv.pods.items, ShownBy(Draws(inv)), Intermediates(inv))
  }

  /** The result of listPodOwners on lists that can be read. */
  function Attributed(inv: Inventory): (book: Book)
    requires Readable(inv)
    ensures book.Valid()
  {
    RecordAll(FirstBook(Owners(Draws(inv))), inv.namespace, inv.pods.items, FatesIn(inv), |inv.pods.items|)
  }

  // One entry per pod

  ghost predicate DistinctNames(pods: seq<Pod>) {
    forall i, j :: 0 <= i < j < |pods| ==> pods[i].name != pods[j].name
  }

  /** The entries the first n pods write. */
  ghost function Entries(namespace: string, pods: seq<Pod>, fates: seq<Fate>, n: nat): map<string, string>
    requires n <= |pods| == |fates|
  {
    if n == 0 then map[]
    else Entries(namespace, pods, fates, n - 1)[pods[n - 1].name := OwnerId(pods[n - 1], namespace, fates[n - 1])]
  }

  lemma {:induction false} EntriesOfRecordAll(first: Book, namespace: string, pods: seq<Pod>, fates: seq<Fate>, n: nat)
    requires first.Valid() && first.podOwner == map[] && n <= |pods| == |fates|
    ensures RecordAll(first, namespace, pods, fates, n).podOwner == Entries(namespace, pods, fates, n)
  {
    hide OwnerId;
    if n > 0 {
      EntriesOfRecordAll(first, namespace, pods, fates, n - 1);
    }
  }

  lemma {:induction false} EntriesMeaning(namespace: string, pods: seq<Pod>, fates: seq<Fate>, n: nat)
    requires n <= |pods| == |fates| && DistinctNames(pods)
    ensures forall name :: name in Entries(namespace, pods, fates, n)
              <==> exists i :: 0 <= i < n && pods[i].name == name
    ensures forall i :: 0 <= i < n ==>
              Entries(namespace, pods, fates, n)[pods[i].name] == OwnerId(pods[i], namespace, fates[i])
  {
    hide OwnerId;
    if n > 0 {
      EntriesMeaning(namespace, pods, fates, n - 1);
    }
  }

  /** Every pod of a namespace, where names are distinct, has exactly one entry: the ID of the owner
      its references lead to. */
  lemma EveryPodHasItsEntry(inv: Inventory)
    requires Readable(inv) && DistinctNames(inv.pods.items)
    ensures forall name :: name in Attributed(inv).podOwner
              <==> exists i :: 0 <= i < |inv.pods.items| && inv.pods.items[i].name == name
    ensures forall i :: 0 <= i < |inv.pods.items| ==>
              Attributed(inv).podOwner[inv.pods.items[i].name]
                  == OwnerId(inv.pods.items[i], inv.namespace, FatesIn(inv)[i])
  {
    var fates := FatesIn(inv);
    AttributedEntries(inv, fates);
    EntriesMeaning(inv.namespace, inv.pods.items, fates, |fates|);
  }

  lemma AttributedEntries(inv: Inventory, fates: seq<Fate>)
    requires Readable(inv) && fates == FatesIn(inv)
    ensures Attributed(inv).podOwner == Entries(inv.namespace, inv.pods.items, fates, |fates|)
  {
    EntriesOfRecordAll(FirstBook(Owners(Draws(inv))), inv.namespace, inv.pods.items, fates, |fates|);
  }

  ghost predicate IsAttributed(inv: Inventory, pod: Pod, id: string)
    requires Readable(inv)
  {
    pod.name in Attributed(inv).podOwner && Attributed(inv).podOwner[pod.name] == id
  }

  /** Nothing is above what this reference names. */
  ghost predicate IsTop(inv: Inventory, ref: OwnerRef)
    requires Readable(inv)
  {
    ref.uid in Intermediates(inv) ==> Intermediates(inv)[ref.uid] == []
  }

  lemma ShownIdsAreNotEmpty(inv: Inventory)
    requires Readable(inv)
    ensures forall uid :: uid in ShownBy(Draws(inv)) ==> ShownBy(Draws(inv))[uid] != ""
  {
    hide Draws;
    ShownMeaning(Draws(inv));
    DrawsAreWellDrawn(inv);
    assert forall i :: 0 <= i < |Draws(inv)| ==> Draws(inv)[i] in Draws(inv);
  }

  /** The owner of a pod, told by the way up from its references: the first drawn workload among five of
      them or, where there is none, the object the way ends at. */
  lemma PodGoesUp(inv: Inventory, pod: Pod, path: seq<OwnerRef>)
    requires Readable(inv) && DistinctNames(inv.pods.items) && pod in inv.pods.items && pod.ownerRefs != []
    requires Climbs(pod.ownerRefs, Intermediates(inv), path) && Undrawn(path, ShownBy(Draws(inv))) && |path| <= 6
    ensures var last, shown := path[|path| - 1], ShownBy(Draws(inv));
            && (|path| <= 5 && last.uid in shown ==> IsAttributed(inv, pod, shown[last.uid]))
            && (|path| == 6 || (last.uid !in shown && IsTop(inv, last)) ==>
                  IsAttributed(inv, pod, NodeId(last.kind, inv.namespace, last.name)))
  {
    hide Attributed, ShownBy, Draws, Intermediates, NodeId, Climbs, WalkUp;
    var p :| 0 <= p < |inv.pods.items| && inv.pods.items[p] == pod;
    EveryPodHasItsEntry(inv);
    ShownIdsAreNotEmpty(inv);
    ClimbMeaning(pod.ownerRefs, ShownBy(Draws(inv)), Intermediates(inv), path);
  }

  /** A pod without references stands for itself. */
  lemma BarePodIsItsOwn(inv: Inventory, pod: Pod)
    requires Readable(inv) && DistinctNames(inv.pods.items) && pod in inv.pods.items && pod.ownerRefs == []
    ensures IsAttributed(inv, pod, NodeId("Pod", pod.namespace, pod.name))
  {
    hide Attributed, ShownBy, Draws, Intermediates, NodeId;
    EveryPodHasItsEntry(inv);
  }

  ghost predicate HasOwner(owners: seq<Owner>, id: string) {
    exists i :: 0 <= i < |owners| && owners[i].node.id == id
  }

  /** Owners are only ever added, and keep their IDs. */
  ghost predicate KeepsIds(before: seq<Owner>, after: seq<Owner>) {
    |before| <= |after| && forall i :: 0 <= i < |before| ==> after[i].node.id == before[i].node.id
  }

  lemma RecordKeepsOwners(book: Book, namespace: string, pod: Pod, fate: Fate)
    requires book.Valid()
    ensures KeepsIds(book.owners, Record(book, namespace, pod, fate).owners)
    ensures !fate.OfWorkload? ==> HasOwner(Record(book, namespace, pod, fate).owners, OwnerId(pod, namespace, fate))
  {
    var r := Record(book, namespace, pod, fate);
    match fate {
      case Bare => assert r.owners[|book.owners|].node.id == OwnerId(pod, namespace, fate);
      case OfWorkload(_) =>
      case OfGeneric(_) =>
        var id := OwnerId(pod, namespace, fate);
        assert id in r.generic && r.owners[r.generic[id]].node.id == id;
    }
  }

  ghost predicate EntriesAreOwners(book: Book) {
    forall name :: name in book.podOwner ==> HasOwner(book.owners, book.podOwner[name])
  }

  lemma OwnersStay(before: seq<Owner>, after: seq<Owner>, id: string)
    requires KeepsIds(before, after) && HasOwner(before, id)
    ensures HasOwner(after, id)
  {
    var i :| 0 <= i < |before| && before[i].node.id == id;
    assert after[i].node.id == id;
  }

  lemma {:induction false} EntriesOfRecordAllAreOwners(
    first: Book, namespace: string, pods: seq<Pod>, fates: seq<Fate>, n: nat)
    requires first.Valid() && first.podOwner == map[] && n <= |pods| == |fates|
    requires forall i :: 0 <= i < |fates| && fates[i].OfWorkload? ==> HasOwner(first.owners, fates[i].id)
    ensures KeepsIds(first.owners, RecordAll(first, namespace, pods, fates, n).owners)
    ensures EntriesAreOwners(RecordAll(first, namespace, pods, fates, n))
  {
    hide Record;
    if n > 0 {
      EntriesOfRecordAllAreOwners(first, namespace, pods, fates, n - 1);
      var before, pod, fate := RecordAll(first, namespace, pods, fates, n - 1), pods[n - 1], fates[n - 1];
      var after := Record(before, namespace, pod, fate);
      RecordKeepsOwners(before, namespace, pod, fate);
      forall name | name in after.podOwner ensures HasOwner(after.owners, after.podOwner[name]) {
        if name == pod.name {
          if fate.OfWorkload? {
            OwnersStay(first.owners, after.owners, fate.id);
          }
        } else {
          OwnersStay(before.owners, after.owners, before.podOwner[name]);
        }
      }
    }
  }

  lemma WorkloadsFoundAreDrawn(draws: seq<Drawn>, pod: Pod, intermediate: Intermediate)
    ensures var fate := FateOf(pod, ShownBy(draws), intermediate);
            fate.OfWorkload? ==> HasOwner(Owners(draws), fate.id)
  {
    hide WalkUp, Owners;
    var shown := ShownBy(draws);
    ShownMeaning(draws);
    if pod.ownerRefs != [] {
      var k := TopMeaning(pod.ownerRefs, shown, intermediate);
      var uid := Chain(pod.ownerRefs, intermediate, k).value.uid;
      if uid in shown {
        var i :| 0 <= i < |draws| && draws[i].uid == uid && draws[i].owner.node.id == shown[uid];
        assert Owners(draws)[i].node.id == shown[uid];
      }
    }
  }

  /** Every entry is the ID of one of the owners, whatever the pods are called. */
  lemma EveryEntryIsAnOwner(inv: Inventory)
    requires Readable(inv)
    ensures KeepsIds(Owners(Draws(inv)), Attributed(inv).owners) && EntriesAreOwners(Attributed(inv))
  {
    var draws, fates := Draws(inv), FatesIn(inv);
    forall i | 0 <= i < |fates| && fates[i].OfWorkload? ensures HasOwner(Owners(draws), fates[i].id) {
      WorkloadsFoundAreDrawn(draws, inv.pods.items[i], Intermediates(inv));
    }
    EntriesOfRecordAllAreOwners(FirstBook(Owners(draws)), inv.namespace, inv.pods.items, fates, |fates|);
  }

  // Conservation

  ghost predicate Through(namespace: string, fate: Fate, id: string) {
    fate.OfGeneric? && NodeId(fate.top.kind, namespace, fate.top.name) == id
  }

  /** The pods among the first n that are attributed through the generic owner `id`. */
  ghost function GenericCount(namespace: string, fates: seq<Fate>, n: nat, id: string): nat
    requires n <= |fates|
  {
    if n == 0 then 0
    else GenericCount(namespace, fates, n - 1, id) + (if Through(namespace, fates[n - 1], id) then 1 else 0)
  }

  ghost function WorstGeneric(namespace: string, pods: seq<Pod>, fates: seq<Fate>, n: nat, id: string): Status
    requires n <= |pods| == |fates|
  {
    if n == 0 then Idle
    else if Through(namespace, fates[n - 1], id)
    then WorstStatus(WorstGeneric(namespace, pods, fates, n - 1, id), PodStatus(pods[n - 1]))
    else WorstGeneric(namespace, pods, fates, n - 1, id)
  }

  /** The generic owner of an ID carries this count and status. */
  ghost predicate GenericIs(book: Book, id: string, count: nat, status: Status)
    requires book.Valid()
  {
    && (id in book.generic <==> count > 0)
    && (id in book.generic ==>
          var node := book.owners[book.generic[id]].node;
          node.weight == count && node.status == status)
  }

  lemma RecordCounts(book: Book, namespace: string, pod: Pod, fate: Fate, id: string, count: nat, status: Status)
    requires book.Valid() && GenericIs(book, id, count, status) && (count == 0 ==> status == Idle)
    ensures var r := Record(book, namespace, pod, fate);
            if Through(namespace, fate, id) then GenericIs(r, id, count + 1, WorstStatus(status, PodStatus(pod)))
            else GenericIs(r, id, count, status)
  {
    if fate.OfGeneric? {
      RecordGenericCounts(book, namespace, pod, fate.top, id, count, status);
    } else {
      hide NodeId, PodStatus, WorstStatus, WithGeneric;
    }
  }

  lemma NewGeneric(book: Book, namespace: string, top: OwnerRef, pod: Pod)
    requires NodeId(top.kind, namespace, top.name) !in book.generic
    ensures WithGeneric(book, namespace, top, pod)
            == Book(book.owners + [GenericOwner(namespace, top, pod)],
                book.generic[NodeId(top.kind, namespace, top.name) := |book.owners|], book.podOwner)
  {
  }

  lemma WithGenericMeaning(book: Book, namespace: string, top: OwnerRef, pod: Pod)
    requires book.Valid()
    ensures var with, id := WithGeneric(book, namespace, top, pod), NodeId(top.kind, namespace, top.name);
            && with.Valid() && with.generic.Keys == book.generic.Keys + {id}
            && (forall b :: b in book.generic ==> with.owners[with.generic[b]] == book.owners[book.generic[b]])
            && (id !in book.generic ==> with.owners[with.generic[id]] == GenericOwner(namespace, top, pod))
  {
    hide NodeId, GenericOwner;
  }

  /** A pod of a generic owner changes that owner alone. */
  lemma RecordGeneric(book: Book, namespace: string, pod: Pod, top: OwnerRef)
    requires book.Valid()
    ensures var r, id := Record(book, namespace, pod, OfGeneric(top)), NodeId(top.kind, namespace, top.name);
            && r.generic.Keys == book.generic.Keys + {id}
            && (forall b :: b in book.generic && b != id ==>
                r.owners[r.generic[b]].node == book.owners[book.generic[b]].node)
            && var before :=
                 if id in book.generic then book.owners[book.generic[id]].node
                 else GenericOwner(namespace, top, pod).node;
               r.owners[r.generic[id]].node == Bumped(before, PodStatus(pod))
  {
    hide NodeId, PodStatus, GenericOwner, Bumped, WithGeneric;
    WithGenericMeaning(book, namespace, top, pod);
  }

  lemma RecordGenericCounts(
    book: Book, namespace: string, pod: Pod, top: OwnerRef, id: string, count: nat, status: Status)
    requires book.Valid() && GenericIs(book, id, count, status) && (count == 0 ==> status == Idle)
    ensures var r := Record(book, namespace, pod, OfGeneric(top));
            if Through(namespace, OfGeneric(top), id)
            then GenericIs(r, id, count + 1, WorstStatus(status, PodStatus(pod)))
            else GenericIs(r, id, count, status)
  {
    hide Record, NodeId, PodStatus, WorstStatus, ApiGroup;
    RecordGeneric(book, namespace, pod, top);
  }

  lemma StepCounts(
    first: Book, namespace: string, pods: seq<Pod>, fates: seq<Fate>, n: nat, id: string, count: nat, status: Status)
    requires first.Valid() && 0 < n <= |pods| == |fates|
    requires GenericIs(RecordAll(first, namespace, pods, fates, n - 1), id, count, status)
              && (count == 0 ==> status == Idle)
    ensures var through := Through(namespace, fates[n - 1], id);
            GenericIs(RecordAll(first, namespace, pods, fates, n), id, if through then count + 1 else count,
                      if through then WorstStatus(status, PodStatus(pods[n - 1])) else status)
  {
    RecordCounts(RecordAll(first, namespace, pods, fates, n - 1), namespace, pods[n - 1], fates[n - 1], id,
        count, status);
  }

  lemma {:induction false} GenericOwnersOfRecordAll(first: Book, namespace: string, pods: seq<Pod>, fates: seq<Fate>,
      n: nat, id: string)
    returns (count: nat, status: Status)
    requires first.Valid() && first.generic == map[] && n <= |pods| == |fates|
    ensures count == GenericCount(namespace, fates, n, id) && status == WorstGeneric(namespace, pods, fates, n, id)
    ensures GenericIs(RecordAll(first, namespace, pods, fates, n), id, count, status) && (count == 0 ==> status == Idle)
  {
    hide Record, PodStatus;
    count, status := 0, Idle;
    if n > 0 {
      count, status := GenericOwnersOfRecordAll(first, namespace, pods, fates, n - 1, id);
      StepCounts(first, namespace, pods, fates, n, id, count, status);
      if Through(namespace, fates[n - 1], id) {
        count, status := count + 1, WorstStatus(status, PodStatus(pods[n - 1]));
      }
    }
  }

  /** An ID has a generic owner exactly if a pod was attributed through it; that owner weighs as much
      as those pods and carries the worst of their statuses. */
  lemma GenericOwnersCountTheirPods(inv: Inventory, id: string)
    requires Readable(inv)
    ensures var fates := FatesIn(inv);
            GenericIs(Attributed(inv), id, GenericCount(inv.namespace, fates, |fates|, id),
                      WorstGeneric(inv.namespace, inv.pods.items, fates, |fates|, id))
  {
    var count, status := GenericOwnersOfRecordAll(
      FirstBook(Owners(Draws(inv))), inv.namespace, inv.pods.items, FatesIn(inv), |inv.pods.items|, id);
  }

  /** The worst status is one of theirs, and none of theirs is worse. */
  lemma {:induction false} WorstIsWorst(namespace: string, pods: seq<Pod>, fates: seq<Fate>, n: nat, id: string)
    requires n <= |pods| == |fates|
    ensures forall i :: 0 <= i < n && Through(namespace, fates[i], id) ==>
              Severity(PodStatus(pods[i])) <= Severity(WorstGeneric(namespace, pods, fates, n, id))
    ensures GenericCount(namespace, fates, n, id) > 0 ==>
              exists i :: 0 <= i < n && Through(namespace, fates[i], id)
                  && PodStatus(pods[i]) == WorstGeneric(namespace, pods, fates, n, id)
    ensures GenericCount(namespace, fates, n, id) == 0 ==> WorstGeneric(namespace, pods, fates, n, id) == Idle
  {
    hide PodStatus;
    if n > 0 {
      WorstIsWorst(namespace, pods, fates, n - 1, id);
    }
  }

  /** Some pod attributed through the ID has this status. */
  ghost predicate SomeThrough(namespace: string, pods: seq<Pod>, fates: seq<Fate>, n: nat, id: string, status: Status)
    requires n <= |pods| == |fates|
  {
    exists i :: 0 <= i < n && Through(namespace, fates[i], id) && PodStatus(pods[i]) == status
  }

  /** The status of a generic owner: an error if any of its pods has one, else a warning if any has one, else
      healthy if any is, else idle. */
  lemma {:induction false} WorstGenericMeaning(namespace: string, pods: seq<Pod>, fates: seq<Fate>, n: nat, id: string)
    requires n <= |pods| == |fates|
    ensures WorstGeneric(namespace, pods, fates, n, id)
            == if SomeThrough(namespace, pods, fates, n, id, Error) then Error
               else if SomeThrough(namespace, pods, fates, n, id, Warning) then Warning
               else if SomeThrough(namespace, pods, fates, n, id, Healthy) then Healthy
               else Idle
  {
    hide PodStatus, Through, WorstStatus, Severity;
    if n > 0 {
      WorstGenericMeaning(namespace, pods, fates, n - 1, id);
      WorstStatusMeaning(WorstGeneric(namespace, pods, fates, n - 1, id), PodStatus(pods[n - 1]));
    }
  }

  ghost function TotalWeight(owners: seq<Owner>): nat {
    if owners == [] then 0 else TotalWeight(owners[..|owners| - 1]) + owners[|owners| - 1].node.weight
  }

  lemma TotalWeightOfMore(owners: seq<Owner>, owner: Owner)
    ensures TotalWeight(owners + [owner]) == TotalWeight(owners) + owner.node.weight
  {
    TakeDrop(owners, [owner]);
  }

  lemma {:induction false} TotalWeightOfUpdate(owners: seq<Owner>, i: nat, owner: Owner)
    requires i < |owners|
    ensures TotalWeight(owners[i := owner]) + owners[i].node.weight == TotalWeight(owners) + owner.node.weight
  {
    var k := |owners| - 1;
    if i == k {
      assert owners[i := owner][..k] == owners[..k];
    } else {
      TotalWeightOfUpdate(owners[..k], i, owner);
      assert owners[i := owner][..k] == owners[..k][i := owner];
    }
  }

  /** The pods attributed to a drawn workload. */
  ghost function WorkloadCount(fates: seq<Fate>, n: nat): nat
    requires n <= |fates|
  {
    if n == 0 then 0 else WorkloadCount(fates, n - 1) + (if fates[n - 1].OfWorkload? then 1 else 0)
  }

  lemma RecordWeighs(book: Book, namespace: string, pod: Pod, fate: Fate)
    requires book.Valid()
    ensures TotalWeight(Record(book, namespace, pod, fate).owners)
            == TotalWeight(book.owners) + (if fate.OfWorkload? then 0 else 1)
  {
    match fate {
      case Bare => TotalWeightOfMore(book.owners, Owner(PodNode(pod, ""), pod.labels, pod.spec, []));
      case OfWorkload(_) =>
      case OfGeneric(top) =>
        var with := WithGeneric(book, namespace, top, pod);
        var i := with.generic[NodeId(top.kind, namespace, top.name)];
        TotalWeightOfMore(book.owners, GenericOwner(namespace, top, pod));
        TotalWeightOfUpdate(with.owners, i, with.owners[i].(node := Bumped(with.owners[i].node, PodStatus(pod))));
    }
  }

  /** RecordWeighs for the n-th step of RecordAll. */
  lemma StepWeighs(
    first: Book, namespace: string, pods: seq<Pod>, fates: seq<Fate>, n: nat) returns (before: nat, after: nat)
    requires first.Valid() && 0 < n <= |pods| == |fates|
    ensures before == TotalWeight(RecordAll(first, namespace, pods, fates, n - 1).owners)
    ensures after == TotalWeight(RecordAll(first, namespace, pods, fates, n).owners)
    ensures after == before + (if fates[n - 1].OfWorkload? then 0 else 1)
  {
    var book := RecordAll(first, namespace, pods, fates, n - 1);
    RecordWeighs(book, namespace, pods[n - 1], fates[n - 1]);
    before := TotalWeight(book.owners);
    after := TotalWeight(Record(book, namespace, pods[n - 1], fates[n - 1]).owners);
  }

  lemma {:induction false} RecordAllWeighs(first: Book, namespace: string, pods: seq<Pod>, fates: seq<Fate>, n: nat)
    requires first.Valid() && n <= |pods| == |fates|
    ensures TotalWeight(RecordAll(first, namespace, pods, fates, n).owners) + WorkloadCount(fates, n)
            == TotalWeight(first.owners) + n
  {
    hide Record, TotalWeight;
    if n > 0 {
      var before, after := StepWeighs(first, namespace, pods, fates, n);
      RecordAllWeighs(first, namespace, pods, fates, n - 1);
    }
  }

  lemma {:induction false} DrawnOwnersWeighOne(draws: seq<Drawn>)
    requires forall i :: 0 <= i < |draws| ==> draws[i].owner.node.weight == 1
    ensures TotalWeight(Owners(draws)) == |draws|
  {
    if draws != [] {
      DrawnOwnersWeighOne(draws[..|draws| - 1]);
      TotalWeightOfMore(Owners(draws[..|draws| - 1]), draws[|draws| - 1].owner);
    }
  }

  /** A drawn workload of some kind and name, drawn with weight one and in no group. */
  ghost predicate WellDrawn(d: Drawn, namespace: string) {
    d.owner.node.weight == 1 && d.owner.node.group == ""
        && d.owner.node.id == NodeId(d.owner.node.kind, namespace, d.owner.node.name)
  }

  lemma {:induction false} WorkloadsAreWellDrawn(kind: string, namespace: string, items: seq<Workload>, n: nat)
    requires n <= |items|
    ensures forall d :: d in DrawWorkloads(kind, namespace, items, n) ==>
              WellDrawn(d, namespace) && d.owner.node.kind == kind
  {
    hide NodeId;
    if n > 0 { WorkloadsAreWellDrawn(kind, namespace, items, n - 1); }
  }

  lemma {:induction false} StatefulSetsAreWellDrawn(namespace: string, items: seq<StatefulSet>, n: nat)
    requires n <= |items|
    ensures forall d :: d in DrawStatefulSets(namespace, items, n) ==>
              WellDrawn(d, namespace) && d.owner.node.kind == "StatefulSet"
  {
    hide NodeId;
    if n > 0 { StatefulSetsAreWellDrawn(namespace, items, n - 1); }
  }

  lemma {:induction false} JobsAreWellDrawn(namespace: string, items: seq<Job>, n: nat)
    requires n <= |items|
    ensures forall d :: d in DrawJobs(namespace, items, n) ==>
              && WellDrawn(d, namespace) && d.owner.node.kind == "Job"
              && exists i :: 0 <= i < n && items[i].workload.uid == d.uid && items[i].ownerRefs == []
  {
    hide NodeId;
    if n > 0 { JobsAreWellDrawn(namespace, items, n - 1); }
  }

  lemma {:induction false} ControllersAreWellDrawn(namespace: string, items: seq<ReplicationController>, n: nat)
    requires n <= |items|
    ensures forall d :: d in DrawControllers(namespace, items, n) ==>
              WellDrawn(d, namespace) && d.owner.node.kind == "ReplicationController"
  {
    hide NodeId;
    if n > 0 { ControllersAreWellDrawn(namespace, items, n - 1); }
  }

  /** Drawn ReplicaSets do not exist, and a drawn Job is one without an owner. */
  ghost predicate DrawnKind(d: Drawn, jobs: seq<Job>) {
    || d.owner.node.kind in {"Deployment", "StatefulSet", "DaemonSet", "CronJob", "ReplicationController"}
    || (d.owner.node.kind == "Job" && exists i :: 0 <= i < |jobs| && jobs[i].workload.uid == d.uid
                                        && jobs[i].ownerRefs == [])
  }

  lemma DrawsAreWellDrawn(inv: Inventory)
    requires WorkloadsReadable(inv)
    ensures forall d :: d in Draws(inv) ==> WellDrawn(d, inv.namespace) && DrawnKind(d, inv.jobs.items)
  {
    hide WellDrawn;
    var ns := inv.namespace;
    WorkloadsAreWellDrawn("Deployment", ns, inv.deployments.items, |inv.deployments.items|);
    StatefulSetsAreWellDrawn(ns, inv.statefulSets.items, |inv.statefulSets.items|);
    WorkloadsAreWellDrawn("DaemonSet", ns, inv.daemonSets.items, |inv.daemonSets.items|);
    WorkloadsAreWellDrawn("CronJob", ns, inv.cronJobs.items, |inv.cronJobs.items|);
    JobsAreWellDrawn(ns, inv.jobs.items, |inv.jobs.items|);
    ControllersAreWellDrawn(ns, Controllers(inv), |Controllers(inv)|);
  }

  ghost predicate Ungrouped(owners: seq<Owner>) {
    forall i :: 0 <= i < |owners| ==> owners[i].node.group == ""
  }

  lemma RecordKeepsUngrouped(book: Book, namespace: string, pod: Pod, fate: Fate)
    requires book.Valid() && Ungrouped(book.owners)
    ensures Ungrouped(Record(book, namespace, pod, fate).owners)
  {
    hide NodeId, PodStatus, WorstStatus;
  }

  lemma {:induction false} RecordAllKeepsUngrouped(
    first: Book, namespace: string, pods: seq<Pod>, fates: seq<Fate>, n: nat)
    requires first.Valid() && Ungrouped(first.owners) && n <= |pods| == |fates|
    ensures Ungrouped(RecordAll(first, namespace, pods, fates, n).owners)
  {
    hide Record, Ungrouped;
    if n > 0 {
      RecordAllKeepsUngrouped(first, namespace, pods, fates, n - 1);
      RecordKeepsUngrouped(RecordAll(first, namespace, pods, fates, n - 1), namespace, pods[n - 1], fates[n - 1]);
    }
  }

  lemma OwnersAreUngrouped(inv: Inventory)
    requires Readable(inv)
    ensures Ungrouped(Attributed(inv).owners)
  {
    hide Draws, FatesIn, RecordAll;
    DrawsAreWellDrawn(inv);
    var owners := Owners(Draws(inv));
    assert forall i :: 0 <= i < |owners| ==> Draws(inv)[i] in Draws(inv);
    RecordAllKeepsUngrouped(FirstBook(owners), inv.namespace, inv.pods.items, FatesIn(inv), |inv.pods.items|);
  }

  /** No pod is lost or counted twice: beyond the one every drawn workload is drawn with, the owners
      weigh exactly as much as there are pods outside drawn workloads. */
  lemma PodsAreConserved(inv: Inventory)
    requires Readable(inv)
    ensures TotalWeight(Attributed(inv).owners) + WorkloadCount(FatesIn(inv), |inv.pods.items|)
            == |Draws(inv)| + |inv.pods.items|
  {
    hide RecordAll, Draws, FatesIn, WorkloadCount, TotalWeight;
    RecordAllWeighs(FirstBook(Owners(Draws(inv))), inv.namespace, inv.pods.items, FatesIn(inv), |inv.pods.items|);
    DrawsAreWellDrawn(inv);
    assert forall i :: 0 <= i < |Draws(inv)| ==> Draws(inv)[i] in Draws(inv);
    DrawnOwnersWeighOne(Draws(inv));
  }
}
