/** listPodOwners and listWorkloads of kube_pod_owners.go.  The owners are objects: a generic owner
    is reached both through result.owners and through the `generic` map, and is updated in place. */
module PodOwners {
  import opened GraphBuilder
  import opened KubeObjects
  import opened KubeStatus
  import opened PodAttribution
  import opened Seqs
  import opened TopOwner
  import opened TopologyGraph
  import opened Wrappers

  class PodTemplateOwner {
    var node: Node
    const labels: Labels
    const spec: PodSpec
    var claimPrefixes: seq<string>

    constructor (node: Node, labels: Labels, spec: PodSpec)
      ensures Value() == Owner(node, labels, spec, [])
    {
      this.node := node;
      this.labels := labels;
      this.spec := spec;
      this.claimPrefixes := [];
    }

    function Value(): Owner
      reads this
    {
      Owner(node, labels, spec, claimPrefixes)
    }
  }

  ghost predicate Distinct(owners: seq<PodTemplateOwner>) {
    forall i, j :: 0 <= i < j < |owners| ==> owners[i] != owners[j]
  }

  /** The objects are distinct and have these values. */
  ghost predicate Represents(owners: seq<PodTemplateOwner>, values: seq<Owner>)
    reads owners
  {
    && |owners| == |values| && Distinct(owners)
    && forall i :: 0 <= i < |owners| ==> owners[i].Value() == values[i]
  }

  lemma RepresentsMore(owners: seq<PodTemplateOwner>, values: seq<Owner>, owner: PodTemplateOwner)
    requires Represents(owners, values) && owner !in owners
    ensures Represents(owners + [owner], values + [owner.Value()])
  {
  }

  lemma RepresentsSize(owners: seq<PodTemplateOwner>, values: seq<Owner>)
    requires Represents(owners, values)
    ensures |owners| == |values|
  {
  }

  /** `generic` leads to the objects whose places `places` holds. */
  ghost predicate Indexed(
    generic: map<string, PodTemplateOwner>, owners: seq<PodTemplateOwner>, places: map<string, nat>) {
    && generic.Keys == places.Keys
    && forall id :: id in generic ==> places[id] < |owners| && generic[id] == owners[places[id]]
  }

  lemma IndexedMore(
    generic: map<string, PodTemplateOwner>, owners: seq<PodTemplateOwner>, places: map<string, nat>,
    owner: PodTemplateOwner, id: string)
    requires Indexed(generic, owners, places)
    ensures Indexed(generic, owners + [owner], places)
    ensures Indexed(generic[id := owner], owners + [owner], places[id := |owners|])
  {
  }

  function Values(owners: seq<PodTemplateOwner>): (r: seq<Owner>)
    reads owners
    ensures |r| == |owners| && forall i :: 0 <= i < |owners| ==> r[i] == owners[i].Value()
  {
    if owners == [] then [] else Values(owners[..|owners| - 1]) + [owners[|owners| - 1].Value()]
  }

  /** The local state of listPodOwners: the result being filled and the three lookup maps. */
  class OwnerTable {
    const namespace: string
    var owners: seq<PodTemplateOwner>
    var shown: Shown
    var intermediate: Intermediate
    var generic: map<string, PodTemplateOwner>
    var podOwner: map<string, string>
    ghost var draws: seq<Drawn>
    ghost var book: Book

    ghost function Objects(): set<PodTemplateOwner>
      reads this
    {
      set o | o in owners
    }

    /** While workloads are being listed. */
    ghost predicate Drawing()
      reads this, owners
    {
      Represents(owners, Owners(draws)) && shown == ShownBy(draws) && generic == map[] && podOwner == map[]
    }

    /** While pods are being attributed. */
    ghost predicate Recording()
      reads this, owners
    {
      && book.Valid() && Represents(owners, book.owners) && podOwner == book.podOwner
      && Indexed(generic, owners, book.generic)
    }

    constructor (namespace: string)
      ensures Drawing() && this.namespace == namespace
      ensures owners == [] && draws == [] && intermediate == map[]
    {
      this.namespace := namespace;
      owners, shown, intermediate, generic, podOwner := [], map[], map[], map[], map[];
      draws, book := [], FirstBook([]);
    }

    /** The closure addWorkload. */
    method AddWorkload(kind: string, w: Workload) returns (owner: PodTemplateOwner)
      requires Drawing()
      modifies this`owners, this`shown, this`draws
      ensures Drawing() && fresh(owner) && owners == old(owners) + [owner]
      ensures draws == old(draws) + [DrawWorkload(kind, namespace, w)]
      ensures owner.Value() == DrawWorkload(kind, namespace, w).owner
    {
      hide Owners, ShownBy, Represents;
      ghost var drawn := DrawWorkload(kind, namespace, w);
      owner := new PodTemplateOwner(Plain(kind, namespace, w.name, w.status, true, 1), w.labels, w.spec);
      RepresentsMore(owners, Owners(draws), owner);
      DrawOneMore(draws, drawn);
      owners := owners + [owner];
      shown := shown[w.uid := owner.node.id];
      draws := draws + [drawn];
    }

    method AddWorkloads(kind: string, items: seq<Workload>)
      requires Drawing()
      modifies this`owners, this`shown, this`draws
      ensures Drawing() && fresh(Objects() - old(Objects()))
      ensures draws == old(draws) + DrawWorkloads(kind, namespace, items, |items|)
    {
      hide Owners, ShownBy, Represents, DrawWorkload;
      ghost var before := draws;
      EmptyRight(before);
      assert DrawWorkloads(kind, namespace, items, 0) == [];
      for i := 0 to |items|
        invariant Drawing() && fresh(Objects() - old(Objects()))
        invariant draws == before + DrawWorkloads(kind, namespace, items, i)
      {
        var _ := AddWorkload(kind, items[i]);
        Assoc(before, DrawWorkloads(kind, namespace, items, i), [DrawWorkload(kind, namespace, items[i])]);
      }
    }

    method AddStatefulSets(items: seq<StatefulSet>)
      requires Drawing()
      modifies this`owners, this`shown, this`draws
      ensures Drawing() && fresh(Objects() - old(Objects()))
      ensures draws == old(draws) + DrawStatefulSets(namespace, items, |items|)
    {
      hide Owners, ShownBy, Represents, DrawStatefulSet;
      ghost var before := draws;
      EmptyRight(before);
      assert DrawStatefulSets(namespace, items, 0) == [];
      for i := 0 to |items|
        invariant Drawing() && fresh(Objects() - old(Objects()))
        invariant draws == before + DrawStatefulSets(namespace, items, i)
      {
        AddStatefulSet(items[i]);
        Assoc(before, DrawStatefulSets(namespace, items, i), [DrawStatefulSet(namespace, items[i])]);
      }
    }

    /** addWorkload, and then the claim prefixes are appended to the owner it returned. */
    method AddStatefulSet(s: StatefulSet)
      requires Drawing()
      modifies this`owners, this`shown, this`draws
      ensures Drawing() && fresh(Objects() - old(Objects()))
      ensures draws == old(draws) + [DrawStatefulSet(namespace, s)]
    {
      hide Owners, ShownBy, Represents;
      ghost var before, others := draws, owners;
      var owner: PodTemplateOwner := AddWorkload("StatefulSet", s.workload);
      assert Represents(others, Owners(before));
      for k := 0 to |s.claimTemplates|
        modifies owner`claimPrefixes
        invariant owner.claimPrefixes == ClaimPrefixes(s.claimTemplates, s.workload.name, k)
      {
        owner.claimPrefixes := owner.claimPrefixes + [s.claimTemplates[k] + "-" + s.workload.name + "-"];
      }
      ghost var drawn := DrawStatefulSet(namespace, s);
      assert owner.Value() == drawn.owner;
      RepresentsMore(others, Owners(before), owner);
      DrawOneMore(before, DrawWorkload("StatefulSet", namespace, s.workload));
      DrawOneMore(before, drawn);
      draws := before + [drawn];
    }

    /** Ownerless Jobs are drawn; for the others only their references are kept. */
    method AddJobs(items: seq<Job>)
      requires Drawing() && intermediate == map[]
      modifies this`owners, this`shown, this`draws, this`intermediate
      ensures Drawing() && fresh(Objects() - old(Objects()))
      ensures draws == old(draws) + DrawJobs(namespace, items, |items|)
      ensures intermediate == JobParents(items, |items|)
    {
      hide Owners, ShownBy, Represents, DrawWorkload;
      ghost var before := draws;
      EmptyRight(before);
      assert DrawJobs(namespace, items, 0) == [];
      for i := 0 to |items|
        invariant Drawing() && fresh(Objects() - old(Objects()))
        invariant draws == before + DrawJobs(namespace, items, i)
        invariant intermediate == JobParents(items, i)
      {
        var j := items[i];
        if |j.ownerRefs| > 0 {
          intermediate := intermediate[j.workload.uid := j.ownerRefs];
          continue;
        }
        var _ := AddWorkload("Job", j.workload);
        Assoc(before, DrawJobs(namespace, items, i), [DrawWorkload("Job", namespace, j.workload)]);
      }
    }

    method AddReplicaSets(items: seq<ReplicaSet>)
      modifies this`intermediate
      ensures intermediate == ReplicaSetParents(old(intermediate), items, |items|)
    {
      ghost var before := intermediate;
      for i := 0 to |items|
        invariant intermediate == ReplicaSetParents(before, items, i)
      {
        intermediate := intermediate[items[i].uid := items[i].ownerRefs];
      }
    }

    method AddControllers(items: seq<ReplicationController>)
      requires Drawing()
      modifies this`owners, this`shown, this`draws
      ensures Drawing() && fresh(Objects() - old(Objects()))
      ensures draws == old(draws) + DrawControllers(namespace, items, |items|)
    {
      hide Owners, ShownBy, Represents, DrawWorkload;
      ghost var before := draws;
      EmptyRight(before);
      assert DrawControllers(namespace, items, 0) == [];
      for i := 0 to |items|
        invariant Drawing() && fresh(Objects() - old(Objects()))
        invariant draws == before + DrawControllers(namespace, items, i)
      {
        if items[i].hasTemplate {
          var _ := AddWorkload("ReplicationController", items[i].workload);
          Assoc(before, DrawControllers(namespace, items, i),
              [DrawWorkload("ReplicationController", namespace, items[i].workload)]);
        }
      }
    }

    /** listWorkloads; false when a list it cannot do without could not be read. */
    method ListWorkloads(inv: Inventory) returns (ok: bool)
      requires Drawing() && owners == [] && draws == [] && intermediate == map[] && inv.namespace == namespace
      modifies this`owners, this`shown, this`draws, this`intermediate
      ensures ok <==> WorkloadsReadable(inv)
      ensures ok ==> Drawing() && fresh(Objects())
      ensures ok ==> draws == Draws(inv) && intermediate == Intermediates(inv)
    {
      hide Owners, ShownBy, Represents, DrawWorkloads, DrawStatefulSets, DrawJobs, DrawControllers, JobParents;
      hide ReplicaSetParents;
      if !inv.deployments.Items? {
        return false;
      }
      AddWorkloads("Deployment", inv.deployments.items);
      EmptyLeft(DrawWorkloads("Deployment", namespace, inv.deployments.items, |inv.deployments.items|));
      if !inv.statefulSets.Items? {
        return false;
      }
      AddStatefulSets(inv.statefulSets.items);
      if !inv.daemonSets.Items? {
        return false;
      }
      AddWorkloads("DaemonSet", inv.daemonSets.items);
      if !inv.cronJobs.Items? {
        return false;
      }
      AddWorkloads("CronJob", inv.cronJobs.items);
      if !inv.jobs.Items? {
        return false;
      }
      AddJobs(inv.jobs.items);
      if !inv.replicaSets.Items? {
        return false;
      }
      AddReplicaSets(inv.replicaSets.items);
      if inv.replicationControllers.Failed? {
        return false;
      }
      AddControllers(Controllers(inv));
      return true;
    }

    ghost method StartRecording()
      requires Drawing()
      modifies this`book
      ensures Recording() && book == FirstBook(Owners(draws))
    {
      book := FirstBook(Owners(draws));
    }

    function Snapshot(): (values: seq<Owner>)
      reads this, owners
      ensures Recording() ==> values == book.owners
    {
      Values(owners)
    }

    /** The loop of listPodOwners. */
    method RecordPods(pods: seq<Pod>)
      requires Recording()
      modifies this`owners, this`generic, this`podOwner, this`book, Objects()
      ensures Recording()
      ensures book == RecordAll(old(book), namespace, pods, Fates(pods, shown, intermediate), |pods|)
    {
      hide Represents, Record, FateOf;
      ghost var fates, first := Fates(pods, shown, intermediate), book;
      for i := 0 to |pods|
        invariant Recording() && fresh(Objects() - old(Objects()))
        invariant book == RecordAll(first, namespace, pods, fates, i)
      {
        RecordPod(pods[i]);
      }
    }

    /** The body of that loop. */
    method RecordPod(pod: Pod)
      requires Recording()
      modifies this`owners, this`generic, this`podOwner, this`book, Objects()
      ensures Recording() && fresh(Objects() - old(Objects()))
      ensures book == Record(old(book), namespace, pod, FateOf(pod, shown, intermediate))
    {
      hide Record, Top;
      if |pod.ownerRefs| == 0 {
        AddBarePod(pod);
        return;
      }
      var top, id := FindTopOwner(pod.ownerRefs, shown, intermediate);
      if id != "" {
        AddWorkloadPod(pod, id);
        return;
      }
      AddGenericPod(pod, top);
    }

    method AddWorkloadPod(pod: Pod, id: string)
      requires Recording()
      modifies this`podOwner, this`book
      ensures Recording() && book == Record(old(book), namespace, pod, OfWorkload(id))
    {
      hide Represents, Indexed;
      podOwner := podOwner[pod.name := id];
      book := Record(book, namespace, pod, OfWorkload(id));
    }

    method AddBarePod(pod: Pod)
      requires Recording()
      modifies this`owners, this`podOwner, this`book
      ensures Recording() && fresh(Objects() - old(Objects()))
      ensures book == Record(old(book), namespace, pod, Bare)
    {
      hide PodStatus;
      ghost var before := book;
      var owner := new PodTemplateOwner(PodNode(pod, ""), pod.labels, pod.spec);
      RepresentsMore(owners, book.owners, owner);
      IndexedMore(generic, owners, book.generic, owner, "");
      owners := owners + [owner];
      podOwner := podOwner[pod.name := owner.node.id];
      book := Record(before, namespace, pod, Bare);
    }

    method AddGenericPod(pod: Pod, top: OwnerRef)
      requires Recording()
      modifies this`owners, this`generic, this`podOwner, this`book, Objects()
      ensures Recording() && fresh(Objects() - old(Objects()))
      ensures book == Record(old(book), namespace, pod, OfGeneric(top))
    {
      hide PodStatus, WorstStatus, Represents, NodeId, WithGeneric;
      ghost var before := book;
      var id := NodeId(top.kind, namespace, top.name);
      var owner := GenericFor(id, top, pod);
      ghost var i := book.generic[id];
      RepresentsSize(owners, book.owners);
      assert owners[i] == owner && owner in Objects();
      hide Indexed;
      var status := ComputePodStatus(pod);
      BumpAt(owners, book.owners, i, owner, status);
      podOwner := podOwner[pod.name := id];
      book := Record(before, namespace, pod, OfGeneric(top));
    }

    /** The generic owner of an ID, created when the first pod needs it. */
    method GenericFor(id: string, top: OwnerRef, pod: Pod) returns (owner: PodTemplateOwner)
      requires Recording() && id == NodeId(top.kind, namespace, top.name)
      modifies this`owners, this`generic, this`book
      ensures Recording() && fresh(Objects() - old(Objects()))
      ensures book == WithGeneric(old(book), namespace, top, pod)
      ensures id in generic && owner == generic[id]
    {
      if id in generic {
        return generic[id];
      }
      owner := AddGeneric(id, top, pod);
    }

    method AddGeneric(id: string, top: OwnerRef, pod: Pod) returns (owner: PodTemplateOwner)
      requires Recording() && id == NodeId(top.kind, namespace, top.name) && id !in generic
      modifies this`owners, this`generic, this`book
      ensures Recording() && fresh(Objects() - old(Objects()))
      ensures book == WithGeneric(old(book), namespace, top, pod)
      ensures id in generic && owner == generic[id]
    {
      hide Represents, ApiGroup, NodeId, WithGeneric;
      ghost var before := book;
      NewGeneric(before, namespace, top, pod);
      hide Indexed;
      owner := new PodTemplateOwner(
        Node(id, top.kind, ApiGroup(top.apiVersion), top.name, namespace, Idle, true, "", 0, 0), pod.labels, pod.spec);
      RepresentsMore(owners, before.owners, owner);
      RepresentsSize(owners, before.owners);
      IndexedMore(generic, owners, before.generic, owner, id);
      assert owner.Value() == GenericOwner(namespace, top, pod);
      owners := owners + [owner];
      generic := generic[id := owner];
      book := WithGeneric(before, namespace, top, pod);
    }

    /** One more pod of this status for an owner, updated in place. */
    static method BumpAt(owners: seq<PodTemplateOwner>, ghost values: seq<Owner>, ghost i: nat,
        owner: PodTemplateOwner, status: Status)
      requires Represents(owners, values) && i < |owners| && owners[i] == owner
      modifies owner
      ensures Represents(owners, values[i := values[i].(node := Bumped(values[i].node, status))])
    {
      owner.node := owner.node.(status := WorstStatus(owner.node.status, status));
      owner.node := owner.node.(weight := owner.node.weight + 1);
    }
  }

  /** namespaceOwners: what listPodOwners returns. */
  datatype NamespaceOwners = NamespaceOwners(owners: seq<Owner>, podOwner: map<string, string>)

  method ListPodOwners(inv: Inventory) returns (result: Option<NamespaceOwners>)
    ensures result.Some? <==> Readable(inv)
    ensures result.Some? ==> result.value == NamespaceOwners(Attributed(inv).owners, Attributed(inv).podOwner)
  {
    hide Represents, Draws, Intermediates, ShownBy, Owners, RecordAll, Fates, FirstBook;
    var table := new OwnerTable(inv.namespace);
    var ok := table.ListWorkloads(inv);
    if !ok || !inv.pods.Items? {
      return None;
    }
    table.StartRecording();
    table.RecordPods(inv.pods.items);
    return Some(NamespaceOwners(table.Snapshot(), table.podOwner));
  }
}
