/** Who is among the owners listPodOwners returns, and what each of them carries: the drawn workloads, the
    pods that nothing controls, and one owner made up for every other object pods lead to. */
module AttributedOwners {
  import opened ConfigRefs
  import opened GraphBuilder
  import opened KubeObjects
  import opened KubeStatus
  import opened PodAttribution
  import opened PodSpecRefs

  // Drawn workloads

  /** An owner drawn for an object of its own: it can be opened, and weighs one. */
  ghost predicate DrawnFor(o: Owner, kind: string, namespace: string, w: Workload) {
    && o.node.id == kind + "/" + namespace + "/" + w.name
    && o.node.kind == kind && o.node.namespace == namespace && o.node.name == w.name && o.node.apiGroup == ""
    && o.node.status == w.status && o.node.drillable && o.node.group == "" && o.node.weight == 1
    && o.node.externalPeers == 0 && o.labels == w.labels && o.spec == w.spec
  }

  /** The claims of a StatefulSet begin with the name of a template and that of the set. */
  ghost predicate PrefixesFor(prefixes: seq<string>, s: StatefulSet) {
    && |prefixes| == |s.claimTemplates|
    && forall i :: 0 <= i < |prefixes| ==> prefixes[i] == s.claimTemplates[i] + "-" + s.workload.name + "-"
  }

  /** The claim of some pod of the set, made from the i-th template. */
  ghost predicate MadeFrom(s: StatefulSet, i: nat, name: string)
    requires i < |s.claimTemplates|
  {
    exists rest :: name == s.claimTemplates[i] + "-" + s.workload.name + "-" + rest
  }

  lemma PrefixMeaning(prefix: string, name: string)
    ensures prefix <= name <==> exists rest :: name == prefix + rest
  {
    if prefix <= name {
      assert name == prefix + name[|prefix|..];
    }
  }

  /** A StatefulSet uses exactly the claims that are called so. */
  lemma ClaimsOfSet(prefixes: seq<string>, s: StatefulSet, claims: Claims, r: SpecRef)
    requires PrefixesFor(prefixes, s)
    ensures IsClaimUnder(r, claims, prefixes) <==>
              && r.kind == "PersistentVolumeClaim" && r.name in claims
              && exists i: nat :: i < |s.claimTemplates| && MadeFrom(s, i, r.name)
  {
    forall i: nat | i < |prefixes| ensures prefixes[i] <= r.name <==> MadeFrom(s, i, r.name) {
      PrefixMeaning(prefixes[i], r.name);
    }
  }

  lemma {:induction false} ClaimPrefixesAre(templates: seq<string>, name: string, n: nat)
    requires n <= |templates|
    ensures |ClaimPrefixes(templates, name, n)| == n
    ensures forall i :: 0 <= i < n ==> ClaimPrefixes(templates, name, n)[i] == templates[i] + "-" + name + "-"
  {
    if n > 0 {
      ClaimPrefixesAre(templates, name, n - 1);
    }
  }

  lemma DrawWorkloadIs(kind: string, namespace: string, w: Workload, d: Drawn)
    ensures d == DrawWorkload(kind, namespace, w)
            <==> d.uid == w.uid && DrawnFor(d.owner, kind, namespace, w) && d.owner.claimPrefixes == []
  {
  }

  lemma {:induction false} DrawWorkloadsAre(kind: string, namespace: string, items: seq<Workload>, n: nat, d: Drawn)
    requires n <= |items|
    ensures d in DrawWorkloads(kind, namespace, items, n)
            <==> exists i :: 0 <= i < n && IsDrawn(d, kind, namespace, items[i])
  {
    hide DrawnFor, DrawWorkload;
    if n > 0 {
      DrawWorkloadsAre(kind, namespace, items, n - 1, d);
      DrawWorkloadIs(kind, namespace, items[n - 1], d);
    }
  }

  ghost predicate IsDrawn(d: Drawn, kind: string, namespace: string, w: Workload) {
    d.uid == w.uid && DrawnFor(d.owner, kind, namespace, w) && d.owner.claimPrefixes == []
  }

  ghost predicate IsDrawnSet(d: Drawn, namespace: string, s: StatefulSet) {
    && d.uid == s.workload.uid && DrawnFor(d.owner, "StatefulSet", namespace, s.workload)
    && PrefixesFor(d.owner.claimPrefixes, s)
  }

  lemma DrawStatefulSetIs(namespace: string, s: StatefulSet, d: Drawn)
    ensures d == DrawStatefulSet(namespace, s) <==> IsDrawnSet(d, namespace, s)
  {
    ClaimPrefixesAre(s.claimTemplates, s.workload.name, |s.claimTemplates|);
    hide ClaimPrefixes;
    if IsDrawnSet(d, namespace, s) {
      assert d.owner.claimPrefixes == ClaimPrefixes(s.claimTemplates, s.workload.name, |s.claimTemplates|);
    }
  }

  lemma {:induction false} DrawStatefulSetsAre(namespace: string, items: seq<StatefulSet>, n: nat, d: Drawn)
    requires n <= |items|
    ensures d in DrawStatefulSets(namespace, items, n) <==> exists i :: 0 <= i < n && IsDrawnSet(d, namespace, items[i])
  {
    hide IsDrawnSet, DrawStatefulSet;
    if n > 0 {
      DrawStatefulSetsAre(namespace, items, n - 1, d);
      DrawStatefulSetIs(namespace, items[n - 1], d);
    }
  }

  lemma {:induction false} DrawJobsAre(namespace: string, items: seq<Job>, n: nat, d: Drawn)
    requires n <= |items|
    ensures d in DrawJobs(namespace, items, n)
            <==> exists i :: 0 <= i < n && items[i].ownerRefs == [] && IsDrawn(d, "Job", namespace, items[i].workload)
  {
    hide DrawnFor, DrawWorkload;
    if n > 0 {
      DrawJobsAre(namespace, items, n - 1, d);
      DrawWorkloadIs("Job", namespace, items[n - 1].workload, d);
    }
  }

  lemma {:induction false} DrawControllersAre(namespace: string, items: seq<ReplicationController>, n: nat, d: Drawn)
    requires n <= |items|
    ensures d in DrawControllers(namespace, items, n)
            <==> exists i :: 0 <= i < n && items[i].hasTemplate
                             && IsDrawn(d, "ReplicationController", namespace, items[i].workload)
  {
    hide DrawnFor, DrawWorkload;
    if n > 0 {
      DrawControllersAre(namespace, items, n - 1, d);
      DrawWorkloadIs("ReplicationController", namespace, items[n - 1].workload, d);
    }
  }

  ghost predicate IsListed(d: Drawn, kind: string, namespace: string, items: seq<Workload>) {
    exists i :: 0 <= i < |items| && IsDrawn(d, kind, namespace, items[i])
  }

  /** What is drawn: every Deployment, StatefulSet, DaemonSet and CronJob, the Jobs nothing owns, and the
      ReplicationControllers with a template, if those could be listed. */
  lemma DrawsAre(inv: Inventory, d: Drawn)
    requires WorkloadsReadable(inv)
    ensures d in Draws(inv) <==>
              || IsListed(d, "Deployment", inv.namespace, inv.deployments.items)
              || (exists i :: 0 <= i < |inv.statefulSets.items|
                    && IsDrawnSet(d, inv.namespace, inv.statefulSets.items[i]))
              || IsListed(d, "DaemonSet", inv.namespace, inv.daemonSets.items)
              || IsListed(d, "CronJob", inv.namespace, inv.cronJobs.items)
              || (exists i :: 0 <= i < |inv.jobs.items| && inv.jobs.items[i].ownerRefs == []
                              && IsDrawn(d, "Job", inv.namespace, inv.jobs.items[i].workload))
              || (inv.replicationControllers.Items?
                  && exists i :: 0 <= i < |inv.replicationControllers.items|
                      && inv.replicationControllers.items[i].hasTemplate
                       && IsDrawn(d, "ReplicationController", inv.namespace,
                           inv.replicationControllers.items[i].workload))
  {
    hide IsDrawn, IsDrawnSet, DrawWorkloads, DrawStatefulSets, DrawJobs, DrawControllers;
    var ns := inv.namespace;
    DrawWorkloadsAre("Deployment", ns, inv.deployments.items, |inv.deployments.items|, d);
    DrawStatefulSetsAre(ns, inv.statefulSets.items, |inv.statefulSets.items|, d);
    DrawWorkloadsAre("DaemonSet", ns, inv.daemonSets.items, |inv.daemonSets.items|, d);
    DrawWorkloadsAre("CronJob", ns, inv.cronJobs.items, |inv.cronJobs.items|, d);
    DrawJobsAre(ns, inv.jobs.items, |inv.jobs.items|, d);
    DrawControllersAre(ns, Controllers(inv), |Controllers(inv)|, d);
  }

  // Owners of pods

  /** The owner of a pod that nothing controls: the pod itself. */
  ghost predicate StandsForItself(o: Owner, pod: Pod) {
    && o.node.id == "Pod" + "/" + pod.namespace + "/" + pod.name
    && o.node.kind == "Pod" && o.node.namespace == pod.namespace && o.node.name == pod.name && o.node.apiGroup == ""
    && o.node.status == PodStatus(pod) && o.node.drillable && o.node.group == "" && o.node.weight == 1
    && o.node.externalPeers == 0 && o.labels == pod.labels && o.spec == pod.spec && o.claimPrefixes == []
  }

  function BareOwner(pod: Pod): Owner {
    Owner(PodNode(pod, ""), pod.labels, pod.spec, [])
  }

  lemma BareOwnerIs(o: Owner, pod: Pod)
    ensures o == BareOwner(pod) <==> StandsForItself(o, pod)
  {
    hide PodStatus;
  }

  /** The owner made up for an object: it has the labels and the spec of the first pod that led there.  Its
      weight and status count its pods. */
  ghost predicate MadeUpFor(o: Owner, namespace: string, top: OwnerRef, pod: Pod) {
    && o.node.id == top.kind + "/" + namespace + "/" + top.name
    && o.node.kind == top.kind && o.node.namespace == namespace && o.node.name == top.name
    && o.node.apiGroup == ApiGroup(top.apiVersion) && o.node.drillable && o.node.group == ""
    && o.node.externalPeers == 0 && o.labels == pod.labels && o.spec == pod.spec && o.claimPrefixes == []
  }

  /** The j-th pod is the first that was attributed through the ID. */
  ghost predicate FirstThrough(namespace: string, fates: seq<Fate>, j: nat, id: string) {
    j < |fates| && Through(namespace, fates[j], id) && forall k :: 0 <= k < j ==> !Through(namespace, fates[k], id)
  }

  ghost predicate IsMadeUp(o: Owner, namespace: string, pods: seq<Pod>, fates: seq<Fate>, n: nat, id: string)
    requires n <= |pods| == |fates|
  {
    exists j: nat :: j < n && FirstThrough(namespace, fates, j, id) && MadeUpFor(o, namespace, fates[j].top, pods[j])
  }

  ghost predicate IsBareOwner(o: Owner, pods: seq<Pod>, fates: seq<Fate>, n: nat)
    requires n <= |pods| == |fates|
  {
    exists j :: 0 <= j < n && fates[j].Bare? && o == BareOwner(pods[j])
  }

  ghost predicate IsGenericAt(book: Book, i: nat) {
    i < |book.owners| && book.owners[i].node.id in book.generic && book.generic[book.owners[i].node.id] == i
  }

  /** After n pods: the owners there were first are still there, every bare pod has its own ... */
  ghost predicate OthersTold(first: seq<Owner>, book: Book, pods: seq<Pod>, fates: seq<Fate>, n: nat)
    requires n <= |pods| == |fates|
  {
    && |first| <= |book.owners|
    && (forall i: nat :: i < |first| ==> book.owners[i] == first[i] && !IsGenericAt(book, i))
    && (forall i: nat :: |first| <= i < |book.owners| && !IsGenericAt(book, i) ==>
        IsBareOwner(book.owners[i], pods, fates, n))
    && (forall j :: 0 <= j < n && fates[j].Bare? ==>
          exists i: nat :: i < |book.owners| && !IsGenericAt(book, i) && book.owners[i] == BareOwner(pods[j]))
  }

  /** ... and every generic owner is made up for the first pod of its ID; there are no others. */
  ghost predicate GenericTold(book: Book, namespace: string, pods: seq<Pod>, fates: seq<Fate>, n: nat)
    requires n <= |pods| == |fates|
  {
    && (forall id :: id in book.generic ==>
          book.generic[id] < |book.owners| && IsMadeUp(book.owners[book.generic[id]], namespace, pods, fates, n, id))
    && (forall id, j :: 0 <= j < n && Through(namespace, fates[j], id) ==> id in book.generic)
  }

  ghost predicate Told(first: seq<Owner>, book: Book, namespace: string, pods: seq<Pod>, fates: seq<Fate>, n: nat)
    requires n <= |pods| == |fates|
  {
    OthersTold(first, book, pods, fates, n) && GenericTold(book, namespace, pods, fates, n)
  }

  lemma MadeUpStays(
    o: Owner, p: Owner, namespace: string, pods: seq<Pod>, fates: seq<Fate>, n: nat, id: string)
    requires 0 < n <= |pods| == |fates| && IsMadeUp(o, namespace, pods, fates, n - 1, id)
    requires p.labels == o.labels && p.spec == o.spec && p.claimPrefixes == o.claimPrefixes
    requires p.node == o.node.(status := p.node.status, weight := p.node.weight)
    ensures IsMadeUp(p, namespace, pods, fates, n, id)
  {
    hide FirstThrough;
  }

  lemma BareStays(o: Owner, pods: seq<Pod>, fates: seq<Fate>, n: nat)
    requires 0 < n <= |pods| == |fates| && IsBareOwner(o, pods, fates, n - 1)
    ensures IsBareOwner(o, pods, fates, n)
  {
  }

  /** A pod of a workload changes no owner. */
  lemma ToldOfWorkload(
    first: seq<Owner>, book: Book, r: Book, namespace: string, pods: seq<Pod>, fates: seq<Fate>, n: nat)
    requires 0 < n <= |pods| == |fates| && Told(first, book, namespace, pods, fates, n - 1)
    requires fates[n - 1].OfWorkload? && r.owners == book.owners && r.generic == book.generic
    ensures Told(first, r, namespace, pods, fates, n)
  {
    hide IsBareOwner, IsMadeUp, Through, BareOwner;
    ThroughMeansGeneric(namespace, fates[n - 1]);
    assert forall i: nat :: IsGenericAt(r, i) <==> IsGenericAt(book, i);
    forall i: nat | |first| <= i < |r.owners| && !IsGenericAt(r, i) ensures IsBareOwner(r.owners[i], pods, fates, n) {
      BareStays(book.owners[i], pods, fates, n);
    }
    forall id | id in r.generic ensures IsMadeUp(r.owners[r.generic[id]], namespace, pods, fates, n, id) {
      MadeUpStays(book.owners[book.generic[id]], r.owners[r.generic[id]], namespace, pods, fates, n, id);
    }
  }

  lemma ThroughMeansGeneric(namespace: string, fate: Fate)
    ensures forall id :: Through(namespace, fate, id) ==> fate.OfGeneric?
  {
  }

  /** If the pod is attributed through any ID, it is this one. */
  ghost predicate OnlyThrough(namespace: string, fate: Fate, id: string) {
    forall other :: Through(namespace, fate, other) ==> other == id
  }

  /** A bare pod brings its own owner. */
  lemma ToldOfBare(
    first: seq<Owner>, book: Book, r: Book, namespace: string, pods: seq<Pod>, fates: seq<Fate>, n: nat)
    requires 0 < n <= |pods| == |fates| && Told(first, book, namespace, pods, fates, n - 1) && book.Valid()
    requires fates[n - 1].Bare? && r.owners == book.owners + [BareOwner(pods[n - 1])] && r.generic == book.generic
    ensures Told(first, r, namespace, pods, fates, n)
  {
    hide IsMadeUp, Through, BareOwner;
    ThroughMeansGeneric(namespace, fates[n - 1]);
    var k := |book.owners|;
    assert forall i: nat :: i < k ==> (IsGenericAt(r, i) <==> IsGenericAt(book, i));
    assert r.owners[k] == BareOwner(pods[n - 1]) && !IsGenericAt(r, k);
    forall i: nat | |first| <= i < |r.owners| && !IsGenericAt(r, i) ensures IsBareOwner(r.owners[i], pods, fates, n) {
      if i < k {
        BareStays(book.owners[i], pods, fates, n);
      }
    }
    forall id | id in r.generic ensures IsMadeUp(r.owners[r.generic[id]], namespace, pods, fates, n, id) {
      MadeUpStays(book.owners[book.generic[id]], r.owners[r.generic[id]], namespace, pods, fates, n, id);
    }
    forall j | 0 <= j < n && fates[j].Bare?
      ensures exists i: nat :: i < |r.owners| && !IsGenericAt(r, i) && r.owners[i] == BareOwner(pods[j])
    {
      if j < n - 1 {
        var i: nat :| i < k && !IsGenericAt(book, i) && book.owners[i] == BareOwner(pods[j]);
        assert r.owners[i] == book.owners[i];
      }
    }
  }

  /** What a pod of an object does to the owners of others: nothing. */
  lemma OthersStay(first: seq<Owner>, book: Book, r: Book, pods: seq<Pod>, fates: seq<Fate>, n: nat)
    requires 0 < n <= |pods| == |fates| && OthersTold(first, book, pods, fates, n - 1) && !fates[n - 1].Bare?
    requires |book.owners| <= |r.owners|
    requires forall i: nat :: i < |book.owners| ==> (IsGenericAt(r, i) <==> IsGenericAt(book, i))
    requires forall i: nat :: i < |book.owners| && !IsGenericAt(book, i) ==> r.owners[i] == book.owners[i]
    requires forall i: nat :: |book.owners| <= i < |r.owners| ==> IsGenericAt(r, i)
    ensures OthersTold(first, r, pods, fates, n)
  {
    hide IsBareOwner, BareOwner, IsGenericAt;
    forall i: nat | |first| <= i < |r.owners| && !IsGenericAt(r, i) ensures IsBareOwner(r.owners[i], pods, fates, n) {
      BareStays(book.owners[i], pods, fates, n);
    }
    forall j | 0 <= j < n && fates[j].Bare?
      ensures exists i: nat :: i < |r.owners| && !IsGenericAt(r, i) && r.owners[i] == BareOwner(pods[j])
    {
      var i: nat :| i < |book.owners| && !IsGenericAt(book, i) && book.owners[i] == BareOwner(pods[j]);
      assert r.owners[i] == book.owners[i];
    }
  }

  /** A pod of an object that has its owner already updates that one. */
  lemma ToldOfKnown(
    first: seq<Owner>, book: Book, r: Book, namespace: string, pods: seq<Pod>, fates: seq<Fate>, n: nat, id: string,
    o: Owner)
    requires 0 < n <= |pods| == |fates| && Told(first, book, namespace, pods, fates, n - 1) && book.Valid()
    requires id in book.generic && OnlyThrough(namespace, fates[n - 1], id)
    requires !fates[n - 1].Bare? && r.generic == book.generic && r.owners == book.owners[book.generic[id] := o]
    requires var was := book.owners[book.generic[id]];
             && o.labels == was.labels && o.spec == was.spec && o.claimPrefixes == was.claimPrefixes
             && o.node == was.node.(status := o.node.status, weight := o.node.weight)
    ensures Told(first, r, namespace, pods, fates, n)
  {
    hide IsMadeUp, Through, OthersTold;
    var g := book.generic[id];
    assert IsGenericAt(book, g);
    OthersStay(first, book, r, pods, fates, n);
    hide IsGenericAt;
    forall other | other in r.generic ensures IsMadeUp(r.owners[r.generic[other]], namespace, pods, fates, n, other) {
      MadeUpStays(book.owners[book.generic[other]], r.owners[r.generic[other]], namespace, pods, fates, n, other);
    }
  }

  /** The first pod of an object brings the owner made up for it. */
  lemma ToldOfNew(
    first: seq<Owner>, book: Book, r: Book, namespace: string, pods: seq<Pod>, fates: seq<Fate>, n: nat, id: string,
    o: Owner)
    requires 0 < n <= |pods| == |fates| && Told(first, book, namespace, pods, fates, n - 1) && book.Valid()
    requires id !in book.generic && Through(namespace, fates[n - 1], id) && OnlyThrough(namespace, fates[n - 1], id)
    requires r.generic == book.generic[id := |book.owners|] && r.owners == book.owners + [o] && o.node.id == id
    requires MadeUpFor(o, namespace, fates[n - 1].top, pods[n - 1])
    ensures Told(first, r, namespace, pods, fates, n)
  {
    hide MadeUpFor, Through, OthersTold;
    ThroughMeansGeneric(namespace, fates[n - 1]);
    assert r.owners[|book.owners|] == o;
    OthersStay(first, book, r, pods, fates, n);
    hide IsGenericAt;
    assert FirstThrough(namespace, fates, n - 1, id);
    assert IsMadeUp(o, namespace, pods, fates, n, id);
    hide IsMadeUp, FirstThrough;
    forall other | other in r.generic ensures IsMadeUp(r.owners[r.generic[other]], namespace, pods, fates, n, other) {
      if other != id {
        MadeUpStays(book.owners[book.generic[other]], r.owners[r.generic[other]], namespace, pods, fates, n, other);
      }
    }
  }

  lemma RecordTells(
    first: seq<Owner>, book: Book, namespace: string, pods: seq<Pod>, fates: seq<Fate>, n: nat)
    requires 0 < n <= |pods| == |fates| && Told(first, book, namespace, pods, fates, n - 1) && book.Valid()
    ensures Told(first, Record(book, namespace, pods[n - 1], fates[n - 1]), namespace, pods, fates, n)
  {
    hide Told, PodStatus, WorstStatus, ApiGroup;
    var pod, fate := pods[n - 1], fates[n - 1];
    var r := Record(book, namespace, pod, fate);
    match fate {
      case Bare => ToldOfBare(first, book, r, namespace, pods, fates, n);
      case OfWorkload(_) => ToldOfWorkload(first, book, r, namespace, pods, fates, n);
      case OfGeneric(top) =>
        var id := NodeId(top.kind, namespace, top.name);
        var o := r.owners[r.generic[id]];
        if id in book.generic {
          ToldOfKnown(first, book, r, namespace, pods, fates, n, id, o);
        } else {
          ToldOfNew(first, book, r, namespace, pods, fates, n, id, o);
        }
    }
  }

  lemma {:induction false} RecordAllTells(first: Book, namespace: string, pods: seq<Pod>, fates: seq<Fate>, n: nat)
    requires first.Valid() && first.generic == map[] && n <= |pods| == |fates|
    ensures Told(first.owners, RecordAll(first, namespace, pods, fates, n), namespace, pods, fates, n)
  {
    hide Record;
    if n > 0 {
      hide Told;
      RecordAllTells(first, namespace, pods, fates, n - 1);
      RecordTells(first.owners, RecordAll(first, namespace, pods, fates, n - 1), namespace, pods, fates, n);
    }
  }

  /** Every owner listPodOwners returns is a drawn workload, a pod that stands for itself, or made up for the
      first of the pods that led to its ID ... */
  lemma OwnersAreJustified(inv: Inventory, o: Owner)
    requires Readable(inv) && o in Attributed(inv).owners
    ensures || (exists d :: d in Draws(inv) && d.owner == o)
            || (exists j :: 0 <= j < |inv.pods.items| && FatesIn(inv)[j].Bare? && StandsForItself(o, inv.pods.items[j]))
            || IsMadeUp(o, inv.namespace, inv.pods.items, FatesIn(inv), |inv.pods.items|, o.node.id)
  {
    hide RecordAll, Draws, FatesIn, StandsForItself, IsMadeUp, BareOwner;
    var first, book := Owners(Draws(inv)), Attributed(inv);
    RecordAllTells(FirstBook(first), inv.namespace, inv.pods.items, FatesIn(inv), |inv.pods.items|);
    var i :| 0 <= i < |book.owners| && book.owners[i] == o;
    if i < |first| {
      assert Draws(inv)[i] in Draws(inv);
    } else if !IsGenericAt(book, i) {
      var j :| 0 <= j < |inv.pods.items| && FatesIn(inv)[j].Bare? && o == BareOwner(inv.pods.items[j]);
      BareOwnerIs(o, inv.pods.items[j]);
    }
  }

  /** ... and none of these is missing. */
  lemma OwnersAreComplete(inv: Inventory)
    requires Readable(inv)
    ensures forall d :: d in Draws(inv) ==> d.owner in Attributed(inv).owners
    ensures forall j :: 0 <= j < |inv.pods.items| && FatesIn(inv)[j].Bare? ==>
              exists o :: o in Attributed(inv).owners && StandsForItself(o, inv.pods.items[j])
    ensures forall id, j :: 0 <= j < |inv.pods.items| && Through(inv.namespace, FatesIn(inv)[j], id) ==>
              exists o :: o in Attributed(inv).owners
                          && IsMadeUp(o, inv.namespace, inv.pods.items, FatesIn(inv), |inv.pods.items|, id)
  {
    hide RecordAll, Draws, FatesIn, StandsForItself, IsMadeUp, BareOwner, Through;
    var first, book := Owners(Draws(inv)), Attributed(inv);
    RecordAllTells(FirstBook(first), inv.namespace, inv.pods.items, FatesIn(inv), |inv.pods.items|);
    forall d | d in Draws(inv) ensures d.owner in book.owners {
      var i :| 0 <= i < |Draws(inv)| && Draws(inv)[i] == d;
      assert book.owners[i] == first[i];
    }
    forall j | 0 <= j < |inv.pods.items| && FatesIn(inv)[j].Bare?
      ensures exists o :: o in book.owners && StandsForItself(o, inv.pods.items[j])
    {
      var i: nat :| i < |book.owners| && !IsGenericAt(book, i) && book.owners[i] == BareOwner(inv.pods.items[j]);
      BareOwnerIs(book.owners[i], inv.pods.items[j]);
      assert book.owners[i] in book.owners;
    }
    forall id, j | 0 <= j < |inv.pods.items| && Through(inv.namespace, FatesIn(inv)[j], id)
      ensures exists o :: o in book.owners
                          && IsMadeUp(o, inv.namespace, inv.pods.items, FatesIn(inv), |inv.pods.items|, id)
    {
      assert book.owners[book.generic[id]] in book.owners;
    }
  }
}
