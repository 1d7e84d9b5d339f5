/** When the owner made up for an object the view does not read reaches the graph.  Owners can share
    an ID, and the graph keeps the first: a driver pod is drawn in place of the owner of its executors
    if it is listed before them, and the owner, with its count of pods, otherwise. */
module GenericOwners {
  import opened GraphBuilder
  import opened KubeObjects
  import opened KubeStatus
  import opened PodAttribution
  import opened TopologyGraph

  /** No earlier owner has the ID of this one. */
  ghost predicate IsFirst(owners: seq<Owner>, i: nat) {
    i < |owners| && forall j :: 0 <= j < i ==> owners[j].node.id != owners[i].node.id
  }

  /** Of the owners that share an ID, the first is among the nodes. */
  ghost predicate OwnersShown(nodes: seq<Node>, owners: seq<Owner>) {
    forall i: nat :: IsFirst(owners, i) ==> Stored(owners[i].node) in nodes
  }

  lemma ShownAmongMore(before: seq<Node>, after: seq<Node>, owners: seq<Owner>)
    requires before <= after && OwnersShown(before, owners)
    ensures OwnersShown(after, owners)
  {
    hide Stored;
    assert forall n :: n in before ==> n in after;
  }

  ghost predicate ShownUpTo(nodes: seq<Node>, owners: seq<Owner>, n: nat) {
    forall i: nat :: i < n && IsFirst(owners, i) ==> Stored(owners[i].node) in nodes
  }

  ghost function OwnerIds(owners: seq<Owner>, n: nat): set<string>
    requires n <= |owners|
  {
    set i | 0 <= i < n :: owners[i].node.id
  }

  lemma NoneShown(nodes: seq<Node>, owners: seq<Owner>)
    ensures OwnerIds(owners, 0) == {} && ShownUpTo(nodes, owners, 0)
  {
  }

  lemma AllShown(nodes: seq<Node>, owners: seq<Owner>)
    requires ShownUpTo(nodes, owners, |owners|)
    ensures OwnersShown(nodes, owners)
  {
    hide Stored;
  }

  /** One more owner: its node is new, or an earlier owner has its ID. */
  lemma ShownOneMore(nodes: seq<Node>, owners: seq<Owner>, n: nat)
    requires n < |owners| && ShownUpTo(nodes, owners, n)
    ensures OwnerIds(owners, n + 1) == OwnerIds(owners, n) + {owners[n].node.id}
    ensures var more := if owners[n].node.id in OwnerIds(owners, n) then nodes else nodes + [Stored(owners[n].node)];
            ShownUpTo(more, owners, n + 1)
  {
    hide Stored;
  }

  /** A pod that nothing controls has this ID. */
  ghost predicate BareAs(pod: Pod, fate: Fate, id: string) {
    fate.Bare? && PodNode(pod, "").id == id
  }

  ghost predicate BareAmong(pods: seq<Pod>, fates: seq<Fate>, n: nat, id: string)
    requires n <= |pods| == |fates|
  {
    exists q :: 0 <= q < n && BareAs(pods[q], fates[q], id)
  }

  /** The n pods include one attributed through `id` before any pod of that ID that stands for itself. */
  ghost predicate ThroughFirst(namespace: string, pods: seq<Pod>, fates: seq<Fate>, n: nat, id: string)
    requires n <= |pods| == |fates|
  {
    exists p :: 0 <= p < n && Through(namespace, fates[p], id) && !BareAmong(pods, fates, p, id)
  }

  /** How the generic owner of an ID stands among the owners: `n` pods are recorded. */
  ghost predicate Standing(
    first: seq<Owner>, book: Book, namespace: string, pods: seq<Pod>, fates: seq<Fate>, n: nat, id: string)
    requires book.Valid() && n <= |pods| == |fates|
  {
    && (id !in book.generic ==>
          && !ThroughFirst(namespace, pods, fates, n, id)
          && (HasOwner(book.owners, id) <==> HasOwner(first, id) || BareAmong(pods, fates, n, id)))
    && (id in book.generic ==>
          && (exists p :: 0 <= p < n && Through(namespace, fates[p], id))
          && (IsFirst(book.owners, book.generic[id])
              <==> !HasOwner(first, id) && ThroughFirst(namespace, pods, fates, n, id)))
  }

  /** Only generic owners count pods. */
  ghost predicate OthersWeighOne(book: Book) {
    forall i :: 0 <= i < |book.owners| ==>
      var node := book.owners[i].node;
      node.weight == 1 || (node.id in book.generic && book.generic[node.id] == i)
  }

  lemma RecordKeepsWeights(book: Book, namespace: string, pod: Pod, fate: Fate)
    requires book.Valid() && OthersWeighOne(book)
    ensures OthersWeighOne(Record(book, namespace, pod, fate))
  {
    hide NodeId, PodStatus, WorstStatus, ApiGroup;
  }

  /** The owners of one book and a later one, as far as an ID is concerned: a pod may have brought it,
      for itself or as that of a generic owner, which comes last if it is new. */
  ghost predicate IdsAfter(book: Book, r: Book, bare: bool, through: bool, id: string) {
    && KeepsIds(book.owners, r.owners)
    && (HasOwner(r.owners, id) <==> HasOwner(book.owners, id) || bare || through)
    && (id in r.generic <==> id in book.generic || through)
    && (id in r.generic ==> r.generic[id] == if id in book.generic then book.generic[id] else |book.owners|)
  }

  lemma RecordIds(book: Book, namespace: string, pod: Pod, fate: Fate, id: string)
    requires book.Valid()
    ensures IdsAfter(book, Record(book, namespace, pod, fate), BareAs(pod, fate, id), Through(namespace, fate, id), id)
  {
    match fate {
      case Bare => RecordBareIds(book, namespace, pod, id);
      case OfWorkload(_) =>
      case OfGeneric(top) => RecordGenericIds(book, namespace, pod, top, id);
    }
  }

  lemma RecordBareIds(book: Book, namespace: string, pod: Pod, id: string)
    requires book.Valid()
    ensures IdsAfter(book, Record(book, namespace, pod, Bare), BareAs(pod, Bare, id), false, id)
  {
    hide NodeId, HasOwner, PodStatus;
    var more := [Owner(PodNode(pod, ""), pod.labels, pod.spec, [])];
    assert Record(book, namespace, pod, Bare).owners == book.owners + more;
    OwnersOfBoth(book.owners, more, id);
    OneOwner(more[0], id);
  }

  lemma OneOwner(owner: Owner, id: string)
    ensures HasOwner([owner], id) <==> owner.node.id == id
  {
    assert [owner][0] == owner;
  }

  lemma RecordGenericIds(book: Book, namespace: string, pod: Pod, top: OwnerRef, id: string)
    requires book.Valid()
    ensures IdsAfter(book, Record(book, namespace, pod, OfGeneric(top)), false,
              Through(namespace, OfGeneric(top), id), id)
  {
    hide NodeId, PodStatus, WorstStatus, ApiGroup, HasOwner;
    WithGenericIds(book, namespace, pod, top, id);
    hide WithGeneric;
    SameIds(WithGeneric(book, namespace, top, pod).owners, Record(book, namespace, pod, OfGeneric(top)).owners, id);
  }

  lemma OwnersOfBoth(a: seq<Owner>, b: seq<Owner>, id: string)
    ensures HasOwner(a + b, id) <==> HasOwner(a, id) || HasOwner(b, id)
  {
    var both := a + b;
    if i :| 0 <= i < |a| && a[i].node.id == id {
      assert both[i].node.id == id;
    }
    if i :| 0 <= i < |b| && b[i].node.id == id {
      assert both[|a| + i].node.id == id;
    }
  }

  lemma SameIds(a: seq<Owner>, b: seq<Owner>, id: string)
    requires |a| == |b| && forall i :: 0 <= i < |a| ==> a[i].node.id == b[i].node.id
    ensures HasOwner(a, id) <==> HasOwner(b, id)
  {
  }

  lemma WithGenericIds(book: Book, namespace: string, pod: Pod, top: OwnerRef, id: string)
    requires book.Valid()
    ensures IdsAfter(book, WithGeneric(book, namespace, top, pod), false, Through(namespace, OfGeneric(top), id), id)
  {
    hide NodeId, ApiGroup, HasOwner;
    var own := NodeId(top.kind, namespace, top.name);
    if own in book.generic {
      assert book.owners[book.generic[own]].node.id == own;
      OwnerAt(book.owners, book.generic[own]);
    } else {
      OwnersOfBoth(book.owners, [GenericOwner(namespace, top, pod)], id);
      OneOwner(GenericOwner(namespace, top, pod), id);
    }
  }

  lemma OwnerAt(owners: seq<Owner>, i: nat)
    requires i < |owners|
    ensures HasOwner(owners, owners[i].node.id)
  {
  }

  lemma FirstStays(before: seq<Owner>, after: seq<Owner>, i: nat)
    requires KeepsIds(before, after) && i < |before|
    ensures IsFirst(before, i) <==> IsFirst(after, i)
  {
  }

  lemma RecordKeepsStanding(
    first: seq<Owner>, book: Book, namespace: string, pods: seq<Pod>, fates: seq<Fate>, n: nat, id: string)
    requires book.Valid() && 0 < n <= |pods| == |fates|
    requires Standing(first, book, namespace, pods, fates, n - 1, id)
    ensures Standing(first, Record(book, namespace, pods[n - 1], fates[n - 1]), namespace, pods, fates, n, id)
  {
    var r := Record(book, namespace, pods[n - 1], fates[n - 1]);
    RecordIds(book, namespace, pods[n - 1], fates[n - 1], id);
    AmongMore(namespace, pods, fates, n, id);
    hide Record, BareAs, Through, ThroughFirst, BareAmong, IsFirst, HasOwner;
    if id in book.generic {
      FirstStays(book.owners, r.owners, book.generic[id]);
    } else if id in r.generic {
      LastIsFirst(book.owners, r.owners);
    }
  }

  lemma LastIsFirst(before: seq<Owner>, after: seq<Owner>)
    requires KeepsIds(before, after) && |before| < |after|
    ensures IsFirst(after, |before|) <==> !HasOwner(before, after[|before|].node.id)
  {
  }

  lemma AmongMore(namespace: string, pods: seq<Pod>, fates: seq<Fate>, n: nat, id: string)
    requires 0 < n <= |pods| == |fates|
    ensures BareAmong(pods, fates, n, id)
            <==> BareAmong(pods, fates, n - 1, id) || BareAs(pods[n - 1], fates[n - 1], id)
    ensures ThroughFirst(namespace, pods, fates, n, id) <==>
              || ThroughFirst(namespace, pods, fates, n - 1, id)
              || (Through(namespace, fates[n - 1], id) && !BareAmong(pods, fates, n - 1, id))
    ensures !BareAmong(pods, fates, n - 1, id) && (exists p :: 0 <= p < n - 1 && Through(namespace, fates[p], id)) ==>
              ThroughFirst(namespace, pods, fates, n - 1, id)
  {
    hide Through, BareAs;
    if p :| 0 <= p < n - 1 && Through(namespace, fates[p], id) && !BareAmong(pods, fates, n - 1, id) {
      assert !BareAmong(pods, fates, p, id);
    }
  }

  /** The pod is the first of the ID that stands for itself. */
  ghost predicate IsFirstBare(pods: seq<Pod>, fates: seq<Fate>, q: nat, id: string)
    requires |pods| == |fates|
  {
    q < |pods| && BareAs(pods[q], fates[q], id) && !BareAmong(pods, fates, q, id)
  }

  /** What is drawn for an owner that is first with its ID and is not generic: a drawn workload as it
      was before the pods were looked at, or a pod that stands for itself. */
  ghost predicate HeldBy(
    first: seq<Owner>, book: Book, pods: seq<Pod>, fates: seq<Fate>, i: nat, id: string)
    requires i < |book.owners| && |pods| == |fates|
  {
    if HasOwner(first, id) then i < |first| && book.owners[i].node == first[i].node
    else exists q: nat :: IsFirstBare(pods, fates, q, id) && book.owners[i].node == PodNode(pods[q], "")
  }

  /** The owner at i is first with this ID, and is not the generic owner of it. */
  ghost predicate Holds(book: Book, i: nat, id: string) {
    IsFirst(book.owners, i) && book.owners[i].node.id == id && !(id in book.generic && book.generic[id] == i)
  }

  ghost predicate OthersAreHeld(first: seq<Owner>, book: Book, pods: seq<Pod>, fates: seq<Fate>, id: string)
    requires |pods| == |fates|
  {
    forall i: nat :: Holds(book, i, id) ==> HeldBy(first, book, pods, fates, i, id)
  }

  /** A pod changes no node but that of its generic owner. */
  lemma RecordKeepsNode(book: Book, namespace: string, pod: Pod, fate: Fate, i: nat, id: string)
    requires book.Valid() && i < |book.owners| && book.owners[i].node.id == id
    ensures var r := Record(book, namespace, pod, fate);
            i < |r.owners| && (r.owners[i].node == book.owners[i].node || (id in r.generic && r.generic[id] == i))
  {
    hide NodeId, PodStatus, WorstStatus, ApiGroup;
  }

  /** An owner that is new is that of a bare pod, or the generic owner of its ID. */
  lemma NewOwnerIs(book: Book, namespace: string, pod: Pod, fate: Fate, id: string)
    requires book.Valid()
    ensures var r, i := Record(book, namespace, pod, fate), |book.owners|;
            i < |r.owners| && r.owners[i].node.id == id ==>
              || (id in r.generic && r.generic[id] == i)
              || (BareAs(pod, fate, id) && |r.owners| == i + 1 && r.owners[i].node == PodNode(pod, ""))
    ensures |Record(book, namespace, pod, fate).owners| <= |book.owners| + 1
  {
    hide NodeId, PodStatus, WorstStatus, ApiGroup;
  }

  lemma RecordKeepsHeld(
    first: seq<Owner>, book: Book, namespace: string, pods: seq<Pod>, fates: seq<Fate>, n: nat, id: string)
    requires book.Valid() && 0 < n <= |pods| == |fates|
    requires Standing(first, book, namespace, pods, fates, n - 1, id)
    requires OthersAreHeld(first, book, pods, fates, id)
    ensures OthersAreHeld(first, Record(book, namespace, pods[n - 1], fates[n - 1]), pods, fates, id)
  {
    var pod, fate := pods[n - 1], fates[n - 1];
    var r := Record(book, namespace, pod, fate);
    RecordIds(book, namespace, pod, fate, id);
    forall i: nat | Holds(r, i, id) ensures HeldBy(first, r, pods, fates, i, id) {
      if i < |book.owners| {
        FirstStays(book.owners, r.owners, i);
        RecordKeepsNode(book, namespace, pod, fate, i, id);
        hide Record, BareAs, Through, ThroughFirst, BareAmong, IsFirst, HasOwner, PodNode, IsFirstBare;
        assert Holds(book, i, id);
      } else {
        NewOwnerIs(book, namespace, pod, fate, id);
        hide Record, BareAs, Through, ThroughFirst, BareAmong, PodNode;
        LastIsFirst(book.owners, r.owners);
        assert !HasOwner(book.owners, id);
        assert IsFirstBare(pods, fates, n - 1, id);
      }
    }
  }

  lemma {:induction false} RecordAllStanding(
    first: Book, namespace: string, pods: seq<Pod>, fates: seq<Fate>, n: nat, id: string)
    requires first.Valid() && first.generic == map[] && n <= |pods| == |fates| && OthersWeighOne(first)
    ensures OthersWeighOne(RecordAll(first, namespace, pods, fates, n))
    ensures Standing(first.owners, RecordAll(first, namespace, pods, fates, n), namespace, pods, fates, n, id)
    ensures OthersAreHeld(first.owners, RecordAll(first, namespace, pods, fates, n), pods, fates, id)
  {
    hide Record, OthersWeighOne;
    if n > 0 {
      hide Standing, OthersAreHeld;
      var book := RecordAll(first, namespace, pods, fates, n - 1);
      RecordAllStanding(first, namespace, pods, fates, n - 1, id);
      RecordKeepsWeights(book, namespace, pods[n - 1], fates[n - 1]);
      RecordKeepsStanding(first.owners, book, namespace, pods, fates, n, id);
      RecordKeepsHeld(first.owners, book, namespace, pods, fates, n, id);
    }
  }

  /** No drawn workload has the ID, and no pod of that ID that stands for itself is listed before the
      pods attributed through it. */
  ghost predicate ComesFirst(inv: Inventory, id: string)
    requires Readable(inv)
  {
    !HasOwner(Owners(Draws(inv)), id) && ThroughFirst(inv.namespace, inv.pods.items, FatesIn(inv), |inv.pods.items|, id)
  }

  lemma AttributedStanding(inv: Inventory, id: string)
    requires Readable(inv) && id in Attributed(inv).generic
    ensures IsFirst(Attributed(inv).owners, Attributed(inv).generic[id]) <==> ComesFirst(inv, id)
    ensures OthersWeighOne(Attributed(inv))
    ensures OthersAreHeld(Owners(Draws(inv)), Attributed(inv), inv.pods.items, FatesIn(inv), id)
  {
    hide RecordAll, Draws, FatesIn, WellDrawn, IsFirst, ThroughFirst, HasOwner, OthersAreHeld;
    DrawsAreWellDrawn(inv);
    assert forall i :: 0 <= i < |Draws(inv)| ==> Draws(inv)[i] in Draws(inv);
    DrawnWeighOne(inv.namespace, Draws(inv));
    RecordAllStanding(FirstBook(Owners(Draws(inv))), inv.namespace, inv.pods.items, FatesIn(inv), |inv.pods.items|, id);
  }

  lemma DrawnWeighOne(namespace: string, draws: seq<Drawn>)
    requires forall i :: 0 <= i < |draws| ==> WellDrawn(draws[i], namespace)
    ensures OthersWeighOne(FirstBook(Owners(draws)))
  {
    hide Owners;
  }

  lemma {:induction false} FirstWithId(owners: seq<Owner>, id: string, n: nat) returns (i: nat)
    requires n < |owners| && owners[n].node.id == id
    ensures i <= n && IsFirst(owners, i) && owners[i].node.id == id
  {
    if j :| 0 <= j < n && owners[j].node.id == id {
      i := FirstWithId(owners, id, j);
    } else {
      i := n;
    }
  }

  /** What is drawn in place of a generic owner that does not come first: the first drawn workload of
      the ID or, if there is none, the first pod of that ID that stands for itself. */
  ghost predicate InPlace(inv: Inventory, id: string, node: Node)
    requires Readable(inv)
  {
    if HasOwner(Owners(Draws(inv)), id) then
      exists i: nat :: IsFirst(Owners(Draws(inv)), i) && Draws(inv)[i].owner.node.id == id
                       && node == Stored(Draws(inv)[i].owner.node)
    else
      exists q: nat :: IsFirstBare(inv.pods.items, FatesIn(inv), q, id)
                       && node == Stored(PodNode(inv.pods.items[q], ""))
  }

  lemma OtherIsInPlace(inv: Inventory, id: string, i: nat)
    requires Readable(inv) && id in Attributed(inv).generic && Holds(Attributed(inv), i, id)
    ensures InPlace(inv, id, Stored(Attributed(inv).owners[i].node))
  {
    hide Attributed, Draws, FatesIn, IsFirstBare, Stored, PodNode, ComesFirst, OthersWeighOne;
    var book, first := Attributed(inv), Owners(Draws(inv));
    EveryEntryIsAnOwner(inv);
    AttributedStanding(inv, id);
    assert HeldBy(first, book, inv.pods.items, FatesIn(inv), i, id);
    if HasOwner(first, id) {
      FirstStays(first, book.owners, i);
    }
  }

  /** A graph that shows the owners draws one node for the ID of a generic owner.  It counts the pods
      attributed through that ID, and has the worst of their statuses, if the owner comes first;
      otherwise it is another object's and weighs one. */
  lemma GenericOwnerIsShown(inv: Inventory, nodes: seq<Node>, id: string) returns (k: nat)
    requires Readable(inv) && DistinctNodes(nodes) && OwnersShown(nodes, Attributed(inv).owners)
    requires GenericCount(inv.namespace, FatesIn(inv), |inv.pods.items|, id) > 0
    ensures k < |nodes| && nodes[k].id == id && forall j :: 0 <= j < |nodes| && nodes[j].id == id ==> j == k
    ensures nodes[k].weight
            == if ComesFirst(inv, id) then GenericCount(inv.namespace, FatesIn(inv), |inv.pods.items|, id) else 1
    ensures !ComesFirst(inv, id) ==> InPlace(inv, id, nodes[k])
    ensures ComesFirst(inv, id) ==>
              nodes[k].status == WorstGeneric(inv.namespace, inv.pods.items, FatesIn(inv), |inv.pods.items|, id)
  {
    hide RecordAll, Attributed, FatesIn, ComesFirst, OthersAreHeld, InPlace;
    var book := Attributed(inv);
    GenericOwnersCountTheirPods(inv, id);
    AttributedStanding(inv, id);
    var i := FirstWithId(book.owners, id, book.generic[id]);
    k :| 0 <= k < |nodes| && nodes[k] == Stored(book.owners[i].node);
    if i != book.generic[id] {
      OtherIsInPlace(inv, id, i);
    }
  }
}
