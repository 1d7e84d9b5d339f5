/** The cluster-wide storage lens of kube_storage_graph.go: claim, PersistentVolume, StorageClass. */
module StorageGraph {
  import opened ConfigRefs
  import opened GraphBuilder
  import opened KubeObjects
  import opened NamespaceGraph
  import opened Sets
  import opened TopologyGraph
  import opened Wrappers

  function VolumeId(name: string): string {
    NodeId("PersistentVolume", "", name)
  }

  function ClaimId(claim: Claim): string {
    NodeId("PersistentVolumeClaim", claim.namespace, claim.name)
  }

  /** The volumes that are drawn are those of these names. */
  ghost predicate VolumesAre(ids: set<string>, names: set<string>) {
    forall name :: VolumeId(name) in ids <==> name in names
  }

  lemma NoneDrawn()
    ensures VolumesAre({}, {})
  {
  }

  lemma VolumesMore(ids: set<string>, names: set<string>, name: string)
    requires VolumesAre(ids, names)
    ensures VolumesAre(ids + {VolumeId(name)}, names + {name})
  {
    forall other | VolumeId(other) == VolumeId(name) ensures other == name {
      SameIdSameName("PersistentVolume", "", other, name);
    }
    hide VolumeId;
  }

  /** Drawing a StorageClass or a claim draws no volume: the IDs differ early on. */
  lemma ClassIsNoVolume(ids: set<string>, names: set<string>, className: string)
    requires VolumesAre(ids, names)
    ensures VolumesAre(ids + {ClassNode(className).id}, names)
  {
    forall name ensures VolumeId(name) != ClassNode(className).id {
      assert VolumeId(name)[0] == 'P' && ClassNode(className).id[0] == 'S';
    }
  }

  lemma ClaimIsNoVolume(ids: set<string>, names: set<string>, claim: Claim)
    requires VolumesAre(ids, names)
    ensures VolumesAre(ids + {ClaimId(claim)}, names)
  {
    forall name ensures VolumeId(name) != ClaimId(claim) {
      assert VolumeId(name)[16] == '/' && ClaimId(claim)[16] == 'C';
    }
  }

  // StorageClasses and volumes

  ghost function ListedClasses(classes: seq<string>, n: nat): set<Node>
    requires n <= |classes|
  {
    if n == 0 then {} else ListedClasses(classes, n - 1) + {Stored(ClassNode(classes[n - 1]))}
  }

  ghost function ListedVolumes(volumes: seq<PersistentVolume>, n: nat): set<Node>
    requires n <= |volumes|
  {
    if n == 0 then {} else ListedVolumes(volumes, n - 1) + BoundNodes(volumes[n - 1])
  }

  ghost function VolumeEdges(volumes: seq<PersistentVolume>, n: nat): set<Edge>
    requires n <= |volumes|
  {
    if n == 0 then {}
    else VolumeEdges(volumes, n - 1) + ClassEdges(VolumeNode(volumes[n - 1]).id, volumes[n - 1].storageClass)
  }

  ghost function VolumeNames(volumes: seq<PersistentVolume>, n: nat): set<string>
    requires n <= |volumes|
  {
    if n == 0 then {} else VolumeNames(volumes, n - 1) + {volumes[n - 1].name}
  }

  method AddClasses(g: Builder, classes: seq<string>)
    requires g.Valid() && VolumesAre(g.nodeIds, {})
    modifies g`nodes, g`nodeIds, g`written
    ensures g.Valid() && VolumesAre(g.nodeIds, {})
    ensures forall before :: old(g.Good(before)) ==> g.Good(before)
    ensures g.written == old(g.written) + ListedClasses(classes, |classes|)
  {
    hide Builder.Valid, Builder.Good, Stored, ClassNode, VolumesAre;
    ghost var written0 := g.written;
    for i := 0 to |classes|
      invariant g.Valid() && VolumesAre(g.nodeIds, {}) && forall before :: old(g.Good(before)) ==> g.Good(before)
      invariant g.written == written0 + ListedClasses(classes, i)
    {
      ClassIsNoVolume(g.nodeIds, {}, classes[i]);
      var _ := AddStorageClass(g, classes[i]);
    }
  }

  method AddVolume(g: Builder, pv: PersistentVolume, ghost names: set<string>)
    requires g.Valid() && VolumesAre(g.nodeIds, names)
    modifies g`nodes, g`nodeIds, g`written, g`edges, g`edgeSet
    ensures g.Valid() && VolumesAre(g.nodeIds, names + {pv.name})
    ensures forall before :: old(g.Good(before)) ==> g.Good(before)
    ensures g.edgeSet == old(g.edgeSet) + ClassEdges(VolumeNode(pv).id, pv.storageClass)
    ensures g.written == old(g.written) + BoundNodes(pv)
  {
    hide Builder.Valid, Builder.Good, Stored, ClassNode, VolumesAre, ClassEdges, ClassNodes, NoAllows, NoPolicies;
    hide NodeId;
    assert VolumeNode(pv).id == VolumeId(pv.name);
    VolumesMore(g.nodeIds, names, pv.name);
    hide VolumeNode, VolumeId;
    var id := AddPersistentVolume(g, pv);
    ClassIsNoVolume(g.nodeIds, names + {pv.name}, pv.storageClass);
    AddClass(g, id, pv.storageClass);
  }

  method AddAllVolumes(g: Builder, volumes: seq<PersistentVolume>)
    requires g.Valid() && VolumesAre(g.nodeIds, {})
    modifies g`nodes, g`nodeIds, g`written, g`edges, g`edgeSet
    ensures g.Valid() && VolumesAre(g.nodeIds, VolumeNames(volumes, |volumes|))
    ensures forall before :: old(g.Good(before)) ==> g.Good(before)
    ensures g.edgeSet == old(g.edgeSet) + VolumeEdges(volumes, |volumes|)
    ensures g.written == old(g.written) + ListedVolumes(volumes, |volumes|)
  {
    hide Builder.Valid, Builder.Good, VolumesAre, ClassEdges, BoundNodes, NoAllows, NoPolicies, VolumeNode;
    ghost var edges0, written0 := g.edgeSet, g.written;
    for i := 0 to |volumes|
      invariant g.Valid() && VolumesAre(g.nodeIds, VolumeNames(volumes, i))
                && forall before :: old(g.Good(before)) ==> g.Good(before)
      invariant g.edgeSet == edges0 + VolumeEdges(volumes, i)
      invariant g.written == written0 + ListedVolumes(volumes, i)
    {
      UnionAssoc(edges0, VolumeEdges(volumes, i), ClassEdges(VolumeNode(volumes[i]).id, volumes[i].storageClass));
      UnionAssoc(written0, ListedVolumes(volumes, i), BoundNodes(volumes[i]));
      AddVolume(g, volumes[i], VolumeNames(volumes, i));
    }
  }

  // Claims

  function ClaimNode(claim: Claim): (n: Node)
    ensures n.id == ClaimId(claim) && n.group == ""
  {
    Plain("PersistentVolumeClaim", claim.namespace, claim.name, claim.status, true, 1)
  }

  predicate IsBound(claim: Claim, names: set<string>) {
    claim.volume != "" && claim.volume in names
  }

  /** A claim leads to its volume if that is listed, otherwise to the StorageClass it asks for. */
  ghost function ClaimEdges(claim: Claim, names: set<string>): set<Edge> {
    if IsBound(claim, names) then {Edge(ClaimId(claim), VolumeId(claim.volume), "bound")}
    else ClassEdges(ClaimId(claim), ClassOf(claim))
  }

  ghost function ClaimNodes(claim: Claim, names: set<string>): set<Node> {
    {Stored(ClaimNode(claim))} + (if IsBound(claim, names) then {} else ClassNodes(ClassOf(claim)))
  }

  ghost function AllClaimEdges(claims: seq<Claim>, names: set<string>, n: nat): set<Edge>
    requires n <= |claims|
  {
    if n == 0 then {} else AllClaimEdges(claims, names, n - 1) + ClaimEdges(claims[n - 1], names)
  }

  ghost function AllClaimNodes(claims: seq<Claim>, names: set<string>, n: nat): set<Node>
    requires n <= |claims|
  {
    if n == 0 then {} else AllClaimNodes(claims, names, n - 1) + ClaimNodes(claims[n - 1], names)
  }

  method AddClaim(g: Builder, claim: Claim, ghost names: set<string>)
    requires g.Valid() && VolumesAre(g.nodeIds, names)
    modifies g`nodes, g`nodeIds, g`written, g`edges, g`edgeSet
    ensures g.Valid() && VolumesAre(g.nodeIds, names)
    ensures forall before :: old(g.Good(before)) ==> g.Good(before)
    ensures g.edgeSet == old(g.edgeSet) + ClaimEdges(claim, names)
    ensures g.written == old(g.written) + ClaimNodes(claim, names)
  {
    hide Builder.Valid, Builder.Good, Stored, ClassNode, ClassEdges, ClassNodes, NoAllows, NoPolicies, ClaimNode;
    hide ClaimId, ClassOf, NodeId;
    ClaimIsNoVolume(g.nodeIds, names, claim);
    var node := ClaimNode(claim);
    g.AddNode(node);
    var volumeId := VolumeId(claim.volume);
    assert g.HasNode(volumeId) <==> claim.volume in names;
    hide VolumesAre, VolumeId;
    if claim.volume != "" && g.HasNode(volumeId) {
      g.AddEdge(node.id, volumeId, "bound");
    } else {
      ClassIsNoVolume(g.nodeIds, names, ClassOf(claim));
      AddClass(g, node.id, ClassOf(claim));
    }
  }

  method AddClaims(g: Builder, claims: seq<Claim>, ghost names: set<string>)
    requires g.Valid() && VolumesAre(g.nodeIds, names)
    modifies g`nodes, g`nodeIds, g`written, g`edges, g`edgeSet
    ensures g.Valid()
    ensures forall before :: old(g.Good(before)) ==> g.Good(before)
    ensures g.edgeSet == old(g.edgeSet) + AllClaimEdges(claims, names, |claims|)
    ensures g.written == old(g.written) + AllClaimNodes(claims, names, |claims|)
  {
    hide Builder.Valid, Builder.Good, VolumesAre, ClaimEdges, ClaimNodes;
    ghost var edges0, written0 := g.edgeSet, g.written;
    for i := 0 to |claims|
      invariant g.Valid() && VolumesAre(g.nodeIds, names) && forall before :: old(g.Good(before)) ==> g.Good(before)
      invariant g.edgeSet == edges0 + AllClaimEdges(claims, names, i)
      invariant g.written == written0 + AllClaimNodes(claims, names, i)
    {
      UnionAssoc(edges0, AllClaimEdges(claims, names, i), ClaimEdges(claims[i], names));
      UnionAssoc(written0, AllClaimNodes(claims, names, i), ClaimNodes(claims[i], names));
      AddClaim(g, claims[i], names);
    }
  }

  ghost function StorageEdges(volumes: seq<PersistentVolume>, claims: seq<Claim>): set<Edge> {
    VolumeEdges(volumes, |volumes|) + AllClaimEdges(claims, VolumeNames(volumes, |volumes|), |claims|)
  }

  ghost function StorageNodes(classes: seq<string>, volumes: seq<PersistentVolume>, claims: seq<Claim>): set<Node> {
    ListedClasses(classes, |classes|) + ListedVolumes(volumes, |volumes|)
    + AllClaimNodes(claims, VolumeNames(volumes, |volumes|), |claims|)
  }

  // What it means

  /** A volume of that name is listed. */
  ghost predicate IsListed(volumes: seq<PersistentVolume>, name: string) {
    exists i :: 0 <= i < |volumes| && volumes[i].name == name
  }

  /** A claim leads to its volume if that is listed, otherwise to the StorageClass it asks for. */
  ghost predicate ClaimLeads(claim: Claim, volumes: seq<PersistentVolume>, e: Edge) {
    if claim.volume != "" && IsListed(volumes, claim.volume)
    then e == Edge(ClaimId(claim), VolumeId(claim.volume), "bound")
    else ClassUsed(ClaimId(claim), ClassOf(claim), e)
  }

  lemma {:induction false} VolumeNamesMeaning(volumes: seq<PersistentVolume>, n: nat, name: string)
    requires n <= |volumes|
    ensures name in VolumeNames(volumes, n) <==> exists i :: 0 <= i < n && volumes[i].name == name
  {
    if n > 0 {
      VolumeNamesMeaning(volumes, n - 1, name);
    }
  }

  lemma {:induction false} VolumeEdgesMeaning(volumes: seq<PersistentVolume>, n: nat, e: Edge)
    requires n <= |volumes|
    ensures e in VolumeEdges(volumes, n)
            <==> exists i :: 0 <= i < n && ClassUsed(VolumeId(volumes[i].name), volumes[i].storageClass, e)
  {
    hide NoAllows, ClassNode, NodeId;
    if n > 0 {
      VolumeEdgesMeaning(volumes, n - 1, e);
    }
  }

  lemma ClaimEdgesMeaning(claim: Claim, volumes: seq<PersistentVolume>, e: Edge)
    ensures e in ClaimEdges(claim, VolumeNames(volumes, |volumes|)) <==> ClaimLeads(claim, volumes, e)
  {
    hide NoAllows, ClassNode, ClaimId, VolumeId, ClassOf;
    VolumeNamesMeaning(volumes, |volumes|, claim.volume);
  }

  lemma {:induction false} AllClaimEdgesMeaning(claims: seq<Claim>, volumes: seq<PersistentVolume>, n: nat, e: Edge)
    requires n <= |claims|
    ensures e in AllClaimEdges(claims, VolumeNames(volumes, |volumes|), n)
            <==> exists i :: 0 <= i < n && ClaimLeads(claims[i], volumes, e)
  {
    hide ClaimEdges, ClaimLeads, VolumeNames;
    if n > 0 {
      AllClaimEdgesMeaning(claims, volumes, n - 1, e);
      ClaimEdgesMeaning(claims[n - 1], volumes, e);
    }
  }

  /** The edges of the lens: from a volume to its StorageClass, and from a claim to its volume if that is
      listed, otherwise to the StorageClass it asks for. */
  lemma StorageEdgesAreExact(volumes: seq<PersistentVolume>, claims: seq<Claim>, e: Edge)
    ensures e in StorageEdges(volumes, claims) <==>
              || (exists i :: 0 <= i < |volumes| && ClassUsed(VolumeId(volumes[i].name), volumes[i].storageClass, e))
              || (exists i :: 0 <= i < |claims| && ClaimLeads(claims[i], volumes, e))
  {
    hide VolumeEdges, AllClaimEdges, ClassUsed, ClaimLeads, VolumeNames;
    VolumeEdgesMeaning(volumes, |volumes|, e);
    AllClaimEdgesMeaning(claims, volumes, |claims|, e);
  }

  /** No two volumes and no two claims share an ID, as in a cluster. */
  ghost predicate DistinctObjects(volumes: seq<PersistentVolume>, claims: seq<Claim>) {
    && (forall i, j :: 0 <= i < j < |volumes| ==> volumes[i].name != volumes[j].name)
    && (forall i, j :: 0 <= i < j < |claims| ==> ClaimId(claims[i]) != ClaimId(claims[j]))
  }

  ghost predicate IsClassNode(node: Node) {
    exists name :: node == Stored(ClassNode(name))
  }

  ghost predicate IsVolumeNode(volumes: seq<PersistentVolume>, node: Node) {
    exists i :: 0 <= i < |volumes| && node == Stored(VolumeNode(volumes[i]))
  }

  ghost predicate IsClaimNode(claims: seq<Claim>, node: Node) {
    exists i :: 0 <= i < |claims| && node == Stored(ClaimNode(claims[i]))
  }

  lemma {:induction false} ListedClassesAreClasses(classes: seq<string>, n: nat, node: Node)
    requires n <= |classes| && node in ListedClasses(classes, n)
    ensures IsClassNode(node)
  {
    hide Stored, ClassNode;
    if node in ListedClasses(classes, n - 1) {
      ListedClassesAreClasses(classes, n - 1, node);
    }
  }

  lemma ClassNodesAreClasses(name: string, node: Node)
    requires node in ClassNodes(name)
    ensures IsClassNode(node)
  {
    hide Stored, ClassNode;
  }

  lemma {:induction false} ListedVolumesAreVolumes(volumes: seq<PersistentVolume>, n: nat, node: Node)
    requires n <= |volumes| && node in ListedVolumes(volumes, n)
    ensures IsVolumeNode(volumes, node) || IsClassNode(node)
  {
    hide Stored, ClassNode, VolumeNode, ClassNodes, NoPolicies, IsClassNode;
    if node in ListedVolumes(volumes, n - 1) {
      ListedVolumesAreVolumes(volumes, n - 1, node);
    } else if node in ClassNodes(volumes[n - 1].storageClass) {
      ClassNodesAreClasses(volumes[n - 1].storageClass, node);
    }
  }

  lemma {:induction false} ClaimNodesAreClaims(claims: seq<Claim>, names: set<string>, n: nat, node: Node)
    requires n <= |claims| && node in AllClaimNodes(claims, names, n)
    ensures IsClaimNode(claims, node) || IsClassNode(node)
  {
    hide Stored, ClassNode, ClaimNode, ClassNodes, NoPolicies, IsClassNode, IsBound, ClassOf;
    if node in AllClaimNodes(claims, names, n - 1) {
      ClaimNodesAreClaims(claims, names, n - 1, node);
    } else if node in ClassNodes(ClassOf(claims[n - 1])) {
      ClassNodesAreClasses(ClassOf(claims[n - 1]), node);
    }
  }

  lemma ClassById(a: Node, b: Node)
    requires IsClassNode(a) && IsClassNode(b) && a.id == b.id
    ensures a == b
  {
    hide Stored;
    var x :| a == Stored(ClassNode(x));
    var y :| b == Stored(ClassNode(y));
    SameIdSameName("StorageClass", "", x, y);
  }

  lemma VolumeById(volumes: seq<PersistentVolume>, claims: seq<Claim>, a: Node, b: Node)
    requires DistinctObjects(volumes, claims) && IsVolumeNode(volumes, a) && IsVolumeNode(volumes, b) && a.id == b.id
    ensures a == b
  {
    hide Stored;
    var x :| 0 <= x < |volumes| && a == Stored(VolumeNode(volumes[x]));
    var y :| 0 <= y < |volumes| && b == Stored(VolumeNode(volumes[y]));
    SameIdSameName("PersistentVolume", "", volumes[x].name, volumes[y].name);
  }

  /** How the IDs of the three kinds begin. */
  lemma KindsById(volumes: seq<PersistentVolume>, claims: seq<Claim>, node: Node)
    ensures IsClassNode(node) ==> node.id != "" && node.id[0] == 'S'
    ensures IsVolumeNode(volumes, node) ==> |node.id| > 16 && node.id[0] == 'P' && node.id[16] == '/'
    ensures IsClaimNode(claims, node) ==> |node.id| > 16 && node.id[0] == 'P' && node.id[16] == 'C'
  {
    hide Stored;
  }

  lemma NodeById(classes: seq<string>, volumes: seq<PersistentVolume>, claims: seq<Claim>, a: Node, b: Node)
    requires DistinctObjects(volumes, claims) && a.id == b.id
    requires a in StorageNodes(classes, volumes, claims) && b in StorageNodes(classes, volumes, claims)
    ensures a == b
  {
    StorageNodeIs(classes, volumes, claims, a);
    StorageNodeIs(classes, volumes, claims, b);
    KindsById(volumes, claims, a);
    KindsById(volumes, claims, b);
    hide StorageNodes, IsClassNode, IsVolumeNode;
    if IsClassNode(a) {
      ClassById(a, b);
    } else if IsVolumeNode(volumes, a) {
      VolumeById(volumes, claims, a, b);
    } else {
      hide Stored, ClaimNode, ClaimId;
      var x :| 0 <= x < |claims| && a == Stored(ClaimNode(claims[x]));
      var y :| 0 <= y < |claims| && b == Stored(ClaimNode(claims[y]));
    }
  }

  lemma StorageNodeIs(classes: seq<string>, volumes: seq<PersistentVolume>, claims: seq<Claim>, node: Node)
    requires node in StorageNodes(classes, volumes, claims)
    ensures IsClassNode(node) || IsVolumeNode(volumes, node) || IsClaimNode(claims, node)
  {
    hide ListedClasses, ListedVolumes, AllClaimNodes, VolumeNames, IsClassNode, IsVolumeNode, IsClaimNode;
    if node in ListedClasses(classes, |classes|) {
      ListedClassesAreClasses(classes, |classes|, node);
    } else if node in ListedVolumes(volumes, |volumes|) {
      ListedVolumesAreVolumes(volumes, |volumes|, node);
    } else {
      ClaimNodesAreClaims(claims, VolumeNames(volumes, |volumes|), |claims|, node);
    }
  }

  /** Where objects are distinct, the lens shows exactly the nodes its objects call for. */
  lemma StorageNodesAreKept(classes: seq<string>, volumes: seq<PersistentVolume>, claims: seq<Claim>, nodes: seq<Node>)
    requires DistinctObjects(volumes, claims) && NodeIds(nodes) == IdsIn(StorageNodes(classes, volumes, claims))
    requires forall n :: n in nodes ==> n in StorageNodes(classes, volumes, claims)
    ensures forall n :: n in nodes <==> n in StorageNodes(classes, volumes, claims)
  {
    hide StorageNodes, DistinctObjects, IdsIn, NodeIds;
    var all := StorageNodes(classes, volumes, claims);
    forall a, b | a in all && b in all && a.id == b.id ensures a == b {
      NodeById(classes, volumes, claims, a, b);
    }
    AllAreKept(nodes, all);
  }

  method DrawStorage(classes: seq<string>, volumes: seq<PersistentVolume>, claims: seq<Claim>) returns (view: Graph)
    ensures DuplicateFree(view) && Closed(view) && view.level == ClusterLevel
    ensures forall e :: e in view.edges <==> e in StorageEdges(volumes, claims)
    ensures NodeIds(view.nodes) == IdsIn(StorageNodes(classes, volumes, claims))
    ensures forall n :: n in view.nodes ==> n in StorageNodes(classes, volumes, claims)
  {
    hide Builder.Good, DuplicateFree, Closed, NodesKept, EdgesKept, GroupsKept, VolumesAre, IdsIn;
    hide ListedClasses, ListedVolumes, VolumeEdges, AllClaimEdges, AllClaimNodes, VolumeNames;
    var g := new Builder(ClusterLevel);
    NoneDrawn();
    UnionEmpty(ListedClasses(classes, |classes|));
    UnionEmpty(VolumeEdges(volumes, |volumes|));
    AddClasses(g, classes);
    AddAllVolumes(g, volumes);
    AddClaims(g, claims, VolumeNames(volumes, |volumes|));
    GoodNow(g, []);
    WrittenIds(g);
    NodesAreWritten(g);
    view := g.Result();
  }

  /** Every list is needed. */
  method StorageView(classes: Listing<string>, volumes: Listing<PersistentVolume>,
      claims: Listing<Claim>) returns (view: Option<Graph>)
    ensures view.Some? <==> classes.Items? && volumes.Items? && claims.Items?
    ensures view.Some? ==> DuplicateFree(view.value) && Closed(view.value) && view.value.level == ClusterLevel
    ensures view.Some? ==> forall e :: e in view.value.edges <==> e in StorageEdges(volumes.items, claims.items)
    ensures view.Some? ==> NodeIds(view.value.nodes) == IdsIn(StorageNodes(classes.items, volumes.items, claims.items))
    ensures view.Some? ==> forall n :: n in view.value.nodes ==>
              n in StorageNodes(classes.items, volumes.items, claims.items)
    ensures view.Some? && DistinctObjects(volumes.items, claims.items) ==>
              forall n :: n in view.value.nodes <==> n in StorageNodes(classes.items, volumes.items, claims.items)
  {
    hide DuplicateFree, Closed, StorageEdges, StorageNodes, IdsIn, NodeIds, DistinctObjects;
    if !classes.Items? || !volumes.Items? || !claims.Items? {
      return None;
    }
    var graph := DrawStorage(classes.items, volumes.items, claims.items);
    if DistinctObjects(volumes.items, claims.items) {
      StorageNodesAreKept(classes.items, volumes.items, claims.items, graph.nodes);
    }
    return Some(graph);
  }
}
