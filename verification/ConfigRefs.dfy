/** "uses" and "bound" edges.  An owner uses what its pod template names and what its claim templates
    made; a claim somebody uses leads on to its volume and storage class.  Claims are looked up in maps
    whose order is not fixed, so everything here is stated about sets. */
module ConfigRefs {
  import opened GraphBuilder
  import opened KubeObjects
  import opened NamespaceGraph
  import opened PodAttribution
  import opened PodOwners
  import opened PodSpecRefs
  import opened Sets
  import opened TopologyGraph

  type Claims = map<string, Claim>

  type Volumes = map<string, PersistentVolume>

  function ClaimsByName(claims: seq<Claim>, n: nat): Claims
    requires n <= |claims|
  {
    if n == 0 then map[] else ClaimsByName(claims, n - 1)[claims[n - 1].name := claims[n - 1]]
  }

  function VolumesByName(volumes: seq<PersistentVolume>, n: nat): Volumes
    requires n <= |volumes|
  {
    if n == 0 then map[] else VolumesByName(volumes, n - 1)[volumes[n - 1].name := volumes[n - 1]]
  }

  method IndexClaims(claims: seq<Claim>) returns (byName: Claims)
    ensures byName == ClaimsByName(claims, |claims|)
  {
    byName := map[];
    for i := 0 to |claims|
      invariant byName == ClaimsByName(claims, i)
    {
      byName := byName[claims[i].name := claims[i]];
    }
  }

  method IndexVolumes(volumes: seq<PersistentVolume>) returns (byName: Volumes)
    ensures byName == VolumesByName(volumes, |volumes|)
  {
    byName := map[];
    for i := 0 to |volumes|
      invariant byName == VolumesByName(volumes, i)
    {
      byName := byName[volumes[i].name := volumes[i]];
    }
  }

  ghost predicate IsLastClaim(claims: seq<Claim>, n: nat, claim: Claim)
    requires n <= |claims|
  {
    exists i :: 0 <= i < n && claims[i] == claim && forall k :: i < k < n ==> claims[k].name != claim.name
  }

  ghost predicate IsLastVolume(volumes: seq<PersistentVolume>, n: nat, pv: PersistentVolume)
    requires n <= |volumes|
  {
    exists i :: 0 <= i < n && volumes[i] == pv && forall k :: i < k < n ==> volumes[k].name != pv.name
  }

  /** A claim is found under its own name; of several of one name, which a namespace does not have,
      the last one is. */
  lemma {:induction false} ClaimsByNameMeaning(claims: seq<Claim>, n: nat, name: string)
    requires n <= |claims|
    ensures name in ClaimsByName(claims, n) <==> exists i :: 0 <= i < n && claims[i].name == name
    ensures name in ClaimsByName(claims, n) ==>
              ClaimsByName(claims, n)[name].name == name && IsLastClaim(claims, n, ClaimsByName(claims, n)[name])
  {
    if n > 0 {
      ClaimsByNameMeaning(claims, n - 1, name);
      if claims[n - 1].name != name && name in ClaimsByName(claims, n - 1) {
        var i :| 0 <= i < n - 1 && claims[i] == ClaimsByName(claims, n - 1)[name]
                 && forall k :: i < k < n - 1 ==> claims[k].name != claims[i].name;
        assert IsLastClaim(claims, n, claims[i]);
      }
    }
  }

  /** The same of volumes. */
  lemma {:induction false} VolumesByNameMeaning(volumes: seq<PersistentVolume>, n: nat, name: string)
    requires n <= |volumes|
    ensures name in VolumesByName(volumes, n) <==> exists i :: 0 <= i < n && volumes[i].name == name
    ensures name in VolumesByName(volumes, n) ==>
              VolumesByName(volumes, n)[name].name == name && IsLastVolume(volumes, n, VolumesByName(volumes, n)[name])
  {
    if n > 0 {
      VolumesByNameMeaning(volumes, n - 1, name);
      if volumes[n - 1].name != name && name in VolumesByName(volumes, n - 1) {
        var i :| 0 <= i < n - 1 && volumes[i] == VolumesByName(volumes, n - 1)[name]
                 && forall k :: i < k < n - 1 ==> volumes[k].name != volumes[i].name;
        assert IsLastVolume(volumes, n, volumes[i]);
      }
    }
  }

  // What an owner refers to

  ghost predicate HasPrefix(name: string, prefixes: seq<string>) {
    exists k :: 0 <= k < |prefixes| && prefixes[k] <= name
  }

  predicate IsClaim(ref: SpecRef) {
    ref.kind == "PersistentVolumeClaim"
  }

  ghost predicate IsClaimUnder(r: SpecRef, claims: Claims, prefixes: seq<string>) {
    IsClaim(r) && r.name in claims && HasPrefix(r.name, prefixes)
  }

  /** What the pods of an owner refer to, and the claims made from its claim templates. */
  ghost function RefSet(o: Owner, claims: Claims): set<SpecRef> {
    (set r | r in RefsOf(o.spec))
    + (set name | name in claims && HasPrefix(name, o.claimPrefixes) :: SpecRef("PersistentVolumeClaim", name))
  }

  lemma RefSetIs(o: Owner, claims: Claims, refs: seq<SpecRef>)
    requires forall r :: r in refs <==> r in RefsOf(o.spec) || IsClaimUnder(r, claims, o.claimPrefixes)
    ensures Elements(refs) == RefSet(o, claims)
  {
    hide RefsOf, HasPrefix;
    forall r ensures r in refs <==> r in RefSet(o, claims) {
      if r.kind == "PersistentVolumeClaim" {
        assert r == SpecRef("PersistentVolumeClaim", r.name);
      }
    }
  }

  /** The order in which the names of the claims are visited is not fixed. */
  method OwnerRefs(o: Owner, claims: Claims) returns (refs: seq<SpecRef>)
    ensures Elements(refs) == RefSet(o, claims)
  {
    refs := CollectRefs(o.spec);
    hide RefsOf;
    for k := 0 to |o.claimPrefixes|
      invariant forall r :: r in refs <==> r in RefsOf(o.spec) || IsClaimUnder(r, claims, o.claimPrefixes[..k])
    {
      var more := ClaimsUnder(claims, o.claimPrefixes[k]);
      PrefixesMore(o.claimPrefixes, k);
      refs := refs + more;
    }
    assert o.claimPrefixes[..|o.claimPrefixes|] == o.claimPrefixes;
    RefSetIs(o, claims, refs);
  }

  lemma PrefixesMore(prefixes: seq<string>, k: nat)
    requires k < |prefixes|
    ensures forall name :: HasPrefix(name, prefixes[..k + 1]) <==> HasPrefix(name, prefixes[..k]) || prefixes[k] <= name
  {
    var fewer, more := prefixes[..k], prefixes[..k + 1];
    forall name ensures HasPrefix(name, more) <==> HasPrefix(name, fewer) || prefixes[k] <= name {
      if j :| 0 <= j < |fewer| && fewer[j] <= name {
        assert more[j] <= name;
      }
      if prefixes[k] <= name {
        assert more[k] <= name;
      }
      if j :| 0 <= j < |more| && more[j] <= name && j < k {
        assert fewer[j] <= name;
      }
    }
  }

  method ClaimsUnder(claims: Claims, prefix: string) returns (refs: seq<SpecRef>)
    ensures forall r :: r in refs <==> r.kind == "PersistentVolumeClaim" && r.name in claims && prefix <= r.name
  {
    refs := [];
    var names := Enumerate(claims.Keys);
    for k := 0 to |names|
      invariant forall r :: r in refs <==> r.kind == "PersistentVolumeClaim" && r.name in names[..k] && prefix <= r.name
    {
      if prefix <= names[k] {
        refs := refs + [SpecRef("PersistentVolumeClaim", names[k])];
      }
    }
    assert names[..|names|] == names;
    assert forall name :: name in names <==> name in Elements(names);
  }

  function RefNode(namespace: string, ref: SpecRef, claims: Claims): (n: Node)
    ensures n.id == NodeId(ref.kind, namespace, ref.name) && n.group == ""
  {
    var status :=
      if !IsClaim(ref) then Healthy
      else if ref.name in claims then claims[ref.name].status
      else Warning; // missing
    Plain(ref.kind, namespace, ref.name, status, true, 1)
  }

  ghost function RefEdges(source: string, namespace: string, refs: set<SpecRef>): (edges: set<Edge>)
    ensures NoAllows(edges)
  {
    set r | r in refs :: Edge(source, NodeId(r.kind, namespace, r.name), "uses")
  }

  ghost function RefNodes(namespace: string, refs: set<SpecRef>, claims: Claims): set<Node> {
    set r | r in refs :: Stored(RefNode(namespace, r, claims))
  }

  lemma RefsMore(source: string, namespace: string, claims: Claims, refs: set<SpecRef>, r: SpecRef)
    ensures RefEdges(source, namespace, refs + {r})
            == RefEdges(source, namespace, refs) + {Edge(source, NodeId(r.kind, namespace, r.name), "uses")}
    ensures RefNodes(namespace, refs + {r}, claims)
            == RefNodes(namespace, refs, claims) + {Stored(RefNode(namespace, r, claims))}
  {
    hide RefNode, Stored, NodeId;
  }

  lemma NoRefs(source: string, namespace: string, claims: Claims)
    ensures RefEdges(source, namespace, {}) == {} && RefNodes(namespace, {}, claims) == {}
  {
  }

  lemma ClaimNamesMore(refs: set<SpecRef>, r: SpecRef)
    ensures ClaimNames(refs + {r}) == if IsClaim(r) then ClaimNames(refs) + {r.name} else ClaimNames(refs)
  {
  }

  ghost function ClaimNames(refs: set<SpecRef>): set<string> {
    set r | r in refs && IsClaim(r) :: r.name
  }

  ghost predicate ClaimsDrawn(ids: set<string>, namespace: string, names: set<string>) {
    forall name :: name in names ==> NodeId("PersistentVolumeClaim", namespace, name) in ids
  }

  lemma ClaimsStillDrawn(before: set<string>, after: set<string>, namespace: string, names: set<string>)
    requires ClaimsDrawn(before, namespace, names) && before <= after
    ensures ClaimsDrawn(after, namespace, names)
    ensures forall name :: NodeId("PersistentVolumeClaim", namespace, name) in after ==>
              ClaimsDrawn(after, namespace, names + {name})
  {
    hide NodeId;
  }

  /** The body of the loop over the references of an owner. */
  method AddRef(
    g: Builder, namespace: string, o: Owner, ref: SpecRef, claims: Claims, before: set<string>)
    returns (used: set<string>)
    requires g.Valid() && o.node.id in g.nodeIds && ClaimsDrawn(g.nodeIds, namespace, before)
    modifies g`nodes, g`nodeIds, g`written, g`edges, g`edgeSet
    ensures g.Valid() && old(g.nodeIds) <= g.nodeIds
    ensures forall before :: old(g.Good(before)) ==> g.Good(before)
    ensures g.edgeSet == old(g.edgeSet) + {Edge(o.node.id, NodeId(ref.kind, namespace, ref.name), "uses")}
    ensures g.written == old(g.written) + {Stored(RefNode(namespace, ref, claims))}
    ensures used == (if IsClaim(ref) then before + {ref.name} else before) && ClaimsDrawn(g.nodeIds, namespace, used)
  {
    hide Builder.Valid, Builder.Good, NoAllows, Stored, RefNode, NodeId, ClaimsDrawn;
    ghost var ids0 := g.nodeIds;
    used := before;
    if IsClaim(ref) {
      used := used + {ref.name};
    }
    var node := RefNode(namespace, ref, claims);
    g.AddNode(node);
    g.AddEdge(o.node.id, node.id, "uses");
    ClaimsStillDrawn(ids0, g.nodeIds, namespace, before);
  }

  method AddRefs(g: Builder, namespace: string, o: Owner, refs: seq<SpecRef>, claims: Claims, before: set<string>)
    returns (used: set<string>)
    requires g.Valid() && o.node.id in g.nodeIds && ClaimsDrawn(g.nodeIds, namespace, before)
    modifies g`nodes, g`nodeIds, g`written, g`edges, g`edgeSet
    ensures g.Valid() && old(g.nodeIds) <= g.nodeIds
    ensures forall before :: old(g.Good(before)) ==> g.Good(before)
    ensures g.edgeSet == old(g.edgeSet) + RefEdges(o.node.id, namespace, Elements(refs))
    ensures g.written == old(g.written) + RefNodes(namespace, Elements(refs), claims)
    ensures used == before + ClaimNames(Elements(refs)) && ClaimsDrawn(g.nodeIds, namespace, used)
  {
    ghost var ids0, edges0, written0 := g.nodeIds, g.edgeSet, g.written;
    used := before;
    NoRefs(o.node.id, namespace, claims);
    ElementsOfNone(refs);
    assert ClaimNames({}) == {};
    hide Builder.Valid, Builder.Good, NoAllows, Stored, RefEdges, RefNodes, RefNode, NodeId, Elements, ClaimNames;
    hide ClaimsDrawn, IsClaim;
    for k := 0 to |refs|
      invariant g.Valid() && ids0 <= g.nodeIds && forall before :: old(g.Good(before)) ==> g.Good(before)
      invariant g.edgeSet == edges0 + RefEdges(o.node.id, namespace, Elements(refs[..k]))
      invariant g.written == written0 + RefNodes(namespace, Elements(refs[..k]), claims)
      invariant used == before + ClaimNames(Elements(refs[..k])) && ClaimsDrawn(g.nodeIds, namespace, used)
    {
      ClaimNamesMore(Elements(refs[..k]), refs[k]);
      ghost var done := Elements(refs[..k]);
      UnionAssoc(edges0, RefEdges(o.node.id, namespace, done),
          {Edge(o.node.id, NodeId(refs[k].kind, namespace, refs[k].name), "uses")});
      UnionAssoc(written0, RefNodes(namespace, done, claims), {Stored(RefNode(namespace, refs[k], claims))});
      UnionAssoc(before, ClaimNames(done), {refs[k].name});
      used := AddRef(g, namespace, o, refs[k], claims, used);
      RefsMore(o.node.id, namespace, claims, Elements(refs[..k]), refs[k]);
      ElementsMore(refs, k);
    }
  }

  // All owners

  ghost function ConfigEdges(namespace: string, owners: seq<Owner>, claims: Claims, n: nat): (edges: set<Edge>)
    requires n <= |owners|
    ensures NoAllows(edges)
  {
    if n == 0 then {}
    else ConfigEdges(namespace, owners, claims, n - 1)
         + RefEdges(owners[n - 1].node.id, namespace, RefSet(owners[n - 1], claims))
  }

  ghost function ConfigNodes(namespace: string, owners: seq<Owner>, claims: Claims, n: nat): set<Node>
    requires n <= |owners|
  {
    if n == 0 then {}
    else ConfigNodes(namespace, owners, claims, n - 1) + RefNodes(namespace, RefSet(owners[n - 1], claims), claims)
  }

  /** The claims in use. */
  ghost function UsedClaims(owners: seq<Owner>, claims: Claims, n: nat): set<string>
    requires n <= |owners|
  {
    if n == 0 then {} else UsedClaims(owners, claims, n - 1) + ClaimNames(RefSet(owners[n - 1], claims))
  }

  method AddOwnerRefs(
    g: Builder, namespace: string, owners: NamespaceOwners, claims: Claims) returns (used: set<string>)
    requires g.Valid() && OwnersDrawn(g.nodeIds, owners)
    modifies g`nodes, g`nodeIds, g`written, g`edges, g`edgeSet
    ensures g.Valid() && old(g.nodeIds) <= g.nodeIds
    ensures forall before :: old(g.Good(before)) ==> g.Good(before)
    ensures g.edgeSet == old(g.edgeSet) + ConfigEdges(namespace, owners.owners, claims, |owners.owners|)
    ensures g.written == old(g.written) + ConfigNodes(namespace, owners.owners, claims, |owners.owners|)
    ensures used == UsedClaims(owners.owners, claims, |owners.owners|) && ClaimsDrawn(g.nodeIds, namespace, used)
  {
    hide Builder.Valid, Builder.Good, NoAllows, RefEdges, RefNodes, RefSet, Elements, NodeId, ClaimNames;
    ghost var ids0, edges0, written0 := g.nodeIds, g.edgeSet, g.written;
    used := {};
    for i := 0 to |owners.owners|
      invariant g.Valid() && ids0 <= g.nodeIds && forall before :: old(g.Good(before)) ==> g.Good(before)
      invariant g.edgeSet == edges0 + ConfigEdges(namespace, owners.owners, claims, i)
      invariant g.written == written0 + ConfigNodes(namespace, owners.owners, claims, i)
      invariant used == UsedClaims(owners.owners, claims, i) && ClaimsDrawn(g.nodeIds, namespace, used)
    {
      var refs := OwnerRefs(owners.owners[i], claims);
      used := AddRefs(g, namespace, owners.owners[i], refs, claims, used);
    }
  }

  // Volumes and StorageClasses

  function VolumeNode(pv: PersistentVolume): Node {
    Plain("PersistentVolume", "", pv.name, pv.status, false, 1)
  }

  function ClassNode(name: string): Node {
    Plain("StorageClass", "", name, Healthy, false, 1)
  }

  method AddPersistentVolume(g: Builder, pv: PersistentVolume) returns (id: string)
    requires g.Valid()
    modifies g`nodes, g`nodeIds, g`written
    ensures g.Valid() && id == VolumeNode(pv).id && g.nodeIds == old(g.nodeIds) + {id}
    ensures forall before :: old(g.Good(before)) ==> g.Good(before)
    ensures g.written == old(g.written) + {Stored(VolumeNode(pv))}
  {
    hide Builder.Valid, Builder.Good, Stored, NodeId;
    g.AddNode(VolumeNode(pv));
    return VolumeNode(pv).id;
  }

  method AddStorageClass(g: Builder, name: string) returns (id: string)
    requires g.Valid()
    modifies g`nodes, g`nodeIds, g`written
    ensures g.Valid() && id == ClassNode(name).id && g.nodeIds == old(g.nodeIds) + {id}
    ensures forall before :: old(g.Good(before)) ==> g.Good(before)
    ensures g.written == old(g.written) + {Stored(ClassNode(name))}
  {
    hide Builder.Valid, Builder.Good, Stored, NodeId;
    g.AddNode(ClassNode(name));
    return ClassNode(name).id;
  }

  /** The edge to a StorageClass, unless the name is empty. */
  ghost function ClassEdges(source: string, name: string): (edges: set<Edge>)
    ensures NoAllows(edges)
  {
    if name == "" then {} else {Edge(source, ClassNode(name).id, "uses")}
  }

  ghost predicate ClassUsed(source: string, name: string, e: Edge) {
    name != "" && e == Edge(source, ClassNode(name).id, "uses")
  }

  ghost function ClassNodes(name: string): (nodes: set<Node>)
    ensures NoPolicies(nodes)
  {
    if name == "" then {} else {Stored(ClassNode(name))}
  }

  method AddClass(g: Builder, source: string, name: string)
    requires g.Valid() && source in g.nodeIds
    modifies g`nodes, g`nodeIds, g`written, g`edges, g`edgeSet
    ensures g.Valid() && old(g.nodeIds) <= g.nodeIds
    ensures forall before :: old(g.Good(before)) ==> g.Good(before)
    ensures g.edgeSet == old(g.edgeSet) + ClassEdges(source, name) && g.written == old(g.written) + ClassNodes(name)
    ensures g.nodeIds == if name == "" then old(g.nodeIds) else old(g.nodeIds) + {ClassNode(name).id}
  {
    hide Builder.Valid, Builder.Good, NoAllows, NoPolicies, Stored, ClassNode, NodeId;
    if name != "" {
      var id := AddStorageClass(g, name);
      g.AddEdge(source, id, "uses");
    }
  }

  /** A claim bound to a volume of some StorageClass. */
  ghost function BoundEdges(claimId: string, pv: PersistentVolume): (edges: set<Edge>)
    ensures NoAllows(edges)
  {
    {Edge(claimId, VolumeNode(pv).id, "bound")} + ClassEdges(VolumeNode(pv).id, pv.storageClass)
  }

  ghost function BoundNodes(pv: PersistentVolume): (nodes: set<Node>)
    ensures NoPolicies(nodes)
  {
    {Stored(VolumeNode(pv))} + ClassNodes(pv.storageClass)
  }

  method AddBoundVolume(g: Builder, claimId: string, pv: PersistentVolume)
    requires g.Valid() && claimId in g.nodeIds
    modifies g`nodes, g`nodeIds, g`written, g`edges, g`edgeSet
    ensures g.Valid() && old(g.nodeIds) <= g.nodeIds
    ensures forall before :: old(g.Good(before)) ==> g.Good(before)
    ensures g.edgeSet == old(g.edgeSet) + BoundEdges(claimId, pv) && g.written == old(g.written) + BoundNodes(pv)
  {
    hide Builder.Valid, Builder.Good, NoAllows, NoPolicies, Stored, VolumeNode, ClassNode, NodeId, ClassEdges;
    hide ClassNodes;
    var id := AddPersistentVolume(g, pv);
    g.AddEdge(claimId, id, "bound");
    AddClass(g, id, pv.storageClass);
  }

  function ClassOf(claim: Claim): string {
    if claim.storageClass.Some? then claim.storageClass.value else ""
  }

  /** What is behind a claim: its volume or, if that is unknown, the StorageClass it asks for. */
  ghost function BehindEdges(namespace: string, name: string, claims: Claims, volumes: Volumes): (edges: set<Edge>)
    ensures NoAllows(edges)
  {
    var id := NodeId("PersistentVolumeClaim", namespace, name);
    if name !in claims then {}
    else if claims[name].volume in volumes then BoundEdges(id, volumes[claims[name].volume])
    else ClassEdges(id, ClassOf(claims[name]))
  }

  ghost function BehindNodes(name: string, claims: Claims, volumes: Volumes): (nodes: set<Node>)
    ensures NoPolicies(nodes)
  {
    if name !in claims then {}
    else if claims[name].volume in volumes then BoundNodes(volumes[claims[name].volume])
    else ClassNodes(ClassOf(claims[name]))
  }

  method AddBehind(g: Builder, namespace: string, name: string, claims: Claims, volumes: Volumes)
    requires g.Valid() && NodeId("PersistentVolumeClaim", namespace, name) in g.nodeIds
    modifies g`nodes, g`nodeIds, g`written, g`edges, g`edgeSet
    ensures g.Valid() && old(g.nodeIds) <= g.nodeIds
    ensures forall before :: old(g.Good(before)) ==> g.Good(before)
    ensures g.edgeSet == old(g.edgeSet) + BehindEdges(namespace, name, claims, volumes)
    ensures g.written == old(g.written) + BehindNodes(name, claims, volumes)
  {
    hide Builder.Valid, Builder.Good, NoAllows, NoPolicies, NodeId, BoundEdges, BoundNodes, ClassEdges, ClassNodes;
    if name !in claims {
      return;
    }
    var claim := claims[name];
    var claimId := NodeId("PersistentVolumeClaim", namespace, name);
    if claim.volume in volumes {
      AddBoundVolume(g, claimId, volumes[claim.volume]);
    } else {
      AddClass(g, claimId, ClassOf(claim));
    }
  }

  // The volumes of all claims in use

  ghost function AllBehindEdges(
    namespace: string, names: set<string>, claims: Claims, volumes: Volumes): (edges: set<Edge>)
    ensures NoAllows(edges)
  {
    set name, e | name in names && e in BehindEdges(namespace, name, claims, volumes) :: e
  }

  ghost function AllBehindNodes(names: set<string>, claims: Claims, volumes: Volumes): (nodes: set<Node>)
    ensures NoPolicies(nodes)
  {
    set name, n | name in names && n in BehindNodes(name, claims, volumes) :: n
  }

  lemma AllBehindMore(namespace: string, names: set<string>, claims: Claims, volumes: Volumes, name: string)
    ensures AllBehindEdges(namespace, names + {name}, claims, volumes)
            == AllBehindEdges(namespace, names, claims, volumes)
              + BehindEdges(namespace, name, claims, volumes)
    ensures AllBehindNodes(names + {name}, claims, volumes) == AllBehindNodes(names, claims, volumes)
              + BehindNodes(name, claims, volumes)
    ensures AllBehindEdges(namespace, {}, claims, volumes) == {} && AllBehindNodes({}, claims, volumes) == {}
  {
    hide BehindEdges, BehindNodes, NoAllows, NoPolicies;
  }

  /** The order in which the claims are visited is not fixed. */
  method AddVolumes(g: Builder, namespace: string, used: set<string>, claims: Claims, volumes: seq<PersistentVolume>)
    requires g.Valid() && ClaimsDrawn(g.nodeIds, namespace, used)
    modifies g`nodes, g`nodeIds, g`written, g`edges, g`edgeSet
    ensures g.Valid() && old(g.nodeIds) <= g.nodeIds
    ensures forall before :: old(g.Good(before)) ==> g.Good(before)
    ensures g.edgeSet == old(g.edgeSet) + AllBehindEdges(namespace, used, claims, VolumesByName(volumes, |volumes|))
    ensures g.written == old(g.written) + AllBehindNodes(used, claims, VolumesByName(volumes, |volumes|))
  {
    hide Builder.Valid, Builder.Good, NoAllows, NoPolicies, AllBehindEdges, AllBehindNodes;
    var byName := IndexVolumes(volumes);
    var names := Enumerate(used);
    forall k | 0 <= k < |names| ensures NodeId("PersistentVolumeClaim", namespace, names[k]) in g.nodeIds {
      assert names[k] in Elements(names);
    }
    AddAllBehind(g, namespace, names, claims, byName);
  }

  method AddAllBehind(g: Builder, namespace: string, names: seq<string>, claims: Claims, byName: Volumes)
    requires g.Valid() && forall k :: 0 <= k < |names| ==>
              NodeId("PersistentVolumeClaim", namespace, names[k]) in g.nodeIds
    modifies g`nodes, g`nodeIds, g`written, g`edges, g`edgeSet
    ensures g.Valid() && old(g.nodeIds) <= g.nodeIds
    ensures forall before :: old(g.Good(before)) ==> g.Good(before)
    ensures g.edgeSet == old(g.edgeSet) + AllBehindEdges(namespace, Elements(names), claims, byName)
    ensures g.written == old(g.written) + AllBehindNodes(Elements(names), claims, byName)
  {
    hide Builder.Valid, Builder.Good, NoAllows, NoPolicies, NodeId, BehindEdges, BehindNodes, AllBehindEdges;
    hide AllBehindNodes;
    ghost var ids0, edges0, written0 := g.nodeIds, g.edgeSet, g.written;
    AllBehindMore(namespace, {}, claims, byName, "");
    ElementsOfNone(names);
    hide Elements;
    for k := 0 to |names|
      invariant g.Valid() && ids0 <= g.nodeIds && forall before :: old(g.Good(before)) ==> g.Good(before)
      invariant g.edgeSet == edges0 + AllBehindEdges(namespace, Elements(names[..k]), claims, byName)
      invariant g.written == written0 + AllBehindNodes(Elements(names[..k]), claims, byName)
    {
      AllBehindMore(namespace, Elements(names[..k]), claims, byName, names[k]);
      UnionAssoc(edges0, AllBehindEdges(namespace, Elements(names[..k]), claims, byName),
          BehindEdges(namespace, names[k], claims, byName));
      UnionAssoc(written0, AllBehindNodes(Elements(names[..k]), claims, byName), BehindNodes(names[k], claims, byName));
      ElementsMore(names, k);
      AddBehind(g, namespace, names[k], claims, byName);
    }
  }

  method AddConfigRefs(
    g: Builder, namespace: string, claims: seq<Claim>, volumes: seq<PersistentVolume>, owners: NamespaceOwners)
    requires g.Valid() && OwnersDrawn(g.nodeIds, owners)
    modifies g`nodes, g`nodeIds, g`written, g`edges, g`edgeSet
    ensures g.Valid() && old(g.nodeIds) <= g.nodeIds
    ensures forall before :: old(g.Good(before)) ==> g.Good(before)
    ensures g.edgeSet == old(g.edgeSet) + DependencyEdges(namespace, claims, volumes, owners)
    ensures g.written == old(g.written) + DependencyNodes(namespace, claims, volumes, owners)
  {
    hide Builder.Valid, Builder.Good, NoAllows, NoPolicies, NodeId, OwnersDrawn, ConfigEdges, ConfigNodes;
    hide AllBehindEdges, AllBehindNodes, UsedClaims;
    var byName := IndexClaims(claims);
    var used := AddOwnerRefs(g, namespace, owners, byName);
    AddVolumes(g, namespace, used, byName, volumes);
  }

  ghost function DependencyEdges(namespace: string, claims: seq<Claim>, volumes: seq<PersistentVolume>,
      owners: NamespaceOwners): (edges: set<Edge>)
    ensures NoAllows(edges)
  {
    var byName, n := ClaimsByName(claims, |claims|), |owners.owners|;
    ConfigEdges(namespace, owners.owners, byName, n)
    + AllBehindEdges(namespace, UsedClaims(owners.owners, byName, n), byName, VolumesByName(volumes, |volumes|))
  }

  ghost function DependencyNodes(namespace: string, claims: seq<Claim>, volumes: seq<PersistentVolume>,
      owners: NamespaceOwners): set<Node> {
    var byName, n := ClaimsByName(claims, |claims|), |owners.owners|;
    ConfigNodes(namespace, owners.owners, byName, n)
    + AllBehindNodes(UsedClaims(owners.owners, byName, n), byName, VolumesByName(volumes, |volumes|))
  }

  lemma RefNodesAreNotPolicies(namespace: string, o: Owner, claims: Claims)
    ensures NoPolicies(RefNodes(namespace, RefSet(o, claims), claims))
  {
    hide RefsOf, HasPrefix;
    RefsAreOfKnownKinds(o.spec);
    forall r | r in RefSet(o, claims) ensures r.kind != "" && r.kind[0] != 'N' {
      if r in RefsOf(o.spec) {
      }
    }
  }

  lemma {:induction false} ConfigNodesAreNotPolicies(namespace: string, owners: seq<Owner>, claims: Claims, n: nat)
    requires n <= |owners|
    ensures NoPolicies(ConfigNodes(namespace, owners, claims, n))
  {
    hide RefNodes, RefSet;
    if n > 0 {
      ConfigNodesAreNotPolicies(namespace, owners, claims, n - 1);
      RefNodesAreNotPolicies(namespace, owners[n - 1], claims);
    }
  }

  lemma DependencyNodesAreNotPolicies(
    namespace: string, claims: seq<Claim>, volumes: seq<PersistentVolume>, owners: NamespaceOwners)
    ensures NoPolicies(DependencyNodes(namespace, claims, volumes, owners))
  {
    hide ConfigNodes, AllBehindNodes, UsedClaims;
    ConfigNodesAreNotPolicies(namespace, owners.owners, ClaimsByName(claims, |claims|), |owners.owners|);
  }
}
