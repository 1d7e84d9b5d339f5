/** The steps of kube_namespace_policies.go: what scales, protects, connects and limits the workloads
    of a namespace. */
module NamespacePolicies {
  import opened GraphBuilder
  import opened KubeObjects
  import opened KubeStatus
  import opened NamespaceGraph
  import opened PodAttribution
  import opened PodOwners
  import opened Sets
  import opened TopologyGraph

  // Owners by their labels

  function Matching(owners: seq<Owner>, matches: Labels -> bool, n: nat): seq<Owner>
    requires n <= |owners|
  {
    if n == 0 then []
    else if matches(owners[n - 1].labels) then Matching(owners, matches, n - 1) + [owners[n - 1]]
    else Matching(owners, matches, n - 1)
  }

  method MatchingOwners(owners: NamespaceOwners, matches: Labels -> bool) returns (result: seq<Owner>)
    ensures result == Matched(owners, matches)
  {
    result := [];
    for i := 0 to |owners.owners|
      invariant result == Matching(owners.owners, matches, i)
    {
      if matches(owners.owners[i].labels) {
        result := result + [owners.owners[i]];
      }
    }
  }

  function Matched(owners: NamespaceOwners, matches: Labels -> bool): seq<Owner> {
    Matching(owners.owners, matches, |owners.owners|)
  }

  ghost predicate IsMatched(owners: NamespaceOwners, matches: Labels -> bool, id: string) {
    exists i :: 0 <= i < |owners.owners| && owners.owners[i].node.id == id && matches(owners.owners[i].labels)
  }

  ghost function IdsOf(owners: seq<Owner>): set<string> {
    set o | o in owners :: o.node.id
  }

  lemma {:induction false} MatchingMeaning(owners: seq<Owner>, matches: Labels -> bool, n: nat, id: string)
    requires n <= |owners|
    ensures id in IdsOf(Matching(owners, matches, n))
            <==> exists i :: 0 <= i < n && owners[i].node.id == id && matches(owners[i].labels)
  {
    if n > 0 {
      MatchingMeaning(owners, matches, n - 1, id);
      IdsOfMore(Matching(owners, matches, n - 1), owners[n - 1]);
    }
  }

  lemma IdsOfMore(owners: seq<Owner>, o: Owner)
    ensures IdsOf(owners + [o]) == IdsOf(owners) + {o.node.id} && IdsOf([]) == {}
  {
  }

  lemma IdsOfBoth(a: seq<Owner>, b: seq<Owner>)
    ensures IdsOf(a + b) == IdsOf(a) + IdsOf(b)
  {
  }

  lemma MatchedMeaning(owners: NamespaceOwners, matches: Labels -> bool, id: string)
    ensures id in IdsOf(Matched(owners, matches)) <==> IsMatched(owners, matches, id)
  {
    hide IdsOf;
    MatchingMeaning(owners.owners, matches, |owners.owners|, id);
  }

  lemma MatchedAreDrawn(ids: set<string>, owners: NamespaceOwners, matches: Labels -> bool)
    requires OwnersDrawn(ids, owners)
    ensures IdsOf(Matched(owners, matches)) <= ids
  {
    hide IdsOf, Matched;
    forall id | id in IdsOf(Matched(owners, matches)) ensures id in ids {
      MatchedMeaning(owners, matches, id);
    }
  }

  /** One edge from a node to every owner. */
  method AddLinks(g: Builder, id: string, targets: seq<Owner>, kind: string)
    requires g.Valid() && id in g.nodeIds && IdsOf(targets) <= g.nodeIds
    modifies g`edges, g`edgeSet
    ensures g.Valid()
    ensures forall before :: old(g.Good(before)) ==> g.Good(before)
    ensures g.edgeSet == old(g.edgeSet) + Links(id, IdsOf(targets), kind)
  {
    hide Builder.Valid, Builder.Good, Links;
    ghost var edges0 := g.edgeSet;
    LinksMore(id, {}, "", kind);
    IdsOfMore([], Owner(Plain("", "", "", Idle, false, 0), map[], PodSpec("", "", [], [], [], []), []));
    for k := 0 to |targets|
      invariant g.Valid() && forall before :: old(g.Good(before)) ==> g.Good(before)
      invariant g.edgeSet == edges0 + Links(id, IdsOf(targets[..k]), kind)
    {
      assert targets[k].node.id in IdsOf(targets);
      g.AddEdge(id, targets[k].node.id, kind);
      LinksMore(id, IdsOf(targets[..k]), targets[k].node.id, kind);
      IdsOfMore(targets[..k], targets[k]);
      assert targets[..k + 1] == targets[..k] + [targets[k]];
    }
    assert targets[..|targets|] == targets;
  }

  // Autoscalers

  function ScalerNode(namespace: string, hpa: Autoscaler): Node {
    Plain("HorizontalPodAutoscaler", namespace, hpa.name, hpa.status, false, 1)
  }

  ghost function ScalerIds(namespace: string, hpas: seq<Autoscaler>, n: nat): set<string>
    requires n <= |hpas|
  {
    if n == 0 then {} else ScalerIds(namespace, hpas, n - 1) + {ScalerNode(namespace, hpas[n - 1]).id}
  }

  ghost function ScalerNodes(namespace: string, hpas: seq<Autoscaler>, n: nat): (nodes: set<Node>)
    requires n <= |hpas|
    ensures NoPolicies(nodes)
  {
    if n == 0 then {} else ScalerNodes(namespace, hpas, n - 1) + {Stored(ScalerNode(namespace, hpas[n - 1]))}
  }

  /** An autoscaler is linked to its target if that is drawn: before this step, or as an autoscaler. */
  ghost function ScaleEdges(namespace: string, hpas: seq<Autoscaler>, ids: set<string>, n: nat): (edges: set<Edge>)
    requires n <= |hpas|
    ensures NoAllows(edges)
  {
    if n == 0 then {}
    else ScaleEdges(namespace, hpas, ids, n - 1)
         + ScaleEdge(namespace, hpas[n - 1], ids + ScalerIds(namespace, hpas, n))
  }

  ghost function ScaleEdge(namespace: string, hpa: Autoscaler, ids: set<string>): (edges: set<Edge>)
    ensures NoAllows(edges)
  {
    var target := NodeId(hpa.targetKind, namespace, hpa.targetName);
    if target in ids then {Edge(ScalerNode(namespace, hpa).id, target, "scales")} else {}
  }

  method AddAutoscalers(g: Builder, namespace: string, hpas: seq<Autoscaler>)
    requires g.Valid()
    modifies g`nodes, g`nodeIds, g`written, g`edges, g`edgeSet
    ensures g.Valid() && old(g.nodeIds) <= g.nodeIds
    ensures forall before :: old(g.Good(before)) ==> g.Good(before)
    ensures g.edgeSet == old(g.edgeSet) + ScaleEdges(namespace, hpas, old(g.nodeIds), |hpas|)
    ensures g.written == old(g.written) + ScalerNodes(namespace, hpas, |hpas|)
  {
    hide Builder.Valid, Builder.Good, NoAllows, NoPolicies, Stored, NodeId, ScalerNode, ScaleEdge;
    ghost var ids0, edges0, written0 := g.nodeIds, g.edgeSet, g.written;
    UnionEmpty(ids0);
    for i := 0 to |hpas|
      invariant g.Valid() && forall before :: old(g.Good(before)) ==> g.Good(before)
      invariant g.nodeIds == ids0 + ScalerIds(namespace, hpas, i)
      invariant g.edgeSet == edges0 + ScaleEdges(namespace, hpas, ids0, i)
      invariant g.written == written0 + ScalerNodes(namespace, hpas, i)
    {
      UnionAssoc(ids0, ScalerIds(namespace, hpas, i), {ScalerNode(namespace, hpas[i]).id});
      AddAutoscaler(g, namespace, hpas[i]);
    }
  }

  method AddAutoscaler(g: Builder, namespace: string, hpa: Autoscaler)
    requires g.Valid()
    modifies g`nodes, g`nodeIds, g`written, g`edges, g`edgeSet
    ensures g.Valid() && g.nodeIds == old(g.nodeIds) + {ScalerNode(namespace, hpa).id}
    ensures forall before :: old(g.Good(before)) ==> g.Good(before)
    ensures g.edgeSet == old(g.edgeSet) + ScaleEdge(namespace, hpa, g.nodeIds)
    ensures g.written == old(g.written) + {Stored(ScalerNode(namespace, hpa))}
  {
    hide Builder.Valid, Builder.Good, Stored, NodeId;
    var node := ScalerNode(namespace, hpa);
    g.AddNode(node);
    var target := NodeId(hpa.targetKind, namespace, hpa.targetName);
    if g.HasNode(target) {
      g.AddEdge(node.id, target, "scales");
    }
  }

  // Disruption budgets

  function BudgetNode(namespace: string, pdb: DisruptionBudget): Node {
    Plain("PodDisruptionBudget", namespace, pdb.name, pdb.status, false, 1)
  }

  ghost function BudgetNodes(namespace: string, pdbs: seq<DisruptionBudget>, n: nat): (nodes: set<Node>)
    requires n <= |pdbs|
    ensures NoPolicies(nodes)
  {
    if n == 0 then {} else BudgetNodes(namespace, pdbs, n - 1) + {Stored(BudgetNode(namespace, pdbs[n - 1]))}
  }

  /** A budget whose selector is invalid protects nothing. */
  ghost function BudgetEdges(namespace: string, owners: NamespaceOwners, pdb: DisruptionBudget): (edges: set<Edge>)
    ensures NoAllows(edges)
  {
    if pdb.selector.Invalid? then {}
    else Links(BudgetNode(namespace, pdb).id, IdsOf(Matched(owners, pdb.selector.matches)), "protects")
  }

  ghost function ProtectEdges(
    namespace: string, owners: NamespaceOwners, pdbs: seq<DisruptionBudget>, n: nat): (edges: set<Edge>)
    requires n <= |pdbs|
    ensures NoAllows(edges)
  {
    if n == 0 then {} else ProtectEdges(namespace, owners, pdbs, n - 1) + BudgetEdges(namespace, owners, pdbs[n - 1])
  }

  method AddDisruptionBudgets(g: Builder, namespace: string, pdbs: seq<DisruptionBudget>, owners: NamespaceOwners)
    requires g.Valid() && OwnersDrawn(g.nodeIds, owners)
    modifies g`nodes, g`nodeIds, g`written, g`edges, g`edgeSet
    ensures g.Valid() && old(g.nodeIds) <= g.nodeIds
    ensures forall before :: old(g.Good(before)) ==> g.Good(before)
    ensures g.edgeSet == old(g.edgeSet) + ProtectEdges(namespace, owners, pdbs, |pdbs|)
    ensures g.written == old(g.written) + BudgetNodes(namespace, pdbs, |pdbs|)
  {
    hide Builder.Valid, Builder.Good, NoAllows, NoPolicies, Stored, NodeId, OwnersDrawn, BudgetNode, BudgetEdges;
    ghost var ids0, edges0, written0 := g.nodeIds, g.edgeSet, g.written;
    for i := 0 to |pdbs|
      invariant g.Valid() && ids0 <= g.nodeIds && forall before :: old(g.Good(before)) ==> g.Good(before)
      invariant g.edgeSet == edges0 + ProtectEdges(namespace, owners, pdbs, i)
      invariant g.written == written0 + BudgetNodes(namespace, pdbs, i)
    {
      StillDrawn(ids0, g.nodeIds, owners);
      AddDisruptionBudget(g, namespace, pdbs[i], owners);
    }
  }

  method AddDisruptionBudget(g: Builder, namespace: string, pdb: DisruptionBudget, owners: NamespaceOwners)
    requires g.Valid() && OwnersDrawn(g.nodeIds, owners)
    modifies g`nodes, g`nodeIds, g`written, g`edges, g`edgeSet
    ensures g.Valid() && old(g.nodeIds) <= g.nodeIds
    ensures forall before :: old(g.Good(before)) ==> g.Good(before)
    ensures g.edgeSet == old(g.edgeSet) + BudgetEdges(namespace, owners, pdb)
    ensures g.written == old(g.written) + {Stored(BudgetNode(namespace, pdb))}
  {
    hide Builder.Valid, Builder.Good, NoAllows, NoPolicies, Stored, NodeId, OwnersDrawn, Matched, IdsOf, Links;
    ghost var ids0 := g.nodeIds;
    var node := BudgetNode(namespace, pdb);
    g.AddNode(node);
    if pdb.selector.Invalid? {
      return;
    }
    StillDrawn(ids0, g.nodeIds, owners);
    MatchedAreDrawn(g.nodeIds, owners, pdb.selector.matches);
    var protected := MatchingOwners(owners, pdb.selector.matches);
    AddLinks(g, node.id, protected, "protects");
  }

  // Quotas

  predicate Full(u: Usage) {
    u.hard != 0.0 && u.used / u.hard >= 1.0
  }

  predicate NearlyFull(u: Usage) {
    u.hard != 0.0 && u.used / u.hard >= 0.9
  }

  /** The worst any resource says, whatever the order they are looked at in. */
  ghost function StatusOfUsage(resources: set<Usage>): Status {
    if exists u :: u in resources && Full(u) then Error
    else if exists u :: u in resources && NearlyFull(u) then Warning
    else Healthy
  }

  method QuotaStatus(quota: Quota) returns (status: Status)
    ensures status == StatusOfUsage(set u | u in quota.resources)
  {
    status := Healthy;
    for i := 0 to |quota.resources|
      invariant status == if exists k :: 0 <= k < i && Full(quota.resources[k]) then Error
                          else if exists k :: 0 <= k < i && NearlyFull(quota.resources[k]) then Warning
                          else Healthy
    {
      var u := quota.resources[i];
      if u.hard == 0.0 {
        continue;
      }
      var ratio := u.used / u.hard;
      if ratio >= 1.0 {
        status := Error;
      } else if ratio >= 0.9 {
        status := WorstStatus(status, Warning);
      }
    }
  }

  ghost function QuotaNode(namespace: string, quota: Quota): Node {
    Plain("ResourceQuota", namespace, quota.name, StatusOfUsage(set u | u in quota.resources), false, 1)
  }

  function LimitNode(namespace: string, limit: LimitRange): Node {
    Plain("LimitRange", namespace, limit.name, Healthy, false, 1)
  }

  ghost function QuotaNodes(namespace: string, quotas: seq<Quota>, n: nat): set<Node>
    requires n <= |quotas|
  {
    if n == 0 then {} else QuotaNodes(namespace, quotas, n - 1) + {Stored(QuotaNode(namespace, quotas[n - 1]))}
  }

  ghost function LimitNodes(namespace: string, limits: seq<LimitRange>, n: nat): set<Node>
    requires n <= |limits|
  {
    if n == 0 then {} else LimitNodes(namespace, limits, n - 1) + {Stored(LimitNode(namespace, limits[n - 1]))}
  }

  method AddQuotas(g: Builder, namespace: string, quotas: seq<Quota>)
    requires g.Valid()
    modifies g`nodes, g`nodeIds, g`written
    ensures g.Valid() && old(g.nodeIds) <= g.nodeIds
    ensures forall before :: old(g.Good(before)) ==> g.Good(before)
    ensures g.written == old(g.written) + QuotaNodes(namespace, quotas, |quotas|)
  {
    hide Builder.Valid, Builder.Good, Stored, NodeId, StatusOfUsage;
    ghost var ids0, written0 := g.nodeIds, g.written;
    for i := 0 to |quotas|
      invariant g.Valid() && ids0 <= g.nodeIds && forall before :: old(g.Good(before)) ==> g.Good(before)
      invariant g.written == written0 + QuotaNodes(namespace, quotas, i)
    {
      var status := QuotaStatus(quotas[i]);
      g.AddNode(Plain("ResourceQuota", namespace, quotas[i].name, status, false, 1));
    }
  }

  method AddLimitRanges(g: Builder, namespace: string, limits: seq<LimitRange>)
    requires g.Valid()
    modifies g`nodes, g`nodeIds, g`written
    ensures g.Valid() && old(g.nodeIds) <= g.nodeIds
    ensures forall before :: old(g.Good(before)) ==> g.Good(before)
    ensures g.written == old(g.written) + LimitNodes(namespace, limits, |limits|)
  {
    hide Builder.Valid, Builder.Good, Stored, NodeId;
    ghost var ids0, written0 := g.nodeIds, g.written;
    for i := 0 to |limits|
      invariant g.Valid() && ids0 <= g.nodeIds && forall before :: old(g.Good(before)) ==> g.Good(before)
      invariant g.written == written0 + LimitNodes(namespace, limits, i)
    {
      g.AddNode(LimitNode(namespace, limits[i]));
    }
  }
}
