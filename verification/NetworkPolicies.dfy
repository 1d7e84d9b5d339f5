/** addNetworkPolicies of kube_namespace_policies.go: what each NetworkPolicy applies to, and which
    workloads its pod-selector rules connect. */
module NetworkPolicies {
  import opened GraphBuilder
  import opened KubeObjects
  import opened NamespaceGraph
  import opened NamespacePolicies
  import opened PodAttribution
  import opened PodOwners
  import opened TopologyGraph

  // The peers of a rule

  /** Other namespaces and addresses are not drawn at this level. */
  predicate External(peer: Peer) {
    peer.podSelector.None? || peer.hasNamespaceSelector
  }

  predicate Usable(peer: Peer) {
    !External(peer) && peer.podSelector.value.Valid?
  }

  function PeersMatched(owners: NamespaceOwners, peers: seq<Peer>, n: nat): seq<Owner>
    requires n <= |peers|
  {
    if n == 0 then []
    else if !Usable(peers[n - 1]) then PeersMatched(owners, peers, n - 1)
    else PeersMatched(owners, peers, n - 1) + Matched(owners, peers[n - 1].podSelector.value.matches)
  }

  function ExternalPeers(peers: seq<Peer>, n: nat): nat
    requires n <= |peers|
  {
    if n == 0 then 0 else ExternalPeers(peers, n - 1) + (if External(peers[n - 1]) then 1 else 0)
  }

  method PeerOwners(owners: NamespaceOwners, peers: seq<Peer>) returns (result: seq<Owner>, external: nat)
    ensures result == PeersMatched(owners, peers, |peers|) && external == ExternalPeers(peers, |peers|)
  {
    hide Matched;
    result, external := [], 0;
    for i := 0 to |peers|
      invariant result == PeersMatched(owners, peers, i) && external == ExternalPeers(peers, i)
    {
      var peer := peers[i];
      if peer.podSelector.None? || peer.hasNamespaceSelector {
        external := external + 1;
        continue;
      }
      if peer.podSelector.value.Valid? {
        var more := MatchingOwners(owners, peer.podSelector.value.matches);
        result := result + more;
      }
    }
  }

  function RulesMatched(owners: NamespaceOwners, rules: seq<seq<Peer>>, n: nat): seq<Owner>
    requires n <= |rules|
  {
    if n == 0 then [] else RulesMatched(owners, rules, n - 1) + PeersMatched(owners, rules[n - 1], |rules[n - 1]|)
  }

  function RulesExternal(rules: seq<seq<Peer>>, n: nat): nat
    requires n <= |rules|
  {
    if n == 0 then 0 else RulesExternal(rules, n - 1) + ExternalPeers(rules[n - 1], |rules[n - 1]|)
  }

  method RuleOwners(owners: NamespaceOwners, rules: seq<seq<Peer>>) returns (result: seq<Owner>, external: nat)
    ensures result == RulesMatched(owners, rules, |rules|) && external == RulesExternal(rules, |rules|)
  {
    hide PeersMatched, ExternalPeers;
    result, external := [], 0;
    for i := 0 to |rules|
      invariant result == RulesMatched(owners, rules, i) && external == RulesExternal(rules, i)
    {
      var more, others := PeerOwners(owners, rules[i]);
      result, external := result + more, external + others;
    }
  }

  // What one policy draws

  function PolicyNode(namespace: string, policy: NetworkPolicy): (n: Node)
    ensures n.id == NodeId("NetworkPolicy", namespace, policy.name) && n.group == ""
  {
    Plain("NetworkPolicy", namespace, policy.name, Healthy, false, 1)
    .(externalPeers := RulesExternal(policy.ingress, |policy.ingress|) + RulesExternal(policy.egress, |policy.egress|))
  }

  ghost function TargetEdges(id: string, target: string, sources: set<string>, destinations: set<string>): set<Edge> {
    {Edge(id, target, "applies")} + LinksFrom(sources, target, "allows") + Links(target, destinations, "allows")
  }

  ghost function TargetsEdges(
    id: string, targets: seq<Owner>, sources: set<string>, destinations: set<string>, n: nat): set<Edge>
    requires n <= |targets|
  {
    if n == 0 then {}
    else TargetsEdges(id, targets, sources, destinations, n - 1)
         + TargetEdges(id, targets[n - 1].node.id, sources, destinations)
  }

  /** A policy whose selector is invalid is not drawn at all. */
  ghost function PolicyEdges(namespace: string, owners: NamespaceOwners, policy: NetworkPolicy): set<Edge> {
    if policy.podSelector.Invalid? then {}
    else
      var targets := Matched(owners, policy.podSelector.matches);
      TargetsEdges(NodeId("NetworkPolicy", namespace, policy.name), targets,
                   IdsOf(RulesMatched(owners, policy.ingress, |policy.ingress|)),
                   IdsOf(RulesMatched(owners, policy.egress, |policy.egress|)), |targets|)
  }

  ghost function PolicyNodes(namespace: string, policy: NetworkPolicy): set<Node> {
    if policy.podSelector.Invalid? then {} else {Stored(PolicyNode(namespace, policy))}
  }

  ghost function AllPolicyEdges(
    namespace: string, owners: NamespaceOwners, policies: seq<NetworkPolicy>, n: nat): set<Edge>
    requires n <= |policies|
  {
    if n == 0 then {}
    else AllPolicyEdges(namespace, owners, policies, n - 1) + PolicyEdges(namespace, owners, policies[n - 1])
  }

  ghost function AllPolicyNodes(namespace: string, policies: seq<NetworkPolicy>, n: nat): set<Node>
    requires n <= |policies|
  {
    if n == 0 then {} else AllPolicyNodes(namespace, policies, n - 1) + PolicyNodes(namespace, policies[n - 1])
  }

  // Drawing it

  /** One edge from every owner to a node. */
  method AddLinksFrom(g: Builder, sources: seq<Owner>, id: string, kind: string)
    requires g.Valid() && id in g.nodeIds && IdsOf(sources) <= g.nodeIds
    modifies g`edges, g`edgeSet
    ensures g.Valid()
    ensures forall before :: old(g.Good(before)) ==> g.Good(before)
    ensures g.edgeSet == old(g.edgeSet) + LinksFrom(IdsOf(sources), id, kind)
  {
    hide Builder.Valid, Builder.Good, LinksFrom;
    ghost var edges0 := g.edgeSet;
    LinksFromMore({}, "", id, kind);
    assert IdsOf(sources[..0]) == {};
    for k := 0 to |sources|
      invariant g.Valid() && forall before :: old(g.Good(before)) ==> g.Good(before)
      invariant g.edgeSet == edges0 + LinksFrom(IdsOf(sources[..k]), id, kind)
    {
      assert sources[k].node.id in IdsOf(sources);
      g.AddEdge(sources[k].node.id, id, kind);
      LinksFromMore(IdsOf(sources[..k]), sources[k].node.id, id, kind);
      IdsOfMore(sources[..k], sources[k]);
      assert sources[..k + 1] == sources[..k] + [sources[k]];
    }
    assert sources[..|sources|] == sources;
  }

  method AddTargets(g: Builder, id: string, targets: seq<Owner>, sources: seq<Owner>, destinations: seq<Owner>)
    requires g.Valid() && id in g.nodeIds && IdsOf(targets) <= g.nodeIds && IdsOf(sources) <= g.nodeIds
              && IdsOf(destinations) <= g.nodeIds
    modifies g`edges, g`edgeSet
    ensures g.Valid()
    ensures forall before :: old(g.Good(before)) ==> g.Good(before)
    ensures g.edgeSet == old(g.edgeSet) + TargetsEdges(id, targets, IdsOf(sources), IdsOf(destinations), |targets|)
  {
    hide Builder.Valid, Builder.Good, Links, LinksFrom;
    ghost var edges0 := g.edgeSet;
    for k := 0 to |targets|
      invariant g.Valid() && forall before :: old(g.Good(before)) ==> g.Good(before)
      invariant g.edgeSet == edges0 + TargetsEdges(id, targets, IdsOf(sources), IdsOf(destinations), k)
    {
      var target := targets[k].node.id;
      assert target in IdsOf(targets);
      g.AddEdge(id, target, "applies");
      AddLinksFrom(g, sources, target, "allows");
      AddLinks(g, target, destinations, "allows");
    }
  }

  method AddNetworkPolicy(g: Builder, namespace: string, policy: NetworkPolicy, owners: NamespaceOwners)
    requires g.Valid() && OwnersDrawn(g.nodeIds, owners)
    modifies g`nodes, g`nodeIds, g`written, g`edges, g`edgeSet
    ensures g.Valid() && old(g.nodeIds) <= g.nodeIds
    ensures forall before :: old(g.Good(before)) ==> g.Good(before)
    ensures g.edgeSet == old(g.edgeSet) + PolicyEdges(namespace, owners, policy)
    ensures g.written == old(g.written) + PolicyNodes(namespace, policy)
  {
    hide Builder.Valid, Builder.Good, Stored, NodeId, OwnersDrawn, Matched, IdsOf, RulesMatched, RulesExternal;
    hide TargetsEdges;
    if policy.podSelector.Invalid? {
      return;
    }
    var targets := MatchingOwners(owners, policy.podSelector.matches);
    var sources, external := RuleOwners(owners, policy.ingress);
    var destinations, others := RuleOwners(owners, policy.egress);
    var node := Plain("NetworkPolicy", namespace, policy.name, Healthy, false, 1).(externalPeers := external + others);
    MatchedAreDrawn(g.nodeIds, owners, policy.podSelector.matches);
    RulesAreDrawn(g.nodeIds, owners, policy.ingress, |policy.ingress|);
    RulesAreDrawn(g.nodeIds, owners, policy.egress, |policy.egress|);
    g.AddNode(node);
    AddTargets(g, node.id, targets, sources, destinations);
  }

  method AddNetworkPolicies(g: Builder, namespace: string, policies: seq<NetworkPolicy>, owners: NamespaceOwners)
    requires g.Valid() && OwnersDrawn(g.nodeIds, owners)
    modifies g`nodes, g`nodeIds, g`written, g`edges, g`edgeSet
    ensures g.Valid() && old(g.nodeIds) <= g.nodeIds
    ensures forall before :: old(g.Good(before)) ==> g.Good(before)
    ensures g.edgeSet == old(g.edgeSet) + AllPolicyEdges(namespace, owners, policies, |policies|)
    ensures g.written == old(g.written) + AllPolicyNodes(namespace, policies, |policies|)
  {
    hide Builder.Valid, Builder.Good, OwnersDrawn, PolicyEdges, PolicyNodes;
    ghost var ids0, edges0, written0 := g.nodeIds, g.edgeSet, g.written;
    for i := 0 to |policies|
      invariant g.Valid() && ids0 <= g.nodeIds && forall before :: old(g.Good(before)) ==> g.Good(before)
      invariant g.edgeSet == edges0 + AllPolicyEdges(namespace, owners, policies, i)
      invariant g.written == written0 + AllPolicyNodes(namespace, policies, i)
    {
      StillDrawn(ids0, g.nodeIds, owners);
      AddNetworkPolicy(g, namespace, policies[i], owners);
    }
  }

  // What it means

  /** The peer is a valid selector of pods of this namespace, and an owner of this ID matches it. */
  ghost predicate PeerIs(owners: NamespaceOwners, peer: Peer, id: string) {
    match peer
    case Peer(Some(Valid(matches)), elsewhere) => !elsewhere && IsMatched(owners, matches, id)
    case _ => false
  }

  ghost predicate PeerMatches(owners: NamespaceOwners, peers: seq<Peer>, id: string) {
    exists k :: 0 <= k < |peers| && PeerIs(owners, peers[k], id)
  }

  ghost predicate RuleMatches(owners: NamespaceOwners, rules: seq<seq<Peer>>, id: string) {
    exists r :: 0 <= r < |rules| && PeerMatches(owners, rules[r], id)
  }

  /** The policy lets traffic flow from one owner to another: it selects the receiver and has an
      ingress peer matching the sender, or selects the sender and has an egress peer matching the
      receiver. */
  ghost predicate Permits(owners: NamespaceOwners, policy: NetworkPolicy, source: string, target: string) {
    && policy.podSelector.Valid?
    && ((IsMatched(owners, policy.podSelector.matches, target) && RuleMatches(owners, policy.ingress, source))
        || (IsMatched(owners, policy.podSelector.matches, source) && RuleMatches(owners, policy.egress, target)))
  }

  lemma {:induction false} PeersMatchedMeaning(owners: NamespaceOwners, peers: seq<Peer>, n: nat, id: string)
    requires n <= |peers|
    ensures id in IdsOf(PeersMatched(owners, peers, n))
            <==> exists k :: 0 <= k < n && PeerIs(owners, peers[k], id)
  {
    hide Matched, IsMatched;
    if n > 0 {
      PeersMatchedMeaning(owners, peers, n - 1, id);
      if Usable(peers[n - 1]) {
        var matches := peers[n - 1].podSelector.value.matches;
        IdsOfBoth(PeersMatched(owners, peers, n - 1), Matched(owners, matches));
        MatchedMeaning(owners, matches, id);
      }
    }
  }

  lemma {:induction false} RulesMatchedMeaning(owners: NamespaceOwners, rules: seq<seq<Peer>>, n: nat, id: string)
    requires n <= |rules|
    ensures id in IdsOf(RulesMatched(owners, rules, n)) <==> exists r :: 0 <= r < n && PeerMatches(owners, rules[r], id)
  {
    hide IsMatched, PeersMatched;
    if n > 0 {
      RulesMatchedMeaning(owners, rules, n - 1, id);
      var peers := rules[n - 1];
      IdsOfBoth(RulesMatched(owners, rules, n - 1), PeersMatched(owners, peers, |peers|));
      PeersMatchedMeaning(owners, peers, |peers|, id);
    }
  }

  lemma RulesAreDrawn(ids: set<string>, owners: NamespaceOwners, rules: seq<seq<Peer>>, n: nat)
    requires n <= |rules| && OwnersDrawn(ids, owners)
    ensures IdsOf(RulesMatched(owners, rules, n)) <= ids
  {
    hide IdsOf, RulesMatched;
    forall id | id in IdsOf(RulesMatched(owners, rules, n)) ensures id in ids {
      RulesMatchedMeaning(owners, rules, n, id);
    }
  }

  lemma TargetEdgesMeaning(id: string, target: string, sources: set<string>, destinations: set<string>, e: Edge)
    ensures e in TargetEdges(id, target, sources, destinations) <==>
              || (e.kind == "applies" && e.source == id && e.target == target)
              || (e.kind == "allows" && e.target == target && e.source in sources)
              || (e.kind == "allows" && e.source == target && e.target in destinations)
  {
  }

  lemma {:induction false} TargetsEdgesMeaning(
    id: string, targets: seq<Owner>, sources: set<string>, destinations: set<string>, n: nat, e: Edge)
    requires n <= |targets|
    ensures e in TargetsEdges(id, targets, sources, destinations, n) <==>
              || (e.kind == "applies" && e.source == id && e.target in IdsOf(targets[..n]))
              || (e.kind == "allows" && e.target in IdsOf(targets[..n]) && e.source in sources)
              || (e.kind == "allows" && e.source in IdsOf(targets[..n]) && e.target in destinations)
  {
    if n > 0 {
      TargetsEdgesMeaning(id, targets, sources, destinations, n - 1, e);
      TargetEdgesMeaning(id, targets[n - 1].node.id, sources, destinations, e);
      IdsOfMore(targets[..n - 1], targets[n - 1]);
      assert targets[..n] == targets[..n - 1] + [targets[n - 1]];
      hide IdsOf, TargetEdges;
    }
  }

  ghost predicate AppliesTo(
    namespace: string, owners: NamespaceOwners, policy: NetworkPolicy, source: string, target: string) {
    && policy.podSelector.Valid? && source == NodeId("NetworkPolicy", namespace, policy.name)
    && IsMatched(owners, policy.podSelector.matches, target)
  }

  /** What an edge of a policy says: whom the policy applies to, or what traffic it permits. */
  ghost predicate Governs(namespace: string, owners: NamespaceOwners, policy: NetworkPolicy, e: Edge) {
    || (e.kind == "applies" && AppliesTo(namespace, owners, policy, e.source, e.target))
    || (e.kind == "allows" && Permits(owners, policy, e.source, e.target))
  }

  lemma PolicyEdgesMeaning(namespace: string, owners: NamespaceOwners, policy: NetworkPolicy, e: Edge)
    ensures e in PolicyEdges(namespace, owners, policy) <==> Governs(namespace, owners, policy, e)
  {
    hide TargetsEdges, Matched, IdsOf, RulesMatched, NodeId, IsMatched;
    if policy.podSelector.Valid? {
      var matches := policy.podSelector.matches;
      var targets := Matched(owners, matches);
      var sources := IdsOf(RulesMatched(owners, policy.ingress, |policy.ingress|));
      var destinations := IdsOf(RulesMatched(owners, policy.egress, |policy.egress|));
      TargetsEdgesMeaning(NodeId("NetworkPolicy", namespace, policy.name), targets, sources,
          destinations, |targets|, e);
      assert targets[..|targets|] == targets;
      MatchedMeaning(owners, matches, e.source);
      MatchedMeaning(owners, matches, e.target);
      RulesMatchedMeaning(owners, policy.ingress, |policy.ingress|, e.source);
      RulesMatchedMeaning(owners, policy.egress, |policy.egress|, e.target);
    }
  }

  /** The step draws exactly the edges its policies call for. */
  lemma {:induction false} AllPolicyEdgesMeaning(
    namespace: string, owners: NamespaceOwners, policies: seq<NetworkPolicy>,
      n: nat, e: Edge)
    requires n <= |policies|
    ensures e in AllPolicyEdges(namespace, owners, policies, n)
            <==> exists i :: 0 <= i < n && Governs(namespace, owners, policies[i], e)
  {
    hide PolicyEdges, Governs;
    if n > 0 {
      AllPolicyEdgesMeaning(namespace, owners, policies, n - 1, e);
      PolicyEdgesMeaning(namespace, owners, policies[n - 1], e);
    }
  }

  /** An "allows" edge is drawn exactly if one of the policies lets that traffic through. */
  lemma AllowsAreExact(namespace: string, owners: NamespaceOwners, policies: seq<NetworkPolicy>, s: string, t: string)
    ensures Edge(s, t, "allows") in AllPolicyEdges(namespace, owners, policies, |policies|)
            <==> exists i :: 0 <= i < |policies| && Permits(owners, policies[i], s, t)
  {
    hide AppliesTo, Permits;
    AllPolicyEdgesMeaning(namespace, owners, policies, |policies|, Edge(s, t, "allows"));
    assert forall i :: 0 <= i < |policies| ==>
        (Governs(namespace, owners, policies[i], Edge(s, t, "allows")) <==> Permits(owners, policies[i], s, t));
  }

  /** The peer names addresses, or pods of other namespaces. */
  ghost predicate IsElsewhere(peer: Peer) {
    match peer
    case Peer(None, _) => true
    case Peer(Some(_), elsewhere) => elsewhere
  }

  /** The external peers among the first m of one rule, each named by its place. */
  ghost function ExternalIn(rules: seq<seq<Peer>>, r: nat, m: nat): set<(nat, nat)>
    requires r < |rules| && m <= |rules[r]|
  {
    set k: nat | k < m && IsElsewhere(rules[r][k]) :: (r, k)
  }

  ghost function ExternalPlaces(rules: seq<seq<Peer>>, n: nat): set<(nat, nat)>
    requires n <= |rules|
  {
    set r: nat, k: nat | r < n && k < |rules[r]| && IsElsewhere(rules[r][k]) :: (r, k)
  }

  lemma {:induction false} ExternalInCounts(rules: seq<seq<Peer>>, r: nat, m: nat)
    requires r < |rules| && m <= |rules[r]|
    ensures |ExternalIn(rules, r, m)| == ExternalPeers(rules[r], m)
  {
    if m == 0 {
      assert ExternalIn(rules, r, 0) == {};
    } else {
      ExternalInCounts(rules, r, m - 1);
      var fewer := ExternalIn(rules, r, m - 1);
      assert ExternalIn(rules, r, m) == if IsElsewhere(rules[r][m - 1]) then fewer + {(r, m - 1)} else fewer;
    }
  }

  /** "External peers" counts the peers the graph cannot show: every one once, and no other. */
  lemma {:induction false} ExternalIsTheCount(rules: seq<seq<Peer>>, n: nat)
    requires n <= |rules|
    ensures RulesExternal(rules, n) == |ExternalPlaces(rules, n)|
  {
    hide IsElsewhere;
    if n == 0 {
      assert ExternalPlaces(rules, 0) == {};
    } else {
      ExternalIsTheCount(rules, n - 1);
      ExternalInCounts(rules, n - 1, |rules[n - 1]|);
      var before, here := ExternalPlaces(rules, n - 1), ExternalIn(rules, n - 1, |rules[n - 1]|);
      assert ExternalPlaces(rules, n) == before + here && before !! here;
    }
  }

  lemma {:induction false} PolicyNodesMeaning(namespace: string, policies: seq<NetworkPolicy>, n: nat, node: Node)
    requires n <= |policies|
    ensures node in AllPolicyNodes(namespace, policies, n)
            <==> exists i :: 0 <= i < n && policies[i].podSelector.Valid?
                   && node == Stored(PolicyNode(namespace, policies[i]))
  {
    hide Stored, PolicyNode;
    if n > 0 {
      PolicyNodesMeaning(namespace, policies, n - 1, node);
    }
  }
}
