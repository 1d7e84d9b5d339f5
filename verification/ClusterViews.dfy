/** The cluster lenses of kube_topology_service.go that draw namespaces and nodes, and the view of one
    node. */
module ClusterViews {
  import opened GraphBuilder
  import opened KubeObjects
  import opened KubeStatus
  import opened PodAttribution
  import opened TopologyGraph

  // Pods by some key: their namespace, or the node they run on

  ghost function PodsWith(pods: seq<Pod>, keyOf: Pod -> string, key: string, n: nat): nat
    requires n <= |pods|
  {
    if n == 0 then 0 else PodsWith(pods, keyOf, key, n - 1) + (if keyOf(pods[n - 1]) == key then 1 else 0)
  }

  /** The statuses of the pods of a namespace, folded from Unset. */
  ghost function WorstIn(pods: seq<Pod>, namespace: string, n: nat): Status
    requires n <= |pods|
  {
    if n == 0 then Unset
    else if pods[n - 1].namespace == namespace then WorstStatus(WorstIn(pods, namespace, n - 1), PodStatus(pods[n - 1]))
    else WorstIn(pods, namespace, n - 1)
  }

  /** The fold is the worst status of the pods of the namespace; it is still Unset exactly if none of
      them is more than idle, since an idle pod outranks nothing. */
  lemma {:induction false} WorstInIsWorst(pods: seq<Pod>, namespace: string, n: nat)
    requires n <= |pods|
    ensures var worst := WorstIn(pods, namespace, n);
            && (worst == Unset <==> forall i :: 0 <= i < n && pods[i].namespace == namespace ==>
                PodStatus(pods[i]) == Idle)
            && (worst != Unset ==> exists i :: 0 <= i < n && pods[i].namespace == namespace
                                     && PodStatus(pods[i]) == worst)
            && forall i :: 0 <= i < n && pods[i].namespace == namespace ==>
                Severity(PodStatus(pods[i])) <= Severity(worst)
  {
    hide PodStatus;
    if n > 0 {
      WorstInIsWorst(pods, namespace, n - 1);
    }
  }

  ghost predicate SomeIn(pods: seq<Pod>, namespace: string, n: nat, status: Status)
    requires n <= |pods|
  {
    exists i :: 0 <= i < n && pods[i].namespace == namespace && PodStatus(pods[i]) == status
  }

  /** By name: an error if any pod of the namespace has one, else a warning, else healthy if any is. */
  lemma {:induction false} WorstInMeaning(pods: seq<Pod>, namespace: string, n: nat)
    requires n <= |pods|
    ensures WorstIn(pods, namespace, n)
            == if SomeIn(pods, namespace, n, Error) then Error
               else if SomeIn(pods, namespace, n, Warning) then Warning
               else if SomeIn(pods, namespace, n, Healthy) then Healthy
               else Unset
  {
    hide PodStatus, WorstStatus, Severity;
    if n > 0 {
      WorstInMeaning(pods, namespace, n - 1);
      WorstStatusMeaning(WorstIn(pods, namespace, n - 1), PodStatus(pods[n - 1]));
    }
  }

  function CountOf(counts: map<string, nat>, key: string): nat {
    if key in counts then counts[key] else 0
  }

  function HealthOf(health: map<string, Status>, key: string): Status {
    if key in health then health[key] else Unset
  }

  method CountPods(pods: seq<Pod>, keyOf: Pod -> string) returns (counts: map<string, nat>)
    ensures forall key :: CountOf(counts, key) == PodsWith(pods, keyOf, key, |pods|)
  {
    counts := map[];
    for i := 0 to |pods|
      invariant forall key :: CountOf(counts, key) == PodsWith(pods, keyOf, key, i)
    {
      var key := keyOf(pods[i]);
      counts := counts[key := CountOf(counts, key) + 1];
    }
  }

  method WorstHealth(pods: seq<Pod>) returns (health: map<string, Status>)
    ensures forall key :: HealthOf(health, key) == WorstIn(pods, key, |pods|)
  {
    hide PodStatus, WorstStatus;
    health := map[];
    for i := 0 to |pods|
      invariant forall key :: HealthOf(health, key) == WorstIn(pods, key, i)
    {
      var status := ComputePodStatus(pods[i]);
      var key := pods[i].namespace;
      health := health[key := WorstStatus(HealthOf(health, key), status)];
    }
  }

  /** Counting by key counts every pod once: over distinct keys that cover the pods, the counts add up
      to the number of pods. */
  ghost function SumOver(pods: seq<Pod>, keyOf: Pod -> string, keys: seq<string>): nat {
    if keys == [] then 0 else SumOver(pods, keyOf, keys[..|keys| - 1]) + PodsWith(pods, keyOf, keys[|keys| - 1], |pods|)
  }

  ghost predicate DistinctKeys(keys: seq<string>) {
    forall i, j :: 0 <= i < j < |keys| ==> keys[i] != keys[j]
  }

  lemma {:induction false} SumOfMore(pods: seq<Pod>, keyOf: Pod -> string, keys: seq<string>)
    requires pods != [] && DistinctKeys(keys)
    ensures var last := pods[|pods| - 1];
            SumOver(pods, keyOf, keys) == SumOver(pods[..|pods| - 1], keyOf, keys)
                + (if keyOf(last) in keys then 1 else 0)
  {
    var init, last := pods[..|pods| - 1], pods[|pods| - 1];
    if keys != [] {
      var fewer, key := keys[..|keys| - 1], keys[|keys| - 1];
      SumOfMore(pods, keyOf, fewer);
      PodsWithin(pods, keyOf, key, |init|);
      assert keys == fewer + [key];
      assert keyOf(last) in keys <==> keyOf(last) in fewer || keyOf(last) == key;
      assert key !in fewer;
    }
  }

  lemma {:induction false} PodsWithin(pods: seq<Pod>, keyOf: Pod -> string, key: string, n: nat)
    requires n < |pods|
    ensures PodsWith(pods[..|pods| - 1], keyOf, key, n) == PodsWith(pods, keyOf, key, n)
  {
    if n > 0 {
      PodsWithin(pods, keyOf, key, n - 1);
    }
  }

  lemma {:induction false} EveryPodIsCountedOnce(pods: seq<Pod>, keyOf: Pod -> string, keys: seq<string>)
    requires DistinctKeys(keys) && forall i :: 0 <= i < |pods| ==> keyOf(pods[i]) in keys
    ensures SumOver(pods, keyOf, keys) == |pods|
  {
    if pods == [] {
      SumOfNone(keyOf, keys);
    } else {
      EveryPodIsCountedOnce(pods[..|pods| - 1], keyOf, keys);
      SumOfMore(pods, keyOf, keys);
    }
  }

  lemma {:induction false} SumOfNone(keyOf: Pod -> string, keys: seq<string>)
    ensures SumOver([], keyOf, keys) == 0
  {
    if keys != [] {
      SumOfNone(keyOf, keys[..|keys| - 1]);
    }
  }

  // The namespaces lens

  function NamespaceOf(pod: Pod): string {
    pod.namespace
  }

  function MachineOf(pod: Pod): string {
    pod.spec.nodeName
  }

  function StatusToShow(ns: Namespace, worst: Status): Status {
    if ns.terminating then Warning else if worst == Unset then Idle else worst
  }

  /** A namespace weighs as much as it has pods and shows the worst of their statuses. */
  ghost function NamespaceNode(pods: seq<Pod>, ns: Namespace): Node {
    Plain("Namespace", "", ns.name, StatusToShow(ns, WorstIn(pods, ns.name, |pods|)), true,
        PodsWith(pods, NamespaceOf, ns.name, |pods|))
  }

  ghost function NamespaceNodes(pods: seq<Pod>, namespaces: seq<Namespace>, n: nat): set<Node>
    requires n <= |namespaces|
  {
    if n == 0 then {} else NamespaceNodes(pods, namespaces, n - 1) + {Stored(NamespaceNode(pods, namespaces[n - 1]))}
  }

  method DrawNamespaces(pods: seq<Pod>, namespaces: seq<Namespace>) returns (view: Graph)
    ensures DuplicateFree(view) && Closed(view) && view.level == ClusterLevel && view.edges == []
    ensures forall n :: n in view.nodes ==> n in NamespaceNodes(pods, namespaces, |namespaces|)
    ensures NodeIds(view.nodes) == IdsIn(NamespaceNodes(pods, namespaces, |namespaces|))
  {
    hide Builder.Good, DuplicateFree, Closed, EdgesKept, GroupsKept, NodesKept, IdsIn, Stored, NodeId, StatusToShow;
    hide WorstIn, PodsWith;
    var counts := CountPods(pods, NamespaceOf);
    var health := WorstHealth(pods);
    hide CountOf, HealthOf;
    var g := new Builder(ClusterLevel);
    for i := 0 to |namespaces|
      invariant fresh(g) && g.Valid() && g.Good([]) && g.level == ClusterLevel && g.edges == []
      invariant g.written == NamespaceNodes(pods, namespaces, i)
    {
      var ns := namespaces[i];
      g.AddNode(Plain("Namespace", "", ns.name, StatusToShow(ns, HealthOf(health, ns.name)), true,
          CountOf(counts, ns.name)));
    }
    GoodNow(g, []);
    WrittenIds(g);
    NodesAreWritten(g);
    view := g.Result();
  }

  // The nodes lens

  ghost function MachineNode(pods: seq<Pod>, m: Machine): Node {
    Plain("Node", "", m.name, m.status, true, PodsWith(pods, MachineOf, m.name, |pods|))
  }

  ghost function MachineNodes(pods: seq<Pod>, machines: seq<Machine>, n: nat): set<Node>
    requires n <= |machines|
  {
    if n == 0 then {} else MachineNodes(pods, machines, n - 1) + {Stored(MachineNode(pods, machines[n - 1]))}
  }

  method DrawMachines(pods: seq<Pod>, machines: seq<Machine>) returns (view: Graph)
    ensures DuplicateFree(view) && Closed(view) && view.level == ClusterLevel && view.edges == []
    ensures forall n :: n in view.nodes ==> n in MachineNodes(pods, machines, |machines|)
    ensures NodeIds(view.nodes) == IdsIn(MachineNodes(pods, machines, |machines|))
  {
    hide Builder.Good, DuplicateFree, Closed, EdgesKept, GroupsKept, NodesKept, IdsIn, Stored, NodeId, PodsWith;
    var counts := CountPods(pods, MachineOf);
    hide CountOf;
    var g := new Builder(ClusterLevel);
    for i := 0 to |machines|
      invariant fresh(g) && g.Valid() && g.Good([]) && g.level == ClusterLevel && g.edges == []
      invariant g.written == MachineNodes(pods, machines, i)
    {
      var m := machines[i];
      g.AddNode(Plain("Node", "", m.name, m.status, true, CountOf(counts, m.name)));
    }
    GoodNow(g, []);
    WrittenIds(g);
    NodesAreWritten(g);
    view := g.Result();
  }

  // One node and its pods

  function NamespaceGroup(pod: Pod): (id: string)
    ensures id != ""
  {
    NodeId("Namespace", "", pod.namespace)
  }

  lemma LabelledByNamespace(pod: Pod)
    ensures Labelled(Group(NamespaceGroup(pod), pod.namespace, "Namespace"))
  {
  }

  ghost function GroupedPods(pods: seq<Pod>, n: nat): set<Node>
    requires n <= |pods|
  {
    if n == 0 then {} else GroupedPods(pods, n - 1) + {Stored(PodNode(pods[n - 1], NamespaceGroup(pods[n - 1])))}
  }

  ghost function PodGroups(pods: seq<Pod>, n: nat): set<string>
    requires n <= |pods|
  {
    if n == 0 then {} else PodGroups(pods, n - 1) + {NamespaceGroup(pods[n - 1])}
  }

  method AddGroupedPod(g: Builder, pod: Pod)
    requires g.Valid()
    modifies g`nodes, g`nodeIds, g`written, g`groups, g`groupIds
    ensures g.Valid()
    ensures forall before :: old(g.Good(before)) ==> g.Good(before)
    ensures g.written == old(g.written) + {Stored(PodNode(pod, NamespaceGroup(pod)))}
    ensures g.groupIds == old(g.groupIds) + {NamespaceGroup(pod)}
  {
    hide Builder.Valid, Builder.Good, Labelled, Stored, NodeId, NamespaceGroup;
    var groupId := NamespaceGroup(pod);
    LabelledByNamespace(pod);
    g.AddGroup(groupId, pod.namespace, "Namespace");
    g.AddNode(PodNode(pod, groupId));
  }

  /** The Node view: the pods on a node, each in the group of its namespace. */
  method DrawMachine(pods: seq<Pod>) returns (view: Graph)
    ensures DuplicateFree(view) && Closed(view) && view.level == NodeLevel && view.edges == []
    ensures forall n :: n in view.nodes ==> n in GroupedPods(pods, |pods|)
    ensures NodeIds(view.nodes) == IdsIn(GroupedPods(pods, |pods|)) && GroupIds(view.groups) == PodGroups(pods, |pods|)
    ensures GroupsLabelled(view.groups)
  {
    hide Builder.Good, GroupsLabelled, Labelled, DuplicateFree, Closed, EdgesKept, GroupsKept, NodesKept, IdsIn, Stored;
    hide NodeId, PodNode;
    hide NamespaceGroup;
    var g := new Builder(NodeLevel);
    for i := 0 to |pods|
      invariant fresh(g) && g.Valid() && g.Good([]) && g.level == NodeLevel && g.edges == []
      invariant g.written == GroupedPods(pods, i) && g.groupIds == PodGroups(pods, i)
    {
      AddGroupedPod(g, pods[i]);
    }
    GoodNow(g, []);
    WrittenIds(g);
    NodesAreWritten(g);
    view := g.Result();
  }
}
