/** What the lenses of a cluster show, object by object and field by field: its storage, its permissions, its
    namespaces, its machines, and a list of objects of one kind. */
module LensMeaning {
  import opened AccessGraph
  import opened ClusterViews
  import opened ConfigRefs
  import opened Dashboard
  import opened GraphBuilder
  import opened KubeObjects
  import opened KubeStatus
  import NamespaceNodes
  import opened PodAttribution
  import opened ServiceAccounts
  import opened StorageGraph
  import opened TopologyGraph

  // Storage

  /** A claim, or the StorageClass it asks for if its volume is not listed. */
  ghost predicate ClaimDrawn(volumes: seq<PersistentVolume>, claim: Claim, node: Node) {
    || Spelled(node, "PersistentVolumeClaim", claim.namespace, claim.name, claim.status, true)
    || (!(claim.volume != "" && IsListed(volumes, claim.volume))
        && claim.storageClass.Some? && NamespaceNodes.ClassDrawn(claim.storageClass.value, node))
  }

  /** A volume, or its StorageClass. */
  ghost predicate VolumeDrawn(pv: PersistentVolume, node: Node) {
    || Spelled(node, "PersistentVolume", "", pv.name, pv.status, false)
    || NamespaceNodes.ClassDrawn(pv.storageClass, node)
  }

  lemma {:induction false} ListedClassesAre(classes: seq<string>, n: nat, node: Node)
    requires n <= |classes|
    ensures node in ListedClasses(classes, n)
            <==> exists i :: 0 <= i < n && Spelled(node, "StorageClass", "", classes[i], Healthy, false)
  {
    hide Stored, Plain, Spelled;
    if n > 0 {
      ListedClassesAre(classes, n - 1, node);
      PlainIsSpelled(node, "StorageClass", "", classes[n - 1], Healthy, false);
    }
  }

  lemma BoundNodesAre(pv: PersistentVolume, node: Node)
    ensures node in BoundNodes(pv) <==> VolumeDrawn(pv, node)
  {
    hide Stored, Plain, Spelled;
    PlainIsSpelled(node, "PersistentVolume", "", pv.name, pv.status, false);
    PlainIsSpelled(node, "StorageClass", "", pv.storageClass, Healthy, false);
  }

  lemma {:induction false} ListedVolumesAre(volumes: seq<PersistentVolume>, n: nat, node: Node)
    requires n <= |volumes|
    ensures node in ListedVolumes(volumes, n) <==> exists i :: 0 <= i < n && VolumeDrawn(volumes[i], node)
  {
    hide BoundNodes, VolumeDrawn;
    if n > 0 {
      ListedVolumesAre(volumes, n - 1, node);
      BoundNodesAre(volumes[n - 1], node);
    }
  }

  lemma ClaimNodesAre(claim: Claim, volumes: seq<PersistentVolume>, node: Node)
    ensures node in ClaimNodes(claim, VolumeNames(volumes, |volumes|)) <==> ClaimDrawn(volumes, claim, node)
  {
    hide Stored, Plain, Spelled, VolumeNames;
    VolumeNamesMeaning(volumes, |volumes|, claim.volume);
    PlainIsSpelled(node, "PersistentVolumeClaim", claim.namespace, claim.name, claim.status, true);
    PlainIsSpelled(node, "StorageClass", "", ClassOf(claim), Healthy, false);
  }

  lemma {:induction false} AllClaimNodesAre(claims: seq<Claim>, volumes: seq<PersistentVolume>, n: nat, node: Node)
    requires n <= |claims|
    ensures node in AllClaimNodes(claims, VolumeNames(volumes, |volumes|), n)
            <==> exists i :: 0 <= i < n && ClaimDrawn(volumes, claims[i], node)
  {
    hide ClaimNodes, ClaimDrawn, VolumeNames;
    if n > 0 {
      AllClaimNodesAre(claims, volumes, n - 1, node);
      ClaimNodesAre(claims[n - 1], volumes, node);
    }
  }

  /** The nodes of the storage lens: what is listed, and the StorageClasses that are named. */
  lemma StorageNodesAre(classes: seq<string>, volumes: seq<PersistentVolume>, claims: seq<Claim>, node: Node)
    ensures node in StorageNodes(classes, volumes, claims) <==>
              || (exists i :: 0 <= i < |classes| && Spelled(node, "StorageClass", "", classes[i], Healthy, false))
              || (exists i :: 0 <= i < |volumes| && VolumeDrawn(volumes[i], node))
              || (exists i :: 0 <= i < |claims| && ClaimDrawn(volumes, claims[i], node))
  {
    hide Spelled, VolumeDrawn, ClaimDrawn, ListedClasses, ListedVolumes, AllClaimNodes, VolumeNames;
    ListedClassesAre(classes, |classes|, node);
    ListedVolumesAre(volumes, |volumes|, node);
    AllClaimNodesAre(claims, volumes, |claims|, node);
  }

  // Permissions

  /** Kubernetes set the binding up: it is called so, or all of its subjects are, of which it has some. */
  ghost predicate IsOfSystem(b: Binding) {
    || "system:" <= b.name
    || (b.subjects != [] && forall k :: 0 <= k < |b.subjects| ==>
          "system:" <= b.subjects[k].name || "kube-" <= b.subjects[k].namespace)
  }

  /** Where a subject lives: a ServiceAccount in its own namespace or that of the binding, others nowhere. */
  ghost function HomeOf(home: string, sub: Subject): string {
    if sub.kind == "ServiceAccount" then (if sub.namespace == "" then home else sub.namespace) else ""
  }

  ghost function RoleId(home: string, role: RoleRef): string {
    NodeId(role.kind, if role.kind == "ClusterRole" then "" else home, role.name)
  }

  /** A binding leads to its subjects and to its role. */
  ghost predicate Grants(kind: string, home: string, b: Binding, e: Edge) {
    && !IsOfSystem(b) && e.source == NodeId(kind, home, b.name)
    && ((e.kind == "grants" && e.target == RoleId(home, b.roleRef))
        || (e.kind == "binds"
            && exists k :: 0 <= k < |b.subjects|
                 && e.target == NodeId(b.subjects[k].kind, HomeOf(home, b.subjects[k]), b.subjects[k].name)))
  }

  ghost predicate GrantDrawn(kind: string, home: string, b: Binding, node: Node) {
    && !IsOfSystem(b)
    && (|| Spelled(node, kind, home, b.name, Healthy, false)
        || Spelled(node, b.roleRef.kind, if b.roleRef.kind == "ClusterRole" then ""
            else home, b.roleRef.name, Healthy, false)
        || exists k :: 0 <= k < |b.subjects|
             && Spelled(node, b.subjects[k].kind, HomeOf(home, b.subjects[k]), b.subjects[k].name, Healthy, false))
  }

  lemma {:induction false} SubjectEdgesAre(home: string, id: string, subjects: seq<Subject>, n: nat, e: Edge)
    requires n <= |subjects|
    ensures e in SubjectEdges(home, id, subjects, n) <==>
              && e.source == id && e.kind == "binds"
              && exists k :: 0 <= k < n
                  && e.target == NodeId(subjects[k].kind, HomeOf(home, subjects[k]), subjects[k].name)
  {
    hide NodeId;
    if n > 0 {
      SubjectEdgesAre(home, id, subjects, n - 1, e);
      assert SubjectHome(home, subjects[n - 1]) == HomeOf(home, subjects[n - 1]);
    }
  }

  lemma {:induction false} SubjectNodesAre(home: string, subjects: seq<Subject>, n: nat, node: Node)
    requires n <= |subjects|
    ensures node in SubjectNodes(home, subjects, n)
            <==> exists k :: 0 <= k < n
                   && Spelled(node, subjects[k].kind, HomeOf(home, subjects[k]), subjects[k].name, Healthy, false)
  {
    hide Stored, Plain, Spelled;
    if n > 0 {
      SubjectNodesAre(home, subjects, n - 1, node);
      var s := subjects[n - 1];
      assert SubjectHome(home, s) == HomeOf(home, s);
      PlainIsSpelled(node, s.kind, HomeOf(home, s), s.name, Healthy, false);
    }
  }

  lemma SystemMeaning(b: Binding)
    ensures SystemBinding(b.name, b.subjects) <==> IsOfSystem(b)
  {
  }

  lemma GrantEdgesAre(kind: string, home: string, b: Binding, e: Edge)
    ensures !SystemBinding(b.name, b.subjects) && e in GrantEdges(kind, home, b) <==> Grants(kind, home, b, e)
  {
    SystemMeaning(b);
    SubjectEdgesAre(home, NodeId(kind, home, b.name), b.subjects, |b.subjects|, e);
    hide IsOfSystem, SystemBinding, SubjectEdges, NodeId, HomeOf;
    assert RoleNode(home, b.roleRef).id == RoleId(home, b.roleRef);
  }

  lemma GrantNodesAre(kind: string, home: string, b: Binding, node: Node)
    ensures !SystemBinding(b.name, b.subjects) && node in GrantNodes(kind, home, b) <==> GrantDrawn(kind, home, b, node)
  {
    SystemMeaning(b);
    SubjectNodesAre(home, b.subjects, |b.subjects|, node);
    hide IsOfSystem, SystemBinding, SubjectNodes, Stored, Plain, Spelled, HomeOf;
    PlainIsSpelled(node, kind, home, b.name, Healthy, false);
    PlainIsSpelled(
      node, b.roleRef.kind, if b.roleRef.kind == "ClusterRole" then "" else home, b.roleRef.name, Healthy, false);
  }

  /** The home of a binding, which only those of a namespace have. */
  ghost function HomeOfBinding(kind: string, b: Binding): string {
    if kind == "ClusterRoleBinding" then "" else b.namespace
  }

  lemma HomeIs(kind: string, b: Binding)
    ensures Home(kind, b) == HomeOfBinding(kind, b)
  {
  }

  lemma {:induction false} AllGrantEdgesAre(kind: string, bindings: seq<Binding>, n: nat, e: Edge)
    requires n <= |bindings|
    ensures e in AllGrantEdges(kind, bindings, n)
            <==> exists i :: 0 <= i < n && Grants(kind, HomeOfBinding(kind, bindings[i]), bindings[i], e)
  {
    hide Grants, GrantEdges, SystemBinding, Home, HomeOfBinding;
    if n > 0 {
      var b := bindings[n - 1];
      AllGrantEdgesAre(kind, bindings, n - 1, e);
      HomeIs(kind, b);
      GrantEdgesAre(kind, HomeOfBinding(kind, b), b, e);
    }
  }

  lemma {:induction false} AllGrantNodesAre(kind: string, bindings: seq<Binding>, n: nat, node: Node)
    requires n <= |bindings|
    ensures node in AllGrantNodes(kind, bindings, n)
            <==> exists i :: 0 <= i < n && GrantDrawn(kind, HomeOfBinding(kind, bindings[i]), bindings[i], node)
  {
    hide GrantDrawn, GrantNodes, SystemBinding, Home, HomeOfBinding;
    if n > 0 {
      var b := bindings[n - 1];
      AllGrantNodesAre(kind, bindings, n - 1, node);
      HomeIs(kind, b);
      GrantNodesAre(kind, HomeOfBinding(kind, b), b, node);
    }
  }

  /** The edges and the nodes of the access lens: of every binding Kubernetes did not set up, itself, its
      role and its subjects. */
  lemma AccessIsJustified(clusterBindings: seq<Binding>, roleBindings: seq<Binding>, e: Edge, node: Node)
    ensures e in AccessEdges(clusterBindings, roleBindings) <==>
              || (exists i :: 0 <= i < |clusterBindings| && Grants("ClusterRoleBinding", "", clusterBindings[i], e))
              || (exists i :: 0 <= i < |roleBindings|
                    && Grants("RoleBinding", roleBindings[i].namespace, roleBindings[i], e))
    ensures node in AccessNodes(clusterBindings, roleBindings) <==>
              || (exists i :: 0 <= i < |clusterBindings|
                    && GrantDrawn("ClusterRoleBinding", "", clusterBindings[i], node))
              || (exists i :: 0 <= i < |roleBindings|
                    && GrantDrawn("RoleBinding", roleBindings[i].namespace, roleBindings[i], node))
  {
    hide Grants, GrantDrawn, AllGrantEdges, AllGrantNodes;
    AllGrantEdgesAre("ClusterRoleBinding", clusterBindings, |clusterBindings|, e);
    AllGrantEdgesAre("RoleBinding", roleBindings, |roleBindings|, e);
    AllGrantNodesAre("ClusterRoleBinding", clusterBindings, |clusterBindings|, node);
    AllGrantNodesAre("RoleBinding", roleBindings, |roleBindings|, node);
  }

  // Namespaces and machines

  ghost function PodsAt(pods: seq<Pod>, keyOf: Pod -> string, key: string, n: nat): set<nat>
    requires n <= |pods|
  {
    set i: nat | i < n && keyOf(pods[i]) == key
  }

  lemma {:induction false} PodsWithMeaning(pods: seq<Pod>, keyOf: Pod -> string, key: string, n: nat)
    requires n <= |pods|
    ensures PodsWith(pods, keyOf, key, n) == |PodsAt(pods, keyOf, key, n)|
  {
    if n > 0 {
      PodsWithMeaning(pods, keyOf, key, n - 1);
      var before := PodsAt(pods, keyOf, key, n - 1);
      assert PodsAt(pods, keyOf, key, n) == if keyOf(pods[n - 1]) == key then before + {n - 1} else before;
    } else {
      assert PodsAt(pods, keyOf, key, 0) == {};
    }
  }

  ghost function StatusShown(pods: seq<Pod>, ns: Namespace): Status {
    if ns.terminating then Warning
    else if SomeIn(pods, ns.name, |pods|, Error) then Error
    else if SomeIn(pods, ns.name, |pods|, Warning) then Warning
    else if SomeIn(pods, ns.name, |pods|, Healthy) then Healthy
    else Idle
  }

  /** A namespace weighs as much as it has pods, and shows the worst of them unless it is being removed. */
  ghost predicate SpelledNamespace(node: Node, pods: seq<Pod>, ns: Namespace) {
    && node.weight == |set i: nat | i < |pods| && pods[i].namespace == ns.name|
    && Spelled(node.(weight := 1), "Namespace", "", ns.name, StatusShown(pods, ns), true)
  }

  /** A machine weighs as much as it has pods. */
  ghost predicate SpelledMachine(node: Node, pods: seq<Pod>, m: Machine) {
    && node.weight == |set i: nat | i < |pods| && pods[i].spec.nodeName == m.name|
    && Spelled(node.(weight := 1), "Node", "", m.name, m.status, true)
  }

  lemma WeightIsSpelled(node: Node, kind: string, name: string, status: Status, weight: nat)
    ensures node == Stored(Plain(kind, "", name, status, true, weight))
            <==> node.weight == weight && Spelled(node.(weight := 1), kind, "", name, status, true)
  {
  }

  lemma NamespaceIsSpelled(node: Node, pods: seq<Pod>, ns: Namespace)
    ensures node == Stored(NamespaceNode(pods, ns)) <==> SpelledNamespace(node, pods, ns)
  {
    hide Stored, Plain, Spelled, PodsWith, WorstIn, SomeIn;
    WorstInMeaning(pods, ns.name, |pods|);
    PodsWithMeaning(pods, NamespaceOf, ns.name, |pods|);
    assert PodsAt(pods, NamespaceOf, ns.name, |pods|) == set i: nat | i < |pods| && pods[i].namespace == ns.name;
    WeightIsSpelled(node, "Namespace", ns.name, StatusShown(pods, ns), PodsWith(pods, NamespaceOf, ns.name, |pods|));
  }

  lemma MachineIsSpelled(node: Node, pods: seq<Pod>, m: Machine)
    ensures node == Stored(MachineNode(pods, m)) <==> SpelledMachine(node, pods, m)
  {
    hide Stored, Plain, Spelled, PodsWith;
    PodsWithMeaning(pods, MachineOf, m.name, |pods|);
    assert PodsAt(pods, MachineOf, m.name, |pods|) == set i: nat | i < |pods| && pods[i].spec.nodeName == m.name;
    WeightIsSpelled(node, "Node", m.name, m.status, PodsWith(pods, MachineOf, m.name, |pods|));
  }

  /** The nodes of the two lenses. */
  lemma {:induction false} NamespaceNodesAre(pods: seq<Pod>, namespaces: seq<Namespace>, n: nat, node: Node)
    requires n <= |namespaces|
    ensures node in ClusterViews.NamespaceNodes(pods, namespaces, n)
            <==> exists i :: 0 <= i < n && SpelledNamespace(node, pods, namespaces[i])
  {
    hide Stored, NamespaceNode, SpelledNamespace;
    if n > 0 {
      NamespaceNodesAre(pods, namespaces, n - 1, node);
      NamespaceIsSpelled(node, pods, namespaces[n - 1]);
    }
  }

  lemma {:induction false} MachineNodesAre(pods: seq<Pod>, machines: seq<Machine>, n: nat, node: Node)
    requires n <= |machines|
    ensures node in MachineNodes(pods, machines, n)
            <==> exists i :: 0 <= i < n && SpelledMachine(node, pods, machines[i])
  {
    hide Stored, MachineNode, SpelledMachine;
    if n > 0 {
      MachineNodesAre(pods, machines, n - 1, node);
      MachineIsSpelled(node, pods, machines[n - 1]);
    }
  }

  /** A pod in the group of its namespace. */
  ghost predicate SpelledByNamespace(node: Node, pod: Pod) {
    && node.group == "Namespace" + "/" + "" + "/" + pod.namespace
    && Spelled(node.(group := ""), "Pod", pod.namespace, pod.name, PodStatus(pod), true)
  }

  lemma GroupedPodIsSpelled(node: Node, pod: Pod)
    ensures node == Stored(PodNode(pod, NamespaceGroup(pod))) <==> SpelledByNamespace(node, pod)
  {
    hide PodStatus;
  }

  /** The nodes and the groups of the view of a machine. */
  lemma {:induction false} GroupedPodsAre(pods: seq<Pod>, n: nat, node: Node)
    requires n <= |pods|
    ensures node in GroupedPods(pods, n) <==> exists i :: 0 <= i < n && SpelledByNamespace(node, pods[i])
  {
    hide Stored, PodNode, NamespaceGroup, SpelledByNamespace;
    if n > 0 {
      GroupedPodsAre(pods, n - 1, node);
      GroupedPodIsSpelled(node, pods[n - 1]);
    }
  }

  lemma {:induction false} PodGroupsAre(pods: seq<Pod>, n: nat, group: string)
    requires n <= |pods|
    ensures group in PodGroups(pods, n)
            <==> exists i :: 0 <= i < n && group == "Namespace" + "/" + "" + "/" + pods[i].namespace
  {
    if n > 0 {
      PodGroupsAre(pods, n - 1, group);
    }
  }

  // Lists

  /** A listed object as a node, in the group of its namespace if the list is grouped and it has one. */
  ghost predicate SpelledObject(node: Node, o: KubeObject, grouped: bool) {
    && node.id == o.kind + "/" + o.namespace + "/" + o.name
    && node.kind == o.kind && node.apiGroup == o.group && node.name == o.name && node.namespace == o.namespace
    && node.status == o.status && node.drillable == o.drillable && node.weight == 1 && node.externalPeers == 0
    && node.group == (if grouped && o.namespace != "" then "Namespace" + "/" + "" + "/" + o.namespace else "")
  }

  lemma {:induction false} GroupsOfNamespaces(namespaces: seq<string>)
    ensures GroupsLabelled(NamespaceGroups(namespaces))
    ensures |NamespaceGroups(namespaces)| == |namespaces|
    ensures forall i :: 0 <= i < |namespaces| ==>
              NamespaceGroups(namespaces)[i].name == namespaces[i] && NamespaceGroups(namespaces)[i].kind == "Namespace"
  {
    if namespaces != [] {
      GroupsOfNamespaces(namespaces[..|namespaces| - 1]);
    }
  }

  /** A list as a graph: one node for each object, in order, and no edges ... */
  lemma KindGraphNodesAre(objects: seq<KubeObject>, grouped: bool)
    ensures var g := KindGraph(objects, grouped);
            && |g.nodes| == |objects| && g.edges == [] && g.level == KindLevel && GroupsLabelled(g.groups)
            && forall i :: 0 <= i < |objects| ==> SpelledObject(g.nodes[i], objects[i], grouped)
  {
    hide NamespacesOf, Labelled;
    GroupsOfNamespaces(NamespacesOf(objects, |objects|));
  }

  ghost predicate Occurs(objects: seq<KubeObject>, namespace: string) {
    exists i :: 0 <= i < |objects| && objects[i].namespace == namespace
  }

  /** ... and, if it is grouped, one group for each namespace some object is in. */
  lemma KindGraphGroupsAre(objects: seq<KubeObject>, grouped: bool, name: string)
    ensures (exists gr :: gr in KindGraph(objects, grouped).groups && gr.name == name)
            <==> grouped && name != "" && Occurs(objects, name)
    ensures forall gr :: gr in KindGraph(objects, grouped).groups ==> gr.kind == "Namespace"
  {
    var namespaces := NamespacesOf(objects, |objects|);
    NamespacesOfMeaning(objects, |objects|);
    assert name in namespaces <==> name != "" && Occurs(objects, name);
    hide NamespacesOf, Occurs;
    GroupsOfNamespaces(namespaces);
    var groups := NamespaceGroups(namespaces);
    if name in namespaces {
      var k :| 0 <= k < |namespaces| && namespaces[k] == name;
      assert groups[k] in groups;
    }
  }
}
