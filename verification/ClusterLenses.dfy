/** The Cluster and Node methods of kube_topology_service.go: which lists a lens reads, and what it
    shows once they are read. */
module ClusterLenses {
  import opened AccessGraph
  import opened ClusterViews
  import opened GraphBuilder
  import opened KubeObjects
  import opened StorageGraph
  import opened TopologyGraph
  import opened Wrappers

  const NODES_LENS := "nodes"
  const STORAGE_LENS := "storage"
  const ACCESS_LENS := "access"

  /** Every list some lens reads, over all namespaces. */
  datatype ClusterLists = ClusterLists(
    pods: Listing<Pod>, namespaces: Listing<Namespace>, machines: Listing<Machine>,
    deployments: Listing<Workload>, statefulSets: Listing<Workload>, daemonSets: Listing<Workload>,
    cronJobs: Listing<Workload>,
    classes: Listing<string>, volumes: Listing<PersistentVolume>, claims: Listing<Claim>,
    clusterBindings: Listing<Binding>, roleBindings: Listing<Binding>)

  /** Workloads are only counted, but the view fails without them. */
  predicate WorkloadsListed(lists: ClusterLists) {
    lists.deployments.Items? && lists.statefulSets.Items? && lists.daemonSets.Items? && lists.cronJobs.Items?
  }

  /** An unknown lens is that of the namespaces. */
  predicate LensReadable(lens: string, lists: ClusterLists) {
    if lens == STORAGE_LENS then lists.classes.Items? && lists.volumes.Items? && lists.claims.Items?
    else if lens == ACCESS_LENS then lists.clusterBindings.Items? && lists.roleBindings.Items?
    else if lens == NODES_LENS then lists.pods.Items? && lists.machines.Items?
    else lists.pods.Items? && lists.namespaces.Items? && WorkloadsListed(lists)
  }

  /** The lists each lens needs, by name. */
  lemma LensLists(lens: string, lists: ClusterLists)
    ensures lens == "storage" ==>
              (LensReadable(lens, lists) <==> lists.classes.Items? && lists.volumes.Items? && lists.claims.Items?)
    ensures lens == "access" ==>
              (LensReadable(lens, lists) <==> lists.clusterBindings.Items? && lists.roleBindings.Items?)
    ensures lens == "nodes" ==> (LensReadable(lens, lists) <==> lists.pods.Items? && lists.machines.Items?)
    ensures lens !in {"storage", "access", "nodes"} ==>
              (LensReadable(lens, lists) <==>
                 && lists.pods.Items? && lists.namespaces.Items? && lists.deployments.Items?
                 && lists.statefulSets.Items? && lists.daemonSets.Items? && lists.cronJobs.Items?)
  {
  }

  ghost function LensNodes(lens: string, lists: ClusterLists): set<Node>
    requires LensReadable(lens, lists)
  {
    if lens == STORAGE_LENS then StorageNodes(lists.classes.items, lists.volumes.items, lists.claims.items)
    else if lens == ACCESS_LENS then AccessNodes(lists.clusterBindings.items, lists.roleBindings.items)
    else if lens == NODES_LENS then MachineNodes(lists.pods.items, lists.machines.items, |lists.machines.items|)
    else NamespaceNodes(lists.pods.items, lists.namespaces.items, |lists.namespaces.items|)
  }

  ghost function LensEdges(lens: string, lists: ClusterLists): set<Edge>
    requires LensReadable(lens, lists)
  {
    if lens == STORAGE_LENS then StorageEdges(lists.volumes.items, lists.claims.items)
    else if lens == ACCESS_LENS then AccessEdges(lists.clusterBindings.items, lists.roleBindings.items)
    else {}
  }

  ghost predicate LensShown(view: Graph, nodes: set<Node>, edges: set<Edge>) {
    && NodeIds(view.nodes) == IdsIn(nodes) && (forall n :: n in view.nodes ==> n in nodes)
    && forall e :: e in view.edges <==> e in edges
  }

  method Cluster(lens: string, lists: ClusterLists) returns (view: Option<Graph>)
    ensures view.Some? <==> LensReadable(lens, lists)
    ensures view.Some? ==> DuplicateFree(view.value) && Closed(view.value) && view.value.level == ClusterLevel
    ensures view.Some? ==> LensShown(view.value, LensNodes(lens, lists), LensEdges(lens, lists))
  {
    hide DuplicateFree, Closed, StorageEdges, StorageNodes, AccessEdges, AccessNodes, MachineNodes, NamespaceNodes;
    hide IdsIn, NodeIds;
    if lens == STORAGE_LENS {
      view := StorageView(lists.classes, lists.volumes, lists.claims);
      return;
    }
    if lens == ACCESS_LENS {
      view := AccessView(lists.clusterBindings, lists.roleBindings);
      return;
    }
    if !lists.pods.Items? {
      return None;
    }
    var graph;
    if lens == NODES_LENS {
      if !lists.machines.Items? {
        return None;
      }
      graph := DrawMachines(lists.pods.items, lists.machines.items);
    } else {
      if !lists.namespaces.Items? || !WorkloadsListed(lists) {
        return None;
      }
      graph := DrawNamespaces(lists.pods.items, lists.namespaces.items);
    }
    return Some(graph);
  }

  /** The Node method: `pods` are those the API server says run on the node. */
  method MachineView(pods: Listing<Pod>) returns (view: Option<Graph>)
    ensures view.Some? <==> pods.Items?
    ensures view.Some? ==> DuplicateFree(view.value) && Closed(view.value) && view.value.level == NodeLevel
    ensures view.Some? ==> LensShown(view.value, GroupedPods(pods.items, |pods.items|), {})
    ensures view.Some? ==> GroupIds(view.value.groups) == PodGroups(pods.items, |pods.items|)
    ensures view.Some? ==> GroupsLabelled(view.value.groups)
  {
    hide DuplicateFree, Closed, GroupedPods, PodGroups, IdsIn, NodeIds;
    if !pods.Items? {
      return None;
    }
    var graph := DrawMachine(pods.items);
    return Some(graph);
  }
}
