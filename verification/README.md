# Wiremap, modelled and proved

Wiremap shows Docker hosts and Kubernetes clusters in a browser: a Go server reads a cluster and
turns it into graphs, one per drill-down level, and a React client lays them out and keeps track of
where the user is. This project models the parts of it that carry invariants and proves them.

**The topology graphs.** `KubeObjects` holds the objects of a cluster as far as the views look at
them; the API server is an input, every list being items, an error that hides an optional family of
objects, or a failure. `TopOwner`, `PodAttribution` and `PodOwners` model the overview's attribution
of every pod to a top-level owner: the bounded walk along controller references, what the loop
computes on values, and the loop itself over owner objects that are updated in place. `ObjectGraph`
models the drill-down, which finds ownership by another algorithm, and `Agreement` proves exactly
when the two agree, for objects opened in any kind of view; `MissedPods` has pods on which they do and
do not. `GraphBuilder` accumulates a graph; its invariant, that edges and groups are
closed and nothing occurs twice, is kept by every writer: the nine steps of the namespace view
(`NamespaceGraph`, `ConfigRefs`, `GatewayGraph`, `NamespacePolicies`, `NetworkPolicies`,
`ServiceAccounts`, put together in `NamespaceView`), every object view (`ObjectChildren`,
`ObjectView`), the lenses (`StorageGraph`, `AccessGraph`, `ClusterViews`, dispatched in
`ClusterLenses`) and the client's own transformations (`Dashboard`). Each step also states exactly
which edges it draws. What the views mean is told without the functions that compute them, field by
field: `NamespaceEdges` and `NamespaceNodes` say of every edge and node of the namespace view when it is
there, `NamespaceReading` which lists it needs, `ObjectMeaning` the same of the object views,
`LensMeaning` of the lenses, and `AttributedOwners` of the owners of pods; `GenericOwners` says when the
owner made up for an object the view does not read is the one drawn under its ID.

**Concurrent protocols.** `Debounce` and `SizeQueue` are transition systems whose runs are all
interleavings of the goroutines involved. `StreamRegistry` is the per-connection registry of streams,
a class whose methods are the critical sections under the client's mutex.

**Routes and navigation.** `PercentEncoding` (section 19.2.6 of ECMA-262, over section 2.1 of RFC
3986 and section 3 of RFC 3629) and `KubeRoute` are the printer and parser of the hash routes,
`Navigation` the state machine whose only lasting state is that hash.

**Layout.** `OwnershipDepth`, `NodeColumns` and `GraphLayout` compute columns and anchors;
`LayoutSeparation` proves how far apart anchors are, `LayoutPlacement` who is anchored and where.

**Codecs and lenses.** `DockerStream` has the two decoders of Docker's multiplexed stream format,
`SecretLens` the pair of functions that hide and restore the values of a Secret.

Where the code and its comments differ, the model follows the code. Four things it shows:

- The comment on restoreRedactedSecret promises that untouched keys keep their values, which
  holds; but the view drops kubectl's last-applied annotation, so saving an unedited view removes it
  (`SecretLens.UneditedSaveChangesNothing` says exactly when, `SecretLens.UneditedSaveDropsLastApplied`
  has one).
- A pod that names a Deployment, a CronJob or another pod (as the executors of a Spark job name their
  driver) as its owner is drawn under it in the overview and is missing from its drill-down; so is the
  pod of an object that shares kind and name with one of another API group, since IDs leave the group
  out (`MissedPods`).
- A driver pod and the owner made up for its executors have one ID, and the graph keeps whichever comes
  first: if the driver is listed before its executors, their number and statuses do not show
  (`GenericOwners.GenericOwnerIsShown`, `MissedPods.DriverHidesItsExecutors`).
- The log decoder skips the header of a frame of more than one mebibyte but not its payload, which it goes
  on to read as headers (`DockerStream.LargePayloadIsReadAsFrames`, `DockerStream.LargeFrameIsLost`).

Methods state what they change; what the source promises about it is proved as lemmas about the
specification functions they name. `Sets` and `Seqs` hold equations that proofs cite, and `hide`
statements keep definitions out of proofs that do not need them.

## Model

| member | source | states |
|---|---|---|
| Agreement.OverviewAndDrillDownAgree | internal/wiremap/service/kube_object_graph.go:15-224 | For an owned pod of a consistent namespace and an object of any kind drawn at top level: opening the object (and, where its view draws Jobs, one of those) leads to the pod if and only if the overview attributes the pod to the ID of that object, the walk along the references ended at that object and not at one of another API group with the same kind and name, and the chain of owners is one the drill-down can show. |
| Agreement.AgreementIsExact | internal/wiremap/service/kube_object_graph.go:15-224 | Hence the two algorithms give the same answer about an object and a pod if and only if the overview does not attribute the pod to the ID of that object, or the walk ended at that very object and the chain of its owners is drillable. |
| Agreement.AgreementWithoutNamesakes | internal/wiremap/service/kube_topology_service.go:244-246 | Where no two objects share kind and name and kinds have no slash, the ID decides: opening an object leads to a pod if and only if the overview attributes the pod to it and the chain of owners is drillable. |
| MissedPods.DirectlyOwnedPodIsMissed | internal/wiremap/service/kube_object_graph.go:67-147 | The condition on chains is needed: in a consistent namespace, a pod that names a Deployment or a CronJob itself is drawn under it in the overview and is missing from its view. |
| MissedPods.ExecutorsAreMissed | internal/wiremap/service/kube_object_children.go:16-38 | The same for executors that name their driver pod as owner: the overview attributes them to the driver, whose view shows containers only. |
| MissedPods.PodOfNamesakeIsMissed | internal/wiremap/service/kube_topology_service.go:244-246 | The condition on the end of the walk is needed: a pod of a Volcano Job, whose chain is drillable, is drawn under the batch Job of the same name, which does not lead to it; the Volcano Job does. |
| MissedPods.PodOfDeploymentIsReached | internal/wiremap/service/kube_object_graph.go:67-91 | Both algorithms at work: in a consistent namespace of a Deployment, its ReplicaSet and a pod of that, the pod is the Deployment's in the overview and opening the Deployment leads to it. |
| MissedPods.DirectPodsAreMissed | internal/wiremap/service/kube_pod_owners.go:75-109 | In every consistent namespace, a pod that names an object at the top whose kind of view shows no pods of its own is attributed to it in the overview and missing from its view. |
| MissedPods.NamesakesMissPods | internal/wiremap/service/kube_topology_service.go:244-246 | In every consistent namespace, a pod that one object leads to is drawn under the ID of every other object of that kind and name, and none of those leads to it. |
| MissedPods.DriverHidesItsExecutors | internal/wiremap/service/kube_pod_owners.go:75-109 | A namespace in which the count of a generic owner does not show: the driver is listed before its two executors, two pods are attributed through its ID, and the node drawn there weighs one. |
| Agreement.ReachMeaning | internal/wiremap/service/kube_object_graph.go:78-91 | Which pods drilling down from an object reaches: those it owns, those of the ReplicaSets it owns, and those of the Jobs it owns, as its kind of view allows. |
| Agreement.OwnedAtTop | internal/wiremap/service/kube_pod_owners.go:84-88 | A pod whose owner has nothing above it belongs to that owner in the overview. |
| Agreement.OwnedBelowTop | internal/wiremap/service/kube_pod_owners.go:207-220 | A pod one level further down belongs to the owner of its owner. |
| Agreement.IntermediateMeaning | internal/wiremap/service/kube_pod_owners.go:171-187 | The table of intermediate controllers holds exactly the owned Jobs and the ReplicaSets, each with its own references. |
| Agreement.OwnedIsNotShown | internal/wiremap/service/kube_pod_owners.go:171-178 | Something that has an owner is never a drawn workload. |
| Agreement.NodeIdInjective | internal/wiremap/service/kube_topology_service.go:244-246 | With slash-free kinds and namespaces, kind and name can be read back from a node ID. |
| Agreement.PodEdgeInView | internal/wiremap/service/kube_object_graph.go:151-174 | The view of an object draws an edge to a pod exactly if one of the references of the pod is a parent of that view. |
| Agreement.JobEdgeInView | internal/wiremap/service/kube_object_graph.go:209-222 | The view of an object draws an edge to a Job exactly if it owns it and its kind of view draws Jobs. |
| TopOwner.FindControllerRef | internal/wiremap/service/kube_pod_owners.go:222-229 | The loop returns the reference at the least index that is marked as controller, or the first of all if none is. |
| TopOwner.ControllerRefMeaning | internal/wiremap/service/kube_pod_owners.go:222-229 | By index: the reference chosen is the first one marked as controller, whatever stands before it, and the first of all if none is. |
| TopOwner.ClimbMeaning | internal/wiremap/service/kube_pod_owners.go:207-229 | Of any way up along references so chosen on which nothing before the end is drawn: a drawn workload at its end is the answer if at most five references lead there; if nothing is above the end, or it is the sixth, the answer is that reference and no workload. |
| TopOwner.FindTopOwner | internal/wiremap/service/kube_pod_owners.go:207-220 | The bounded loop computes the bounded walk. |
| TopOwner.TopMeaning | internal/wiremap/service/kube_pod_owners.go:207-220 | Where the walk stops, on any map of references including cyclic ones: at the end of the unbounded walk if that lies among the first five references, else at the sixth with nothing found. |
| TopOwner.FoundIffDrawnWithinBound | internal/wiremap/service/kube_pod_owners.go:207-220 | A drawn workload is found exactly if it is among the first five references of the chain. |
| TopOwner.BoundMakesNoDifference | internal/wiremap/service/kube_pod_owners.go:33-34 | The bounded answer is the unbounded one exactly if the walk ends within the bound, or at the sixth reference with no drawn workload there. |
| TopOwner.EndIsUnique | internal/wiremap/service/kube_pod_owners.go:207-220 | The unbounded walk has at most one end. |
| PodOwners.ListPodOwners | internal/wiremap/service/kube_pod_owners.go:36-112 | The loop over mutable owner objects, shared between the result and the lookup map, succeeds exactly if the lists can be read and then returns what the value-level attribution says. |
| PodOwners.OwnerTable.ListWorkloads | internal/wiremap/service/kube_pod_owners.go:116-203 | Lists that cannot be read fail the view, except for hidden ReplicationControllers; otherwise the drawn workloads, their UIDs and the intermediate controllers are exactly those of the lists. |
| PodOwners.OwnerTable.AddWorkload | internal/wiremap/service/kube_pod_owners.go:43-62 | A drawn workload becomes a new owner object and is registered under its UID. |
| PodOwners.OwnerTable.AddStatefulSet | internal/wiremap/service/kube_pod_owners.go:138-145 | A StatefulSet is drawn with one claim prefix per claim template, set on the owner already registered. |
| PodOwners.OwnerTable.AddJobs | internal/wiremap/service/kube_pod_owners.go:171-179 | Jobs with owners only leave their references behind; the others are drawn. |
| PodOwners.OwnerTable.RecordPod | internal/wiremap/service/kube_pod_owners.go:75-109 | One pod changes the owners, the lookup map and the entry of the pod as the three cases of the loop body say. |
| PodOwners.OwnerTable.AddGenericPod | internal/wiremap/service/kube_pod_owners.go:90-108 | The generic owner of a pod is found or created and updated in place, and no other owner changes. |
| PodOwners.OwnerTable.BumpAt | internal/wiremap/service/kube_pod_owners.go:104-106 | Updating one owner object in place changes exactly its value in the list. |
| PodAttribution.EveryPodHasItsEntry | internal/wiremap/service/kube_pod_owners.go:75-109 | With distinct pod names every pod has exactly one entry, the ID of the owner its references lead to. |
| PodAttribution.PodGoesUp | internal/wiremap/service/kube_pod_owners.go:75-109 | Told by that way up: a pod is attributed to the ID of the first drawn workload among five references, or to kind, namespace and name of the object the way ends at. |
| PodAttribution.BarePodIsItsOwn | internal/wiremap/service/kube_pod_owners.go:77-82 | A pod without references is attributed to its own ID. |
| PodAttribution.ApiGroupMeaning | internal/wiremap/service/kube_pod_owners.go:231-237 | The API group of a made-up owner: what stands before the slash of an API version that has exactly one, and none otherwise. |
| PodAttribution.WorstGenericMeaning | internal/wiremap/service/kube_status.go:23-28 | By name: that status is an error if any of those pods has one, else a warning if any has one, else healthy if any is, else idle. |
| AttributedOwners.OwnersAreJustified | internal/wiremap/service/kube_pod_owners.go:36-112 | Every owner returned is a drawn workload, a pod that stands for itself, or made up for an object, with the labels and the spec of the first pod that led there and every other field spelled out. |
| AttributedOwners.OwnersAreComplete | internal/wiremap/service/kube_pod_owners.go:36-112 | None of these is missing. |
| AttributedOwners.DrawsAre | internal/wiremap/service/kube_pod_owners.go:116-203 | Which workloads are drawn, and each field of their nodes: every Deployment, StatefulSet, DaemonSet and CronJob, the Jobs nothing owns, and the ReplicationControllers with a template. |
| AttributedOwners.ClaimsOfSet | internal/wiremap/service/kube_namespace_graph.go:175-182 | A StatefulSet uses exactly the existing claims called template, dash, name of the set, dash, anything. |
| PodAttribution.EveryEntryIsAnOwner | internal/wiremap/service/kube_pod_owners.go:80-108 | Every entry is the ID of an owner that was returned; owners are only ever added and keep their IDs. |
| PodAttribution.GenericOwnersCountTheirPods | internal/wiremap/service/kube_pod_owners.go:90-107 | An ID has a generic owner exactly if a pod was attributed through it; that owner weighs as much as those pods and carries the worst of their statuses. |
| PodAttribution.WorstIsWorst | internal/wiremap/service/kube_status.go:23-28 | The status folded over the pods of a generic owner is the status of one of them, and none of them is more severe. |
| PodAttribution.PodsAreConserved | internal/wiremap/service/kube_pod_owners.go:73-109 | No pod is lost or counted twice: the weights of the owners and the pods of drawn workloads add up to the drawn workloads and all pods. |
| PodAttribution.OwnersAreUngrouped | internal/wiremap/service/kube_pod_owners.go:43-103 | No owner of the overview is put in a group. |
| PodAttribution.DrawsAreWellDrawn | internal/wiremap/service/kube_pod_owners.go:124-201 | Every drawn workload is of a built-in kind other than ReplicaSet, has the ID of its kind and name, and a drawn Job has no owner. |
| KubeStatus.ComputePodStatus | internal/wiremap/service/kube_status.go:33-67 | The loop over container statuses computes: deletion outranks a stuck container, which outranks the phase. |
| KubeStatus.PodStatusMeaning | internal/wiremap/service/kube_status.go:33-67 | Each status by its own condition: an error for a stuck container or a failed pod, healthy exactly if it runs with as many ready containers as its spec has, idle if it succeeded; a pod being deleted shows a warning. |
| KubeStatus.WorstStatusMeaning | internal/wiremap/service/kube_status.go:13-28 | Of two statuses an error outranks a warning, which outranks health; anything else outranks nothing. |
| GraphBuilder.Builder.AddNode | internal/wiremap/service/kube_topology_service.go:270-279 | The first node of an ID wins and is stored with the group of its kind; sets and lists stay in step, and a sound graph stays sound if the group of the node is declared. |
| GraphBuilder.Builder.AddEdge | internal/wiremap/service/kube_topology_service.go:285-292 | An edge is kept once; a sound graph stays sound if both ends are drawn. |
| GraphBuilder.Builder.AddGroup | internal/wiremap/service/kube_topology_service.go:294-300 | A group is kept once; a sound graph stays sound if the ID of the group is spelled from its kind and its name. |
| GraphBuilder.Builder.Result | internal/wiremap/service/kube_topology_service.go:302-304 | The result holds exactly what was added, without duplicates, and, whenever the builder is sound, is closed and has labelled groups. |
| GraphBuilder.Builder.constructor | internal/wiremap/service/kube_topology_service.go:256-268 | A new graph is empty and sound. |
| GraphBuilder.SameIdSameName | internal/wiremap/service/kube_topology_service.go:244-246 | Within a kind and a namespace, the name can be read back from an ID. |
| GraphBuilder.KindGroupMeaning | internal/wiremap/service/kube_kinds.go:4-28 | The API group of every built-in kind, group by group. |
| NamespaceView.Namespace | internal/wiremap/service/kube_namespace_graph.go:19-54 | The whole view, owners and nine steps: it answers exactly if every mandatory list can be read; the graph is closed and free of duplicates, shows exactly the nodes and edges of all steps, has an edge exactly where one of the reasons for an edge of its kind holds, has only nodes that stand for something listed or named and all of those, shows the first owner of every ID, every listed Gateway with its own status, and every policy with its count of external peers. |
| NamespaceEdges.EdgesAreJustified | internal/wiremap/service/kube_namespace_graph.go:30-48 | Of every kind of edge in the view, when it is there: "selects", "routes", "uses", "bound", "scales", "protects", "applies", "allows", "runs-as", "binds" and "grants" edges exist exactly for the matching labels, endpoints, backends, parents, references, claims, volumes, targets, selectors, accounts and bindings of the objects listed. |
| NamespaceNodes.NodesAreJustified | internal/wiremap/service/kube_namespace_graph.go:19-54 | Of every node of the view what it stands for, field by field: kind, namespace, name, API group, status, and whether it can be opened, for the objects listed, the references and claims of owners, what is behind claims, the parents of routes, and the accounts, roles and bindings in use. |
| NamespaceReading.AnswersMeaning | internal/wiremap/service/kube_namespace_graph.go:19-54 | List by list, which of them the view needs: it is there exactly if those can be read; routes count up to the first hidden kind, LimitRanges only where quotas can be listed, and bindings only where a workload or a pod runs. |
| NamespaceReading.ObjectsAreRead | internal/wiremap/service/kube_namespace_graph.go:19-54 | What it takes from each list: all of it, or nothing from one that was not read. |
| NamespaceReading.RoutesAreRead | internal/wiremap/service/kube_gateway_graph.go:30-41 | A route is drawn exactly if the Gateways and the routes of its kind were listed and no kind before it was hidden. |
| NamespaceReading.BindingsAreRead | internal/wiremap/service/kube_namespace_rbac.go:95-133 | Bindings of the cluster are looked at only where those of the namespace could be listed. |
| NamespaceEdges.ServiceEdgesMeaning | internal/wiremap/service/kube_namespace_graph.go:58-91 | A "selects" edge leads from a Service exactly to the owners its selector matches or its endpoints are attributed to. |
| NamespaceEdges.IngressEdgesMeaning | internal/wiremap/service/kube_namespace_graph.go:126-159 | A "routes" edge of an Ingress leads exactly to those Services of its default backend and rules that are drawn. |
| NamespaceEdges.AllRouteEdgesMeaning | internal/wiremap/service/kube_gateway_graph.go:69-120 | A "routes" edge of the Gateway API leads from a parent Gateway to its route, or from a route to a backend Service that is drawn. |
| NamespaceEdges.EarlyServices | internal/wiremap/service/kube_namespace_graph.go:151-156 | What is drawn between the Services and the routes is never taken for a Service. |
| NamespaceEdges.DependenciesMeaning | internal/wiremap/service/kube_namespace_graph.go:163-239 | A "uses" edge leads from an owner to exactly what its pods name or its claim templates made, or to a StorageClass behind a used claim; a "bound" edge from a used claim to its listed volume. |
| NamespaceEdges.ScaleEdgesMeaning | internal/wiremap/service/kube_namespace_policies.go:22-48 | A "scales" edge leads from an autoscaler to its target exactly if that is drawn by then. |
| NamespaceEdges.ProtectEdgesMeaning | internal/wiremap/service/kube_namespace_policies.go:79-113 | A "protects" edge leads from a budget with a valid selector to exactly the owners it matches. |
| NamespaceEdges.AccountEdgesMeaning | internal/wiremap/service/kube_namespace_rbac.go:36-48 | A "runs-as" edge leads from an owner to its account exactly if that is drawn. |
| NamespaceEdges.BindingsMeaning | internal/wiremap/service/kube_namespace_rbac.go:57-133 | "binds" and "grants" edges in terms of the bindings of the cluster: a binding is linked to an account exactly if one of its subjects is a ServiceAccount of that name in this namespace and some workload runs as it, and to its role exactly if it is linked to any account. |
| NamespaceEdges.AllRoleEdgesMeaning | internal/wiremap/service/kube_namespace_rbac.go:57-81 | "binds" edges lead from a matched binding to its accounts, "grants" edges to its role, and nowhere else. |
| GenericOwners.GenericOwnerIsShown | internal/wiremap/service/kube_pod_owners.go:90-107 | Of owners that share an ID the graph keeps one node: it carries the number of pods attributed through that ID, and the worst of their statuses, if no drawn workload has the ID and no bare pod of that ID is listed before them; otherwise it weighs one and is the node of the first drawn workload of that ID or, if there is none, of the first bare pod, with its status. |
| GenericOwners.AttributedStanding | internal/wiremap/service/kube_pod_owners.go:75-109 | The generic owner of an ID is the first owner with that ID if and only if it comes first in that sense; all owners that are not generic weigh one, and one that is first is a workload as drawn or the first bare pod of the ID. |
| NamespaceView.AddOwners | internal/wiremap/service/kube_namespace_graph.go:30-34 | Of the owners that share an ID, exactly the first is drawn. |
| NamespaceView.DrawWorkloads | internal/wiremap/service/kube_namespace_graph.go:30-42 | The owners and the first four steps together: exact edges, where the later steps link to what the earlier ones drew. |
| NamespaceView.DrawPolicies | internal/wiremap/service/kube_namespace_graph.go:43-45 | Autoscalers, budgets and policies: exact edges on top of those. |
| NamespaceView.DrawAccounts | internal/wiremap/service/kube_namespace_graph.go:46-47 | ServiceAccounts and quotas: exact edges and nodes. |
| NamespaceView.AllowsInView | internal/wiremap/service/kube_namespace_policies.go:117-177 | Among the edges of the nine steps, an "allows" edge is there exactly if some policy permits that traffic: no other step draws one. |
| NamespaceView.PolicyIsShown | internal/wiremap/service/kube_namespace_policies.go:160-164 | A policy with a valid selector is in the graph with its own count of external peers, unless an owner or another policy has its ID. |
| NamespaceView.GatewaysAreShown | internal/wiremap/service/kube_gateway_graph.go:26-41 | A Gateway of the namespace is in the graph with its own status, not as routes know it, unless an owner or another Gateway has its ID. |
| NamespaceView.AttributedOwnersFit | internal/wiremap/service/kube_namespace_graph.go:25-33 | What pod attribution returns can be drawn: no groups, and entries that name owners. |
| NamespaceGraph.AddServices | internal/wiremap/service/kube_namespace_graph.go:58-91 | The step adds exactly the Services and the edges to their targets, and keeps a sound graph sound. |
| NamespaceGraph.ServiceTargetsAreExact | internal/wiremap/service/kube_namespace_graph.go:71-88 | A Service leads to the owners whose pod labels its selector matches or, without a selector, to those its endpoint pods are attributed to. |
| NamespaceGraph.SelectsMeaning | internal/wiremap/service/kube_namespace_graph.go:71-88 | A selector selects exactly the labels that include all of its pairs. |
| NamespaceGraph.PodsBehindMeaning | internal/wiremap/service/kube_namespace_graph.go:108-123 | The pods collected for a Service are exactly its endpoints that target pods. |
| NamespaceGraph.AddIngresses | internal/wiremap/service/kube_namespace_graph.go:126-159 | Exactly the links to Services that were drawn before the step, and nothing drawn can be taken for a Service. |
| NamespaceGraph.IngressBackends | internal/wiremap/service/kube_namespace_graph.go:345-361 | The nested loops list the Services of the default backend and of all rules, in order. |
| NamespaceGraph.AddRoutes | internal/wiremap/service/kube_namespace_graph.go:151-156 | A link is drawn exactly to those named Services that are among the nodes. |
| PodSpecRefs.CollectRefs | internal/wiremap/service/kube_namespace_graph.go:272-330 | The loop with its `seen` map returns each named reference at its first occurrence. |
| PodSpecRefs.RefsAreDistinctAndComplete | internal/wiremap/service/kube_namespace_graph.go:272-330 | That list has no repetition and holds exactly what the pod spec names: a volume or a source of a projected one, an image pull secret, or an `envFrom` or `env` entry of an init or main container. |
| PodSpecRefs.AllRefsMeaning | internal/wiremap/service/kube_namespace_graph.go:272-330 | The references the loops visit are exactly those places of the spec, field by field. |
| ConfigRefs.AddConfigRefs | internal/wiremap/service/kube_namespace_graph.go:163-204 | Exactly the references of all owners, their nodes, and what is behind the claims in use, for any order in which the maps are visited. |
| ConfigRefs.OwnerRefs | internal/wiremap/service/kube_namespace_graph.go:175-182 | The references of an owner are those of its pod spec and the claims under its claim prefixes, for any order of the map. |
| ConfigRefs.ClaimsByNameMeaning | internal/wiremap/service/kube_namespace_graph.go:163-172 | A claim is looked up under its own name, the last of that name if there are several. |
| ConfigRefs.VolumesByNameMeaning | internal/wiremap/service/kube_namespace_graph.go:208-217 | The same of volumes. |
| ConfigRefs.AddOwnerRefs | internal/wiremap/service/kube_namespace_graph.go:173-200 | Every owner is linked to each of its references; the claims among them are recorded as used and are drawn. |
| ConfigRefs.AddRef | internal/wiremap/service/kube_namespace_graph.go:184-199 | A claim that does not exist is drawn as missing, one that does with its own status. |
| ConfigRefs.AddVolumes | internal/wiremap/service/kube_namespace_graph.go:208-239 | What is behind each used claim that exists, for any order of the map. |
| ConfigRefs.AddBehind | internal/wiremap/service/kube_namespace_graph.go:218-238 | A claim leads to its volume and the StorageClass of that or, if the volume is unknown, to the StorageClass it asks for. |
| ConfigRefs.AddPersistentVolume | internal/wiremap/service/kube_namespace_graph.go:241-251 | The node of a volume. |
| ConfigRefs.AddStorageClass | internal/wiremap/service/kube_namespace_graph.go:253-257 | The node of a StorageClass. |
| ConfigRefs.DependencyNodesAreNotPolicies | internal/wiremap/service/kube_namespace_graph.go:187-197 | Nothing this step draws can take the ID of a NetworkPolicy. |
| NamespacePolicies.AddAutoscalers | internal/wiremap/service/kube_namespace_policies.go:22-48 | A link to the scaled object exactly if that is drawn, before this step or by it. |
| NamespacePolicies.MatchingOwners | internal/wiremap/service/kube_namespace_policies.go:235-243 | The loop returns the owners whose labels match, in order. |
| NamespacePolicies.MatchedMeaning | internal/wiremap/service/kube_namespace_policies.go:235-243 | An ID is among them exactly if some owner of that ID matches. |
| NamespacePolicies.AddDisruptionBudgets | internal/wiremap/service/kube_namespace_policies.go:79-113 | Exactly the protected owners; a budget with an invalid selector is drawn without any. |
| NamespacePolicies.QuotaStatus | internal/wiremap/service/kube_namespace_policies.go:208-233 | The loop yields the worst any resource says (full, nearly full or neither), whatever the order of the resources. |
| NamespacePolicies.AddQuotas | internal/wiremap/service/kube_namespace_policies.go:180-192 | Exactly the ResourceQuotas, each with that status. |
| NamespacePolicies.AddLimitRanges | internal/wiremap/service/kube_namespace_policies.go:194-203 | Exactly the LimitRanges. |
| NetworkPolicies.AddNetworkPolicies | internal/wiremap/service/kube_namespace_policies.go:117-177 | Exactly the edges and nodes of all policies. |
| NetworkPolicies.AddNetworkPolicy | internal/wiremap/service/kube_namespace_policies.go:123-175 | One policy: what it applies to and allows, and its node with the count of external peers; nothing if its selector is invalid. |
| NetworkPolicies.PeerOwners | internal/wiremap/service/kube_namespace_policies.go:134-146 | The closure returns the owners its usable peers match and counts the others. |
| NetworkPolicies.AllowsAreExact | internal/wiremap/service/kube_namespace_policies.go:117-177 | An "allows" edge from s to t is drawn exactly if some policy with a valid selector selects t and has an ingress peer matching s, or selects s and has an egress peer matching t. |
| NetworkPolicies.PolicyEdgesMeaning | internal/wiremap/service/kube_namespace_policies.go:166-174 | For a single policy: an "applies" edge leads to exactly the owners it selects, and an "allows" edge is where it permits traffic. |
| NetworkPolicies.AllPolicyEdgesMeaning | internal/wiremap/service/kube_namespace_policies.go:117-177 | The same for all policies of the step, which draw no other edges. |
| NetworkPolicies.RulesMatchedMeaning | internal/wiremap/service/kube_namespace_policies.go:148-154 | The owners collected over all rules are exactly those some usable peer matches. |
| NetworkPolicies.ExternalIsTheCount | internal/wiremap/service/kube_namespace_policies.go:137-140 | External peers are counted once each, and no other peer is: the count is the size of the set of their places. |
| NetworkPolicies.PolicyNodesMeaning | internal/wiremap/service/kube_namespace_policies.go:160-164 | Exactly the policies with valid selectors are drawn. |
| ServiceAccounts.CollectUsers | internal/wiremap/service/kube_namespace_rbac.go:19-26 | The map holds, for every account some owner runs as, exactly the owners that do. |
| ServiceAccounts.ReadBindings | internal/wiremap/service/kube_namespace_rbac.go:95-133 | The two lists as the code reads them, with the early returns of hidden and failing lists. |
| ServiceAccounts.MatchAccounts | internal/wiremap/service/kube_namespace_rbac.go:97-111 | The accounts in use that the subjects name, in the namespace of the view. |
| ServiceAccounts.NamedAccountsMeaning | internal/wiremap/service/kube_namespace_rbac.go:97-111 | An account is among them exactly if some subject is a ServiceAccount of that name in that namespace. |
| ServiceAccounts.BindingsNamingMeaning | internal/wiremap/service/kube_namespace_rbac.go:113-133 | A binding is kept, with the accounts it names, exactly if it names any. |
| ServiceAccounts.AddServiceAccounts | internal/wiremap/service/kube_namespace_rbac.go:18-83 | Exactly the edges of the drawn accounts and of all bindings, and exactly which accounts are drawn, whatever the order of the map. |
| ServiceAccounts.DrawnAccountsMeaning | internal/wiremap/service/kube_namespace_rbac.go:36-81 | An account is drawn exactly if no earlier step took its ID and a workload runs as it (unless it is "default"), or some binding names it before the ID of a binding or role takes its place. |
| ServiceAccounts.AddAccount | internal/wiremap/service/kube_namespace_rbac.go:36-48 | An account is drawn with the edges of its users exactly if its ID is free; its ID is taken afterwards. |
| ServiceAccounts.AddBinding | internal/wiremap/service/kube_namespace_rbac.go:57-81 | A binding is linked to its accounts and to its role. |
| ServiceAccounts.WantedAccountsAreDrawn | internal/wiremap/service/kube_namespace_rbac.go:15-17 | If nothing else has the ID of a wanted account, exactly the wanted ones are drawn: those in use, and "default" only if something binds it. |
| ServiceAccounts.RunsAsIsExact | internal/wiremap/service/kube_namespace_rbac.go:43-45 | A "runs-as" edge leads from exactly the owners that run as a drawn account. |
| ServiceAccounts.FreshMore | internal/wiremap/service/kube_namespace_rbac.go:36-48 | Of accounts asked for one after the other, exactly those are drawn whose IDs were free at the start. |
| GatewayGraph.ReadRoutes | internal/wiremap/service/kube_gateway_graph.go:30-41 | The kinds in order: an unserved kind is skipped, a hidden one ends the search, a failing one fails the view. |
| GatewayGraph.AddGateways | internal/wiremap/service/kube_gateway_graph.go:26-28 | Exactly the Gateways. |
| GatewayGraph.AddRoute | internal/wiremap/service/kube_gateway_graph.go:69-120 | A route is linked to its Gateways, which are drawn if they are not yet, and to those backend Services that are drawn; the list of nodes afterwards is stated exactly. |
| GatewayGraph.AddAllRoutes | internal/wiremap/service/kube_gateway_graph.go:38-40 | The same for all routes of the step. |
| GatewayGraph.RoutesAddOnly | internal/wiremap/service/kube_gateway_graph.go:69-103 | The step leaves every node it finds as it is, so a Gateway listed in the namespace keeps its status; what it adds are routes and Gateways whose IDs were free. |
| GatewayGraph.RouteBackends | internal/wiremap/service/kube_gateway_graph.go:105-119 | The nested loops list the Services the rules name. |
| ObjectView.Object | internal/wiremap/service/kube_object_graph.go:15-38 | Whatever the object, the view exists exactly if what it needs can be read, is closed and free of duplicates, and has exactly the nodes, the edges and the groups of the view of that object, every group labelled with the name of its machine. |
| ObjectView.AddObject | internal/wiremap/service/kube_object_graph.go:22-33 | The dispatch on group and kind: it fails exactly if something needed cannot be read, and else draws exactly the nodes, edges and groups of that kind of view. |
| ObjectGraph.ViewForMeaning | internal/wiremap/service/kube_object_graph.go:22-33 | Which view opens an object, by its group and its kind: joining the two with a slash confuses no two objects, whatever characters they have. |
| ObjectGraph.DrawnKindsOpenTheirViews | internal/wiremap/service/kube_kinds.go:4-26 | A node drawn for a built-in kind carries the group under which the view of that kind opens. |
| ObjectMeaning.RootMeaning | internal/wiremap/service/kube_object_graph.go:41-65 | The object a view starts from: the first of that name among the workloads listed, or the object of that group, kind and name. |
| ObjectMeaning.DrawableMeaning | internal/wiremap/service/kube_object_graph.go:15-65 | Kind by kind, what the view needs to be read. |
| ObjectMeaning.ObjectEdgesAreJustified | internal/wiremap/service/kube_object_graph.go:15-188 | Kind by kind, exactly which edges the view has: containers, selected pods, backends, users, what is behind a claim, owned Jobs, and pods that name the object or a ReplicaSet that does. |
| ObjectMeaning.ObjectNodesAreJustified | internal/wiremap/service/kube_object_graph.go:15-188 | Kind by kind, exactly which nodes it has, field by field, and which groups: the machines its pods run on. |
| ObjectGraph.AddOwnerTree | internal/wiremap/service/kube_object_graph.go:41-65 | Exactly the edges, nodes and groups of an owner, its pods and its Jobs; it fails exactly if a Get or list it needs does. |
| ObjectGraph.CollapseReplicaSets | internal/wiremap/service/kube_object_graph.go:80-91 | The ReplicaSets an object owns, and only those, come to stand for it. |
| ObjectGraph.AddOwnedJobs | internal/wiremap/service/kube_object_graph.go:135-147 | Exactly the Jobs the root owns, linked to it. |
| ObjectGraph.FindParent | internal/wiremap/service/kube_object_graph.go:160-166 | The reference at the least index that is a parent decides; without one there is no parent. |
| ObjectGraph.AddOwnedPods | internal/wiremap/service/kube_object_graph.go:152-174 | Exactly the pods with a parent, each linked to the root and put in the group of the node it runs on. |
| ObjectGraph.AddScheduledPod | internal/wiremap/service/kube_object_graph.go:177-188 | A pod is drawn in the declared group of its node, "unscheduled" if it has none. |
| ObjectChildren.AddPodContainers | internal/wiremap/service/kube_object_children.go:16-38 | Exactly the containers of a pod. |
| ObjectChildren.AddServiceBackends | internal/wiremap/service/kube_object_children.go:90-124 | Exactly the pods behind a Service. |
| ObjectChildren.BackendsAreExact | internal/wiremap/service/kube_object_children.go:113-122 | A pod is drawn behind a Service exactly if its labels match or, without a selector, if it is among the endpoints. |
| ObjectChildren.AddIngressBackends | internal/wiremap/service/kube_object_children.go:127-151 | Every backend of an Ingress, also one that cannot be fetched. |
| ObjectChildren.AddConsumers | internal/wiremap/service/kube_object_children.go:155-187 | Exactly the pods that use an object and, for a claim, what is behind it. |
| ObjectChildren.ConsumersAreExact | internal/wiremap/service/kube_object_children.go:172-181 | A pod is drawn as a user of an object exactly if its spec names the object somewhere. |
| ObjectChildren.AddClaimVolume | internal/wiremap/service/kube_object_children.go:190-209 | The volume behind a claim and its StorageClass, or the StorageClass the claim asks for. |
| ObjectChildren.ClaimViewAgreesWithOverview | internal/wiremap/service/kube_object_children.go:190-209 | Opening a claim shows the same volume and StorageClass behind it as the namespace view. |
| ObjectView.Endpoints | internal/wiremap/service/kube_object_children.go:104-110 | The set of endpoint pods of a Service without a selector. |
| StorageGraph.StorageView | internal/wiremap/service/kube_storage_graph.go:12-62 | The storage lens: closed, free of duplicates, exact edges and node IDs, each node one of those its objects call for, and all of those where no two volumes and no two claims share an ID. |
| StorageGraph.StorageEdgesAreExact | internal/wiremap/service/kube_storage_graph.go:33-60 | The edges: from a volume to the StorageClass it names, from a claim to its volume exactly if that is listed, and from any other claim to the StorageClass it asks for. |
| StorageGraph.StorageNodesAreKept | internal/wiremap/service/kube_storage_graph.go:24-60 | Where no two volumes and no two claims share an ID, the nodes are exactly those of the classes, volumes and claims. |
| LensMeaning.StorageNodesAre | internal/wiremap/service/kube_storage_graph.go:24-60 | Those nodes field by field: the classes, volumes and claims that are listed, and the StorageClasses that volumes, and claims without a listed volume, name. |
| StorageGraph.AddClaim | internal/wiremap/service/kube_storage_graph.go:45-60 | One claim: bound to a listed volume, or linked to the StorageClass it asks for. |
| StorageGraph.VolumesMore | internal/wiremap/service/kube_storage_graph.go:53-55 | Looking for a volume among the node IDs finds exactly the volumes drawn. |
| AccessGraph.AccessView | internal/wiremap/service/kube_access_graph.go:19-44 | The access lens: closed, free of duplicates, exact edges and node IDs, each node one of those the bindings call for, and all of those where kinds and namespaces have no slash. |
| AccessGraph.AccessNodesAreKept | internal/wiremap/service/kube_access_graph.go:46-82 | There a node is determined by its ID, so that none hides another. |
| LensMeaning.AccessIsJustified | internal/wiremap/service/kube_access_graph.go:19-94 | The edges and nodes of the lens, field by field: of every binding Kubernetes did not set up, itself, its role and its subjects, each where it lives. |
| AccessGraph.IsSystemBinding | internal/wiremap/service/kube_access_graph.go:84-94 | The search loop: a binding is the system's if it is called so, or has subjects and all of them are the system's. |
| AccessGraph.UserBindingsAreShown | internal/wiremap/service/kube_access_graph.go:31-42 | Exactly the edges of the bindings that are not the system's are drawn. |
| AccessGraph.AddAccessBinding | internal/wiremap/service/kube_access_graph.go:46-82 | A binding is linked to each subject and to its role, in the namespaces those have. |
| ClusterLenses.Cluster | internal/wiremap/service/kube_topology_service.go:48-185 | Every lens: it answers exactly if each list it reads can be read (for the namespaces also the four workload lists that are only counted), and then its graph is closed, free of duplicates and shows exactly what that lens draws. |
| ClusterLenses.LensLists | internal/wiremap/service/kube_topology_service.go:48-185 | The lists each lens needs, by name. |
| ClusterLenses.MachineView | internal/wiremap/service/kube_topology_service.go:187-208 | The view of a node answers exactly if its pods can be listed, and shows those in the groups of their namespaces. |
| ClusterViews.DrawNamespaces | internal/wiremap/service/kube_topology_service.go:82-110 | Every namespace weighs as much as it has pods and shows the worst of their statuses. |
| LensMeaning.NamespaceNodesAre | internal/wiremap/service/kube_topology_service.go:82-110 | Those nodes field by field: the weight is the number of pods of the namespace; a terminating one shows a warning, any other an error, a warning or health if some pod does, in that order, and idle otherwise. |
| ClusterViews.CountPods | internal/wiremap/service/kube_topology_service.go:82-89 | The counting loop counts the pods of every key. |
| ClusterViews.WorstHealth | internal/wiremap/service/kube_topology_service.go:83-89 | The map holds, for every namespace, the statuses of its pods folded by severity. |
| ClusterViews.WorstInIsWorst | internal/wiremap/service/kube_status.go:23-28 | That fold is the status of one of the pods and none is more severe; it is still unset exactly if all pods of the namespace are idle. |
| ClusterViews.WorstInMeaning | internal/wiremap/service/kube_status.go:23-28 | By name: an error if any pod of the namespace has one, else a warning, else healthy if any is. |
| ClusterViews.EveryPodIsCountedOnce | internal/wiremap/service/kube_topology_service.go:82-89 | Over distinct keys that cover the pods, the counts add up to the number of pods. |
| ClusterViews.DrawMachines | internal/wiremap/service/kube_topology_service.go:160-184 | Every node of the list weighs as much as it has pods. |
| LensMeaning.MachineNodesAre | internal/wiremap/service/kube_topology_service.go:160-184 | Those nodes field by field. |
| ClusterViews.DrawMachine | internal/wiremap/service/kube_topology_service.go:187-208 | The pods of a node, each in the declared group of its namespace. |
| LensMeaning.GroupedPodsAre | internal/wiremap/service/kube_topology_service.go:187-208 | Those nodes field by field, each in the group of its namespace. |
| LensMeaning.PodGroupsAre | internal/wiremap/service/kube_topology_service.go:199-206 | The groups are those of the namespaces of the pods. |
| Dashboard.HidingNodesKeepsGraphsClosed | client/src/components/pages/kube_dashboard/KubeDashboard.vm.ts:50-57 | Hiding nodes keeps a graph closed and free of duplicates, keeps exactly the wanted nodes, and loses exactly the edges that lost an end. |
| Dashboard.KindGraphsAreClosed | client/src/components/pages/kube_dashboard/KubeDashboard.vm.ts:60-81 | A list of objects makes a closed graph with distinct groups, free of duplicates exactly if the objects have distinct IDs. |
| LensMeaning.KindGraphNodesAre | client/src/components/pages/kube_dashboard/KubeDashboard.vm.ts:60-81 | One node for each object, in order, field by field, and no edges. |
| LensMeaning.KindGraphGroupsAre | client/src/components/pages/kube_dashboard/KubeDashboard.vm.ts:60-81 | If the list is grouped, one group, labelled, for each namespace some object is in; none otherwise. |
| Dashboard.NamespacesOfMeaning | client/src/components/pages/kube_dashboard/KubeDashboard.vm.ts:61 | The groups are the non-empty namespaces of the objects, each once. |
| OwnershipDepth.DepthsFromRoots | client/src/components/organisms/graph_canvas/GraphCanvas.vm.ts:111-130 | The layered search ends on any edges, cycles included, and maps an ID to d exactly if d is the length of the shortest path to it from a node no edge points to. |
| OwnershipDepth.NextLevelIsRight | client/src/components/organisms/graph_canvas/GraphCanvas.vm.ts:117-128 | One pass over the edges extends the map by exactly the next level. |
| OwnershipDepth.NothingBeyond | client/src/components/organisms/graph_canvas/GraphCanvas.vm.ts:117-128 | Once a level is empty everything reachable has been mapped. |
| NodeColumns.ComputeColumns | client/src/components/organisms/graph_canvas/GraphCanvas.vm.ts:132-148 | At object level the columns are the ownership depths.  On the other levels, with distinct IDs: at namespace level exactly the nodes have a column, in the order of kinds and without gaps; in the storage and access lenses exactly the nodes have that of their kind; elsewhere nothing has one. |
| NodeColumns.CompactColumnsAreDetermined | client/src/components/organisms/graph_canvas/GraphCanvas.vm.ts:133-138 | Keeping the order of kinds and leaving no gap determines the columns: no two assignments do both. |
| NodeColumns.UsedColumnsMeaning | client/src/components/organisms/graph_canvas/GraphCanvas.vm.ts:133-136 | The sorted list of used columns is ascending and holds exactly the columns of some node. |
| NodeColumns.ColumnMapAt | client/src/components/organisms/graph_canvas/GraphCanvas.vm.ts:138-147 | With distinct IDs every node gets the column of its kind. |
| NodeColumns.CompactionKeepsOrder | client/src/components/organisms/graph_canvas/GraphCanvas.vm.ts:133-138 | Dropping empty columns keeps the order of kinds, in both directions. |
| NodeColumns.CompactionLeavesNoGap | client/src/components/organisms/graph_canvas/GraphCanvas.vm.ts:133-138 | After it every column left of an occupied one is occupied. |
| GraphLayout.ComputeLayout | client/src/components/organisms/graph_canvas/GraphCanvas.vm.ts:159-203 | Exactly the ungrouped nodes with a column and the groups are anchored, at the points the columns and the grid give them. |
| GraphLayout.NodesByColumn | client/src/components/organisms/graph_canvas/GraphCanvas.vm.ts:170-175 | The loop collects the nodes of every occupied column. |
| GraphLayout.PlaceNodes | client/src/components/organisms/graph_canvas/GraphCanvas.vm.ts:176-181 | Columns visited in any order do not disturb each other. |
| GraphLayout.PlaceGroups | client/src/components/organisms/graph_canvas/GraphCanvas.vm.ts:184-200 | The i-th group stands in the i-th cell. |
| GraphLayout.StackMeaning | client/src/components/organisms/graph_canvas/GraphCanvas.vm.ts:170-177 | A stack holds exactly the nodes of its column, each once. |
| GraphLayout.SortSorts | client/src/components/organisms/graph_canvas/GraphCanvas.vm.ts:177 | Sorting by name sorts, for any total order of names. |
| GraphLayout.SortIsPermutation | client/src/components/organisms/graph_canvas/GraphCanvas.vm.ts:177 | Sorting only reorders. |
| GraphLayout.SortIsStable | client/src/components/organisms/graph_canvas/GraphCanvas.vm.ts:177 | Nodes whose names rank alike stay in the order of the graph. |
| LayoutSeparation.LayoutsAreApart | client/src/components/organisms/graph_canvas/GraphCanvas.vm.ts:159-203 | Of any layout of any graph on a canvas of any size: no two anchored nodes and no two groups come closer than 110 on both axes, and every group is at least 240 right of every anchored node. |
| LayoutSeparation.NodesAreApart | client/src/components/organisms/graph_canvas/GraphCanvas.vm.ts:166-180 | Nodes of one column are at least 110 apart vertically, of different columns at least 240 horizontally. |
| LayoutSeparation.CellsAreApart | client/src/components/organisms/graph_canvas/GraphCanvas.vm.ts:191-199 | Group centres are at least 280 apart horizontally or 260 vertically. |
| LayoutSeparation.GroupsAreRightOfColumns | client/src/components/organisms/graph_canvas/GraphCanvas.vm.ts:185-196 | Every group centre is at least 240 right of every occupied column. |
| LayoutSeparation.ColumnIsCentred | client/src/components/organisms/graph_canvas/GraphCanvas.vm.ts:178-180 | Every column is centred on the middle of the canvas. |
| LayoutSeparation.ColumnsAreSortedByName | client/src/components/organisms/graph_canvas/GraphCanvas.vm.ts:177-180 | From top to bottom a column is in the order of names. |
| LayoutPlacement.AnchoredNodes | client/src/components/organisms/graph_canvas/GraphCanvas.vm.ts:164-181 | Which nodes are anchored: none in a group; at namespace level all others, at object level those some path from a root reaches, in the storage and access lenses all others, and elsewhere none. |
| LayoutPlacement.OnlyTheseAreAnchored | client/src/components/organisms/graph_canvas/GraphCanvas.vm.ts:164-203 | Nothing but nodes and groups of the graph is anchored, and every group is. |
| LayoutPlacement.ColumnsRunLeftToRight | client/src/components/organisms/graph_canvas/GraphCanvas.vm.ts:89-109 | The column of every kind, from what lets traffic in to what storage and permissions are made from. |
| LayoutPlacement.OneColumnIsCentred | client/src/components/organisms/graph_canvas/GraphCanvas.vm.ts:166-168 | A single column stands in the middle of the canvas. |
| LayoutPlacement.ColumnsAreSpread | client/src/components/organisms/graph_canvas/GraphCanvas.vm.ts:166-168 | Several start 100 from the left and divide the width but for 200, with gaps of at least 240 and at most 380. |
| LayoutPlacement.StackDividesHeight | client/src/components/organisms/graph_canvas/GraphCanvas.vm.ts:176-181 | Where 110 fit between them, the nodes of a column divide the height evenly. |
| LayoutPlacement.CrowdedStack | client/src/components/organisms/graph_canvas/GraphCanvas.vm.ts:176-181 | Where they do not, neighbours are exactly 110 apart. |
| LayoutPlacement.GridShape | client/src/components/organisms/graph_canvas/GraphCanvas.vm.ts:184-200 | Beside columns groups take as few columns of cells as three rows allow; alone they stand in a grid as square as can be, with as few rows as that allows. |
| LayoutPlacement.GroupsFollowColumns | client/src/components/organisms/graph_canvas/GraphCanvas.vm.ts:184-200 | Beside columns cells are 280 wide and the first stands where the next column would. |
| LayoutPlacement.GroupsFillWidth | client/src/components/organisms/graph_canvas/GraphCanvas.vm.ts:184-200 | Alone, cells start at the edge of the canvas and share its width if each gets 280. |
| LayoutPlacement.GroupsFillHeight | client/src/components/organisms/graph_canvas/GraphCanvas.vm.ts:184-200 | Rows share the height if each gets 260. |
| LayoutPlacement.CrowdedRows | client/src/components/organisms/graph_canvas/GraphCanvas.vm.ts:184-200 | Rows that do not are 260 high. |
| Debounce.NoTriggerIsLost | internal/wiremap/service/kube_watch_service.go:115-141 | In every interleaving, after a trigger and until fn starts again, the channel holds a token or the worker is on its way to fn, unless the context was cancelled and the worker has returned. |
| Debounce.TriggerIsServedWithinFiveMoves | internal/wiremap/service/kube_watch_service.go:118-135 | While the context is live the worker makes at most five moves after a trigger before fn starts. |
| Debounce.CoveredWorkerCanMove | internal/wiremap/service/kube_watch_service.go:118-135 | A worker that owes a call of fn can always move, at the latest when its timer expires. |
| Debounce.ReturnedMeansCancelled | internal/wiremap/service/kube_watch_service.go:120-128 | The worker returns only after cancellation. |
| Debounce.StartsNeverOutnumberTriggers | internal/wiremap/service/kube_watch_service.go:115-141 | fn never starts more often than it was triggered, and a token in the channel or on its way stands for a trigger not yet served. |
| Debounce.BurstIsServedOnce | internal/wiremap/service/kube_watch_service.go:115-141 | A burst is served by one call: after the worker drained the channel, fn starts at most once more than it is triggered from then on. |
| Debounce.StartsAreDelayApart | internal/wiremap/service/kube_watch_service.go:125-133 | Two starts of fn are at least the delay apart. |
| Debounce.StartWaitsForDelay | internal/wiremap/service/kube_watch_service.go:120-133 | fn starts at least the delay after the worker took the token of a burst. |
| Debounce.SleepEnds | internal/wiremap/service/kube_watch_service.go:125-148 | The sleep is no longer than that: once the delay has passed since the worker took the token, it can go on. |
| Debounce.AtMostOneStartAfterCancel | internal/wiremap/service/kube_watch_service.go:126-133 | At most one start follows a cancellation, and only if that found the worker past its last look at the context. |
| Debounce.CancelledWorkerStops | internal/wiremap/service/kube_watch_service.go:118-135 | After a cancellation the worker makes at most six more moves. |
| Debounce.CancelledWorkerCanMove | internal/wiremap/service/kube_watch_service.go:118-135 | It can always move until it has returned, asleep or not. |
| Debounce.OneStartCanFollowCancel | internal/wiremap/service/kube_watch_service.go:126-133 | That one start can happen. |
| SizeQueue.PushNeverBlocks | internal/wiremap/ws/kube_hub.go:328-334 | In every interleaving the send in push finds the channel empty. |
| SizeQueue.ReceivedInOrder | internal/wiremap/ws/kube_hub.go:328-343 | The sizes received are, in order, some of those pushed. |
| SizeQueue.NewestSizeIsNotLost | internal/wiremap/ws/kube_hub.go:322-343 | Between pushes the newest size is in the channel or was the last one received. |
| SizeQueue.EveryStateIsGood | internal/wiremap/ws/kube_hub.go:322-343 | The invariant behind these, over every run. |
| SizeQueue.StopMeansClosed | internal/wiremap/ws/kube_hub.go:336-343 | The exec stream is told to stop only after the context was cancelled. |
| StreamRegistry.KubeClient.StartStream | internal/wiremap/ws/kube_hub.go:218-228 | A running stream under the key is cancelled and replaced; the live contexts stay exactly the registered ones. |
| StreamRegistry.KubeClient.CancelStream | internal/wiremap/ws/kube_hub.go:230-238 | A stream is cancelled and removed, if there is one. |
| StreamRegistry.KubeClient.Cleanup | internal/wiremap/ws/kube_hub.go:240-248 | Nothing is registered any more and nothing is live. |
| StreamRegistry.KubeClient.HandleMessage | internal/wiremap/ws/kube_hub.go:123-143 | Which keys are live after a message and that a subscription gets a context of its own; in terms of what messages are about: the stream of a subscription is live, that of an unsubscription is not, and the streams about anything else go on under their own contexts. |
| StreamRegistry.KubeClient.Serve | internal/wiremap/ws/kube_hub.go:78-107 | After any series of messages the live keys are exactly those started and not stopped since, with at most one live context each; with slash-free names, those of the logs, statistics and topologies that were opened and not closed since. |
| StreamRegistry.KeysAreThoseOfTargets | internal/wiremap/ws/kube_hub.go:123-143 | Each message starts or stops the stream under the key of what it is about: logs or statistics of a pod, or a topology. |
| StreamRegistry.WantedIsByTarget | internal/wiremap/ws/kube_hub.go:123-143 | With slash-free names a key is wanted exactly if what it stands for was opened and not closed since. |
| StreamRegistry.KubeClient.ReadPump | internal/wiremap/ws/kube_hub.go:78-107 | After a connection ends nothing it started is left running. |
| StreamRegistry.WantedAfterOneMore | internal/wiremap/ws/kube_hub.go:129-142 | What one more message changes about which streams are wanted. |
| StreamRegistry.KeysNeverCollide | internal/wiremap/ws/kube_hub.go:58-61 | With slash-free namespaces, pods and containers, streams about different things have different keys, even if cluster names have slashes. |
| StreamRegistry.KeysCollideWithSlashes | internal/wiremap/ws/kube_hub.go:145-148 | Without that they can collide. |
| DockerStream.StripDockerHeaders | internal/wiremap/service/filesystem_service.go:183-204 | The loop stays within the input, returns no more than it got, and computes what the decomposition below says. |
| DockerStream.EveryInputDecomposes | internal/wiremap/service/filesystem_service.go:183-204 | Any bytes are complete frames followed by a tail that no complete frame starts. |
| DockerStream.DecompositionIsUnique | internal/wiremap/service/filesystem_service.go:183-204 | That decomposition is the only one. |
| DockerStream.StripMeaning | internal/wiremap/service/filesystem_service.go:183-204 | The result on that decomposition: the payloads, then what the tail has to offer. |
| DockerStream.StripInvertsEncode | internal/wiremap/service/filesystem_service.go:183-204 | Decoding the encoding of any frames yields their payloads. |
| DockerStream.PlainBytesPassThrough | internal/wiremap/service/filesystem_service.go:187-191 | Input that does not start like a stream is returned unchanged. |
| DockerStream.StreamLogs | internal/wiremap/ws/hub.go:172-206 | The frame loop emits a prefix of the entries of the stream, and all of them if it is not cancelled early. |
| DockerStream.DecodersAgree | internal/wiremap/ws/hub.go:172-206 | On frames of at most one mebibyte the log decoder emits exactly the non-empty frames, on the stream each belongs to, and its text is what the other decoder returns. |
| DockerStream.LargePayloadIsReadAsFrames | internal/wiremap/ws/hub.go:185-188 | On a frame of more than one mebibyte the log decoder skips the header only and reads the payload as headers and frames. |
| DockerStream.LargeFrameIsLost | internal/wiremap/ws/hub.go:185-188 | Such a frame of zeros, which the other decoder returns, it loses. |
| DockerStream.CutStreamGivesPrefix | internal/wiremap/ws/hub.go:179-194 | On a stream cut anywhere its text is a prefix of what the other decoder returns, and of the text of the whole stream. |
| SecretLens.Secret.RedactSecret | internal/wiremap/service/kube_resource_service.go:91-104 | The field of stored values is gone, every key of either field shows the placeholder and nothing else, and of the annotations exactly the last-applied one is dropped. |
| SecretLens.ViewHidesValues | internal/wiremap/service/kube_resource_service.go:91-104 | Two Secrets with the same keys and the same other annotations have the same view: it carries nothing about the values. |
| SecretLens.Secret.RestoreRedacted | internal/wiremap/service/kube_action_service.go:103-125 | The fields written back, for any order in which the keys are visited. |
| SecretLens.SaveMeaning | internal/wiremap/service/kube_action_service.go:100-125 | Of every key: one missing from the edit disappears, one that shows the placeholder keeps its stored value, any other takes the typed one. |
| SecretLens.UneditedSaveChangesNothing | internal/wiremap/service/kube_action_service.go:103-125 | Saving an unedited view keeps every value; the annotations survive exactly if there was no last-applied one. |
| SecretLens.UneditedSaveDropsLastApplied | internal/wiremap/service/kube_resource_service.go:91-104 | A Secret with a last-applied annotation whose unedited save keeps its values and loses that annotation. |
| SecretLens.SavedViewShowsTheEdit | internal/wiremap/service/kube_resource_service.go:91-104 | The view after a save shows the edited keys, except placeholders that stood for nothing. |
| SecretLens.SavingTwiceIsSavingOnce | internal/wiremap/service/kube_action_service.go:103-125 | Saving the same edit again changes nothing more. |
| SecretLens.KeysAreDisjoint | internal/wiremap/service/kube_action_service.go:107-124 | No key is written in both fields. |
| SecretLens.NonStringValueEmptiesSecret | internal/wiremap/service/kube_action_service.go:105 | Outside the domain of string values: one typed value that is not a string empties the Secret. |
| PercentEncoding.Utf8RoundTrip | client/src/services/kubeRoute.ts:63 | Every character is recovered from its UTF-8 octets. |
| PercentEncoding.Utf8Canonical | client/src/services/kubeRoute.ts:35 | ... and from no other octets: overlong forms and surrogates are refused. |
| PercentEncoding.DecodeInvertsEncode | client/src/services/kubeRoute.ts:63 | Percent-decoding inverts percent-encoding on all strings of Unicode scalar values. |
| PercentEncoding.EncodeCharMeaning | client/src/services/kubeRoute.ts:63 | Which characters stay as they are, by code point, and that every other one becomes an escape in capital hexadecimal digits for each of its octets. |
| PercentEncoding.DecodeMeaning | client/src/services/kubeRoute.ts:35 | A string decodes to exactly what it spells, character by character, by itself or in escapes of either case, and not at all if it spells nothing. |
| PercentEncoding.EncodedHasNoSlash | client/src/services/kubeRoute.ts:63 | An encoded segment has no slash. |
| KubeRoute.ToKubeHash | client/src/services/kubeRoute.ts:56-64 | The loop writes the hash of the route. |
| KubeRoute.ParseKubeHash | client/src/services/kubeRoute.ts:33-54 | The index loop reads the route of a hash, with null for no route and an error for malformed escapes. |
| KubeRoute.ParseMeaning | client/src/services/kubeRoute.ts:33-54 | What a hash is read as, segment by segment: nothing without the prefix or a cluster, an error if a piece does not decode, and otherwise a route with each part spelled by its segment; missing ones stand for the overview of all namespaces, and an incomplete last view is dropped. |
| KubeRoute.HashIsWritten | client/src/services/kubeRoute.ts:56-64 | The hash of a route: the prefix, then every segment of it, spelled out and encoded, between slashes. |
| KubeRoute.RoundTrip | client/src/services/kubeRoute.ts:33-64 | A route is read back from its hash if and only if it is well-formed. |
| KubeRoute.HashesAreDistinct | client/src/services/kubeRoute.ts:56-64 | Distinct well-formed routes have distinct hashes. |
| KubeRoute.ParsedRouteIsWellFormed | client/src/services/kubeRoute.ts:33-54 | Every route that is read is well-formed, unless the hash names as its root a reserved word followed by a dot. |
| KubeRoute.SplitKindMeaning | client/src/services/kubeRoute.ts:21-24 | The kind of a segment has no dot, and kind and group spell the segment again except for a trailing dot. |
| KubeRoute.RootRoundTrip | client/src/services/kubeRoute.ts:38-57 | A root survives its segment exactly if its kind has no dot and is not, without a group, a reserved word. |
| Navigation.KubeNavigation.constructor | client/src/hooks/useKubeNavigation.ts:42-48 | On mount the state follows the hash, and a hash of another cluster is replaced by one that reads back. |
| Navigation.KubeNavigation.Navigate | client/src/hooks/useKubeNavigation.ts:38-40 | Navigating writes the hash of a route and nothing else. |
| Navigation.KubeNavigation.Sync | client/src/hooks/useKubeNavigation.ts:43 | The listener takes the route of the hash, or keeps its own when reading throws, and stays in its cluster. |
| Navigation.KubeNavigation.Perform | client/src/hooks/useKubeNavigation.ts:58-82 | What each action writes. |
| Navigation.KubeNavigation.Act | client/src/hooks/useKubeNavigation.ts:58-82 | An action and its event keep state and hash in step and the route well-formed. |
| Navigation.ActionSettles | client/src/hooks/useKubeNavigation.ts:58-82 | The hash any action writes reads back as a well-formed route of the same cluster, with a missing object namespace as the empty one. |
| Navigation.EveryRouteReadsBack | client/src/hooks/useKubeNavigation.ts:30-34 | After any series of actions the hash of the route reads back as that route. |
| Navigation.BackUndoesDrill | client/src/hooks/useKubeNavigation.ts:58-79 | Going back after opening anything but a namespace restores the route. |
| Navigation.GoToKeepsCrumbs | client/src/hooks/useKubeNavigation.ts:76-80 | Clicking a breadcrumb keeps exactly the crumbs up to it, and there is none beyond the last. |
| Navigation.BackDropsLastCrumb | client/src/hooks/useKubeNavigation.ts:79 | Going back drops the last breadcrumb, and does nothing where there is only one. |
| Navigation.StartingOverClearsDrills | client/src/hooks/useKubeNavigation.ts:58-82 | Changing the namespace or the root, or opening a namespace, leaves one breadcrumb, with the label of where that starts, and keeps what was not changed. |
| Navigation.DrillAddsOneView | client/src/hooks/useKubeNavigation.ts:58-72 | Opening anything but a namespace adds one view, of that node, and changes nothing else. |
| Navigation.DrillAddsOneCrumb | client/src/hooks/useKubeNavigation.ts:58-72 | ... which adds one breadcrumb, of its kind and name. |
| Navigation.UndrillableIsIgnored | client/src/hooks/useKubeNavigation.ts:58-60 | A node that cannot be opened changes nothing. |
| Navigation.HashesOfOtherClusters | client/src/hooks/useKubeNavigation.ts:42-48 | The hash of a well-formed route is followed inside its own cluster; inside another one, and where there is no route to read, everything starts at the overview. |

## Left out

- Docker and Kubernetes client calls, JSON and YAML, HTTP handlers, configuration, the exec bridge, reconnection: input and output, taken as parameters where a decision depends on them.
- Rendering, the force simulation, the terminal and the editors.
- Summaries, details and other display texts of nodes, except the count of external peers of a NetworkPolicy; hence also the counts that only feed those texts (countWorkloads, roleRules).
- Statuses of workloads, volumes, claims, nodes, autoscalers, routes and generic objects: inputs. Only those of pods, containers, namespaces and quotas are computed.
- Label selectors: a selector is an error or an arbitrary test on labels; selectors made from plain label sets are modelled.
- Get calls on the objects a drill-down starts from: maps from names to objects; a Get that fails finds nothing, whatever the error.
- The five branches that draw the root of a Deployment, StatefulSet, DaemonSet, Job or CronJob differ in the lists they read and are merged into one method that keeps those differences.
- The namespace view reads all its lists before it draws; the code alternates. The answer is the same, since an error discards the graph.
- NamespaceView.PolicyIsShown: says nothing about policies of equal names, which a cluster cannot have.
- Agreement.OverviewAndDrillDownAgree: assumes that UIDs identify objects, that what is listed can be fetched, that pod names are distinct, and that owner references are single and resolve.
- Navigation.KubeNavigation.constructor: assumes a hash whose escapes can be decoded; the code throws on others.
- Lone surrogates in strings, on which encodeURIComponent throws: strings are sequences of Unicode scalar values.
- Kinds named like a property of every JavaScript object, which the client's column tables would find.
- Rounding: layout and quotas are over the reals. The order of localeCompare is a parameter, and sorting is a function rather than in place.
- DockerStream.DecodersAgree: on frames of at most one mebibyte; DockerStream.LargePayloadIsReadAsFrames says what happens on larger ones.
- Subscriptions of hub.go, where the stream registers itself after the message was handled; the registry is that of kube_hub.go.
- Every change of a cluster being notified: watchResource relists without notifying. Only debounce is modelled.
- Page accumulation in useKubeObjects.ts: a slow first page may land between two others, so no prefix is kept.
