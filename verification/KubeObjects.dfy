/** The objects read from a cluster, reduced to the fields the topology views look at.  The API
    server is an input: every list call yields a Listing. */
module KubeObjects {
  import opened TopologyGraph
  import opened Wrappers

  /** A list call: its items, an error that hides an optional family of objects (forbidden or not
      served, kube.IsOptional), or any other error. */
  datatype Listing<+T> = Items(items: seq<T>) | Hidden | Failed

  type Labels = map<string, string>

  /** metav1.LabelSelectorAsSelector: an error, or a test on labels. */
  datatype Selector = Invalid | Valid(matches: Labels -> bool)

  datatype OwnerRef = OwnerRef(uid: string, kind: string, apiVersion: string, name: string, controller: bool)

  // Pods

  datatype ConfigRef = ConfigRef(configMap: Option<string>, secret: Option<string>)

  datatype Volume =
    | ConfigMapVolume(name: string)
    | SecretVolume(name: string)
    | ClaimVolume(name: string)
    | ProjectedVolume(sources: seq<ConfigRef>)
    | OtherVolume

  /** `envFrom` and `env` list the ConfigMaps and Secrets a container reads its environment from. */
  datatype Container = Container(name: string, envFrom: seq<ConfigRef>, env: seq<ConfigRef>)

  datatype PodSpec = PodSpec(
    nodeName: string, serviceAccount: string, volumes: seq<Volume>, imagePullSecrets: seq<string>,
    initContainers: seq<Container>, containers: seq<Container>)

  /** `waiting` is the reason a container is waiting for, "" if it is not. */
  datatype ContainerStatus = ContainerStatus(ready: bool, waiting: string)

  datatype Pod = Pod(
    namespace: string, name: string, labels: Labels, ownerRefs: seq<OwnerRef>, spec: PodSpec,
    phase: string, containerStatuses: seq<ContainerStatus>, deleting: bool)

  // Controllers.  Their status is an input; labels and spec are those of the pod template.

  datatype Workload = Workload(uid: string, name: string, status: Status, labels: Labels, spec: PodSpec)

  datatype StatefulSet = StatefulSet(workload: Workload, claimTemplates: seq<string>)

  datatype Job = Job(workload: Workload, ownerRefs: seq<OwnerRef>)

  datatype ReplicaSet = ReplicaSet(uid: string, name: string, ownerRefs: seq<OwnerRef>)

  /** The template of a ReplicationController may be absent. */
  datatype ReplicationController = ReplicationController(workload: Workload, hasTemplate: bool)

  /** Everything pod attribution reads from a namespace. */
  datatype Inventory = Inventory(
    namespace: string,
    deployments: Listing<Workload>, statefulSets: Listing<StatefulSet>, daemonSets: Listing<Workload>,
    cronJobs: Listing<Workload>, jobs: Listing<Job>, replicaSets: Listing<ReplicaSet>,
    replicationControllers: Listing<ReplicationController>, pods: Listing<Pod>)

  datatype Namespace = Namespace(name: string, terminating: bool)

  /** A machine; its status is an input. */
  datatype Machine = Machine(name: string, status: Status)

  // The other objects of a namespace, and those of the cluster

  datatype Service = Service(namespace: string, name: string, selector: Labels)

  /** `kind` is "" when an endpoint has no target. */
  datatype TargetRef = TargetRef(kind: string, name: string)

  datatype EndpointSlice = EndpointSlice(service: string, endpoints: seq<TargetRef>)

  /** Backends are Service names, None for a backend of another kind. */
  datatype Ingress = Ingress(name: string, defaultBackend: Option<string>, rules: seq<seq<Option<string>>>)

  datatype Claim = Claim(namespace: string, name: string, volume: string, storageClass: Option<string>, status: Status)

  datatype PersistentVolume = PersistentVolume(name: string, storageClass: string, status: Status)

  datatype Autoscaler = Autoscaler(name: string, targetKind: string, targetName: string, status: Status)

  datatype DisruptionBudget = DisruptionBudget(name: string, selector: Selector, status: Status)

  datatype Peer = Peer(podSelector: Option<Selector>, hasNamespaceSelector: bool)

  datatype NetworkPolicy = NetworkPolicy(name: string, podSelector: Selector, ingress: seq<seq<Peer>>,
      egress: seq<seq<Peer>>)

  /** How much of a resource may be used, and how much is. */
  datatype Usage = Usage(hard: real, used: real)

  datatype Quota = Quota(name: string, resources: seq<Usage>)

  datatype LimitRange = LimitRange(name: string)

  datatype Subject = Subject(kind: string, namespace: string, name: string)

  datatype RoleRef = RoleRef(kind: string, name: string)

  datatype Binding = Binding(namespace: string, name: string, subjects: seq<Subject>, roleRef: RoleRef)

  datatype Gateway = Gateway(name: string, status: Status)

  /** A reference of a Gateway API route; fields that are absent are "". */
  datatype RouteRef = RouteRef(kind: string, namespace: string, name: string)

  datatype Route = Route(name: string, status: Status, parents: seq<RouteRef>, rules: seq<seq<RouteRef>>)
}
