/**
 * The data the advertisement broadcaster reads and writes: nodes, pods,
 * config maps and the Advertisement record itself, together with the fixed
 * policy constants of the broadcaster.
 *
 * Kubernetes quantities are exact decimals; they are modelled as `int`.
 * Times and durations are modelled as `int` nanoseconds, as Go's
 * `time.Duration` counts them.
 */
module Model {

  /** A resource name (`corev1.ResourceName`), also used as a price key. */
  type ResourceName = string

  /** A resource list (`corev1.ResourceList`): resource name to quantity. */
  type ResourceList = map<ResourceName, int>

  const ResourceCPU: ResourceName := "cpu"
  const ResourceMemory: ResourceName := "memory"
  const ResourcePods: ResourceName := "pods"

  /** `resource.MustParse("2Gi")`, the memory price. */
  const TwoGi: int := 2 * 1024 * 1024 * 1024

  const Minute: int := 60 * 1000 * 1000 * 1000
  /** The advertisement's time-to-live window. */
  const AdvertisementTTL: int := 30 * Minute
  /** The delay after a failed attempt to build the remote client. */
  const RetryDelay: int := 1 * Minute
  /** The pause between two publish cycles. */
  const PublishInterval: int := 10 * Minute
  /** How many times the broadcaster tries to build the remote client. */
  const MaxConnectAttempts: nat := 3

  /** The pod-address block used when the node's block cannot be widened. */
  const DefaultPodCIDR: string := "172.17.0.0/16"

  /** One entry of a node's image list: every name the image is known by. */
  datatype ContainerImage = ContainerImage(names: seq<string>, sizeBytes: int)

  /** The parts of a node the broadcaster reads. */
  datatype Node = Node(podCIDR: string, allocatable: ResourceList, images: seq<ContainerImage>)

  /**
   * A pod, reduced to the per-resource totals of its requests and limits
   * (what the kubectl helper `PodRequestsAndLimits` computes from it).
   */
  datatype Pod = Pod(requests: ResourceList, limits: ResourceList)

  /** A config map in the local `default` namespace. */
  datatype ConfigMap = ConfigMap(name: string, data: map<string, string>)

  datatype ObjectMeta = ObjectMeta(name: string, namespace: string)

  datatype LimitRangeItem = LimitRangeItem(kind: string, max: ResourceList, min: ResourceList)

  datatype NetworkInfo = NetworkInfo(
    podCIDR: string,
    gatewayIP: string,
    gatewayPrivateIP: string,
    supportedProtocols: seq<string>)

  datatype AdvertisementSpec = AdvertisementSpec(
    clusterId: string,
    images: seq<ContainerImage>,
    availability: ResourceList,
    limitRange: seq<LimitRangeItem>,
    prices: ResourceList,
    network: NetworkInfo,
    timestamp: int,
    timeToLive: int)

  datatype Advertisement = Advertisement(meta: ObjectMeta, spec: AdvertisementSpec)

  /** The quantity stored under `name`, or zero when there is none (as `ResourceList.Cpu()` etc. do). */
  function Get(list: ResourceList, name: ResourceName): (q: int)
    ensures name in list ==> q == list[name]
    ensures name !in list ==> q == 0
  {
    if name in list then list[name] else 0
  }
}
