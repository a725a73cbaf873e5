# Advertisement broadcaster model

A Dafny model of the advertisement broadcaster of the liqo advertisement
operator (`internal/advertisement-operator/broadcaster.go`). The broadcaster
runs in a cluster that offers resources to peer clusters. It:

- finds the peers: config maps in the `default` namespace whose name starts
  with `foreign-kubeconfig`;
- starts one task per peer. A task reads the peer cluster id from the
  config map's name and connects to the peer with at most three attempts,
  pausing one minute after each failure;
- in each task, builds an advertisement every ten minutes and upserts it on
  the peer. The advertisement holds the summed allocatable cpu, memory and
  pod slots of the local nodes, all their container images, a price table,
  the pod-address block widened to a /16, and a timestamp with a 30-minute
  expiry;
- starts the watcher of the advertisement's status once, after the first
  upsert that succeeds.

The modules follow the source's functions:

- `Model`: the records and constants.
- `Resources`: `GetClusterResources`.
- `Requests`: `getPodsTotalRequestsAndLimits`.
- `Pricing`: `ComputePrices`.
- `Network`: `GetPodCIDR` and the `strings.Split` it uses.
- `Builder`: `CreateAdvertisement`.
- `Peers`: `StartBroadcaster` and the peer-id cut.
- `Connect`: the connect retry loop.
- `Publish`: the publish loop and its once-latch.
- `Broadcaster`: `GenerateAdvertisement`, which puts the last three together.

Functions and methods that loop in the source are methods with loop
invariants here. Each is proved against a recursive specification function
(`AllocatableSum`, `Totals`, `ImageNames`, `PeerConfigMaps`,
`FailedAttempts`, `Run`), and the lemmas state what those functions promise.

Modelling choices:

- Quantities are unbounded integers, with memory in bytes.
- Times and durations are integers in nanoseconds, as Go's `time.Duration`.
- The source reads the clock twice while building one advertisement. The
  two readings are inputs (`stampNow`, `ttlNow`).
- The outcomes of the client constructions, the listings and the upserts are
  inputs. The connection attempts are an oracle `succeeds: nat -> bool` over
  the attempt number.
- The endless publish loop runs over a finite script of cycles. Each cycle
  says what the node listing and the upsert return in that turn.
- The publish loop records what it does as a trace of events:
  - upserts, successful or failed, carrying the advertisement;
  - the watcher start;
  - the pauses;
  - a failed listing, which returns;
  - a panic.

Where the code and its design description disagree, the model follows the
code:

- An empty node list makes `GetPodCIDR` index past the end and panic. It
  does not give an all-zero snapshot.
- The price table has entries for `cpu`, `memory` and the image names, but
  none for `pods`, although the snapshot has `pods`.
- The images are concatenated node by node with duplicates kept. They are
  not a set.
- The filter accepts the bare name `foreign-kubeconfig`, and cutting the
  peer id from that name then panics.
- The cut always drops the 19th character, whatever it is.

## Model

| member | source | states |
|---|---|---|
| Resources.Availability | internal/advertisement-operator/broadcaster.go:250-253 | the snapshot has exactly the keys cpu, memory and pods, all zero for no nodes |
| Resources.GetClusterResources | internal/advertisement-operator/broadcaster.go:233-255 | availability has exactly cpu, memory and pods, each the sum over all nodes of their allocatable quantity; images is every node's image list in node order, as many entries as the nodes report |
| Resources.ImageCountIsLength | internal/advertisement-operator/broadcaster.go:246-248 | the image list holds as many entries as all nodes report together (duplicates kept) |
| Resources.ClusterImagesAppend | internal/advertisement-operator/broadcaster.go:240-249 | aggregating two node lists in turn concatenates their image lists |
| Resources.AllocatableSumAppend | internal/advertisement-operator/broadcaster.go:240-243 | totals over two node lists in turn add up |
| Resources.ClusterImagesMembership | internal/advertisement-operator/broadcaster.go:246-248 | an image entry is in the list iff some node reports it |
| Resources.AllocatableSumNonNegative | internal/advertisement-operator/broadcaster.go:240-243 | with no negative node quantity the totals are non-negative |
| Resources.AllocatableSumBoundsNode | internal/advertisement-operator/broadcaster.go:240-243 | with no negative node quantity each total is at least each node's own quantity |
| Requests.Merge | internal/advertisement-operator/broadcaster.go:193-208 | adding one pod's quantities keeps exactly the union of the resource names |
| Requests.AddPodValues | internal/advertisement-operator/broadcaster.go:194-201 | a new name is stored and a known one summed: the keys are the union and each value is the sum of both sides (zero where absent) |
| Requests.GetPodsTotalRequestsAndLimits | internal/advertisement-operator/broadcaster.go:190-212 | a name is in the request (limit) totals iff some pod requests (limits) it, and its total is the sum over all pods |
| Requests.TotalsKeys | internal/advertisement-operator/broadcaster.go:192-209 | the totals carry a name iff some pod carries it |
| Requests.TotalsValues | internal/advertisement-operator/broadcaster.go:192-209 | every total equals the reference sum over the pods |
| Requests.NoPodsNoTotals | internal/advertisement-operator/broadcaster.go:191 | no pods give empty totals |
| Requests.MergeCommutes | internal/advertisement-operator/broadcaster.go:194-201 | adding quantities does not depend on which side they come from |
| Requests.TotalsAppend | internal/advertisement-operator/broadcaster.go:192-209 | totals over two pod lists in turn are the merge of their totals, so the order of the pods does not matter to the sums |
| Requests.MergeAssociates | internal/advertisement-operator/broadcaster.go:194-201 | merging quantities is associative |
| Pricing.PriceTable | internal/advertisement-operator/broadcaster.go:260-268 | the table's keys are cpu, memory and the image names |
| Pricing.ComputePrices | internal/advertisement-operator/broadcaster.go:258-269 | the result is the price table of the set of all image names |
| Pricing.PriceTableAdd | internal/advertisement-operator/broadcaster.go:265 | pricing one more name sets exactly that key to 5 |
| Pricing.ImageNamesMembership | internal/advertisement-operator/broadcaster.go:263-267 | a name is an image name iff some image entry carries it |
| Pricing.SameImagesSamePrices | internal/advertisement-operator/broadcaster.go:263-267 | image lists with the same entries, in any order and multiplicity, give the same prices |
| Pricing.PricesOfImages | internal/advertisement-operator/broadcaster.go:258-269 | keys are cpu, memory and every image name; every image name costs 5; cpu costs 1 and memory 2Gi unless an image bears that name |
| Network.IndexOf | internal/advertisement-operator/broadcaster.go:171 | the position of the first separator |
| Network.Split | internal/advertisement-operator/broadcaster.go:171 | a split has at least one piece, and two or more iff the separator occurs |
| Network.SplitPiecesClean | internal/advertisement-operator/broadcaster.go:171 | no piece of a split contains the separator |
| Network.JoinSplit | internal/advertisement-operator/broadcaster.go:171 | joining the pieces of a split gives the string back |
| Network.SplitJoin | internal/advertisement-operator/broadcaster.go:171 | splitting a join of separator-free pieces gives the pieces back |
| Network.GetPodCIDR | internal/advertisement-operator/broadcaster.go:169-178 | without a dot in the first node's block the result is 172.17.0.0/16, with one it ends in .0.0/16 |
| Network.PodCIDRWidens | internal/advertisement-operator/broadcaster.go:171-173 | a block a.b.rest with dot-free a and b becomes a.b.0.0/16 |
| Network.PodCIDRTwoPieces | internal/advertisement-operator/broadcaster.go:171-173 | a block a.b with dot-free a and b becomes a.b.0.0/16 |
| Network.PodCIDRExample | internal/advertisement-operator/broadcaster.go:169-178 | 10.32.0.5/24 becomes 10.32.0.0/16 |
| Network.PodCIDRReadsFirstNode | internal/advertisement-operator/broadcaster.go:171 | only the first node's block matters |
| Builder.AdvertisementName | internal/advertisement-operator/broadcaster.go:145 | the name is advertisement- followed by the cluster id, which can be read back |
| Builder.CreateAdvertisement | internal/advertisement-operator/broadcaster.go:138-167 | every field: name and namespace, cluster id, summed availability, all images, their price table, the /16 pod block, the gateways, empty limit range and protocols, the timestamp and an expiry 30 minutes after the second clock reading |
| Builder.ExpiryWindow | internal/advertisement-operator/broadcaster.go:162-163 | with one clock reading the expiry is exactly 30 minutes after the timestamp, with a clock that does not go back no earlier |
| Builder.IdentityIsClusterId | internal/advertisement-operator/broadcaster.go:144-147 | two advertisements have the same name and namespace iff they come from the same cluster id |
| Builder.EveryImagePriced | internal/advertisement-operator/broadcaster.go:140-155 | every name of every advertised image is priced 5, and cpu and memory are priced |
| Builder.PodsNotPriced | internal/advertisement-operator/broadcaster.go:140-155 | pods is in the availability but not in the prices when no image is named pods |
| Peers.ForeignClusterId | internal/advertisement-operator/broadcaster.go:93 | the id is the name without its first 19 characters |
| Peers.StartBroadcaster | internal/advertisement-operator/broadcaster.go:39-73 | a failed local client, CRD client or config-map listing each end it; otherwise it starts a task for exactly the prefixed config maps, in order |
| Peers.PeerConfigMapsSelects | internal/advertisement-operator/broadcaster.go:64-69 | a config map starts a task iff it is listed and its name starts with foreign-kubeconfig |
| Peers.PeerConfigMapsLength | internal/advertisement-operator/broadcaster.go:64-69 | no more tasks than config maps |
| Peers.PeerIdRoundTrip | internal/advertisement-operator/broadcaster.go:93 | for a name with prefix foreign-kubeconfig-, prefix plus id is the name |
| Peers.PeerIdInjective | internal/advertisement-operator/broadcaster.go:93 | distinct such names give distinct peer ids |
| Peers.PeerIdDropsSeparator | internal/advertisement-operator/broadcaster.go:66-93 | the cut drops the character after foreign-kubeconfig whatever it is |
| Peers.ShortPeerName | internal/advertisement-operator/broadcaster.go:66-93 | among accepted names exactly foreign-kubeconfig is too short for the cut |
| Connect.FailedAttempts | internal/advertisement-operator/broadcaster.go:96-104 | the count of failures before the first success, capped by the budget |
| Connect.ConnectWithRetry | internal/advertisement-operator/broadcaster.go:95-110 | at most 3 attempts; the peer task gives up iff all 3 fail; otherwise the last attempt succeeded and all earlier ones failed; one one-minute pause per failure |
| Connect.FailedAttemptsUnique | internal/advertisement-operator/broadcaster.go:96-105 | the retry count is determined by the outcomes alone |
| Connect.TwoFailuresThenSuccess | internal/advertisement-operator/broadcaster.go:96-110 | two failures then a success connect on the third attempt after two pauses |
| Connect.ThreeFailures | internal/advertisement-operator/broadcaster.go:96-107 | three failures exhaust the budget |
| Publish.CycleEventCounts | internal/advertisement-operator/broadcaster.go:113-133 | one turn records one success or failure, a watcher start only on a success with the latch open, right after it, and one pause per upsert |
| Publish.AppendKeepsLatch | internal/advertisement-operator/broadcaster.go:120-133 | appending a turn's events keeps the once-latch invariant |
| Publish.StartsAfterAppend | internal/advertisement-operator/broadcaster.go:123-131 | the watcher still starts right after the first successful upsert |
| Publish.StepKeepsLatchInvariant | internal/advertisement-operator/broadcaster.go:112-134 | one turn keeps the once-latch invariant |
| Publish.RunKeepsLatchInvariant | internal/advertisement-operator/broadcaster.go:112-134 | the once-latch invariant holds after any script |
| Publish.StoppedStaysStopped | internal/advertisement-operator/broadcaster.go:113-117 | once the loop has returned or panicked later cycles change nothing |
| Publish.ListFailureEndsTask | internal/advertisement-operator/broadcaster.go:113-117 | a failed node listing ends the peer task |
| Publish.WatcherStartsAtMostOnce | internal/advertisement-operator/broadcaster.go:125-131 | the watcher starts at most once, iff some upsert succeeded, right after the first one |
| Publish.RunCounts | internal/advertisement-operator/broadcaster.go:119-132 | the recorded successes and failures are the script's successful and failed cycles |
| Publish.FailedPublishesNeverWatch | internal/advertisement-operator/broadcaster.go:121-122 | if no upsert succeeds the watcher never starts |
| Publish.SuccessfulCyclesWatchOnce | internal/advertisement-operator/broadcaster.go:119-133 | N successful turns record N upserts, one watcher start and N pauses |
| Publish.RunCycle | internal/advertisement-operator/broadcaster.go:113-133 | one turn appends exactly its cycle's events and sets the latch iff its upsert succeeded |
| Publish.PublishLoop | internal/advertisement-operator/broadcaster.go:112-134 | the trace and phase of the script; the watcher starts at most once, iff some upsert succeeded, right after the first; one pause per upsert |
| Broadcaster.PeerIdOf | internal/advertisement-operator/broadcaster.go:91-94 | empty without a config map; fails iff the name is shorter than 19; otherwise the name past its first 19 characters |
| Broadcaster.GenerateAdvertisement | internal/advertisement-operator/broadcaster.go:81-135 | ends on a short name, else gives up iff all 3 attempts fail, else runs the publish loop after as many pauses as failed attempts |
| Broadcaster.SpawnedTasksHavePeerIds | internal/advertisement-operator/broadcaster.go:64-94 | a started task fails the cut iff its config map is named exactly foreign-kubeconfig |

## Left out

- `main.go`, the function `A` and `GetGateway`/`GetGatewayPrivateIP` are not part of this model. `A` is unfinished and uses the request totals only through the cluster API.
- Client construction (`NewK8sClient`, `NewCRDClient`), the listings, `CreateOrUpdate` and `WatchAdvertisement` are external calls. Their outcomes are inputs, and the upsert's create-or-update behaviour on the peer is not modelled.
- Goroutines, the `WaitGroup` and `sync.Once` are not modelled as concurrency: each peer task is modelled on its own, and apart from a panic (see below) the tasks do not affect one another. `go once.Do(...)` starts one goroutine per successful upsert, but the body runs only once; the model records that single start.
- `time.Sleep` is recorded as a pause event with its duration. Real time does not pass.
- Logging is left out.
- Kubernetes `Quantity` is an unbounded integer. Its formatting, scale and `DeepCopy` are left out.
- `metav1.Time` is kept at nanosecond precision. Its truncation to seconds on serialisation is left out.
- `PodRequestsAndLimits` is abstracted into each pod's own request and limit lists.
- Publish.PublishLoop: the endless loop runs over a finite script of cycles. A script that runs out while the loop is still running stops the model there.
- Broadcaster.GenerateAdvertisement: the outcome `NameTooShort` is an unrecovered panic of the peer task's goroutine, which in the program ends the whole process, `StartBroadcaster` and every other peer task included; the model records only its effect on this one task.
- Publish.PublishLoop: the phase `Panicked` (an empty node listing read by `GetPodCIDR`) is likewise an unrecovered panic that ends the whole process; the model records only that this peer task stops.
- Peers.ForeignClusterId: names are sequences of characters, while Go slices strings by byte; config-map names are ASCII under Kubernetes object-name validation, and on ASCII names the 19-byte cut and the 19-character cut agree, so the model does not represent non-ASCII names.
