/**
 * The advertisement builder: composes the availability snapshot, the image
 * list, the price table and the network data into one Advertisement record
 * stamped with the creation time and a 30-minute expiry.
 */
module Builder {
  import opened Model
  import opened Resources
  import opened Pricing
  import opened Network

  const AdvertisementNamespace: string := "default"

  /** The record's name: one advertisement per producing cluster. */
  function AdvertisementName(clusterId: string): (r: string)
    ensures |r| == |"advertisement-"| + |clusterId|
    ensures r[..|"advertisement-"|] == "advertisement-" && r[|"advertisement-"|..] == clusterId
  {
    "advertisement-" + clusterId
  }

  /**
   * The advertisement built from `nodes`. The source reads the clock twice:
   * `stampNow` is the first reading (the timestamp), `ttlNow` the second
   * (to which the 30-minute window is added).
   */
  function AdvertisementFor(nodes: seq<Node>, clusterId: string, gatewayIP: string, gatewayPrivateIP: string,
                            stampNow: int, ttlNow: int): Advertisement
    requires |nodes| > 0
  {
    var images := ClusterImages(nodes);
    Advertisement(
      ObjectMeta(AdvertisementName(clusterId), AdvertisementNamespace),
      AdvertisementSpec(
        clusterId,
        images,
        Availability(nodes),
        [],
        PriceTable(ImageNames(images)),
        NetworkInfo(GetPodCIDR(nodes), gatewayIP, gatewayPrivateIP, []),
        stampNow,
        ttlNow + AdvertisementTTL))
  }

  /**
   * `CreateAdvertisement`: aggregates the nodes, prices their images and
   * fills in the record. The pod block comes from the first node, which the
   * source reads without checking that there is one.
   */
  method CreateAdvertisement(nodes: seq<Node>, clusterId: string, gatewayIP: string, gatewayPrivateIP: string,
                             stampNow: int, ttlNow: int) returns (adv: Advertisement)
    requires |nodes| > 0
    ensures adv.meta == ObjectMeta("advertisement-" + clusterId, "default")
    ensures adv.spec.clusterId == clusterId
    ensures adv.spec.network.gatewayIP == gatewayIP && adv.spec.network.gatewayPrivateIP == gatewayPrivateIP
    ensures adv.spec.availability.Keys == {ResourceCPU, ResourceMemory, ResourcePods}
    ensures forall name :: name in adv.spec.availability ==> adv.spec.availability[name] == AllocatableSum(nodes, name)
    ensures adv.spec.images == ClusterImages(nodes)
    ensures adv.spec.prices == PriceTable(ImageNames(ClusterImages(nodes)))
    ensures adv.spec.network.podCIDR == GetPodCIDR(nodes)
    ensures adv.spec.limitRange == [] && adv.spec.network.supportedProtocols == []
    ensures adv.spec.timestamp == stampNow && adv.spec.timeToLive == ttlNow + 30 * Minute
    ensures adv == AdvertisementFor(nodes, clusterId, gatewayIP, gatewayPrivateIP, stampNow, ttlNow)
  {
    var availability, images := GetClusterResources(nodes);
    var prices := ComputePrices(images);
    adv := Advertisement(
      ObjectMeta(AdvertisementName(clusterId), AdvertisementNamespace),
      AdvertisementSpec(
        clusterId,
        images,
        availability,
        [],
        prices,
        NetworkInfo(GetPodCIDR(nodes), gatewayIP, gatewayPrivateIP, []),
        stampNow,
        ttlNow + AdvertisementTTL));
  }

  /**
   * With a single clock reading the record expires exactly 30 minutes after
   * its timestamp; with a clock that does not go backwards, no earlier.
   */
  lemma ExpiryWindow(nodes: seq<Node>, clusterId: string, gatewayIP: string, gatewayPrivateIP: string,
                     stampNow: int, ttlNow: int)
    requires |nodes| > 0
    ensures var adv := AdvertisementFor(nodes, clusterId, gatewayIP, gatewayPrivateIP, stampNow, ttlNow);
            (stampNow == ttlNow ==> adv.spec.timeToLive == adv.spec.timestamp + AdvertisementTTL) &&
            (stampNow <= ttlNow ==> adv.spec.timeToLive >= adv.spec.timestamp + AdvertisementTTL)
  {
  }

  /**
   * The record's identity (name and namespace) depends only on the cluster
   * id, so republishing from the same cluster addresses the same record,
   * and different clusters address different records.
   */
  lemma {:induction false} IdentityIsClusterId(nodes1: seq<Node>, nodes2: seq<Node>, clusterId1: string, clusterId2: string,
                                               gw1: string, gwp1: string, gw2: string, gwp2: string,
                                               s1: int, t1: int, s2: int, t2: int)
    requires |nodes1| > 0 && |nodes2| > 0
    ensures AdvertisementFor(nodes1, clusterId1, gw1, gwp1, s1, t1).meta == AdvertisementFor(nodes2, clusterId2, gw2, gwp2, s2, t2).meta
            <==> clusterId1 == clusterId2
  {
    var n1, n2 := AdvertisementName(clusterId1), AdvertisementName(clusterId2);
    if n1 == n2 {
      assert clusterId1 == n1[|"advertisement-"|..] == n2[|"advertisement-"|..] == clusterId2;
    }
  }

  /**
   * Every name of every image in the record has a price of 5, and cpu and
   * memory are always priced.
   */
  lemma EveryImagePriced(nodes: seq<Node>, clusterId: string, gatewayIP: string, gatewayPrivateIP: string,
                         stampNow: int, ttlNow: int, i: nat, name: string)
    requires |nodes| > 0
    requires var adv := AdvertisementFor(nodes, clusterId, gatewayIP, gatewayPrivateIP, stampNow, ttlNow);
             i < |adv.spec.images| && name in adv.spec.images[i].names
    ensures var adv := AdvertisementFor(nodes, clusterId, gatewayIP, gatewayPrivateIP, stampNow, ttlNow);
            name in adv.spec.prices && adv.spec.prices[name] == ImagePrice &&
            ResourceCPU in adv.spec.prices && ResourceMemory in adv.spec.prices
  {
    PricesOfImages(ClusterImages(nodes), name);
  }

  /**
   * The availability snapshot always has a pods entry, but the price table
   * has none unless some image happens to be named "pods": not every
   * resource kind of the snapshot is priced.
   */
  lemma PodsNotPriced(nodes: seq<Node>, clusterId: string, gatewayIP: string, gatewayPrivateIP: string,
                      stampNow: int, ttlNow: int)
    requires |nodes| > 0
    requires forall i :: 0 <= i < |ClusterImages(nodes)| ==> ResourcePods !in ClusterImages(nodes)[i].names
    ensures var adv := AdvertisementFor(nodes, clusterId, gatewayIP, gatewayPrivateIP, stampNow, ttlNow);
            ResourcePods in adv.spec.availability && ResourcePods !in adv.spec.prices
  {
    ImageNamesMembership(ClusterImages(nodes), ResourcePods);
  }
}
