/**
 * Resource aggregation: the cluster's allocatable CPU, memory and pod slots
 * summed over the local nodes, and the nodes' image lists concatenated.
 */
module Resources {
  import opened Model

  /** The sum over `nodes` of the allocatable quantity stored under `name`. */
  function AllocatableSum(nodes: seq<Node>, name: ResourceName): int
  {
    if |nodes| == 0 then 0
    else AllocatableSum(nodes[..|nodes| - 1], name) + Get(nodes[|nodes| - 1].allocatable, name)
  }

  /** Every node's image list, in node order, one after the other. */
  function ClusterImages(nodes: seq<Node>): seq<ContainerImage>
  {
    if |nodes| == 0 then [] else ClusterImages(nodes[..|nodes| - 1]) + nodes[|nodes| - 1].images
  }

  /** The availability snapshot: exactly the keys cpu, memory and pods. */
  function Availability(nodes: seq<Node>): (r: ResourceList)
    ensures r.Keys == {ResourceCPU, ResourceMemory, ResourcePods}
    ensures |nodes| == 0 ==> r[ResourceCPU] == 0 && r[ResourceMemory] == 0 && r[ResourcePods] == 0
  {
    map[ResourceCPU := AllocatableSum(nodes, ResourceCPU),
        ResourceMemory := AllocatableSum(nodes, ResourceMemory),
        ResourcePods := AllocatableSum(nodes, ResourcePods)]
  }

  /** The number of image entries the nodes report, node by node. */
  function ImageCount(nodes: seq<Node>): nat
  {
    if |nodes| == 0 then 0 else ImageCount(nodes[..|nodes| - 1]) + |nodes[|nodes| - 1].images|
  }

  /**
   * `GetClusterResources`: one pass over the nodes, adding each node's
   * allocatable cpu, memory and pods and appending each of its images.
   */
  method GetClusterResources(nodes: seq<Node>) returns (availability: ResourceList, images: seq<ContainerImage>)
    ensures availability.Keys == {ResourceCPU, ResourceMemory, ResourcePods}
    ensures availability[ResourceCPU] == AllocatableSum(nodes, ResourceCPU)
    ensures availability[ResourceMemory] == AllocatableSum(nodes, ResourceMemory)
    ensures availability[ResourcePods] == AllocatableSum(nodes, ResourcePods)
    ensures availability == Availability(nodes)
    ensures images == ClusterImages(nodes)
    ensures |images| == ImageCount(nodes)
  {
    var cpu, ram, pods := 0, 0, 0;
    images := [];
    var i := 0;
    while i < |nodes|
      invariant 0 <= i <= |nodes|
      invariant cpu == AllocatableSum(nodes[..i], ResourceCPU)
      invariant ram == AllocatableSum(nodes[..i], ResourceMemory)
      invariant pods == AllocatableSum(nodes[..i], ResourcePods)
      invariant images == ClusterImages(nodes[..i])
    {
      var node := nodes[i];
      assert nodes[..i + 1][..i] == nodes[..i];
      cpu := cpu + Get(node.allocatable, ResourceCPU);
      ram := ram + Get(node.allocatable, ResourceMemory);
      pods := pods + Get(node.allocatable, ResourcePods);
      var j := 0;
      while j < |node.images|
        invariant 0 <= j <= |node.images|
        invariant images == ClusterImages(nodes[..i]) + node.images[..j]
      {
        images := images + [node.images[j]];
        assert node.images[..j + 1] == node.images[..j] + [node.images[j]];
        j := j + 1;
      }
      assert node.images[..j] == node.images;
      i := i + 1;
    }
    assert nodes[..i] == nodes;
    availability := map[];
    availability := availability[ResourceCPU := cpu];
    availability := availability[ResourceMemory := ram];
    availability := availability[ResourcePods := pods];
    ImageCountIsLength(nodes);
  }

  /** The image list is as long as all the nodes' image lists together; duplicates are kept. */
  lemma {:induction false} ImageCountIsLength(nodes: seq<Node>)
    ensures |ClusterImages(nodes)| == ImageCount(nodes)
  {
    if |nodes| > 0 {
      ImageCountIsLength(nodes[..|nodes| - 1]);
    }
  }

  /** Aggregating two node lists one after the other concatenates their image lists. */
  lemma {:induction false} ClusterImagesAppend(a: seq<Node>, b: seq<Node>)
    ensures ClusterImages(a + b) == ClusterImages(a) + ClusterImages(b)
    decreases |b|
  {
    if |b| > 0 {
      var b' := b[..|b| - 1];
      assert (a + b)[..|a + b| - 1] == a + b';
      ClusterImagesAppend(a, b');
    } else {
      assert a + b == a;
    }
  }

  /** Sums over two node lists one after the other add up. */
  lemma {:induction false} AllocatableSumAppend(a: seq<Node>, b: seq<Node>, name: ResourceName)
    ensures AllocatableSum(a + b, name) == AllocatableSum(a, name) + AllocatableSum(b, name)
    decreases |b|
  {
    if |b| > 0 {
      var b' := b[..|b| - 1];
      assert (a + b)[..|a + b| - 1] == a + b';
      AllocatableSumAppend(a, b', name);
    } else {
      assert a + b == a;
    }
  }

  /** An image entry is in the aggregated list exactly when some node reports it. */
  lemma {:induction false} ClusterImagesMembership(nodes: seq<Node>, image: ContainerImage)
    ensures image in ClusterImages(nodes) <==> exists k :: 0 <= k < |nodes| && image in nodes[k].images
  {
    if |nodes| > 0 {
      var init := nodes[..|nodes| - 1];
      ClusterImagesMembership(init, image);
      if image in ClusterImages(init) {
        var k :| 0 <= k < |init| && image in init[k].images;
        assert nodes[k] == init[k];
      }
      if exists k :: 0 <= k < |nodes| && image in nodes[k].images {
        var k :| 0 <= k < |nodes| && image in nodes[k].images;
        if k < |init| {
          assert init[k] == nodes[k];
        }
      }
    }
  }

  /** When no node reports a negative allocatable quantity, the totals are not negative. */
  lemma {:induction false} AllocatableSumNonNegative(nodes: seq<Node>, name: ResourceName)
    requires forall k :: 0 <= k < |nodes| ==> Get(nodes[k].allocatable, name) >= 0
    ensures AllocatableSum(nodes, name) >= 0
  {
    if |nodes| > 0 {
      var init := nodes[..|nodes| - 1];
      assert forall k :: 0 <= k < |init| ==> init[k] == nodes[k];
      AllocatableSumNonNegative(init, name);
    }
  }

  /** Each total is at least every single node's contribution, when none is negative. */
  lemma {:induction false} AllocatableSumBoundsNode(nodes: seq<Node>, name: ResourceName, k: nat)
    requires k < |nodes|
    requires forall j :: 0 <= j < |nodes| ==> Get(nodes[j].allocatable, name) >= 0
    ensures AllocatableSum(nodes, name) >= Get(nodes[k].allocatable, name)
  {
    var init := nodes[..|nodes| - 1];
    assert forall j :: 0 <= j < |init| ==> init[j] == nodes[j];
    if k < |init| {
      AllocatableSumBoundsNode(init, name, k);
    } else {
      AllocatableSumNonNegative(init, name);
    }
  }
}
