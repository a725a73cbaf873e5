/**
 * The price table of an advertisement: a fixed price for cpu and memory and
 * a fixed price for every name of every image the cluster holds.
 */
module Pricing {
  import opened Model

  const CPUPrice: int := 1
  const MemoryPrice: int := TwoGi
  const ImagePrice: int := 5

  function NameSet(names: seq<string>): set<string>
  {
    set n | n in names
  }

  /** The set of names the images are known by. */
  function ImageNames(images: seq<ContainerImage>): set<string>
  {
    if |images| == 0 then {}
    else ImageNames(images[..|images| - 1]) + NameSet(images[|images| - 1].names)
  }

  /**
   * The table the broadcaster publishes for a set of image names: every image
   * name costs `ImagePrice`; cpu and memory keep their own price unless an
   * image bears that very name, in which case the image price overwrites it.
   */
  function PriceTable(names: set<string>): (r: ResourceList)
    ensures r.Keys == {ResourceCPU, ResourceMemory} + names
  {
    map k | k in {ResourceCPU, ResourceMemory} + names ::
      if k in names then ImagePrice else if k == ResourceCPU then CPUPrice else MemoryPrice
  }

  /**
   * `ComputePrices`: cpu and memory are priced first, then every name of
   * every image, in order, is set to the image price.
   */
  method ComputePrices(images: seq<ContainerImage>) returns (prices: ResourceList)
    ensures prices == PriceTable(ImageNames(images))
  {
    prices := map[];
    prices := prices[ResourceCPU := CPUPrice];
    prices := prices[ResourceMemory := MemoryPrice];
    BasePrices();
    var i := 0;
    while i < |images|
      invariant 0 <= i <= |images|
      invariant prices == PriceTable(ImageNames(images[..i]))
    {
      var names := images[i].names;
      ghost var seen := ImageNames(images[..i]);
      var j := 0;
      while j < |names|
        invariant 0 <= j <= |names|
        invariant prices == PriceTable(seen + NameSet(names[..j]))
      {
        PriceNextName(seen, names, j);
        prices := prices[names[j] := ImagePrice];
        j := j + 1;
      }
      ImageNamesNext(images, i);
      i := i + 1;
    }
    assert images[..i] == images;
  }

  /** The inner loop's step: pricing the `j`-th name of an image. */
  lemma PriceNextName(seen: set<string>, names: seq<string>, j: nat)
    requires j < |names|
    ensures PriceTable(seen + NameSet(names[..j]))[names[j] := ImagePrice] == PriceTable(seen + NameSet(names[..j + 1]))
  {
    PriceTableAdd(seen + NameSet(names[..j]), names[j]);
    assert names[..j + 1] == names[..j] + [names[j]];
    assert NameSet(names[..j + 1]) == NameSet(names[..j]) + {names[j]};
  }

  /** The outer loop's step: all names of the `i`-th image have been priced. */
  lemma ImageNamesNext(images: seq<ContainerImage>, i: nat)
    requires i < |images|
    ensures ImageNames(images[..i + 1]) == ImageNames(images[..i]) + NameSet(images[i].names[..|images[i].names|])
  {
    assert images[..i + 1][..i] == images[..i];
    assert images[i].names[..|images[i].names|] == images[i].names;
  }

  /** Before any image is seen, only cpu and memory are priced. */
  lemma BasePrices()
    ensures map[ResourceCPU := CPUPrice, ResourceMemory := MemoryPrice] == PriceTable({})
  {
    var t := PriceTable({});
    assert t.Keys == {ResourceCPU, ResourceMemory};
  }

  /** Pricing one more name sets exactly that key to the image price. */
  lemma PriceTableAdd(names: set<string>, name: string)
    ensures PriceTable(names)[name := ImagePrice] == PriceTable(names + {name})
  {
    var lhs, rhs := PriceTable(names)[name := ImagePrice], PriceTable(names + {name});
    assert lhs.Keys == rhs.Keys;
    forall k | k in lhs ensures lhs[k] == rhs[k] {
      if k != name {
        assert (k in names) == (k in names + {name});
      }
    }
  }

  /** A name has an image price exactly when some image entry carries it. */
  lemma {:induction false} ImageNamesMembership(images: seq<ContainerImage>, name: string)
    ensures name in ImageNames(images) <==> exists i :: 0 <= i < |images| && name in images[i].names
  {
    if |images| > 0 {
      var init := images[..|images| - 1];
      ImageNamesMembership(init, name);
      if name in ImageNames(init) {
        var i :| 0 <= i < |init| && name in init[i].names;
        assert images[i] == init[i];
      }
      if exists i :: 0 <= i < |images| && name in images[i].names {
        var i :| 0 <= i < |images| && name in images[i].names;
        if i < |init| {
          assert init[i] == images[i];
        }
      }
    }
  }

  /**
   * Prices depend only on which image entries occur: reordering or repeating
   * entries of the image list leaves the price table unchanged.
   */
  lemma SameImagesSamePrices(a: seq<ContainerImage>, b: seq<ContainerImage>)
    requires forall image :: image in a <==> image in b
    ensures PriceTable(ImageNames(a)) == PriceTable(ImageNames(b))
  {
    forall name ensures name in ImageNames(a) <==> name in ImageNames(b) {
      ImageNamesMembership(a, name);
      ImageNamesMembership(b, name);
      if name in ImageNames(a) {
        var i :| 0 <= i < |a| && name in a[i].names;
        assert a[i] in b;
      }
      if name in ImageNames(b) {
        var i :| 0 <= i < |b| && name in b[i].names;
        assert b[i] in a;
      }
    }
    assert ImageNames(a) == ImageNames(b);
  }

  /**
   * What the published table says, in terms of the image list itself: the
   * keys are cpu, memory and every name of every image entry; every image name
   * costs the image price; cpu and memory keep their own price unless an image
   * entry carries that name.
   */
  lemma PricesOfImages(images: seq<ContainerImage>, k: string)
    ensures k in PriceTable(ImageNames(images)) <==>
              k == ResourceCPU || k == ResourceMemory || exists i :: 0 <= i < |images| && k in images[i].names
    ensures (exists i :: 0 <= i < |images| && k in images[i].names) ==> PriceTable(ImageNames(images))[k] == ImagePrice
    ensures (forall i :: 0 <= i < |images| ==> ResourceCPU !in images[i].names) ==>
              PriceTable(ImageNames(images))[ResourceCPU] == CPUPrice
    ensures (forall i :: 0 <= i < |images| ==> ResourceMemory !in images[i].names) ==>
              PriceTable(ImageNames(images))[ResourceMemory] == MemoryPrice
  {
    ImageNamesMembership(images, k);
    ImageNamesMembership(images, ResourceCPU);
    ImageNamesMembership(images, ResourceMemory);
  }
}
