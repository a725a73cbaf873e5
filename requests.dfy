/**
 * Request and limit totals over a list of pods: for every resource name that
 * any pod requests (or limits), the sum of the pods' quantities for it.
 */
module Requests {
  import opened Model

  /** Which of a pod's two resource lists is being summed. */
  datatype Kind = Requests | Limits

  function PodValues(pod: Pod, kind: Kind): ResourceList
  {
    match kind
    case Requests => pod.requests
    case Limits => pod.limits
  }

  /** Adds `values` into `acc` key by key: the union of the keys, each with the sum of both sides. */
  function Merge(acc: ResourceList, values: ResourceList): (r: ResourceList)
    ensures r.Keys == acc.Keys + values.Keys
  {
    map name | name in acc.Keys + values.Keys :: Get(acc, name) + Get(values, name)
  }

  /** The totals over `pods`, merged in one pod at a time. */
  function Totals(pods: seq<Pod>, kind: Kind): ResourceList
  {
    if |pods| == 0 then map[]
    else Merge(Totals(pods[..|pods| - 1], kind), PodValues(pods[|pods| - 1], kind))
  }

  /** The reference sum: the quantities of `name` over all pods, zero for a pod without it. */
  function SumOf(pods: seq<Pod>, kind: Kind, name: ResourceName): int
  {
    if |pods| == 0 then 0
    else SumOf(pods[..|pods| - 1], kind, name) + Get(PodValues(pods[|pods| - 1], kind), name)
  }

  /** Does some pod carry a quantity for `name`? */
  predicate Mentioned(pods: seq<Pod>, kind: Kind, name: ResourceName)
  {
    exists k :: 0 <= k < |pods| && name in PodValues(pods[k], kind)
  }

  /**
   * The inner loop of `getPodsTotalRequestsAndLimits` over one pod's map:
   * a new key is stored as is, a known key gets the pod's quantity added.
   */
  method AddPodValues(acc: ResourceList, values: ResourceList) returns (r: ResourceList)
    ensures r.Keys == acc.Keys + values.Keys
    ensures forall name :: name in r ==> r[name] == Get(acc, name) + Get(values, name)
    ensures r == Merge(acc, values)
  {
    r := acc;
    var todo := values.Keys;
    ghost var done: set<ResourceName> := {};
    while todo != {}
      invariant done + todo == values.Keys && done !! todo
      invariant r.Keys == acc.Keys + done
      invariant forall n :: n in r ==> r[n] == Get(acc, n) + (if n in done then values[n] else 0)
      decreases todo
    {
      var name :| name in todo;
      if name !in r {
        r := r[name := values[name]];
      } else {
        r := r[name := r[name] + values[name]];
      }
      todo := todo - {name};
      done := done + {name};
    }
    assert done == values.Keys;
    MergeIsPointwise(acc, values, r);
  }

  /**
   * `getPodsTotalRequestsAndLimits`: every pod's requests are added into
   * `reqs` and its limits into `limits`.
   */
  method GetPodsTotalRequestsAndLimits(pods: seq<Pod>) returns (reqs: ResourceList, limits: ResourceList)
    ensures reqs == Totals(pods, Requests) && limits == Totals(pods, Limits)
    ensures forall name :: name in reqs <==> Mentioned(pods, Requests, name)
    ensures forall name :: name in limits <==> Mentioned(pods, Limits, name)
    ensures forall name :: name in reqs ==> reqs[name] == SumOf(pods, Requests, name)
    ensures forall name :: name in limits ==> limits[name] == SumOf(pods, Limits, name)
  {
    reqs, limits := map[], map[];
    var i := 0;
    while i < |pods|
      invariant 0 <= i <= |pods|
      invariant reqs == Totals(pods[..i], Requests)
      invariant limits == Totals(pods[..i], Limits)
    {
      assert pods[..i + 1][..i] == pods[..i];
      reqs := AddPodValues(reqs, pods[i].requests);
      limits := AddPodValues(limits, pods[i].limits);
      i := i + 1;
    }
    assert pods[..i] == pods;
    forall name ensures name in reqs <==> Mentioned(pods, Requests, name) {
      TotalsKeys(pods, Requests, name);
    }
    forall name ensures name in limits <==> Mentioned(pods, Limits, name) {
      TotalsKeys(pods, Limits, name);
    }
    forall name | name in reqs ensures reqs[name] == SumOf(pods, Requests, name) {
      TotalsValues(pods, Requests, name);
    }
    forall name | name in limits ensures limits[name] == SumOf(pods, Limits, name) {
      TotalsValues(pods, Limits, name);
    }
  }

  /** The totals carry a key exactly when some pod has a quantity for it. */
  lemma {:induction false} TotalsKeys(pods: seq<Pod>, kind: Kind, name: ResourceName)
    ensures name in Totals(pods, kind) <==> Mentioned(pods, kind, name)
  {
    if |pods| > 0 {
      var init := pods[..|pods| - 1];
      TotalsKeys(init, kind, name);
      if Mentioned(init, kind, name) {
        var k :| 0 <= k < |init| && name in PodValues(init[k], kind);
        assert pods[k] == init[k];
      }
      if Mentioned(pods, kind, name) {
        var k :| 0 <= k < |pods| && name in PodValues(pods[k], kind);
        if k < |init| {
          assert init[k] == pods[k];
        }
      }
    }
  }

  /** Every total is the sum over all pods of that pod's quantity. */
  lemma {:induction false} TotalsValues(pods: seq<Pod>, kind: Kind, name: ResourceName)
    ensures Get(Totals(pods, kind), name) == SumOf(pods, kind, name)
  {
    if |pods| > 0 {
      TotalsValues(pods[..|pods| - 1], kind, name);
    }
  }

  /** An empty pod list gives empty totals. */
  lemma NoPodsNoTotals(kind: Kind)
    ensures Totals([], kind) == map[]
  {
  }

  /** Merging is commutative: the totals do not depend on which side a quantity comes from. */
  lemma MergeCommutes(a: ResourceList, b: ResourceList)
    ensures Merge(a, b) == Merge(b, a)
  {
  }

  /** Totals over two pod lists one after the other are the merge of the two totals. */
  lemma {:induction false} TotalsAppend(a: seq<Pod>, b: seq<Pod>, kind: Kind)
    ensures Totals(a + b, kind) == Merge(Totals(a, kind), Totals(b, kind))
    decreases |b|
  {
    if |b| == 0 {
      assert a + b == a;
      MergeEmpty(Totals(a, kind));
    } else {
      var b' := b[..|b| - 1];
      var last := PodValues(b[|b| - 1], kind);
      assert (a + b)[..|a + b| - 1] == a + b';
      assert (a + b)[|a + b| - 1] == b[|b| - 1];
      TotalsAppend(a, b', kind);
      MergeAssociates(Totals(a, kind), Totals(b', kind), last);
    }
  }

  /** A map with the merge's keys and the merge's sums is the merge. */
  lemma MergeIsPointwise(acc: ResourceList, values: ResourceList, r: ResourceList)
    requires r.Keys == acc.Keys + values.Keys
    requires forall n :: n in r ==> r[n] == Get(acc, n) + Get(values, n)
    ensures r == Merge(acc, values)
  {
  }

  lemma MergeEmpty(acc: ResourceList)
    ensures Merge(acc, map[]) == acc
  {
    var r := Merge(acc, map[]);
    assert r.Keys == acc.Keys;
    forall n | n in r ensures r[n] == acc[n] { }
  }

  lemma MergeAssociates(a: ResourceList, b: ResourceList, c: ResourceList)
    ensures Merge(Merge(a, b), c) == Merge(a, Merge(b, c))
  {
    var lhs, rhs := Merge(Merge(a, b), c), Merge(a, Merge(b, c));
    assert lhs.Keys == rhs.Keys;
    forall n | n in lhs ensures lhs[n] == rhs[n] {
      assert Get(Merge(a, b), n) == Get(a, n) + Get(b, n);
      assert Get(Merge(b, c), n) == Get(b, n) + Get(c, n);
    }
  }
}
