/**
 * Peer discovery: the config maps whose name carries the kubeconfig prefix
 * each start one advertisement task, and the peer cluster id is read from
 * the rest of the name.
 */
module Peers {
  import opened Model
  import opened Wrappers

  /** The prefix a config map's name must start with to describe a peer. */
  const KubeconfigPrefix: string := "foreign-kubeconfig"
  /** The part of the name that is cut off to obtain the peer cluster id. */
  const PeerIdPrefix: string := "foreign-kubeconfig-"

  /** `strings.HasPrefix`. */
  predicate HasPrefix(s: string, prefix: string)
  {
    |prefix| <= |s| && s[..|prefix|] == prefix
  }

  /** The config maps that start a task, in list order. */
  function PeerConfigMaps(configMaps: seq<ConfigMap>): seq<ConfigMap>
  {
    if |configMaps| == 0 then []
    else
      var last := configMaps[|configMaps| - 1];
      PeerConfigMaps(configMaps[..|configMaps| - 1]) + if HasPrefix(last.name, KubeconfigPrefix) then [last] else []
  }

  /**
   * The peer cluster id: the name with its first `len("foreign-kubeconfig-")`
   * characters cut off. The slice fails on a shorter name.
   */
  function ForeignClusterId(name: string): (id: string)
    requires |name| >= |PeerIdPrefix|
    ensures |id| == |name| - |PeerIdPrefix|
    ensures forall k :: 0 <= k < |id| ==> id[k] == name[|PeerIdPrefix| + k]
  {
    name[|PeerIdPrefix|..]
  }

  /** How `StartBroadcaster` ends: an early failure, or the peer tasks it started. */
  datatype StartResult =
    | LocalClientFailed
    | LocalCRDClientFailed
    | ConfigMapListFailed
    | Spawned(peers: seq<ConfigMap>)

  /**
   * `StartBroadcaster`: builds the two local clients, lists the config maps
   * of the `default` namespace and starts one task per config map whose name
   * has the kubeconfig prefix. Each outcome of a client construction or of the
   * listing is an input; `None` stands for a failed listing.
   */
  method StartBroadcaster(localClientOk: bool, localCRDClientOk: bool, configMaps: Option<seq<ConfigMap>>)
    returns (r: StartResult)
    ensures !localClientOk ==> r == LocalClientFailed
    ensures localClientOk && !localCRDClientOk ==> r == LocalCRDClientFailed
    ensures localClientOk && localCRDClientOk && configMaps.None? ==> r == ConfigMapListFailed
    ensures localClientOk && localCRDClientOk && configMaps.Some? ==>
              r == Spawned(PeerConfigMaps(configMaps.value))
    ensures r.Spawned? ==> forall k :: 0 <= k < |r.peers| ==> HasPrefix(r.peers[k].name, KubeconfigPrefix)
  {
    if !localClientOk {
      return LocalClientFailed;
    }
    if !localCRDClientOk {
      return LocalCRDClientFailed;
    }
    if configMaps.None? {
      return ConfigMapListFailed;
    }
    var items := configMaps.value;
    var spawned: seq<ConfigMap> := [];
    var i := 0;
    while i < |items|
      invariant 0 <= i <= |items|
      invariant spawned == PeerConfigMaps(items[..i])
    {
      assert items[..i + 1][..i] == items[..i];
      if HasPrefix(items[i].name, KubeconfigPrefix) {
        spawned := spawned + [items[i]];
      }
      i := i + 1;
    }
    assert items[..i] == items;
    r := Spawned(spawned);
    forall k | 0 <= k < |spawned| ensures HasPrefix(spawned[k].name, KubeconfigPrefix) {
      PeerConfigMapsSelects(items, spawned[k]);
    }
  }

  /** A config map starts a task exactly when it is listed and its name has the prefix. */
  lemma {:induction false} PeerConfigMapsSelects(configMaps: seq<ConfigMap>, cm: ConfigMap)
    ensures cm in PeerConfigMaps(configMaps) <==> cm in configMaps && HasPrefix(cm.name, KubeconfigPrefix)
  {
    if |configMaps| > 0 {
      var init := configMaps[..|configMaps| - 1];
      PeerConfigMapsSelects(init, cm);
      assert configMaps == init + [configMaps[|configMaps| - 1]];
    }
  }

  /** No more tasks than config maps, one per selected config map. */
  lemma {:induction false} PeerConfigMapsLength(configMaps: seq<ConfigMap>)
    ensures |PeerConfigMaps(configMaps)| <= |configMaps|
  {
    if |configMaps| > 0 {
      PeerConfigMapsLength(configMaps[..|configMaps| - 1]);
    }
  }

  /** For a name that starts with "foreign-kubeconfig-", prefix and id give the name back. */
  lemma PeerIdRoundTrip(name: string)
    requires HasPrefix(name, PeerIdPrefix)
    ensures PeerIdPrefix + ForeignClusterId(name) == name
  {
    assert name == name[..|PeerIdPrefix|] + name[|PeerIdPrefix|..];
  }

  /** Distinct peer config maps named with the full prefix have distinct peer ids. */
  lemma PeerIdInjective(name1: string, name2: string)
    requires HasPrefix(name1, PeerIdPrefix) && HasPrefix(name2, PeerIdPrefix)
    requires ForeignClusterId(name1) == ForeignClusterId(name2)
    ensures name1 == name2
  {
    PeerIdRoundTrip(name1);
    PeerIdRoundTrip(name2);
  }

  /**
   * The filter accepts any name starting with "foreign-kubeconfig"; the
   * cut, however, always drops one more character, whatever it is.
   */
  lemma PeerIdDropsSeparator(name: string)
    requires HasPrefix(name, KubeconfigPrefix) && |name| >= |PeerIdPrefix|
    ensures name == KubeconfigPrefix + [name[|KubeconfigPrefix|]] + ForeignClusterId(name)
  {
    assert name == name[..|KubeconfigPrefix|] + [name[|KubeconfigPrefix|]] + name[|PeerIdPrefix|..];
  }

  /**
   * Among the names the filter accepts, exactly one is too short for the
   * cut: "foreign-kubeconfig" itself.
   */
  lemma ShortPeerName(name: string)
    requires HasPrefix(name, KubeconfigPrefix)
    ensures |name| < |PeerIdPrefix| <==> name == KubeconfigPrefix
  {
    if |name| < |PeerIdPrefix| {
      assert name == name[..|KubeconfigPrefix|];
    }
  }
}
