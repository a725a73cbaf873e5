/**
 * One advertisement task per peer: read the peer cluster id from the config
 * map's name, connect to the peer with up to three attempts, then run the
 * publish loop against it.
 */
module Broadcaster {
  import opened Model
  import opened Wrappers
  import opened Peers
  import opened Connect
  import opened Publish

  /** How a task ends. */
  datatype TaskOutcome =
    | NameTooShort                 // the cut panics; unrecovered, it ends the whole process
    | ConnectFailed(peerId: string, connectSleeps: nat)
    | Connected(peerId: string, connectSleeps: nat, events: seq<Event>, phase: Phase)

  /**
   * The peer cluster id the peer task logs: empty without a config map, otherwise
   * the name past "foreign-kubeconfig-"; `None` when that cut does not fit
   * in the name.
   */
  function PeerIdOf(cm: Option<ConfigMap>): (r: Option<string>)
    ensures cm.None? ==> r == Some("")
    ensures cm.Some? ==> (r.None? <==> |cm.value.name| < |PeerIdPrefix|)
    ensures cm.Some? && r.Some? ==> cm.value.name == cm.value.name[..|PeerIdPrefix|] + r.value
  {
    if cm.None? then Some("")
    else if |cm.value.name| < |PeerIdPrefix| then None
    else Some(ForeignClusterId(cm.value.name))
  }

  /**
   * `GenerateAdvertisement`. The connection attempts' outcomes are given by
   * `succeeds`, and each turn of the publish loop by one entry of `cycles`.
   */
  method GenerateAdvertisement(cm: Option<ConfigMap>, origin: Origin, succeeds: nat -> bool, cycles: seq<Cycle>)
    returns (r: TaskOutcome)
    ensures PeerIdOf(cm).None? <==> r == NameTooShort
    ensures r.ConnectFailed? <==> PeerIdOf(cm).Some? && forall k :: 0 <= k < MaxConnectAttempts ==> !succeeds(k)
    ensures !r.NameTooShort? ==> Some(r.peerId) == PeerIdOf(cm)
    ensures !r.NameTooShort? ==> r.connectSleeps == FailedAttempts(succeeds, 0, MaxConnectAttempts)
    ensures r.ConnectFailed? ==> r.connectSleeps == MaxConnectAttempts
    ensures r.Connected? ==> r.connectSleeps < MaxConnectAttempts && succeeds(r.connectSleeps)
    ensures r.Connected? ==> r.events == Run(cycles, origin).events && r.phase == Run(cycles, origin).phase
    ensures r.Connected? ==> Count(r.events, KWatcherStarted) <= 1
  {
    var peerId := "";
    if cm.Some? {
      if |cm.value.name| < |PeerIdPrefix| {
        return NameTooShort;
      }
      peerId := ForeignClusterId(cm.value.name);
    }
    var retry, attempts, sleeps, waited := ConnectWithRetry(succeeds);
    if retry == MaxConnectAttempts {
      return ConnectFailed(peerId, sleeps);
    }
    var events, phase := PublishLoop(origin, cycles);
    r := Connected(peerId, sleeps, events, phase);
  }

  /**
   * Every task `StartBroadcaster` starts finds its peer id, except for a
   * config map named exactly "foreign-kubeconfig".
   */
  lemma SpawnedTasksHavePeerIds(configMaps: seq<ConfigMap>, cm: ConfigMap)
    requires cm in PeerConfigMaps(configMaps)
    ensures PeerIdOf(Some(cm)).None? <==> cm.name == KubeconfigPrefix
  {
    PeerConfigMapsSelects(configMaps, cm);
    ShortPeerName(cm.name);
  }
}
