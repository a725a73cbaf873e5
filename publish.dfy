/**
 * The publish loop of a peer task: every cycle lists the local nodes, builds
 * the advertisement, upserts it on the peer and pauses for ten minutes; the
 * first successful upsert also starts the lifecycle watcher, through a
 * once-latch.
 *
 * The source loop never ends by itself. It is modelled over a finite script
 * of cycles: what the node listing returned, the two clock readings, and
 * whether the upsert succeeded. What the peer task did is recorded as a trace of
 * events.
 */
module Publish {
  import opened Model
  import opened Builder

  /** The answer of the node listing: an error, or the nodes. */
  datatype NodeListing = ListError | Listed(items: seq<Node>)

  /** One turn of the loop, as the environment answers it. */
  datatype Cycle = Cycle(nodes: NodeListing, stampNow: int, ttlNow: int, publishOk: bool)

  /** What the producing cluster puts in every advertisement. */
  datatype Origin = Origin(clusterId: string, gatewayIP: string, gatewayPrivateIP: string)

  datatype Event =
    | NodeListFailed
    | Crashed                      // the pod block is read from the first node of an empty list
    | Published(adv: Advertisement)
    | PublishFailed(adv: Advertisement)
    | WatcherStarted
    | Slept(duration: int)

  /**
   * Whether the loop is still running, returned, or stopped on a runtime
   * panic. Nothing recovers that panic, so in the program it ends the whole
   * process, every other peer task included; here only this task's end is recorded.
   */
  datatype Phase = Looping | Returned | Panicked

  datatype LoopState = LoopState(once: bool, events: seq<Event>, phase: Phase)

  const Start: LoopState := LoopState(false, [], Looping)

  /** Whether a cycle lists some nodes and its upsert succeeds. */
  predicate Succeeds(c: Cycle)
  {
    c.nodes.Listed? && |c.nodes.items| > 0 && c.publishOk
  }

  /** Whether a cycle lists some nodes and its upsert fails. */
  predicate Fails(c: Cycle)
  {
    c.nodes.Listed? && |c.nodes.items| > 0 && !c.publishOk
  }

  /**
   * What one turn of a running loop does: a failed listing returns; an empty
   * listing panics when the pod block is read; otherwise the advertisement
   * is upserted, the watcher is started if the upsert succeeded and the
   * latch was still open, and the loop pauses.
   */
  function CycleEvents(once: bool, c: Cycle, origin: Origin): seq<Event>
  {
    match c.nodes
    case ListError => [NodeListFailed]
    case Listed(items) =>
      if |items| == 0 then [Crashed]
      else
        var adv := AdvertisementFor(items, origin.clusterId, origin.gatewayIP, origin.gatewayPrivateIP,
                                    c.stampNow, c.ttlNow);
        if !c.publishOk then [PublishFailed(adv), Slept(PublishInterval)]
        else if once then [Published(adv), Slept(PublishInterval)]
        else [Published(adv), WatcherStarted, Slept(PublishInterval)]
  }

  function CyclePhase(c: Cycle): Phase
  {
    match c.nodes
    case ListError => Returned
    case Listed(items) => if |items| == 0 then Panicked else Looping
  }

  /** One turn of the loop; a loop that has stopped does not move. */
  function Step(s: LoopState, c: Cycle, origin: Origin): LoopState
  {
    if s.phase != Looping then s
    else LoopState(s.once || Succeeds(c), s.events + CycleEvents(s.once, c, origin), CyclePhase(c))
  }

  /** The state after running the script `cycles` from the start. */
  function Run(cycles: seq<Cycle>, origin: Origin): LoopState
  {
    if |cycles| == 0 then Start
    else Step(Run(cycles[..|cycles| - 1], origin), cycles[|cycles| - 1], origin)
  }

  /** The kinds of events, for counting. */
  datatype EventKind = KListFailed | KCrashed | KPublished | KPublishFailed | KWatcherStarted | KSlept

  function KindOf(e: Event): EventKind
  {
    match e
    case NodeListFailed => KListFailed
    case Crashed => KCrashed
    case Published(_) => KPublished
    case PublishFailed(_) => KPublishFailed
    case WatcherStarted => KWatcherStarted
    case Slept(_) => KSlept
  }

  /** How many events of kind `k` the trace holds. */
  function Count(events: seq<Event>, k: EventKind): nat
  {
    if |events| == 0 then 0
    else Count(events[..|events| - 1], k) + if KindOf(events[|events| - 1]) == k then 1 else 0
  }

  /** Counts over two traces one after the other add up. */
  lemma {:induction false} CountAppend(a: seq<Event>, b: seq<Event>, k: EventKind)
    ensures Count(a + b, k) == Count(a, k) + Count(b, k)
    decreases |b|
  {
    if |b| == 0 {
      assert a + b == a;
    } else {
      var b' := b[..|b| - 1];
      assert (a + b)[..|a + b| - 1] == a + b';
      CountAppend(a, b', k);
    }
  }

  /** A trace with no event of kind `k` has none at any position. */
  lemma {:induction false} CountZero(events: seq<Event>, k: EventKind)
    requires Count(events, k) == 0
    ensures forall j :: 0 <= j < |events| ==> KindOf(events[j]) != k
  {
    if |events| > 0 {
      var init := events[..|events| - 1];
      CountZero(init, k);
      assert forall j :: 0 <= j < |init| ==> init[j] == events[j];
    }
  }

  /** The watcher starts right after a successful upsert, and no upsert succeeded before that one. */
  ghost predicate StartsAfterFirstPublish(events: seq<Event>)
  {
    forall i :: 0 <= i < |events| && events[i] == WatcherStarted ==>
      i > 0 && events[i - 1].Published? && forall j :: 0 <= j < i - 1 ==> !events[j].Published?
  }

  /**
   * The once-latch invariant: the watcher has started once if the latch is
   * set and never otherwise; the latch is set exactly when some upsert
   * succeeded; the watcher starts right after the first successful upsert;
   * and every upsert, successful or not, is followed by one pause.
   */
  ghost predicate LatchInvariant(s: LoopState)
  {
    && Count(s.events, KWatcherStarted) == (if s.once then 1 else 0)
    && (s.once <==> Count(s.events, KPublished) > 0)
    && StartsAfterFirstPublish(s.events)
    && Count(s.events, KSlept) == Count(s.events, KPublished) + Count(s.events, KPublishFailed)
  }

  lemma CountSingle(e: Event, k: EventKind)
    ensures Count([e], k) == if KindOf(e) == k then 1 else 0
  {
    assert [e][..0] == [];
  }

  /** The counts of a cycle's events, one kind at a time. */
  lemma CountTail(t: seq<Event>, k: EventKind)
    requires 1 <= |t| <= 3
    ensures Count(t, k) == (if KindOf(t[0]) == k then 1 else 0)
                         + (if |t| > 1 && KindOf(t[1]) == k then 1 else 0)
                         + (if |t| > 2 && KindOf(t[2]) == k then 1 else 0)
  {
    CountSingle(t[0], k);
    if |t| > 1 {
      CountSingle(t[1], k);
      CountAppend([t[0]], [t[1]], k);
      assert t[..2] == [t[0]] + [t[1]];
      if |t| > 2 {
        CountSingle(t[2], k);
        CountAppend(t[..2], [t[2]], k);
        assert t == t[..2] + [t[2]];
      } else {
        assert t == t[..2];
      }
    } else {
      assert t == [t[0]];
    }
  }

  /** The events of one turn, counted kind by kind. */
  lemma CycleEventCounts(once: bool, c: Cycle, origin: Origin)
    ensures var t := CycleEvents(once, c, origin);
      && Count(t, KPublished) == (if Succeeds(c) then 1 else 0)
      && Count(t, KPublishFailed) == (if Fails(c) then 1 else 0)
      && Count(t, KWatcherStarted) == (if Succeeds(c) && !once then 1 else 0)
      && Count(t, KSlept) == (if Succeeds(c) || Fails(c) then 1 else 0)
      && (forall i :: 0 <= i < |t| && t[i] == WatcherStarted ==> !once && i == 1 && t[0].Published?)
  {
    var t := CycleEvents(once, c, origin);
    CountTail(t, KPublished);
    CountTail(t, KPublishFailed);
    CountTail(t, KWatcherStarted);
    CountTail(t, KSlept);
  }

  /** Appending what a turn appends keeps the invariant. */
  lemma AppendKeepsLatch(s: LoopState, tail: seq<Event>, once': bool, phase: Phase)
    requires LatchInvariant(s)
    requires once' == (s.once || Count(tail, KPublished) > 0)
    requires Count(tail, KWatcherStarted) == (if once' && !s.once then 1 else 0)
    requires Count(tail, KSlept) == Count(tail, KPublished) + Count(tail, KPublishFailed)
    requires forall i :: 0 <= i < |tail| && tail[i] == WatcherStarted ==>
               !s.once && i > 0 && tail[i - 1].Published? && forall j :: 0 <= j < i - 1 ==> !tail[j].Published?
    ensures LatchInvariant(LoopState(once', s.events + tail, phase))
  {
    CountAppend(s.events, tail, KWatcherStarted);
    CountAppend(s.events, tail, KPublished);
    CountAppend(s.events, tail, KSlept);
    CountAppend(s.events, tail, KPublishFailed);
    if !s.once {
      CountZero(s.events, KPublished);
    }
    StartsAfterAppend(s.events, tail, s.once);
  }

  /** A watcher start in the appended part is preceded by no successful upsert of the earlier part. */
  lemma StartsAfterAppend(events: seq<Event>, tail: seq<Event>, once: bool)
    requires StartsAfterFirstPublish(events)
    requires !once ==> forall j :: 0 <= j < |events| ==> KindOf(events[j]) != KPublished
    requires forall i :: 0 <= i < |tail| && tail[i] == WatcherStarted ==>
               !once && i > 0 && tail[i - 1].Published? && forall j :: 0 <= j < i - 1 ==> !tail[j].Published?
    ensures StartsAfterFirstPublish(events + tail)
  {
    var e := events + tail;
    forall i | 0 <= i < |e| && e[i] == WatcherStarted
      ensures i > 0 && e[i - 1].Published? && forall j :: 0 <= j < i - 1 ==> !e[j].Published?
    {
      if i < |events| {
        assert events[i] == WatcherStarted;
      } else {
        assert tail[i - |events|] == WatcherStarted;
        forall j | 0 <= j < i - 1 ensures !e[j].Published? {
          if j < |events| {
            assert KindOf(events[j]) != KPublished;
          } else {
            assert e[j] == tail[j - |events|];
          }
        }
      }
    }
  }

  lemma StepKeepsLatchInvariant(s: LoopState, c: Cycle, origin: Origin)
    requires LatchInvariant(s)
    ensures LatchInvariant(Step(s, c, origin))
  {
    if s.phase == Looping {
      CycleEventCounts(s.once, c, origin);
      AppendKeepsLatch(s, CycleEvents(s.once, c, origin), s.once || Succeeds(c), CyclePhase(c));
    }
  }

  /** The once-latch invariant holds after any script of cycles. */
  lemma {:induction false} RunKeepsLatchInvariant(cycles: seq<Cycle>, origin: Origin)
    ensures LatchInvariant(Run(cycles, origin))
  {
    if |cycles| > 0 {
      RunKeepsLatchInvariant(cycles[..|cycles| - 1], origin);
      StepKeepsLatchInvariant(Run(cycles[..|cycles| - 1], origin), cycles[|cycles| - 1], origin);
    }
  }

  /** Once the loop has stopped, later cycles change nothing. */
  lemma {:induction false} StoppedStaysStopped(cycles: seq<Cycle>, origin: Origin, k: nat)
    requires k <= |cycles| && Run(cycles[..k], origin).phase != Looping
    ensures Run(cycles, origin) == Run(cycles[..k], origin)
  {
    if |cycles| == k {
      assert cycles[..k] == cycles;
    } else {
      var init := cycles[..|cycles| - 1];
      assert init[..k] == cycles[..k];
      StoppedStaysStopped(init, origin, k);
    }
  }

  /** A failed node listing ends the peer task: the loop returns and no later cycle has any effect. */
  lemma ListFailureEndsTask(cycles: seq<Cycle>, origin: Origin, k: nat)
    requires k < |cycles| && cycles[k].nodes == ListError
    ensures Run(cycles, origin).phase != Looping
    ensures Run(cycles, origin) == Run(cycles[..k + 1], origin)
  {
    assert cycles[..k + 1][..k] == cycles[..k];
    StoppedStaysStopped(cycles, origin, k + 1);
  }

  /** Across any script, the watcher is started at most once, and only right after the first successful upsert. */
  lemma WatcherStartsAtMostOnce(cycles: seq<Cycle>, origin: Origin)
    ensures Count(Run(cycles, origin).events, KWatcherStarted) <= 1
    ensures Count(Run(cycles, origin).events, KWatcherStarted) == 1 <==> Count(Run(cycles, origin).events, KPublished) > 0
    ensures StartsAfterFirstPublish(Run(cycles, origin).events)
  {
    RunKeepsLatchInvariant(cycles, origin);
  }

  /**
   * Over any script, the successful and failed upserts recorded are those of
   * the cycles run, counted by the reference predicates on the script.
   */
  lemma {:induction false} RunCounts(cycles: seq<Cycle>, origin: Origin)
    requires Run(cycles, origin).phase == Looping
    ensures Count(Run(cycles, origin).events, KPublished) == CountCycles(cycles, true)
    ensures Count(Run(cycles, origin).events, KPublishFailed) == CountCycles(cycles, false)
  {
    if |cycles| > 0 {
      var init := cycles[..|cycles| - 1];
      var c := cycles[|cycles| - 1];
      var s := Run(init, origin);
      assert s.phase == Looping;
      RunCounts(init, origin);
      CycleEventCounts(s.once, c, origin);
      CountAppend(s.events, CycleEvents(s.once, c, origin), KPublished);
      CountAppend(s.events, CycleEvents(s.once, c, origin), KPublishFailed);
    }
  }

  /** How many cycles of the script succeed (`ok`) or fail (`!ok`) their upsert. */
  function CountCycles(cycles: seq<Cycle>, ok: bool): nat
  {
    if |cycles| == 0 then 0
    else CountCycles(cycles[..|cycles| - 1], ok)
         + if (ok && Succeeds(cycles[|cycles| - 1])) || (!ok && Fails(cycles[|cycles| - 1])) then 1 else 0
  }

  /** A script whose every cycle lists nodes keeps the loop running. */
  lemma {:induction false} ListedCyclesKeepLooping(cycles: seq<Cycle>, origin: Origin)
    requires forall k :: 0 <= k < |cycles| ==> cycles[k].nodes.Listed? && |cycles[k].nodes.items| > 0
    ensures Run(cycles, origin).phase == Looping
  {
    if |cycles| > 0 {
      var init := cycles[..|cycles| - 1];
      assert forall k :: 0 <= k < |init| ==> init[k] == cycles[k];
      ListedCyclesKeepLooping(init, origin);
    }
  }

  /** Failed upserts never start the watcher, whatever else happens in the script. */
  lemma {:induction false} FailedPublishesNeverWatch(cycles: seq<Cycle>, origin: Origin)
    requires forall k :: 0 <= k < |cycles| ==> !cycles[k].publishOk
    ensures Count(Run(cycles, origin).events, KWatcherStarted) == 0
  {
    RunKeepsLatchInvariant(cycles, origin);
    if |cycles| > 0 {
      var init := cycles[..|cycles| - 1];
      var c := cycles[|cycles| - 1];
      assert forall k :: 0 <= k < |init| ==> init[k] == cycles[k];
      FailedPublishesNeverWatch(init, origin);
      var s := Run(init, origin);
      RunKeepsLatchInvariant(init, origin);
      if s.phase == Looping {
        CycleEventCounts(s.once, c, origin);
        CountAppend(s.events, CycleEvents(s.once, c, origin), KWatcherStarted);
      }
    }
  }

  /** N successful upserts in a row, N at least one, start the watcher exactly once and pause N times. */
  lemma SuccessfulCyclesWatchOnce(cycles: seq<Cycle>, origin: Origin)
    requires |cycles| > 0
    requires forall k :: 0 <= k < |cycles| ==> Succeeds(cycles[k])
    ensures Run(cycles, origin).phase == Looping
    ensures Count(Run(cycles, origin).events, KPublished) == |cycles|
    ensures Count(Run(cycles, origin).events, KWatcherStarted) == 1
    ensures Count(Run(cycles, origin).events, KSlept) == |cycles|
  {
    ListedCyclesKeepLooping(cycles, origin);
    RunCounts(cycles, origin);
    AllSucceed(cycles);
    RunKeepsLatchInvariant(cycles, origin);
  }

  lemma {:induction false} AllSucceed(cycles: seq<Cycle>)
    requires forall k :: 0 <= k < |cycles| ==> Succeeds(cycles[k])
    ensures CountCycles(cycles, true) == |cycles| && CountCycles(cycles, false) == 0
  {
    if |cycles| > 0 {
      var init := cycles[..|cycles| - 1];
      assert forall k :: 0 <= k < |init| ==> init[k] == cycles[k];
      AllSucceed(init);
    }
  }

  /** Running one more cycle of the script is one more step. */
  lemma RunOneMore(cycles: seq<Cycle>, i: nat, origin: Origin)
    requires i < |cycles|
    ensures Run(cycles[..i + 1], origin) == Step(Run(cycles[..i], origin), cycles[i], origin)
  {
    assert cycles[..i + 1][..i] == cycles[..i];
  }

  /**
   * One turn of the loop: list the nodes, build and upsert the advertisement,
   * start the watcher through the latch after a success, and pause. Returns
   * the events of the turn, the new latch and whether the loop goes on.
   */
  method RunCycle(once: bool, c: Cycle, origin: Origin) returns (tail: seq<Event>, once': bool, phase: Phase)
    ensures tail == CycleEvents(once, c, origin)
    ensures once' == (once || Succeeds(c))
    ensures phase == CyclePhase(c)
  {
    once' := once;
    match c.nodes {
      case ListError =>
        return [NodeListFailed], once', Returned;
      case Listed(items) =>
        if |items| == 0 {
          return [Crashed], once', Panicked;
        }
        var adv := CreateAdvertisement(items, origin.clusterId, origin.gatewayIP, origin.gatewayPrivateIP,
                                       c.stampNow, c.ttlNow);
        if !c.publishOk {
          tail := [PublishFailed(adv)];
        } else {
          tail := [Published(adv)];
          if !once' {
            once' := true;
            tail := tail + [WatcherStarted];
          }
        }
        tail := tail + [Slept(PublishInterval)];
        phase := Looping;
    }
  }

  /**
   * The loop of `GenerateAdvertisement` after the peer client exists: one
   * turn per entry of `cycles` until a turn stops it.
   */
  method PublishLoop(origin: Origin, cycles: seq<Cycle>) returns (events: seq<Event>, phase: Phase)
    ensures events == Run(cycles, origin).events && phase == Run(cycles, origin).phase
    ensures Count(events, KWatcherStarted) <= 1
    ensures Count(events, KWatcherStarted) == 1 <==> Count(events, KPublished) > 0
    ensures StartsAfterFirstPublish(events)
    ensures Count(events, KSlept) == Count(events, KPublished) + Count(events, KPublishFailed)
  {
    var once := false;
    events, phase := [], Looping;
    var i := 0;
    while i < |cycles|
      invariant 0 <= i <= |cycles|
      invariant LoopState(once, events, phase) == Run(cycles[..i], origin)
      invariant phase == Looping
    {
      RunOneMore(cycles, i, origin);
      var tail;
      tail, once, phase := RunCycle(once, cycles[i], origin);
      events := events + tail;
      if phase != Looping {
        StoppedStaysStopped(cycles, origin, i + 1);
        break;
      }
      i := i + 1;
    }
    if phase == Looping {
      assert cycles[..i] == cycles;
    }
    RunKeepsLatchInvariant(cycles, origin);
  }
}
