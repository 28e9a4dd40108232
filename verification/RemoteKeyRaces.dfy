/**
 * What a packet that the receive thread holds up does to a tick: exactly when its edges are played before the
 * reset of their session, and exactly when they leave the key down on a silent stream.
 */
module RemoteKeyRaces {
  import opened FixedWidth
  import opened RemoteKeyProtocol
  import opened RemoteKeyServer
  import opened RemoteKeyMachine
  import opened RemoteKeySafety
  import opened RemoteKeyQueue
  import opened RemoteKeyPrefix
  import opened RemoteKeyReplay

  // ---- the edges of a packet that starts a timeline ----

  /** The newest timestamp of es, or the mark that was there before. */
  function Top(highWater: uint64, es: seq<Edge>): uint64 {
    if es == [] then highWater else es[|es| - 1].ts
  }

  /** The edges of a packet that dedup lets through. */
  function Newer(highWater: uint64, edges: seq<Edge>): (es: seq<Edge>)
    ensures |es| <= |edges|
  {
    if edges == [] then []
    else
      var front, e := Newer(highWater, edges[..|edges| - 1]), edges[|edges| - 1];
      if e.ts <= Top(highWater, front) then front else front + [e]
  }

  lemma {:induction false} NewerExactly(highWater: uint64, edges: seq<Edge>)
    ensures highWater <= Top(highWater, Newer(highWater, edges))
    ensures Newer(highWater, edges) != [] <==> exists i :: 0 <= i < |edges| && edges[i].ts > highWater
  {
    if edges != [] {
      var front := edges[..|edges| - 1];
      NewerExactly(highWater, front);
      if Newer(highWater, front) != [] {
        var i :| 0 <= i < |front| && front[i].ts > highWater;
        assert edges[i] == front[i];
      }
      if i :| 0 <= i < |edges| && edges[i].ts > highWater {
        assert i < |front| ==> front[i] == edges[i];
      }
    }
  }

  lemma {:induction false} NewerIncreases(highWater: uint64, edges: seq<Edge>)
    ensures Increasing(Newer(highWater, edges))
  {
    if edges != [] {
      NewerIncreases(highWater, edges[..|edges| - 1]);
      var front, es := Newer(highWater, edges[..|edges| - 1]), Newer(highWater, edges);
      forall i: nat | i + 1 < |es|
        ensures EdgeBefore(es, i)
      {
        assert i + 1 < |front| ==> EdgeBefore(front, i);
      }
    }
  }

  /** The slots of edges on a timeline that starts at local time base. */
  predicate OnTimeline(queue: seq<Slot>, es: seq<Edge>, base: int) {
    |queue| == |es|
    && forall i :: 0 <= i < |queue| ==> queue[i].at == base + (es[i].ts - es[0].ts) && queue[i].state == es[i].state
  }

  /** Without an anchor and with nothing queued, a packet that arrives at now starts a timeline of its own. */
  lemma {:induction false} StartsTimeline(cfg: Config, s: Shared, now: uint64, edges: seq<Edge>)
    requires SessionFits(cfg, s) && !s.haveAnchor && s.queue == []
    requires now < TIME_LIMIT && EdgesBounded(edges)
    ensures var after, es := AcceptEdges(cfg, s, now, edges), Newer(s.highWater, edges);
      SessionFits(cfg, after) && after.highWater == Top(s.highWater, es)
      && OnTimeline(after.queue, es, now + Micros(cfg.playoutMs))
      && (if es == [] then !after.haveAnchor
          else after.haveAnchor && after.anchorSrc == es[0].ts && after.anchorLocal == now + Micros(cfg.playoutMs))
  {
    if edges != [] {
      var front, e := edges[..|edges| - 1], edges[|edges| - 1];
      StartsTimeline(cfg, s, now, front);
      AcceptKeepsAtomics(cfg, s, now, front);
      NewerExactly(s.highWater, front);
      var mid := AcceptEdges(cfg, s, now, front);
      if mid.highWater < e.ts {
        SlotIsExact(cfg, mid, now, e);
      }
    }
  }

  lemma {:induction false} HeldPacketQueues(m: OrderedMachine)
    requires m.rx.Received?
    requires StartsSession(m.s, m.rx.pkt) || (m.s.queue == [] && !m.s.haveAnchor)
    ensures OnTimeline(Step(m, EnqueuePacket).s.queue, HeldEdges(m), m.rx.now + Micros(m.cfg.playoutMs))
  {
    StartsTimeline(m.cfg, StartSession(m.s, m.rx.pkt), m.rx.now, m.rx.pkt.edges);
  }

  /** No packet is taken in. */
  predicate NothingTakenIn(evs: seq<Event>) {
    forall i :: 0 <= i < |evs| ==> !evs[i].EnqueuePacket?
  }

  lemma {:induction false} StaysUnanchored(m: Machine, evs: seq<Event>)
    requires Runnable(m, evs) && NothingTakenIn(evs) && m.s.queue == [] && !m.s.haveAnchor
    ensures var last := Run(m, evs);
      last.s.queue == [] && !last.s.haveAnchor && last.cfg == m.cfg
    decreases |evs|
  {
    if evs != [] {
      assert forall i :: 0 <= i < |evs| - 1 ==> evs[1..][i] == evs[i + 1];
      StaysUnanchored(Step(m, evs[0]), evs[1..]);
    }
  }

  /** When the stream resumes after a silence, the first packet taken in starts a new timeline: its new edges are queued
      at their source spacing, the first a playout delay after its arrival. */
  lemma {:induction false} SilenceReanchors(m: Machine, evs: seq<Event>, last: OrderedMachine)
    requires m.replay.Clearing? && Runnable(Step(m, ClearQueue), evs) && NothingTakenIn(evs)
    requires last == Run(Step(m, ClearQueue), evs) && last.rx.Received?
    ensures OnTimeline(Step(last, EnqueuePacket).s.queue, HeldEdges(last), last.rx.now + Micros(m.cfg.playoutMs))
  {
    StaysUnanchored(Step(m, ClearQueue), evs);
    HeldPacketQueues(last);
  }

  /** The edges of the packet held up that are new to the server. */
  function HeldEdges(m: Machine): seq<Edge>
    requires m.rx.Received?
  {
    Newer(if StartsSession(m.s, m.rx.pkt) then 0 else m.s.highWater, m.rx.pkt.edges)
  }

  // ---- played before the reset ----

  function Phase(replay: ReplayThread): nat {
    match replay
    case Asleep => 4
    case Began => 3
    case Loaded(_) => 2
    case Clearing => 1
    case Ready(_) => 0
  }

  /** The tick in progress runs to its end while the receive thread does nothing. */
  function RestOfTick(m: Machine): Machine
    requires !m.replay.Asleep?
    decreases Phase(m.replay)
  {
    match m.replay
    case Began => RestOfTick(Step(m, LoadLastRx))
    case Loaded(_) => RestOfTick(Step(m, TestSilence))
    case Clearing => RestOfTick(Step(m, ClearQueue))
    case Ready(_) => Step(m, FinishTick)
  }

  /** The tick in progress will find the stream silent and empty the buffer. */
  predicate WillClear(m: Machine) {
    match m.replay
    case Began => IsSilent(m.cfg, m.s, Sub64(m.tick, m.s.lastRx))
    case Loaded(rxSeen) => IsSilent(m.cfg, m.s, Sub64(m.tick, rxSeen))
    case Clearing => true
    case _ => false
  }

  lemma {:induction false} RestPlays(m: Machine)
    requires !m.replay.Asleep? && m.log.played == []
    ensures RestOfTick(m).log.played != [] <==> !WillClear(m) && Due(m) > 0
    ensures RestOfTick(m).s.resetRequested == m.s.resetRequested
    decreases Phase(m.replay)
  {
    match m.replay
    case Began => RestPlays(Step(m, LoadLastRx));
    case Loaded(_) => RestPlays(Step(m, TestSilence));
    case Clearing => RestPlays(Step(m, ClearQueue));
    case Ready(_) =>
  }

  /**
   * A packet of a new session that reaches the buffer during a tick is played in that tick, before its reset is
   * taken, exactly if it has an edge with a timestamp above 0, its playout delay is over by the time of the tick,
   * and the tick is past the silence test or passes it.
   */
  lemma {:induction false} PlayedBeforeResetExactly(m: OrderedMachine)
    requires m.rx.Received? && StartsSession(m.s, m.rx.pkt) && !m.replay.Asleep?
    ensures var after := RestOfTick(Step(m, EnqueuePacket));
      after.s.resetRequested
      && (after.log.played != [] <==>
            (exists i :: 0 <= i < |m.rx.pkt.edges| && m.rx.pkt.edges[i].ts > 0)
            && m.rx.now + Micros(m.cfg.playoutMs) <= m.tick && !WillClear(m))
  {
    var queued := Step(m, EnqueuePacket);
    AcceptKeepsAtomics(m.cfg, StartSession(m.s, m.rx.pkt), m.rx.now, m.rx.pkt.edges);
    NewPacketPlays(m);
    RestPlays(queued);
  }

  lemma {:induction false} NewPacketPlays(m: OrderedMachine)
    requires m.rx.Received? && StartsSession(m.s, m.rx.pkt)
    ensures Due(Step(m, EnqueuePacket)) > 0 <==>
      (exists i :: 0 <= i < |m.rx.pkt.edges| && m.rx.pkt.edges[i].ts > 0) && m.rx.now + Micros(m.cfg.playoutMs) <= m.tick
  {
    HeldPacketQueues(m);
    NewerExactly(0, m.rx.pkt.edges);
    DueIsPrefix(Step(m, EnqueuePacket).s.queue, m.tick);
  }

  // ---- a key held on a silent stream ----

  /** A tick ends with the key held on a silent stream only if something was queued after it had cleared the buffer. */
  lemma {:induction false} StaleNeedsHeldPacket(m: SafeMachine)
    requires m.replay.Ready?
    requires Step(m, FinishTick).rig.keyDown && !HeardRecently(m)
    ensures m.replay == Ready(true) && m.s.queue != []
  {
    FinishedKey(m);
  }

  lemma {:induction false} TimelineDue(queue: seq<Slot>, es: seq<Edge>, base: int, now: uint64)
    requires OnTimeline(queue, es, base) && Increasing(es) && es != []
    ensures DueCount(queue, now) == EdgesBy(es, es[0].ts + (now - base))
  {
    var n := DueCount(queue, now);
    DueIsPrefix(queue, now);
    assert n > 0 ==> queue[n - 1].at <= now;
    EdgesByCounts(es, es[0].ts + (now - base), n);
  }

  lemma {:induction false} TimelineKeys(queued: Machine, es: seq<Edge>, base: int)
    requires RigSafe(queued.rig) && !queued.rig.keyDown
    requires OnTimeline(queued.s.queue, es, base) && Increasing(es)
    ensures FinishTickStep(queued).rig.keyDown == (es != [] && KeyAt(es, es[0].ts + (queued.tick - base)))
  {
    FinishedKey(queued);
    if es != [] {
      TimelineDue(queued.s.queue, es, base, queued.tick);
    }
  }

  lemma {:induction false} HeldPacketKeys(m: OrderedMachine)
    requires m.rx.Received? && m.replay == Ready(true) && m.s.queue == [] && !m.s.haveAnchor
    ensures var es := HeldEdges(m);
      FinishTickStep(Step(m, EnqueuePacket)).rig.keyDown
      == (es != [] && KeyAt(es, es[0].ts + (m.tick - (m.rx.now + Micros(m.cfg.playoutMs)))))
  {
    var queued, es, base := Step(m, EnqueuePacket), HeldEdges(m), m.rx.now + Micros(m.cfg.playoutMs);
    HeldPacketQueues(m);
    NewerIncreases(if StartsSession(m.s, m.rx.pkt) then 0 else m.s.highWater, m.rx.pkt.edges);
    assert queued.rig == m.rig && queued.tick == m.tick;
    TimelineKeys(queued, es, base);
  }

  lemma {:induction false} HeldPacketIsLast(m: OrderedMachine)
    requires m.rx.Received?
    ensures Step(m, EnqueuePacket).s.lastRx == m.rx.now
  {
    AcceptKeepsAtomics(m.cfg, StartSession(m.s, m.rx.pkt), m.rx.now, m.rx.pkt.edges);
  }

  /**
   * A packet that reaches the buffer after the tick in progress has cleared it, and before it drains: the tick ends
   * with the key held although no packet came within silence_ms exactly if the packet is that old and its own edges
   * leave the key down at the source time that its playout delay makes of the tick.
   */
  lemma {:induction false} StaleKeyExactly(m: OrderedMachine)
    requires m.rx.Received? && m.replay == Ready(true) && m.s.queue == [] && !m.s.haveAnchor
    ensures var after, es := Step(Step(m, EnqueuePacket), FinishTick), HeldEdges(m);
      after.rig.keyDown && !HeardRecently(after) <==>
        m.rx.now + Micros(m.cfg.silenceMs) < m.tick
        && es != [] && KeyAt(es, es[0].ts + (m.tick - (m.rx.now + Micros(m.cfg.playoutMs))))
  {
    HeldPacketKeys(m);
    HeldPacketIsLast(m);
  }
}
