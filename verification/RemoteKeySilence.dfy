/**
 * When a tick finds the stream silent. The clock is read before the time of the last packet, so a packet that comes
 * in between makes the subtraction wrap, and the tick takes a live stream for a silent one.
 */
module RemoteKeySilence {
  import opened FixedWidth
  import opened Wrappers
  import opened RemoteKeyProtocol
  import opened RemoteKeyServer
  import opened RemoteKeyMachine
  import opened RemoteKeySafety
  import opened RemoteKeyQueue

  /** The decision of a tick that has loaded the time of the last packet. */
  predicate FindsSilence(m: Machine)
    requires m.replay.Loaded?
  {
    IsSilent(m.cfg, m.s, Sub64(m.tick, m.replay.rxSeen))
  }

  /** A tick takes the stream for silent exactly if the packet it saw last is too old, or came after the tick began. */
  lemma {:induction false} SilentExactly(m: OrderedMachine)
    requires m.replay.Loaded?
    ensures FindsSilence(m) <==>
      m.s.lastRx != 0 && (m.replay.rxSeen > m.tick || m.replay.rxSeen + Micros(m.cfg.silenceMs) < m.tick)
  {
  }

  // ---- a live stream taken for a silent one ----

  /** What is still queued was not played. */
  lemma {:induction false} QueuedWasNotPlayed(m: OrderedMachine, i: nat)
    requires m.log.done <= i
    ensures i !in m.log.played
  {
    if i in m.log.played {
      var k :| 0 <= k < |m.log.played| && m.log.played[k] == i;
      if k < |m.log.played| - 1 {
        RisingAt(m.log.played, k, |m.log.played| - 1);
      }
    }
  }

  lemma {:induction false} PromptOn(m: Machine, evs: seq<Event>, ev: Event) returns (more: seq<Event>)
    requires Runnable(m, evs) && PromptRun(m, evs)
    requires Enabled(Run(m, evs), ev) && Prompt(Run(m, evs), ev)
    ensures more == evs + [ev] && Runnable(m, more) && Run(m, more) == Step(Run(m, evs), ev) && PromptRun(m, more)
    decreases |evs|
  {
    more := evs + [ev];
    if evs == [] {
      assert more[1..] == [];
    } else {
      var rest := PromptOn(Step(m, evs[0]), evs[1..], ev);
      assert more[1..] == rest;
    }
  }

  /** The tick that began at m.tick, when a packet of the session arrives after that and before it is loaded. */
  lemma {:induction false} MissesArrival(m: OrderedMachine, now: uint64, pkt: Packet)
    requires m.replay.Began? && m.rx == Received(now, pkt) && now > m.tick
    ensures var loaded := Step(Step(m, EnqueuePacket), LoadLastRx);
      FindsSilence(loaded) && loaded.s.lastRx == now
  {
    AcceptKeepsAtomics(m.cfg, StartSession(m.s, pkt), now, pkt.edges);
    var queued := Step(m, EnqueuePacket);
    assert queued.s.lastRx == now && queued.tick == m.tick && queued.cfg == m.cfg;
  }

  /**
   * On a perfect link, and with a receive thread that is never held up: a packet of the session that arrives after
   * a tick has read the clock, and before it has loaded the time of the last packet, makes the tick force the rig
   * safe and empty the buffer. The edges that were queued are lost, and DroppedForGood says that they stay so.
   */
  lemma {:induction false} LiveStreamSilenced(m: OrderedMachine, now: uint64, bytes: seq<uint8>) returns (evs: seq<Event>)
    requires m.replay.Began? && m.rx.Waiting? && Enabled(m, Datagram(now, bytes)) && Bounded(Datagram(now, bytes))
    requires Decoded(bytes).Some? && !StartsSession(m.s, Decoded(bytes).value)
    requires m.tick < now
    ensures evs == [Datagram(now, bytes), EnqueuePacket, LoadLastRx, TestSilence, ClearQueue]
    ensures Runnable(m, evs) && PromptRun(m, evs)
    ensures var after := Run(m, evs);
      after.s.lastRx == now && after.s.queue == [] && !after.rig.keyDown && !after.rig.pttOn
      && forall i :: m.log.done <= i < |m.log.entries| ==> Dropped(after.log, i)
  {
    var arrived := Step(m, Datagram(now, bytes));
    SafeStep(m, Datagram(now, bytes));
    OrderedStep(m, Datagram(now, bytes));
    MissesArrival(arrived, now, Decoded(bytes).value);
    evs := PromptOn(m, [], Datagram(now, bytes));
    evs := PromptOn(m, evs, EnqueuePacket);
    evs := PromptOn(m, evs, LoadLastRx);
    evs := PromptOn(m, evs, TestSilence);
    evs := PromptOn(m, evs, ClearQueue);
    forall i | m.log.done <= i < |m.log.entries|
      ensures Dropped(Run(m, evs).log, i)
    {
      QueuedWasNotPlayed(m, i);
    }
  }

  // ---- a stream that no tick takes for silent ----

  /** How far a tick is with the time of the last packet: begun at t and about to load it, or about to load it again. */
  datatype Stage = Resting | Begun(t: uint64) | Loading

  function NextStage(stage: Stage, ev: Event): Stage {
    match ev
    case BeginTick(now, _) => Begun(now)
    case LoadLastRx => Loading
    case TestSilence => Resting
    case _ => stage
  }

  /** Each tick begins within silence of the last packet of the protocol, no packet comes after a tick has begun and
      before it loads the time of the last, and no first packet before it loads that time again. */
  predicate Alive(silence: nat, heardAt: uint64, stage: Stage, evs: seq<Event>)
    decreases |evs|
  {
    evs == []
    || (match evs[0]
        case Datagram(now, bytes) =>
          if Decoded(bytes).None? then Alive(silence, heardAt, stage, evs[1..])
          else
            (stage.Begun? ==> now <= stage.t) && (stage.Loading? ==> heardAt != 0)
            && Alive(silence, now, stage, evs[1..])
        case BeginTick(now, _) =>
          (heardAt != 0 ==> now <= heardAt + silence) && Alive(silence, heardAt, Begun(now), evs[1..])
        case ev => Alive(silence, heardAt, NextStage(stage, ev), evs[1..]))
  }

  /** The machine is at this stage, in a stream that was alive so far. */
  predicate AtStage(m: Machine, stage: Stage) {
    match m.replay
    case Began =>
      stage == Begun(m.tick) && m.s.lastRx <= m.tick
      && (m.s.lastRx != 0 ==> m.tick <= m.s.lastRx + Micros(m.cfg.silenceMs))
    case Loaded(rxSeen) =>
      stage == Loading && rxSeen <= m.tick
      && (m.s.lastRx != 0 ==> rxSeen != 0 && m.tick <= rxSeen + Micros(m.cfg.silenceMs))
    case _ => stage == Resting
  }

  lemma {:induction false} AliveStep(m: OrderedMachine, stage: Stage, evs: seq<Event>)
    requires evs != [] && Enabled(m, evs[0]) && AtStage(m, stage)
    requires Alive(Micros(m.cfg.silenceMs), m.s.lastRx, stage, evs)
    ensures evs[0].TestSilence? ==> !FindsSilence(m)
    ensures var after := Step(m, evs[0]);
      AtStage(after, NextStage(stage, evs[0]))
      && Alive(Micros(m.cfg.silenceMs), after.s.lastRx, NextStage(stage, evs[0]), evs[1..])
  {
    if evs[0].EnqueuePacket? {
      AcceptKeepsAtomics(m.cfg, StartSession(m.s, m.rx.pkt), m.rx.now, m.rx.pkt.edges);
    } else if evs[0].TestSilence? {
      SilentExactly(m);
    }
  }

  /** No tick of the run finds the stream silent. */
  predicate NeverSilent(m: Machine, evs: seq<Event>)
    requires Runnable(m, evs)
    decreases |evs|
  {
    evs == [] || ((evs[0].TestSilence? ==> !FindsSilence(m)) && NeverSilent(Step(m, evs[0]), evs[1..]))
  }

  /** What is said of packets and ticks alone keeps every tick from taking the stream for silent. */
  lemma {:induction false} AliveRun(m: OrderedMachine, stage: Stage, evs: seq<Event>)
    requires Runnable(m, evs) && AtStage(m, stage)
    requires forall i :: 0 <= i < |evs| ==> Bounded(evs[i])
    requires Alive(Micros(m.cfg.silenceMs), m.s.lastRx, stage, evs)
    ensures NeverSilent(m, evs)
    decreases |evs|
  {
    if evs != [] {
      AliveStep(m, stage, evs);
      SafeStep(m, evs[0]);
      OrderedStep(m, evs[0]);
      AliveRun(Step(m, evs[0]), NextStage(stage, evs[0]), evs[1..]);
    }
  }
}
