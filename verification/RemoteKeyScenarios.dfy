/** Concrete runs that show what the remote keying server does not guarantee. */
module RemoteKeyScenarios {
  import opened FixedWidth
  import opened Wrappers
  import opened RemoteKeyProtocol
  import opened RemoteKeyServer
  import opened RemoteKeyMachine
  import opened RemoteKeySafety

  // A run in which the receive thread is parked before the lock during a whole tick: the packet
  // it holds, and the machine before and after each event.
  const PARKED_PACKET := Packet(7, 0, [Edge(1, 1)])
  const PARKED_CONFIG := Config(150, 250, 5000, 10, 100)
  const PARKED_RIG := Rig(Port(true, false, false, []), false, 0, false, 0, 0)
  const HEARD := Shared([], false, 0, 0, 0, 0, false, 1000, false)
  const LATE := Shared([Slot(151000, 1)], true, 1, 151000, 1, 7, true, 1000, true)

  function Parked(replay: ReplayThread): Machine {
    MachineData(PARKED_CONFIG, HEARD, PARKED_RIG, Received(1000, PARKED_PACKET), replay, 1000000, 1000000, 0, 0, Log([], 0, []))
  }

  function Unparked(): Machine {
    MachineData(PARKED_CONFIG, LATE, PARKED_RIG, Waiting, Ready(true), 1000000, 1000000, 0, 0, Log([Entry(Edge(1, 1), 151000, 1000)], 0, []))
  }

  lemma {:induction false} ParkedEnqueue()
    ensures Step(Parked(Ready(true)), EnqueuePacket) == Unparked()
  {
    var start := StartSession(HEARD, PARKED_PACKET);
    var edges := PARKED_PACKET.edges;
    assert edges[..0] == [];
    assert AcceptEdges(PARKED_CONFIG, start, 1000, []) == start;
    assert AcceptEdges(PARKED_CONFIG, start, 1000, edges) == AcceptEdge(PARKED_CONFIG, start, 1000, Edge(1, 1)) == LATE;
    assert NewEntries(PARKED_CONFIG, start, 1000, edges) == NewEntry(PARKED_CONFIG, start, 1000, Edge(1, 1));
  }

  lemma {:induction false} ParkedFinish()
    ensures var m := Step(Unparked(), FinishTick);
      m.rig.keyDown && m.log.played == [0] && m.log.entries == [Entry(Edge(1, 1), 151000, 1000)]
  {
    assert DueCount(LATE.queue[1..], 1000000) == 0;
    assert Due(Unparked()) == 1;
    FinishedKey(Unparked());
  }

  lemma {:induction false} ParkedArrival(m0: Machine, bytes: seq<uint8>)
    requires m0 == Initial(PARKED_CONFIG, PARKED_RIG.port)
    requires Decoded(bytes) == Some(PARKED_PACKET)
    ensures Step(m0, Datagram(1000, bytes))
         == MachineData(PARKED_CONFIG, HEARD, PARKED_RIG, Received(1000, PARKED_PACKET), Asleep, 1000, 0, 0, 0, Log([], 0, []))
  {
  }

  lemma {:induction false} ParkedTick(m1: Machine)
    requires m1 == MachineData(PARKED_CONFIG, HEARD, PARKED_RIG, Received(1000, PARKED_PACKET), Asleep, 1000, 0, 0, 0, Log([], 0, []))
    ensures Step(m1, BeginTick(1000000, true)) == Parked(Began)
    ensures Step(Parked(Began), LoadLastRx) == Parked(Loaded(1000))
    ensures Step(Parked(Loaded(1000)), TestSilence) == Parked(Clearing)
    ensures Step(Parked(Clearing), ClearQueue) == Parked(Ready(true))
  {
  }

  predicate PlayedTooEarly(m: Machine) {
    && m.replay.Asleep? && m.rig.keyDown && !HeardRecently(m)
    && m.s.resetRequested && m.log.played == [0] && m.log.entries == [Entry(Edge(1, 1), 151000, 1000)]
    && !ResetTaken(m.s, m.rig).keyDown
  }

  /** The run up to the clearing of the buffer. */
  lemma {:induction false} ParkedSilence(m0: Machine, bytes: seq<uint8>) returns (evs: seq<Event>)
    requires m0 == Initial(PARKED_CONFIG, PARKED_RIG.port)
    requires Decoded(bytes) == Some(PARKED_PACKET)
    ensures Runnable(m0, evs) && Run(m0, evs) == Parked(Ready(true))
  {
    ParkedArrival(m0, bytes);
    var m1 := Step(m0, Datagram(1000, bytes));
    ParkedTick(m1);
    evs := RunOn(m0, [], Datagram(1000, bytes));
    evs := RunOn(m0, evs, BeginTick(1000000, true));
    evs := RunOn(m0, evs, LoadLastRx);
    evs := RunOn(m0, evs, TestSilence);
    evs := RunOn(m0, evs, ClearQueue);
  }

  lemma {:induction false} ParkedRun(m0: Machine, bytes: seq<uint8>)
    requires m0 == Initial(PARKED_CONFIG, PARKED_RIG.port)
    requires Decoded(bytes) == Some(PARKED_PACKET)
    ensures exists evs :: Runnable(m0, evs) && PlayedTooEarly(Run(m0, evs))
  {
    var evs := ParkedSilence(m0, bytes);
    ParkedEnqueue();
    ParkedFinish();
    evs := RunOn(m0, evs, EnqueuePacket);
    evs := RunOn(m0, evs, FinishTick);
  }

  /** The packet of a run goes over the wire as it is. */
  lemma {:induction false} Arrives(pkt: Packet) returns (bytes: seq<uint8>)
    requires |pkt.edges| <= MAX_EDGES
    ensures Decoded(bytes) == Some(pkt)
  {
    bytes := Encoded(pkt);
    RoundTrip(pkt);
  }

  /** A packet parked between recvfrom and the lock while a whole silent tick passes: its edge is
      played although the stream has been silent and although the reset of its own session has not
      been taken yet, so the next tick lifts a key the operator is still holding. */
  lemma {:induction false} ParkedReceiverRace(m0: Machine)
    requires m0 == Initial(PARKED_CONFIG, PARKED_RIG.port)
    ensures exists evs :: Runnable(m0, evs) && PlayedTooEarly(Run(m0, evs))
  {
    var bytes := Arrives(PARKED_PACKET);
    ParkedRun(m0, bytes);
  }

  // A run in which the serial device appears while PTT is on: the packet, and the machine after it
  // was queued and after each of two ticks.
  const LATE_CONFIG := Config(150, 2000, 5000, 10, 100)
  const LATE_PACKET := Packet(7, 0, [Edge(1, 1), Edge(1000, 0), Edge(60001, 1)])
  const LATE_SLOTS := [Slot(151000, 1), Slot(151999, 0), Slot(211000, 1)]
  const LATE_ENTRIES := [Entry(Edge(1, 1), 151000, 1000), Entry(Edge(1000, 0), 151999, 1000),
                         Entry(Edge(60001, 1), 211000, 1000)]
  const CLOSED_RIG := Rig(Port(false, false, false, []), false, 0, false, 0, 0)
  const CLOSED_PTT_RIG := Rig(Port(false, false, false, []), false, 152000, true, 252000, 152000)
  const LATE_PORT := Port(true, false, false, [(false, false), (false, false)])

  function LateShared(queue: seq<Slot>, reset: bool): Shared {
    Shared(queue, true, 1, 151000, 60001, 7, true, 1000, reset)
  }

  lemma {:induction false} LateEnqueue(m: Machine)
    requires m == MachineData(LATE_CONFIG, HEARD, CLOSED_RIG, Received(1000, LATE_PACKET), Asleep, 1000, 0, 0, 0, Log([], 0, []))
    ensures Step(m, EnqueuePacket)
         == m.(rx := Waiting, s := LateShared(LATE_SLOTS, true), log := Log(LATE_ENTRIES, 0, []))
  {
    var start := StartSession(HEARD, LATE_PACKET);
    var edges := LATE_PACKET.edges;
    assert edges[..2][..1] == edges[..1] == [Edge(1, 1)];
    assert edges[..1][..0] == [];
    assert edges[..2] == [Edge(1, 1), Edge(1000, 0)];
    var s0 := AcceptEdges(LATE_CONFIG, start, 1000, []);
    var s1 := AcceptEdges(LATE_CONFIG, start, 1000, edges[..1]);
    assert s1 == AcceptEdge(LATE_CONFIG, s0, 1000, edges[0]);
    var s2 := AcceptEdges(LATE_CONFIG, start, 1000, edges[..2]);
    assert s2 == AcceptEdge(LATE_CONFIG, s1, 1000, edges[1]);
    assert AcceptEdges(LATE_CONFIG, start, 1000, edges) == AcceptEdge(LATE_CONFIG, s2, 1000, edges[2]);
    assert NewEntries(LATE_CONFIG, start, 1000, edges[..1]) == [LATE_ENTRIES[0]];
    assert NewEntries(LATE_CONFIG, start, 1000, edges[..2]) == [LATE_ENTRIES[0], LATE_ENTRIES[1]];
    assert NewEntries(LATE_CONFIG, start, 1000, edges) == LATE_ENTRIES;
  }

  lemma {:induction false} ApplyOne(cfg: Config, rig: Rig, now: uint64, slot: Slot)
    ensures ApplyEdges(cfg, rig, now, [slot]) == ApplyEdge(cfg, rig, now, slot.state)
  {
    assert [slot][..0] == [];
  }

  lemma {:induction false} ApplyTwo(cfg: Config, rig: Rig, now: uint64, a: Slot, b: Slot)
    ensures ApplyEdges(cfg, rig, now, [a, b]) == ApplyEdge(cfg, ApplyEdge(cfg, rig, now, a.state), now, b.state)
  {
    ApplyOne(cfg, rig, now, a);
    assert [a, b][..1] == [a];
  }

  lemma {:induction false} FirstTickRig()
    ensures DueCount(LATE_SLOTS, 152000) == 2
    ensures Finished(LATE_CONFIG, LateShared(LATE_SLOTS, false), CLOSED_RIG.(lastIfaceCheck := 152000), 152000)
         == CLOSED_PTT_RIG
  {
    assert LATE_SLOTS[1..][1..] == [LATE_SLOTS[2]] == LATE_SLOTS[2..];
    assert DueCount(LATE_SLOTS[1..][1..], 152000) == 0;
    assert DueCount(LATE_SLOTS[1..], 152000) == 1;
    assert LATE_SLOTS[..2] == [Slot(151000, 1), Slot(151999, 0)];
    ApplyTwo(LATE_CONFIG, CLOSED_RIG.(lastIfaceCheck := 152000), 152000, Slot(151000, 1), Slot(151999, 0));
  }

  lemma {:induction false} SecondTickRig()
    ensures DueCount([Slot(211000, 1)], 252500) == 1
    ensures Finished(LATE_CONFIG, LateShared([Slot(211000, 1)], false),
                     CLOSED_PTT_RIG.(port := LATE_PORT, lastIfaceCheck := 252500), 252500).port
         == Port(true, true, false, LATE_PORT.history + [(true, false)])
  {
    assert DueCount([Slot(211000, 1)][1..], 252500) == 0;
    assert [Slot(211000, 1)][..1] == [Slot(211000, 1)];
    ApplyOne(LATE_CONFIG, CLOSED_PTT_RIG.(port := LATE_PORT, lastIfaceCheck := 252500), 252500, Slot(211000, 1));
  }

  /** The four events of a tick that finds the stream alive. */
  lemma {:induction false} TickOn(m: Machine, evs: seq<Event>, now: uint64, opens: bool)
      returns (more: seq<Event>, ready: Machine)
    requires Runnable(m, evs)
    requires Enabled(Run(m, evs), BeginTick(now, opens))
    requires Run(m, evs).s.lastRx <= now <= Run(m, evs).s.lastRx + Micros(Run(m, evs).cfg.silenceMs)
    ensures var before := Run(m, evs);
            ready == before.(clock := now, tick := now, replay := Ready(false),
                             s := before.s.(resetRequested := false),
                             rig := ResetTaken(before.s, Reconnected(before.rig, now, opens)))
    ensures Runnable(m, more) && Run(m, more) == FinishTickStep(ready)
  {
    more := RunOn(m, evs, BeginTick(now, opens));
    more := RunOn(m, more, LoadLastRx);
    more := RunOn(m, more, TestSilence);
    ready := Run(m, more);
    more := RunOn(m, more, FinishTick);
  }

  lemma {:induction false} LateOpenRun(m0: Machine, bytes: seq<uint8>)
    requires m0 == Initial(LATE_CONFIG, CLOSED_RIG.port)
    requires Decoded(bytes) == Some(LATE_PACKET)
    ensures exists evs :: Runnable(m0, evs) && !KeyOnlyUnderPtt(Run(m0, evs).rig.port)
  {
    var evs := RunOn(m0, [], Datagram(1000, bytes));
    LateEnqueue(Run(m0, evs));
    evs := RunOn(m0, evs, EnqueuePacket);
    FirstTickRig();
    var ready;
    evs, ready := TickOn(m0, evs, 152000, false);
    assert ready.rig == CLOSED_RIG.(lastIfaceCheck := 152000);
    assert LATE_SLOTS[2..] == [Slot(211000, 1)];
    SecondTickRig();
    evs, ready := TickOn(m0, evs, 252500, true);
    assert ready.rig.port == LATE_PORT;
    assert Run(m0, evs).rig.port.history[2] == (true, false);
  }

  /** If the serial device appears while the PTT flag is set, the key line can be raised with the
      PTT line down: opening the port clears both lines but not the flags. */
  lemma {:induction false} LateOpenRace(m0: Machine)
    requires m0 == Initial(LATE_CONFIG, CLOSED_RIG.port)
    ensures exists evs :: Runnable(m0, evs) && !KeyOnlyUnderPtt(Run(m0, evs).rig.port)
  {
    var bytes := Arrives(LATE_PACKET);
    LateOpenRun(m0, bytes);
  }
}
