/** The receive thread and the replay thread of the remote keying server as one state machine.
    An event is one atomic access to what the threads share, with the private code around it,
    so a run of events is an interleaving of the two worker loops. Both threads read one
    nondecreasing clock. */
module RemoteKeyMachine {
  import opened FixedWidth
  import opened Wrappers
  import opened RemoteKeyProtocol
  import opened RemoteKeyServer

  /** Where the receive thread is: in recvfrom, or before the lock with a decoded packet. */
  datatype RxThread = Waiting | Received(now: uint64, pkt: Packet)

  /** Where the replay thread is in its loop body. */
  datatype ReplayThread =
    | Asleep                        // between ticks
    | Began                         // before it loads lastRx
    | Loaded(rxSeen: uint64)        // before it loads lastRx again and decides on silence
    | Clearing                      // silent: before it takes the lock to clear the buffer
    | Ready(wasSilent: bool)        // before watchdog, drain and PTT sequencing

  /** An edge the server accepted, the slot it was given, and the time its packet arrived. */
  datatype Entry = Entry(edge: Edge, at: uint64, arrived: uint64)

  /** The history of the current session: every accepted edge in order, how many of them have
      left the queue, and the positions of those that were played (a silence dropped the others). */
  datatype Log = Log(entries: seq<Entry>, done: nat, played: seq<nat>)

  /** tick is the time of the last tick begun, wake the time the last tick asked to be woken,
      seen how many entries the last tick had found accepted. */
  datatype MachineData = MachineData(cfg: Config, s: Shared, rig: Rig, rx: RxThread, replay: ReplayThread,
                                     clock: uint64, tick: uint64, wake: uint64, seen: nat, log: Log)

  datatype Event =
    | Datagram(now: uint64, bytes: seq<uint8>)
    | EnqueuePacket
    | BeginTick(now: uint64, opens: bool)
    | LoadLastRx
    | TestSilence
    | ClearQueue
    | FinishTick

  function SlotOf(e: Entry): Slot {
    Slot(e.at, e.edge.state)
  }

  /** The log accounts for the queue: what was accepted and has not left is what is queued. */
  predicate Queued(queue: seq<Slot>, log: Log) {
    && log.done + |queue| == |log.entries|
    && forall i {:trigger queue[i]} :: 0 <= i < |queue| ==> queue[i] == SlotOf(log.entries[log.done + i])
  }

  predicate Accounted(m: MachineData) {
    Queued(m.s.queue, m.log)
  }

  const DEFAULT_CONFIG := Config(150, 250, 5000, 10, 100)
  const CLOSED_PORT := Port(false, false, false, [])

  type Machine = m: MachineData | Accounted(m) witness Initial(DEFAULT_CONFIG, CLOSED_PORT)

  /** The state before either thread runs; the port may or may not have opened. */
  function Initial(cfg: Config, port: Port): MachineData {
    MachineData(cfg, Shared([], false, 0, 0, 0, 0, false, 0, false), Rig(port, false, 0, false, 0, 0),
                Waiting, Asleep, 0, 0, 0, 0, Log([], 0, []))
  }

  function NewEntry(cfg: Config, s: Shared, now: uint64, e: Edge): seq<Entry> {
    if e.ts <= s.highWater then [] else [Entry(e, SlotTime(Anchored(cfg, s, now, e), now, e.ts), now)]
  }

  /** What a packet adds to the log. */
  function NewEntries(cfg: Config, s: Shared, now: uint64, edges: seq<Edge>): seq<Entry> {
    if edges == [] then []
    else
      var front := edges[..|edges| - 1];
      NewEntries(cfg, s, now, front) + NewEntry(cfg, AcceptEdges(cfg, s, now, front), now, edges[|edges| - 1])
  }

  function CurrentLog(s: Shared, log: Log, pkt: Packet): Log {
    if StartsSession(s, pkt) then Log([], 0, []) else log
  }

  function Logged(cfg: Config, s: Shared, log: Log, now: uint64, pkt: Packet): Log {
    var current := CurrentLog(s, log, pkt);
    current.(entries := current.entries + NewEntries(cfg, StartSession(s, pkt), now, pkt.edges))
  }

  lemma {:induction false} AcceptQueued(cfg: Config, s: Shared, log: Log, now: uint64, edges: seq<Edge>)
    requires Queued(s.queue, log)
    ensures Queued(AcceptEdges(cfg, s, now, edges).queue, log.(entries := log.entries + NewEntries(cfg, s, now, edges)))
  {
    if edges == [] {
      assert log.entries + [] == log.entries;
    } else {
      var front := edges[..|edges| - 1];
      AcceptQueued(cfg, s, log, now, front);
      var added := NewEntry(cfg, AcceptEdges(cfg, s, now, front), now, edges[|edges| - 1]);
      assert log.entries + NewEntries(cfg, s, now, edges) == (log.entries + NewEntries(cfg, s, now, front)) + added;
    }
  }

  predicate Enabled(m: Machine, ev: Event) {
    match ev
    case Datagram(now, _) => m.rx.Waiting? && m.clock <= now && 0 < now
    case EnqueuePacket => m.rx.Received?
    case BeginTick(now, _) => m.replay.Asleep? && m.clock <= now && 0 < now
    case LoadLastRx => m.replay.Began?
    case TestSilence => m.replay.Loaded?
    case ClearQueue => m.replay.Clearing?
    case FinishTick => m.replay.Ready?
  }

  function Step(m: Machine, ev: Event): Machine
    requires Enabled(m, ev)
  {
    match ev
    case Datagram(now, bytes) =>
      (match Decoded(bytes)
       case None => m.(clock := now)
       case Some(pkt) => m.(clock := now, s := m.s.(lastRx := now), rx := Received(now, pkt)))
    case EnqueuePacket =>
      AcceptQueued(m.cfg, StartSession(m.s, m.rx.pkt), CurrentLog(m.s, m.log, m.rx.pkt), m.rx.now, m.rx.pkt.edges);
      m.(s := Enqueued(m.cfg, m.s, m.rx.now, m.rx.pkt), rx := Waiting,
         log := Logged(m.cfg, m.s, m.log, m.rx.now, m.rx.pkt),
         seen := if StartsSession(m.s, m.rx.pkt) then 0 else m.seen)
    case BeginTick(now, opens) =>
      m.(clock := now, tick := now, replay := Began, s := m.s.(resetRequested := false),
         rig := ResetTaken(m.s, Reconnected(m.rig, now, opens)))
    case LoadLastRx => m.(replay := Loaded(m.s.lastRx))
    case TestSilence =>
      if IsSilent(m.cfg, m.s, Sub64(m.tick, m.replay.rxSeen)) then m.(rig := Silenced(m.rig), replay := Clearing)
      else m.(replay := Ready(false))
    case ClearQueue =>
      m.(s := Cleared(m.s), log := m.log.(done := |m.log.entries|), replay := Ready(true))
    case FinishTick => FinishTickStep(m)
  }

  /** How many queued slots the tick in progress finds due. */
  function Due(m: Machine): (n: nat)
    ensures n <= |m.s.queue|
  {
    DueCount(m.s.queue, m.tick)
  }

  function Positions(from: nat, n: nat): (ps: seq<nat>)
    ensures |ps| == n
    ensures forall i {:trigger ps[i]} :: 0 <= i < n ==> ps[i] == from + i
  {
    seq(n, i => from + i)
  }

  function FinishTickStep(m: Machine): Machine {
    var n := Due(m);
    var rig := Finished(m.cfg, m.s, m.rig, m.tick);
    m.(s := m.s.(queue := m.s.queue[n..]), rig := rig, replay := Asleep,
       wake := WakeTime(m.s.queue[n..], rig, m.tick), seen := |m.log.entries|,
       log := m.log.(done := m.log.done + n, played := m.log.played + Positions(m.log.done, n)))
  }

  predicate Runnable(m: Machine, evs: seq<Event>)
    decreases |evs|
  {
    evs == [] || (Enabled(m, evs[0]) && Runnable(Step(m, evs[0]), evs[1..]))
  }

  function Run(m: Machine, evs: seq<Event>): Machine
    requires Runnable(m, evs)
    decreases |evs|
  {
    if evs == [] then m else Run(Step(m, evs[0]), evs[1..])
  }

  /** One more event at the end of a run. */
  lemma {:induction false} RunOn(m: Machine, evs: seq<Event>, ev: Event) returns (more: seq<Event>)
    requires Runnable(m, evs)
    requires Enabled(Run(m, evs), ev)
    ensures more == evs + [ev] && Runnable(m, more) && Run(m, more) == Step(Run(m, evs), ev)
    decreases |evs|
  {
    more := evs + [ev];
    if evs == [] {
      assert more[1..] == [];
    } else {
      var rest := RunOn(Step(m, evs[0]), evs[1..], ev);
      assert more[1..] == rest;
    }
  }
}
