/** The two workers of the remote keying server (src/remote_key_server.cpp): one function for
    each section of code a worker executes without touching the other's data in between, and
    the class whose methods perform those sections on the shared fields. */
module RemoteKeyServer {
  import opened FixedWidth
  import opened Wrappers
  import opened RemoteKeyProtocol

  datatype Config = Config(playoutMs: uint32, silenceMs: uint32, maxKeyDownMs: uint32,
                           pttLeadMs: uint32, pttTailMs: uint32)

  /** scheduled_edge: an edge on the local timeline. */
  datatype Slot = Slot(at: uint64, state: uint8)

  /** What the workers share: the jitter buffer and session fields under the mutex, and the
      two atomics lastRx and resetRequested. */
  datatype Shared = Shared(queue: seq<Slot>, haveAnchor: bool, anchorSrc: uint64, anchorLocal: uint64,
                           highWater: uint64, sessionId: uint16, haveSession: bool,
                           lastRx: uint64, resetRequested: bool)

  /** The serial port: whether it is open, its two control lines, and every pair of values
      (DTR, RTS) the lines have taken, oldest first. */
  datatype Port = Port(open: bool, dtr: bool, rts: bool, history: seq<(bool, bool)>) {
    function SetDtr(on: bool): Port {
      if !open then this else Port(open, on, rts, history + [(on, rts)])
    }

    function SetRts(on: bool): Port {
      if !open then this else Port(open, dtr, on, history + [(dtr, on)])
    }

    /** open_port on a device that is there. */
    function Opened(): Port {
      this.(open := true).SetDtr(false).SetRts(false)
    }
  }

  /** The replay worker's own variables, and the port only it drives. */
  datatype Rig = Rig(port: Port, keyDown: bool, keyDownSince: uint64, pttOn: bool,
                     pttReleaseAt: uint64, lastIfaceCheck: uint64)

  const IFACE_CHECK_US: uint64 := 100000
  const WATCHDOG_TICK_US: uint64 := 5000

  // ---- receive_worker ----

  predicate StartsSession(s: Shared, pkt: Packet) {
    !s.haveSession || pkt.sessionId != s.sessionId || IsReset(pkt.flags)
  }

  /** A packet of another session, or one that asks for a reset, drops what is queued. */
  function StartSession(s: Shared, pkt: Packet): Shared {
    if StartsSession(s, pkt) then
      s.(sessionId := pkt.sessionId, haveSession := true, haveAnchor := false, highWater := 0,
         queue := [], resetRequested := true)
    else
      s
  }

  function Anchored(cfg: Config, s: Shared, now: uint64, e: Edge): Shared {
    if s.haveAnchor then s
    else s.(anchorSrc := e.ts, anchorLocal := Add64(now, Micros(cfg.playoutMs)), haveAnchor := true)
  }

  /** The playout slot of a timestamp: its place on the anchored timeline, or now if that is past. */
  function SlotTime(s: Shared, now: uint64, ts: uint64): uint64 {
    var scheduled := Add64(s.anchorLocal, Sub64(ts, s.anchorSrc));
    if scheduled < now then now else scheduled
  }

  function AcceptEdge(cfg: Config, s: Shared, now: uint64, e: Edge): Shared {
    if e.ts <= s.highWater then s
    else
      var a := Anchored(cfg, s, now, e);
      a.(highWater := e.ts, queue := a.queue + [Slot(SlotTime(a, now, e.ts), e.state)])
  }

  function AcceptEdges(cfg: Config, s: Shared, now: uint64, edges: seq<Edge>): Shared {
    if edges == [] then s
    else AcceptEdge(cfg, AcceptEdges(cfg, s, now, edges[..|edges| - 1]), now, edges[|edges| - 1])
  }

  lemma {:induction false} AcceptNext(cfg: Config, s: Shared, now: uint64, edges: seq<Edge>, i: nat)
    requires i < |edges|
    ensures AcceptEdges(cfg, s, now, edges[..i + 1])
         == AcceptEdge(cfg, AcceptEdges(cfg, s, now, edges[..i]), now, edges[i])
  {
    assert edges[..i + 1][..i] == edges[..i];
  }

  /** The locked section of receive_worker. */
  function Enqueued(cfg: Config, s: Shared, now: uint64, pkt: Packet): Shared {
    AcceptEdges(cfg, StartSession(s, pkt), now, pkt.edges)
  }

  // ---- replay_worker ----

  function ForcedSafe(rig: Rig): Rig {
    rig.(port := rig.port.SetDtr(false).SetRts(false), keyDown := false, pttOn := false)
  }

  /** opens says whether the device can be opened at this moment. */
  function Reconnected(rig: Rig, now: uint64, opens: bool): Rig {
    if !rig.port.open && Sub64(now, rig.lastIfaceCheck) > IFACE_CHECK_US then
      rig.(lastIfaceCheck := now, port := if opens then rig.port.Opened() else rig.port)
    else
      rig
  }

  function ResetTaken(s: Shared, rig: Rig): Rig {
    if s.resetRequested then ForcedSafe(rig) else rig
  }

  predicate IsSilent(cfg: Config, s: Shared, sinceRx: uint64) {
    s.lastRx != 0 && sinceRx > Micros(cfg.silenceMs)
  }

  function Silenced(rig: Rig): Rig {
    if rig.keyDown || rig.pttOn then ForcedSafe(rig) else rig
  }

  function Cleared(s: Shared): Shared {
    s.(queue := [], haveAnchor := false)
  }

  function Watchdog(cfg: Config, rig: Rig, now: uint64): Rig {
    if rig.keyDown && Sub64(now, rig.keyDownSince) > Micros(cfg.maxKeyDownMs) then
      rig.(port := rig.port.SetDtr(false), keyDown := false)
    else
      rig
  }

  function ApplyEdge(cfg: Config, rig: Rig, now: uint64, state: uint8): Rig {
    var down := IsDown(state);
    var lit := if down && !rig.pttOn then rig.(port := rig.port.SetRts(true), pttOn := true) else rig;
    if down == lit.keyDown then lit
    else
      var keyed := lit.(port := lit.port.SetDtr(down), keyDown := down);
      if down then keyed.(keyDownSince := now)
      else keyed.(pttReleaseAt := Add64(now, Micros(cfg.pttTailMs)))
  }

  /** How many slots at the front of the queue are due. */
  function DueCount(queue: seq<Slot>, now: uint64): (n: nat)
    ensures n <= |queue|
  {
    if queue == [] || queue[0].at > now then 0 else 1 + DueCount(queue[1..], now)
  }

  lemma {:induction false} DrainStep(queue: seq<Slot>, n: nat, now: uint64)
    requires n < |queue| && queue[n].at <= now && n + DueCount(queue[n..], now) == DueCount(queue, now)
    ensures queue[n..][0] == queue[n] && queue[n..][1..] == queue[n + 1..]
    ensures n + 1 <= DueCount(queue, now) && n + 1 + DueCount(queue[n + 1..], now) == DueCount(queue, now)
  {
    assert queue[n..][1..] == queue[n + 1..];
  }

  lemma {:induction false} ApplyNext(cfg: Config, rig: Rig, now: uint64, queue: seq<Slot>, n: nat)
    requires n < |queue|
    ensures ApplyEdges(cfg, rig, now, queue[..n + 1])
         == ApplyEdge(cfg, ApplyEdges(cfg, rig, now, queue[..n]), now, queue[n].state)
  {
    assert queue[..n + 1][..n] == queue[..n];
  }

  function ApplyEdges(cfg: Config, rig: Rig, now: uint64, slots: seq<Slot>): Rig {
    if slots == [] then rig
    else ApplyEdge(cfg, ApplyEdges(cfg, rig, now, slots[..|slots| - 1]), now, slots[|slots| - 1].state)
  }

  /** The slot the PTT logic looks ahead to is a key-down. */
  predicate KeyDownNext(queue: seq<Slot>) {
    queue != [] && IsDown(queue[0].state)
  }

  function PttLead(cfg: Config, queue: seq<Slot>, rig: Rig, now: uint64): Rig {
    if KeyDownNext(queue) && !rig.pttOn && Add64(now, Micros(cfg.pttLeadMs)) >= queue[0].at then
      rig.(port := rig.port.SetRts(true), pttOn := true)
    else
      rig
  }

  function PttTail(cfg: Config, queue: seq<Slot>, rig: Rig, now: uint64): Rig {
    if rig.pttOn && !rig.keyDown && now >= rig.pttReleaseAt
       && !(KeyDownNext(queue) && queue[0].at < Add64(now, Micros(cfg.pttTailMs)))
    then
      rig.(port := rig.port.SetRts(false), pttOn := false)
    else
      rig
  }

  function Sequenced(cfg: Config, queue: seq<Slot>, rig: Rig, now: uint64): Rig {
    PttTail(cfg, queue, PttLead(cfg, queue, rig, now), now)
  }

  /** When the replay worker wants to run again. */
  function WakeTime(queue: seq<Slot>, rig: Rig, now: uint64): uint64 {
    var tick := Add64(now, WATCHDOG_TICK_US);
    var edge := if queue != [] && queue[0].at < tick then queue[0].at else tick;
    if rig.pttOn && !rig.keyDown && rig.pttReleaseAt < edge then rig.pttReleaseAt else edge
  }

  /** The rig after the last part of a tick: watchdog, due edges, PTT sequencing. */
  function Finished(cfg: Config, s: Shared, rig: Rig, now: uint64): Rig {
    var n := DueCount(s.queue, now);
    Sequenced(cfg, s.queue[n..], ApplyEdges(cfg, Watchdog(cfg, rig, now), now, s.queue[..n]), now)
  }

  // ---- the server object ----

  class RemoteKeyServer {
    const cfg: Config
    // under the mutex
    var queue: seq<Slot>
    var haveAnchor: bool
    var anchorSrc: uint64
    var anchorLocal: uint64
    var highWater: uint64
    var sessionId: uint16
    var haveSession: bool
    // atomics
    var lastRx: uint64
    var resetRequested: bool
    // replay worker
    var port: Port
    var keyDown: bool
    var keyDownSince: uint64
    var pttOn: bool
    var pttReleaseAt: uint64
    var lastIfaceCheck: uint64

    ghost function SharedState(): Shared
      reads this
    {
      Shared(queue, haveAnchor, anchorSrc, anchorLocal, highWater, sessionId, haveSession, lastRx, resetRequested)
    }

    ghost function RigState(): Rig
      reads this
    {
      Rig(port, keyDown, keyDownSince, pttOn, pttReleaseAt, lastIfaceCheck)
    }

    constructor (cfg: Config)
      ensures this.cfg == cfg
      ensures SharedState() == Shared([], false, 0, 0, 0, 0, false, 0, false)
      ensures RigState() == Rig(Port(false, false, false, []), false, 0, false, 0, 0)
    {
      this.cfg := cfg;
      queue, haveAnchor, anchorSrc, anchorLocal, highWater := [], false, 0, 0, 0;
      sessionId, haveSession, lastRx, resetRequested := 0, false, 0, false;
      port := Port(false, false, false, []);
      keyDown, keyDownSince, pttOn, pttReleaseAt, lastIfaceCheck := false, 0, false, 0, 0;
    }

    /** receive_worker up to the lock. */
    method Receive(now: uint64, buf: array<uint8>, len: nat) returns (pkt: Option<Packet>)
      requires len <= buf.Length
      modifies this`lastRx
      ensures pkt == Decoded(buf[..len])
      ensures lastRx == if pkt.Some? then now else old(lastRx)
    {
      pkt := Decode(buf, len);
      if pkt.Some? {
        lastRx := now;
      }
    }

    /** receive_worker under the lock. */
    method Enqueue(now: uint64, pkt: Packet)
      modifies this`sessionId, this`haveSession, this`resetRequested
      modifies this`anchorSrc, this`anchorLocal, this`haveAnchor, this`highWater, this`queue
      ensures SharedState() == Enqueued(cfg, old(SharedState()), now, pkt)
      ensures RigState() == old(RigState())
    {
      BeginSession(pkt);
      EnqueueEdges(now, pkt.edges);
    }

    method BeginSession(pkt: Packet)
      modifies this`sessionId, this`haveSession, this`resetRequested, this`haveAnchor, this`highWater, this`queue
      ensures SharedState() == StartSession(old(SharedState()), pkt)
    {
      var newSession := !haveSession || pkt.sessionId != sessionId;
      if newSession || IsReset(pkt.flags) {
        sessionId := pkt.sessionId;
        haveSession := true;
        haveAnchor := false;
        highWater := 0;
        queue := [];
        resetRequested := true;
      }
    }

    method EnqueueEdges(now: uint64, edges: seq<Edge>)
      modifies this`anchorSrc, this`anchorLocal, this`haveAnchor, this`highWater, this`queue
      ensures SharedState() == AcceptEdges(cfg, old(SharedState()), now, edges)
    {
      ghost var start := SharedState();
      for i := 0 to |edges|
        invariant SharedState() == AcceptEdges(cfg, start, now, edges[..i])
      {
        AcceptNext(cfg, start, now, edges, i);
        EnqueueEdge(now, edges[i]);
      }
      assert edges[..|edges|] == edges;
    }

    /** The body of the enqueuing loop. */
    method EnqueueEdge(now: uint64, e: Edge)
      modifies this`anchorSrc, this`anchorLocal, this`haveAnchor, this`highWater, this`queue
      ensures SharedState() == AcceptEdge(cfg, old(SharedState()), now, e)
    {
      if e.ts <= highWater {
        return;
      }
      if !haveAnchor {
        anchorSrc := e.ts;
        anchorLocal := Add64(now, Micros(cfg.playoutMs));
        haveAnchor := true;
      }
      highWater := e.ts;
      var scheduled := Add64(anchorLocal, Sub64(e.ts, anchorSrc));
      if scheduled < now {
        scheduled := now;
      }
      queue := queue + [Slot(scheduled, e.state)];
    }

    method SetKey(down: bool)
      modifies this`port
      ensures port == old(port).SetDtr(down)
    {
      if !port.open {
        return;
      }
      port := port.(dtr := down, history := port.history + [(down, port.rts)]);
    }

    method SetPtt(on: bool)
      modifies this`port
      ensures port == old(port).SetRts(on)
    {
      if !port.open {
        return;
      }
      port := port.(rts := on, history := port.history + [(port.dtr, on)]);
    }

    method ForceSafe()
      modifies this`port
      ensures port == old(port).SetDtr(false).SetRts(false)
    {
      SetKey(false);
      SetPtt(false);
    }

    /** The start of a tick: reconnect if due, then take a pending reset. */
    method BeginTick(now: uint64, opens: bool)
      modifies this`port, this`lastIfaceCheck, this`keyDown, this`pttOn, this`resetRequested
      ensures RigState() == ResetTaken(old(SharedState()), Reconnected(old(RigState()), now, opens))
      ensures SharedState() == old(SharedState()).(resetRequested := false)
    {
      if !port.open && Sub64(now, lastIfaceCheck) > IFACE_CHECK_US {
        lastIfaceCheck := now;
        if opens {
          port := port.(open := true);
          SetKey(false);
          SetPtt(false);
        }
      }
      var reset := resetRequested;
      resetRequested := false;
      if reset {
        ForceSafe();
        keyDown, pttOn := false, false;
      }
    }

    /** The silence test; the caller clears the buffer when it says so. */
    method TestSilence(sinceRx: uint64) returns (silent: bool)
      modifies this
      ensures silent == IsSilent(cfg, old(SharedState()), sinceRx)
      ensures RigState() == if silent then Silenced(old(RigState())) else old(RigState())
      ensures SharedState() == old(SharedState())
    {
      silent := lastRx != 0 && sinceRx > Micros(cfg.silenceMs);
      if silent && (keyDown || pttOn) {
        ForceSafe();
        keyDown, pttOn := false, false;
      }
    }

    method ClearQueue()
      modifies this`queue, this`haveAnchor
      ensures SharedState() == Cleared(old(SharedState()))
    {
      queue := [];
      haveAnchor := false;
    }

    /** The rest of a tick; wake is when the worker runs next. */
    method FinishTick(now: uint64) returns (wake: uint64)
      modifies this
      ensures RigState() == Finished(cfg, old(SharedState()), old(RigState()), now)
      ensures SharedState() == old(SharedState()).(queue := old(queue)[DueCount(old(queue), now)..])
      ensures wake == WakeTime(queue, RigState(), now)
    {
      CheckWatchdog(now);
      DrainDue(now);
      SequencePtt(now);
      wake := NextWake(now);
    }

    method CheckWatchdog(now: uint64)
      modifies this`port, this`keyDown
      ensures RigState() == Watchdog(cfg, old(RigState()), now)
    {
      if keyDown && Sub64(now, keyDownSince) > Micros(cfg.maxKeyDownMs) {
        SetKey(false);
        keyDown := false;
      }
    }

    method NextWake(now: uint64) returns (wake: uint64)
      ensures wake == WakeTime(queue, RigState(), now)
    {
      wake := Add64(now, WATCHDOG_TICK_US);
      if queue != [] && queue[0].at < wake {
        wake := queue[0].at;
      }
      if pttOn && !keyDown && pttReleaseAt < wake {
        wake := pttReleaseAt;
      }
    }

    /** The loop that applies the due edges. */
    method DrainDue(now: uint64)
      modifies this`queue, this`port, this`keyDown, this`keyDownSince, this`pttOn, this`pttReleaseAt
      ensures RigState() == ApplyEdges(cfg, old(RigState()), now, old(queue)[..DueCount(old(queue), now)])
      ensures SharedState() == old(SharedState()).(queue := old(queue)[DueCount(old(queue), now)..])
    {
      ghost var q, rig, n := queue, RigState(), 0;
      while queue != [] && queue[0].at <= now
        invariant n <= DueCount(q, now)
        invariant queue == q[n..]
        invariant n + DueCount(queue, now) == DueCount(q, now)
        invariant RigState() == ApplyEdges(cfg, rig, now, q[..n])
        decreases |queue|
      {
        DrainStep(q, n, now);
        ApplyNext(cfg, rig, now, q, n);
        var se := queue[0];
        queue := queue[1..];
        n := n + 1;
        HandleEdge(now, se.state);
      }
    }

    /** The body of the draining loop, once the edge is off the queue. */
    method HandleEdge(now: uint64, state: uint8)
      modifies this`port, this`keyDown, this`keyDownSince, this`pttOn, this`pttReleaseAt
      ensures RigState() == ApplyEdge(cfg, old(RigState()), now, state)
    {
      var down := IsDown(state);
      if down && !pttOn {
        SetPtt(true);
        pttOn := true;
      }
      if down != keyDown {
        SetKey(down);
        keyDown := down;
        if down {
          keyDownSince := now;
        } else {
          pttReleaseAt := Add64(now, Micros(cfg.pttTailMs));
        }
      }
    }

    /** PTT lead before the next key-down, PTT tail after the last key-up. */
    method SequencePtt(now: uint64)
      modifies this`port, this`pttOn
      ensures RigState() == Sequenced(cfg, queue, old(RigState()), now)
    {
      if queue != [] && IsDown(queue[0].state) && !pttOn {
        if Add64(now, Micros(cfg.pttLeadMs)) >= queue[0].at {
          SetPtt(true);
          pttOn := true;
        }
      }
      if pttOn && !keyDown && now >= pttReleaseAt {
        var pending := queue != [] && IsDown(queue[0].state) && queue[0].at < Add64(now, Micros(cfg.pttTailMs));
        if !pending {
          SetPtt(false);
          pttOn := false;
        }
      }
    }
  }
}
