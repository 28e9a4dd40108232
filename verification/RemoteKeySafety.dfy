/** Safety of remote keying in every interleaving of the two threads, for arbitrary datagrams. */
module RemoteKeySafety {
  import opened FixedWidth
  import opened RemoteKeyProtocol
  import opened RemoteKeyServer
  import opened RemoteKeyMachine

  // ---- the key flag, PTT and the watchdog ----

  predicate RigSafe(rig: Rig) {
    && (rig.keyDown ==> rig.pttOn)
    && (rig.port.dtr ==> rig.port.open && rig.keyDown)
  }

  /** Holds between any two atomic accesses of the threads. */
  predicate Safe(m: Machine) {
    && RigSafe(m.rig)
    && m.tick <= m.clock && m.s.lastRx <= m.clock
    && (m.rx.Received? ==> 0 < m.rx.now == m.s.lastRx)
    && (m.s.haveSession ==> 0 < m.s.lastRx)
    && (m.s.queue != [] || m.rig.keyDown ==> m.s.haveSession)
    && (m.rig.keyDown ==> m.rig.keyDownSince <= m.tick)
    && (m.rig.keyDown && m.replay.Asleep? ==> m.tick - m.rig.keyDownSince <= Micros(m.cfg.maxKeyDownMs))
    && (m.replay.Loaded? ==> m.replay.rxSeen <= m.s.lastRx)
    && (m.replay == Ready(false) ==> m.s.lastRx == 0 || HeardRecently(m))
    && (m.replay.Clearing? || m.replay == Ready(true) ==> !m.rig.keyDown)
  }

  /** A packet arrived no more than silence_ms before the tick. */
  predicate HeardRecently(m: Machine) {
    m.tick <= m.s.lastRx + Micros(m.cfg.silenceMs)
  }

  /** A machine in a safe state. */
  type SafeMachine = m: Machine | Safe(m) witness Initial(DEFAULT_CONFIG, CLOSED_PORT)

  lemma {:induction false} AcceptKeepsAtomics(cfg: Config, s: Shared, now: uint64, edges: seq<Edge>)
    ensures AcceptEdges(cfg, s, now, edges).lastRx == s.lastRx
    ensures AcceptEdges(cfg, s, now, edges).resetRequested == s.resetRequested
    ensures AcceptEdges(cfg, s, now, edges).haveSession == s.haveSession
    ensures AcceptEdges(cfg, s, now, edges).sessionId == s.sessionId
  {
    if edges != [] {
      AcceptKeepsAtomics(cfg, s, now, edges[..|edges| - 1]);
    }
  }

  lemma {:induction false} ApplyEdgesSafe(cfg: Config, rig: Rig, now: uint64, slots: seq<Slot>)
    requires RigSafe(rig)
    ensures RigSafe(ApplyEdges(cfg, rig, now, slots))
    ensures var after := ApplyEdges(cfg, rig, now, slots);
            after.keyDown ==> after.keyDownSince == now || (rig.keyDown && after.keyDownSince == rig.keyDownSince)
    ensures ApplyEdges(cfg, rig, now, slots).keyDown
         == if slots == [] then rig.keyDown else IsDown(slots[|slots| - 1].state)
  {
    if slots != [] {
      ApplyEdgesSafe(cfg, rig, now, slots[..|slots| - 1]);
    }
  }

  /** The key after a tick: what the last due edge says, or what the watchdog left. */
  lemma {:induction false} FinishedKey(m: Machine)
    requires RigSafe(m.rig)
    ensures FinishTickStep(m).rig.keyDown
         == if Due(m) > 0 then IsDown(m.s.queue[Due(m) - 1].state) else Watchdog(m.cfg, m.rig, m.tick).keyDown
    ensures RigSafe(FinishTickStep(m).rig)
  {
    var n := Due(m);
    ApplyEdgesSafe(m.cfg, Watchdog(m.cfg, m.rig, m.tick), m.tick, m.s.queue[..n]);
  }

  lemma {:induction false} SafeStep(m: SafeMachine, ev: Event)
    requires Enabled(m, ev)
    ensures Safe(Step(m, ev))
  {
    match ev
    case EnqueuePacket => EnqueueSafe(m);
    case FinishTick => FinishSafe(m);
    case _ =>
  }

  lemma {:induction false} EnqueueSafe(m: SafeMachine)
    requires m.rx.Received?
    ensures Safe(Step(m, EnqueuePacket))
  {
    AcceptKeepsAtomics(m.cfg, StartSession(m.s, m.rx.pkt), m.rx.now, m.rx.pkt.edges);
  }

  lemma {:induction false} FinishSafe(m: SafeMachine)
    requires m.replay.Ready?
    ensures Safe(FinishTickStep(m))
  {
    ApplyEdgesSafe(m.cfg, Watchdog(m.cfg, m.rig, m.tick), m.tick, m.s.queue[..Due(m)]);
  }

  // ---- how long the key line stays down ----

  /** The key line went up in some entry of the record of the lines that is newer than before. */
  predicate Lifted(before: Port, after: Port) {
    exists i {:trigger after.history[i]} :: |before.history| <= i < |after.history| && !after.history[i].0
  }

  /** The transmitter is keyed, since a certain time. */
  predicate KeyedSince(rig: Rig, since: uint64) {
    rig.port.open && rig.port.dtr && rig.keyDown && rig.keyDownSince == since
  }

  /** The record of the lines only grows; and a key line that is down goes up, or stays down with the same start. */
  predicate Holds(before: Rig, after: Rig) {
    && before.port.history <= after.port.history
    && (KeyedSince(before, before.keyDownSince) ==>
          Lifted(before.port, after.port) || KeyedSince(after, before.keyDownSince))
  }

  lemma {:induction false} HoldsOn(a: Rig, b: Rig, c: Rig)
    requires Holds(a, b) && Holds(b, c)
    ensures Holds(a, c)
  {
    if Lifted(a.port, b.port) {
      var i :| |a.port.history| <= i < |b.port.history| && !b.port.history[i].0;
      assert !c.port.history[i].0;
    } else if Lifted(b.port, c.port) {
      var i :| |b.port.history| <= i < |c.port.history| && !c.port.history[i].0;
      assert |a.port.history| <= i;
    }
  }

  /** Lowering DTR on an open port is recorded. */
  lemma {:induction false} LowersDtr(port: Port)
    requires port.open
    ensures Lifted(port, port.SetDtr(false)) && Lifted(port, port.SetDtr(false).SetRts(false))
  {
    assert !port.SetDtr(false).history[|port.history|].0;
    assert !port.SetDtr(false).SetRts(false).history[|port.history|].0;
  }

  lemma {:induction false} EdgeHolds(cfg: Config, rig: Rig, now: uint64, state: uint8)
    requires RigSafe(rig)
    ensures Holds(rig, ApplyEdge(cfg, rig, now, state))
  {
    if rig.port.open {
      LowersDtr(rig.port);
    }
  }

  lemma {:induction false} EdgesHold(cfg: Config, rig: Rig, now: uint64, slots: seq<Slot>)
    requires RigSafe(rig)
    ensures Holds(rig, ApplyEdges(cfg, rig, now, slots))
  {
    if slots != [] {
      var front := slots[..|slots| - 1];
      var mid := ApplyEdges(cfg, rig, now, front);
      ApplyEdgesSafe(cfg, rig, now, front);
      EdgesHold(cfg, rig, now, front);
      EdgeHolds(cfg, mid, now, slots[|slots| - 1].state);
      HoldsOn(rig, mid, ApplyEdges(cfg, rig, now, slots));
    }
  }

  lemma {:induction false} WatchdogHolds(cfg: Config, rig: Rig, now: uint64)
    ensures Holds(rig, Watchdog(cfg, rig, now))
  {
    if rig.port.open {
      LowersDtr(rig.port);
    }
  }

  lemma {:induction false} SequencedHolds(cfg: Config, queue: seq<Slot>, rig: Rig, now: uint64)
    ensures Holds(rig, Sequenced(cfg, queue, rig, now))
  {
  }

  lemma {:induction false} FinishHolds(m: SafeMachine)
    requires m.replay.Ready?
    ensures Holds(m.rig, FinishTickStep(m).rig)
  {
    var n := Due(m);
    var watched := Watchdog(m.cfg, m.rig, m.tick);
    var drained := ApplyEdges(m.cfg, watched, m.tick, m.s.queue[..n]);
    WatchdogHolds(m.cfg, m.rig, m.tick);
    EdgesHold(m.cfg, watched, m.tick, m.s.queue[..n]);
    SequencedHolds(m.cfg, m.s.queue[n..], drained, m.tick);
    HoldsOn(m.rig, watched, drained);
    HoldsOn(m.rig, drained, FinishTickStep(m).rig);
  }

  lemma {:induction false} ForcedSafeHolds(rig: Rig)
    ensures Holds(rig, ForcedSafe(rig))
  {
    if rig.port.open {
      LowersDtr(rig.port);
    }
  }

  lemma {:induction false} BeginHolds(s: Shared, rig: Rig, now: uint64, opens: bool)
    ensures Holds(rig, ResetTaken(s, Reconnected(rig, now, opens)))
  {
    var connected := Reconnected(rig, now, opens);
    ForcedSafeHolds(connected);
    assert Holds(rig, connected);
    HoldsOn(rig, connected, ResetTaken(s, connected));
  }

  lemma {:induction false} StepHolds(m: SafeMachine, ev: Event)
    requires Enabled(m, ev)
    ensures Holds(m.rig, Step(m, ev).rig)
  {
    match ev
    case BeginTick(now, opens) => BeginHolds(m.s, m.rig, now, opens);
    case TestSilence => ForcedSafeHolds(m.rig);
    case FinishTick => FinishHolds(m);
    case _ =>
  }

  lemma {:induction false} RunHolds(m: SafeMachine, evs: seq<Event>)
    requires Runnable(m, evs)
    ensures Holds(m.rig, Run(m, evs).rig) && Run(m, evs).cfg == m.cfg
    decreases |evs|
  {
    if evs != [] {
      SafeStep(m, evs[0]);
      StepHolds(m, evs[0]);
      RunHolds(Step(m, evs[0]), evs[1..]);
      HoldsOn(m.rig, Step(m, evs[0]).rig, Run(m, evs).rig);
    }
  }

  /** The watchdog, said of the line: a key line that is down and goes up at no moment of a run of whole ticks has been
      down for at most max_key_down_ms, whatever edges were lost, repeated or played. */
  lemma {:induction false} LineHeldAtMost(m: SafeMachine, evs: seq<Event>, last: Machine)
    requires m.rig.port.open && m.rig.port.dtr && Runnable(m, evs) && last == Run(m, evs)
    requires last.replay.Asleep? && !Lifted(m.rig.port, last.rig.port)
    ensures last.tick - m.tick <= Micros(m.cfg.maxKeyDownMs)
  {
    RunHolds(m, evs);
    SafeRun(m, evs);
  }

  // ---- over runs ----

  /** Safety over whole runs. In particular, whenever the replay thread is between ticks with the
      key down, PTT is on, the key has been down for at most max_key_down_ms, and DTR is raised
      only while the key flag is set. No datagram, loss, duplication or interleaving breaks it. */
  lemma {:induction false} SafeRun(m: SafeMachine, evs: seq<Event>)
    requires Runnable(m, evs)
    ensures Safe(Run(m, evs))
    decreases |evs|
  {
    if evs != [] {
      SafeStep(m, evs[0]);
      SafeRun(Step(m, evs[0]), evs[1..]);
    }
  }

  lemma {:induction false} InitiallySafe(cfg: Config, port: Port)
    requires !port.dtr
    ensures Safe(Initial(cfg, port))
  {
  }

  // ---- the silence watchdog ----

  /** The receive thread is never parked between recvfrom and the lock while the replay thread
      takes a step. */
  predicate Prompt(m: Machine, ev: Event) {
    m.rx.Received? ==> ev.EnqueuePacket?
  }

  predicate PromptRun(m: Machine, evs: seq<Event>)
    requires Runnable(m, evs)
    decreases |evs|
  {
    evs == [] || (Prompt(m, evs[0]) && PromptRun(Step(m, evs[0]), evs[1..]))
  }

  /** A key held down at the end of a tick means a packet arrived within silence_ms; after a
      silent tick has cleared the buffer, only later packets fill it. */
  predicate Fresh(m: Machine) {
    && (m.replay.Asleep? && m.rig.keyDown ==> HeardRecently(m))
    && (m.replay == Ready(true) ==> m.s.queue == [] || HeardRecently(m))
    && (m.rx.Received? ==> !m.replay.Asleep? ==> m.tick <= m.s.lastRx)
  }

  lemma {:induction false} FreshRun(m: SafeMachine, evs: seq<Event>)
    requires Fresh(m)
    requires Runnable(m, evs) && PromptRun(m, evs)
    ensures Fresh(Run(m, evs))
    decreases |evs|
  {
    if evs != [] {
      SafeStep(m, evs[0]);
      FreshStep(m, evs[0]);
      FreshRun(Step(m, evs[0]), evs[1..]);
    }
  }

  lemma {:induction false} FreshStep(m: SafeMachine, ev: Event)
    requires Fresh(m)
    requires Enabled(m, ev) && Prompt(m, ev)
    ensures Fresh(Step(m, ev))
  {
    match ev
    case EnqueuePacket =>
      AcceptKeepsAtomics(m.cfg, StartSession(m.s, m.rx.pkt), m.rx.now, m.rx.pkt.edges);
    case FinishTick =>
      FinishedKey(m);
    case _ =>
  }

  // ---- the control lines ----

  /** An open port shows the flags. */
  predicate LinesShowFlags(rig: Rig) {
    rig.port.open ==> rig.port.dtr == rig.keyDown && rig.port.rts == rig.pttOn
  }

  /** At every line change so far, the key line was up only while the PTT line was. */
  predicate KeyOnlyUnderPtt(port: Port) {
    forall i {:trigger port.history[i]} :: 0 <= i < |port.history| && port.history[i].0 ==> port.history[i].1
  }

  predicate LinesSafe(rig: Rig) {
    RigSafe(rig) && LinesShowFlags(rig) && KeyOnlyUnderPtt(rig.port)
  }

  lemma {:induction false} ApplyEdgesLines(cfg: Config, rig: Rig, now: uint64, slots: seq<Slot>)
    requires LinesSafe(rig)
    ensures LinesSafe(ApplyEdges(cfg, rig, now, slots))
  {
    if slots != [] {
      ApplyEdgesLines(cfg, rig, now, slots[..|slots| - 1]);
    }
  }

  /** The port opens in this event while a flag is set that no reset clears. */
  predicate OpensUnderFlags(m: Machine, ev: Event) {
    && ev.BeginTick? && ev.opens
    && !m.rig.port.open && Sub64(ev.now, m.rig.lastIfaceCheck) > IFACE_CHECK_US
    && !m.s.resetRequested && (m.rig.keyDown || m.rig.pttOn)
  }

  lemma {:induction false} FinishedLines(cfg: Config, s: Shared, rig: Rig, now: uint64)
    requires LinesSafe(rig)
    ensures LinesSafe(Finished(cfg, s, rig, now))
  {
    var n := DueCount(s.queue, now);
    var drained := ApplyEdges(cfg, Watchdog(cfg, rig, now), now, s.queue[..n]);
    ApplyEdgesLines(cfg, Watchdog(cfg, rig, now), now, s.queue[..n]);
    assert LinesSafe(PttLead(cfg, s.queue[n..], drained, now));
  }

  lemma {:induction false} BeginTickLines(s: Shared, rig: Rig, now: uint64, opens: bool)
    requires LinesSafe(rig)
    ensures LinesSafe(ResetTaken(s, Reconnected(rig, now, opens)))
       <==> !(opens && !rig.port.open && Sub64(now, rig.lastIfaceCheck) > IFACE_CHECK_US
              && !s.resetRequested && (rig.keyDown || rig.pttOn))
  {
  }

  /** An open port stops showing the flags in exactly one way: by opening late. */
  lemma {:induction false} LinesStep(m: Machine, ev: Event)
    requires LinesSafe(m.rig)
    requires Enabled(m, ev)
    ensures LinesSafe(Step(m, ev).rig) <==> !OpensUnderFlags(m, ev)
  {
    match ev
    case BeginTick(now, opens) => BeginTickLines(m.s, m.rig, now, opens);
    case FinishTick => FinishedLines(m.cfg, m.s, m.rig, m.tick);
    case _ =>
  }

  lemma {:induction false} PortStaysOpen(m: Machine, ev: Event)
    requires m.rig.port.open
    requires Enabled(m, ev)
    ensures Step(m, ev).rig.port.open
  {
    if ev.FinishTick? {
      ApplyEdgesOpen(m.cfg, Watchdog(m.cfg, m.rig, m.tick), m.tick, m.s.queue[..Due(m)]);
    }
  }

  lemma {:induction false} ApplyEdgesOpen(cfg: Config, rig: Rig, now: uint64, slots: seq<Slot>)
    ensures ApplyEdges(cfg, rig, now, slots).port.open == rig.port.open
    ensures ApplyEdges(cfg, rig, now, slots).lastIfaceCheck == rig.lastIfaceCheck
  {
    if slots != [] {
      ApplyEdgesOpen(cfg, rig, now, slots[..|slots| - 1]);
    }
  }

  /** A port that is closed is tried again when a tick begins more than 100 ms after the last try, and not before. */
  predicate TriedAt(rig: Rig, t: uint64) {
    !rig.port.open && rig.lastIfaceCheck == t
  }

  lemma {:induction false} RetriesExactly(m: Machine, t: uint64, now: uint64, opens: bool)
    requires Enabled(m, BeginTick(now, opens)) && TriedAt(m.rig, t) && t <= now
    ensures var rig := Step(m, BeginTick(now, opens)).rig;
      if t + 100000 < now then rig.port.open == opens && rig.lastIfaceCheck == now else TriedAt(rig, t)
  {
  }

  lemma {:induction false} OthersDoNotTry(m: Machine, ev: Event, t: uint64)
    requires Enabled(m, ev) && !ev.BeginTick? && TriedAt(m.rig, t)
    ensures TriedAt(Step(m, ev).rig, t)
  {
    if ev.FinishTick? {
      ApplyEdgesOpen(m.cfg, Watchdog(m.cfg, m.rig, m.tick), m.tick, m.s.queue[..Due(m)]);
    }
  }

  /** So a port that is closed stays closed, and untried, in every run whose ticks begin within 100 ms of the last try. */
  lemma {:induction false} NotRetriedRun(m: Machine, evs: seq<Event>, t: uint64)
    requires Runnable(m, evs) && TriedAt(m.rig, t) && t <= m.clock
    requires forall i :: 0 <= i < |evs| && evs[i].BeginTick? ==> evs[i].now <= t + 100000
    ensures TriedAt(Run(m, evs).rig, t)
    decreases |evs|
  {
    if evs != [] {
      match evs[0] {
        case BeginTick(now, opens) => RetriesExactly(m, t, now, opens);
        case _ => OthersDoNotTry(m, evs[0], t);
      }
      NotRetriedRun(Step(m, evs[0]), evs[1..], t);
    }
  }

  /** With the port open from the start, the lines show the flags in every reachable state, and
      DTR has never been raised without RTS, not even inside a tick. */
  lemma {:induction false} LinesRun(m: Machine, evs: seq<Event>)
    requires LinesSafe(m.rig) && m.rig.port.open
    requires Runnable(m, evs)
    ensures LinesSafe(Run(m, evs).rig) && Run(m, evs).rig.port.open
    decreases |evs|
  {
    if evs != [] {
      LinesStep(m, evs[0]);
      PortStaysOpen(m, evs[0]);
      LinesRun(Step(m, evs[0]), evs[1..]);
    }
  }

  /** The port does not open while a flag is set that no reset clears. */
  predicate NeverOpensUnderFlags(m: Machine, evs: seq<Event>)
    requires Runnable(m, evs)
    decreases |evs|
  {
    evs == [] || (!OpensUnderFlags(m, evs[0]) && NeverOpensUnderFlags(Step(m, evs[0]), evs[1..]))
  }

  /** In every state of the run an open port shows the flags and has never raised the key line alone. */
  predicate LinesSafeThroughout(m: Machine, evs: seq<Event>)
    requires Runnable(m, evs)
    decreases |evs|
  {
    LinesSafe(m.rig) && (evs == [] || LinesSafeThroughout(Step(m, evs[0]), evs[1..]))
  }

  /** Whatever the port does otherwise, that is exactly what breaks the lines. */
  lemma {:induction false} LinesRunExactly(m: Machine, evs: seq<Event>)
    requires LinesSafe(m.rig) && Runnable(m, evs)
    ensures LinesSafeThroughout(m, evs) <==> NeverOpensUnderFlags(m, evs)
    decreases |evs|
  {
    if evs != [] {
      LinesStep(m, evs[0]);
      if !OpensUnderFlags(m, evs[0]) {
        LinesRunExactly(Step(m, evs[0]), evs[1..]);
      }
    }
  }
}
