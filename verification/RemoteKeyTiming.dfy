/** PTT sequencing and punctuality of the replay worker. */
module RemoteKeyTiming {
  import opened FixedWidth
  import opened RemoteKeyProtocol
  import opened RemoteKeyServer
  import opened RemoteKeyMachine
  import opened RemoteKeySafety
  import opened RemoteKeyQueue

  // ---- PTT does not chatter ----

  /** Nothing forces the rig safe in this event, and no new session begins. */
  predicate Calm(m: Machine, ev: Event) {
    && !(ev.BeginTick? && m.s.resetRequested)
    && !(ev.TestSilence? && m.replay.Loaded? && IsSilent(m.cfg, m.s, Sub64(m.tick, m.replay.rxSeen)))
    && !ev.ClearQueue?
    && !StartsNew(m, ev)
  }

  predicate CalmRun(m: Machine, evs: seq<Event>)
    requires Runnable(m, evs)
    decreases |evs|
  {
    evs == [] || (Bounded(evs[0]) && Calm(m, evs[0]) && CalmRun(Step(m, evs[0]), evs[1..]))
  }

  /** Exactly when PTT that a tick raises ahead of a queued key-down survives that same tick. */
  lemma {:induction false} RaiseKeptExactly(cfg: Config, queue: seq<Slot>, rig: Rig, now: uint64)
    requires KeyDownNext(queue) && !rig.pttOn && !rig.keyDown
    requires PttLead(cfg, queue, rig, now).pttOn
    ensures Sequenced(cfg, queue, rig, now).pttOn
       <==> now < rig.pttReleaseAt || queue[0].at < Add64(now, Micros(cfg.pttTailMs))
  {
  }

  /** With a lead longer than the tail, PTT goes on and off again in one tick. */
  lemma {:induction false} LongLeadChatters(rig: Rig)
    requires rig == Rig(Port(true, false, false, []), false, 0, false, 0, 0)
    ensures Sequenced(Config(150, 250, 5000, 200, 100), [Slot(1150000, 1)], rig, 1000000).port
         == Port(true, false, false, [(false, true), (false, false)])
  {
    assert PttLead(Config(150, 250, 5000, 200, 100), [Slot(1150000, 1)], rig, 1000000).pttOn;
  }

  lemma {:induction false} ApplyEdgesKeepsPtt(cfg: Config, rig: Rig, now: uint64, slots: seq<Slot>)
    ensures rig.pttOn ==> ApplyEdges(cfg, rig, now, slots).pttOn
    ensures var release := ApplyEdges(cfg, rig, now, slots).pttReleaseAt;
      release == rig.pttReleaseAt || release == Add64(now, Micros(cfg.pttTailMs))
  {
    if slots != [] {
      ApplyEdgesKeepsPtt(cfg, rig, now, slots[..|slots| - 1]);
    }
  }

  /** An edge lifts the key in this drain: the key was down or goes down in it, and ends up. */
  predicate LiftsKey(rig: Rig, slots: seq<Slot>) {
    && slots != [] && !IsDown(slots[|slots| - 1].state)
    && (rig.keyDown || exists i :: 0 <= i < |slots| && IsDown(slots[i].state))
  }

  lemma {:induction false} LiftStartsTail(cfg: Config, rig: Rig, now: uint64, slots: seq<Slot>)
    requires RigSafe(rig) && LiftsKey(rig, slots)
    ensures var after := ApplyEdges(cfg, rig, now, slots);
      after.pttOn && !after.keyDown && after.pttReleaseAt == Add64(now, Micros(cfg.pttTailMs))
  {
    var front := slots[..|slots| - 1];
    ApplyEdgesSafe(cfg, rig, now, front);
    if front != [] && !IsDown(front[|front| - 1].state) {
      if !rig.keyDown {
        var i :| 0 <= i < |slots| && IsDown(slots[i].state);
        assert front[i] == slots[i];
      }
      LiftStartsTail(cfg, rig, now, front);
    }
  }

  predicate TailRunning(m: Machine, t: nat) {
    && t <= m.tick
    && t + Micros(m.cfg.pttTailMs) <= m.rig.pttReleaseAt
    && (m.tick < t + Micros(m.cfg.pttTailMs) ==> m.rig.pttOn)
  }

  /** A tick in which an edge lifts the key starts the tail. */
  lemma {:induction false} KeyUpStartsTail(m: OrderedMachine)
    requires m.replay.Ready?
    requires LiftsKey(Watchdog(m.cfg, m.rig, m.tick), m.s.queue[..Due(m)])
    ensures TailRunning(Step(m, FinishTick), m.tick)
  {
    LiftStartsTail(m.cfg, Watchdog(m.cfg, m.rig, m.tick), m.tick, m.s.queue[..Due(m)]);
  }

  lemma {:induction false} TailStep(m: OrderedMachine, ev: Event, t: nat)
    requires Enabled(m, ev) && Bounded(ev) && Calm(m, ev)
    requires TailRunning(m, t)
    ensures TailRunning(Step(m, ev), t)
  {
    if ev.FinishTick? {
      ApplyEdgesKeepsPtt(m.cfg, Watchdog(m.cfg, m.rig, m.tick), m.tick, m.s.queue[..Due(m)]);
    }
  }

  /** After an edge-driven key-up at t, PTT stays on until t + tail, unless a reset or a silence
      forces it off. */
  lemma {:induction false} TailHeld(m: OrderedMachine, evs: seq<Event>, t: nat)
    requires Runnable(m, evs) && CalmRun(m, evs)
    requires TailRunning(m, t)
    ensures TailRunning(Run(m, evs), t)
    decreases |evs|
  {
    if evs != [] {
      SafeStep(m, evs[0]);
      OrderedStep(m, evs[0]);
      TailStep(m, evs[0], t);
      TailHeld(Step(m, evs[0]), evs[1..], t);
    }
  }

  /** PTT is on for the d-th edge of the session, a key-down at the front of the queue; or that
      edge has been applied. */
  predicate HeldFor(m: Machine, d: nat) {
    && d < |m.log.entries| && d <= m.log.done
    && (d == m.log.done ==>
          && m.rig.pttOn && IsDown(m.log.entries[d].edge.state)
          && m.log.entries[d].at < m.tick + Micros(m.cfg.pttTailMs))
  }

  lemma {:induction false} LeadStep(m: OrderedMachine, ev: Event, d: nat)
    requires Enabled(m, ev) && Bounded(ev) && Calm(m, ev)
    requires HeldFor(m, d)
    ensures HeldFor(Step(m, ev), d)
  {
    if ev.FinishTick? && d == m.log.done {
      assert m.s.queue[0] == SlotOf(m.log.entries[d]);
      ApplyEdgesKeepsPtt(m.cfg, Watchdog(m.cfg, m.rig, m.tick), m.tick, m.s.queue[..Due(m)]);
    }
  }

  /** PTT raised ahead of a queued key-down stays on until that key-down is applied, unless a reset
      or a silence forces it off. */
  lemma {:induction false} LeadHeld(m: OrderedMachine, evs: seq<Event>, d: nat)
    requires Runnable(m, evs) && CalmRun(m, evs)
    requires HeldFor(m, d)
    ensures HeldFor(Run(m, evs), d)
    decreases |evs|
  {
    if evs != [] {
      SafeStep(m, evs[0]);
      OrderedStep(m, evs[0]);
      LeadStep(m, evs[0], d);
      LeadHeld(Step(m, evs[0]), evs[1..], d);
    }
  }

  /** With a lead shorter than the tail, a tick that finds the next key-down within the lead leaves PTT held for it. */
  lemma {:induction false} RaiseHolds(m: OrderedMachine)
    requires m.replay.Ready? && m.cfg.pttLeadMs < m.cfg.pttTailMs
    requires var rest := m.s.queue[Due(m)..];
      KeyDownNext(rest) && rest[0].at <= m.tick + Micros(m.cfg.pttLeadMs)
    ensures HeldFor(Step(m, FinishTick), m.log.done + Due(m))
  {
    assert m.s.queue[Due(m)] == SlotOf(m.log.entries[m.log.done + Due(m)]);
  }

  /** PTT does not chatter: from the tick that raises it ahead of a key-down on, it is on until that key-down is
      applied, for every lead below the tail. */
  lemma {:induction false} RaisedUntilApplied(m: OrderedMachine, evs: seq<Event>, after: Machine)
    requires m.replay.Ready? && m.cfg.pttLeadMs < m.cfg.pttTailMs && after == Step(m, FinishTick)
    requires KeyDownNext(after.s.queue) && after.s.queue[0].at <= m.tick + Micros(m.cfg.pttLeadMs)
    requires Runnable(after, evs) && CalmRun(after, evs)
    ensures HeldFor(Run(after, evs), after.log.done)
  {
    SafeStep(m, FinishTick);
    OrderedStep(m, FinishTick);
    RaiseHolds(m);
    LeadHeld(after, evs, after.log.done);
  }

  // ---- when PTT is on, exactly ----

  /** The next slot of the queue is a key-down that comes before a certain time. */
  predicate KeyDownBefore(queue: seq<Slot>, t: int) {
    queue != [] && IsDown(queue[0].state) && queue[0].at < t
  }

  lemma {:induction false} DrainPtt(cfg: Config, rig: Rig, now: uint64, slots: seq<Slot>)
    ensures ApplyEdges(cfg, rig, now, slots).pttOn
       <==> rig.pttOn || exists i {:trigger slots[i]} :: 0 <= i < |slots| && IsDown(slots[i].state)
  {
    if slots != [] {
      var front := slots[..|slots| - 1];
      DrainPtt(cfg, rig, now, front);
      assert forall i :: 0 <= i < |front| ==> front[i] == slots[i];
    }
  }

  /** Why a tick raises PTT if it was not on: a key-down that is due, or one within the lead. */
  predicate AsksForPtt(m: Machine) {
    || m.rig.pttOn
    || (exists i {:trigger m.s.queue[i]} :: 0 <= i < Due(m) && IsDown(m.s.queue[i].state))
    || KeyDownBefore(m.s.queue[Due(m)..], m.tick + Micros(m.cfg.pttLeadMs) + 1)
  }

  /** After a tick PTT is on exactly if there was a reason to raise it, and the key is down, the tail not over or a
      key-down due within the tail. */
  lemma {:induction false} PttExactly(m: OrderedMachine)
    requires m.replay.Ready?
    ensures var after := Step(m, FinishTick);
      after.rig.pttOn
      <==> && AsksForPtt(m)
           && (after.rig.keyDown || m.tick < after.rig.pttReleaseAt
               || KeyDownBefore(after.s.queue, m.tick + Micros(m.cfg.pttTailMs)))
  {
    var watched, due := Watchdog(m.cfg, m.rig, m.tick), m.s.queue[..Due(m)];
    DrainPtt(m.cfg, watched, m.tick, due);
    assert forall i :: 0 <= i < Due(m) ==> due[i] == m.s.queue[i];
    ApplyEdgesSafe(m.cfg, watched, m.tick, due);
    var drained := ApplyEdges(m.cfg, watched, m.tick, due);
    SequencedPtt(m.cfg, m.s.queue[Due(m)..], drained, m.tick);
  }

  lemma {:induction false} SequencedPtt(cfg: Config, queue: seq<Slot>, rig: Rig, now: uint64)
    requires now < TIME_LIMIT
    ensures var after := Sequenced(cfg, queue, rig, now);
      && after.keyDown == rig.keyDown && after.pttReleaseAt == rig.pttReleaseAt
      && (after.pttOn <==>
            && (rig.pttOn || KeyDownBefore(queue, now + Micros(cfg.pttLeadMs) + 1))
            && (rig.keyDown || now < rig.pttReleaseAt || KeyDownBefore(queue, now + Micros(cfg.pttTailMs))))
  {
  }

  /** An edge of the drain lifts a key that is down. */
  predicate LiftsAt(down: bool, slots: seq<Slot>, i: int)
    requires 0 <= i < |slots|
  {
    !IsDown(slots[i].state) && if i == 0 then down else IsDown(slots[i - 1].state)
  }

  predicate LiftsSomewhere(down: bool, slots: seq<Slot>) {
    exists i :: 0 <= i < |slots| && LiftsAt(down, slots, i)
  }

  lemma {:induction false} LiftsLater(down: bool, slots: seq<Slot>)
    requires slots != []
    ensures var last := |slots| - 1;
      LiftsSomewhere(down, slots) <==> LiftsSomewhere(down, slots[..last]) || LiftsAt(down, slots, last)
  {
    var front := slots[..|slots| - 1];
    if LiftsSomewhere(down, front) {
      var i :| 0 <= i < |front| && LiftsAt(down, front, i);
      assert LiftsAt(down, slots, i);
    }
    if LiftsSomewhere(down, slots) {
      var i :| 0 <= i < |slots| && LiftsAt(down, slots, i);
      if i < |front| {
        assert LiftsAt(down, front, i);
      }
    }
  }

  lemma {:induction false} DrainRelease(cfg: Config, rig: Rig, now: uint64, slots: seq<Slot>)
    requires RigSafe(rig)
    ensures ApplyEdges(cfg, rig, now, slots).pttReleaseAt
         == if LiftsSomewhere(rig.keyDown, slots) then Add64(now, Micros(cfg.pttTailMs)) else rig.pttReleaseAt
  {
    if slots != [] {
      var front := slots[..|slots| - 1];
      DrainRelease(cfg, rig, now, front);
      ApplyEdgesSafe(cfg, rig, now, front);
      LiftsLater(rig.keyDown, slots);
    }
  }

  /** The tail is started by an edge that lifts the key, and by nothing else. */
  lemma {:induction false} ReleaseExactly(m: OrderedMachine)
    requires m.replay.Ready?
    ensures Step(m, FinishTick).rig.pttReleaseAt
         == if LiftsSomewhere(Watchdog(m.cfg, m.rig, m.tick).keyDown, m.s.queue[..Due(m)])
            then m.tick + Micros(m.cfg.pttTailMs) else m.rig.pttReleaseAt
  {
    var watched := Watchdog(m.cfg, m.rig, m.tick);
    DrainRelease(m.cfg, watched, m.tick, m.s.queue[..Due(m)]);
    SequencedPtt(m.cfg, m.s.queue[Due(m)..], ApplyEdges(m.cfg, watched, m.tick, m.s.queue[..Due(m)]), m.tick);
  }

  /** With the key up and the tail over, and each queued key-down at least the tail away, a tick leaves PTT off. */
  lemma {:induction false} PttDropped(m: OrderedMachine)
    requires m.replay.Ready?
    requires var after := Step(m, FinishTick);
      && !after.rig.keyDown && after.rig.pttReleaseAt <= m.tick
      && forall i {:trigger after.s.queue[i]} :: 0 <= i < |after.s.queue| && IsDown(after.s.queue[i].state) ==>
           m.tick + Micros(m.cfg.pttTailMs) <= after.s.queue[i].at
    ensures !Step(m, FinishTick).rig.pttOn
  {
    PttExactly(m);
  }

  /** When the worker wants to run again: at the latest in 5 ms, for the next slot and for the end of the tail. */
  lemma {:induction false} WakeBounds(m: OrderedMachine)
    requires m.replay.Ready?
    ensures var after := Step(m, FinishTick);
      var waits := after.rig.pttOn && !after.rig.keyDown;
      && after.wake <= m.tick + 5000
      && (after.s.queue != [] ==> after.wake <= after.s.queue[0].at)
      && (waits ==> after.wake <= after.rig.pttReleaseAt)
      && (|| after.wake == m.tick + 5000
          || (after.s.queue != [] && after.wake == after.s.queue[0].at)
          || (waits && after.wake == after.rig.pttReleaseAt))
      && (after.wake <= m.tick <==> waits && after.rig.pttReleaseAt <= m.tick)
  {
    DueIsPrefix(m.s.queue, m.tick);
  }

  /** So it does not sleep at all after a tick that leaves PTT on behind its tail, which it does ahead of a key-down. */
  lemma {:induction false} BusyExactly(m: OrderedMachine)
    requires m.replay.Ready?
    ensures var after := Step(m, FinishTick);
      after.wake <= m.tick
      <==> && AsksForPtt(m) && !after.rig.keyDown && after.rig.pttReleaseAt <= m.tick
           && KeyDownBefore(after.s.queue, m.tick + Micros(m.cfg.pttTailMs))
  {
    WakeBounds(m);
    PttExactly(m);
  }

  // ---- PTT goes off ----

  /** No key-down is being keyed or queued. */
  predicate NothingToKey(m: Machine) {
    !m.rig.keyDown && forall i {:trigger m.s.queue[i]} :: 0 <= i < |m.s.queue| ==> !IsDown(m.s.queue[i].state)
  }

  predicate NothingToKeyRun(m: Machine, evs: seq<Event>)
    requires Runnable(m, evs)
    decreases |evs|
  {
    NothingToKey(m) && (evs == [] || NothingToKeyRun(Step(m, evs[0]), evs[1..]))
  }

  /** PTT that is on has its tail still before it when a tick is over, and is at most late behind it in a tick. */
  predicate Releases(m: Machine, release: uint64, late: nat) {
    && m.rig.pttReleaseAt == release
    && (m.rig.pttOn ==>
          if m.replay.Asleep? then m.tick < release && m.wake <= release else m.tick <= release + late)
  }

  lemma {:induction false} ReleasesStep(m: OrderedMachine, ev: Event, release: uint64, late: nat)
    requires Enabled(m, ev) && Bounded(ev) && WakesWithin(m, ev, late)
    requires NothingToKey(m) && NothingToKey(Step(m, ev)) && Releases(m, release, late)
    ensures Releases(Step(m, ev), release, late)
  {
    if ev.FinishTick? {
      KeepsRelease(m);
      FinishReleases(m, late);
    }
  }

  lemma {:induction false} KeepsRelease(m: OrderedMachine)
    requires m.replay.Ready? && NothingToKey(m)
    ensures Step(m, FinishTick).rig.pttReleaseAt == m.rig.pttReleaseAt
  {
    var due := m.s.queue[..Due(m)];
    assert forall i :: 0 <= i < |due| ==> due[i] == m.s.queue[i];
    ReleaseExactly(m);
  }

  lemma {:induction false} FinishReleases(m: OrderedMachine, late: nat)
    requires m.replay.Ready? && NothingToKey(Step(m, FinishTick))
    ensures var after := Step(m, FinishTick);
      Releases(after, after.rig.pttReleaseAt, late)
  {
    PttExactly(m);
    WakeBounds(m);
  }

  lemma {:induction false} ReleasesRun(m: OrderedMachine, evs: seq<Event>, release: uint64, late: nat)
    requires Runnable(m, evs) && PunctualRun(m, evs, late) && NothingToKeyRun(m, evs) && Releases(m, release, late)
    ensures Releases(Run(m, evs), release, late)
    decreases |evs|
  {
    if evs != [] {
      SafeStep(m, evs[0]);
      OrderedStep(m, evs[0]);
      assert NothingToKeyRun(Step(m, evs[0]), evs[1..]);
      ReleasesStep(m, evs[0], release, late);
      ReleasesRun(Step(m, evs[0]), evs[1..], release, late);
    }
  }

  /** At the end of an over: from a tick on after which no key-down is queued, a punctual worker has PTT on at most until
      late after the tail, and never between ticks that begin behind it. */
  lemma {:induction false} PttReleasedInTime(m: OrderedMachine, evs: seq<Event>, late: nat, after: Machine, last: Machine)
    requires m.replay.Ready? && after == Step(m, FinishTick)
    requires Runnable(after, evs) && PunctualRun(after, evs, late) && NothingToKeyRun(after, evs)
    requires last == Run(after, evs)
    ensures last.rig.pttReleaseAt == after.rig.pttReleaseAt
    ensures last.rig.pttOn ==> last.tick <= after.rig.pttReleaseAt + late
    ensures last.rig.pttOn && last.replay.Asleep? ==> last.tick < after.rig.pttReleaseAt
  {
    SafeStep(m, FinishTick);
    OrderedStep(m, FinishTick);
    assert NothingToKey(after);
    FinishReleases(m, late);
    ReleasesRun(after, evs, after.rig.pttReleaseAt, late);
  }

  // ---- punctuality ----

  /** The replay thread oversleeps by at most late. */
  predicate WakesWithin(m: Machine, ev: Event, late: nat) {
    ev.BeginTick? ==> ev.now <= (if m.tick < m.wake then m.wake else m.tick) + late
  }

  /** Between ticks the worker will wake in time for what it saw queued and within the watchdog
      tick; in a tick, it is late by at most late for those edges and 5 ms more for new ones. */
  predicate OnTime(m: Machine, late: nat) {
    && (m.rx.Received? ==> m.tick <= m.rx.now)
    && m.seen <= |m.log.entries|
    && (m.replay.Asleep? ==>
          && m.wake <= m.tick + WATCHDOG_TICK_US
          && forall i {:trigger m.log.entries[i]} :: m.log.done <= i < |m.log.entries| ==>
               m.tick <= m.log.entries[i].at && (i < m.seen ==> m.wake <= m.log.entries[i].at))
    && (!m.replay.Asleep? ==>
          forall i {:trigger m.log.entries[i]} :: m.log.done <= i < |m.log.entries| ==>
            m.tick <= m.log.entries[i].at + late + (if i < m.seen then 0 else WATCHDOG_TICK_US))
  }

  lemma {:induction false} NewSlotsNotPast(cfg: Config, s: Shared, now: uint64, edges: seq<Edge>)
    ensures forall i :: 0 <= i < |NewEntries(cfg, s, now, edges)| ==> now <= NewEntries(cfg, s, now, edges)[i].at
  {
    if edges != [] {
      NewSlotsNotPast(cfg, s, now, edges[..|edges| - 1]);
    }
  }

  lemma {:induction false} OnTimeFinish(m: OrderedMachine, late: nat)
    requires m.replay.Ready? && OnTime(m, late)
    ensures OnTime(FinishTickStep(m), late)
  {
    var after := FinishTickStep(m);
    DueIsPrefix(m.s.queue, m.tick);
    forall i | after.log.done <= i < |after.log.entries|
      ensures m.tick <= after.log.entries[i].at && after.wake <= after.log.entries[i].at
    {
      var front := after.log.done;
      SlotOrderAt(m.log.entries, m.log.done, front, i);
      assert m.s.queue[Due(m)] == SlotOf(m.log.entries[front]);
      assert after.s.queue[0] == m.s.queue[Due(m)];
    }
  }

  lemma {:induction false} OnTimeStep(m: OrderedMachine, ev: Event, late: nat)
    requires Enabled(m, ev) && Bounded(ev) && Prompt(m, ev) && WakesWithin(m, ev, late)
    requires OnTime(m, late)
    ensures OnTime(Step(m, ev), late)
  {
    match ev
    case EnqueuePacket => NewSlotsNotPast(m.cfg, StartSession(m.s, m.rx.pkt), m.rx.now, m.rx.pkt.edges);
    case FinishTick => OnTimeFinish(m, late);
    case _ =>
  }

  predicate PunctualRun(m: Machine, evs: seq<Event>, late: nat)
    requires Runnable(m, evs)
    decreases |evs|
  {
    evs == []
    || (Bounded(evs[0]) && Prompt(m, evs[0]) && WakesWithin(m, evs[0], late)
        && PunctualRun(Step(m, evs[0]), evs[1..], late))
  }

  lemma {:induction false} OnTimeRun(m: OrderedMachine, evs: seq<Event>, late: nat)
    requires Runnable(m, evs) && PunctualRun(m, evs, late)
    requires OnTime(m, late)
    ensures OnTime(Run(m, evs), late)
    decreases |evs|
  {
    if evs != [] {
      SafeStep(m, evs[0]);
      OrderedStep(m, evs[0]);
      OnTimeStep(m, evs[0], late);
      OnTimeRun(Step(m, evs[0]), evs[1..], late);
    }
  }

  /** If the worker oversleeps by at most late, every edge is applied no earlier than its slot, and
      within late of it if it was queued at the last tick, within 5 ms + late otherwise. */
  lemma {:induction false} AppliedOnTime(m: OrderedMachine, evs: seq<Event>, late: nat, i: nat)
    requires Runnable(m, evs) && PunctualRun(m, evs, late)
    requires OnTime(m, late)
    requires var before := Run(m, evs);
      before.replay.Ready? && before.log.done <= i < before.log.done + Due(before)
    ensures var before := Run(m, evs);
      before.log.entries[i].at <= before.tick
                               <= before.log.entries[i].at + late + (if i < before.seen then 0 else WATCHDOG_TICK_US)
  {
    OnTimeRun(m, evs, late);
    var before := Run(m, evs);
    DueIsPrefix(before.s.queue, before.tick);
    assert before.s.queue[i - before.log.done] == SlotOf(before.log.entries[i]);
  }

  lemma {:induction false} NextTickWithin(m: OrderedMachine, ev: Event, late: nat)
    requires Enabled(m, ev) && WakesWithin(m, ev, late) && OnTime(m, late)
    requires ev.BeginTick?
    ensures Step(m, ev).tick <= m.tick + WATCHDOG_TICK_US + late
  {
  }

  // ---- PTT leads the key ----

  /** The d-th edge of the session is a key-down at the front of the queue. */
  predicate AtFront(m: Machine, d: nat) {
    d == m.log.done < |m.log.entries| && IsDown(m.log.entries[d].edge.state)
  }

  /** PTT is on for the d-th edge at every moment of the run. */
  predicate HeldThroughout(m: Machine, evs: seq<Event>, d: nat)
    requires Runnable(m, evs)
    decreases |evs|
  {
    HeldFor(m, d) && (evs == [] || HeldThroughout(Step(m, evs[0]), evs[1..], d))
  }

  /** From some moment of the run, more than margin ahead of its slot, PTT is on for the d-th edge until the run ends. */
  predicate Led(m: Machine, evs: seq<Event>, d: nat, margin: int)
    requires Runnable(m, evs)
    decreases |evs|
  {
    (AtFront(m, d) && m.log.entries[d].at - m.tick > margin && HeldThroughout(m, evs, d))
    || (evs != [] && Led(Step(m, evs[0]), evs[1..], d, margin))
  }

  /** PTT was not raised for the d-th edge yet: its slot is still far, by the lead between ticks and less in a tick. */
  predicate LeadAhead(m: Machine, d: nat, margin: nat) {
    AtFront(m, d)
    && m.log.entries[d].at - m.tick > if m.replay.Asleep? then Micros(m.cfg.pttLeadMs) else margin
  }

  /** What is left of the lead if a tick comes 5 ms and late after the one before; the tail is longer than the lead. */
  predicate LeadLeaves(cfg: Config, late: nat, margin: nat) {
    Micros(cfg.pttLeadMs) == WATCHDOG_TICK_US + late + margin && cfg.pttLeadMs < cfg.pttTailMs
  }

  lemma {:induction false} LeadHeldThroughout(m: OrderedMachine, evs: seq<Event>, d: nat)
    requires Runnable(m, evs) && CalmRun(m, evs)
    requires HeldFor(m, d)
    ensures HeldThroughout(m, evs, d)
    decreases |evs|
  {
    if evs != [] {
      SafeStep(m, evs[0]);
      OrderedStep(m, evs[0]);
      LeadStep(m, evs[0], d);
      LeadHeldThroughout(Step(m, evs[0]), evs[1..], d);
    }
  }

  /** The tick that finds the slot within the lead raises PTT, and a longer tail keeps it. */
  lemma {:induction false} RaisesForFront(m: OrderedMachine, d: nat, late: nat, margin: nat)
    requires m.replay.Ready? && LeadAhead(m, d, margin)
    requires LeadLeaves(m.cfg, late, margin)
    ensures var after := Step(m, FinishTick);
      LeadAhead(after, d, margin)
      || (HeldFor(after, d) && AtFront(after, d)
          && after.log.entries[d].at - after.tick > margin)
  {
    assert m.s.queue[0] == SlotOf(m.log.entries[d]);
    assert Due(m) == 0 && m.s.queue[..0] == [] && m.s.queue[0..] == m.s.queue;
  }

  lemma {:induction false} LeadAheadStep(m: OrderedMachine, ev: Event, d: nat, late: nat, margin: nat)
    requires Enabled(m, ev) && Bounded(ev) && Calm(m, ev) && WakesWithin(m, ev, late) && OnTime(m, late)
    requires !ev.FinishTick? && LeadAhead(m, d, margin) && LeadLeaves(m.cfg, late, margin)
    ensures LeadAhead(Step(m, ev), d, margin)
  {
    if ev.BeginTick? {
      NextTickWithin(m, ev, late);
    }
  }

  lemma {:induction false} LeadAheadNext(m: OrderedMachine, ev: Event, d: nat, late: nat, margin: nat) returns (after: OrderedMachine)
    requires Enabled(m, ev) && Bounded(ev) && Prompt(m, ev) && WakesWithin(m, ev, late) && Calm(m, ev)
    requires OnTime(m, late) && LeadAhead(m, d, margin)
    requires LeadLeaves(m.cfg, late, margin)
    ensures after == Step(m, ev) && OnTime(after, late) && after.cfg == m.cfg
    ensures LeadAhead(after, d, margin)
      || (HeldFor(after, d) && AtFront(after, d)
          && after.log.entries[d].at - after.tick > margin)
  {
    SafeStep(m, ev);
    OrderedStep(m, ev);
    OnTimeStep(m, ev, late);
    if ev.FinishTick? {
      RaisesForFront(m, d, late, margin);
    } else {
      LeadAheadStep(m, ev, d, late, margin);
    }
    after := Step(m, ev);
  }

  lemma {:induction false} LedLater(m: Machine, evs: seq<Event>, d: nat, margin: int)
    requires evs != [] && Runnable(m, evs)
    requires Led(Step(m, evs[0]), evs[1..], d, margin)
    ensures Led(m, evs, d, margin)
  {
  }

  lemma {:induction false} LedFromHere(m: OrderedMachine, evs: seq<Event>, d: nat, margin: int)
    requires Runnable(m, evs) && CalmRun(m, evs)
    requires HeldFor(m, d) && AtFront(m, d) && m.log.entries[d].at - m.tick > margin
    ensures Led(m, evs, d, margin)
  {
    LeadHeldThroughout(m, evs, d);
  }

  /** A run in which the worker is punctual, nothing forces the rig safe, and the d-th edge is played. */
  predicate LeadRun(m: Machine, evs: seq<Event>, d: nat, late: nat) {
    Runnable(m, evs) && PunctualRun(m, evs, late) && CalmRun(m, evs) && d < Run(m, evs).log.done
  }

  lemma {:induction false} LeadRunTail(m: Machine, evs: seq<Event>, d: nat, late: nat)
    requires LeadRun(m, evs, d, late) && AtFront(m, d)
    ensures evs != [] && Enabled(m, evs[0]) && LeadRun(Step(m, evs[0]), evs[1..], d, late)
    ensures Bounded(evs[0]) && Prompt(m, evs[0]) && WakesWithin(m, evs[0], late) && Calm(m, evs[0])
  {
  }

  /**
   * PTT leads the key: a key-down that comes to the front more than the lead ahead is applied only after PTT has
   * been on for it from a moment more than lead - 5 ms - late ahead of its slot.
   */
  lemma {:induction false} LeadTime(m: OrderedMachine, evs: seq<Event>, d: nat, late: nat, margin: nat)
    requires LeadRun(m, evs, d, late)
    requires OnTime(m, late) && LeadAhead(m, d, margin)
    requires LeadLeaves(m.cfg, late, margin)
    ensures Led(m, evs, d, margin)
    decreases |evs|
  {
    LeadRunTail(m, evs, d, late);
    var after := LeadAheadNext(m, evs[0], d, late, margin);
    if LeadAhead(after, d, margin) {
      LeadTime(after, evs[1..], d, late, margin);
    } else {
      LedFromHere(after, evs[1..], d, margin);
    }
    LedLater(m, evs, d, margin);
  }
}
