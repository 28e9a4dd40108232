/** End to end: what the rig's key does, against what the operator's key did. */
module RemoteKeyReplay {
  import opened FixedWidth
  import opened Wrappers
  import opened RemoteKeyProtocol
  import opened RemoteKeyServer
  import opened RemoteKeyMachine
  import opened RemoteKeySafety
  import opened RemoteKeyQueue
  import opened RemoteKeyPrefix

  // ---- the operator ----

  /** How many of the operator's edges had happened by source time t. */
  function EdgesBy(h: seq<Edge>, t: int): (n: nat)
    ensures n <= |h|
  {
    if h == [] then 0
    else if h[|h| - 1].ts <= t then |h|
    else EdgesBy(h[..|h| - 1], t)
  }

  /** The operator's key just after the first n edges. */
  predicate DownAfter(h: seq<Edge>, n: nat)
    requires n <= |h|
  {
    n > 0 && IsDown(h[n - 1].state)
  }

  /** The operator's key at source time t. */
  predicate KeyAt(h: seq<Edge>, t: int) {
    DownAfter(h, EdgesBy(h, t))
  }

  /** The edge at which the key-down that the first n edges end in began. */
  function DownSince(h: seq<Edge>, n: nat): (j: nat)
    requires n <= |h| && DownAfter(h, n)
    ensures j < n
  {
    if DownAfter(h, n - 1) then DownSince(h, n - 1) else n - 1
  }

  /** At source time t the key has not been down for more than limit. */
  predicate HeldAtMost(h: seq<Edge>, t: int, limit: nat) {
    KeyAt(h, t) ==> t - h[DownSince(h, EdgesBy(h, t))].ts <= limit
  }

  predicate OperatorHistory(h: seq<Edge>) {
    History(h) && EdgesBounded(h)
  }

  lemma {:induction false} EdgesByCounts(h: seq<Edge>, t: int, n: nat)
    requires Increasing(h) && n <= |h|
    requires n > 0 ==> h[n - 1].ts <= t
    requires n < |h| ==> t < h[n].ts
    ensures EdgesBy(h, t) == n
  {
    if n < |h| {
      HistoryAt(h, n, |h| - 1);
      var front := h[..|h| - 1];
      forall i: nat | i + 1 < |front|
        ensures EdgeBefore(front, i)
      {
        assert EdgeBefore(h, i);
      }
      EdgesByCounts(front, t, n);
    }
  }

  // ---- the run ----

  function Offset(s: Shared): int {
    s.anchorLocal - s.anchorSrc
  }

  /** What the link and the threads must do for event ev, in state m, of a session run:
      - only packets of the session arrive, each a window of the history, without a reset flag;
      - a window reaches back to what was already accepted, and its new edges come before their
        slots (by the arrival time of the packet);
      - no silence;
      - when a tick drains, every edge whose slot has come has been accepted, the session's reset
        has been taken if anything is due, and the operator is not holding the key beyond the
        watchdog limit. */
  ghost predicate Delivers(h: seq<Edge>, sid: uint16, m: Machine, ev: Event)
    requires Enabled(m, ev)
  {
    match ev
    case Datagram(now, bytes) =>
      Bounded(ev)
      && (Decoded(bytes).Some? ==>
            var pkt := Decoded(bytes).value;
            pkt.sessionId == sid && !IsReset(pkt.flags) && exists from: nat :: CarriesWindow(h, pkt.edges, from))
    case EnqueuePacket =>
      var k := if InSession(m, sid) then |m.log.entries| else 0;
      exists from: nat ::
        && CarriesWindow(h, m.rx.pkt.edges, from)
        && from <= k
        && (0 < k < from + |m.rx.pkt.edges| ==> m.rx.now <= h[k].ts + Offset(m.s))
    case BeginTick(now, _) => Bounded(ev)
    case TestSilence => !IsSilent(m.cfg, m.s, Sub64(m.tick, m.replay.rxSeen))
    case FinishTick =>
      InSession(m, sid) && m.log.entries != [] ==>
        && (|m.log.entries| < |h| ==> m.tick < h[|m.log.entries|].ts + Offset(m.s))
        && (m.s.resetRequested ==> Due(m) == 0)
        && HeldAtMost(h, m.tick - Offset(m.s), Micros(m.cfg.maxKeyDownMs))
    case _ => true
  }

  ghost predicate DeliveredRun(h: seq<Edge>, sid: uint16, m: Machine, evs: seq<Event>)
    requires Runnable(m, evs)
    decreases |evs|
  {
    evs == [] || (Delivers(h, sid, m, evs[0]) && DeliveredRun(h, sid, Step(m, evs[0]), evs[1..]))
  }

  predicate OnExactSlot(s: Shared, e: Edge, entry: Entry) {
    entry.edge == e && entry.at == e.ts + Offset(s)
  }

  /** The accepted edges are a prefix of the history, each on its exact slot. */
  predicate Tracks(h: seq<Edge>, s: Shared, entries: seq<Entry>) {
    && Prefix(h, s, entries)
    && (entries != [] ==> s.haveAnchor && s.anchorSrc == h[0].ts)
    && forall i {:trigger entries[i]} :: 0 <= i < |entries| ==> OnExactSlot(s, h[i], entries[i])
  }

  /** The key flag is the operator's key after the edges that left the queue. */
  predicate KeyFollows(h: seq<Edge>, m: Machine)
    requires |m.log.entries| <= |h|
  {
    && m.rig.keyDown == DownAfter(h, m.log.done)
    && (m.rig.keyDown ==> h[DownSince(h, m.log.done)].ts + Offset(m.s) <= m.rig.keyDownSince)
  }

  ghost predicate Follows(h: seq<Edge>, sid: uint16, m: Machine) {
    && !m.replay.Clearing? && m.replay != Ready(true)
    && (m.rx.Received? ==> m.rx.pkt.sessionId == sid && !IsReset(m.rx.pkt.flags))
    && (InSession(m, sid) ==>
          && Tracks(h, m.s, m.log.entries)
          && (m.log.done > 0 ==> m.log.entries[m.log.done - 1].at <= m.tick)
          && (if m.s.resetRequested then m.log.done == 0 else KeyFollows(h, m)))
  }

  // ---- receiving ----

  /** The next edge of the history is accepted, on its exact slot. */
  lemma {:induction false} AcceptTracks(cfg: Config, h: seq<Edge>, s: Shared, entries: seq<Entry>, now: uint64)
    requires OperatorHistory(h) && SessionFits(cfg, s) && now < TIME_LIMIT
    requires Tracks(h, s, entries) && |entries| < |h|
    requires entries != [] ==> now <= h[|entries|].ts + Offset(s)
    ensures var e := h[|entries|];
      && NewEntry(cfg, s, now, e) != []
      && Tracks(h, AcceptEdge(cfg, s, now, e), entries + NewEntry(cfg, s, now, e))
      && SessionFits(cfg, AcceptEdge(cfg, s, now, e))
  {
    var e := h[|entries|];
    if entries != [] {
      HistoryAt(h, 0, |entries|);
      HistoryAt(h, |entries| - 1, |entries|);
    }
    SlotIsExact(cfg, s, now, e);
  }

  /** mid and grown are s and entries after part of a packet that arrived at now. */
  predicate PartAccepted(cfg: Config, h: seq<Edge>, s: Shared, entries: seq<Entry>, now: uint64, mid: Shared,
                         grown: seq<Entry>)
  {
    && Tracks(h, mid, grown) && SessionFits(cfg, mid)
    && entries <= grown
    && (|entries| < |grown| ==> now <= h[|grown| - 1].ts + Offset(mid))
    && (entries != [] ==> Offset(mid) == Offset(s))
  }

  /** One more edge of the packet: one already accepted, or the next of the history. */
  lemma {:induction false} WindowEdge(cfg: Config, h: seq<Edge>, s: Shared, entries: seq<Entry>, now: uint64, mid: Shared,
                   grown: seq<Entry>, x: nat)
    requires OperatorHistory(h) && now < TIME_LIMIT
    requires PartAccepted(cfg, h, s, entries, now, mid, grown)
    requires x < |h| && x <= |grown|
    requires 0 < |entries| <= x ==> now <= h[|entries|].ts + Offset(s)
    ensures var after := grown + NewEntry(cfg, mid, now, h[x]);
      PartAccepted(cfg, h, s, entries, now, AcceptEdge(cfg, mid, now, h[x]), after) && |after| == Max(|grown|, x + 1)
  {
    if x < |grown| {
      HistoryAt(h, x, |grown| - 1);
      assert grown + [] == grown;
    } else {
      if grown != [] {
        HistoryAt(h, |grown| - 1, |grown|);
      }
      AcceptTracks(cfg, h, mid, grown, now);
    }
  }

  /** What holds when the window from..from + |edges| has been taken in. */
  ghost predicate Taken(cfg: Config, h: seq<Edge>, s: Shared, entries: seq<Entry>, now: uint64, edges: seq<Edge>, from: nat) {
    var grown := entries + NewEntries(cfg, s, now, edges);
    PartAccepted(cfg, h, s, entries, now, AcceptEdges(cfg, s, now, edges), grown)
    && |grown| == Max(|entries|, from + |edges|)
  }

  lemma {:induction false} TakenLast(cfg: Config, h: seq<Edge>, s: Shared, entries: seq<Entry>, now: uint64,
                                     edges: seq<Edge>, from: nat)
    requires OperatorHistory(h) && now < TIME_LIMIT
    requires edges != [] && from + |edges| <= |h| && edges[|edges| - 1] == h[from + |edges| - 1]
    requires 0 < |entries| < from + |edges| ==> now <= h[|entries|].ts + Offset(s)
    requires Taken(cfg, h, s, entries, now, edges[..|edges| - 1], from)
    ensures Taken(cfg, h, s, entries, now, edges, from)
  {
    var front := edges[..|edges| - 1];
    var mid, grown := AcceptEdges(cfg, s, now, front), entries + NewEntries(cfg, s, now, front);
    var x := from + |edges| - 1;
    assert |front| == |edges| - 1 && edges[|edges| - 1] == h[x];
    WindowEdge(cfg, h, s, entries, now, mid, grown, x);
    SplitLast(cfg, s, entries, now, edges);
  }

  /** The in-time case of WindowExtends: the new edges lie on their exact slots, too. */
  lemma {:induction false} AcceptWindow(cfg: Config, h: seq<Edge>, s: Shared, entries: seq<Entry>, now: uint64,
                                        edges: seq<Edge>, from: nat)
    requires OperatorHistory(h) && SessionFits(cfg, s) && now < TIME_LIMIT
    requires Tracks(h, s, entries)
    requires CarriesWindow(h, edges, from) && from <= |entries|
    requires 0 < |entries| < from + |edges| ==> now <= h[|entries|].ts + Offset(s)
    ensures Taken(cfg, h, s, entries, now, edges, from)
  {
    if edges == [] {
      assert entries + [] == entries;
    } else {
      AcceptWindow(cfg, h, s, entries, now, edges[..|edges| - 1], from);
      TakenLast(cfg, h, s, entries, now, edges, from);
    }
  }

  lemma {:induction false} FollowsGrown(h: seq<Edge>, sid: uint16, m: Machine, after: Machine, now: uint64,
                                       mid: Shared, grown: seq<Entry>)
    requires Follows(h, sid, m) && InSession(m, sid)
    requires PartAccepted(m.cfg, h, m.s, m.log.entries, now, mid, grown)
    requires mid.haveSession == m.s.haveSession && mid.sessionId == m.s.sessionId
    requires mid.resetRequested == m.s.resetRequested
    requires after.s == mid && after.log.entries == grown && after.log.done == m.log.done
    requires after.rx.Waiting? && after.replay == m.replay && after.rig == m.rig && after.tick == m.tick
    ensures Follows(h, sid, after)
  {
  }

  lemma {:induction false} FollowsEnqueueOld(h: seq<Edge>, sid: uint16, m: OrderedMachine, from: nat)
    requires OperatorHistory(h) && Follows(h, sid, m) && Enabled(m, EnqueuePacket) && InSession(m, sid)
    requires CarriesWindow(h, m.rx.pkt.edges, from) && from <= |m.log.entries|
    requires 0 < |m.log.entries| < from + |m.rx.pkt.edges| ==> m.rx.now <= h[|m.log.entries|].ts + Offset(m.s)
    ensures Follows(h, sid, Step(m, EnqueuePacket))
  {
    assert !StartsSession(m.s, m.rx.pkt);
    var edges := m.rx.pkt.edges;
    AcceptWindow(m.cfg, h, m.s, m.log.entries, m.rx.now, edges, from);
    AcceptKeepsAtomics(m.cfg, m.s, m.rx.now, edges);
    var mid, grown := AcceptEdges(m.cfg, m.s, m.rx.now, edges), m.log.entries + NewEntries(m.cfg, m.s, m.rx.now, edges);
    FollowsGrown(h, sid, m, Step(m, EnqueuePacket), m.rx.now, mid, grown);
  }

  lemma {:induction false} FollowsEnqueueNew(h: seq<Edge>, sid: uint16, m: OrderedMachine)
    requires OperatorHistory(h) && Follows(h, sid, m) && Enabled(m, EnqueuePacket) && !InSession(m, sid)
    requires CarriesWindow(h, m.rx.pkt.edges, 0)
    ensures Follows(h, sid, Step(m, EnqueuePacket))
  {
    assert StartsSession(m.s, m.rx.pkt);
    var start := StartSession(m.s, m.rx.pkt);
    AcceptWindow(m.cfg, h, start, [], m.rx.now, m.rx.pkt.edges, 0);
    AcceptKeepsAtomics(m.cfg, start, m.rx.now, m.rx.pkt.edges);
  }

  lemma {:induction false} FollowsEnqueue(h: seq<Edge>, sid: uint16, m: OrderedMachine)
    requires OperatorHistory(h) && Follows(h, sid, m)
    requires Enabled(m, EnqueuePacket) && Delivers(h, sid, m, EnqueuePacket)
    ensures Follows(h, sid, Step(m, EnqueuePacket))
  {
    var k := if InSession(m, sid) then |m.log.entries| else 0;
    var from: nat :| CarriesWindow(h, m.rx.pkt.edges, from) && from <= k
                     && (0 < k < from + |m.rx.pkt.edges| ==> m.rx.now <= h[k].ts + Offset(m.s));
    if InSession(m, sid) {
      FollowsEnqueueOld(h, sid, m, from);
    } else {
      FollowsEnqueueNew(h, sid, m);
    }
  }

  // ---- ticks ----

  lemma {:induction false} ApplyEdgesHold(cfg: Config, rig: Rig, now: uint64, slots: seq<Slot>)
    ensures var after := ApplyEdges(cfg, rig, now, slots);
      after.keyDown ==>
        || after.keyDownSince == now
        || (rig.keyDown && after.keyDownSince == rig.keyDownSince
            && forall i :: 0 <= i < |slots| ==> IsDown(slots[i].state))
  {
    if slots != [] {
      ApplyEdgesHold(cfg, rig, now, slots[..|slots| - 1]);
    }
  }

  lemma {:induction false} DownSinceExtends(h: seq<Edge>, a: nat, b: nat)
    requires a <= b <= |h| && DownAfter(h, a)
    requires forall i :: a <= i < b ==> IsDown(h[i].state)
    ensures DownAfter(h, b) && DownSince(h, b) == DownSince(h, a)
  {
    if a < b {
      DownSinceExtends(h, a, b - 1);
    }
  }

  /** What has left the queue when a tick is over is what the operator had done by the matching
      source time. */
  lemma {:induction false} PlayedIsDue(h: seq<Edge>, m: OrderedMachine)
    requires OperatorHistory(h) && Tracks(h, m.s, m.log.entries)
    requires m.log.done > 0 ==> m.log.entries[m.log.done - 1].at <= m.tick
    requires |m.log.entries| < |h| ==> m.tick < h[|m.log.entries|].ts + Offset(m.s)
    ensures EdgesBy(h, m.tick - Offset(m.s)) == m.log.done + Due(m)
  {
    DueIsPrefix(m.s.queue, m.tick);
    var n := m.log.done + Due(m);
    if Due(m) > 0 {
      assert m.s.queue[Due(m) - 1] == SlotOf(m.log.entries[n - 1]);
    }
    if n < |m.log.entries| {
      assert m.s.queue[Due(m)] == SlotOf(m.log.entries[n]);
    }
    EdgesByCounts(h, m.tick - Offset(m.s), n);
  }

  /** The watchdog does not fire while the operator respects its limit. */
  lemma {:induction false} WatchdogQuiet(h: seq<Edge>, m: OrderedMachine)
    requires OperatorHistory(h) && Tracks(h, m.s, m.log.entries)
    requires KeyFollows(h, m) && Due(m) == 0
    requires EdgesBy(h, m.tick - Offset(m.s)) == m.log.done
    requires HeldAtMost(h, m.tick - Offset(m.s), Micros(m.cfg.maxKeyDownMs))
    ensures Watchdog(m.cfg, m.rig, m.tick) == m.rig
  {
  }

  lemma {:induction false} KeyAfterTick(h: seq<Edge>, m: OrderedMachine)
    requires OperatorHistory(h) && Tracks(h, m.s, m.log.entries)
    requires KeyFollows(h, m)
    requires EdgesBy(h, m.tick - Offset(m.s)) == m.log.done + Due(m)
    requires m.log.entries != [] ==> HeldAtMost(h, m.tick - Offset(m.s), Micros(m.cfg.maxKeyDownMs))
    ensures KeyFollows(h, FinishTickStep(m))
  {
    FinishedKey(m);
    if Due(m) == 0 {
      if m.log.entries != [] {
        WatchdogQuiet(h, m);
      }
    } else {
      var done := m.log.done + Due(m);
      assert m.s.queue[Due(m) - 1] == SlotOf(m.log.entries[done - 1]);
      if DownAfter(h, done) {
        HeldSince(h, m);
      }
    }
  }

  lemma {:induction false} AllDown(h: seq<Edge>, m: OrderedMachine, n: nat)
    requires Tracks(h, m.s, m.log.entries) && n <= |m.s.queue|
    requires forall i :: 0 <= i < n ==> IsDown(m.s.queue[..n][i].state)
    ensures forall i :: m.log.done <= i < m.log.done + n ==> IsDown(h[i].state)
  {
    forall i | m.log.done <= i < m.log.done + n
      ensures IsDown(h[i].state)
    {
      assert m.s.queue[..n][i - m.log.done] == m.s.queue[i - m.log.done] == SlotOf(m.log.entries[i]);
    }
  }

  /** A key that is down after a tick went down no earlier than its stretch began. */
  lemma {:induction false} HeldSince(h: seq<Edge>, m: OrderedMachine)
    requires OperatorHistory(h) && Tracks(h, m.s, m.log.entries)
    requires KeyFollows(h, m)
    requires Due(m) > 0 && DownAfter(h, m.log.done + Due(m))
    ensures var after := FinishTickStep(m);
      after.rig.keyDown ==> h[DownSince(h, after.log.done)].ts + Offset(m.s) <= after.rig.keyDownSince
  {
    var n := Due(m);
    var done := m.log.done + n;
    DueIsPrefix(m.s.queue, m.tick);
    ApplyEdgesHold(m.cfg, Watchdog(m.cfg, m.rig, m.tick), m.tick, m.s.queue[..n]);
    assert m.s.queue[n - 1] == SlotOf(m.log.entries[done - 1]);
    HistoryAt(h, DownSince(h, done), done - 1);
    var after := FinishTickStep(m);
    if after.rig.keyDown && after.rig.keyDownSince != m.tick {
      AllDown(h, m, n);
      DownSinceExtends(h, m.log.done, done);
    }
  }

  /** The rig's key is what the operator's was at the matching source time. */
  ghost predicate ShowsKey(h: seq<Edge>, sid: uint16, m: Machine) {
    InSession(m, sid) && m.log.entries != [] && !m.s.resetRequested ==>
      m.rig.keyDown == KeyAt(h, m.tick - Offset(m.s))
  }

  lemma {:induction false} FinishFollowsKey(h: seq<Edge>, sid: uint16, m: OrderedMachine)
    requires OperatorHistory(h) && Follows(h, sid, m) && Enabled(m, FinishTick) && Delivers(h, sid, m, FinishTick)
    requires InSession(m, sid) && m.log.entries != [] && !m.s.resetRequested
    ensures KeyFollows(h, Step(m, FinishTick)) && ShowsKey(h, sid, Step(m, FinishTick))
  {
    PlayedIsDue(h, m);
    KeyAfterTick(h, m);
  }

  lemma {:induction false} FollowsFinish(h: seq<Edge>, sid: uint16, m: OrderedMachine)
    requires OperatorHistory(h) && Follows(h, sid, m)
    requires Enabled(m, FinishTick) && Delivers(h, sid, m, FinishTick)
    ensures Follows(h, sid, Step(m, FinishTick)) && ShowsKey(h, sid, Step(m, FinishTick))
  {
    DueIsPrefix(m.s.queue, m.tick);
    if InSession(m, sid) {
      if Due(m) > 0 {
        assert m.s.queue[Due(m) - 1] == SlotOf(m.log.entries[m.log.done + Due(m) - 1]);
      }
      if !m.s.resetRequested {
        if m.log.entries == [] {
          FinishedKey(m);
        } else {
          FinishFollowsKey(h, sid, m);
        }
      }
    }
  }

  lemma {:induction false} FollowsStep(h: seq<Edge>, sid: uint16, m: OrderedMachine, ev: Event)
    requires OperatorHistory(h) && Follows(h, sid, m)
    requires Enabled(m, ev) && Delivers(h, sid, m, ev)
    ensures Follows(h, sid, Step(m, ev))
  {
    match ev
    case EnqueuePacket => FollowsEnqueue(h, sid, m);
    case FinishTick => FollowsFinish(h, sid, m);
    case _ =>
  }

  /** A run that delivers is one whose windows overlap, so what AcceptsPrefix says holds of it. */
  lemma {:induction false} DeliveredOverlaps(h: seq<Edge>, sid: uint16, m: OrderedMachine, evs: seq<Event>)
    requires OperatorHistory(h) && Follows(h, sid, m) && Runnable(m, evs) && DeliveredRun(h, sid, m, evs)
    ensures OverlapRun(h, sid, m, evs)
    decreases |evs|
  {
    if evs != [] {
      SafeStep(m, evs[0]);
      assert Bounded(evs[0]);
      OrderedStep(m, evs[0]);
      FollowsStep(h, sid, m, evs[0]);
      DeliveredOverlaps(h, sid, Step(m, evs[0]), evs[1..]);
    }
  }

  /** The in-time case of AcceptsPrefix: the accepted edges are a prefix of the operator's, each on its exact slot. */
  lemma {:induction false} AcceptsOnExactSlots(h: seq<Edge>, sid: uint16, m: OrderedMachine, evs: seq<Event>)
    requires OperatorHistory(h) && Follows(h, sid, m) && Runnable(m, evs) && DeliveredRun(h, sid, m, evs)
    ensures var last := Run(m, evs);
      InSession(last, sid) ==>
        |last.log.entries| <= |h|
        && forall i :: 0 <= i < |last.log.entries| ==> OnExactSlot(last.s, h[i], last.log.entries[i])
    decreases |evs|
  {
    if evs != [] {
      SafeStep(m, evs[0]);
      assert Bounded(evs[0]);
      OrderedStep(m, evs[0]);
      FollowsStep(h, sid, m, evs[0]);
      AcceptsOnExactSlots(h, sid, Step(m, evs[0]), evs[1..]);
    }
  }

  /** A run that the link delivers, ending with a tick. */
  ghost predicate SessionRun(h: seq<Edge>, sid: uint16, m: OrderedMachine, evs: seq<Event>) {
    && OperatorHistory(h)
    && Follows(h, sid, m)
    && evs != [] && evs[|evs| - 1] == FinishTick
    && Runnable(m, evs) && DeliveredRun(h, sid, m, evs)
  }

  lemma {:induction false} SessionRunStep(h: seq<Edge>, sid: uint16, m: OrderedMachine, evs: seq<Event>)
      returns (after: OrderedMachine)
    requires SessionRun(h, sid, m, evs) && |evs| > 1
    ensures Step(m, evs[0]) == after && SessionRun(h, sid, after, evs[1..])
  {
    SafeStep(m, evs[0]);
    assert Bounded(evs[0]);
    OrderedStep(m, evs[0]);
    FollowsStep(h, sid, m, evs[0]);
    after := Step(m, evs[0]);
  }

  /** End to end. Packets are lost, duplicated, reordered and delayed, ticks come when they come;
      if every edge reaches the server before its slot and every window reaches back to what was
      accepted, then after a tick at local time t the rig's key is the operator's key at source time
      t - (anchor_local - anchor_src). */
  lemma {:induction false} EndToEnd(h: seq<Edge>, sid: uint16, m: OrderedMachine, evs: seq<Event>)
    requires SessionRun(h, sid, m, evs)
    ensures ShowsKey(h, sid, Run(m, evs))
    decreases |evs|
  {
    if |evs| == 1 {
      FollowsFinish(h, sid, m);
    } else {
      var after := SessionRunStep(h, sid, m, evs);
      EndToEnd(h, sid, after, evs[1..]);
    }
  }

  /** A server between ticks that has not met the session starts such a run. */
  lemma {:induction false} SessionStarts(h: seq<Edge>, sid: uint16, m: OrderedMachine)
    requires m.rx.Waiting? && m.replay.Asleep? && !InSession(m, sid)
    ensures Follows(h, sid, m)
  {
  }

  /** Such a run to last, in which the session has edges and its reset has been taken. */
  ghost predicate SessionRunTo(h: seq<Edge>, sid: uint16, m: OrderedMachine, evs: seq<Event>, last: Machine) {
    && SessionRun(h, sid, m, evs) && last == Run(m, evs)
    && InSession(last, sid) && last.log.entries != [] && !last.s.resetRequested
  }

  lemma {:induction false} ShownKey(h: seq<Edge>, sid: uint16, last: Machine)
    requires ShowsKey(h, sid, last) && InSession(last, sid) && last.log.entries != [] && !last.s.resetRequested
    ensures last.rig.keyDown == KeyAt(h, last.tick - Offset(last.s))
  {
  }

  lemma {:induction false} ShowsSource(h: seq<Edge>, sid: uint16, m: OrderedMachine, evs: seq<Event>, last: Machine)
    requires SessionRunTo(h, sid, m, evs, last)
    ensures last.rig.keyDown == KeyAt(h, last.tick - Offset(last.s))
  {
    EndToEnd(h, sid, m, evs);
    ShownKey(h, sid, last);
  }

  /** Arrival jitter and the times of other ticks do not matter: two deliveries of the same history
      show the same key at the same source time. */
  lemma {:induction false} JitterIndependent(h: seq<Edge>, sid: uint16, m1: OrderedMachine, evs1: seq<Event>,
                                             m2: OrderedMachine, evs2: seq<Event>, last1: Machine, last2: Machine)
    requires SessionRunTo(h, sid, m1, evs1, last1) && SessionRunTo(h, sid, m2, evs2, last2)
    requires last1.tick - Offset(last1.s) == last2.tick - Offset(last2.s)
    ensures last1.rig.keyDown == last2.rig.keyDown
  {
    ShowsSource(h, sid, m1, evs1, last1);
    ShowsSource(h, sid, m2, evs2, last2);
  }
}
