/** The jitter buffer over all interleavings: order, spacing, exactly-once in a session. Times stay below
    2^62 microseconds (146,000 years), so that slots fit in 64 bits. */
module RemoteKeyQueue {
  import opened FixedWidth
  import opened Wrappers
  import opened RemoteKeyProtocol
  import opened RemoteKeyServer
  import opened RemoteKeyMachine
  import opened RemoteKeySafety

  const TIME_LIMIT := 0x4000_0000_0000_0000

  predicate EdgesBounded(edges: seq<Edge>) {
    forall i :: 0 <= i < |edges| ==> edges[i].ts < TIME_LIMIT
  }

  predicate Bounded(ev: Event) {
    match ev
    case Datagram(now, bytes) =>
      now < TIME_LIMIT && (Decoded(bytes).Some? ==> EdgesBounded(Decoded(bytes).value.edges))
    case BeginTick(now, _) => now < TIME_LIMIT
    case _ => true
  }

  /** The place of a source timestamp on the anchored local timeline. */
  function Exact(s: Shared, ts: uint64): int {
    s.anchorLocal + (ts - s.anchorSrc)
  }

  predicate SessionFits(cfg: Config, s: Shared) {
    && s.highWater < TIME_LIMIT
    && s.lastRx < TIME_LIMIT
    && (s.haveAnchor ==> 1 <= s.anchorSrc <= s.highWater && s.anchorLocal <= TIME_LIMIT + Micros(cfg.playoutMs))
  }

  predicate InSourceOrder(entries: seq<Entry>, i: nat)
    requires i + 1 < |entries|
  {
    entries[i].edge.ts < entries[i + 1].edge.ts
  }

  predicate InSlotOrder(entries: seq<Entry>, i: nat)
    requires i + 1 < |entries|
  {
    entries[i].at <= entries[i + 1].at
  }

  /** Every edge of the session was accepted once, in source order; the high-water mark is the
      newest of them. */
  predicate AcceptedOnce(s: Shared, log: Log) {
    && (forall i: nat :: i + 1 < |log.entries| ==> InSourceOrder(log.entries, i))
    && (log.entries != [] ==> 1 <= log.entries[0].edge.ts)
    && s.highWater == if log.entries == [] then 0 else log.entries[|log.entries| - 1].edge.ts
  }

  /** What is queued sits on the current anchor, each edge on its exact slot or, if it came after
      it, at its arrival; and the slots are in order. */
  predicate Scheduled(s: Shared, log: Log) {
    && log.done <= |log.entries|
    && (!s.haveAnchor ==> log.done == |log.entries|)
    && (forall i {:trigger log.entries[i]} :: log.done <= i < |log.entries| ==> OnSlot(s, log.entries[i]))
    && (forall i: nat :: log.done <= i && i + 1 < |log.entries| ==> InSlotOrder(log.entries, i))
  }

  predicate OnSlot(s: Shared, e: Entry) {
    && s.anchorSrc <= e.edge.ts
    && e.at == (if Exact(s, e.edge.ts) < e.arrived then e.arrived else Exact(s, e.edge.ts))
    && e.arrived <= s.lastRx
  }

  predicate Rising(ps: seq<nat>, i: nat)
    requires i + 1 < |ps|
  {
    ps[i] < ps[i + 1]
  }

  /** Of the edges of the session nothing is played twice or out of order, and nothing that did not leave the queue. */
  predicate PlayedOnce(log: Log) {
    && (forall i: nat :: i + 1 < |log.played| ==> Rising(log.played, i))
    && (log.played != [] ==> log.played[|log.played| - 1] < log.done)
  }

  predicate QueueOrder(cfg: Config, s: Shared, log: Log) {
    SessionFits(cfg, s) && AcceptedOnce(s, log) && Scheduled(s, log) && PlayedOnce(log)
  }

  predicate Ordered(m: Machine) {
    && QueueOrder(m.cfg, m.s, m.log)
    && m.clock < TIME_LIMIT
    && (m.rx.Received? ==> m.rx.now == m.s.lastRx && EdgesBounded(m.rx.pkt.edges))
  }

  /** A machine in a safe state with an ordered buffer. */
  type OrderedMachine = m: SafeMachine | Ordered(m) witness Initial(DEFAULT_CONFIG, CLOSED_PORT)

  /** The subtraction ts - anchor_src never wraps and neither does the sum: the slot of an
      accepted edge is its exact place, or the arrival time if that is later. */
  lemma {:induction false} SlotIsExact(cfg: Config, s: Shared, now: uint64, e: Edge)
    requires SessionFits(cfg, s)
    requires now < TIME_LIMIT && s.highWater < e.ts < TIME_LIMIT
    ensures var a := Anchored(cfg, s, now, e);
      SlotTime(a, now, e.ts) == if Exact(a, e.ts) < now then now else Exact(a, e.ts)
  {
  }

  lemma {:induction false} AcceptOnce(s: Shared, log: Log, highWater: uint64, entry: Entry)
    requires AcceptedOnce(s, log)
    requires s.highWater < entry.edge.ts == highWater
    ensures AcceptedOnce(s.(highWater := highWater), log.(entries := log.entries + [entry]))
  {
    var grown := log.entries + [entry];
    forall i: nat | i + 1 < |grown|
      ensures InSourceOrder(grown, i)
    {
      assert i + 1 < |log.entries| ==> InSourceOrder(log.entries, i);
    }
  }

  lemma {:induction false} AcceptScheduled(cfg: Config, s: Shared, log: Log, now: uint64, e: Edge)
    requires SessionFits(cfg, s) && Scheduled(s, log)
    requires log.entries != [] ==> log.entries[|log.entries| - 1].edge.ts == s.highWater
    requires s.lastRx == now && s.highWater < e.ts < TIME_LIMIT
    ensures Scheduled(AcceptEdge(cfg, s, now, e), log.(entries := log.entries + NewEntry(cfg, s, now, e)))
  {
    SlotIsExact(cfg, s, now, e);
    var grown := log.entries + NewEntry(cfg, s, now, e);
    forall i: nat | log.done <= i && i + 1 < |grown|
      ensures InSlotOrder(grown, i)
    {
      assert i + 1 < |log.entries| ==> InSlotOrder(log.entries, i);
      assert OnSlot(s, log.entries[i]);
    }
  }

  lemma {:induction false} AcceptOrder(cfg: Config, s: Shared, log: Log, now: uint64, e: Edge)
    requires QueueOrder(cfg, s, log)
    requires s.lastRx == now && e.ts < TIME_LIMIT
    ensures QueueOrder(cfg, AcceptEdge(cfg, s, now, e), log.(entries := log.entries + NewEntry(cfg, s, now, e)))
  {
    if s.highWater < e.ts {
      AcceptOnce(s, log, e.ts, NewEntry(cfg, s, now, e)[0]);
      AcceptScheduled(cfg, s, log, now, e);
    } else {
      assert log.entries + [] == log.entries;
    }
  }

  lemma {:induction false} SplitLast(cfg: Config, s: Shared, entries: seq<Entry>, now: uint64, edges: seq<Edge>)
    requires edges != []
    ensures var front := edges[..|edges| - 1];
      var mid := AcceptEdges(cfg, s, now, front);
      && AcceptEdges(cfg, s, now, edges) == AcceptEdge(cfg, mid, now, edges[|edges| - 1])
      && entries + NewEntries(cfg, s, now, edges)
      == (entries + NewEntries(cfg, s, now, front)) + NewEntry(cfg, mid, now, edges[|edges| - 1])
  {
  }

  lemma {:induction false} AcceptAllOrder(cfg: Config, s: Shared, log: Log, now: uint64, edges: seq<Edge>)
    requires QueueOrder(cfg, s, log)
    requires s.lastRx == now && EdgesBounded(edges)
    ensures QueueOrder(cfg, AcceptEdges(cfg, s, now, edges), log.(entries := log.entries + NewEntries(cfg, s, now, edges)))
  {
    if edges == [] {
      assert log.entries + [] == log.entries;
    } else {
      var front := edges[..|edges| - 1];
      AcceptAllOrder(cfg, s, log, now, front);
      AcceptKeepsAtomics(cfg, s, now, front);
      AcceptOrder(cfg, AcceptEdges(cfg, s, now, front), log.(entries := log.entries + NewEntries(cfg, s, now, front)),
                  now, edges[|edges| - 1]);
      SplitLast(cfg, s, log.entries, now, edges);
    }
  }

  lemma {:induction false} SlotOrderAt(entries: seq<Entry>, from: nat, i: nat, j: nat)
    requires forall k: nat :: from <= k && k + 1 < |entries| ==> InSlotOrder(entries, k)
    requires from <= i <= j < |entries|
    ensures entries[i].at <= entries[j].at
  {
    if i < j {
      SlotOrderAt(entries, from, i, j - 1);
      assert InSlotOrder(entries, j - 1);
    }
  }

  lemma {:induction false} SourceOrderAt(entries: seq<Entry>, i: nat, j: nat)
    requires forall k: nat :: k + 1 < |entries| ==> InSourceOrder(entries, k)
    requires i < j < |entries|
    ensures entries[i].edge.ts < entries[j].edge.ts
  {
    assert InSourceOrder(entries, j - 1);
    if i < j - 1 {
      SourceOrderAt(entries, i, j - 1);
    }
  }

  lemma {:induction false} RisingAt(ps: seq<nat>, i: nat, j: nat)
    requires forall k: nat :: k + 1 < |ps| ==> Rising(ps, k)
    requires i < j < |ps|
    ensures ps[i] < ps[j]
  {
    assert Rising(ps, j - 1);
    if i < j - 1 {
      RisingAt(ps, i, j - 1);
    }
  }

  lemma {:induction false} PlayMore(log: Log, n: nat)
    requires PlayedOnce(log)
    ensures PlayedOnce(log.(done := log.done + n, played := log.played + Positions(log.done, n)))
  {
    var after := log.played + Positions(log.done, n);
    forall i: nat | i + 1 < |after|
      ensures Rising(after, i)
    {
      assert i + 1 < |log.played| ==> Rising(log.played, i);
    }
  }

  lemma {:induction false} DrainOrder(cfg: Config, s: Shared, log: Log, n: nat, rest: seq<Slot>)
    requires QueueOrder(cfg, s, log)
    requires log.done + n <= |log.entries|
    ensures QueueOrder(cfg, s.(queue := rest),
                       log.(done := log.done + n, played := log.played + Positions(log.done, n)))
  {
    PlayMore(log, n);
  }

  lemma {:induction false} ClearOrder(cfg: Config, s: Shared, log: Log)
    requires QueueOrder(cfg, s, log)
    ensures QueueOrder(cfg, Cleared(s), log.(done := |log.entries|))
  {
  }

  lemma {:induction false} EnqueueOrder(cfg: Config, s: Shared, log: Log, now: uint64, pkt: Packet)
    requires QueueOrder(cfg, s, log)
    requires s.lastRx == now && EdgesBounded(pkt.edges)
    ensures QueueOrder(cfg, Enqueued(cfg, s, now, pkt), Logged(cfg, s, log, now, pkt))
    ensures Enqueued(cfg, s, now, pkt).lastRx == now
  {
    var start := StartSession(s, pkt);
    AcceptAllOrder(cfg, start, CurrentLog(s, log, pkt), now, pkt.edges);
    AcceptKeepsAtomics(cfg, start, now, pkt.edges);
  }

  /** What the order depends on. */
  lemma {:induction false} OrderIgnores(cfg: Config, s: Shared, after: Shared, log: Log)
    requires QueueOrder(cfg, s, log)
    requires s.lastRx <= after.lastRx < TIME_LIMIT
    requires after == s.(lastRx := after.lastRx, resetRequested := after.resetRequested)
    ensures QueueOrder(cfg, after, log)
  {
  }

  lemma {:induction false} QueueOrderEnqueue(m: OrderedMachine)
    requires m.rx.Received?
    ensures QueueOrder(m.cfg, Step(m, EnqueuePacket).s, Step(m, EnqueuePacket).log)
  {
    EnqueueOrder(m.cfg, m.s, m.log, m.rx.now, m.rx.pkt);
  }

  lemma {:induction false} QueueOrderFinish(m: OrderedMachine)
    ensures QueueOrder(m.cfg, FinishTickStep(m).s, FinishTickStep(m).log)
  {
    DrainOrder(m.cfg, m.s, m.log, Due(m), m.s.queue[Due(m)..]);
  }

  lemma {:induction false} QueueOrderStep(m: OrderedMachine, ev: Event)
    requires Enabled(m, ev) && Bounded(ev)
    ensures QueueOrder(m.cfg, Step(m, ev).s, Step(m, ev).log)
  {
    match ev
    case EnqueuePacket => QueueOrderEnqueue(m);
    case ClearQueue => ClearOrder(m.cfg, m.s, m.log);
    case FinishTick => QueueOrderFinish(m);
    case _ => OrderIgnores(m.cfg, m.s, Step(m, ev).s, m.log);
  }

  lemma {:induction false} OrderedStep(m: OrderedMachine, ev: Event)
    requires Enabled(m, ev) && Bounded(ev)
    ensures Ordered(Step(m, ev))
  {
    QueueOrderStep(m, ev);
    if ev.EnqueuePacket? {
      AcceptKeepsAtomics(m.cfg, StartSession(m.s, m.rx.pkt), m.rx.now, m.rx.pkt.edges);
    }
  }

  /** Order in every run, and exactly-once between the session starts in it, at each of which the log begins anew:
      whatever is lost, duplicated, reordered or silenced. */
  lemma {:induction false} OrderedRun(m: OrderedMachine, evs: seq<Event>)
    requires Runnable(m, evs)
    requires forall i :: 0 <= i < |evs| ==> Bounded(evs[i])
    ensures Ordered(Run(m, evs))
    decreases |evs|
  {
    if evs != [] {
      SafeStep(m, evs[0]);
      OrderedStep(m, evs[0]);
      OrderedRun(Step(m, evs[0]), evs[1..]);
    }
  }

  lemma {:induction false} InitiallyOrdered(cfg: Config, port: Port)
    ensures Ordered(Initial(cfg, port))
  {
  }

  lemma {:induction false} DueIsPrefix(queue: seq<Slot>, now: uint64)
    ensures forall i :: 0 <= i < DueCount(queue, now) ==> queue[i].at <= now
    ensures DueCount(queue, now) < |queue| ==> now < queue[DueCount(queue, now)].at
  {
    if queue != [] && queue[0].at <= now {
      DueIsPrefix(queue[1..], now);
      forall i | 0 <= i < DueCount(queue, now)
        ensures queue[i].at <= now
      {
        if i > 0 {
          assert queue[1..][i - 1].at <= now;
        }
      }
    }
  }

  /** An edge with timestamp 0 is never accepted: the high-water mark starts there. */
  lemma {:induction false} ZeroIsDropped(m: OrderedMachine, now: uint64, e: Edge)
    requires e.ts == 0
    ensures AcceptEdge(m.cfg, m.s, now, e) == m.s
    ensures forall i :: 0 <= i < |m.log.entries| ==> m.log.entries[i].edge.ts > 0
  {
    forall i | 0 <= i < |m.log.entries|
      ensures m.log.entries[i].edge.ts > 0
    {
      if i > 0 {
        SourceOrderAt(m.log.entries, 0, i);
      }
    }
  }

  /** The queue is sorted by slot, and a tick takes from its front exactly the edges that are due. */
  lemma {:induction false} QueueSorted(m: OrderedMachine)
    ensures forall i, j :: 0 <= i <= j < |m.s.queue| ==> m.s.queue[i].at <= m.s.queue[j].at
    ensures forall i :: 0 <= i < |m.s.queue| ==> (m.s.queue[i].at <= m.tick <==> i < Due(m))
  {
    forall i, j | 0 <= i <= j < |m.s.queue|
      ensures m.s.queue[i].at <= m.s.queue[j].at
    {
      SlotOrderAt(m.log.entries, m.log.done, m.log.done + i, m.log.done + j);
      assert m.s.queue[i] == SlotOf(m.log.entries[m.log.done + i]);
      assert m.s.queue[j] == SlotOf(m.log.entries[m.log.done + j]);
    }
    DueIsPrefix(m.s.queue, m.tick);
  }

  /** Two queued edges that each arrived before its own slot are as far apart as they were at the source. */
  lemma {:induction false} SpacingIsExact(m: OrderedMachine, i: nat, j: nat)
    requires i <= j < |m.s.queue|
    requires m.log.entries[m.log.done + i].arrived < m.s.queue[i].at
    requires m.log.entries[m.log.done + j].arrived < m.s.queue[j].at
    ensures m.s.queue[j].at - m.s.queue[i].at
         == m.log.entries[m.log.done + j].edge.ts - m.log.entries[m.log.done + i].edge.ts
  {
    assert OnSlot(m.s, m.log.entries[m.log.done + i]);
    assert OnSlot(m.s, m.log.entries[m.log.done + j]);
  }

  // ---- edges dropped by a silence ----

  predicate StartsNew(m: Machine, ev: Event) {
    ev.EnqueuePacket? && m.rx.Received? && StartsSession(m.s, m.rx.pkt)
  }

  predicate SameSession(m: Machine, evs: seq<Event>)
    requires Runnable(m, evs)
    decreases |evs|
  {
    evs == [] || (!StartsNew(m, evs[0]) && SameSession(Step(m, evs[0]), evs[1..]))
  }

  /** The i-th accepted edge left the queue unplayed. */
  predicate Dropped(log: Log, i: nat) {
    i < log.done && i !in log.played
  }

  lemma {:induction false} DroppedStep(m: OrderedMachine, ev: Event, i: nat)
    requires Enabled(m, ev) && !StartsNew(m, ev)
    requires Dropped(m.log, i)
    ensures Dropped(Step(m, ev).log, i)
    ensures i < |m.log.entries| && Step(m, ev).log.entries[i] == m.log.entries[i]
  {
  }

  /** An edge dropped by a silence stays dropped for the rest of its session, however often the
      operator's history repeats it. */
  lemma {:induction false} DroppedForGood(m: OrderedMachine, evs: seq<Event>, i: nat)
    requires Runnable(m, evs) && SameSession(m, evs)
    requires forall k :: 0 <= k < |evs| ==> Bounded(evs[k])
    requires Dropped(m.log, i)
    ensures Dropped(Run(m, evs).log, i)
    ensures i < |m.log.entries| && i < |Run(m, evs).log.entries|
    ensures Run(m, evs).log.entries[i] == m.log.entries[i]
    decreases |evs|
  {
    if evs != [] {
      SafeStep(m, evs[0]);
      OrderedStep(m, evs[0]);
      DroppedStep(m, evs[0], i);
      DroppedForGood(Step(m, evs[0]), evs[1..], i);
    }
  }

  // ---- the reset of a session comes before its edges ----

  predicate ResetFirst(m: Machine) {
    && (m.s.resetRequested ==> m.log.played == [])
    && (m.s.resetRequested && m.s.haveAnchor && !m.replay.Asleep? ==> m.tick < m.s.anchorLocal)
  }

  lemma {:induction false} AcceptAnchors(cfg: Config, s: Shared, now: uint64, edges: seq<Edge>)
    ensures var after := AcceptEdges(cfg, s, now, edges);
      after.haveAnchor ==> after.anchorLocal == if s.haveAnchor then s.anchorLocal else Add64(now, Micros(cfg.playoutMs))
    ensures s.haveAnchor ==> AcceptEdges(cfg, s, now, edges).haveAnchor
                             && AcceptEdges(cfg, s, now, edges).anchorSrc == s.anchorSrc
  {
    if edges != [] {
      AcceptAnchors(cfg, s, now, edges[..|edges| - 1]);
    }
  }

  lemma {:induction false} NothingDueBeforeReset(m: OrderedMachine)
    requires ResetFirst(m) && m.s.resetRequested && !m.replay.Asleep?
    ensures Due(m) == 0
  {
    if m.s.queue != [] {
      assert OnSlot(m.s, m.log.entries[m.log.done]);
      assert m.s.queue[0] == SlotOf(m.log.entries[m.log.done]);
    }
  }

  lemma {:induction false} ResetFirstStep(m: OrderedMachine, ev: Event)
    requires m.cfg.playoutMs > 0
    requires Fresh(m) && ResetFirst(m)
    requires Enabled(m, ev) && Prompt(m, ev)
    ensures ResetFirst(Step(m, ev))
  {
    match ev
    case EnqueuePacket =>
      AcceptAnchors(m.cfg, StartSession(m.s, m.rx.pkt), m.rx.now, m.rx.pkt.edges);
      AcceptKeepsAtomics(m.cfg, StartSession(m.s, m.rx.pkt), m.rx.now, m.rx.pkt.edges);
    case FinishTick =>
      if m.s.resetRequested {
        NothingDueBeforeReset(m);
      }
    case _ =>
  }

  /** With a playout delay, and a receive thread that is not parked before the lock, the reset that
      lifts the key is taken before any edge of the new session is played. */
  lemma {:induction false} ResetFirstRun(m: OrderedMachine, evs: seq<Event>)
    requires m.cfg.playoutMs > 0
    requires Fresh(m) && ResetFirst(m)
    requires Runnable(m, evs) && PromptRun(m, evs)
    requires forall i :: 0 <= i < |evs| ==> Bounded(evs[i])
    ensures ResetFirst(Run(m, evs))
    decreases |evs|
  {
    if evs != [] {
      SafeStep(m, evs[0]);
      FreshStep(m, evs[0]);
      OrderedStep(m, evs[0]);
      ResetFirstStep(m, evs[0]);
      ResetFirstRun(Step(m, evs[0]), evs[1..]);
    }
  }
}
