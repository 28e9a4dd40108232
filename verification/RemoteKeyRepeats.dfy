/** What a datagram that arrives twice does: nothing, unless it starts its session anew. */
module RemoteKeyRepeats {
  import opened FixedWidth
  import opened Wrappers
  import opened RemoteKeyProtocol
  import opened RemoteKeyServer
  import opened RemoteKeyMachine
  import opened RemoteKeySafety
  import opened RemoteKeyQueue
  import opened RemoteKeySilence
  import opened RemoteKeyRaces

  // ---- within a session ----

  /** Edges at or below the high-water mark change nothing. */
  lemma {:induction false} OldEdgesChangeNothing(cfg: Config, s: Shared, now: uint64, edges: seq<Edge>)
    requires forall i :: 0 <= i < |edges| ==> edges[i].ts <= s.highWater
    ensures AcceptEdges(cfg, s, now, edges) == s
  {
    if edges != [] {
      OldEdgesChangeNothing(cfg, s, now, edges[..|edges| - 1]);
    }
  }

  lemma {:induction false} MarkCovers(cfg: Config, s: Shared, now: uint64, edges: seq<Edge>)
    ensures var after := AcceptEdges(cfg, s, now, edges);
      s.highWater <= after.highWater && forall i :: 0 <= i < |edges| ==> edges[i].ts <= after.highWater
  {
    if edges != [] {
      var front := edges[..|edges| - 1];
      MarkCovers(cfg, s, now, front);
      forall i | 0 <= i < |edges|
        ensures edges[i].ts <= AcceptEdges(cfg, s, now, edges).highWater
      {
        assert i < |front| ==> edges[i] == front[i];
      }
    }
  }

  // ---- when the session starts anew ----

  /** The same, but for the anchor of a timeline that is over. */
  predicate SameButAnchor(a: Shared, b: Shared) {
    a == b.(anchorSrc := a.anchorSrc, anchorLocal := a.anchorLocal) && (a.haveAnchor ==> a == b)
  }

  lemma {:induction false} AcceptIgnoresOldAnchor(cfg: Config, a: Shared, b: Shared, now: uint64, edges: seq<Edge>)
    requires SameButAnchor(a, b)
    ensures SameButAnchor(AcceptEdges(cfg, a, now, edges), AcceptEdges(cfg, b, now, edges))
  {
    if edges != [] {
      AcceptIgnoresOldAnchor(cfg, a, b, now, edges[..|edges| - 1]);
    }
  }

  lemma {:induction false} UnanchoredIsUnchanged(cfg: Config, s: Shared, now: uint64, edges: seq<Edge>)
    ensures !AcceptEdges(cfg, s, now, edges).haveAnchor ==> AcceptEdges(cfg, s, now, edges) == s
  {
    if edges != [] {
      UnanchoredIsUnchanged(cfg, s, now, edges[..|edges| - 1]);
    }
  }

  lemma {:induction false} RepeatInSession(cfg: Config, s: Shared, now: uint64, later: uint64, pkt: Packet)
    requires !IsReset(pkt.flags)
    ensures Enqueued(cfg, Enqueued(cfg, s, now, pkt), later, pkt) == Enqueued(cfg, s, now, pkt)
  {
    var once := Enqueued(cfg, s, now, pkt);
    AcceptKeepsAtomics(cfg, StartSession(s, pkt), now, pkt.edges);
    MarkCovers(cfg, StartSession(s, pkt), now, pkt.edges);
    OldEdgesChangeNothing(cfg, once, later, pkt.edges);
  }

  lemma {:induction false} RepeatOfReset(cfg: Config, s: Shared, now: uint64, later: uint64, pkt: Packet)
    requires IsReset(pkt.flags)
    ensures Enqueued(cfg, Enqueued(cfg, s, now, pkt), later, pkt) == Enqueued(cfg, s, now, pkt)
        <==> later == now || forall i :: 0 <= i < |pkt.edges| ==> pkt.edges[i].ts == 0
  {
    var start := StartSession(s, pkt);
    var once := AcceptEdges(cfg, start, now, pkt.edges);
    AcceptKeepsAtomics(cfg, start, now, pkt.edges);
    var again := StartSession(once, pkt);
    var twice := AcceptEdges(cfg, again, later, pkt.edges);
    if forall i :: 0 <= i < |pkt.edges| ==> pkt.edges[i].ts == 0 {
      OldEdgesChangeNothing(cfg, start, now, pkt.edges);
      OldEdgesChangeNothing(cfg, again, later, pkt.edges);
    } else {
      MarkCovers(cfg, start, now, pkt.edges);
      UnanchoredIsUnchanged(cfg, start, now, pkt.edges);
      AcceptAnchors(cfg, start, now, pkt.edges);
      AcceptAnchors(cfg, again, later, pkt.edges);
      assert once.highWater > 0;
      if later == now {
        AcceptIgnoresOldAnchor(cfg, start, again, now, pkt.edges);
      }
    }
  }

  /**
   * A packet that arrives again changes nothing, exactly if it does not ask for a reset; one that does is taken in
   * anew, and leaves the buffer as it was only if it comes at the same microsecond or holds no edge to take in.
   */
  lemma {:induction false} RepeatChangesNothingExactly(cfg: Config, s: Shared, now: uint64, later: uint64, pkt: Packet)
    ensures Enqueued(cfg, Enqueued(cfg, s, now, pkt), later, pkt) == Enqueued(cfg, s, now, pkt)
        <==> !IsReset(pkt.flags) || later == now || forall i :: 0 <= i < |pkt.edges| ==> pkt.edges[i].ts == 0
  {
    if IsReset(pkt.flags) {
      RepeatOfReset(cfg, s, now, later, pkt);
    } else {
      RepeatInSession(cfg, s, now, later, pkt);
    }
  }

  // ---- over runs ----

  /** The mark covers the packet, and an anchor is that of its first copy or of an edge behind the mark it left. */
  predicate Copied(pkt: Packet, mark: uint64, anchorLocal: uint64, m: Machine) {
    && m.s.haveSession && m.s.sessionId == pkt.sessionId
    && (forall i :: 0 <= i < |pkt.edges| ==> pkt.edges[i].ts <= mark)
    && mark <= m.s.highWater
    && (m.s.haveAnchor ==> m.s.anchorLocal == anchorLocal || mark < m.s.anchorSrc)
  }

  lemma {:induction false} AcceptKeepsCopied(cfg: Config, mark: uint64, anchorLocal: uint64, s: Shared, now: uint64,
                                             edges: seq<Edge>)
    requires mark <= s.highWater && (s.haveAnchor ==> s.anchorLocal == anchorLocal || mark < s.anchorSrc)
    ensures var after := AcceptEdges(cfg, s, now, edges);
      mark <= after.highWater && (after.haveAnchor ==> after.anchorLocal == anchorLocal || mark < after.anchorSrc)
  {
    if edges != [] {
      AcceptKeepsCopied(cfg, mark, anchorLocal, s, now, edges[..|edges| - 1]);
    }
  }

  lemma {:induction false} CopiedRun(pkt: Packet, mark: uint64, anchorLocal: uint64, m: Machine, evs: seq<Event>)
    requires Runnable(m, evs) && SameSession(m, evs) && Copied(pkt, mark, anchorLocal, m)
    ensures Copied(pkt, mark, anchorLocal, Run(m, evs))
    decreases |evs|
  {
    if evs != [] {
      if evs[0].EnqueuePacket? {
        AcceptKeepsCopied(m.cfg, mark, anchorLocal, m.s, m.rx.now, m.rx.pkt.edges);
        AcceptKeepsAtomics(m.cfg, m.s, m.rx.now, m.rx.pkt.edges);
      }
      CopiedRun(pkt, mark, anchorLocal, Step(m, evs[0]), evs[1..]);
    }
  }

  lemma {:induction false} EnqueuedIsCopied(m: Machine)
    requires m.rx.Received?
    ensures var after := Step(m, EnqueuePacket);
      Copied(m.rx.pkt, after.s.highWater, after.s.anchorLocal, after)
  {
    var start := StartSession(m.s, m.rx.pkt);
    AcceptKeepsAtomics(m.cfg, start, m.rx.now, m.rx.pkt.edges);
    MarkCovers(m.cfg, start, m.rx.now, m.rx.pkt.edges);
  }

  lemma {:induction false} OldEdgesAddNothing(cfg: Config, s: Shared, now: uint64, edges: seq<Edge>)
    requires forall i :: 0 <= i < |edges| ==> edges[i].ts <= s.highWater
    ensures NewEntries(cfg, s, now, edges) == []
  {
    if edges != [] {
      var front := edges[..|edges| - 1];
      OldEdgesAddNothing(cfg, s, now, front);
      OldEdgesChangeNothing(cfg, s, now, front);
    }
  }

  /** The packet at hand of last is a copy of the one at hand of m, with the events evs of their session in between. */
  predicate CopyComes(m: Machine, evs: seq<Event>, last: Machine) {
    && m.rx.Received? && Runnable(Step(m, EnqueuePacket), evs) && SameSession(Step(m, EnqueuePacket), evs)
    && last == Run(Step(m, EnqueuePacket), evs) && last.rx.Received? && last.rx.pkt == m.rx.pkt
  }

  /** A copy that asks for no reset changes nothing, whatever came in between in its session: other packets, ticks,
      silences. */
  lemma {:induction false} CopyChangesNothing(m: Machine, evs: seq<Event>, last: Machine)
    requires CopyComes(m, evs, last) && !IsReset(m.rx.pkt.flags)
    ensures Step(last, EnqueuePacket) == last.(rx := Waiting)
  {
    var after, pkt := Step(m, EnqueuePacket), m.rx.pkt;
    EnqueuedIsCopied(m);
    CopiedRun(pkt, after.s.highWater, after.s.anchorLocal, after, evs);
    OldEdgesChangeNothing(last.cfg, last.s, last.rx.now, pkt.edges);
    OldEdgesAddNothing(last.cfg, last.s, last.rx.now, pkt.edges);
    assert last.log.entries + [] == last.log.entries;
  }

  /** The packet has an edge that a session can begin with. */
  predicate HasEdge(pkt: Packet) {
    exists i :: 0 <= i < |pkt.edges| && 0 < pkt.edges[i].ts
  }

  lemma {:induction false} AnchorsBelow(cfg: Config, s: Shared, now: uint64, edges: seq<Edge>, mark: uint64)
    requires !s.haveAnchor && forall i :: 0 <= i < |edges| ==> edges[i].ts <= mark
    ensures var after := AcceptEdges(cfg, s, now, edges);
      after.haveAnchor ==> after.anchorSrc <= mark
  {
    if edges != [] {
      AnchorsBelow(cfg, s, now, edges[..|edges| - 1], mark);
    }
  }

  /** Taking in a packet that starts a session and has an edge. */
  lemma {:induction false} RestartAnchors(cfg: Config, s: Shared, now: uint64, pkt: Packet, mark: uint64)
    requires IsReset(pkt.flags) && HasEdge(pkt) && forall i :: 0 <= i < |pkt.edges| ==> pkt.edges[i].ts <= mark
    ensures var after := Enqueued(cfg, s, now, pkt);
      after.haveAnchor && after.anchorSrc <= mark && after.anchorLocal == Add64(now, Micros(cfg.playoutMs))
  {
    var start := StartSession(s, pkt);
    MarkCovers(cfg, start, now, pkt.edges);
    UnanchoredIsUnchanged(cfg, start, now, pkt.edges);
    AcceptAnchors(cfg, start, now, pkt.edges);
    AnchorsBelow(cfg, start, now, pkt.edges, mark);
  }

  lemma {:induction false} LaterSum(a: uint64, b: uint64, c: uint64)
    requires a != b
    ensures Add64(a, c) != Add64(b, c)
  {
  }

  lemma {:induction false} CopyOfReset(m: Machine, evs: seq<Event>, last: Machine)
    requires CopyComes(m, evs, last) && IsReset(m.rx.pkt.flags) && HasEdge(m.rx.pkt) && m.rx.now != last.rx.now
    ensures Step(last, EnqueuePacket).s != last.s
  {
    var after, pkt := Step(m, EnqueuePacket), m.rx.pkt;
    var mark := after.s.highWater;
    EnqueuedIsCopied(m);
    CopiedRun(pkt, mark, after.s.anchorLocal, after, evs);
    RunKeepsConfig(after, evs);
    RestartAnchors(m.cfg, m.s, m.rx.now, pkt, mark);
    RestartAnchors(m.cfg, last.s, last.rx.now, pkt, mark);
    LaterSum(m.rx.now, last.rx.now, Micros(m.cfg.playoutMs));
  }

  lemma {:induction false} RunKeepsConfig(m: Machine, evs: seq<Event>)
    requires Runnable(m, evs)
    ensures Run(m, evs).cfg == m.cfg
    decreases |evs|
  {
    if evs != [] {
      RunKeepsConfig(Step(m, evs[0]), evs[1..]);
    }
  }

  /** A later copy with an edge changes nothing exactly if it does not ask for a reset, whatever came in between. */
  lemma {:induction false} CopyChangesNothingExactly(m: Machine, evs: seq<Event>, last: Machine)
    requires CopyComes(m, evs, last) && HasEdge(m.rx.pkt) && m.rx.now != last.rx.now
    ensures Step(last, EnqueuePacket).s == last.s <==> !IsReset(m.rx.pkt.flags)
  {
    if IsReset(m.rx.pkt.flags) {
      CopyOfReset(m, evs, last);
    } else {
      CopyChangesNothing(m, evs, last);
    }
  }

  // ---- played again ----

  lemma {:induction false} EntriesAreNewer(cfg: Config, s: Shared, now: uint64, edges: seq<Edge>)
    requires SessionFits(cfg, s) && !s.haveAnchor && s.queue == []
    requires now < TIME_LIMIT && EdgesBounded(edges)
    ensures var entries, es := NewEntries(cfg, s, now, edges), Newer(s.highWater, edges);
      |entries| == |es| && forall i :: 0 <= i < |es| ==> entries[i].edge == es[i]
  {
    if edges != [] {
      var front := edges[..|edges| - 1];
      EntriesAreNewer(cfg, s, now, front);
      StartsTimeline(cfg, s, now, front);
    }
  }

  lemma {:induction false} LogStartsAnew(m: OrderedMachine)
    requires m.rx.Received? && StartsSession(m.s, m.rx.pkt)
    ensures Step(m, EnqueuePacket).log
         == Log(NewEntries(m.cfg, StartSession(m.s, m.rx.pkt), m.rx.now, m.rx.pkt.edges), 0, [])
  {
    var added := NewEntries(m.cfg, StartSession(m.s, m.rx.pkt), m.rx.now, m.rx.pkt.edges);
    assert [] + added == added;
  }

  /** A packet that starts a session, be it a new one or an old one that comes back, is taken in from its first edge
      on, whatever has been played. */
  lemma {:induction false} QueuesAgain(m: OrderedMachine) returns (after: OrderedMachine)
    requires m.rx.Received? && StartsSession(m.s, m.rx.pkt)
    ensures after == Step(m, EnqueuePacket)
    ensures var es := Newer(0, m.rx.pkt.edges);
      after.log.done == 0 && after.log.played == [] && |after.log.entries| == |es|
      && (forall i :: 0 <= i < |es| ==> after.log.entries[i].edge == es[i])
      && OnTimeline(after.s.queue, es, m.rx.now + Micros(m.cfg.playoutMs))
  {
    LogStartsAnew(m);
    HeldPacketQueues(m);
    EntriesAreNewer(m.cfg, StartSession(m.s, m.rx.pkt), m.rx.now, m.rx.pkt.edges);
    SafeStep(m, EnqueuePacket);
    OrderedStep(m, EnqueuePacket);
    after := Step(m, EnqueuePacket);
  }

  /** A tick between two packets, up to its drain. */
  lemma {:induction false} TickReady(m: Machine, evs: seq<Event>, queued: OrderedMachine, t: uint64)
      returns (more: seq<Event>)
    requires Runnable(m, evs) && PromptRun(m, evs) && queued == Run(m, evs)
    requires queued.replay.Asleep? && queued.rx.Waiting? && 0 < t && queued.clock <= t
    requires queued.s.lastRx <= t <= queued.s.lastRx + Micros(queued.cfg.silenceMs)
    ensures more == evs + [BeginTick(t, false), LoadLastRx, TestSilence]
    ensures Runnable(m, more) && PromptRun(m, more)
    ensures var ready := Run(m, more);
      ready.replay == Ready(false) && ready.rx.Waiting? && ready.s.queue == queued.s.queue && ready.log == queued.log
      && ready.tick == t
  {
    more := PromptOn(m, evs, BeginTick(t, false));
    more := PromptOn(m, more, LoadLastRx);
    more := PromptOn(m, more, TestSilence);
  }

  lemma {:induction false} DrainPlays(ready: Machine)
    requires ready.replay.Ready? && ready.log.done == 0 && ready.log.played == []
    requires ready.s.queue != [] && ready.s.queue[0].at <= ready.tick
    ensures var log := Step(ready, FinishTick).log;
      log.played != [] && log.played[0] == 0 && log.entries == ready.log.entries
  {
    assert Due(ready) > 0;
  }

  /** A whole tick between two packets, which plays what is due at the front. */
  lemma {:induction false} TickPlays(m: Machine, evs: seq<Event>, queued: OrderedMachine, t: uint64)
      returns (more: seq<Event>)
    requires Runnable(m, evs) && PromptRun(m, evs) && queued == Run(m, evs)
    requires queued.replay.Asleep? && queued.rx.Waiting? && queued.log.done == 0 && queued.log.played == []
    requires queued.s.queue != [] && queued.s.queue[0].at <= t && 0 < t && queued.clock <= t
    requires queued.s.lastRx <= t <= queued.s.lastRx + Micros(queued.cfg.silenceMs)
    ensures more == evs + [BeginTick(t, false), LoadLastRx, TestSilence, FinishTick]
    ensures Runnable(m, more) && PromptRun(m, more)
    ensures var log := Run(m, more).log;
      log.played != [] && log.played[0] == 0 && log.entries == queued.log.entries
  {
    more := TickReady(m, evs, queued, t);
    DrainPlays(Run(m, more));
    more := PromptOn(m, more, FinishTick);
  }

  lemma {:induction false} ArrivesAnew(m: OrderedMachine, now: uint64, bytes: seq<uint8>) returns (queued: OrderedMachine)
    requires m.replay.Asleep? && m.rx.Waiting? && Enabled(m, Datagram(now, bytes)) && Bounded(Datagram(now, bytes))
    requires Decoded(bytes).Some? && StartsSession(m.s, Decoded(bytes).value)
    ensures queued == Step(Step(m, Datagram(now, bytes)), EnqueuePacket)
    ensures queued.replay.Asleep? && queued.rx.Waiting? && queued.s.lastRx == now == queued.clock && queued.cfg == m.cfg
    ensures var es := Newer(0, Decoded(bytes).value.edges);
      queued.log.done == 0 && queued.log.played == [] && |queued.log.entries| == |es|
      && (forall i :: 0 <= i < |es| ==> queued.log.entries[i].edge == es[i])
      && OnTimeline(queued.s.queue, es, now + Micros(m.cfg.playoutMs))
  {
    SafeStep(m, Datagram(now, bytes));
    OrderedStep(m, Datagram(now, bytes));
    var arrived: OrderedMachine := Step(m, Datagram(now, bytes));
    HeldPacketIsLast(arrived);
    queued := QueuesAgain(arrived);
  }

  /**
   * A datagram that starts a session, a repeated one with the reset flag say, or a late one of a session before,
   * has its edges played although they were played before.
   */
  lemma {:induction false} PlayedAgain(m: OrderedMachine, now: uint64, bytes: seq<uint8>, t: uint64)
      returns (evs: seq<Event>)
    requires m.replay.Asleep? && m.rx.Waiting? && Enabled(m, Datagram(now, bytes)) && Bounded(Datagram(now, bytes))
    requires Decoded(bytes).Some? && StartsSession(m.s, Decoded(bytes).value)
    requires Newer(0, Decoded(bytes).value.edges) != []
    requires now + Micros(m.cfg.playoutMs) <= t <= now + Micros(m.cfg.silenceMs)
    ensures evs == [Datagram(now, bytes), EnqueuePacket, BeginTick(t, false), LoadLastRx, TestSilence, FinishTick]
    ensures Runnable(m, evs) && PromptRun(m, evs)
    ensures var log := Run(m, evs).log;
      log.played != [] && log.entries != [] && log.played[0] == 0
      && log.entries[0].edge == Newer(0, Decoded(bytes).value.edges)[0]
  {
    var queued := ArrivesAnew(m, now, bytes);
    evs := PromptOn(m, [], Datagram(now, bytes));
    evs := PromptOn(m, evs, EnqueuePacket);
    evs := TickPlays(m, evs, queued, t);
  }
}
