/**
 * Which of the operator's edges the server accepts. Acceptance turns on timestamps alone: ticks, silences, late
 * arrivals and interleavings do not matter, only whether the windows that come leave a gap.
 */
module RemoteKeyPrefix {
  import opened FixedWidth
  import opened Wrappers
  import opened RemoteKeyProtocol
  import opened RemoteKeyServer
  import opened RemoteKeyMachine
  import opened RemoteKeySafety

  // ---- the operator ----

  predicate EdgeBefore(h: seq<Edge>, i: nat)
    requires i + 1 < |h|
  {
    h[i].ts < h[i + 1].ts
  }

  predicate Increasing(h: seq<Edge>) {
    forall i: nat :: i + 1 < |h| ==> EdgeBefore(h, i)
  }

  /** The operator's edges: in order, and none at 0. */
  predicate History(h: seq<Edge>) {
    Increasing(h) && (h != [] ==> 1 <= h[0].ts)
  }

  lemma {:induction false} HistoryAt(h: seq<Edge>, i: nat, j: nat)
    requires Increasing(h) && i <= j < |h|
    ensures h[i].ts <= h[j].ts && (i < j ==> h[i].ts < h[j].ts)
  {
    if i < j {
      HistoryAt(h, i, j - 1);
      assert EdgeBefore(h, j - 1);
    }
  }

  /** A packet of the session carries some window of the operator's history. */
  predicate CarriesWindow(h: seq<Edge>, edges: seq<Edge>, from: nat) {
    from + |edges| <= |h| && forall i :: 0 <= i < |edges| ==> edges[i] == h[from + i]
  }

  predicate InSession(m: Machine, sid: uint16) {
    m.s.haveSession && m.s.sessionId == sid
  }

  function Max(a: nat, b: nat): nat {
    if a < b then b else a
  }

  // ---- one window ----

  /** The accepted edges are the first ones of the history, and the high-water mark is the newest of them. */
  predicate Prefix(h: seq<Edge>, s: Shared, entries: seq<Entry>) {
    && |entries| <= |h|
    && s.highWater == (if entries == [] then 0 else h[|entries| - 1].ts)
    && forall i {:trigger entries[i]} :: 0 <= i < |entries| ==> entries[i].edge == h[i]
  }

  /** One more edge of a window: one already accepted, or the next of the history. */
  lemma {:induction false} PrefixEdge(cfg: Config, h: seq<Edge>, s: Shared, entries: seq<Entry>, now: uint64, x: nat)
    requires History(h) && Prefix(h, s, entries) && x < |h| && x <= |entries|
    ensures var after := entries + NewEntry(cfg, s, now, h[x]);
      Prefix(h, AcceptEdge(cfg, s, now, h[x]), after) && |after| == Max(|entries|, x + 1)
  {
    if x < |entries| {
      HistoryAt(h, x, |entries| - 1);
      assert entries + [] == entries;
    } else {
      HistoryAt(h, if entries == [] then 0 else |entries| - 1, x);
    }
  }

  lemma {:induction false} WindowLast(cfg: Config, s: Shared, entries: seq<Entry>, now: uint64, edges: seq<Edge>)
    requires edges != []
    ensures var front := edges[..|edges| - 1];
      entries + NewEntries(cfg, s, now, edges)
      == (entries + NewEntries(cfg, s, now, front)) + NewEntry(cfg, AcceptEdges(cfg, s, now, front), now, edges[|edges| - 1])
  {
  }

  /** A window that reaches back to what was accepted extends it to its own end. */
  lemma {:induction false} WindowExtends(cfg: Config, h: seq<Edge>, s: Shared, entries: seq<Entry>, now: uint64,
                                         edges: seq<Edge>, from: nat)
    requires History(h) && Prefix(h, s, entries) && CarriesWindow(h, edges, from) && from <= |entries|
    ensures var grown := entries + NewEntries(cfg, s, now, edges);
      Prefix(h, AcceptEdges(cfg, s, now, edges), grown) && |grown| == Max(|entries|, from + |edges|)
  {
    if edges == [] {
      assert entries + [] == entries;
    } else {
      var front, x := edges[..|edges| - 1], from + |edges| - 1;
      var mid, grown := AcceptEdges(cfg, s, now, front), entries + NewEntries(cfg, s, now, front);
      assert edges[|edges| - 1] == h[x];
      WindowExtends(cfg, h, s, entries, now, front, from);
      PrefixEdge(cfg, h, mid, grown, now, x);
      WindowLast(cfg, s, entries, now, edges);
    }
  }

  lemma {:induction false} FirstIsAccepted(cfg: Config, s: Shared, now: uint64, edges: seq<Edge>)
    requires edges != [] && s.highWater < edges[0].ts
    ensures var added := NewEntries(cfg, s, now, edges);
      added != [] && added[0].edge == edges[0]
  {
    if |edges| > 1 {
      FirstIsAccepted(cfg, s, now, edges[..|edges| - 1]);
    } else {
      assert edges[..0] == [] && AcceptEdges(cfg, s, now, []) == s && NewEntries(cfg, s, now, []) == [];
    }
  }

  /** One that starts behind it leaves a gap, which is never filled: the edges in between are older than the mark. */
  lemma {:induction false} GapBreaks(cfg: Config, h: seq<Edge>, s: Shared, entries: seq<Entry>, now: uint64,
                                     edges: seq<Edge>, from: nat)
    requires History(h) && Prefix(h, s, entries) && CarriesWindow(h, edges, from) && |entries| < from && edges != []
    ensures !Prefix(h, AcceptEdges(cfg, s, now, edges), entries + NewEntries(cfg, s, now, edges))
  {
    var k := |entries|;
    assert edges[0] == h[from];
    HistoryAt(h, k, from);
    HistoryAt(h, if k == 0 then 0 else k - 1, from);
    FirstIsAccepted(cfg, s, now, edges);
    assert (entries + NewEntries(cfg, s, now, edges))[k].edge == h[from];
  }

  // ---- one event ----

  /** How many edges of its session the packet at hand finds accepted. */
  function Reached(m: Machine): nat
    requires m.rx.Received?
  {
    if StartsSession(m.s, m.rx.pkt) then 0 else |m.log.entries|
  }

  predicate AcceptedPrefix(h: seq<Edge>, sid: uint16, m: Machine) {
    InSession(m, sid) ==> Prefix(h, m.s, m.log.entries)
  }

  /** A packet of the session carries a window of the history; nothing is said of packets of other sessions. */
  ghost predicate Windowed(h: seq<Edge>, sid: uint16, m: Machine, ev: Event)
    requires Enabled(m, ev)
  {
    ev.EnqueuePacket? && m.rx.pkt.sessionId == sid ==> exists from: nat :: CarriesWindow(h, m.rx.pkt.edges, from)
  }

  /** And one that reaches back to what was accepted. */
  ghost predicate Overlaps(h: seq<Edge>, sid: uint16, m: Machine, ev: Event)
    requires Enabled(m, ev)
  {
    ev.EnqueuePacket? && m.rx.pkt.sessionId == sid ==>
      exists from: nat :: CarriesWindow(h, m.rx.pkt.edges, from) && from <= Reached(m)
  }

  lemma {:induction false} NewSessionPrefix(h: seq<Edge>, m: Machine)
    requires m.rx.Received? && AcceptedPrefix(h, m.rx.pkt.sessionId, m)
    ensures var log := CurrentLog(m.s, m.log, m.rx.pkt);
      Prefix(h, StartSession(m.s, m.rx.pkt), log.entries) && |log.entries| == Reached(m)
  {
  }

  /** What taking in a packet of the session does: which edges are accepted then, and whether they are a prefix. */
  lemma {:induction false} TakesWindow(h: seq<Edge>, sid: uint16, m: Machine, from: nat)
    requires History(h) && AcceptedPrefix(h, sid, m) && m.rx.Received? && m.rx.pkt.sessionId == sid
    requires CarriesWindow(h, m.rx.pkt.edges, from)
    ensures var after := Step(m, EnqueuePacket);
      && InSession(after, sid)
      && (Prefix(h, after.s, after.log.entries) <==> m.rx.pkt.edges == [] || from <= Reached(m))
      && (from <= Reached(m) ==> |after.log.entries| == Max(Reached(m), from + |m.rx.pkt.edges|))
  {
    var start, log, edges := StartSession(m.s, m.rx.pkt), CurrentLog(m.s, m.log, m.rx.pkt), m.rx.pkt.edges;
    NewSessionPrefix(h, m);
    AcceptKeepsAtomics(m.cfg, start, m.rx.now, edges);
    if from <= Reached(m) {
      WindowExtends(m.cfg, h, start, log.entries, m.rx.now, edges, from);
    } else if edges == [] {
      WindowExtends(m.cfg, h, start, log.entries, m.rx.now, edges, 0);
    } else {
      GapBreaks(m.cfg, h, start, log.entries, m.rx.now, edges, from);
    }
  }

  /** One event, whatever it is: what is accepted stays a prefix exactly if a packet taken in overlaps it. */
  lemma {:induction false} PrefixStepExactly(h: seq<Edge>, sid: uint16, m: Machine, ev: Event)
    requires History(h) && AcceptedPrefix(h, sid, m) && Enabled(m, ev) && Windowed(h, sid, m, ev)
    ensures AcceptedPrefix(h, sid, Step(m, ev)) <==> Overlaps(h, sid, m, ev)
  {
    if ev.EnqueuePacket? {
      if m.rx.pkt.sessionId == sid {
        var from: nat :| CarriesWindow(h, m.rx.pkt.edges, from);
        TakesWindow(h, sid, m, from);
        if m.rx.pkt.edges == [] {
          assert CarriesWindow(h, m.rx.pkt.edges, 0);
        }
        if Overlaps(h, sid, m, ev) {
          var back: nat :| CarriesWindow(h, m.rx.pkt.edges, back) && back <= Reached(m);
          TakesWindow(h, sid, m, back);
        }
      } else {
        AcceptKeepsAtomics(m.cfg, StartSession(m.s, m.rx.pkt), m.rx.now, m.rx.pkt.edges);
      }
    }
  }

  // ---- runs ----

  ghost predicate WindowedRun(h: seq<Edge>, sid: uint16, m: Machine, evs: seq<Event>)
    requires Runnable(m, evs)
    decreases |evs|
  {
    evs == [] || (Windowed(h, sid, m, evs[0]) && WindowedRun(h, sid, Step(m, evs[0]), evs[1..]))
  }

  ghost predicate OverlapRun(h: seq<Edge>, sid: uint16, m: Machine, evs: seq<Event>)
    requires Runnable(m, evs)
    decreases |evs|
  {
    evs == [] || (Overlaps(h, sid, m, evs[0]) && OverlapRun(h, sid, Step(m, evs[0]), evs[1..]))
  }

  predicate PrefixThroughout(h: seq<Edge>, sid: uint16, m: Machine, evs: seq<Event>)
    requires Runnable(m, evs)
    decreases |evs|
  {
    AcceptedPrefix(h, sid, m) && (evs == [] || PrefixThroughout(h, sid, Step(m, evs[0]), evs[1..]))
  }

  /**
   * Loss tolerance, with overlap as its only condition: if each window of the session that is taken in reaches back to
   * what was accepted, the accepted edges are a prefix of the operator's, each accepted once. Packets may be lost,
   * repeated, reordered and late, the stream may fall silent and be anchored anew, other sessions and resets may
   * come between, and the threads may interleave in any way.
   */
  lemma {:induction false} AcceptsPrefix(h: seq<Edge>, sid: uint16, m: Machine, evs: seq<Event>)
    requires History(h) && AcceptedPrefix(h, sid, m) && Runnable(m, evs) && OverlapRun(h, sid, m, evs)
    ensures AcceptedPrefix(h, sid, Run(m, evs))
    decreases |evs|
  {
    if evs != [] {
      OverlapsIsWindowed(h, sid, m, evs[0]);
      PrefixStepExactly(h, sid, m, evs[0]);
      AcceptsPrefix(h, sid, Step(m, evs[0]), evs[1..]);
    }
  }

  lemma {:induction false} OverlapsIsWindowed(h: seq<Edge>, sid: uint16, m: Machine, ev: Event)
    requires Enabled(m, ev) && Overlaps(h, sid, m, ev)
    ensures Windowed(h, sid, m, ev)
  {
  }

  /** And overlap is needed: at every moment of a run the accepted edges are a prefix, exactly if no window taken in
      starts behind what was accepted. */
  lemma {:induction false} AcceptsPrefixExactly(h: seq<Edge>, sid: uint16, m: Machine, evs: seq<Event>)
    requires History(h) && AcceptedPrefix(h, sid, m) && Runnable(m, evs) && WindowedRun(h, sid, m, evs)
    ensures PrefixThroughout(h, sid, m, evs) <==> OverlapRun(h, sid, m, evs)
    decreases |evs|
  {
    if evs != [] {
      PrefixStepExactly(h, sid, m, evs[0]);
      if Overlaps(h, sid, m, evs[0]) {
        AcceptsPrefixExactly(h, sid, Step(m, evs[0]), evs[1..]);
      }
    }
  }

  // ---- said of the datagrams ----

  /** Where the window of a datagram of the session has to start at the latest. */
  function Back(current: bool, heard: nat, pkt: Packet): nat {
    if current && !IsReset(pkt.flags) then heard else 0
  }

  /**
   * The datagrams leave no gap: current says whether the session is the current one, heard how far its windows have
   * come. A reset and a packet of another session start from nothing.
   */
  ghost predicate NoGaps(h: seq<Edge>, sid: uint16, current: bool, heard: nat, evs: seq<Event>)
    decreases |evs|
  {
    evs == []
    || if evs[0].Datagram? && Decoded(evs[0].bytes).Some? then
         var pkt := Decoded(evs[0].bytes).value;
         if pkt.sessionId != sid then NoGaps(h, sid, false, 0, evs[1..])
         else
           var back := Back(current, heard, pkt);
           exists from: nat ::
             Reaches(h, pkt.edges, from, back) && NoGaps(h, sid, true, Max(back, from + |pkt.edges|), evs[1..])
       else NoGaps(h, sid, current, heard, evs[1..])
  }

  predicate Reaches(h: seq<Edge>, edges: seq<Edge>, from: nat, back: nat) {
    CarriesWindow(h, edges, from) && from <= back
  }

  /** The server has accepted what was heard, or will when it takes in the packet at hand. */
  ghost predicate Hears(h: seq<Edge>, sid: uint16, current: bool, heard: nat, m: Machine) {
    && AcceptedPrefix(h, sid, m)
    && (m.rx.Waiting? ==> current == InSession(m, sid) && (current ==> heard == |m.log.entries|))
    && (m.rx.Received? ==> current == (m.rx.pkt.sessionId == sid) && (current ==> WillHear(h, heard, m)))
  }

  ghost predicate WillHear(h: seq<Edge>, heard: nat, m: Machine)
    requires m.rx.Received?
  {
    exists from: nat ::
      Reaches(h, m.rx.pkt.edges, from, Reached(m)) && heard == Max(Reached(m), from + |m.rx.pkt.edges|)
  }

  lemma {:induction false} HearsEnqueued(h: seq<Edge>, sid: uint16, current: bool, heard: nat, m: Machine)
    requires History(h) && Hears(h, sid, current, heard, m) && m.rx.Received?
    ensures Overlaps(h, sid, m, EnqueuePacket) && Hears(h, sid, current, heard, Step(m, EnqueuePacket))
  {
    if current {
      var from: nat :| Reaches(h, m.rx.pkt.edges, from, Reached(m)) && heard == Max(Reached(m), from + |m.rx.pkt.edges|);
      TakesWindow(h, sid, m, from);
    } else {
      AcceptKeepsAtomics(m.cfg, StartSession(m.s, m.rx.pkt), m.rx.now, m.rx.pkt.edges);
    }
  }

  lemma {:induction false} HearsPacket(h: seq<Edge>, sid: uint16, current: bool, heard: nat, m: Machine, ev: Event,
                                       pkt: Packet, from: nat)
    requires Hears(h, sid, current, heard, m) && Enabled(m, ev) && ev.Datagram? && Decoded(ev.bytes) == Some(pkt)
    requires pkt.sessionId == sid && Reaches(h, pkt.edges, from, Back(current, heard, pkt))
    ensures Hears(h, sid, true, Max(Back(current, heard, pkt), from + |pkt.edges|), Step(m, ev))
  {
    var after := Step(m, ev);
    assert Reached(after) == Back(current, heard, pkt);
    assert Reaches(h, after.rx.pkt.edges, from, Reached(after));
  }

  /** The replay thread and other datagrams leave what was heard as it is. */
  lemma {:induction false} HearsOther(h: seq<Edge>, sid: uint16, current: bool, heard: nat, m: Machine, ev: Event)
    requires Hears(h, sid, current, heard, m) && Enabled(m, ev) && !ev.EnqueuePacket?
    requires ev.Datagram? ==> Decoded(ev.bytes).None?
    ensures Hears(h, sid, current, heard, Step(m, ev))
  {
    var after := Step(m, ev);
    if m.rx.Received? && current {
      var from: nat :| Reaches(h, m.rx.pkt.edges, from, Reached(m)) && heard == Max(Reached(m), from + |m.rx.pkt.edges|);
      assert Reached(after) == Reached(m) && Reaches(h, after.rx.pkt.edges, from, Reached(after));
    }
  }

  lemma {:induction false} HearsArrival(h: seq<Edge>, sid: uint16, current: bool, heard: nat, m: Machine,
                                        evs: seq<Event>, pkt: Packet)
      returns (far: nat)
    requires Hears(h, sid, current, heard, m) && NoGaps(h, sid, current, heard, evs)
    requires evs != [] && Enabled(m, evs[0]) && evs[0].Datagram? && Decoded(evs[0].bytes) == Some(pkt)
    ensures Hears(h, sid, pkt.sessionId == sid, far, Step(m, evs[0]))
    ensures NoGaps(h, sid, pkt.sessionId == sid, far, evs[1..])
  {
    far := 0;
    if pkt.sessionId == sid {
      var back := Back(current, heard, pkt);
      var from: nat :|
        Reaches(h, pkt.edges, from, back) && NoGaps(h, sid, true, Max(back, from + |pkt.edges|), evs[1..]);
      far := Max(back, from + |pkt.edges|);
      HearsPacket(h, sid, current, heard, m, evs[0], pkt, from);
    }
  }

  /** One event of such a run. */
  lemma {:induction false} HearsEvent(h: seq<Edge>, sid: uint16, current: bool, heard: nat, m: Machine, evs: seq<Event>)
      returns (now: bool, far: nat)
    requires History(h) && Hears(h, sid, current, heard, m)
    requires Runnable(m, evs) && evs != [] && NoGaps(h, sid, current, heard, evs)
    ensures Overlaps(h, sid, m, evs[0])
    ensures Hears(h, sid, now, far, Step(m, evs[0])) && NoGaps(h, sid, now, far, evs[1..])
  {
    now, far := current, heard;
    if evs[0].EnqueuePacket? {
      HearsEnqueued(h, sid, current, heard, m);
    } else if evs[0].Datagram? && Decoded(evs[0].bytes).Some? {
      now := Decoded(evs[0].bytes).value.sessionId == sid;
      far := HearsArrival(h, sid, current, heard, m, evs, Decoded(evs[0].bytes).value);
    } else {
      HearsOther(h, sid, current, heard, m, evs[0]);
    }
  }

  /** Datagrams without a gap are taken in without one: nothing else in the run has a say. */
  lemma {:induction false} NoGapsOverlap(h: seq<Edge>, sid: uint16, current: bool, heard: nat, m: Machine, evs: seq<Event>)
    requires History(h) && Hears(h, sid, current, heard, m) && Runnable(m, evs) && NoGaps(h, sid, current, heard, evs)
    ensures OverlapRun(h, sid, m, evs)
    decreases |evs|
  {
    if evs != [] {
      var now, far := HearsEvent(h, sid, current, heard, m, evs);
      NoGapsOverlap(h, sid, now, far, Step(m, evs[0]), evs[1..]);
    }
  }

  /** From a server that waits for its next datagram, in the session or not. */
  lemma {:induction false} NoGapsAccepts(h: seq<Edge>, sid: uint16, m: Machine, evs: seq<Event>)
    requires History(h) && AcceptedPrefix(h, sid, m) && m.rx.Waiting? && Runnable(m, evs)
    requires NoGaps(h, sid, InSession(m, sid), |m.log.entries|, evs)
    ensures AcceptedPrefix(h, sid, Run(m, evs))
  {
    NoGapsOverlap(h, sid, InSession(m, sid), |m.log.entries|, m, evs);
    AcceptsPrefix(h, sid, m, evs);
  }

  // ---- the history of 32 edges ----

  /**
   * An encoder that is given the first n edges sends the newest 32 of them. Whatever was lost before, the packet
   * makes it good exactly if at most 32 of its edges have not been accepted yet.
   */
  lemma {:induction false} LossIsMadeGoodExactly(h: seq<Edge>, sid: uint16, flags: uint8, n: nat, m: Machine)
    requires History(h) && AcceptedPrefix(h, sid, m) && n <= |h| && m.rx.Received?
    requires Decoded(Encoded(Packet(sid, flags, h[..n]))) == Some(m.rx.pkt)
    ensures AcceptedPrefix(h, sid, Step(m, EnqueuePacket)) <==> n <= Reached(m) + 32
  {
    RoundTrip(Packet(sid, flags, h[..n]));
    var from := if n <= MAX_EDGES then 0 else n - MAX_EDGES;
    assert m.rx.pkt.edges == h[from..n];
    TakesWindow(h, sid, m, from);
  }
}
