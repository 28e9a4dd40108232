/**
 * What the link has to do for the rig's key to follow the operator's, said of the packets, their arrival times and
 * the times of the ticks: each edge comes, in some packet, before the delay of the first packet and the playout
 * delay are over, and no tick can take the stream for silent. The receive thread is not held up before the lock.
 */
module RemoteKeyLink {
  import opened FixedWidth
  import opened Wrappers
  import opened RemoteKeyProtocol
  import opened RemoteKeyServer
  import opened RemoteKeyMachine
  import opened RemoteKeySafety
  import opened RemoteKeyQueue
  import opened RemoteKeyPrefix
  import opened RemoteKeyReplay
  import opened RemoteKeySilence

  // ---- the link ----

  /** The packet of this arrival holds the i-th edge of the history. */
  ghost predicate Brings(h: seq<Edge>, ev: Event, i: nat)
    requires i < |h|
  {
    ev.Datagram? && Decoded(ev.bytes).Some? && h[i] in Decoded(ev.bytes).value.edges
  }

  /** The i-th edge comes before its place on the timeline, which is offset behind the operator's. */
  ghost predicate BroughtInTime(h: seq<Edge>, offset: int, evs: seq<Event>, i: nat)
    requires i < |h|
  {
    exists k :: 0 <= k < |evs| && Brings(h, evs[k], i) && evs[k].now < h[i].ts + offset
  }

  /** The run ends before the i-th edge comes, and has no tick at or behind its place. */
  ghost predicate NotYet(h: seq<Edge>, offset: int, evs: seq<Event>, i: nat)
    requires i < |h|
  {
    (forall k :: 0 <= k < |evs| ==> !Brings(h, evs[k], i))
    && (forall k :: 0 <= k < |evs| && evs[k].BeginTick? ==> evs[k].now < h[i].ts + offset)
  }

  ghost predicate InTime(h: seq<Edge>, offset: int, heard: nat, evs: seq<Event>) {
    forall i :: heard <= i < |h| ==> BroughtInTime(h, offset, evs, i) || NotYet(h, offset, evs, i)
  }

  /** Only packets of the session arrive, each a window of the history that reaches back to the heard edges that
      came before; the first edge comes at its time of arrival that fixes offset. */
  ghost predicate LinkRun(h: seq<Edge>, sid: uint16, cfg: Config, offset: int, heard: nat, evs: seq<Event>)
    decreases |evs|
  {
    evs == []
    || if evs[0].Datagram? then
         Bounded(evs[0])
         && match Decoded(evs[0].bytes)
            case None => LinkRun(h, sid, cfg, offset, heard, evs[1..])
            case Some(pkt) =>
              pkt.sessionId == sid && !IsReset(pkt.flags)
              && exists from: nat ::
                   Arrives(h, cfg, offset, heard, evs[0].now, pkt.edges, from)
                   && LinkRun(h, sid, cfg, offset, Max(heard, from + |pkt.edges|), evs[1..])
       else Bounded(evs[0]) && LinkRun(h, sid, cfg, offset, heard, evs[1..])
  }

  predicate Arrives(h: seq<Edge>, cfg: Config, offset: int, heard: nat, now: uint64, edges: seq<Edge>, from: nat) {
    CarriesWindow(h, edges, from) && from <= heard
    && (heard == 0 && edges != [] ==> now + Micros(cfg.playoutMs) == h[0].ts + offset)
  }

  // ---- the rest of what a session run asks for ----

  /** No tick finds the stream silent, and the operator keeps within the watchdog's limit. */
  ghost predicate Quiet(h: seq<Edge>, offset: int, m: Machine, ev: Event)
    requires Enabled(m, ev)
  {
    match ev
    case TestSilence => !IsSilent(m.cfg, m.s, Sub64(m.tick, m.replay.rxSeen))
    case FinishTick => HeldAtMost(h, m.tick - offset, Micros(m.cfg.maxKeyDownMs))
    case _ => true
  }

  ghost predicate QuietRun(h: seq<Edge>, offset: int, m: Machine, evs: seq<Event>)
    requires Runnable(m, evs)
    decreases |evs|
  {
    evs == [] || (Quiet(h, offset, m, evs[0]) && QuietRun(h, offset, Step(m, evs[0]), evs[1..]))
  }

  // ---- the server hears what the link brings ----

  function Accepted(m: Machine, sid: uint16): nat {
    if InSession(m, sid) then |m.log.entries| else 0
  }

  /** heard edges have come: they are accepted, or in the packet that waits for the lock. */
  ghost predicate Heard(h: seq<Edge>, sid: uint16, offset: int, heard: nat, m: Machine) {
    var k := Accepted(m, sid);
    heard <= |h|
    && (k > 0 ==> Offset(m.s) == offset)
    && (!m.replay.Asleep? && heard < |h| ==> m.tick < h[heard].ts + offset)
    && (m.rx.Waiting? ==> heard == k)
    && (m.rx.Received? ==>
          exists from: nat :: Arrives(h, m.cfg, offset, k, m.rx.now, m.rx.pkt.edges, from)
                              && heard == Max(k, from + |m.rx.pkt.edges|)
                              && (k < heard ==> m.rx.now <= h[k].ts + offset))
  }

  lemma {:induction false} ArrivalsLater(m: Machine, evs: seq<Event>, k: nat)
    requires Runnable(m, evs) && k < |evs| && evs[k].Datagram?
    ensures m.clock <= evs[k].now
    decreases |evs|
  {
    if k > 0 {
      ArrivalsLater(Step(m, evs[0]), evs[1..], k - 1);
    }
  }

  /** The next edge not heard yet is in time at every moment of the run. */
  lemma {:induction false} NextInTime(h: seq<Edge>, offset: int, heard: nat, m: Machine, evs: seq<Event>)
    requires Runnable(m, evs) && evs != [] && InTime(h, offset, heard, evs) && heard < |h|
    ensures evs[0].BeginTick? || (evs[0].Datagram? && Brings(h, evs[0], heard)) ==> evs[0].now < h[heard].ts + offset
  {
    if BroughtInTime(h, offset, evs, heard) {
      var k :| 0 <= k < |evs| && Brings(h, evs[k], heard) && evs[k].now < h[heard].ts + offset;
      if k > 0 {
        assert evs[1..][k - 1] == evs[k];
        ArrivalsLater(Step(m, evs[0]), evs[1..], k - 1);
      }
    }
  }

  lemma {:induction false} StaysInTime(h: seq<Edge>, offset: int, heard: nat, later: nat, evs: seq<Event>)
    requires evs != [] && InTime(h, offset, heard, evs) && heard <= later
    requires forall i :: later <= i < |h| ==> !Brings(h, evs[0], i)
    ensures InTime(h, offset, later, evs[1..])
  {
    var rest := evs[1..];
    forall i | later <= i < |h|
      ensures BroughtInTime(h, offset, rest, i) || NotYet(h, offset, rest, i)
    {
      if BroughtInTime(h, offset, evs, i) {
        var k :| 0 <= k < |evs| && Brings(h, evs[k], i) && evs[k].now < h[i].ts + offset;
        assert rest[k - 1] == evs[k];
      } else {
        forall k | 0 <= k < |rest|
          ensures !Brings(h, rest[k], i) && (rest[k].BeginTick? ==> rest[k].now < h[i].ts + offset)
        {
          assert rest[k] == evs[k + 1];
        }
      }
    }
  }

  /** A window holds no edge behind its end. */
  lemma {:induction false} WindowEnds(h: seq<Edge>, edges: seq<Edge>, from: nat, i: nat)
    requires Increasing(h) && CarriesWindow(h, edges, from) && i < |h|
    ensures h[i] in edges <==> from <= i < from + |edges|
  {
    assert from <= i < from + |edges| ==> edges[i - from] == h[i];
    if h[i] in edges {
      var j :| 0 <= j < |edges| && edges[j] == h[i];
      if i < from + j {
        HistoryAt(h, i, from + j);
      } else if from + j < i {
        HistoryAt(h, from + j, i);
      }
    }
  }

  lemma {:induction false} HearsArrival(h: seq<Edge>, sid: uint16, offset: int, heard: nat, m: OrderedMachine,
                                        evs: seq<Event>, from: nat)
    requires OperatorHistory(h) && Heard(h, sid, offset, heard, m)
    requires Runnable(m, evs) && evs != [] && evs[0].Datagram? && Decoded(evs[0].bytes).Some?
    requires InTime(h, offset, heard, evs)
    requires Arrives(h, m.cfg, offset, heard, evs[0].now, Decoded(evs[0].bytes).value.edges, from)
    ensures var later := Max(heard, from + |Decoded(evs[0].bytes).value.edges|);
      Heard(h, sid, offset, later, Step(m, evs[0])) && InTime(h, offset, later, evs[1..])
  {
    var edges := Decoded(evs[0].bytes).value.edges;
    var later := Max(heard, from + |edges|);
    if heard < later {
      WindowEnds(h, edges, from, heard);
      NextInTime(h, offset, heard, m, evs);
      if later < |h| {
        HistoryAt(h, heard, later);
      }
    }
    forall i | later <= i < |h|
      ensures !Brings(h, evs[0], i)
    {
      WindowEnds(h, edges, from, i);
    }
    StaysInTime(h, offset, heard, later, evs);
  }

  lemma {:induction false} TakesInMore(h: seq<Edge>, sid: uint16, offset: int, m: OrderedMachine, from: nat)
    requires OperatorHistory(h) && Follows(h, sid, m) && m.rx.Received? && InSession(m, sid)
    requires |m.log.entries| > 0 ==> Offset(m.s) == offset
    requires Arrives(h, m.cfg, offset, |m.log.entries|, m.rx.now, m.rx.pkt.edges, from)
    requires 0 < |m.log.entries| < from + |m.rx.pkt.edges| ==> m.rx.now <= h[|m.log.entries|].ts + offset
    ensures var after := Step(m, EnqueuePacket);
      Accepted(after, sid) == Max(|m.log.entries|, from + |m.rx.pkt.edges|)
      && (Accepted(after, sid) > 0 ==> Offset(after.s) == offset)
  {
    assert !StartsSession(m.s, m.rx.pkt);
    AcceptWindow(m.cfg, h, m.s, m.log.entries, m.rx.now, m.rx.pkt.edges, from);
    AcceptKeepsAtomics(m.cfg, m.s, m.rx.now, m.rx.pkt.edges);
    AcceptAnchors(m.cfg, m.s, m.rx.now, m.rx.pkt.edges);
  }

  lemma {:induction false} TakesInFirst(h: seq<Edge>, sid: uint16, offset: int, m: OrderedMachine)
    requires OperatorHistory(h) && Follows(h, sid, m) && m.rx.Received? && !InSession(m, sid)
    requires Arrives(h, m.cfg, offset, 0, m.rx.now, m.rx.pkt.edges, 0)
    ensures var after := Step(m, EnqueuePacket);
      Accepted(after, sid) == |m.rx.pkt.edges| && (Accepted(after, sid) > 0 ==> Offset(after.s) == offset)
  {
    assert StartsSession(m.s, m.rx.pkt);
    var start := StartSession(m.s, m.rx.pkt);
    AcceptWindow(m.cfg, h, start, [], m.rx.now, m.rx.pkt.edges, 0);
    AcceptKeepsAtomics(m.cfg, start, m.rx.now, m.rx.pkt.edges);
    AcceptAnchors(m.cfg, start, m.rx.now, m.rx.pkt.edges);
  }

  lemma {:induction false} WaitingDelivers(h: seq<Edge>, sid: uint16, offset: int, heard: nat, m: OrderedMachine)
      returns (from: nat)
    requires m.rx.Received? && Heard(h, sid, offset, heard, m)
    ensures var k := Accepted(m, sid);
      Arrives(h, m.cfg, offset, k, m.rx.now, m.rx.pkt.edges, from) && heard == Max(k, from + |m.rx.pkt.edges|)
      && (k < heard ==> m.rx.now <= h[k].ts + offset)
    ensures Delivers(h, sid, m, EnqueuePacket)
  {
    var k := Accepted(m, sid);
    from :| Arrives(h, m.cfg, offset, k, m.rx.now, m.rx.pkt.edges, from) && heard == Max(k, from + |m.rx.pkt.edges|)
            && (k < heard ==> m.rx.now <= h[k].ts + offset);
    assert CarriesWindow(h, m.rx.pkt.edges, from) && from <= k;
  }

  lemma {:induction false} HeardWhenTaken(h: seq<Edge>, sid: uint16, offset: int, heard: nat, m: Machine, after: Machine)
    requires Heard(h, sid, offset, heard, m)
    requires after.rx.Waiting? && after.replay == m.replay && after.tick == m.tick
    requires Accepted(after, sid) == heard && (heard > 0 ==> Offset(after.s) == offset)
    ensures Heard(h, sid, offset, heard, after)
  {
  }

  /** The packet that waited is taken in: the server has accepted what was heard, on the timeline promised. */
  lemma {:induction false} TakesIn(h: seq<Edge>, sid: uint16, offset: int, heard: nat, m: OrderedMachine)
    requires OperatorHistory(h) && Follows(h, sid, m) && m.rx.Received? && Heard(h, sid, offset, heard, m)
    ensures Delivers(h, sid, m, EnqueuePacket)
    ensures Heard(h, sid, offset, heard, Step(m, EnqueuePacket))
  {
    var from := WaitingDelivers(h, sid, offset, heard, m);
    if InSession(m, sid) {
      TakesInMore(h, sid, offset, m, from);
    } else {
      TakesInFirst(h, sid, offset, m);
    }
    HeardWhenTaken(h, sid, offset, heard, m, Step(m, EnqueuePacket));
  }

  lemma {:induction false} FinishDelivers(h: seq<Edge>, sid: uint16, offset: int, heard: nat, m: OrderedMachine)
    requires Follows(h, sid, m) && m.replay.Ready? && m.rx.Waiting? && Heard(h, sid, offset, heard, m)
    requires ResetFirst(m) && Quiet(h, offset, m, FinishTick)
    ensures Delivers(h, sid, m, FinishTick)
  {
    if m.s.resetRequested {
      NothingDueBeforeReset(m);
    }
  }

  lemma {:induction false} LinkArrival(h: seq<Edge>, sid: uint16, cfg: Config, offset: int, heard: nat, evs: seq<Event>)
      returns (from: nat)
    requires evs != [] && evs[0].Datagram? && Decoded(evs[0].bytes).Some?
    requires LinkRun(h, sid, cfg, offset, heard, evs)
    ensures var edges := Decoded(evs[0].bytes).value.edges;
      Arrives(h, cfg, offset, heard, evs[0].now, edges, from)
      && LinkRun(h, sid, cfg, offset, Max(heard, from + |edges|), evs[1..])
  {
    var edges := Decoded(evs[0].bytes).value.edges;
    from :| Arrives(h, cfg, offset, heard, evs[0].now, edges, from)
            && LinkRun(h, sid, cfg, offset, Max(heard, from + |edges|), evs[1..]);
  }

  lemma {:induction false} DatagramDelivers(h: seq<Edge>, sid: uint16, offset: int, heard: nat, m: OrderedMachine,
                                            evs: seq<Event>)
    requires Runnable(m, evs) && evs != [] && evs[0].Datagram?
    requires LinkRun(h, sid, m.cfg, offset, heard, evs)
    ensures Bounded(evs[0]) && Delivers(h, sid, m, evs[0])
  {
  }

  lemma {:induction false} HearsDatagram(h: seq<Edge>, sid: uint16, offset: int, heard: nat, m: OrderedMachine,
                                         evs: seq<Event>)
      returns (later: nat)
    requires OperatorHistory(h) && Heard(h, sid, offset, heard, m)
    requires Runnable(m, evs) && evs != [] && evs[0].Datagram?
    requires LinkRun(h, sid, m.cfg, offset, heard, evs) && InTime(h, offset, heard, evs)
    ensures Bounded(evs[0]) && Delivers(h, sid, m, evs[0])
    ensures Heard(h, sid, offset, later, Step(m, evs[0]))
    ensures LinkRun(h, sid, m.cfg, offset, later, evs[1..]) && InTime(h, offset, later, evs[1..])
  {
    later := heard;
    DatagramDelivers(h, sid, offset, heard, m, evs);
    if Decoded(evs[0].bytes).Some? {
      var from := LinkArrival(h, sid, m.cfg, offset, heard, evs);
      later := Max(heard, from + |Decoded(evs[0].bytes).value.edges|);
      HearsArrival(h, sid, offset, heard, m, evs, from);
    } else {
      StaysInTime(h, offset, heard, heard, evs);
    }
  }

  lemma {:induction false} HearsNothing(h: seq<Edge>, sid: uint16, offset: int, heard: nat, m: OrderedMachine, ev: Event)
    requires Follows(h, sid, m) && Heard(h, sid, offset, heard, m) && ResetFirst(m) && OperatorHistory(h)
    requires Enabled(m, ev) && !ev.Datagram? && Bounded(ev) && Prompt(m, ev) && Quiet(h, offset, m, ev)
    requires ev.BeginTick? && heard < |h| ==> ev.now < h[heard].ts + offset
    ensures Delivers(h, sid, m, ev) && Heard(h, sid, offset, heard, Step(m, ev))
  {
    match ev
    case EnqueuePacket => TakesIn(h, sid, offset, heard, m);
    case FinishTick => FinishDelivers(h, sid, offset, heard, m);
    case _ =>
  }

  /** One event of a run over the link. */
  lemma {:induction false} HearsNext(h: seq<Edge>, sid: uint16, offset: int, heard: nat, m: OrderedMachine,
                                     evs: seq<Event>)
      returns (later: nat)
    requires OperatorHistory(h) && Follows(h, sid, m) && Heard(h, sid, offset, heard, m) && ResetFirst(m)
    requires Runnable(m, evs) && evs != [] && Prompt(m, evs[0]) && Quiet(h, offset, m, evs[0])
    requires LinkRun(h, sid, m.cfg, offset, heard, evs) && InTime(h, offset, heard, evs)
    ensures Bounded(evs[0]) && Delivers(h, sid, m, evs[0])
    ensures Heard(h, sid, offset, later, Step(m, evs[0]))
    ensures LinkRun(h, sid, m.cfg, offset, later, evs[1..]) && InTime(h, offset, later, evs[1..])
  {
    if evs[0].Datagram? {
      later := HearsDatagram(h, sid, offset, heard, m, evs);
    } else {
      later := heard;
      if heard < |h| {
        NextInTime(h, offset, heard, m, evs);
      }
      HearsNothing(h, sid, offset, heard, m, evs[0]);
      StaysInTime(h, offset, heard, heard, evs);
    }
  }

  lemma {:induction false} QuietDelivers(h: seq<Edge>, sid: uint16, offset: int, heard: nat, m: OrderedMachine,
                                        evs: seq<Event>)
    requires OperatorHistory(h) && Follows(h, sid, m) && Heard(h, sid, offset, heard, m)
    requires m.cfg.playoutMs > 0 && Fresh(m) && ResetFirst(m)
    requires Runnable(m, evs) && PromptRun(m, evs) && QuietRun(h, offset, m, evs)
    requires LinkRun(h, sid, m.cfg, offset, heard, evs) && InTime(h, offset, heard, evs)
    ensures DeliveredRun(h, sid, m, evs)
    ensures Accepted(Run(m, evs), sid) > 0 ==> Offset(Run(m, evs).s) == offset
    decreases |evs|
  {
    if evs != [] {
      var later := HearsNext(h, sid, offset, heard, m, evs);
      var after := KeepsOn(h, sid, m, evs[0]);
      QuietDelivers(h, sid, offset, later, after, evs[1..]);
    }
  }

  lemma {:induction false} KeepsOn(h: seq<Edge>, sid: uint16, m: OrderedMachine, ev: Event) returns (after: OrderedMachine)
    requires OperatorHistory(h) && Follows(h, sid, m) && Enabled(m, ev) && Bounded(ev) && Delivers(h, sid, m, ev)
    requires m.cfg.playoutMs > 0 && Fresh(m) && ResetFirst(m) && Prompt(m, ev)
    ensures after == Step(m, ev) && after.cfg == m.cfg
    ensures Follows(h, sid, after) && Fresh(after) && ResetFirst(after)
  {
    SafeStep(m, ev);
    FreshStep(m, ev);
    OrderedStep(m, ev);
    ResetFirstStep(m, ev);
    FollowsStep(h, sid, m, ev);
    after := Step(m, ev);
  }

  /** At none of the ticks has the operator held the key beyond the limit. */
  ghost predicate OperatorKeeps(h: seq<Edge>, offset: int, limit: nat, evs: seq<Event>) {
    forall k :: 0 <= k < |evs| && evs[k].BeginTick? ==> HeldAtMost(h, evs[k].now - offset, limit)
  }

  lemma {:induction false} LinkIsBounded(h: seq<Edge>, sid: uint16, cfg: Config, offset: int, heard: nat, evs: seq<Event>)
    requires LinkRun(h, sid, cfg, offset, heard, evs)
    ensures forall k :: 0 <= k < |evs| ==> Bounded(evs[k])
    decreases |evs|
  {
    if evs != [] {
      if evs[0].Datagram? && Decoded(evs[0].bytes).Some? {
        var from := LinkArrival(h, sid, cfg, offset, heard, evs);
        LinkIsBounded(h, sid, cfg, offset, Max(heard, from + |Decoded(evs[0].bytes).value.edges|), evs[1..]);
      } else {
        LinkIsBounded(h, sid, cfg, offset, heard, evs[1..]);
      }
      forall k | 0 <= k < |evs|
        ensures Bounded(evs[k])
      {
        assert k > 0 ==> evs[k] == evs[1..][k - 1];
      }
    }
  }

  lemma {:induction false} EventKeepsQuiet(h: seq<Edge>, offset: int, limit: nat, m: Machine, ev: Event)
    requires Enabled(m, ev) && (ev.TestSilence? ==> !FindsSilence(m))
    requires limit == Micros(m.cfg.maxKeyDownMs) && (ev.BeginTick? ==> HeldAtMost(h, ev.now - offset, limit))
    requires !m.replay.Asleep? ==> HeldAtMost(h, m.tick - offset, limit)
    ensures var after := Step(m, ev);
      Quiet(h, offset, m, ev) && after.cfg == m.cfg
      && (!after.replay.Asleep? ==> HeldAtMost(h, after.tick - offset, limit))
  {
  }

  lemma {:induction false} EventsKeepQuiet(h: seq<Edge>, offset: int, limit: nat, m: Machine, evs: seq<Event>)
    requires Runnable(m, evs) && NeverSilent(m, evs)
    requires limit == Micros(m.cfg.maxKeyDownMs) && OperatorKeeps(h, offset, limit, evs)
    requires !m.replay.Asleep? ==> HeldAtMost(h, m.tick - offset, limit)
    ensures QuietRun(h, offset, m, evs)
    decreases |evs|
  {
    if evs != [] {
      EventKeepsQuiet(h, offset, limit, m, evs[0]);
      forall k | 0 <= k < |evs| - 1 && evs[1..][k].BeginTick?
        ensures HeldAtMost(h, evs[1..][k].now - offset, limit)
      {
        assert evs[1..][k] == evs[k + 1];
      }
      EventsKeepQuiet(h, offset, limit, Step(m, evs[0]), evs[1..]);
    }
  }

  /** A run over the link is one that delivers, and the server keeps to the timeline promised. */
  lemma {:induction false} LinkDelivers(h: seq<Edge>, sid: uint16, offset: int, m: OrderedMachine, evs: seq<Event>)
    requires OperatorHistory(h) && m.rx.Waiting? && m.replay.Asleep? && !InSession(m, sid)
    requires m.cfg.playoutMs > 0 && Fresh(m) && ResetFirst(m)
    requires Runnable(m, evs) && PromptRun(m, evs)
    requires LinkRun(h, sid, m.cfg, offset, 0, evs) && InTime(h, offset, 0, evs)
    requires Alive(Micros(m.cfg.silenceMs), m.s.lastRx, Resting, evs)
    requires OperatorKeeps(h, offset, Micros(m.cfg.maxKeyDownMs), evs)
    ensures DeliveredRun(h, sid, m, evs)
    ensures Accepted(Run(m, evs), sid) > 0 ==> Offset(Run(m, evs).s) == offset
  {
    SessionStarts(h, sid, m);
    LinkIsBounded(h, sid, m.cfg, offset, 0, evs);
    AliveRun(m, Resting, evs);
    EventsKeepQuiet(h, offset, Micros(m.cfg.maxKeyDownMs), m, evs);
    QuietDelivers(h, sid, offset, 0, m, evs);
  }

  // ---- when the session has begun ----

  predicate OfSession(sid: uint16, ev: Event) {
    ev.Datagram? && Decoded(ev.bytes).Some? ==>
      Decoded(ev.bytes).value.sessionId == sid && !IsReset(Decoded(ev.bytes).value.flags)
  }

  lemma {:induction false} LinkIsOfSession(h: seq<Edge>, sid: uint16, cfg: Config, offset: int, heard: nat, evs: seq<Event>)
    requires LinkRun(h, sid, cfg, offset, heard, evs)
    ensures forall k :: 0 <= k < |evs| ==> OfSession(sid, evs[k])
    decreases |evs|
  {
    if evs != [] {
      if evs[0].Datagram? && Decoded(evs[0].bytes).Some? {
        var from := LinkArrival(h, sid, cfg, offset, heard, evs);
        LinkIsOfSession(h, sid, cfg, offset, Max(heard, from + |Decoded(evs[0].bytes).value.edges|), evs[1..]);
      } else {
        LinkIsOfSession(h, sid, cfg, offset, heard, evs[1..]);
      }
      forall k | 0 <= k < |evs|
        ensures OfSession(sid, evs[k])
      {
        assert k > 0 ==> evs[k] == evs[1..][k - 1];
      }
    }
  }

  /** The session has edges, and no packet at hand can start it anew. */
  predicate Begun(sid: uint16, m: Machine) {
    && InSession(m, sid) && m.log.entries != []
    && (m.rx.Received? ==> m.rx.pkt.sessionId == sid && !IsReset(m.rx.pkt.flags))
  }

  lemma {:induction false} BegunStep(sid: uint16, m: Machine, ev: Event)
    requires Begun(sid, m) && Enabled(m, ev) && OfSession(sid, ev)
    ensures Begun(sid, Step(m, ev)) && (ev.BeginTick? || !m.s.resetRequested ==> !Step(m, ev).s.resetRequested)
  {
    if ev.EnqueuePacket? {
      AcceptKeepsAtomics(m.cfg, m.s, m.rx.now, m.rx.pkt.edges);
    }
  }

  /** A tick takes the reset of the session, and no other comes. */
  lemma {:induction false} TickTakesReset(sid: uint16, m: Machine, evs: seq<Event>)
    requires Begun(sid, m) && Runnable(m, evs) && forall k :: 0 <= k < |evs| ==> OfSession(sid, evs[k])
    requires !m.s.resetRequested || exists k :: 0 <= k < |evs| && evs[k].BeginTick?
    ensures Begun(sid, Run(m, evs)) && !Run(m, evs).s.resetRequested
    decreases |evs|
  {
    if evs != [] {
      var rest := evs[1..];
      assert forall k :: 0 <= k < |rest| ==> rest[k] == evs[k + 1];
      BegunStep(sid, m, evs[0]);
      if m.s.resetRequested && !evs[0].BeginTick? {
        var k :| 0 <= k < |evs| && evs[k].BeginTick?;
        assert rest[k - 1].BeginTick?;
      }
      TickTakesReset(sid, Step(m, evs[0]), rest);
    }
  }

  lemma {:induction false} NothingNew(cfg: Config, s: Shared, now: uint64, edges: seq<Edge>)
    requires NewEntries(cfg, s, now, edges) == []
    ensures AcceptEdges(cfg, s, now, edges) == s && forall i :: 0 <= i < |edges| ==> edges[i].ts <= s.highWater
  {
    if edges != [] {
      var front := edges[..|edges| - 1];
      NothingNew(cfg, s, now, front);
      assert forall i :: 0 <= i < |front| ==> edges[i] == front[i];
    }
  }

  /** Taking in a packet of the session with an edge of the operator begins it. */
  lemma {:induction false} PacketBegins(sid: uint16, m: OrderedMachine, e: Edge)
    requires m.rx.Received? && m.rx.pkt.sessionId == sid && e in m.rx.pkt.edges && 0 < e.ts
    ensures Begun(sid, Step(m, EnqueuePacket))
  {
    var start := StartSession(m.s, m.rx.pkt);
    AcceptKeepsAtomics(m.cfg, start, m.rx.now, m.rx.pkt.edges);
    if NewEntries(m.cfg, start, m.rx.now, m.rx.pkt.edges) == [] {
      NothingNew(m.cfg, start, m.rx.now, m.rx.pkt.edges);
    }
  }

  /** The first edge comes before some tick begins. */
  ghost predicate StartedBefore(h: seq<Edge>, evs: seq<Event>) {
    exists i, j :: StartsAt(h, evs, i, j)
  }

  ghost predicate StartsAt(h: seq<Edge>, evs: seq<Event>, i: int, j: int) {
    h != [] && 0 <= i < j < |evs| && Brings(h, evs[i], 0) && evs[j].BeginTick?
  }

  /** With a prompt receive thread, the session has begun then and its reset has been taken, for the rest of the run. */
  lemma {:induction false} HasBegun(h: seq<Edge>, sid: uint16, m: OrderedMachine, evs: seq<Event>, i: int, j: int)
    requires OperatorHistory(h) && Runnable(m, evs) && PromptRun(m, evs) && StartsAt(h, evs, i, j)
    requires forall k :: 0 <= k < |evs| ==> OfSession(sid, evs[k]) && Bounded(evs[k])
    ensures Begun(sid, Run(m, evs)) && !Run(m, evs).s.resetRequested
    decreases |evs|
  {
    var rest := evs[1..];
    assert forall k :: 0 <= k < |rest| ==> rest[k] == evs[k + 1];
    SafeStep(m, evs[0]);
    OrderedStep(m, evs[0]);
    var after: OrderedMachine := Step(m, evs[0]);
    if i > 0 {
      HasBegun(h, sid, after, rest, i - 1, j - 1);
    } else {
      assert rest[0].EnqueuePacket? && OfSession(sid, evs[0]);
      PacketBegins(sid, after, h[0]);
      var later := rest[1..];
      assert later[j - 2] == evs[j] && forall k :: 0 <= k < |later| ==> later[k] == evs[k + 2];
      TickTakesReset(sid, Step(after, EnqueuePacket), later);
    }
  }

  /**
   * End to end over the link. The delay of the first packet and the playout delay fix how far the rig is behind; if
   * every edge comes, in some packet, before its place on that timeline, then after a tick at local time t the rig's
   * key is the operator's at source time t - offset.
   */
  lemma {:induction false} EndToEndOverLink(h: seq<Edge>, sid: uint16, offset: int, m: OrderedMachine, evs: seq<Event>,
                                            last: Machine)
    requires OperatorHistory(h) && m.rx.Waiting? && m.replay.Asleep? && !InSession(m, sid)
    requires m.cfg.playoutMs > 0 && Fresh(m) && ResetFirst(m)
    requires Runnable(m, evs) && PromptRun(m, evs)
    requires LinkRun(h, sid, m.cfg, offset, 0, evs) && InTime(h, offset, 0, evs)
    requires Alive(Micros(m.cfg.silenceMs), m.s.lastRx, Resting, evs)
    requires OperatorKeeps(h, offset, Micros(m.cfg.maxKeyDownMs), evs)
    requires evs != [] && evs[|evs| - 1] == FinishTick && last == Run(m, evs)
    ensures InSession(last, sid) && last.log.entries != [] && !last.s.resetRequested ==>
      last.rig.keyDown == KeyAt(h, last.tick - offset)
    ensures StartedBefore(h, evs) ==> last.rig.keyDown == KeyAt(h, last.tick - offset)
  {
    SessionStarts(h, sid, m);
    LinkDelivers(h, sid, offset, m, evs);
    assert ShowsKey(h, sid, last) by { EndToEnd(h, sid, m, evs); }
    if StartedBefore(h, evs) {
      var i, j :| StartsAt(h, evs, i, j);
      LinkIsBounded(h, sid, m.cfg, offset, 0, evs);
      LinkIsOfSession(h, sid, m.cfg, offset, 0, evs);
      HasBegun(h, sid, m, evs, i, j);
    }
  }
}
