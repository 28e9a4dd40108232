/** From cwdaemon text to the key: messages compiled, fed byte by byte and played. */
module CwdaemonSession {
  import opened FixedWidth
  import opened Wrappers
  import opened Sequences
  import opened CharPatterns
  import opened WinKeyer
  import opened CwDaemon
  import opened Ring
  import opened Keyer
  import opened KeyerFraming
  import opened KeyerPlay
  import opened KeyerProgress
  import opened KeyerDrains
  import Morse

  /** Text messages, each compiled at the same configured speed. */
  predicate TextMessages(messages: seq<seq<uint8>>) {
    forall i :: 0 <= i < |messages| ==> Message(messages[i]) && messages[i][0] != ESCAPE
  }

  function SessionBytes(messages: seq<seq<uint8>>, speed: uint8): seq<uint8>
    requires TextMessages(messages)
  {
    if messages == [] then []
    else
      MessageMeans(messages[0], speed);
      ToWinkeyer(messages[0], speed).value + SessionBytes(messages[1..], speed)
  }

  function SessionMarks(messages: seq<seq<uint8>>, speed: uint8): seq<Mark>
    requires TextMessages(messages)
  {
    if messages == [] then [] else TextMarks(TextOf(messages[0]), speed, false) + SessionMarks(messages[1..], speed)
  }

  lemma {:induction false} SessionMeans(messages: seq<seq<uint8>>, speed: uint8)
    requires TextMessages(messages)
    ensures Whole(SessionBytes(messages, speed))
    ensures StreamMarks(SessionBytes(messages, speed), speed) == SessionMarks(messages, speed)
    ensures StreamSpeed(SessionBytes(messages, speed), speed) == speed
    decreases |messages|
  {
    if messages != [] {
      MessageMeans(messages[0], speed);
      SessionMeans(messages[1..], speed);
      var first := ToWinkeyer(messages[0], speed).value;
      var rest := SessionBytes(messages[1..], speed);
      MissingAppend(first, rest);
      SpeedAppend(first, rest, speed);
      MarksAppend(first, rest, speed);
    }
  }

  /** A keyer with nothing to do, at a speed. */
  predicate AtRest(k: KeyerState, speed: uint8) {
    && Playing(k.d) && Drained(k) && k.d.pace.speedWpm == speed
    && k.d.parser.waiting == 0 && k.d.parser.remaining == 0
  }

  /** A session that starts at rest. */
  lemma {:induction false} SessionStreams(k: KeyerState, messages: seq<seq<uint8>>, speed: uint8)
    requires AtRest(k, speed) && TextMessages(messages)
    ensures var s := Session(k, SessionBytes(messages, speed));
      && Streaming(s)
      && Total(s.k, s.rest) == k.d.marks + SessionMarks(messages, speed)
      && FinalSpeed(s.k, s.rest) == speed
  {
    SessionMeans(messages, speed);
    RestingTotal(k, SessionBytes(messages, speed));
  }

  /** A keyer at rest has nothing of its own to add to what comes. */
  lemma {:induction false} RestingTotal(k: KeyerState, rest: seq<uint8>)
    requires Drained(k)
    ensures k.ring + rest == rest
    ensures Total(k, rest) == k.d.marks + StreamMarks(rest, k.d.pace.speedWpm)
  {
    assert k.ring + rest == rest;
    assert PendingMarks(k.d) == [];
    assert k.d.marks + [] == k.d.marks;
  }

  /** Safety, at every moment of every interleaving of feeding and ticking: what has been keyed is a
      prefix of what the texts mean. */
  lemma {:induction false} KeysAPrefix(k: KeyerState, messages: seq<seq<uint8>>, speed: uint8, moves: seq<Move>)
    requires AtRest(k, speed) && TextMessages(messages)
    requires PossibleMoves(Session(k, SessionBytes(messages, speed)), moves)
    ensures Played(Session(k, SessionBytes(messages, speed)), moves).k.d.marks
         <= k.d.marks + SessionMarks(messages, speed)
  {
    var s := Session(k, SessionBytes(messages, speed));
    SessionStreams(k, messages, speed);
    MovesConserve(s, moves);
    var end := Played(s, moves);
    KeyedIsPrefix(end.k, end.rest);
  }

  lemma {:induction false} KeyedIsPrefix(k: KeyerState, rest: seq<uint8>)
    ensures k.d.marks <= Total(k, rest)
  {
    var pending, later := PendingMarks(k.d), StreamMarks(k.ring + rest, k.d.pace.speedWpm);
    Regroup(k.d.marks, pending, later);
    assert k.d.marks <= k.d.marks + (pending + later);
  }

  /** With nothing left, the total is what was keyed. */
  lemma {:induction false} DrainedTotal(k: KeyerState)
    requires Drained(k)
    ensures Total(k, []) == k.d.marks && FinalSpeed(k, []) == k.d.pace.speedWpm
  {
    assert k.ring + [] == [];
    assert PendingMarks(k.d) == [];
    assert k.d.marks + [] + [] == k.d.marks;
  }

  /** End to end: when all bytes are fed and the ring is drained, exactly the texts have been keyed,
      each character wholly at its own speed and followed by one character space, and the speed is
      back where it was. */
  lemma {:induction false} KeysTheTexts(k: KeyerState, messages: seq<seq<uint8>>, speed: uint8, moves: seq<Move>)
    requires AtRest(k, speed) && TextMessages(messages)
    requires PossibleMoves(Session(k, SessionBytes(messages, speed)), moves)
    requires var end := Played(Session(k, SessionBytes(messages, speed)), moves);
      end.rest == [] && Drained(end.k)
    ensures var end := Played(Session(k, SessionBytes(messages, speed)), moves).k;
      end.d.marks == k.d.marks + SessionMarks(messages, speed) && AtRest(end, speed)
  {
    var s := Session(k, SessionBytes(messages, speed));
    SessionStreams(k, messages, speed);
    MovesConserve(s, moves);
    DrainedTotal(Played(s, moves).k);
  }

  /** The clock does not go back in these moves, nor before now. */
  predicate ClocksFrom(now: int, moves: seq<Move>)
    decreases |moves|
  {
    moves == []
    || match moves[0]
       case Forward => ClocksFrom(now, moves[1..])
       case Clock(t) => now <= t && ClocksFrom(t, moves[1..])
  }

  function LastClock(now: int, moves: seq<Move>): int
    decreases |moves|
  {
    if moves == [] then now else LastClock(if moves[0].Clock? then moves[0].now else now, moves[1..])
  }

  lemma {:induction false} ForwardNear(s: Session, now: int, longest: nat)
    requires Streaming(s) && Possible(s, Forward) && Near(s.k.d, now, longest)
    ensures Near(Fed(s.k, s.rest[0]).d, now, longest)
  {
    ForwardStores(s);
  }

  /** While a session is fed, no wait gets longer than the longest. */
  lemma {:induction false} MovesNear(s: Session, moves: seq<Move>, now: int, longest: nat)
    requires Streaming(s) && PossibleMoves(s, moves)
    requires ClocksFrom(now, moves) && Near(s.k.d, now, longest)
    ensures Near(Played(s, moves).k.d, LastClock(now, moves), longest)
    decreases |moves|
  {
    if moves != [] {
      MoveConserves(s, moves[0]);
      match moves[0] {
        case Forward =>
          ForwardNear(s, now, longest);
          MovesNear(Moved(s, Forward), moves[1..], now, longest);
        case Clock(t) =>
          TickUnderway(s.k, t, longest);
          MovesNear(Moved(s, Clock(t)), moves[1..], t, longest);
      }
    }
  }

  /**
   * And it does get there: once all bytes are fed, ticks at most step apart, whenever they come, drain the ring
   * as the clock advances.
   */
  lemma {:induction false} TextsGetKeyed(k: KeyerState, messages: seq<seq<uint8>>, speed: uint8, s: Session,
                                         moves: seq<Move>, now: int, longest: nat, end: Session,
                                         times: seq<int>, step: nat)
    requires AtRest(k, speed) && TextMessages(messages) && Near(k.d, now, longest)
    requires s == Session(k, SessionBytes(messages, speed))
    requires PossibleMoves(s, moves) && ClocksFrom(now, moves) && end == Played(s, moves) && end.rest == []
    requires step > 0 && Ticking(LastClock(now, moves), times, step)
    requires Times(Work(end.k), longest + step) <= Last(LastClock(now, moves), times) - LastClock(now, moves)
    ensures TickedAll(end.k, times).d.marks == k.d.marks + SessionMarks(messages, speed)
  {
    SessionStreams(k, messages, speed);
    SessionWhole(k, messages, speed);
    AllFed(s, moves, now, longest);
    RingDrains(end, LastClock(now, moves), longest, times, step);
  }

  lemma {:induction false} SessionWhole(k: KeyerState, messages: seq<seq<uint8>>, speed: uint8)
    requires Drained(k) && TextMessages(messages)
    ensures Whole(k.ring + SessionBytes(messages, speed))
  {
    SessionMeans(messages, speed);
    assert k.ring + SessionBytes(messages, speed) == SessionBytes(messages, speed);
  }

  /** The session when all its bytes are in the ring. */
  lemma {:induction false} AllFed(s: Session, moves: seq<Move>, now: int, longest: nat)
    requires Streaming(s) && PossibleMoves(s, moves) && Whole(s.k.ring + s.rest)
    requires ClocksFrom(now, moves) && Near(s.k.d, now, longest)
    requires Played(s, moves).rest == []
    ensures var end := Played(s, moves);
      Streaming(end) && Whole(end.k.ring) && Total(end.k, end.rest) == Total(s.k, s.rest)
      && Near(end.k.d, LastClock(now, moves), longest)
  {
    MovesConserve(s, moves);
    FedAllWhole(s, moves);
    MovesNear(s, moves, now, longest);
  }

  lemma {:induction false} RingDrains(s: Session, now: int, longest: nat, times: seq<int>, step: nat)
    requires Streaming(s) && s.rest == [] && Whole(s.k.ring) && Near(s.k.d, now, longest)
    requires step > 0 && Ticking(now, times, step)
    requires Times(Work(s.k), longest + step) <= Last(now, times) - now
    ensures TickedAll(s.k, times).d.marks == Total(s.k, s.rest)
  {
    DrainsByTheClock(s.k, now, longest, step, times);
    ClocksTick(s, times);
    MovesConserve(s, Clocks(times));
    DrainedTotal(TickedAll(s.k, times));
  }

  function Clocks(times: seq<int>): seq<Move> {
    if times == [] then [] else [Clock(times[0])] + Clocks(times[1..])
  }

  lemma {:induction false} ClocksTick(s: Session, times: seq<int>)
    ensures PossibleMoves(s, Clocks(times))
    ensures Played(s, Clocks(times)) == Session(TickedAll(s.k, times), s.rest)
    decreases |times|
  {
    if times != [] {
      ClocksTick(Moved(s, Clock(times[0])), times[1..]);
      assert Clocks(times)[1..] == Clocks(times[1..]);
    }
  }

  /** A whole stream leaves whole items in the ring once it is all fed. */
  lemma {:induction false} FedAllWhole(s: Session, moves: seq<Move>)
    requires Streaming(s) && PossibleMoves(s, moves)
    requires Played(s, moves).rest == [] && Whole(s.k.ring + s.rest)
    ensures Whole(Played(s, moves).k.ring)
    decreases |moves|
  {
    if moves == [] {
      assert s.k.ring + [] == s.k.ring;
    } else {
      MoveConserves(s, moves[0]);
      match moves[0] {
        case Forward => ForwardStores(s);
        case Clock(now) => PassesConserve(s.k, s.rest, now, MAX_TRANSITIONS_PER_TICK);
      }
      FedAllWhole(Moved(s, moves[0]), moves[1..]);
    }
  }

  lemma {:induction false} MoveFits(s: Session, move: Move)
    requires Streaming(s) && |s.k.ring| + |s.rest| <= RING_CAPACITY
    ensures Possible(s, move) <==> move.Clock? || s.rest != []
    ensures Possible(s, move) ==> |Moved(s, move).k.ring| + |Moved(s, move).rest| <= RING_CAPACITY
  {
    match move
    case Forward =>
      if s.rest != [] && |s.k.ring| < RING_CAPACITY {
        ForwardStores(s);
        var after := Moved(s, move);
        assert |after.k.ring + after.rest| == |s.k.ring + s.rest|;
      }
    case Clock(now) => PassesShrink(s.k, now, MAX_TRANSITIONS_PER_TICK);
  }

  /** How many bytes are forwarded. */
  function Forwards(moves: seq<Move>): nat
  {
    if moves == [] then 0 else (if moves[0].Forward? then 1 else 0) + Forwards(moves[1..])
  }

  /** A session of at most 160 bytes can be fed at any pace: the ring always has room. */
  lemma {:induction false} ShortSessionFits(s: Session, moves: seq<Move>)
    requires Streaming(s) && |s.k.ring| + |s.rest| <= RING_CAPACITY
    requires Forwards(moves) <= |s.rest|
    ensures PossibleMoves(s, moves) && |Played(s, moves).rest| == |s.rest| - Forwards(moves)
    decreases |moves|
  {
    if moves != [] {
      MoveFits(s, moves[0]);
      MoveConserves(s, moves[0]);
      ShortSessionFits(Moved(s, moves[0]), moves[1..]);
    }
  }

  /** The work of a session: what there is to key, and the bytes still to come. */
  function Effort(s: Session): nat {
    Work(s.k) + 41 * |s.rest|
  }

  lemma {:induction false} ForwardEffort(s: Session)
    requires Streaming(s) && Possible(s, Forward)
    ensures Effort(Moved(s, Forward)) <= Effort(s)
  {
    ForwardStores(s);
  }

  lemma {:induction false} EffortFalls(s: Session, moves: seq<Move>)
    requires Streaming(s) && PossibleMoves(s, moves)
    ensures Effort(Played(s, moves)) <= Effort(s)
    decreases |moves|
  {
    if moves != [] {
      MoveConserves(s, moves[0]);
      match moves[0] {
        case Forward => ForwardEffort(s);
        case Clock(now) => PassesWork(s.k, now, MAX_TRANSITIONS_PER_TICK);
      }
      EffortFalls(Moved(s, moves[0]), moves[1..]);
    }
  }

  lemma {:induction false} FedInTime(s: Session, moves: seq<Move>, wait: nat)
    requires Streaming(s) && |s.k.ring| + |s.rest| <= RING_CAPACITY && Forwards(moves) == |s.rest|
    ensures PossibleMoves(s, moves) && Played(s, moves).rest == []
    ensures Times(Work(Played(s, moves).k), wait) <= Times(Effort(s), wait)
  {
    ShortSessionFits(s, moves);
    EffortFalls(s, moves);
    TimesGrows(Work(Played(s, moves).k), Effort(s), wait);
  }

  /**
   * The whole way for texts of at most 160 bytes, whatever the order in which bytes and ticks come: when
   * all bytes are fed and the clock has gone on for long enough, exactly the texts have been keyed.
   */
  lemma {:induction false} ShortTextsGetKeyed(k: KeyerState, messages: seq<seq<uint8>>, speed: uint8,
                                              s: Session, moves: seq<Move>, now: int, longest: nat,
                                              times: seq<int>, step: nat)
    requires AtRest(k, speed) && TextMessages(messages) && Near(k.d, now, longest)
    requires s == Session(k, SessionBytes(messages, speed))
    requires Forwards(moves) == |s.rest| <= RING_CAPACITY && ClocksFrom(now, moves)
    requires step > 0 && Ticking(LastClock(now, moves), times, step)
    requires Times(Effort(s), longest + step) <= Last(LastClock(now, moves), times) - LastClock(now, moves)
    ensures PossibleMoves(s, moves)
    ensures TickedAll(Played(s, moves).k, times).d.marks == k.d.marks + SessionMarks(messages, speed)
  {
    assert Streaming(s) && |s.k.ring| == 0 by { SessionStreams(k, messages, speed); }
    FedInTime(s, moves, longest + step);
    TextsGetKeyed(k, messages, speed, s, moves, now, longest, Played(s, moves), times, step);
  }

  lemma {:induction false} PassesShrink(k: KeyerState, now: int, n: nat)
    ensures |Passes(k, now, RELEASED, n).ring| <= |k.ring|
  {
    var inv := (j: KeyerState) => |j.ring| <= |k.ring|;
    forall j | inv(j)
      ensures inv(Once(j, now, RELEASED).0)
    {
      OnceShrinks(j, now);
    }
    PassesKeep(inv, k, now, RELEASED, n);
  }

  lemma {:induction false} OnceShrinks(k: KeyerState, now: int)
    ensures |Once(k, now, RELEASED).0.ring| <= |k.ring|
  {
    if k.d.state == Winkeyer {
      WinkeyerShrinks(k);
    } else {
      OthersKeepRing(k, now);
    }
  }

  lemma {:induction false} WinkeyerShrinks(k: KeyerState)
    ensures |UpdatedWinkeyer(k, RELEASED).0.ring| <= |k.ring|
  {
  }

  // ---- setting the speed while something is still to be played ----

  /** An immediate speed command takes hold for good exactly when no speed command left in the ring
      brings another speed back; the restoring command at the end of a message with speed marks
      is such a one. */
  lemma {:induction false} SetSpeedHolds(k: KeyerState, speed: uint8)
    requires Framed(k) && k.d.parser.waiting == 1 && k.d.parser.pending == 0x02
    ensures Fed(k, speed).d.pace.speedWpm == speed
    ensures FinalSpeed(Fed(k, speed), []) == speed <==> LastSpeed(k.ring) in {None, Some(speed)}
  {
    LastSpeedDecides(k.ring, speed);
    assert k.ring + [] == k.ring;
  }

  /** The argument of the last speed command in a ring. */
  function LastSpeed(ring: seq<uint8>): Option<uint8>
    decreases |ring|
  {
    if ring == [] || |ring| < ItemLength(ring[0]) then None
    else
      var later := LastSpeed(ring[ItemLength(ring[0])..]);
      if later.Some? then later else if ring[0] == BUFFERED_SPEED then Some(ring[1]) else None
  }

  lemma {:induction false} LastSpeedDecides(ring: seq<uint8>, wpm: nat)
    ensures StreamSpeed(ring, wpm) == match LastSpeed(ring) case None => wpm case Some(v) => v
    decreases |ring|
  {
    if ring != [] && ItemLength(ring[0]) <= |ring| {
      LastSpeedDecides(ring[ItemLength(ring[0])..], if ring[0] == BUFFERED_SPEED then ring[1] else wpm);
    }
  }

  // ---- the speed that the worker reads ----

  /** A keyer at rest whose profile has the same speed: the worker reads it from there and compiles for it. */
  predicate Configured(k: KeyerState, speed: uint8) {
    AtRest(k, speed) && k.d.pace.style.characterWpm == speed as real
  }

  /** What the constructor of the server feeds: the speed it was given. */
  lemma {:induction false} ConfiguredAtFirst(style: Morse.CodeStyle, timings: Morse.CodeTimings, speed: uint8)
    ensures Configured(Fed(Fed(InitialState(style, timings), 0x02), speed), speed)
  {
    var k := InitialState(style, timings);
    var one := Fed(k, 0x02);
    assert one == WithParser(k, TakenImmediate(k.d.parser, 0x02));
  }

  lemma {:induction false} EntryKeepsPace(d: Data, next: StateType, now: int)
    ensures Entered(d, next, now).pace == d.pace
  {
    match next
    case Idle => assert EnteredIdle(d).pace == d.pace;
    case SendElement => assert EnteredSendElement(d, now).pace == d.pace;
    case _ =>
  }

  lemma {:induction false} SwitchKeepsPace(d: Data, next: StateType, now: int)
    ensures SwitchedTo(d, next, now).pace == d.pace
  {
    EntryKeepsPace(Exited(d, now), next, now);
  }

  lemma {:induction false} OnceKeepsStyle(k: KeyerState, now: int)
    requires Playing(k.d)
    ensures Once(k, now, RELEASED).0.d.pace.style == k.d.pace.style
  {
    if k.d.state == Winkeyer {
      PlayerUpdates(k, now);
    } else {
      OthersUpdate(k, now);
    }
    var (after, next) := Updated(k, now, RELEASED);
    SwitchKeepsPace(after.d, next, now);
  }

  lemma {:induction false} TickKeepsStyle(k: KeyerState, now: int)
    requires Playing(k.d) && Missing(k.ring).Some?
    ensures Ticked(k, now, RELEASED).d.pace.style == k.d.pace.style
  {
    var style := k.d.pace.style;
    var inv := (j: KeyerState) => Playing(j.d) && Missing(j.ring).Some? && j.d.pace.style == style;
    forall j | inv(j)
      ensures inv(Once(j, now, RELEASED).0)
    {
      OnceKeepsStyle(j, now);
      PassWorks(j, now);
    }
    PassesKeep(inv, k, now, RELEASED, MAX_TRANSITIONS_PER_TICK);
  }

  lemma {:induction false} ForwardKeepsStyle(s: Session)
    requires Streaming(s) && Possible(s, Forward)
    ensures Moved(s, Forward).k.d.pace == s.k.d.pace
  {
    ForwardStores(s);
  }

  lemma {:induction false} MovesKeepStyle(s: Session, moves: seq<Move>)
    requires Streaming(s) && PossibleMoves(s, moves)
    ensures Played(s, moves).k.d.pace.style == s.k.d.pace.style
    decreases |moves|
  {
    if moves != [] {
      match moves[0] {
        case Forward => ForwardKeepsStyle(s);
        case Clock(now) => TickKeepsStyle(s.k, now);
      }
      MoveConserves(s, moves[0]);
      MovesKeepStyle(Moved(s, moves[0]), moves[1..]);
    }
  }

  /** The texts of a session leave the keyer as they found it, so the next are compiled for the speed they are keyed at. */
  lemma {:induction false} ConfiguredAgain(k: KeyerState, messages: seq<seq<uint8>>, speed: uint8, s: Session,
                                           moves: seq<Move>)
    requires Configured(k, speed) && TextMessages(messages) && s == Session(k, SessionBytes(messages, speed))
    requires PossibleMoves(s, moves) && Played(s, moves).rest == [] && Drained(Played(s, moves).k)
    ensures Configured(Played(s, moves).k, speed)
  {
    KeysTheTexts(k, messages, speed, moves);
    SessionStreams(k, messages, speed);
    MovesKeepStyle(s, moves);
  }
}
