/** The abort command and the speed of the texts it cuts off. */
module CwdaemonAbort {
  import opened FixedWidth
  import opened Wrappers
  import opened WinKeyer
  import opened CwDaemon
  import opened Ring
  import opened Keyer
  import opened KeyerFraming
  import opened KeyerPlay
  import opened KeyerProgress
  import opened CwdaemonServer
  import opened CwdaemonSession

  const CLEAR_BUFFER: uint8 := 0x0A

  /** The byte of the abort command empties the ring, and the speed stays what it was. */
  lemma {:induction false} AbortClears(k: KeyerState)
    requires ParserAtRest(k)
    ensures var aborted := Fed(k, CLEAR_BUFFER);
      aborted.ring == [] && aborted.d.pace == k.d.pace && ParserAtRest(aborted)
      && FinalSpeed(aborted, []) == k.d.pace.speedWpm
  {
  }

  /** When the bytes of texts have all been fed, the parser is at rest. */
  lemma {:induction false} RestsWhenFed(k: KeyerState, messages: seq<seq<uint8>>, speed: uint8, s: Session,
                                        moves: seq<Move>, end: KeyerState)
    requires Configured(k, speed) && TextMessages(messages) && s == Session(k, SessionBytes(messages, speed))
    requires PossibleMoves(s, moves) && Played(s, moves) == Session(end, [])
    ensures ParserAtRest(end) && end.d.pace.style.characterWpm == speed as real && FinalSpeed(end, []) == speed
  {
    SessionStreams(k, messages, speed);
    SessionMeans(messages, speed);
    MovesConserve(s, moves);
    MovesKeepStyle(s, moves);
    assert s.k.ring + s.rest == s.rest && end.ring + [] == end.ring;
  }

  /**
   * After an abort, the keyer goes on at the speed that its profile has, and that the next text is compiled for,
   * exactly if it plays at that speed when the abort comes. If it does not, the command that was to bring the speed
   * back was still in the ring and is lost.
   */
  lemma {:induction false} AbortKeepsSpeedExactly(k: KeyerState, messages: seq<seq<uint8>>, speed: uint8, s: Session,
                                                  moves: seq<Move>, end: KeyerState)
    requires Configured(k, speed) && TextMessages(messages) && s == Session(k, SessionBytes(messages, speed))
    requires PossibleMoves(s, moves) && Played(s, moves) == Session(end, [])
    ensures var aborted := Fed(end, CLEAR_BUFFER);
      && aborted.ring == [] && aborted.d.pace.style.characterWpm == speed as real
      && (FinalSpeed(aborted, []) == speed <==> end.d.pace.speedWpm == speed)
    ensures end.d.pace.speedWpm != speed ==> LastSpeed(end.ring) == Some(speed)
  {
    RestsWhenFed(k, messages, speed, s, moves, end);
    assert end.ring + [] == end.ring;
    LastSpeedDecides(end.ring, end.d.pace.speedWpm);
    AbortClears(end);
  }

  // ---- a run that loses the speed ----

  /** The bytes of a text that begins with plus signs: first the speed they ask for. */
  lemma {:induction false} PlusSignsFirst(messages: seq<seq<uint8>>, speed: uint8)
    requires TextMessages(messages) && messages != [] && messages[0][0] == PLUS
    ensures var bytes := SessionBytes(messages, speed);
      |bytes| >= 2 && bytes[0] == BUFFERED_SPEED && bytes[1] == Faster(speed, RunLength(TextOf(messages[0]), PLUS))
  {
    var text := TextOf(messages[0]);
    assert text != [] && text[0] == PLUS;
    var n := RunLength(text, PLUS);
    assert [BUFFERED_SPEED, Faster(speed, n)] <= CompileText(text, speed, false).out;
  }

  /** A tick of a waiting player takes a speed command off the ring. */
  lemma {:induction false} TickTakesSpeed(k: KeyerState, now: int)
    requires Playing(k.d) && k.d.state in {Idle, Winkeyer} && k.d.playingBit == 0 && k.d.charSpacePlayed
    requires |k.ring| >= 2 && k.ring[0] == BUFFERED_SPEED
    ensures var after := Ticked(k, now, RELEASED);
      after.d.pace == k.d.pace.(speedWpm := k.ring[1]) && after.d.parser == k.d.parser
  {
    var (woken, settled) := Once(k, now, RELEASED);
    PassAdvances(k, woken, settled, now, RELEASED, MAX_TRANSITIONS_PER_TICK);
    if k.d.state == Idle {
      ItemTaken(woken, now);
      var (after, done) := Once(woken, now, RELEASED);
      PassAdvances(woken, after, done, now, RELEASED, MAX_TRANSITIONS_PER_TICK - 1);
    } else {
      ItemTaken(k, now);
    }
  }

  /** The bytes are fed, and then the keyer ticks. */
  lemma {:induction false} FedThenTick(s: Session, now: int) returns (moves: seq<Move>, fed: KeyerState)
    requires Streaming(s) && |s.k.ring| + |s.rest| <= RING_CAPACITY
    ensures PossibleMoves(s, moves) && Played(s, moves) == Session(Ticked(fed, now, RELEASED), [])
    ensures fed.ring == s.k.ring + s.rest && fed.d == s.k.d.(parser := fed.d.parser)
    decreases |s.rest|
  {
    if s.rest == [] {
      moves, fed := [Clock(now)], s.k;
      assert moves[1..] == [] && s.k.ring + [] == s.k.ring;
    } else {
      ForwardStores(s);
      var more;
      more, fed := FedThenTick(Moved(s, Forward), now);
      moves := [Forward] + more;
      assert moves[1..] == more;
    }
  }

  lemma {:induction false} FedThenTakesSpeed(s: Session, now: int) returns (moves: seq<Move>, end: KeyerState)
    requires Streaming(s) && Drained(s.k) && s.k.d.state in {Idle, Winkeyer}
    requires 2 <= |s.rest| <= RING_CAPACITY && s.rest[0] == BUFFERED_SPEED
    ensures PossibleMoves(s, moves) && Played(s, moves) == Session(end, [])
    ensures end.d.pace == s.k.d.pace.(speedWpm := s.rest[1])
  {
    var fed;
    moves, fed := FedThenTick(s, now);
    assert fed.ring == s.rest;
    end := Ticked(fed, now, RELEASED);
    TickTakesSpeed(fed, now);
  }

  /**
   * A text that begins with plus signs, fed to a keyer that waits, and an abort after one tick: the keyer is left at
   * the faster speed for good, while its profile, which the next text is compiled for, has the old one.
   */
  lemma {:induction false} AbortLosesSpeed(k: KeyerState, messages: seq<seq<uint8>>, speed: uint8, now: int, s: Session)
      returns (moves: seq<Move>, end: KeyerState)
    requires Configured(k, speed) && k.d.state in {Idle, Winkeyer} && TextMessages(messages)
    requires messages != [] && messages[0][0] == PLUS && s == Session(k, SessionBytes(messages, speed))
    requires |s.rest| <= RING_CAPACITY
    ensures PossibleMoves(s, moves) && Played(s, moves) == Session(end, [])
    ensures var aborted := Fed(end, CLEAR_BUFFER);
      && aborted.ring == [] && aborted.d.pace.style.characterWpm == speed as real
      && FinalSpeed(aborted, []) == Faster(speed, RunLength(TextOf(messages[0]), PLUS))
  {
    PlusSignsFirst(messages, speed);
    SessionStreams(k, messages, speed);
    moves, end := FedThenTakesSpeed(s, now);
    RestsWhenFed(k, messages, speed, s, moves, end);
    AbortClears(end);
  }
}
