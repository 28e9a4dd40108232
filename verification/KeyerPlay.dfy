/** What the keyer keys is what the bytes mean, however feeding and ticking interleave. */
module KeyerPlay {
  import opened FixedWidth
  import opened Wrappers
  import opened Sequences
  import opened CharPatterns
  import opened WinKeyer
  import opened Ring
  import opened Keyer
  import opened KeyerFraming
  import opened KeyerParser

  // ---- conservation ----

  /** What is left of the character being played. */
  function PendingMarks(d: Data): seq<Mark> {
    KeyedMarks(Elements(d.playingData, d.playingBit), d.pace.speedWpm) + (if d.charSpacePlayed then [] else [CharSpace])
  }

  /** Everything keyed so far, being keyed, in the ring and still to come. */
  function Total(k: KeyerState, rest: seq<uint8>): seq<Mark> {
    k.d.marks + PendingMarks(k.d) + StreamMarks(k.ring + rest, k.d.pace.speedWpm)
  }

  /** The speed once all of that is played. */
  function FinalSpeed(k: KeyerState, rest: seq<uint8>): nat {
    StreamSpeed(k.ring + rest, k.d.pace.speedWpm)
  }

  /** The machine plays from the ring: the paddles rest, and pauses come between characters. */
  predicate Playing(d: Data) {
    && Rested(d)
    && d.state in {Idle, Winkeyer, SendElement, InterElementSpace, InterWordSpace, Autospace, HalfDotGap}
    && (d.state != Idle ==> d.enabled)
    && (d.playingBit > 0 ==> !d.charSpacePlayed)
    && (d.state in {Idle, InterWordSpace, Autospace, HalfDotGap} ==> d.playingBit == 0 && d.charSpacePlayed)
  }

  lemma {:induction false} ElementMarks(d: Data)
    requires d.playingBit > 0
    ensures KeyedMarks(Elements(d.playingData, d.playingBit), d.pace.speedWpm)
         == [Keyed(SentElement(NextElement(d)), d.pace.speedWpm)]
            + KeyedMarks(Elements(d.playingData, d.playingBit - 1), d.pace.speedWpm)
  {
    var es := Elements(d.playingData, d.playingBit);
    assert es[1..] == Elements(d.playingData, d.playingBit - 1);
  }

  /** Sending the next element moves one mark from pending to keyed. */
  lemma {:induction false} ElementMoves(d: Data, now: int)
    requires d.playingBit > 0 && d.enabled
    ensures var sent := SwitchedTo(NextElement(d).(state := Winkeyer), SendElement, now);
      sent.marks + PendingMarks(sent) == d.marks + PendingMarks(d)
  {
    ElementMarks(d);
    var sent := SwitchedTo(NextElement(d).(state := Winkeyer), SendElement, now);
    var e := Keyed(SentElement(NextElement(d)), d.pace.speedWpm);
    var later := KeyedMarks(Elements(d.playingData, d.playingBit - 1), d.pace.speedWpm);
    var space := if d.charSpacePlayed then [] else [CharSpace];
    Regroup(d.marks, [e], later + space);
    Regroup([e], later, space);
  }

  /** After one pass everything still adds up, and the machine still plays. */
  predicate Conserves(k: KeyerState, after: KeyerState, rest: seq<uint8>) {
    && Total(after, rest) == Total(k, rest)
    && FinalSpeed(after, rest) == FinalSpeed(k, rest)
    && Missing(after.ring + rest) == Missing(k.ring + rest)
    && Playing(after.d)
  }

  lemma {:induction false} FrontItem(ring: seq<uint8>, rest: seq<uint8>, wpm: nat)
    requires ItemReady(ring) && Missing(ring + rest).Some?
    ensures var tail := ring[ItemLength(ring[0])..] + rest;
      var speed := if ring[0] == BUFFERED_SPEED then ring[1] else wpm;
      && StreamMarks(ring + rest, wpm)
         == (if IsCommand(ring[0]) then StreamMarks(tail, speed) else CharMarks(ring[0], wpm) + StreamMarks(tail, speed))
      && StreamSpeed(ring + rest, wpm) == StreamSpeed(tail, speed)
      && Missing(ring + rest) == Missing(tail)
      && ring[0] != 0x0A
  {
    var n := ItemLength(ring[0]);
    assert (ring + rest)[n..] == ring[n..] + rest;
  }

  lemma {:induction false} CommandConserves(k: KeyerState, rest: seq<uint8>)
    requires Playing(k.d) && k.d.state == Winkeyer && k.d.playingBit == 0 && k.d.charSpacePlayed
    requires ItemReady(k.ring) && IsCommand(k.ring[0]) && Missing(k.ring + rest).Some?
    ensures Conserves(k, Consumed(k.d, k.ring).0, rest)
  {
    FrontItem(k.ring, rest, k.d.pace.speedWpm);
  }

  lemma {:induction false} CharacterMoves(d: Data, ring: seq<uint8>, c: uint8, now: int)
    requires Playing(d) && d.state == Winkeyer && d.playingBit == 0 && d.charSpacePlayed
    requires |ring| <= RING_CAPACITY
    ensures var (after, next) := CharacterPlayed(d, ring, c);
      var s := SwitchedTo(after.d, next, now);
      && s.marks + PendingMarks(s) == d.marks + CharMarks(c, d.pace.speedWpm)
      && s.pace == d.pace && after.ring == ring && Playing(s)
  {
    if c != HALF_GAP && Pattern(c as char).Some? {
      PatternsPlayable(c as char);
      var q := Pattern(c as char).value;
      var loaded := d.(playingData := q.data, playingBit := q.bits, charSpacePlayed := false);
      ElementMoves(loaded, now);
      assert loaded.(state := Winkeyer) == loaded;
    } else {
      var (after, next) := CharacterPlayed(d, ring, c);
      var s := SwitchedTo(after.d, next, now);
      assert PendingMarks(s) == [];
      assert s.marks + [] == s.marks;
    }
  }

  lemma {:induction false} CharacterAdds(marks: seq<Mark>, keyed: seq<Mark>, tail: seq<Mark>)
    ensures marks + [] + (keyed + tail) == (marks + keyed) + tail
  {
    assert marks + [] == marks;
    Regroup(marks, keyed, tail);
  }

  /** A character from the ring, and the state it leads to. */
  lemma {:induction false} CharacterConserves(k: KeyerState, rest: seq<uint8>, now: int)
    requires Playing(k.d) && k.d.state == Winkeyer && k.d.playingBit == 0 && k.d.charSpacePlayed
    requires ItemReady(k.ring) && !IsCommand(k.ring[0]) && Missing(k.ring + rest).Some?
    ensures var (after, next) := CharacterPlayed(k.d, k.ring[1..], k.ring[0]);
      Conserves(k, after.(d := SwitchedTo(after.d, next, now)), rest)
  {
    FrontItem(k.ring, rest, k.d.pace.speedWpm);
    CharacterMoves(k.d, k.ring[1..], k.ring[0], now);
    assert PendingMarks(k.d) == [];
    CharacterAdds(k.d.marks, CharMarks(k.ring[0], k.d.pace.speedWpm), StreamMarks(k.ring[1..] + rest, k.d.pace.speedWpm));
  }

  lemma {:induction false} SpaceConserves(k: KeyerState, rest: seq<uint8>, now: int)
    requires Playing(k.d) && k.d.state == Winkeyer && k.d.playingBit == 0 && !k.d.charSpacePlayed
    ensures Conserves(k, k.(d := SwitchedTo(k.d.(charSpacePlayed := true), Autospace, now)), rest)
  {
    assert PendingMarks(k.d) == [CharSpace];
    var s := SwitchedTo(k.d.(charSpacePlayed := true), Autospace, now);
    assert PendingMarks(s) == [];
    assert s.marks + [] == k.d.marks + [CharSpace];
  }

  lemma {:induction false} ElementConserves(k: KeyerState, rest: seq<uint8>, now: int)
    requires Playing(k.d) && k.d.state == Winkeyer && k.d.playingBit > 0
    ensures Conserves(k, k.(d := SwitchedTo(NextElement(k.d), SendElement, now)), rest)
  {
    assert NextElement(k.d).(state := Winkeyer) == NextElement(k.d);
    ElementMoves(k.d, now);
  }

  /** What the player does between two elements of a character, and behind the last. */
  lemma {:induction false} CharacterGoesOn(k: KeyerState, now: int)
    requires Playing(k.d) && k.d.state == Winkeyer && (k.d.playingBit > 0 || !k.d.charSpacePlayed)
    ensures Once(k, now, RELEASED)
         == (k.(d := if k.d.playingBit > 0 then SwitchedTo(NextElement(k.d), SendElement, now)
                     else SwitchedTo(k.d.(charSpacePlayed := true), Autospace, now)), false)
  {
    assert Polled(k.d, RELEASED) == k.d;
  }

  /** What it does with the next item of the ring. */
  lemma {:induction false} ItemTaken(k: KeyerState, now: int)
    requires Playing(k.d) && k.d.state == Winkeyer && k.d.playingBit == 0 && k.d.charSpacePlayed && ItemReady(k.ring)
    ensures var (after, next) := Consumed(k.d, k.ring);
      Once(k, now, RELEASED) == if IsCommand(k.ring[0]) then (after, true)
                                else (after.(d := SwitchedTo(after.d, next, now)), false)
  {
    assert Polled(k.d, RELEASED) == k.d;
  }

  lemma {:induction false} WinkeyerConserves(k: KeyerState, rest: seq<uint8>, now: int)
    requires Playing(k.d) && k.d.state == Winkeyer && Missing(k.ring + rest).Some?
    ensures Conserves(k, Once(k, now, RELEASED).0, rest)
  {
    if k.d.playingBit > 0 {
      CharacterGoesOn(k, now);
      ElementConserves(k, rest, now);
    } else if !k.d.charSpacePlayed {
      CharacterGoesOn(k, now);
      SpaceConserves(k, rest, now);
    } else if ItemReady(k.ring) {
      ItemTaken(k, now);
      if IsCommand(k.ring[0]) {
        CommandConserves(k, rest);
      } else {
        CharacterConserves(k, rest, now);
      }
    }
  }

  /** What the total depends on. */
  lemma {:induction false} SameTotal(k: KeyerState, after: KeyerState, rest: seq<uint8>)
    requires after.ring == k.ring && after.d.marks == k.d.marks && after.d.pace == k.d.pace
    requires after.d.playingBit == k.d.playingBit && after.d.playingData == k.d.playingData
    requires after.d.charSpacePlayed == k.d.charSpacePlayed && Playing(after.d)
    ensures Conserves(k, after, rest)
  {
  }

  /** The other states only route. */
  lemma {:induction false} SendingRoutes(k: KeyerState, rest: seq<uint8>, now: int)
    requires Playing(k.d) && k.d.state == SendElement
    ensures Conserves(k, Once(k, now, RELEASED).0, rest)
  {
    SameTotal(k, Once(k, now, RELEASED).0, rest);
  }

  lemma {:induction false} SpaceRoutes(k: KeyerState, rest: seq<uint8>, now: int)
    requires Playing(k.d) && k.d.state == InterElementSpace
    ensures Conserves(k, Once(k, now, RELEASED).0, rest)
  {
    GapOnce(k, now);
    SameTotal(k, Once(k, now, RELEASED).0, rest);
  }

  lemma {:induction false} IdleRoutes(k: KeyerState, rest: seq<uint8>, now: int)
    requires Playing(k.d) && k.d.state == Idle
    ensures Conserves(k, Once(k, now, RELEASED).0, rest)
  {
    SameTotal(k, Once(k, now, RELEASED).0, rest);
  }

  lemma {:induction false} WordSpaceRoutes(k: KeyerState, rest: seq<uint8>, now: int)
    requires Playing(k.d) && k.d.state == InterWordSpace
    ensures Conserves(k, Once(k, now, RELEASED).0, rest)
  {
    SameTotal(k, Once(k, now, RELEASED).0, rest);
  }

  lemma {:induction false} PausesRoute(k: KeyerState, rest: seq<uint8>, now: int)
    requires Playing(k.d) && k.d.state in {InterWordSpace, Autospace, HalfDotGap}
    ensures Conserves(k, Once(k, now, RELEASED).0, rest)
  {
    if k.d.state == InterWordSpace {
      WordSpaceRoutes(k, rest, now);
    } else {
      SameTotal(k, Once(k, now, RELEASED).0, rest);
    }
  }

  lemma {:induction false} RoutingConserves(k: KeyerState, rest: seq<uint8>, now: int)
    requires Playing(k.d) && k.d.state != Winkeyer
    ensures Conserves(k, Once(k, now, RELEASED).0, rest)
  {
    if k.d.state == SendElement {
      SendingRoutes(k, rest, now);
    } else if k.d.state == InterElementSpace {
      SpaceRoutes(k, rest, now);
    } else if k.d.state == Idle {
      IdleRoutes(k, rest, now);
    } else {
      PausesRoute(k, rest, now);
    }
  }

  lemma {:induction false} OnceConserves(k: KeyerState, rest: seq<uint8>, now: int)
    requires Playing(k.d) && Missing(k.ring + rest).Some?
    ensures Conserves(k, Once(k, now, RELEASED).0, rest)
  {
    if k.d.state == Winkeyer {
      WinkeyerConserves(k, rest, now);
    } else {
      RoutingConserves(k, rest, now);
    }
  }

  lemma {:induction false} PassesConserve(k: KeyerState, rest: seq<uint8>, now: int, n: nat)
    requires Playing(k.d) && Missing(k.ring + rest).Some?
    ensures Conserves(k, Passes(k, now, RELEASED, n), rest)
  {
    var inv := (j: KeyerState) => Conserves(k, j, rest);
    forall j | inv(j)
      ensures inv(Once(j, now, RELEASED).0)
    {
      OnceConserves(j, rest, now);
    }
    PassesKeep(inv, k, now, RELEASED, n);
  }

  // ---- feeding and ticking, interleaved ----

  /** The network thread feeds the next byte of what it has, or the keyer thread ticks. */
  datatype Move = Forward | Clock(now: int)

  datatype Session = Session(k: KeyerState, rest: seq<uint8>)

  predicate Possible(s: Session, move: Move) {
    move.Forward? ==> s.rest != [] && |s.k.ring| < RING_CAPACITY
  }

  function Moved(s: Session, move: Move): Session
    requires Possible(s, move)
  {
    match move
    case Forward => Session(Fed(s.k, s.rest[0]), s.rest[1..])
    case Clock(now) => Session(Ticked(s.k, now, RELEASED), s.rest)
  }

  predicate PossibleMoves(s: Session, moves: seq<Move>)
    decreases |moves|
  {
    moves == [] || (Possible(s, moves[0]) && PossibleMoves(Moved(s, moves[0]), moves[1..]))
  }

  function Played(s: Session, moves: seq<Move>): Session
    requires PossibleMoves(s, moves)
    decreases |moves|
  {
    if moves == [] then s else Played(Moved(s, moves[0]), moves[1..])
  }

  /** The parser is between immediate commands and what is in the ring and still to come is a
      stream of buffered items. */
  predicate Streaming(s: Session) {
    && s.k.d.parser.waiting == 0
    && Framed(s.k) && Playing(s.k.d)
    && Missing(s.k.ring + s.rest).Some?
  }

  lemma {:induction false} ForwardStores(s: Session)
    requires Streaming(s) && Possible(s, Forward)
    ensures IsStored(s.k, s.rest[0])
    ensures Fed(s.k, s.rest[0]).ring + s.rest[1..] == s.k.ring + s.rest
    ensures Streaming(Moved(s, Forward))
    ensures Conserves(KeyerData(s.k.d, []), KeyerData(Fed(s.k, s.rest[0]).d, []), [])
  {
    var c := s.rest[0];
    assert s.k.ring + s.rest == (s.k.ring + [c]) + s.rest[1..];
    MissingPrefix(s.k.ring + [c], s.rest[1..]);
    MissingSnoc(s.k.ring, c);
    FedFramed(s.k, c);
  }

  lemma {:induction false} MoveConserves(s: Session, move: Move)
    requires Streaming(s) && Possible(s, move)
    ensures Streaming(Moved(s, move))
    ensures Total(Moved(s, move).k, Moved(s, move).rest) == Total(s.k, s.rest)
    ensures FinalSpeed(Moved(s, move).k, Moved(s, move).rest) == FinalSpeed(s.k, s.rest)
    ensures Missing(Moved(s, move).k.ring + Moved(s, move).rest) == Missing(s.k.ring + s.rest)
  {
    match move
    case Forward =>
      ForwardStores(s);
    case Clock(now) =>
      PassesConserve(s.k, s.rest, now, MAX_TRANSITIONS_PER_TICK);
      PassesFramed(s.k, now, MAX_TRANSITIONS_PER_TICK);
      PassesKeepParser(s.k, now, RELEASED, MAX_TRANSITIONS_PER_TICK);
  }

  /** In every interleaving, what was keyed and what is left add up to the same marks, in order. */
  lemma {:induction false} MovesConserve(s: Session, moves: seq<Move>)
    requires Streaming(s) && PossibleMoves(s, moves)
    ensures Streaming(Played(s, moves))
    ensures Total(Played(s, moves).k, Played(s, moves).rest) == Total(s.k, s.rest)
    ensures FinalSpeed(Played(s, moves).k, Played(s, moves).rest) == FinalSpeed(s.k, s.rest)
    ensures Missing(Played(s, moves).k.ring + Played(s, moves).rest) == Missing(s.k.ring + s.rest)
    decreases |moves|
  {
    if moves != [] {
      MoveConserves(s, moves[0]);
      MovesConserve(Moved(s, moves[0]), moves[1..]);
    }
  }
}
