/** Framing between the two threads of the keyer: the network thread feeds bytes, the keyer thread
    ticks, in any order. */
module KeyerFraming {
  import opened FixedWidth
  import opened Wrappers
  import opened CharPatterns
  import opened WinKeyer
  import opened Ring
  import opened Keyer
  import Morse

  /** Both threads hold the same lock, so a run interleaves whole calls. */
  datatype Event = Byte(c: uint8) | Tick(now: int, paddles: Paddles)

  function Step(k: KeyerState, ev: Event): KeyerState {
    match ev
    case Byte(c) => Fed(k, c)
    case Tick(now, p) => Ticked(k, now, p)
  }

  function Run(k: KeyerState, evs: seq<Event>): KeyerState
    decreases |evs|
  {
    if evs == [] then k else Run(Step(k, evs[0]), evs[1..])
  }

  // ---- framing ----

  /** The paddles are up and none of their presses is latched. */
  predicate Rested(d: Data) {
    !d.ditBuffered && !d.dahBuffered
  }

  /** The ring splits into whole items and one that lacks exactly the arguments the parser expects;
      the parser never waits for immediate and buffered arguments at once. */
  predicate Framed(k: KeyerState) {
    var p := k.d.parser;
    && Missing(k.ring) == Some(p.remaining)
    && (p.waiting > 0 ==> p.remaining == 0 && IsCommand(p.pending) && p.index + p.waiting == ParameterCount(p.pending))
  }

  /** The byte goes to the ring. */
  predicate IsStored(k: KeyerState, c: uint8) {
    k.d.parser.waiting == 0 && !IsImmediate(k, c)
  }

  /** The event drops nothing: the ring has room for a stored byte, and no paddle breaks in. */
  predicate Gentle(k: KeyerState, ev: Event) {
    match ev
    case Byte(c) => IsStored(k, c) ==> |k.ring| < RING_CAPACITY
    case Tick(_, p) => p == RELEASED
  }

  predicate GentleRun(k: KeyerState, evs: seq<Event>)
    decreases |evs|
  {
    evs == [] || (Gentle(k, evs[0]) && GentleRun(Step(k, evs[0]), evs[1..]))
  }

  lemma {:induction false} ExecutedFramed(k: KeyerState)
    requires Missing(k.ring) == Some(0) && k.d.parser.remaining == 0 && k.d.parser.waiting == 0 && Rested(k.d)
    ensures Framed(Executed(k)) && Rested(Executed(k).d)
  {
  }

  lemma {:induction false} FedFramed(k: KeyerState, c: uint8)
    requires Framed(k) && Rested(k.d)
    requires IsStored(k, c) ==> |k.ring| < RING_CAPACITY
    ensures Framed(Fed(k, c)) && Rested(Fed(k, c).d)
  {
    var p := k.d.parser;
    if p.waiting > 0 {
      if p.waiting == 1 {
        ExecutedFramed(WithParser(k, TakenArgument(p, c)));
      }
    } else if IsImmediate(k, c) {
      if ParameterCount(c) == 0 {
        ExecutedFramed(WithParser(k, TakenImmediate(p, c)));
      }
    } else {
      MissingSnoc(k.ring, c);
    }
  }

  lemma {:induction false} EnterIdleKeepsParser(d: Data)
    ensures EnteredIdle(d).parser == d.parser
    ensures Rested(d) ==> Rested(EnteredIdle(d))
  {
  }

  lemma {:induction false} EnterSendElementKeepsParser(d: Data, now: int)
    ensures EnteredSendElement(d, now).parser == d.parser
    ensures Rested(d) ==> Rested(EnteredSendElement(d, now))
  {
  }

  lemma {:induction false} EnterKeepsParser(d: Data, next: StateType, now: int)
    ensures Entered(d, next, now).parser == d.parser
    ensures Rested(d) ==> Rested(Entered(d, next, now))
  {
    if next == Idle {
      EnterIdleKeepsParser(d);
    } else if next == SendElement {
      EnterSendElementKeepsParser(d, now);
    }
  }

  lemma {:induction false} SwitchKeepsParser(d: Data, next: StateType, now: int)
    ensures SwitchedTo(d, next, now).parser == d.parser
    ensures Rested(d) ==> Rested(SwitchedTo(d, next, now))
  {
    EnterKeepsParser(Exited(d, now), next, now);
  }

  lemma {:induction false} OthersKeepRing(k: KeyerState, now: int)
    requires k.d.state != Winkeyer
    ensures Updated(k, now, RELEASED).0.ring == k.ring
    ensures Updated(k, now, RELEASED).0.d.parser == k.d.parser
    ensures Rested(k.d) ==> Rested(Updated(k, now, RELEASED).0.d)
  {
  }

  /** The gap behind an element, with the player on: it waits, and then gives way to the player. */
  lemma {:induction false} GapOnce(k: KeyerState, now: int)
    requires k.d.state == InterElementSpace && k.d.enabled
    ensures Once(k, now, RELEASED)
         == if now < k.d.exitAt then (k, true) else (k.(d := k.d.(state := Winkeyer)), false)
  {
    assert CheckedOpposite(k.d, RELEASED) == k.d;
  }

  lemma {:induction false} WinkeyerFramed(k: KeyerState)
    requires Framed(k) && Rested(k.d)
    ensures Framed(UpdatedWinkeyer(k, RELEASED).0) && Rested(UpdatedWinkeyer(k, RELEASED).0.d)
  {
    if k.d.playingBit == 0 && k.d.charSpacePlayed && ItemReady(k.ring) {
      ConsumedFramed(Polled(k.d, RELEASED), k.ring);
    }
  }

  lemma {:induction false} OnceFramed(k: KeyerState, now: int)
    requires Framed(k) && Rested(k.d)
    ensures Framed(Once(k, now, RELEASED).0) && Rested(Once(k, now, RELEASED).0.d)
  {
    if k.d.state == Winkeyer {
      WinkeyerFramed(k);
    } else {
      OthersKeepRing(k, now);
    }
    var (after, next) := Updated(k, now, RELEASED);
    SwitchKeepsParser(after.d, next, now);
  }

  lemma {:induction false} ConsumedFramed(d: Data, ring: seq<uint8>)
    requires |ring| <= RING_CAPACITY && ItemReady(ring)
    requires Framed(KeyerData(d, ring)) && Rested(d)
    ensures Framed(Consumed(d, ring).0) && Rested(Consumed(d, ring).0.d)
  {
  }

  /** What every pass keeps, a tick keeps. */
  lemma {:induction false} PassesKeep(inv: KeyerState -> bool, k: KeyerState, now: int, p: Paddles, n: nat)
    requires forall j {:trigger Once(j, now, p)} :: inv(j) ==> inv(Once(j, now, p).0)
    requires inv(k)
    ensures inv(Passes(k, now, p, n))
  {
    RepeatedKeeps((j: KeyerState) => Once(j, now, p), inv, k, n);
  }

  lemma {:induction false} PassesFramed(k: KeyerState, now: int, n: nat)
    requires Framed(k) && Rested(k.d)
    ensures Framed(Passes(k, now, RELEASED, n)) && Rested(Passes(k, now, RELEASED, n).d)
  {
    var inv := (j: KeyerState) => Framed(j) && Rested(j.d);
    forall j | inv(j)
      ensures inv(Once(j, now, RELEASED).0)
    {
      OnceFramed(j, now);
    }
    PassesKeep(inv, k, now, RELEASED, n);
  }

  /** For any bytes whatever, arriving between any ticks: as long as the ring never overflows, it
      stays framed, so the keyer never meets a byte below 0x18 where an item starts. */
  lemma {:induction false} FramedRun(k: KeyerState, evs: seq<Event>)
    requires Framed(k) && Rested(k.d)
    requires GentleRun(k, evs)
    ensures Framed(Run(k, evs)) && Rested(Run(k, evs).d)
    ensures Run(k, evs).ring != [] ==> 0x18 <= Run(k, evs).ring[0]
    decreases |evs|
  {
    if evs != [] {
      match evs[0] {
        case Byte(c) => FedFramed(k, c);
        case Tick(now, p) => PassesFramed(k, now, MAX_TRANSITIONS_PER_TICK);
      }
      FramedRun(Step(k, evs[0]), evs[1..]);
    }
  }

  // ---- what a byte leaves alone ----

  /** The part of the data the state machine plays from, apart from speed and timings. */
  predicate SamePlay(a: Data, b: Data) {
    && a.state == b.state && a.enabled == b.enabled && a.sent == b.sent && a.marks == b.marks
    && a.playingBit == b.playingBit && a.playingData == b.playingData
    && a.charSpacePlayed == b.charSpacePlayed
  }

  lemma {:induction false} ExecutedKeepsPlay(k: KeyerState)
    ensures SamePlay(Executed(k).d, k.d)
  {
  }

  lemma {:induction false} FedKeepsPlay(k: KeyerState, c: uint8)
    ensures SamePlay(Fed(k, c).d, k.d)
  {
    var p := k.d.parser;
    if p.waiting > 0 {
      ExecutedKeepsPlay(WithParser(k, TakenArgument(p, c)));
    } else if IsImmediate(k, c) {
      ExecutedKeepsPlay(WithParser(k, TakenImmediate(p, c)));
    }
  }

  // ---- the key line ----

  /** The byte completes an immediate key command. */
  predicate KeysDirectly(k: KeyerState, c: uint8) {
    k.d.parser.waiting == 1 && k.d.parser.pending == 0x0B
  }

  predicate NoDirectKeying(k: KeyerState, evs: seq<Event>)
    decreases |evs|
  {
    evs == [] || ((evs[0].Byte? ==> !KeysDirectly(k, evs[0].c)) && NoDirectKeying(Step(k, evs[0]), evs[1..]))
  }

  predicate LineFollowsState(d: Data) {
    d.keyLine <==> d.state == SendElement
  }

  /** A byte moves the key line only by completing an immediate key command. */
  lemma {:induction false} FedLine(k: KeyerState, c: uint8)
    requires Framed(k)
    ensures Fed(k, c).d.keyLine == if KeysDirectly(k, c) then c == 1 else k.d.keyLine
    ensures Fed(k, c).d.state == k.d.state
  {
    FedKeepsPlay(k, c);
  }

  lemma {:induction false} FedKeepsLine(k: KeyerState, c: uint8)
    requires !KeysDirectly(k, c)
    ensures Fed(k, c).d.keyLine == k.d.keyLine && Fed(k, c).d.state == k.d.state
  {
    FedKeepsPlay(k, c);
  }

  lemma {:induction false} PassesLine(k: KeyerState, now: int, p: Paddles, n: nat)
    requires LineFollowsState(k.d)
    ensures LineFollowsState(Passes(k, now, p, n).d)
  {
    var inv := (j: KeyerState) => LineFollowsState(j.d);
    forall j | inv(j)
      ensures inv(Once(j, now, p).0)
    {
      OnceLine(j, now, p);
    }
    PassesKeep(inv, k, now, p, n);
  }

  lemma {:induction false} OnceLine(k: KeyerState, now: int, p: Paddles)
    requires LineFollowsState(k.d)
    ensures LineFollowsState(Once(k, now, p).0.d)
  {
    UpdatedKeepsLine(k, now, p);
    var (after, next) := Updated(k, now, p);
    SwitchedLine(after.d, next, now);
  }

  lemma {:induction false} SwitchedLine(d: Data, next: StateType, now: int)
    requires LineFollowsState(d)
    ensures LineFollowsState(SwitchedTo(d, next, now))
  {
  }

  lemma {:induction false} UpdatedKeepsLine(k: KeyerState, now: int, p: Paddles)
    ensures Updated(k, now, p).0.d.keyLine == k.d.keyLine
    ensures Updated(k, now, p).0.d.state == k.d.state
  {
    if k.d.state == Winkeyer {
      WinkeyerKeepsLine(k, p);
    } else {
      OthersKeepLine(k, now, p);
    }
  }

  lemma {:induction false} OthersKeepLine(k: KeyerState, now: int, p: Paddles)
    requires k.d.state != Winkeyer
    ensures Updated(k, now, p).0.d.keyLine == k.d.keyLine
    ensures Updated(k, now, p).0.d.state == k.d.state
  {
    if k.d.state == Idle {
      IdleKeepsLine(k, now, p);
    } else if k.d.state == InterElementSpace {
      GapKeepsLine(k, now, p);
    }
  }

  lemma {:induction false} IdleKeepsLine(k: KeyerState, now: int, p: Paddles)
    ensures UpdatedIdle(k, now, p).0.d.keyLine == k.d.keyLine
    ensures UpdatedIdle(k, now, p).0.d.state == k.d.state
  {
  }

  lemma {:induction false} GapKeepsLine(k: KeyerState, now: int, p: Paddles)
    ensures UpdatedInterElementSpace(k, now, p).0.d.keyLine == k.d.keyLine
    ensures UpdatedInterElementSpace(k, now, p).0.d.state == k.d.state
  {
  }

  lemma {:induction false} WinkeyerKeepsLine(k: KeyerState, p: Paddles)
    ensures UpdatedWinkeyer(k, p).0.d.keyLine == k.d.keyLine
    ensures UpdatedWinkeyer(k, p).0.d.state == k.d.state
  {
  }

  /** Whatever the paddles, the bytes and the clock do, the key is down exactly while an element is
      being sent, unless an immediate key command moves the line. */
  lemma {:induction false} LineRun(k: KeyerState, evs: seq<Event>)
    requires LineFollowsState(k.d)
    requires NoDirectKeying(k, evs)
    ensures LineFollowsState(Run(k, evs).d)
    decreases |evs|
  {
    if evs != [] {
      match evs[0] {
        case Byte(c) => FedKeepsLine(k, c);
        case Tick(now, p) => PassesLine(k, now, p, MAX_TRANSITIONS_PER_TICK);
      }
      LineRun(Step(k, evs[0]), evs[1..]);
    }
  }

  // ---- iambic keying ----

  /** The marks so far are elements that alternate, beginning with a dit. */
  predicate Alternating(marks: seq<Mark>) {
    forall i {:trigger marks[i]} :: 0 <= i < |marks| ==> marks[i].Keyed? && marks[i].element == (if i % 2 == 0 then Dit else Dah)
  }

  /** The keyer is keying for the paddles, and remembers the last element. */
  predicate Squeezing(d: Data) {
    && !d.enabled && d.state in {Idle, SendElement, InterElementSpace}
    && Alternating(d.marks)
    && d.sent == (if d.marks == [] then None else Some(d.marks[|d.marks| - 1].element))
    && (d.state != Idle ==> d.marks != [])
  }

  const SQUEEZED := Paddles(true, true)

  predicate SqueezedTicks(evs: seq<Event>) {
    forall i :: 0 <= i < |evs| ==> evs[i].Tick? ==> evs[i].paddles == SQUEEZED
  }

  lemma {:induction false} IdleSqueezing(k: KeyerState, now: int)
    requires Squeezing(k.d) && k.d.state == Idle
    ensures Squeezing(Once(k, now, SQUEEZED).0.d)
  {
    var d := Polled(k.d, SQUEEZED);
    var chosen := d.(sent := if d.sent.None? then Some(Dit) else Opposite(d.sent));
    assert Updated(k, now, SQUEEZED) == (k.(d := chosen), SendElement);
    var e := SentElement(chosen);
    assert EnteredSendElement(chosen, now).marks == d.marks + [Keyed(e, CurrentWpm(chosen))];
    assert e == if |d.marks| % 2 == 0 then Dit else Dah;
  }

  lemma {:induction false} KeyingUpdates(k: KeyerState, now: int)
    requires Squeezing(k.d) && k.d.state != Idle
    ensures var (after, next) := Updated(k, now, SQUEEZED);
      next in {k.d.state, InterElementSpace, Idle} && after.d.state == k.d.state && after.d.enabled == k.d.enabled
      && after.d.sent == k.d.sent && after.d.marks == k.d.marks
  {
  }

  lemma {:induction false} KeyingSqueezing(k: KeyerState, now: int)
    requires Squeezing(k.d) && k.d.state != Idle
    ensures Squeezing(Once(k, now, SQUEEZED).0.d)
  {
    var (after, next) := Updated(k, now, SQUEEZED);
    KeyingUpdates(k, now);
    SqueezingDepends(k.d, after.d);
    if next != k.d.state {
      LeavingKeepsMarks(after.d, next, now);
    }
  }

  lemma {:induction false} LeavingKeepsMarks(d: Data, next: StateType, now: int)
    requires next in {InterElementSpace, Idle}
    ensures var left := SwitchedTo(d, next, now);
      left.state == next && left.enabled == d.enabled && left.sent == d.sent && left.marks == d.marks
  {
  }

  lemma {:induction false} OnceSqueezing(k: KeyerState, now: int)
    requires Squeezing(k.d)
    ensures Squeezing(Once(k, now, SQUEEZED).0.d)
  {
    if k.d.state == Idle {
      IdleSqueezing(k, now);
    } else {
      KeyingSqueezing(k, now);
    }
  }

  lemma {:induction false} PassesSqueezing(k: KeyerState, now: int, n: nat)
    requires Squeezing(k.d)
    ensures Squeezing(Passes(k, now, SQUEEZED, n).d)
  {
    var inv := (j: KeyerState) => Squeezing(j.d);
    forall j | inv(j)
      ensures inv(Once(j, now, SQUEEZED).0)
    {
      OnceSqueezing(j, now);
    }
    PassesKeep(inv, k, now, SQUEEZED, n);
  }

  lemma {:induction false} SqueezingDepends(a: Data, b: Data)
    requires Squeezing(a)
    requires b.state == a.state && b.enabled == a.enabled && b.sent == a.sent && b.marks == a.marks
    ensures Squeezing(b)
  {
  }

  lemma {:induction false} FedSqueezing(k: KeyerState, c: uint8)
    requires Squeezing(k.d)
    ensures Squeezing(Fed(k, c).d)
  {
    FedKeepsPlay(k, c);
    SqueezingDepends(k.d, Fed(k, c).d);
  }

  /** With both paddles held and the WinKeyer player off, the elements strictly alternate, whatever
      the clock does and whatever bytes arrive meanwhile. */
  lemma {:induction false} SqueezingRun(k: KeyerState, evs: seq<Event>)
    requires Squeezing(k.d)
    requires SqueezedTicks(evs)
    ensures Squeezing(Run(k, evs).d)
    decreases |evs|
  {
    if evs != [] {
      if evs[0].Tick? {
        PassesSqueezing(k, evs[0].now, MAX_TRANSITIONS_PER_TICK);
      } else {
        FedSqueezing(k, evs[0].c);
      }
      SqueezingRun(Step(k, evs[0]), evs[1..]);
    }
  }

  lemma {:induction false} InitiallyReady(style: Morse.CodeStyle, timings: Morse.CodeTimings)
    ensures var k := InitialState(style, timings);
      Framed(k) && Rested(k.d) && LineFollowsState(k.d) && Squeezing(k.d)
  {
  }
}
