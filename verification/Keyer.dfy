/** The keyer (src/keyer/keyer.cpp and the state classes): the byte-at-a-time WinKeyer parser that
    fills the ring, and the state machine that empties it and drives the key line. */
module Keyer {
  import opened FixedWidth
  import opened Wrappers
  import opened Sequences
  import opened CharPatterns
  import opened WinKeyer
  import opened Ring
  import Morse

  const RING_CAPACITY := 160
  const MAX_ARGUMENTS := 15
  const MAX_TRANSITIONS_PER_TICK := 16

  datatype StateType =
    | Idle | SendElement | KeyDown | Tune | InterElementSpace | InterWordSpace | Play | Autospace
    | Winkeyer | HalfDotGap

  /** What is_paddle_pressed answers during a tick. */
  datatype Paddles = Paddles(left: bool, right: bool)

  const RELEASED := Paddles(false, false)

  /** The immediate command whose arguments are awaited, and the number of argument bytes the last
      buffered command still lacks. */
  datatype ParserData = ParserData(pending: uint8, waiting: nat, arguments: seq<uint8>, index: nat, remaining: nat)

  /** The next argument always fits the array. */
  type Parser = p: ParserData | |p.arguments| == MAX_ARGUMENTS && p.index + p.waiting <= MAX_ARGUMENTS
    witness ParserData(0, 0, seq(MAX_ARGUMENTS, _ => 0), 0, 0)

  /** What the lengths of elements and pauses depend on: the WinKeyer speed and the profile. */
  datatype Pace = Pace(speedWpm: uint8, style: Morse.CodeStyle, timings: Morse.CodeTimings)

  /** keyer_internal_state and the profile, without the ring. exitAt is the deadline of the current
      state: every timed state sets its own when it is entered and reads it only while current.
      keyLine is the key line; marks logs what was keyed and paused so far. */
  datatype Data = Data(state: StateType, exitAt: int, ditBuffered: bool, dahBuffered: bool, sent: Option<Element>,
                       enabled: bool, pace: Pace, lastSendTime: int, wordSpaceAt: int,
                       playingData: nat, playingBit: nat, charSpacePlayed: bool, parser: Parser,
                       keyLine: bool, marks: seq<Mark>)

  datatype KeyerData = KeyerData(d: Data, ring: seq<uint8>)

  type KeyerState = k: KeyerData | |k.ring| <= RING_CAPACITY witness InitialState(Morse.DEFAULT_STYLE, NO_TIMINGS)

  const NO_TIMINGS := Morse.CodeTimings(0.0, 0.0, 0.0, 0.0, 0.0, 0.0, 0.0)

  /** init: the keyer idle, with the timings of its style. */
  function InitialData(style: Morse.CodeStyle, timings: Morse.CodeTimings): Data {
    EnteredIdle(Data(Idle, 0, false, false, None, false, Pace(24, style, timings), 0, 0, 0, 0, true,
                     ParserData(0, 0, seq(MAX_ARGUMENTS, _ => 0), 0, 0), false, []))
  }

  function InitialState(style: Morse.CodeStyle, timings: Morse.CodeTimings): KeyerData {
    KeyerData(InitialData(style, timings), [])
  }

  // ---- the parser ----

  /** calculate_timings; a style that divides by zero keeps its timings, which the source leaves
      infinite. */
  function Retimed(pace: Pace, style: Morse.CodeStyle): Pace {
    pace.(style := Morse.Adjusted(style),
          timings := if Morse.Timed(style) then Morse.Timings(style) else pace.timings)
  }

  /** The immediate commands that set the speed and the weighting. */
  function Repaced(pace: Pace, command: uint8, argument: uint8): Pace {
    if command == 0x02 then
      Retimed(pace.(speedWpm := argument), pace.style.(characterWpm := argument as real, farnsworthWpm := argument as real))
    else if command == 0x03 then Retimed(pace, pace.style.(weighting := argument as real))
    else pace
  }

  /** The immediate commands that do something. */
  function Executed(k: KeyerState): KeyerState {
    var command := k.d.parser.pending;
    var first := k.d.parser.arguments[0];
    if command == 0x0A then k.(ring := [])
    else if command == 0x0B then k.(d := k.d.(keyLine := first == 1))
    else k.(d := k.d.(pace := Repaced(k.d.pace, command, first)))
  }

  function WithParser(k: KeyerState, p: Parser): KeyerState {
    k.(d := k.d.(parser := p))
  }

  function TakenArgument(p: Parser, c: uint8): Parser
    requires p.waiting > 0
  {
    p.(arguments := p.arguments[p.index := c], index := p.index + 1, waiting := p.waiting - 1)
  }

  function TakenImmediate(p: Parser, c: uint8): Parser
    requires IsCommand(c)
  {
    p.(pending := c, waiting := ParameterCount(c), index := 0)
  }

  function RemainingAfter(remaining: nat, c: uint8): nat {
    if remaining > 0 then remaining - 1
    else if IsBuffered(c) then ParameterCount(c)
    else 0
  }

  predicate IsImmediate(k: KeyerState, c: uint8) {
    k.d.parser.remaining == 0 && IsCommand(c) && !IsBuffered(c)
  }

  /** winkeyer_data */
  function Fed(k: KeyerState, c: uint8): KeyerState {
    var p := k.d.parser;
    if p.waiting > 0 then
      var taken := WithParser(k, TakenArgument(p, c));
      if p.waiting == 1 then Executed(taken) else taken
    else if IsImmediate(k, c) then
      var taken := WithParser(k, TakenImmediate(p, c));
      if ParameterCount(c) == 0 then Executed(taken) else taken
    else
      WithParser(k.(ring := Pushed(k.ring, RING_CAPACITY, c)), p.(remaining := RemainingAfter(p.remaining, c)))
  }

  // ---- lengths in milliseconds ----

  function ToMs(x: real): int {
    x.Floor
  }

  /** At 0 wpm the source converts an infinity to an integer, which has no defined value. */
  function ElementLength(enabled: bool, pace: Pace, e: Element): int {
    if enabled then
      if pace.speedWpm == 0 then 0
      else ToMs((if e == Dit then 1200.0 else 1200.0 * pace.style.dahDitRatio) / pace.speedWpm as real)
    else ToMs(if e == Dit then pace.timings.weightedDitMs else pace.timings.weightedDahMs)
  }

  function WeightedLength(enabled: bool, pace: Pace, e: Element): int {
    if enabled then ToMs(ElementLength(enabled, pace, e) as real * pace.style.weighting / 50.0)
    else ElementLength(enabled, pace, e)
  }

  function ElementSpaceLength(enabled: bool, pace: Pace): int {
    ToMs(if enabled then ElementLength(enabled, pace, Dit) as real * ((100.0 - pace.style.weighting) / 50.0)
         else pace.timings.weightedElementSpaceMs)
  }

  function WordSpaceLength(enabled: bool, pace: Pace): int {
    if enabled then ElementLength(enabled, pace, Dit) * pace.style.impulsesBetweenWords
    else ToMs(pace.timings.wordSpaceMs)
  }

  // ---- the states ----

  function CheckedDit(d: Data, p: Paddles): Data {
    d.(ditBuffered := d.ditBuffered || p.left)
  }

  function CheckedDah(d: Data, p: Paddles): Data {
    d.(dahBuffered := d.dahBuffered || p.right)
  }

  /** poll_paddles */
  function Polled(d: Data, p: Paddles): Data {
    CheckedDah(CheckedDit(d, p), p)
  }

  /** While an element or its gap runs, the opposite paddle is watched. */
  function CheckedOpposite(d: Data, p: Paddles): Data {
    if d.sent == Some(Dit) then CheckedDah(d, p) else CheckedDit(d, p)
  }

  function EnteredIdle(d: Data): Data {
    d.(state := Idle,
       wordSpaceAt := ToMs(d.lastSendTime as real + d.pace.timings.wordSpaceMs - d.pace.timings.weightedElementSpaceMs * 1.5))
  }

  function CurrentWpm(d: Data): nat {
    if d.enabled then d.pace.speedWpm else if d.pace.style.characterWpm >= 0.0 then d.pace.style.characterWpm.Floor else 0
  }

  /** The element on the key; the states that send one always choose it first. */
  function SentElement(d: Data): Element {
    if d.sent == Some(Dit) then Dit else Dah
  }

  function EnteredSendElement(d: Data, now: int): Data {
    var e := SentElement(d);
    var keyed := d.(state := SendElement, keyLine := true, exitAt := now + WeightedLength(d.enabled, d.pace, e),
                    marks := d.marks + [Keyed(e, CurrentWpm(d))]);
    if e == Dit then keyed.(ditBuffered := false) else keyed.(dahBuffered := false)
  }

  function Entered(d: Data, next: StateType, now: int): Data {
    match next
    case Idle => EnteredIdle(d)
    case SendElement => EnteredSendElement(d, now)
    case InterElementSpace => d.(state := InterElementSpace, exitAt := now + ElementSpaceLength(d.enabled, d.pace))
    case InterWordSpace =>
      d.(state := InterWordSpace, exitAt := d.lastSendTime + WordSpaceLength(d.enabled, d.pace), marks := d.marks + [WordSpace])
    case Autospace =>
      d.(state := Autospace, marks := d.marks + [CharSpace],
         exitAt := ToMs(now as real + d.pace.timings.charSpaceMs - d.pace.timings.weightedElementSpaceMs))
    case HalfDotGap =>
      d.(state := HalfDotGap, exitAt := now + WeightedLength(d.enabled, d.pace, Dit) / 2, marks := d.marks + [HalfGap])
    case Winkeyer => d.(state := Winkeyer, enabled := true)
    case _ => d.(state := next)
  }

  function Exited(d: Data, now: int): Data {
    if d.state == SendElement then d.(lastSendTime := now, keyLine := false) else d
  }

  /** switch_to */
  function SwitchedTo(d: Data, next: StateType, now: int): Data {
    if next == d.state then d else Entered(Exited(d, now), next, now)
  }

  function Opposite(e: Option<Element>): Option<Element> {
    match e
    case None => None
    case Some(Dit) => Some(Dah)
    case Some(Dah) => Some(Dit)
  }

  function UpdatedIdle(k: KeyerState, now: int, p: Paddles): (KeyerState, StateType) {
    var d := Polled(k.d, p);
    if d.ditBuffered && d.dahBuffered then
      (k.(d := d.(sent := if d.sent.None? then Some(Dit) else Opposite(d.sent))), SendElement)
    else if d.ditBuffered || d.dahBuffered then
      (k.(d := d.(sent := if d.ditBuffered then Some(Dit) else Some(Dah))), SendElement)
    else if d.enabled || k.ring != [] then (k.(d := d), Winkeyer)
    else if now > d.wordSpaceAt && d.sent.Some? then (k.(d := d.(sent := None)), Idle)
    else (k.(d := d), Idle)
  }

  function UpdatedInterElementSpace(k: KeyerState, now: int, p: Paddles): (KeyerState, StateType) {
    var d := CheckedOpposite(k.d, p);
    if now < d.exitAt then (k.(d := d), InterElementSpace)
    else if d.enabled then (k.(d := d), Winkeyer)
    else
      var polled := Polled(d, p);
      (k.(d := polled),
       if polled.ditBuffered || polled.dahBuffered || !polled.pace.style.autospaceEnabled then Idle else Autospace)
  }

  function UpdatedInterWordSpace(k: KeyerState, now: int, p: Paddles): (KeyerState, StateType) {
    var d := Polled(k.d, p);
    if now < d.exitAt then (k.(d := d), InterWordSpace)
    else (k.(d := d.(lastSendTime := now)), if d.enabled then Winkeyer else Play)
  }

  /** The next bit of the character being played. */
  function NextElement(d: Data): Data
    requires d.playingBit > 0
  {
    var bit := d.playingBit - 1;
    d.(playingBit := bit, sent := Some(if Bit(d.playingData, bit) then Dah else Dit))
  }

  /** A whole item is at the front of the ring. */
  predicate ItemReady(ring: seq<uint8>) {
    ring != [] && ItemLength(ring[0]) <= |ring|
  }

  /** A character byte, with the ring after it. */
  function CharacterPlayed(d: Data, rest: seq<uint8>, c: uint8): (KeyerState, StateType)
    requires |rest| <= RING_CAPACITY
  {
    if c == HALF_GAP then (KeyerData(d, rest), HalfDotGap)
    else
      match Pattern(c as char)
      case None => (KeyerData(d, rest), InterWordSpace)
      case Some(q) =>
        PatternsPlayable(c as char);
        (KeyerData(NextElement(d.(playingData := q.data, playingBit := q.bits, charSpacePlayed := false)), rest),
         SendElement)
  }

  /** The item at the front of the ring. */
  function Consumed(d: Data, ring: seq<uint8>): (KeyerState, StateType)
    requires ItemReady(ring) && |ring| <= RING_CAPACITY
  {
    var c := ring[0];
    var rest := ring[ItemLength(c)..];
    if IsCommand(c) then
      (if c == BUFFERED_SPEED then KeyerData(d.(pace := d.pace.(speedWpm := ring[1])), rest)
       else if c == 0x0A then KeyerData(d, [])
       else KeyerData(d, rest), Winkeyer)
    else CharacterPlayed(d, rest, c)
  }

  /** A command, after which its arguments are read from what is left of the ring. */
  lemma {:induction false} CommandConsumed(d: Data, ring: seq<uint8>)
    requires ItemReady(ring) && |ring| <= RING_CAPACITY && IsCommand(ring[0])
    ensures var (c, rest) := (ring[0], ring[1..]);
      Consumed(d, ring)
      == (KeyerData(if c == BUFFERED_SPEED then d.(pace := d.pace.(speedWpm := rest[0])) else d,
                    if c == 0x0A then [] else rest[ParameterCount(c)..]), Winkeyer)
  {
    DroppedTwice(ring, 1, ParameterCount(ring[0]));
  }

  function UpdatedWinkeyer(k: KeyerState, p: Paddles): (KeyerState, StateType) {
    var d := Polled(k.d, p);
    if d.ditBuffered || d.dahBuffered then (KeyerData(d.(enabled := false), []), Idle)
    else if d.playingBit > 0 then (k.(d := NextElement(d)), SendElement)
    else if !d.charSpacePlayed then (k.(d := d.(charSpacePlayed := true)), Autospace)
    else if ItemReady(k.ring) then Consumed(d, k.ring)
    else (k.(d := d), Winkeyer)
  }

  function AfterPause(d: Data, now: int): StateType {
    if now < d.exitAt then d.state else if d.enabled then Winkeyer else Idle
  }

  /** current_state->update(now); the memory player's state is not modelled and stays put. */
  function Updated(k: KeyerState, now: int, p: Paddles): (KeyerState, StateType) {
    match k.d.state
    case Idle => UpdatedIdle(k, now, p)
    case SendElement => (k.(d := CheckedOpposite(k.d, p)), if now >= k.d.exitAt then InterElementSpace else SendElement)
    case InterElementSpace => UpdatedInterElementSpace(k, now, p)
    case InterWordSpace => UpdatedInterWordSpace(k, now, p)
    case Autospace => (k, AfterPause(k.d, now))
    case HalfDotGap => (k, AfterPause(k.d, now))
    case Winkeyer => UpdatedWinkeyer(k, p)
    case KeyDown => (k, Idle)
    case Tune => (k, Idle)
    case Play => (k, Play)
  }

  /** One pass of the loop in update; whether it was the last. */
  function Once(k: KeyerState, now: int, p: Paddles): (KeyerState, bool) {
    var (after, next) := Updated(k, now, p);
    if next == after.d.state then (after, true)
    else (after.(d := SwitchedTo(after.d, next, now)), false)
  }

  /** A step is taken until it settles, at most n times. */
  function Repeated<S>(step: S -> (S, bool), s: S, n: nat): S
    decreases n
  {
    if n == 0 then s
    else
      var (after, settled) := step(s);
      if settled then after else Repeated(step, after, n - 1)
  }

  /** What every step keeps, the steps keep. */
  lemma {:induction false} RepeatedKeeps<S>(step: S -> (S, bool), inv: S -> bool, s: S, n: nat)
    requires forall t {:trigger step(t)} :: inv(t) ==> inv(step(t).0)
    requires inv(s)
    ensures inv(Repeated(step, s, n))
    decreases n
  {
    if n > 0 {
      RepeatedKeeps(step, inv, step(s).0, n - 1);
    }
  }

  /** Steps that lower a rank have settled when they are more than the rank. */
  lemma {:induction false} RepeatedSettles<S>(step: S -> (S, bool), inv: S -> bool, rank: S -> nat, s: S, n: nat, more: nat)
    requires forall t {:trigger step(t)} :: inv(t) ==> step(t).1 || (inv(step(t).0) && rank(step(t).0) < rank(t))
    requires inv(s) && rank(s) < n <= more
    ensures Repeated(step, s, n) == Repeated(step, s, more)
    decreases n
  {
    if !step(s).1 {
      RepeatedSettles(step, inv, rank, step(s).0, n - 1, more - 1);
    }
  }

  /** At most n passes. */
  function Passes(k: KeyerState, now: int, p: Paddles, n: nat): KeyerState {
    Repeated((j: KeyerState) => Once(j, now, p), k, n)
  }

  lemma {:induction false} PassAdvances(k: KeyerState, after: KeyerState, settled: bool, now: int, p: Paddles, n: nat)
    requires Once(k, now, p) == (after, settled) && n > 0
    ensures Passes(k, now, p, n) == if settled then after else Passes(after, now, p, n - 1)
  {
  }

  /** At most n passes lead to goal. */
  ghost predicate Leads(k: KeyerState, now: int, p: Paddles, n: nat, goal: KeyerState) {
    Passes(k, now, p, n) == goal
  }

  /** They have, when a state stays. */
  ghost predicate Arriving(k: KeyerState, now: int, p: Paddles, n: nat, settled: bool, goal: KeyerState) {
    if settled then k == goal else Leads(k, now, p, n, goal)
  }

  lemma {:induction false} Arrived(k: KeyerState, now: int, p: Paddles, n: nat, settled: bool, goal: KeyerState)
    requires Arriving(k, now, p, n, settled, goal) && (n == 0 || settled)
    ensures k == goal
  {
  }

  /** update */
  function Ticked(k: KeyerState, now: int, p: Paddles): KeyerState {
    Passes(k, now, p, MAX_TRANSITIONS_PER_TICK)
  }

  // ---- the keyer object ----

  class Keyer {
    var data: Data
    const ring: CircularBuffer<uint8>

    ghost predicate Valid()
      reads this, ring, ring.buf
    {
      ring.Valid() && ring.maxSize == RING_CAPACITY
    }

    ghost function State(): KeyerState
      requires Valid()
      reads this, ring, ring.buf
    {
      KeyerData(data, ring.contents)
    }

    constructor (style: Morse.CodeStyle, timings: Morse.CodeTimings)
      ensures Valid() && fresh(ring) && fresh(ring.buf)
      ensures State() == InitialState(style, timings)
    {
      ring := new CircularBuffer<uint8>(RING_CAPACITY, 0);
      data := InitialData(style, timings);
    }

    method ExecutePending()
      requires Valid()
      modifies this, ring
      ensures Valid() && ring.buf == old(ring.buf)
      ensures State() == Executed(old(State()))
    {
      var command := data.parser.pending;
      var first := data.parser.arguments[0];
      if command == 0x0A {
        ring.Reset();
      } else if command == 0x0B {
        data := data.(keyLine := first == 1);
      } else {
        data := data.(pace := Repaced(data.pace, command, first));
      }
    }

    method WinkeyerData(c: uint8)
      requires Valid()
      modifies this, ring, ring.buf
      ensures Valid() && ring.buf == old(ring.buf)
      ensures State() == Fed(old(State()), c)
    {
      var p := data.parser;
      var execute := false;
      if p.waiting > 0 {
        data := data.(parser := p.(arguments := p.arguments[p.index := c], index := p.index + 1, waiting := p.waiting - 1));
        if p.waiting - 1 == 0 {
          execute := true;
        } else {
          return;
        }
      }
      if !execute && p.remaining == 0 && IsCommand(c) && !IsBuffered(c) {
        data := data.(parser := p.(pending := c, waiting := ParameterCount(c), index := 0));
        if ParameterCount(c) == 0 {
          execute := true;
        } else {
          return;
        }
      }
      if execute {
        ExecutePending();
      } else {
        ring.Put(c);
        if p.remaining > 0 {
          data := data.(parser := p.(remaining := p.remaining - 1));
        } else if IsCommand(c) && IsBuffered(c) {
          data := data.(parser := p.(remaining := ParameterCount(c)));
        }
      }
    }

    /** state_winkeyer's update from the point where a whole item is in the ring. */
    method ConsumeItem() returns (next: StateType)
      requires Valid() && ItemReady(State().ring)
      modifies this, ring
      ensures Valid() && ring.buf == old(ring.buf)
      ensures (State(), next) == Consumed(old(data), old(State()).ring)
    {
      ghost var contents := ring.contents;
      var c := ring.Get();
      if IsCommand(c) {
        CommandConsumed(data, contents);
        InterpretCommand(c);
        return Winkeyer;
      }
      next := PlayCharacter(c);
    }

    /** A buffered command taken from the ring, with its arguments still there. */
    method InterpretCommand(c: uint8)
      requires Valid() && IsCommand(c) && ParameterCount(c) <= |State().ring|
      modifies this, ring
      ensures Valid() && ring.buf == old(ring.buf)
      ensures data == if c == BUFFERED_SPEED then old(data).(pace := old(data).pace.(speedWpm := old(State()).ring[0]))
                      else old(data)
      ensures State().ring == if c == 0x0A then [] else old(State()).ring[ParameterCount(c)..]
    {
      var arguments := ReadArguments(ParameterCount(c));
      if c == BUFFERED_SPEED {
        data := data.(pace := data.pace.(speedWpm := arguments[0]));
      } else if c == 0x0A {
        ring.Reset();
      }
    }

    /** The loop that reads the arguments of a buffered command. */
    method ReadArguments(count: nat) returns (arguments: seq<uint8>)
      requires Valid() && count <= |State().ring|
      modifies ring
      ensures Valid() && ring.buf == old(ring.buf)
      ensures arguments == old(State()).ring[..count]
      ensures State().ring == old(State()).ring[count..]
    {
      arguments := [];
      ghost var contents := ring.contents;
      for i := 0 to count
        invariant Valid() && ring.buf == old(ring.buf)
        invariant arguments == contents[..i]
        invariant ring.contents == contents[i..]
      {
        var a := ring.Get();
        assert contents[..i + 1] == contents[..i] + [a];
        arguments := arguments + [a];
      }
    }

    /** What follows a character byte taken from the ring. */
    method PlayCharacter(c: uint8) returns (next: StateType)
      requires Valid() && !IsCommand(c)
      modifies this`data
      ensures Valid()
      ensures (State(), next) == CharacterPlayed(old(data), State().ring, c)
    {
      if c == HALF_GAP {
        return HalfDotGap;
      }
      var pattern := Pattern(c as char);
      if pattern.None? {
        return InterWordSpace;
      }
      PatternsPlayable(c as char);
      data := NextElement(data.(playingData := pattern.value.data, playingBit := pattern.value.bits, charSpacePlayed := false));
      return SendElement;
    }

    method UpdateWinkeyer(p: Paddles) returns (next: StateType)
      requires Valid()
      modifies this, ring
      ensures Valid() && ring.buf == old(ring.buf)
      ensures (State(), next) == UpdatedWinkeyer(old(State()), p)
    {
      data := Polled(data, p);
      if data.ditBuffered || data.dahBuffered {
        data := data.(enabled := false);
        ring.Reset();
        return Idle;
      }
      if data.playingBit == 0 {
        if !data.charSpacePlayed {
          data := data.(charSpacePlayed := true);
          return Autospace;
        }
        var empty := ring.Empty();
        if empty {
          return Winkeyer;
        }
        var c := ring.Peek();
        var size := ring.Size();
        if IsCommand(c) && size <= ParameterCount(c) {
          return Winkeyer;
        }
        next := ConsumeItem();
        return;
      }
      data := NextElement(data);
      return SendElement;
    }

    method UpdateState(now: int, p: Paddles) returns (next: StateType)
      requires Valid()
      modifies this, ring
      ensures Valid() && ring.buf == old(ring.buf)
      ensures (State(), next) == Updated(old(State()), now, p)
    {
      if data.state == Winkeyer {
        next := UpdateWinkeyer(p);
      } else {
        var empty := ring.Empty();
        next := UpdateOther(empty, now, p);
      }
    }

    /** The states that do not touch the ring. */
    method UpdateOther(ringEmpty: bool, now: int, p: Paddles) returns (next: StateType)
      requires Valid() && data.state != Winkeyer && ringEmpty == (State().ring == [])
      modifies this`data
      ensures Valid()
      ensures (State(), next) == Updated(old(State()), now, p)
    {
      match data.state
      case Idle =>
        data := Polled(data, p);
        if data.ditBuffered && data.dahBuffered {
          data := data.(sent := if data.sent.None? then Some(Dit) else Opposite(data.sent));
          return SendElement;
        }
        if data.ditBuffered || data.dahBuffered {
          data := data.(sent := if data.ditBuffered then Some(Dit) else Some(Dah));
          return SendElement;
        }
        if data.enabled || !ringEmpty {
          return Winkeyer;
        }
        if now > data.wordSpaceAt && data.sent.Some? {
          data := data.(sent := None);
        }
        return Idle;
      case SendElement =>
        data := CheckedOpposite(data, p);
        return if now >= data.exitAt then InterElementSpace else SendElement;
      case InterElementSpace =>
        data := CheckedOpposite(data, p);
        if now >= data.exitAt {
          if data.enabled {
            return Winkeyer;
          }
          data := Polled(data, p);
          return if data.ditBuffered || data.dahBuffered || !data.pace.style.autospaceEnabled then Idle else Autospace;
        }
        return InterElementSpace;
      case InterWordSpace =>
        data := Polled(data, p);
        if now >= data.exitAt {
          data := data.(lastSendTime := now);
          return if data.enabled then Winkeyer else Play;
        }
        return InterWordSpace;
      case Autospace => return AfterPause(data, now);
      case HalfDotGap => return AfterPause(data, now);
      case KeyDown => return Idle;
      case Tune => return Idle;
      case Play => return Play;
    }

    /** The body of the loop in update: one of at most n passes towards goal. */
    method Pass(now: int, p: Paddles, ghost n: nat, ghost goal: KeyerState) returns (settled: bool)
      requires Valid()
      requires n > 0 && Arriving(State(), now, p, n, false, goal)
      modifies this, ring
      ensures Valid() && ring.buf == old(ring.buf)
      ensures Arriving(State(), now, p, n - 1, settled, goal)
    {
      ghost var before := State();
      settled := PassOnce(now, p);
      PassAdvances(before, State(), settled, now, p, n);
    }

    method PassOnce(now: int, p: Paddles) returns (settled: bool)
      requires Valid()
      modifies this, ring
      ensures Valid() && ring.buf == old(ring.buf)
      ensures (State(), settled) == Once(old(State()), now, p)
    {
      var next := UpdateState(now, p);
      settled := next == data.state;
      if !settled {
        data := SwitchedTo(data, next, now);
      }
    }

    method Update(now: int, p: Paddles)
      requires Valid()
      modifies this, ring
      ensures Valid() && ring.buf == old(ring.buf)
      ensures State() == Ticked(old(State()), now, p)
    {
      DoPasses(now, p, MAX_TRANSITIONS_PER_TICK);
    }

    /** The loop of update, for any cap. */
    method DoPasses(now: int, p: Paddles, cap: nat)
      requires Valid()
      modifies this, ring
      ensures Valid() && ring.buf == old(ring.buf)
      ensures State() == Passes(old(State()), now, p, cap)
    {
      ghost var goal := Passes(State(), now, p, cap);
      PassTo(now, p, cap, goal);
    }

    method PassTo(now: int, p: Paddles, cap: nat, ghost goal: KeyerState)
      requires Valid() && Arriving(State(), now, p, cap, false, goal)
      modifies this, ring
      ensures Valid() && ring.buf == old(ring.buf) && State() == goal
    {
      var settled := false;
      var i := 0;
      while i < cap && !settled
        invariant i <= cap
        invariant Valid() && ring.buf == old(ring.buf)
        invariant Arriving(State(), now, p, cap - i, settled, goal)
      {
        settled := Pass(now, p, cap - i, goal);
        i := i + 1;
      }
      Arrived(State(), now, p, cap - i, settled, goal);
    }
  }
}
