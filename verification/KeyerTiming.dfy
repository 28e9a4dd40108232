/** How long the key is down and up: elements, gaps and character spaces of the keyer. */
module KeyerTiming {
  import opened FixedWidth
  import opened Wrappers
  import opened CharPatterns
  import opened WinKeyer
  import opened Ring
  import opened Keyer
  import opened KeyerFraming
  import Morse

  // ---- a state that waits for its deadline ----

  predicate Timed(d: Data) {
    d.state in {SendElement, InterElementSpace, InterWordSpace, Autospace, HalfDotGap}
  }

  /** The same wait: nothing was keyed or paused in between, and the deadline stands. */
  predicate StillWaits(a: Data, b: Data) {
    a.state == b.state && a.exitAt == b.exitAt && a.marks == b.marks && a.lastSendTime == b.lastSendTime
  }

  lemma {:induction false} ElementWaits(k: KeyerState, now: int, p: Paddles)
    requires k.d.state == SendElement && now < k.d.exitAt
    ensures Once(k, now, p) == (k.(d := CheckedOpposite(k.d, p)), true)
  {
  }

  lemma {:induction false} GapWaits(k: KeyerState, now: int, p: Paddles)
    requires k.d.state == InterElementSpace && now < k.d.exitAt
    ensures Once(k, now, p) == (k.(d := CheckedOpposite(k.d, p)), true)
  {
  }

  lemma {:induction false} PauseWaits(k: KeyerState, now: int, p: Paddles)
    requires k.d.state in {InterWordSpace, Autospace, HalfDotGap} && now < k.d.exitAt
    ensures Once(k, now, p).1
    ensures Once(k, now, p).0.d == if k.d.state == InterWordSpace then Polled(k.d, p) else k.d
  {
  }

  lemma {:induction false} TickWaits(k: KeyerState, now: int, p: Paddles)
    requires Timed(k.d) && now < k.d.exitAt
    ensures StillWaits(Ticked(k, now, p).d, k.d) && Ticked(k, now, p).d.keyLine == k.d.keyLine
  {
    if k.d.state == SendElement {
      ElementWaits(k, now, p);
    } else if k.d.state == InterElementSpace {
      GapWaits(k, now, p);
    } else {
      PauseWaits(k, now, p);
    }
    Settles(k, now, p, MAX_TRANSITIONS_PER_TICK);
  }

  lemma {:induction false} Settles(k: KeyerState, now: int, p: Paddles, n: nat)
    requires n > 0 && Once(k, now, p).1
    ensures Passes(k, now, p, n) == Once(k, now, p).0
  {
    PassAdvances(k, Once(k, now, p).0, true, now, p, n);
  }

  lemma {:induction false} GoesOn(k: KeyerState, now: int, p: Paddles, n: nat)
    requires n > 0 && !Once(k, now, p).1
    ensures Passes(k, now, p, n) == Passes(Once(k, now, p).0, now, p, n - 1)
  {
    PassAdvances(k, Once(k, now, p).0, false, now, p, n);
  }

  lemma {:induction false} ExecutedWaits(k: KeyerState)
    ensures StillWaits(Executed(k).d, k.d)
  {
  }

  lemma {:induction false} ByteWaits(k: KeyerState, c: uint8)
    ensures StillWaits(Fed(k, c).d, k.d)
  {
    var p := k.d.parser;
    if p.waiting > 0 {
      ExecutedWaits(WithParser(k, TakenArgument(p, c)));
    } else if IsImmediate(k, c) {
      ExecutedWaits(WithParser(k, TakenImmediate(p, c)));
    }
  }

  predicate TicksBefore(evs: seq<Event>, deadline: int) {
    forall i :: 0 <= i < |evs| && evs[i].Tick? ==> evs[i].now < deadline
  }

  /** Whatever bytes come and whatever the paddles do, the state lasts until its deadline. */
  lemma {:induction false} WaitsOut(k: KeyerState, evs: seq<Event>)
    requires Timed(k.d) && TicksBefore(evs, k.d.exitAt)
    ensures StillWaits(Run(k, evs).d, k.d)
    decreases |evs|
  {
    if evs != [] {
      match evs[0] {
        case Byte(c) => ByteWaits(k, c);
        case Tick(now, p) => TickWaits(k, now, p);
      }
      WaitsOut(Step(k, evs[0]), evs[1..]);
    }
  }

  // ---- elements ----

  predicate JustStarted(d: Data, now: int) {
    d.state == SendElement ==> d.exitAt == now + WeightedLength(d.enabled, d.pace, SentElement(d))
  }

  lemma {:induction false} OnceStarts(k: KeyerState, now: int, p: Paddles)
    requires JustStarted(k.d, now)
    ensures JustStarted(Once(k, now, p).0.d, now)
  {
    var (after, next) := Updated(k, now, p);
    if next == SendElement && k.d.state != SendElement {
      UpdatedKeepsLine(k, now, p);
      EntersElement(after.d, now);
    }
  }

  lemma {:induction false} EntersElement(d: Data, now: int)
    requires d.state != SendElement
    ensures JustStarted(SwitchedTo(d, SendElement, now), now)
  {
  }

  /** An element that a tick starts is due to end one element length after the tick. */
  lemma {:induction false} ElementStarts(k: KeyerState, now: int, p: Paddles)
    requires k.d.state != SendElement
    ensures JustStarted(Ticked(k, now, p).d, now)
  {
    var inv := (j: KeyerState) => JustStarted(j.d, now);
    forall j | inv(j)
      ensures inv(Once(j, now, p).0)
    {
      OnceStarts(j, now, p);
    }
    PassesKeep(inv, k, now, p, MAX_TRANSITIONS_PER_TICK);
  }

  lemma {:induction false} ElementLifts(k: KeyerState, now: int, p: Paddles)
    requires k.d.state == SendElement && k.d.exitAt <= now
    ensures var d := CheckedOpposite(k.d, p);
      Once(k, now, p) == (k.(d := SwitchedTo(d, InterElementSpace, now)), false)
  {
  }

  lemma {:induction false} GapStarts(d: Data, now: int)
    requires d.state == SendElement
    ensures var up := SwitchedTo(d, InterElementSpace, now);
      up.state == InterElementSpace && !up.keyLine && up.lastSendTime == now
      && up.exitAt == now + ElementSpaceLength(d.enabled, d.pace)
  {
  }

  lemma {:induction false} GapBegins(k: KeyerState, now: int, p: Paddles, n: nat, up: Data)
    requires Once(k, now, p) == (k.(d := up), false) && n >= 2
    requires up.state == InterElementSpace && now < up.exitAt
    ensures Passes(k, now, p, n) == k.(d := CheckedOpposite(up, p))
  {
    GoesOn(k, now, p, n);
    GapSettles(k.(d := up), now, p, n - 1);
  }

  lemma {:induction false} GapSettles(k: KeyerState, now: int, p: Paddles, n: nat)
    requires k.d.state == InterElementSpace && now < k.d.exitAt && n > 0
    ensures Passes(k, now, p, n) == k.(d := CheckedOpposite(k.d, p))
  {
    GapWaits(k, now, p);
    Settles(k, now, p, n);
  }

  lemma {:induction false} ElementEndsIn(k: KeyerState, now: int, p: Paddles, n: nat)
    requires k.d.state == SendElement && k.d.exitAt <= now && n >= 2
    requires ElementSpaceLength(k.d.enabled, k.d.pace) > 0
    ensures var d := Passes(k, now, p, n).d;
      d.state == InterElementSpace && !d.keyLine && d.lastSendTime == now
      && d.exitAt == now + ElementSpaceLength(k.d.enabled, k.d.pace)
  {
    var up := SwitchedTo(CheckedOpposite(k.d, p), InterElementSpace, now);
    ElementLifts(k, now, p);
    GapStarts(CheckedOpposite(k.d, p), now);
    GapBegins(k, now, p, n, up);
  }

  /** The first tick at or past the deadline lifts the key and starts the gap. */
  lemma {:induction false} ElementEnds(k: KeyerState, now: int, p: Paddles)
    requires k.d.state == SendElement && k.d.exitAt <= now
    requires ElementSpaceLength(k.d.enabled, k.d.pace) > 0
    ensures var d := Ticked(k, now, p).d;
      d.state == InterElementSpace && !d.keyLine && d.lastSendTime == now
      && d.exitAt == now + ElementSpaceLength(k.d.enabled, k.d.pace)
  {
    ElementEndsIn(k, now, p, MAX_TRANSITIONS_PER_TICK);
  }

  /** The run of events during an element, the tick that ends it, and the events during its gap. */
  datatype Keying = Keying(start: int, during: seq<Event>, end: int, gap: seq<Event>)

  /**
   * The key is down from the tick that starts an element to the first tick that comes no earlier than
   * one element length later, and then up for at least one gap, whatever arrives meanwhile.
   */
  lemma {:induction false} ElementLasts(k: KeyerState, p: Paddles, q: Paddles, t: Keying)
      returns (down: KeyerState, up: KeyerState)
    requires k.d.state != SendElement && Ticked(k, t.start, p).d.state == SendElement
    requires var d := Ticked(k, t.start, p).d;
      var length := WeightedLength(d.enabled, d.pace, SentElement(d));
      TicksBefore(t.during, t.start + length) && t.start + length <= t.end
    requires var d := Run(Ticked(k, t.start, p), t.during).d;
      var gap := ElementSpaceLength(d.enabled, d.pace);
      gap > 0 && TicksBefore(t.gap, t.end + gap)
    ensures down == Run(Ticked(k, t.start, p), t.during) && down.d.state == SendElement
    ensures up == Ticked(down, t.end, q) && up.d.state == InterElementSpace && !up.d.keyLine
    ensures Run(up, t.gap).d.state == InterElementSpace && Run(up, t.gap).d.lastSendTime == t.end
  {
    var started := Ticked(k, t.start, p);
    ElementStarts(k, t.start, p);
    WaitsOut(started, t.during);
    down := Run(started, t.during);
    ElementEnds(down, t.end, q);
    up := Ticked(down, t.end, q);
    WaitsOut(up, t.gap);
  }

  /** What cutting off the fractions of two lengths that add up to a whole number costs. */
  function Lost(x: real): int {
    if x == x.Floor as real then 0 else 1
  }

  /** A weighted dit before its fraction is cut off. */
  function WeightedDit(pace: Pace): real {
    ElementLength(true, pace, Dit) as real * pace.style.weighting / 50.0
  }

  /** With the player on, a dit and its gap take two dits, or a millisecond less if the weighted dit is not whole. */
  lemma {:induction false} BeatOfThePlayer(pace: Pace)
    ensures WeightedLength(true, pace, Dit) + ElementSpaceLength(true, pace)
         == 2 * ElementLength(true, pace, Dit) - Lost(WeightedDit(pace))
  {
    var dit := ElementLength(true, pace, Dit);
    var gap := dit as real * ((100.0 - pace.style.weighting) / 50.0);
    SharesAddUp(dit as real, pace.style.weighting);
    FloorsAdd(WeightedDit(pace), gap, 2 * dit);
    assert WeightedLength(true, pace, Dit) == WeightedDit(pace).Floor;
    assert ElementSpaceLength(true, pace) == gap.Floor;
    assert WeightedLength(true, pace, Dit) + ElementSpaceLength(true, pace) == 2 * dit - Lost(WeightedDit(pace));
  }

  lemma {:induction false} SharesAddUp(dit: real, weighting: real)
    ensures dit * weighting / 50.0 + dit * ((100.0 - weighting) / 50.0) == 2.0 * dit
  {
    var f := weighting / 50.0;
    assert dit * weighting / 50.0 == dit * f;
    assert (100.0 - weighting) / 50.0 == 2.0 - f;
    assert dit * (2.0 - f) == 2.0 * dit - dit * f;
  }

  lemma {:induction false} FloorsAdd(x: real, y: real, n: int)
    requires x + y == n as real
    ensures x.Floor + y.Floor == n - Lost(x)
  {
    assert x == x.Floor as real ==> y == (n - x.Floor) as real;
  }

  // ---- character spaces ----

  /** When the gap behind the last element of a character is over, the character space goes on from there. */
  lemma {:induction false} CharacterSpaceFollows(k: KeyerState, now: int)
    requires k.d.state == InterElementSpace && k.d.exitAt <= now && k.d.enabled && Rested(k.d)
    requires k.d.playingBit == 0 && !k.d.charSpacePlayed
    requires ToMs(now as real + k.d.pace.timings.charSpaceMs - k.d.pace.timings.weightedElementSpaceMs) > now
    ensures var d := Ticked(k, now, RELEASED).d;
      d.state == Autospace && d.marks == k.d.marks + [CharSpace] && d.lastSendTime == k.d.lastSendTime
      && d.exitAt == ToMs(now as real + k.d.pace.timings.charSpaceMs - k.d.pace.timings.weightedElementSpaceMs)
  {
    assert Polled(k.d, RELEASED) == k.d && CheckedOpposite(k.d, RELEASED) == k.d;
    GapGivesWay(k, now);
    GoesOn(k, now, RELEASED, MAX_TRANSITIONS_PER_TICK);
    var a := k.(d := k.d.(state := Winkeyer));
    PlayerPauses(a, now);
    GoesOn(a, now, RELEASED, MAX_TRANSITIONS_PER_TICK - 1);
    var b := a.(d := SwitchedTo(a.d.(charSpacePlayed := true), Autospace, now));
    PauseWaits(b, now, RELEASED);
    Settles(b, now, RELEASED, MAX_TRANSITIONS_PER_TICK - 2);
  }

  lemma {:induction false} GapGivesWay(k: KeyerState, now: int)
    requires k.d.state == InterElementSpace && k.d.exitAt <= now && k.d.enabled
    ensures Once(k, now, RELEASED) == (k.(d := k.d.(state := Winkeyer)), false)
  {
    assert CheckedOpposite(k.d, RELEASED) == k.d;
  }

  lemma {:induction false} PlayerPauses(k: KeyerState, now: int)
    requires k.d.state == Winkeyer && Rested(k.d) && k.d.playingBit == 0 && !k.d.charSpacePlayed
    ensures Once(k, now, RELEASED) == (k.(d := SwitchedTo(k.d.(charSpacePlayed := true), Autospace, now)), false)
  {
    assert Polled(k.d, RELEASED) == k.d;
  }

  /** A word space runs from the last key-up, so the character space before it is part of it. */
  lemma {:induction false} WordSpaceFollows(k: KeyerState, now: int)
    requires k.d.state == Winkeyer && Rested(k.d) && k.d.playingBit == 0 && k.d.charSpacePlayed
    requires k.ring != [] && !IsCommand(k.ring[0]) && k.ring[0] != HALF_GAP && Pattern(k.ring[0] as char).None?
    requires now < k.d.lastSendTime + WordSpaceLength(k.d.enabled, k.d.pace)
    ensures var after := Ticked(k, now, RELEASED);
      after.d.state == InterWordSpace && after.d.exitAt == k.d.lastSendTime + WordSpaceLength(k.d.enabled, k.d.pace)
      && after.d.marks == k.d.marks + [WordSpace] && after.ring == k.ring[1..]
  {
    SpaceTaken(k, now);
    GoesOn(k, now, RELEASED, MAX_TRANSITIONS_PER_TICK);
    var a := KeyerData(SwitchedTo(k.d, InterWordSpace, now), k.ring[1..]);
    assert Polled(a.d, RELEASED) == a.d;
    PauseWaits(a, now, RELEASED);
    WordSpaceKeepsRing(a, now);
    Settles(a, now, RELEASED, MAX_TRANSITIONS_PER_TICK - 1);
  }

  lemma {:induction false} SpaceTaken(k: KeyerState, now: int)
    requires k.d.state == Winkeyer && Rested(k.d) && k.d.playingBit == 0 && k.d.charSpacePlayed
    requires k.ring != [] && !IsCommand(k.ring[0]) && k.ring[0] != HALF_GAP && Pattern(k.ring[0] as char).None?
    ensures Once(k, now, RELEASED) == (KeyerData(SwitchedTo(k.d, InterWordSpace, now), k.ring[1..]), false)
  {
    assert Polled(k.d, RELEASED) == k.d;
  }

  lemma {:induction false} WordSpaceKeepsRing(k: KeyerState, now: int)
    requires k.d.state == InterWordSpace && now < k.d.exitAt
    ensures Once(k, now, RELEASED).0.ring == k.ring
  {
  }
}
