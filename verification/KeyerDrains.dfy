/** Every finite text drains as the clock advances: a bound in milliseconds on how long it takes. */
module KeyerDrains {
  import opened FixedWidth
  import opened Wrappers
  import opened CharPatterns
  import opened WinKeyer
  import opened Keyer
  import opened KeyerFraming
  import opened KeyerPlay
  import opened KeyerProgress
  import opened KeyerTiming
  import Morse

  // ---- the longest wait ----

  function Max(a: int, b: int): int { if a < b then b else a }

  /** The longest element or pause at the current speed. */
  function LongestNow(pace: Pace): int {
    Max(Max(WeightedLength(true, pace, Dit), WeightedLength(true, pace, Dah)),
        Max(Max(ElementSpaceLength(true, pace), WordSpaceLength(true, pace)),
            ToMs(pace.timings.charSpaceMs - pace.timings.weightedElementSpaceMs)))
  }

  /** The longest element or pause at any speed below n. */
  function LongestBelow(pace: Pace, n: nat): nat
    requires n <= 0x100
  {
    if n == 0 then 0 else Max(LongestBelow(pace, n - 1), LongestNow(pace.(speedWpm := n - 1)))
  }

  /** The longest element or pause at any speed that a text can set. */
  function Longest(pace: Pace): nat { LongestBelow(pace, 0x100) }

  lemma {:induction false} BelowBounds(pace: Pace, n: nat, speed: uint8)
    requires speed < n <= 0x100
    ensures LongestNow(pace.(speedWpm := speed)) <= LongestBelow(pace, n)
  {
    if speed < n - 1 {
      BelowBounds(pace, n - 1, speed);
    }
  }

  lemma {:induction false} LongestBounds(pace: Pace)
    ensures LongestNow(pace) <= Longest(pace)
  {
    BelowBounds(pace, 0x100, pace.speedWpm);
  }

  lemma {:induction false} BelowIgnoresSpeed(pace: Pace, n: nat, speed: uint8)
    requires n <= 0x100
    ensures LongestBelow(pace.(speedWpm := speed), n) == LongestBelow(pace, n)
  {
    if n > 0 {
      BelowIgnoresSpeed(pace, n - 1, speed);
    }
  }

  // ---- deadlines are near ----

  /** The current wait ends at most longest after now, and so will every later one, seen from its own start. */
  predicate Near(d: Data, now: int, longest: nat) {
    (Timed(d) ==> d.exitAt <= now + longest) && d.lastSendTime <= now && Longest(d.pace) == longest
  }

  lemma {:induction false} InitiallyNear(style: Morse.CodeStyle, timings: Morse.CodeTimings, now: int)
    requires 0 <= now
    ensures var d := InitialState(style, timings).d;
      Near(d, now, Longest(d.pace))
  {
  }

  lemma {:induction false} FloorShift(now: int, x: real)
    ensures ToMs(now as real + x) == now + ToMs(x)
  {
  }

  lemma {:induction false} EntersAutospaceNear(d: Data, now: int)
    ensures Entered(d, Autospace, now).exitAt <= now + Longest(d.pace)
  {
    LongestBounds(d.pace);
    var pause := d.pace.timings.charSpaceMs - d.pace.timings.weightedElementSpaceMs;
    FloorShift(now, pause);
    assert now as real + d.pace.timings.charSpaceMs - d.pace.timings.weightedElementSpaceMs == now as real + pause;
  }

  lemma {:induction false} EntersNear(d: Data, next: StateType, now: int, longest: nat)
    requires d.lastSendTime <= now && Longest(d.pace) == longest && (d.enabled || next in {Idle, Winkeyer})
    ensures Near(Entered(d, next, now), now, longest)
  {
    if next == Autospace {
      EntersAutospaceNear(d, now);
    } else {
      LongestBounds(d.pace);
    }
  }

  /** What an update changes of the data, apart from the switch: at most the speed and the time of the last send. */
  predicate UpdateOf(a: Data, b: Data, now: int) {
    a.state == b.state && a.exitAt == b.exitAt && a.enabled == b.enabled
    && (a.lastSendTime == b.lastSendTime || a.lastSendTime == now)
    && a.pace == b.pace.(speedWpm := a.pace.speedWpm)
  }

  lemma {:induction false} PlayerUpdates(k: KeyerState, now: int)
    requires Playing(k.d) && k.d.state == Winkeyer
    ensures UpdateOf(UpdatedWinkeyer(k, RELEASED).0.d, k.d, now)
  {
    assert Polled(k.d, RELEASED) == k.d;
  }

  lemma {:induction false} OthersUpdate(k: KeyerState, now: int)
    requires Playing(k.d) && k.d.state != Winkeyer
    ensures UpdateOf(Updated(k, now, RELEASED).0.d, k.d, now)
    ensures !k.d.enabled ==> Updated(k, now, RELEASED).1 in {Idle, Winkeyer}
  {
  }

  lemma {:induction false} OnceNear(k: KeyerState, now: int, longest: nat)
    requires Playing(k.d) && Near(k.d, now, longest)
    ensures Near(Once(k, now, RELEASED).0.d, now, longest)
  {
    if k.d.state == Winkeyer {
      PlayerUpdates(k, now);
    } else {
      OthersUpdate(k, now);
    }
    var (after, next) := Updated(k, now, RELEASED);
    BelowIgnoresSpeed(k.d.pace, 0x100, after.d.pace.speedWpm);
    if next != after.d.state {
      EntersNear(Exited(after.d, now), next, now, longest);
    }
  }

  /** What holds of a keyer with nothing but buffered items in its ring, the last tick being at now. */
  predicate Underway(k: KeyerState, now: int, longest: nat) {
    Playing(k.d) && Missing(k.ring).Some? && Near(k.d, now, longest)
  }

  lemma {:induction false} TickUnderway(k: KeyerState, now: int, longest: nat)
    requires Underway(k, now, longest)
    ensures Underway(Ticked(k, now, RELEASED), now, longest)
  {
    var inv := (j: KeyerState) => Underway(j, now, longest);
    forall j | inv(j)
      ensures inv(Once(j, now, RELEASED).0)
    {
      OnceNear(j, now, longest);
      PassWorks(j, now);
    }
    PassesKeep(inv, k, now, RELEASED, MAX_TRANSITIONS_PER_TICK);
  }

  // ---- draining by the clock ----

  /** The clock does not go back, and ticks are at most step apart. */
  predicate Ticking(now: int, times: seq<int>, step: nat)
    decreases |times|
  {
    times == [] || (now <= times[0] <= now + step && Ticking(times[0], times[1..], step))
  }

  function Last(now: int, times: seq<int>): int {
    if times == [] then now else times[|times| - 1]
  }

  /** How long the current wait still takes from now. */
  function Wait(d: Data, now: int): nat {
    if Timed(d) && now < d.exitAt then d.exitAt - now else 0
  }

  /** n waits of the same length, one behind the other: n * wait. */
  function Times(n: nat, wait: nat): nat {
    if n == 0 then 0 else wait + Times(n - 1, wait)
  }

  lemma {:induction false} TimesIs(n: nat, wait: nat)
    ensures Times(n, wait) == n * wait
  {
    if n > 0 {
      TimesIs(n - 1, wait);
      assert n * wait == (n - 1) * wait + wait;
    }
  }

  lemma {:induction false} TimesGrows(a: nat, b: nat, wait: nat)
    requires a <= b
    ensures Times(a, wait) <= Times(b, wait)
  {
    if a < b {
      TimesGrows(a, b - 1, wait);
    }
  }

  /** A bound on how long the work of k takes from now: each piece waits, and then for a tick. */
  function TimeLeft(k: KeyerState, now: int, longest: nat, step: nat): nat {
    if Work(k) == 0 then 0 else Times(Work(k) - 1, longest + step) + Wait(k.d, now) + step
  }

  lemma {:induction false} Fewer(a: nat, b: nat, wait: nat)
    requires a < b
    ensures Times(a, wait) + wait <= Times(b, wait)
  {
    if a < b - 1 {
      Fewer(a, b - 1, wait);
    }
  }

  lemma {:induction false} DueShortens(k: KeyerState, after: KeyerState, now: int, t: int, longest: nat, step: nat)
    requires now <= t <= now + step && Near(after.d, t, longest)
    requires Work(after) < Work(k)
    ensures Work(after) == 0 || TimeLeft(after, t, longest, step) + (t - now) <= TimeLeft(k, now, longest, step)
  {
    if Work(after) > 0 {
      Fewer(Work(after) - 1, Work(k) - 1, longest + step);
    }
  }

  lemma {:induction false} WaitingShortens(k: KeyerState, after: KeyerState, now: int, t: int, longest: nat, step: nat)
    requires now <= t && StillWaits(after.d, k.d) && !Expired(k.d, t)
    requires Work(after) == Work(k)
    ensures Work(after) == 0 || TimeLeft(after, t, longest, step) + (t - now) <= TimeLeft(k, now, longest, step)
  {
  }

  /** A tick leaves no more to wait for than was left, less the time that went by. */
  lemma {:induction false} TickShortens(k: KeyerState, now: int, t: int, longest: nat, step: nat)
      returns (after: KeyerState)
    requires Underway(k, now, longest) && Missing(k.ring) == Some(0) && now <= t <= now + step
    ensures after == Ticked(k, t, RELEASED) && Underway(after, t, longest) && Missing(after.ring) == Some(0)
    ensures Work(after) == 0 || TimeLeft(after, t, longest, step) + (t - now) <= TimeLeft(k, now, longest, step)
  {
    TickUnderway(k, t, longest);
    PassesWork(k, t, MAX_TRANSITIONS_PER_TICK);
    after := Ticked(k, t, RELEASED);
    if Work(after) < Work(k) {
      DueShortens(k, after, now, t, longest, step);
    } else if Work(k) > 0 {
      TickWaits(k, t, RELEASED);
      WaitingShortens(k, after, now, t, longest, step);
    }
  }

  lemma {:induction false} LastTail(now: int, times: seq<int>)
    requires times != []
    ensures Last(now, times) == Last(times[0], times[1..])
  {
  }

  lemma {:induction false} NothingLeft(k: KeyerState, now: int, longest: nat, step: nat)
    requires step > 0 && (Work(k) == 0 || TimeLeft(k, now, longest, step) <= 0)
    ensures Drained(k)
  {
    NoWorkIsDrained(k);
  }

  lemma {:induction false} DrainsWithin(k: KeyerState, now: int, longest: nat, step: nat, times: seq<int>)
    requires Underway(k, now, longest) && Missing(k.ring) == Some(0) && step > 0 && Ticking(now, times, step)
    requires Work(k) == 0 || TimeLeft(k, now, longest, step) <= Last(now, times) - now
    ensures Drained(TickedAll(k, times))
    decreases |times|
  {
    if times == [] {
      NothingLeft(k, now, longest, step);
    } else {
      var t := times[0];
      var after := TickShortens(k, now, t, longest, step);
      LastTail(now, times);
      DrainsWithin(after, t, longest, step, times[1..]);
    }
  }

  /**
   * Whatever the ticks, as long as they are at most step apart, a ring of whole items has drained once the
   * clock has advanced by the longest wait and a step for each piece of work.
   */
  lemma {:induction false} DrainsByTheClock(k: KeyerState, now: int, longest: nat, step: nat, times: seq<int>)
    requires Playing(k.d) && Missing(k.ring) == Some(0) && Near(k.d, now, longest)
    requires step > 0 && Ticking(now, times, step)
    requires Times(Work(k), longest + step) <= Last(now, times) - now
    ensures Drained(TickedAll(k, times))
  {
    DrainsWithin(k, now, longest, step, times);
  }
}
