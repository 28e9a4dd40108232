/** The lengths the player keys with, in milliseconds. */
module KeyerLengths {
  import opened CharPatterns
  import opened WinKeyer
  import opened Keyer
  import Morse

  lemma {:induction false} Less(a: real, b: real, d: real)
    requires d > 0.0 && a < b
    ensures a * d < b * d
  {
    assert 0.0 < (b - a) * d;
  }

  lemma {:induction false} NotMore(a: real, b: real, d: real)
    requires d > 0.0 && a <= b
    ensures a * d <= b * d
  {
    assert 0.0 <= (b - a) * d;
  }

  lemma {:induction false} Between(x: real, q: real, n: real, next: real, d: real)
    requires d > 0.0 && q * d == x && n <= q < next
    ensures n * d <= x < next * d
  {
    NotMore(n, q, d);
    Less(q, next, d);
  }

  lemma {:induction false} WholePart(x: real, d: real)
    requires d > 0.0
    ensures var n := (x / d).Floor as real;
      n * d <= x < (n + 1.0) * d
  {
    Morse.Divided(x, d);
    var n := (x / d).Floor as real;
    Between(x, x / d, n, n + 1.0, d);
  }

  /** Where x ms are divided by the speed, n is the whole part, and next comes after it. */
  predicate CutTo(n: real, next: real, x: real, wpm: real) {
    n * wpm <= x && x < next * wpm
  }

  /** A whole number of ms. */
  predicate IsCut(n: int, x: real, wpm: real) {
    CutTo(n as real, n as real + 1.0, x, wpm)
  }

  /** A dit of the player is 1200 ms divided by the speed, and a dah as many times that as the ratio says, both cut to
      whole milliseconds. */
  lemma {:induction false} ElementsTakeTheirTime(pace: Pace)
    requires pace.speedWpm > 0
    ensures IsCut(ElementLength(true, pace, Dit), 1200.0, pace.speedWpm as real)
    ensures IsCut(ElementLength(true, pace, Dah), 1200.0 * pace.style.dahDitRatio, pace.speedWpm as real)
  {
    WholePart(1200.0, pace.speedWpm as real);
    WholePart(1200.0 * pace.style.dahDitRatio, pace.speedWpm as real);
  }

  /** With the usual ratio a dah is three dits, and at most two milliseconds more. */
  lemma {:induction false} DahIsThreeDits(pace: Pace)
    requires pace.speedWpm > 0 && pace.style.dahDitRatio == 3.0
    ensures var dit, dah := ElementLength(true, pace, Dit), ElementLength(true, pace, Dah);
      3 * dit <= dah <= 3 * dit + 2
  {
    ElementsTakeTheirTime(pace);
    var dit, dah := ElementLength(true, pace, Dit) as real, ElementLength(true, pace, Dah) as real;
    ThreeTimes(dit, dit + 1.0, dah, dah + 1.0, pace.speedWpm as real);
  }

  /** Of two products with the same positive factor, the larger has the larger other factor. */
  lemma {:induction false} Larger(a: real, b: real, d: real, ad: real, bd: real)
    requires d > 0.0 && ad == a * d && bd == b * d && ad < bd
    ensures a < b
  {
    if b <= a {
      NotMore(b, a, d);
    }
  }

  lemma {:induction false} Thrice(x: real, d: real, xd: real)
    requires xd == x * d
    ensures 3.0 * xd == (3.0 * x) * d
  {
  }

  lemma {:induction false} ThreeTimes(dit: real, ditNext: real, dah: real, dahNext: real, wpm: real)
    requires wpm > 0.0
    requires CutTo(dit, ditNext, 1200.0, wpm) && CutTo(dah, dahNext, 3600.0, wpm)
    ensures 3.0 * dit < dahNext && dah < 3.0 * ditNext
  {
    var a, b, c, d := dit * wpm, ditNext * wpm, dah * wpm, dahNext * wpm;
    Thrice(dit, wpm, a);
    Thrice(ditNext, wpm, b);
    Larger(3.0 * dit, dahNext, wpm, 3.0 * a, d);
    Larger(dah, 3.0 * ditNext, wpm, c, 3.0 * b);
  }

  /** At the weighting of 50 elements are keyed as long as they are, and the gap is a dit. */
  lemma {:induction false} NeutralWeighting(pace: Pace, e: Element)
    requires pace.style.weighting == 50.0
    ensures WeightedLength(true, pace, e) == ElementLength(true, pace, e)
    ensures ElementSpaceLength(true, pace) == ElementLength(true, pace, Dit)
  {
  }

  lemma {:induction false} MoreOf(x: real, a: real, b: real)
    requires 0.0 <= x && a <= b
    ensures x * a <= x * b
  {
    assert 0.0 <= x * (b - a);
  }

  /** A length of so many ms, weighted. */
  function Weighed(length: int, weighting: real): int {
    (length as real * weighting / 50.0).Floor
  }

  lemma {:induction false} LongerElement(length: int, v: real, w: real)
    requires 0 <= length && v <= w
    ensures Weighed(length, v) <= Weighed(length, w)
  {
    MoreOf(length as real, v, w);
    var x, y := length as real * v, length as real * w;
    assert x / 50.0 <= y / 50.0;
  }

  /** What is left of two such lengths. */
  function Left(length: int, weighting: real): int {
    (length as real * ((100.0 - weighting) / 50.0)).Floor
  }

  lemma {:induction false} ShorterGap(length: int, v: real, w: real)
    requires 0 <= length && v <= w
    ensures Left(length, v) >= Left(length, w)
  {
    MoreOf(length as real, (100.0 - w) / 50.0, (100.0 - v) / 50.0);
  }

  /** The weighting comes in as a factor of both. */
  lemma {:induction false} WeightingFactors(pace: Pace, e: Element)
    ensures WeightedLength(true, pace, e) == Weighed(ElementLength(true, pace, e), pace.style.weighting)
    ensures ElementSpaceLength(true, pace) == Left(ElementLength(true, pace, Dit), pace.style.weighting)
  {
  }

  lemma {:induction false} SameLengths(pace: Pace, e: Element, w: real)
    ensures ElementLength(true, pace.(style := pace.style.(weighting := w)), e) == ElementLength(true, pace, e)
  {
  }

  /** More weighting gives longer elements. */
  lemma {:induction false} WeightingLengthens(pace: Pace, e: Element, v: real, w: real)
    requires ElementLength(true, pace, e) >= 0 && v <= w
    ensures WeightedLength(true, pace.(style := pace.style.(weighting := v)), e)
         <= WeightedLength(true, pace.(style := pace.style.(weighting := w)), e)
  {
    WeightingFactors(pace.(style := pace.style.(weighting := v)), e);
    WeightingFactors(pace.(style := pace.style.(weighting := w)), e);
    SameLengths(pace, e, v);
    SameLengths(pace, e, w);
    LongerElement(ElementLength(true, pace, e), v, w);
  }

  /** And shorter gaps. */
  lemma {:induction false} WeightingShortensGaps(pace: Pace, v: real, w: real)
    requires ElementLength(true, pace, Dit) >= 0 && v <= w
    ensures ElementSpaceLength(true, pace.(style := pace.style.(weighting := v)))
         >= ElementSpaceLength(true, pace.(style := pace.style.(weighting := w)))
  {
    WeightingFactors(pace.(style := pace.style.(weighting := v)), Dit);
    WeightingFactors(pace.(style := pace.style.(weighting := w)), Dit);
    SameLengths(pace, Dit, v);
    SameLengths(pace, Dit, w);
    ShorterGap(ElementLength(true, pace, Dit), v, w);
  }

  /** Two half-dot gaps are a keyed dit, or a millisecond less. */
  lemma {:induction false} HalfGapIsHalf(d: Data, now: int)
    requires d.state != HalfDotGap
    ensures var entered := SwitchedTo(d, HalfDotGap, now);
      && entered.state == HalfDotGap && entered.marks == d.marks + [HalfGap]
      && 2 * (entered.exitAt - now) <= WeightedLength(d.enabled, d.pace, Dit) <= 2 * (entered.exitAt - now) + 1
  {
  }

  /** A word space is so many dits as the style says between words, and the style the daemon starts with says six. */
  lemma {:induction false} WordSpaceIsDits(pace: Pace)
    ensures WordSpaceLength(true, pace) == pace.style.impulsesBetweenWords * ElementLength(true, pace, Dit)
    ensures pace.style == Morse.DEFAULT_STYLE ==> WordSpaceLength(true, pace) == 6 * ElementLength(true, pace, Dit)
  {
  }

  /** The keyer starts at the speed of the style the daemon starts with, 24 words per minute, and a dit of 50 ms. */
  lemma {:induction false} StartsAt24(timings: Morse.CodeTimings)
    ensures var pace := InitialState(Morse.DEFAULT_STYLE, timings).d.pace;
      pace.speedWpm == 24 && pace.style.characterWpm == 24.0 && ElementLength(true, pace, Dit) == 50
      && ElementLength(true, pace, Dah) == 150
  {
  }

  /** With the player off, for the paddles: in the usual proportions a dit and a gap are one dit of the timings, a dah
      three and a word space six, each cut to whole milliseconds. */
  lemma {:induction false} PaddlesKeyTheTimings(pace: Pace, style: Morse.CodeStyle)
    requires Morse.Timed(style) && Morse.Usual(Morse.Adjusted(style)) && pace.timings == Morse.Timings(style)
    ensures var dit := Morse.Timings(style).ditMs;
      && WeightedLength(false, pace, Dit) == dit.Floor && ElementSpaceLength(false, pace) == dit.Floor
      && WeightedLength(false, pace, Dah) == (3.0 * dit).Floor && WordSpaceLength(false, pace) == (6.0 * dit).Floor
  {
    Morse.UsualLengths(style);
  }

  lemma {:induction false} TwoCuts(x: real, y: real, z: real, percent: real)
    requires x + y == 2.0 * z + 3.0 * x * percent / 100.0 && percent == 0.0
    ensures 2.0 * z - 2.0 < (x.Floor + y.Floor) as real <= 2.0 * z
  {
    assert 3.0 * x * percent == 0.0;
  }

  /** Whatever the weighting and the compensation, a dit and its gap take two dits, without letterspace and up to what the
      two cuts to whole milliseconds leave. */
  lemma {:induction false} PaddlesKeepTheBeat(pace: Pace, style: Morse.CodeStyle)
    requires Morse.Timed(style) && Morse.Adjusted(style).letterspacePercent == 0.0 && pace.timings == Morse.Timings(style)
    ensures var dit := Morse.Timings(style).ditMs;
      2.0 * dit - 2.0 < (WeightedLength(false, pace, Dit) + ElementSpaceLength(false, pace)) as real <= 2.0 * dit
  {
    var t := Morse.Timings(style);
    Morse.GapTakesTheRest(style);
    TwoCuts(t.weightedDitMs, t.weightedElementSpaceMs, t.ditMs, Morse.Adjusted(style).letterspacePercent);
  }
}
