/** Timing of Morse elements and spaces (src/keyer/morse.cpp), with the floats as reals. */
module Morse {
  const DOTS_IN_PARIS := 10.0
  const SILENT_DOTS_IN_PARIS := 9.0
  const DASHES_IN_PARIS := 4.0
  const CHAR_SPACES_IN_PARIS := 4.0
  const MS_IN_A_MINUTE := 60000.0

  datatype CodeStyle = CodeStyle(impulsesBetweenWords: nat, impulsesBetweenCharacters: nat, autospaceEnabled: bool,
                                 dahDitRatio: real, weighting: real, letterspacePercent: real,
                                 compensationMs: real, characterWpm: real, farnsworthWpm: real,
                                 speedLow: real, speedHigh: real, dahDitRatioLow: real, dahDitRatioHigh: real,
                                 letterspaceLow: real, letterspaceHigh: real)
  {
    function SpaceImpulses(): real {
      CHAR_SPACES_IN_PARIS * impulsesBetweenCharacters as real + impulsesBetweenWords as real
    }

    function KeyedImpulses(): real {
      DOTS_IN_PARIS + SILENT_DOTS_IN_PARIS + DASHES_IN_PARIS * dahDitRatio
    }
  }

  datatype CodeTimings = CodeTimings(ditMs: real, dahMs: real, charSpaceMs: real, wordSpaceMs: real,
                                     weightedDitMs: real, weightedDahMs: real, weightedElementSpaceMs: real)

  /** The style the daemon starts with. */
  const DEFAULT_STYLE := CodeStyle(6, 3, true, 3.0, 50.0, 0.0, 0.0, 24.0, 24.0, 20.0, 40.0, 3.0, 3.0, 0.0, 0.0)

  function Abs(x: real): real {
    if x < 0.0 then -x else x
  }

  /** Linear interpolation, clamped to the end values. */
  function Interpolated(speed: real, speedMin: real, speedMax: real, valueMin: real, valueMax: real): real {
    if Abs(speedMax - speedMin) <= 0.001 then valueMin
    else if speed <= speedMin then valueMin
    else if speed >= speedMax then valueMax
    else valueMin + (speed - speedMin) / (speedMax - speedMin) * (valueMax - valueMin)
  }

  /** The two style fields that follow the speed. */
  function Adjusted(style: CodeStyle): CodeStyle {
    style.(dahDitRatio := Interpolated(style.characterWpm, style.speedLow, style.speedHigh,
                                       style.dahDitRatioLow, style.dahDitRatioHigh),
           letterspacePercent := Interpolated(style.characterWpm, style.speedLow, style.speedHigh,
                                              style.letterspaceLow, style.letterspaceHigh))
  }

  /** A style whose timings are numbers: no division by zero. */
  predicate Timed(style: CodeStyle) {
    && style.characterWpm > 0.0 && style.farnsworthWpm > 0.0
    && style.SpaceImpulses() > 0.0
    && style.dahDitRatioLow > 0.0 && style.dahDitRatioHigh > 0.0
  }

  lemma {:induction false} InterpolatedBetween(speed: real, speedMin: real, speedMax: real, valueMin: real, valueMax: real)
    requires valueMin <= valueMax
    ensures valueMin <= Interpolated(speed, speedMin, speedMax, valueMin, valueMax) <= valueMax
  {
    if Abs(speedMax - speedMin) > 0.001 && speedMin < speed < speedMax {
      Fraction(speed - speedMin, speedMax - speedMin);
      Scaled((speed - speedMin) / (speedMax - speedMin), valueMax - valueMin);
    }
  }

  lemma {:induction false} Divided(n: real, d: real)
    requires d > 0.0
    ensures n / d * d == n
  {
  }

  lemma {:induction false} Fraction(p: real, range: real)
    requires 0.0 <= p <= range && range > 0.0
    ensures 0.0 <= p / range <= 1.0
  {
    var x := p / range;
    Divided(p, range);
    assert x < 0.0 ==> x * range < 0.0;
    assert x > 1.0 ==> (x - 1.0) * range > 0.0;
  }

  lemma {:induction false} Scaled(alpha: real, value: real)
    requires 0.0 <= alpha <= 1.0 && value >= 0.0
    ensures 0.0 <= alpha * value <= value
  {
    assert 0.0 <= (1.0 - alpha) * value;
  }

  lemma {:induction false} QuotientMonotone(p: real, q: real, range: real)
    requires p <= q && range > 0.0
    ensures p / range <= q / range
  {
    var x, y := p / range, q / range;
    Divided(p, range);
    Divided(q, range);
    assert x > y ==> (x - y) * range > 0.0;
  }

  lemma {:induction false} InterpolatedMonotone(a: real, b: real, speedMin: real, speedMax: real, valueMin: real,
                                                valueMax: real)
    requires valueMin <= valueMax && a <= b
    ensures Interpolated(a, speedMin, speedMax, valueMin, valueMax)
         <= Interpolated(b, speedMin, speedMax, valueMin, valueMax)
  {
    InterpolatedBetween(a, speedMin, speedMax, valueMin, valueMax);
    InterpolatedBetween(b, speedMin, speedMax, valueMin, valueMax);
    if Abs(speedMax - speedMin) > 0.001 && speedMin < a && b < speedMax {
      var range := speedMax - speedMin;
      var x := (a - speedMin) / range;
      var y := (b - speedMin) / range;
      QuotientMonotone(a - speedMin, b - speedMin, range);
      assert x * (valueMax - valueMin) <= y * (valueMax - valueMin);
    }
  }

  lemma {:induction false} AdjustedTimed(style: CodeStyle)
    requires Timed(style)
    ensures Adjusted(style).dahDitRatio > 0.0
    ensures Adjusted(style).KeyedImpulses() > 0.0 && Adjusted(style).SpaceImpulses() > 0.0
    ensures style.characterWpm * (Adjusted(style).KeyedImpulses() + Adjusted(style).SpaceImpulses()) > 0.0
    ensures Adjusted(style).SpaceImpulses() * style.farnsworthWpm > 0.0
  {
    var low, high := style.dahDitRatioLow, style.dahDitRatioHigh;
    if low <= high {
      InterpolatedBetween(style.characterWpm, style.speedLow, style.speedHigh, low, high);
    } else {
      InterpolatedDown(style.characterWpm, style.speedLow, style.speedHigh, low, high);
    }
  }

  lemma {:induction false} InterpolatedDown(speed: real, speedMin: real, speedMax: real, valueMin: real, valueMax: real)
    requires valueMin >= valueMax
    ensures valueMin >= Interpolated(speed, speedMin, speedMax, valueMin, valueMax) >= valueMax
  {
    InterpolatedBetween(speed, speedMin, speedMax, -valueMin, -valueMax);
    if Abs(speedMax - speedMin) > 0.001 && speedMin < speed < speedMax {
      var alpha := (speed - speedMin) / (speedMax - speedMin);
      assert alpha * (-valueMax - -valueMin) == -(alpha * (valueMax - valueMin));
    }
  }

  function DitMs(s: CodeStyle): real
    requires s.characterWpm * (s.KeyedImpulses() + s.SpaceImpulses()) > 0.0
  {
    60.0 / (s.characterWpm * (s.KeyedImpulses() + s.SpaceImpulses())) * 1000.0
  }

  function PauseImpulseMs(s: CodeStyle, ditMs: real): real
    requires s.SpaceImpulses() * s.farnsworthWpm > 0.0
  {
    (MS_IN_A_MINUTE - s.KeyedImpulses() * s.farnsworthWpm * ditMs) / (s.SpaceImpulses() * s.farnsworthWpm)
  }

  function Unweighted(s: CodeStyle): CodeTimings
    requires s.characterWpm * (s.KeyedImpulses() + s.SpaceImpulses()) > 0.0
    requires s.SpaceImpulses() * s.farnsworthWpm > 0.0
  {
    var dit := DitMs(s);
    var pause := PauseImpulseMs(s, dit);
    CodeTimings(dit, dit * s.dahDitRatio, s.impulsesBetweenCharacters as real * pause,
                s.impulsesBetweenWords as real * pause, 0.0, 0.0, 0.0)
  }

  function Weight(ms: real, weighting: real): real {
    ms * (weighting / 50.0)
  }

  function GapMs(ditMs: real, weighting: real): real {
    ditMs * (100.0 - weighting) / 50.0
  }

  function LetterspaceMs(ditMs: real, percent: real): real {
    (3.0 * ditMs) * percent / 100.0
  }

  function Weighted(s: CodeStyle, t: CodeTimings): CodeTimings {
    var dit := Weight(t.ditMs, s.weighting) + s.compensationMs;
    t.(weightedDitMs := dit,
       weightedDahMs := Weight(t.dahMs, s.weighting) + s.compensationMs,
       weightedElementSpaceMs := GapMs(t.ditMs, s.weighting) - s.compensationMs
                                 + LetterspaceMs(dit, s.letterspacePercent))
  }

  function Timings(style: CodeStyle): CodeTimings
    requires Timed(style)
  {
    AdjustedTimed(style);
    Weighted(Adjusted(style), Unweighted(Adjusted(style)))
  }

  /** The speed-dependent half of calculate_timings. */
  method CalculateSpeeds(s: CodeStyle) returns (speed: CodeTimings)
    requires s.characterWpm * (s.KeyedImpulses() + s.SpaceImpulses()) > 0.0
    requires s.SpaceImpulses() * s.farnsworthWpm > 0.0
    ensures speed == Unweighted(s)
  {
    var impulsesPerMinute := s.characterWpm * (s.KeyedImpulses() + s.SpaceImpulses());
    var dit := 60.0 / impulsesPerMinute * 1000.0;
    speed := CodeTimings(dit, dit * s.dahDitRatio, dit * s.impulsesBetweenCharacters as real,
                         dit * s.impulsesBetweenWords as real, 0.0, 0.0, 0.0);
    var pause := CalculatePause(s, dit);
    speed := speed.(charSpaceMs := s.impulsesBetweenCharacters as real * pause,
                    wordSpaceMs := s.impulsesBetweenWords as real * pause);
  }

  /** The part of a minute that is not keyed, spread over its space impulses. */
  method CalculatePause(s: CodeStyle, dit: real) returns (pause: real)
    requires s.SpaceImpulses() * s.farnsworthWpm > 0.0
    ensures pause == PauseImpulseMs(s, dit)
  {
    var onMs := s.KeyedImpulses() * s.farnsworthWpm * dit;
    var offMs := MS_IN_A_MINUTE - onMs;
    pause := offMs / (s.SpaceImpulses() * s.farnsworthWpm);
  }

  /** calculate_timings, in the order of the source. */
  method CalculateTimings(style: CodeStyle) returns (adjusted: CodeStyle, speed: CodeTimings)
    requires Timed(style)
    ensures adjusted == Adjusted(style)
    ensures speed == Timings(style)
  {
    AdjustedTimed(style);
    adjusted := style.(dahDitRatio := Interpolated(style.characterWpm, style.speedLow, style.speedHigh,
                                                   style.dahDitRatioLow, style.dahDitRatioHigh));
    adjusted := adjusted.(letterspacePercent := Interpolated(style.characterWpm, style.speedLow, style.speedHigh,
                                                             style.letterspaceLow, style.letterspaceHigh));
    speed := CalculateSpeeds(adjusted);
    speed := speed.(weightedDitMs := Weight(speed.ditMs, adjusted.weighting),
                    weightedDahMs := Weight(speed.dahMs, adjusted.weighting),
                    weightedElementSpaceMs := GapMs(speed.ditMs, adjusted.weighting));
    speed := speed.(weightedDitMs := speed.weightedDitMs + adjusted.compensationMs,
                    weightedDahMs := speed.weightedDahMs + adjusted.compensationMs,
                    weightedElementSpaceMs := speed.weightedElementSpaceMs - adjusted.compensationMs);
    speed := speed.(weightedElementSpaceMs := speed.weightedElementSpaceMs
                      + LetterspaceMs(speed.weightedDitMs, adjusted.letterspacePercent));
  }

  /** keyed at the dit, spaces at the pause that is left for them: together a minute. */
  lemma {:induction false} FillsMinute(keyed: real, f: real, dit: real, chars: real, words: real, pause: real)
    requires pause * ((CHAR_SPACES_IN_PARIS * chars + words) * f) == MS_IN_A_MINUTE - keyed * f * dit
    ensures f * (keyed * dit + CHAR_SPACES_IN_PARIS * (chars * pause) + words * pause) == MS_IN_A_MINUTE
  {
  }

  /** f times PARIS, with these lengths of a dit and of the spaces, takes a minute at f words per minute overall. */
  ghost predicate FillTheMinute(s: CodeStyle, ditMs: real, charSpaceMs: real, wordSpaceMs: real) {
    s.farnsworthWpm * (s.KeyedImpulses() * ditMs + CHAR_SPACES_IN_PARIS * charSpaceMs + wordSpaceMs) == MS_IN_A_MINUTE
  }

  lemma {:induction false} UnweightedFillsTheMinute(s: CodeStyle)
    requires s.characterWpm * (s.KeyedImpulses() + s.SpaceImpulses()) > 0.0
    requires s.SpaceImpulses() * s.farnsworthWpm > 0.0
    ensures var t := Unweighted(s);
      FillTheMinute(s, t.ditMs, t.charSpaceMs, t.wordSpaceMs)
  {
    var t, keyed, f := Unweighted(s), s.KeyedImpulses(), s.farnsworthWpm;
    var chars, words := s.impulsesBetweenCharacters as real, s.impulsesBetweenWords as real;
    var pause := PauseImpulseMs(s, t.ditMs);
    Divided(MS_IN_A_MINUTE - keyed * f * t.ditMs, s.SpaceImpulses() * f);
    FillsMinute(keyed, f, t.ditMs, chars, words, pause);
  }

  /** PARIS fills the minute: its keyed impulses at the character speed, its spaces stretched. */
  lemma {:induction false} ParisFillsTheMinute(style: CodeStyle)
    requires Timed(style)
    ensures var t := Timings(style);
      FillTheMinute(Adjusted(style), t.ditMs, t.charSpaceMs, t.wordSpaceMs)
  {
    AdjustedTimed(style);
    UnweightedFillsTheMinute(Adjusted(style));
  }

  /** An element and its gap take two dits exactly if the element is not letterspaced. */
  ghost predicate TwoDitsUnlessSpaced(dit: real, element: real, gap: real, percent: real) {
    element + gap == 2.0 * dit <==> element * percent == 0.0
  }

  lemma {:induction false} BeatKept(dit: real, weighting: real, compensation: real, percent: real)
    ensures var weighted := Weight(dit, weighting) + compensation;
      var gap := GapMs(dit, weighting) - compensation + LetterspaceMs(weighted, percent);
      TwoDitsUnlessSpaced(dit, weighted, gap, percent)
  {
    var weighted := Weight(dit, weighting) + compensation;
    assert Weight(dit, weighting) + GapMs(dit, weighting) == 2.0 * dit by {
      assert dit * (weighting / 50.0) + dit * (100.0 - weighting) / 50.0 == dit * (100.0 / 50.0);
    }
    assert LetterspaceMs(weighted, percent) == 3.0 * (weighted * percent) / 100.0;
  }

  /** Weighting and compensation move time between an element and its gap: together they take two
      dits, unless extra letterspace is added. */
  lemma {:induction false} WeightingKeepsTheBeat(style: CodeStyle)
    requires Timed(style)
    ensures var t := Timings(style);
      TwoDitsUnlessSpaced(t.ditMs, t.weightedDitMs, t.weightedElementSpaceMs, Adjusted(style).letterspacePercent)
  {
    AdjustedTimed(style);
    var s := Adjusted(style);
    BeatKept(Timings(style).ditMs, s.weighting, s.compensationMs, s.letterspacePercent);
  }

  lemma {:induction false} EqualSpeedsPause(keyed: real, sp: real, f: real, dit: real)
    requires f * (keyed + sp) > 0.0 && sp * f > 0.0
    requires dit == 60.0 / (f * (keyed + sp)) * 1000.0
    ensures (MS_IN_A_MINUTE - keyed * f * dit) / (sp * f) == dit && dit > 0.0
  {
    var whole, spaces := f * (keyed + sp), sp * f;
    Divided(60.0, whole);
    assert whole * dit == MS_IN_A_MINUTE;
    assert whole * dit == keyed * f * dit + spaces * dit;
    Divided(MS_IN_A_MINUTE - keyed * f * dit, spaces);
  }

  /** The spaces are whole numbers of dits, by default 3 and 6. */
  ghost predicate DitSpaces(s: CodeStyle, ditMs: real, charSpaceMs: real, wordSpaceMs: real) {
    ditMs > 0.0 && charSpaceMs == s.impulsesBetweenCharacters as real * ditMs
    && wordSpaceMs == s.impulsesBetweenWords as real * ditMs
  }

  lemma {:induction false} UnweightedDitSpaces(s: CodeStyle)
    requires s.characterWpm * (s.KeyedImpulses() + s.SpaceImpulses()) > 0.0
    requires s.SpaceImpulses() * s.farnsworthWpm > 0.0 && s.farnsworthWpm == s.characterWpm
    ensures var t := Unweighted(s);
      DitSpaces(s, t.ditMs, t.charSpaceMs, t.wordSpaceMs)
  {
    EqualSpeedsPause(s.KeyedImpulses(), s.SpaceImpulses(), s.farnsworthWpm, DitMs(s));
  }

  /** When the two speeds agree a pause impulse is one dit. */
  lemma {:induction false} EqualSpeedsGiveDitSpaces(style: CodeStyle)
    requires Timed(style) && style.farnsworthWpm == style.characterWpm
    ensures var t := Timings(style);
      DitSpaces(Adjusted(style), t.ditMs, t.charSpaceMs, t.wordSpaceMs)
  {
    AdjustedTimed(style);
    UnweightedDitSpaces(Adjusted(style));
  }

  // ---- lengths ----

  lemma {:induction false} DitShare(dit: real, perMinute: real)
    requires perMinute > 0.0 && dit == 60.0 / perMinute * 1000.0
    ensures dit * perMinute == 60000.0
  {
    Divided(60.0, perMinute);
  }

  /** At wpm words per minute a dit takes its share of the minute: PARIS has 10 dots, 9 gaps inside its characters,
      4 dahs of some dits each, 4 character spaces and a word space. */
  ghost predicate TakesItsShare(dit: real, wpm: real, ratio: real, chars: real, words: real) {
    dit * (wpm * ((19.0 + 4.0 * ratio) + (4.0 * chars + words))) == 60000.0
  }

  lemma {:induction false} UnweightedShare(s: CodeStyle)
    requires s.characterWpm * (s.KeyedImpulses() + s.SpaceImpulses()) > 0.0
    ensures TakesItsShare(DitMs(s), s.characterWpm, s.dahDitRatio, s.impulsesBetweenCharacters as real,
                          s.impulsesBetweenWords as real)
  {
    assert s.KeyedImpulses() == 19.0 + 4.0 * s.dahDitRatio;
    DitShare(DitMs(s), s.characterWpm * (s.KeyedImpulses() + s.SpaceImpulses()));
  }

  lemma {:induction false} DitTakesItsShare(style: CodeStyle)
    requires Timed(style)
    ensures var s := Adjusted(style);
      TakesItsShare(Timings(style).ditMs, s.characterWpm, s.dahDitRatio, s.impulsesBetweenCharacters as real,
                    s.impulsesBetweenWords as real)
  {
    AdjustedTimed(style);
    UnweightedShare(Adjusted(style));
  }

  lemma {:induction false} WeightedDah(dit: real, ratio: real, weighting: real)
    ensures Weight(dit * ratio, weighting) == ratio * Weight(dit, weighting)
  {
    var f := weighting / 50.0;
    assert dit * ratio * f == ratio * (dit * f);
  }

  /** A dah is to a dit as the ratio says, before and after weighting; the compensation is added to both alike. */
  ghost predicate FollowsRatio(s: CodeStyle, t: CodeTimings) {
    && t.dahMs == s.dahDitRatio * t.ditMs
    && t.weightedDitMs == t.ditMs * (s.weighting / 50.0) + s.compensationMs
    && t.weightedDahMs - s.compensationMs == s.dahDitRatio * (t.weightedDitMs - s.compensationMs)
  }

  lemma {:induction false} RatioKept(s: CodeStyle, t: CodeTimings)
    requires t.dahMs == t.ditMs * s.dahDitRatio
    ensures FollowsRatio(s, Weighted(s, t))
  {
    WeightedDah(t.ditMs, s.dahDitRatio, s.weighting);
  }

  lemma {:induction false} DahsFollowTheRatio(style: CodeStyle)
    requires Timed(style)
    ensures FollowsRatio(Adjusted(style), Timings(style))
  {
    AdjustedTimed(style);
    RatioKept(Adjusted(style), Unweighted(Adjusted(style)));
  }

  lemma {:induction false} GapLeft(dit: real, weighting: real, compensation: real, percent: real)
    ensures var weighted := Weight(dit, weighting) + compensation;
      weighted + (GapMs(dit, weighting) - compensation + LetterspaceMs(weighted, percent))
      == 2.0 * dit + 3.0 * weighted * percent / 100.0
  {
    assert dit * (weighting / 50.0) + dit * (100.0 - weighting) / 50.0 == dit * (100.0 / 50.0);
  }

  /** An element and its gap take two dits and the extra letterspace, a percentage of three weighted dits. */
  lemma {:induction false} GapTakesTheRest(style: CodeStyle)
    requires Timed(style)
    ensures var s, t := Adjusted(style), Timings(style);
      t.weightedDitMs + t.weightedElementSpaceMs
      == 2.0 * t.ditMs + 3.0 * t.weightedDitMs * s.letterspacePercent / 100.0
  {
    AdjustedTimed(style);
    var s := Adjusted(style);
    GapLeft(DitMs(s), s.weighting, s.compensationMs, s.letterspacePercent);
  }

  lemma {:induction false} OnTheLine(p: real, range: real, value: real)
    requires range != 0.0
    ensures p / range * value * range == p * value
  {
    var x := p / range;
    assert x * range == p;
    assert x * value * range == x * range * value;
  }

  /** The interpolation is the first value up to the first speed, the second from the second on, and the line through
      both in between. */
  lemma {:induction false} InterpolatedExactly(speed: real, speedMin: real, speedMax: real, valueMin: real, valueMax: real)
    requires speedMin + 0.001 < speedMax
    ensures var v := Interpolated(speed, speedMin, speedMax, valueMin, valueMax);
      && (speed <= speedMin ==> v == valueMin)
      && (speed >= speedMax ==> v == valueMax)
      && (speedMin <= speed <= speedMax ==>
            (v - valueMin) * (speedMax - speedMin) == (speed - speedMin) * (valueMax - valueMin))
  {
    if speedMin < speed < speedMax {
      OnTheLine(speed - speedMin, speedMax - speedMin, valueMax - valueMin);
    }
  }

  /** Ratio and letterspace follow the speed between their own two values. */
  lemma {:induction false} AdjustedEnds(style: CodeStyle)
    requires style.speedLow + 0.001 < style.speedHigh
    ensures style.characterWpm <= style.speedLow ==>
      Adjusted(style) == style.(dahDitRatio := style.dahDitRatioLow, letterspacePercent := style.letterspaceLow)
    ensures style.characterWpm >= style.speedHigh ==>
      Adjusted(style) == style.(dahDitRatio := style.dahDitRatioHigh, letterspacePercent := style.letterspaceHigh)
  {
  }

  /** The usual proportions, at one speed, without weighting, compensation and letterspace. */
  predicate Usual(s: CodeStyle) {
    && s.impulsesBetweenWords == 6 && s.impulsesBetweenCharacters == 3 && s.dahDitRatio == 3.0
    && s.weighting == 50.0 && s.letterspacePercent == 0.0 && s.compensationMs == 0.0
    && s.characterWpm == s.farnsworthWpm
  }

  /** The style the daemon starts with has them, at 24 words per minute. */
  lemma {:induction false} DefaultIsUsual()
    ensures Timed(DEFAULT_STYLE) && Adjusted(DEFAULT_STYLE) == DEFAULT_STYLE && Usual(DEFAULT_STYLE)
    ensures DEFAULT_STYLE.characterWpm == 24.0
  {
    InterpolatedBetween(24.0, 20.0, 40.0, 3.0, 3.0);
    InterpolatedBetween(24.0, 20.0, 40.0, 0.0, 0.0);
  }

  lemma {:induction false} NothingAdded(dit: real, weighted: real, dah: real, gap: real, f: real, extra: real)
    requires f == 1.0 && extra == 0.0
    requires weighted == dit * f + 0.0 && dah - 0.0 == 3.0 * (weighted - 0.0)
    requires weighted + gap == 2.0 * dit + extra
    ensures weighted == gap == dit && dah == 3.0 * dit
  {
  }

  /** Then PARIS has 49 dits. */
  lemma {:induction false} UsualDit(style: CodeStyle)
    requires Timed(style) && Usual(Adjusted(style))
    ensures Timings(style).ditMs * (Adjusted(style).characterWpm * 49.0) == 60000.0
  {
    DitTakesItsShare(style);
    var s := Adjusted(style);
    assert (19.0 + 4.0 * s.dahDitRatio) + (4.0 * s.impulsesBetweenCharacters as real + s.impulsesBetweenWords as real) == 49.0;
  }

  /** Dahs are three dits, spaces three and six, gaps one. */
  lemma {:induction false} UsualLengths(style: CodeStyle)
    requires Timed(style) && Usual(Adjusted(style))
    ensures var t := Timings(style);
      && t.dahMs == 3.0 * t.ditMs && t.charSpaceMs == 3.0 * t.ditMs && t.wordSpaceMs == 6.0 * t.ditMs
      && t.weightedDitMs == t.weightedElementSpaceMs == t.ditMs && t.weightedDahMs == 3.0 * t.ditMs
  {
    var s, t := Adjusted(style), Timings(style);
    EqualSpeedsGiveDitSpaces(style);
    DahsFollowTheRatio(style);
    GapTakesTheRest(style);
    NothingAdded(t.ditMs, t.weightedDitMs, t.weightedDahMs, t.weightedElementSpaceMs, s.weighting / 50.0,
                 3.0 * t.weightedDitMs * s.letterspacePercent / 100.0);
  }
}
