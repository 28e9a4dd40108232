/** The compiler from cwdaemon messages to WinKeyer bytes (src/cw_daemon.cpp). */
module CwDaemon {
  import opened FixedWidth
  import opened Wrappers
  import opened Sequences
  import opened CharPatterns
  import opened WinKeyer

  const MINUS: uint8 := '-' as int
  const PLUS: uint8 := '+' as int
  const TILDE: uint8 := '~' as int
  const SPACE: uint8 := ' ' as int
  const ESCAPE: uint8 := 27
  const FOUR_GAPS: seq<uint8> := [HALF_GAP, HALF_GAP, HALF_GAP, HALF_GAP]

  /** A datagram as udp_server hands it over: not empty, with a zero at the end. */
  predicate Message(input: seq<uint8>) {
    input != [] && input[|input| - 1] == 0
  }

  /** *ptr > 0 for a signed char */
  predicate IsText(c: uint8) {
    0 < c < 128
  }

  /** std::toupper in the C locale. */
  function Upper(c: uint8): uint8 {
    if 'a' as int <= c <= 'z' as int then c - 32 else c
  }

  /** The conversion to unsigned char. */
  function Wrapped(x: int): uint8 {
    x % 256
  }

  function Slower(speed: uint8, steps: nat): uint8 {
    Wrapped(speed as int - 2 * steps)
  }

  function Faster(speed: uint8, steps: nat): uint8 {
    Wrapped(speed as int + 2 * steps)
  }

  lemma {:induction false} WrappedShift(x: int, d: int)
    ensures Wrapped(Wrapped(x) as int + d) == Wrapped(x + d)
  {
    var q := x / 256;
    var y := Wrapped(x) as int + d;
    assert x + d == 256 * (y / 256 + q) + y % 256;
  }

  /** The characters up to the first that is not text. */
  function TextOf(input: seq<uint8>): (t: seq<uint8>)
    ensures t <= input
    ensures |t| < |input| ==> !IsText(input[|t|])
    ensures forall i :: 0 <= i < |t| ==> IsText(t[i])
  {
    if input == [] || !IsText(input[0]) then [] else [input[0]] + TextOf(input[1..])
  }

  /** How many times c is repeated at the front. */
  function RunLength(t: seq<uint8>, c: uint8): (n: nat)
    ensures n <= |t|
    ensures t != [] && t[0] == c ==> n > 0
  {
    if t != [] && t[0] == c then 1 + RunLength(t[1..], c) else 0
  }

  // ---- compiling text ----

  datatype Compiled = Compiled(out: seq<uint8>, speed: uint8)

  function CompileText(t: seq<uint8>, speed: uint8, gap: bool): Compiled
    decreases |t|
  {
    if t == [] then Compiled([], speed)
    else if t[0] == MINUS then
      var n := RunLength(t, MINUS);
      var rest := CompileText(t[n..], Slower(speed, n), gap);
      Compiled([BUFFERED_SPEED, Slower(speed, n)] + rest.out, rest.speed)
    else if t[0] == PLUS then
      var n := RunLength(t, PLUS);
      var rest := CompileText(t[n..], Faster(speed, n), gap);
      Compiled([BUFFERED_SPEED, Faster(speed, n)] + rest.out, rest.speed)
    else if t[0] == TILDE then CompileText(t[1..], speed, true)
    else if t[0] >= SPACE then
      var rest := CompileText(t[1..], speed, false);
      Compiled([Upper(t[0])] + (if gap then FOUR_GAPS else []) + rest.out, rest.speed)
    else CompileText(t[1..], speed, gap)
  }

  // ---- escape commands ----

  predicate IsDigit(c: uint8) {
    '0' as int <= c <= '9' as int
  }

  predicate IsBlank(c: uint8) {
    c == SPACE || 9 <= c <= 13
  }

  function SkipBlanks(s: seq<uint8>): seq<uint8> {
    if s != [] && IsBlank(s[0]) then SkipBlanks(s[1..]) else s
  }

  function Digits(s: seq<uint8>, value: nat): nat {
    if s != [] && IsDigit(s[0]) then Digits(s[1..], 10 * value + (s[0] - '0' as int)) else value
  }

  /** std::stoi on the zero-terminated rest of a message; None where it throws. */
  function ParseInt(s: seq<uint8>): Option<int> {
    var t := SkipBlanks(s);
    var negative := t != [] && t[0] == MINUS;
    var u := if t != [] && (t[0] == MINUS || t[0] == PLUS) then t[1..] else t;
    if u == [] || !IsDigit(u[0]) then None
    else
      var value: int := if negative then -(Digits(u, 0) as int) else Digits(u, 0);
      if -0x8000_0000 <= value <= 0x7FFF_FFFF then Some(value) else None
  }

  function Clamped(weight: uint8): uint8 {
    if weight < 10 then 10 else if weight > 90 then 90 else weight
  }

  /** The bytes for an escape command; None where its number is malformed. */
  function CompileEscape(input: seq<uint8>, speed: uint8): Option<seq<uint8>>
    requires |input| >= 2
  {
    var command := input[1] as char;
    var number := ParseInt(input[2..]);
    if command == '4' then Some([0x0A])
    else if command !in "27cud" then Some([])
    else if number.None? then None
    else
      var value := number.value;
      if command == '2' then Some([0x02, value % 256])
      else if command == '7' then Some([0x03, Clamped((50 + value) % 256)])
      else if command == 'c' then Some([0x0B, 1, value % 256])
      else if command == 'u' then Some([0x02, Wrapped(speed as int + value % 256)])
      else Some([0x02, Wrapped(speed as int - value % 256)])
  }

  /** The weight meant by the number of a weighting command. */
  function MeantWeight(number: int): int {
    if 50 + number < 10 then 10 else if 50 + number > 90 then 90 else 50 + number
  }

  /** The sum is cut to a byte before it is clamped: that gives the weight meant exactly if the byte is on the
      right side of the limit, or nothing was cut off. */
  lemma {:induction false} WeightIsMeantExactly(input: seq<uint8>, speed: uint8)
    requires |input| >= 2 && input[1] as char == '7' && ParseInt(input[2..]).Some?
    ensures var number := ParseInt(input[2..]).value;
      CompileEscape(input, speed) == Some([0x03, MeantWeight(number)])
      <==> if 50 + number < 0 then (50 + number) % 256 <= 10
           else if 50 + number < 256 then true
           else (50 + number) % 256 >= 90
  {
    var number := ParseInt(input[2..]).value;
    var weight := Clamped((50 + number) % 256);
    assert CompileEscape(input, speed) == Some([0x03, weight]);
    assert [0x03, weight][1] == weight && [0x03, MeantWeight(number)][1] == MeantWeight(number);
  }

  /** to_winkeyer: None where std::stoi throws. */
  function ToWinkeyer(input: seq<uint8>, speed: uint8): Option<seq<uint8>>
    requires Message(input)
  {
    if input[0] == ESCAPE then CompileEscape(input, speed)
    else
      var text := CompileText(TextOf(input), speed, false);
      Some(text.out + (if text.speed != speed then [BUFFERED_SPEED, speed] else []))
  }

  method Compile(input: seq<uint8>, initialSpeed: uint8) returns (result: Option<seq<uint8>>)
    requires Message(input)
    ensures result == ToWinkeyer(input, initialSpeed)
  {
    if input[0] == ESCAPE {
      result := CompileCommand(input, initialSpeed);
      return;
    }
    var out, currentSpeed := CompileCharacters(input, initialSpeed);
    assert Prefixed(out, Compiled([], currentSpeed)) == CompileText(TextOf(input), initialSpeed, false);
    if currentSpeed != initialSpeed {
      out := out + [BUFFERED_SPEED, initialSpeed];
    }
    result := Some(out);
  }

  function Prefixed(out: seq<uint8>, rest: Compiled): Compiled {
    Compiled(out + rest.out, rest.speed)
  }

  lemma {:induction false} PrefixedTwice(a: seq<uint8>, b: seq<uint8>, rest: Compiled)
    ensures Prefixed(a, Prefixed(b, rest)) == Prefixed(a + b, rest)
  {
    Regroup(a, b, rest.out);
  }

  /** out and the meaning of the text from ptr on make the whole. */
  ghost predicate Compiling(text: seq<uint8>, whole: Compiled, out: seq<uint8>, ptr: nat, speed: uint8, gap: bool) {
    ptr <= |text| && Prefixed(out, CompileText(text[ptr..], speed, gap)) == whole
  }

  /** The loop over the text of a message. */
  method CompileCharacters(input: seq<uint8>, initialSpeed: uint8) returns (out: seq<uint8>, currentSpeed: uint8)
    requires Message(input)
    ensures Compiled(out, currentSpeed) == CompileText(TextOf(input), initialSpeed, false)
  {
    out := [];
    currentSpeed := initialSpeed;
    var isGap := false;
    ghost var text := TextOf(input);
    ghost var whole := CompileText(text, initialSpeed, false);
    var ptr := 0;
    assert text[0..] == text;
    while IsText(input[ptr])
      invariant Compiling(text, whole, out, ptr, currentSpeed, isGap)
      decreases |text| - ptr
    {
      var steps, emitted, speed, gap := CompileOne(input, ptr, currentSpeed, isGap);
      PrefixedTwice(out, emitted, CompileText(text[ptr + steps..], speed, gap));
      ptr := ptr + steps;
      out := out + emitted;
      currentSpeed := speed;
      isGap := gap;
    }
    assert text[ptr..] == [];
  }

  /** The body of that loop: how far it moves the pointer, what it pushes, the new speed and gap. */
  method CompileOne(input: seq<uint8>, ptr: nat, currentSpeed: uint8, isGap: bool)
      returns (steps: nat, emitted: seq<uint8>, speed: uint8, gap: bool)
    requires Message(input)
    requires ptr < |input| && ptr <= |TextOf(input)| && IsText(input[ptr])
    ensures 0 < steps && ptr + steps <= |TextOf(input)|
    ensures CompileText(TextOf(input)[ptr..], currentSpeed, isGap)
         == Prefixed(emitted, CompileText(TextOf(input)[ptr + steps..], speed, gap))
  {
    ghost var rest := TextOf(input)[ptr..];
    var c := input[ptr];
    steps, emitted, speed, gap := 1, [], currentSpeed, isGap;
    if c == MINUS {
      steps := CountRun(input, ptr, MINUS);
      speed := Slower(currentSpeed, steps);
      emitted := [BUFFERED_SPEED, speed];
    } else if c == PLUS {
      steps := CountRun(input, ptr, PLUS);
      speed := Faster(currentSpeed, steps);
      emitted := [BUFFERED_SPEED, speed];
    } else if c == TILDE {
      gap := true;
    } else if c >= SPACE {
      emitted := [Upper(c)] + (if isGap then FOUR_GAPS else []);
      gap := false;
    }
    assert rest[steps..] == TextOf(input)[ptr + steps..];
  }

  /** The inner loops over repeated speed marks. */
  method CountRun(input: seq<uint8>, start: nat, c: uint8) returns (times: nat)
    requires Message(input) && start <= |TextOf(input)| && IsText(c)
    ensures times == RunLength(TextOf(input)[start..], c)
  {
    times := 0;
    ghost var text := TextOf(input);
    while input[start + times] == c
      invariant start + times <= |text|
      invariant times + RunLength(text[start + times..], c) == RunLength(text[start..], c)
      decreases |text| - times
    {
      assert text[start + times..][1..] == text[start + times + 1..];
      times := times + 1;
    }
  }

  /** The switch over escape commands. */
  method CompileCommand(input: seq<uint8>, initialSpeed: uint8) returns (result: Option<seq<uint8>>)
    requires Message(input) && input[0] == ESCAPE
    ensures result == CompileEscape(input, initialSpeed)
  {
    var command := input[1] as char;
    if command == '4' {
      return Some([0x0A]);
    }
    if command !in "27cud" {
      return Some([]);
    }
    var number := ParseInt(input[2..]);
    if number.None? {
      return None;
    }
    var argument: uint8 := number.value % 256;
    if command == '2' {
      result := Some([0x02, argument]);
    } else if command == '7' {
      var weight: uint8 := (50 + number.value) % 256;
      if weight < 10 {
        weight := 10;
      }
      if weight > 90 {
        weight := 90;
      }
      result := Some([0x03, weight]);
    } else if command == 'c' {
      result := Some([0x0B, 1, argument]);
    } else if command == 'u' {
      result := Some([0x02, Wrapped(initialSpeed as int + argument)]);
    } else {
      result := Some([0x02, Wrapped(initialSpeed as int - argument)]);
    }
  }

  // ---- what a text means ----

  /** The meaning of a text, read one character at a time: each minus or plus changes the speed by
      two, a tilde asks for two dits of extra space after the next character. */
  function TextMarks(t: seq<uint8>, speed: uint8, gap: bool): seq<Mark> {
    if t == [] then []
    else if t[0] == MINUS then TextMarks(t[1..], Slower(speed, 1), gap)
    else if t[0] == PLUS then TextMarks(t[1..], Faster(speed, 1), gap)
    else if t[0] == TILDE then TextMarks(t[1..], speed, true)
    else if t[0] >= SPACE then
      CharMarks(Upper(t[0]), speed) + GapMarks(gap) + TextMarks(t[1..], speed, false)
    else TextMarks(t[1..], speed, gap)
  }

  function GapMarks(gap: bool): seq<Mark> {
    if gap then [HalfGap, HalfGap, HalfGap, HalfGap] else []
  }

  lemma {:induction false} SlowerSteps(speed: uint8, n: nat)
    ensures Slower(Slower(speed, 1), n) == Slower(speed, n + 1)
  {
    WrappedShift(speed as int - 2, -2 * (n as int));
  }

  lemma {:induction false} FasterSteps(speed: uint8, n: nat)
    ensures Faster(Faster(speed, 1), n) == Faster(speed, n + 1)
  {
    var faster: int := speed as int + 2 * 1;
    var more: int := 2 * n;
    WrappedShift(faster, more);
    assert faster + more == speed as int + 2 * (n + 1);
  }

  lemma {:induction false} MinusRun(t: seq<uint8>, speed: uint8, gap: bool)
    ensures var n := RunLength(t, MINUS);
      TextMarks(t, speed, gap) == TextMarks(t[n..], Slower(speed, n), gap)
  {
    if t != [] && t[0] == MINUS {
      var n := RunLength(t[1..], MINUS);
      MinusRun(t[1..], Slower(speed, 1), gap);
      assert t[1..][n..] == t[n + 1..];
      SlowerSteps(speed, n);
    } else {
      assert t[0..] == t;
    }
  }

  lemma {:induction false} PlusRun(t: seq<uint8>, speed: uint8, gap: bool)
    ensures var n := RunLength(t, PLUS);
      TextMarks(t, speed, gap) == TextMarks(t[n..], Faster(speed, n), gap)
  {
    if t != [] && t[0] == PLUS {
      var n := RunLength(t[1..], PLUS);
      PlusRun(t[1..], Faster(speed, 1), gap);
      assert t[1..][n..] == t[n + 1..];
      FasterSteps(speed, n);
    } else {
      assert t[0..] == t;
    }
  }

  lemma {:induction false} CharItem(c: uint8, bytes: seq<uint8>, wpm: nat)
    requires !IsCommand(c)
    ensures StreamMarks([c] + bytes, wpm) == CharMarks(c, wpm) + StreamMarks(bytes, wpm)
    ensures StreamSpeed([c] + bytes, wpm) == StreamSpeed(bytes, wpm)
    ensures Missing([c] + bytes) == Missing(bytes)
  {
    assert ([c] + bytes)[1..] == bytes;
  }

  lemma {:induction false} SpeedItem(speed: uint8, bytes: seq<uint8>, wpm: nat)
    ensures StreamMarks([BUFFERED_SPEED, speed] + bytes, wpm) == StreamMarks(bytes, speed)
    ensures StreamSpeed([BUFFERED_SPEED, speed] + bytes, wpm) == StreamSpeed(bytes, speed)
    ensures Missing([BUFFERED_SPEED, speed] + bytes) == Missing(bytes)
  {
    assert ([BUFFERED_SPEED, speed] + bytes)[2..] == bytes;
  }

  lemma {:induction false} GapItems(bytes: seq<uint8>, wpm: nat)
    ensures StreamMarks(FOUR_GAPS + bytes, wpm) == GapMarks(true) + StreamMarks(bytes, wpm)
    ensures StreamSpeed(FOUR_GAPS + bytes, wpm) == StreamSpeed(bytes, wpm)
    ensures Missing(FOUR_GAPS + bytes) == Missing(bytes)
  {
    var one := [HALF_GAP] + bytes;
    var two := [HALF_GAP] + one;
    var three := [HALF_GAP] + two;
    assert FOUR_GAPS + bytes == [HALF_GAP] + three;
    CharItem(HALF_GAP, bytes, wpm);
    CharItem(HALF_GAP, one, wpm);
    CharItem(HALF_GAP, two, wpm);
    CharItem(HALF_GAP, three, wpm);
  }

  /** What the compiled text means to the keyer is what the text means: runs of speed marks merged
      into one command, gap marks moved behind their character. */
  ghost predicate MeansTheSame(t: seq<uint8>, speed: uint8, gap: bool) {
    var compiled := CompileText(t, speed, gap);
    && StreamMarks(compiled.out, speed) == TextMarks(t, speed, gap)
    && StreamSpeed(compiled.out, speed) == compiled.speed
    && Whole(compiled.out)
  }

  lemma {:induction false} CompileTextMeans(t: seq<uint8>, speed: uint8, gap: bool)
    ensures MeansTheSame(t, speed, gap)
    decreases |t|
  {
    if t == [] {
    } else if t[0] == MINUS || t[0] == PLUS {
      var n := RunLength(t, t[0]);
      var next := if t[0] == MINUS then Slower(speed, n) else Faster(speed, n);
      MinusRun(t, speed, gap);
      PlusRun(t, speed, gap);
      CompileTextMeans(t[n..], next, gap);
      SpeedItem(next, CompileText(t[n..], next, gap).out, speed);
    } else if t[0] != TILDE && t[0] >= SPACE {
      CompileTextMeans(t[1..], speed, false);
      CharacterMeans(t, speed, gap);
    } else {
      CompileTextMeans(t[1..], speed, t[0] == TILDE || gap);
    }
  }

  lemma {:induction false} CharacterMeans(t: seq<uint8>, speed: uint8, gap: bool)
    requires t != [] && t[0] !in {MINUS, PLUS, TILDE} && t[0] >= SPACE
    requires MeansTheSame(t[1..], speed, false)
    ensures MeansTheSame(t, speed, gap)
  {
    var rest := CompileText(t[1..], speed, false).out;
    var c := Upper(t[0]);
    var gaps := if gap then FOUR_GAPS else [];
    Regroup([c], gaps, rest);
    CharItem(c, gaps + rest, speed);
    Regroup(CharMarks(c, speed), GapMarks(gap), StreamMarks(rest, speed));
    if gap {
      GapItems(rest, speed);
    } else {
      assert gaps + rest == rest;
      assert GapMarks(gap) + StreamMarks(rest, speed) == StreamMarks(rest, speed);
    }
  }

  /** A text message compiles to a whole stream that means the text and ends at the speed it
      started with. */
  lemma {:induction false} MessageMeans(input: seq<uint8>, speed: uint8)
    requires Message(input) && input[0] != ESCAPE
    ensures ToWinkeyer(input, speed).Some?
    ensures var out := ToWinkeyer(input, speed).value;
      && Whole(out)
      && StreamMarks(out, speed) == TextMarks(TextOf(input), speed, false)
      && StreamSpeed(out, speed) == speed
  {
    var text := CompileText(TextOf(input), speed, false);
    CompileTextMeans(TextOf(input), speed, false);
    var restore := [BUFFERED_SPEED, speed];
    SpeedItem(speed, [], text.speed);
    assert restore + [] == restore;
    MissingAppend(text.out, restore);
    SpeedAppend(text.out, restore, speed);
    MarksAppend(text.out, restore, speed);
    assert text.out + [] == text.out;
    assert TextMarks(TextOf(input), speed, false) + [] == TextMarks(TextOf(input), speed, false);
  }

  // ---- speed, in closed form ----

  function Count(t: seq<uint8>, c: uint8): nat {
    if t == [] then 0 else (if t[0] == c then 1 else 0) + Count(t[1..], c)
  }

  /** The speed after the text t. */
  function SpeedAfter(t: seq<uint8>, speed: uint8): uint8 {
    Wrapped(speed as int + 2 * (Count(t, PLUS) - Count(t, MINUS)))
  }

  /** Whether the next character after t is followed by a gap. */
  function GapAfter(t: seq<uint8>, gap: bool): bool {
    if t == [] then gap
    else if t[0] == TILDE then GapAfter(t[1..], true)
    else if t[0] !in {MINUS, PLUS} && t[0] >= SPACE then GapAfter(t[1..], false)
    else GapAfter(t[1..], gap)
  }

  /** The speed after the first character of a text. */
  function Next(c: uint8, speed: uint8): uint8 {
    if c == MINUS then Slower(speed, 1) else if c == PLUS then Faster(speed, 1) else speed
  }

  lemma {:induction false} SpeedAfterFirst(t: seq<uint8>, speed: uint8)
    requires t != []
    ensures SpeedAfter(t, speed) == SpeedAfter(t[1..], Next(t[0], speed))
  {
    var d := 2 * (Count(t[1..], PLUS) - Count(t[1..], MINUS));
    WrappedShift(speed as int - 2, d);
    WrappedShift(speed as int + 2, d);
  }

  /** Whether a gap is pending behind the first character. */
  function GapBehind(c: uint8, gap: bool): bool {
    c == TILDE || (gap && (c in {MINUS, PLUS} || c < SPACE))
  }

  /** The meaning of a text, by its first character. */
  lemma {:induction false} FirstCharacter(t: seq<uint8>, speed: uint8, gap: bool)
    requires t != []
    ensures var rest := TextMarks(t[1..], Next(t[0], speed), GapBehind(t[0], gap));
      TextMarks(t, speed, gap)
      == if t[0] !in {MINUS, PLUS, TILDE} && t[0] >= SPACE then CharMarks(Upper(t[0]), speed) + GapMarks(gap) + rest else rest
  {
    if t[0] !in {MINUS, PLUS} {
      WrappedShift(speed, 0);
    }
  }

  lemma {:induction false} TextAppend(a: seq<uint8>, b: seq<uint8>, speed: uint8, gap: bool)
    ensures TextMarks(a + b, speed, gap) == TextMarks(a, speed, gap) + TextMarks(b, SpeedAfter(a, speed), GapAfter(a, gap))
  {
    if a == [] {
      assert a + b == b;
      WrappedShift(speed, 0);
    } else {
      assert (a + b)[1..] == a[1..] + b;
      SpeedAfterFirst(a, speed);
      FirstCharacter(a, speed, gap);
      FirstCharacter(a + b, speed, gap);
      var next, behind := Next(a[0], speed), GapBehind(a[0], gap);
      TextAppend(a[1..], b, next, behind);
      var tail := TextMarks(b, SpeedAfter(a, speed), GapAfter(a, gap));
      Regroup(CharMarks(Upper(a[0]), speed) + GapMarks(gap), TextMarks(a[1..], next, behind), tail);
    }
  }

  lemma {:induction false} KeyedFirst(t: seq<uint8>, speed: uint8, gap: bool)
    requires t != [] && t[0] !in {MINUS, PLUS, TILDE} && t[0] >= SPACE
    ensures TextMarks(t, speed, gap) == (CharMarks(Upper(t[0]), speed) + GapMarks(gap)) + TextMarks(t[1..], speed, false)
  {
  }

  /** Each character is keyed wholly at the initial speed plus two for every plus before it and
      minus two for every minus, modulo 256. */
  lemma {:induction false} CharacterSpeed(t: seq<uint8>, i: nat, speed: uint8)
    requires i < |t| && t[i] !in {MINUS, PLUS, TILDE} && t[i] >= SPACE
    ensures var here := SpeedAfter(t[..i], speed);
      TextMarks(t, speed, false)
      == TextMarks(t[..i], speed, false) + (CharMarks(Upper(t[i]), here) + GapMarks(GapAfter(t[..i], false)))
         + TextMarks(t[i + 1..], here, false)
  {
    var front, rest := t[..i], t[i..];
    var here, gap := SpeedAfter(front, speed), GapAfter(front, false);
    assert t == front + rest && rest[1..] == t[i + 1..];
    TextAppend(front, rest, speed, false);
    KeyedFirst(rest, here, gap);
    Regroup(TextMarks(front, speed, false), CharMarks(Upper(t[i]), here) + GapMarks(gap), TextMarks(t[i + 1..], here, false));
  }
}
