/** What messages compile to, said of their bytes. */
module CwDaemonBytes {
  import opened FixedWidth
  import opened Wrappers
  import opened CharPatterns
  import opened WinKeyer
  import opened MorseCode
  import opened CwDaemon

  // ---- letters ----

  predicate IsCapital(c: uint8) { 65 <= c <= 90 }

  predicate IsSmall(c: uint8) { 97 <= c <= 122 }

  /** The same, but for the case of a letter. */
  predicate SameLetter(a: uint8, b: uint8) {
    a == b || (IsCapital(a) && b == a + 32) || (IsSmall(a) && b == a - 32)
  }

  predicate SameLetters(a: seq<uint8>, b: seq<uint8>) {
    |a| == |b| && forall i :: 0 <= i < |a| ==> SameLetter(a[i], b[i])
  }

  lemma {:induction false} RunOfSame(a: seq<uint8>, b: seq<uint8>, c: uint8)
    requires SameLetters(a, b) && !IsCapital(c) && !IsSmall(c)
    ensures RunLength(a, c) == RunLength(b, c)
    decreases |a|
  {
    if a != [] && a[0] == c {
      RunOfSame(a[1..], b[1..], c);
    }
  }

  lemma {:induction false} TextOfSame(a: seq<uint8>, b: seq<uint8>)
    requires SameLetters(a, b)
    ensures SameLetters(TextOf(a), TextOf(b))
    decreases |a|
  {
    if a != [] && IsText(a[0]) {
      TextOfSame(a[1..], b[1..]);
    }
  }

  lemma {:induction false} SameCompiles(a: seq<uint8>, b: seq<uint8>, speed: uint8, gap: bool)
    requires SameLetters(a, b)
    ensures CompileText(a, speed, gap) == CompileText(b, speed, gap)
    decreases |a|
  {
    if a != [] {
      RunOfSame(a, b, MINUS);
      RunOfSame(a, b, PLUS);
      var n := if a[0] in {MINUS, PLUS} then RunLength(a, a[0]) else 1;
      assert SameLetters(a[n..], b[n..]);
      SameCompiles(a[n..], b[n..], if a[0] == MINUS then Slower(speed, n) else if a[0] == PLUS then Faster(speed, n) else speed,
                   if a[0] in {MINUS, PLUS} then gap else a[0] == TILDE || (gap && a[0] < SPACE));
    }
  }

  /** Texts that differ only in the case of letters compile to the same bytes. */
  lemma {:induction false} CaseDoesNotMatter(a: seq<uint8>, b: seq<uint8>, speed: uint8)
    requires Message(a) && Message(b) && SameLetters(a, b) && a[0] != 27
    ensures ToWinkeyer(a, speed) == ToWinkeyer(b, speed)
  {
    TextOfSame(a, b);
    SameCompiles(TextOf(a), TextOf(b), speed, false);
  }

  /** Every letter of either case is keyed as it is written, with at least one element. */
  lemma {:induction false} LettersAreKeyed(c: uint8, wpm: nat)
    requires IsCapital(c)
    ensures var marks := MarksOf(Written(c as char), wpm);
      && marks != [] && marks[0].Keyed?
      && CharMarks(Upper(c), wpm) == CharMarks(Upper(c + 32), wpm) == marks + [CharSpace]
  {
    KeyedAsWritten(c, wpm);
    LettersAreWritten(c as char);
  }

  lemma {:induction false} LettersAreWritten(c: char)
    requires 'A' <= c <= 'Z'
    ensures Written(c) != ""
  {
  }

  // ---- plain texts ----

  /** Sent as it is: a printable character that is neither a small letter nor a mark (plus, minus, tilde). */
  predicate IsPlain(c: uint8) {
    32 <= c <= 127 && !IsSmall(c) && c !in {43, 45, 126}
  }

  predicate AllPlain(t: seq<uint8>) {
    forall i :: 0 <= i < |t| ==> IsPlain(t[i])
  }

  predicate AllText(t: seq<uint8>) {
    forall i :: 0 <= i < |t| ==> 0 < t[i] < 128
  }

  /** A text ends at the first zero, or at the first byte above 127. */
  lemma {:induction false} TextEnds(t: seq<uint8>, end: uint8, rest: seq<uint8>)
    requires AllText(t) && (end == 0 || 128 <= end)
    ensures TextOf(t + [end] + rest) == t
  {
    if t != [] {
      assert (t + [end] + rest)[1..] == t[1..] + [end] + rest;
      TextEnds(t[1..], end, rest);
    }
  }

  lemma {:induction false} PlainCompiles(t: seq<uint8>, speed: uint8)
    requires AllPlain(t)
    ensures CompileText(t, speed, false) == Compiled(t, speed)
    decreases |t|
  {
    if t != [] {
      PlainCompiles(t[1..], speed);
      assert [t[0]] + [] + t[1..] == t;
    }
  }

  /** A plain text is sent as it is, whatever follows its end. */
  lemma {:induction false} PlainTextIsItself(t: seq<uint8>, end: uint8, rest: seq<uint8>, speed: uint8)
    requires AllPlain(t) && (end == 0 || 128 <= end) && Message(t + [end] + rest)
    ensures ToWinkeyer(t + [end] + rest, speed) == Some(t)
  {
    TextEnds(t, end, rest);
    PlainCompiles(t, speed);
    assert t + [] == t;
  }

  // ---- marks ----

  function Times(c: uint8, n: nat): (s: seq<uint8>)
    ensures |s| == n
  {
    if n == 0 then [] else [c] + Times(c, n - 1)
  }

  lemma {:induction false} RunOfTimes(c: uint8, n: nat, rest: seq<uint8>)
    requires rest == [] || rest[0] != c
    ensures RunLength(Times(c, n) + rest, c) == n && (Times(c, n) + rest)[n..] == rest
  {
    if n > 0 {
      assert (Times(c, n) + rest)[1..] == Times(c, n - 1) + rest;
      RunOfTimes(c, n - 1, rest);
    }
  }

  /** n plus signs, or n minus signs, before a plain text: the speed they ask for, the text, and the speed back if it
      is another. */
  lemma {:induction false} SpeedMarksCompile(n: nat, t: seq<uint8>, speed: uint8)
    requires n > 0 && AllPlain(t)
    ensures var faster, slower := (speed as int + 2 * n) % 256, (speed as int - 2 * n) % 256;
      && CompileText(Times(43, n) + t, speed, false) == Compiled([0x1C, faster] + t, faster)
      && CompileText(Times(45, n) + t, speed, false) == Compiled([0x1C, slower] + t, slower)
  {
    RunOfTimes(43, n, t);
    RunOfTimes(45, n, t);
    PlainCompiles(t, Faster(speed, n));
    PlainCompiles(t, Slower(speed, n));
  }

  lemma {:induction false} TimesIsText(c: uint8, n: nat, t: seq<uint8>)
    requires AllPlain(t) && 0 < c < 128
    ensures AllText(Times(c, n) + t)
  {
    if n > 0 {
      TimesIsText(c, n - 1, t);
      assert Times(c, n) + t == [c] + (Times(c, n - 1) + t);
    }
  }

  /** As messages. */
  lemma {:induction false} SpeedMarksAre(n: nat, t: seq<uint8>, speed: uint8)
    requires n > 0 && AllPlain(t)
    ensures var faster, slower := (speed as int + 2 * n) % 256, (speed as int - 2 * n) % 256;
      && ToWinkeyer(Times(43, n) + t + [0], speed)
         == Some([0x1C, faster] + t + if faster == speed then [] else [0x1C, speed])
      && ToWinkeyer(Times(45, n) + t + [0], speed)
         == Some([0x1C, slower] + t + if slower == speed then [] else [0x1C, speed])
  {
    SpeedMarksCompile(n, t, speed);
    MarkedText(43, n, t);
    MarkedText(45, n, t);
  }

  lemma {:induction false} MarkedText(c: uint8, n: nat, t: seq<uint8>)
    requires AllPlain(t) && c in {43, 45} && n > 0
    ensures TextOf(Times(c, n) + t + [0]) == Times(c, n) + t && (Times(c, n) + t + [0])[0] == c
  {
    TimesIsText(c, n, t);
    TextEnds(Times(c, n) + t, 0, []);
    assert Times(c, n) + t + [0] + [] == Times(c, n) + t + [0];
  }

  /** A tilde puts four bars behind the next character. */
  lemma {:induction false} TildeCompiles(c: uint8, t: seq<uint8>, speed: uint8)
    requires IsPlain(c) && AllPlain(t)
    ensures CompileText([126, c] + t, speed, false) == Compiled([c, 124, 124, 124, 124] + t, speed)
  {
    assert ([126, c] + t)[1..] == [c] + t && ([c] + t)[1..] == t;
    PlainCompiles(t, speed);
    assert CompileText([c] + t, speed, true) == Compiled([c] + FOUR_GAPS + t, speed);
    assert [c] + FOUR_GAPS + t == [c, 124, 124, 124, 124] + t;
  }

  // ---- numbers ----

  predicate AllDigits(s: seq<uint8>) {
    forall i :: 0 <= i < |s| ==> 48 <= s[i] <= 57
  }

  predicate AllBlanks(s: seq<uint8>) {
    forall i :: 0 <= i < |s| ==> s[i] == 32 || 9 <= s[i] <= 13
  }

  /** The value of digits, the last counting one. */
  function DecimalValue(s: seq<uint8>): int
    requires AllDigits(s)
  {
    if s == [] then 0 else 10 * DecimalValue(s[..|s| - 1]) + (s[|s| - 1] - 48)
  }

  lemma {:induction false} DigitsOf(s: seq<uint8>, more: seq<uint8>, value: nat)
    requires AllDigits(s)
    ensures Digits(s + more, value) == Digits(more, Digits(s, value))
  {
    if s == [] {
      assert s + more == more;
    } else {
      assert (s + more)[1..] == s[1..] + more;
      DigitsOf(s[1..], more, 10 * value + (s[0] - 48));
    }
  }

  lemma {:induction false} DigitsAreDecimal(s: seq<uint8>)
    requires AllDigits(s)
    ensures Digits(s, 0) == DecimalValue(s)
  {
    if s != [] {
      var front, last := s[..|s| - 1], [s[|s| - 1]];
      DigitsAreDecimal(front);
      assert s == front + last && last[1..] == [];
      DigitsOf(front, last, 0);
    }
  }

  lemma {:induction false} BlanksSkipped(blanks: seq<uint8>, rest: seq<uint8>)
    requires AllBlanks(blanks) && (rest == [] || !(rest[0] == 32 || 9 <= rest[0] <= 13))
    ensures SkipBlanks(blanks + rest) == rest
  {
    if blanks == [] {
      assert blanks + rest == rest;
    } else {
      assert (blanks + rest)[1..] == blanks[1..] + rest;
      BlanksSkipped(blanks[1..], rest);
    }
  }

  /** A number as std::stoi finds it: blanks, a sign, digits, and something that is no digit. */
  predicate NumberText(blanks: seq<uint8>, sign: seq<uint8>, digits: seq<uint8>, rest: seq<uint8>) {
    && AllBlanks(blanks) && sign in {[], [43], [45]} && AllDigits(digits)
    && (rest != [] ==> !(48 <= rest[0] <= 57))
    && (sign == [] && digits == [] && rest != [] ==> rest[0] !in {43, 45, 32} && !(9 <= rest[0] <= 13))
  }

  /** It is read as the decimal number it shows, or not at all: without digits, and outside 32 bits. */
  lemma {:induction false} ReadsNumber(blanks: seq<uint8>, sign: seq<uint8>, digits: seq<uint8>, rest: seq<uint8>)
    requires NumberText(blanks, sign, digits, rest)
    ensures var value := if sign == [45] then -DecimalValue(digits) else DecimalValue(digits);
      ParseInt(blanks + (sign + (digits + rest)))
      == if digits == [] || value < -2147483648 || 2147483647 < value then None else Some(value)
  {
    var t, u := sign + (digits + rest), digits + rest;
    BlanksSkipped(blanks, t);
    ReadsDigits(digits, rest);
    if sign == [] {
      assert t == u;
    } else {
      assert t[1..] == u;
    }
  }

  lemma {:induction false} ReadsDigits(digits: seq<uint8>, rest: seq<uint8>)
    requires AllDigits(digits) && (rest != [] ==> !(48 <= rest[0] <= 57))
    ensures var u := digits + rest;
      && (u == [] || !IsDigit(u[0]) <==> digits == [])
      && (digits != [] ==> Digits(u, 0) == DecimalValue(digits))
  {
    if digits != [] {
      DigitsAreDecimal(digits);
      DigitsOf(digits, rest, 0);
    } else {
      assert digits + rest == rest;
    }
  }

  // ---- escape commands ----

  /** An escape command with a number, in its plainest form: the digits right behind the command letter. */
  function Escape(command: uint8, digits: seq<uint8>): (m: seq<uint8>) {
    [27, command] + digits + [0]
  }

  lemma {:induction false} EscapeNumber(command: uint8, digits: seq<uint8>)
    requires AllDigits(digits) && digits != [] && DecimalValue(digits) <= 2147483647
    ensures ParseInt(Escape(command, digits)[2..]) == Some(DecimalValue(digits))
    ensures DecimalValue(digits) >= 0
  {
    DigitsAreDecimal(digits);
    assert Escape(command, digits)[2..] == [] + ([] + (digits + [0]));
    ReadsNumber([], [], digits, [0]);
  }

  lemma {:induction false} CutSums(speed: int, n: int)
    ensures (speed + n % 256) % 256 == (speed + n) % 256 && (speed - n % 256) % 256 == (speed - n) % 256
  {
    SameByte(speed + n, speed + n % 256, n / 256);
    SameByte(speed - n % 256, speed - n, n / 256);
  }

  lemma {:induction false} SameByte(a: int, b: int, q: int)
    requires a == b + 256 * q
    ensures a % 256 == b % 256
  {
  }

  /** Command 2 sets the speed, by the number as it is written; what does not fit a byte is cut. */
  lemma {:induction false} SetsSpeed(digits: seq<uint8>, speed: uint8)
    requires AllDigits(digits) && digits != [] && DecimalValue(digits) <= 2147483647
    ensures ToWinkeyer(Escape(50, digits), speed) == Some([0x02, DecimalValue(digits) % 256])
  {
    EscapeNumber(50, digits);
  }

  /** Command u raises the speed by the number. */
  lemma {:induction false} RaisesSpeed(digits: seq<uint8>, speed: uint8)
    requires AllDigits(digits) && digits != [] && DecimalValue(digits) <= 2147483647
    ensures ToWinkeyer(Escape(117, digits), speed) == Some([0x02, (speed as int + DecimalValue(digits)) % 256])
  {
    EscapeNumber(117, digits);
    CutSums(speed, DecimalValue(digits));
  }

  /** Command d lowers it. */
  lemma {:induction false} LowersSpeed(digits: seq<uint8>, speed: uint8)
    requires AllDigits(digits) && digits != [] && DecimalValue(digits) <= 2147483647
    ensures ToWinkeyer(Escape(100, digits), speed) == Some([0x02, (speed as int - DecimalValue(digits)) % 256])
  {
    EscapeNumber(100, digits);
    CutSums(speed, DecimalValue(digits));
  }

  /** Command c keys the transmitter for as many seconds. */
  lemma {:induction false} Tunes(digits: seq<uint8>, speed: uint8)
    requires AllDigits(digits) && digits != [] && DecimalValue(digits) <= 2147483647
    ensures ToWinkeyer(Escape(99, digits), speed) == Some([0x0B, 1, DecimalValue(digits) % 256])
  {
    EscapeNumber(99, digits);
  }

  /** Command 7 sets the weight: the number is counted from 50, and 90 is the most. */
  lemma {:induction false} SetsWeight(digits: seq<uint8>, speed: uint8)
    requires AllDigits(digits) && digits != [] && DecimalValue(digits) <= 205
    ensures var n := DecimalValue(digits);
      ToWinkeyer(Escape(55, digits), speed) == Some([0x03, if n > 40 then 90 else 50 + n])
  {
    EscapeNumber(55, digits);
  }

  /** Command 4 clears the buffer, and any other command letter does nothing. */
  lemma {:induction false} OtherEscapes(message: seq<uint8>, speed: uint8)
    requires Message(message) && |message| > 2 && message[0] == 27 && message[1] !in {50, 55, 99, 117, 100}
    ensures ToWinkeyer(message, speed) == Some(if message[1] == 52 then [0x0A] else [])
  {
  }
}
