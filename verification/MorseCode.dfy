/** The characters as they are written in dots and dashes, and that the keyer keys them so. */
module MorseCode {
  import opened FixedWidth
  import opened Wrappers
  import opened CharPatterns
  import opened WinKeyer

  /** The code of a character; what has none is sent as a pause. */
  function Written(c: char): string {
    if 'A' <= c <= 'M' then EarlyLetter(c)
    else if 'N' <= c <= 'Z' then LateLetter(c)
    else if '0' <= c <= '9' then Figure(c)
    else Sign(c)
  }

  function EarlyLetter(c: char): string {
    match c
    case 'A' => ".-" case 'B' => "-..." case 'C' => "-.-." case 'D' => "-.." case 'E' => "."
    case 'F' => "..-." case 'G' => "--." case 'H' => "...." case 'I' => ".." case 'J' => ".---"
    case 'K' => "-.-" case 'L' => ".-.." case 'M' => "--"
    case _ => ""
  }

  function LateLetter(c: char): string {
    match c
    case 'N' => "-." case 'O' => "---" case 'P' => ".--." case 'Q' => "--.-" case 'R' => ".-."
    case 'S' => "..." case 'T' => "-" case 'U' => "..-" case 'V' => "...-" case 'W' => ".--"
    case 'X' => "-..-" case 'Y' => "-.--" case 'Z' => "--.."
    case _ => ""
  }

  function Figure(c: char): string {
    match c
    case '0' => "-----" case '1' => ".----" case '2' => "..---" case '3' => "...--" case '4' => "....-"
    case '5' => "....." case '6' => "-...." case '7' => "--..." case '8' => "---.." case '9' => "----."
    case _ => ""
  }

  /** Punctuation, and with it the procedure signals. */
  function Sign(c: char): string {
    match c
    case '?' => "..--.." case '/' => "-..-." case ',' => "--..--" case '.' => ".-.-.-" case '=' => "-...-"
    case '-' => "-....-" case '\"' => ".----." case '(' => "-.--." case ')' => "-.--.-" case '$' => "...-.-"
    case '+' => ".-.-." case '[' => "-...-.-" case '{' => ".-..." case '}' => "-.--."
    case _ => ""
  }

  function ElementOf(c: char): Element {
    if c == '-' then Dah else Dit
  }

  /** The marks of a code at a speed. */
  function MarksOf(code: string, wpm: nat): (ms: seq<Mark>)
    ensures |ms| == |code|
  {
    if code == "" then [] else [Keyed(ElementOf(code[0]), wpm)] + MarksOf(code[1..], wpm)
  }

  // ---- bits ----

  function Pow2(n: nat): (p: nat)
    ensures p > 0
  {
    if n == 0 then 1 else 2 * Pow2(n - 1)
  }

  lemma {:induction false} HalfPow(data: nat, i: nat)
    requires i > 0
    ensures data / Pow2(i) == data / 2 / Pow2(i - 1)
  {
    Quotients(data, Pow2(i - 1));
  }

  lemma {:induction false} Quotients(data: nat, p: nat)
    requires p > 0
    ensures data / (2 * p) == data / 2 / p
  {
    var q, r := data / 2 / p, data / 2 % p;
    assert data == 2 * (p * q + r) + data % 2;
    var rest := 2 * r + data % 2;
    assert 2 * (p * q) == (2 * p) * q;
    assert data == (2 * p) * q + rest && 0 <= rest < 2 * p;
    Divides(data, 2 * p, q, rest);
  }

  lemma {:induction false} Multiples(d: nat, z: int)
    ensures (z >= 1 ==> d * z >= d) && (z <= -1 ==> d * z + d <= 0)
  {
  }

  lemma {:induction false} Divides(n: nat, d: nat, q: nat, r: nat)
    requires n == d * q + r && r < d
    ensures n / d == q
  {
    var x := n / d;
    assert n == d * x + n % d;
    assert d * (x - q) == r - n % d;
    Multiples(d, x - q);
  }

  lemma {:induction false} BitIsDigit(data: nat, i: nat)
    ensures Bit(data, i) <==> data / Pow2(i) % 2 == 1
  {
    if i > 0 {
      BitIsDigit(data / 2, i - 1);
      HalfPow(data, i);
    }
  }

  /** The elements of a pattern are its binary digits, the most significant first, and a dah is a 1. */
  lemma {:induction false} ElementsAreDigits(data: nat, n: nat, i: nat)
    requires i < n
    ensures Elements(data, n)[i] == Dah <==> data / Pow2(n - 1 - i) % 2 == 1
  {
    if i == 0 {
      BitIsDigit(data, n - 1);
    } else {
      ElementsAreDigits(data, n - 1, i - 1);
    }
  }

  /** The first n characters of a code read as a binary number. */
  function NumberUpTo(code: string, n: nat): nat
    requires n <= |code|
  {
    if n == 0 then 0 else 2 * NumberUpTo(code, n - 1) + if code[n - 1] == '-' then 1 else 0
  }

  function Number(code: string): nat { NumberUpTo(code, |code|) }

  lemma {:induction false} NumberDigits(code: string, n: nat, i: nat)
    requires i < n <= |code|
    ensures NumberUpTo(code, n) / Pow2(n - 1 - i) % 2 == 1 <==> code[i] == '-'
  {
    if i < n - 1 {
      NumberDigits(code, n - 1, i);
      HalfPow(NumberUpTo(code, n), n - 1 - i);
      assert NumberUpTo(code, n) / 2 == NumberUpTo(code, n - 1);
    }
  }

  lemma {:induction false} MarksAt(code: string, es: seq<Element>, wpm: nat)
    requires |es| == |code| && forall i :: 0 <= i < |code| ==> es[i] == ElementOf(code[i])
    ensures KeyedMarks(es, wpm) == MarksOf(code, wpm)
  {
    if code != "" {
      MarksAt(code[1..], es[1..], wpm);
    }
  }

  /** The pattern of a code keys the code. */
  lemma {:induction false} NumberKeys(code: string, wpm: nat)
    ensures KeyedMarks(Elements(Number(code), |code|), wpm) == MarksOf(code, wpm)
  {
    var es := Elements(Number(code), |code|);
    forall i | 0 <= i < |code|
      ensures es[i] == ElementOf(code[i])
    {
      ElementsAreDigits(Number(code), |code|, i);
      NumberDigits(code, |code|, i);
    }
    MarksAt(code, es, wpm);
  }

  // ---- the table ----

  /** The i-th entry has the elements of its character. */
  predicate IsWritten(i: nat) {
    var (c, p) := Entry(i);
    Written(c) != "" && p == CharPattern(Number(Written(c)), |Written(c)|)
  }

  lemma {:induction false} WrittenAt(i: nat, c: char, p: CharPattern, code: string)
    requires Entry(i) == (c, p) && Written(c) == code != "" && p == CharPattern(Number(code), |code|)
    ensures IsWritten(i)
  {
  }

  lemma {:induction false} NumbersFrom0()
    ensures Number(".-") == 1
    ensures Number("-...") == 8
    ensures Number("-.-.") == 10
    ensures Number("-..") == 4
    ensures Number(".") == 0
  {
    assert NumberUpTo(".-", 2) == 1;
    assert NumberUpTo("-...", 4) == 8;
    assert NumberUpTo("-.-.", 4) == 10;
    assert NumberUpTo("-..", 3) == 4;
    assert NumberUpTo(".", 1) == 0;
  }

  lemma {:induction false} CodesFrom0()
    ensures IsWritten(0) && IsWritten(1) && IsWritten(2) && IsWritten(3) && IsWritten(4)
  {
    NumbersFrom0();
    WrittenAt(0, 'A', CharPattern(1, 2), ".-");
    WrittenAt(1, 'B', CharPattern(8, 4), "-...");
    WrittenAt(2, 'C', CharPattern(10, 4), "-.-.");
    WrittenAt(3, 'D', CharPattern(4, 3), "-..");
    WrittenAt(4, 'E', CharPattern(0, 1), ".");
  }

  lemma {:induction false} NumbersFrom5()
    ensures Number("..-.") == 2
    ensures Number("--.") == 6
    ensures Number("....") == 0
    ensures Number("..") == 0
    ensures Number(".---") == 7
  {
    assert NumberUpTo("..-.", 4) == 2;
    assert NumberUpTo("--.", 3) == 6;
    assert NumberUpTo("....", 4) == 0;
    assert NumberUpTo("..", 2) == 0;
    assert NumberUpTo(".---", 4) == 7;
  }

  lemma {:induction false} CodesFrom5()
    ensures IsWritten(5) && IsWritten(6) && IsWritten(7) && IsWritten(8) && IsWritten(9)
  {
    NumbersFrom5();
    WrittenAt(5, 'F', CharPattern(2, 4), "..-.");
    WrittenAt(6, 'G', CharPattern(6, 3), "--.");
    WrittenAt(7, 'H', CharPattern(0, 4), "....");
    WrittenAt(8, 'I', CharPattern(0, 2), "..");
    WrittenAt(9, 'J', CharPattern(7, 4), ".---");
  }

  lemma {:induction false} NumbersFrom10()
    ensures Number("-.-") == 5
    ensures Number(".-..") == 4
    ensures Number("--") == 3
    ensures Number("-.") == 2
    ensures Number("---") == 7
  {
    assert NumberUpTo("-.-", 3) == 5;
    assert NumberUpTo(".-..", 4) == 4;
    assert NumberUpTo("--", 2) == 3;
    assert NumberUpTo("-.", 2) == 2;
    assert NumberUpTo("---", 3) == 7;
  }

  lemma {:induction false} CodesFrom10()
    ensures IsWritten(10) && IsWritten(11) && IsWritten(12) && IsWritten(13) && IsWritten(14)
  {
    NumbersFrom10();
    WrittenAt(10, 'K', CharPattern(5, 3), "-.-");
    WrittenAt(11, 'L', CharPattern(4, 4), ".-..");
    WrittenAt(12, 'M', CharPattern(3, 2), "--");
    WrittenAt(13, 'N', CharPattern(2, 2), "-.");
    WrittenAt(14, 'O', CharPattern(7, 3), "---");
  }

  lemma {:induction false} NumbersFrom15()
    ensures Number(".--.") == 6
    ensures Number("--.-") == 13
    ensures Number(".-.") == 2
    ensures Number("...") == 0
    ensures Number("-") == 1
  {
    assert NumberUpTo(".--.", 4) == 6;
    assert NumberUpTo("--.-", 4) == 13;
    assert NumberUpTo(".-.", 3) == 2;
    assert NumberUpTo("...", 3) == 0;
    assert NumberUpTo("-", 1) == 1;
  }

  lemma {:induction false} CodesFrom15()
    ensures IsWritten(15) && IsWritten(16) && IsWritten(17) && IsWritten(18) && IsWritten(19)
  {
    NumbersFrom15();
    WrittenAt(15, 'P', CharPattern(6, 4), ".--.");
    WrittenAt(16, 'Q', CharPattern(13, 4), "--.-");
    WrittenAt(17, 'R', CharPattern(2, 3), ".-.");
    WrittenAt(18, 'S', CharPattern(0, 3), "...");
    WrittenAt(19, 'T', CharPattern(1, 1), "-");
  }

  lemma {:induction false} NumbersFrom20()
    ensures Number("..-") == 1
    ensures Number("...-") == 1
    ensures Number(".--") == 3
    ensures Number("-..-") == 9
    ensures Number("-.--") == 11
  {
    assert NumberUpTo("..-", 3) == 1;
    assert NumberUpTo("...-", 4) == 1;
    assert NumberUpTo(".--", 3) == 3;
    assert NumberUpTo("-..-", 4) == 9;
    assert NumberUpTo("-.--", 4) == 11;
  }

  lemma {:induction false} CodesFrom20()
    ensures IsWritten(20) && IsWritten(21) && IsWritten(22) && IsWritten(23) && IsWritten(24)
  {
    NumbersFrom20();
    WrittenAt(20, 'U', CharPattern(1, 3), "..-");
    WrittenAt(21, 'V', CharPattern(1, 4), "...-");
    WrittenAt(22, 'W', CharPattern(3, 3), ".--");
    WrittenAt(23, 'X', CharPattern(9, 4), "-..-");
    WrittenAt(24, 'Y', CharPattern(11, 4), "-.--");
  }

  lemma {:induction false} NumbersFrom25()
    ensures Number("--..") == 12
    ensures Number("-----") == 31
    ensures Number(".----") == 15
    ensures Number("..---") == 7
    ensures Number("...--") == 3
  {
    assert NumberUpTo("--..", 4) == 12;
    assert NumberUpTo("-----", 5) == 31;
    assert NumberUpTo(".----", 5) == 15;
    assert NumberUpTo("..---", 5) == 7;
    assert NumberUpTo("...--", 5) == 3;
  }

  lemma {:induction false} CodesFrom25()
    ensures IsWritten(25) && IsWritten(26) && IsWritten(27) && IsWritten(28) && IsWritten(29)
  {
    NumbersFrom25();
    WrittenAt(25, 'Z', CharPattern(12, 4), "--..");
    WrittenAt(26, '0', CharPattern(31, 5), "-----");
    WrittenAt(27, '1', CharPattern(15, 5), ".----");
    WrittenAt(28, '2', CharPattern(7, 5), "..---");
    WrittenAt(29, '3', CharPattern(3, 5), "...--");
  }

  lemma {:induction false} NumbersFrom30()
    ensures Number("....-") == 1
    ensures Number(".....") == 0
    ensures Number("-....") == 16
    ensures Number("--...") == 24
    ensures Number("---..") == 28
  {
    assert NumberUpTo("....-", 5) == 1;
    assert NumberUpTo(".....", 5) == 0;
    assert NumberUpTo("-....", 5) == 16;
    assert NumberUpTo("--...", 5) == 24;
    assert NumberUpTo("---..", 5) == 28;
  }

  lemma {:induction false} CodesFrom30()
    ensures IsWritten(30) && IsWritten(31) && IsWritten(32) && IsWritten(33) && IsWritten(34)
  {
    NumbersFrom30();
    WrittenAt(30, '4', CharPattern(1, 5), "....-");
    WrittenAt(31, '5', CharPattern(0, 5), ".....");
    WrittenAt(32, '6', CharPattern(16, 5), "-....");
    WrittenAt(33, '7', CharPattern(24, 5), "--...");
    WrittenAt(34, '8', CharPattern(28, 5), "---..");
  }

  lemma {:induction false} NumbersFrom35()
    ensures Number("----.") == 30
    ensures Number("..--..") == 12
    ensures Number("-..-.") == 18
    ensures Number("--..--") == 51
    ensures Number(".-.-.-") == 21
  {
    assert NumberUpTo("----.", 5) == 30;
    assert NumberUpTo("..--..", 6) == 12;
    assert NumberUpTo("-..-.", 5) == 18;
    assert NumberUpTo("--..--", 6) == 51;
    assert NumberUpTo(".-.-.-", 6) == 21;
  }

  lemma {:induction false} CodesFrom35()
    ensures IsWritten(35) && IsWritten(36) && IsWritten(37) && IsWritten(38) && IsWritten(39)
  {
    NumbersFrom35();
    WrittenAt(35, '9', CharPattern(30, 5), "----.");
    WrittenAt(36, '?', CharPattern(12, 6), "..--..");
    WrittenAt(37, '/', CharPattern(18, 5), "-..-.");
    WrittenAt(38, ',', CharPattern(51, 6), "--..--");
    WrittenAt(39, '.', CharPattern(21, 6), ".-.-.-");
  }

  lemma {:induction false} NumbersFrom40()
    ensures Number("-...-") == 17
    ensures Number("-....-") == 33
    ensures Number(".----.") == 30
    ensures Number("-.--.") == 22
    ensures Number("-.--.-") == 45
  {
    assert NumberUpTo("-...-", 5) == 17;
    assert NumberUpTo("-....-", 6) == 33;
    assert NumberUpTo(".----.", 6) == 30;
    assert NumberUpTo("-.--.", 5) == 22;
    assert NumberUpTo("-.--.-", 6) == 45;
  }

  lemma {:induction false} CodesFrom40()
    ensures IsWritten(40) && IsWritten(41) && IsWritten(42) && IsWritten(43) && IsWritten(44)
  {
    NumbersFrom40();
    WrittenAt(40, '=', CharPattern(17, 5), "-...-");
    WrittenAt(41, '-', CharPattern(33, 6), "-....-");
    WrittenAt(42, '\"', CharPattern(30, 6), ".----.");
    WrittenAt(43, '(', CharPattern(22, 5), "-.--.");
    WrittenAt(44, ')', CharPattern(45, 6), "-.--.-");
  }

  lemma {:induction false} NumbersFrom45()
    ensures Number("...-.-") == 5
    ensures Number(".-.-.") == 10
    ensures Number("-...-.-") == 69
    ensures Number(".-...") == 8
    ensures Number("-.--.") == 22
  {
    assert NumberUpTo("...-.-", 6) == 5;
    assert NumberUpTo(".-.-.", 5) == 10;
    assert NumberUpTo("-...-.-", 7) == 69;
    assert NumberUpTo(".-...", 5) == 8;
    assert NumberUpTo("-.--.", 5) == 22;
  }

  lemma {:induction false} CodesFrom45()
    ensures IsWritten(45) && IsWritten(46) && IsWritten(47) && IsWritten(48) && IsWritten(49)
  {
    NumbersFrom45();
    WrittenAt(45, '$', CharPattern(5, 6), "...-.-");
    WrittenAt(46, '+', CharPattern(10, 5), ".-.-.");
    WrittenAt(47, '[', CharPattern(69, 7), "-...-.-");
    WrittenAt(48, '{', CharPattern(8, 5), ".-...");
    WrittenAt(49, '}', CharPattern(22, 5), "-.--.");
  }

  lemma {:induction false} EntryIsWritten(i: nat)
    requires i < ENTRIES
    ensures IsWritten(i)
  {
    match i
    case 0 => CodesFrom0();
    case 1 => CodesFrom0();
    case 2 => CodesFrom0();
    case 3 => CodesFrom0();
    case 4 => CodesFrom0();
    case 5 => CodesFrom5();
    case 6 => CodesFrom5();
    case 7 => CodesFrom5();
    case 8 => CodesFrom5();
    case 9 => CodesFrom5();
    case 10 => CodesFrom10();
    case 11 => CodesFrom10();
    case 12 => CodesFrom10();
    case 13 => CodesFrom10();
    case 14 => CodesFrom10();
    case 15 => CodesFrom15();
    case 16 => CodesFrom15();
    case 17 => CodesFrom15();
    case 18 => CodesFrom15();
    case 19 => CodesFrom15();
    case 20 => CodesFrom20();
    case 21 => CodesFrom20();
    case 22 => CodesFrom20();
    case 23 => CodesFrom20();
    case 24 => CodesFrom20();
    case 25 => CodesFrom25();
    case 26 => CodesFrom25();
    case 27 => CodesFrom25();
    case 28 => CodesFrom25();
    case 29 => CodesFrom25();
    case 30 => CodesFrom30();
    case 31 => CodesFrom30();
    case 32 => CodesFrom30();
    case 33 => CodesFrom30();
    case 34 => CodesFrom30();
    case 35 => CodesFrom35();
    case 36 => CodesFrom35();
    case 37 => CodesFrom35();
    case 38 => CodesFrom35();
    case 39 => CodesFrom35();
    case 40 => CodesFrom40();
    case 41 => CodesFrom40();
    case 42 => CodesFrom40();
    case 43 => CodesFrom40();
    case 44 => CodesFrom40();
    case 45 => CodesFrom45();
    case 46 => CodesFrom45();
    case 47 => CodesFrom45();
    case 48 => CodesFrom45();
    case 49 => CodesFrom45();
  }

  /** The place of a character with a code. */
  ghost function Place(c: char): nat {
    match c
    case 'A' => 0 case 'B' => 1 case 'C' => 2 case 'D' => 3 case 'E' => 4 case 'F' => 5 case 'G' => 6 case 'H' => 7 case 'I' => 8 case 'J' => 9
    case 'K' => 10 case 'L' => 11 case 'M' => 12 case 'N' => 13 case 'O' => 14 case 'P' => 15 case 'Q' => 16 case 'R' => 17 case 'S' => 18 case 'T' => 19
    case 'U' => 20 case 'V' => 21 case 'W' => 22 case 'X' => 23 case 'Y' => 24 case 'Z' => 25 case '0' => 26 case '1' => 27 case '2' => 28 case '3' => 29
    case '4' => 30 case '5' => 31 case '6' => 32 case '7' => 33 case '8' => 34 case '9' => 35 case '?' => 36 case '/' => 37 case ',' => 38 case '.' => 39
    case '=' => 40 case '-' => 41 case '\"' => 42 case '(' => 43 case ')' => 44 case '$' => 45 case '+' => 46 case '[' => 47 case '{' => 48 case '}' => 49
    case _ => 50
  }

  lemma {:induction false} WrittenHasPlace(c: char)
    requires Written(c) != ""
    ensures Place(c) < ENTRIES && Entry(Place(c)).0 == c
  {
  }

  /** Exactly the characters with a code are in the table, each with its own. */
  lemma {:induction false} PatternIsWritten(c: char)
    ensures Pattern(c) == if Written(c) == "" then None else Some(CharPattern(Number(Written(c)), |Written(c)|))
  {
    var i := PlaceOfChar(c);
    if i < ENTRIES {
      EntryIsWritten(i);
    } else if Written(c) != "" {
      WrittenHasPlace(c);
      assert false;
    }
  }

  /** What a character byte makes the keyer send. */
  lemma {:induction false} KeyedAsWritten(c: uint8, wpm: nat)
    ensures var code := Written(c as char);
      CharMarks(c, wpm)
      == if c as char == '|' then [HalfGap] else if code == "" then [WordSpace] else MarksOf(code, wpm) + [CharSpace]
  {
    PatternIsWritten(c as char);
    NumberKeys(Written(c as char), wpm);
  }
}
