/** The characters the keyer can send (src/keyer/keyer_char_patterns.cpp). */
module CharPatterns {
  import opened Wrappers

  /** The elements of a character, one bit each, the first element most significant: 1 is a dah. */
  datatype CharPattern = CharPattern(data: nat, bits: nat)

  datatype Element = Dit | Dah

  const ENTRIES: nat := 50

  /** char_table, whose last entry is the 50th. */
  function Entry(i: nat): (char, CharPattern) {
    match i
    case 0 => ('A', CharPattern(1, 2))
    case 1 => ('B', CharPattern(8, 4))
    case 2 => ('C', CharPattern(10, 4))
    case 3 => ('D', CharPattern(4, 3))
    case 4 => ('E', CharPattern(0, 1))
    case 5 => ('F', CharPattern(2, 4))
    case 6 => ('G', CharPattern(6, 3))
    case 7 => ('H', CharPattern(0, 4))
    case 8 => ('I', CharPattern(0, 2))
    case 9 => ('J', CharPattern(7, 4))
    case 10 => ('K', CharPattern(5, 3))
    case 11 => ('L', CharPattern(4, 4))
    case 12 => ('M', CharPattern(3, 2))
    case 13 => ('N', CharPattern(2, 2))
    case 14 => ('O', CharPattern(7, 3))
    case 15 => ('P', CharPattern(6, 4))
    case 16 => ('Q', CharPattern(13, 4))
    case 17 => ('R', CharPattern(2, 3))
    case 18 => ('S', CharPattern(0, 3))
    case 19 => ('T', CharPattern(1, 1))
    case 20 => ('U', CharPattern(1, 3))
    case 21 => ('V', CharPattern(1, 4))
    case 22 => ('W', CharPattern(3, 3))
    case 23 => ('X', CharPattern(9, 4))
    case 24 => ('Y', CharPattern(11, 4))
    case 25 => ('Z', CharPattern(12, 4))
    case 26 => ('0', CharPattern(31, 5))
    case 27 => ('1', CharPattern(15, 5))
    case 28 => ('2', CharPattern(7, 5))
    case 29 => ('3', CharPattern(3, 5))
    case 30 => ('4', CharPattern(1, 5))
    case 31 => ('5', CharPattern(0, 5))
    case 32 => ('6', CharPattern(16, 5))
    case 33 => ('7', CharPattern(24, 5))
    case 34 => ('8', CharPattern(28, 5))
    case 35 => ('9', CharPattern(30, 5))
    case 36 => ('?', CharPattern(12, 6))
    case 37 => ('/', CharPattern(18, 5))
    case 38 => (',', CharPattern(51, 6))
    case 39 => ('.', CharPattern(21, 6))
    case 40 => ('=', CharPattern(17, 5))
    case 41 => ('-', CharPattern(33, 6))
    case 42 => ('\"', CharPattern(30, 6))
    case 43 => ('(', CharPattern(22, 5))
    case 44 => (')', CharPattern(45, 6))
    case 45 => ('$', CharPattern(5, 6))
    case 46 => ('+', CharPattern(10, 5))
    case 47 => ('[', CharPattern(69, 7))
    case 48 => ('{', CharPattern(8, 5))
    case _ => ('}', CharPattern(22, 5))
  }

  /** The place of the first key like this from the i-th on, or n. */
  function First<K(==)>(keys: nat -> K, key: K, i: nat, n: nat): (place: nat)
    requires i <= n
    ensures i <= place <= n && (place < n ==> keys(place) == key)
    ensures forall j :: i <= j < place ==> keys(j) != key
    decreases n - i
  {
    if i == n || keys(i) == key then i else First(keys, key, i + 1, n)
  }

  /** The place of the first entry with this character. */
  function PlaceOfChar(c: char): (i: nat)
    ensures i < ENTRIES ==> Entry(i).0 == c
    ensures forall j: nat :: j < i ==> Entry(j).0 != c
  {
    var keys := (i: nat) => Entry(i).0;
    assert forall j: nat {:trigger Entry(j)} :: keys(j) == Entry(j).0;
    First(keys, c, 0, ENTRIES)
  }

  /** The place of the first entry with these elements. */
  function PlaceOfPattern(p: CharPattern): nat { First((i: nat) => Entry(i).1, p, 0, ENTRIES) }

  /** get_char_pattern */
  function Pattern(c: char): Option<CharPattern> {
    if PlaceOfChar(c) < ENTRIES then Some(Entry(PlaceOfChar(c)).1) else None
  }

  /** decode_char: '?' if no character has these elements. */
  function Decoded(p: CharPattern): char {
    if PlaceOfPattern(p) < ENTRIES then Entry(PlaceOfPattern(p)).0 else '?'
  }

  /** data & (1 << i) > 0 */
  predicate Bit(data: nat, i: nat) {
    if i == 0 then data % 2 == 1 else Bit(data / 2, i - 1)
  }

  /** The elements of the low n bits, most significant first. */
  function Elements(data: nat, n: nat): (es: seq<Element>)
    ensures |es| == n
  {
    if n == 0 then [] else [if Bit(data, n - 1) then Dah else Dit] + Elements(data, n - 1)
  }

  lemma {:induction false} PatternsPlayable(c: char)
    requires Pattern(c).Some?
    ensures 1 <= Pattern(c).value.bits <= 7
  {
    PlacesTell(PlaceOfChar(c));
  }

  /** The place of the elements in the table. */
  ghost function PlaceOf(p: CharPattern): nat {
    match p.bits
    case 1 => match p.data { case 0 => 4 case 1 => 19 case _ => 50 }
    case 2 => match p.data { case 1 => 0 case 0 => 8 case 3 => 12 case 2 => 13 case _ => 50 }
    case 3 => match p.data { case 4 => 3 case 6 => 6 case 5 => 10 case 7 => 14 case 2 => 17 case 0 => 18 case 1 => 20 case 3 => 22 case _ => 50 }
    case 4 => match p.data { case 8 => 1 case 10 => 2 case 2 => 5 case 0 => 7 case 7 => 9 case 4 => 11 case 6 => 15 case 13 => 16 case 1 => 21 case 9 => 23 case 11 => 24 case 12 => 25 case _ => 50 }
    case 5 => match p.data { case 31 => 26 case 15 => 27 case 7 => 28 case 3 => 29 case 1 => 30 case 0 => 31 case 16 => 32 case 24 => 33 case 28 => 34 case 30 => 35 case 18 => 37 case 17 => 40 case 22 => 43 case 10 => 46 case 8 => 48 case _ => 50 }
    case 6 => match p.data { case 12 => 36 case 51 => 38 case 21 => 39 case 33 => 41 case 30 => 42 case 45 => 44 case 5 => 45 case _ => 50 }
    case 7 => match p.data { case 69 => 47 case _ => 50 }
    case _ => 50
  }

  /** The elements of each entry tell its place, but for the last, which repeats those of the 44th. */
  lemma {:induction false} PlacesTell(i: nat)
    requires i < ENTRIES
    ensures PlaceOf(Entry(i).1) == if i == 49 then 43 else i
    ensures 1 <= Entry(i).1.bits <= 7 && (Entry(i).0 == '}' <==> i == 49)
  {
    match i
    case 0 => case 1 => case 2 => case 3 => case 4 => case 5 => case 6 => case 7 => case 8 => case 9 =>
    case 10 => case 11 => case 12 => case 13 => case 14 => case 15 => case 16 => case 17 => case 18 => case 19 =>
    case 20 => case 21 => case 22 => case 23 => case 24 => case 25 => case 26 => case 27 => case 28 => case 29 =>
    case 30 => case 31 => case 32 => case 33 => case 34 => case 35 => case 36 => case 37 => case 38 => case 39 =>
    case 40 => case 41 => case 42 => case 43 => case 44 => case 45 => case 46 => case 47 => case 48 => case 49 =>
  }

  lemma {:induction false} FirstIs<K>(keys: nat -> K, key: K, i: nat, n: nat, at: nat)
    requires i <= at < n && keys(at) == key
    requires forall j :: i <= j < at ==> keys(j) != key
    ensures First(keys, key, i, n) == at
  {
  }

  /** The first entry with the elements of the i-th. */
  lemma {:induction false} FirstWithElements(i: nat)
    requires i < ENTRIES
    ensures PlaceOfPattern(Entry(i).1) == PlaceOf(Entry(i).1)
  {
    PlacesTell(i);
    var at := PlaceOf(Entry(i).1);
    Twins(i);
    forall j | 0 <= j < at
      ensures Entry(j).1 != Entry(i).1
    {
      PlacesTell(j);
    }
    FirstIs((j: nat) => Entry(j).1, Entry(i).1, 0, ENTRIES, at);
  }

  lemma {:induction false} Twins(i: nat)
    requires i < ENTRIES
    ensures Entry(if i == 49 then 43 else i).1 == Entry(i).1
  {
  }

  /** Every character can be told from its elements, but for '}', which is sent like '('. */
  lemma {:induction false} DecodesExactly(c: char)
    requires Pattern(c).Some?
    ensures Decoded(Pattern(c).value) == c <==> c != '}'
  {
    var i := PlaceOfChar(c);
    FirstWithElements(i);
    PlacesTell(i);
    PlacesTell(PlaceOf(Entry(i).1));
  }
}
