/** The buffered half of the WinKeyer protocol: what a stream of bytes in the ring means. */
module WinKeyer {
  import opened FixedWidth
  import opened Wrappers
  import opened Sequences
  import opened CharPatterns

  const BUFFERED_SPEED: uint8 := 0x1C
  const HALF_GAP: uint8 := '|' as int

  /** winkey_commands_parameter_count */
  function ParameterCount(c: uint8): (n: nat)
    requires IsCommand(c)
    ensures n <= 15
  {
    if c == 0x0F then 15
    else if c == 0x05 then 3
    else if c == 0x04 || c == 0x1B then 2
    else if c in {0x07, 0x08, 0x0A, 0x13, 0x15, 0x1E, 0x1F} then 0
    else 1
  }

  predicate IsCommand(c: uint8) {
    c <= 0x1F
  }

  predicate IsBuffered(c: uint8) {
    0x18 <= c <= 0x1F
  }

  /** What the keyer does with the key line and in the pauses, in order: an element at a speed, the
      space that ends a character, a space between words, a half-dit gap. */
  datatype Mark = Keyed(element: Element, wpm: nat) | CharSpace | WordSpace | HalfGap

  function KeyedMarks(es: seq<Element>, wpm: nat): (ms: seq<Mark>)
    ensures |ms| == |es|
  {
    if es == [] then [] else [Keyed(es[0], wpm)] + KeyedMarks(es[1..], wpm)
  }

  /** What a character byte means at a speed. */
  function CharMarks(c: uint8, wpm: nat): seq<Mark> {
    if c == HALF_GAP then [HalfGap]
    else
      match Pattern(c as char)
      case None => [WordSpace]
      case Some(p) => KeyedMarks(Elements(p.data, p.bits), wpm) + [CharSpace]
  }

  /** The number of bytes of the item at the front: a character, or a command and its arguments. */
  function ItemLength(c: uint8): (n: nat)
    ensures n > 0
  {
    if IsCommand(c) then 1 + ParameterCount(c) else 1
  }

  /** What the keyer does for a stream of buffered items, starting at a speed. */
  function StreamMarks(bytes: seq<uint8>, wpm: nat): seq<Mark>
    decreases |bytes|
  {
    if bytes == [] || |bytes| < ItemLength(bytes[0]) then []
    else
      var rest := bytes[ItemLength(bytes[0])..];
      if bytes[0] == BUFFERED_SPEED then StreamMarks(rest, bytes[1])
      else if IsCommand(bytes[0]) then StreamMarks(rest, wpm)
      else CharMarks(bytes[0], wpm) + StreamMarks(rest, wpm)
  }

  /** The speed after a stream of buffered items. */
  function StreamSpeed(bytes: seq<uint8>, wpm: nat): nat
    decreases |bytes|
  {
    if bytes == [] || |bytes| < ItemLength(bytes[0]) then wpm
    else
      var rest := bytes[ItemLength(bytes[0])..];
      StreamSpeed(rest, if bytes[0] == BUFFERED_SPEED then bytes[1] else wpm)
  }

  /** How many bytes the last item of a stream still lacks; None if some item starts with a byte
      that is never buffered. */
  function Missing(bytes: seq<uint8>): Option<nat>
    decreases |bytes|
  {
    if bytes == [] then Some(0)
    else if IsCommand(bytes[0]) && !IsBuffered(bytes[0]) then None
    else if |bytes| < ItemLength(bytes[0]) then Some(ItemLength(bytes[0]) - |bytes|)
    else Missing(bytes[ItemLength(bytes[0])..])
  }

  /** A stream of whole buffered items. */
  predicate Whole(bytes: seq<uint8>) {
    Missing(bytes) == Some(0)
  }

  /** What a byte at the end of a stream does to its framing. */
  function MissingAfter(missing: nat, c: uint8): Option<nat> {
    if missing > 0 then Some(missing - 1)
    else if IsBuffered(c) then Some(ParameterCount(c))
    else if IsCommand(c) then None
    else Some(0)
  }

  lemma {:induction false} MissingSnoc(bytes: seq<uint8>, c: uint8)
    requires Missing(bytes).Some?
    ensures Missing(bytes + [c]) == MissingAfter(Missing(bytes).value, c)
    decreases |bytes|
  {
    if bytes == [] {
      assert (bytes + [c])[1..] == [];
    } else if |bytes| >= ItemLength(bytes[0]) {
      var n := ItemLength(bytes[0]);
      MissingSnoc(bytes[n..], c);
      assert (bytes + [c])[n..] == bytes[n..] + [c];
    } else if |bytes| + 1 == ItemLength(bytes[0]) {
      assert (bytes + [c])[|bytes| + 1..] == [];
    }
  }

  lemma {:induction false} MissingAppend(a: seq<uint8>, b: seq<uint8>)
    requires Whole(a)
    ensures Missing(a + b) == Missing(b)
    decreases |a|
  {
    if a == [] {
      assert a + b == b;
    } else {
      var n := ItemLength(a[0]);
      MissingAppend(a[n..], b);
      assert (a + b)[n..] == a[n..] + b;
    }
  }

  lemma {:induction false} SpeedAppend(a: seq<uint8>, b: seq<uint8>, wpm: nat)
    requires Whole(a)
    ensures StreamSpeed(a + b, wpm) == StreamSpeed(b, StreamSpeed(a, wpm))
    decreases |a|
  {
    if a == [] {
      assert a + b == b;
    } else {
      var n := ItemLength(a[0]);
      SpeedAppend(a[n..], b, if a[0] == BUFFERED_SPEED then a[1] else wpm);
      assert (a + b)[n..] == a[n..] + b;
    }
  }

  /** The speed behind the first item, and the marks of that item. */
  function ItemSpeed(bytes: seq<uint8>, wpm: nat): nat
    requires bytes != [] && |bytes| >= ItemLength(bytes[0])
  {
    if bytes[0] == BUFFERED_SPEED then bytes[1] else wpm
  }

  function ItemMarks(bytes: seq<uint8>, wpm: nat): seq<Mark>
    requires bytes != []
  {
    if IsCommand(bytes[0]) then [] else CharMarks(bytes[0], wpm)
  }

  lemma {:induction false} FirstMarks(bytes: seq<uint8>, wpm: nat)
    requires bytes != [] && |bytes| >= ItemLength(bytes[0])
    ensures StreamMarks(bytes, wpm)
         == ItemMarks(bytes, wpm) + StreamMarks(bytes[ItemLength(bytes[0])..], ItemSpeed(bytes, wpm))
  {
  }

  lemma {:induction false} FirstMarksOf(a: seq<uint8>, b: seq<uint8>, wpm: nat)
    requires a != [] && |a| >= ItemLength(a[0])
    ensures StreamMarks(a + b, wpm) == ItemMarks(a, wpm) + StreamMarks(a[ItemLength(a[0])..] + b, ItemSpeed(a, wpm))
  {
    FirstMarks(a + b, wpm);
    assert (a + b)[ItemLength(a[0])..] == a[ItemLength(a[0])..] + b;
  }

  /** A whole stream followed by another: first one, then the other at the speed reached. */
  lemma {:induction false} MarksAppend(a: seq<uint8>, b: seq<uint8>, wpm: nat)
    requires Whole(a)
    ensures StreamMarks(a + b, wpm) == StreamMarks(a, wpm) + StreamMarks(b, StreamSpeed(a, wpm))
    decreases |a|
  {
    if a == [] {
      assert a + b == b;
    } else {
      var rest := a[ItemLength(a[0])..];
      var speed := ItemSpeed(a, wpm);
      FirstMarks(a, wpm);
      FirstMarksOf(a, b, wpm);
      MarksAppend(rest, b, speed);
      Regroup(ItemMarks(a, wpm), StreamMarks(rest, speed), StreamMarks(b, StreamSpeed(rest, speed)));
    }
  }

  /** A stream that goes wrong stays wrong. */
  lemma {:induction false} MissingPrefix(a: seq<uint8>, b: seq<uint8>)
    requires Missing(a + b).Some?
    ensures Missing(a).Some?
    decreases |a|
  {
    if a != [] && |a| >= ItemLength(a[0]) {
      var n := ItemLength(a[0]);
      assert (a + b)[n..] == a[n..] + b;
      MissingPrefix(a[n..], b);
    }
  }
}
