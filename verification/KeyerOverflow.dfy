/** What a byte does to the framing of a full ring: the oldest byte is forgotten, and what follows is read anew. */
module KeyerOverflow {
  import opened FixedWidth
  import opened Wrappers
  import opened CharPatterns
  import opened WinKeyer
  import opened Ring
  import opened Keyer
  import opened KeyerFraming

  /**
   * A second reading of s that starts lead bytes into it comes to agree with the first. It goes wrong where it
   * takes an argument below 0x18 for a command; an argument that it takes for a buffered command costs it the bytes
   * that follow; at the end both readings must lack as many bytes.
   */
  predicate CatchesUp(s: seq<uint8>, lead: nat)
    decreases |s|, if lead < |s| then |s| - lead else 0
  {
    if lead == 0 then true
    else if |s| <= lead then Missing(s) == Some(lead - |s|)
    else if ItemLength(s[0]) <= lead then CatchesUp(s[ItemLength(s[0])..], lead - ItemLength(s[0]))
    else 0x18 <= s[lead] && CatchesUp(s, lead + ItemLength(s[lead]))
  }

  /** What the second reading still lacks at the end, if it met no byte that is never buffered. */
  function MissingFrom(s: seq<uint8>, lead: nat): Option<nat> {
    if lead <= |s| then Missing(s[lead..]) else Some(lead - |s|)
  }

  lemma {:induction false} CatchesUpExactly(s: seq<uint8>, lead: nat)
    requires Missing(s).Some?
    ensures CatchesUp(s, lead) <==> MissingFrom(s, lead) == Missing(s)
    decreases |s|, if lead < |s| then |s| - lead else 0
  {
    if lead == 0 {
      assert s[0..] == s;
    } else if lead == |s| {
      assert s[lead..] == [];
    } else if lead < |s| {
      var n := ItemLength(s[0]);
      if n <= lead {
        CatchesUpExactly(s[n..], lead - n);
        assert s[n..][lead - n..] == s[lead..];
      } else if 0x18 <= s[lead] {
        SecondReads(s, lead);
        CatchesUpExactly(s, lead + ItemLength(s[lead]));
      }
    }
  }

  lemma {:induction false} SecondReads(s: seq<uint8>, lead: nat)
    requires lead < |s| && 0x18 <= s[lead]
    ensures MissingFrom(s, lead) == MissingFrom(s, lead + ItemLength(s[lead]))
  {
    var t, n := s[lead..], ItemLength(s[lead]);
    if n <= |t| {
      assert t[n..] == s[lead + n..];
    }
  }

  /** A byte stored in a full ring keeps the framing exactly if the reading that lost its first byte catches up. */
  lemma {:induction false} OverflowExactly(k: KeyerState, c: uint8)
    requires Framed(k) && IsStored(k, c) && |k.ring| == RING_CAPACITY
    ensures Framed(Fed(k, c)) <==> CatchesUp(k.ring + [c], 1)
  {
    var s := k.ring + [c];
    MissingSnoc(k.ring, c);
    CatchesUpExactly(s, 1);
    assert s[1..] == k.ring[1..] + [c];
    assert Fed(k, c).ring == s[1..];
  }

  /** An overflow that forgets a character keeps the framing. */
  lemma {:induction false} CharacterOverflow(k: KeyerState, c: uint8)
    requires Framed(k) && IsStored(k, c)
    requires |k.ring| == RING_CAPACITY && !IsCommand(k.ring[0])
    ensures Framed(Fed(k, c))
  {
    OverflowExactly(k, c);
  }

  /** The ring holds 160 bytes; the next one drives out the oldest. */
  lemma {:induction false} RingHolds(k: KeyerState, c: uint8)
    requires IsStored(k, c)
    ensures |k.ring| <= 160 && Fed(k, c).ring == (if |k.ring| == 160 then k.ring[1..] else k.ring) + [c]
  {
  }

  /** The reading that lost the first byte of a speed command, by the speed that it finds in its place. */
  lemma {:induction false} SpeedLost(s: seq<uint8>)
    requires |s| > 3 && s[0] == BUFFERED_SPEED
    ensures CatchesUp(s, 1) <==>
      0x18 <= s[1] && (0x1E <= s[1] || CatchesUp(s[2..], if s[1] == 0x1B then 2 else 1))
  {
    if 0x18 <= s[1] {
      var lead := 1 + ItemLength(s[1]);
      assert CatchesUp(s, 1) <==> CatchesUp(s, lead);
      assert CatchesUp(s, lead) <==> CatchesUp(s[2..], lead - 2);
    }
  }

  /**
   * An overflow that forgets a speed command loses the framing if the speed is below 24, and keeps it from 30 on.
   * In between the speed is taken for a command that swallows the next byte, or two, and it depends on the items
   * behind in the same way.
   */
  lemma {:induction false} CommandOverflow(k: KeyerState, c: uint8)
    requires Framed(k) && IsStored(k, c)
    requires |k.ring| == RING_CAPACITY && k.ring[0] == BUFFERED_SPEED
    ensures var speed, behind := k.ring[1], k.ring[2..] + [c];
      (Framed(Fed(k, c)) <==> 24 <= speed && (30 <= speed || CatchesUp(behind, if speed == 27 then 2 else 1)))
      && (speed < 24 ==> Missing(Fed(k, c).ring) == None)
  {
    OverflowExactly(k, c);
    SpeedLost(k.ring + [c]);
    assert (k.ring + [c])[2..] == k.ring[2..] + [c];
    assert Fed(k, c).ring[0] == k.ring[1];
  }

  // ---- what is keyed then ----

  lemma {:induction false} OverflowRing(k: KeyerState, c: uint8)
    requires IsStored(k, c) && |k.ring| == RING_CAPACITY
    ensures Fed(k, c).ring == (k.ring + [c])[1..]
  {
    assert (k.ring + [c])[1..] == k.ring[1..] + [c];
  }

  /** A forgotten command for a speed from 32 on leaves a character that nobody sent. */
  lemma {:induction false} FastSpeedIsKeyed(k: KeyerState, c: uint8, wpm: nat)
    requires IsStored(k, c) && |k.ring| == RING_CAPACITY
    requires k.ring[0] == BUFFERED_SPEED && 0x20 <= k.ring[1]
    ensures StreamMarks(Fed(k, c).ring, wpm) == CharMarks(k.ring[1], wpm) + StreamMarks((k.ring + [c])[2..], wpm)
  {
    OverflowRing(k, c);
    FirstMarks(Fed(k, c).ring, wpm);
    assert (k.ring + [c])[1..][1..] == (k.ring + [c])[2..];
  }

  /** At the default speed the framing survives if a character is next, but that character is lost with the speed. */
  lemma {:induction false} DefaultSpeedSwallows(k: KeyerState, c: uint8, wpm: nat)
    requires Framed(k) && IsStored(k, c) && |k.ring| == RING_CAPACITY
    requires k.ring[0] == BUFFERED_SPEED && k.ring[1] == 24 && !IsCommand(k.ring[2])
    ensures Framed(Fed(k, c)) && StreamMarks(Fed(k, c).ring, wpm) == StreamMarks((k.ring + [c])[3..], wpm)
  {
    var behind := k.ring[2..] + [c];
    CommandOverflow(k, c);
    assert behind[0] == k.ring[2] && CatchesUp(behind, 1);
    OverflowRing(k, c);
    FirstMarks(Fed(k, c).ring, wpm);
    assert (k.ring + [c])[1..][2..] == (k.ring + [c])[3..];
    assert [] + StreamMarks((k.ring + [c])[3..], wpm) == StreamMarks((k.ring + [c])[3..], wpm);
  }
}
