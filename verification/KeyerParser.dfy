/** The parser of the keyer sees the bytes and nothing else: ticks and paddles leave it alone. */
module KeyerParser {
  import opened FixedWidth
  import opened Wrappers
  import opened WinKeyer
  import opened Keyer
  import opened KeyerFraming

  /** What a byte does to the parser. */
  function ParserAfter(p: Parser, c: uint8): Parser {
    if p.waiting > 0 then TakenArgument(p, c)
    else if p.remaining == 0 && IsCommand(c) && !IsBuffered(c) then TakenImmediate(p, c)
    else p.(remaining := RemainingAfter(p.remaining, c))
  }

  function ParserAfterAll(p: Parser, bytes: seq<uint8>): Parser
    decreases |bytes|
  {
    if bytes == [] then p else ParserAfterAll(ParserAfter(p, bytes[0]), bytes[1..])
  }

  /** The bytes of a run. */
  function BytesOf(evs: seq<Event>): seq<uint8> {
    if evs == [] then []
    else (if evs[0].Byte? then [evs[0].c] else []) + BytesOf(evs[1..])
  }

  lemma {:induction false} ExecutedKeepsParser(k: KeyerState)
    ensures Executed(k).d.parser == k.d.parser
  {
  }

  lemma {:induction false} FedParser(k: KeyerState, c: uint8)
    ensures Fed(k, c).d.parser == ParserAfter(k.d.parser, c)
  {
    var p := k.d.parser;
    if p.waiting > 0 {
      ExecutedKeepsParser(WithParser(k, TakenArgument(p, c)));
    } else if IsImmediate(k, c) {
      ExecutedKeepsParser(WithParser(k, TakenImmediate(p, c)));
    }
  }

  lemma {:induction false} PlayerKeepsParser(k: KeyerState, p: Paddles)
    ensures UpdatedWinkeyer(k, p).0.d.parser == k.d.parser
  {
  }

  lemma {:induction false} OthersKeepParser(k: KeyerState, now: int, p: Paddles)
    requires k.d.state != Winkeyer
    ensures Updated(k, now, p).0.d.parser == k.d.parser
  {
  }

  lemma {:induction false} OnceKeepsParser(k: KeyerState, now: int, p: Paddles)
    ensures Once(k, now, p).0.d.parser == k.d.parser
  {
    if k.d.state == Winkeyer {
      PlayerKeepsParser(k, p);
    } else {
      OthersKeepParser(k, now, p);
    }
    var (after, next) := Updated(k, now, p);
    SwitchKeepsParser(after.d, next, now);
  }

  lemma {:induction false} PassesKeepParser(k: KeyerState, now: int, p: Paddles, n: nat)
    ensures Passes(k, now, p, n).d.parser == k.d.parser
  {
    var parser := k.d.parser;
    var inv := (j: KeyerState) => j.d.parser == parser;
    forall j | inv(j)
      ensures inv(Once(j, now, p).0)
    {
      OnceKeepsParser(j, now, p);
    }
    PassesKeep(inv, k, now, p, n);
  }

  /** However bytes and ticks interleave, whatever the paddles, and even if the ring overflows. */
  lemma {:induction false} ParserFollowsBytes(k: KeyerState, evs: seq<Event>)
    ensures Run(k, evs).d.parser == ParserAfterAll(k.d.parser, BytesOf(evs))
    decreases |evs|
  {
    if evs != [] {
      match evs[0] {
        case Byte(c) => FedParser(k, c);
        case Tick(now, p) => PassesKeepParser(k, now, p, MAX_TRANSITIONS_PER_TICK);
      }
      ParserFollowsBytes(Step(k, evs[0]), evs[1..]);
      FirstByte(k.d.parser, evs);
    }
  }

  lemma {:induction false} FirstByte(p: Parser, evs: seq<Event>)
    requires evs != []
    ensures ParserAfterAll(p, BytesOf(evs))
         == ParserAfterAll(if evs[0].Byte? then ParserAfter(p, evs[0].c) else p, BytesOf(evs[1..]))
  {
    if evs[0].Byte? {
      assert BytesOf(evs)[1..] == BytesOf(evs[1..]);
    } else {
      assert BytesOf(evs) == BytesOf(evs[1..]);
    }
  }

  lemma {:induction false} ParserAppend(p: Parser, a: seq<uint8>, b: seq<uint8>)
    ensures ParserAfterAll(p, a + b) == ParserAfterAll(ParserAfterAll(p, a), b)
    decreases |a|
  {
    if a == [] {
      assert a + b == b;
    } else {
      assert (a + b)[1..] == a[1..] + b;
      ParserAppend(ParserAfter(p, a[0]), a[1..], b);
    }
  }

  predicate Resting(p: Parser) {
    p.waiting == 0 && p.remaining == 0
  }

  /** A parser at rest is at rest again behind a whole stream of buffered items. */
  lemma {:induction false} RestsBehindStream(p: Parser, bytes: seq<uint8>, done: seq<uint8>)
    requires p.waiting == 0 && Missing(done) == Some(p.remaining)
    requires Whole(done + bytes)
    ensures Resting(ParserAfterAll(p, bytes))
    decreases |bytes|
  {
    if bytes == [] {
      assert done + [] == done;
    } else {
      var c := bytes[0];
      assert done + bytes == (done + [c]) + bytes[1..];
      MissingPrefix(done + [c], bytes[1..]);
      MissingSnoc(done, c);
      RestsBehindStream(ParserAfter(p, c), bytes[1..], done + [c]);
    }
  }

  /** And behind an immediate command with its argument, or without one. */
  lemma {:induction false} RestsBehindCommand(p: Parser, c: uint8, v: uint8)
    requires Resting(p) && IsCommand(c) && !IsBuffered(c) && ParameterCount(c) <= 1
    ensures Resting(ParserAfterAll(p, if ParameterCount(c) == 1 then [c, v] else [c]))
  {
    var one := ParserAfter(p, c);
    if ParameterCount(c) == 1 {
      assert [c, v][1..] == [v] && [v][1..] == [];
      assert ParserAfterAll(one, [v]) == ParserAfterAll(ParserAfter(one, v), []);
    } else {
      assert [c][1..] == [];
    }
  }
}
