/** The client worker of the cwdaemon service (src/cwdaemon_server.cpp): it forwards compiled
    messages to the keyer and times the tuning key. */
module CwdaemonServer {
  import opened FixedWidth
  import opened Wrappers
  import opened WinKeyer
  import opened CwDaemon
  import opened Keyer
  import opened KeyerFraming
  import opened KeyerParser

  const KEY_OFF: seq<uint8> := [0x0B, 0]

  /** The worker's variables. */
  datatype Tuning = Tuning(on: bool, until: int)

  /** cw_daemon::is_tuning_command */
  predicate IsTuningCommand(wk: seq<uint8>) {
    |wk| > 2 && wk[0] == 0x0B && wk[1] == 1
  }

  predicate IsEscape(message: seq<uint8>, command: char) {
    |message| > 1 && message[0] == ESCAPE && message[1] as char == command
  }

  /** How the loop goes on after a message: to the check, to the next round, or not at all. */
  datatype Flow = Checks | Continues | Ends

  /** The bytes for the keyer, the worker's variables, and how the loop goes on. */
  datatype Outcome = Outcome(bytes: seq<uint8>, tuning: Tuning, flow: Flow)

  /** What one received message does. The exit command ends the loop, and so does the exception that a
      malformed number in an escape command throws. */
  function Handled(t: Tuning, message: seq<uint8>, speed: uint8, now: int): Outcome
    requires Message(message)
  {
    if IsEscape(message, '5') then Outcome([], t, Ends)
    else if t.on && IsEscape(message, '4') then Outcome(KEY_OFF, t.(on := false), Continues)
    else
      match ToWinkeyer(message, speed)
      case None => Outcome([], t, Ends)
      case Some(wk) =>
        if IsTuningCommand(wk) then
          Outcome(wk[..|wk| - 1], Tuning(true, now + 1000 * (wk[|wk| - 1] as int)), Checks)
        else Outcome(wk, t, Checks)
  }

  /** The check at the end of each round. */
  function Expired(t: Tuning, now: int): (seq<uint8>, Tuning) {
    if t.on && now > t.until then (KEY_OFF, t.(on := false)) else ([], t)
  }

  /** What a round of the loop meets: a message or a timeout, the keyer's speed, and the times at which the clock is read. */
  datatype Round = Round(message: Option<seq<uint8>>, speed: uint8, now: int, checked: int)

  predicate Received(r: Round) { r.message.Some? ==> Message(r.message.value) }

  function Rounded(t: Tuning, r: Round): Outcome
    requires Received(r)
  {
    var o := if r.message.Some? then Handled(t, r.message.value, r.speed, r.now) else Outcome([], t, Checks);
    if o.flow == Checks then
      var (bytes, after) := Expired(o.tuning, r.checked);
      Outcome(o.bytes + bytes, after, Checks)
    else o
  }

  function FedAll(k: KeyerState, bytes: seq<uint8>): KeyerState
    decreases |bytes|
  {
    if bytes == [] then k else FedAll(Fed(k, bytes[0]), bytes[1..])
  }

  lemma {:induction false} FedAllAppend(k: KeyerState, a: seq<uint8>, b: seq<uint8>)
    ensures FedAll(k, a + b) == FedAll(FedAll(k, a), b)
    decreases |a|
  {
    if a == [] {
      assert a + b == b;
    } else {
      assert (a + b)[1..] == a[1..] + b;
      FedAllAppend(Fed(k, a[0]), a[1..], b);
    }
  }

  class ClientWorker {
    const keyer: Keyer
    var tuning: Tuning

    ghost predicate Valid()
      reads this, keyer, keyer.ring, keyer.ring.buf
    {
      keyer.Valid()
    }

    constructor (keyer: Keyer)
      requires keyer.Valid()
      ensures Valid() && this.keyer == keyer && tuning == Tuning(false, 0)
    {
      this.keyer := keyer;
      tuning := Tuning(false, 0);
    }

    method HandleMessage(message: seq<uint8>, speed: uint8, now: int) returns (flow: Flow)
      requires Valid() && Message(message)
      modifies this`tuning, keyer, keyer.ring, keyer.ring.buf
      ensures Valid() && keyer.ring.buf == old(keyer.ring.buf)
      ensures Handled(old(tuning), message, speed, now).tuning == tuning
      ensures Handled(old(tuning), message, speed, now).flow == flow
      ensures keyer.State() == FedAll(old(keyer.State()), Handled(old(tuning), message, speed, now).bytes)
    {
      if IsEscape(message, '5') {
        return Ends;
      }
      if tuning.on && IsEscape(message, '4') {
        Forward(KEY_OFF);
        tuning := tuning.(on := false);
        return Continues;
      }
      var result := Compile(message, speed);
      if result.None? {
        return Ends;
      }
      var wk := result.value;
      if IsTuningCommand(wk) {
        tuning := Tuning(true, now + 1000 * (wk[|wk| - 1] as int));
        wk := wk[..|wk| - 1];
      }
      Forward(wk);
      return Checks;
    }

    method CheckTuning(now: int)
      requires Valid()
      modifies this`tuning, keyer, keyer.ring, keyer.ring.buf
      ensures Valid() && keyer.ring.buf == old(keyer.ring.buf)
      ensures tuning == Expired(old(tuning), now).1
      ensures keyer.State() == FedAll(old(keyer.State()), Expired(old(tuning), now).0)
    {
      if tuning.on && now > tuning.until {
        Forward(KEY_OFF);
        tuning := tuning.(on := false);
      }
    }

    /** One round of the loop; ends is whether it was the last. */
    method DoRound(r: Round) returns (ends: bool)
      requires Valid() && Received(r)
      modifies this`tuning, keyer, keyer.ring, keyer.ring.buf
      ensures Valid() && keyer.ring.buf == old(keyer.ring.buf)
      ensures tuning == Rounded(old(tuning), r).tuning && ends == Rounded(old(tuning), r).flow.Ends?
      ensures keyer.State() == FedAll(old(keyer.State()), Rounded(old(tuning), r).bytes)
    {
      ghost var start := keyer.State();
      ghost var o := if r.message.Some? then Handled(tuning, r.message.value, r.speed, r.now) else Outcome([], tuning, Checks);
      if r.message.Some? {
        var flow := HandleMessage(r.message.value, r.speed, r.now);
        if flow != Checks {
          return flow == Ends;
        }
      }
      FedAllAppend(start, o.bytes, Expired(o.tuning, r.checked).0);
      CheckTuning(r.checked);
      return false;
    }

    method Forward(bytes: seq<uint8>)
      requires Valid()
      modifies keyer, keyer.ring, keyer.ring.buf
      ensures Valid() && keyer.ring.buf == old(keyer.ring.buf)
      ensures keyer.State() == FedAll(old(keyer.State()), bytes)
    {
      ghost var goal := FedAll(keyer.State(), bytes);
      for i := 0 to |bytes|
        invariant Valid() && keyer.ring.buf == old(keyer.ring.buf)
        invariant FedAll(keyer.State(), bytes[i..]) == goal
      {
        assert bytes[i..][1..] == bytes[i + 1..];
        keyer.WinkeyerData(bytes[i]);
      }
    }
  }

  // ---- the parser is at rest between messages ----

  predicate ParserAtRest(k: KeyerState) {
    Resting(k.d.parser)
  }

  lemma {:induction false} ByteStored(k: KeyerState, c: uint8)
    requires k.d.parser.waiting == 0 && MissingAfter(k.d.parser.remaining, c).Some? && |k.ring| < RING_CAPACITY
    ensures var after := Fed(k, c);
      after.ring == k.ring + [c] && after.d.parser.waiting == 0
      && Some(after.d.parser.remaining) == MissingAfter(k.d.parser.remaining, c)
  {
  }

  /** A whole stream is stored in the ring. */
  lemma {:induction false} StreamStored(k: KeyerState, bytes: seq<uint8>, done: seq<uint8>)
    requires k.d.parser.waiting == 0 && Missing(done) == Some(k.d.parser.remaining)
    requires Whole(done + bytes)
    requires |k.ring| + |bytes| <= RING_CAPACITY
    ensures FedAll(k, bytes).ring == k.ring + bytes
    decreases |bytes|
  {
    if bytes == [] {
      assert k.ring + [] == k.ring;
    } else {
      var c := bytes[0];
      assert done + bytes == (done + [c]) + bytes[1..];
      MissingPrefix(done + [c], bytes[1..]);
      MissingSnoc(done, c);
      ByteStored(k, c);
      StreamStored(Fed(k, c), bytes[1..], done + [c]);
      assert (k.ring + [c]) + bytes[1..] == k.ring + bytes;
    }
  }

  lemma {:induction false} FedAllParser(k: KeyerState, bytes: seq<uint8>)
    ensures FedAll(k, bytes).d.parser == ParserAfterAll(k.d.parser, bytes)
    decreases |bytes|
  {
    if bytes != [] {
      FedParser(k, bytes[0]);
      FedAllParser(Fed(k, bytes[0]), bytes[1..]);
    }
  }

  /** The shapes an escape command compiles to. */
  lemma {:induction false} EscapeShapes(message: seq<uint8>, speed: uint8)
    requires Message(message) && message[0] == ESCAPE
    requires CompileEscape(message, speed).Some?
    ensures var wk := CompileEscape(message, speed).value;
      || wk == [] || wk == [0x0A]
      || (|wk| == 2 && wk[0] in {0x02, 0x03})
      || (|wk| == 3 && wk[0] == 0x0B && wk[1] == 1)
  {
  }

  lemma {:induction false} TextIsNoTuning(wk: seq<uint8>)
    requires Whole(wk)
    ensures !IsTuningCommand(wk)
  {
  }

  lemma {:induction false} EscapeRests(p: Parser, message: seq<uint8>, speed: uint8)
    requires Message(message) && message[0] == ESCAPE && Resting(p)
    requires CompileEscape(message, speed).Some?
    ensures var wk := CompileEscape(message, speed).value;
      Resting(ParserAfterAll(p, if IsTuningCommand(wk) then wk[..|wk| - 1] else wk))
  {
    var wk := CompileEscape(message, speed).value;
    EscapeShapes(message, speed);
    if wk == [0x0A] {
      RestsBehindCommand(p, 0x0A, 0);
    } else if |wk| == 2 {
      assert wk == [wk[0], wk[1]];
      RestsBehindCommand(p, wk[0], wk[1]);
    } else if |wk| == 3 {
      assert wk[..2] == [0x0B, 1];
      RestsBehindCommand(p, 0x0B, 1);
    }
  }

  /** Any message of any kind leaves a resting parser at rest, whether or not the ring has room for it. */
  lemma {:induction false} MessageRests(p: Parser, t: Tuning, message: seq<uint8>, speed: uint8, now: int)
    requires Message(message) && Resting(p)
    ensures Resting(ParserAfterAll(p, Handled(t, message, speed, now).bytes))
  {
    var o := Handled(t, message, speed, now);
    if o.flow == Continues {
      RestsBehindCommand(p, 0x0B, 0);
    } else if o.flow == Checks {
      var wk := ToWinkeyer(message, speed).value;
      if message[0] == ESCAPE {
        EscapeRests(p, message, speed);
      } else {
        MessageMeans(message, speed);
        TextIsNoTuning(wk);
        assert [] + wk == wk;
        RestsBehindStream(p, wk, []);
      }
    }
  }

  lemma {:induction false} RoundRests(p: Parser, t: Tuning, r: Round)
    requires Received(r) && Resting(p)
    ensures Resting(ParserAfterAll(p, Rounded(t, r).bytes))
  {
    var o := if r.message.Some? then Handled(t, r.message.value, r.speed, r.now) else Outcome([], t, Checks);
    if r.message.Some? {
      MessageRests(p, t, r.message.value, r.speed, r.now);
    }
    if o.flow == Checks {
      var after := ParserAfterAll(p, o.bytes);
      ParserAppend(p, o.bytes, Expired(o.tuning, r.checked).0);
      RestsBehindCommand(after, 0x0B, 0);
    }
  }

  // ---- the loop ----

  /** The worker after some rounds: its variables, whether it still runs, and all it sent to the keyer. */
  datatype Worker = Worker(tuning: Tuning, running: bool, sent: seq<uint8>)

  const NEW_WORKER := Worker(Tuning(false, 0), true, [])

  function Worked(w: Worker, r: Round): Worker
    requires Received(r)
  {
    if !w.running then w
    else
      var o := Rounded(w.tuning, r);
      Worker(o.tuning, !o.flow.Ends?, w.sent + o.bytes)
  }

  function WorkedAll(w: Worker, rounds: seq<Round>): Worker
    requires forall r <- rounds :: Received(r)
    decreases |rounds|
  {
    if rounds == [] then w else WorkedAll(Worked(w, rounds[0]), rounds[1..])
  }

  lemma {:induction false} RoundsRest(p: Parser, w: Worker, rounds: seq<Round>)
    requires forall r <- rounds :: Received(r)
    requires Resting(ParserAfterAll(p, w.sent))
    ensures Resting(ParserAfterAll(p, WorkedAll(w, rounds).sent))
    decreases |rounds|
  {
    if rounds != [] {
      if w.running {
        RoundRests(ParserAfterAll(p, w.sent), w.tuning, rounds[0]);
        ParserAppend(p, w.sent, Rounded(w.tuning, rounds[0]).bytes);
      }
      RoundsRest(p, Worked(w, rounds[0]), rounds[1..]);
    }
  }

  /**
   * Whatever messages came, and however their bytes and the ticks of the keyer interleave, the parser is at rest
   * when it has the bytes of some whole number of rounds.
   */
  lemma {:induction false} RestsBetweenMessages(k: KeyerState, rounds: seq<Round>, evs: seq<Event>)
    requires ParserAtRest(k) && forall r <- rounds :: Received(r)
    requires BytesOf(evs) == WorkedAll(NEW_WORKER, rounds).sent
    ensures ParserAtRest(Run(k, evs))
  {
    RoundsRest(k.d.parser, NEW_WORKER, rounds);
    ParserFollowsBytes(k, evs);
  }

  // ---- the key line ----

  /** A stream of buffered items does not move the key line. */
  lemma {:induction false} StreamKeepsLine(k: KeyerState, bytes: seq<uint8>, done: seq<uint8>)
    requires k.d.parser.waiting == 0 && Missing(done) == Some(k.d.parser.remaining)
    requires Whole(done + bytes)
    ensures FedAll(k, bytes).d.keyLine == k.d.keyLine
    decreases |bytes|
  {
    if bytes != [] {
      var c := bytes[0];
      assert done + bytes == (done + [c]) + bytes[1..];
      MissingPrefix(done + [c], bytes[1..]);
      MissingSnoc(done, c);
      StreamKeepsLine(Fed(k, c), bytes[1..], done + [c]);
    }
  }

  lemma {:induction false} OneImmediate(k: KeyerState, c: uint8, v: uint8)
    requires ParserAtRest(k) && c in {0x02, 0x03, 0x0B}
    ensures FedAll(k, [c, v]).d.keyLine == if c == 0x0B then v == 1 else k.d.keyLine
  {
    assert [c, v][1..] == [v] && [v][1..] == [];
    var one := Fed(k, c);
    assert one == WithParser(k, TakenImmediate(k.d.parser, c));
    assert FedAll(k, [c, v]) == FedAll(one, [v]) == FedAll(Fed(one, v), []) == Fed(one, v);
  }

  lemma {:induction false} OneClear(k: KeyerState)
    requires ParserAtRest(k)
    ensures FedAll(k, [0x0A]).d.keyLine == k.d.keyLine
  {
    assert FedAll(Fed(k, 0x0A), []) == Fed(k, 0x0A);
  }

  /** What a message does to the key line: before and after are the tuning states of the worker. */
  ghost predicate MovesLine(k: KeyerState, bytes: seq<uint8>, before: bool, after: bool) {
    && (FedAll(k, bytes).d.keyLine == k.d.keyLine || FedAll(k, bytes).d.keyLine == after)
    && (before != after ==> FedAll(k, bytes).d.keyLine == after)
  }

  lemma {:induction false} EscapeMovesLine(k: KeyerState, message: seq<uint8>, speed: uint8, before: bool)
    requires Message(message) && message[0] == ESCAPE && ParserAtRest(k)
    requires CompileEscape(message, speed).Some?
    ensures var wk := CompileEscape(message, speed).value;
      if IsTuningCommand(wk) then MovesLine(k, wk[..|wk| - 1], before, true) else MovesLine(k, wk, before, before)
  {
    var wk := CompileEscape(message, speed).value;
    EscapeShapes(message, speed);
    if wk == [0x0A] {
      OneClear(k);
    } else if |wk| == 2 {
      assert wk == [wk[0], wk[1]];
      OneImmediate(k, wk[0], wk[1]);
    } else if |wk| == 3 {
      assert wk[..2] == [0x0B, 1];
      OneImmediate(k, 0x0B, 1);
    }
  }

  /** The key line is moved by the tuning commands alone: after a message it is down if the worker has started to
      tune, and up if it has stopped. */
  lemma {:induction false} MessageMovesLine(k: KeyerState, t: Tuning, message: seq<uint8>, speed: uint8, now: int)
    requires Message(message) && ParserAtRest(k)
    ensures var o := Handled(t, message, speed, now);
      MovesLine(k, o.bytes, t.on, o.tuning.on)
  {
    var o := Handled(t, message, speed, now);
    if o.flow == Continues {
      OneImmediate(k, 0x0B, 0);
    } else if o.flow == Checks {
      var wk := ToWinkeyer(message, speed).value;
      if message[0] == ESCAPE {
        EscapeMovesLine(k, message, speed, t.on);
      } else {
        MessageMeans(message, speed);
        TextIsNoTuning(wk);
        assert [] + wk == wk;
        StreamKeepsLine(k, wk, []);
      }
    }
  }

  /** The check lifts the key when it finds the time over. */
  lemma {:induction false} TuningEnds(k: KeyerState, t: Tuning, now: int)
    requires ParserAtRest(k) && t.on && now > t.until
    ensures var (bytes, after) := Expired(t, now);
      !after.on && !FedAll(k, bytes).d.keyLine && ParserAtRest(FedAll(k, bytes))
  {
    OneImmediate(k, 0x0B, 0);
    RestsBehindCommand(k.d.parser, 0x0B, 0);
    FedAllParser(k, KEY_OFF);
  }

  // ---- the tuning tone and its time ----

  /** While the worker runs, a tone has its time still before it whenever a round is over. */
  lemma {:induction false} TuningKeepsTime(w: Worker, rounds: seq<Round>)
    requires rounds != [] && forall r <- rounds :: Received(r)
    ensures var after := WorkedAll(w, rounds);
      after.running && after.tuning.on ==> rounds[|rounds| - 1].checked <= after.tuning.until
    decreases |rounds|
  {
    if |rounds| > 1 {
      TuningKeepsTime(Worked(w, rounds[0]), rounds[1..]);
    }
  }

  /** The exit command, or an escape command with a malformed number, comes while the tone is on. */
  predicate EndsInTone(w: Worker, rounds: seq<Round>)
    requires forall r <- rounds :: Received(r)
    decreases |rounds|
  {
    rounds != [] && w.running
    && ((w.tuning.on && Rounded(w.tuning, rounds[0]).flow.Ends?) || EndsInTone(Worked(w, rounds[0]), rounds[1..]))
  }

  lemma {:induction false} StaysEnded(w: Worker, rounds: seq<Round>)
    requires !w.running && forall r <- rounds :: Received(r)
    ensures WorkedAll(w, rounds) == w
    decreases |rounds|
  {
    if rounds != [] {
      StaysEnded(w, rounds[1..]);
    }
  }

  lemma {:induction false} EndsKeepTuning(t: Tuning, r: Round)
    requires Received(r) && Rounded(t, r).flow.Ends?
    ensures Rounded(t, r).tuning == t && Rounded(t, r).bytes == []
  {
  }

  lemma {:induction false} EndedInTone(w: Worker, rounds: seq<Round>)
    requires w.running && forall r <- rounds :: Received(r)
    ensures var after := WorkedAll(w, rounds);
      !after.running && after.tuning.on <==> EndsInTone(w, rounds)
    decreases |rounds|
  {
    if rounds != [] {
      var next := Worked(w, rounds[0]);
      if next.running {
        EndedInTone(next, rounds[1..]);
      } else {
        EndsKeepTuning(w.tuning, rounds[0]);
        StaysEnded(next, rounds[1..]);
      }
    }
  }

  /**
   * The tone outlives its time exactly if the worker ends while it is on: past the last deadline set, the worker has
   * stopped tuning if and only if neither an exit command nor a malformed number came during the tone. ToneShows
   * says what its bytes make of the key line.
   */
  lemma {:induction false} ToneOutlivesExactly(w: Worker, rounds: seq<Round>)
    requires w.running && rounds != [] && forall r <- rounds :: Received(r)
    requires rounds[|rounds| - 1].checked > WorkedAll(w, rounds).tuning.until
    ensures WorkedAll(w, rounds).tuning.on <==> EndsInTone(w, rounds)
  {
    TuningKeepsTime(w, rounds);
    EndedInTone(w, rounds);
  }

  /** After an exit command that comes during the tone nothing more is sent, so the key is not lifted. */
  lemma {:induction false} ExitKeepsTone(w: Worker, r: Round, later: seq<Round>)
    requires w.running && w.tuning.on && Received(r) && forall s <- later :: Received(s)
    requires r.message.Some? && IsEscape(r.message.value, '5')
    ensures var after := WorkedAll(w, [r] + later);
      after.tuning == w.tuning && after.sent == w.sent && !after.running
  {
    EndsKeepTuning(w.tuning, r);
    assert ([r] + later)[1..] == later && w.sent + [] == w.sent;
    StaysEnded(Worked(w, r), later);
  }

  lemma {:induction false} IdleTick(k: KeyerState, now: int)
    requires k.d.state == Idle && Rested(k.d) && !k.d.enabled && k.ring == []
    ensures var after := Ticked(k, now, RELEASED);
      after.d.state == Idle && Rested(after.d) && !after.d.enabled && after.ring == [] && after.d.keyLine == k.d.keyLine
  {
    assert Polled(k.d, RELEASED) == k.d;
    var (after, settled) := Once(k, now, RELEASED);
    PassAdvances(k, after, settled, now, RELEASED, MAX_TRANSITIONS_PER_TICK);
  }

  /** Nor do the ticks of an idle keyer lift it, however long they go on. */
  lemma {:induction false} ToneStaysOn(k: KeyerState, evs: seq<Event>)
    requires k.d.state == Idle && Rested(k.d) && !k.d.enabled && k.ring == []
    requires forall ev <- evs :: ev.Tick? && ev.paddles == RELEASED
    ensures Run(k, evs).d.keyLine == k.d.keyLine
    decreases |evs|
  {
    if evs != [] {
      IdleTick(k, evs[0].now);
      ToneStaysOn(Step(k, evs[0]), evs[1..]);
    }
  }

  lemma {:induction false} RoundMovesLine(k: KeyerState, t: Tuning, r: Round)
    requires Received(r) && ParserAtRest(k) && k.d.keyLine == t.on
    ensures FedAll(k, Rounded(t, r).bytes).d.keyLine == Rounded(t, r).tuning.on
  {
    var o := if r.message.Some? then Handled(t, r.message.value, r.speed, r.now) else Outcome([], t, Checks);
    if r.message.Some? {
      MessageMovesLine(k, t, r.message.value, r.speed, r.now);
      MessageRests(k.d.parser, t, r.message.value, r.speed, r.now);
    }
    if o.flow == Checks {
      var mid := FedAll(k, o.bytes);
      FedAllParser(k, o.bytes);
      FedAllAppend(k, o.bytes, Expired(o.tuning, r.checked).0);
      if o.tuning.on && r.checked > o.tuning.until {
        TuningEnds(mid, o.tuning, r.checked);
      }
    }
  }

  /** The bytes of the worker put the key line down while it tunes and up when it stops, as long as the keyer itself
      does not move it. */
  lemma {:induction false} ToneShows(k: KeyerState, w: Worker, rounds: seq<Round>)
    requires forall r <- rounds :: Received(r)
    requires ParserAtRest(FedAll(k, w.sent)) && FedAll(k, w.sent).d.keyLine == w.tuning.on
    ensures FedAll(k, WorkedAll(w, rounds).sent).d.keyLine == WorkedAll(w, rounds).tuning.on
    decreases |rounds|
  {
    if rounds != [] {
      if w.running {
        var fed, bytes := FedAll(k, w.sent), Rounded(w.tuning, rounds[0]).bytes;
        RoundMovesLine(fed, w.tuning, rounds[0]);
        RoundRests(fed.d.parser, w.tuning, rounds[0]);
        FedAllParser(fed, bytes);
        FedAllAppend(k, w.sent, bytes);
      }
      ToneShows(k, Worked(w, rounds[0]), rounds[1..]);
    }
  }
}
