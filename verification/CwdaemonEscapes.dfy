/** What the escape commands do to the keyer. */
module CwdaemonEscapes {
  import opened FixedWidth
  import opened Wrappers
  import opened WinKeyer
  import opened CwDaemon
  import opened CwDaemonBytes
  import opened Ring
  import opened Keyer
  import opened KeyerParser
  import opened CwdaemonServer
  import Morse

  /** A command with one argument, fed to a parser at rest, is executed at once. */
  lemma {:induction false} CommandExecutes(k: KeyerState, command: uint8, argument: uint8) returns (fed: KeyerState)
    requires ParserAtRest(k) && command in {0x02, 0x03, 0x0B}
    ensures fed == FedAll(k, [command, argument]) && ParserAtRest(fed) && fed.ring == k.ring
    ensures fed.d.keyLine == if command == 0x0B then argument == 1 else k.d.keyLine
    ensures fed.d.pace == Repaced(k.d.pace, command, argument)
  {
    var one := Fed(k, command);
    assert one == WithParser(k, TakenImmediate(k.d.parser, command));
    fed := Fed(one, argument);
    assert [command, argument][1..] == [argument] && [argument][1..] == [];
    assert FedAll(one, [argument]) == FedAll(fed, []);
  }

  /** The speed command sets the player, the profile and its timings to one speed, and no key moves. */
  lemma {:induction false} SpeedCommandSets(k: KeyerState, v: uint8)
    requires ParserAtRest(k)
    ensures var after := FedAll(k, [0x02, v]);
      var style := k.d.pace.style.(characterWpm := v as real, farnsworthWpm := v as real);
      && after.d.pace.speedWpm == v && after.d.pace.style == Morse.Adjusted(style)
      && after.d.pace.style.characterWpm == after.d.pace.style.farnsworthWpm == v as real
      && (Morse.Timed(style) ==> after.d.pace.timings == Morse.Timings(style))
      && after.d.keyLine == k.d.keyLine && after.ring == k.ring
  {
    var after := CommandExecutes(k, 0x02, v);
  }

  /** The weighting command sets the weighting, and the speed stays. */
  lemma {:induction false} WeightCommandSets(k: KeyerState, w: uint8)
    requires ParserAtRest(k)
    ensures var after := FedAll(k, [0x03, w]);
      var style := k.d.pace.style.(weighting := w as real);
      && after.d.pace.speedWpm == k.d.pace.speedWpm && after.d.pace.style == Morse.Adjusted(style)
      && after.d.pace.style.weighting == w as real
      && (Morse.Timed(style) ==> after.d.pace.timings == Morse.Timings(style))
      && after.d.keyLine == k.d.keyLine && after.ring == k.ring
  {
    var after := CommandExecutes(k, 0x03, w);
  }

  lemma {:induction false} EscapeIsMessage(command: uint8, digits: seq<uint8>)
    ensures Message(Escape(command, digits)) && Escape(command, digits)[0] == 27 && Escape(command, digits)[1] == command
  {
  }

  /** Command c keys the transmitter, for as many seconds as its number says. */
  lemma {:induction false} ToneLasts(k: KeyerState, t: Tuning, digits: seq<uint8>, speed: uint8, now: int)
    requires ParserAtRest(k) && AllDigits(digits) && digits != [] && DecimalValue(digits) <= 255
    ensures Message(Escape(99, digits))
    ensures var o := Handled(t, Escape(99, digits), speed, now);
      && o.tuning == Tuning(true, now + 1000 * DecimalValue(digits)) && o.flow == Checks
      && FedAll(k, o.bytes).d.keyLine
  {
    EscapeIsMessage(99, digits);
    EscapeNumber(99, digits);
    Tunes(digits, speed);
    var wk := [0x0B, 1, DecimalValue(digits) % 256];
    assert ToWinkeyer(Escape(99, digits), speed) == Some(wk);
    assert wk[..|wk| - 1] == [0x0B, 1];
    var fed := CommandExecutes(k, 0x0B, 1);
  }

  /** Its time ends it, and no moment before does. */
  lemma {:induction false} ToneEndsExactly(k: KeyerState, t: Tuning, now: int)
    requires ParserAtRest(k) && t.on && k.d.keyLine
    ensures FedAll(k, Expired(t, now).0).d.keyLine == Expired(t, now).1.on == (now <= t.until)
  {
    if now > t.until {
      var fed := CommandExecutes(k, 0x0B, 0);
    }
  }

  /** The exit command ends the worker, with nothing sent. The abort command ends a tone at once, and without a tone it
      clears the buffer. */
  lemma {:induction false} AbortAndExit(k: KeyerState, t: Tuning, message: seq<uint8>, speed: uint8, now: int)
    requires ParserAtRest(k) && Message(message) && |message| > 2 && message[0] == 27
    ensures var o := Handled(t, message, speed, now);
      && (message[1] == 53 ==> o == Outcome([], t, Ends))
      && (message[1] == 52 && t.on ==>
            o == Outcome([0x0B, 0], t.(on := false), Continues) && !FedAll(k, o.bytes).d.keyLine)
      && (message[1] == 52 && !t.on ==> o == Outcome([0x0A], t, Checks) && FedAll(k, o.bytes).ring == [])
  {
    if message[1] == 52 {
      OtherEscapes(message, speed);
      var fed := CommandExecutes(k, 0x0B, 0);
      ClearExecutes(k);
    }
  }

  lemma {:induction false} ClearExecutes(k: KeyerState)
    requires ParserAtRest(k)
    ensures FedAll(k, [0x0A]).ring == []
  {
    assert [0x0A][1..] == [];
    assert FedAll(k, [0x0A]) == FedAll(Fed(k, 0x0A), []);
  }

  /** The bytes of the outcome leave player and profile at this speed. */
  predicate PaceAfter(k: KeyerState, o: Outcome, v: int) {
    var pace := FedAll(k, o.bytes).d.pace;
    pace.speedWpm == v && pace.style.characterWpm == v as real
  }

  lemma {:induction false} SpeedMessage(k: KeyerState, t: Tuning, message: seq<uint8>, speed: uint8, now: int, v: uint8)
    requires ParserAtRest(k) && Message(message) && |message| > 2 && message[0] == 27 && message[1] !in {52, 53}
    requires ToWinkeyer(message, speed) == Some([0x02, v])
    ensures PaceAfter(k, Handled(t, message, speed, now), v)
  {
    SpeedCommandSets(k, v);
  }

  /** Command 2 sets the speed of player and profile to its number. */
  lemma {:induction false} SpeedIsSet(k: KeyerState, t: Tuning, digits: seq<uint8>, speed: uint8, now: int)
    requires ParserAtRest(k) && AllDigits(digits) && digits != [] && DecimalValue(digits) <= 255
    ensures Message(Escape(50, digits))
    ensures PaceAfter(k, Handled(t, Escape(50, digits), speed, now), DecimalValue(digits))
  {
    EscapeIsMessage(50, digits);
    SetsSpeed(digits, speed);
    EscapeNumber(50, digits);
    SpeedMessage(k, t, Escape(50, digits), speed, now, DecimalValue(digits));
  }

  /** Command u raises it by its number, from the speed the message is compiled at. */
  lemma {:induction false} SpeedIsRaised(k: KeyerState, t: Tuning, digits: seq<uint8>, speed: uint8, now: int)
    requires ParserAtRest(k) && AllDigits(digits) && digits != [] && speed as int + DecimalValue(digits) <= 255
    ensures Message(Escape(117, digits))
    ensures PaceAfter(k, Handled(t, Escape(117, digits), speed, now), speed as int + DecimalValue(digits))
  {
    EscapeIsMessage(117, digits);
    RaisesSpeed(digits, speed);
    EscapeNumber(117, digits);
    SpeedMessage(k, t, Escape(117, digits), speed, now, speed as int + DecimalValue(digits));
  }

  /** Command d lowers it. */
  lemma {:induction false} SpeedIsLowered(k: KeyerState, t: Tuning, digits: seq<uint8>, speed: uint8, now: int)
    requires ParserAtRest(k) && AllDigits(digits) && digits != [] && DecimalValue(digits) <= speed
    ensures Message(Escape(100, digits))
    ensures PaceAfter(k, Handled(t, Escape(100, digits), speed, now), speed as int - DecimalValue(digits))
  {
    EscapeIsMessage(100, digits);
    LowersSpeed(digits, speed);
    EscapeNumber(100, digits);
    SpeedMessage(k, t, Escape(100, digits), speed, now, speed as int - DecimalValue(digits));
  }
}
