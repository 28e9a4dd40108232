/**
 * What the rigctld server does with one client's bytes: the read and write buffers of rigctld_client and
 * the functions that change them (src/rigctld_server.cpp). A byte is a char; the rig is left open, and what
 * it makes a command answer is handed in.
 */
module RigctldFraming {
  import opened Wrappers
  import opened Sequences
  import opened StringUtil

  /** rigctld_client. */
  datatype Client = Client(fd: int, readBuffer: string, writeBuffer: string)

  /** What one command sent back, and whether it ended in an exception. */
  datatype Answer = Answer(lines: seq<string>, threw: bool)

  /** recv: an error, the end of the stream, or bytes. */
  datatype Recv = Failed | Ended | Bytes(bytes: string)

  /**
   * What poll reports of a client, and what the calls then made for it return: rig answers the commands of
   * this turn in order, flushed is how much the write of a quit command takes and written that of the
   * write for POLLOUT, if it does not fail.
   */
  datatype Turn = Turn(
    error: bool, readable: bool, writable: bool,
    recv: Recv, connected: bool, rig: nat -> Answer, flushed: Option<nat>, written: Option<nat>)

  /** A client after a turn, what the turn did, and whether the client is kept. */
  datatype Served = Served(
    client: Client, bytes: string, commands: seq<string>, answered: string, sent: string, open: bool, quit: bool)

  /** A received chunk is appended as a C string: it ends at its first NUL. */
  function Visible(bytes: string): string {
    if bytes == "" || bytes[0] == '\0' then "" else [bytes[0]] + Visible(bytes[1..])
  }

  predicate IsQuit(command: string) { Trim(command) in ["q", "Q"] }

  /** The complete lines of a stream. */
  function Lines(s: string): seq<string>
    decreases |s|
  {
    match Find(s, "\n", 0)
    case None => []
    case Some(i) => [s[..i]] + Lines(s[i + 1..])
  }

  /** What follows the last complete line. */
  function Tail(s: string): string
    decreases |s|
  {
    match Find(s, "\n", 0)
    case None => s
    case Some(i) => Tail(s[i + 1..])
  }

  lemma {:induction false} LinesAndTail(s: string)
    ensures Split(s, "\n") == Lines(s) + [Tail(s)]
    decreases |s|
  {
    var found := Find(s, "\n", 0);
    if found.Some? {
      var rest := s[found.value + 1..];
      LinesAndTail(rest);
      Regroup([s[..found.value]], Lines(rest), [Tail(rest)]);
    }
  }

  ghost predicate HasQuit(lines: seq<string>) { exists k :: 0 <= k < |lines| && IsQuit(lines[k]) }

  /** The lines up to the first quit, that one included. */
  function UpToQuit(lines: seq<string>): (commands: seq<string>)
    ensures commands <= lines
  {
    if lines == [] then []
    else if IsQuit(lines[0]) then [lines[0]]
    else [lines[0]] + UpToQuit(lines[1..])
  }

  /** The commands that a stream holds. */
  function Commands(s: string): seq<string> { UpToQuit(Lines(s)) }

  /** Responses as they go on the wire. */
  function Wire(responses: seq<string>): string {
    if responses == [] then "" else Wire(responses[..|responses| - 1]) + responses[|responses| - 1] + "\n"
  }

  /** The responses to one command; an exception adds an error report. */
  function Responses(answer: Answer): seq<string> {
    answer.lines + if answer.threw then ["RPRT -1"] else []
  }

  /** write: as much of the front of a buffer as is taken. */
  function Taken(buffer: string, written: Option<nat>): (n: nat)
    ensures n <= |buffer|
  {
    if written.None? then 0 else if written.value > |buffer| then |buffer| else written.value
  }

  function Written(client: Client, written: Option<nat>): Client {
    client.(writeBuffer := client.writeBuffer[Taken(client.writeBuffer, written)..])
  }

  /** The command loop of read_from_client, of which k commands are done. */
  function Handle(client: Client, rig: nat -> Answer, k: nat, flushed: Option<nat>): Served
    decreases |client.readBuffer|
  {
    match Find(client.readBuffer, "\n", 0)
    case None => Served(client, "", [], "", "", true, false)
    case Some(i) =>
      var command := client.readBuffer[..i];
      if IsQuit(command) then
        var answered := client.writeBuffer + Wire(["RPRT 0"]);
        var n := Taken(answered, flushed);
        Served(client.(writeBuffer := answered[n..]), "", [command], Wire(["RPRT 0"]), answered[..n], false, true)
      else
        var text := Wire(Responses(rig(k)));
        var rest := client.(readBuffer := client.readBuffer[i + 1..], writeBuffer := client.writeBuffer + text);
        var more := Handle(rest, rig, k + 1, flushed);
        more.(commands := [command] + more.commands, answered := text + more.answered)
  }

  /** read_from_client. */
  function Read(client: Client, turn: Turn): Served {
    match turn.recv
    case Failed => Served(client, "", [], "", "", false, false)
    case Ended => Served(client, "", [], "", "", false, false)
    case Bytes(bytes) =>
      var filled := client.(readBuffer := client.readBuffer + Visible(bytes));
      if turn.connected then Handle(filled, turn.rig, 0, turn.flushed).(bytes := bytes)
      else Served(filled, bytes, [], "", "", true, false)
  }

  /** One client's part of a round of the work loop. */
  function Serve(client: Client, turn: Turn): Served {
    if turn.error then Served(client, "", [], "", "", false, false)
    else
      var read := if turn.readable then Read(client, turn) else Served(client, "", [], "", "", true, false);
      if !turn.writable then read
      else
        var buffer := read.client.writeBuffer;
        read.(client := Written(read.client, turn.written),
              sent := read.sent + buffer[..Taken(buffer, turn.written)],
              open := read.open && (buffer == "" || turn.written.Some?))
  }

  lemma {:induction false} FirstLine(s: string, i: nat)
    requires Find(s, "\n", 0) == Some(i)
    ensures Lines(s) == [s[..i]] + Lines(s[i + 1..]) && Tail(s) == Tail(s[i + 1..])
  {
  }

  lemma {:induction false} FirstLineOf(a: string, b: string, i: nat)
    requires Find(a, "\n", 0) == Some(i)
    ensures Lines(a + b) == [a[..i]] + Lines(a[i + 1..] + b) && Tail(a + b) == Tail(a[i + 1..] + b)
  {
    FindInFront(a, b, "\n");
    assert (a + b)[..i] == a[..i] && (a + b)[i + 1..] == a[i + 1..] + b;
    FirstLine(a + b, i);
  }

  lemma {:induction false} LinesAppend(a: string, b: string)
    ensures Lines(a + b) == Lines(a) + Lines(Tail(a) + b)
    ensures Tail(a + b) == Tail(Tail(a) + b)
    decreases |a|
  {
    var found := Find(a, "\n", 0);
    if found.Some? {
      var line, rest := a[..found.value], a[found.value + 1..];
      FirstLineOf(a, b, found.value);
      FirstLine(a, found.value);
      LinesAppend(rest, b);
      Regroup([line], Lines(rest), Lines(Tail(rest) + b));
    }
  }

  lemma {:induction false} TailHasNoLine(s: string)
    ensures Lines(Tail(s)) == [] && Tail(Tail(s)) == Tail(s)
    decreases |s|
  {
    var found := Find(s, "\n", 0);
    if found.Some? {
      TailHasNoLine(s[found.value + 1..]);
    }
  }

  lemma {:induction false} UpToQuitAppend(a: seq<string>, b: seq<string>)
    ensures UpToQuit(a + b) == if HasQuit(a) then UpToQuit(a) else a + UpToQuit(b)
  {
    if a == [] {
      assert a + b == b;
    } else {
      assert (a + b)[1..] == a[1..] + b;
      UpToQuitAppend(a[1..], b);
      assert HasQuit(a) <==> IsQuit(a[0]) || HasQuit(a[1..]) by {
        if !IsQuit(a[0]) && HasQuit(a) {
          var k :| 0 <= k < |a| && IsQuit(a[k]);
          assert a[k] == a[1..][k - 1];
        }
        if HasQuit(a[1..]) {
          var k :| 0 <= k < |a[1..]| && IsQuit(a[1..][k]);
          assert a[k + 1] == a[1..][k];
        }
      }
    }
  }

  /** The command loop takes the commands of the buffer, and leaves what is behind the last complete line. */
  lemma {:induction false} HandleTakesCommands(client: Client, rig: nat -> Answer, k: nat, flushed: Option<nat>)
    ensures var served := Handle(client, rig, k, flushed);
      served.commands == Commands(client.readBuffer)
      && served.open == !served.quit && served.quit == HasQuit(Lines(client.readBuffer))
      && (served.open ==> served.client.readBuffer == Tail(client.readBuffer))
    decreases |client.readBuffer|
  {
    var found := Find(client.readBuffer, "\n", 0);
    if found.Some? {
      var command := client.readBuffer[..found.value];
      var rest := client.readBuffer[found.value + 1..];
      assert Lines(client.readBuffer) == [command] + Lines(rest);
      UpToQuitAppend([command], Lines(rest));
      assert IsQuit(command) ==> IsQuit(Lines(client.readBuffer)[0]);
      if !IsQuit(command) {
        var text := Wire(Responses(rig(k)));
        HandleTakesCommands(
          client.(readBuffer := rest, writeBuffer := client.writeBuffer + text), rig, k + 1, flushed);
        if HasQuit(Lines(client.readBuffer)) {
          var j :| 0 <= j < |Lines(client.readBuffer)| && IsQuit(Lines(client.readBuffer)[j]);
          assert Lines(client.readBuffer)[j] == Lines(rest)[j - 1];
        }
        if HasQuit(Lines(rest)) {
          var j :| 0 <= j < |Lines(rest)| && IsQuit(Lines(rest)[j]);
          assert Lines(client.readBuffer)[j + 1] == Lines(rest)[j];
        }
      }
    }
  }

  /** What was sent and what is left are what there was and the answers, in order. */
  ghost predicate Moves(client: Client, served: Served) {
    served.sent + served.client.writeBuffer == client.writeBuffer + served.answered
  }

  lemma {:induction false} QuitConserves(client: Client, rig: nat -> Answer, k: nat, flushed: Option<nat>, pos: nat)
    requires Find(client.readBuffer, "\n", 0) == Some(pos) && IsQuit(client.readBuffer[..pos])
    ensures Moves(client, Handle(client, rig, k, flushed))
  {
    var answered := client.writeBuffer + Wire(["RPRT 0"]);
    var n := Taken(answered, flushed);
    assert answered[..n] + answered[n..] == answered;
  }

  lemma {:induction false} StepConserves(client: Client, text: string, more: Served)
    requires Moves(client.(writeBuffer := client.writeBuffer + text), more)
    ensures Moves(client, more.(answered := text + more.answered))
  {
    Regroup(client.writeBuffer, text, more.answered);
  }

  /** No byte of an answer is lost, repeated or moved. */
  lemma {:induction false} HandleConserves(client: Client, rig: nat -> Answer, k: nat, flushed: Option<nat>)
    ensures Moves(client, Handle(client, rig, k, flushed))
    decreases |client.readBuffer|
  {
    var found := Find(client.readBuffer, "\n", 0);
    if found.Some? {
      if IsQuit(client.readBuffer[..found.value]) {
        QuitConserves(client, rig, k, flushed, found.value);
      } else {
        var text := Wire(Responses(rig(k)));
        var rest := client.(readBuffer := client.readBuffer[found.value + 1..],
                            writeBuffer := client.writeBuffer + text);
        HandleConserves(rest, rig, k + 1, flushed);
        StepConserves(client, text, Handle(rest, rig, k + 1, flushed));
      }
    }
  }

  /** What a command makes the client be sent. */
  function Reply(command: string, answer: Answer): string {
    if IsQuit(command) then Wire(["RPRT 0"]) else Wire(Responses(answer))
  }

  function Replies(commands: seq<string>, rig: nat -> Answer, k: nat): string {
    if commands == [] then "" else Reply(commands[0], rig(k)) + Replies(commands[1..], rig, k + 1)
  }

  lemma {:induction false} RepliesCons(command: string, commands: seq<string>, rig: nat -> Answer, k: nat)
    ensures Replies([command] + commands, rig, k) == Reply(command, rig(k)) + Replies(commands, rig, k + 1)
  {
    assert ([command] + commands)[1..] == commands;
  }

  /** Each command was answered once, in the order of the commands. */
  ghost predicate Answered(served: Served, rig: nat -> Answer, k: nat) {
    served.answered == Replies(served.commands, rig, k)
  }

  lemma {:induction false} QuitAnswers(client: Client, rig: nat -> Answer, k: nat, flushed: Option<nat>, pos: nat)
    requires Find(client.readBuffer, "\n", 0) == Some(pos) && IsQuit(client.readBuffer[..pos])
    ensures Answered(Handle(client, rig, k, flushed), rig, k)
  {
    var command := client.readBuffer[..pos];
    RepliesCons(command, [], rig, k);
    assert [command] + [] == [command];
  }

  lemma {:induction false} StepAnswers(command: string, more: Served, rig: nat -> Answer, k: nat)
    requires !IsQuit(command) && Answered(more, rig, k + 1)
    ensures Answered(more.(commands := [command] + more.commands,
                           answered := Wire(Responses(rig(k))) + more.answered), rig, k)
  {
    RepliesCons(command, more.commands, rig, k);
  }

  lemma {:induction false} HandleAnswers(client: Client, rig: nat -> Answer, k: nat, flushed: Option<nat>)
    ensures Answered(Handle(client, rig, k, flushed), rig, k)
    decreases |client.readBuffer|
  {
    var found := Find(client.readBuffer, "\n", 0);
    if found.Some? {
      var command := client.readBuffer[..found.value];
      if IsQuit(command) {
        QuitAnswers(client, rig, k, flushed, found.value);
      } else {
        var rest := client.(readBuffer := client.readBuffer[found.value + 1..],
                            writeBuffer := client.writeBuffer + Wire(Responses(rig(k))));
        HandleAnswers(rest, rig, k + 1, flushed);
        StepAnswers(command, Handle(rest, rig, k + 1, flushed), rig, k);
      }
    }
  }

  /** What was received plays no part in what is sent. */
  lemma {:induction false} FilledMoves(client: Client, filled: Client, served: Served, bytes: string)
    requires filled.writeBuffer == client.writeBuffer && Moves(filled, served)
    ensures Moves(client, served.(bytes := bytes))
  {
  }

  lemma {:induction false} ReadConserves(client: Client, turn: Turn)
    ensures Moves(client, Read(client, turn))
  {
    if turn.recv.Bytes? {
      var filled := client.(readBuffer := client.readBuffer + Visible(turn.recv.bytes));
      HandleConserves(filled, turn.rig, 0, turn.flushed);
      FilledMoves(client, filled, Handle(filled, turn.rig, 0, turn.flushed), turn.recv.bytes);
    }
  }

  lemma {:induction false} Moved(sent: string, buffer: string, n: nat)
    requires n <= |buffer|
    ensures (sent + buffer[..n]) + buffer[n..] == sent + buffer
  {
    Regroup(sent, buffer[..n], buffer[n..]);
    assert buffer[..n] + buffer[n..] == buffer;
  }

  lemma {:induction false} ServeConserves(client: Client, turn: Turn)
    ensures Moves(client, Serve(client, turn))
  {
    if !turn.error {
      ReadConserves(client, turn);
      var read := if turn.readable then Read(client, turn) else Served(client, "", [], "", "", true, false);
      var buffer := read.client.writeBuffer;
      assert read.sent + buffer == client.writeBuffer + read.answered;
      Moved(read.sent, buffer, Taken(buffer, turn.written));
    }
  }

  /** A connection with its history: bytes received, those seen, commands, responses, bytes sent. */
  datatype Talk = Talk(
    client: Client, received: string, visible: string, commands: seq<string>, answered: string, sent: string,
    open: bool, quit: bool)

  /** A connection when it is accepted. */
  function Accepted(fd: int): Talk {
    Talk(Client(fd, "", ""), "", "", [], "", "", true, false)
  }

  /** A client that is not kept gets no further turn. */
  function After(talk: Talk, turn: Turn): Talk {
    if !talk.open then talk
    else
      var served := Serve(talk.client, turn);
      Talk(served.client, talk.received + served.bytes, talk.visible + Visible(served.bytes),
           talk.commands + served.commands, talk.answered + served.answered, talk.sent + served.sent,
           served.open, served.quit)
  }

  function Run(talk: Talk, turns: seq<Turn>): Talk
    decreases |turns|
  {
    if turns == [] then talk else Run(After(talk, turns[0]), turns[1..])
  }

  /** Every answer byte is sent or still to be sent, in order. */
  ghost predicate Conserved(talk: Talk) { talk.sent + talk.client.writeBuffer == talk.answered }

  /** The lines seen are the commands interpreted and those that wait for the rig. */
  ghost predicate Accounted(talk: Talk) {
    if talk.quit then !talk.open && talk.commands == Commands(talk.visible) && HasQuit(Lines(talk.visible))
    else
      Lines(talk.visible) == talk.commands + Lines(talk.client.readBuffer)
      && Tail(talk.visible) == Tail(talk.client.readBuffer)
      && !HasQuit(talk.commands)
  }

  lemma {:induction false} AfterConserves(talk: Talk, turn: Turn)
    requires Conserved(talk)
    ensures Conserved(After(talk, turn))
  {
    if talk.open {
      ServeConserves(talk.client, turn);
      var served := Serve(talk.client, turn);
      Regroup(talk.sent, served.sent, served.client.writeBuffer);
      Regroup(talk.sent, talk.client.writeBuffer, served.answered);
    }
  }

  lemma {:induction false} Grows(talk: Talk, more: string)
    requires Accounted(talk) && !talk.quit
    ensures Lines(talk.visible + more) == talk.commands + Lines(talk.client.readBuffer + more)
    ensures Tail(talk.visible + more) == Tail(talk.client.readBuffer + more)
  {
    LinesAppend(talk.visible, more);
    LinesAppend(talk.client.readBuffer, more);
    Regroup(talk.commands, Lines(talk.client.readBuffer), Lines(Tail(talk.visible) + more));
  }

  lemma {:induction false} NoQuitAppend(a: seq<string>, b: seq<string>)
    requires !HasQuit(a) && !HasQuit(b)
    ensures !HasQuit(a + b)
  {
  }

  lemma {:induction false} QuitBehind(a: seq<string>, b: seq<string>)
    requires HasQuit(b)
    ensures HasQuit(a + b)
  {
    var k :| 0 <= k < |b| && IsQuit(b[k]);
    assert (a + b)[|a| + k] == b[k];
  }

  lemma {:induction false} UpToQuitWhole(lines: seq<string>)
    requires !HasQuit(lines)
    ensures UpToQuit(lines) == lines
  {
    UpToQuitAppend(lines, []);
    assert lines + [] == lines;
  }

  lemma {:induction false} AfterAccounts(talk: Talk, turn: Turn)
    requires Accounted(talk)
    ensures Accounted(After(talk, turn))
  {
    if talk.open {
      var next := After(talk, turn);
      assert talk.visible + "" == talk.visible && talk.commands + [] == talk.commands;
      if !turn.error && turn.readable && turn.recv.Bytes? {
        var bytes := Visible(turn.recv.bytes);
        var buffer := talk.client.readBuffer + bytes;
        Grows(talk, bytes);
        if turn.connected {
          HandleTakesCommands(talk.client.(readBuffer := buffer), turn.rig, 0, turn.flushed);
          UpToQuitAppend(talk.commands, Lines(buffer));
          TailHasNoLine(buffer);
          if HasQuit(Lines(buffer)) {
            QuitBehind(talk.commands, Lines(buffer));
          } else {
            UpToQuitWhole(Lines(buffer));
            NoQuitAppend(talk.commands, Lines(buffer));
            assert next.commands + [] == next.commands;
          }
        }
      }
    }
  }

  /** In every run of a connection, what was sent and what is to be sent are the responses. */
  lemma {:induction false} RunConserves(talk: Talk, turns: seq<Turn>)
    requires Conserved(talk)
    ensures Conserved(Run(talk, turns))
    decreases |turns|
  {
    if turns != [] {
      AfterConserves(talk, turns[0]);
      RunConserves(After(talk, turns[0]), turns[1..]);
    }
  }

  lemma {:induction false} RunAccounts(talk: Talk, turns: seq<Turn>)
    requires Accounted(talk)
    ensures Accounted(Run(talk, turns))
    decreases |turns|
  {
    if turns != [] {
      AfterAccounts(talk, turns[0]);
      RunAccounts(After(talk, turns[0]), turns[1..]);
    }
  }

  /**
   * However recv cuts the stream, and whether or not the rig is there meanwhile, the commands interpreted
   * and those left in the buffer are the lines of the stream up to the first quit.
   */
  lemma {:induction false} ChunksDoNotMatter(fd: int, turns: seq<Turn>)
    ensures var talk := Run(Accepted(fd), turns);
      Commands(talk.visible)
      == talk.commands + (if talk.quit then [] else Commands(talk.client.readBuffer))
  {
    RunAccounts(Accepted(fd), turns);
    var talk := Run(Accepted(fd), turns);
    UpToQuitAppend(talk.commands, Lines(talk.client.readBuffer));
  }

  lemma {:induction false} NothingWaits(talk: Talk, turn: Turn)
    requires turn.connected && (!talk.quit ==> Lines(talk.client.readBuffer) == [])
    requires talk.quit ==> !talk.open
    ensures !After(talk, turn).quit ==> Lines(After(talk, turn).client.readBuffer) == []
  {
    if talk.open && !turn.error && turn.readable && turn.recv.Bytes? {
      var buffer := talk.client.readBuffer + Visible(turn.recv.bytes);
      HandleTakesCommands(talk.client.(readBuffer := buffer), turn.rig, 0, turn.flushed);
      TailHasNoLine(buffer);
    }
  }

  /** While the rig is connected nothing waits, so the commands are those of the stream, as far as it came. */
  lemma {:induction false} ConnectedRun(talk: Talk, turns: seq<Turn>)
    requires Accounted(talk) && (!talk.quit ==> Lines(talk.client.readBuffer) == [])
    requires forall turn <- turns :: turn.connected
    ensures var after := Run(talk, turns);
      after.commands == Commands(after.visible) && after.quit == HasQuit(Lines(after.visible))
    decreases |turns|
  {
    if turns == [] {
      UpToQuitAppend(talk.commands, []);
      assert talk.commands + [] == talk.commands;
    } else {
      AfterAccounts(talk, turns[0]);
      NothingWaits(talk, turns[0]);
      ConnectedRun(After(talk, turns[0]), turns[1..]);
    }
  }

  lemma {:induction false} VisibleExactly(bytes: string)
    ensures |Visible(bytes)| <= |bytes|
    ensures Visible(bytes) == bytes <==> '\0' !in bytes
  {
    if bytes != "" && bytes[0] != '\0' {
      VisibleExactly(bytes[1..]);
      assert bytes == [bytes[0]] + bytes[1..];
      assert Visible(bytes) == bytes ==> Visible(bytes)[1..] == bytes[1..];
    }
  }

  lemma {:induction false} AfterSees(talk: Talk, turn: Turn)
    ensures var next := After(talk, turn);
      |talk.visible| <= |talk.received| ==> |next.visible| <= |next.received|
    ensures var next := After(talk, turn);
      |talk.visible| <= |talk.received| && (talk.visible == talk.received <==> '\0' !in talk.received)
      ==> (next.visible == next.received <==> '\0' !in next.received)
  {
    if talk.open {
      var bytes := Serve(talk.client, turn).bytes;
      VisibleExactly(bytes);
      if |talk.visible| <= |talk.received| && talk.visible + Visible(bytes) == talk.received + bytes {
        assert |talk.visible| == |talk.received|;
        assert (talk.visible + Visible(bytes))[..|talk.visible|] == talk.visible;
        assert (talk.received + bytes)[..|talk.visible|] == talk.received;
        assert (talk.visible + Visible(bytes))[|talk.visible|..] == Visible(bytes);
        assert (talk.received + bytes)[|talk.visible|..] == bytes;
      }
    }
  }

  /** The stream seen is the stream received exactly if no NUL was received. */
  lemma {:induction false} SeesAllExactly(talk: Talk, turns: seq<Turn>)
    requires |talk.visible| <= |talk.received|
    requires talk.visible == talk.received <==> '\0' !in talk.received
    ensures var after := Run(talk, turns);
      after.visible == after.received <==> '\0' !in after.received
    decreases |turns|
  {
    if turns != [] {
      AfterSees(talk, turns[0]);
      SeesAllExactly(After(talk, turns[0]), turns[1..]);
    }
  }

  /** The bytes that arrive from a client, read or not. */
  function Offered(turns: seq<Turn>): string {
    if turns == [] then ""
    else
      var turn := turns[0];
      (if !turn.error && turn.readable && turn.recv.Bytes? then turn.recv.bytes else "") + Offered(turns[1..])
  }

  /** What is received is what arrives, up to where the connection ends. */
  lemma {:induction false} ReceivesPrefix(talk: Talk, turns: seq<Turn>) returns (unread: string)
    ensures Run(talk, turns).received + unread == talk.received + Offered(turns)
    ensures Run(talk, turns).open ==> unread == ""
    decreases |turns|
  {
    if turns == [] || !talk.open {
      unread := Offered(turns);
      StaysClosed(talk, turns);
    } else {
      var next := After(talk, turns[0]);
      if next.open {
        unread := ReceivesPrefix(next, turns[1..]);
      } else {
        unread := Offered(turns[1..]);
        StaysClosed(next, turns[1..]);
      }
      ServeReceives(talk.client, turns[0]);
      Regroup(talk.received, Serve(talk.client, turns[0]).bytes, Offered(turns[1..]));
    }
  }

  lemma {:induction false} ServeReceives(client: Client, turn: Turn)
    ensures Serve(client, turn).bytes
         == if !turn.error && turn.readable && turn.recv.Bytes? then turn.recv.bytes else ""
  {
  }

  lemma {:induction false} StaysClosed(talk: Talk, turns: seq<Turn>)
    ensures turns == [] || !talk.open ==> Run(talk, turns) == talk
    decreases |turns|
  {
    if turns != [] && !talk.open {
      StaysClosed(talk, turns[1..]);
    }
  }

  /**
   * The commands of a connected client are those of its bytes up to the first quit, however recv cuts
   * them, unless the connection is lost before.
   */
  lemma {:induction false} CommandsOfTheBytes(fd: int, turns: seq<Turn>)
    requires forall turn <- turns :: turn.connected
    requires '\0' !in Offered(turns)
    requires Run(Accepted(fd), turns).open || Run(Accepted(fd), turns).quit
    ensures Run(Accepted(fd), turns).commands == Commands(Offered(turns))
  {
    var after := Run(Accepted(fd), turns);
    ConnectedRun(Accepted(fd), turns);
    SeesAllExactly(Accepted(fd), turns);
    RunAccounts(Accepted(fd), turns);
    var unread := ReceivesPrefix(Accepted(fd), turns);
    assert after.received + unread == Offered(turns);
    LinesAppend(after.received, unread);
    UpToQuitAppend(Lines(after.received), Lines(Tail(after.received) + unread));
    assert !after.quit ==> after.received == Offered(turns);
  }

  function Arrival(bytes: string): Turn {
    Turn(false, true, false, Bytes(bytes), true, (k: nat) => Answer([], false), None, None)
  }

  lemma {:induction false} LineFeedAt(s: string, i: int)
    ensures OccursAt(s, "\n", i) <==> 0 <= i < |s| && s[i] == '\n'
  {
    OccursIs(s, "\n", i);
    assert 0 <= i < |s| ==> s[i..i + 1] == [s[i]];
  }

  lemma {:induction false} OneLine(s: string)
    requires '\n' !in s
    ensures Lines(s) == [] && Tail(s) == s
    ensures Lines(s + "\n") == [s]
  {
    assert forall i :: OccursAt(s, "\n", i) <==> 0 <= i < |s| && s[i] == '\n' by {
      forall i { LineFeedAt(s, i); }
    }
    var whole := Find(s + "\n", "\n", 0);
    LineFeedAt(s + "\n", |s|);
    LineFeedAt(s + "\n", whole.value);
    assert whole == Some(|s|);
    assert (s + "\n")[|s| + 1..] == "" && (s + "\n")[..|s|] == s;
    assert Find("", "\n", 0) == None;
    assert Split("", "\n") == [""];
    assert Split(s + "\n", "\n") == [s] + [""];
  }

  lemma {:induction false} Arrives(talk: Talk, bytes: string)
    requires talk.open
    ensures var next := After(talk, Arrival(bytes));
      next.visible == talk.visible + Visible(bytes) && next.received == talk.received + bytes
      && next.commands == talk.commands + Commands(talk.client.readBuffer + Visible(bytes))
      && next.open == !HasQuit(Lines(talk.client.readBuffer + Visible(bytes)))
      && (next.open ==> next.client.readBuffer == Tail(talk.client.readBuffer + Visible(bytes)))
  {
    var buffer := talk.client.readBuffer + Visible(bytes);
    HandleTakesCommands(talk.client.(readBuffer := buffer), Arrival(bytes).rig, 0, None);
  }

  lemma {:induction false} SeesUpToNul(front: string, rest: string)
    requires '\0' !in front
    ensures Visible(front + "\0" + rest) == front
  {
    if front != "" {
      SeesUpToNul(front[1..], rest);
      assert (front + "\0" + rest)[1..] == front[1..] + "\0" + rest;
    }
  }

  /** A chunk with a NUL and then a line feed makes no command of the line feed. */
  lemma {:induction false} NulHidesLine(talk: Talk, front: string, rest: string)
    requires talk.open && talk.client.readBuffer == "" && '\0' !in front && '\n' !in front
    ensures var next := After(talk, Arrival(front + "\0" + rest));
      next.commands == talk.commands && next.received == talk.received + (front + "\0" + rest)
      && next.open && next.client.readBuffer == front
  {
    SeesUpToNul(front, rest);
    OneLine(front);
    assert "" + front == front;
    Arrives(talk, front + "\0" + rest);
    assert talk.commands + [] == talk.commands;
  }

  lemma {:induction false} LineArrives(talk: Talk, rest: string)
    requires talk.open && '\n' !in talk.client.readBuffer && '\0' !in rest && '\n' !in rest
    ensures var next := After(talk, Arrival(rest + "\n"));
      next.commands == talk.commands + [talk.client.readBuffer + rest] && next.received == talk.received + (rest + "\n")
  {
    var front := talk.client.readBuffer;
    VisibleExactly(rest + "\n");
    Arrives(talk, rest + "\n");
    Regroup(front, rest, "\n");
    OneLine(front + rest);
  }

  lemma {:induction false} SameBytes(a: string, b: string)
    ensures "" + (a + b) == ("" + (a + "")) + b
  {
    assert a + "" == a && "" + a == a;
  }

  /** With a NUL it matters how recv cuts the stream: the line in the second half of a chunk is lost. */
  lemma {:induction false} NulDependsOnChunks(fd: int, front: string, rest: string)
    requires '\0' !in front && '\n' !in front && '\0' !in rest && '\n' !in rest
    ensures var whole := After(Accepted(fd), Arrival(front + "\0" + (rest + "\n")));
      var halves := After(After(Accepted(fd), Arrival(front + "\0" + "")), Arrival(rest + "\n"));
      whole.received == halves.received && whole.commands == [] && halves.commands == [front + rest]
  {
    var first := After(Accepted(fd), Arrival(front + "\0" + ""));
    NulHidesLine(Accepted(fd), front, rest + "\n");
    NulHidesLine(Accepted(fd), front, "");
    LineArrives(first, rest);
    SameBytes(front + "\0", rest + "\n");
  }

  // ---- what goes over the wire ----

  /** Each response goes out with a line feed behind it. */
  lemma {:induction false} WireIsJoined(responses: seq<string>)
    ensures Wire(responses) == Join(responses + [""], "\n")
  {
    if responses == [] {
      assert responses + [""] == [""];
    } else {
      var front, last := responses[..|responses| - 1], responses[|responses| - 1];
      WireIsJoined(front);
      JoinEnd(front, last, "\n");
      assert responses == front + [last];
      Regroup(Wire(front), last, "\n");
    }
  }

  /** What a client is sent for a command: its responses, and an error line if the command threw; for a quit one line. */
  lemma {:induction false} ReplyBytes(command: string, answer: Answer)
    ensures Reply(command, answer)
         == if IsQuit(command) then "RPRT 0\n"
            else Join(answer.lines + [""], "\n") + if answer.threw then "RPRT -1\n" else ""
  {
    WireIsJoined(answer.lines);
    if IsQuit(command) {
      OnlyLine("RPRT 0");
    } else if answer.threw {
      OnlyLine("RPRT -1");
      MoreLines(answer.lines, "RPRT -1");
    } else {
      assert answer.lines + [] == answer.lines;
    }
  }

  lemma {:induction false} OnlyLine(line: string)
    ensures Wire([line]) == line + "\n"
  {
    assert [line][..0] == [];
    assert Wire([]) + line == line;
  }

  lemma {:induction false} MoreLines(responses: seq<string>, line: string)
    ensures Wire(responses + [line]) == Wire(responses) + (line + "\n")
  {
    var all := responses + [line];
    assert all[..|responses|] == responses && all[|responses|] == line;
    Regroup(Wire(responses), line, "\n");
  }

  /** A quit is a q, small or capital, with nothing but white space around it. */
  lemma {:induction false} QuitExactly(command: string)
    ensures IsQuit(command) <==> exists left, right :: AllBlank(left) && AllBlank(right)
                                   && (command == left + "q" + right || command == left + "Q" + right)
  {
    if IsQuit(command) {
      var right := RTrimCuts(command);
      var left := LTrimCuts(RTrim(command));
      assert command == left + Trim(command) + right;
    }
    forall left, right | AllBlank(left) && AllBlank(right)
                         && (command == left + "q" + right || command == left + "Q" + right)
      ensures IsQuit(command)
    {
      TrimsTo(left, "q", right);
      TrimsTo(left, "Q", right);
    }
  }

  /** Why a turn ends with the connection given up: an error, the end of the stream, a quit, or a failed write. */
  ghost predicate GivesUp(client: Client, turn: Turn) {
    || turn.error
    || (turn.readable && !turn.recv.Bytes?)
    || (turn.readable && turn.recv.Bytes? && turn.connected
        && HasQuit(Lines(client.readBuffer + Visible(turn.recv.bytes))))
    || (turn.writable && turn.written.None? && Serve(client, turn.(writable := false)).client.writeBuffer != "")
  }

  lemma {:induction false} GivesUpExactly(client: Client, turn: Turn)
    ensures !Serve(client, turn).open <==> GivesUp(client, turn)
  {
    if turn.recv.Bytes? {
      HandleTakesCommands(client.(readBuffer := client.readBuffer + Visible(turn.recv.bytes)), turn.rig, 0, turn.flushed);
    }
  }

  /** A turn in which only writing is possible sends what the write takes, from the front, and keeps the rest. */
  lemma {:induction false} WritesTheFront(client: Client, turn: Turn, n: nat)
    requires !turn.error && !turn.readable && turn.writable && turn.written == Some(n) && n <= |client.writeBuffer|
    ensures var served := Serve(client, turn);
      && served.sent == client.writeBuffer[..n] && served.client.writeBuffer == client.writeBuffer[n..] && served.open
      && served.client.readBuffer == client.readBuffer && served.commands == []
  {
    assert "" + client.writeBuffer[..n] == client.writeBuffer[..n];
  }
}
