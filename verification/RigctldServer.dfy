/**
 * The rigctld server's client map, poll set and work loop (src/rigctld_server.cpp). A round of the loop is
 * what follows one return of poll; what poll and the other calls report is handed in.
 */
module RigctldServer {
  import opened Wrappers
  import opened Sequences
  import opened StringUtil
  import opened RigctldFraming

  /** pollfd, of whose events only POLLIN and POLLOUT are used. */
  datatype PollFd = PollFd(fd: int, pollIn: bool, pollOut: bool)

  /** What poll reports of the listener; accept gives a descriptor or a negative number. */
  datatype Listener = Listener(error: bool, readable: bool, accepted: int)

  predicate Least(fds: set<int>, fd: int) {
    fd in fds && forall other <- fds :: fd <= other
  }

  lemma {:induction false} LeastExists(fds: set<int>)
    requires fds != {}
    ensures exists fd :: Least(fds, fd)
    decreases |fds|
  {
    if forall fd: int :: fd !in fds {
      assert false;
    }
    var fd: int :| fd in fds;
    var rest := fds - {fd};
    assert fds == rest + {fd};
    if rest == {} {
      assert Least(fds, fd);
    } else {
      LeastExists(rest);
      var other :| Least(rest, other);
      var least := if other < fd then other else fd;
      assert forall each <- fds :: each == fd || each in rest;
      assert Least(fds, least);
    }
  }

  /** The order in which a std::map is walked. */
  function Ascending(fds: set<int>): (order: seq<int>)
    ensures |order| == |fds|
    decreases |fds|
  {
    if fds == {} then []
    else
      LeastExists(fds);
      var fd :| Least(fds, fd);
      [fd] + Ascending(fds - {fd})
  }

  lemma {:induction false} AscendingFrom(fds: set<int>, fd: int)
    requires Least(fds, fd)
    ensures Ascending(fds) == [fd] + Ascending(fds - {fd})
  {
  }

  lemma {:induction false} AscendingHas(fds: set<int>, i: nat)
    requires i < |fds|
    ensures Ascending(fds)[i] in fds
    decreases |fds|
  {
    LeastExists(fds);
    var fd :| Least(fds, fd);
    AscendingFrom(fds, fd);
    if i > 0 {
      AscendingHas(fds - {fd}, i - 1);
    }
  }

  /** Smaller ones come first, so none comes twice. */
  lemma {:induction false} AscendingGrows(fds: set<int>, i: nat, j: nat)
    requires i < j < |fds|
    ensures Ascending(fds)[i] < Ascending(fds)[j]
    decreases |fds|
  {
    LeastExists(fds);
    var fd :| Least(fds, fd);
    AscendingFrom(fds, fd);
    if i == 0 {
      AscendingHas(fds - {fd}, j - 1);
    } else {
      AscendingGrows(fds - {fd}, i - 1, j - 1);
    }
  }

  lemma {:induction false} AscendingReaches(fds: set<int>, fd: int) returns (i: nat)
    requires fd in fds
    ensures i < |fds| && Ascending(fds)[i] == fd
    decreases |fds|
  {
    LeastExists(fds);
    var least :| Least(fds, least);
    AscendingFrom(fds, least);
    if fd == least {
      i := 0;
    } else {
      var j := AscendingReaches(fds - {least}, fd);
      i := j + 1;
    }
  }

  lemma {:induction false} WireAppend(responses: seq<string>, response: string)
    ensures Wire(responses + [response]) == Wire(responses) + Wire([response])
  {
    var all := responses + [response];
    assert all[..|responses|] == responses && all[|responses|] == response;
    assert Wire([response]) == response + "\n";
    Regroup(Wire(responses), response, "\n");
  }

  lemma {:induction false} HandleQuit(client: Client, rig: nat -> Answer, k: nat, flushed: Option<nat>, pos: nat)
    requires Find(client.readBuffer, "\n", 0) == Some(pos) && IsQuit(client.readBuffer[..pos])
    ensures var served := Handle(client, rig, k, flushed);
      served.client == Written(client.(writeBuffer := client.writeBuffer + Wire(["RPRT 0"])), flushed) && !served.open
  {
  }

  lemma {:induction false} HandleStep(client: Client, rig: nat -> Answer, k: nat, flushed: Option<nat>, pos: nat)
    requires Find(client.readBuffer, "\n", 0) == Some(pos) && !IsQuit(client.readBuffer[..pos])
    ensures var answered := client.(writeBuffer := client.writeBuffer + Wire(Responses(rig(k))));
      var served := Handle(client, rig, k, flushed);
      var more := Handle(answered.(readBuffer := client.readBuffer[pos + 1..]), rig, k + 1, flushed);
      served.client == more.client && served.open == more.open
  {
    var rest := client.(readBuffer := client.readBuffer[pos + 1..],
                        writeBuffer := client.writeBuffer + Wire(Responses(rig(k))));
    assert Handle(client, rig, k, flushed).client == Handle(rest, rig, k + 1, flushed).client;
  }

  /** Each client is kept under its own descriptor. */
  ghost predicate Own(clients: map<int, Client>) {
    forall fd <- clients :: clients[fd].fd == fd
  }

  lemma {:induction false} HandleKeepsFd(client: Client, rig: nat -> Answer, k: nat, flushed: Option<nat>)
    ensures Handle(client, rig, k, flushed).client.fd == client.fd
    decreases |client.readBuffer|
  {
    var found := Find(client.readBuffer, "\n", 0);
    if found.Some? && !IsQuit(client.readBuffer[..found.value]) {
      var text := Wire(Responses(rig(k)));
      var rest := client.(readBuffer := client.readBuffer[found.value + 1..], writeBuffer := client.writeBuffer + text);
      HandleKeepsFd(rest, rig, k + 1, flushed);
    }
  }

  lemma {:induction false} ServeKeepsFd(client: Client, turn: Turn)
    ensures Serve(client, turn).client.fd == client.fd
  {
    if turn.recv.Bytes? {
      HandleKeepsFd(client.(readBuffer := client.readBuffer + Visible(turn.recv.bytes)), turn.rig, 0, turn.flushed);
    }
  }

  lemma {:induction false} NextOwns(clients: map<int, Client>, listener: Listener, turns: int -> Turn)
    requires Own(clients)
    ensures Own(Next(clients, listener, turns))
  {
    forall fd | fd in clients ensures Serve(clients[fd], turns(fd)).client.fd == fd {
      ServeKeepsFd(clients[fd], turns(fd));
    }
  }

  /** What poll should be given for a client: writing too if it has output. */
  function Polled(clients: map<int, Client>, fd: int): PollFd {
    PollFd(fd, true, fd in clients && clients[fd].writeBuffer != "")
  }

  /** What poll should be given: the listener, and each client in turn. */
  ghost predicate Describes(table: seq<PollFd>, serverFd: int, clients: map<int, Client>) {
    |table| == |clients.Keys| + 1
    && table[0] == PollFd(serverFd, true, false)
    && forall i :: 0 < i < |table| ==> table[i] == Polled(clients, Ascending(clients.Keys)[i - 1])
  }

  /** Such a poll set has one entry for each client, and asks for writing for just those with output. */
  lemma {:induction false} PollsForOutput(table: seq<PollFd>, serverFd: int, clients: map<int, Client>)
    requires Describes(table, serverFd, clients)
    ensures table[0] == PollFd(serverFd, true, false)
    ensures forall fd <- clients :: exists i :: 0 < i < |table| && table[i] == PollFd(fd, true, clients[fd].writeBuffer != "")
    ensures forall i :: 0 < i < |table| ==> table[i].fd in clients
    ensures forall i, j :: 0 < i < j < |table| ==> table[i].fd < table[j].fd
  {
    forall fd | fd in clients
      ensures exists i :: 0 < i < |table| && table[i] == PollFd(fd, true, clients[fd].writeBuffer != "")
    {
      var i := AscendingReaches(clients.Keys, fd);
      assert table[i + 1] == PollFd(fd, true, clients[fd].writeBuffer != "");
    }
    forall i | 0 < i < |table|
      ensures table[i].fd in clients
    {
      AscendingHas(clients.Keys, i - 1);
    }
    forall i, j | 0 < i < j < |table|
      ensures table[i].fd < table[j].fd
    {
      AscendingGrows(clients.Keys, i - 1, j - 1);
    }
  }

  /** A poll set with the descriptors of these clients. */
  ghost predicate Lists(table: seq<PollFd>, serverFd: int, fds: set<int>) {
    |table| == |fds| + 1
    && table[0] == PollFd(serverFd, true, false)
    && forall i :: 0 < i < |table| ==> table[i].fd == Ascending(fds)[i - 1] && table[i].pollIn
  }

  /** The descriptor that accept adds to the clients. */
  function Joining(listener: Listener): set<int> {
    if !listener.error && listener.readable && listener.accepted >= 0 then {listener.accepted} else {}
  }

  /** The descriptors found to be done with. */
  function Leaving(clients: map<int, Client>, turns: int -> Turn): set<int> {
    set fd | fd in clients && !Serve(clients[fd], turns(fd)).open
  }

  /** The clients after a round: each that stays was served once, and a new one has empty buffers. */
  ghost function Next(clients: map<int, Client>, listener: Listener, turns: int -> Turn): map<int, Client> {
    map fd | fd in clients.Keys + Joining(listener) - Leaving(clients, turns) ::
      if fd in clients then Serve(clients[fd], turns(fd)).client else Client(fd, "", "")
  }

  /** The test by which the work loop decides to rebuild the poll set. */
  predicate Rebuilds(clients: map<int, Client>, listener: Listener, turns: int -> Turn) {
    (!listener.error && listener.readable && listener.accepted > 0)
    || listener.error || Leaving(clients, turns) != {}
  }

  /** Descriptor 0 joins and nothing leaves: the one round in which a change of the clients goes unseen. */
  predicate ZeroJoinsUnseen(clients: map<int, Client>, listener: Listener, turns: int -> Turn) {
    !listener.error && listener.readable && listener.accepted == 0 && Leaving(clients, turns) == {}
  }

  /** A round leaves the poll set with the wrong descriptors exactly if descriptor 0 joins and nothing leaves. */
  lemma {:induction false} RebuildsWhenNeeded(clients: map<int, Client>, listener: Listener, turns: int -> Turn)
    requires Joining(listener) !! clients.Keys
    ensures Rebuilds(clients, listener, turns) || Next(clients, listener, turns).Keys == clients.Keys
        <==> !ZeroJoinsUnseen(clients, listener, turns)
  {
    assert Next(clients, listener, turns).Keys == clients.Keys + Joining(listener) - Leaving(clients, turns);
    if ZeroJoinsUnseen(clients, listener, turns) {
      assert 0 in Joining(listener) && 0 !in clients.Keys;
    }
  }

  /** After such a round there is no place in the poll set for the last client, which UpdatePollFlags writes to. */
  lemma {:induction false} FlagsNeedRoom(clients: map<int, Client>, listener: Listener, turns: int -> Turn, size: nat)
    requires Joining(listener) !! clients.Keys && ZeroJoinsUnseen(clients, listener, turns)
    requires size == |clients.Keys| + 1
    ensures !Rebuilds(clients, listener, turns)
    ensures size == |Next(clients, listener, turns).Keys|
  {
    assert Leaving(clients, turns) == {} && Joining(listener) == {0};
    assert Next(clients, listener, turns).Keys == clients.Keys + {0};
  }

  ghost function Members(fds: seq<int>): set<int> { set fd | fd in fds }

  lemma {:induction false} MembersSnoc(fds: seq<int>, fd: int)
    ensures Members(fds + [fd]) == Members(fds) + {fd}
  {
  }

  lemma {:induction false} MembersAppend(fds: seq<int>, more: seq<int>)
    ensures Members(fds + more) == Members(fds) + Members(more)
  {
  }

  lemma {:induction false} MembersAll(fds: set<int>)
    ensures Members(Ascending(fds)) == fds
  {
    forall fd | fd in Ascending(fds) ensures fd in fds {
      var i :| 0 <= i < |fds| && Ascending(fds)[i] == fd;
      AscendingHas(fds, i);
    }
    forall fd | fd in fds ensures fd in Ascending(fds) {
      var i := AscendingReaches(fds, fd);
    }
  }

  /** A walk that comes to no descriptor twice. */
  ghost predicate Walk(order: seq<int>) {
    forall k :: 0 <= k < |order| ==> order[k] !in Members(order[..k])
  }

  lemma {:induction false} AscendingWalks(fds: set<int>)
    ensures Walk(Ascending(fds)) && Members(Ascending(fds)) == fds
  {
    var order := Ascending(fds);
    forall k | 0 <= k < |order| ensures order[k] !in Members(order[..k]) {
      forall i | 0 <= i < k ensures order[i] != order[k] {
        AscendingGrows(fds, i, k);
      }
    }
    MembersAll(fds);
  }

  lemma {:induction false} WalkStep(order: seq<int>, k: nat)
    requires k < |order| && Walk(order)
    ensures order[k] !in Members(order[..k]) && Members(order[..k + 1]) == Members(order[..k]) + {order[k]}
  {
    assert order[..k + 1] == order[..k] + [order[k]];
    MembersSnoc(order[..k], order[k]);
  }

  /** The clients when some of them have been served. */
  ghost function ServedOnly(clients: map<int, Client>, served: set<int>, turns: int -> Turn): map<int, Client> {
    map fd | fd in clients :: if fd in served then Serve(clients[fd], turns(fd)).client else clients[fd]
  }

  ghost function Leavers(clients: map<int, Client>, served: set<int>, turns: int -> Turn): set<int> {
    set fd | fd in served && fd in clients && !Serve(clients[fd], turns(fd)).open
  }

  lemma {:induction false} ServeNext(clients: map<int, Client>, served: set<int>, fd: int, turns: int -> Turn)
    requires fd in clients && fd !in served
    ensures fd in ServedOnly(clients, served, turns) && ServedOnly(clients, served, turns)[fd] == clients[fd]
    ensures ServedOnly(clients, served + {fd}, turns)
         == ServedOnly(clients, served, turns)[fd := Serve(clients[fd], turns(fd)).client]
    ensures Leavers(clients, served + {fd}, turns)
         == Leavers(clients, served, turns) + if Serve(clients[fd], turns(fd)).open then {} else {fd}
  {
  }

  lemma {:induction false} NobodyLeft(fds: seq<int>)
    ensures Members(fds) == {} <==> fds == []
  {
    assert fds != [] ==> fds[0] in Members(fds);
  }

  /** The clients behind the accept of a round. */
  function Joined(clients: map<int, Client>, listener: Listener): map<int, Client> {
    if Joining(listener) == {} then clients else clients[listener.accepted := Client(listener.accepted, "", "")]
  }

  lemma {:induction false} LeaversAreLeaving(start: map<int, Client>, listener: Listener, turns: int -> Turn)
    requires Joining(listener) !! start.Keys
    ensures Leavers(Joined(start, listener), start.Keys, turns) == Leaving(start, turns)
  {
  }

  lemma {:induction false} RemovalGives(
    start: map<int, Client>, serverFd: int, listener: Listener, turns: int -> Turn, fdsToRemove: set<int>)
    requires serverFd !in start && Joining(listener) !! start.Keys + {serverFd}
    requires fdsToRemove - {serverFd} == Leaving(start, turns)
    ensures ServedOnly(Joined(start, listener), start.Keys, turns) - fdsToRemove == Next(start, listener, turns)
  {
  }

  /** Accepting, serving each old client once and removing those done with give the clients after the round. */
  lemma {:induction false} RoundGives(
    start: map<int, Client>, serverFd: int, listener: Listener, turns: int -> Turn, first: seq<int>, done: seq<int>)
    requires serverFd !in start && Joining(listener) !! start.Keys + {serverFd}
    requires first == if listener.error then [serverFd] else []
    requires Members(done) == Leavers(Joined(start, listener), start.Keys, turns)
    ensures ServedOnly(Joined(start, listener), start.Keys, turns) - Members(first + done) == Next(start, listener, turns)
    ensures first + done != [] <==> listener.error || Leaving(start, turns) != {}
  {
    LeaversAreLeaving(start, listener, turns);
    NobodyLeft(done);
    MembersAppend(first, done);
    RemovalGives(start, serverFd, listener, turns, Members(first + done));
  }

  /** The client that these methods are passed by reference in the server is an in- and an out-parameter here. */
  method SendResponse(client: Client, response: string) returns (client': Client)
    ensures client' == client.(writeBuffer := client.writeBuffer + Wire([response]))
  {
    assert Wire([response]) == response + "\n";
    client' := client.(writeBuffer := client.writeBuffer + (response + "\n"));
  }

  method WriteFromClient(client: Client, written: Option<nat>) returns (client': Client, ok: bool)
    ensures client' == Written(client, written)
    ensures ok == (client.writeBuffer == "" || written.Some?)
  {
    client' := client;
    if client.writeBuffer == "" {
      return client, true;
    }
    if written.None? {
      return client, false;
    }
    var n := if written.value < |client.writeBuffer| then written.value else |client.writeBuffer|;
    return client.(writeBuffer := client.writeBuffer[n..]), true;
  }

  lemma {:induction false} OneMore(buffer: string, lines: seq<string>, line: string)
    ensures (buffer + Wire(lines)) + Wire([line]) == buffer + Wire(lines + [line])
  {
    WireAppend(lines, line);
    Regroup(buffer, Wire(lines), Wire([line]));
  }

  /** The loop over the lines of an answer. */
  method SendResponses(client: Client, lines: seq<string>) returns (client': Client)
    ensures client' == client.(writeBuffer := client.writeBuffer + Wire(lines))
  {
    client' := client;
    var i := 0;
    while i < |lines|
      invariant i <= |lines|
      invariant client' == client.(writeBuffer := client.writeBuffer + Wire(lines[..i]))
    {
      OneMore(client.writeBuffer, lines[..i], lines[i]);
      assert lines[..i + 1] == lines[..i] + [lines[i]];
      client' := SendResponse(client', lines[i]);
      i := i + 1;
    }
    assert lines[..i] == lines;
  }

  /** interpret_command, as far as the client sees it; what an exception of it leaves is answered too. */
  method InterpretCommand(client: Client, command: string, answer: Answer, flushed: Option<nat>)
      returns (client': Client, keep: bool)
    ensures keep == !IsQuit(command)
    ensures var answered := client.(writeBuffer := client.writeBuffer + Reply(command, answer));
      client' == if keep then answered else Written(answered, flushed)
  {
    client' := client;
    if IsQuit(command) {
      client' := SendResponse(client', "RPRT 0");
      var ok;
      client', ok := WriteFromClient(client', flushed);
      return client', false;
    }
    client' := SendResponses(client, answer.lines);
    if answer.threw {
      OneMore(client.writeBuffer, answer.lines, "RPRT -1");
      client' := SendResponse(client', "RPRT -1");
    } else {
      assert answer.lines + [] == answer.lines;
    }
    return client', true;
  }

  method HandleCommands(client: Client, rig: nat -> Answer, flushed: Option<nat>) returns (client': Client, keep: bool)
    ensures client' == Handle(client, rig, 0, flushed).client && keep == Handle(client, rig, 0, flushed).open
  {
    client' := client;
    var k := 0;
    var pos := Find(client'.readBuffer, "\n", 0);
    while pos.Some?
      invariant pos == Find(client'.readBuffer, "\n", 0)
      invariant Handle(client', rig, k, flushed).client == Handle(client, rig, 0, flushed).client
      invariant Handle(client', rig, k, flushed).open == Handle(client, rig, 0, flushed).open
      decreases |client'.readBuffer|
    {
      var command := client'.readBuffer[..pos.value];
      if IsQuit(command) {
        HandleQuit(client', rig, k, flushed, pos.value);
      } else {
        HandleStep(client', rig, k, flushed, pos.value);
      }
      client', keep := InterpretCommand(client', command, rig(k), flushed);
      if !keep {
        return;
      }
      client' := client'.(readBuffer := client'.readBuffer[|command| + 1..]);
      k := k + 1;
      pos := Find(client'.readBuffer, "\n", 0);
    }
    return client', true;
  }

  method ReadFromClient(client: Client, turn: Turn) returns (client': Client, ok: bool)
    ensures client' == Read(client, turn).client && ok == Read(client, turn).open
  {
    client' := client;
    if !turn.recv.Bytes? {
      return client', false;
    }
    client' := client'.(readBuffer := client'.readBuffer + Visible(turn.recv.bytes));
    ok := true;
    if turn.connected {
      client', ok := HandleCommands(client', turn.rig, turn.flushed);
    }
  }

  /** rigctld_server. */
  class RigctldServer {
    const serverFd: int
    var clients: map<int, Client>
    var pfds: array<PollFd>
    var pfdNr: nat

    /** What holds whenever poll is called. */
    ghost predicate Valid()
      reads this, pfds
    {
      pfdNr == pfds.Length && Describes(pfds[..], serverFd, clients)
      && Own(clients) && serverFd !in clients
    }

    constructor (serverFd: int)
      ensures Valid() && fresh(pfds) && this.serverFd == serverFd && clients == map[]
    {
      this.serverFd := serverFd;
      clients := map[];
      pfds := new PollFd[0];
      pfdNr := 0;
      new;
      UpdatePollDescriptors();
    }

    method UpdatePollDescriptors()
      requires Own(clients)
      modifies this`pfds, this`pfdNr
      ensures pfdNr == pfds.Length && fresh(pfds) && Describes(pfds[..], serverFd, clients)
    {
      var order := Ascending(clients.Keys);
      var table := new PollFd[|order| + 1](_ => PollFd(0, false, false));
      table[0] := PollFd(serverFd, true, false);
      var index := 1;
      while index <= |order|
        invariant 1 <= index <= |order| + 1
        invariant table[0] == PollFd(serverFd, true, false)
        invariant forall i :: 0 < i < index ==> table[i] == Polled(clients, order[i - 1])
      {
        AscendingHas(clients.Keys, index - 1);
        var client := clients[order[index - 1]];
        table[index] := PollFd(client.fd, true, false);
        if client.writeBuffer != "" {
          table[index] := table[index].(pollOut := true);
        }
        index := index + 1;
      }
      pfds, pfdNr := table, |order| + 1;
    }

    /** The body of the walk over the clients. */
    method UpdatePollFlag(index: nat)
      requires 0 < index <= |clients.Keys| < pfds.Length
      modifies pfds
      ensures forall i :: 0 <= i < pfds.Length ==>
          pfds[i] == if i != index then old(pfds[i])
                     else old(pfds[i]).(pollOut := Polled(clients, Ascending(clients.Keys)[i - 1]).pollOut)
    {
      var fd := Ascending(clients.Keys)[index - 1];
      AscendingHas(clients.Keys, index - 1);
      if clients[fd].writeBuffer == "" {
        pfds[index] := pfds[index].(pollOut := false);
      } else {
        pfds[index] := pfds[index].(pollOut := true);
      }
    }

    /** The walk over the clients writes an entry for each of them, so the table must be as long as that. */
    method UpdatePollFlags()
      requires pfds.Length > |clients.Keys|
      modifies pfds
      ensures pfds[0] == old(pfds[0])
      ensures forall i :: 0 < i <= |clients.Keys| ==>
          pfds[i] == old(pfds[i]).(pollOut := Polled(clients, Ascending(clients.Keys)[i - 1]).pollOut)
      ensures forall i :: |clients.Keys| < i < pfds.Length ==> pfds[i] == old(pfds[i])
    {
      var order := Ascending(clients.Keys);
      var index := 1;
      while index <= |order|
        invariant 1 <= index <= |order| + 1
        invariant pfds[0] == old(pfds[0])
        invariant forall i :: 0 < i < index ==> pfds[i] == old(pfds[i]).(pollOut := Polled(clients, order[i - 1]).pollOut)
        invariant forall i :: index <= i < pfds.Length ==> pfds[i] == old(pfds[i])
      {
        UpdatePollFlag(index);
        index := index + 1;
      }
    }

    method AcceptClient(accepted: int)
      modifies this`clients
      ensures clients == if accepted < 0 || accepted in old(clients) then old(clients)
                         else old(clients)[accepted := Client(accepted, "", "")]
    {
      if accepted >= 0 && accepted !in clients {
        clients := clients[accepted := Client(accepted, "", "")];
      }
    }

    /** The body of the loop of work() for one client. */
    method ServeClient(fd: int, turn: Turn) returns (ok: bool)
      requires fd in clients
      modifies this`clients
      ensures clients == old(clients)[fd := Serve(old(clients[fd]), turn).client]
      ensures ok == Serve(old(clients[fd]), turn).open
    {
      if turn.error {
        return false;
      }
      ok := true;
      var client := clients[fd];
      if turn.readable {
        client, ok := ReadFromClient(client, turn);
      }
      if turn.writable {
        var written;
        client, written := WriteFromClient(client, turn.written);
        ok := ok && written;
      }
      clients := clients[fd := client];
    }

    /** close_client and erase, for each descriptor found to be done with. */
    method RemoveClients(fdsToRemove: seq<int>)
      modifies this`clients
      ensures clients == old(clients) - Members(fdsToRemove)
    {
      var i := 0;
      while i < |fdsToRemove|
        invariant i <= |fdsToRemove|
        invariant clients == old(clients) - Members(fdsToRemove[..i])
      {
        MembersSnoc(fdsToRemove[..i], fdsToRemove[i]);
        assert fdsToRemove[..i + 1] == fdsToRemove[..i] + [fdsToRemove[i]];
        clients := clients - {fdsToRemove[i]};
        i := i + 1;
      }
      assert fdsToRemove[..i] == fdsToRemove;
    }

    /** The rig was unplugged: every client is closed. */
    method DropClients()
      requires Valid()
      modifies this`clients, this`pfds, this`pfdNr
      ensures Valid() && fresh(pfds) && clients == map[]
    {
      clients := map[];
      UpdatePollDescriptors();
    }

    /** Serves the descriptors of the poll set in turn, the listener's apart. */
    method ServeClients(turns: int -> Turn, ghost order: seq<int>) returns (fdsToRemove: seq<int>)
      requires pfdNr == pfds.Length == |order| + 1 && Walk(order) && Members(order) <= clients.Keys
      requires forall i :: 0 < i < pfds.Length ==> pfds[i].fd == order[i - 1]
      modifies this`clients
      ensures clients == ServedOnly(old(clients), Members(order), turns)
      ensures Members(fdsToRemove) == Leavers(old(clients), Members(order), turns)
    {
      fdsToRemove := [];
      ghost var start, served := clients, Members([]);
      var i := 1;
      while i < pfdNr
        invariant 1 <= i <= pfds.Length
        invariant served == Members(order[..i - 1])
        invariant clients == ServedOnly(start, served, turns)
        invariant Members(fdsToRemove) == Leavers(start, served, turns)
      {
        var fd := pfds[i].fd;
        assert fd in Members(order);
        WalkStep(order, i - 1);
        ServeNext(start, served, fd, turns);
        var ok := ServeClient(fd, turns(fd));
        if !ok {
          MembersSnoc(fdsToRemove, fd);
          fdsToRemove := fdsToRemove + [fd];
        }
        served := served + {fd};
        i := i + 1;
      }
      assert order[..i - 1] == order;
    }

    /** Rebuilds the poll set if clients came or went, and then sets its flags. */
    method FinishRound(fdToAdd: int, fdsToRemove: seq<int>, ghost atPoll: set<int>)
      requires Own(clients)
      requires pfdNr == pfds.Length && Lists(pfds[..], serverFd, atPoll)
      requires fdToAdd > 0 || fdsToRemove != [] || clients.Keys == atPoll
      modifies this`pfds, this`pfdNr, pfds
      ensures pfdNr == pfds.Length && Describes(pfds[..], serverFd, clients) && (pfds == old(pfds) || fresh(pfds))
    {
      if fdToAdd > 0 || fdsToRemove != [] {
        UpdatePollDescriptors();
      }
      UpdatePollFlags();
    }

    /** What the listener reports is looked at first. */
    method HandleListener(listener: Listener) returns (fdToAdd: int, fdsToRemove: seq<int>)
      requires Joining(listener) !! clients.Keys
      modifies this`clients
      ensures clients == Joined(old(clients), listener)
      ensures fdToAdd > 0 <==> !listener.error && listener.readable && listener.accepted > 0
      ensures fdsToRemove == if listener.error then [serverFd] else []
    {
      fdToAdd, fdsToRemove := -1, [];
      if listener.error {
        fdsToRemove := [serverFd];
      } else if listener.readable {
        fdToAdd := listener.accepted;
        AcceptClient(listener.accepted);
      }
    }

    /** Accepts, serves and removes; the poll set is still that of before. */
    method HandleEvents(listener: Listener, turns: int -> Turn) returns (fdToAdd: int, fdsToRemove: seq<int>)
      requires Valid()
      requires Joining(listener) !! clients.Keys + {serverFd}
      modifies this`clients
      ensures clients == Next(old(clients), listener, turns)
      ensures fdToAdd > 0 || fdsToRemove != [] <==> Rebuilds(old(clients), listener, turns)
    {
      ghost var start := clients;
      fdToAdd, fdsToRemove := HandleListener(listener);
      AscendingWalks(start.Keys);
      var done := ServeClients(turns, Ascending(start.Keys));
      RoundGives(start, serverFd, listener, turns, fdsToRemove, done);
      fdsToRemove := fdsToRemove + done;
      RemoveClients(fdsToRemove);
    }

    /** One round of the work loop, from a return of poll to the next call. */
    method Round(listener: Listener, turns: int -> Turn)
      requires Valid()
      requires Joining(listener) !! clients.Keys + {serverFd}
      requires !ZeroJoinsUnseen(clients, listener, turns)
      modifies this, pfds
      ensures Valid() && (pfds == old(pfds) || fresh(pfds))
      ensures clients == Next(old(clients), listener, turns)
    {
      ghost var atPoll := clients.Keys;
      RebuildsWhenNeeded(clients, listener, turns);
      NextOwns(clients, listener, turns);
      var fdToAdd, fdsToRemove := HandleEvents(listener, turns);
      FinishRound(fdToAdd, fdsToRemove, atPoll);
    }
  }
}
