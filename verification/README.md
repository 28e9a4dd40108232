# CW daemon verification

A Dafny model of the station daemon that keys a transmitter over a serial line, and proofs about it.
Four parts are modelled.

* **Remote paddle keying.** An operator's key edges arrive in UDP packets that repeat the recent
  history; a receive thread puts them on a jitter buffer and a replay thread plays them on the DTR
  (key) and RTS (PTT) lines, with watchdogs. `RemoteKeyServer` has the server as a class whose
  methods are the steps of the two workers, `RemoteKeyMachine` the two threads as a state machine
  that interleaves them at every lock and every atomic access, and the modules above it what holds in
  all runs of that machine. `RemoteKeyPrefix` says which of the operator's edges are accepted,
  `RemoteKeyReplay` when they are played, `RemoteKeyRaces` exactly what a held-up packet does,
  `RemoteKeySilence` when a tick takes the stream for silent, `RemoteKeyRepeats` what a datagram that
  comes twice does, and `RemoteKeyLink` what the network has to do. `RemoteKeyWire` says what the bytes
  and bits of a datagram do, `RemoteKeyTiming` when PTT is on and when the worker wakes.
* **Text to Morse.** A cwdaemon message is compiled to WinKeyer bytes (`CwDaemon`), forwarded one
  byte at a time (`CwdaemonServer`), parsed and buffered in a ring (`Keyer`, `Ring`) and keyed by a
  state machine of timed and routing states (`Keyer`). `WinKeyer` says what a stream of buffered bytes
  means: a sequence of marks, each a dit or dah at its speed, a character space, a word space or a
  half-dot gap. `KeyerFraming`, `KeyerParser`, `KeyerPlay`, `KeyerProgress`, `KeyerDrains` and
  `CwdaemonSession` prove what is keyed, `KeyerTiming` for how long, `KeyerOverflow` what a full ring
  does and `CwdaemonAbort` what the abort command does to the speed. `MorseCode` has the characters in
  dots and dashes, `CwDaemonBytes` and `CwdaemonEscapes` say what messages come to byte by byte,
  `KeyerLengths` how long the elements are, and `KeyerPaddles` what the paddles do.
* **rigctld streams.** The read and write buffers of a client (`RigctldFraming`) and the poll set and
  work loop of the server (`RigctldServer`).
* **Helpers.** Timing arithmetic over the reals (`Morse`), the ring (`Ring`), the character table
  (`CharPatterns`), string scanning (`StringUtil`), and small general ones (`FixedWidth`, `Sequences`,
  `Wrappers`).

Code that updates state is imperative here too: each such method is proved equal to a step function,
and the properties are proved of the step functions. `dafny verify dfyconfig.toml` checks everything.

## What the code turned out to do

* `fd` never goes back to -1 once the serial port is open, so the reconnect that the comment at
  `src/remote_key_server.cpp:232-233` describes for an unplugged device happens only if the port
  never opened. Opening late clears both lines but not the flags: `LateOpenRace` is a run in which
  the key line is then raised without PTT, `LinesRunExactly` says when the lines stop showing the flags.
* A receive thread that is held up between reading the clock and taking the lock can have its edges
  played after the stream fell silent, and before the reset of their own session
  (`ParkedReceiverRace`; exact conditions in `StaleKeyExactly` and `PlayedBeforeResetExactly`).
* A tick reads the clock before it loads the time of the last packet. A packet that comes in between
  makes the unsigned difference wrap, so the tick takes a live stream for a silent one, lifts the key
  and drops what was queued, on a perfect link and with a receive thread that is never held up
  (`LiveStreamSilenced`; exact condition in `SilentExactly`, `AliveRun` says what rules it out).
* "Edges are idempotent" (`src/remote_key_protocol.h:20`) holds within a session only. A datagram with
  the reset flag that arrives twice, and a late one of the session before, start their session anew and
  have edges played that were played before (`QueuesAgain`, `PlayedAgain`). For copies within a session
  the exact conditions are in `RepeatChangesNothingExactly` for two copies in a row and in
  `CopyChangesNothingExactly` for copies with anything in between.
* The history in each packet makes good what was lost exactly as long as at most 32 edges are missing;
  a gap beyond that is never filled (`LossIsMadeGoodExactly`, `AcceptsPrefixExactly`).
* An edge with timestamp 0 is always dropped: the high-water mark starts at 0 (`ZeroIsDropped`).
* While PTT is held ahead of a key-down and the tail of the over before is past, the replay worker does
  not sleep: the release it wants to wake for is already behind it (`BusyExactly`).
* With a PTT lead longer than the tail, PTT can be raised and dropped in the same tick
  (`LongLeadChatters`; exact condition in `RaiseKeptExactly`).
* A set-speed command that arrives while a speed command is still in the ring is undone by it
  (`SetSpeedHolds`).
* The abort command drops the command that would have brought the speed back after a text with speed
  marks. The keyer then stays at the other speed, while the next text is compiled for that of the
  profile (`AbortLosesSpeed`; exact condition in `AbortKeepsSpeedExactly`).
* An overfull ring that forgets a buffered command leaves its argument as an item. Below 24 wpm that
  ends the framing, at 24 wpm it swallows the next character, from 32 on it keys a character nobody
  sent (`OverflowExactly`, `CommandOverflow`, `DefaultSpeedSwallows`, `FastSpeedIsKeyed`).
* `"` is keyed as `.----.`, which is the apostrophe of ITU-R M.1677-1, and `}` like `(`
  (`DecodesExactly`).
* The weight of the weighting command is cut to a byte before it is clamped (`WeightIsMeantExactly`).
* The exit command, and an escape command with a malformed number, end the worker without ending a
  tuning tone (`ToneOutlivesExactly`, `ExitKeepsTone`, `ToneStaysOn`).
* A NUL in a received chunk hides the rest of that chunk from rigctld (`NulDependsOnChunks`).
* `fd_to_add > 0` misses a client that gets descriptor 0; `update_poll_flags` then writes past the
  poll set (`RebuildsWhenNeeded`, `FlagsNeedRoom`).
* `split_string` does not end for an empty delimiter (`EmptyDelimiterStays`).

## Model

| member | source | states |
|---|---|---|
| RemoteKeyProtocol.PutU16 | src/remote_key_protocol.h:80-83 | a 16-bit field is stored big-endian at its place and nothing else changes |
| RemoteKeyProtocol.PutU64 | src/remote_key_protocol.h:84-88 | a 64-bit field is stored big-endian at its place and nothing else changes |
| RemoteKeyProtocol.GetU64 | src/remote_key_protocol.h:92-98 | eight bytes are read as one big-endian number |
| RemoteKeyProtocol.FieldRoundTrip | src/remote_key_protocol.h:84-98 | a field that fits its bytes is read back as it was written |
| RemoteKeyProtocol.Encode | src/remote_key_protocol.h:103-121 | the buffer built in place is the header and the last 32 edges |
| RemoteKeyProtocol.Decode | src/remote_key_protocol.h:125-143 | the loop accepts what the format accepts and yields its packet |
| RemoteKeyProtocol.RoundTrip | src/remote_key_protocol.h:103-143 | decoding the encoding of any packet gives the packet with its last 32 edges |
| RemoteKeyProtocol.WireRoundTrip | src/remote_key_protocol.h:103-143 | encoding an accepted datagram of at most 32 edges gives back its first 6 + 9 x count bytes |
| RemoteKeyProtocol.AcceptedIsEncoded | src/remote_key_protocol.h:125-143 | a datagram is accepted exactly if it starts with the encoding of a packet, and one that fits the receive buffer has at most 32 edges |
| RemoteKeyWire.BytesDecide | src/remote_key_protocol.h:125-143 | which bytes are accepted, and each field of the packet as a number of its bytes: magic 0xC7, version 1, flags, id, count, and per edge eight bytes of time and one of state |
| RemoteKeyWire.ResetBit | src/remote_key_protocol.h:42-44 | the reset flag is the lowest bit of the flags, and no other bit matters |
| RemoteKeyWire.KeyBit | src/remote_key_protocol.h:46-50 | the key is the lowest bit of the state byte, whatever the PTT request bit is |
| RemoteKeyWire.ResetsExactly | src/remote_key_server.cpp:157-169 | a datagram asks for key-up if and only if its id bytes are not those of the session or its reset bit is set; then nothing queued before stays, otherwise all of it does |
| RemoteKeyWire.KeepaliveResetsExactly | src/remote_key_server.cpp:157-201 | a keepalive with such bytes empties the buffer and drops anchor and mark, any other changes nothing |
| RemoteKeyWire.ResetLifts | src/remote_key_server.cpp:239-243 | the next tick after such a datagram has key and PTT released, flags and lines; after any other it leaves the flags alone |
| RemoteKeyWire.StateByteKeys | src/remote_key_server.cpp:276-294 | after a tick the key is down if and only if the lowest bit of the last due state byte is set |
| RemoteKeyServer.RemoteKeyServer.constructor | src/remote_key_server.h:70-92 | nothing queued, no session, no anchor, port closed, both flags clear |
| RemoteKeyServer.RemoteKeyServer.Receive | src/remote_key_server.cpp:141-153 | a datagram that decodes sets the time of the last packet, any other changes nothing |
| RemoteKeyServer.RemoteKeyServer.Enqueue | src/remote_key_server.cpp:155-203 | session change, dedup, anchoring and scheduling of a whole packet; the rig is not touched |
| RemoteKeyServer.RemoteKeyServer.BeginSession | src/remote_key_server.cpp:159-169 | a packet of another session, or with the reset flag, drops queue, anchor and high-water mark and asks for a reset |
| RemoteKeyServer.RemoteKeyServer.EnqueueEdges | src/remote_key_server.cpp:171-202 | the edges of a packet are taken in one behind the other |
| RemoteKeyServer.RemoteKeyServer.EnqueueEdge | src/remote_key_server.cpp:177-200 | one edge: dropped at or below the high-water mark, else anchored and queued at its slot or at once |
| RemoteKeyServer.RemoteKeyServer.SetKey | src/remote_key_server.cpp:116-119 | only the key line moves, and only if the port is open |
| RemoteKeyServer.RemoteKeyServer.SetPtt | src/remote_key_server.cpp:121-124 | only the PTT line moves, and only if the port is open |
| RemoteKeyServer.RemoteKeyServer.ForceSafe | src/remote_key_server.cpp:126-129 | both lines go down, key first |
| RemoteKeyServer.RemoteKeyServer.BeginTick | src/remote_key_server.cpp:230-243 | the port is retried when due, then a pending reset is taken once and forces the rig safe |
| RemoteKeyServer.RemoteKeyServer.TestSilence | src/remote_key_server.cpp:246-254 | an old stream forces the rig safe |
| RemoteKeyServer.RemoteKeyServer.ClearQueue | src/remote_key_server.cpp:255-257 | the queue is emptied and the anchor dropped together, the high-water mark kept |
| RemoteKeyServer.RemoteKeyServer.CheckWatchdog | src/remote_key_server.cpp:262-267 | a key held too long is lifted without starting the PTT tail |
| RemoteKeyServer.RemoteKeyServer.DrainDue | src/remote_key_server.cpp:275-295 | exactly the due slots leave the front of the queue and are applied in order |
| RemoteKeyServer.RemoteKeyServer.HandleEdge | src/remote_key_server.cpp:280-294 | PTT before key; key-down stamps the start, key-up the PTT release |
| RemoteKeyServer.RemoteKeyServer.SequencePtt | src/remote_key_server.cpp:305-320 | PTT lead before the next key-down and tail after the last key-up |
| RemoteKeyServer.RemoteKeyServer.NextWake | src/remote_key_server.cpp:324-330 | the earliest of the 5 ms tick, the next slot and the PTT release |
| RemoteKeyServer.RemoteKeyServer.FinishTick | src/remote_key_server.cpp:260-333 | watchdog, drain, PTT sequencing and wake time of one tick |
| RemoteKeySafety.InitiallySafe | src/remote_key_server.cpp:217-221 | the starting state is safe |
| RemoteKeySafety.SafeStep | src/remote_key_server.cpp:135-334 | every step of either thread keeps key-down implies PTT, the hold limit, and DTR implies the key flag |
| RemoteKeySafety.SafeRun | src/remote_key_server.cpp:135-334 | the same in every run, for all datagrams, losses, duplicates and interleavings |
| RemoteKeySafety.LineHeldAtMost | src/remote_key_server.cpp:262-295 | in every run, a key line that is down and is recorded as lifted at no moment has been down for at most max_key_down_ms when a tick is over |
| RemoteKeySafety.RetriesExactly | src/remote_key_server.cpp:232-237 | a closed port is tried when a tick begins more than 100 ms after the last try, and only then |
| RemoteKeySafety.NotRetriedRun | src/remote_key_server.cpp:232-237 | over runs: a closed port stays closed and untried through ticks within 100 ms of the last try |
| RemoteKeySafety.FinishedKey | src/remote_key_server.cpp:262-295 | after a tick the key is what the last due edge says, or what the watchdog left |
| RemoteKeySafety.FreshRun | src/remote_key_server.cpp:152-258 | with a receive thread not held up before the lock, a key held after a tick means a packet within silence_ms |
| RemoteKeySafety.LinesStep | src/remote_key_server.cpp:103-129 | a step breaks the agreement of lines and flags if and only if the port opens while a flag is set |
| RemoteKeySafety.LinesRun | src/remote_key_server.cpp:103-129 | with the port open from the start the lines show the flags in all runs, and DTR implies RTS at every single line change |
| RemoteKeySafety.LinesRunExactly | src/remote_key_server.cpp:103-129 | for any port, in every run: the lines show the flags throughout if and only if the port never opens while a flag is set |
| RemoteKeySafety.PortStaysOpen | src/remote_key_server.cpp:103-114 | an open port is never closed |
| RemoteKeyScenarios.ParkedReceiverRace | src/remote_key_server.cpp:152-166 | a run in which an edge is played after silence and before the reset of its session |
| RemoteKeyScenarios.LateOpenRace | src/remote_key_server.cpp:234-237 | a run in which a port that opens late raises DTR without RTS |
| RemoteKeyQueue.InitiallyOrdered | src/remote_key_server.h:79-86 | the empty buffer is in order |
| RemoteKeyQueue.SlotIsExact | src/remote_key_server.cpp:181-199 | neither the subtraction nor the sum wraps: the slot is the exact place or the arrival time |
| RemoteKeyQueue.OrderedStep | src/remote_key_server.cpp:155-301 | every step keeps accepted timestamps strictly increasing, the queue sorted on one anchor, and each accepted edge played at most once, from one session start to the next |
| RemoteKeyQueue.OrderedRun | src/remote_key_server.cpp:155-301 | the same in every run, whatever is lost, duplicated, reordered or silenced between one session start and the next |
| RemoteKeyQueue.ZeroIsDropped | src/remote_key_server.cpp:164-180 | an edge with timestamp 0 changes nothing, and no accepted edge has it |
| RemoteKeyQueue.QueueSorted | src/remote_key_server.cpp:276-300 | the queue is sorted by slot, and what a tick takes are exactly the edges due |
| RemoteKeyQueue.SpacingIsExact | src/remote_key_server.cpp:181-200 | queued edges that came before their slots keep the spacing of their source exactly |
| RemoteKeyQueue.DroppedForGood | src/remote_key_server.cpp:172-180 | an edge discarded by a silence is never played in its session, however often it is sent again |
| RemoteKeyQueue.ResetFirstRun | src/remote_key_server.cpp:160-169 | with a playout delay and a prompt receive thread the key is lifted before any edge of the new session plays |
| RemoteKeyRaces.StartsTimeline | src/remote_key_server.cpp:171-201 | without an anchor a packet queues exactly its new edges, the first after the playout delay and the others at their source spacing |
| RemoteKeyRaces.SilenceReanchors | src/remote_key_server.cpp:171-192 | when a stream resumes after a silence, over any run in between, the first packet taken in queues its new edges at their source spacing, the first a playout delay after its arrival |
| RemoteKeyRaces.PlayedBeforeResetExactly | src/remote_key_server.cpp:155-200 | a packet of a new session that reaches the buffer in any phase of a tick is played before its reset if and only if it has an edge above timestamp 0, its playout delay is over at the time of the tick, and the tick will not find the stream silent |
| RemoteKeyRaces.StaleNeedsHeldPacket | src/remote_key_server.cpp:246-295 | a tick ends with the key held on a silent stream only if something was queued after it had cleared the buffer |
| RemoteKeyRaces.StaleKeyExactly | src/remote_key_server.cpp:152-295 | a packet queued between the clearing and the draining of a tick leaves the key held on a silent stream if and only if it is older than silence_ms and its own edges have the key down at the source time of the tick |
| RemoteKeySilence.SilentExactly | src/remote_key_server.cpp:246-248 | a tick takes the stream for silent if and only if a packet has come and the last one it loaded came after its clock reading, or more than silence_ms before |
| RemoteKeySilence.LiveStreamSilenced | src/remote_key_server.cpp:230-257 | a packet of the session that arrives right after the clock reading of a tick makes that tick lift the key and PTT and drop every queued edge for good |
| RemoteKeySilence.AliveRun | src/remote_key_server.cpp:152-258 | no tick takes the stream for silent if each begins within silence_ms of the last packet, none arrives between its clock reading and its first load, and no first one between its two loads |
| RemoteKeyRepeats.RepeatChangesNothingExactly | src/remote_key_server.cpp:155-201 | the same packet enqueued again changes nothing if and only if it does not ask for a reset, comes at the same microsecond, or has no edge above timestamp 0 |
| RemoteKeyRepeats.CopyChangesNothing | src/remote_key_server.cpp:155-201 | over runs: a copy of a packet that does not ask for a reset changes nothing, whatever packets, ticks and silences of its session came in between |
| RemoteKeyRepeats.CopyChangesNothingExactly | src/remote_key_server.cpp:155-201 | over such runs: a copy that comes at another time and has an edge above timestamp 0 leaves the buffer as it is if and only if it does not ask for a reset |
| RemoteKeyRepeats.QueuesAgain | src/remote_key_server.cpp:159-201 | a packet that starts a session, new or old, is queued from its first edge above timestamp 0 on, whatever has been played |
| RemoteKeyRepeats.PlayedAgain | src/remote_key_server.cpp:152-295 | a run in which the first edge of such a datagram is played, whatever has been played before |
| RemoteKeyPrefix.WindowExtends | src/remote_key_server.cpp:171-201 | taking in a window of the history that reaches back to what was accepted extends the accepted prefix to the end of the window, however late it comes |
| RemoteKeyPrefix.GapBreaks | src/remote_key_server.cpp:171-201 | a window that starts behind what was accepted leaves edges out |
| RemoteKeyPrefix.TakesWindow | src/remote_key_server.cpp:155-201 | after a packet of the session the accepted edges are a prefix of the operator's if and only if its window does not start behind what was accepted, and then they reach to the end of the window or as far as before |
| RemoteKeyPrefix.AcceptsPrefix | src/remote_key_server.cpp:157-201 | if every window taken in overlaps the accepted prefix, the accepted edges are a prefix of the operator's, over any losses, copies, late packets, silences, resets, other sessions and interleavings |
| RemoteKeyPrefix.AcceptsPrefixExactly | src/remote_key_server.cpp:157-258 | over runs whose packets of the session carry windows: the accepted edges are a prefix at every moment if and only if no window taken in starts behind what was accepted |
| RemoteKeyPrefix.NoGapsAccepts | src/remote_key_server.cpp:135-258 | and that follows from the order of the datagrams alone |
| RemoteKeyPrefix.LossIsMadeGoodExactly | src/remote_key_protocol.h:103-121 | a packet with the newest 32 of n edges makes good every loss before it if and only if at most 32 of the n had not been accepted |
| RemoteKeyReplay.AcceptWindow | src/remote_key_server.cpp:171-201 | taking in a window that reaches back to what was accepted and comes before the slot of its first new edge extends the accepted prefix, each edge on its exact slot |
| RemoteKeyReplay.DeliveredOverlaps | src/remote_key_server.cpp:157-201 | a run that delivers in time is one whose windows overlap |
| RemoteKeyReplay.AcceptsOnExactSlots | src/remote_key_server.cpp:171-201 | in every run that delivers in time the accepted edges are a prefix of the operator's, each on its exact slot |
| RemoteKeyReplay.PlayedIsDue | src/remote_key_server.cpp:276-278 | what has been played after a tick at t are the operator's edges up to t - (anchor_local - anchor_src) |
| RemoteKeyReplay.WatchdogQuiet | src/remote_key_server.cpp:262-267 | the watchdog does not fire on an operator who keeps within its limit |
| RemoteKeyReplay.FollowsStep | src/remote_key_server.cpp:135-334 | every delivered step keeps the replay in line with the operator's history |
| RemoteKeyReplay.SessionStarts | src/remote_key_server.cpp:159-169 | an idle server that has not met the session starts such a run |
| RemoteKeyReplay.EndToEnd | src/remote_key_server.cpp:171-295 | after a tick at local time t the key is the operator's at source time t - (anchor_local - anchor_src), in every run with lost, duplicated, reordered and delayed packets in which each edge comes before its slot |
| RemoteKeyReplay.JitterIndependent | src/remote_key_server.cpp:171-295 | two deliveries of the same history show the same key at the same source time, whatever the jitter and the ticks |
| RemoteKeyLink.LinkDelivers | src/remote_key_server.cpp:171-295 | if every edge comes in some packet before the delay of the first packet and the playout delay are over, and the datagrams and ticks keep the stream alive and the watchdog quiet, the run is one that delivers, on the timeline of the first packet |
| RemoteKeyLink.EndToEndOverLink | src/remote_key_server.cpp:171-295 | once the first edge has come before some tick, the key after a tick is the operator's, with a prompt receive thread and conditions on datagrams and tick times alone: every edge in time, packets often enough, the operator within the limit of the watchdog |
| RemoteKeyTiming.PttExactly | src/remote_key_server.cpp:276-320 | after a tick PTT is on if and only if it was on or a key-down is due or within the lead, and the key is down, the tail not over, or a key-down due within the tail |
| RemoteKeyTiming.PttDropped | src/remote_key_server.cpp:311-319 | with the key up, the tail over and every queued key-down at least the tail away, a tick leaves PTT off |
| RemoteKeyTiming.ReleaseExactly | src/remote_key_server.cpp:286-294 | the release time is set by a tick if and only if one of its edges lifts a key that is down |
| RemoteKeyTiming.PttReleasedInTime | src/remote_key_server.cpp:305-333 | over punctual runs in which no key-down is queued, PTT is off at the latest e after the tail, and never on between ticks that begin behind it |
| RemoteKeyTiming.WakeBounds | src/remote_key_server.cpp:322-333 | the wake time is at most 5 ms ahead, at most the next slot and at most the end of the tail, is one of the three, and is past if and only if a tail is past with PTT on and the key up |
| RemoteKeyTiming.BusyExactly | src/remote_key_server.cpp:322-333 | the worker does not sleep after a tick if and only if it leaves PTT on behind its tail for a key-down within the tail |
| RemoteKeyTiming.RaiseKeptExactly | src/remote_key_server.cpp:305-320 | when PTT raised ahead of a key-down survives its own tick, if and only if |
| RemoteKeyTiming.LongLeadChatters | src/remote_key_server.cpp:305-320 | a lead longer than the tail can raise and drop PTT in one tick |
| RemoteKeyTiming.KeyUpStartsTail | src/remote_key_server.cpp:291-292 | an edge that lifts the key at t starts a tail that ends at t + ptt_tail_ms |
| RemoteKeyTiming.TailHeld | src/remote_key_server.cpp:311-319 | PTT stays on through the tail in every run without reset or silence |
| RemoteKeyTiming.RaiseHolds | src/remote_key_server.cpp:305-320 | with a lead shorter than the tail, a tick that finds the next key-down within the lead leaves PTT held for it |
| RemoteKeyTiming.LeadHeld | src/remote_key_server.cpp:305-319 | PTT held for a queued key-down that is less than the tail ahead stays on until that key-down is applied, in every run without reset or silence |
| RemoteKeyTiming.RaisedUntilApplied | src/remote_key_server.cpp:305-320 | with a lead shorter than the tail, from the tick that raises PTT ahead of a key-down on PTT stays on until the key-down is applied, in every run without reset or silence |
| RemoteKeyTiming.OnTimeRun | src/remote_key_server.cpp:322-333 | if each tick starts at most e after the wake time chosen and the receive thread is not held up before the lock, the worker is never later than e for what it saw queued, nor than 5 ms + e at all |
| RemoteKeyTiming.AppliedOnTime | src/remote_key_server.cpp:276-333 | under the same conditions each edge is applied no earlier than its slot and at most e after it if queued at the last tick, 5 ms + e otherwise |
| RemoteKeyTiming.LeadTime | src/remote_key_server.cpp:305-319 | over runs: a key-down that comes to the front more than the lead ahead is applied only after PTT has been held for it, up to its application, from a moment more than lead - 5 ms - e ahead of its slot, if the tail is longer than the lead |
| RemoteKeyTiming.NextTickWithin | src/remote_key_server.cpp:324-333 | two ticks are at most 5 ms + e apart |
| CharPatterns.PatternsPlayable | src/keyer/keyer_char_patterns.cpp:7-57 | each character of the table has between 1 and 7 elements |
| CharPatterns.DecodesExactly | src/keyer/keyer_char_patterns.cpp:60-76 | looking up the elements of a character finds it first in the table, except for `}`, where `(` comes first |
| MorseCode.ElementsAreDigits | src/keyer/keyer_state_winkeyer.cpp:125-128 | the elements of a pattern are its binary digits, the most significant first, and a 1 is a dah |
| MorseCode.PatternIsWritten | src/keyer/keyer_char_patterns.cpp:6-57 | the table has exactly the characters with a code, each with the dots and dashes it is written with |
| MorseCode.KeyedAsWritten | src/keyer/keyer_state_winkeyer.cpp:107-129 | a character byte is keyed as it is written in dots and dashes, with a character space behind it; a bar is a half-dot gap, and what has no code a word space |
| WinKeyer.MissingSnoc | src/keyer/keyer.cpp:361-371 | what one more byte does to the framing of a stream |
| WinKeyer.MarksAppend | src/keyer/keyer_state_winkeyer.cpp:75-121 | the meaning of two streams one behind the other is the first, then the second at the speed the first ends at |
| WinKeyer.SpeedAppend | src/keyer/keyer_state_winkeyer.cpp:92-98 | the speed after two streams, likewise |
| CwDaemon.Compile | src/cw_daemon.cpp:9-120 | the loops over the message produce the WinKeyer bytes, or fail on an escape command without its number |
| CwDaemon.CompileCharacters | src/cw_daemon.cpp:17-65 | the text loop: speed marks, gap marks, upper-case characters |
| CwDaemon.CompileOne | src/cw_daemon.cpp:20-64 | one turn of the text loop, which takes in a whole run of equal speed marks |
| CwDaemon.CountRun | src/cw_daemon.cpp:22-34 | how many equal speed marks follow each other |
| CwDaemon.CompileCommand | src/cw_daemon.cpp:66-111 | the escape commands |
| CwDaemon.WeightIsMeantExactly | src/cw_daemon.cpp:80-87 | the weighting command gives the clamped weight if and only if cutting the sum to a byte leaves it on its side of the limits |
| CwDaemon.CompileTextMeans | src/cw_daemon.cpp:17-65 | the compiled bytes of a text, read as a WinKeyer stream, mean the text read character by character |
| CwDaemon.MessageMeans | src/cw_daemon.cpp:9-120 | a text message compiles to whole items that mean its text and end at the speed they began with |
| CwDaemon.TextAppend | src/cw_daemon.cpp:17-65 | the meaning of a text is that of its first part, then that of the second at the speed and gap reached |
| CwDaemon.CharacterSpeed | src/cw_daemon.cpp:20-56 | each character is keyed wholly at the initial speed plus twice the number of plus signs less minus signs before it, modulo 256 |
| CwDaemonBytes.CaseDoesNotMatter | src/cw_daemon.cpp:48-63 | texts that differ only in the case of letters compile to the same bytes |
| CwDaemonBytes.LettersAreKeyed | src/cw_daemon.cpp:52 | every letter of either case is keyed as it is written, with at least one element |
| CwDaemonBytes.TextEnds | src/cw_daemon.cpp:19 | a text ends at the first zero or byte above 127 |
| CwDaemonBytes.PlainTextIsItself | src/cw_daemon.cpp:48-63 | a text of printable characters without small letters and marks is sent as it is |
| CwDaemonBytes.SpeedMarksAre | src/cw_daemon.cpp:21-42 | n plus or minus signs before a plain text give 0x1C and the speed 2 x n higher or lower, modulo 256, the text, and 0x1C and the speed before if it is another |
| CwDaemonBytes.TildeCompiles | src/cw_daemon.cpp:43-61 | a tilde puts four bars behind the next character |
| CwDaemonBytes.ReadsNumber | src/cw_daemon.cpp:69 | a number is read as the decimal number that blanks, sign and digits show, or rejected without digits and outside 32 bits |
| CwDaemonBytes.SetsSpeed | src/cw_daemon.cpp:68-75 | command 2 with a number compiles to the speed command with that number |
| CwDaemonBytes.RaisesSpeed | src/cw_daemon.cpp:96-101 | command u adds its number to the speed, modulo 256 |
| CwDaemonBytes.LowersSpeed | src/cw_daemon.cpp:102-107 | command d subtracts it |
| CwDaemonBytes.Tunes | src/cw_daemon.cpp:88-95 | command c compiles to key-down and its seconds |
| CwDaemonBytes.SetsWeight | src/cw_daemon.cpp:80-87 | command 7 compiles to the weighting 50 plus its number, at most 90 |
| CwDaemonBytes.OtherEscapes | src/cw_daemon.cpp:66-111 | command 4 clears the buffer, any other does nothing |
| Ring.CircularBuffer.constructor | src/circular_buffer.h:15-16 | an empty ring of the given size |
| Ring.CircularBuffer.Put | src/circular_buffer.h:18-25 | the item goes to the end; a full ring forgets its oldest |
| Ring.CircularBuffer.Get | src/circular_buffer.h:27-38 | the oldest item is taken out, or the default value given |
| Ring.CircularBuffer.Peek | src/circular_buffer.h:40-45 | the oldest item, which stays |
| Ring.CircularBuffer.Reset | src/circular_buffer.h:48-51 | the ring is empty |
| Ring.CircularBuffer.Empty | src/circular_buffer.h:53-56 | whether nothing is held |
| Ring.CircularBuffer.Full | src/circular_buffer.h:58-61 | whether as much is held as fits |
| Ring.CircularBuffer.Size | src/circular_buffer.h:65-77 | how many items are held |
| Ring.KeepsTheNewest | src/circular_buffer.h:18-25 | after any number of puts the ring holds the newest items, in order |
| Ring.BufferedStream.Put | src/circular_buffer.h:95-100 | the item is put; passing the threshold makes the stream readable |
| Ring.BufferedStream.Get | src/circular_buffer.h:102-108 | the oldest item is taken; a drained stream is no longer readable |
| Ring.BufferedStream.CanReadNow | src/circular_buffer.h:112 | whether the stream is readable |
| Ring.ReadableExactly | src/circular_buffer.h:95-112 | after any run of operations the stream is readable if and only if it held more than its threshold since it was last empty |
| Keyer.Keyer.constructor | src/keyer/keyer.cpp:171-191 | idle, line up, ring empty, parser at rest |
| Keyer.Keyer.WinkeyerData | src/keyer/keyer.cpp:304-372 | one byte through the parser: argument, immediate command or buffered; for any bytes at all the argument index stays within the array of 15 |
| Keyer.Keyer.ExecutePending | src/keyer/keyer.cpp:331-360 | the immediate commands |
| Keyer.Keyer.ConsumeItem | src/keyer/keyer_state_winkeyer.cpp:75-122 | the player takes one item off the ring and acts on it |
| Keyer.Keyer.InterpretCommand | src/keyer/keyer_state_winkeyer.cpp:85-105 | a buffered command and its arguments |
| Keyer.Keyer.ReadArguments | src/keyer/keyer_state_winkeyer.cpp:87-90 | the arguments come off the ring in order |
| Keyer.Keyer.PlayCharacter | src/keyer/keyer_state_winkeyer.cpp:107-129 | a character starts its first element, an unknown one a word space, a bar a half-dot gap |
| Keyer.Keyer.UpdateWinkeyer | src/keyer/keyer_state_winkeyer.cpp:55-130 | the player: paddle break-in, next element, character space, next item |
| Keyer.Keyer.UpdateState | src/keyer/keyer.cpp:206 | the update of whatever the current state is |
| Keyer.Keyer.UpdateOther | src/keyer/keyer_state_idle.cpp:27-67 | the update of the states that do not read the ring |
| Keyer.Keyer.PassOnce | src/keyer/keyer.cpp:206-210 | one pass: update, and a transition unless the state stays |
| Keyer.Keyer.Update | src/keyer/keyer.cpp:193-212 | passes until a state stays, at most 16 |
| Keyer.Keyer.DoPasses | src/keyer/keyer.cpp:203-211 | the same loop for any cap |
| KeyerPaddles.PaddleChooses | src/keyer/keyer_state_idle.cpp:27-42 | in idle the left paddle, held or remembered, sends a dit and the right one a dah, at once and for its length |
| KeyerPaddles.OnlyTheOtherCounts | src/keyer/keyer_state_send_element.cpp:43-54 | while an element is on the key only the other paddle is remembered |
| KeyerPaddles.GapIsOver | src/keyer/keyer_state_inter_element_space.cpp:14-36 | after a gap a paddle, held or remembered, goes on with the next element, otherwise the character is over |
| KeyerPaddles.OtherStaysRemembered | src/keyer/keyer_state_send_element.cpp:23-30 | an element that starts takes its own paddle off the memory and leaves the other |
| KeyerPaddles.PauseIsOver | src/keyer/keyer_state_half_dot_gap.cpp:15-22 | after a character space or a half-dot gap the player goes on if it is on, otherwise the keyer is idle |
| KeyerPaddles.PauseForgets | src/keyer/keyer_state_idle.cpp:18-64 | an idle keyer forgets the last element if and only if a word space less one and a half gaps is over since it ended |
| KeyerPaddles.SqueezeChooses | src/keyer/keyer_state_idle.cpp:30-37 | with both paddles held it starts with a dit when it has forgotten, otherwise with the other element |
| KeyerPaddles.PaddleBreaksIn | src/keyer/keyer_state_winkeyer.cpp:55-61 | a paddle empties the buffer, turns the player off and is remembered |
| KeyerPaddles.BreakInIsKeyed | src/keyer/keyer_state_winkeyer.cpp:55-61 | and the next pass keys its element |
| KeyerPaddles.CountsAre | src/keyer/keyer_state_winkeyer.cpp:13-51 | the number of arguments of each command byte, and which commands are buffered |
| KeyerFraming.InitiallyReady | src/keyer/keyer.cpp:171-191 | the initial state satisfies every invariant used |
| KeyerFraming.FedFramed | src/keyer/keyer.cpp:304-372 | a byte keeps the ring framed and the parser waiting for one kind of argument only, unless the ring is full |
| KeyerFraming.FramedRun | src/keyer/keyer.cpp:304-372 | for any bytes between any ticks, without overflow the ring splits into whole items and no byte below 0x18 stands where an item starts |
| KeyerOverflow.CatchesUpExactly | src/keyer/keyer_state_winkeyer.cpp:75-90 | a second reading of a stream that starts some bytes into it ends with the same framing if and only if it catches up with the first |
| KeyerOverflow.OverflowExactly | src/keyer/keyer.cpp:361-371 | a byte stored in a full ring keeps the framing if and only if the reading that lost the oldest byte catches up |
| KeyerOverflow.RingHolds | src/keyer/keyer.h:82 | the ring holds 160 bytes, and the next drives out the oldest |
| KeyerOverflow.CharacterOverflow | src/keyer/keyer.h:82 | an overflow that forgets a character keeps the framing |
| KeyerOverflow.CommandOverflow | src/keyer/keyer.h:82 | an overflow that forgets a speed command loses the framing below 24 wpm and keeps it from 30 on; in between if and only if the items behind catch up with one byte lost, or two at 27 |
| KeyerOverflow.FastSpeedIsKeyed | src/keyer/keyer_state_winkeyer.cpp:75-121 | from 32 wpm on the forgotten command leaves a character that nobody sent |
| KeyerOverflow.DefaultSpeedSwallows | src/keyer/keyer_state_winkeyer.cpp:75-98 | at the default 24 wpm a character behind the forgotten command is lost with the speed |
| KeyerParser.ParserFollowsBytes | src/keyer/keyer.cpp:304-372 | the parser is a function of the bytes fed, however ticks interleave, whatever the paddles, and even if the ring overflows |
| KeyerFraming.FedLine | src/keyer/keyer.cpp:351-357 | a byte moves the key line only if it completes an immediate key command |
| KeyerFraming.LineRun | src/keyer/keyer_state_send_element.cpp:12-41 | in every run without immediate key commands the key is down exactly while an element is sent |
| KeyerFraming.SqueezingRun | src/keyer/keyer_state_idle.cpp:27-42 | with both paddles held the elements strictly alternate, for any clock and any bytes |
| KeyerPlay.PassesConserve | src/keyer/keyer_state_winkeyer.cpp:63-129 | a tick moves marks from the ring and the character in progress to what has been keyed, losing, adding and reordering none |
| KeyerPlay.MovesConserve | src/keyer/keyer.cpp:304-372 | the same in every interleaving of fed bytes and ticks, and the final speed is the same too |
| KeyerProgress.PassesSettle | src/keyer/keyer.cpp:193-212 | the passes of a tick settle within a rank of at most 9 |
| KeyerProgress.CapNeverCuts | src/keyer/keyer.cpp:203-210 | with a weighted dit of at least 2 ms and a dah and a word space of at least 1 ms the cap of 16 never cuts a tick short |
| KeyerProgress.PassesWork | src/keyer/keyer_state_winkeyer.cpp:63-129 | a tick never adds to the work left, and lowers it when something is due |
| KeyerProgress.Drains | src/keyer/keyer_state_winkeyer.cpp:63-129 | among any ticks, a ring of whole items has drained once as many of them were due as there is work |
| KeyerDrains.InitiallyNear | src/keyer/keyer.cpp:171-191 | a keyer that has just started waits for nothing further ahead than its longest wait |
| KeyerDrains.TickShortens | src/keyer/keyer.cpp:193-212 | a tick leaves no more time to wait for than was left, less the time gone by |
| KeyerDrains.DrainsByTheClock | src/keyer/keyer_state_winkeyer.cpp:63-129 | for ticks at any times at most a step apart, a ring of whole items has drained once the clock has advanced by the longest wait and a step for each piece of work |
| KeyerLengths.ElementsTakeTheirTime | src/keyer/keyer.cpp:104-114 | with the player on, a dit is 1200 ms divided by the speed and a dah the ratio times that, cut to whole milliseconds |
| KeyerLengths.DahIsThreeDits | src/keyer/keyer.cpp:104-114 | with the ratio 3 a dah is three dits and at most 2 ms more |
| KeyerLengths.NeutralWeighting | src/keyer/keyer.cpp:119-136 | at weighting 50 elements keep their length and the gap is a dit |
| KeyerLengths.WeightingLengthens | src/keyer/keyer.cpp:119-127 | more weighting never gives a shorter element |
| KeyerLengths.WeightingShortensGaps | src/keyer/keyer.cpp:129-136 | nor a longer gap |
| KeyerLengths.WordSpaceIsDits | src/keyer/keyer.cpp:403-410 | with the player on a word space is as many dits as the style says, six by default |
| KeyerLengths.StartsAt24 | src/keyer/keyer.cpp:171-174 | the keyer starts at the 24 wpm of its style, with dits of 50 ms and dahs of 150 ms |
| KeyerLengths.PaddlesKeyTheTimings | src/keyer/keyer.cpp:115-136 | with the player off, in the usual proportions, a dit and a gap are one dit of the timings, a dah three and a word space six, cut to whole milliseconds |
| KeyerLengths.PaddlesKeepTheBeat | src/keyer/keyer.cpp:115-136 | with the player off and without letterspace a dit and its gap take two dits for every weighting and compensation, up to the two cuts |
| KeyerLengths.HalfGapIsHalf | src/keyer/keyer_state_half_dot_gap.cpp:10-13 | two half-dot gaps are a keyed dit or a millisecond less |
| KeyerTiming.WaitsOut | src/keyer/keyer_state_send_element.cpp:43-54 | a timed state lasts until its deadline, whatever bytes come and whatever the paddles do |
| KeyerTiming.ElementStarts | src/keyer/keyer_state_send_element.cpp:12-16 | an element that a tick starts is due to end one element length after the tick |
| KeyerTiming.ElementEnds | src/keyer/keyer_state_send_element.cpp:33-54 | the first tick past the deadline lifts the key and starts the gap |
| KeyerTiming.ElementLasts | src/keyer/keyer_state_inter_element_space.cpp:10-36 | over whole runs, the key is down for one element length rounded up to a tick, then up for at least one gap |
| KeyerTiming.BeatOfThePlayer | src/keyer/keyer.cpp:119-136 | a dit and its gap take two dits at every speed and weighting, a millisecond less exactly if the weighted dit is not whole |
| KeyerTiming.CharacterSpaceFollows | src/keyer/keyer_state_autospace.cpp:10-15 | the character space goes on where the gap behind the last element ends |
| KeyerTiming.WordSpaceFollows | src/keyer/keyer_state_inter_word_space.cpp:10-24 | a word space is measured from the last key-up and takes its character off the ring |
| CwdaemonServer.ClientWorker.HandleMessage | src/cwdaemon_server.cpp:98-134 | the exit command and a malformed number end the loop, an abort stops a tone, any other message is compiled at the current speed and forwarded; a tuning command leaves its seconds behind |
| CwdaemonServer.ClientWorker.CheckTuning | src/cwdaemon_server.cpp:135-139 | tuning past its time is stopped |
| CwdaemonServer.ClientWorker.DoRound | src/cwdaemon_server.cpp:97-140 | one round of the loop with its two ends |
| CwdaemonServer.ClientWorker.Forward | src/cwdaemon_server.cpp:131-133 | all bytes go to the keyer in order |
| CwdaemonServer.StreamStored | src/keyer/keyer.cpp:361-371 | a whole stream is stored in the ring as it is |
| CwdaemonServer.MessageRests | src/cwdaemon_server.cpp:98-134 | any message of any kind finds the parser at rest and leaves it so, whether or not the ring has room |
| CwdaemonServer.RestsBetweenMessages | src/cwdaemon_server.cpp:97-140 | for any messages and any interleaving of their bytes with ticks, the parser is at rest when it has the bytes of a whole number of rounds |
| CwdaemonServer.MessageMovesLine | src/cwdaemon_server.cpp:98-134 | only tuning moves the key line |
| CwdaemonServer.TuningEnds | src/cwdaemon_server.cpp:135-139 | the check lifts the key when it finds the time over |
| CwdaemonServer.TuningKeepsTime | src/cwdaemon_server.cpp:97-140 | over runs of the loop, after each round a tone that is on has its time still before it, while the worker runs |
| CwdaemonServer.ToneOutlivesExactly | src/cwdaemon_server.cpp:97-140 | past the last deadline the worker still has its tuning flag set if and only if an exit command or a malformed number came while it was tuning |
| CwdaemonServer.ToneShows | src/cwdaemon_server.cpp:97-140 | over runs of the loop, the bytes sent leave the key line down exactly while the worker is tuning, if nothing else moves it |
| CwdaemonServer.ExitKeepsTone | src/cwdaemon_server.cpp:107-110 | after an exit command during a tone nothing more is sent |
| CwdaemonServer.ToneStaysOn | src/keyer/keyer_state_idle.cpp:27-67 | and no number of ticks of an idle keyer lifts the key |
| CwdaemonEscapes.SpeedCommandSets | src/keyer/keyer.cpp:334-343 | the speed command sets player, profile and timings to one speed and moves no key |
| CwdaemonEscapes.WeightCommandSets | src/keyer/keyer.cpp:344-347 | the weighting command sets the weighting and leaves the speed |
| CwdaemonEscapes.ToneLasts | src/cwdaemon_server.cpp:121-134 | command c lowers the key line for as many seconds as its number says |
| CwdaemonEscapes.ToneEndsExactly | src/cwdaemon_server.cpp:135-139 | the check lifts the key if and only if the tone's time is over |
| CwdaemonEscapes.AbortAndExit | src/cwdaemon_server.cpp:102-133 | command 5 ends the worker with nothing sent; command 4 lifts the key during a tone, and clears the buffer otherwise |
| CwdaemonEscapes.SpeedIsSet | src/cw_daemon.cpp:68-75 | command 2 leaves player and profile at its number |
| CwdaemonEscapes.SpeedIsRaised | src/cw_daemon.cpp:96-101 | command u leaves them that much faster than the speed it is compiled at |
| CwdaemonEscapes.SpeedIsLowered | src/cw_daemon.cpp:102-107 | command d leaves them that much slower |
| CwdaemonSession.SessionMeans | src/cw_daemon.cpp:9-120 | the bytes of a run of text messages are whole items that mean the texts |
| CwdaemonSession.KeysAPrefix | src/keyer/keyer_state_winkeyer.cpp:63-129 | at every moment of every interleaving, what has been keyed is a prefix of what the texts mean |
| CwdaemonSession.KeysTheTexts | src/keyer/keyer_state_winkeyer.cpp:63-129 | fed and drained, exactly the texts have been keyed, each character followed by one character space, and the speed is what it was |
| CwdaemonSession.TextsGetKeyed | src/keyer/keyer_state_winkeyer.cpp:63-129 | and that happens as the clock advances, for ticks at any times at most a step apart |
| CwdaemonSession.ShortSessionFits | src/keyer/keyer.h:82 | over runs: messages of at most 160 bytes together can be fed at any pace |
| CwdaemonSession.ShortTextsGetKeyed | src/keyer/keyer_state_winkeyer.cpp:63-129 | texts of at most 160 bytes, fed and ticked in any order, have been keyed exactly after a time that depends on their length |
| CwdaemonSession.ConfiguredAtFirst | src/cwdaemon_server.cpp:181-184 | the speed command of the constructor leaves the speed of the profile, which the worker compiles for, equal to the speed the keyer plays at |
| CwdaemonSession.ConfiguredAgain | src/cwdaemon_server.cpp:97-134 | and so they are again when the texts of a session have been keyed |
| CwdaemonSession.SetSpeedHolds | src/keyer/keyer.cpp:334-343 | an immediate speed lasts if and only if no other speed is left in the ring |
| CwdaemonAbort.AbortClears | src/keyer/keyer.cpp:348-350 | the abort command empties the ring and leaves the speed that the player has at that moment |
| CwdaemonAbort.AbortKeepsSpeedExactly | src/keyer/keyer.cpp:348-350 | after an abort the keyer plays at the speed of its profile if and only if it did when the abort came; if not, the command that restores the speed was still in the ring |
| CwdaemonAbort.AbortLosesSpeed | src/cw_daemon.cpp:113-117 | a run in which texts that begin with n plus signs are aborted after one tick, which leaves the keyer at the initial speed plus 2 x n, modulo 256 |
| RigctldFraming.HandleTakesCommands | src/rigctld_server.cpp:532-552 | the command loop interprets the lines of the buffer up to the first quit and keeps the unfinished line |
| RigctldFraming.HandleAnswers | src/rigctld_server.cpp:542-550 | each command is answered once, in order, with an error report if it threw |
| RigctldFraming.ServeConserves | src/rigctld_server.cpp:558-570 | what a turn sends and leaves pending is what was pending and what it answered |
| RigctldFraming.RunConserves | src/rigctld_server.cpp:375-380 | in every run bytes written plus bytes pending are the concatenated responses |
| RigctldFraming.ChunksDoNotMatter | src/rigctld_server.cpp:512-556 | commands interpreted and commands waiting are the lines of the stream up to the first quit, whatever the chunks and whether or not the rig is connected meanwhile |
| RigctldFraming.ConnectedRun | src/rigctld_server.cpp:530-553 | with the rig connected nothing waits |
| RigctldFraming.SeesAllExactly | src/rigctld_server.cpp:527-528 | the stream interpreted is the stream received if and only if no NUL was received |
| RigctldFraming.CommandsOfTheBytes | src/rigctld_server.cpp:512-556 | the commands of a connection are a function of its bytes up to the first quit, for NUL-free bytes |
| RigctldFraming.NulDependsOnChunks | src/rigctld_server.cpp:527-528 | with a NUL, the same bytes in one chunk and in two give different commands |
| RigctldFraming.LinesAndTail | src/rigctld_server.cpp:532-552 | the lines and the unfinished line are the pieces of the stream split at line feeds |
| RigctldFraming.WritesTheFront | src/rigctld_server.cpp:558-570 | a turn that can only write sends what the write takes from the front and keeps the rest |
| RigctldFraming.WireIsJoined | src/rigctld_server.cpp:375-380 | each response goes out with a line feed behind it |
| RigctldFraming.ReplyBytes | src/rigctld_server.cpp:542-550 | what a client is sent for a command: its responses, and `RPRT -1` if it threw; for a quit `RPRT 0` |
| RigctldFraming.QuitExactly | src/rigctld_server.cpp:226 | a command is a quit if and only if it is q or Q with nothing but white space around it |
| RigctldFraming.GivesUpExactly | src/rigctld_server.cpp:104-125 | a connection is given up if and only if poll reports an error, the stream fails or ends, a quit is handled, or a write with output pending fails |
| RigctldServer.SendResponse | src/rigctld_server.cpp:375-380 | a response and a line feed go to the end of the client's output |
| RigctldServer.WriteFromClient | src/rigctld_server.cpp:558-570 | what the write took leaves the front of the output |
| RigctldServer.InterpretCommand | src/rigctld_server.cpp:348-366 | the replies of a command are sent; a quit is answered, flushed and ends the connection |
| RigctldServer.HandleCommands | src/rigctld_server.cpp:532-552 | the loop that finds, interprets and erases lines |
| RigctldServer.ReadFromClient | src/rigctld_server.cpp:512-556 | a received chunk is appended and, with the rig connected, its lines handled |
| RigctldServer.RigctldServer.constructor | src/rigctld_server.cpp:72-73 | the poll set of a server without clients |
| RigctldServer.RigctldServer.UpdatePollDescriptors | src/rigctld_server.cpp:466-486 | the new poll set describes listener and clients, POLLOUT for just those with output |
| RigctldServer.RigctldServer.UpdatePollFlags | src/rigctld_server.cpp:584-594 | POLLOUT is set for just the clients with output, and nothing else changes |
| RigctldServer.RigctldServer.AcceptClient | src/rigctld_server.cpp:488-510 | a new descriptor gets empty buffers |
| RigctldServer.RigctldServer.ServeClient | src/rigctld_server.cpp:104-125 | one client's turn: error, read, write |
| RigctldServer.RigctldServer.ServeClients | src/rigctld_server.cpp:104-125 | every client of the poll set gets one turn, no other is touched |
| RigctldServer.RigctldServer.HandleListener | src/rigctld_server.cpp:104-117 | the listener's part of the loop |
| RigctldServer.RigctldServer.HandleEvents | src/rigctld_server.cpp:101-133 | accept, serve and remove give the clients of the next round |
| RigctldServer.RigctldServer.RemoveClients | src/rigctld_server.cpp:127-133 | just the descriptors found to be done with are gone |
| RigctldServer.RigctldServer.FinishRound | src/rigctld_server.cpp:135-139 | poll set rebuilt if needed and flags set describe the clients |
| RigctldServer.RigctldServer.DropClients | src/rigctld_server.cpp:77-84 | no clients and a poll set of the listener alone |
| RigctldServer.RigctldServer.Round | src/rigctld_server.cpp:99-140 | at every call of poll the descriptors match the clients, POLLOUT for just those with output |
| RigctldServer.PollsForOutput | src/rigctld_server.cpp:584-594 | the poll set has the listener first, one entry for each client and no other, and asks for POLLOUT for just the clients with output |
| RigctldServer.RebuildsWhenNeeded | src/rigctld_server.cpp:135-139 | the poll set has the right descriptors after a round if and only if it is not the case that descriptor 0 joins and nothing leaves |
| RigctldServer.FlagsNeedRoom | src/rigctld_server.cpp:584-594 | when descriptor 0 joins and nothing leaves, the poll set is not rebuilt and has as many places as there are clients, one too few for the walk that sets the flags |
| RigctldServer.AscendingGrows | src/rigctld_server.cpp:476-483 | the clients are walked in order of their descriptors, none twice |
| Morse.InterpolatedBetween | src/keyer/morse.cpp:28-35 | the interpolation stays between its end values |
| Morse.InterpolatedMonotone | src/keyer/morse.cpp:28-35 | and is monotone in the speed |
| Morse.CalculateTimings | src/keyer/morse.cpp:37-91 | the stepwise assignments give the timings proved about |
| Morse.InterpolatedExactly | src/keyer/morse.cpp:28-35 | the interpolation is the end values outside the range and the line through them inside |
| Morse.AdjustedEnds | src/keyer/morse.cpp:41-48 | ratio and letterspace have their own low and high values outside the speed range |
| Morse.DitTakesItsShare | src/keyer/morse.cpp:50-54 | a dit times the speed times the impulses of PARIS (19 + 4 x ratio + 4 x character space + word space) is a minute |
| Morse.DahsFollowTheRatio | src/keyer/morse.cpp:55-83 | a dah is the ratio times a dit, before and after weighting, with the compensation added to both alike |
| Morse.GapTakesTheRest | src/keyer/morse.cpp:74-88 | a weighted dit and its gap take two dits and the letterspace percentage of three weighted dits |
| Morse.DefaultIsUsual | src/keyer/morse.h:26-47 | the style the daemon starts with has the usual proportions, at 24 wpm |
| Morse.UsualDit | src/keyer/morse.cpp:50-54 | then PARIS has 49 dits |
| Morse.UsualLengths | src/keyer/morse.cpp:55-88 | dahs are three dits, spaces three and six, gaps one |
| Morse.ParisFillsTheMinute | src/keyer/morse.cpp:50-72 | farnsworth_wpm x (non-space impulses x dit + 4 x character space + word space) = 60000 ms for every style |
| Morse.WeightingKeepsTheBeat | src/keyer/morse.cpp:75-88 | weighted dit plus weighted gap is two dits if and only if no letterspace is added |
| Morse.EqualSpeedsGiveDitSpaces | src/keyer/morse.cpp:61-72 | at equal speeds the spaces are whole numbers of dits |
| StringUtil.ReplaceAll | src/string_util.h:44-53 | replacing in place is splitting and joining, and ends even if the replacement contains what is replaced |
| StringUtil.SplitString | src/string_util.h:55-65 | for a delimiter that is not empty the loop cuts the string into the pieces proved about |
| StringUtil.EmptyDelimiterStays | src/string_util.h:59-62 | for an empty delimiter every turn of the loop stays where it is |
| StringUtil.JoinUndoesSplit | src/string_util.h:55-65 | joining the pieces with the delimiter gives the string back |
| StringUtil.SplitCutsLeftmost | src/string_util.h:55-65 | each piece runs up to the first delimiter after it, the last holds none |
| StringUtil.SplitUndoesJoin | src/string_util.h:55-65 | splitting a join gives the pieces back if and only if they are such pieces |
| StringUtil.BlanksAre | src/string_util.h:34-38 | white space is tab, line feed, vertical tab, form feed, carriage return and space |
| StringUtil.TrimsTo | src/string_util.h:20-38 | trimming a text with white space around it gives the text if and only if the text itself has none at its ends |

## Left out

- RemoteKeySafety.FreshRun: assumes that the receive thread is not held up between reading the clock and taking the lock; `ParkedReceiverRace` shows that it needs to.
- RemoteKeyQueue.ResetFirstRun: assumes the same, and a playout delay.
- RemoteKeyQueue.OrderedRun: says nothing across a session start, where the code plays edges again (`PlayedAgain`); times and timestamps below 2^62, so that 64-bit sums do not wrap; all 64-bit arithmetic is otherwise written with its wrap-around.
- RemoteKeyPrefix.AcceptsPrefix: the operator's timestamps increase and are at least 1.
- RemoteKeyReplay.EndToEnd: the operator's timestamps are at least 1, and no reset, silence or watchdog intervenes.
- RemoteKeyLink.EndToEndOverLink: assumes a playout delay and a receive thread that is not held up before the lock; that a packet does not come just after a tick has read the clock is a condition, because of `LiveStreamSilenced`.
- RemoteKeyTiming.OnTimeRun: assumes that the receive thread is not held up before the lock, because a packet that was can bring edges whose slots are long past.
- RemoteKeyTiming.AppliedOnTime: assumes the same.
- RemoteKeyTiming.LeadTime: assumes the same, and that no reset, silence or new session intervenes.
- RemoteKeyTiming.TailHeld: speaks of key-ups by an edge; the watchdog's key-up starts no tail in the code.
- KeyerProgress.CapNeverCuts: the paddles are released and the clock does not move within a tick; a style whose dah or word space has no length is excluded.
- KeyerDrains.DrainsByTheClock: no bytes are fed meanwhile; `TextsGetKeyed` and `ShortTextsGetKeyed` have them fed before.
- CwdaemonSession.KeysTheTexts: the paddles are released, as they always are in this daemon, and no immediate command comes between the texts.
- CharPatterns.DecodesExactly: does not compare the table with the alphabet of ITU-R M.1677-1.
- RigctldServer.RigctldServer.Round: the descriptor that accept returns is new and is not one that `RebuildsWhenNeeded` excludes, because the code then writes past its array.
- StringUtil.SplitString: needs a delimiter, because the code does not end without one.
- Sockets, serial ioctls, the clock, sleeping, thread priorities, logging and configuration files; what they return is handed in.
- What an exception that a malformed number in an escape command throws does beyond ending the worker.
- Weakly ordered atomics: each load, store and exchange is one step, and reading the clock is one step with the store that follows it.
- IEEE rounding (floats are reals), wrap-around of the 32-bit millisecond clock, and a speed of 0 wpm, at which lengths are undefined.
- A platform whose `char` is unsigned: bytes from 128 on end a text here.
- Memory recording and playback, profiles other than the current one, and the characters reported back while sending.
- What rigctld commands do to the rig: the replies of a command are handed in, only the quit command is interpreted.
- The audio stream, the oscillator and the renderer, the configuration reader and the client registries, which are input and output or add nothing hard.
