/** What the bytes and bits of a datagram do, said of the bytes themselves. */
module RemoteKeyWire {
  import opened FixedWidth
  import opened Wrappers
  import opened RemoteKeyProtocol
  import opened RemoteKeyServer
  import opened RemoteKeyMachine
  import opened RemoteKeySafety

  // ---- fields ----

  /** A byte as a number of any size. */
  function Byte(b: seq<uint8>, i: nat): nat
    requires i < |b|
  {
    b[i]
  }

  /** The eight bytes from at on, the first the most significant. */
  function TimeAt(b: seq<uint8>, at: nat): nat
    requires at + 8 <= |b|
  {
    0x100_0000_0000_0000 * Byte(b, at) + 0x1_0000_0000_0000 * Byte(b, at + 1) + 0x100_0000_0000 * Byte(b, at + 2)
    + 0x1_0000_0000 * Byte(b, at + 3) + 0x100_0000 * Byte(b, at + 4) + 0x1_0000 * Byte(b, at + 5)
    + 0x100 * Byte(b, at + 6) + Byte(b, at + 7)
  }

  lemma {:induction false} NextByte(b: seq<uint8>, n: nat)
    requires n < |b|
    ensures FromBigEndian(b[..n + 1]) == FromBigEndian(b[..n]) * 256 + b[n]
  {
    assert b[..n + 1][..n] == b[..n];
  }

  lemma {:induction false} FourBytes(b: seq<uint8>)
    requires |b| >= 4
    ensures FromBigEndian(b[..4]) == 0x100_0000 * Byte(b, 0) + 0x1_0000 * Byte(b, 1) + 0x100 * Byte(b, 2) + Byte(b, 3)
  {
    NextByte(b, 0);
    NextByte(b, 1);
    NextByte(b, 2);
    NextByte(b, 3);
  }

  lemma {:induction false} EightBytes(b: seq<uint8>)
    requires |b| == 8
    ensures FromBigEndian(b) == TimeAt(b, 0)
  {
    FourBytes(b);
    NextByte(b, 4);
    NextByte(b, 5);
    NextByte(b, 6);
    NextByte(b, 7);
    assert b[..8] == b;
  }

  lemma {:induction false} EdgesAt(body: seq<uint8>, count: nat, i: nat)
    requires count * EDGE_BYTES <= |body| && i < count
    ensures EdgesOf(body, count)[i] == EdgeAt(body, i)
  {
    if i < count - 1 {
      EdgesAt(body, count - 1, i);
    }
  }

  lemma {:induction false} EdgeFields(body: seq<uint8>, i: nat)
    requires (i + 1) * EDGE_BYTES <= |body|
    ensures EdgeAt(body, i) == Edge(TimeAt(body, 9 * i), body[9 * i + 8])
  {
    EightBytes(body[9 * i..9 * i + 8]);
  }

  /** Which datagrams are accepted, and what is read from them, byte by byte. */
  lemma {:induction false} BytesDecide(b: seq<uint8>)
    ensures Decoded(b).Some? <==> |b| >= 6 && b[0] == 0xC7 && b[1] == 1 && |b| >= 6 + 9 * Byte(b, 5)
    ensures Decoded(b).Some? ==>
      var pkt := Decoded(b).value;
      && pkt.flags == b[2] && pkt.sessionId == 256 * Byte(b, 3) + Byte(b, 4) && |pkt.edges| == b[5]
      && forall i {:trigger pkt.edges[i]} :: 0 <= i < b[5] ==> pkt.edges[i] == Edge(TimeAt(b, 6 + 9 * i), b[14 + 9 * i])
  {
    if Decoded(b).Some? {
      var body := b[6..];
      forall i | 0 <= i < b[5]
        ensures EdgesOf(body, b[5])[i] == Edge(TimeAt(b, 6 + 9 * i), b[14 + 9 * i])
      {
        EdgesAt(body, b[5], i);
        EdgeFields(body, i);
      }
    }
  }

  // ---- flags ----

  /** The reset flag is the lowest bit, and no other bit of the flags matters. */
  lemma {:induction false} ResetBit(flags: uint8)
    ensures IsReset(flags) <==> (flags as bv8) & 0x01 != 0
  {
  }

  /** The key is the lowest bit of the state byte, whatever the bit of the PTT request. */
  lemma {:induction false} KeyBit(state: uint8)
    ensures IsDown(state) <==> (state as bv8) & 0x01 != 0
  {
  }

  /** The bytes of a datagram ask for a reset when it is taken in. */
  predicate AsksForReset(s: Shared, b: seq<uint8>)
    requires |b| >= 6
  {
    !s.haveSession || s.sessionId != 256 * Byte(b, 3) + Byte(b, 4) || (b[2] as bv8) & 0x01 != 0
  }

  lemma {:induction false} AsksExactly(s: Shared, b: seq<uint8>)
    requires Decoded(b).Some?
    ensures |b| >= 6 && (StartsSession(s, Decoded(b).value) <==> AsksForReset(s, b)) && |Decoded(b).value.edges| == b[5]
  {
    BytesDecide(b);
    ResetBit(b[2]);
  }

  /** Exactly such a datagram starts a session: then nothing that was queued stays; otherwise all of it does. */
  lemma {:induction false} ResetsExactly(cfg: Config, s: Shared, now: uint64, b: seq<uint8>)
    requires Decoded(b).Some? && !s.resetRequested
    ensures var after := Enqueued(cfg, s, now, Decoded(b).value);
      && (after.resetRequested <==> AsksForReset(s, b))
      && (AsksForReset(s, b) ==> |after.queue| <= b[5])
      && (!AsksForReset(s, b) ==> s.queue <= after.queue)
  {
    var pkt := Decoded(b).value;
    AsksExactly(s, b);
    AcceptKeepsAtomics(cfg, StartSession(s, pkt), now, pkt.edges);
    AcceptGrows(cfg, StartSession(s, pkt), now, pkt.edges);
  }

  lemma {:induction false} AcceptGrows(cfg: Config, s: Shared, now: uint64, edges: seq<Edge>)
    ensures var after := AcceptEdges(cfg, s, now, edges);
      s.queue <= after.queue && |after.queue| <= |s.queue| + |edges|
  {
    if edges != [] {
      AcceptGrows(cfg, s, now, edges[..|edges| - 1]);
    }
  }

  /** A keepalive empties the queue or leaves it, by the same bytes. */
  lemma {:induction false} KeepaliveResetsExactly(cfg: Config, s: Shared, now: uint64, b: seq<uint8>)
    requires Decoded(b).Some? && b[5] == 0 && !s.resetRequested
    ensures var after := Enqueued(cfg, s, now, Decoded(b).value);
      if AsksForReset(s, b) then after.resetRequested && after.queue == [] && !after.haveAnchor && after.highWater == 0
      else after == s
  {
    AsksExactly(s, b);
  }

  /** And then the next tick lifts the key and releases PTT, on the lines too; otherwise it leaves both alone. */
  lemma {:induction false} ResetLifts(m: Machine, b: seq<uint8>, t: uint64, opens: bool)
    requires m.rx.Received? && Decoded(b) == Some(m.rx.pkt) && m.replay.Asleep? && !m.s.resetRequested
    requires Enabled(Step(m, EnqueuePacket), BeginTick(t, opens))
    ensures var rig := Step(Step(m, EnqueuePacket), BeginTick(t, opens)).rig;
      if AsksForReset(m.s, b) then
        !rig.keyDown && !rig.pttOn && (rig.port.open ==> !rig.port.dtr && !rig.port.rts)
      else
        rig.keyDown == m.rig.keyDown && rig.pttOn == m.rig.pttOn
  {
    AsksExactly(m.s, b);
    AcceptKeepsAtomics(m.cfg, StartSession(m.s, m.rx.pkt), m.rx.now, m.rx.pkt.edges);
  }

  /** Where the last edge that a tick finds due comes from a datagram, its state byte decides the key. */
  lemma {:induction false} StateByteKeys(m: SafeMachine)
    requires m.replay.Ready? && Due(m) > 0
    ensures Step(m, FinishTick).rig.keyDown <==> (m.s.queue[Due(m) - 1].state as bv8) & 0x01 != 0
  {
    FinishedKey(m);
    KeyBit(m.s.queue[Due(m) - 1].state);
  }
}
