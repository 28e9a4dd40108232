/** The wire format of remote paddle keying (src/remote_key_protocol.h). */
module RemoteKeyProtocol {
  import opened FixedWidth
  import opened Wrappers
  import opened Sequences

  const MAGIC: uint8 := 0xC7
  const VERSION: uint8 := 1
  const HEADER_BYTES := 6
  const EDGE_BYTES := 9
  const MAX_EDGES := 32
  const MAX_PACKET_BYTES := HEADER_BYTES + MAX_EDGES * EDGE_BYTES

  datatype Edge = Edge(ts: uint64, state: uint8)

  datatype Packet = Packet(sessionId: uint16, flags: uint8, edges: seq<Edge>)

  /** state & KEY_DOWN */
  predicate IsDown(state: uint8) {
    state % 2 == 1
  }

  /** flags & FLAG_SESSION_RESET */
  predicate IsReset(flags: uint8) {
    flags % 2 == 1
  }

  // ---- big-endian fields ----

  function Pow256(n: nat): (p: nat)
    ensures p > 0
  {
    if n == 0 then 1 else 256 * Pow256(n - 1)
  }

  /** v >> (8 * n) */
  function ShiftedBytes(v: nat, n: nat): nat {
    if n == 0 then v else ShiftedBytes(v, n - 1) / 256
  }

  /** The n low-order bytes of v, most significant first. */
  function BigEndian(v: nat, n: nat): (b: seq<uint8>)
    ensures |b| == n
  {
    if n == 0 then [] else BigEndian(v / 256, n - 1) + [v % 256]
  }

  function FromBigEndian(b: seq<uint8>): nat {
    if b == [] then 0 else FromBigEndian(b[..|b| - 1]) * 256 + b[|b| - 1]
  }

  lemma {:induction false} FieldFits(b: seq<uint8>)
    ensures FromBigEndian(b) < Pow256(|b|)
  {
    if b != [] {
      FieldFits(b[..|b| - 1]);
    }
  }

  lemma {:induction false} FieldRoundTrip(v: nat, n: nat)
    requires v < Pow256(n)
    ensures FromBigEndian(BigEndian(v, n)) == v
  {
    if n > 0 {
      FieldRoundTrip(v / 256, n - 1);
      assert BigEndian(v, n)[..n - 1] == BigEndian(v / 256, n - 1);
    }
  }

  lemma {:induction false} JoinedByte(v: nat, b: uint8)
    ensures (v * 256 + b) / 256 == v && (v * 256 + b) % 256 == b
  {
  }

  lemma {:induction false} FieldBytesRoundTrip(b: seq<uint8>)
    ensures BigEndian(FromBigEndian(b), |b|) == b
  {
    if b != [] {
      var front, last := b[..|b| - 1], b[|b| - 1];
      FieldBytesRoundTrip(front);
      JoinedByte(FromBigEndian(front), last);
      assert b == front + [last];
    }
  }

  lemma {:induction false} Pow256Of8()
    ensures Pow256(8) == TWO_TO_THE_64
  {
    assert Pow256(4) == 256 * (256 * (256 * 256));
    assert Pow256(8) == 256 * (256 * (256 * (256 * Pow256(4))));
  }

  method PutU16(p: array<uint8>, at: nat, v: uint16)
    requires at + 2 <= p.Length
    modifies p
    ensures p[..] == old(p[..at]) + BigEndian(v, 2) + old(p[at + 2..])
  {
    p[at] := v / 256;
    p[at + 1] := v % 256;
    assert BigEndian(v, 2) == BigEndian(v / 256, 1) + [v % 256];
    assert BigEndian(v / 256, 1) == [] + [v / 256];
  }

  method PutU64(p: array<uint8>, at: nat, v: uint64)
    requires at + 8 <= p.Length
    modifies p
    ensures p[..] == old(p[..at]) + BigEndian(v, 8) + old(p[at + 8..])
  {
    for i := 0 to 8
      invariant p[..at] == old(p[..at])
      invariant p[at..at + i] == BigEndian(ShiftedBytes(v, 8 - i), i)
      invariant p[at + 8..] == old(p[at + 8..])
    {
      p[at + i] := ShiftedBytes(v, 7 - i) % 256;
      assert p[at..at + i + 1] == p[at..at + i] + [p[at + i]];
    }
    assert p[..] == p[..at] + p[at..at + 8] + p[at + 8..];
  }

  method GetU64(p: array<uint8>, at: nat) returns (v: uint64)
    requires at + 8 <= p.Length
    ensures v == FromBigEndian(p[at..at + 8])
  {
    v := 0;
    for i := 0 to 8
      invariant v == FromBigEndian(p[at..at + i])
    {
      assert p[at..at + i + 1][..i] == p[at..at + i];
      FieldFits(p[at..at + i + 1]);
      FieldWidth(i + 1);
      v := v * 256 + p[at + i];
    }
  }

  /** get_u16 */
  function U16(hi: uint8, lo: uint8): uint16 {
    (hi as int) * 256 + lo
  }

  lemma {:induction false} FieldWidth(n: nat)
    requires n <= 8
    ensures Pow256(n) <= TWO_TO_THE_64
    decreases 8 - n
  {
    if n == 8 {
      Pow256Of8();
    } else {
      FieldWidth(n + 1);
    }
  }

  // ---- packets ----

  /** The edges a packet has room for: the last MAX_EDGES. */
  function Recent(edges: seq<Edge>): seq<Edge> {
    if |edges| > MAX_EDGES then edges[|edges| - MAX_EDGES..] else edges
  }

  function EdgeField(e: Edge): (b: seq<uint8>)
    ensures |b| == EDGE_BYTES
  {
    BigEndian(e.ts, 8) + [e.state]
  }

  function EdgeBytes(edges: seq<Edge>): (b: seq<uint8>)
    ensures |b| == |edges| * EDGE_BYTES
  {
    if edges == [] then [] else EdgeBytes(edges[..|edges| - 1]) + EdgeField(edges[|edges| - 1])
  }

  function Header(pkt: Packet, count: uint8): (b: seq<uint8>)
    ensures |b| == HEADER_BYTES
  {
    [MAGIC, VERSION, pkt.flags] + BigEndian(pkt.sessionId, 2) + [count]
  }

  function Encoded(pkt: Packet): (b: seq<uint8>)
    ensures |b| == HEADER_BYTES + |Recent(pkt.edges)| * EDGE_BYTES
  {
    Header(pkt, |Recent(pkt.edges)|) + EdgeBytes(Recent(pkt.edges))
  }

  /** The edge that starts at byte i * EDGE_BYTES of a packet body. */
  function EdgeAt(body: seq<uint8>, i: nat): Edge
    requires (i + 1) * EDGE_BYTES <= |body|
  {
    FieldFits(body[i * EDGE_BYTES..i * EDGE_BYTES + 8]);
    Pow256Of8();
    Edge(FromBigEndian(body[i * EDGE_BYTES..i * EDGE_BYTES + 8]), body[i * EDGE_BYTES + 8])
  }

  function EdgesOf(body: seq<uint8>, count: nat): (edges: seq<Edge>)
    requires count * EDGE_BYTES <= |body|
    ensures |edges| == count
  {
    if count == 0 then [] else EdgesOf(body, count - 1) + [EdgeAt(body, count - 1)]
  }

  function Decoded(b: seq<uint8>): Option<Packet> {
    if |b| < HEADER_BYTES || b[0] != MAGIC || b[1] != VERSION then None
    else if |b| < HEADER_BYTES + b[5] * EDGE_BYTES then None
    else Some(Packet(U16(b[3], b[4]), b[2], EdgesOf(b[HEADER_BYTES..], b[5])))
  }

  method PutEdge(p: array<uint8>, at: nat, e: Edge)
    requires at + EDGE_BYTES <= p.Length
    modifies p
    ensures p[..at + EDGE_BYTES] == old(p[..at]) + EdgeField(e)
  {
    PutU64(p, at, e.ts);
    ghost var written := p[..at + 8];
    p[at + 8] := e.state;
    assert p[..at + EDGE_BYTES] == written + [e.state];
  }

  method PutHeader(out: array<uint8>, pkt: Packet, count: uint8)
    requires HEADER_BYTES <= out.Length
    modifies out
    ensures out[..HEADER_BYTES] == Header(pkt, count)
  {
    out[0] := MAGIC;
    out[1] := VERSION;
    out[2] := pkt.flags;
    PutU16(out, 3, pkt.sessionId);
    assert out[..5] == [MAGIC, VERSION, pkt.flags] + BigEndian(pkt.sessionId, 2);
    out[5] := count;
  }

  method Encode(pkt: Packet) returns (out: array<uint8>)
    ensures fresh(out)
    ensures out[..] == Encoded(pkt)
  {
    var n := if |pkt.edges| > MAX_EDGES then MAX_EDGES else |pkt.edges|;
    out := new uint8[HEADER_BYTES + n * EDGE_BYTES];
    PutHeader(out, pkt, n);
    var first := |pkt.edges| - n;
    ghost var recent := Recent(pkt.edges);
    var e := HEADER_BYTES;
    for i := 0 to n
      invariant e == HEADER_BYTES + i * EDGE_BYTES
      invariant out[..e] == Header(pkt, n) + EdgeBytes(recent[..i])
    {
      PutEdge(out, e, pkt.edges[first + i]);
      assert recent[..i + 1][..i] == recent[..i];
      e := e + EDGE_BYTES;
    }
    assert recent[..n] == recent;
    assert out[..e] == out[..];
  }

  method Decode(buf: array<uint8>, len: nat) returns (r: Option<Packet>)
    requires len <= buf.Length
    ensures r == Decoded(buf[..len])
  {
    if len < HEADER_BYTES || buf[0] != MAGIC || buf[1] != VERSION {
      return None;
    }
    var count := buf[5];
    if len < HEADER_BYTES + count * EDGE_BYTES {
      return None;
    }
    var edges: seq<Edge> := [];
    ghost var body := buf[..len][HEADER_BYTES..];
    var e := HEADER_BYTES;
    for i := 0 to count
      invariant e == HEADER_BYTES + i * EDGE_BYTES
      invariant edges == EdgesOf(body, i)
    {
      var ts := GetU64(buf, e);
      assert buf[e..e + 8] == body[i * EDGE_BYTES..i * EDGE_BYTES + 8];
      edges := edges + [Edge(ts, buf[e + 8])];
      e := e + EDGE_BYTES;
    }
    r := Some(Packet(U16(buf[3], buf[4]), buf[2], edges));
  }

  // ---- round trips ----

  lemma {:induction false} EdgesOfPrefix(a: seq<uint8>, b: seq<uint8>, count: nat)
    requires count * EDGE_BYTES <= |a|
    ensures EdgesOf(a + b, count) == EdgesOf(a, count)
  {
    if count > 0 {
      EdgesOfPrefix(a, b, count - 1);
      var i := (count - 1) * EDGE_BYTES;
      assert (a + b)[i..i + 8] == a[i..i + 8];
    }
  }

  lemma {:induction false} EdgeBehind(body: seq<uint8>, e: Edge, n: nat)
    requires |body| == n * EDGE_BYTES
    ensures EdgeAt(body + EdgeField(e), n) == e
  {
    Windows(body, EdgeField(e), 0, 8);
    assert EdgeField(e)[0..8] == BigEndian(e.ts, 8) && (body + EdgeField(e))[|body| + 8] == EdgeField(e)[8];
    Pow256Of8();
    FieldRoundTrip(e.ts, 8);
  }

  lemma {:induction false} EdgesRoundTrip(edges: seq<Edge>)
    ensures EdgesOf(EdgeBytes(edges), |edges|) == edges
  {
    if edges != [] {
      var n := |edges| - 1;
      var last := edges[n];
      var body := EdgeBytes(edges[..n]);
      EdgesRoundTrip(edges[..n]);
      EdgesOfPrefix(body, EdgeField(last), n);
      EdgeBehind(body, last, n);
      assert edges == edges[..n] + [last];
    }
  }

  lemma {:induction false} HeaderFields(pkt: Packet, count: uint8)
    ensures var b := Header(pkt, count);
      b[0] == MAGIC && b[1] == VERSION && b[2] == pkt.flags && U16(b[3], b[4]) == pkt.sessionId && b[5] == count
  {
    var id := BigEndian(pkt.sessionId, 2);
    assert id == BigEndian(pkt.sessionId / 256, 1) + [pkt.sessionId % 256];
    assert BigEndian(pkt.sessionId / 256, 1) == [] + [pkt.sessionId / 256];
  }

  /** A packet survives the wire, cut down to its last MAX_EDGES edges. */
  lemma {:induction false} RoundTrip(pkt: Packet)
    ensures Decoded(Encoded(pkt)) == Some(pkt.(edges := Recent(pkt.edges)))
  {
    var recent := Recent(pkt.edges);
    HeaderFields(pkt, |recent|);
    assert Encoded(pkt)[..HEADER_BYTES] == Header(pkt, |recent|);
    assert Encoded(pkt)[HEADER_BYTES..] == EdgeBytes(recent);
    EdgesRoundTrip(recent);
  }

  lemma {:induction false} EdgeFieldOf(body: seq<uint8>, i: nat)
    requires (i + 1) * EDGE_BYTES <= |body|
    ensures EdgeField(EdgeAt(body, i)) == body[i * EDGE_BYTES..i * EDGE_BYTES + EDGE_BYTES]
  {
    var at := i * EDGE_BYTES;
    FieldBytesRoundTrip(body[at..at + 8]);
    assert body[at..at + EDGE_BYTES] == body[at..at + 8] + [body[at + 8]];
  }

  lemma {:induction false} EdgeBytesRoundTrip(body: seq<uint8>, count: nat)
    requires count * EDGE_BYTES <= |body|
    ensures EdgeBytes(EdgesOf(body, count)) == body[..count * EDGE_BYTES]
  {
    if count > 0 {
      EdgeBytesRoundTrip(body, count - 1);
      var i := (count - 1) * EDGE_BYTES;
      EdgeFieldOf(body, count - 1);
      assert EdgesOf(body, count)[..count - 1] == EdgesOf(body, count - 1);
      assert body[..i + EDGE_BYTES] == body[..i] + body[i..i + EDGE_BYTES];
    }
  }

  lemma {:induction false} HeaderRoundTrip(b: seq<uint8>)
    requires Decoded(b).Some?
    ensures Header(Decoded(b).value, b[5]) == b[..HEADER_BYTES]
  {
    FieldBytesRoundTrip(b[3..5]);
    assert FromBigEndian(b[3..5]) == U16(b[3], b[4]) by {
      assert b[3..5][..1] == [b[3]];
      assert [b[3]][..0] == [];
      assert FromBigEndian([b[3]]) == b[3];
    }
  }

  /** Nothing of an accepted datagram is lost or reinterpreted: encoding what was
      decoded gives back its bytes, up to the trailing bytes the count excludes. */
  lemma {:induction false} WireRoundTrip(b: seq<uint8>)
    requires Decoded(b).Some?
    requires b[5] <= MAX_EDGES
    ensures Encoded(Decoded(b).value) == b[..HEADER_BYTES + b[5] * EDGE_BYTES]
  {
    var pkt := Decoded(b).value;
    EdgeBytesRoundTrip(b[HEADER_BYTES..], b[5]);
    HeaderRoundTrip(b);
    Windows(b[..HEADER_BYTES], b[HEADER_BYTES..], b[5] * EDGE_BYTES, b[5] * EDGE_BYTES);
    assert b == b[..HEADER_BYTES] + b[HEADER_BYTES..];
  }

  /** A datagram is accepted exactly when it starts with the encoding of a packet whose
      edges it announces; through the receive buffer that is at most MAX_EDGES edges. */
  lemma {:induction false} AcceptedIsEncoded(b: seq<uint8>)
    requires |b| <= MAX_PACKET_BYTES
    ensures Decoded(b).Some? <==> exists pkt: Packet :: |pkt.edges| <= MAX_EDGES && Encoded(pkt) <= b
    ensures Decoded(b).Some? ==> |Decoded(b).value.edges| <= MAX_EDGES
  {
    if Decoded(b).Some? {
      WireRoundTrip(b);
      assert Encoded(Decoded(b).value) <= b;
    }
    forall pkt: Packet | |pkt.edges| <= MAX_EDGES && Encoded(pkt) <= b
      ensures Decoded(b).Some?
    {
      var e := Encoded(pkt);
      assert b[..|e|] == e;
      assert e[5] == |pkt.edges|;
      assert b[0] == e[0] && b[1] == e[1] && b[5] == e[5];
    }
  }
}
