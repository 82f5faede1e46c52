/** internal/rcon/client.go: the Source RCON framing and the client that speaks it. */
module Rcon {
  import opened Integers

  type byte = b: int | 0 <= b < 0x100

  const TYPE_AUTH: int32 := 3
  const TYPE_EXEC: int32 := 2
  const MIN_LENGTH := 10
  const MAX_LENGTH := 4096

  datatype Packet = Packet(id: int32, kind: int32, body: seq<byte>)

  /* ---------- little-endian integers ---------- */

  /** From position `at` on, s holds x modulo two to the 32 in base 256, the least digit first. */
  predicate Holds(s: seq<byte>, at: nat, x: int) {
    && at + 4 <= |s|
    && var b0: int, b1: int, b2: int, b3: int := s[at], s[at + 1], s[at + 2], s[at + 3];
    && b0 + 256 * b1 + 65536 * b2 + 16777216 * b3 == x % 4294967296
  }

  function Encode(x: int32): (r: seq<byte>)
    ensures |r| == 4 && Holds(r, 0, x)
  {
    var u := x % 0x1_0000_0000;
    LowByte(u);
    LowByte(u / 0x100);
    LowByte(u / 0x1_0000);
    HigherBytes(u);
    [u % 0x100, u / 0x100 % 0x100, u / 0x1_0000 % 0x100, u / 0x100_0000]
  }

  function Unsigned(s: seq<byte>): nat
    requires |s| == 4
  {
    var b0: int, b1: int, b2: int, b3: int := s[0], s[1], s[2], s[3];
    b0 + 0x100 * b1 + 0x1_0000 * b2 + 0x100_0000 * b3
  }

  function Decode(s: seq<byte>): (x: int32)
    requires |s| == 4
    ensures Holds(s, 0, x)
  {
    UnsignedOfInt32(Unsigned(s));
    Int32(Unsigned(s))
  }

  lemma Int32OfUnsigned(x: int32)
    ensures Int32(x % 0x1_0000_0000) == x
  {
  }

  lemma UnsignedOfInt32(u: nat)
    requires u < 0x1_0000_0000
    ensures Int32(u) % 0x1_0000_0000 == u
  {
  }

  lemma LowByte(u: nat)
    ensures u == u % 0x100 + 0x100 * (u / 0x100)
  {
  }

  lemma HigherBytes(u: nat)
    ensures u / 0x100 / 0x100 == u / 0x1_0000
    ensures u / 0x1_0000 / 0x100 == u / 0x100_0000
  {
  }

  lemma DecodeEncode(x: int32)
    ensures Decode(Encode(x)) == x
  {
    hide Encode, Int32;
    Int32OfUnsigned(x);
    assert Holds(Encode(x), 0, x);
  }

  /** Putting one more byte below a number. */
  lemma ByteBelow(b: int, rest: nat)
    requires 0 <= b < 0x100
    ensures (b + 0x100 * rest) % 0x100 == b && (b + 0x100 * rest) / 0x100 == rest
  {
  }

  lemma EncodeDecode(s: seq<byte>)
    requires |s| == 4
    ensures Encode(Decode(s)) == s
  {
    var b0: int, b1: int, b2: int, b3: int := s[0], s[1], s[2], s[3];
    var u := Unsigned(s);
    UnsignedOfInt32(u);
    hide Int32;
    ByteBelow(b2, b3);
    ByteBelow(b1, b2 + 0x100 * b3);
    ByteBelow(b0, b1 + 0x100 * (b2 + 0x100 * b3));
    HigherBytes(u);
  }

  /* ---------- frames ---------- */

  function Frame(p: Packet): seq<byte> {
    Encode(Int32(|p.body| + 10)) + Encode(p.id) + Encode(p.kind) + p.body + [0, 0]
  }

  function Frames(ps: seq<Packet>): seq<byte> {
    if ps == [] then [] else Frame(ps[0]) + Frames(ps[1..])
  }

  datatype Reading = Got(packet: Packet) | BadLength(length: int32) | CutShort

  /** What reading one packet off s gives, and how many bytes it takes. */
  function Parse(s: seq<byte>): (r: (Reading, nat))
    ensures r.1 <= |s|
  {
    if |s| < 4 then (CutShort, |s|)
    else
      var length := Decode(s[..4]);
      if length < MIN_LENGTH || length > MAX_LENGTH then (BadLength(length), 4)
      else if |s| < 4 + length then (CutShort, |s|)
      else (Got(Packet(Decode(s[4..8]), Decode(s[8..12]), s[12..length + 2])), length + 4)
  }

  /** Every packet up to the first failed read, and the bytes left. */
  function ParseAll(s: seq<byte>): (seq<Packet>, seq<byte>)
    decreases |s|
  {
    var (reading, taken) := Parse(s);
    if reading.Got? then
      var (more, rest) := ParseAll(s[taken..]);
      ([reading.packet] + more, rest)
    else ([], s)
  }

  /** The bytes of a packet, position by position: the length without the length itself, the request ID, the kind, the
      body and two zeros. */
  predicate IsPacket(s: seq<byte>, id: int32, kind: int32, body: seq<byte>) {
    && |s| == |body| + 14
    && Holds(s, 0, |body| + 10) && Holds(s, 4, id) && Holds(s, 8, kind)
    && s[12..|body| + 12] == body && s[|body| + 12] == 0 && s[|body| + 13] == 0
  }

  lemma HoldsAt(s: seq<byte>, at: nat, x: int)
    requires at + 4 <= |s| && Holds(s[at..at + 4], 0, x)
    ensures Holds(s, at, x)
  {
  }

  lemma FrameIsPacket(p: Packet)
    ensures IsPacket(Frame(p), p.id, p.kind, p.body)
  {
    hide Encode;
    var f := Frame(p);
    assert f + [] == f;
    FrameParts(p, []);
    assert f[0..4] == f[..4];
    UnsignedOfInt32((|p.body| + 10) % 0x1_0000_0000);
    SameResidue(|p.body| + 10);
    HoldsAt(f, 0, Int32(|p.body| + 10));
    HoldsAt(f, 4, p.id);
    HoldsAt(f, 8, p.kind);
  }

  lemma SameResidue(n: nat)
    ensures Int32(n) % 4294967296 == n % 4294967296
  {
  }

  lemma FrameParts(p: Packet, rest: seq<byte>)
    ensures var s := Frame(p) + rest;
      && |Frame(p)| == |p.body| + 14
      && s[..4] == Encode(Int32(|p.body| + 10)) && s[4..8] == Encode(p.id) && s[8..12] == Encode(p.kind)
      && s[12..|p.body| + 12] == p.body && s[|p.body| + 14..] == rest
  {
  }

  /** A packet is read back off the wire exactly when its body has at most 4086 bytes. */
  lemma FrameRoundTrip(p: Packet, rest: seq<byte>)
    ensures Parse(Frame(p) + rest) == (Got(p), |Frame(p)|) <==> |p.body| <= 4086
  {
    hide Encode, Decode, Holds;
    FrameParts(p, rest);
    DecodeEncode(Int32(|p.body| + 10));
    DecodeEncode(p.id);
    DecodeEncode(p.kind);
  }

  /** Any list of packets with such bodies comes back as it was, and every byte is consumed. */
  lemma {:induction false} FramesRoundTrip(ps: seq<Packet>)
    requires forall p :: p in ps ==> |p.body| <= 4086
    ensures ParseAll(Frames(ps)) == (ps, [])
  {
    if ps != [] {
      FrameRoundTrip(ps[0], Frames(ps[1..]));
      FrameParts(ps[0], Frames(ps[1..]));
      FramesRoundTrip(ps[1..]);
      assert ps == [ps[0]] + ps[1..];
    }
  }

  /** Re-encoding a packet that was read reproduces the bytes it was read from, but for the two terminators, which
      the reader does not look at. */
  lemma ReencodeReproduces(s: seq<byte>)
    requires Parse(s).0.Got?
    ensures var (reading, taken) := Parse(s);
      var frame := Frame(reading.packet);
      && |frame| == taken
      && frame[..taken - 2] == s[..taken - 2]
      && (frame == s[..taken] <==> s[taken - 2] == 0 && s[taken - 1] == 0)
  {
    hide Encode, Decode;
    var (reading, taken) := Parse(s);
    var frame := Frame(reading.packet);
    EncodeDecode(s[..4]);
    EncodeDecode(s[4..8]);
    EncodeDecode(s[8..12]);
    assert frame == s[..4] + s[4..8] + s[8..12] + s[12..taken - 2] + [0, 0];
    hide Frame, Parse;
    SameButTerminators(s, frame, taken);
  }

  lemma SameButTerminators(s: seq<byte>, frame: seq<byte>, n: nat)
    requires 14 <= n <= |s| && frame == s[..4] + s[4..8] + s[8..12] + s[12..n - 2] + [0, 0]
    ensures |frame| == n && frame[..n - 2] == s[..n - 2]
    ensures frame == s[..n] <==> s[n - 2] == 0 && s[n - 1] == 0
  {
    assert s[..n - 2] == s[..4] + s[4..8] + s[8..12] + s[12..n - 2];
    assert frame == s[..n - 2] + [0, 0];
    assert s[..n] == s[..n - 2] + [s[n - 2], s[n - 1]];
    if frame == s[..n] {
      assert frame[n - 2] == 0 && frame[n - 1] == 0;
    }
  }

  /* ---------- the code ---------- */

  /** One direction of a connection: bytes arrive at its end and are read from its front. */
  class Stream {
    var bytes: seq<byte>
    var broken: bool

    constructor (bytes: seq<byte>)
      ensures this.bytes == bytes && !broken
    {
      this.bytes, broken := bytes, false;
    }

    method Write(data: seq<byte>) returns (ok: bool)
      modifies this
      ensures broken == old(broken) && ok == !broken
      ensures bytes == if ok then old(bytes) + data else old(bytes)
    {
      ok := !broken;
      if ok {
        bytes := bytes + data;
      }
    }

    /** Reads n bytes, or what there is of them. */
    method ReadFull(n: nat) returns (ok: bool, data: seq<byte>)
      modifies this
      ensures broken == old(broken) && ok == (n <= |old(bytes)|)
      ensures if ok then data == old(bytes)[..n] && bytes == old(bytes)[n..] else bytes == []
    {
      ok := n <= |bytes|;
      if ok {
        data, bytes := bytes[..n], bytes[n..];
      } else {
        data, bytes := bytes, [];
      }
    }
  }

  method WritePacket(w: Stream, id: int32, kind: int32, body: seq<byte>) returns (ok: bool)
    modifies w
    ensures w.broken == old(w.broken) && ok == !w.broken
    ensures old(w.bytes) <= w.bytes
    ensures if ok then IsPacket(w.bytes[|old(w.bytes)|..], id, kind, body) else w.bytes == old(w.bytes)
    ensures ok ==> w.bytes == old(w.bytes) + Frame(Packet(id, kind, body))
  {
    hide Encode, IsPacket;
    FrameIsPacket(Packet(id, kind, body));
    var length := Int32(4 + 4 + |body| + 2);
    var buf := Encode(length);
    buf := buf + Encode(id);
    buf := buf + Encode(kind);
    buf := buf + body;
    buf := buf + [0, 0];
    assert buf == Frame(Packet(id, kind, body));
    ok := w.Write(buf);
    assert ok ==> w.bytes[|old(w.bytes)|..] == buf;
  }

  method ReadPacket(r: Stream) returns (reading: Reading)
    modifies r
    ensures r.broken == old(r.broken)
    ensures (reading, |old(r.bytes)| - |r.bytes|) == Parse(old(r.bytes))
    ensures r.bytes == old(r.bytes)[Parse(old(r.bytes)).1..]
  {
    ghost var s := r.bytes;
    var ok, head := r.ReadFull(4);
    if !ok {
      return CutShort;
    }
    var length := Decode(head);
    if length < 10 || length > 4 * 1024 {
      return BadLength(length);
    }
    var idBytes, kindBytes, body, terminator;
    ok, idBytes := r.ReadFull(4);
    if !ok {
      return CutShort;
    }
    ok, kindBytes := r.ReadFull(4);
    if !ok {
      return CutShort;
    }
    ok, body := r.ReadFull(length - 10);
    if !ok {
      return CutShort;
    }
    ok, terminator := r.ReadFull(2);
    if !ok {
      return CutShort;
    }
    assert idBytes == s[4..8] && kindBytes == s[8..12] && body == s[12..length + 2];
    reading := Got(Packet(Decode(idBytes), Decode(kindBytes), body));
  }

  datatype Dialled = Connected | AuthFailed | Failed

  /** An authenticated connection: requests go out, responses come in. */
  class Client {
    var nextID: int32
    const requests: Stream
    const responses: Stream

    constructor (requests: Stream, responses: Stream)
      ensures this.requests == requests && this.responses == responses && nextID == 0
    {
      this.requests, this.responses, nextID := requests, responses, 0;
    }

    /** atomic.AddInt32, wrapping around. */
    method NextRequestID() returns (id: int32)
      modifies this
      ensures id == nextID == if old(nextID) == 2147483647 then -2147483648 else old(nextID) + 1
    {
      nextID := Int32(nextID + 1);
      id := nextID;
    }

    /** The authentication round trip of Dial: an ID of minus one in the first answer is a refusal. */
    method Authenticate(password: seq<byte>) returns (result: Dialled)
      requires requests != responses && nextID == 0
      modifies this, requests, responses
      ensures nextID == 1
      ensures old(requests.bytes) <= requests.bytes
      ensures !old(requests.broken) ==> IsPacket(requests.bytes[|old(requests.bytes)|..], 1, 3, password)
      ensures result == (
        if old(requests.broken) || !Parse(old(responses.bytes)).0.Got? then Failed
        else if Parse(old(responses.bytes)).0.packet.id == -1 then AuthFailed
        else Connected)
    {
      var id := NextRequestID();
      var ok := WritePacket(requests, id, TYPE_AUTH, password);
      if !ok {
        return Failed;
      }
      var reading := ReadPacket(responses);
      if !reading.Got? {
        return Failed;
      }
      result := if reading.packet.id == -1 then AuthFailed else Connected;
    }

    /** Runs one command; the answer is the next packet, whatever request ID it carries. */
    method Exec(command: seq<byte>) returns (ok: bool, answer: seq<byte>)
      requires requests != responses
      modifies this, requests, responses
      ensures nextID == if old(nextID) == 2147483647 then -2147483648 else old(nextID) + 1
      ensures old(requests.bytes) <= requests.bytes
      ensures !old(requests.broken) ==> IsPacket(requests.bytes[|old(requests.bytes)|..], nextID, 2, command)
      ensures ok == (!old(requests.broken) && Parse(old(responses.bytes)).0.Got?)
      ensures ok ==> answer == Parse(old(responses.bytes)).0.packet.body
      ensures ok ==> responses.bytes == old(responses.bytes)[Parse(old(responses.bytes)).1..]
    {
      answer := [];
      var id := NextRequestID();
      ok := WritePacket(requests, id, TYPE_EXEC, command);
      if ok {
        var reading := ReadPacket(responses);
        ok := reading.Got?;
        if ok {
          answer := reading.packet.body;
        }
      }
    }
  }
}
