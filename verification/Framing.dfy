/** The length-prefixed format of the socket between joblet and its persist service:
    ipc/writer.go writes it, persist/internal/ipc/server.go reads it. */
module Framing {
  import opened LogBuffer

  type Bytes = seq<byte>

  const TWO_TO_32: nat := 0x1_0000_0000

  // The four bytes of uint32(n), most significant first.
  function BigEndian(n: nat): (b: Bytes)
    ensures |b| == 4
  {
    [((n / 0x100_0000) % 0x100) as byte, ((n / 0x1_0000) % 0x100) as byte, ((n / 0x100) % 0x100) as byte, (n % 0x100) as byte]
  }

  // Byte k is worth 256^(3-k).
  lemma BigEndianBytes(n: nat)
    requires n < TWO_TO_32
    ensures var b := BigEndian(n);
            n == b[0] as nat * 0x100_0000 + b[1] as nat * 0x1_0000 + b[2] as nat * 0x100 + b[3] as nat
  {
    BigEndianRoundTrip(n);
  }

  function FromBigEndian(b: Bytes): nat
    requires |b| == 4
  {
    ((b[0] as nat * 0x100 + b[1] as nat) * 0x100 + b[2] as nat) * 0x100 + b[3] as nat
  }

  lemma BigEndianRoundTrip(n: nat)
    ensures FromBigEndian(BigEndian(n)) == n % TWO_TO_32
  {
    var q1, q2, q3 := n / 0x100, n / 0x1_0000, n / 0x100_0000;
    assert q2 == q1 / 0x100 && q3 == q2 / 0x100;
    assert n == ((q3 * 0x100 + q2 % 0x100) * 0x100 + q1 % 0x100) * 0x100 + n % 0x100;
    assert n == (q3 / 0x100) * TWO_TO_32 + FromBigEndian(BigEndian(n));
    assert 0 <= FromBigEndian(BigEndian(n)) < TWO_TO_32;
  }

  function Frame(w: Bytes): Bytes { BigEndian(|w|) + w }

  function Frames(ws: seq<Bytes>): Bytes {
    if ws == [] then [] else Frames(ws[..|ws| - 1]) + Frame(ws[|ws| - 1])
  }

  datatype Decoded = Decoded(msgs: seq<Bytes>, tail: Bytes, tooLarge: bool)

  // What the reader makes of the bytes of one connection: whole messages, until a length over its
  // limit or until it waits for bytes that have not come.
  function Decode(max: nat, bytes: Bytes): Decoded
    decreases |bytes|
  {
    if |bytes| < 4 then Decoded([], bytes, false)
    else
      var n := FromBigEndian(bytes[..4]);
      if n > max then Decoded([], bytes, true)
      else if |bytes| < 4 + n then Decoded([], bytes, false)
      else
        var d := Decode(max, bytes[4 + n..]);
        d.(msgs := [bytes[4..4 + n]] + d.msgs)
  }

  predicate Fits(max: nat, w: Bytes) { |w| <= max && |w| < TWO_TO_32 }

  lemma FrameParts(p: Bytes, w: Bytes, rest: Bytes)
    requires |p| == 4
    ensures var b := p + w + rest; b[..4] == p && b[4..4 + |w|] == w && b[4 + |w|..] == rest
  {
  }

  lemma DecodeFrame(max: nat, w: Bytes, rest: Bytes)
    requires Fits(max, w)
    ensures Decode(max, Frame(w) + rest) ==
              var d := Decode(max, rest); d.(msgs := [w] + d.msgs)
  {
    hide BigEndian, FromBigEndian;
    var b := Frame(w) + rest;
    BigEndianRoundTrip(|w|);
    FrameParts(BigEndian(|w|), w, rest);
    assert FromBigEndian(b[..4]) == |w|;
    assert |b| == 4 + |w| + |rest|;
  }

  predicate StrictPrefix(a: Bytes, b: Bytes) { |a| < |b| && a == b[..|a|] }

  lemma DecodeTorn(max: nat, w: Bytes, tail: Bytes)
    requires Fits(max, w) && StrictPrefix(tail, Frame(w))
    ensures Decode(max, tail) == Decoded([], tail, false)
  {
    hide BigEndian, FromBigEndian;
    BigEndianRoundTrip(|w|);
    if |tail| >= 4 {
      assert tail[..4] == BigEndian(|w|);
    }
  }

  /** Decoding whole frames and at most one truncated frame gives exactly the messages of the
      whole frames, in order, and the truncated rest. */
  lemma {:induction false} DecodeFrames(max: nat, ws: seq<Bytes>, w: Bytes, tail: Bytes)
    requires forall x :: x in ws ==> Fits(max, x)
    requires tail == [] || (Fits(max, w) && StrictPrefix(tail, Frame(w)))
    ensures Decode(max, Frames(ws) + tail) == Decoded(ws, tail, false)
  {
    DecodeAfter(max, ws, tail);
    if tail != [] {
      DecodeTorn(max, w, tail);
    }
    assert ws + [] == ws;
  }

  lemma {:induction false} DecodeAfter(max: nat, ws: seq<Bytes>, rest: Bytes)
    requires forall x :: x in ws ==> Fits(max, x)
    ensures Decode(max, Frames(ws) + rest) == var d := Decode(max, rest); d.(msgs := ws + d.msgs)
  {
    hide Frame, Decode;
    if ws == [] {
      assert [] + rest == rest;
      assert [] + Decode(max, rest).msgs == Decode(max, rest).msgs;
    } else {
      var init, w := ws[..|ws| - 1], ws[|ws| - 1];
      Associates(Frames(init), Frame(w), rest);
      DecodeAfter(max, init, Frame(w) + rest);
      DecodeFrame(max, w, rest);
      LastMoves(ws, Decode(max, rest).msgs);
    }
  }

  lemma Associates(a: Bytes, b: Bytes, c: Bytes)
    ensures a + b + c == a + (b + c)
  {
  }

  lemma LastMoves(ws: seq<Bytes>, rest: seq<Bytes>)
    requires ws != []
    ensures ws[..|ws| - 1] + ([ws[|ws| - 1]] + rest) == ws + rest
  {
  }

  /** A single message survives the connection if and only if its length fits the four-byte prefix
      and the reader's limit: the prefix of a longer one wraps around. */
  lemma FrameRoundTripExactlyWhen(max: nat, w: Bytes)
    ensures Decode(max, Frame(w)) == Decoded([w], [], false) <==> Fits(max, w)
  {
    var b := Frame(w);
    BigEndianRoundTrip(|w|);
    assert b[..4] == BigEndian(|w|);
    if Fits(max, w) {
      assert b + [] == b;
      DecodeFrame(max, w, []);
    } else {
      var n := |w| % TWO_TO_32;
      if n <= max && |w| >= TWO_TO_32 {
        assert |b[4..4 + n]| < |w|;
        assert Decode(max, b).msgs[0] == b[4..4 + n];
      }
    }
  }

  /** The reader stops at a length over its limit, says so and leaves the bytes; after whole messages
      it has those. */
  lemma StopsAtTooLarge(max: nat, ws: seq<Bytes>, w: Bytes, rest: Bytes)
    requires (forall x :: x in ws ==> Fits(max, x)) && max < |w| < TWO_TO_32
    ensures Decode(max, Frames(ws) + (Frame(w) + rest)) == Decoded(ws, Frame(w) + rest, true)
  {
    var b := Frame(w) + rest;
    BigEndianRoundTrip(|w|);
    assert b[..4] == BigEndian(|w|);
    assert Decode(max, b) == Decoded([], b, true);
    DecodeAfter(max, ws, b);
    assert ws + [] == ws;
  }

  lemma FramesThen(ws: seq<Bytes>, w: Bytes)
    ensures Frames(ws + [w]) == Frames(ws) + Frame(w)
  {
    assert (ws + [w])[..|ws|] == ws;
  }

  /** encoding/binary: BigEndian.PutUint32(b, uint32(v)). */
  method PutUint32(b: array<byte>, v: nat)
    requires b.Length >= 4
    modifies b
    ensures b[..4] == BigEndian(v) && b[4..] == old(b[4..])
  {
    b[0] := ((v / 0x100_0000) % 0x100) as byte;
    b[1] := ((v / 0x1_0000) % 0x100) as byte;
    b[2] := ((v / 0x100) % 0x100) as byte;
    b[3] := (v % 0x100) as byte;
  }

  // A stream socket whose Write takes as much as the peer allows, which nobody can foresee, and
  // fails exactly when that is not everything.
  class Conn {
    var bytes: Bytes

    constructor ()
      ensures bytes == []
    {
      bytes := [];
    }

    method Write(p: Bytes, room: nat) returns (ok: bool)
      modifies this
      ensures ok <==> room >= |p|
      ensures bytes == old(bytes) + if ok then p else p[..room]
    {
      ok := room >= |p|;
      bytes := bytes + if ok then p else p[..room];
    }
  }

  /** sendMessage from the marshalled message on: either the whole frame goes out, or a strict
      prefix of it does and the caller is told. */
  method SendMessage(conn: Conn?, data: Bytes, lengthBuf: array<byte>, room1: nat, room2: nat) returns (ok: bool)
    requires lengthBuf.Length == 4
    modifies conn, lengthBuf
    ensures conn == null ==> !ok
    ensures conn != null && ok ==> conn.bytes == old(conn.bytes) + Frame(data)
    ensures conn != null && !ok ==> exists tail :: StrictPrefix(tail, Frame(data)) && conn.bytes == old(conn.bytes) + tail
    ensures conn != null ==> (ok <==> room1 >= 4 && room2 >= |data|)
  {
    if conn == null {
      return false;
    }
    PutUint32(lengthBuf, |data|);
    ghost var prefix := BigEndian(|data|);
    assert lengthBuf[..] == prefix;
    ok := conn.Write(lengthBuf[..], room1);
    if !ok {
      assert StrictPrefix(prefix[..room1], Frame(data));
      return;
    }
    ok := conn.Write(data, room2);
    if !ok {
      assert StrictPrefix(prefix + data[..room2], Frame(data));
      assert conn.bytes == old(conn.bytes) + (prefix + data[..room2]);
    } else {
      assert conn.bytes == old(conn.bytes) + Frame(data);
    }
  }
}
