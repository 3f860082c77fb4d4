/**
 The wire frame (internal/protocol/frame.go), its second implementation in the browser
 (internal/web/static/frame.js), and the bridge that re-frames one into the other.
 A frame is [1 kind][4 session id, big endian][4 payload length, big endian][payload].
 */
module Frames {
  import opened Common

  const TYPE_CONTROL: byte := 0x01
  const TYPE_OUTPUT: byte := 0x02
  const HEADER_LEN := 9
  const TWO_32 := 0x1_0000_0000

  type uint32 = n: int | 0 <= n < TWO_32

  datatype Frame = Frame(kind: byte, sessionID: uint32, payload: seq<byte>)

  datatype ReadError = EndOfFile | UnexpectedEnd | Truncated

  // ---------------------------------------------------------------- big-endian words

  function PutUint32(n: uint32): (b: seq<byte>)
    ensures |b| == 4
  {
    [n / 0x100_0000, n / 0x1_0000 % 0x100, n / 0x100 % 0x100, n % 0x100]
  }

  function Uint32(b: seq<byte>): uint32
    requires |b| == 4
  {
    var (b0: int, b1: int, b2: int, b3: int) := (b[0], b[1], b[2], b[3]);
    b0 * 0x100_0000 + b1 * 0x1_0000 + b2 * 0x100 + b3
  }

  lemma WordRoundTrip(n: uint32)
    ensures Uint32(PutUint32(n)) == n
  {
    var a := n / 0x100;
    var b := a / 0x100;
    assert b == n / 0x1_0000 && b / 0x100 == n / 0x100_0000;
  }

  lemma WordReprint(b: seq<byte>)
    requires |b| == 4
    ensures PutUint32(Uint32(b)) == b
  {
    var n := Uint32(b);
    var b0: int, b1: int, b2: int := b[0], b[1], b[2];
    assert n / 0x100_0000 == b0;
    assert n / 0x1_0000 == b0 * 0x100 + b1;
    assert n / 0x100 == b0 * 0x1_0000 + b1 * 0x100 + b2;
  }

  // ---------------------------------------------------------------- the codec

  function Header(f: Frame): (h: seq<byte>)
    ensures |h| == HEADER_LEN
  {
    [f.kind] + PutUint32(f.sessionID) + PutUint32(|f.payload| % TWO_32)
  }

  function Encode(f: Frame): seq<byte> {
    Header(f) + f.payload
  }

  /** The length a header announces. */
  function Announced(s: seq<byte>): uint32
    requires |s| >= HEADER_LEN
  {
    Uint32(s[5..9])
  }

  /** The first frame of a byte stream and what follows it. */
  function Decode(s: seq<byte>): Result<(Frame, seq<byte>), ReadError> {
    if s == [] then Err(EndOfFile)
    else if |s| < HEADER_LEN then Err(UnexpectedEnd)
    else
      var end := HEADER_LEN + Announced(s);
      if |s| < end then Err(Truncated)
      else Ok((Frame(s[0], Uint32(s[1..5]), s[HEADER_LEN..end]), s[end..]))
  }

  lemma HeaderFields(f: Frame, rest: seq<byte>)
    ensures var s := Encode(f) + rest;
            && s[0] == f.kind && Uint32(s[1..5]) == f.sessionID && Announced(s) == |f.payload| % TWO_32
            && s[HEADER_LEN..] == f.payload + rest
  {
    var s := Encode(f) + rest;
    WordRoundTrip(f.sessionID);
    WordRoundTrip(|f.payload| % TWO_32);
    assert s[1..5] == PutUint32(f.sessionID);
    assert s[5..9] == PutUint32(|f.payload| % TWO_32);
  }

  /** The four bytes as a number, most significant first. */
  function BigEndian(b: seq<byte>, at: nat): nat
    requires at + 4 <= |b|
  {
    var (b0: int, b1: int, b2: int, b3: int) := (b[at], b[at + 1], b[at + 2], b[at + 3]);
    16777216 * b0 + 65536 * b1 + 256 * b2 + b3
  }

  /** The bytes of a frame: kind, session id, length, payload. */
  lemma Layout(f: Frame)
    ensures var s := Encode(f);
            && |s| == 9 + |f.payload| && s[0] == f.kind && s[9..] == f.payload
            && BigEndian(s, 1) == f.sessionID && BigEndian(s, 5) == |f.payload| % 4294967296
  {
    HeaderFields(f, []);
    AppendNothing(Encode(f));
    var s := Encode(f);
    assert s[1..5][0] == s[1] && s[1..5][1] == s[2] && s[1..5][2] == s[3] && s[1..5][3] == s[4];
    assert s[5..9][0] == s[5] && s[5..9][1] == s[6] && s[5..9][2] == s[7] && s[5..9][3] == s[8];
  }

  /** Which streams hold no frame, and how reading one says so. */
  lemma DecodeFails(s: seq<byte>)
    ensures Decode(s) == Err(EndOfFile) <==> s == []
    ensures Decode(s) == Err(UnexpectedEnd) <==> 0 < |s| < 9
    ensures Decode(s) == Err(Truncated) <==> |s| >= 9 && |s| < 9 + BigEndian(s, 5)
  {
  }

  /** A written frame is read back, leaving exactly what follows, if and only if its length fits the header. */
  lemma RoundTripIff(f: Frame, rest: seq<byte>)
    ensures Decode(Encode(f) + rest) == Ok((f, rest)) <==> |f.payload| < TWO_32
  {
    var s := Encode(f) + rest;
    HeaderFields(f, rest);
    var end := HEADER_LEN + Announced(s);
    if |f.payload| < TWO_32 {
      assert s[HEADER_LEN..end] == f.payload;
      assert s[end..] == rest;
    }
  }

  /** Re-encoding a frame that was read reproduces the bytes it came from. */
  lemma Reencode(s: seq<byte>)
    requires Decode(s).Ok?
    ensures var (f, rest) := Decode(s).value;
            |f.payload| < TWO_32 && Encode(f) + rest == s
  {
    var (f, rest) := Decode(s).value;
    WordReprint(s[1..5]);
    WordReprint(s[5..9]);
    assert Header(f) == s[..HEADER_LEN];
    var end := HEADER_LEN + Announced(s);
    assert s == s[..HEADER_LEN] + s[HEADER_LEN..end] + s[end..];
  }

  /** No encoding is a proper prefix of another. */
  lemma PrefixFree(f: Frame, g: Frame)
    requires |f.payload| < TWO_32 && |g.payload| < TWO_32
    requires Encode(f) <= Encode(g)
    ensures f == g
  {
    var rest := Encode(g)[|Encode(f)|..];
    assert Encode(g) == Encode(f) + rest;
    RoundTripIff(f, rest);
    RoundTripIff(g, []);
    AppendNothing(Encode(g));
  }

  // ---------------------------------------------------------------- streams of frames

  function EncodeAll(fs: seq<Frame>): seq<byte> {
    if fs == [] then [] else Encode(fs[0]) + EncodeAll(fs[1..])
  }

  /** Every complete frame of the stream, and the bytes after the last of them. */
  function DecodeAll(s: seq<byte>): (seq<Frame>, seq<byte>)
    decreases |s|
  {
    match Decode(s)
    case Err(_) => ([], s)
    case Ok((f, rest)) =>
      Reencode(s);
      var (fs, tail) := DecodeAll(rest);
      ([f] + fs, tail)
  }

  ghost predicate Sendable(fs: seq<Frame>) {
    forall i :: 0 <= i < |fs| ==> |fs[i].payload| < TWO_32
  }

  /** Frames written one after another are read one after another. */
  lemma {:induction false} StreamRoundTrip(fs: seq<Frame>)
    requires Sendable(fs)
    ensures DecodeAll(EncodeAll(fs)) == (fs, [])
  {
    if fs != [] {
      RoundTripIff(fs[0], EncodeAll(fs[1..]));
      StreamRoundTrip(fs[1..]);
      assert [fs[0]] + fs[1..] == fs;
    }
  }

  /** A frame of 2^32 bytes announces none. */
  lemma LongFrameIsLost()
    ensures exists f: Frame :: Decode(Encode(f) + []) != Ok((f, []))
  {
    var f := Frame(TYPE_OUTPUT, 0, seq(TWO_32, _ => 0));
    RoundTripIff(f, []);
  }

  /** A stream cut at any byte yields a prefix of the frames. */
  lemma {:induction false} CutStream(fs: seq<Frame>, k: nat)
    requires Sendable(fs) && k <= |EncodeAll(fs)|
    ensures DecodeAll(EncodeAll(fs)[..k]).0 <= fs
    ensures k == |EncodeAll(fs)| ==> DecodeAll(EncodeAll(fs)[..k]).0 == fs
  {
    var all := EncodeAll(fs);
    if k == |all| {
      AppendNothing(all);
      StreamRoundTrip(fs);
    } else if fs != [] {
      var head, tail := Encode(fs[0]), EncodeAll(fs[1..]);
      if k >= |head| {
        assert all[..k] == head + tail[..k - |head|];
        RoundTripIff(fs[0], tail[..k - |head|]);
        CutStream(fs[1..], k - |head|);
      } else {
        CutFrame(fs[0], k);
        assert all[..k] == head[..k];
      }
    }
  }

  /** Part of a frame is not a frame. */
  lemma CutFrame(f: Frame, k: nat)
    requires |f.payload| < TWO_32 && k < |Encode(f)|
    ensures Decode(Encode(f)[..k]).Err?
  {
    HeaderFields(f, []);
    AppendNothing(Encode(f));
    if k >= HEADER_LEN {
      assert Encode(f)[..k][5..9] == Encode(f)[5..9];
    }
  }

  // ---------------------------------------------------------------- Go readers and writers

  /** An in-memory byte stream. */
  class Stream {
    var data: seq<byte>

    constructor (data: seq<byte>)
      ensures this.data == data
    {
      this.data := data;
    }

    method Write(b: seq<byte>)
      modifies this
      ensures data == old(data) + b
    {
      data := data + b;
    }

    /** Exactly n bytes, or an error that says whether the stream ended before the first of them. */
    method ReadFull(n: nat) returns (r: Result<seq<byte>, ReadError>)
      modifies this
      ensures |old(data)| >= n ==> r == Ok(old(data)[..n]) && data == old(data)[n..]
      ensures |old(data)| < n ==> r == Err(if old(data) == [] then EndOfFile else UnexpectedEnd) && data == []
    {
      if |data| >= n {
        r := Ok(data[..n]);
        data := data[n..];
      } else {
        r := Err(if data == [] then EndOfFile else UnexpectedEnd);
        data := [];
      }
    }
  }

  /** binary.BigEndian.PutUint32 into a slice of the header buffer. */
  method Fill(b: array<byte>, at: nat, n: uint32)
    requires at + 4 <= b.Length
    modifies b
    ensures b[..] == old(b[..at]) + PutUint32(n) + old(b[at + 4..])
  {
    b[at] := n / 0x100_0000;
    b[at + 1] := n / 0x1_0000 % 0x100;
    b[at + 2] := n / 0x100 % 0x100;
    b[at + 3] := n % 0x100;
  }

  method WriteFrame(w: Stream, f: Frame)
    modifies w
    ensures w.data == old(w.data) + Encode(f)
  {
    var hdr := new byte[HEADER_LEN](_ => 0);
    hdr[0] := f.kind;
    Fill(hdr, 1, f.sessionID);
    Fill(hdr, 5, |f.payload| % TWO_32);
    assert hdr[..] == Header(f);
    w.Write(hdr[..]);
    if |f.payload| > 0 {
      w.Write(f.payload);
    }
    AppendAssoc(old(w.data), Header(f), f.payload);
  }

  method ReadFrame(r: Stream) returns (res: Result<Frame, ReadError>)
    modifies r
    ensures match Decode(old(r.data))
            case Ok((f, rest)) => res == Ok(f) && r.data == rest
            case Err(e) => res == Err(e) && r.data == []
  {
    ghost var s := r.data;
    var hdr := r.ReadFull(HEADER_LEN);
    if hdr.Err? {
      return Err(hdr.error);
    }
    var n := Uint32(hdr.value[5..9]);
    assert hdr.value[5..9] == s[5..9] && hdr.value[1..5] == s[1..5];
    var f := Frame(hdr.value[0], Uint32(hdr.value[1..5]), []);
    assert |s| >= HEADER_LEN + n ==> s[HEADER_LEN..][..n] == s[HEADER_LEN..HEADER_LEN + n]
                                         && s[HEADER_LEN..][n..] == s[HEADER_LEN + n..];
    if n > 0 {
      var body := r.ReadFull(n);
      if body.Err? {
        return Err(Truncated);
      }
      f := f.(payload := body.value);
    }
    return Ok(f);
  }

  // ---------------------------------------------------------------- the browser's codec

  /** DataView reads past the end and a view past the end throw. */
  function JsDecode(data: seq<byte>): Option<Frame> {
    if |data| < HEADER_LEN || |data| < HEADER_LEN + Uint32(data[5..9]) then None
    else Some(Frame(data[0], Uint32(data[1..5]), data[HEADER_LEN..HEADER_LEN + Uint32(data[5..9])]))
  }

  /** The browser reads the first frame of exactly the buffers Go can read one from. */
  lemma JsAgrees(data: seq<byte>)
    ensures JsDecode(data).Some? <==> Decode(data).Ok?
    ensures Decode(data).Ok? ==> JsDecode(data) == Some(Decode(data).value.0)
  {
  }

  method JsEncodeControl(payload: seq<byte>) returns (buf: array<byte>)
    ensures fresh(buf) && buf[..] == Encode(Frame(TYPE_CONTROL, 0, payload))
  {
    buf := new byte[HEADER_LEN + |payload|](_ => 0);
    buf[0] := TYPE_CONTROL;
    Fill(buf, 1, 0);
    Fill(buf, 5, |payload| % TWO_32);
    forall i | 0 <= i < |payload| {
      buf[HEADER_LEN + i] := payload[i];
    }
    assert buf[..] == Header(Frame(TYPE_CONTROL, 0, payload)) + payload;
  }

  // ---------------------------------------------------------------- the WebSocket bridge

  /** One message per frame read from the socket, until it cannot be read any more. */
  method Bridge(sock: Stream) returns (messages: seq<seq<byte>>)
    modifies sock
    ensures var (fs, tail) := DecodeAll(old(sock.data));
            && Concat(messages) + tail == old(sock.data)
            && |messages| == |fs|
            && forall i :: 0 <= i < |fs| ==> JsDecode(messages[i]) == Some(fs[i])
  {
    messages := [];
    ghost var all := sock.data;
    ghost var fs: seq<Frame> := [];
    AppendNothing(DecodeAll(all).0);
    AppendNothing(all);
    while true
      invariant Concat(messages) + sock.data == all && |messages| == |fs|
      invariant DecodeAll(all) == (fs + DecodeAll(sock.data).0, DecodeAll(sock.data).1)
      invariant forall i :: 0 <= i < |fs| ==> JsDecode(messages[i]) == Some(fs[i])
      decreases |sock.data|
    {
      ghost var s := sock.data;
      var f := ReadFrame(sock);
      if f.Err? {
        AppendNothing(fs);
        return;
      }
      Reencode(s);
      var buf := new Stream([]);
      WriteFrame(buf, f.value);
      assert buf.data == Encode(f.value);
      BridgeStep(messages, f.value, sock.data, fs);
      messages := messages + [buf.data];
      fs := fs + [f.value];
    }
  }

  lemma BridgeStep(messages: seq<seq<byte>>, f: Frame, rest: seq<byte>, fs: seq<Frame>)
    requires |f.payload| < TWO_32
    ensures Concat(messages + [Encode(f)]) + rest == Concat(messages) + (Encode(f) + rest)
    ensures JsDecode(Encode(f)) == Some(f)
    ensures fs + ([f] + DecodeAll(rest).0) == fs + [f] + DecodeAll(rest).0
  {
    ConcatAppend(messages, [Encode(f)]);
    assert Concat([Encode(f)]) == Encode(f);
    AppendAssoc(Concat(messages), Encode(f), rest);
    RoundTripIff(f, []);
    AppendNothing(Encode(f));
    JsAgrees(Encode(f));
  }
}
