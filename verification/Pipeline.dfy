/**
 The byte pipeline of an attach: the daemon chops the replay into frames and follows it
 with live output, control frames interleave on the connection, the client separates the
 two again and a reader hands the bytes on in pieces of any size.
 */
module Pipeline {
  import opened Common
  import opened Frames

  const MAX_FRAME_BYTES := 0x1_0000

  // ---------------------------------------------------------------- chopping

  /** Consecutive pieces of at most `limit` bytes; a non-positive limit means no split. */
  method SplitFrames(b: seq<byte>, limit: int) returns (out: seq<seq<byte>>)
    ensures Concat(out) == b
    ensures forall i :: 0 <= i < |out| ==> out[i] != []
    ensures limit <= 0 && b != [] ==> out == [b]
    ensures limit > 0 ==> forall i :: 0 <= i < |out| ==> |out[i]| <= limit && (i < |out| - 1 ==> |out[i]| == limit)
  {
    if |b| == 0 {
      return [];
    }
    if limit <= 0 {
      return [b];
    }
    out := [];
    var rest := b;
    while |rest| > limit
      invariant Concat(out) + rest == b && rest != []
      invariant forall i :: 0 <= i < |out| ==> |out[i]| == limit
      decreases |rest|
    {
      ConcatAppend(out, [rest[..limit]]);
      assert Concat([rest[..limit]]) == rest[..limit];
      SplitAt(rest, limit);
      AppendAssoc(Concat(out), rest[..limit], rest[limit..]);
      out := out + [rest[..limit]];
      rest := rest[limit..];
    }
    ConcatAppend(out, [rest]);
    assert Concat([rest]) == rest;
    out := out + [rest];
  }

  function Payloads(fs: seq<Frame>): seq<seq<byte>> {
    seq(|fs|, i requires 0 <= i < |fs| => fs[i].payload)
  }

  ghost predicate OutputFrames(fs: seq<Frame>, sid: uint32) {
    forall i :: 0 <= i < |fs| ==>
      fs[i].kind == 0x02 && fs[i].sessionID == sid && |fs[i].payload| <= 65536
  }

  /** The frames streamTo writes: the replay in pieces, then each live chunk as it is. */
  method StreamTo(sid: uint32, snap: seq<seq<byte>>, live: seq<seq<byte>>) returns (fs: seq<Frame>)
    requires forall i :: 0 <= i < |live| ==> |live[i]| <= MAX_FRAME_BYTES
    ensures OutputFrames(fs, sid)
    ensures Concat(Payloads(fs)) == Concat(snap) + Concat(live)
    ensures |live| <= |fs| && Payloads(fs)[|fs| - |live|..] == live
  {
    fs := [];
    for i := 0 to |snap|
      invariant OutputFrames(fs, sid) && Concat(Payloads(fs)) == Concat(snap[..i])
    {
      var pieces := SplitFrames(snap[i], MAX_FRAME_BYTES);
      PrefixGrows(snap, i);
      var more := WritePieces(sid, fs, pieces);
      fs := more;
    }
    AppendNothing(snap);
    var all := WritePieces(sid, fs, live);
    fs := all;
  }

  method WritePieces(sid: uint32, before: seq<Frame>, pieces: seq<seq<byte>>) returns (fs: seq<Frame>)
    requires OutputFrames(before, sid)
    requires forall i :: 0 <= i < |pieces| ==> |pieces[i]| <= MAX_FRAME_BYTES
    ensures OutputFrames(fs, sid)
    ensures Concat(Payloads(fs)) == Concat(Payloads(before)) + Concat(pieces)
    ensures Payloads(fs) == Payloads(before) + pieces
  {
    fs := before;
    for k := 0 to |pieces|
      invariant OutputFrames(fs, sid)
      invariant Payloads(fs) == Payloads(before) + pieces[..k]
    {
      PayloadsSnoc(fs, Frame(TYPE_OUTPUT, sid, pieces[k]));
      AppendAssoc(Payloads(before), pieces[..k], [pieces[k]]);
      assert pieces[..k + 1] == pieces[..k] + [pieces[k]];
      fs := fs + [Frame(TYPE_OUTPUT, sid, pieces[k])];
    }
    AppendNothing(pieces);
    ConcatAppend(Payloads(before), pieces);
  }

  lemma PayloadsSnoc(fs: seq<Frame>, f: Frame)
    ensures Payloads(fs + [f]) == Payloads(fs) + [f.payload]
  {
    assert |Payloads(fs + [f])| == |Payloads(fs) + [f.payload]|;
    forall i | 0 <= i < |fs| + 1
      ensures Payloads(fs + [f])[i] == (Payloads(fs) + [f.payload])[i]
    {
    }
  }

  lemma PrefixGrows(s: seq<seq<byte>>, i: nat)
    requires i < |s|
    ensures Concat(s[..i + 1]) == Concat(s[..i]) + s[i]
  {
    assert s[..i + 1] == s[..i] + [s[i]];
    ConcatAppend(s[..i], [s[i]]);
    assert Concat([s[i]]) == s[i];
  }

  // ---------------------------------------------------------------- separating

  /** What a control payload means to an attached client. */
  datatype Control = Ended | Active(on: bool) | Other

  function Outputs(fs: seq<Frame>): seq<seq<byte>> {
    if fs == [] then []
    else (if fs[0].kind == TYPE_OUTPUT then [fs[0].payload] else []) + Outputs(fs[1..])
  }

  function Controls(fs: seq<Frame>): seq<seq<byte>> {
    if fs == [] then []
    else (if fs[0].kind == TYPE_CONTROL then [fs[0].payload] else []) + Controls(fs[1..])
  }

  /** The session's end has been announced. */
  predicate IsEnd(f: Frame, decode: seq<byte> -> Control) {
    f.kind == TYPE_CONTROL && decode(f.payload) == Ended
  }

  /** The chunks the attach loop forwards: output frames up to the announced end. */
  function Forwarded(fs: seq<Frame>, decode: seq<byte> -> Control): seq<seq<byte>> {
    if fs == [] || IsEnd(fs[0], decode) then []
    else (if fs[0].kind == TYPE_OUTPUT then [fs[0].payload] else []) + Forwarded(fs[1..], decode)
  }

  /** The frames after the announced end. */
  function Unread(fs: seq<Frame>, decode: seq<byte> -> Control): seq<Frame> {
    if fs == [] then [] else if IsEnd(fs[0], decode) then fs[1..] else Unread(fs[1..], decode)
  }

  /** The first k frames come before the end, which frame k announces unless there is none. */
  ghost predicate EndsAt(fs: seq<Frame>, k: nat, decode: seq<byte> -> Control) {
    && k <= |fs|
    && (forall i :: 0 <= i < k ==> !(fs[i].kind == 0x01 && decode(fs[i].payload) == Ended))
    && (k < |fs| ==> fs[k].kind == 0x01 && decode(fs[k].payload) == Ended)
  }

  /** The attach loop forwards the output before the end and leaves what comes after it. */
  lemma {:induction false} ForwardedUpToEnd(fs: seq<Frame>, k: nat, decode: seq<byte> -> Control)
    requires EndsAt(fs, k, decode)
    ensures Forwarded(fs, decode) == Outputs(fs[..k])
    ensures Unread(fs, decode) == if k < |fs| then fs[k + 1..] else []
  {
    if k > 0 {
      assert fs[..k][0] == fs[0] && fs[..k][1..] == fs[1..][..k - 1];
      ForwardedUpToEnd(fs[1..], k - 1, decode);
    }
  }

  /** No frame of this kind. */
  predicate Lacks(fs: seq<Frame>, kind: byte) {
    forall i :: 0 <= i < |fs| ==> fs[i].kind != kind
  }

  /** Output frames count one by one, in order; everything else is passed over. */
  lemma {:induction false} OutputsAre(before: seq<Frame>, f: Frame, after: seq<Frame>)
    requires Lacks(before, 0x02)
    ensures Outputs(before) == []
    ensures Outputs(before + [f] + after) == (if f.kind == 0x02 then [f.payload] else []) + Outputs(after)
  {
    if before == [] {
      assert before + [f] + after == [f] + after && ([f] + after)[1..] == after;
    } else {
      assert (before + [f] + after)[1..] == before[1..] + [f] + after;
      OutputsAre(before[1..], f, after);
      AppendNothing(Outputs(before[1..] + [f] + after));
    }
  }

  /** So do control frames. */
  lemma {:induction false} ControlsAre(before: seq<Frame>, f: Frame, after: seq<Frame>)
    requires Lacks(before, 0x01)
    ensures Controls(before) == []
    ensures Controls(before + [f] + after) == (if f.kind == 0x01 then [f.payload] else []) + Controls(after)
  {
    if before == [] {
      assert before + [f] + after == [f] + after && ([f] + after)[1..] == after;
    } else {
      assert (before + [f] + after)[1..] == before[1..] + [f] + after;
      ControlsAre(before[1..], f, after);
      AppendNothing(Controls(before[1..] + [f] + after));
    }
  }

  /**
   The attach goroutine of the client, reading frames until the connection or the session ends; what
   was sent after the end stays on the connection.
   */
  method Attach(conn: Stream, decode: seq<byte> -> Control) returns (out: seq<seq<byte>>)
    modifies conn
    ensures out == Forwarded(DecodeAll(old(conn.data)).0, decode)
    ensures DecodeAll(conn.data).0 == Unread(DecodeAll(old(conn.data)).0, decode)
    ensures forall k: nat :: EndsAt(DecodeAll(old(conn.data)).0, k, decode) ==>
              var fs := DecodeAll(old(conn.data)).0;
              out == Outputs(fs[..k]) && DecodeAll(conn.data).0 == if k < |fs| then fs[k + 1..] else []
  {
    ghost var fs := DecodeAll(conn.data).0;
    out := AttachLoop(conn, decode);
    forall k: nat | EndsAt(fs, k, decode)
      ensures out == Outputs(fs[..k]) && DecodeAll(conn.data).0 == if k < |fs| then fs[k + 1..] else []
    {
      ForwardedUpToEnd(fs, k, decode);
    }
  }

  method AttachLoop(conn: Stream, decode: seq<byte> -> Control) returns (out: seq<seq<byte>>)
    modifies conn
    ensures out == Forwarded(DecodeAll(old(conn.data)).0, decode)
    ensures DecodeAll(conn.data).0 == Unread(DecodeAll(old(conn.data)).0, decode)
  {
    out := [];
    ghost var fs := DecodeAll(conn.data).0;
    ghost var goal := Forwarded(fs, decode);
    while true
      invariant out + Forwarded(DecodeAll(conn.data).0, decode) == goal
      invariant Unread(DecodeAll(conn.data).0, decode) == Unread(fs, decode)
      decreases |conn.data|
    {
      ghost var s := conn.data;
      ghost var before := out;
      var f := ReadFrame(conn);
      if f.Err? {
        AppendNothing(out);
        return;
      }
      Reencode(s);
      ghost var rest := DecodeAll(conn.data).0;
      assert DecodeAll(s).0 == [f.value] + rest;
      assert ([f.value] + rest)[1..] == rest;
      if f.value.kind == TYPE_OUTPUT {
        out := out + [f.value.payload];
        AppendAssoc(before, [f.value.payload], Forwarded(rest, decode));
      } else if f.value.kind == TYPE_CONTROL {
        if decode(f.value.payload) == Ended {
          AppendNothing(out);
          return;
        }
      }
      AppendNothing(Forwarded(rest, decode));
    }
  }

  /** The next control reply, skipping output. */
  method Roundtrip(conn: Stream) returns (reply: Result<seq<byte>, ReadError>)
    modifies conn
    ensures var waiting := Controls(DecodeAll(old(conn.data)).0);
            && (reply.Err? <==> waiting == [])
            && (waiting != [] ==> reply == Ok(waiting[0]) && Controls(DecodeAll(conn.data).0) == waiting[1..])
  {
    ghost var waiting := Controls(DecodeAll(conn.data).0);
    while true
      invariant Controls(DecodeAll(conn.data).0) == waiting
      decreases |conn.data|
    {
      ghost var s := conn.data;
      var f := ReadFrame(conn);
      if f.Err? {
        return Err(f.error);
      }
      Reencode(s);
      ghost var rest := DecodeAll(conn.data).0;
      assert DecodeAll(s).0 == [f.value] + rest;
      assert ([f.value] + rest)[1..] == rest;
      if f.value.kind == TYPE_CONTROL {
        assert waiting == [f.value.payload] + Controls(rest);
        return Ok(f.value.payload);
      }
      AppendNothing(Controls(rest));
    }
  }

  ghost predicate NoEnd(fs: seq<Frame>, decode: seq<byte> -> Control) {
    forall i :: 0 <= i < |fs| ==> !IsEnd(fs[i], decode)
  }

  /** A prefix of the frames forwards a prefix of the chunks; all of them do, short of the end, forward all. */
  lemma {:induction false} ForwardedPrefix(part: seq<Frame>, fs: seq<Frame>, decode: seq<byte> -> Control)
    requires part <= fs
    ensures Forwarded(part, decode) <= Outputs(fs)
    ensures NoEnd(fs, decode) && part == fs ==> Forwarded(part, decode) == Outputs(fs)
    decreases |part|
  {
    if part != [] {
      ForwardedPrefix(part[1..], fs[1..], decode);
    }
  }

  // ---------------------------------------------------------------- handing on

  /** Adapts the chunk channel to a reader. `ch` holds the chunks still to come; after them it is closed. */
  class ChanReader {
    var ch: seq<seq<byte>>
    var buf: seq<byte>
    var done: bool

    ghost function Pending(): seq<byte>
      reads this
    {
      buf + Concat(ch)
    }

    constructor (ch: seq<seq<byte>>)
      ensures Pending() == Concat(ch) && !done
    {
      this.ch, buf, done := ch, [], false;
    }

    /** At most n bytes; the end of the stream is reported only when nothing is left. */
    method Read(n: nat) returns (p: seq<byte>, eof: bool)
      modifies this
      ensures p + Pending() == old(Pending()) && |p| <= n
      ensures eof <==> old(buf) == [] && old(ch) == []
      ensures eof ==> p == [] && Pending() == [] && done
      ensures !eof ==> done == old(done)
      ensures !eof && n > 0 ==> |p| > 0 || |ch| < |old(ch)|
    {
      if |buf| > 0 {
        var k := if n < |buf| then n else |buf|;
        p := buf[..k];
        SplitAt(buf, k);
        AppendAssoc(buf[..k], buf[k..], Concat(ch));
        buf := buf[k..];
        return p, false;
      }
      if ch == [] {
        done := true;
        return [], true;
      }
      var b := ch[0];
      ch := ch[1..];
      var k := if n < |b| then n else |b|;
      p := b[..k];
      SplitAt(b, k);
      AppendAssoc(b[..k], b[k..], Concat(ch));
      AppendNothing(Concat(ch));
      if k < |b| {
        buf := b[k..];
      }
      return p, false;
    }
  }

  /** Reads with the given buffer sizes, stopping early at the end of the stream. */
  method ReadAll(r: ChanReader, sizes: seq<nat>) returns (got: seq<byte>, eof: bool)
    modifies r
    ensures got + r.Pending() == old(r.Pending())
    ensures eof ==> r.Pending() == []
  {
    got, eof := [], false;
    ghost var all := r.Pending();
    AppendNothing(all);
    for i := 0 to |sizes|
      invariant got + r.Pending() == all && !eof
    {
      ghost var before := r.Pending();
      var p, end := r.Read(sizes[i]);
      AppendAssoc(got, p, r.Pending());
      got := got + p;
      if end {
        eof := true;
        return;
      }
    }
  }

  // ---------------------------------------------------------------- end to end

  lemma ConcatPrefix(part: seq<seq<byte>>, all: seq<seq<byte>>)
    requires part <= all
    ensures Concat(part) <= Concat(all)
  {
    SplitAt(all, |part|);
    ConcatAppend(part, all[|part|..]);
  }

  lemma PrefixTrans(a: seq<byte>, pending: seq<byte>, b: seq<byte>, c: seq<byte>)
    requires a + pending == b && b <= c
    ensures a <= c
    ensures pending == [] && b == c ==> a == c
  {
    AppendNothing(a);
    SplitAt(c, |b|);
    AppendAssoc(a, pending, c[|b|..]);
  }

  /**
   `stream` is what streamTo wrote; `sent` is any interleaving of it with control frames, in which
   no end is announced; the connection carries the first k bytes. Whatever the reads returned is a
   prefix of the output, and all of it once everything arrived and nothing is pending.
   */
  lemma ArrivesInOrder(output: seq<byte>, stream: seq<Frame>, sent: seq<Frame>, k: nat,
                       decode: seq<byte> -> Control, got: seq<byte>, pending: seq<byte>)
    requires Concat(Payloads(stream)) == output
    requires Outputs(sent) == Payloads(stream) && Sendable(sent) && k <= |EncodeAll(sent)|
    requires got + pending == Concat(Forwarded(DecodeAll(EncodeAll(sent)[..k]).0, decode))
    ensures got <= output
    ensures NoEnd(sent, decode) && k == |EncodeAll(sent)| && pending == [] ==> got == output
  {
    ghost var arrived := DecodeAll(EncodeAll(sent)[..k]).0;
    CutStream(sent, k);
    ForwardedPrefix(arrived, sent, decode);
    ConcatPrefix(Forwarded(arrived, decode), Outputs(sent));
    PrefixTrans(got, pending, Concat(Forwarded(arrived, decode)), output);
  }

  /** A frame the daemon may write between output frames: no output, and not the end. */
  ghost predicate IsNote(f: Frame, decode: seq<byte> -> Control) {
    f.kind == TYPE_CONTROL && |f.payload| < TWO_32 && !IsEnd(f, decode)
  }

  /** The stream holds `sent`, which carries the output frames `done` and notes among them. */
  ghost predicate Carried(data: seq<byte>, sent: seq<Frame>, done: seq<Frame>, decode: seq<byte> -> Control) {
    data == EncodeAll(sent) && Sendable(sent) && NoEnd(sent, decode) && Outputs(sent) == Payloads(done)
  }

  lemma {:induction false} SentSnoc(fs: seq<Frame>, f: Frame)
    ensures EncodeAll(fs + [f]) == EncodeAll(fs) + Encode(f)
    ensures Outputs(fs + [f]) == Outputs(fs) + (if f.kind == TYPE_OUTPUT then [f.payload] else [])
  {
    if fs == [] {
      AppendNothing(Encode(f));
      assert [f][1..] == [];
    } else {
      assert (fs + [f])[1..] == fs[1..] + [f];
      SentSnoc(fs[1..], f);
      AppendAssoc(Encode(fs[0]), EncodeAll(fs[1..]), Encode(f));
    }
  }

  lemma NoteCarried(data: seq<byte>, sent: seq<Frame>, done: seq<Frame>, f: Frame, decode: seq<byte> -> Control)
    requires Carried(data, sent, done, decode) && IsNote(f, decode)
    ensures Carried(data + Encode(f), sent + [f], done, decode)
  {
    SentSnoc(sent, f);
    AppendNothing(Outputs(sent));
  }

  lemma OutputCarried(data: seq<byte>, sent: seq<Frame>, done: seq<Frame>, f: Frame, decode: seq<byte> -> Control)
    requires Carried(data, sent, done, decode) && f.kind == TYPE_OUTPUT && |f.payload| < TWO_32
    ensures Carried(data + Encode(f), sent + [f], done + [f], decode)
  {
    SentSnoc(sent, f);
    PayloadsSnoc(done, f);
  }

  /** Writes the output frames in order; at each turn a note, if there is one, goes first. */
  method Serve(conn: Stream, fs: seq<Frame>, sid: uint32, turns: seq<Option<Frame>>, ghost decode: seq<byte> -> Control)
    returns (ghost sent: seq<Frame>)
    requires conn.data == [] && OutputFrames(fs, sid)
    requires forall i :: 0 <= i < |turns| && turns[i].Some? ==> IsNote(turns[i].value, decode)
    modifies conn
    ensures Carried(conn.data, sent, fs, decode)
  {
    sent := [];
    var k := 0;
    for i := 0 to |turns|
      invariant k <= |fs| && Carried(conn.data, sent, fs[..k], decode)
    {
      match turns[i] {
        case Some(note) =>
          NoteCarried(conn.data, sent, fs[..k], note, decode);
          WriteFrame(conn, note);
          sent := sent + [note];
        case None =>
          if k < |fs| {
            OutputCarried(conn.data, sent, fs[..k], fs[k], decode);
            assert fs[..k + 1] == fs[..k] + [fs[k]];
            WriteFrame(conn, fs[k]);
            sent := sent + [fs[k]];
            k := k + 1;
          }
      }
    }
    while k < |fs|
      invariant k <= |fs| && Carried(conn.data, sent, fs[..k], decode)
    {
      OutputCarried(conn.data, sent, fs[..k], fs[k], decode);
      assert fs[..k + 1] == fs[..k] + [fs[k]];
      WriteFrame(conn, fs[k]);
      sent := sent + [fs[k]];
      k := k + 1;
    }
    assert fs[..|fs|] == fs;
  }

  /**
   The whole way: streamTo, the connection with notes in between, the client's attach loop and its
   reader. Wherever the connection is cut and whatever the buffer sizes, the bytes read are a prefix
   of replay and live output, and all of it when nothing was cut and the reader reached the end.
   */
  method EndToEnd(sid: uint32, snap: seq<seq<byte>>, live: seq<seq<byte>>, turns: seq<Option<Frame>>,
                  cut: Option<nat>, decode: seq<byte> -> Control, sizes: seq<nat>)
    returns (got: seq<byte>, eof: bool)
    requires forall i :: 0 <= i < |live| ==> |live[i]| <= MAX_FRAME_BYTES
    requires forall i :: 0 <= i < |turns| && turns[i].Some? ==> IsNote(turns[i].value, decode)
    ensures got <= Concat(snap) + Concat(live)
    ensures eof && cut.None? ==> got == Concat(snap) + Concat(live)
  {
    var fs := StreamTo(sid, snap, live);
    var conn := new Stream([]);
    ghost var sent := Serve(conn, fs, sid, turns, decode);
    var k := if cut.Some? && cut.value < |conn.data| then cut.value else |conn.data|;
    var arrived := new Stream(conn.data[..k]);
    var chunks := Attach(arrived, decode);
    var r := new ChanReader(chunks);
    got, eof := ReadAll(r, sizes);
    ArrivesInOrder(Concat(snap) + Concat(live), fs, sent, k, decode, got, r.Pending());
  }
}
