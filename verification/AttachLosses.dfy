/** Outputs that do not come back: for each thing a replay leaves out, a session whose client shows it. */
module AttachLosses {
  import opened Common
  import opened Decimal
  import opened Terminal
  import opened Replay
  import opened ReplayRoundTrip
  import opened ReplayTheorems
  import opened ModeAgreement
  import opened LiveAttach
  import opened Attaching
  import V = VtMode

  // ---------------------------------------------------------------- sessions that were never resized

  lemma PlayedSeasoned(w: nat, h: nat, cap: nat, defaults: set<nat>, chunks: seq<seq<byte>>)
    requires w > 0 && h > 0 && !AltIn(defaults)
    ensures var t := Played(w, h, cap, defaults, chunks).term;
            Seasoned(t) && t.w == w && t.h == h && t.cap == cap && t.defaults == defaults
  {
    AnyOutputReached(w, h, cap, defaults, Widen(Concat(chunks)));
    FeedKeepsSize(Vt(Fresh(w, h, cap, defaults), Ground), Widen(Concat(chunks)));
  }

  /** The client of a session whose output was read in these chunks. */
  ghost function Joined(w: nat, h: nat, cap: nat, defaults: set<nat>, chunks: seq<seq<byte>>, order: seq<Mode>): (c: Vt)
    requires w > 0 && h > 0 && !AltIn(defaults)
    ensures var v := Played(w, h, cap, defaults, chunks); Seasoned(v.term) && c == Attached(v, order)
  {
    PlayedSeasoned(w, h, cap, defaults, chunks);
    Attached(Played(w, h, cap, defaults, chunks), order)
  }

  /** The client of a session that emitted one chunk shows the difference in the end. */
  ghost predicate Lost(w: nat, h: nat, defaults: set<nat>, chunk: seq<byte>, order: seq<Mode>)
    requires w > 0 && h > 0 && !AltIn(defaults)
  {
    Scans(order, [chunk]) && !SameFuture(Joined(w, h, 0, defaults, [chunk], order), Played(w, h, 0, defaults, [chunk]))
  }

  lemma LostIf(w: nat, h: nat, defaults: set<nat>, chunk: seq<byte>, order: seq<Mode>)
    requires w > 1 && h > 0 && !AltIn(defaults) && Scans(order, [chunk])
    requires !Carries(Played(w, h, 0, defaults, [chunk]), order)
    ensures Lost(w, h, defaults, chunk, order)
  {
    PlayedSeasoned(w, h, 0, defaults, [chunk]);
    LiveAfterReplayIff(Played(w, h, 0, defaults, [chunk]), order);
  }

  lemma OneChunk(chunk: seq<byte>)
    ensures Concat([chunk]) == chunk
  {
    assert [chunk][1..] == [];
    AppendNothing(chunk);
  }

  lemma PlaysOne(w: nat, h: nat, cap: nat, defaults: set<nat>, chunk: seq<byte>)
    requires w > 0 && h > 0 && !AltIn(defaults)
    ensures Played(w, h, cap, defaults, [chunk]) == Feed(Vt(Fresh(w, h, cap, defaults), Ground), Widen(chunk))
  {
    OneChunk(chunk);
  }

  lemma NoMatchScanned(chunk: seq<byte>)
    requires chunk != [] && !V.MatchAt(chunk, 0) && forall k :: 1 <= k < |chunk| ==> chunk[k] != ESC
    ensures Scans([], [chunk])
  {
    V.NothingWithoutEscape(chunk, 1, map[]);
    assert [chunk][1..] == [];
    assert V.ScanChunkList([chunk], map[]) == V.ScanFrom(chunk, 0, map[]) == map[];
  }

  // ---------------------------------------------------------------- wrap, pen, sequence, character

  lemma PlaysLetters(t: Term)
    requires TermOk(t) && t.w == 2 && t.cx == 0 && !t.pending && Wraps(t)
    ensures Feed(Vt(t, Ground), Widen([0x78, 0x79])).term.pending
  {
    assert Widen([0x78, 0x79]) == [X] + [Y];
    TwoLetters(Vt(t, Ground));
    PrintHere(t, X);
    PrintHere(Print(t, X), Y);
    PrintKeepsSize(t, X);
  }

  /** `xy` fills a two-column row: the session writes the next letter on the next row, the client over the `y`. */
  lemma WrapIsLost()
    ensures Lost(2, 2, {AUTOWRAP}, [0x78, 0x79], [])
  {
    var chunk: seq<byte> := [0x78, 0x79];
    NoMatchScanned(chunk);
    PlaysOne(2, 2, 0, {AUTOWRAP}, chunk);
    PlaysLetters(Fresh(2, 2, 0, {AUTOWRAP}));
    LostIf(2, 2, {AUTOWRAP}, chunk, []);
  }

  /** Output that ends inside a sequence: the client prints the rest of it. */
  lemma SequenceIsLost()
    ensures Lost(2, 1, {}, [ESC], [])
  {
    var chunk: seq<byte> := [ESC];
    NoMatchScanned(chunk);
    PlaysOne(2, 1, 0, {}, chunk);
    assert Widen(chunk) == [ESCAPE];
    FeedOne(Vt(Fresh(2, 1, 0, {}), Ground), ESCAPE);
    LostIf(2, 1, {}, chunk, []);
  }

  /** Output that ends inside a character: only the session prints it when the rest comes. */
  lemma CharacterIsLost()
    ensures Lost(2, 1, {}, [0xe2], [])
  {
    var chunk: seq<byte> := [0xe2];
    NoMatchScanned(chunk);
    PlaysOne(2, 1, 0, {}, chunk);
    assert Widen(chunk) == [Byte(0xe2)];
    FeedOne(Vt(Fresh(2, 1, 0, {}), Ground), Byte(0xe2));
    LostIf(2, 1, {}, chunk, []);
  }

  lemma BoldOn(t: Term)
    requires TermOk(t) && t.pen == PLAIN
    ensures Feed(Vt(t, Ground), Widen([ESC, 0x5b, 0x31, 0x6d])).term.pen.bold
  {
    assert ParamSyms([1]) == NumberSyms(1) == [Byte(0x31)];
    assert Widen([ESC, 0x5b, 0x31, 0x6d]) == CsiSyms(false, [1], SGR);
    FeedCsi(t, [1], SGR);
    assert SgrOps([1]) == [Attr(1)] + SgrOps([]);
    assert ApplyOps(PLAIN, [Attr(1)]) == ApplyOps(ApplyOp(PLAIN, Attr(1)), []);
  }

  /** `ESC [ 1 m`: bold text of the session is plain at the client. */
  lemma PenIsLost()
    ensures Lost(2, 1, {}, [ESC, 0x5b, 0x31, 0x6d], [])
  {
    var chunk: seq<byte> := [ESC, 0x5b, 0x31, 0x6d];
    NoMatchScanned(chunk);
    PlaysOne(2, 1, 0, {}, chunk);
    BoldOn(Fresh(2, 1, 0, {}));
    LostIf(2, 1, {}, chunk, []);
  }

  // ---------------------------------------------------------------- the rows that scroll

  lemma RegionSet(t: Term)
    requires TermOk(t) && t.h == 3
    ensures Feed(Vt(t, Ground), Widen([ESC, 0x5b, 0x31, 0x3b, 0x32, 0x72])).term.bottom == 1
  {
    assert NumberSyms(1) == [Byte(0x31)] && NumberSyms(2) == [Byte(0x32)];
    assert [1, 2][1..] == [2];
    assert ParamSyms([1, 2]) == [Byte(0x31), SEMICOLON, Byte(0x32)];
    assert Widen([ESC, 0x5b, 0x31, 0x3b, 0x32, 0x72]) == CsiSyms(false, [1, 2], DECSTBM);
    FeedCsi(t, [1, 2], DECSTBM);
  }

  /** `ESC [ 1 ; 2 r` on three rows: the session scrolls the upper two, the client all three. */
  lemma RegionIsLost()
    ensures Lost(2, 3, {}, [ESC, 0x5b, 0x31, 0x3b, 0x32, 0x72], [])
  {
    var chunk: seq<byte> := [ESC, 0x5b, 0x31, 0x3b, 0x32, 0x72];
    NoMatchScanned(chunk);
    PlaysOne(2, 3, 0, {}, chunk);
    PlayedSeasoned(2, 3, 0, {}, [chunk]);
    RegionSet(Fresh(2, 3, 0, {}));
    LostIf(2, 3, {}, chunk, []);
  }

  // ---------------------------------------------------------------- modes that were on from the start

  function ResetSeq(n: nat): (b: seq<byte>) {
    [ESC, '[' as int, '?' as int] + V.DecimalBytes(n) + ['l' as int]
  }

  lemma ResetSeqIsCsi(n: nat)
    ensures Widen(ResetSeq(n)) == CsiSyms(true, [n], RM)
  {
    var a, b := Widen(ResetSeq(n)), CsiSyms(true, [n], RM);
    assert ParamSyms([n]) == NumberSyms(n);
    assert |a| == |b|;
    forall k | 0 <= k < |a|
      ensures a[k] == b[k]
    {
    }
  }

  lemma ScanReset(n: nat, m: V.Modes)
    requires n <= MAX_INT
    ensures V.Scan(ResetSeq(n), m) == m - {n}
  {
    var b := ResetSeq(n);
    var ds := V.DigitBytes(Digits(n));
    ResetSeqShape(n);
    V.SingleField(ds);
    ResetField(ds, n, m);
    V.NothingWithoutEscape(b, 1, m - {n});
  }

  lemma ResetSeqShape(n: nat)
    ensures var b := ResetSeq(n);
            var ds := V.DigitBytes(Digits(n));
            && |b| == |ds| + 4 && V.MatchAt(b, 0) && V.ParamEnd(b, 3) == 3 + |ds|
            && b[3..3 + |ds|] == ds && b[3 + |ds|] == 'l' as int
            && (forall t :: 0 < t < |b| ==> b[t] != ESC)
            && forall k :: 0 <= k < |ds| ==> ds[k] != ';' as int
  {
    var b := ResetSeq(n);
    var ds := V.DigitBytes(Digits(n));
    ReadBack(n);
    assert forall k :: 3 <= k < 3 + |ds| ==> b[k] == ds[k - 3];
    V.ParamRun(b, 3, 3 + |ds|);
  }

  lemma ResetField(f: seq<byte>, n: nat, m: V.Modes)
    requires n <= MAX_INT && f == V.DigitBytes(Digits(n))
    ensures V.ApplyFields([f], false, m) == m - {n}
  {
    V.NumberReadsBack(n);
    assert [f][1..] == [];
  }

  /** After a reset from the start nothing is scanned, and the mode is off in the session only. */
  lemma ResetPlays(w: nat, h: nat, defaults: set<nat>, n: Mode)
    requires w > 0 && h > 0 && !AltIn(defaults)
    ensures Scans([], [ResetSeq(n)]) && n !in Played(w, h, 0, defaults, [ResetSeq(n)]).term.modes
  {
    ScanReset(n, map[]);
    assert [ResetSeq(n)][1..] == [];
    assert V.ScanChunkList([ResetSeq(n)], map[]) == map[];
    PlaysOne(w, h, 0, defaults, ResetSeq(n));
    ResetSeqIsCsi(n);
    FeedMode(Fresh(w, h, 0, defaults), n, false);
  }

  /** `ESC [ ? 25 l`: the session hides its cursor, the client keeps showing it. */
  lemma DefaultModeStaysOn()
    ensures Scans([], [ResetSeq(25)])
    ensures 25 in Joined(2, 1, 0, {25}, [ResetSeq(25)], []).term.modes
    ensures 25 !in Played(2, 1, 0, {25}, [ResetSeq(25)]).term.modes
  {
    ResetPlays(2, 1, {25}, 25);
    PlayedSeasoned(2, 1, 0, {25}, [ResetSeq(25)]);
  }

  /** `ESC [ ? 7 l`: the session stops wrapping, the client goes on. */
  lemma WrapModeIsLost()
    ensures Lost(2, 2, {AUTOWRAP}, ResetSeq(7), [])
  {
    ResetPlays(2, 2, {AUTOWRAP}, AUTOWRAP);
    PlayedSeasoned(2, 2, 0, {AUTOWRAP}, [ResetSeq(7)]);
    LostIf(2, 2, {AUTOWRAP}, ResetSeq(7), []);
  }

  // ---------------------------------------------------------------- one mode scanned from one chunk

  lemma {:induction false} RestEnds(b: seq<byte>, i: nat, n: nat)
    requires i < n <= |b| && (forall k :: i <= k < n ==> !Passes(b[k])) && V.IsFinal(b[n - 1]) && Rest(b, i, 2)
    ensures V.ParamEnd(b, i) < |b| && V.IsFinal(b[V.ParamEnd(b, i)])
    decreases n - i
  {
    if V.IsParam(b[i]) {
      RestEnds(b, i + 1, n);
    }
  }

  /** Control characters before the first sequence or after the last one interrupt none. */
  lemma CleanBetween(b: seq<byte>, m: nat, n: nat)
    requires m < n <= |b| && (forall k :: m <= k < n ==> !Passes(b[k])) && V.IsFinal(b[n - 1])
    requires forall k :: 0 <= k < |b| && b[k] == ESC ==> m <= k < n
    ensures Clean(b)
  {
    forall i: nat | ReadAt(b, i)
      ensures V.MatchAt(b, i)
    {
      assert i + 1 < n && b[i + 1] == '[' as int && Rest(b, i + 2, 1);
      assert i + 2 < n && b[i + 2] == '?' as int && Rest(b, i + 3, 2);
      RestEnds(b, i + 3, n);
    }
  }

  /** A clean chunk that leaves its terminal with one mode on is scanned as just that. */
  lemma OneModeScan(w: nat, h: nat, cap: nat, chunk: seq<byte>, n: Mode)
    requires w > 0 && h > 0 && Played(w, h, cap, {}, [chunk]).term.modes == {n} && Clean(chunk)
    ensures Uncut([chunk]) && Scans([n], [chunk])
  {
    var chunks := [chunk];
    OneChunk(chunk);
    AppendNothing(chunk);
    assert chunks[1..] == [chunk][1..];
    ScannerAgrees(w, h, cap, {}, chunks);
    var m := V.ScanChunkList(chunks, map[]);
    assert n in m;
    forall k: int
      ensures k in [n] <==> k in V.OnModes(m)
    {
      if k in m {
        var j: nat := k;
        assert j in m && j in {n};
      }
    }
  }

  // ---------------------------------------------------------------- the saved cursor and the screen behind

  const SWITCH: seq<byte> := V.ModeSeq(1049)

  lemma SwitchBytes()
    ensures |SWITCH| > 0 && V.IsFinal(SWITCH[|SWITCH| - 1]) && forall k :: 0 <= k < |SWITCH| ==> !Passes(SWITCH[k])
  {
    var d := V.DecimalBytes(1049);
    assert forall k :: 0 <= k < |SWITCH| ==> k < 3 || k + 1 == |SWITCH| || SWITCH[k] == d[k - 3];
  }

  /** `ESC [ C` moves the cursor, which `ESC [ ? 1049 h` then saves. */
  const MOVED: seq<byte> := [ESC, 0x5b, 0x43] + SWITCH

  lemma MovedPlays()
    ensures var e := Played(2, 1, 0, {}, [MOVED]).term; e.modes == {1049} && e.mark.cx == 1
  {
    var t := Fresh(2, 1, 0, {});
    var move: seq<byte> := [ESC, 0x5b, 0x43];
    PlaysOne(2, 1, 0, {}, MOVED);
    WidenConcat(move, SWITCH);
    FeedConcat(Vt(t, Ground), Widen(move), Widen(SWITCH));
    assert Widen(move) == CsiSyms(false, [], CUF);
    FeedCsi(t, [], CUF);
    ModeSeqIsCsi(1049);
    FeedMode(Forward(t, 0), 1049, true);
  }

  /** When the session leaves the alternate screen its cursor is back in column 1, the client's in column 0. */
  lemma SavedCursorIsLost()
    ensures Lost(2, 1, {}, MOVED, [1049])
  {
    MovedPlays();
    SwitchBytes();
    CleanBetween(MOVED, 0, |MOVED|);
    OneModeScan(2, 1, 0, MOVED, 1049);
    LostIf(2, 1, {}, MOVED, [1049]);
  }

  /** `x` and a carriage return, then the alternate screen. */
  const HIDDEN: seq<byte> := [0x78, 0x0d] + SWITCH

  lemma HiddenPlays()
    ensures var e := Played(2, 1, 0, {}, [HIDDEN]).term;
            e.modes == {1049} && e.alt && e.mark == HOME && !IsBlank(e.saved, 2)
  {
    var t := Fresh(2, 1, 0, {});
    var text: seq<byte> := [0x78, 0x0d];
    PlaysOne(2, 1, 0, {}, HIDDEN);
    WidenConcat(text, SWITCH);
    FeedConcat(Vt(t, Ground), Widen(text), Widen(SWITCH));
    LetterThenReturn(t);
    ModeSeqIsCsi(1049);
    var u := CarriageReturn(Print(t, X));
    FeedMode(u, 1049, true);
    assert BlankRow(2, PLAIN)[0].content == Some(SPACE);
    assert u.screen[0] != BlankRow(2, PLAIN);
  }

  lemma LetterThenReturn(t: Term)
    requires TermOk(t) && !t.pending
    ensures TermOk(Print(t, X)) && Print(t, X).screen[t.cy][t.cx].content == Some(X)
    ensures Feed(Vt(t, Ground), Widen([0x78, 0x0d])) == Vt(CarriageReturn(Print(t, X)), Ground)
  {
    PrintOk(t, X);
    PrintHere(t, X);
    assert Widen([0x78, 0x0d]) == [X] + [CR];
    FeedConcat(Vt(t, Ground), [X], [CR]);
    FeedLetter(Vt(t, Ground), X);
    FeedReturn(Print(t, X), [CR]);
  }

  /** When the session leaves the alternate screen, the client has no `x` to come back to. */
  lemma HiddenScreenIsLost()
    ensures Lost(2, 1, {}, HIDDEN, [1049])
  {
    HiddenPlays();
    SwitchBytes();
    CleanBetween(HIDDEN, 2, |HIDDEN|);
    OneModeScan(2, 1, 0, HIDDEN, 1049);
    PlayedSeasoned(2, 1, 0, {}, [HIDDEN]);
    LostIf(2, 1, {}, HIDDEN, [1049]);
  }

  // ---------------------------------------------------------------- histories that are lost

  /** The line a one-row terminal scrolls into its history after its switches of screen. */
  lemma FeedSwitches(t: Term, u: Term, stream: seq<Sym>)
    requires TermOk(t) && TermOk(u) && Feed(Vt(t, Ground), stream) == Vt(u, Ground)
    requires !u.alt && u.h == 1 && u.cap > 0 && u.history == []
    ensures var v := Feed(Vt(t, Ground), stream + [LF]);
            !v.term.alt && |v.term.history| == 1 && v.term.modes == u.modes
  {
    FeedConcat(Vt(t, Ground), stream, [LF]);
    FeedLine(u);
  }

  /** With these scanned modes the history of the session does not reach the client. */
  ghost predicate HistoryLost(chunks: seq<seq<byte>>, order: seq<Mode>) {
    Scans(order, chunks)
    && Joined(1, 1, 1, {}, chunks, order).term.history != Played(1, 1, 1, {}, chunks).term.history
  }

  lemma HistoryLostIf(chunks: seq<seq<byte>>, order: seq<Mode>)
    requires var e := Played(1, 1, 1, {}, chunks).term; !e.alt && |e.history| == 1
    requires Scans(order, chunks) && AltIn(Elements(order))
    ensures HistoryLost(chunks, order)
  {
    PlayedSeasoned(1, 1, 1, {}, chunks);
    AnyOutputReached(1, 1, 1, {}, Widen(Concat(chunks)));
    var v := Played(1, 1, 1, {}, chunks);
    FilledIsNormal(v.term.history, 1);
    ReplayOfOutput(v, order);
  }

  /** `ESC [ ? 1049 h`, then `ESC [ ? 1049` and `l LF` in two chunks. */
  function CutSwitch(): seq<seq<byte>> {
    [V.ModeSeq(1049), ResetSeq(1049)[..|ResetSeq(1049)| - 1], [0x6c, 0x0a]]
  }

  /** The scan misses the cut reset, and the line scrolled after it never reaches the client. */
  lemma CutSwitchLosesHistory()
    ensures HistoryLost(CutSwitch(), [1049])
  {
    CutSwitchScan();
    CutSwitchPlays();
    var order: seq<Mode> := [1049];
    assert order[0] in Elements(order);
    HistoryLostIf(CutSwitch(), order);
  }

  lemma CutSwitchScan()
    ensures V.ScanChunkList(CutSwitch(), map[]) == map[1049 := true] && Scans([1049], CutSwitch())
  {
    var chunks := CutSwitch();
    var m: V.Modes := map[1049 := true];
    V.ScanOneMode(1049, map[]);
    CutHasNoMatch(1049, m);
    V.NothingWithoutEscape(chunks[2], 0, m);
    assert chunks[1..] == [chunks[1], chunks[2]] && [chunks[1], chunks[2]][1..] == [chunks[2]];
    assert V.ScanChunkList([chunks[2]], m) == V.ScanChunkList([chunks[2]][1..], m) == m;
  }

  lemma CutHasNoMatch(n: nat, m: V.Modes)
    requires n <= MAX_INT
    ensures V.Scan(ResetSeq(n)[..|ResetSeq(n)| - 1], m) == m
  {
    var b := ResetSeq(n)[..|ResetSeq(n)| - 1];
    var ds := V.DigitBytes(Digits(n));
    assert forall k :: 3 <= k < |b| ==> b[k] == ds[k - 3];
    assert V.ParamEnd(b, 3) == |b|;
    V.NothingWithoutEscape(b, 1, m);
  }

  lemma CutSwitchPlays()
    ensures var e := Played(1, 1, 1, {}, CutSwitch()).term; !e.alt && |e.history| == 1
  {
    var t := Fresh(1, 1, 1, {});
    var on, off := V.ModeSeq(1049), ResetSeq(1049);
    var cut := |off| - 1;
    assert off[..cut] + [0x6c, 0x0a] == off + [0x0a];
    ConcatThree(on, off[..cut], [0x6c, 0x0a]);
    AppendAssoc(on, off[..cut], [0x6c, 0x0a]);
    AppendAssoc(on, off, [0x0a]);
    ModeSeqIsCsi(1049);
    ResetSeqIsCsi(1049);
    FeedMode(t, 1049, true);
    FeedMode(SetMode(t, 1049), 1049, false);
    WidenConcat(on, off);
    FeedConcat(Vt(t, Ground), Widen(on), Widen(off));
    FeedSwitches(t, ResetMode(SetMode(t, 1049), 1049), Widen(on + off));
    assert Widen(on + off + [0x0a]) == Widen(on + off) + [LF];
  }

  lemma ConcatThree(a: seq<byte>, b: seq<byte>, c: seq<byte>)
    ensures Concat([a, b, c]) == a + (b + c)
  {
    var s := [a, b, c];
    assert s[1..] == [b, c] && [b, c][1..] == [c];
    OneChunk(c);
    assert Concat([b, c]) == b + Concat([c]);
  }

  /** Modes 1047 and 1049 set, 1047 reset: the main screen shows, but 1049 is still on. */
  const SWITCHES: seq<byte> := V.ModeSeq(1047) + V.ModeSeq(1049) + ResetSeq(1047)

  const OVERLAP: seq<byte> := SWITCHES + [0x0a]

  /** Nothing is cut here: the modes left on do not say which screen shows. */
  lemma OverlapLosesHistory()
    ensures Uncut([OVERLAP]) && Clean(OVERLAP) && HistoryLost([OVERLAP], [1049])
  {
    OverlapPlays();
    OverlapBytes();
    CleanBetween(OVERLAP, 0, |SWITCHES|);
    OneModeScan(1, 1, 1, OVERLAP, 1049);
    var order: seq<Mode> := [1049];
    assert order[0] in Elements(order);
    HistoryLostIf([OVERLAP], order);
  }

  lemma OverlapPlays()
    ensures var e := Played(1, 1, 1, {}, [OVERLAP]).term; !e.alt && |e.history| == 1 && e.modes == {1049}
  {
    var t := Fresh(1, 1, 1, {});
    var a, b, c := V.ModeSeq(1047), V.ModeSeq(1049), ResetSeq(1047);
    PlaysOne(1, 1, 1, {}, OVERLAP);
    ModeSeqIsCsi(1047);
    ModeSeqIsCsi(1049);
    ResetSeqIsCsi(1047);
    var u := SetMode(t, 1047);
    FeedMode(t, 1047, true);
    FeedMode(u, 1049, true);
    FeedMode(SetMode(u, 1049), 1047, false);
    WidenConcat(a, b);
    WidenConcat(a + b, c);
    FeedThree(Vt(t, Ground), Widen(a), Widen(b), Widen(c));
    FeedSwitches(t, ResetMode(SetMode(u, 1049), 1047), Widen(SWITCHES));
    assert Widen(OVERLAP) == Widen(SWITCHES) + [LF];
  }

  lemma OverlapBytes()
    ensures |SWITCHES| > 0 && V.IsFinal(SWITCHES[|SWITCHES| - 1])
    ensures forall k :: 0 <= k < |SWITCHES| ==> !Passes(SWITCHES[k])
  {
    ModeSeqBytes(1047);
    ModeSeqBytes(1049);
    var d, c := V.DecimalBytes(1047), ResetSeq(1047);
    assert forall k :: 0 <= k < |c| ==> k < 3 || k + 1 == |c| || c[k] == d[k - 3];
    assert forall k :: 0 <= k < |c| ==> !Passes(c[k]);
    assert SWITCHES[|SWITCHES| - 1] == c[|c| - 1];
  }

  lemma ModeSeqBytes(n: nat)
    ensures forall k :: 0 <= k < |V.ModeSeq(n)| ==> !Passes(V.ModeSeq(n)[k])
  {
    var d, b := V.DecimalBytes(n), V.ModeSeq(n);
    assert forall k :: 0 <= k < |b| ==> k < 3 || k + 1 == |b| || b[k] == d[k - 3];
  }

  // ---------------------------------------------------------------- a wrap nobody can see

  /** The terminal with other pending wraps, at the cursor and where it was saved. */
  function Masked(t: Term, pending: bool, saved: bool): Term {
    t.(pending := pending, mark := t.mark.(pending := saved))
  }

  /** One cell and no history: equal but for pending wraps. */
  predicate OneCell(a: Term, b: Term) {
    a.w == 1 && a.h == 1 && a.cap == 0 && Twin(a, Masked(b, a.pending, a.mark.pending))
  }

  lemma OneCellResult(t: Term, s: Sym)
    requires TermOk(t) && t.w == 1 && t.h == 1 && t.cap == 0 && s.Cols() == 1
    ensures Print(t, s) == t.(screen := [[Cell(Some(s), 1, t.pen, None)]], cx := 0, pending := Wraps(t))
  {
    LineFeedOk(CarriageReturn(t));
    assert t.history == [];
    var row := [Cell(Some(s), 1, t.pen, None)];
    assert Print(t, s).screen[0] == row;
  }

  lemma OneCellPrint(a: Term, b: Term, s: Sym)
    requires TermOk(a) && TermOk(b) && OneCell(a, b) && s.Cols() in {1, 2}
    ensures OneCell(Print(a, s), Print(b, s))
  {
    if s.Cols() == 1 {
      OneCellResult(a, s);
      OneCellResult(b, s);
    }
  }

  lemma OneCellLine(a: Term, b: Term)
    requires TermOk(a) && TermOk(b) && OneCell(a, b)
    ensures OneCell(LineFeed(a), LineFeed(b))
  {
    LineFeedTwin(a, Masked(b, a.pending, a.mark.pending));
  }

  lemma OneCellSet(a: Term, b: Term, n: nat)
    requires OneCell(a, b)
    ensures OneCell(SetMode(a, n), SetMode(b, n))
  {
  }

  lemma OneCellReset(a: Term, b: Term, n: nat)
    requires OneCell(a, b)
    ensures OneCell(ResetMode(a, n), ResetMode(b, n))
  {
    OneCellBack(a, b, n);
    OneCellRestore(SwitchBack(a, n), SwitchBack(b, n));
  }

  lemma OneCellBack(a: Term, b: Term, n: nat)
    requires OneCell(a, b)
    ensures OneCell(SwitchBack(a, n), SwitchBack(b, n))
  {
  }

  lemma OneCellRestore(a: Term, b: Term)
    requires OneCell(a, b)
    ensures OneCell(RestoreCursor(a), RestoreCursor(b))
  {
  }

  lemma {:induction false} OneCellModes(a: Term, b: Term, ns: seq<nat>)
    requires OneCell(a, b)
    ensures OneCell(SetModes(a, ns), SetModes(b, ns)) && OneCell(ResetModes(a, ns), ResetModes(b, ns))
    decreases ns
  {
    if ns != [] {
      OneCellSet(a, b, ns[0]);
      OneCellModes(SetMode(a, ns[0]), SetMode(b, ns[0]), ns[1..]);
      OneCellReset(a, b, ns[0]);
      OneCellModes(ResetMode(a, ns[0]), ResetMode(b, ns[0]), ns[1..]);
    }
  }

  lemma OneCellMove(a: Term, b: Term, n: nat, m: nat)
    requires TermOk(a) && TermOk(b) && OneCell(a, b)
    ensures OneCell(Up(a, n), Up(b, n)) && OneCell(Forward(a, n), Forward(b, n))
            && OneCell(Goto(a, n, m), Goto(b, n, m))
  {
  }

  lemma OneCellRegion(a: Term, b: Term, n: nat, m: nat)
    requires TermOk(a) && TermOk(b) && OneCell(a, b)
    ensures OneCell(SetRegion(a, n, m), SetRegion(b, n, m))
  {
  }

  lemma OneCellErase(a: Term, b: Term)
    requires TermOk(a) && TermOk(b) && OneCell(a, b)
    ensures OneCell(EraseLine(a), EraseLine(b))
  {
  }

  lemma OneCellDispatch(a: Term, b: Term, ps: seq<nat>, final: Sym)
    requires TermOk(a) && TermOk(b) && OneCell(a, b) && ps != []
    ensures OneCell(Dispatch(a, ps, final), Dispatch(b, ps, final))
  {
    var second := if |ps| > 1 then ps[1] else 0;
    OneCellMove(a, b, ps[0], second);
    OneCellRegion(a, b, ps[0], second);
    OneCellErase(a, b);
  }

  lemma OneCellPerform(a: Term, b: Term, action: Action)
    requires TermOk(a) && TermOk(b) && OneCell(a, b) && ActionOk(action)
    ensures OneCell(Perform(a, action), Perform(b, action))
  {
    match action
    case Show(s) => OneCellPrint(a, b, s);
    case NewLine => OneCellLine(a, b);
    case Control(true, ps, final) => OneCellModes(a, b, Named(ps));
    case Control(false, ps, final) => OneCellDispatch(a, b, Values(ps), final);
    case _ =>
  }

  lemma {:induction false} OneCellFeed(a: Vt, b: Vt, future: seq<Sym>)
    requires VtOk(a) && VtOk(b) && a.parser == b.parser && OneCell(a.term, b.term)
    ensures Seen(Feed(a, future)) == Seen(Feed(b, future))
    decreases future
  {
    if future != [] {
      OneCellPerform(a.term, b.term, Parse(a.parser, future[0]).action);
      OneCellFeed(Step(a, future[0]), Step(b, future[0]), future[1..]);
    }
  }

  lemma OneCellPlays(chunk: seq<byte>)
    requires chunk == [0x78]
    ensures var v := Played(1, 1, 0, {AUTOWRAP}, [chunk]);
            v.parser == Ground && v.term.pending
            && v.term == Fresh(1, 1, 0, {AUTOWRAP}).(screen := v.term.screen, pending := true)
  {
    var t := Fresh(1, 1, 0, {AUTOWRAP});
    PlaysOne(1, 1, 0, {AUTOWRAP}, chunk);
    assert Widen(chunk) == [X];
    FeedLetter(Vt(t, Ground), X);
    OneCellResult(t, X);
  }

  /** A one-cell terminal without history never shows whether a wrap was pending. */
  lemma OneColumnHidesTheWrap()
    ensures Scans([], [[0x78]])
    ensures Played(1, 1, 0, {AUTOWRAP}, [[0x78]]).term.pending
    ensures SameFuture(Joined(1, 1, 0, {AUTOWRAP}, [[0x78]], []), Played(1, 1, 0, {AUTOWRAP}, [[0x78]]))
  {
    var chunk: seq<byte> := [0x78];
    NoMatchScanned(chunk);
    OneCellPlays(chunk);
    PlayedSeasoned(1, 1, 0, {AUTOWRAP}, [chunk]);
    var c, v := Joined(1, 1, 0, {AUTOWRAP}, [chunk], []), Played(1, 1, 0, {AUTOWRAP}, [chunk]);
    ReplayOfOutput(v, []);
    forall future: seq<Sym>
      ensures Seen(Feed(c, future)) == Seen(Feed(v, future))
    {
      OneCellFeed(c, v, future);
    }
  }
}
