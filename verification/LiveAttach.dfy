/**
 After the replay come the live bytes: when the attached client and the session's own
 terminal go on showing the same, whatever the agent writes next.
 */
module LiveAttach {
  import opened Common
  import opened Terminal
  import opened Replay
  import opened ReplayRoundTrip
  import opened ReplayTheorems

  // ---------------------------------------------------------------- what can be seen

  /** History, screen and cursor; a line left from a narrower terminal looks like one filled up with blanks. */
  datatype Sight = Sight(history: seq<Row>, screen: seq<Row>, cx: nat, cy: nat)

  function Seen(v: Vt): Sight {
    Sight(NormRows(v.term.history, v.term.w), v.term.screen, v.term.cx, v.term.cy)
  }

  /** No continuation of the stream tells the two terminals apart. */
  ghost predicate SameFuture(a: Vt, b: Vt)
    requires VtOk(a) && VtOk(b)
  {
    forall future: seq<Sym> :: Seen(Feed(a, future)) == Seen(Feed(b, future))
  }

  // ---------------------------------------------------------------- terminals that stay alike

  /** Alike in all that printing depends on; the saved screen matters only while the alternate one shows. */
  predicate Twin(a: Term, b: Term) {
    && a.w == b.w && a.h == b.h && a.cap == b.cap && a.alt == b.alt
    && NormRows(a.history, a.w) == NormRows(b.history, b.w) && a.screen == b.screen
    && a.cx == b.cx && a.cy == b.cy && a.pending == b.pending && a.pen == b.pen
    && a.top == b.top && a.bottom == b.bottom && a.mark == b.mark
    && (a.alt ==> a.saved == b.saved)
    && (Wraps(a) <==> Wraps(b))
  }

  lemma NormPush(history: seq<Row>, row: Row, cap: nat, w: nat)
    ensures NormRows(Push(history, row, cap), w) == Push(NormRows(history, w), NormRow(row, w), cap)
  {
  }

  lemma LineFeedTwin(a: Term, b: Term)
    requires TermOk(a) && TermOk(b) && Twin(a, b)
    ensures Twin(LineFeed(a), LineFeed(b))
  {
    NormPush(a.history, a.screen[0], a.cap, a.w);
    NormPush(b.history, b.screen[0], b.cap, b.w);
  }

  lemma PrintTwin(a: Term, b: Term, s: Sym)
    requires TermOk(a) && TermOk(b) && Twin(a, b) && s.Cols() in {1, 2}
    ensures Twin(Print(a, s), Print(b, s))
  {
    if s.Cols() <= a.w {
      PlaceOk(a, s.Cols());
      PlaceOk(b, s.Cols());
      LineFeedTwin(CarriageReturn(a), CarriageReturn(b));
      assert Twin(Place(a, s.Cols()), Place(b, s.Cols()));
    }
  }

  lemma SetTwin(a: Term, b: Term, n: nat)
    requires Twin(a, b)
    ensures Twin(SetMode(a, n), SetMode(b, n))
  {
  }

  lemma ResetTwin(a: Term, b: Term, n: nat)
    requires Twin(a, b)
    ensures Twin(ResetMode(a, n), ResetMode(b, n))
  {
  }

  lemma {:induction false} ModesTwin(a: Term, b: Term, ns: seq<nat>)
    requires Twin(a, b)
    ensures Twin(SetModes(a, ns), SetModes(b, ns)) && Twin(ResetModes(a, ns), ResetModes(b, ns))
    decreases ns
  {
    if ns != [] {
      SetTwin(a, b, ns[0]);
      ResetTwin(a, b, ns[0]);
      ModesTwin(SetMode(a, ns[0]), SetMode(b, ns[0]), ns[1..]);
      ModesTwin(ResetMode(a, ns[0]), ResetMode(b, ns[0]), ns[1..]);
    }
  }

  lemma MoveTwin(a: Term, b: Term, n: nat, m: nat)
    requires TermOk(a) && TermOk(b) && Twin(a, b)
    ensures Twin(Up(a, n), Up(b, n)) && Twin(Forward(a, n), Forward(b, n)) && Twin(Goto(a, n, m), Goto(b, n, m))
  {
  }

  lemma RegionTwin(a: Term, b: Term, n: nat, m: nat)
    requires TermOk(a) && TermOk(b) && Twin(a, b)
    ensures Twin(SetRegion(a, n, m), SetRegion(b, n, m))
  {
  }

  lemma DispatchTwin(a: Term, b: Term, ps: seq<nat>, final: Sym)
    requires TermOk(a) && TermOk(b) && Twin(a, b) && ps != []
    ensures Twin(Dispatch(a, ps, final), Dispatch(b, ps, final))
  {
    var second := if |ps| > 1 then ps[1] else 0;
    MoveTwin(a, b, ps[0], second);
    RegionTwin(a, b, ps[0], second);
  }

  lemma PerformTwin(a: Term, b: Term, action: Action)
    requires TermOk(a) && TermOk(b) && Twin(a, b) && ActionOk(action)
    ensures Twin(Perform(a, action), Perform(b, action))
  {
    match action
    case Show(s) => PrintTwin(a, b, s);
    case NewLine => LineFeedTwin(a, b);
    case Control(true, ps, final) => ModesTwin(a, b, Named(ps));
    case Control(false, ps, final) => DispatchTwin(a, b, Values(ps), final);
    case _ =>
  }

  lemma {:induction false} FeedTwin(a: Vt, b: Vt, future: seq<Sym>)
    requires VtOk(a) && VtOk(b) && a.parser == b.parser && Twin(a.term, b.term)
    ensures Seen(Feed(a, future)) == Seen(Feed(b, future))
    decreases future
  {
    if future != [] {
      PerformTwin(a.term, b.term, Parse(a.parser, future[0]).action);
      FeedTwin(Step(a, future[0]), Step(b, future[0]), future[1..]);
    }
  }

  // ---------------------------------------------------------------- telling terminals apart

  const X := Byte(0x78)
  const Y := Byte(0x79)

  /** A letter other than the cell's content. */
  function Other(c: Cell): (s: Sym)
    ensures s in {X, Y} && s.Cols() == 1 && Some(s) != c.content
  {
    if c.content == Some(X) then Y else X
  }

  /** Same size and same sight, both between sequences. */
  ghost predicate Alike(a: Vt, b: Vt) {
    && VtOk(a) && VtOk(b) && a.parser == b.parser == Ground
    && a.term.w == b.term.w && a.term.h == b.term.h && Seen(a) == Seen(b)
  }

  /** Feeding first one stream, then another, tells them apart if the second does so afterwards. */
  lemma Then(a: Vt, b: Vt, first: seq<Sym>, second: seq<Sym>)
    requires VtOk(a) && VtOk(b)
    requires Seen(Feed(Feed(a, first), second)) != Seen(Feed(Feed(b, first), second))
    ensures !SameFuture(a, b)
  {
    FeedConcat(a, first, second);
    FeedConcat(b, first, second);
    assert Seen(Feed(a, first + second)) != Seen(Feed(b, first + second));
  }

  lemma ThenApart(a: Vt, b: Vt, first: seq<Sym>)
    requires VtOk(a) && VtOk(b) && !SameFuture(Feed(a, first), Feed(b, first))
    ensures !SameFuture(a, b)
  {
    var second :| Seen(Feed(Feed(a, first), second)) != Seen(Feed(Feed(b, first), second));
    Then(a, b, first, second);
  }

  lemma SightApart(a: Vt, b: Vt)
    requires VtOk(a) && VtOk(b) && Seen(a) != Seen(b)
    ensures !SameFuture(a, b)
  {
    assert Seen(Feed(a, [])) != Seen(Feed(b, []));
  }

  /** A letter printed without a pending wrap stands at the cursor, in the pen's style. */
  lemma PrintHere(t: Term, s: Sym)
    requires TermOk(t) && s.Cols() == 1 && !t.pending
    ensures var u := Print(t, s);
            && u.screen[t.cy][t.cx].content == Some(s) && u.screen[t.cy][t.cx].style == t.pen
            && u.cy == t.cy && u.cx == (if t.cx + 1 < t.w then t.cx + 1 else t.w - 1)
            && u.pending == (t.cx + 1 == t.w && Wraps(t))
            && u.saved == t.saved && u.alt == t.alt && u.pen == t.pen && u.modes == t.modes
  {
  }

  lemma FeedLetter(v: Vt, s: Sym)
    requires VtOk(v) && v.parser == Ground && s in {X, Y}
    ensures Feed(v, [s]) == Vt(Print(v.term, s), Ground)
  {
    FeedOne(v, s);
  }

  // ---- a half-read sequence

  /** A terminal inside an escape sequence swallows the letter that the other one prints. */
  lemma ParserShows(a: Vt, b: Vt)
    requires VtOk(a) && VtOk(b) && a.parser == Ground && !a.term.pending && Seen(a) == Seen(b)
    requires b.parser != Ground && !b.parser.Partial?
    ensures !SameFuture(a, b)
  {
    var s := Other(a.term.screen[a.term.cy][a.term.cx]);
    FeedLetter(a, s);
    PrintHere(a.term, s);
    Swallows(b, s);
    assert Feed(a, [s]).term.screen != Feed(b, [s]).term.screen;
  }

  lemma Swallows(v: Vt, s: Sym)
    requires VtOk(v) && v.parser != Ground && !v.parser.Partial? && s in {X, Y}
    ensures Feed(v, [s]).term == v.term
  {
    FeedOne(v, s);
    match v.parser
    case Csi(false, ps) =>
      assert Dispatch(v.term, Values(ps), s) == v.term;
    case _ =>
  }

  // ---- a half-read character

  /** Between characters the rest of one prints nothing. */
  lemma StrayByte(v: Vt, last: nat)
    requires VtOk(v) && v.parser == Ground && 0x80 <= last < 0xc0
    ensures Feed(v, [Byte(last)]) == v
  {
    FeedOne(v, Byte(last));
  }

  lemma LastByte(v: Vt, last: nat)
    requires VtOk(v) && v.parser.Partial? && |v.parser.bytes| + 1 == Need(v.parser.bytes[0]) && 0x80 <= last < 0xc0
    ensures Feed(v, [Byte(last)]) == Vt(Print(v.term, Character(v.parser.bytes, last)), Ground)
  {
    FeedOne(v, Byte(last));
  }

  lemma NextByte(v: Vt)
    requires VtOk(v) && v.parser.Partial? && |v.parser.bytes| + 1 < Need(v.parser.bytes[0])
    ensures Feed(v, [Byte(0x80)]) == Vt(v.term, Partial(v.parser.bytes + [0x80]))
  {
    FeedOne(v, Byte(0x80));
  }

  /** Two glyphs of one width leave different screens. */
  lemma GlyphsDiffer(t: Term, g: Sym, h: Sym)
    requires TermOk(t) && g.Cols() == h.Cols() && g.Cols() in {1, 2} && g.Cols() <= t.w && g != h
    ensures Print(t, g).screen != Print(t, h).screen
  {
    PlaceOk(t, g.Cols());
    GlyphLands(t, g);
    GlyphLands(t, h);
  }

  lemma GlyphLands(t: Term, g: Sym)
    requires TermOk(t) && g.Cols() in {1, 2} && g.Cols() <= t.w
    ensures TermOk(Place(t, g.Cols()))
    ensures var p := Place(t, g.Cols());
            var u := Print(t, g);
            p.cy < |u.screen| && p.cx < |u.screen[p.cy]| && u.screen[p.cy][p.cx].content == Some(g)
  {
    PlaceOk(t, g.Cols());
  }

  lemma CharactersDiffer(head: seq<nat>)
    requires head != [] && forall k :: 0 <= k < |head| ==> head[k] < 0x100
    ensures Character(head, 0x80) != Character(head, 0x81)
  {
    var n := |head|;
    assert Character(head, 0x80).text[n] != Character(head, 0x81).text[n];
  }

  /** Whichever way the character is completed, one of two endings shows. */
  lemma LastByteShows(a: Vt, b: Vt)
    requires VtOk(a) && VtOk(b) && a.parser == Ground && b.parser.Partial? && b.term.w >= 2
    requires |b.parser.bytes| + 1 == Need(b.parser.bytes[0])
    ensures !SameFuture(a, b)
  {
    var head := b.parser.bytes;
    StrayByte(a, 0x80);
    StrayByte(a, 0x81);
    LastByte(b, 0x80);
    LastByte(b, 0x81);
    CharactersDiffer(head);
    GlyphsDiffer(b.term, Character(head, 0x80), Character(head, 0x81));
    var last := if Print(b.term, Character(head, 0x80)).screen != a.term.screen then 0x80 else 0x81;
    assert Seen(Feed(a, [Byte(last)])) != Seen(Feed(b, [Byte(last)]));
  }

  lemma {:induction false} PartialShows(a: Vt, b: Vt)
    requires VtOk(a) && VtOk(b) && a.parser == Ground && b.parser.Partial? && b.term.w >= 2
    ensures !SameFuture(a, b)
    decreases Need(b.parser.bytes[0]) - |b.parser.bytes|
  {
    if |b.parser.bytes| + 1 < Need(b.parser.bytes[0]) {
      StrayByte(a, 0x80);
      NextByte(b);
      PartialShows(a, Feed(b, [Byte(0x80)]));
      ThenApart(a, b, [Byte(0x80)]);
    } else {
      LastByteShows(a, b);
    }
  }

  // ---- wrapping

  const WRAP_ON := CsiSyms(true, [AUTOWRAP], SM)

  lemma FeedWrapOn(v: Vt)
    requires VtOk(v) && v.parser == Ground
    ensures Feed(v, WRAP_ON) == Vt(v.term.(modes := v.term.modes + {AUTOWRAP}), Ground)
  {
    FeedMode(v.term, AUTOWRAP, true);
  }

  /** A letter that wraps leaves its row, or the last column without it. */
  lemma WrapPrints(t: Term, s: Sym)
    requires TermOk(t) && t.pending && Wraps(t) && t.w >= 2 && s in {X, Y}
    ensures var u := Print(t, s);
            && u.w == t.w && u.h == t.h
            && (u.cy == t.cy ==> u.screen[t.cy][t.w - 1].content in {Some(SPACE), t.screen[t.cy][t.w - 1].content})
  {
    PlaceOk(t, 1);
    var u := Wrap(t);
    assert Print(t, s) == Overwrite(u, s);
    if u.cy == t.cy {
      assert t.cy == t.bottom ==> u.screen[t.cy] == BlankRow(t.w, PLAIN.(bg := t.pen.bg));
    }
  }

  /** A pending wrap sends the next letter to the next row. */
  lemma WrapShows(a: Vt, b: Vt)
    requires Alike(a, b) && a.term.w >= 2 && !a.term.pending && b.term.pending
    ensures !SameFuture(a, b)
  {
    var s := Other(a.term.screen[a.term.cy][a.term.cx]);
    FeedWrapOn(a);
    FeedWrapOn(b);
    var c, d := Feed(a, WRAP_ON), Feed(b, WRAP_ON);
    FeedLetter(c, s);
    FeedLetter(d, s);
    PrintHere(c.term, s);
    WrapPrints(d.term, s);
    Then(a, b, WRAP_ON, [s]);
  }

  /** From the end of a row one of them goes on in the next, the other overwrites. */
  lemma WrapModeShows(a: Vt, b: Vt)
    requires VtOk(a) && VtOk(b) && a.parser == b.parser == Ground && a.term.w == b.term.w >= 2 && a.term.h == b.term.h
    requires Wraps(a.term) && !Wraps(b.term)
    ensures !SameFuture(a, b)
  {
    var move := CsiSyms(false, [1, a.term.w], CUP);
    FeedToEnd(a);
    FeedToEnd(b);
    EndOfRow(Feed(a, move).term, Feed(b, move).term);
    Then(a, b, move, [X] + [Y]);
  }

  lemma FeedToEnd(v: Vt)
    requires VtOk(v) && v.parser == Ground
    ensures var u := Feed(v, CsiSyms(false, [1, v.term.w], CUP));
            u == Vt(v.term.(cx := v.term.w - 1, cy := 0, pending := false), Ground)
  {
    FeedCsi(v.term, [1, v.term.w], CUP);
  }

  lemma EndOfRow(a: Term, b: Term)
    requires TermOk(a) && TermOk(b) && a.w == b.w >= 2 && a.h == b.h && Wraps(a) && !Wraps(b)
    requires a.cy == b.cy && a.cx == b.cx == a.w - 1 && !a.pending && !b.pending
    ensures Seen(Feed(Vt(a, Ground), [X] + [Y])) != Seen(Feed(Vt(b, Ground), [X] + [Y]))
  {
    TwoLetters(Vt(a, Ground));
    TwoLetters(Vt(b, Ground));
    PrintHere(a, X);
    PrintHere(b, X);
    PrintOk(a, X);
    PrintOk(b, X);
    var c, d := Print(a, X), Print(b, X);
    PrintKeepsSize(a, X);
    PrintKeepsSize(b, X);
    WrapPrints(c, Y);
    PrintHere(d, Y);
    assert Print(c, Y).cy == a.cy ==> Print(c, Y).screen[a.cy][a.w - 1].content != Some(Y);
  }

  lemma TwoLetters(v: Vt)
    requires VtOk(v) && v.parser == Ground
    ensures TermOk(Print(v.term, X))
    ensures Feed(v, [X] + [Y]) == Vt(Print(Print(v.term, X), Y), Ground)
  {
    PrintOk(v.term, X);
    FeedConcat(v, [X], [Y]);
    FeedLetter(v, X);
    FeedLetter(Vt(Print(v.term, X), Ground), Y);
  }

  // ---- the pen

  /** A pen left on shows in the next letter. */
  lemma PenShows(a: Vt, b: Vt)
    requires Alike(a, b) && !a.term.pending && !b.term.pending && a.term.pen != b.term.pen
    ensures !SameFuture(a, b)
  {
    FeedLetter(a, X);
    FeedLetter(b, X);
    PrintHere(a.term, X);
    PrintHere(b.term, X);
    assert Seen(Feed(a, [X])) != Seen(Feed(b, [X]));
  }

  // ---- the rows that scroll

  /** At the end of the region a line feed stays on its row; at its start the way up ends. */
  lemma RegionShows(a: Vt, b: Vt)
    requires VtOk(a) && VtOk(b) && a.parser == b.parser == Ground && a.term.w == b.term.w && a.term.h == b.term.h
    requires FullRegion(a.term) && !FullRegion(b.term)
    ensures !SameFuture(a, b)
  {
    if b.term.bottom + 1 < b.term.h {
      DownShows(a, b);
    } else {
      UpShows(a, b);
    }
  }

  lemma DownShows(a: Vt, b: Vt)
    requires VtOk(a) && VtOk(b) && a.parser == b.parser == Ground && a.term.w == b.term.w && a.term.h == b.term.h
    requires FullRegion(a.term) && b.term.bottom + 1 < b.term.h
    ensures !SameFuture(a, b)
  {
    var row := b.term.bottom + 1;
    FeedCsi(a.term, [row, 1], CUP);
    FeedCsi(b.term, [row, 1], CUP);
    FeedLine(Goto(a.term, row, 1));
    FeedLine(Goto(b.term, row, 1));
    Then(a, b, CsiSyms(false, [row, 1], CUP), [LF]);
  }

  lemma FeedLine(t: Term)
    requires TermOk(t)
    ensures Feed(Vt(t, Ground), [LF]) == Vt(LineFeed(t), Ground)
  {
    FeedOne(Vt(t, Ground), LF);
  }

  lemma UpShows(a: Vt, b: Vt)
    requires VtOk(a) && VtOk(b) && a.parser == b.parser == Ground && a.term.w == b.term.w && a.term.h == b.term.h
    requires FullRegion(a.term) && b.term.top > 0
    ensures !SameFuture(a, b)
  {
    var row := b.term.top + 1;
    FeedCsi(a.term, [row, 1], CUP);
    FeedCsi(b.term, [row, 1], CUP);
    FeedCsi(Goto(a.term, row, 1), [1], CUU);
    FeedCsi(Goto(b.term, row, 1), [1], CUU);
    Then(a, b, CsiSyms(false, [row, 1], CUP), CsiSyms(false, [1], CUU));
  }

  // ---- the saved cursor

  const RECALL := [ESCAPE, DECRC]

  lemma FeedRecall(v: Vt)
    requires VtOk(v) && v.parser == Ground
    ensures Feed(v, RECALL) == Vt(RestoreCursor(v.term), Ground)
  {
    FeedTwo(v, ESCAPE, DECRC);
    assert Step(v, ESCAPE) == Vt(v.term, Escape);
  }

  /** Restoring the cursor brings out what was saved. */
  lemma MarkShows(a: Vt, b: Vt)
    requires Alike(a, b) && a.term.mark == HOME != b.term.mark
    requires b.term.mark.pending ==> b.term.w >= 2
    ensures !SameFuture(a, b)
  {
    FeedRecall(a);
    FeedRecall(b);
    var c, d := Feed(a, RECALL), Feed(b, RECALL);
    if Seen(c) != Seen(d) {
      SightApart(c, d);
    } else if d.term.pending {
      WrapShows(c, d);
    } else {
      PenShows(c, d);
    }
    ThenApart(a, b, RECALL);
  }

  // ---- the other screen

  const LEAVE := CsiSyms(true, [1047], RM)

  /** Leaving the alternate screen brings the saved one back. */
  lemma FeedLeave(v: Vt)
    requires VtOk(v) && v.parser == Ground
    ensures Feed(v, LEAVE).term.screen == if v.term.alt then v.term.saved else v.term.screen
  {
    FeedMode(v.term, 1047, false);
  }

  lemma PrintThenLeave(v: Vt, s: Sym)
    requires VtOk(v) && v.parser == Ground && s in {X, Y} && !v.term.pending
    ensures var t := v.term;
            var u := Feed(v, [s] + LEAVE).term;
            && u.w == t.w && u.h == t.h
            && u.screen[t.cy][t.cx].content == if t.alt then t.saved[t.cy][t.cx].content else Some(s)
  {
    FeedKeepsSize(v, [s] + LEAVE);
    FeedConcat(v, [s], LEAVE);
    FeedLetter(v, s);
    PrintHere(v.term, s);
    FeedLeave(Feed(v, [s]));
  }

  /** Only a terminal on the alternate screen changes when it leaves it. */
  lemma ScreenShows(a: Vt, b: Vt)
    requires Alike(a, b) && !a.term.pending && !b.term.pending && a.term.alt && !b.term.alt
    ensures !SameFuture(a, b)
  {
    var s := Other(a.term.saved[a.term.cy][a.term.cx]);
    PrintThenLeave(a, s);
    PrintThenLeave(b, s);
    assert Seen(Feed(a, [s] + LEAVE)) != Seen(Feed(b, [s] + LEAVE));
  }

  lemma SavedShows(a: Vt, b: Vt)
    requires Alike(a, b) && a.term.alt && b.term.alt && a.term.saved != b.term.saved
    ensures !SameFuture(a, b)
  {
    FeedLeave(a);
    FeedLeave(b);
    assert Seen(Feed(a, LEAVE)) != Seen(Feed(b, LEAVE));
  }

  // ---------------------------------------------------------------- everything at once

  /** As the replay leaves a client: default pen, no sequence, wrap or region left, the cursor never saved elsewhere. */
  predicate Settled(v: Vt) {
    && v.parser == Ground && v.term.pen == PLAIN && !v.term.pending
    && FullRegion(v.term) && v.term.mark == HOME
  }

  /** What a settled client must share with the session's terminal. */
  ghost predicate Together(a: Vt, b: Vt) {
    && Seen(a) == Seen(b) && Settled(b)
    && (Wraps(a.term) <==> Wraps(b.term))
    && a.term.alt == b.term.alt && (a.term.alt ==> a.term.saved == b.term.saved)
  }

  lemma TogetherStay(a: Vt, b: Vt)
    requires VtOk(a) && Settled(a) && VtOk(b) && Together(a, b)
    requires a.term.w == b.term.w && a.term.h == b.term.h && a.term.cap == b.term.cap
    ensures SameFuture(a, b)
  {
    forall future: seq<Sym>
      ensures Seen(Feed(a, future)) == Seen(Feed(b, future))
    {
      FeedTwin(a, b, future);
    }
  }

  /** With two columns or more every wrap and every character shows. */
  ghost predicate Showing(a: Vt, b: Vt) {
    b.term.pending || b.term.mark.pending || b.parser.Partial? || Wraps(a.term) != Wraps(b.term) ==> b.term.w >= 2
  }

  lemma ApartShows(a: Vt, b: Vt)
    requires VtOk(a) && Settled(a) && VtOk(b) && !Together(a, b) && Showing(a, b)
    requires a.term.w == b.term.w && a.term.h == b.term.h
    ensures !SameFuture(a, b)
  {
    if Seen(a) != Seen(b) {
      SightApart(a, b);
    } else if b.parser.Partial? {
      PartialShows(a, b);
    } else if b.parser != Ground {
      ParserShows(a, b);
    } else if b.term.pending {
      WrapShows(a, b);
    } else if Wraps(a.term) != Wraps(b.term) {
      if Wraps(a.term) {
        WrapModeShows(a, b);
      } else {
        WrapModeShows(b, a);
      }
    } else if b.term.pen != PLAIN {
      PenShows(a, b);
    } else if !FullRegion(b.term) {
      RegionShows(a, b);
    } else if b.term.mark != HOME {
      MarkShows(a, b);
    } else if a.term.alt && !b.term.alt {
      ScreenShows(a, b);
    } else if !a.term.alt && b.term.alt {
      ScreenShows(b, a);
    } else {
      SavedShows(a, b);
    }
  }

  // ---------------------------------------------------------------- attaching to a session

  /** The client of a session with terminal v, after the replay made with the modes in `order`. */
  ghost function Attached(v: Vt, order: seq<Mode>): (c: Vt)
    requires VtOk(v) && Seasoned(v.term)
    ensures VtOk(c) && Arrived(c.term, v.term, order, v.term.h) && Settled(c)
    ensures c.term == Client(v.term, order, v.term.h)
  {
    var e := v.term;
    ReplayArrives(e, order, e.h);
    Feed(Vt(Fresh(e.w, e.h, e.cap, e.defaults), Ground), ReplaySyms(e, order))
  }

  /**
   For every terminal, however it came about: screen and cursor arrive as they are, and so does the
   history, unless the modes in the lead wrongly name the alternate screen and there is history to lose.
   */
  lemma ReplayOfOutput(v: Vt, order: seq<Mode>)
    requires VtOk(v) && Seasoned(v.term)
    ensures var e, c := v.term, Attached(v, order).term;
            && c.screen == e.screen && (c.cx, c.cy) == (e.cx, e.cy)
            && c.alt == AltIn(Elements(order))
            && (c.history == (if e.alt then [] else NormRows(e.history, e.w)) <==> e.alt || !c.alt || e.history == [])
  {
    var e := v.term;
    FilledIsNormal(e.screen, e.w);
    if e.alt {
      AltScreenRoundTrip(e, order, e.h);
      AppendNothing(e.screen);
    } else {
      HistoryRestoredIff(e, order);
    }
  }

  // ---------------------------------------------------------------- replay, then live bytes

  /** What the session's terminal must be like for nothing to show later. */
  ghost predicate Carries(v: Vt, order: seq<Mode>) {
    && Settled(v)
    && (Wraps(v.term) <==> AUTOWRAP in v.term.defaults + Elements(order))
    && v.term.alt == AltIn(Elements(order))
    && (v.term.alt ==> v.term.history == [] && IsBlank(v.term.saved, v.term.w))
  }

  lemma NormRowTwice(row: Row, w: nat)
    ensures NormRow(NormRow(row, w), w) == NormRow(row, w)
  {
    forall k | 0 <= k < w
      ensures NormRow(NormRow(row, w), w)[k] == NormRow(row, w)[k]
    {
      assert NormRow(row, w)[k] == if k < |row| then Norm(row[k]) else BLANK;
    }
  }

  lemma NormTwice(rows: seq<Row>, w: nat)
    ensures NormRows(NormRows(rows, w), w) == NormRows(rows, w)
  {
    forall k | 0 <= k < |rows|
      ensures NormRow(NormRow(rows[k], w), w) == NormRow(rows[k], w)
    {
      NormRowTwice(rows[k], w);
    }
  }

  lemma CarriesIsTogether(v: Vt, order: seq<Mode>)
    requires VtOk(v) && Seasoned(v.term)
    ensures Together(Attached(v, order), v) <==> Carries(v, order)
  {
    var c := Attached(v, order);
    ReplayOfOutput(v, order);
    NormTwice(v.term.history, v.term.w);
    if v.term.alt && c.term.alt {
      AltScreenRoundTrip(v.term, order, v.term.h);
      SavedBlankIff(c.term, v.term);
    }
  }

  lemma SavedBlankIff(a: Term, b: Term)
    requires TermOk(a) && TermOk(b) && a.w == b.w && a.h == b.h && IsBlank(a.saved, a.w)
    ensures a.saved == b.saved <==> IsBlank(b.saved, b.w)
  {
  }

  /**
   If the session's terminal was settled and wrapped as the client does, on the screen the lead names
   (and, on the alternate one, with nothing behind it), client and session look the same after any
   continuation.
   */
  lemma LiveAfterReplay(v: Vt, order: seq<Mode>, future: seq<Sym>)
    requires VtOk(v) && Seasoned(v.term) && Carries(v, order)
    ensures Seen(Feed(Attached(v, order), future)) == Seen(Feed(v, future))
  {
    CarriesIsTogether(v, order);
    TogetherStay(Attached(v, order), v);
  }

  /**
   The condition is exact: otherwise some continuation shows the difference. Only wraps and half-read
   characters may stay hidden, in a single column.
   */
  lemma LiveAfterReplayIff(v: Vt, order: seq<Mode>)
    requires VtOk(v) && Seasoned(v.term) && Showing(Attached(v, order), v)
    ensures SameFuture(Attached(v, order), v) <==> Carries(v, order)
  {
    CarriesIsTogether(v, order);
    if Carries(v, order) {
      TogetherStay(Attached(v, order), v);
    } else {
      ApartShows(Attached(v, order), v);
    }
  }
}
