/**
 The replay restores the terminal: what a fresh terminal holds after consuming it.
 The proof follows the client's content as a tape of rows, the last of which holds
 the cursor; a line feed appends a row whether or not the screen scrolls.
 */
module ReplayRoundTrip {
  import opened Common
  import opened Terminal
  import opened Replay
  import VtMode

  // ---------------------------------------------------------------- what a row looks like on arrival

  /** The cell a client shows: an empty cell is a blank, and links are not carried. */
  function Norm(c: Cell): Cell {
    if c.width == 0 then SHADOW else Cell(Some(Glyph(c)), c.width, c.style, None)
  }

  /** The first `n` cells of `src` as a client shows them, then blanks up to the width. */
  function Rendered(src: Row, n: nat, w: nat): (r: Row)
    ensures |r| == w
  {
    seq(w, k requires 0 <= k < w => if k < n && k < |src| then Norm(src[k]) else BLANK)
  }

  function NormRow(src: Row, w: nat): (r: Row)
    ensures |r| == w
  {
    Rendered(src, |src|, w)
  }

  function NormRows(rows: seq<Row>, w: nat): (r: seq<Row>)
    ensures |r| == |rows|
  {
    seq(|rows|, k requires 0 <= k < |rows| => NormRow(rows[k], w))
  }

  /** `line` is `src` with some trailing unstyled blanks left out. */
  ghost predicate Prints(line: Row, src: Row) {
    && RowOk(src)
    && line <= src
    && forall k :: |line| <= k < |src| ==> Trimmable(src[k])
  }

  /** Column reached by printing the line: a wide last cell may have lost its shadow. */
  function EndCol(line: Row): nat {
    if line != [] && line[|line| - 1].width == 2 then |line| + 1 else |line|
  }

  /** The terminal with its cursor row replaced and its cursor at a virtual column; at column w a wrap is pending. */
  function Placed(t: Term, row: Row, col: nat, pen: Style): Term
    requires TermOk(t)
  {
    t.(screen := t.screen[t.cy := row],
       cx := if col < t.w then col else t.w - 1,
       pending := col >= t.w && Wraps(t),
       pen := pen)
  }

  lemma NormOk(c: Cell)
    requires CellOk(c)
    ensures CellOk(Norm(c)) && Norm(c).width == c.width
  {
  }

  lemma RenderedOk(src: Row, n: nat, w: nat)
    requires RowOk(src) && n <= |src| <= w
    requires n > 0 ==> src[n - 1].width != 2
    ensures RowOk(Rendered(src, n, w))
  {
    var r := Rendered(src, n, w);
    forall k | 0 <= k < w
      ensures CellOk(r[k]) && r[k].width == if k < n then src[k].width else 1
    {
      assert r[k] == if k < n then Norm(src[k]) else BLANK;
      if k < n {
        NormOk(src[k]);
      }
    }
    assert n > 0 ==> src[0].width != 0;
  }

  lemma FeedStyle(t: Term, to: Style)
    requires TermOk(t)
    ensures Feed(Vt(t, Ground), StyleSyms(t.pen, to)) == Vt(t.(pen := to), Ground)
  {
    if t.pen != to {
      DiffLaw(t.pen, to);
      FeedCsi(t, DiffParams(t.pen, to), SGR);
    }
  }

  lemma FeedReset(t: Term)
    requires TermOk(t)
    ensures Feed(Vt(t, Ground), CsiSyms(false, [], SGR)) == Vt(t.(pen := PLAIN), Ground)
  {
    FeedCsi(t, [], SGR);
    assert SgrOps([0]) == [Attr(0)];
    assert ApplyOps(t.pen, [Attr(0)]) == PLAIN;
  }

  /** One cell, printed at its own column, lands there. */
  lemma PlaceCell(t: Term, src: Row, i: nat, pen: Style)
    requires TermOk(t) && RowOk(src) && i < |src| <= t.w && src[i].width != 0
    requires TermOk(Placed(t, Rendered(src, i, t.w), i, pen))
    ensures i + src[i].width <= |src|
    ensures Print(Placed(t, Rendered(src, i, t.w), i, src[i].style), Glyph(src[i]))
         == Placed(t, Rendered(src, i + src[i].width, t.w), i + src[i].width, src[i].style)
  {
    var c := src[i];
    var row := Rendered(src, i, t.w);
    var u := Placed(t, row, i, c.style);
    assert Glyph(c).Cols() == c.width;
    assert u.screen[u.cy] == row && row[i] == BLANK;
    if c.width == 1 {
      assert Put(row, i, Glyph(c), c.style) == Rendered(src, i + 1, t.w);
    } else {
      assert row[i + 1] == BLANK;
      assert Put(row, i, Glyph(c), c.style) == Rendered(src, i + 2, t.w);
    }
  }

  lemma TrimmedIsNoShadow(line: Row, src: Row, k: nat)
    requires Prints(line, src) && EndCol(line) <= k < |src|
    ensures src[k].width != 0
  {
    if k > 0 {
      var before := src[k - 1];
      assert k - 1 < |line| ==> before == line[k - 1];
      assert k - 1 >= |line| ==> Trimmable(before);
      assert CellOk(before);
    }
  }

  /** Past the printed prefix nothing but blanks remain. */
  lemma RestIsBlank(line: Row, src: Row, w: nat)
    requires Prints(line, src) && |src| <= w
    ensures Rendered(src, EndCol(line), w) == NormRow(src, w)
  {
    forall k | EndCol(line) <= k < |src|
      ensures Norm(src[k]) == BLANK
    {
      assert Trimmable(src[k]) && CellOk(src[k]);
      TrimmedIsNoShadow(line, src, k);
    }
  }

  lemma PlacedOk(t: Term, row: Row, col: nat, pen: Style)
    requires TermOk(t) && RowOk(row) && |row| == t.w
    ensures TermOk(Placed(t, row, col, pen))
  {
  }

  /** The style transition and glyph of one cell move the pen and column past it. */
  lemma FeedCell(t: Term, src: Row, i: nat, pen: Style)
    requires TermOk(t) && RowOk(src) && i < |src| <= t.w && src[i].width != 0
    requires TermOk(Placed(t, Rendered(src, i, t.w), i, pen))
    ensures i + src[i].width <= |src|
    ensures Feed(Vt(Placed(t, Rendered(src, i, t.w), i, pen), Ground), StyleSyms(pen, src[i].style) + [Glyph(src[i])])
         == Vt(Placed(t, Rendered(src, i + src[i].width, t.w), i + src[i].width, src[i].style), Ground)
  {
    var c := src[i];
    var u := Placed(t, Rendered(src, i, t.w), i, pen);
    var v := Placed(t, Rendered(src, i, t.w), i, c.style);
    PlaceCell(t, src, i, pen);
    FeedStyle(u, c.style);
    assert u.(pen := c.style) == v;
    FeedConcat(Vt(u, Ground), StyleSyms(pen, c.style), [Glyph(c)]);
    assert Glyph(c).Cols() == c.width;
    assert Feed(Vt(v, Ground), [Glyph(c)]) == Step(Vt(v, Ground), Glyph(c));
  }

  /** Printing a line cell by cell, from a cell boundary on. */
  lemma {:induction false} PrintCells(t: Term, line: Row, src: Row, i: nat, pen: Style)
    requires TermOk(t) && Prints(line, src) && |src| <= t.w && i <= |line|
    requires i < |line| ==> line[i].width != 0
    requires i > 0 ==> line[i - 1].width != 2
    ensures TermOk(Placed(t, Rendered(src, i, t.w), i, pen))
    ensures Feed(Vt(Placed(t, Rendered(src, i, t.w), i, pen), Ground), CellSyms(line, i, pen))
         == Vt(Placed(t, NormRow(src, t.w), EndCol(line), PLAIN), Ground)
    decreases |line| - i
  {
    RenderedOk(src, i, t.w);
    PlacedOk(t, Rendered(src, i, t.w), i, pen);
    if i == |line| {
      FinishLine(t, line, src, i, pen);
    } else {
      var c := src[i];
      assert line[i] == c;
      var u := Placed(t, Rendered(src, i, t.w), i, pen);
      var rest := CellSyms(line, i + 1, c.style);
      FeedCell(t, src, i, pen);
      FeedConcat(Vt(u, Ground), StyleSyms(pen, c.style) + [Glyph(c)], rest);
      if c.width == 2 && i + 1 < |line| {
        SkipShadow(line, src, i + 1, c.style);
        PrintCells(t, line, src, i + 2, c.style);
      } else if c.width == 2 {
        FinishLine(t, line, src, i + 2, c.style);
      } else {
        PrintCells(t, line, src, i + 1, c.style);
      }
    }
  }

  lemma SkipShadow(line: Row, src: Row, k: nat, pen: Style)
    requires Prints(line, src) && 0 < k < |line| && line[k - 1].width == 2
    ensures line[k] == SHADOW && CellSyms(line, k, pen) == CellSyms(line, k + 1, pen)
    ensures k + 1 < |line| ==> line[k + 1].width != 0
  {
    assert line[k - 1] == src[k - 1] && line[k] == src[k];
    assert CellOk(src[k]) && src[k].width == 0;
    assert k + 1 < |line| ==> line[k + 1] == src[k + 1];
  }

  lemma FinishLine(t: Term, line: Row, src: Row, col: nat, pen: Style)
    requires TermOk(t) && Prints(line, src) && |src| <= t.w && col == EndCol(line)
    ensures TermOk(Placed(t, Rendered(src, col, t.w), col, pen))
    ensures Feed(Vt(Placed(t, Rendered(src, col, t.w), col, pen), Ground), CellSyms(line, |line|, pen))
         == Vt(Placed(t, NormRow(src, t.w), EndCol(line), PLAIN), Ground)
  {
    RestIsBlank(line, src, t.w);
    RenderedOk(src, |src|, t.w);
    var u := Placed(t, NormRow(src, t.w), col, pen);
    PlacedOk(t, NormRow(src, t.w), col, pen);
    if pen != PLAIN {
      FeedReset(u);
    }
  }

  /** A line printed at the start of a blank row fills exactly that row, and leaves the default pen. */
  lemma PrintRow(t: Term, line: Row, src: Row)
    requires TermOk(t) && Prints(line, src) && |src| <= t.w
    requires t.cx == 0 && !t.pending && t.pen == PLAIN && t.screen[t.cy] == BlankRow(t.w, PLAIN)
    ensures Feed(Vt(t, Ground), CellSyms(line, 0, PLAIN))
         == Vt(Placed(t, NormRow(src, t.w), EndCol(line), PLAIN), Ground)
  {
    assert Rendered(src, 0, t.w) == BlankRow(t.w, PLAIN);
    assert Placed(t, Rendered(src, 0, t.w), 0, PLAIN) == t;
    PrintCells(t, line, src, 0, PLAIN);
  }

  // ---------------------------------------------------------------- the tape

  /** All rows written so far, the cursor on the last; everything below is blank and the pen is the default one. */
  ghost predicate Tape(t: Term, rows: seq<Row>) {
    && TermOk(t) && FullRegion(t)
    && t.pen == PLAIN && (t.alt ==> t.history == [])
    && OnTape(rows, t.screen, t.cy, t.w, if t.alt then None else Some(t.history))
  }

  /** The rows end on the screen, at row cy; those before are the history, if one is kept. */
  ghost predicate OnTape(rows: seq<Row>, screen: seq<Row>, cy: nat, w: nat, history: Option<seq<Row>>) {
    && rows != [] && screen != []
    && cy == (if |rows| < |screen| then |rows| else |screen|) - 1
    && screen[..cy + 1] == rows[|rows| - cy - 1..]
    && (forall i :: cy < i < |screen| ==> screen[i] == BlankRow(w, PLAIN))
    && (history.Some? ==> history.value == rows[..|rows| - cy - 1])
  }

  /** Everything but rows, cursor and history stays put. */
  ghost predicate SameSetup(t: Term, u: Term) {
    && u.w == t.w && u.h == t.h && u.cap == t.cap && u.alt == t.alt && u.modes == t.modes
    && u.saved == t.saved && u.mark == t.mark
  }

  /** A line feed with room below. */
  lemma LineFeedDown(t: Term, rows: seq<Row>)
    requires Tape(t, rows) && t.cy + 1 < t.h
    ensures Tape(LineFeed(t), rows + [BlankRow(t.w, PLAIN)])
  {
    var u := LineFeed(t);
    var more := rows + [BlankRow(t.w, PLAIN)];
    LineFeedOk(t);
    assert u.screen[..u.cy + 1] == t.screen[..t.cy + 1] + [t.screen[t.cy + 1]];
    assert more[|more| - u.cy - 1..] == rows[|rows| - t.cy - 1..] + [BlankRow(t.w, PLAIN)];
    assert more[..|more| - u.cy - 1] == rows[..|rows| - t.cy - 1];
  }

  /** A line feed at the bottom. */
  lemma LineFeedScroll(t: Term, rows: seq<Row>)
    requires Tape(t, rows) && t.cy + 1 == t.h
    requires !t.alt ==> |rows| + 1 <= t.cap + t.h
    ensures Tape(LineFeed(t), rows + [BlankRow(t.w, PLAIN)])
  {
    var u := LineFeed(t);
    var more := rows + [BlankRow(t.w, PLAIN)];
    var top := |rows| - t.h;
    LineFeedOk(t);
    ScrollAll(t.screen, BlankRow(t.w, PLAIN));
    assert t.screen[..t.cy + 1] == t.screen;
    assert t.screen == rows[top..];
    assert u.screen == rows[top..][1..] + [BlankRow(t.w, PLAIN)] == more[top + 1..];
    assert u.screen[..u.cy + 1] == u.screen;
    assert rows[..top] + [rows[top]] == more[..top + 1];
    assert !t.alt ==> u.history == Push(t.history, rows[top], t.cap) == t.history + [rows[top]];
  }

  /** A line feed appends a blank row, scrolling when the screen is full. */
  lemma LineFeedOnTape(t: Term, rows: seq<Row>)
    requires Tape(t, rows)
    requires !t.alt ==> |rows| + 1 <= t.cap + t.h
    ensures Tape(LineFeed(t), rows + [BlankRow(t.w, PLAIN)])
  {
    if t.cy + 1 < t.h {
      LineFeedDown(t, rows);
    } else {
      LineFeedScroll(t, rows);
    }
  }

  lemma FeedNewLine(t: Term)
    requires TermOk(t)
    ensures TermOk(CarriageReturn(t))
    ensures Feed(Vt(t, Ground), [CR, LF]) == Vt(LineFeed(CarriageReturn(t)), Ground)
  {
    var c := CarriageReturn(t);
    LineFeedOk(c);
    assert [CR, LF][1..] == [LF] && [LF][1..] == [];
    assert Step(Vt(t, Ground), CR) == Vt(c, Ground);
    assert Step(Vt(c, Ground), LF) == Vt(LineFeed(c), Ground);
    assert Feed(Vt(t, Ground), [CR, LF]) == Feed(Vt(c, Ground), [LF]);
    assert Feed(Vt(c, Ground), [LF]) == Feed(Vt(LineFeed(c), Ground), []);
  }

  /** The last row is replaced in every tail, and in no prefix that leaves it out. */
  lemma LastReplaced(rows: seq<Row>, before: Row, after: Row, n: nat)
    requires n <= |rows|
    ensures (rows + [before])[n..][|rows| - n] == before
    ensures (rows + [after])[n..] == (rows + [before])[n..][|rows| - n := after]
    ensures (rows + [after])[..n] == (rows + [before])[..n]
  {
  }

  lemma RowReplaced(screen: seq<Row>, y: nat, after: Row)
    requires y < |screen|
    ensures screen[..y + 1][y] == screen[y] && screen[y := after][..y + 1] == screen[..y + 1][y := after]
  {
  }

  /** Replacing the last row of the tape. */
  lemma PlacedOnTape(t: Term, rows: seq<Row>, before: Row, after: Row, col: nat)
    requires Tape(t, rows + [before]) && RowOk(after) && |after| == t.w
    ensures t.screen[t.cy] == before
    ensures Tape(Placed(t, after, col, PLAIN), rows + [after])
  {
    PlacedOk(t, after, col, PLAIN);
    LastReplaced(rows, before, after, |rows| - t.cy);
    RowReplaced(t.screen, t.cy, after);
  }

  ghost predicate PrintsAll(lines: seq<Row>, srcs: seq<Row>, w: nat) {
    |lines| == |srcs| && forall k :: 0 <= k < |lines| ==> Prints(lines[k], srcs[k]) && |srcs[k]| <= w
  }

  /** One more line: new row, then its text. */
  lemma NextLine(t: Term, rows: seq<Row>, line: Row, src: Row) returns (u: Term)
    requires Tape(t, rows) && Prints(line, src) && |src| <= t.w
    requires !t.alt ==> |rows| + 1 <= t.cap + t.h
    ensures SameSetup(t, u) && Tape(u, rows + [NormRow(src, t.w)])
    ensures Feed(Vt(t, Ground), [CR, LF] + CellSyms(line, 0, PLAIN)) == Vt(u, Ground)
  {
    var n := LineFeed(CarriageReturn(t));
    NextRowOnTape(t, rows, src, EndCol(line));
    NextLineFeeds(t, line, src);
    u := Placed(n, NormRow(src, t.w), EndCol(line), PLAIN);
  }

  lemma NextRowOnTape(t: Term, rows: seq<Row>, src: Row, col: nat)
    requires Tape(t, rows) && RowOk(src) && |src| <= t.w
    requires !t.alt ==> |rows| + 1 <= t.cap + t.h
    ensures var n := LineFeed(CarriageReturn(t));
            && TermOk(n) && n.w == t.w && n.pen == PLAIN && n.screen[n.cy] == BlankRow(n.w, PLAIN)
            && Tape(Placed(n, NormRow(src, t.w), col, PLAIN), rows + [NormRow(src, t.w)])
  {
    CarriageReturnOnTape(t, rows);
    LineFeedOnTape(CarriageReturn(t), rows);
    LineFeedKeepsSize(CarriageReturn(t));
    SourceOnTape(LineFeed(CarriageReturn(t)), rows, src, col);
  }

  lemma CarriageReturnOnTape(t: Term, rows: seq<Row>)
    requires Tape(t, rows)
    ensures Tape(CarriageReturn(t), rows)
  {
  }

  lemma LineFeedKeepsSize(t: Term)
    requires TermOk(t)
    ensures LineFeed(t).w == t.w && LineFeed(t).pen == t.pen
  {
  }

  /** The last row, blank so far, takes what the source row shows as. */
  lemma SourceOnTape(t: Term, rows: seq<Row>, src: Row, col: nat)
    requires Tape(t, rows + [BlankRow(t.w, PLAIN)]) && RowOk(src) && |src| <= t.w
    ensures t.screen[t.cy] == BlankRow(t.w, PLAIN)
    ensures Tape(Placed(t, NormRow(src, t.w), col, PLAIN), rows + [NormRow(src, t.w)])
  {
    RenderedOk(src, |src|, t.w);
    PlacedOnTape(t, rows, BlankRow(t.w, PLAIN), NormRow(src, t.w), col);
  }

  lemma NextLineFeeds(t: Term, line: Row, src: Row)
    requires TermOk(t) && Prints(line, src) && |src| <= t.w
    requires var n := LineFeed(CarriageReturn(t)); TermOk(n) && n.pen == PLAIN && n.screen[n.cy] == BlankRow(n.w, PLAIN)
    ensures Feed(Vt(t, Ground), [CR, LF] + CellSyms(line, 0, PLAIN))
         == Vt(Placed(LineFeed(CarriageReturn(t)), NormRow(src, t.w), EndCol(line), PLAIN), Ground)
  {
    FeedNewLine(t);
    FeedConcat(Vt(t, Ground), [CR, LF], CellSyms(line, 0, PLAIN));
    PrintRow(LineFeed(CarriageReturn(t)), line, src);
  }

  lemma NormRowsSnoc(srcs: seq<Row>, w: nat)
    requires srcs != []
    ensures NormRows(srcs, w) == NormRows(srcs[..|srcs| - 1], w) + [NormRow(srcs[|srcs| - 1], w)]
  {
  }

  lemma JoinSnoc(lines: seq<Row>)
    requires |lines| > 1
    ensures Join(lines) == Join(lines[..|lines| - 1]) + ([CR, LF] + CellSyms(lines[|lines| - 1], 0, PLAIN))
  {
  }

  /** Joined lines become consecutive rows of the tape. */
  lemma {:induction false} JoinOnTape(t: Term, lines: seq<Row>, srcs: seq<Row>)
    requires Tape(t, [BlankRow(t.w, PLAIN)]) && t.cx == 0 && !t.pending
    requires lines != [] && PrintsAll(lines, srcs, t.w)
    requires !t.alt ==> |lines| <= t.cap + t.h
    ensures var r := Feed(Vt(t, Ground), Join(lines));
            r.parser == Ground && SameSetup(t, r.term) && Tape(r.term, NormRows(srcs, t.w))
    decreases |lines|
  {
    if |lines| == 1 {
      JoinFirst(t, lines, srcs);
    } else {
      PrintsAllPrefix(lines, srcs, t.w);
      JoinOnTape(t, lines[..|lines| - 1], srcs[..|lines| - 1]);
      JoinNext(t, lines, srcs);
    }
  }

  lemma PrintsAllPrefix(lines: seq<Row>, srcs: seq<Row>, w: nat)
    requires lines != [] && PrintsAll(lines, srcs, w)
    ensures PrintsAll(lines[..|lines| - 1], srcs[..|lines| - 1], w)
    ensures Prints(lines[|lines| - 1], srcs[|lines| - 1]) && |srcs[|lines| - 1]| <= w
  {
  }

  lemma JoinFirst(t: Term, lines: seq<Row>, srcs: seq<Row>)
    requires Tape(t, [BlankRow(t.w, PLAIN)]) && t.cx == 0 && !t.pending
    requires |lines| == 1 && PrintsAll(lines, srcs, t.w)
    ensures var r := Feed(Vt(t, Ground), Join(lines));
            r.parser == Ground && SameSetup(t, r.term) && Tape(r.term, NormRows(srcs, t.w))
  {
    AppendToNone(BlankRow(t.w, PLAIN));
    RenderedOk(srcs[0], |srcs[0]|, t.w);
    PlacedOnTape(t, [], BlankRow(t.w, PLAIN), NormRow(srcs[0], t.w), EndCol(lines[0]));
    PrintRow(t, lines[0], srcs[0]);
    JoinOne(lines);
    AppendToNone(NormRow(srcs[0], t.w));
    NormRowsOne(srcs, t.w);
  }

  lemma AppendToNone(row: Row)
    ensures [] + [row] == [row]
  {
  }

  lemma JoinOne(lines: seq<Row>)
    requires |lines| == 1
    ensures Join(lines) == CellSyms(lines[0], 0, PLAIN)
  {
    assert lines[..0] == [];
  }

  lemma NormRowsOne(srcs: seq<Row>, w: nat)
    requires |srcs| == 1
    ensures NormRows(srcs, w) == [NormRow(srcs[0], w)]
  {
  }

  lemma JoinNext(t: Term, lines: seq<Row>, srcs: seq<Row>)
    requires TermOk(t) && |lines| == |srcs| > 1
    requires var r := Feed(Vt(t, Ground), Join(lines[..|lines| - 1]));
             r.parser == Ground && SameSetup(t, r.term) && Tape(r.term, NormRows(srcs[..|lines| - 1], t.w))
    requires Prints(lines[|lines| - 1], srcs[|lines| - 1]) && |srcs[|lines| - 1]| <= t.w
    requires !t.alt ==> |lines| <= t.cap + t.h
    ensures var r := Feed(Vt(t, Ground), Join(lines));
            r.parser == Ground && SameSetup(t, r.term) && Tape(r.term, NormRows(srcs, t.w))
  {
    NormRowsSnoc(srcs, t.w);
    var last := |lines| - 1;
    var before := Join(lines[..last]);
    JoinSnoc(lines);
    FeedConcat(Vt(t, Ground), before, [CR, LF] + CellSyms(lines[last], 0, PLAIN));
    var u := NextLine(Feed(Vt(t, Ground), before).term, NormRows(srcs[..last], t.w), lines[last], srcs[last]);
  }

  // ---------------------------------------------------------------- the mode lead

  lemma ModeSeqIsCsi(n: nat)
    ensures Widen(VtMode.ModeSeq(n)) == CsiSyms(true, [n], SM)
  {
    var a, b := Widen(VtMode.ModeSeq(n)), CsiSyms(true, [n], SM);
    assert ParamSyms([n]) == NumberSyms(n);
    assert |a| == |b|;
    forall k | 0 <= k < |a|
      ensures a[k] == b[k]
    {
    }
  }

  lemma {:induction false} FeedLead(t: Term, ns: seq<Mode>)
    requires TermOk(t)
    ensures Feed(Vt(t, Ground), Widen(VtMode.RestoreOf(ns))) == Vt(SetModes(t, ns), Ground)
    decreases ns
  {
    if ns != [] {
      var head, tail := VtMode.ModeSeq(ns[0]), VtMode.RestoreOf(ns[1..]);
      assert Widen(head + tail) == Widen(head) + Widen(tail);
      ModeSeqIsCsi(ns[0]);
      FeedMode(t, ns[0], true);
      FeedConcat(Vt(t, Ground), Widen(head), Widen(tail));
      FeedLead(SetMode(t, ns[0]), ns[1..]);
    }
  }

  /** The cursor is at home, as it is where it was last saved. */
  predicate AtHome(t: Term) {
    SaveCursor(t).mark == t.mark == HOME
  }

  /** A blank terminal stays blank while modes are switched on; only the showing screen can change. */
  lemma {:induction false} SetModesOnBlank(t: Term, ns: seq<Mode>)
    requires TermOk(t) && t.alt == AltIn(t.modes) && AtHome(t)
    requires t.screen == t.saved == seq(t.h, _ => BlankRow(t.w, PLAIN))
    ensures SetModes(t, ns) == t.(modes := t.modes + Elements(ns), alt := AltIn(t.modes + Elements(ns)))
    decreases ns
  {
    if ns == [] {
      assert t.modes + Elements(ns) == t.modes;
    } else {
      SetModesOk(t, [ns[0]]);
      assert SetModes(t, [ns[0]]) == SetMode(t, ns[0]);
      SetModesOnBlank(SetMode(t, ns[0]), ns[1..]);
      assert t.modes + {ns[0]} + Elements(ns[1..]) == t.modes + Elements(ns) by {
        assert ns == [ns[0]] + ns[1..];
      }
    }
  }

  function Elements(ns: seq<Mode>): set<nat> {
    set n | n in ns
  }

  // ---------------------------------------------------------------- the whole replay

  /** A state the daemon's emulator can be in, with every history line no wider than the screen. */
  ghost predicate Replayable(e: Term) {
    TermOk(e) && forall k :: 0 <= k < |e.history| ==> |e.history[k]| <= e.w
  }

  /** The rows the replay carries: history, when the main screen shows, then the screen. */
  function Carried(e: Term): seq<Row> {
    (if e.alt then [] else e.history) + e.screen
  }

  /** Moving up by `up` rows, nothing printed for none. */
  lemma FeedUp(t: Term, up: nat, upward: seq<Sym>)
    requires TermOk(t) && FullRegion(t) && !t.pending && up <= t.cy
    requires upward == if up > 0 then CsiSyms(false, [up], CUU) else []
    ensures Feed(Vt(t, Ground), upward) == Vt(t.(cy := t.cy - up), Ground)
  {
    if up > 0 {
      FeedCsi(t, [up], CUU);
    }
  }

  lemma FeedForward(t: Term, n: nat, forward: seq<Sym>)
    requires TermOk(t) && !t.pending && t.cx == 0 && n < t.w
    requires forward == if n > 0 then CsiSyms(false, [n], CUF) else []
    ensures Feed(Vt(t, Ground), forward) == Vt(t.(cx := n), Ground)
  {
    if n > 0 {
      FeedCsi(t, [n], CUF);
    }
  }

  lemma FeedReturn(t: Term, ret: seq<Sym>)
    requires TermOk(t) && ret == [CR]
    ensures Feed(Vt(t, Ground), ret) == Vt(CarriageReturn(t), Ground)
  {
    FeedOne(Vt(t, Ground), CR);
  }

  lemma FeedPark(t: Term, e: Term)
    requires TermOk(t) && TermOk(e) && FullRegion(t) && e.w == t.w && e.h - 1 <= t.cy
    ensures Feed(Vt(t, Ground), Park(e))
         == Vt(t.(cx := e.cx, cy := t.cy - (e.h - 1 - e.cy), pending := false), Ground)
  {
    var up := e.h - 1 - e.cy;
    ParkFeeds(t, up, e.cx, [CR], if up > 0 then CsiSyms(false, [up], CUU) else [],
              if e.cx > 0 then CsiSyms(false, [e.cx], CUF) else []);
  }

  lemma ParkFeeds(t: Term, up: nat, cx: nat, ret: seq<Sym>, upward: seq<Sym>, forward: seq<Sym>)
    requires TermOk(t) && FullRegion(t) && up <= t.cy && cx < t.w && ret == [CR]
    requires upward == if up > 0 then CsiSyms(false, [up], CUU) else []
    requires forward == if cx > 0 then CsiSyms(false, [cx], CUF) else []
    ensures Feed(Vt(t, Ground), ret + upward + forward) == Vt(t.(cx := cx, cy := t.cy - up, pending := false), Ground)
  {
    var c := CarriageReturn(t);
    FeedConcat(Vt(t, Ground), ret + upward, forward);
    FeedConcat(Vt(t, Ground), ret, upward);
    FeedReturn(t, ret);
    FeedUp(c, up, upward);
    FeedForward(c.(cy := t.cy - up), cx, forward);
  }

  lemma TrimAllPrints(rows: seq<Row>, w: nat)
    requires ScreenOk(rows, w, |rows|)
    ensures PrintsAll(TrimAll(rows), rows, w)
  {
  }

  lemma PrintedPrintsCarried(e: Term)
    requires Replayable(e)
    ensures PrintsAll(Printed(e), Carried(e), e.w)
  {
    TrimAllPrints(e.screen, e.w);
  }

  predicate IsBlank(rows: seq<Row>, w: nat) {
    forall i :: 0 <= i < |rows| ==> rows[i] == BlankRow(w, PLAIN)
  }

  /** What a client of the same width and any height holds after the replay of e with the modes in `order`. */
  ghost predicate Arrived(c: Term, e: Term, order: seq<Mode>, height: nat) {
    var rows := NormRows(Carried(e), e.w);
    && TermOk(c) && c.w == e.w && c.h == height && c.cap == e.cap
    && c.modes == e.defaults + Elements(order) && c.alt == AltIn(Elements(order))
    && c.pen == PLAIN && !c.pending && FullRegion(c) && c.mark == HOME
    && IsBlank(c.saved, e.w)
    && c.cx == e.cx
    && c.cy == (if |rows| < height then |rows| else height) - (e.h - e.cy)
    && LaidOut(rows, c.screen, if c.alt then None else Some(c.history), e.w)
    && (c.alt ==> c.history == [])
  }

  /** The rows end on the screen, as many as fit; those before are the history, if one is kept, and blanks follow. */
  ghost predicate LaidOut(rows: seq<Row>, screen: seq<Row>, history: Option<seq<Row>>, w: nat) {
    var top := if |rows| < |screen| then 0 else |rows| - |screen|;
    && (history.Some? ==> history.value == rows[..top])
    && screen[..|rows| - top] == rows[top..]
    && forall i :: |rows| - top <= i < |screen| ==> screen[i] == BlankRow(w, PLAIN)
  }

  /** The client after the mode lead: blank, on the screen its modes say. */
  lemma LeadArrives(e: Term, order: seq<Mode>, height: nat)
    requires TermOk(e) && height > 0
    ensures var t := Fresh(e.w, height, e.cap, e.defaults);
            var t1 := t.(modes := e.defaults + Elements(order), alt := AltIn(Elements(order)));
            TermOk(t1) && Feed(Vt(t, Ground), Widen(VtMode.RestoreOf(order))) == Vt(t1, Ground)
  {
    var t := Fresh(e.w, height, e.cap, e.defaults);
    FeedLead(t, order);
    SetModesOnBlank(t, order);
    assert AltIn(t.modes + Elements(order)) == AltIn(Elements(order));
  }

  lemma BlankTape(t: Term)
    requires TermOk(t) && FullRegion(t) && t.pen == PLAIN && t.cy == 0 && t.history == [] && IsBlank(t.screen, t.w)
    ensures Tape(t, [BlankRow(t.w, PLAIN)])
  {
    var rows := [BlankRow(t.w, PLAIN)];
    assert t.screen[..1] == [t.screen[0]] == rows == rows[0..];
    assert rows[..0] == [];
  }

  lemma ParkArrives(t: Term, e: Term, order: seq<Mode>)
    requires TermOk(e) && e.h <= t.h && t.w == e.w
    requires Tape(t, NormRows(Carried(e), e.w))
    requires t.modes == e.defaults + Elements(order) && t.alt == AltIn(Elements(order))
    requires t.cap == e.cap && IsBlank(t.saved, e.w) && t.mark == HOME
    ensures var r := Feed(Vt(t, Ground), Park(e));
            r.parser == Ground && Arrived(r.term, e, order, t.h)
  {
    FeedPark(t, e);
    ParkedArrives(t, e, order, NormRows(Carried(e), e.w));
  }

  lemma ParkedArrives(t: Term, e: Term, order: seq<Mode>, rows: seq<Row>)
    requires TermOk(e) && e.h <= t.h && t.w == e.w && e.h <= |rows|
    requires rows == NormRows(Carried(e), e.w) && Tape(t, rows)
    requires t.modes == e.defaults + Elements(order) && t.alt == AltIn(Elements(order))
    requires t.cap == e.cap && IsBlank(t.saved, e.w) && t.mark == HOME
    ensures Arrived(t.(cx := e.cx, cy := t.cy - (e.h - 1 - e.cy), pending := false), e, order, t.h)
  {
    TapeLaidOut(rows, t.screen, t.cy, t.w, if t.alt then None else Some(t.history));
  }

  lemma TapeLaidOut(rows: seq<Row>, screen: seq<Row>, cy: nat, w: nat, history: Option<seq<Row>>)
    requires OnTape(rows, screen, cy, w, history)
    ensures LaidOut(rows, screen, history, w)
  {
    assert (if |rows| < |screen| then 0 else |rows| - |screen|) == |rows| - cy - 1;
  }

  /** The text and the park, after the mode lead. */
  lemma TextArrives(t: Term, e: Term, order: seq<Mode>)
    requires Replayable(e) && e.h <= t.h && t.w == e.w && t.cap == e.cap
    requires Tape(t, [BlankRow(e.w, PLAIN)]) && t.cx == 0 && !t.pending
    requires t.modes == e.defaults + Elements(order) && t.alt == AltIn(Elements(order))
    requires IsBlank(t.saved, e.w) && t.mark == HOME
    ensures var r := Feed(Vt(t, Ground), Join(Printed(e)) + Park(e));
            r.parser == Ground && Arrived(r.term, e, order, t.h)
  {
    PrintedPrintsCarried(e);
    JoinOnTape(t, Printed(e), Carried(e));
    FeedConcat(Vt(t, Ground), Join(Printed(e)), Park(e));
    ParkArrives(Feed(Vt(t, Ground), Join(Printed(e))).term, e, order);
  }

  /** The replay into a fresh terminal at least as tall as the session's. */
  lemma ReplayArrives(e: Term, order: seq<Mode>, height: nat)
    requires Replayable(e) && e.h <= height
    ensures var r := Feed(Vt(Fresh(e.w, height, e.cap, e.defaults), Ground), ReplaySyms(e, order));
            r.parser == Ground && Arrived(r.term, e, order, height)
  {
    var t := Fresh(e.w, height, e.cap, e.defaults);
    var lead := Widen(VtMode.RestoreOf(order));
    LeadArrives(e, order, height);
    BlankTape(Feed(Vt(t, Ground), lead).term);
    FeedConcat(Vt(t, Ground), lead, Join(Printed(e)) + Park(e));
    TextArrives(Feed(Vt(t, Ground), lead).term, e, order);
  }
}
