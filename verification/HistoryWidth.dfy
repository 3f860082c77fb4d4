/**
 Replaying history into a terminal of the session's width that wraps: each line has one row
 there, so a line wider than the terminal, left over from a wider one, pushes the history on.
 */
module HistoryWidth {
  import opened Common
  import opened Terminal
  import opened Replay
  import opened ReplayRoundTrip
  import opened ReplayTheorems
  import VtMode

  // ---------------------------------------------------------------- one line

  /** Rows used so far on the main screen and above it. */
  function RowsUsed(t: Term): nat {
    |t.history| + t.cy + 1
  }

  lemma PrintUsesRows(t: Term, s: Sym)
    requires TermOk(t) && s.Cols() in {1, 2}
    ensures RowsUsed(Print(t, s)) >= RowsUsed(t)
  {
    if s.Cols() <= t.w {
      PlaceOk(t, s.Cols());
    }
  }

  predicate CellsOk(line: Row) {
    forall i :: 0 <= i < |line| ==> CellOk(line[i])
  }

  /** The terminal after printing the cells from index i on. */
  ghost function AfterCells(t: Term, line: Row, i: nat): (r: Term)
    requires TermOk(t) && CellsOk(line) && i <= |line|
    ensures TermOk(r)
    decreases |line| - i
  {
    if i == |line| then t.(pen := PLAIN)
    else if line[i].width == 0 then AfterCells(t, line, i + 1)
    else
      assert CellOk(line[i]);
      var styled := t.(pen := line[i].style);
      PrintOk(styled, Glyph(line[i]));
      AfterCells(Print(styled, Glyph(line[i])), line, i + 1)
  }

  lemma {:induction false} FeedCells(t: Term, line: Row, i: nat)
    requires TermOk(t) && CellsOk(line) && i <= |line|
    ensures Feed(Vt(t, Ground), CellSyms(line, i, t.pen)) == Vt(AfterCells(t, line, i), Ground)
    decreases |line| - i
  {
    if i == |line| {
      if t.pen != PLAIN {
        FeedReset(t);
      }
    } else if line[i].width == 0 {
      assert line[i] == SHADOW;
      FeedCells(t, line, i + 1);
    } else {
      var u := PrintNext(t, line, i);
      FeedCells(u, line, i + 1);
    }
  }

  lemma {:induction false} CellsUseRows(t: Term, line: Row, i: nat)
    requires TermOk(t) && CellsOk(line) && i <= |line|
    ensures RowsUsed(AfterCells(t, line, i)) >= RowsUsed(t)
    decreases |line| - i
  {
    if i < |line| {
      if line[i].width == 0 {
        CellsUseRows(t, line, i + 1);
      } else {
        assert CellOk(line[i]);
        var styled := t.(pen := line[i].style);
        PrintOk(styled, Glyph(line[i]));
        PrintUsesRows(styled, Glyph(line[i]));
        CellsUseRows(Print(styled, Glyph(line[i])), line, i + 1);
      }
    }
  }

  lemma PrintOne(t: Term, s: Sym, text: seq<Sym>)
    requires TermOk(t) && s.Cols() in {1, 2} && text == [s]
    ensures Feed(Vt(t, Ground), text) == Vt(Print(t, s), Ground)
  {
    FeedOne(Vt(t, Ground), s);
  }

  /** Peels one printed cell off the text. */
  lemma PrintNext(t: Term, line: Row, i: nat) returns (u: Term)
    requires TermOk(t) && CellsOk(line) && i < |line| && line[i].width != 0
    ensures Glyph(line[i]).Cols() == line[i].width && line[i].width in {1, 2}
    ensures u == Print(t.(pen := line[i].style), Glyph(line[i])) && TermOk(u) && u.pen == line[i].style
    ensures Feed(Vt(t, Ground), CellSyms(line, i, t.pen)) == Feed(Vt(u, Ground), CellSyms(line, i + 1, u.pen))
  {
    var c := line[i];
    assert CellOk(c);
    PrintOk(t.(pen := c.style), Glyph(c));
    u := Print(t.(pen := c.style), Glyph(c));
    PeelCell(t, c, u, [Glyph(c)], CellSyms(line, i + 1, c.style));
  }

  lemma PeelCell(t: Term, c: Cell, u: Term, text: seq<Sym>, rest: seq<Sym>)
    requires TermOk(t) && TermOk(u) && Glyph(c).Cols() in {1, 2} && text == [Glyph(c)]
    requires u == Print(t.(pen := c.style), Glyph(c))
    ensures u.pen == c.style
    ensures Feed(Vt(t, Ground), StyleSyms(t.pen, c.style) + text + rest) == Feed(Vt(u, Ground), rest)
  {
    FeedStyle(t, c.style);
    PrintOne(t.(pen := c.style), Glyph(c), text);
    FeedThree(Vt(t, Ground), StyleSyms(t.pen, c.style), text, rest);
  }

  /** The cursor is at virtual column `col` of its row. */
  predicate AtColumn(t: Term, col: nat) {
    if col < t.w then t.cx == col && !t.pending else col == t.w && t.pending
  }

  /** A main screen that wraps and scrolls as a whole. */
  predicate Flows(t: Term) {
    !t.alt && FullRegion(t) && Wraps(t)
  }

  /** Inside the line the glyph stays on its row; past the last column it wraps onto a new one. */
  lemma PrintAt(t: Term, s: Sym, col: nat)
    requires TermOk(t) && t.w >= 2 && Flows(t) && |t.history| < t.cap
    requires s.Cols() in {1, 2} && col <= t.w && AtColumn(t, col)
    ensures var u := Print(t, s);
            if col + s.Cols() <= t.w
            then AtColumn(u, col + s.Cols()) && RowsUsed(u) == RowsUsed(t)
                 && u.history == t.history && u.w == t.w && u.cap == t.cap && Flows(u)
            else RowsUsed(u) > RowsUsed(t)
  {
    if s.Cols() <= t.w {
      PlaceOk(t, s.Cols());
    }
  }

  /** Printing the cell at column i of its row, up to the next cell boundary. */
  lemma CellFits(t: Term, line: Row, i: nat) returns (u: Term)
    requires TermOk(t) && t.w >= 2 && RowOk(line) && Flows(t) && |t.history| < t.cap
    requires i < |line| && i <= t.w && AtColumn(t, i) && line[i].width != 0
    ensures TermOk(u) && line[i].width in {1, 2}
    ensures var j := i + line[i].width;
            && j <= |line| && (j < |line| ==> line[j].width != 0)
            && AfterCells(t, line, i) == AfterCells(u, line, j)
            && (if j <= t.w
                then AtColumn(u, j) && RowsUsed(u) == RowsUsed(t)
                     && u.w == t.w && Flows(u) && |u.history| < u.cap
                else RowsUsed(u) > RowsUsed(t))
  {
    var styled := t.(pen := line[i].style);
    assert CellOk(line[i]);
    u := Print(styled, Glyph(line[i]));
    PrintOk(styled, Glyph(line[i]));
    PrintAt(styled, Glyph(line[i]), i);
    if line[i].width == 2 {
      assert CellOk(line[i + 1]);
      assert AfterCells(u, line, i + 1) == AfterCells(u, line, i + 2);
    }
  }

  lemma {:induction false} LineFitsFrom(t: Term, line: Row, i: nat)
    requires TermOk(t) && t.w >= 2 && RowOk(line) && Flows(t) && |t.history| < t.cap
    requires i <= |line| && i <= t.w && AtColumn(t, i)
    requires i < |line| ==> line[i].width != 0
    ensures RowsUsed(AfterCells(t, line, i)) == RowsUsed(t) <==> |line| <= t.w
    decreases |line| - i, 0
  {
    if i < |line| {
      var u := CellFits(t, line, i);
      RestFits(t, u, line, i + line[i].width);
    }
  }

  /** From the next cell boundary on, whose rows were all used before, or not. */
  lemma {:induction false} RestFits(t: Term, u: Term, line: Row, j: nat)
    requires TermOk(u) && t.w >= 2 && RowOk(line) && 0 < j <= |line|
    requires j < |line| ==> line[j].width != 0
    requires if j <= t.w
             then AtColumn(u, j) && RowsUsed(u) == RowsUsed(t) && u.w == t.w && Flows(u) && |u.history| < u.cap
             else RowsUsed(u) > RowsUsed(t)
    ensures RowsUsed(AfterCells(u, line, j)) == RowsUsed(t) <==> |line| <= t.w
    decreases |line| - j, 1
  {
    if j <= t.w {
      LineFitsFrom(u, line, j);
    } else {
      CellsUseRows(u, line, j);
    }
  }

  lemma {:induction false} UnwrappedStays(t: Term, line: Row, i: nat)
    requires TermOk(t) && CellsOk(line) && i <= |line| && !Wraps(t)
    ensures RowsUsed(AfterCells(t, line, i)) == RowsUsed(t)
    decreases |line| - i
  {
    if i < |line| {
      if line[i].width == 0 {
        UnwrappedStays(t, line, i + 1);
      } else {
        assert CellOk(line[i]);
        var styled := t.(pen := line[i].style);
        PrintOk(styled, Glyph(line[i]));
        UnwrappedStays(Print(styled, Glyph(line[i])), line, i + 1);
      }
    }
  }

  /** A history line takes exactly one row of the client if and only if it is no wider, or the client does not wrap. */
  lemma LineTakesOneRowIff(t: Term, line: Row)
    requires TermOk(t) && t.w >= 2 && RowOk(line) && !t.alt && FullRegion(t) && |t.history| < t.cap
    requires t.cx == 0 && !t.pending && t.pen == PLAIN
    ensures var r := Feed(Vt(t, Ground), CellSyms(line, 0, PLAIN)).term;
            RowsUsed(r) == RowsUsed(t) <==> |line| <= t.w || !Wraps(t)
  {
    FeedCells(t, line, 0);
    if Wraps(t) {
      LineFitsFrom(t, line, 0);
    } else {
      UnwrappedStays(t, line, 0);
    }
  }

  /** Three blanks do not fit a client two columns wide. */
  lemma WideLineWraps()
    ensures exists t: Term, line: Row ::
              && TermOk(t) && t.cx == 0 && !t.pending && t.pen == PLAIN && RowOk(line)
              && RowsUsed(Feed(Vt(t, Ground), CellSyms(line, 0, PLAIN)).term) != RowsUsed(t)
  {
    var t, line := Fresh(2, 1, 1, {AUTOWRAP}), BlankRow(3, PLAIN);
    BlankRowOk(3, PLAIN);
    LineTakesOneRowIff(t, line);
  }

  // ---------------------------------------------------------------- the whole history

  /** At least n rows were used on the main screen and above it, unless the history filled up. */
  predicate Grown(t: Term, n: nat) {
    Flows(t) && (|t.history| == t.cap || RowsUsed(t) >= n)
  }

  lemma LineFeedGrows(t: Term, n: nat)
    requires TermOk(t) && Grown(t, n)
    ensures Grown(LineFeed(t), n + 1) && LineFeed(t).cap == t.cap && LineFeed(t).w == t.w
  {
  }

  lemma PrintKeepsGrown(t: Term, s: Sym, n: nat)
    requires TermOk(t) && s.Cols() in {1, 2} && Grown(t, n)
    ensures Grown(Print(t, s), n) && Print(t, s).cap == t.cap && Print(t, s).w == t.w
  {
    if s.Cols() <= t.w {
      PlaceOk(t, s.Cols());
      LineFeedGrows(CarriageReturn(t), n);
    }
  }

  lemma {:induction false} CellsKeepGrown(t: Term, line: Row, i: nat, n: nat)
    requires TermOk(t) && CellsOk(line) && i <= |line| && Grown(t, n)
    ensures var r := AfterCells(t, line, i); Grown(r, n) && r.cap == t.cap && r.w == t.w && r.pen == PLAIN
    decreases |line| - i
  {
    if i < |line| {
      if line[i].width == 0 {
        CellsKeepGrown(t, line, i + 1, n);
      } else {
        assert CellOk(line[i]);
        var styled := t.(pen := line[i].style);
        PrintOk(styled, Glyph(line[i]));
        PrintKeepsGrown(styled, Glyph(line[i]), n);
        CellsKeepGrown(Print(styled, Glyph(line[i])), line, i + 1, n);
      }
    }
  }

  /** Ready for a line: column 0, the default pen. */
  predicate AtStart(t: Term) {
    TermOk(t) && t.cx == 0 && !t.pending && t.pen == PLAIN
  }

  /** A line wider than the terminal takes a row more. */
  lemma WideLineGrows(t: Term, line: Row, n: nat)
    requires AtStart(t) && t.w >= 2 && RowOk(line) && |line| > t.w && Grown(t, n)
    ensures Grown(AfterCells(t, line, 0), n + 1)
  {
    CellsKeepGrown(t, line, 0, n);
    if |t.history| < t.cap {
      LineFitsFrom(t, line, 0);
      CellsUseRows(t, line, 0);
    } else {
      CellsKeepFull(t, line, 0);
    }
  }

  lemma {:induction false} CellsKeepFull(t: Term, line: Row, i: nat)
    requires TermOk(t) && CellsOk(line) && i <= |line| && Flows(t) && |t.history| == t.cap
    ensures |AfterCells(t, line, i).history| == t.cap && AfterCells(t, line, i).cap == t.cap
    decreases |line| - i
  {
    CellsKeepGrown(t, line, i, 0);
    if i < |line| {
      if line[i].width == 0 {
        CellsKeepFull(t, line, i + 1);
      } else {
        assert CellOk(line[i]);
        var styled := t.(pen := line[i].style);
        PrintOk(styled, Glyph(line[i]));
        PrintKeepsFull(styled, Glyph(line[i]));
        CellsKeepFull(Print(styled, Glyph(line[i])), line, i + 1);
      }
    }
  }

  lemma PrintKeepsFull(t: Term, s: Sym)
    requires TermOk(t) && s.Cols() in {1, 2} && Flows(t) && |t.history| == t.cap
    ensures var u := Print(t, s); Flows(u) && |u.history| == u.cap == t.cap
  {
    if s.Cols() <= t.w {
      PlaceOk(t, s.Cols());
    }
  }

  /** Some line is wider than w. */
  ghost predicate AnyWide(lines: seq<Row>, w: nat) {
    exists k :: 0 <= k < |lines| && RowOk(lines[k]) && |lines[k]| > w
  }

  lemma AnyWideSnoc(lines: seq<Row>, w: nat)
    requires lines != []
    ensures var last := |lines| - 1;
            AnyWide(lines, w) <==> AnyWide(lines[..last], w) || (RowOk(lines[last]) && |lines[last]| > w)
  {
    var last := |lines| - 1;
    if AnyWide(lines[..last], w) {
      var k :| 0 <= k < last && RowOk(lines[..last][k]) && |lines[..last][k]| > w;
      assert lines[k] == lines[..last][k];
    }
    if AnyWide(lines, w) && !(RowOk(lines[last]) && |lines[last]| > w) {
      var k :| 0 <= k < |lines| && RowOk(lines[k]) && |lines[k]| > w;
      assert lines[..last][k] == lines[k];
    }
  }

  /** Joined lines use a row each, and one more if any is too wide. */
  lemma {:induction false} JoinGrows(t: Term, lines: seq<Row>)
    requires AtStart(t) && t.w >= 2 && Grown(t, 1)
    requires lines != [] && forall k :: 0 <= k < |lines| ==> CellsOk(lines[k])
    ensures var r := Feed(Vt(t, Ground), Join(lines));
            && r.parser == Ground && r.term.cap == t.cap && r.term.w == t.w && r.term.pen == PLAIN
            && Grown(r.term, |lines| + if AnyWide(lines, t.w) then 1 else 0)
    decreases |lines|
  {
    var last := |lines| - 1;
    var line := lines[last];
    AnyWideSnoc(lines, t.w);
    if last == 0 {
      JoinOne(lines);
      FeedCells(t, line, 0);
      LineGrows(t, line, 1);
    } else {
      var before := Join(lines[..last]);
      JoinGrows(t, lines[..last]);
      var v := Feed(Vt(t, Ground), before);
      JoinSnoc(lines);
      FeedConcat(Vt(t, Ground), before, [CR, LF] + CellSyms(line, 0, PLAIN));
      NextLineGrows(v.term, line, last + if AnyWide(lines[..last], t.w) then 1 else 0);
    }
  }

  lemma LineGrows(t: Term, line: Row, n: nat)
    requires AtStart(t) && t.w >= 2 && CellsOk(line) && Grown(t, n)
    ensures var r := AfterCells(t, line, 0);
            Grown(r, n + if RowOk(line) && |line| > t.w then 1 else 0) && r.cap == t.cap && r.w == t.w && r.pen == PLAIN
  {
    CellsKeepGrown(t, line, 0, n);
    if RowOk(line) && |line| > t.w {
      WideLineGrows(t, line, n);
    }
  }

  lemma NextLineGrows(t: Term, line: Row, n: nat)
    requires TermOk(t) && t.w >= 2 && t.pen == PLAIN && CellsOk(line) && Grown(t, n)
    ensures var r := Feed(Vt(t, Ground), [CR, LF] + CellSyms(line, 0, PLAIN));
            && r.parser == Ground && r.term.cap == t.cap && r.term.w == t.w && r.term.pen == PLAIN
            && Grown(r.term, n + 1 + if RowOk(line) && |line| > t.w then 1 else 0)
  {
    var c := CarriageReturn(t);
    FeedNewLine(t);
    LineFeedOk(c);
    LineFeedGrows(c, n);
    FeedConcat(Vt(t, Ground), [CR, LF], CellSyms(line, 0, PLAIN));
    FeedCells(LineFeed(c), line, 0);
    LineGrows(LineFeed(c), line, n + 1);
  }

  lemma ParkKeepsHistory(t: Term, e: Term)
    requires TermOk(t) && TermOk(e)
    ensures Feed(Vt(t, Ground), Park(e)).term.history == t.history
  {
    var up := e.h - 1 - e.cy;
    MovesKeepHistory(t, up, e.cx, [CR], if up > 0 then CsiSyms(false, [up], CUU) else [],
                     if e.cx > 0 then CsiSyms(false, [e.cx], CUF) else []);
  }

  lemma MovesKeepHistory(t: Term, up: nat, cx: nat, ret: seq<Sym>, upward: seq<Sym>, forward: seq<Sym>)
    requires TermOk(t) && ret == [CR]
    requires upward == if up > 0 then CsiSyms(false, [up], CUU) else []
    requires forward == if cx > 0 then CsiSyms(false, [cx], CUF) else []
    ensures Feed(Vt(t, Ground), ret + upward + forward).term.history == t.history
  {
    var c := CarriageReturn(t);
    FeedConcat(Vt(t, Ground), ret + upward, forward);
    FeedConcat(Vt(t, Ground), ret, upward);
    FeedReturn(t, ret);
    FeedMove(c, up, CUU, upward);
    FeedMove(if up > 0 then Up(c, up) else c, cx, CUF, forward);
  }

  lemma FeedMove(t: Term, n: nat, move: Sym, stream: seq<Sym>)
    requires TermOk(t) && move in {CUU, CUF}
    requires stream == if n > 0 then CsiSyms(false, [n], move) else []
    ensures Feed(Vt(t, Ground), stream)
           == Vt(if n == 0 then t else if move == CUU then Up(t, n) else Forward(t, n), Ground)
  {
    if n > 0 {
      FeedCsi(t, [n], move);
    }
  }

  lemma PrintedCells(e: Term)
    requires TermOk(e)
    ensures forall k :: 0 <= k < |Printed(e)| ==> CellsOk(Printed(e)[k])
  {
    forall k | 0 <= k < |TrimAll(e.screen)|
      ensures CellsOk(TrimAll(e.screen)[k])
    {
      assert TrimEnd(e.screen[k]) <= e.screen[k];
    }
  }

  /** A history with a line too wide comes back longer than it was. */
  lemma WideHistoryGrows(e: Term, order: seq<Mode>, k: nat)
    requires TermOk(e) && e.w >= 2 && !e.alt && !AltIn(Elements(order)) && |e.history| < e.cap
    requires AUTOWRAP in e.defaults + Elements(order)
    requires k < |e.history| && |e.history[k]| > e.w
    ensures |Feed(Vt(Fresh(e.w, e.h, e.cap, e.defaults), Ground), ReplaySyms(e, order)).term.history| > |e.history|
  {
    var v := Vt(Fresh(e.w, e.h, e.cap, e.defaults), Ground);
    var lead := Widen(VtMode.RestoreOf(order));
    var text := Join(Printed(e));
    LeadArrives(e, order, e.h);
    var v1 := Feed(v, lead);
    PrintedCells(e);
    assert Printed(e)[k] == e.history[k];
    JoinGrows(v1.term, Printed(e));
    FeedConcat(v, lead, text + Park(e));
    FeedConcat(v1, text, Park(e));
    ParkKeepsHistory(Feed(v1, text).term, e);
    FeedKeepsSize(v1, text);
  }

  /**
   The whole replay: on the main screen of a terminal that wraps, with room left in the history, the
   history comes back if and only if no line of it is wider than the terminal.
   */
  lemma HistoryFitsIff(e: Term, order: seq<Mode>)
    requires TermOk(e) && e.w >= 2 && !e.alt && !AltIn(Elements(order)) && |e.history| < e.cap
    requires AUTOWRAP in e.defaults + Elements(order)
    ensures Feed(Vt(Fresh(e.w, e.h, e.cap, e.defaults), Ground), ReplaySyms(e, order)).term.history
           == NormRows(e.history, e.w)
       <==> forall k :: 0 <= k < |e.history| ==> |e.history[k]| <= e.w
  {
    if k: nat :| k < |e.history| && |e.history[k]| > e.w {
      WideHistoryGrows(e, order, k);
    } else {
      SameSizeRoundTrip(e, order);
    }
  }
}
