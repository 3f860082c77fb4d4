/**
 Rows on a terminal: what the tokens of a row say is on display is what the machine of `Terminal`
 shows after it was fed the row, cursor included.
 */
module DrawnRows {
  import opened Common
  import T = Terminal
  import opened CursorSplice

  /** The row as the terminal reads it. */
  function Syms(row: string): (s: seq<T.Sym>)
    ensures |s| == |row|
  {
    seq(|row|, k requires 0 <= k < |row| => T.Byte(row[k] as int))
  }

  lemma SymsConcat(a: string, b: string)
    ensures Syms(a + b) == Syms(a) + Syms(b)
  {
  }

  /** Printable ASCII and select graphic rendition. */
  predicate Drawable(ts: seq<Token>) {
    forall k :: 0 <= k < |ts| ==>
      match ts[k]
      case Glyph(c) => ' ' <= c <= '~'
      case Escape(text) => IsRendition(text)
  }

  /** ESC [, digits and semicolons, m. */
  predicate IsRendition(text: string) {
    && |text| >= 3 && text[0] == '\U{1b}' && text[1] == '[' && text[|text| - 1] == 'm'
    && forall k :: 2 <= k < |text| - 1 ==> text[k] == ';' || '0' <= text[k] <= '9'
  }

  /** A row spelled out is cut into just these tokens again. */
  lemma {:induction false} SpelledReadsBack(ts: seq<Token>)
    requires Drawable(ts)
    ensures Tokenize(Text(ts)) == ts
  {
    if ts != [] {
      DrawableTail(ts);
      SpelledReadsBack(ts[1..]);
      match ts[0]
      case Glyph(c) => CharIsGlyph(c, Text(ts[1..]));
      case Escape(text) => RenditionIsToken(text, Text(ts[1..]));
    }
  }

  lemma RenditionIsToken(text: string, rest: string)
    requires IsRendition(text)
    ensures Tokenize(text + rest) == [Escape(text)] + Tokenize(rest)
  {
    var body := text[2..|text| - 1];
    assert text == ['\U{1b}', '['] + body + ['m'];
    SequenceIsToken(body, 'm', rest);
  }

  // ---------------------------------------------------------------- one sequence

  /** A parameter string leaves the parameters it spells. */
  lemma {:induction false} SwallowsParams(body: string, ps: seq<T.Param>) returns (qs: seq<T.Param>)
    requires ps != [] && forall k :: 0 <= k < |body| ==> body[k] == ';' || IsDigitChar(body[k])
    ensures qs != [] && T.Values(qs) == Params(body, T.Values(ps))
    ensures T.Swallow(T.Csi(false, ps), Syms(body)) == Some(T.Csi(false, qs))
    decreases body
  {
    if body == [] {
      qs := ps;
    } else {
      var d := body[0] as int - '0' as int;
      var next := if body[0] == ';' then ps + [None] else T.AddDigit(ps, d);
      assert Syms(body)[0] == T.Byte(body[0] as int) && Syms(body)[1..] == Syms(body[1..]);
      if body[0] == ';' {
        assert T.Values(next) == T.Values(ps) + [0];
      } else {
        var last := |ps| - 1;
        assert T.Values(next) == T.Values(ps)[last := 10 * T.Values(ps)[last] + d];
      }
      qs := SwallowsParams(body[1..], next);
    }
  }

  /** The pen takes up the operations of the sequence, and nothing else changes. */
  lemma FeedSgr(t: T.Term, text: string)
    requires T.TermOk(t) && IsRendition(text)
    ensures T.Feed(T.Vt(t, T.Ground), Syms(text)) == T.Vt(t.(pen := T.ApplyOps(t.pen, Ops(text))), T.Ground)
  {
    var body := text[2..|text| - 1];
    var lead, qs := SwallowsRendition(text, body);
    assert Syms(text) == lead + [T.SGR];
    FeedToPen(t, lead, qs);
    RenditionOps(text, body);
  }

  lemma RenditionOps(text: string, body: string)
    requires IsRendition(text) && body == text[2..|text| - 1]
    ensures Ops(text) == T.SgrOps(Params(body, [0]))
  {
    assert IsSgr(text);
  }

  lemma SwallowsRendition(text: string, body: string) returns (lead: seq<T.Sym>, qs: seq<T.Param>)
    requires IsRendition(text) && body == text[2..|text| - 1]
    ensures lead == Syms(text[..|text| - 1]) && qs != [] && T.Values(qs) == Params(body, [0])
    ensures T.Swallow(T.Ground, lead) == Some(T.Csi(false, qs))
  {
    qs := SwallowsParams(body, [None]);
    assert T.Values([None]) == [0];
    lead := [T.ESCAPE, T.BRACKET] + Syms(body);
    assert Syms(text[..|text| - 1]) == lead;
    T.SwallowLeadIn(T.Ground, false);
    AppendNothing([T.ESCAPE, T.BRACKET]);
    T.SwallowConcat(T.Ground, [T.ESCAPE, T.BRACKET], Syms(body));
  }

  lemma FeedToPen(t: T.Term, lead: seq<T.Sym>, qs: seq<T.Param>)
    requires T.TermOk(t) && qs != [] && T.Swallow(T.Ground, lead) == Some(T.Csi(false, qs))
    ensures T.Feed(T.Vt(t, T.Ground), lead + [T.SGR])
         == T.Vt(t.(pen := T.ApplyOps(t.pen, T.SgrOps(T.Values(qs)))), T.Ground)
  {
    T.FeedSwallow(T.Vt(t, T.Ground), lead);
    T.FeedConcat(T.Vt(t, T.Ground), lead, [T.SGR]);
    T.FeedOne(T.Vt(t, T.Csi(false, qs)), T.SGR);
  }

  // ---------------------------------------------------------------- a whole row

  function Cells(ps: seq<Painted>): (r: T.Row)
    ensures |r| == |ps|
  {
    seq(|ps|, k requires 0 <= k < |ps| => T.Cell(Some(T.Byte(ps[k].ch as int)), 1, ps[k].style, None))
  }

  /** The row with these cells from column x on. */
  function Drawn(row: T.Row, x: nat, ps: seq<Painted>): (r: T.Row)
    requires x + |ps| <= |row|
    ensures |r| == |row|
  {
    row[..x] + Cells(ps) + row[x + |ps|..]
  }

  lemma DrawnNothing(row: T.Row, x: nat)
    requires x <= |row|
    ensures Drawn(row, x, []) == row
  {
  }

  lemma DrawnCons(row: T.Row, x: nat, p: Painted, ps: seq<Painted>)
    requires x + 1 + |ps| <= |row|
    ensures Drawn(row, x, [p] + ps) == Drawn(row[x := Cells([p])[0]], x + 1, ps)
  {
    var r := row[x := Cells([p])[0]];
    assert Cells([p] + ps) == Cells([p]) + Cells(ps);
    assert r[..x + 1] == row[..x] + Cells([p]) && r[x + 1 + |ps|..] == row[x + 1 + |ps|..];
  }

  /** Room for n cells of width one from the cursor on. */
  predicate HasRoom(t: T.Term, n: nat) {
    && T.TermOk(t)
    && (n > 0 ==> !t.pending && t.cx + n <= t.w)
    && forall x :: t.cx <= x < t.w ==> t.screen[t.cy][x].width == 1
  }

  lemma FeedGlyph(t: T.Term, c: char, n: nat) returns (u: T.Term)
    requires HasRoom(t, n + 1) && ' ' <= c <= '~'
    ensures T.Feed(T.Vt(t, T.Ground), Syms([c])) == T.Vt(u, T.Ground) && HasRoom(u, n)
    ensures u.pen == t.pen && u.cy == t.cy && u.w == t.w && u.cx == (if t.cx + 1 < t.w then t.cx + 1 else t.w - 1)
    ensures u.screen == t.screen[t.cy := t.screen[t.cy][t.cx := Cells([Painted(c, t.pen)])[0]]]
  {
    var s := T.Byte(c as int);
    assert Syms([c]) == [s];
    T.FeedOne(T.Vt(t, T.Ground), s);
    T.PrintOk(t, s);
    u := T.Print(t, s);
    assert u == T.Overwrite(t, s);
  }

  lemma DrawGlyph(row: T.Row, x: nat, p: Painted, ps: seq<Painted>)
    requires x + 1 + |ps| <= |row|
    ensures Drawn(row, x, [p] + ps)
         == Drawn(row[x := Cells([p])[0]], if x + 1 < |row| then x + 1 else |row| - 1, ps)
  {
    DrawnCons(row, x, p, ps);
    if x + 1 == |row| {
      DrawnNothing(row[x := Cells([p])[0]], x + 1);
      DrawnNothing(row[x := Cells([p])[0]], x);
    }
  }

  lemma DrawableTail(ts: seq<Token>)
    requires Drawable(ts) && ts != []
    ensures Drawable(ts[1..]) && Drawable([ts[0]])
  {
    assert forall k :: 0 <= k < |ts[1..]| ==> ts[1..][k] == ts[k + 1];
  }

  /** The first token, before the rest of the text. */
  lemma FeedToken(t: T.Term, token: Token, rest: string, n: nat) returns (u: T.Term)
    requires Drawable([token]) && HasRoom(t, n + if token.Glyph? then 1 else 0)
    ensures HasRoom(u, n) && u.cy == t.cy && u.w == t.w
    ensures T.Feed(T.Vt(t, T.Ground), Syms(TokenText(token) + rest)) == T.Feed(T.Vt(u, T.Ground), Syms(rest))
    ensures match token
            case Escape(text) => u.pen == T.ApplyOps(t.pen, Ops(text)) && u.cx == t.cx && u.screen == t.screen
            case Glyph(c) =>
              && u.pen == t.pen && u.cx == (if t.cx + 1 < t.w then t.cx + 1 else t.w - 1)
              && u.screen == t.screen[t.cy := t.screen[t.cy][t.cx := Cells([Painted(c, t.pen)])[0]]]
  {
    assert [token][0] == token;
    SymsConcat(TokenText(token), rest);
    T.FeedConcat(T.Vt(t, T.Ground), Syms(TokenText(token)), Syms(rest));
    match token
    case Escape(text) =>
      FeedSgr(t, text);
      u := t.(pen := T.ApplyOps(t.pen, Ops(text)));
    case Glyph(c) =>
      u := FeedGlyph(t, c, n);
  }

  /** The terminal with these tokens drawn from its cursor on. */
  predicate Shows(t: T.Term, ts: seq<Token>, v: T.Vt)
    requires HasRoom(t, Columns(ts))
  {
    && v.parser == T.Ground && v.term.pen == PenAfter(ts, t.pen) && v.term.cy == t.cy
    && v.term.screen == t.screen[t.cy := Drawn(t.screen[t.cy], t.cx, Paint(ts, t.pen))]
  }

  lemma ShowsNothing(t: T.Term)
    requires HasRoom(t, 0)
    ensures Shows(t, [], T.Vt(t, T.Ground))
  {
    DrawnNothing(t.screen[t.cy], t.cx);
  }

  /** From a glyph and what is shown of the rest. */
  lemma ShowsGlyph(t: T.Term, c: char, ts: seq<Token>, u: T.Term, v: T.Vt)
    requires HasRoom(t, 1 + Columns(ts)) && HasRoom(u, Columns(ts)) && Shows(u, ts, v)
    requires u.pen == t.pen && u.cy == t.cy && u.w == t.w && u.cx == (if t.cx + 1 < t.w then t.cx + 1 else t.w - 1)
    requires u.screen == t.screen[t.cy := t.screen[t.cy][t.cx := Cells([Painted(c, t.pen)])[0]]]
    ensures var all := [Glyph(c)] + ts; Columns(all) == 1 + Columns(ts) && Shows(t, all, v)
  {
    assert ([Glyph(c)] + ts)[1..] == ts;
    DrawGlyph(t.screen[t.cy], t.cx, Painted(c, t.pen), Paint(ts, t.pen));
  }

  lemma ShowsEscape(t: T.Term, text: string, ts: seq<Token>, u: T.Term, v: T.Vt)
    requires HasRoom(t, Columns(ts)) && HasRoom(u, Columns(ts)) && Shows(u, ts, v)
    requires u.pen == T.ApplyOps(t.pen, Ops(text)) && u.cy == t.cy && u.w == t.w && u.cx == t.cx && u.screen == t.screen
    ensures var all := [Escape(text)] + ts; Columns(all) == Columns(ts) && Shows(t, all, v)
  {
    assert ([Escape(text)] + ts)[1..] == ts;
  }

  lemma ShowsToken(t: T.Term, token: Token, ts: seq<Token>, u: T.Term, v: T.Vt)
    requires HasRoom(t, Columns(ts) + if token.Glyph? then 1 else 0) && HasRoom(u, Columns(ts)) && Shows(u, ts, v)
    requires u.cy == t.cy && u.w == t.w
    requires match token
             case Escape(text) => u.pen == T.ApplyOps(t.pen, Ops(text)) && u.cx == t.cx && u.screen == t.screen
             case Glyph(c) =>
               && u.pen == t.pen && u.cx == (if t.cx + 1 < t.w then t.cx + 1 else t.w - 1)
               && u.screen == t.screen[t.cy := t.screen[t.cy][t.cx := Cells([Painted(c, t.pen)])[0]]]
    ensures var all := [token] + ts; HasRoom(t, Columns(all)) && Shows(t, all, v)
  {
    match token
    case Escape(body) => ShowsEscape(t, body, ts, u, v);
    case Glyph(c) => ShowsGlyph(t, c, ts, u, v);
  }

  /** Fed the row, the terminal shows what its tokens say, in the styles they say. */
  lemma {:induction false} FeedTokens(t: T.Term, ts: seq<Token>, text: string)
    requires Drawable(ts) && HasRoom(t, Columns(ts)) && text == Text(ts)
    ensures Shows(t, ts, T.Feed(T.Vt(t, T.Ground), Syms(text)))
    decreases ts
  {
    if ts == [] {
      assert Syms(text) == [];
      ShowsNothing(t);
    } else {
      var rest := Text(ts[1..]);
      DrawableTail(ts);
      var u := FeedToken(t, ts[0], rest, Columns(ts[1..]));
      FeedTokens(u, ts[1..], rest);
      ShowsToken(t, ts[0], ts[1..], u, T.Feed(T.Vt(u, T.Ground), Syms(rest)));
      assert ts == [ts[0]] + ts[1..];
    }
  }

  lemma BlankHasRoom(w: nat, h: nat, cap: nat, defaults: set<nat>, n: nat)
    requires w > 0 && h > 0 && !T.AltIn(defaults) && n <= w
    ensures HasRoom(T.Fresh(w, h, cap, defaults), n)
  {
  }

  /** The first row of a terminal that was fed the text. */
  function FirstRow(w: nat, text: string): T.Row
    requires w > 0
  {
    T.Feed(T.Vt(T.Fresh(w, 1, 0, {}), T.Ground), Syms(text)).term.screen[0]
  }

  /** What is on display of a row is what a terminal shows of it. */
  lemma RowIsShown(w: nat, ts: seq<Token>)
    requires w > 0 && Drawable(ts) && Columns(ts) <= w
    ensures FirstRow(w, Text(ts)) == Drawn(T.BlankRow(w, T.PLAIN), 0, Paint(ts, T.PLAIN))
  {
    BlankHasRoom(w, 1, 0, {}, Columns(ts));
    FeedTokens(T.Fresh(w, 1, 0, {}), ts, Text(ts));
  }

  // ---------------------------------------------------------------- the row with its cursor

  lemma ToggleIsDrawable()
    ensures IsRendition(REVERSE_ON) && IsRendition(REVERSE_OFF)
  {
  }

  lemma DrawableConcat(a: seq<Token>, b: seq<Token>)
    ensures Drawable(a + b) <==> Drawable(a) && Drawable(b)
  {
    assert forall k :: 0 <= k < |a| ==> (a + b)[k] == a[k];
    assert forall k :: 0 <= k < |b| ==> b[k] == (a + b)[|a| + k];
  }

  lemma WrappedDrawable(ts: seq<Token>, k: nat)
    requires Drawable(ts) && k < |ts| && ts[k].Glyph?
    ensures Drawable(Wrapped(ts, k))
  {
    ToggleIsDrawable();
    SplitAt(ts, k);
    DrawableConcat(ts[..k], ts[k..]);
    assert ts[k..] == [ts[k]] + ts[k + 1..];
    DrawableConcat([ts[k]], ts[k + 1..]);
    DrawableConcat(ts[..k], Cursor(ts[k]));
    DrawableConcat(ts[..k] + Cursor(ts[k]), ts[k + 1..]);
  }

  lemma SpliceDrawable(ts: seq<Token>, col: nat)
    requires Drawable(ts)
    ensures Drawable(Splice(ts, 0, col))
  {
    ToggleIsDrawable();
    SplicePlace(ts, col);
    var n := Columns(ts);
    if col < n {
      WrappedDrawable(ts, GlyphAt(ts, col));
    } else {
      DrawableConcat(ts, Spaces(col - n));
      DrawableConcat(ts + Spaces(col - n), Cursor(Glyph(' ')));
    }
  }

  lemma DrawableEndsWhole(ts: seq<Token>)
    requires Drawable(ts)
    ensures !EndsCut(ts)
  {
    if ts != [] && ts[|ts| - 1].Escape? {
      assert IsRendition(ts[|ts| - 1].text);
    }
  }

  lemma DrawnAt(row: T.Row, ps: seq<Painted>, x: nat)
    requires |ps| <= |row| && x < |row|
    ensures Drawn(row, 0, ps)[x] == if x < |ps| then Cells([ps[x]])[0] else row[x]
  {
  }

  function Reversed(c: T.Cell): T.Cell {
    c.(style := Flip(c.style, true))
  }

  /** With every cell unreversed and the default pen at the end, one cell more is reversed, and that is all. */
  lemma DrawnCursor(w: nat, ts: seq<Token>, col: nat)
    requires Columns(ts) <= w && col < w && PenAfter(ts, T.PLAIN) == T.PLAIN
    requires |WithCursor(ts, col, T.PLAIN)| <= w
    ensures var blank := T.BlankRow(w, T.PLAIN);
            var was := Drawn(blank, 0, Paint(ts, T.PLAIN));
            Drawn(blank, 0, WithCursor(ts, col, T.PLAIN)) == was[col := Reversed(was[col])]
  {
    var blank := T.BlankRow(w, T.PLAIN);
    var was, now := Drawn(blank, 0, Paint(ts, T.PLAIN)), Drawn(blank, 0, WithCursor(ts, col, T.PLAIN));
    forall x | 0 <= x < w
      ensures now[x] == was[col := Reversed(was[col])][x]
    {
      DrawnAt(blank, Paint(ts, T.PLAIN), x);
      DrawnAt(blank, WithCursor(ts, col, T.PLAIN), x);
    }
  }

  /** No cell of the row is reversed, and it leaves the default pen. */
  predicate Steady(ts: seq<Token>) {
    && (forall i :: 0 <= i < |Paint(ts, T.PLAIN)| ==> !Paint(ts, T.PLAIN)[i].style.reverse)
    && PenAfter(ts, T.PLAIN) == T.PLAIN
  }

  /**
   On a terminal wide enough for both, the text with the cursor shows the row with the cell at the
   cursor's column reversed, and every other cell as it was.
   */
  lemma CursorIsShown(w: nat, ts: seq<Token>, col: nat)
    requires Drawable(ts) && Steady(ts) && Columns(ts) <= w && col < w
    ensures var was := FirstRow(w, Text(ts));
            |was| == w && FirstRow(w, Text(Splice(ts, 0, col))) == was[col := Reversed(was[col])]
  {
    SpelledReadsBack(ts);
    DrawableEndsWhole(ts);
    SpliceReadsBackIff(Text(ts), col);
    CursorIsDrawn(Text(ts), col, T.PLAIN);
    SpliceColumns(ts, col);
    SpliceDrawable(ts, col);
    RowIsShown(w, ts);
    RowIsShown(w, Splice(ts, 0, col));
    DrawnCursor(w, ts, col);
  }

  /** `reverseCellAt` on a terminal. */
  method DrawCursor(w: nat, row: string, col: nat, ghost ts: seq<Token>) returns (text: string)
    requires row == Text(ts) && Drawable(ts) && Steady(ts) && Columns(ts) <= w && col < w
    ensures var was := FirstRow(w, row);
            |was| == w && FirstRow(w, text) == was[col := Reversed(was[col])]
  {
    SpelledReadsBack(ts);
    CursorIsShown(w, ts, col);
    text := ReverseCellAt(row, col);
  }
}
