/**
 The desktop view of a session: the emulator with its render cache, the window paged over
 scrollback and screen, and the anchor that keeps the window on what the reader looks at.
 */
module Pager {
  import opened Common
  import opened Terminal
  import Replay
  import ReplayTheorems

  const SCROLLBACK_LINES := 10000
  const WHEEL_ROWS := 3

  /** Autowrap and the visible cursor are on from the start. */
  const DEFAULT_MODES: set<nat> := {AUTOWRAP, 25}

  // ---------------------------------------------------------------- rendered text as rows

  /** The text between newlines. */
  function Lines(s: string): (r: seq<string>)
    ensures r != []
  {
    if s == [] then [""]
    else
      var rest := Lines(s[1..]);
      if s[0] == '\n' then [""] + rest else [[s[0]] + rest[0]] + rest[1..]
  }

  function JoinLines(rows: seq<string>): string
    requires rows != []
  {
    if |rows| == 1 then rows[0] else rows[0] + "\n" + JoinLines(rows[1..])
  }

  predicate NoNewline(rows: seq<string>) {
    forall i :: 0 <= i < |rows| ==> '\n' !in rows[i]
  }

  lemma {:induction false} LinesOfLine(row: string)
    requires '\n' !in row
    ensures Lines(row) == [row]
  {
    if row != [] {
      LinesOfLine(row[1..]);
      assert row == [row[0]] + row[1..];
    }
  }

  lemma {:induction false} LinesOfTwo(row: string, rest: string)
    requires '\n' !in row
    ensures Lines(row + "\n" + rest) == [row] + Lines(rest)
  {
    var s := row + "\n" + rest;
    if row == [] {
      assert s[1..] == rest;
    } else {
      assert s[1..] == row[1..] + "\n" + rest;
      LinesOfTwo(row[1..], rest);
      assert row == [row[0]] + row[1..];
    }
  }

  /** A screen printed row by row is cut into exactly those rows again. */
  lemma {:induction false} LinesOfJoin(rows: seq<string>)
    requires rows != [] && NoNewline(rows)
    ensures Lines(JoinLines(rows)) == rows
  {
    if |rows| == 1 {
      LinesOfLine(rows[0]);
    } else {
      LinesOfTwo(rows[0], JoinLines(rows[1..]));
      LinesOfJoin(rows[1..]);
    }
  }

  const RESET := ['\U{1b}'] + "[0m"

  function PadRow(row: string, width: nat, measure: string -> nat): string {
    var vis := measure(row);
    if vis < width then row + RESET + SpaceText(width - vis) else row
  }

  /** Row i of a screen of the given size. */
  function ScreenRow(lines: seq<string>, i: nat, width: nat, measure: string -> nat): string {
    if i < |lines| && lines[i] != "" then PadRow(lines[i], width, measure) else SpaceText(width)
  }

  /** A reset and spaces measure as the spaces, and adding to a row adds its columns. */
  ghost predicate MeasuresColumns(measure: string -> nat) {
    && (forall n :: measure(SpaceText(n)) == n)
    && (forall row, n :: measure(row + RESET + SpaceText(n)) == measure(row) + n)
  }

  method SplitIntoRows(rendered: string, height: nat, width: nat, measure: string -> nat) returns (rows: seq<string>)
    ensures |rows| == height
    ensures forall i :: 0 <= i < height ==> rows[i] == ScreenRow(Lines(rendered), i, width, measure)
  {
    rows := [];
    var lines := Lines(rendered);
    for i := 0 to height
      invariant |rows| == i
      invariant forall k :: 0 <= k < i ==> rows[k] == ScreenRow(lines, k, width, measure)
    {
      if i < |lines| && lines[i] != "" {
        rows := rows + [PadRow(lines[i], width, measure)];
      } else {
        rows := rows + [SpaceText(width)];
      }
    }
  }

  /** How a terminal is painted: the emulator's rendering and its column count. */
  datatype Painter = Painter(render: Term -> string, measure: string -> nat) {
    /** The picture of a terminal, from scratch. */
    function Frame(t: Term): (rows: seq<string>)
      ensures |rows| == t.h
    {
      seq(t.h, i requires 0 <= i < t.h => ScreenRow(Lines(render(t)), i, t.w, measure))
    }
  }

  /**
   When the emulator renders a screen as its rows joined by newlines, none wider than the screen,
   the frame shows row i at row i, filled up to exactly the screen's width.
   */
  lemma FrameIsTheScreen(p: Painter, t: Term, rows: seq<string>, i: nat)
    requires MeasuresColumns(p.measure)
    requires |rows| == t.h && rows != [] && NoNewline(rows) && p.render(t) == JoinLines(rows)
    requires i < t.h && p.measure(rows[i]) <= t.w && p.measure("") == 0
    ensures rows[i] <= p.Frame(t)[i] && p.measure(p.Frame(t)[i]) == t.w
    ensures rows[i] != "" && p.measure(rows[i]) == t.w ==> p.Frame(t)[i] == rows[i]
    ensures var frame, n := p.Frame(t)[i], |rows[i]|;
            && (forall k :: (if rows[i] == "" then 0 else n + 4) <= k < |frame| ==> frame[k] == ' ')
            && (n < |frame| && rows[i] != "" ==> n + 4 <= |frame| && frame[n..n + 4] == ['\U{1b}', '[', '0', 'm'])
  {
    LinesOfJoin(rows);
    if p.measure(rows[i]) < t.w && rows[i] != "" {
      var n: nat := t.w - p.measure(rows[i]);
      assert p.measure(rows[i] + RESET + SpaceText(n)) == p.measure(rows[i]) + n;
    }
  }

  /** Below the last line of the text there are blanks. */
  lemma RestIsBlank(p: Painter, t: Term, i: nat)
    requires |Lines(p.render(t))| <= i < t.h
    ensures |p.Frame(t)[i]| == t.w && forall k :: 0 <= k < t.w ==> p.Frame(t)[i][k] == ' '
  {
  }

  // ---------------------------------------------------------------- when two frames are the same

  /** Line i is there and fills the width. */
  predicate Fills(lines: seq<string>, i: nat, w: nat, measure: string -> nat) {
    i < |lines| && lines[i] != "" && measure(lines[i]) >= w
  }

  /** Every shown line fills the width of both terminals. */
  predicate FillsBoth(p: Painter, t: Term, u: Term) {
    var lines := Lines(p.render(t));
    forall i: nat :: i < t.h ==> Fills(lines, i, t.w, p.measure) && Fills(lines, i, u.w, p.measure)
  }

  /** Row i is shown the same at both widths. */
  predicate RowKept(lines: seq<string>, i: nat, w: nat, v: nat, measure: string -> nat) {
    w == v || (Fills(lines, i, w, measure) && Fills(lines, i, v, measure))
  }

  lemma SlotSameIff(lines: seq<string>, i: nat, w: nat, v: nat, measure: string -> nat)
    ensures ScreenRow(lines, i, w, measure) == ScreenRow(lines, i, v, measure) <==> RowKept(lines, i, w, v, measure)
  {
    if w != v {
      var a, b := ScreenRow(lines, i, w, measure), ScreenRow(lines, i, v, measure);
      if i < |lines| && lines[i] != "" {
        var vis := measure(lines[i]);
        assert |a| == |lines[i]| + (if vis < w then |RESET| + (w - vis) else 0);
        assert |b| == |lines[i]| + (if vis < v then |RESET| + (v - vis) else 0);
      } else {
        assert |a| == w && |b| == v;
      }
    }
  }

  lemma FrameRow(p: Painter, t: Term, i: nat)
    requires i < t.h
    ensures p.Frame(t)[i] == ScreenRow(Lines(p.render(t)), i, t.w, p.measure)
  {
  }

  /** The same text makes the same frame if and only if the height stayed and the width did or every line fills it. */
  lemma SameTextSameFrameIff(p: Painter, t: Term, u: Term)
    requires p.render(t) == p.render(u)
    ensures p.Frame(t) == p.Frame(u) <==> t.h == u.h && (t.w == u.w || FillsBoth(p, t, u))
  {
    var lines := Lines(p.render(t));
    var f, g := p.Frame(t), p.Frame(u);
    if t.h == u.h {
      forall i: nat | i < t.h
        ensures f[i] == g[i] <==> RowKept(lines, i, t.w, u.w, p.measure)
      {
        FrameRow(p, t, i);
        FrameRow(p, u, i);
        SlotSameIff(lines, i, t.w, u.w, p.measure);
      }
      if forall i: nat :: i < t.h ==> RowKept(lines, i, t.w, u.w, p.measure) {
        assert f == g;
        forall i: nat | i < t.h
          ensures t.w == u.w || (Fills(lines, i, t.w, p.measure) && Fills(lines, i, u.w, p.measure))
        {
          assert RowKept(lines, i, t.w, u.w, p.measure);
        }
      } else {
        var i: nat :| i < t.h && !RowKept(lines, i, t.w, u.w, p.measure);
        assert f[i] != g[i];
      }
    }
  }

  /** Line i of the text; a line that is not there shows like an empty one. */
  function ShownLine(text: string, i: nat): string {
    var lines := Lines(text);
    if i < |lines| then lines[i] else ""
  }

  /** The row a line is shown as. */
  function Slot(line: string, width: nat, measure: string -> nat): string {
    if line == "" then SpaceText(width) else PadRow(line, width, measure)
  }

  /** One text spells out the padding the other is given. */
  predicate PaddingOnly(a: string, b: string, width: nat, measure: string -> nat) {
    a == b || a == Slot(b, width, measure) || b == Slot(a, width, measure)
  }

  lemma PaddedTwice(line: string, width: nat, measure: string -> nat)
    requires MeasuresColumns(measure)
    ensures Slot(Slot(line, width, measure), width, measure) == Slot(line, width, measure)
  {
    assert measure(SpaceText(width)) == width;
    if line != "" && measure(line) < width {
      var n: nat := width - measure(line);
      assert measure(line + RESET + SpaceText(n)) == measure(line) + n;
    }
  }

  lemma PaddingIsUnique(a: string, i: nat, b: string, j: nat)
    requires a + RESET + SpaceText(i) == b + RESET + SpaceText(j)
    ensures i == j && a == b
  {
    var s, t := a + RESET + SpaceText(i), b + RESET + SpaceText(j);
    assert s[|s| - 1 - i] == 'm' && t[|t| - 1 - j] == 'm';
    assert i == j;
    assert s[..|a|] == a && t[..|b|] == b;
  }

  lemma PaddedIsNoBlank(a: string, i: nat, n: nat)
    ensures a + RESET + SpaceText(i) != SpaceText(n)
  {
    var s := a + RESET + SpaceText(i);
    assert s[|a|] == '\U{1b}';
    assert |a| < n ==> SpaceText(n)[|a|] == ' ';
  }

  lemma SlotsSameIff(a: string, b: string, width: nat, measure: string -> nat)
    requires MeasuresColumns(measure)
    ensures Slot(a, width, measure) == Slot(b, width, measure) <==> PaddingOnly(a, b, width, measure)
  {
    PaddedTwice(a, width, measure);
    PaddedTwice(b, width, measure);
    if Slot(a, width, measure) == Slot(b, width, measure) && a != Slot(b, width, measure)
       && b != Slot(a, width, measure) {
      if a != "" && b != "" {
        PaddingIsUnique(a, width - measure(a), b, width - measure(b));
      } else if a != "" {
        PaddedIsNoBlank(a, width - measure(a), width);
      } else if b != "" {
        PaddedIsNoBlank(b, width - measure(b), width);
      }
    }
  }

  /** At one size, two texts make the same frame if and only if their shown lines differ by spelled-out padding only. */
  lemma SameFrameIff(p: Painter, t: Term, u: Term)
    requires MeasuresColumns(p.measure) && t.w == u.w && t.h == u.h
    ensures p.Frame(t) == p.Frame(u)
       <==> forall i: nat :: i < t.h ==>
              PaddingOnly(ShownLine(p.render(t), i), ShownLine(p.render(u), i), t.w, p.measure)
  {
    forall i: nat | i < t.h
      ensures p.Frame(t)[i] == p.Frame(u)[i]
          <==> PaddingOnly(ShownLine(p.render(t), i), ShownLine(p.render(u), i), t.w, p.measure)
    {
      SlotsSameIff(ShownLine(p.render(t), i), ShownLine(p.render(u), i), t.w, p.measure);
    }
    if p.Frame(t) == p.Frame(u) {
      assert forall i: nat :: i < t.h ==> p.Frame(t)[i] == p.Frame(u)[i];
    }
  }

  // ---------------------------------------------------------------- windows over scrollback and screen

  /** Line `abs` of scrollback followed by screen; nothing past either end. */
  function LineAt(t: Term, abs: int): Row {
    if 0 <= abs < |t.history| then t.history[abs]
    else if |t.history| <= abs < |t.history| + |t.screen| then t.screen[abs - |t.history|]
    else []
  }

  function CellOf(line: Row, x: nat): Cell {
    if x < |line| then line[x] else BLANK
  }

  /** The line cut or filled with blanks to w columns. */
  function Padded(line: Row, w: nat): (r: Row)
    ensures |r| == w
  {
    seq(w, x requires 0 <= x < w => CellOf(line, x))
  }

  /** n rows, the first of them `top` lines above the screen. */
  function Window(t: Term, top: int, n: nat): (rows: seq<Row>)
    ensures |rows| == n
  {
    seq(n, r requires 0 <= r < n => Padded(LineAt(t, |t.history| - top + r), t.w))
  }

  // ---------------------------------------------------------------- the emulator

  class VtEmu {
    const painter: Painter
    var vt: Vt
    var damaged: bool
    var lastRows: seq<string>
    var lastRender: string
    var width: nat
    var height: nat
    var notify: bool     // the one-slot notification channel holds a token
    ghost var drawn: Option<Term>    // the terminal as it was last rendered

    /** An undamaged cache is the current picture. */
    ghost predicate Valid()
      reads this
    {
      && VtOk(vt) && vt.term.w == width && vt.term.h == height
      && (!damaged ==> drawn.Some? && lastRows == painter.Frame(vt.term) && lastRender == painter.render(vt.term))
      && (drawn.Some? ==> lastRows == painter.Frame(drawn.value) && lastRender == painter.render(drawn.value))
    }

    constructor (cols: nat, rows: nat, painter: Painter)
      requires cols > 0 && rows > 0
      ensures Valid() && damaged && !notify && drawn == None
      ensures vt == Vt(Fresh(cols, rows, 10000, {7, 25}), Ground)
              && this.painter == painter && lastRender == ""
    {
      this.painter := painter;
      vt := Vt(Fresh(cols, rows, SCROLLBACK_LINES, DEFAULT_MODES), Ground);
      damaged, lastRows, lastRender, notify := true, [], "", false;
      width, height, drawn := cols, rows, None;
    }

    method MarkDamaged()
      modifies this`damaged, this`notify
      ensures damaged && notify
    {
      damaged := true;
      notify := true;
    }

    /** What the read loop does with a chunk of output. */
    method Write(output: seq<Sym>)
      requires Valid()
      modifies this
      ensures Valid() && damaged && notify
      ensures vt == Feed(old(vt), output) && lastRender == old(lastRender) && drawn == old(drawn)
    {
      ReplayTheorems.FeedKeepsSize(vt, output);
      vt := Feed(vt, output);
      MarkDamaged();
    }

    /** `next` is the emulator after its own resize. */
    method Resize(cols: nat, rows: nat, next: Vt)
      requires Valid() && VtOk(next) && next.term.w == cols && next.term.h == rows
      modifies this
      ensures Valid() && damaged && notify
      ensures vt == next && width == cols && height == rows && lastRender == old(lastRender) && drawn == old(drawn)
    {
      vt := next;
      width, height := cols, rows;
      MarkDamaged();
    }

    /**
     The rows are those of a rendering made now; changed says that the text differs from the last
     one rendered. When it does not, the frame is the last one again exactly if the size stayed or
     the lines fill both widths.
     */
    method GetScreen() returns (rows: seq<string>, changed: bool)
      requires Valid()
      modifies this`damaged, this`lastRows, this`lastRender, this`drawn
      ensures Valid() && !damaged && lastRows == rows
      ensures var t := if old(drawn).Some? then old(drawn).value else vt.term;
              old(drawn).Some? && !changed ==>
                (rows == old(lastRows) <==> t.h == vt.term.h && (t.w == vt.term.w || FillsBoth(painter, t, vt.term)))
      ensures rows == painter.Frame(vt.term)
      ensures changed <==> painter.render(vt.term) != old(lastRender)
      ensures lastRender == painter.render(vt.term)
    {
      if drawn.Some? && painter.render(drawn.value) == painter.render(vt.term) {
        SameTextSameFrameIff(painter, drawn.value, vt.term);
      }
      if !damaged {
        return lastRows, false;
      }
      var rendered := painter.render(vt.term);
      damaged := false;
      changed := rendered != lastRender;
      if changed {
        lastRender := rendered;
      }
      rows := SplitIntoRows(rendered, height, width, painter.measure);
      assert rows == painter.Frame(vt.term);
      lastRows, drawn := rows, Some(vt.term);
    }

    /** The paged window, with scrollTop cut down to the history there is. */
    method ScrolledView(scrollTop: int, nRows: nat) returns (rows: seq<Row>, top: int)
      requires Valid()
      ensures top == if scrollTop <= |vt.term.history| then scrollTop else |vt.term.history|
      ensures rows == Window(vt.term, top, nRows)
    {
      var sbLen := |vt.term.history|;
      top := scrollTop;
      if top > sbLen {
        top := sbLen;
      }
      var w, h := vt.term.w, vt.term.h;
      var base := sbLen - top;
      rows := [];
      for r := 0 to nRows
        invariant |rows| == r
        invariant forall k :: 0 <= k < r ==> rows[k] == Padded(LineAt(vt.term, base + k), w)
      {
        var abs := base + r;
        var row: Row := [];
        for x := 0 to w
          invariant |row| == x
          invariant forall k :: 0 <= k < x ==> row[k] == CellOf(LineAt(vt.term, abs), k)
        {
          var c: Option<Cell> := None;
          if 0 <= abs < sbLen {
            if x < |vt.term.history[abs]| {
              c := Some(vt.term.history[abs][x]);
            }
          } else if sbLen <= abs < sbLen + h {
            c := Some(vt.term.screen[abs - sbLen][x]);
          }
          row := row + [if c.Some? then c.value else BLANK];
        }
        assert row == Padded(LineAt(vt.term, abs), w);
        rows := rows + [row];
      }
    }

    function MouseTrackingOn(): bool
      reads this
    {
      1000 in vt.term.modes || 1002 in vt.term.modes || 1003 in vt.term.modes
    }
  }

  // ---------------------------------------------------------------- frames whose flag misleads

  function CellText(c: Cell): string {
    match c.content
    case None => " "
    case Some(Byte(code)) => if code < 0x80 then [code as char] else ""
    case Some(Cluster(text, _)) => text
  }

  function RowText(row: Row): string {
    if row == [] then ""
    else (if row[0].width == 0 then "" else CellText(row[0])) + RowText(row[1..])
  }

  /** The screen as text without attributes. Trailing blanks are left out, unless they have some. */
  function PlainText(t: Term): string {
    if t.screen == [] then ""
    else JoinLines(seq(|t.screen|, y requires 0 <= y < |t.screen| => RowText(Replay.TrimEnd(t.screen[y]))))
  }

  /** Characters, resets not counted. */
  function Columns(s: string): nat {
    if s == "" then 0 else if RESET <= s then Columns(s[|RESET|..]) else 1 + Columns(s[1..])
  }

  const PLAIN_TEXT := Painter(PlainText, Columns)

  lemma {:induction false} SpaceColumns(n: nat)
    ensures Columns(SpaceText(n)) == n
  {
    if n > 0 {
      assert SpaceText(n)[0] == ' ';
      assert SpaceText(n)[1..] == SpaceText(n - 1);
      SpaceColumns(n - 1);
    }
  }

  /** No reset starts inside a row and ends in the reset after it. */
  lemma ResetDoesNotOverlap(row: string, rest: string)
    requires row != ""
    ensures RESET <= row + RESET + rest <==> RESET <= row
  {
    var s := row + RESET + rest;
    if |row| < |RESET| {
      assert s[|row|] == '\U{1b}';
    } else {
      assert s[..|RESET|] == row[..|RESET|];
    }
  }

  lemma {:induction false} PaddedColumns(row: string, n: nat)
    ensures Columns(row + RESET + SpaceText(n)) == Columns(row) + n
    decreases |row|
  {
    var s := row + RESET + SpaceText(n);
    if row == "" {
      assert s[|RESET|..] == SpaceText(n);
      SpaceColumns(n);
    } else {
      ResetDoesNotOverlap(row, SpaceText(n));
      var k := if RESET <= row then |RESET| else 1;
      assert s[k..] == row[k..] + RESET + SpaceText(n);
      PaddedColumns(row[k..], n);
    }
  }

  /** The painter measures as the view expects. */
  lemma PlainTextMeasures()
    ensures MeasuresColumns(PLAIN_TEXT.measure)
  {
    forall n: nat
      ensures Columns(SpaceText(n)) == n
    {
      SpaceColumns(n);
    }
    forall row: string, n: nat
      ensures Columns(row + RESET + SpaceText(n)) == Columns(row) + n
    {
      PaddedColumns(row, n);
    }
  }

  lemma OneRowText(t: Term, text: string)
    requires |t.screen| == 1 && RowText(Replay.TrimEnd(t.screen[0])) == text
    ensures PlainText(t) == text
  {
  }

  lemma BlankText(t: Term)
    requires t.w in {1, 2} && t.screen == [BlankRow(t.w, PLAIN)]
    ensures PlainText(t) == ""
  {
    var row := t.screen[0];
    assert Replay.TrimEnd(row[..0]) == [] && Replay.TrimEnd(row[..1]) == [] by {
      assert row[..1][..0] == [];
    }
    assert Replay.TrimEnd(row) == [] by {
      assert row[..|row| - 1] == if t.w == 1 then [] else row[..1];
    }
    OneRowText(t, "");
  }

  lemma BlankFrame(t: Term)
    requires t.h == 1 && t.w in {1, 2} && t.screen == [BlankRow(t.w, PLAIN)]
    ensures PLAIN_TEXT.Frame(t) == [SpaceText(t.w)]
  {
    BlankText(t);
    assert PLAIN_TEXT.Frame(t)[0] == SpaceText(t.w);
  }

  const ITALIC := PLAIN.(italic := true)

  lemma ItalicText(t: Term)
    requires t.w == 2 && t.h == 1 && t.screen == [[Blank(ITALIC), Blank(ITALIC)]]
    ensures PlainText(t) == SpaceText(2) && PLAIN_TEXT.Frame(t) == [SpaceText(2)]
  {
    var row := t.screen[0];
    assert Replay.TrimEnd(row) == row;
    assert row[1..] == [Blank(ITALIC)] && [Blank(ITALIC)][1..] == [];
    assert CellText(Blank(ITALIC)) == " ";
    assert RowText([Blank(ITALIC)]) == " " + RowText([Blank(ITALIC)][1..]) == " ";
    assert RowText(row) == " " + RowText(row[1..]) == " " + " " == SpaceText(2);
    OneRowText(t, SpaceText(2));
    LinesOfLine(SpaceText(2));
    SpaceColumns(2);
    assert PLAIN_TEXT.Frame(t)[0] == SpaceText(2);
  }

  /** A blank screen is resized: its text stays empty, its frame becomes wider, and changed stays false. */
  method ResizeHidesAChange() returns (before: seq<string>, after: seq<string>, changed: bool)
    ensures !changed && before != after
  {
    var e := new VtEmu(1, 1, PLAIN_TEXT);
    var first: bool;
    before, first := e.GetScreen();
    var next := Vt(Fresh(2, 1, SCROLLBACK_LINES, DEFAULT_MODES), Ground);
    BlankText(e.vt.term);
    BlankText(next.term);
    BlankFrame(e.vt.term);
    BlankFrame(next.term);
    e.Resize(2, 1, next);
    after, changed := e.GetScreen();
    assert |before[0]| == 1 && |after[0]| == 2;
  }

  /** `ESC [ 3 m` and two blanks. */
  function ItalicBlanks(): seq<Sym> {
    CsiSyms(false, [3], SGR) + ([SPACE] + [SPACE])
  }

  lemma ItalicOn(t: Term)
    requires TermOk(t) && t.pen == PLAIN
    ensures Feed(Vt(t, Ground), CsiSyms(false, [3], SGR)) == Vt(t.(pen := ITALIC), Ground)
  {
    FeedCsi(t, [3], SGR);
    assert SgrOps([3]) == [Attr(3)] + SgrOps([]);
    assert ApplyOps(PLAIN, [Attr(3)]) == ApplyOps(ApplyOp(PLAIN, Attr(3)), []);
  }

  lemma TwoBlanks(t: Term)
    requires TermOk(t) && t.w == 2 && t.h == 1 && t.cx == t.cy == 0 && !t.pending && t.pen == ITALIC
    requires t.screen == [[BLANK, BLANK]]
    ensures Feed(Vt(t, Ground), [SPACE] + [SPACE]).term.screen == [[Blank(ITALIC), Blank(ITALIC)]]
  {
    var u := Print(t, SPACE);
    PrintOk(t, SPACE);
    FeedConcat(Vt(t, Ground), [SPACE], [SPACE]);
    BlankPrints(t);
    assert [BLANK, BLANK][0 := Blank(ITALIC)] == [Blank(ITALIC), BLANK];
    BlankPrints(u);
    assert [Blank(ITALIC), BLANK][1 := Blank(ITALIC)] == [Blank(ITALIC), Blank(ITALIC)];
  }

  lemma ItalicBlanksPrint(t: Term)
    requires TermOk(t) && t.w == 2 && t.h == 1 && t.cx == t.cy == 0 && !t.pending && t.pen == PLAIN
    requires t.screen == [BlankRow(2, PLAIN)]
    ensures Feed(Vt(t, Ground), ItalicBlanks()).term.screen == [[Blank(ITALIC), Blank(ITALIC)]]
  {
    ItalicOn(t);
    FeedConcat(Vt(t, Ground), CsiSyms(false, [3], SGR), [SPACE] + [SPACE]);
    assert BlankRow(2, PLAIN) == [BLANK, BLANK];
    TwoBlanks(t.(pen := ITALIC));
  }

  lemma BlankPrints(t: Term)
    requires TermOk(t) && t.w == 2 && t.h == 1 && t.cy == 0 && !t.pending && t.pen == ITALIC
    requires forall i :: 0 <= i < 2 ==> t.screen[0][i].width == 1
    ensures Feed(Vt(t, Ground), [SPACE]) == Vt(Print(t, SPACE), Ground)
    ensures Print(t, SPACE).screen == [t.screen[0][t.cx := Blank(ITALIC)]]
    ensures Print(t, SPACE).cx == 1 && Print(t, SPACE).cy == 0 && Print(t, SPACE).w == 2 && Print(t, SPACE).h == 1
    ensures Print(t, SPACE).pen == ITALIC && (t.cx == 0 ==> !Print(t, SPACE).pending)
  {
    FeedOne(Vt(t, Ground), SPACE);
  }

  /** Another text, the same frame. */
  lemma ItalicIsHidden(t: Term, stream: seq<Sym>)
    requires TermOk(t) && t.w == 2 && t.h == 1 && t.cx == t.cy == 0 && !t.pending && t.pen == PLAIN
    requires t.screen == [BlankRow(2, PLAIN)] && stream == ItalicBlanks()
    ensures var u := Feed(Vt(t, Ground), stream).term;
            PlainText(t) != PlainText(u) && PLAIN_TEXT.Frame(t) == PLAIN_TEXT.Frame(u)
  {
    BlankText(t);
    BlankFrame(t);
    ItalicBlanksPrint(t);
    ReplayTheorems.FeedKeepsSize(Vt(t, Ground), stream);
    ItalicText(Feed(Vt(t, Ground), stream).term);
  }

  /** Italic blanks on a blank row: the text spells them out, and changed is true of an equal frame. */
  method ChangeWithoutDifference() returns (before: seq<string>, after: seq<string>, changed: bool)
    ensures changed && before == after && MeasuresColumns(PLAIN_TEXT.measure)
  {
    PlainTextMeasures();
    var e := new VtEmu(2, 1, PLAIN_TEXT);
    var first: bool;
    before, first := e.GetScreen();
    var stream := ItalicBlanks();
    ItalicIsHidden(e.vt.term, stream);
    e.Write(stream);
    after, changed := e.GetScreen();
  }

  // ---------------------------------------------------------------- the anchor

  /** scrollTop, in lines above the live bottom, and the scrollback length it was last pinned at. */
  datatype Anchor = Anchor(top: nat, seen: nat)

  function ClampScrollTop(cur: int, delta: int, max: int): (n: int)
    ensures 0 <= max ==> 0 <= n <= max && (n == cur + delta <==> 0 <= cur + delta <= max)
    ensures 0 <= max ==> (n == 0 <== cur + delta < 0) && (n == max <== cur + delta > max)
    ensures max < 0 ==> n == max || n == cur + delta < max
  {
    var n := cur + delta;
    var lifted := if n < 0 then 0 else n;
    if lifted > max then max else lifted
  }

  function Pinned(a: Anchor, sbLen: nat): Anchor {
    if a.top > 0 && sbLen > a.seen then
      var lifted := a.top + (sbLen - a.seen);
      Anchor(if lifted > sbLen then sbLen else lifted, sbLen)
    else Anchor(a.top, sbLen)
  }

  /** After a paged redraw. */
  function Redrawn(a: Anchor, sbLen: nat): Anchor {
    var p := Pinned(a, sbLen);
    Anchor(if p.top > sbLen then sbLen else p.top, sbLen)
  }

  function Wheeled(a: Anchor, sbLen: nat, delta: int): Anchor {
    Anchor(ClampScrollTop(Pinned(a, sbLen).top, delta, sbLen), sbLen)
  }

  datatype Button = WheelUp | WheelDown | OtherButton

  datatype WheelAction = Ignored | ToAgent | Arrows(payload: string) | Paged

  /** `bytes` is what a real terminal would send for the key. */
  datatype Key = CtrlT | Other(bytes: seq<byte>)

  datatype KeyAction = BackToList | Claims(bytes: seq<byte>) | Sends(bytes: seq<byte>) | Nothing

  const ARROW_UP := ['\U{1b}'] + "[A"
  const ARROW_DOWN := ['\U{1b}'] + "[B"

  class SessionModel {
    const emu: VtEmu
    var scrollTop: nat
    var lastSbLen: nat
    var termRows: nat
    var parked: bool

    ghost function State(): Anchor
      reads this
    {
      Anchor(scrollTop, lastSbLen)
    }

    constructor (emu: VtEmu)
      ensures this.emu == emu && State() == Anchor(0, 0) && !parked && termRows == 0
    {
      this.emu := emu;
      scrollTop, lastSbLen, termRows, parked := 0, 0, 0, false;
    }

    /** The paged line stays at its distance from the oldest line. */
    method PinScroll(sbLen: nat)
      modifies this`scrollTop, this`lastSbLen
      ensures State() == Pinned(old(State()), sbLen)
      ensures 0 < old(scrollTop) <= old(lastSbLen) <= sbLen ==>
                lastSbLen - scrollTop == old(lastSbLen) - old(scrollTop)
    {
      if scrollTop > 0 && sbLen > lastSbLen {
        scrollTop := scrollTop + (sbLen - lastSbLen);
        if scrollTop > sbLen {
          scrollTop := sbLen;
        }
      }
      lastSbLen := sbLen;
    }

    /**
     Ctrl+t leaves for the session list and touches nothing. Any other key returns to the live
     bottom; while parked it claims the size before its bytes are sent.
     */
    method HandleKey(key: Key) returns (action: KeyAction)
      modifies this`scrollTop, this`parked
      ensures action.BackToList? <==> key.CtrlT?
      ensures key.CtrlT? ==> State() == old(State()) && parked == old(parked)
      ensures key.Other? ==> State() == Anchor(0, old(lastSbLen)) && !parked
      ensures key.Other? ==> (action.Claims? <==> old(parked)) && (action.Nothing? <==> !old(parked) && key.bytes == [])
      ensures action.Claims? || action.Sends? ==> key.Other? && action.bytes == key.bytes
    {
      if key.CtrlT? {
        return BackToList;
      }
      scrollTop := 0;
      var b := key.bytes;
      if parked {
        parked := false;
        return Claims(b);
      }
      action := if |b| > 0 then Sends(b) else Nothing;
    }

    /** Only an unparked view over a plain shell screen is paged; nothing else moves it. */
    method HandleWheel(button: Button) returns (action: WheelAction)
      modifies this`scrollTop, this`lastSbLen
      ensures action == Ignored <==> parked || button == OtherButton
      ensures var modes := emu.vt.term.modes;
              var tracked := 1000 in modes || 1002 in modes || 1003 in modes;
              && (action == ToAgent <==> !parked && button != OtherButton && tracked)
              && (action.Arrows? <==> !parked && button != OtherButton && !tracked && emu.vt.term.alt)
      ensures action == Paged <==> !parked && button != OtherButton && !OwnWheel(emu.vt.term)
      ensures action.Arrows? ==>
                var key := ['\U{1b}'] + if button == WheelUp then "[A" else "[B";
                action.payload == key + key + key
      ensures State() == if action == Paged
                         then Wheeled(old(State()), |emu.vt.term.history|,
                                      if button == WheelUp then WHEEL_ROWS else -WHEEL_ROWS)
                         else old(State())
      ensures action == Paged ==> scrollTop <= |emu.vt.term.history|
    {
      if parked || button == OtherButton {
        return Ignored;
      }
      if emu.MouseTrackingOn() {
        return ToAgent;
      }
      if emu.vt.term.alt {
        var key := if button == WheelDown then ARROW_DOWN else ARROW_UP;
        return Arrows(key + key + key);
      }
      var delta := WHEEL_ROWS;
      if button == WheelDown {
        delta := -delta;
      }
      PinScroll(|emu.vt.term.history|);
      scrollTop := ClampScrollTop(scrollTop, delta, lastSbLen);
      action := Paged;
    }

    /** Pins the view, then shows the window it is pinned to. */
    method RenderScrolled() returns (rows: seq<Row>)
      requires emu.Valid()
      modifies this`scrollTop, this`lastSbLen
      ensures State() == Redrawn(old(State()), |emu.vt.term.history|)
      ensures rows == Window(emu.vt.term, scrollTop, termRows)
    {
      PinScroll(|emu.vt.term.history|);
      var cells, top := emu.ScrolledView(scrollTop, termRows);
      scrollTop := top;
      rows := cells;
    }
  }

  // ---------------------------------------------------------------- what scrolls into history

  /** The line that leaves the main screen when the cursor goes down from here. */
  function Leaving(t: Term): seq<Row>
    requires TermOk(t)
  {
    if t.cy == t.bottom && t.top == 0 && !t.alt then [t.screen[0]] else []
  }

  /** The line an action pushes off the main screen. */
  function PushedBy(t: Term, a: Action): seq<Row>
    requires TermOk(t)
  {
    match a
    case NewLine => Leaving(t)
    case Show(s) => if s.Cols() <= t.w && (t.pending || t.cx + s.Cols() > t.w) && Wraps(t) then Leaving(t) else []
    case _ => []
  }

  /** All lines pushed while a stream is fed, oldest first. */
  function Pushed(v: Vt, stream: seq<Sym>): seq<Row>
    requires VtOk(v)
    decreases stream
  {
    if stream == [] then []
    else PushedBy(v.term, Parse(v.parser, stream[0]).action) + Pushed(Step(v, stream[0]), stream[1..])
  }

  function Last<T>(s: seq<T>, n: nat): (r: seq<T>)
    ensures |r| == if |s| > n then n else |s|
  {
    if |s| > n then s[|s| - n..] else s
  }

  lemma LastLast<T>(a: seq<T>, b: seq<T>, n: nat)
    ensures Last(Last(a, n) + b, n) == Last(a + b, n)
  {
  }

  lemma {:induction false} ModesKeepHistory(t: Term, ns: seq<nat>)
    ensures SetModes(t, ns).history == t.history && ResetModes(t, ns).history == t.history
    decreases ns
  {
    if ns != [] {
      ModesKeepHistory(SetMode(t, ns[0]), ns[1..]);
      ModesKeepHistory(ResetMode(t, ns[0]), ns[1..]);
    }
  }

  lemma LineFeedHistory(t: Term)
    requires TermOk(t)
    ensures LineFeed(t).history == Last(t.history + Leaving(t), t.cap)
  {
    AppendNothing(t.history);
  }

  lemma PrintHistory(t: Term, s: Sym)
    requires TermOk(t) && s.Cols() in {1, 2}
    ensures Print(t, s).history == Last(t.history + PushedBy(t, Show(s)), t.cap)
  {
    AppendNothing(t.history);
    if s.Cols() <= t.w {
      PlaceHistory(t, s.Cols());
    }
  }

  lemma PlaceHistory(t: Term, n: nat)
    requires TermOk(t) && 0 < n <= t.w
    ensures TermOk(Place(t, n))
    ensures Place(t, n).history
         == if (t.pending || t.cx + n > t.w) && Wraps(t) then Last(t.history + Leaving(t), t.cap) else t.history
  {
    PlaceOk(t, n);
    LineFeedHistory(CarriageReturn(t));
  }

  lemma PerformHistory(t: Term, a: Action)
    requires TermOk(t) && ActionOk(a)
    ensures Perform(t, a).history == Last(t.history + PushedBy(t, a), t.cap)
  {
    AppendNothing(t.history);
    match a
    case Show(s) => PrintHistory(t, s);
    case NewLine => LineFeedHistory(t);
    case Control(true, ps, final) => ModesKeepHistory(t, Named(ps));
    case _ =>
  }

  /** Scrollback is the newest of everything ever pushed. */
  lemma {:induction false} FeedHistory(v: Vt, stream: seq<Sym>)
    requires VtOk(v)
    ensures Feed(v, stream).term.history == Last(v.term.history + Pushed(v, stream), v.term.cap)
    decreases stream
  {
    AppendNothing(v.term.history);
    if stream != [] {
      var u, a := Step(v, stream[0]), Parse(v.parser, stream[0]).action;
      PerformHistory(v.term, a);
      ReplayTheorems.StepKeepsSize(v, stream[0]);
      FeedHistory(u, stream[1..]);
      LastLast(v.term.history + PushedBy(v.term, a), Pushed(u, stream[1..]), v.term.cap);
      AppendAssoc(v.term.history, PushedBy(v.term, a), Pushed(u, stream[1..]));
    }
  }

  // ---------------------------------------------------------------- reading while output arrives

  /** `log` holds every line ever pushed into scrollback, also those its cap has since dropped. */
  datatype Desk = Desk(vt: Vt, log: seq<Row>, anchor: Anchor)

  datatype Event = Output(stream: seq<Sym>) | Redraw | Wheel(up: bool) | Key

  ghost predicate DeskOk(d: Desk) {
    && VtOk(d.vt)
    && d.vt.term.history == Last(d.log, d.vt.term.cap)
    && d.anchor.top <= d.anchor.seen <= |d.vt.term.history|
  }

  predicate OwnWheel(t: Term) {
    t.alt || 1000 in t.modes || 1002 in t.modes || 1003 in t.modes
  }

  function After(d: Desk, e: Event): Desk
    requires DeskOk(d)
  {
    var sbLen := |d.vt.term.history|;
    match e
    case Output(stream) => Desk(Feed(d.vt, stream), d.log + Pushed(d.vt, stream), d.anchor)
    case Redraw => if d.anchor.top > 0 then d.(anchor := Redrawn(d.anchor, sbLen)) else d
    case Wheel(up) =>
      if OwnWheel(d.vt.term) then d
      else d.(anchor := Wheeled(d.anchor, sbLen, if up then WHEEL_ROWS else -WHEEL_ROWS))
    case Key => d.(anchor := Anchor(0, d.anchor.seen))
  }

  /** Every step leaves the window inside the history it was last pinned to. */
  lemma AfterOk(d: Desk, e: Event)
    requires DeskOk(d)
    ensures DeskOk(After(d, e))
  {
    if e.Output? {
      FeedHistory(d.vt, e.stream);
      ReplayTheorems.FeedKeepsSize(d.vt, e.stream);
      LastLast(d.log, Pushed(d.vt, e.stream), d.vt.term.cap);
    }
  }

  function Run(d: Desk, es: seq<Event>): (r: Desk)
    requires DeskOk(d)
    ensures DeskOk(r)
    decreases |es|
  {
    if es == [] then d
    else
      AfterOk(d, es[0]);
      Run(After(d, es[0]), es[1..])
  }

  /** Lines the cap has dropped. */
  function Dropped(d: Desk): int {
    |d.log| - |d.vt.term.history|
  }

  /** The number, counted from the first line ever, of the line a redraw shows on top. */
  function TopLine(d: Desk): int {
    |d.log| - Pinned(d.anchor, |d.vt.term.history|).top
  }

  predicate Reading(es: seq<Event>) {
    forall i :: 0 <= i < |es| ==> es[i].Output? || es[i].Redraw?
  }

  /** A wheel notch moves the top line by three, between the oldest line kept and the live bottom. */
  lemma WheelMoves(d: Desk, up: bool)
    requires DeskOk(d) && !OwnWheel(d.vt.term)
    ensures var was, now := TopLine(d), TopLine(After(d, Wheel(up)));
            now == if up then (if was - 3 < Dropped(d) then Dropped(d) else was - 3)
                   else (if was + 3 > |d.log| then |d.log| else was + 3)
  {
  }

  lemma ReadingStep(d: Desk, e: Event)
    requires DeskOk(d) && d.anchor.top > 0 && (e.Output? || e.Redraw?)
    ensures var n := After(d, e);
            && DeskOk(n) && n.anchor.top > 0 && d.log <= n.log
            && TopLine(n) - TopLine(d) == Dropped(n) - Dropped(d)
            && n.vt.term.cap == d.vt.term.cap && n.vt.term.w == d.vt.term.w
            && Pinned(n.anchor, |n.vt.term.history|).top >= Pinned(d.anchor, |d.vt.term.history|).top
  {
    AfterOk(d, e);
    if e.Output? {
      ReplayTheorems.FeedKeepsSize(d.vt, e.stream);
    }
  }

  /** Over any run of output and redraws the paged window drifts by exactly the lines the cap drops. */
  lemma {:induction false} ReadingDrift(d: Desk, es: seq<Event>)
    requires DeskOk(d) && d.anchor.top > 0 && Reading(es)
    ensures var n := Run(d, es);
            && n.anchor.top > 0 && d.log <= n.log
            && TopLine(n) - TopLine(d) == Dropped(n) - Dropped(d)
            && n.vt.term.cap == d.vt.term.cap && n.vt.term.w == d.vt.term.w
            && Pinned(n.anchor, |n.vt.term.history|).top >= Pinned(d.anchor, |d.vt.term.history|).top
    decreases |es|
  {
    if es != [] {
      ReadingStep(d, es[0]);
      ReadingDrift(After(d, es[0]), es[1..]);
    }
  }

  /**
   The same line stays on top if and only if everything pushed in the meantime fits below the cap
   (or nothing was pushed).
   */
  lemma AnchoredIff(d: Desk, es: seq<Event>)
    requires DeskOk(d) && d.anchor.top > 0 && Reading(es)
    ensures var n := Run(d, es);
            TopLine(n) == TopLine(d)
            <==> |n.log| == |d.log| || |d.vt.term.history| + (|n.log| - |d.log|) <= d.vt.term.cap
  {
    ReadingDrift(d, es);
  }

  /** What a redraw puts on the screen. */
  function Page(d: Desk, n: nat): seq<Row> {
    Window(d.vt.term, Redrawn(d.anchor, |d.vt.term.history|).top, n)
  }

  /** Row r of the page is line TopLine + r of everything pushed followed by the screen. */
  lemma PageIsSlice(d: Desk, n: nat, r: nat)
    requires DeskOk(d) && r < n
    ensures var all := d.log + d.vt.term.screen;
            var k := TopLine(d) + r;
            0 <= TopLine(d) && Page(d, n)[r] == Padded(if k < |all| then all[k] else [], d.vt.term.w)
  {
    var t := d.vt.term;
    var abs := |t.history| - Redrawn(d.anchor, |t.history|).top + r;
    var all := d.log + t.screen;
    assert TopLine(d) + r == Dropped(d) + abs;
    if abs < |t.history| {
      assert t.history[abs] == d.log[Dropped(d) + abs];
    } else if abs < |t.history| + |t.screen| {
      assert all[Dropped(d) + abs] == t.screen[abs - |t.history|];
    }
    assert LineAt(t, abs) == if Dropped(d) + abs < |all| then all[Dropped(d) + abs] else [];
  }

  /** Cell by cell: nothing is shifted, and what a line lacks is an unstyled blank. */
  lemma PageCell(d: Desk, n: nat, r: nat, x: nat)
    requires DeskOk(d) && r < n && x < d.vt.term.w
    ensures var all := d.log + d.vt.term.screen;
            var k := TopLine(d) + r;
            && 0 <= TopLine(d) && |Page(d, n)| == n && |Page(d, n)[r]| == d.vt.term.w
            && Page(d, n)[r][x] == if k < |all| && x < |all[k]| then all[k][x]
                                   else Cell(Some(Byte(0x20)), 1, PLAIN, None)
  {
    PageIsSlice(d, n, r);
  }

  /** A key press shows the live bottom. */
  lemma KeyReturns(d: Desk)
    requires DeskOk(d)
    ensures TopLine(After(d, Key)) == |d.log| && After(d, Key).vt == d.vt
  {
  }

  /** The output among the events. */
  function Streamed(es: seq<Event>): seq<Sym> {
    if es == [] then [] else (if es[0].Output? then es[0].stream else []) + Streamed(es[1..])
  }

  /** The emulator consumes all output and nothing else. */
  lemma {:induction false} RunFeeds(d: Desk, es: seq<Event>)
    requires DeskOk(d)
    ensures Run(d, es).vt == Feed(d.vt, Streamed(es))
    decreases |es|
  {
    if es != [] {
      AfterOk(d, es[0]);
      RunFeeds(After(d, es[0]), es[1..]);
      if es[0].Output? {
        FeedConcat(d.vt, es[0].stream, Streamed(es[1..]));
      } else {
        AppendNothing(Streamed(es[1..]));
      }
    }
  }

  /** The scrollback rows of the page do not change while the reader stays and nothing is dropped. */
  lemma PagedRowsStay(d: Desk, es: seq<Event>, n: nat, r: nat)
    requires DeskOk(d) && d.anchor.top > 0 && Reading(es)
    requires var e := Run(d, es); |d.vt.term.history| + (|e.log| - |d.log|) <= d.vt.term.cap
    requires r < n && r < Pinned(d.anchor, |d.vt.term.history|).top
    ensures Page(Run(d, es), n)[r] == Page(d, n)[r]
  {
    var e := Run(d, es);
    ReadingDrift(d, es);
    AnchoredIff(d, es);
    PageIsSlice(d, n, r);
    PageIsSlice(e, n, r);
    var k := TopLine(d) + r;
    assert k < |d.log| && d.log[k] == e.log[k];
  }

  /** At the cap each line that arrives moves the page on by one. */
  lemma DriftsAtTheCap(d: Desk, es: seq<Event>)
    requires DeskOk(d) && d.anchor.top > 0 && Reading(es) && |d.vt.term.history| == d.vt.term.cap
    ensures TopLine(Run(d, es)) == TopLine(d) + (|Run(d, es).log| - |d.log|)
  {
    ReadingDrift(d, es);
  }

  lemma OneLinePushed(v: Vt, stream: seq<Sym>)
    requires VtOk(v) && v.parser == Ground && v.term.h == 1 && FullRegion(v.term) && !v.term.alt && stream == [LF]
    ensures |Pushed(v, stream)| == 1
  {
    assert Pushed(v, stream) == PushedBy(v.term, NewLine) + Pushed(Step(v, LF), stream[1..]);
  }

  /** A line that arrives at a full history moves the page. */
  lemma OneEventDrift(d: Desk, stream: seq<Sym>)
    requires DeskOk(d) && d.anchor.top > 0 && |d.vt.term.history| == d.vt.term.cap && |Pushed(d.vt, stream)| == 1
    ensures Reading([Output(stream)]) && TopLine(Run(d, [Output(stream)])) != TopLine(d)
  {
    var es := [Output(stream)];
    AfterOk(d, es[0]);
    assert Run(d, es) == Run(After(d, es[0]), es[1..]);
    DriftsAtTheCap(d, es);
  }

  /** At a full one-line history a single line feed moves a paged view off its line. */
  lemma OneLineDrift()
    ensures exists d: Desk, es ::
              DeskOk(d) && d.anchor.top > 0 && Reading(es) && TopLine(Run(d, es)) != TopLine(d)
  {
    var t := Fresh(1, 1, 1, {});
    var v := Vt(t.(history := [t.screen[0]]), Ground);
    var d := Desk(v, [t.screen[0]], Anchor(1, 1));
    OneLinePushed(v, [LF]);
    OneEventDrift(d, [LF]);
  }
}
