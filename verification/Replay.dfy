/**
 The attach replay (internal/daemon/replay.go): a printer of terminal states whose
 inverse is the terminal itself. The daemon's emulator and the attaching client's
 terminal are both `Terminal.Term` machines.
 */
module Replay {
  import opened Common
  import opened Terminal
  import opened Decimal
  import VtMode

  // ---------------------------------------------------------------- style transitions

  function FlagOps(on: nat, off: nat, from: bool, to: bool): seq<SgrOp> {
    if from == to then [] else if to then [Attr(on)] else [Attr(off)]
  }

  function ForegroundOps(from: Color, to: Color): seq<SgrOp> {
    if from == to then [] else if to.DefaultColor? then [Attr(39)] else [Fg(to.n)]
  }

  function BackgroundOps(from: Color, to: Color): seq<SgrOp> {
    if from == to then [] else if to.DefaultColor? then [Attr(49)] else [Bg(to.n)]
  }

  /** Bold and faint share one reset. */
  function IntensityOps(from: Style, to: Style): seq<SgrOp> {
    if from.bold == to.bold && from.faint == to.faint then []
    else [Attr(22)] + FlagOps(1, 22, false, to.bold) + FlagOps(2, 22, false, to.faint)
  }

  function FlagsOps(from: Style, to: Style): seq<SgrOp> {
    FlagOps(3, 23, from.italic, to.italic)
    + FlagOps(4, 24, from.underline, to.underline)
    + FlagOps(7, 27, from.reverse, to.reverse)
  }

  function DiffOps(from: Style, to: Style): seq<SgrOp> {
    if to == PLAIN then [Attr(0)]
    else
      ForegroundOps(from.fg, to.fg)
      + BackgroundOps(from.bg, to.bg)
      + IntensityOps(from, to)
      + FlagsOps(from, to)
  }

  function OneOpParams(op: SgrOp): seq<nat> {
    match op
    case Attr(p) => [p]
    case Fg(n) => [38, 5, n]
    case Bg(n) => [48, 5, n]
  }

  function OpParams(ops: seq<SgrOp>): seq<nat> {
    if ops == [] then [] else OneOpParams(ops[0]) + OpParams(ops[1..])
  }

  /** Parameters of the SGR that turns `from` into `to`. */
  function DiffParams(from: Style, to: Style): seq<nat> {
    OpParams(DiffOps(from, to))
  }

  lemma {:induction false} OpsReadBack(ops: seq<SgrOp>)
    requires forall op :: op in ops ==> op != Attr(38) && op != Attr(48)
    ensures SgrOps(OpParams(ops)) == ops
    ensures ops != [] ==> OpParams(ops) != []
  {
    if ops != [] {
      assert ops[0] in ops && forall op :: op in ops[1..] ==> op in ops;
      OpsReadBack(ops[1..]);
      OneOpReadsBack(ops[0], OpParams(ops[1..]));
      SplitAt(ops, 1);
    }
  }

  /** The parameters of one operation are read as that operation. */
  lemma OneOpReadsBack(op: SgrOp, rest: seq<nat>)
    requires op != Attr(38) && op != Attr(48)
    ensures var ps := OneOpParams(op) + rest; ps != [] && SgrOps(ps) == [op] + SgrOps(rest)
  {
    match op
    case Attr(p) => assert ([p] + rest)[1..] == rest;
    case Fg(n) => assert ([38, 5, n] + rest)[3..] == rest;
    case Bg(n) => assert ([48, 5, n] + rest)[3..] == rest;
  }

  lemma {:induction false} ApplyOpsConcat(s: Style, a: seq<SgrOp>, b: seq<SgrOp>)
    ensures ApplyOps(s, a + b) == ApplyOps(ApplyOps(s, a), b)
    decreases a
  {
    if a == [] {
      assert a + b == b;
    } else {
      assert (a + b)[1..] == a[1..] + b;
      ApplyOpsConcat(ApplyOp(s, a[0]), a[1..], b);
    }
  }

  lemma IntensityLaw(s: Style, to: Style)
    ensures ApplyOps(s, IntensityOps(s, to)) == s.(bold := to.bold, faint := to.faint)
  {
    if s.bold != to.bold || s.faint != to.faint {
      var bold, faint := FlagOps(1, 22, false, to.bold), FlagOps(2, 22, false, to.faint);
      ApplyOpsConcat(s, [Attr(22)] + bold, faint);
      ApplyOpsConcat(s, [Attr(22)], bold);
    }
  }

  lemma ApplyThen(s: Style, a: seq<SgrOp>, x: Style, b: seq<SgrOp>, y: Style)
    requires ApplyOps(s, a) == x && ApplyOps(x, b) == y
    ensures ApplyOps(s, a + b) == y
  {
    ApplyOpsConcat(s, a, b);
  }

  lemma ForegroundLaw(s: Style, to: Color)
    ensures ApplyOps(s, ForegroundOps(s.fg, to)) == s.(fg := to)
  {
  }

  lemma BackgroundLaw(s: Style, to: Color)
    ensures ApplyOps(s, BackgroundOps(s.bg, to)) == s.(bg := to)
  {
  }

  lemma ColorsLaw(s: Style, to: Style)
    ensures ApplyOps(s, ForegroundOps(s.fg, to.fg) + BackgroundOps(s.bg, to.bg)) == s.(fg := to.fg, bg := to.bg)
  {
    ForegroundLaw(s, to.fg);
    BackgroundLaw(s.(fg := to.fg), to.bg);
    ApplyThen(s, ForegroundOps(s.fg, to.fg), s.(fg := to.fg), BackgroundOps(s.bg, to.bg), s.(fg := to.fg, bg := to.bg));
  }

  lemma ItalicLaw(s: Style, to: bool)
    ensures ApplyOps(s, FlagOps(3, 23, s.italic, to)) == s.(italic := to)
  {
  }

  lemma UnderlineLaw(s: Style, to: bool)
    ensures ApplyOps(s, FlagOps(4, 24, s.underline, to)) == s.(underline := to)
  {
  }

  lemma ReverseLaw(s: Style, to: bool)
    ensures ApplyOps(s, FlagOps(7, 27, s.reverse, to)) == s.(reverse := to)
  {
  }

  lemma FlagsLaw(s: Style, to: Style)
    ensures ApplyOps(s, FlagsOps(s, to)) == s.(italic := to.italic, underline := to.underline, reverse := to.reverse)
  {
    var a, b := FlagOps(3, 23, s.italic, to.italic), FlagOps(4, 24, s.underline, to.underline);
    var c := FlagOps(7, 27, s.reverse, to.reverse);
    var s1 := s.(italic := to.italic);
    var s2 := s1.(underline := to.underline);
    ItalicLaw(s, to.italic);
    UnderlineLaw(s1, to.underline);
    ReverseLaw(s2, to.reverse);
    ApplyThen(s, a, s1, b, s2);
    ApplyThen(s, a + b, s2, c, s2.(reverse := to.reverse));
  }

  lemma DiffOpsLaw(from: Style, to: Style)
    requires to != PLAIN
    ensures ApplyOps(from, DiffOps(from, to)) == to
  {
    var colors := ForegroundOps(from.fg, to.fg) + BackgroundOps(from.bg, to.bg);
    var s2 := from.(fg := to.fg, bg := to.bg);
    var s3 := s2.(bold := to.bold, faint := to.faint);
    ApplyOpsConcat(from, colors + IntensityOps(from, to), FlagsOps(from, to));
    ApplyOpsConcat(from, colors, IntensityOps(from, to));
    ColorsLaw(from, to);
    IntensityLaw(s2, to);
    FlagsLaw(s3, to);
    assert IntensityOps(s2, to) == IntensityOps(from, to) && FlagsOps(s3, to) == FlagsOps(from, to);
  }

  lemma DiffOpsPlain(from: Style, to: Style)
    ensures forall op :: op in DiffOps(from, to) ==> op != Attr(38) && op != Attr(48)
    ensures from != to ==> DiffOps(from, to) != []
  {
    if to != PLAIN && DiffOps(from, to) == [] {
      DiffOpsLaw(from, to);
    }
  }

  /** Applied in style `from`, the transition yields style `to`. */
  lemma DiffLaw(from: Style, to: Style)
    requires from != to
    ensures ApplySgr(from, DiffParams(from, to)) == to && DiffParams(from, to) != []
  {
    DiffOpsPlain(from, to);
    OpsReadBack(DiffOps(from, to));
    if to == PLAIN {
      assert ApplyOps(from, [Attr(0)]) == PLAIN;
    } else {
      DiffOpsLaw(from, to);
    }
  }

  // ---------------------------------------------------------------- the printer

  function Glyph(c: Cell): Sym {
    if c.content.None? then SPACE else c.content.value
  }

  function StyleSyms(from: Style, to: Style): seq<Sym> {
    if from == to then [] else CsiSyms(false, DiffParams(from, to), SGR)
  }

  /** Text of the cells from index i on, printed with pen `pen`, ending in the default pen. */
  function CellSyms(line: Row, i: nat, pen: Style): seq<Sym>
    requires i <= |line|
    decreases |line| - i
  {
    if i == |line| then
      if pen != PLAIN then CsiSyms(false, [], SGR) else []
    else
      var c := line[i];
      if c.width == 0 && c.content.None? then CellSyms(line, i + 1, pen)
      else StyleSyms(pen, c.style) + [Glyph(c)] + CellSyms(line, i + 1, c.style)
  }

  method WriteCells(sb: seq<Sym>, line: Row) returns (out: seq<Sym>)
    ensures out == sb + CellSyms(line, 0, PLAIN)
  {
    out := sb;
    var cur := PLAIN;
    var styled := false;
    for i := 0 to |line|
      invariant styled == (cur != PLAIN)
      invariant out + CellSyms(line, i, cur) == sb + CellSyms(line, 0, PLAIN)
    {
      var c := line[i];
      if c.width == 0 && c.content.None? {
        continue;
      }
      AppendNothing(out);
      AppendAssoc(out, StyleSyms(cur, c.style), [Glyph(c)]);
      AppendAssoc(out, StyleSyms(cur, c.style) + [Glyph(c)], CellSyms(line, i + 1, c.style));
      if c.style != cur {
        out := out + CsiSyms(false, DiffParams(cur, c.style), SGR);
        cur := c.style;
        styled := cur != PLAIN;
      }
      out := out + [Glyph(c)];
    }
    if styled {
      out := out + CsiSyms(false, [], SGR);
    }
  }

  predicate Trimmable(c: Cell) {
    (c.content.None? || c.content.value == SPACE) && c.style == PLAIN && c.link.None?
  }

  /** The row without its trailing unstyled blanks. */
  function TrimEnd(row: Row): (r: Row)
    ensures r <= row
    ensures forall k :: |r| <= k < |row| ==> Trimmable(row[k])
  {
    if row != [] && Trimmable(row[|row| - 1]) then TrimEnd(row[..|row| - 1]) else row
  }

  /** Lines joined by CR LF. */
  function Join(lines: seq<Row>): seq<Sym>
    decreases |lines|, 0
  {
    if lines == [] then []
    else
      var last := |lines| - 1;
      Terminated(lines[..last]) + CellSyms(lines[last], 0, PLAIN)
  }

  /** Lines each ended by CR LF. */
  function Terminated(lines: seq<Row>): seq<Sym>
    decreases |lines|, 1
  {
    if lines == [] then [] else Join(lines) + [CR, LF]
  }

  function TrimAll(rows: seq<Row>): seq<Row> {
    seq(|rows|, k requires 0 <= k < |rows| => TrimEnd(rows[k]))
  }

  /** The lines the replay prints: history unless the alternate screen shows, then the screen. */
  function Printed(e: Term): seq<Row> {
    (if e.alt then [] else e.history) + TrimAll(e.screen)
  }

  /** CR, up, forward: from the end of the last row to where the agent left the cursor. */
  function Park(e: Term): seq<Sym>
    requires e.cy < e.h
  {
    var up := e.h - 1 - e.cy;
    [CR] + (if up > 0 then CsiSyms(false, [up], CUU) else [])
    + (if e.cx > 0 then CsiSyms(false, [e.cx], CUF) else [])
  }

  function Widen(b: seq<byte>): (s: seq<Sym>)
    ensures |s| == |b|
  {
    seq(|b|, k requires 0 <= k < |b| => Byte(b[k]))
  }

  /** The whole replay, for the modes listed in `order`. */
  function ReplaySyms(e: Term, order: seq<int>): seq<Sym>
    requires e.cy < e.h
  {
    Widen(VtMode.RestoreOf(order)) + (Join(Printed(e)) + Park(e))
  }

  method WriteHistory(history: seq<Row>) returns (sb: seq<Sym>)
    ensures sb == Terminated(history)
  {
    sb := [];
    for k := 0 to |history|
      invariant sb == Terminated(history[..k])
    {
      assert history[..k + 1][..k] == history[..k];
      sb := WriteCells(sb, history[k]);
      sb := sb + [CR, LF];
    }
    assert history[..|history|] == history;
  }

  method Trim(full: Row) returns (row: Row)
    ensures row == TrimEnd(full)
  {
    row := full;
    while |row| > 0
      invariant TrimEnd(row) == TrimEnd(full)
    {
      if Trimmable(row[|row| - 1]) {
        row := row[..|row| - 1];
        continue;
      }
      break;
    }
  }

  lemma JoinAppend(before: seq<Row>, row: Row)
    ensures Join(before + [row]) == Terminated(before) + CellSyms(row, 0, PLAIN)
  {
    assert (before + [row])[..|before|] == before;
  }

  method WriteScreen(start: seq<Sym>, screen: seq<Row>, ghost history: seq<Row>) returns (sb: seq<Sym>)
    requires start == Terminated(history) && screen != []
    ensures sb == Join(history + TrimAll(screen))
  {
    sb := start;
    ghost var trimmed := TrimAll(screen);
    for y := 0 to |screen|
      invariant sb == if y == 0 then Terminated(history) else Join(history + trimmed[..y])
    {
      if y > 0 {
        sb := sb + [CR, LF];
      }
      AppendNothing(history);
      assert trimmed[..0] == [] && trimmed[..y + 1] == trimmed[..y] + [trimmed[y]];
      AppendAssoc(history, trimmed[..y], [trimmed[y]]);
      JoinAppend(history + trimmed[..y], trimmed[y]);
      var row := Trim(screen[y]);
      sb := WriteCells(sb, row);
    }
    assert trimmed[..|screen|] == trimmed;
  }

  method WritePark(start: seq<Sym>, e: Term) returns (sb: seq<Sym>)
    requires e.cy < e.h
    ensures sb == start + Park(e)
  {
    sb := start + [CR];
    var up := e.h - 1 - e.cy;
    ghost var upward := if up > 0 then CsiSyms(false, [up], CUU) else [];
    ghost var forward := if e.cx > 0 then CsiSyms(false, [e.cx], CUF) else [];
    AppendAssoc(start, [CR], upward);
    AppendAssoc(start, [CR] + upward, forward);
    AppendNothing(sb);
    if up > 0 {
      sb := sb + CsiSyms(false, [up], CUU);
    }
    AppendNothing(sb);
    if e.cx > 0 {
      sb := sb + CsiSyms(false, [e.cx], CUF);
    }
  }

  method SerializeReplay(emu: Option<Term>, modes: VtMode.Modes) returns (snap: seq<seq<Sym>>, ghost order: seq<int>)
    requires emu.Some? ==> TermOk(emu.value)
    ensures VtMode.Lists(order, VtMode.OnModes(modes))
    ensures Concat(snap) == match emu
                            case None => Widen(VtMode.RestoreOf(order))
                            case Some(e) => ReplaySyms(e, order)
    ensures forall k :: 0 <= k < |snap| ==> snap[k] != []
  {
    snap := [];
    var lead, order' := VtMode.ModeRestoreBytes(modes);
    order := order';
    if |lead| > 0 {
      snap := snap + [Widen(lead)];
    }
    assert Concat(snap) == Widen(lead);
    if emu.None? {
      return;
    }
    var e := emu.value;
    var sb: seq<Sym> := [];
    if !e.alt {
      sb := WriteHistory(e.history);
    }
    sb := WriteScreen(sb, e.screen, if e.alt then [] else e.history);
    sb := WritePark(sb, e);
    if |sb| > 0 {
      ConcatAppend(snap, [sb]);
      assert Concat([sb]) == sb;
      snap := snap + [sb];
    }
  }
}
