/**
 A small ECMA-48 terminal: the machine on both ends of an attach. It consumes a
 stream of symbols one at a time, so feeding a stream in pieces is the same as
 feeding it whole. A symbol is a byte or a grapheme cluster of known column width;
 bytes above 0x7f are put together to characters (section 3 of RFC 3629), control
 sequences follow section 5.4 of ECMA-48. A parser turns symbols into actions, which
 change the terminal.
 */
module Terminal {
  import opened Common
  import opened Decimal

  // ---------------------------------------------------------------- symbols

  datatype Sym = Byte(code: nat) | Cluster(text: string, cols: nat) {
    /** Columns the symbol occupies when printed by itself; 0 for controls and for parts of characters. */
    function Cols(): nat {
      match this
      case Byte(c) => if 0x20 <= c < 0x7f then 1 else 0
      case Cluster(_, n) => n
    }

    predicate IsDigit() {
      Byte? && 0x30 <= code < 0x3a
    }

    predicate IsControl() {
      Byte? && (code < 0x20 || code == 0x7f)
    }

    predicate IsIntermediate() {
      Byte? && 0x20 <= code < 0x30
    }
  }

  const ESCAPE := Byte(0x1b)
  const BEL := Byte(0x07)
  const CAN := Byte(0x18)
  const SUB := Byte(0x1a)
  const CR := Byte(0x0d)
  const LF := Byte(0x0a)
  const SPACE := Byte(0x20)
  const BRACKET := Byte(0x5b)
  const SEMICOLON := Byte(0x3b)
  const QUESTION := Byte(0x3f)
  const CUU := Byte(0x41)
  const CUF := Byte(0x43)
  const CUP := Byte(0x48)
  const EL := Byte(0x4b)
  const SM := Byte(0x68)
  const RM := Byte(0x6c)
  const SGR := Byte(0x6d)
  const DECSTBM := Byte(0x72)
  const DECSC := Byte(0x37)
  const DECRC := Byte(0x38)

  // ---------------------------------------------------------------- cells and rows

  datatype Color = DefaultColor | Palette(n: nat)

  datatype Style = Style(fg: Color, bg: Color, bold: bool, faint: bool,
                         italic: bool, underline: bool, reverse: bool)

  const PLAIN := Style(DefaultColor, DefaultColor, false, false, false, false, false)

  /** content None is the source's empty string. */
  datatype Cell = Cell(content: Option<Sym>, width: nat, style: Style, link: Option<string>)

  type Row = seq<Cell>

  /** The zero cell that follows a wide grapheme. */
  const SHADOW := Cell(None, 0, PLAIN, None)

  function Blank(style: Style): Cell {
    Cell(Some(SPACE), 1, style, None)
  }

  const BLANK := Blank(PLAIN)

  function BlankRow(w: nat, style: Style): Row {
    seq(w, _ => Blank(style))
  }

  predicate CellOk(c: Cell) {
    match c.width
    case 0 => c == SHADOW
    case 1 => c.content.None? || c.content.value.Cols() == 1
    case 2 => c.content.Some? && c.content.value.Cols() == 2
    case _ => false
  }

  /** Every wide cell is followed by its shadow and every shadow follows a wide cell. */
  predicate RowOk(row: Row) {
    && (forall i :: 0 <= i < |row| ==> CellOk(row[i]))
    && (row != [] ==> row[0].width != 0 && row[|row| - 1].width != 2)
    && (forall i, j :: 0 <= i < |row| && i + 1 <= j < |row| && j == i + 1 ==>
          (row[i].width == 2 <==> row[j].width == 0))
  }

  /** The row with the wide cell at x, or the one whose shadow x is, blanked out of the way. */
  function Detach(row: Row, x: nat, style: Style): (r: Row)
    requires RowOk(row) && x < |row|
    ensures |r| == |row|
  {
    if row[x].width == 2 then row[x := Blank(style)][x + 1 := Blank(style)]
    else if row[x].width == 0 then row[x := Blank(style)][x - 1 := Blank(style)]
    else row
  }

  function Put(row: Row, x: nat, s: Sym, style: Style): (r: Row)
    requires RowOk(row) && s.Cols() in {1, 2} && x + s.Cols() <= |row|
    ensures |r| == |row|
  {
    var cell := Cell(Some(s), s.Cols(), style, None);
    if s.Cols() == 1 then Detach(row, x, PLAIN)[x := cell]
    else
      DetachOk(row, x, PLAIN);
      Detach(Detach(row, x, PLAIN), x + 1, PLAIN)[x := cell][x + 1 := SHADOW]
  }

  /** Erase from column x to the end of the line with the given background. */
  function Erase(row: Row, x: nat, style: Style): (r: Row)
    requires RowOk(row) && x < |row|
    ensures |r| == |row|
  {
    Detach(row, x, PLAIN)[..x] + BlankRow(|row| - x, style)
  }

  lemma DetachOk(row: Row, x: nat, style: Style)
    requires RowOk(row) && x < |row|
    ensures RowOk(Detach(row, x, style)) && Detach(row, x, style)[x].width == 1
    ensures x > 0 && row[x - 1].width == 1 ==> Detach(row, x, style)[x - 1].width == 1
  {
    var d := Detach(row, x, style);
    assert CellOk(Blank(style));
    assert forall i :: 0 <= i < |d| ==> CellOk(d[i]);
    forall i, j | 0 <= i < |d| && i + 1 <= j < |d| && j == i + 1
      ensures d[i].width == 2 <==> d[j].width == 0
    {
      assert row[i].width == 2 <==> row[j].width == 0;
    }
  }

  lemma PutOk(row: Row, x: nat, s: Sym, style: Style)
    requires RowOk(row) && s.Cols() in {1, 2} && x + s.Cols() <= |row|
    ensures RowOk(Put(row, x, s, style))
  {
    DetachOk(row, x, PLAIN);
    if s.Cols() == 2 {
      DetachOk(Detach(row, x, PLAIN), x + 1, PLAIN);
    }
  }

  lemma EraseOk(row: Row, x: nat, style: Style)
    requires RowOk(row) && x < |row|
    ensures RowOk(Erase(row, x, style))
  {
    DetachOk(row, x, PLAIN);
  }

  // ---------------------------------------------------------------- styles

  datatype SgrOp = Attr(p: nat) | Fg(n: nat) | Bg(n: nat)

  function ApplyOp(s: Style, op: SgrOp): Style {
    match op
    case Fg(n) => s.(fg := Palette(n))
    case Bg(n) => s.(bg := Palette(n))
    case Attr(0) => PLAIN
    case Attr(1) => s.(bold := true)
    case Attr(2) => s.(faint := true)
    case Attr(3) => s.(italic := true)
    case Attr(4) => s.(underline := true)
    case Attr(7) => s.(reverse := true)
    case Attr(22) => s.(bold := false, faint := false)
    case Attr(23) => s.(italic := false)
    case Attr(24) => s.(underline := false)
    case Attr(27) => s.(reverse := false)
    case Attr(39) => s.(fg := DefaultColor)
    case Attr(49) => s.(bg := DefaultColor)
    case Attr(_) => s
  }

  function ApplyOps(s: Style, ops: seq<SgrOp>): Style
    decreases ops
  {
    if ops == [] then s else ApplyOps(ApplyOp(s, ops[0]), ops[1..])
  }

  /** The operations a parameter list names, left to right. */
  function SgrOps(ps: seq<nat>): seq<SgrOp> {
    if ps == [] then []
    else if |ps| >= 3 && ps[0] == 38 && ps[1] == 5 then [Fg(ps[2])] + SgrOps(ps[3..])
    else if |ps| >= 3 && ps[0] == 48 && ps[1] == 5 then [Bg(ps[2])] + SgrOps(ps[3..])
    else [Attr(ps[0])] + SgrOps(ps[1..])
  }

  /** Select graphic rendition. */
  function ApplySgr(s: Style, ps: seq<nat>): Style {
    ApplyOps(s, SgrOps(ps))
  }

  // ---------------------------------------------------------------- the machine

  /** A cursor put aside, with its pen. */
  datatype Mark = Mark(cx: nat, cy: nat, pending: bool, pen: Style)

  const HOME := Mark(0, 0, false, PLAIN)

  datatype Term = Term(
    w: nat, h: nat,
    cap: nat,              // history depth
    alt: bool,             // the alternate screen is showing
    history: seq<Row>,     // lines scrolled off the main screen, oldest first
    screen: seq<Row>,
    saved: seq<Row>,       // the main screen while the alternate one shows
    cx: nat, cy: nat,
    pending: bool,         // a glyph was printed in the last column; the next one wraps
    pen: Style,
    modes: set<nat>,
    defaults: set<nat>,    // the modes that were on at the start
    top: nat, bottom: nat, // the first and last row that scroll
    mark: Mark             // the cursor saved last
  )

  function Fresh(w: nat, h: nat, cap: nat, defaults: set<nat>): (t: Term)
    requires w > 0 && h > 0 && !AltIn(defaults)
    ensures TermOk(t)
  {
    BlankRowOk(w, PLAIN);
    var blank := seq(h, _ => BlankRow(w, PLAIN));
    Term(w, h, cap, false, [], blank, blank, 0, 0, false, PLAIN, defaults, defaults, 0, h - 1, HOME)
  }

  predicate ScreenOk(screen: seq<Row>, w: nat, h: nat) {
    |screen| == h && forall i :: 0 <= i < h ==> |screen[i]| == w && RowOk(screen[i])
  }

  predicate HistoryOk(history: seq<Row>) {
    forall i :: 0 <= i < |history| ==> RowOk(history[i])
  }

  predicate TermOk(t: Term) {
    && t.w > 0 && t.h > 0 && !AltIn(t.defaults)
    && t.cx < t.w && t.cy < t.h && (t.pending ==> t.cx == t.w - 1)
    && t.top <= t.bottom < t.h
    && t.mark.cx < t.w && t.mark.cy < t.h && (t.mark.pending ==> t.mark.cx == t.w - 1)
    && ScreenOk(t.screen, t.w, t.h)
    && ScreenOk(t.saved, t.w, t.h)
    && |t.history| <= t.cap
    && HistoryOk(t.history)
  }

  /** Every row scrolls. */
  predicate FullRegion(t: Term) {
    t.top == 0 && t.bottom + 1 == t.h
  }

  const AUTOWRAP: nat := 7

  /** Text that reaches the last column goes on in the next row. */
  predicate Wraps(t: Term) {
    AUTOWRAP in t.modes
  }

  function Push(history: seq<Row>, row: Row, cap: nat): (r: seq<Row>)
    ensures |r| <= cap
  {
    var all := history + [row];
    if |all| > cap then all[|all| - cap..] else all
  }

  /** The rows with those from top to bottom moved up by one. */
  function ScrollRows(rows: seq<Row>, top: nat, bottom: nat, fill: Row): (r: seq<Row>)
    requires top <= bottom < |rows|
    ensures |r| == |rows|
    ensures forall i :: 0 <= i < |r| ==>
              r[i] == if top <= i < bottom then rows[i + 1] else if i == bottom then fill else rows[i]
  {
    rows[..top] + rows[top + 1..bottom + 1] + [fill] + rows[bottom + 1..]
  }

  /** Lines that scroll off the top of the main screen become history. */
  function Scroll(t: Term): Term
    requires TermOk(t)
  {
    t.(history := if t.alt || t.top > 0 then t.history else Push(t.history, t.screen[0], t.cap),
       screen := ScrollRows(t.screen, t.top, t.bottom, BlankRow(t.w, PLAIN.(bg := t.pen.bg))),
       pending := false)
  }

  /** Down one row, scrolling at the end of the region. */
  function LineFeed(t: Term): Term
    requires TermOk(t)
  {
    if t.cy == t.bottom then Scroll(t)
    else t.(cy := if t.cy + 1 < t.h then t.cy + 1 else t.cy, pending := false)
  }

  function CarriageReturn(t: Term): Term
    requires TermOk(t)
  {
    t.(cx := 0, pending := false)
  }

  function Wrap(t: Term): Term
    requires TermOk(t)
  {
    LineFeed(CarriageReturn(t))
  }

  /** Write at the cursor and advance; filling the last column arms the deferred wrap. */
  function Overwrite(t: Term, s: Sym): Term
    requires TermOk(t) && s.Cols() in {1, 2} && t.cx + s.Cols() <= t.w
  {
    var row := Put(t.screen[t.cy], t.cx, s, t.pen);
    var x := t.cx + s.Cols();
    t.(screen := t.screen[t.cy := row],
       cx := if x < t.w then x else t.w - 1,
       pending := x >= t.w && Wraps(t))
  }

  /** Where a glyph of n columns goes: at the cursor, on the next row, or over the last columns. */
  function Place(t: Term, n: nat): Term
    requires TermOk(t) && 0 < n <= t.w
  {
    if !t.pending && t.cx + n <= t.w then t
    else if Wraps(t) then Wrap(t)
    else t.(cx := t.w - n, pending := false)
  }

  function Print(t: Term, s: Sym): Term
    requires TermOk(t) && s.Cols() in {1, 2}
  {
    if s.Cols() > t.w then t
    else
      PlaceOk(t, s.Cols());
      Overwrite(Place(t, s.Cols()), s)
  }

  /** Up, but not out of the region. */
  function Up(t: Term, n: nat): Term
    requires TermOk(t)
  {
    var k := if n == 0 then 1 else n;
    var limit := if t.top <= t.cy then t.top else 0;
    t.(cy := if limit + k <= t.cy then t.cy - k else limit, pending := false)
  }

  function Forward(t: Term, n: nat): Term
    requires TermOk(t)
  {
    var k := if n == 0 then 1 else n;
    t.(cx := if t.cx + k < t.w then t.cx + k else t.w - 1, pending := false)
  }

  /** Row and column count from 1. */
  function Goto(t: Term, row: nat, col: nat): Term
    requires TermOk(t)
  {
    t.(cy := if row == 0 then 0 else if row <= t.h then row - 1 else t.h - 1,
       cx := if col == 0 then 0 else if col <= t.w then col - 1 else t.w - 1,
       pending := false)
  }

  /** The rows that scroll, counted from 1; 0 stands for the first and the last one. */
  function SetRegion(t: Term, first: nat, last: nat): Term
    requires TermOk(t)
  {
    var top := if first == 0 then 0 else first - 1;
    var bottom := if last == 0 || last > t.h then t.h - 1 else last - 1;
    if top < bottom then t.(top := top, bottom := bottom, cx := 0, cy := 0, pending := false) else t
  }

  /** Erase to the end of the line. */
  function EraseLine(t: Term): Term
    requires TermOk(t)
  {
    t.(screen := t.screen[t.cy := Erase(t.screen[t.cy], t.cx, PLAIN.(bg := t.pen.bg))], pending := false)
  }

  function SaveCursor(t: Term): Term {
    t.(mark := Mark(t.cx, t.cy, t.pending, t.pen))
  }

  function RestoreCursor(t: Term): Term {
    t.(cx := t.mark.cx, cy := t.mark.cy, pending := t.mark.pending, pen := t.mark.pen)
  }

  predicate IsAltMode(n: nat) {
    n == 47 || n == 1047 || n == 1049
  }

  predicate AltIn(modes: set<nat>) {
    47 in modes || 1047 in modes || 1049 in modes
  }

  /** Set, these modes save the cursor, reset they restore it. */
  predicate SavesCursor(n: nat) {
    n == 1048 || n == 1049
  }

  /** The cursor is saved before the screen is switched, and restored after it was switched back. */
  function SetMode(t: Term, n: nat): Term {
    var u := t.(modes := t.modes + {n}, mark := if SavesCursor(n) then SaveCursor(t).mark else t.mark);
    if IsAltMode(n) && !t.alt
    then u.(alt := true, saved := t.screen, screen := seq(t.h, _ => BlankRow(t.w, PLAIN)))
    else u
  }

  function SwitchBack(t: Term, n: nat): Term {
    var u := t.(modes := t.modes - {n});
    if IsAltMode(n) && t.alt then u.(alt := false, screen := t.saved) else u
  }

  function ResetMode(t: Term, n: nat): Term {
    if SavesCursor(n) then RestoreCursor(SwitchBack(t, n)) else SwitchBack(t, n)
  }

  function SetModes(t: Term, ns: seq<nat>): Term
    decreases ns
  {
    if ns == [] then t else SetModes(SetMode(t, ns[0]), ns[1..])
  }

  function ResetModes(t: Term, ns: seq<nat>): Term
    decreases ns
  {
    if ns == [] then t else ResetModes(ResetMode(t, ns[0]), ns[1..])
  }

  /** A mode number. */
  type Mode = n: nat | n <= MAX_INT

  /** A parameter read so far; None while it has no digits. */
  type Param = Option<nat>

  /** A missing parameter counts as 0. */
  function Values(ps: seq<Param>): (r: seq<nat>)
    ensures |r| == |ps|
  {
    seq(|ps|, k requires 0 <= k < |ps| => if ps[k].Some? then ps[k].value else 0)
  }

  /** The modes a sequence names: missing parameters and numbers beyond an int name none. */
  function Named(ps: seq<Param>): seq<nat> {
    if ps == [] then []
    else (if ps[0].Some? && ps[0].value <= MAX_INT then [ps[0].value] else []) + Named(ps[1..])
  }

  function DispatchPrivate(t: Term, ps: seq<Param>, final: Sym): Term {
    if final == SM then SetModes(t, Named(ps)) else if final == RM then ResetModes(t, Named(ps)) else t
  }

  function Dispatch(t: Term, ps: seq<nat>, final: Sym): Term
    requires TermOk(t) && ps != []
  {
    var second := if |ps| > 1 then ps[1] else 0;
    if final == CUU then Up(t, ps[0])
    else if final == CUF then Forward(t, ps[0])
    else if final == CUP then Goto(t, ps[0], second)
    else if final == DECSTBM then SetRegion(t, ps[0], second)
    else if final == SGR then t.(pen := ApplySgr(t.pen, ps))
    else if final == EL && ps == [0] then EraseLine(t)
    else t
  }

  // ---------------------------------------------------------------- characters of several bytes

  /** Bytes of a character that starts with this one; 0 if none does. */
  function Need(lead: nat): nat {
    if 0xc2 <= lead < 0xe0 then 2 else if 0xe0 <= lead < 0xf0 then 3 else if 0xf0 <= lead < 0xf5 then 4 else 0
  }

  predicate IsContinuation(s: Sym) {
    s.Byte? && 0x80 <= s.code < 0xc0
  }

  /** The code point but for its last six bits. */
  function Block(head: seq<nat>): nat
    requires head != []
    decreases |head|
  {
    var last := |head| - 1;
    if last == 0 then (if head[0] < 0xe0 then head[0] % 32 else if head[0] < 0xf0 then head[0] % 16 else head[0] % 8)
    else 64 * Block(head[..last]) + head[last] % 64
  }

  /** East Asian wide characters and pictographs, by blocks of 64. */
  predicate IsWide(block: nat) {
    var c := 64 * block;
    || 0x1100 <= c < 0x1140 || 0x2e80 <= c < 0xa4c0 || 0xac00 <= c < 0xd780 || 0xf900 <= c < 0xfb00
    || 0xff00 <= c < 0xff40 || 0x1f300 <= c < 0x1f680 || 0x1f900 <= c < 0x1fa00 || 0x20000 <= c < 0x40000
  }

  /** The character of these bytes; its text keeps them one by one. */
  function Character(head: seq<nat>, last: nat): (s: Sym)
    requires head != [] && (forall k :: 0 <= k < |head| ==> head[k] < 0x100) && last < 0x100
    ensures s.Cols() in {1, 2}
  {
    var bytes := head + [last];
    Cluster(seq(|bytes|, k requires 0 <= k < |bytes| => bytes[k] as char), if IsWide(Block(head)) then 2 else 1)
  }

  // ---------------------------------------------------------------- the parser

  datatype Parser =
    | Ground
    | Partial(bytes: seq<nat>)                        // the first bytes of a character
    | Escape
    | Designate                                       // after ESC and an intermediate byte
    | Csi(isPrivate: bool, params: seq<Param>)        // the last parameter is still being read
    | CsiIgnore                                       // a sequence the machine has no use for
    | Text                                            // a title or other string, up to its end

  predicate ParserOk(p: Parser) {
    match p
    case Partial(bytes) => 0 < |bytes| < Need(bytes[0]) && forall k :: 0 <= k < |bytes| ==> bytes[k] < 0x100
    case Csi(_, ps) => ps != []
    case _ => true
  }

  /** What a symbol makes the terminal do. */
  datatype Action =
    | Ignore
    | Show(glyph: Sym)
    | NewLine
    | Return
    | Save
    | Restore
    | Control(isPrivate: bool, params: seq<Param>, final: Sym)

  predicate ActionOk(a: Action) {
    (a.Show? ==> a.glyph.Cols() in {1, 2}) && (a.Control? ==> a.params != [])
  }

  datatype Parsed = Parsed(parser: Parser, action: Action)

  /** A control character, which does the same inside a sequence as outside. */
  function Execute(s: Sym): Action {
    if s == CR then Return else if s == LF then NewLine else Ignore
  }

  function OnGround(s: Sym): Parsed {
    if s.Cols() in {1, 2} then Parsed(Ground, Show(s))
    else if s.Byte? && Need(s.code) > 0 then Parsed(Partial([s.code]), Ignore)
    else Parsed(Ground, Ignore)
  }

  /** Inside a character; one that is not completed prints nothing. */
  function InCharacter(bytes: seq<nat>, s: Sym): Parsed
    requires ParserOk(Partial(bytes))
  {
    if !IsContinuation(s) then OnGround(s)
    else if |bytes| + 1 < Need(bytes[0]) then Parsed(Partial(bytes + [s.code]), Ignore)
    else Parsed(Ground, Show(Character(bytes, s.code)))
  }

  function AfterEscape(s: Sym): Parsed {
    if s == BRACKET then Parsed(Csi(false, [None]), Ignore)
    else if s.Byte? && s.code in {0x50, 0x58, 0x5d, 0x5e, 0x5f} then Parsed(Text, Ignore)
    else if s.IsIntermediate() then Parsed(Designate, Ignore)
    else Parsed(Ground, if s == DECSC then Save else if s == DECRC then Restore else Ignore)
  }

  function InSequence(isPrivate: bool, ps: seq<Param>, s: Sym): Parsed
    requires ps != []
  {
    if s.IsDigit() then Parsed(Csi(isPrivate, AddDigit(ps, s.code - 0x30)), Ignore)
    else if s == SEMICOLON then Parsed(Csi(isPrivate, ps + [None]), Ignore)
    else if s == QUESTION && !isPrivate && ps == [None] then Parsed(Csi(true, [None]), Ignore)
    else if IsFinalSym(s) then Parsed(Ground, Control(isPrivate, ps, s))
    else Parsed(if s.Byte? && s.code < 0x40 then CsiIgnore else Ground, Ignore)
  }

  function InState(p: Parser, s: Sym): (r: Parsed)
    requires ParserOk(p)
    ensures ParserOk(r.parser) && ActionOk(r.action)
  {
    match p
    case Ground => OnGround(s)
    case Partial(bytes) => InCharacter(bytes, s)
    case Escape => AfterEscape(s)
    case Designate => Parsed(if s.IsIntermediate() then Designate else Ground, Ignore)
    case Csi(isPrivate, ps) => InSequence(isPrivate, ps, s)
    case CsiIgnore => Parsed(if s.Byte? && s.code < 0x40 then CsiIgnore else Ground, Ignore)
    case Text => Parsed(if s == BEL then Ground else Text, Ignore)
  }

  /** Control characters are obeyed inside a sequence, CAN and SUB break it off, and ESC starts another. */
  function Parse(p: Parser, s: Sym): (r: Parsed)
    requires ParserOk(p)
    ensures ParserOk(r.parser) && ActionOk(r.action)
  {
    if s == ESCAPE then Parsed(Escape, Ignore)
    else if s == CAN || s == SUB then Parsed(Ground, Ignore)
    else if s.IsControl() && !p.Text? then Parsed(if p.Partial? then Ground else p, Execute(s))
    else InState(p, s)
  }

  function Perform(t: Term, a: Action): (r: Term)
    requires TermOk(t) && ActionOk(a)
  {
    match a
    case Ignore => t
    case Show(s) => Print(t, s)
    case NewLine => LineFeed(t)
    case Return => CarriageReturn(t)
    case Save => SaveCursor(t)
    case Restore => RestoreCursor(t)
    case Control(isPrivate, ps, final) =>
      if isPrivate then DispatchPrivate(t, ps, final) else Dispatch(t, Values(ps), final)
  }

  datatype Vt = Vt(term: Term, parser: Parser)

  predicate VtOk(v: Vt) {
    TermOk(v.term) && ParserOk(v.parser)
  }

  function Step(v: Vt, s: Sym): (r: Vt)
    requires VtOk(v)
    ensures VtOk(r)
  {
    var p := Parse(v.parser, s);
    PerformOk(v.term, p.action);
    Vt(Perform(v.term, p.action), p.parser)
  }

  function AddDigit(ps: seq<Param>, d: nat): (r: seq<Param>)
    requires ps != []
    ensures r != []
  {
    var last := |ps| - 1;
    ps[last := Some(10 * (if ps[last].Some? then ps[last].value else 0) + d)]
  }

  function Feed(v: Vt, stream: seq<Sym>): (r: Vt)
    requires VtOk(v)
    ensures VtOk(r)
    decreases stream
  {
    if stream == [] then v else Feed(Step(v, stream[0]), stream[1..])
  }

  lemma {:induction false} FeedConcat(v: Vt, a: seq<Sym>, b: seq<Sym>)
    requires VtOk(v)
    ensures Feed(v, a + b) == Feed(Feed(v, a), b)
    decreases a
  {
    if a == [] {
      assert a + b == b;
    } else {
      assert (a + b)[1..] == a[1..] + b;
      FeedConcat(Step(v, a[0]), a[1..], b);
    }
  }

  lemma FeedOne(v: Vt, s: Sym)
    requires VtOk(v)
    ensures Feed(v, [s]) == Step(v, s)
  {
    assert [s][1..] == [];
  }

  lemma FeedTwo(v: Vt, a: Sym, b: Sym)
    requires VtOk(v)
    ensures Feed(v, [a, b]) == Step(Step(v, a), b)
  {
    assert [a, b] == [a] + [b];
    FeedConcat(v, [a], [b]);
    FeedOne(v, a);
    FeedOne(Step(v, a), b);
  }

  // ---------------------------------------------------------------- every operation keeps the terminal well formed

  lemma BlankRowOk(w: nat, style: Style)
    ensures RowOk(BlankRow(w, style)) && |BlankRow(w, style)| == w
  {
  }

  lemma LineFeedOk(t: Term)
    requires TermOk(t)
    ensures TermOk(LineFeed(t))
  {
    BlankRowOk(t.w, PLAIN.(bg := t.pen.bg));
    assert HistoryOk(t.history + [t.screen[0]]);
  }

  lemma PlaceOk(t: Term, n: nat)
    requires TermOk(t) && 0 < n <= t.w
    ensures TermOk(Place(t, n)) && !Place(t, n).pending && Place(t, n).cx + n <= Place(t, n).w == t.w
  {
    LineFeedOk(CarriageReturn(t));
  }

  lemma PrintOk(t: Term, s: Sym)
    requires TermOk(t) && s.Cols() in {1, 2}
    ensures TermOk(Print(t, s))
  {
    if s.Cols() <= t.w {
      PlaceOk(t, s.Cols());
      var u := Place(t, s.Cols());
      PutOk(u.screen[u.cy], u.cx, s, u.pen);
    }
  }

  /** A full-screen scroll drops the first row and appends one. */
  lemma ScrollAll(rows: seq<Row>, fill: Row)
    requires rows != []
    ensures ScrollRows(rows, 0, |rows| - 1, fill) == rows[1..] + [fill]
  {
  }

  lemma SetModeOk(t: Term, n: nat)
    requires TermOk(t)
    ensures TermOk(SetMode(t, n))
  {
    BlankRowOk(t.w, PLAIN);
  }

  lemma ResetModeOk(t: Term, n: nat)
    requires TermOk(t)
    ensures TermOk(ResetMode(t, n))
  {
  }

  lemma {:induction false} SetModesOk(t: Term, ns: seq<nat>)
    requires TermOk(t)
    ensures TermOk(SetModes(t, ns)) && TermOk(ResetModes(t, ns))
    decreases ns
  {
    if ns != [] {
      SetModeOk(t, ns[0]);
      ResetModeOk(t, ns[0]);
      SetModesOk(SetMode(t, ns[0]), ns[1..]);
      SetModesOk(ResetMode(t, ns[0]), ns[1..]);
    }
  }

  lemma EraseLineOk(t: Term)
    requires TermOk(t)
    ensures TermOk(EraseLine(t))
  {
    EraseOk(t.screen[t.cy], t.cx, PLAIN.(bg := t.pen.bg));
  }

  lemma MoveOk(t: Term, n: nat, m: nat)
    requires TermOk(t)
    ensures TermOk(Up(t, n)) && TermOk(Forward(t, n)) && TermOk(Goto(t, n, m))
  {
  }

  lemma SetRegionOk(t: Term, n: nat, m: nat)
    requires TermOk(t)
    ensures TermOk(SetRegion(t, n, m))
  {
  }

  lemma DispatchOk(t: Term, ps: seq<nat>, final: Sym)
    requires TermOk(t) && ps != []
    ensures TermOk(Dispatch(t, ps, final))
  {
    var second := if |ps| > 1 then ps[1] else 0;
    EraseLineOk(t);
    MoveOk(t, ps[0], second);
    SetRegionOk(t, ps[0], second);
  }

  lemma PerformOk(t: Term, a: Action)
    requires TermOk(t) && ActionOk(a)
    ensures TermOk(Perform(t, a))
  {
    match a
    case Show(s) => PrintOk(t, s);
    case NewLine => LineFeedOk(t);
    case Control(isPrivate, ps, final) =>
      SetModesOk(t, Named(ps));
      DispatchOk(t, Values(ps), final);
    case _ =>
  }

  // ---------------------------------------------------------------- printing control sequences

  function NumberSyms(n: nat): seq<Sym> {
    DigitSyms(Digits(n))
  }

  function DigitSyms(ds: seq<digit>): (s: seq<Sym>)
    ensures |s| == |ds|
  {
    seq(|ds|, k requires 0 <= k < |ds| => var d: int := ds[k]; Byte(0x30 + d))
  }

  function ParamSyms(ps: seq<nat>): seq<Sym>
    requires ps != []
  {
    if |ps| == 1 then NumberSyms(ps[0])
    else NumberSyms(ps[0]) + [SEMICOLON] + ParamSyms(ps[1..])
  }

  /** ESC [ p1 ; p2 ... final, with the `?` of a private sequence. */
  function CsiSyms(isPrivate: bool, ps: seq<nat>, final: Sym): seq<Sym> {
    [ESCAPE, BRACKET] + (if isPrivate then [QUESTION] else [])
    + (if ps == [] then [] else ParamSyms(ps)) + [final]
  }

  /** A byte that ends a control sequence. */
  predicate IsFinalSym(s: Sym) {
    s.Byte? && 0x40 <= s.code < 0x7f
  }

  /** The parameters as printed. */
  function Given(ps: seq<nat>): (r: seq<Param>)
    ensures |r| == |ps|
  {
    seq(|ps|, k requires 0 <= k < |ps| => Some(ps[k]))
  }

  /** The parser after a stream during which the terminal does nothing; None if it does something. */
  function Swallow(p: Parser, stream: seq<Sym>): (r: Option<Parser>)
    requires ParserOk(p)
    ensures r.Some? ==> ParserOk(r.value)
    decreases stream
  {
    if stream == [] then Some(p)
    else
      var r := Parse(p, stream[0]);
      if r.action.Ignore? then Swallow(r.parser, stream[1..]) else None
  }

  lemma {:induction false} SwallowConcat(p: Parser, a: seq<Sym>, b: seq<Sym>)
    requires ParserOk(p) && Swallow(p, a).Some?
    ensures Swallow(p, a + b) == Swallow(Swallow(p, a).value, b)
    decreases a
  {
    if a == [] {
      AppendNothing(b);
    } else {
      TailOfAppend(a, b);
      SwallowConcat(Parse(p, a[0]).parser, a[1..], b);
    }
  }

  lemma SwallowOne(p: Parser, s: Sym)
    requires ParserOk(p) && Parse(p, s).action.Ignore?
    ensures Swallow(p, [s]) == Some(Parse(p, s).parser)
  {
    assert [s][1..] == [];
  }

  lemma {:induction false} FeedSwallow(v: Vt, stream: seq<Sym>)
    requires VtOk(v) && Swallow(v.parser, stream).Some?
    ensures Feed(v, stream) == Vt(v.term, Swallow(v.parser, stream).value)
    decreases stream
  {
    if stream != [] {
      FeedSwallow(v.(parser := Parse(v.parser, stream[0]).parser), stream[1..]);
    }
  }

  /** The parameter after one more digit. */
  function NextDigit(acc: Param, d: nat): Param {
    Some(10 * (if acc.Some? then acc.value else 0) + d)
  }

  lemma ParseDigit(p: bool, pre: seq<Param>, acc: Param, d: nat)
    requires d < 10
    ensures Parse(Csi(p, pre + [acc]), Byte(0x30 + d)) == Parsed(Csi(p, pre + [NextDigit(acc, d)]), Ignore)
  {
    assert AddDigit(pre + [acc], d) == pre + [NextDigit(acc, d)];
  }

  lemma DigitSymsHead(ds: seq<digit>)
    requires ds != []
    ensures var d: nat := ds[0]; DigitSyms(ds) == [Byte(0x30 + d)] + DigitSyms(ds[1..])
  {
  }

  lemma {:induction false} SwallowDigits(p: bool, pre: seq<Param>, acc: Param, ds: seq<digit>)
    requires ds != []
    ensures Swallow(Csi(p, pre + [acc]), DigitSyms(ds))
         == Some(Csi(p, pre + [Some(Accumulate(if acc.Some? then acc.value else 0, ds))]))
    decreases ds
  {
    var d: nat := ds[0];
    DigitSymsHead(ds);
    ParseDigit(p, pre, acc, d);
    SwallowOne(Csi(p, pre + [acc]), Byte(0x30 + d));
    SwallowConcat(Csi(p, pre + [acc]), [Byte(0x30 + d)], DigitSyms(ds[1..]));
    if |ds| > 1 {
      SwallowDigits(p, pre, NextDigit(acc, d), ds[1..]);
    }
  }

  lemma GivenHead(ps: seq<nat>)
    requires ps != []
    ensures Given(ps) == [Some(ps[0])] + Given(ps[1..])
  {
  }

  lemma {:induction false} SwallowParams(p: bool, pre: seq<Param>, ps: seq<nat>)
    requires ps != []
    ensures Swallow(Csi(p, pre + [None]), ParamSyms(ps)) == Some(Csi(p, pre + Given(ps)))
    decreases ps
  {
    var start := Csi(p, pre + [None]);
    ReadBack(ps[0]);
    SwallowDigits(p, pre, None, Digits(ps[0]));
    GivenHead(ps);
    if |ps| == 1 {
      AppendNothing([Some(ps[0])]);
    } else {
      var next := pre + [Some(ps[0])];
      SwallowOne(Csi(p, next), SEMICOLON);
      SwallowConcat(start, NumberSyms(ps[0]), [SEMICOLON]);
      SwallowConcat(start, NumberSyms(ps[0]) + [SEMICOLON], ParamSyms(ps[1..]));
      SwallowParams(p, next, ps[1..]);
      AppendAssoc(pre, [Some(ps[0])], Given(ps[1..]));
    }
  }

  /** The introducer of a control sequence, in any state. */
  lemma SwallowLeadIn(p: Parser, isPrivate: bool)
    requires ParserOk(p)
    ensures Swallow(p, [ESCAPE, BRACKET] + (if isPrivate then [QUESTION] else [])) == Some(Csi(isPrivate, [None]))
  {
    SwallowOne(p, ESCAPE);
    SwallowOne(Escape, BRACKET);
    SwallowConcat(p, [ESCAPE], [BRACKET]);
    assert [ESCAPE] + [BRACKET] == [ESCAPE, BRACKET];
    SwallowOne(Csi(false, [None]), QUESTION);
    SwallowConcat(p, [ESCAPE, BRACKET], if isPrivate then [QUESTION] else []);
  }

  lemma SwallowBody(isPrivate: bool, ps: seq<nat>)
    ensures Swallow(Csi(isPrivate, [None]), if ps == [] then [] else ParamSyms(ps))
         == Some(Csi(isPrivate, if ps == [] then [None] else Given(ps)))
  {
    if ps != [] {
      var none: seq<Param> := [];
      assert none + [None] == [None] && none + Given(ps) == Given(ps);
      SwallowParams(isPrivate, none, ps);
    }
  }

  /** A printed control sequence reaches its final byte with its parameters read. */
  lemma FeedBody(t: Term, isPrivate: bool, ps: seq<nat>, final: Sym)
    requires TermOk(t) && IsFinalSym(final)
    ensures Feed(Vt(t, Ground), CsiSyms(isPrivate, ps, final))
         == Step(Vt(t, Csi(isPrivate, if ps == [] then [None] else Given(ps))), final)
  {
    var lead := [ESCAPE, BRACKET] + (if isPrivate then [QUESTION] else []);
    var body := if ps == [] then [] else ParamSyms(ps);
    SwallowLeadIn(Ground, isPrivate);
    SwallowBody(isPrivate, ps);
    SwallowConcat(Ground, lead, body);
    FeedSwallow(Vt(t, Ground), lead + body);
    FeedConcat(Vt(t, Ground), lead + body, [final]);
    FeedOne(Vt(t, Csi(isPrivate, if ps == [] then [None] else Given(ps))), final);
  }

  /** A printed control sequence is read back as the operation it names. */
  lemma FeedCsi(t: Term, ps: seq<nat>, final: Sym)
    requires TermOk(t) && IsFinalSym(final)
    ensures Feed(Vt(t, Ground), CsiSyms(false, ps, final))
         == Vt(Dispatch(t, if ps == [] then [0] else ps, final), Ground)
  {
    FeedBody(t, false, ps, final);
    assert Values(if ps == [] then [None] else Given(ps)) == if ps == [] then [0] else ps;
  }

  lemma SwitchOne(t: Term, n: nat)
    requires n <= MAX_INT
    ensures DispatchPrivate(t, [Some(n)], SM) == SetMode(t, n) && DispatchPrivate(t, [Some(n)], RM) == ResetMode(t, n)
  {
    assert [Some(n)][1..] == [] && [n][1..] == [];
    assert Named([Some(n)]) == [n] + Named([]) == [n];
    assert SetModes(t, [n]) == SetModes(SetMode(t, n), []) && ResetModes(t, [n]) == ResetModes(ResetMode(t, n), []);
  }

  /** The final byte of a mode sequence. */
  lemma StepSwitch(t: Term, n: nat, on: bool)
    requires TermOk(t) && n <= MAX_INT
    ensures Step(Vt(t, Csi(true, [Some(n)])), if on then SM else RM)
         == Vt(if on then SetMode(t, n) else ResetMode(t, n), Ground)
  {
    SwitchOne(t, n);
  }

  /** A printed mode sequence sets or resets the mode it names. */
  lemma FeedMode(t: Term, n: nat, on: bool)
    requires TermOk(t) && n <= MAX_INT
    ensures Feed(Vt(t, Ground), CsiSyms(true, [n], if on then SM else RM))
         == Vt(if on then SetMode(t, n) else ResetMode(t, n), Ground)
    ensures TermOk(if on then SetMode(t, n) else ResetMode(t, n))
  {
    FeedBody(t, true, [n], if on then SM else RM);
    assert Given([n]) == [Some(n)];
    StepSwitch(t, n, on);
    SetModeOk(t, n);
    ResetModeOk(t, n);
  }
}
