/**
 Drawing the cursor: one cell of a row of styled text is wrapped in reverse video. A row is
 a string of characters in which control sequences (section 5.4 of ECMA-48) stand between
 the printable ones.
 */
module CursorSplice {
  import opened Common
  import T = Terminal

  const ESC_CHAR := '\U{1b}'
  const REVERSE_ON := [ESC_CHAR] + "[7m"
  const REVERSE_OFF := [ESC_CHAR] + "[27m"

  datatype Token = Escape(text: string) | Glyph(ch: char)

  const ON := Escape(REVERSE_ON)
  const OFF := Escape(REVERSE_OFF)

  predicate IsFinal(c: char) {
    '@' <= c <= '~'
  }

  // ---------------------------------------------------------------- rows as tokens

  /** How many characters stand before the next final one. */
  function BeforeFinal(s: string): (n: nat)
    ensures n <= |s| && (n < |s| ==> IsFinal(s[n]))
    ensures forall k :: 0 <= k < n ==> !IsFinal(s[k])
  {
    if s == [] || IsFinal(s[0]) then 0 else 1 + BeforeFinal(s[1..])
  }

  function EscapeLength(s: string): (n: nat)
    requires s != [] && s[0] == ESC_CHAR
    ensures 1 <= n <= |s|
  {
    if |s| >= 2 && s[1] == '[' then
      var n := 2 + BeforeFinal(s[2..]);
      if n < |s| then n + 1 else n
    else 1
  }

  function Tokenize(row: string): seq<Token> {
    if row == [] then []
    else if row[0] == ESC_CHAR then
      var n := EscapeLength(row);
      [Escape(row[..n])] + Tokenize(row[n..])
    else [Glyph(row[0])] + Tokenize(row[1..])
  }

  function TokenText(t: Token): string {
    match t
    case Escape(text) => text
    case Glyph(c) => [c]
  }

  function Text(ts: seq<Token>): string {
    if ts == [] then [] else TokenText(ts[0]) + Text(ts[1..])
  }

  /** Printable columns. */
  function Columns(ts: seq<Token>): (n: nat)
    ensures n <= |ts|
  {
    if ts == [] then 0 else (if ts[0].Glyph? then 1 else 0) + Columns(ts[1..])
  }

  function Spaces(n: nat): (s: seq<Token>)
    ensures |s| == n
  {
    seq(n, _ => Glyph(' '))
  }

  function Reversed(text: string): string {
    REVERSE_ON + text + REVERSE_OFF
  }

  /** A token shown as the cursor. */
  function Cursor(t: Token): (r: seq<Token>)
    ensures |r| == 3
  {
    [ON, t, OFF]
  }

  lemma CursorText(t: Token)
    ensures Text(Cursor(t)) == Reversed(TokenText(t))
  {
    var c := Cursor(t);
    assert c[1..][1..] == [OFF];
    assert Text([OFF]) == REVERSE_OFF + Text([]);
    assert c[1..][0] == t;
  }

  lemma CursorColumns(t: Token)
    requires t.Glyph?
    ensures Columns(Cursor(t)) == 1 && Columns([t]) == 1
  {
    var c := Cursor(t);
    assert c[1..][1..] == [OFF];
    assert c[1..][0] == t;
    assert Columns([OFF]) == 0;
  }

  /** The rest of a row, `vis` columns in, with the cursor spliced in at column `col`. */
  function Splice(ts: seq<Token>, vis: nat, col: int): seq<Token>
    decreases ts
  {
    if ts == [] then
      if vis <= col then Spaces(col - vis) + Cursor(Glyph(' ')) else []
    else if ts[0].Escape? then [ts[0]] + Splice(ts[1..], vis, col)
    else (if vis == col then Cursor(ts[0]) else [ts[0]]) + Splice(ts[1..], vis + 1, col)
  }

  method ReverseCellAt(row: string, col: int) returns (b: string)
    ensures b == Text(Splice(Tokenize(row), 0, col))
  {
    b := "";
    var vis: nat := 0;
    var i := 0;
    ghost var goal := Rest(row, 0, 0, col);
    AppendNothing(row);
    while i < |row|
      invariant 0 <= i <= |row|
      invariant b + Rest(row, i, vis, col) == goal
    {
      ghost var before := b;
      if row[i] == ESC_CHAR {
        var j := EscapeEnd(row, i);
        EscapeStep(row, i, j, vis, col);
        AppendAssoc(b, row[i..j], Rest(row, j, vis, col));
        b := b + row[i..j];
        i := j;
      } else {
        GlyphStep(row, i, vis, col);
        var piece := row[i..i + 1];
        if vis == col {
          piece := Reversed(piece);
        }
        AppendAssoc(b, piece, Rest(row, i + 1, vis + 1, col));
        b := b + piece;
        vis := vis + 1;
        i := i + 1;
      }
    }
    EndStep(row, vis, col);
    assert row[i..] == row[|row|..];
    AppendNothing(b);
    if vis <= col {
      AppendAssoc(b, SpaceText(col - vis), Reversed(" "));
      b := b + SpaceText(col - vis);
      b := b + Reversed(" ");
    }
  }

  /** What is still to be written at position i. */
  ghost function Rest(row: string, i: nat, vis: nat, col: int): string
    requires i <= |row|
  {
    Text(Splice(Tokenize(row[i..]), vis, col))
  }

  /** Passes over the escape sequence at i: up to its first final character, or ESC alone if no `[` follows. */
  method EscapeEnd(row: string, i: nat) returns (j: nat)
    requires i < |row| && row[i] == ESC_CHAR
    ensures i < j <= |row| && j - i == EscapeLength(row[i..])
  {
    ghost var rest := row[i..];
    j := i + 1;
    if j < |row| && row[j] == '[' {
      j := j + 1;
      while j < |row| && !IsFinal(row[j])
        invariant i + 2 <= j <= |row|
        invariant forall k :: i + 2 <= k < j ==> !IsFinal(row[k])
      {
        j := j + 1;
      }
      FirstFinal(rest[2..], j - i - 2);
      if j < |row| {
        j := j + 1;
      }
    }
  }

  lemma EscapeStep(row: string, i: nat, j: nat, vis: nat, col: int)
    requires i < j <= |row| && row[i] == ESC_CHAR && j - i == EscapeLength(row[i..])
    ensures Rest(row, i, vis, col) == row[i..j] + Rest(row, j, vis, col)
  {
    var rest := row[i..];
    assert rest[..j - i] == row[i..j] && rest[j - i..] == row[j..];
    TextStep([], [Escape(row[i..j])], Splice(Tokenize(row[j..]), vis, col));
  }

  lemma GlyphStep(row: string, i: nat, vis: nat, col: int)
    requires i < |row| && row[i] != ESC_CHAR
    ensures Rest(row, i, vis, col)
         == (if vis == col then Reversed(row[i..i + 1]) else row[i..i + 1]) + Rest(row, i + 1, vis + 1, col)
  {
    var g := Glyph(row[i]);
    assert row[i..][1..] == row[i + 1..] && row[i..i + 1] == TokenText(g);
    var after := Splice(Tokenize(row[i + 1..]), vis + 1, col);
    if vis == col {
      TextConcat(Cursor(g), after);
      CursorText(g);
    } else {
      TextStep([], [g], after);
    }
  }

  lemma EndStep(row: string, vis: nat, col: int)
    ensures Rest(row, |row|, vis, col)
         == if vis <= col then SpaceText(col - vis) + Reversed(" ") else []
  {
    if vis <= col {
      TextConcat(Spaces(col - vis), Cursor(Glyph(' ')));
      SpacesText(col - vis);
      CursorText(Glyph(' '));
    }
  }

  lemma FirstFinal(s: string, n: nat)
    requires n <= |s| && (n < |s| ==> IsFinal(s[n]))
    requires forall k :: 0 <= k < n ==> !IsFinal(s[k])
    ensures BeforeFinal(s) == n
  {
  }

  lemma {:induction false} TextConcat(a: seq<Token>, b: seq<Token>)
    ensures Text(a + b) == Text(a) + Text(b)
  {
    if a == [] {
      assert a + b == b;
    } else {
      assert (a + b)[1..] == a[1..] + b;
      TextConcat(a[1..], b);
    }
  }

  lemma TextStep(b: string, piece: seq<Token>, rest: seq<Token>)
    ensures b + Text(piece + rest) == b + Text(piece) + Text(rest)
    ensures |piece| == 1 ==> Text(piece) == TokenText(piece[0])
  {
    TextConcat(piece, rest);
    AppendAssoc(b, Text(piece), Text(rest));
  }

  lemma {:induction false} SpacesText(n: nat)
    ensures Text(Spaces(n)) == SpaceText(n)
  {
    if n > 0 {
      assert Spaces(n)[1..] == Spaces(n - 1);
      SpacesText(n - 1);
    }
  }

  /** Nothing is lost by cutting a row into tokens. */
  lemma {:induction false} TokensSpellTheRow(row: string)
    ensures Text(Tokenize(row)) == row
  {
    if row != [] {
      var n := if row[0] == ESC_CHAR then EscapeLength(row) else 1;
      assert row == row[..n] + row[n..];
      TokensSpellTheRow(row[n..]);
      assert Tokenize(row)[1..] == Tokenize(row[n..]);
    }
  }

  // ---------------------------------------------------------------- where the cursor goes

  /** The position of the glyph in column col. */
  function GlyphAt(ts: seq<Token>, col: nat): (k: nat)
    requires col < Columns(ts)
    ensures k < |ts| && ts[k].Glyph? && Columns(ts[..k]) == col
  {
    if ts[0].Escape? then
      var k := 1 + GlyphAt(ts[1..], col);
      assert ts[..k][1..] == ts[1..][..k - 1];
      k
    else if col == 0 then 0
    else
      var k := 1 + GlyphAt(ts[1..], col - 1);
      assert ts[..k][1..] == ts[1..][..k - 1];
      k
  }

  /** Past its column the splice changes nothing. */
  lemma {:induction false} SplicePast(ts: seq<Token>, vis: nat, col: int)
    requires col < vis
    ensures Splice(ts, vis, col) == ts
    decreases ts
  {
    if ts != [] {
      SplicePast(ts[1..], if ts[0].Escape? then vis else vis + 1, col);
    }
  }

  function Wrapped(ts: seq<Token>, k: nat): seq<Token>
    requires k < |ts|
  {
    ts[..k] + Cursor(ts[k]) + ts[k + 1..]
  }

  lemma WrappedNext(ts: seq<Token>, k: nat)
    requires 0 < k < |ts|
    ensures Wrapped(ts, k) == [ts[0]] + Wrapped(ts[1..], k - 1)
  {
    var front := ts[1..][..k - 1];
    assert ts[..k] == [ts[0]] + front;
    assert ts[k + 1..] == ts[1..][k..];
    AppendAssoc([ts[0]], front + Cursor(ts[k]), ts[k + 1..]);
    AppendAssoc([ts[0]], front, Cursor(ts[k]));
  }

  /** A negative column leaves the row as it is. */
  lemma NoCursor(row: string, col: int)
    requires col < 0
    ensures Text(Splice(Tokenize(row), 0, col)) == row
  {
    TokensSpellTheRow(row);
    SplicePast(Tokenize(row), 0, col);
  }

  lemma SpliceHere(ts: seq<Token>, vis: nat)
    requires ts != [] && ts[0].Glyph?
    ensures Splice(ts, vis, vis) == Wrapped(ts, GlyphAt(ts, 0))
  {
    SplicePast(ts[1..], vis + 1, vis);
    AppendNothing(Cursor(ts[0]));
    assert ts[..0] == [] && GlyphAt(ts, 0) == 0;
  }

  lemma {:induction false} SpliceInside(ts: seq<Token>, vis: nat, col: nat)
    requires vis <= col && col - vis < Columns(ts)
    ensures Splice(ts, vis, col) == Wrapped(ts, GlyphAt(ts, col - vis))
    decreases ts
  {
    if ts[0].Glyph? && vis == col {
      SpliceHere(ts, vis);
    } else {
      SpliceInside(ts[1..], if ts[0].Escape? then vis else vis + 1, col);
      WrappedNext(ts, GlyphAt(ts, col - vis));
    }
  }

  lemma {:induction false} SplicePadded(ts: seq<Token>, vis: nat, col: nat)
    requires vis <= col && Columns(ts) <= col - vis
    ensures Splice(ts, vis, col) == ts + Spaces(col - vis - Columns(ts)) + Cursor(Glyph(' '))
    decreases ts
  {
    if ts != [] {
      SplicePadded(ts[1..], if ts[0].Escape? then vis else vis + 1, col);
      var pad := Spaces(col - vis - Columns(ts));
      assert ts == [ts[0]] + ts[1..];
      AppendAssoc([ts[0]], ts[1..] + pad, Cursor(Glyph(' ')));
      AppendAssoc([ts[0]], ts[1..], pad);
    }
  }

  /**
   Every token of the row survives in order. A row that reaches column col has just that glyph
   wrapped; a shorter one is filled up with spaces and ends in a reversed one.
   */
  lemma SplicePlace(ts: seq<Token>, col: nat)
    ensures var n := Columns(ts);
            if col < n
            then Splice(ts, 0, col) == Wrapped(ts, GlyphAt(ts, col))
            else Splice(ts, 0, col) == ts + Spaces(col - n) + Cursor(Glyph(' '))
  {
    if col < Columns(ts) {
      SpliceInside(ts, 0, col);
    } else {
      SplicePadded(ts, 0, col);
    }
  }

  /** The row is as wide as before, or just wide enough for the cursor. */
  lemma SpliceColumns(ts: seq<Token>, col: nat)
    ensures Columns(Splice(ts, 0, col)) == if Columns(ts) > col then Columns(ts) else col + 1
  {
    SplicePlace(ts, col);
    if col < Columns(ts) {
      var k := GlyphAt(ts, col);
      var a, b := ts[..k], ts[k + 1..];
      CursorColumns(ts[k]);
      ColumnsConcat(a + Cursor(ts[k]), b);
      ColumnsConcat(a, Cursor(ts[k]));
      ColumnsConcat(a + [ts[k]], b);
      ColumnsConcat(a, [ts[k]]);
      SplitAround(ts, k);
    } else {
      CursorColumns(Glyph(' '));
      ColumnsConcat(ts + Spaces(col - Columns(ts)), Cursor(Glyph(' ')));
      ColumnsConcat(ts, Spaces(col - Columns(ts)));
      SpacesColumns(col - Columns(ts));
    }
  }

  lemma SplitAround(ts: seq<Token>, k: nat)
    requires k < |ts|
    ensures ts == ts[..k] + [ts[k]] + ts[k + 1..]
  {
  }

  lemma {:induction false} ColumnsConcat(a: seq<Token>, b: seq<Token>)
    ensures Columns(a + b) == Columns(a) + Columns(b)
  {
    if a == [] {
      assert a + b == b;
    } else {
      assert (a + b)[1..] == a[1..] + b;
      ColumnsConcat(a[1..], b);
    }
  }

  lemma {:induction false} SpacesColumns(n: nat)
    ensures Columns(Spaces(n)) == n
  {
    if n > 0 {
      assert Spaces(n)[1..] == Spaces(n - 1);
      SpacesColumns(n - 1);
    }
  }

  // ---------------------------------------------------------------- the result reads back as intended

  /** A control sequence without its final character. */
  predicate IsCut(t: Token) {
    t.Escape? && |t.text| >= 2 && t.text[0] == ESC_CHAR && t.text[1] == '['
    && forall k :: 2 <= k < |t.text| ==> !IsFinal(t.text[k])
  }

  predicate IsWhole(text: string) {
    |text| >= 3 && text[0] == ESC_CHAR && text[1] == '[' && IsFinal(text[|text| - 1])
    && forall k :: 2 <= k < |text| - 1 ==> !IsFinal(text[k])
  }

  /** Token t followed by `next` is read as that token. */
  predicate Separate(t: Token, next: seq<Token>) {
    match t
    case Glyph(c) => c != ESC_CHAR
    case Escape(text) =>
      IsWhole(text) || (text == [ESC_CHAR] && (next == [] || next[0] != Glyph('['))) || (IsCut(t) && next == [])
  }

  predicate Legal(ts: seq<Token>) {
    ts == [] || (Separate(ts[0], ts[1..]) && Legal(ts[1..]))
  }

  lemma WholeLength(text: string, rest: string)
    requires IsWhole(text)
    ensures EscapeLength(text + rest) == |text|
  {
    var s := text + rest;
    FirstFinal(s[2..], |text| - 3);
  }

  lemma CutLength(text: string)
    requires IsCut(Escape(text))
    ensures EscapeLength(text) == |text|
  {
    FirstFinal(text[2..], |text| - 2);
  }

  /** Legal tokens read back as themselves. */
  lemma {:induction false} ReadsBack(ts: seq<Token>)
    requires Legal(ts)
    ensures Tokenize(Text(ts)) == ts
  {
    if ts != [] {
      var t, rest := ts[0], Text(ts[1..]);
      ReadsBack(ts[1..]);
      var s := TokenText(t) + rest;
      if t.Escape? {
        if IsWhole(t.text) {
          WholeLength(t.text, rest);
        } else if t.text == [ESC_CHAR] {
          LoneEscape(ts[1..]);
        } else {
          AppendNothing(t.text);
          CutLength(t.text);
        }
        assert EscapeLength(s) == |t.text|;
        assert s[..|t.text|] == t.text && s[|t.text|..] == rest;
      } else {
        assert s[1..] == rest;
      }
    }
  }

  lemma LoneEscape(next: seq<Token>)
    requires Legal(next) && (next == [] || next[0] != Glyph('['))
    ensures EscapeLength([ESC_CHAR] + Text(next)) == 1
  {
    if next != [] {
      assert TokenText(next[0]) != [] && TokenText(next[0])[0] != '[';
    }
  }

  lemma {:induction false} TokenizeLegal(row: string)
    ensures Legal(Tokenize(row))
  {
    if row != [] {
      var n := if row[0] == ESC_CHAR then EscapeLength(row) else 1;
      var ts := Tokenize(row);
      assert ts[1..] == Tokenize(row[n..]);
      TokenizeLegal(row[n..]);
      if row[0] == ESC_CHAR {
        var text := row[..n];
        if |row| >= 2 && row[1] == '[' {
          var k := BeforeFinal(row[2..]);
          if 2 + k < |row| {
            assert text[|text| - 1] == row[2..][k];
            assert forall i :: 2 <= i < |text| - 1 ==> text[i] == row[2..][i - 2];
            assert IsWhole(text);
          } else {
            assert forall i :: 2 <= i < |text| ==> text[i] == row[2..][i - 2];
            assert IsCut(Escape(text));
          }
        } else {
          assert text == [ESC_CHAR];
        }
      }
    }
  }

  /** The row ends inside a control sequence. */
  predicate EndsCut(ts: seq<Token>) {
    ts != [] && IsCut(ts[|ts| - 1])
  }

  lemma {:induction false} LegalConcat(a: seq<Token>, b: seq<Token>)
    requires Legal(a) && Legal(b) && !EndsCut(a)
    requires b != [] ==> b[0] != Glyph('[')
    ensures Legal(a + b)
  {
    if a == [] {
      assert a + b == b;
    } else {
      assert (a + b)[1..] == a[1..] + b;
      LegalConcat(a[1..], b);
    }
  }

  /** A legal row is legal on both sides of any token, and only its last token may be cut. */
  lemma {:induction false} LegalParts(ts: seq<Token>, k: nat)
    requires Legal(ts) && k < |ts|
    ensures Legal(ts[..k]) && Legal(ts[k..]) && !EndsCut(ts[..k])
  {
    if k == 0 {
      assert ts[0..] == ts;
    } else {
      LegalParts(ts[1..], k - 1);
      assert ts[..k][1..] == ts[1..][..k - 1];
      assert ts[k..] == ts[1..][k - 1..];
      if k > 1 {
        assert ts[..k][k - 1] == ts[1..][..k - 1][k - 2];
      }
    }
  }

  // ---------------------------------------------------------------- what counts as a sequence

  /** A whole control sequence is one token: parameters and intermediates, then the final character. */
  lemma SequenceIsToken(body: string, f: char, rest: string)
    requires (forall k :: 0 <= k < |body| ==> 0x20 <= body[k] as int <= 0x3f) && 0x40 <= f as int <= 0x7e
    ensures var text := ['\U{1b}', '['] + body + [f];
            Tokenize(text + rest) == [Escape(text)] + Tokenize(rest)
  {
    var text := [ESC_CHAR, '['] + body + [f];
    assert forall k :: 2 <= k < |text| - 1 ==> text[k] == body[k - 2];
    assert IsWhole(text);
    WholeLength(text, rest);
    assert (text + rest)[..|text|] == text && (text + rest)[|text|..] == rest;
  }

  /** One that the row ends in the middle of is a token too. */
  lemma CutSequenceIsToken(body: string)
    requires forall k :: 0 <= k < |body| ==> !(0x40 <= body[k] as int <= 0x7e)
    ensures var text := ['\U{1b}', '['] + body; Tokenize(text) == [Escape(text)]
  {
    var text := [ESC_CHAR, '['] + body;
    assert text[2..] == body;
    assert text[..|text|] == text && text[|text|..] == [];
  }

  /** An escape without a bracket is passed on by itself. */
  lemma BareEscapeIsToken(rest: string)
    requires rest == [] || rest[0] != '['
    ensures Tokenize(['\U{1b}'] + rest) == [Escape(['\U{1b}'])] + Tokenize(rest)
  {
    var row := [ESC_CHAR] + rest;
    assert row[..1] == [ESC_CHAR] && row[1..] == rest;
  }

  /** Everything else is a cell of its own. */
  lemma CharIsGlyph(c: char, rest: string)
    requires c != '\U{1b}'
    ensures Tokenize([c] + rest) == [Glyph(c)] + Tokenize(rest)
  {
    assert ([c] + rest)[1..] == rest;
  }

  lemma {:induction false} SpacesLegal(n: nat)
    ensures Legal(Spaces(n))
  {
    if n > 0 {
      assert Spaces(n)[1..] == Spaces(n - 1);
      SpacesLegal(n - 1);
    }
  }

  lemma WrappedLegal(t: Token, rest: seq<Token>)
    requires t.Glyph? && t.ch != ESC_CHAR && Legal(rest)
    ensures Legal([ON, t, OFF] + rest)
  {
    assert IsWhole(REVERSE_ON) && IsWhole(REVERSE_OFF);
    assert ([ON, t, OFF] + rest)[1..] == [t, OFF] + rest;
    assert ([t, OFF] + rest)[1..] == [OFF] + rest;
    assert ([OFF] + rest)[1..] == rest;
  }

  lemma PaddedLegal(ts: seq<Token>, n: nat)
    requires Legal(ts) && !EndsCut(ts)
    ensures Legal(ts + Spaces(n) + Cursor(Glyph(' ')))
  {
    var tail := Cursor(Glyph(' '));
    WrappedLegal(Glyph(' '), []);
    assert tail + [] == tail;
    SpacesLegal(n);
    LegalConcat(ts, Spaces(n));
    LegalConcat(ts + Spaces(n), tail);
  }

  lemma InsideLegal(ts: seq<Token>, k: nat)
    requires Legal(ts) && k < |ts| && ts[k].Glyph?
    ensures Legal(Wrapped(ts, k))
  {
    LegalParts(ts, k);
    assert ts[k..][1..] == ts[k + 1..];
    WrappedLegal(ts[k], ts[k + 1..]);
    LegalConcat(ts[..k], Cursor(ts[k]) + ts[k + 1..]);
    AppendAssoc(ts[..k], Cursor(ts[k]), ts[k + 1..]);
  }

  /**
   The spliced row reads back as the row's own tokens with the cursor among them, unless the row
   ends inside a control sequence and the cursor lies past its glyphs: that sequence then swallows
   what is appended.
   */
  lemma SpliceReadsBackIff(row: string, col: nat)
    ensures var ts := Tokenize(row);
            Tokenize(Text(Splice(ts, 0, col))) == Splice(ts, 0, col)
            <==> (Columns(ts) > col || !EndsCut(ts))
  {
    var ts := Tokenize(row);
    TokenizeLegal(row);
    SplicePlace(ts, col);
    var out := Splice(ts, 0, col);
    if col < Columns(ts) {
      InsideLegal(ts, GlyphAt(ts, col));
      ReadsBack(out);
    } else if !EndsCut(ts) {
      PaddedLegal(ts, col - Columns(ts));
      ReadsBack(out);
    } else if Tokenize(Text(out)) == out {
      TokenizeLegal(Text(out));
      LegalParts(out, |ts|);
    }
  }

  /** A row ending in a bare introducer: the reversed space is lost to it. */
  lemma CutRowSwallows()
    ensures var row := [ESC_CHAR, '['];
            Tokenize(Text(Splice(Tokenize(row), 0, 0))) != Splice(Tokenize(row), 0, 0)
  {
    var row := [ESC_CHAR, '['];
    assert row[2..] == [] && row[..2] == row;
    assert Tokenize(row) == [Escape(row)];
    assert EndsCut(Tokenize(row)) && Columns(Tokenize(row)) == 0;
    SpliceReadsBackIff(row, 0);
  }

  // ---------------------------------------------------------------- what the spliced row looks like

  predicate IsDigitChar(c: char) {
    '0' <= c <= '9'
  }

  /** The parameters of a sequence body; `ps` ends in the one being read. */
  function Params(body: string, ps: seq<nat>): seq<nat>
    requires ps != []
    decreases body
  {
    if body == [] then ps
    else if body[0] == ';' then Params(body[1..], ps + [0])
    else if IsDigitChar(body[0]) then
      Params(body[1..], ps[|ps| - 1 := 10 * ps[|ps| - 1] + (body[0] as int - '0' as int)])
    else ps
  }

  predicate IsSgr(text: string) {
    IsWhole(text) && text[|text| - 1] == 'm'
    && forall k :: 2 <= k < |text| - 1 ==> text[k] == ';' || IsDigitChar(text[k])
  }

  /** The operations an escape sequence performs on the pen. */
  function Ops(text: string): seq<T.SgrOp> {
    if IsSgr(text) then T.SgrOps(Params(text[2..|text| - 1], [0])) else []
  }

  datatype Painted = Painted(ch: char, style: T.Style)

  /** The glyphs as displayed, starting from the given pen. */
  function Paint(ts: seq<Token>, pen: T.Style): (cells: seq<Painted>)
    ensures |cells| == Columns(ts)
    decreases ts
  {
    if ts == [] then []
    else match ts[0]
      case Escape(text) => Paint(ts[1..], T.ApplyOps(pen, Ops(text)))
      case Glyph(c) => [Painted(c, pen)] + Paint(ts[1..], pen)
  }

  /** The pen after the row. */
  function PenAfter(ts: seq<Token>, pen: T.Style): T.Style
    decreases ts
  {
    if ts == [] then pen
    else PenAfter(ts[1..], match ts[0] case Escape(text) => T.ApplyOps(pen, Ops(text)) case Glyph(_) => pen)
  }

  lemma {:induction false} PaintConcat(a: seq<Token>, b: seq<Token>, pen: T.Style)
    ensures Paint(a + b, pen) == Paint(a, pen) + Paint(b, PenAfter(a, pen))
    ensures PenAfter(a + b, pen) == PenAfter(b, PenAfter(a, pen))
    decreases a
  {
    if a == [] {
      assert a + b == b;
    } else {
      assert (a + b)[1..] == a[1..] + b;
      PaintConcat(a[1..], b, match a[0] case Escape(text) => T.ApplyOps(pen, Ops(text)) case Glyph(_) => pen);
    }
  }

  function Flip(s: T.Style, on: bool): T.Style {
    s.(reverse := on)
  }

  lemma CursorPaint(t: Token, pen: T.Style)
    requires t.Glyph?
    ensures Paint(Cursor(t), pen) == [Painted(t.ch, Flip(pen, true))]
    ensures PenAfter(Cursor(t), pen) == Flip(pen, false)
  {
    ToggleOps(pen);
    ToggleOps(Flip(pen, true));
    var c := Cursor(t);
    var p := Flip(pen, true);
    assert c[0] == ON && c[1..][0] == t && c[1..][1..] == [OFF] && [OFF][1..] == [];
    assert PenAfter(c[1..], p) == PenAfter([OFF], p);
    assert Flip(p, false) == Flip(pen, false);
    assert PenAfter([OFF], p) == PenAfter([OFF][1..], Flip(pen, false));
  }

  lemma ToggleOps(pen: T.Style)
    ensures T.ApplyOps(pen, Ops(REVERSE_ON)) == Flip(pen, true)
    ensures T.ApplyOps(pen, Ops(REVERSE_OFF)) == Flip(pen, false)
  {
    assert REVERSE_ON[2..3] == "7" && REVERSE_OFF[2..4] == "27";
    assert Params("7", [0]) == [7];
    assert "27"[1..] == "7" && Params("7", [2]) == [27];
    assert T.SgrOps([7]) == [T.Attr(7)] && T.SgrOps([27]) == [T.Attr(27)];
  }

  /** The operation leaves the reverse attribute as it is. */
  predicate Neutral(op: T.SgrOp) {
    !(op.Attr? && op.p in {0, 7, 27})
  }

  predicate AllNeutral(ops: seq<T.SgrOp>) {
    forall i :: 0 <= i < |ops| ==> Neutral(ops[i])
  }

  lemma OpOnFlipped(pen: T.Style, on: bool, op: T.SgrOp)
    ensures T.ApplyOp(Flip(pen, on), op)
         == if Neutral(op) then Flip(T.ApplyOp(pen, op), on) else T.ApplyOp(pen, op)
    ensures Neutral(op) ==> T.ApplyOp(pen, op).reverse == pen.reverse
  {
    if op.Attr? {
      AttrOnFlipped(pen, on, op.p);
    }
  }

  lemma AttrOnFlipped(pen: T.Style, on: bool, p: nat)
    ensures T.ApplyOp(Flip(pen, on), T.Attr(p))
         == if Neutral(T.Attr(p)) then Flip(T.ApplyOp(pen, T.Attr(p)), on) else T.ApplyOp(pen, T.Attr(p))
    ensures Neutral(T.Attr(p)) ==> T.ApplyOp(pen, T.Attr(p)).reverse == pen.reverse
  {
    match p {
      case 0 => case 1 => case 2 => case 3 => case 4 => case 7 => case 22 =>
      case 23 => case 24 => case 27 => case 39 => case 49 =>
      case _ =>
    }
  }

  /** Two pens that differ at most in reverse stay so, and become equal once the attribute is set or cleared. */
  lemma {:induction false} OpsOnFlipped(pen: T.Style, on: bool, ops: seq<T.SgrOp>)
    ensures T.ApplyOps(Flip(pen, on), ops)
         == if AllNeutral(ops) then Flip(T.ApplyOps(pen, ops), on) else T.ApplyOps(pen, ops)
    ensures AllNeutral(ops) ==> T.ApplyOps(pen, ops).reverse == pen.reverse
    decreases ops
  {
    if ops != [] {
      OpOnFlipped(pen, on, ops[0]);
      OpsOnFlipped(T.ApplyOp(pen, ops[0]), on, ops[1..]);
      NeutralCons(ops);
    }
  }

  lemma NeutralCons(ops: seq<T.SgrOp>)
    requires ops != []
    ensures AllNeutral(ops) <==> Neutral(ops[0]) && AllNeutral(ops[1..])
  {
    assert ops == [ops[0]] + ops[1..];
  }

  /** A glyph stands in the row before anything sets or clears reverse. */
  predicate Inherits(ts: seq<Token>) {
    ts != [] && (ts[0].Glyph? || (AllNeutral(Ops(ts[0].text)) && Inherits(ts[1..])))
  }

  /** The same cells, apart from the reverse attribute. */
  predicate SameButReverse(a: seq<Painted>, b: seq<Painted>) {
    |a| == |b| && forall i :: 0 <= i < |a| ==> a[i].ch == b[i].ch && Flip(a[i].style, false) == Flip(b[i].style, false)
  }

  lemma {:induction false} PaintFlipped(ts: seq<Token>, pen: T.Style)
    ensures SameButReverse(Paint(ts, Flip(pen, false)), Paint(ts, pen))
    ensures Paint(ts, Flip(pen, false)) == Paint(ts, pen) <==> !(pen.reverse && Inherits(ts))
    decreases ts
  {
    if ts != [] {
      match ts[0]
      case Glyph(c) =>
        PaintFlipped(ts[1..], pen);
        assert Paint(ts, pen)[0].style == pen && Paint(ts, Flip(pen, false))[0].style == Flip(pen, false);
      case Escape(text) =>
        OpsOnFlipped(pen, false, Ops(text));
        PaintFlipped(ts[1..], T.ApplyOps(pen, Ops(text)));
    }
  }

  /** The row's cells with column col reversed, and blanks up to it if the row is shorter. */
  function WithCursor(ts: seq<Token>, col: nat, pen: T.Style): (cells: seq<Painted>) {
    var cells := Paint(ts, pen);
    var end := PenAfter(ts, pen);
    if col < |cells| then cells[col := cells[col].(style := Flip(cells[col].style, true))]
    else cells + seq(col - |cells|, _ => Painted(' ', end)) + [Painted(' ', Flip(end, true))]
  }

  lemma {:induction false} PaintSpaces(n: nat, pen: T.Style)
    ensures Paint(Spaces(n), pen) == seq(n, _ => Painted(' ', pen)) && PenAfter(Spaces(n), pen) == pen
  {
    if n > 0 {
      assert Spaces(n)[1..] == Spaces(n - 1);
      PaintSpaces(n - 1, pen);
    }
  }

  /**
   Exactly one cell is reversed and every other attribute of every cell is kept. The other cells
   keep reverse too, except for one family: the cursor lies inside a reversed run that
   goes on to its right, and the run's rest loses the attribute.
   */
  lemma SpliceShowsIff(ts: seq<Token>, col: nat, pen: T.Style)
    ensures SameButReverse(Paint(Splice(ts, 0, col), pen), WithCursor(ts, col, pen))
    ensures Paint(Splice(ts, 0, col), pen)[..col + 1] == WithCursor(ts, col, pen)[..col + 1]
    ensures Paint(Splice(ts, 0, col), pen) == WithCursor(ts, col, pen)
            <==> !(col < Columns(ts) && Paint(ts, pen)[col].style.reverse && Inherits(ts[GlyphAt(ts, col) + 1..]))
  {
    SplicePlace(ts, col);
    if col < Columns(ts) {
      InsideShows(ts, col, pen);
    } else {
      PaddedShows(ts, col, pen);
    }
  }

  /** The text drawn for a row that does not end inside a control sequence displays one reversed cell, at column col. */
  lemma CursorIsDrawn(row: string, col: nat, pen: T.Style)
    requires !EndsCut(Tokenize(row))
    ensures var ts := Tokenize(row);
            var shown := Paint(Tokenize(Text(Splice(ts, 0, col))), pen);
            && SameButReverse(shown, WithCursor(ts, col, pen))
            && |shown| == (if Columns(ts) > col then Columns(ts) else col + 1)
            && shown[col].style.reverse
            && ((forall i :: 0 <= i < |Paint(ts, pen)| ==> !Paint(ts, pen)[i].style.reverse) ==>
                shown == WithCursor(ts, col, pen))
  {
    var ts := Tokenize(row);
    SpliceReadsBackIff(row, col);
    SpliceShowsIff(ts, col, pen);
    SpliceColumns(ts, col);
    var shown, want := Paint(Splice(ts, 0, col), pen), WithCursor(ts, col, pen);
    assert shown[col] == shown[..col + 1][col] && want[col] == want[..col + 1][col];
  }

  lemma PaddedShows(ts: seq<Token>, col: nat, pen: T.Style)
    requires Columns(ts) <= col
    ensures Paint(ts + Spaces(col - Columns(ts)) + Cursor(Glyph(' ')), pen) == WithCursor(ts, col, pen)
    ensures |WithCursor(ts, col, pen)| == col + 1
  {
    var n := col - Columns(ts);
    PaintConcat(ts + Spaces(n), Cursor(Glyph(' ')), pen);
    PaintConcat(ts, Spaces(n), pen);
    PaintSpaces(n, PenAfter(ts, pen));
    CursorPaint(Glyph(' '), PenAfter(ts, pen));
  }

  lemma InsideShows(ts: seq<Token>, col: nat, pen: T.Style)
    requires col < Columns(ts)
    ensures var k := GlyphAt(ts, col);
            var out := Paint(Wrapped(ts, k), pen);
            var want := WithCursor(ts, col, pen);
            && SameButReverse(out, want)
            && out[..col + 1] == want[..col + 1]
            && (out == want <==> !(Paint(ts, pen)[col].style.reverse && Inherits(ts[k + 1..])))
  {
    var k := GlyphAt(ts, col);
    var front, rest := ts[..k], ts[k + 1..];
    var p := PenAfter(front, pen);
    var cells := Paint(front, pen);
    SplitAround(ts, k);
    GlyphPaint(ts[k], p);
    PaintThree(front, [ts[k]], rest, pen);
    CursorPaint(ts[k], p);
    PaintThree(front, Cursor(ts[k]), rest, pen);
    PaintFlipped(rest, p);
    OnlyTailDiffers(cells, Painted(ts[k].ch, p), Painted(ts[k].ch, Flip(p, true)),
                    Paint(rest, p), Paint(rest, Flip(p, false)));
  }

  lemma PaintThree(a: seq<Token>, b: seq<Token>, c: seq<Token>, pen: T.Style)
    ensures var p := PenAfter(a, pen);
            Paint(a + b + c, pen) == Paint(a, pen) + Paint(b, p) + Paint(c, PenAfter(b, p))
  {
    PaintConcat(a + b, c, pen);
    PaintConcat(a, b, pen);
  }

  lemma GlyphPaint(t: Token, pen: T.Style)
    requires t.Glyph?
    ensures Paint([t], pen) == [Painted(t.ch, pen)] && PenAfter([t], pen) == pen
  {
    assert [t][1..] == [];
  }

  lemma OnlyTailDiffers(front: seq<Painted>, was: Painted, now: Painted, tail: seq<Painted>, tail': seq<Painted>)
    requires |tail| == |tail'| && SameButReverse(tail', tail)
    ensures var want := (front + [was] + tail)[|front| := now];
            var out := front + [now] + tail';
            && SameButReverse(out, want)
            && out[..|front| + 1] == want[..|front| + 1]
            && (out == want <==> tail' == tail)
            && (front + [was] + tail)[|front|] == was
  {
    var want := (front + [was] + tail)[|front| := now];
    var out := front + [now] + tail';
    assert want == front + [now] + tail;
    assert want[|front| + 1..] == tail && out[|front| + 1..] == tail';
  }

  /** Drawing the cursor on the first of three reversed cells un-reverses the other two. */
  lemma ReversedRunIsBroken()
    ensures var ts := [ON, Glyph('a'), Glyph('b'), Glyph('c')];
            Paint(Splice(ts, 0, 0), T.PLAIN) != WithCursor(ts, 0, T.PLAIN)
  {
    var ts := [ON, Glyph('a'), Glyph('b'), Glyph('c')];
    ToggleOps(T.PLAIN);
    var rest := ts[1..];
    assert rest[0] == Glyph('a') && rest[1..][0] == Glyph('b');
    assert Columns(rest) == 1 + Columns(rest[1..]);
    assert GlyphAt(ts, 0) == 1 && ts[2..] == rest[1..];
    assert Paint(ts, T.PLAIN)[0].style.reverse;
    SpliceShowsIff(ts, 0, T.PLAIN);
  }
}
