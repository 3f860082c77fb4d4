/**
 The daemon learns a session's modes from a scan of the bytes; the emulator learns them from
 its own parser. On the same bytes the two agree, unless a sequence is cut by a chunk or has
 control characters inside.
 */
module ModeAgreement {
  import opened Common
  import opened Decimal
  import opened Terminal
  import opened Replay
  import V = VtMode

  /** The set holds the modes of the table and, beyond them, only modes that were on from the start. */
  ghost predicate Tracks(m: V.Modes, modes: set<nat>, defaults: set<nat>) {
    && V.Scanned(m)
    && forall n: nat :: (n in m ==> n in modes) && (n in modes ==> n in m || n in defaults)
  }

  // ---------------------------------------------------------------- parameters

  function DigitOf(b: byte): nat {
    if 0x30 <= b < 0x3a then b - 0x30 else 0
  }

  function ValueOf(p: Param): nat {
    if p.Some? then p.value else 0
  }

  /** The parameter after the bytes of a field were read on top of it. */
  function Extend(p: Param, f: seq<byte>): Param
    decreases f
  {
    if f == [] then p else Extend(Some(10 * ValueOf(p) + DigitOf(f[0])), f[1..])
  }

  function ParamsOf(fs: seq<seq<byte>>): (ps: seq<Param>)
    ensures |ps| == |fs|
  {
    seq(|fs|, k requires 0 <= k < |fs| => Extend(None, fs[k]))
  }

  predicate IsNumeric(f: seq<byte>) {
    forall k :: 0 <= k < |f| ==> 0x30 <= f[k] < 0x3a
  }

  predicate AllParams(s: seq<byte>) {
    forall k :: 0 <= k < |s| ==> V.IsParam(s[k])
  }

  lemma {:induction false} FieldsAreNumeric(s: seq<byte>)
    requires AllParams(s)
    ensures forall k :: 0 <= k < |V.Fields(s)| ==> IsNumeric(V.Fields(s)[k])
  {
    if s != [] {
      FieldsAreNumeric(s[1..]);
    }
  }

  lemma WidenHead(s: seq<byte>)
    requires s != []
    ensures Widen(s)[0] == Byte(s[0]) && Widen(s)[1..] == Widen(s[1..])
  {
  }

  lemma ParseParam(pre: seq<Param>, p: Param, b: byte)
    requires V.IsParam(b)
    ensures Parse(Csi(true, pre + [p]), Byte(b))
         == Parsed(Csi(true, if b == ';' as int then pre + [p] + [None] else pre + [NextDigit(p, DigitOf(b))]), Ignore)
  {
    if b != ';' as int {
      ParseDigit(true, pre, p, DigitOf(b));
    }
  }

  /** Reading a parameter string leaves one parameter per field. */
  lemma {:induction false} SwallowFields(pre: seq<Param>, p: Param, s: seq<byte>)
    requires AllParams(s)
    ensures var fs := V.Fields(s);
            Swallow(Csi(true, pre + [p]), Widen(s)) == Some(Csi(true, pre + [Extend(p, fs[0])] + ParamsOf(fs[1..])))
    decreases s
  {
    if s == [] {
      AppendNothing(pre + [p]);
    } else {
      var rest := V.Fields(s[1..]);
      WidenHead(s);
      ParseParam(pre, p, s[0]);
      if s[0] == ';' as int {
        SwallowFields(pre + [p], None, s[1..]);
        ParamsCons(rest);
        AppendAssoc(pre + [p], [Extend(None, rest[0])], ParamsOf(rest[1..]));
        assert V.Fields(s)[1..] == rest;
      } else {
        SwallowFields(pre, NextDigit(p, DigitOf(s[0])), s[1..]);
        ExtendCons(p, s[0], rest[0]);
        assert V.Fields(s)[1..] == rest[1..];
      }
    }
  }

  lemma ParamsCons(fs: seq<seq<byte>>)
    requires fs != []
    ensures ParamsOf(fs) == [Extend(None, fs[0])] + ParamsOf(fs[1..])
  {
  }

  lemma ExtendCons(p: Param, b: byte, f: seq<byte>)
    ensures Extend(p, [b] + f) == Extend(Some(10 * ValueOf(p) + DigitOf(b)), f)
  {
    assert ([b] + f)[1..] == f;
  }

  lemma {:induction false} ExtendAccumulates(acc: nat, f: seq<byte>)
    requires IsNumeric(f)
    ensures Extend(Some(acc), f) == Some(Accumulate(acc, V.DigitValues(f)))
    decreases f
  {
    if f != [] {
      assert V.DigitValues(f)[1..] == V.DigitValues(f[1..]);
      ExtendAccumulates(10 * acc + DigitOf(f[0]), f[1..]);
    }
  }

  /** A field names a mode for the terminal exactly when the scanner can read it as a number. */
  lemma FieldValue(f: seq<byte>)
    requires IsNumeric(f)
    ensures var p := Extend(None, f);
            && (V.Atoi(f).Some? <==> p.Some? && p.value <= MAX_INT)
            && (p.Some? && p.value <= MAX_INT ==> V.Atoi(f) == Some(p.value))
  {
    if f != [] {
      assert V.DigitValues(f)[1..] == V.DigitValues(f[1..]);
      ExtendAccumulates(DigitOf(f[0]), f[1..]);
      assert Extend(None, f) == Some(Accumulate(0, V.DigitValues(f)));
    }
  }

  // ---------------------------------------------------------------- one sequence

  function Switch(t: Term, ns: seq<nat>, on: bool): Term {
    if on then SetModes(t, ns) else ResetModes(t, ns)
  }

  lemma {:induction false} FieldsAct(fs: seq<seq<byte>>, t: Term, m: V.Modes, on: bool, d: set<nat>)
    requires forall k :: 0 <= k < |fs| ==> IsNumeric(fs[k])
    requires Tracks(m, t.modes, d)
    ensures Tracks(V.ApplyFields(fs, on, m), Switch(t, Named(ParamsOf(fs)), on).modes, d)
    decreases fs
  {
    if fs != [] {
      ParamsCons(fs);
      FieldValue(fs[0]);
      var p := Extend(None, fs[0]);
      var ps := ParamsOf(fs);
      assert ps[0] == p && ps[1..] == ParamsOf(fs[1..]);
      if p.Some? && p.value <= MAX_INT {
        var n := p.value;
        var u := if on then SetMode(t, n) else ResetMode(t, n);
        SwitchCons(t, n, Named(ps[1..]), on);
        FieldsAct(fs[1..], u, V.ApplyField(fs[0], on, m), on, d);
      } else {
        AppendNothing(Named(ps[1..]));
        FieldsAct(fs[1..], t, m, on, d);
      }
    }
  }

  lemma SwitchCons(t: Term, n: nat, ns: seq<nat>, on: bool)
    ensures Switch(t, [n] + ns, on) == Switch(if on then SetMode(t, n) else ResetMode(t, n), ns, on)
  {
    assert ([n] + ns)[1..] == ns;
  }

  /** Reading `ESC [ ?`, parameters and a final byte, in whatever state the parser was. */
  lemma FeedSequence(s: seq<byte>, final: byte, v: Vt, text: seq<Sym>)
    requires VtOk(v) && AllParams(s) && V.IsFinal(final) && text == Widen([ESC, 0x5b, 0x3f] + s + [final])
    ensures Feed(v, text) == Vt(Switch(v.term, Named(ParamsOf(V.Fields(s))), final == 'h' as int), Ground)
  {
    WidenSequence(s, final);
    SwallowIntroducer(v.parser, [ESCAPE, BRACKET, QUESTION]);
    SwallowParamString(s);
    SwallowConcat(v.parser, [ESCAPE, BRACKET, QUESTION], Widen(s));
    FeedThenFinal(v, [ESCAPE, BRACKET, QUESTION] + Widen(s), ParamsOf(V.Fields(s)), final);
  }

  lemma SwallowIntroducer(p: Parser, lead: seq<Sym>)
    requires ParserOk(p) && lead == [ESCAPE, BRACKET, QUESTION]
    ensures Swallow(p, lead) == Some(Csi(true, [None]))
  {
    SwallowLeadIn(p, true);
    assert lead == [ESCAPE, BRACKET] + [QUESTION];
  }

  lemma FeedThenFinal(v: Vt, lead: seq<Sym>, ps: seq<Param>, final: byte)
    requires VtOk(v) && ps != [] && Swallow(v.parser, lead) == Some(Csi(true, ps)) && V.IsFinal(final)
    ensures Feed(v, lead + [Byte(final)]) == Vt(Switch(v.term, Named(ps), final == 'h' as int), Ground)
  {
    FeedSwallow(v, lead);
    FeedConcat(v, lead, [Byte(final)]);
    FeedOne(Vt(v.term, Csi(true, ps)), Byte(final));
    StepFinal(v.term, ps, final);
  }

  lemma StepFinal(t: Term, ps: seq<Param>, b: byte)
    requires TermOk(t) && ps != [] && V.IsFinal(b)
    ensures Step(Vt(t, Csi(true, ps)), Byte(b)) == Vt(Switch(t, Named(ps), b == 'h' as int), Ground)
  {
  }

  lemma SwallowParamString(s: seq<byte>)
    requires AllParams(s)
    ensures Swallow(Csi(true, [None]), Widen(s)) == Some(Csi(true, ParamsOf(V.Fields(s))))
  {
    var none: seq<Param> := [];
    var fs := V.Fields(s);
    AppendNothing<Param>([None]);
    SwallowFields(none, None, s);
    AppendNothing<Param>([Extend(None, fs[0])]);
    ParamsCons(fs);
  }

  lemma WidenSequence(s: seq<byte>, final: byte)
    ensures Widen([ESC, 0x5b, 0x3f] + s + [final]) == [ESCAPE, BRACKET, QUESTION] + Widen(s) + [Byte(final)]
  {
  }

  lemma MatchBytes(b: seq<byte>, i: nat)
    requires V.MatchAt(b, i)
    ensures var e := V.ParamEnd(b, i + 3);
            e < |b| && AllParams(b[i + 3..e]) && b[i..e + 1] == [ESC, 0x5b, 0x3f] + b[i + 3..e] + [b[e]]
  {
  }

  // ---------------------------------------------------------------- the rest of the stream

  /** A control character that the parser obeys in the middle of a sequence. */
  predicate Passes(b: byte) {
    (b < 0x20 || b == 0x7f) && b != ESC && b != 0x18 && b != 0x1a
  }

  /**
   The bytes from i on, control characters aside, complete a set or reset sequence of which ESC
   (stage 0), ESC [ (stage 1), or ESC [ ? and some parameters (stage 2) were read.
   */
  predicate Rest(b: seq<byte>, i: nat, stage: nat)
    decreases |b| - i
  {
    && i < |b|
    && if Passes(b[i]) then Rest(b, i + 1, stage)
       else if stage == 0 then b[i] == '[' as int && Rest(b, i + 1, 1)
       else if stage == 1 then b[i] == '?' as int && Rest(b, i + 1, 2)
       else V.IsFinal(b[i]) || (V.IsParam(b[i]) && Rest(b, i + 1, 2))
  }

  /** The terminal reads a set or reset sequence that starts at i. */
  predicate ReadAt(b: seq<byte>, i: nat) {
    i < |b| && b[i] == ESC && Rest(b, i + 1, 0)
  }

  /** No set or reset sequence has control characters inside. */
  ghost predicate Clean(b: seq<byte>) {
    forall i: nat :: ReadAt(b, i) ==> V.MatchAt(b, i)
  }

  /** The bytes from i on complete a sequence the parser is in the middle of. */
  predicate Completes(b: seq<byte>, i: nat, p: Parser) {
    match p
    case Escape => Rest(b, i, 0)
    case Csi(true, _) => Rest(b, i, 2)
    case Csi(false, ps) => ps == [None] && Rest(b, i, 1)
    case _ => false
  }

  predicate Switches(a: Action) {
    a.Control? && a.isPrivate && a.final in {SM, RM}
  }

  /** One byte moves a sequence on, or ends it with its action; ESC starts another. */
  lemma ParseStage(b: seq<byte>, i: nat, p: Parser)
    requires i < |b| && ParserOk(p)
    ensures var r := Parse(p, Byte(b[i]));
            if b[i] == ESC
            then !Switches(r.action) && !Completes(b, i, p) && (Completes(b, i + 1, r.parser) <==> ReadAt(b, i))
            else && (Completes(b, i, p) <==> Switches(r.action) || Completes(b, i + 1, r.parser))
                 && !(Switches(r.action) && Completes(b, i + 1, r.parser))
  {
    match p
    case Csi(isPrivate, ps) => SequenceStage(b, i, isPrivate, ps);
    case _ =>
  }

  lemma SequenceStage(b: seq<byte>, i: nat, isPrivate: bool, ps: seq<Param>)
    requires i < |b| && ps != []
    ensures var r := Parse(Csi(isPrivate, ps), Byte(b[i]));
            var p := Csi(isPrivate, ps);
            if b[i] == ESC
            then !Switches(r.action) && !Completes(b, i, p) && (Completes(b, i + 1, r.parser) <==> ReadAt(b, i))
            else && (Completes(b, i, p) <==> Switches(r.action) || Completes(b, i + 1, r.parser))
                 && !(Switches(r.action) && Completes(b, i + 1, r.parser))
  {
    var s := Byte(b[i]);
    if !isPrivate && s.IsDigit() {
      assert AddDigit(ps, b[i] - 0x30)[|ps| - 1].Some?;
    } else if !isPrivate && s == SEMICOLON {
      assert |ps + [None]| > 1;
    }
  }

  lemma PrintKeepsModes(t: Term, s: Sym)
    requires TermOk(t) && s.Cols() in {1, 2}
    ensures Print(t, s).modes == t.modes && Print(t, s).alt == t.alt
  {
    if s.Cols() <= t.w {
      PlaceOk(t, s.Cols());
    }
  }

  lemma PerformKeepsModes(t: Term, a: Action)
    requires TermOk(t) && ActionOk(a) && !Switches(a)
    ensures Perform(t, a).modes == t.modes && Perform(t, a).alt == t.alt
  {
    match a
    case Show(s) => PrintKeepsModes(t, s);
    case _ =>
  }

  /** A byte at which no sequence starts, read while none is being completed, changes no mode. */
  lemma QuietStep(b: seq<byte>, i: nat, v: Vt)
    requires VtOk(v) && Clean(b) && i < |b| && !V.MatchAt(b, i) && !Completes(b, i, v.parser)
    ensures var u := Step(v, Byte(b[i]));
            u.term.modes == v.term.modes && u.term.alt == v.term.alt && !Completes(b, i + 1, u.parser)
  {
    ParseStage(b, i, v.parser);
    PerformKeepsModes(v.term, Parse(v.parser, Byte(b[i])).action);
  }

  /** The terminal after the bytes from i on. */
  function FeedFrom(v: Vt, b: seq<byte>, i: nat): (r: Vt)
    requires VtOk(v) && i <= |b|
    ensures VtOk(r)
    decreases |b| - i
  {
    if i == |b| then v else FeedFrom(Step(v, Byte(b[i])), b, i + 1)
  }

  lemma WidenCons(b: seq<byte>, i: nat, k: nat)
    requires i < k <= |b|
    ensures Widen(b[i..k]) == [Byte(b[i])] + Widen(b[i + 1..k])
  {
  }

  /** Up to k first, then the rest. */
  lemma {:induction false} FeedSplit(v: Vt, b: seq<byte>, i: nat, k: nat, text: seq<Sym>)
    requires VtOk(v) && i <= k <= |b| && text == Widen(b[i..k])
    ensures FeedFrom(v, b, i) == FeedFrom(Feed(v, text), b, k)
    decreases k - i
  {
    if i == k {
      assert text == [];
    } else {
      WidenCons(b, i, k);
      FeedConcat(v, [Byte(b[i])], Widen(b[i + 1..k]));
      FeedOne(v, Byte(b[i]));
      FeedSplit(Step(v, Byte(b[i])), b, i + 1, k, Widen(b[i + 1..k]));
    }
  }

  lemma FeedWhole(v: Vt, b: seq<byte>)
    requires VtOk(v)
    ensures FeedFrom(v, b, 0) == Feed(v, Widen(b))
  {
    assert b[0..|b|] == b;
    FeedSplit(v, b, 0, |b|, Widen(b));
  }

  /** The parameter fields of the sequence that starts at i. */
  function FieldsAt(b: seq<byte>, i: nat): seq<seq<byte>>
    requires V.MatchAt(b, i)
  {
    V.Fields(b[i + 3..V.ParamEnd(b, i + 3)])
  }

  lemma FeedMatch(v: Vt, b: seq<byte>, i: nat, e: nat, s: seq<byte>, text: seq<Sym>) returns (u: Vt)
    requires VtOk(v) && i <= e < |b| && AllParams(s) && V.IsFinal(b[e])
    requires text == Widen(b[i..e + 1]) && text == Widen([ESC, 0x5b, 0x3f] + s + [b[e]])
    ensures VtOk(u) && u == Vt(Switch(v.term, Named(ParamsOf(V.Fields(s))), b[e] == 'h' as int), Ground)
    ensures FeedFrom(v, b, i) == FeedFrom(u, b, e + 1)
  {
    u := Feed(v, text);
    FeedSequence(s, b[e], v, text);
    FeedSplit(v, b, i, e + 1, text);
  }

  lemma FieldsAtNumeric(b: seq<byte>, i: nat)
    requires V.MatchAt(b, i)
    ensures forall k :: 0 <= k < |FieldsAt(b, i)| ==> IsNumeric(FieldsAt(b, i)[k])
  {
    MatchBytes(b, i);
    FieldsAreNumeric(b[i + 3..V.ParamEnd(b, i + 3)]);
  }

  /** Over a whole sequence the terminal switches the modes it names. */
  lemma TakeMatch(b: seq<byte>, i: nat, v: Vt) returns (u: Vt, on: bool)
    requires VtOk(v) && V.MatchAt(b, i)
    ensures var e := V.ParamEnd(b, i + 3);
            && e < |b| && on == (b[e] == 'h' as int) && VtOk(u)
            && u == Vt(Switch(v.term, Named(ParamsOf(FieldsAt(b, i))), on), Ground)
            && FeedFrom(v, b, i) == FeedFrom(u, b, e + 1)
  {
    var e := V.ParamEnd(b, i + 3);
    MatchBytes(b, i);
    on := b[e] == 'h' as int;
    u := FeedMatch(v, b, i, e, b[i + 3..e], Widen(b[i..e + 1]));
  }

  lemma ScanMatch(b: seq<byte>, i: nat, v: Vt, m: V.Modes, d: set<nat>) returns (u: Vt, n: V.Modes)
    requires VtOk(v) && V.MatchAt(b, i) && Tracks(m, v.term.modes, d)
    ensures var e := V.ParamEnd(b, i + 3);
            && e < |b| && VtOk(u) && u.parser == Ground && Tracks(n, u.term.modes, d)
            && V.ScanFrom(b, i, m) == V.ScanFrom(b, e + 1, n)
            && FeedFrom(v, b, i) == FeedFrom(u, b, e + 1)
  {
    var on: bool;
    u, on := TakeMatch(b, i, v);
    n := ScanTakes(b, i, v.term, m, d, on);
  }

  lemma ScanTakes(b: seq<byte>, i: nat, t: Term, m: V.Modes, d: set<nat>, on: bool) returns (n: V.Modes)
    requires V.MatchAt(b, i) && Tracks(m, t.modes, d)
    requires V.ParamEnd(b, i + 3) < |b| && on == (b[V.ParamEnd(b, i + 3)] == 'h' as int)
    ensures Tracks(n, Switch(t, Named(ParamsOf(FieldsAt(b, i))), on).modes, d)
    ensures V.ScanFrom(b, i, m) == V.ScanFrom(b, V.ParamEnd(b, i + 3) + 1, n)
  {
    FieldsAtNumeric(b, i);
    FieldsAct(FieldsAt(b, i), t, m, on, d);
    n := V.ApplyMatch(b, i, m);
    V.SkipIsSafe(b, i, i + 1, n);
  }

  lemma SkipQuiet(b: seq<byte>, i: nat, v: Vt, m: V.Modes) returns (u: Vt)
    requires VtOk(v) && Clean(b) && i < |b| && !V.MatchAt(b, i) && !Completes(b, i, v.parser)
    ensures VtOk(u) && u.term.modes == v.term.modes && u.term.alt == v.term.alt && !Completes(b, i + 1, u.parser)
    ensures V.ScanFrom(b, i, m) == V.ScanFrom(b, i + 1, m)
    ensures FeedFrom(v, b, i) == FeedFrom(u, b, i + 1)
  {
    u := Step(v, Byte(b[i]));
    QuietStep(b, i, v);
  }

  /** Without control characters inside sequences the terminal's own parser and the scan keep the same modes. */
  lemma {:induction false} ParserScans(b: seq<byte>, i: nat, v: Vt, m: V.Modes, d: set<nat>)
    requires VtOk(v) && Clean(b) && i <= |b| && !Completes(b, i, v.parser) && Tracks(m, v.term.modes, d)
    ensures Tracks(V.ScanFrom(b, i, m), FeedFrom(v, b, i).term.modes, d)
    decreases |b| - i
  {
    if i < |b| {
      var u, n, k := ScanNext(b, i, v, m, d);
      ParserScans(b, k, u, n, d);
    }
  }

  /** Terminal and scan move on together, over a byte or a whole sequence. */
  lemma ScanNext(b: seq<byte>, i: nat, v: Vt, m: V.Modes, d: set<nat>) returns (u: Vt, n: V.Modes, k: nat)
    requires VtOk(v) && Clean(b) && i < |b| && !Completes(b, i, v.parser) && Tracks(m, v.term.modes, d)
    ensures i < k <= |b| && VtOk(u) && !Completes(b, k, u.parser) && Tracks(n, u.term.modes, d)
    ensures V.ScanFrom(b, i, m) == V.ScanFrom(b, k, n) && FeedFrom(v, b, i) == FeedFrom(u, b, k)
  {
    if V.MatchAt(b, i) {
      u, n := ScanMatch(b, i, v, m, d);
      k := V.ParamEnd(b, i + 3) + 1;
    } else {
      u := SkipQuiet(b, i, v, m);
      n, k := m, i + 1;
    }
  }

  // ---------------------------------------------------------------- how many sequences each of them reads

  /** Set and reset sequences the parser performs. */
  function Performed(p: Parser, stream: seq<Sym>): nat
    requires ParserOk(p)
    decreases stream
  {
    if stream == [] then 0
    else
      var r := Parse(p, stream[0]);
      (if Switches(r.action) then 1 else 0) + Performed(r.parser, stream[1..])
  }

  /** Set and reset sequences the scan finds from i on. */
  function Found(b: seq<byte>, i: nat): nat
    requires i <= |b|
    decreases |b| - i
  {
    if i == |b| then 0 else (if V.MatchAt(b, i) then 1 else 0) + Found(b, i + 1)
  }

  /** The positions from i on at which the terminal reads one. */
  function Readable(b: seq<byte>, i: nat): nat
    requires i <= |b|
    decreases |b| - i
  {
    if i == |b| then 0 else (if ReadAt(b, i) then 1 else 0) + Readable(b, i + 1)
  }

  lemma {:induction false} PerformedIsReadable(b: seq<byte>, i: nat, p: Parser)
    requires i <= |b| && ParserOk(p)
    ensures Performed(p, Widen(b[i..])) == (if Completes(b, i, p) then 1 else 0) + Readable(b, i)
    decreases |b| - i
  {
    if i < |b| {
      var r := Parse(p, Byte(b[i]));
      assert Widen(b[i..])[0] == Byte(b[i]) && Widen(b[i..])[1..] == Widen(b[i + 1..]);
      ParseStage(b, i, p);
      PerformedIsReadable(b, i + 1, r.parser);
    }
  }

  lemma {:induction false} ParamsComplete(b: seq<byte>, i: nat)
    requires i <= |b| && V.ParamEnd(b, i) < |b| && V.IsFinal(b[V.ParamEnd(b, i)])
    ensures Rest(b, i, 2)
    decreases |b| - i
  {
    if V.IsParam(b[i]) {
      ParamsComplete(b, i + 1);
    }
  }

  /** What the scan finds the terminal reads. */
  lemma MatchIsRead(b: seq<byte>, i: nat)
    requires V.MatchAt(b, i)
    ensures ReadAt(b, i)
  {
    ParamsComplete(b, i + 3);
  }

  lemma {:induction false} FoundIffClean(b: seq<byte>, i: nat)
    requires i <= |b|
    ensures Found(b, i) <= Readable(b, i)
    ensures Found(b, i) == Readable(b, i) <==> forall k: nat :: i <= k && ReadAt(b, k) ==> V.MatchAt(b, k)
    decreases |b| - i
  {
    if i < |b| {
      FoundIffClean(b, i + 1);
      if V.MatchAt(b, i) {
        MatchIsRead(b, i);
      }
    }
  }

  /** Terminal and scan read equally many sequences if and only if none has control characters inside. */
  lemma CleanIff(b: seq<byte>)
    ensures Performed(Ground, Widen(b)) == Found(b, 0) <==> Clean(b)
  {
    assert b[0..] == b;
    PerformedIsReadable(b, 0, Ground);
    FoundIffClean(b, 0);
  }

  /** `ESC [ ? 2`, a line feed, `5 h`. */
  const INTERRUPTED: seq<byte> := [ESC, 0x5b, 0x3f, 0x32, 0x0a, 0x35, 0x68]

  lemma SwallowFirstDigit(p: Param, d: nat, s: seq<Sym>)
    requires d < 10 && s == [Byte(0x30 + d)]
    ensures Swallow(Csi(true, [p]), s) == Some(Csi(true, [NextDigit(p, d)]))
  {
    var none: seq<Param> := [];
    assert none + [p] == [p] && none + [NextDigit(p, d)] == [NextDigit(p, d)];
    ParseDigit(true, none, p, d);
    SwallowOne(Csi(true, [p]), Byte(0x30 + d));
  }

  /** A line feed is obeyed inside a sequence, which goes on after it. */
  lemma LineFeedInside(t: Term, ps: seq<Param>, s: seq<Sym>)
    requires TermOk(t) && ps != [] && s == [LF]
    ensures TermOk(LineFeed(t)) && Feed(Vt(t, Csi(true, ps)), s) == Vt(LineFeed(t), Csi(true, ps))
  {
    LineFeedOk(t);
    FeedOne(Vt(t, Csi(true, ps)), LF);
  }

  lemma FeedInterrupted(t: Term, head: seq<Sym>, tail: seq<Sym>, s: seq<Sym>)
    requires TermOk(t) && s == [LF]
    requires Swallow(Ground, head) == Some(Csi(true, [Some(2)]))
             && Swallow(Csi(true, [Some(2)]), tail) == Some(Csi(true, [Some(25)]))
    ensures 25 in Feed(Vt(t, Ground), head + s + (tail + [Byte(0x68)])).term.modes
  {
    FeedConcat(Vt(t, Ground), head + s, tail + [Byte(0x68)]);
    FeedConcat(Vt(t, Ground), head, s);
    FeedSwallow(Vt(t, Ground), head);
    LineFeedInside(t, [Some(2)], s);
    FeedThenFinal(Vt(LineFeed(t), Csi(true, [Some(2)])), tail, [Some(25)], 0x68);
    SwitchOne(LineFeed(t), 25);
  }

  lemma InterruptedScan()
    ensures V.Scan(INTERRUPTED, map[]) == map[]
  {
    var b := INTERRUPTED;
    assert V.ParamEnd(b, 3) == 4 by {
      assert V.ParamEnd(b, 4) == 4;
    }
    V.NothingWithoutEscape(b, 1, map[]);
  }

  /** The terminal shows its cursor; the scan never learns of it. */
  lemma InterruptedIsMissed(t: Term)
    requires TermOk(t)
    ensures V.Scan(INTERRUPTED, map[]) == map[]
    ensures 25 in Feed(Vt(t, Ground), Widen(INTERRUPTED)).term.modes
  {
    var lead, two, five := [ESCAPE, BRACKET, QUESTION], [Byte(0x32)], [Byte(0x35)];
    InterruptedScan();
    assert Widen(INTERRUPTED) == lead + two + [LF] + (five + [Byte(0x68)]);
    SwallowIntroducer(Ground, lead);
    SwallowConcat(Ground, lead, two);
    SwallowFirstDigit(None, 2, two);
    SwallowFirstDigit(Some(2), 5, five);
    FeedInterrupted(t, lead + two, five, [LF]);
  }

  // ---------------------------------------------------------------- chunks

  /** No mode sequence that starts in one chunk ends in a later one. */
  ghost predicate Uncut(chunks: seq<seq<byte>>)
    decreases chunks
  {
    chunks == [] || ((forall i: nat :: !V.Straddles(chunks[0], Concat(chunks[1..]), i)) && Uncut(chunks[1..]))
  }

  /** Uncut output scans chunk by chunk as it does whole. */
  lemma {:induction false} UncutScansWhole(chunks: seq<seq<byte>>, m: V.Modes)
    requires Uncut(chunks)
    ensures V.ScanChunkList(chunks, m) == V.Scan(Concat(chunks), m)
    decreases chunks
  {
    if chunks != [] {
      V.ScanChunks(chunks[0], Concat(chunks[1..]), m);
      UncutScansWhole(chunks[1..], V.Scan(chunks[0], m));
    }
  }

  /** The terminal that consumed all chunks. */
  function Played(w: nat, h: nat, cap: nat, defaults: set<nat>, chunks: seq<seq<byte>>): (v: Vt)
    requires w > 0 && h > 0 && !AltIn(defaults)
    ensures VtOk(v)
  {
    Feed(Vt(Fresh(w, h, cap, defaults), Ground), Widen(Concat(chunks)))
  }

  /**
   Scanner and terminal agree on output whose sequences are neither cut nor interrupted: what was
   scanned is on in the terminal, and anything else that is on there was on from the start.
   */
  lemma ScannerAgrees(w: nat, h: nat, cap: nat, defaults: set<nat>, chunks: seq<seq<byte>>)
    requires w > 0 && h > 0 && !AltIn(defaults) && Uncut(chunks) && Clean(Concat(chunks))
    ensures Tracks(V.ScanChunkList(chunks, map[]), Played(w, h, cap, defaults, chunks).term.modes, defaults)
  {
    var b := Concat(chunks);
    UncutScansWhole(chunks, map[]);
    FeedWhole(Vt(Fresh(w, h, cap, defaults), Ground), b);
    ParserScans(b, 0, Vt(Fresh(w, h, cap, defaults), Ground), map[], defaults);
  }

  // ---------------------------------------------------------------- which screen shows

  /** The stream switches screens by one mode number only. */
  ghost predicate OneSwitch(b: seq<byte>, k: nat) {
    forall i: nat :: V.MatchAt(b, i) ==> FieldsSwitch(V.Fields(b[i + 3..V.ParamEnd(b, i + 3)]), k)
  }

  ghost predicate FieldsSwitch(fs: seq<seq<byte>>, k: nat) {
    forall j, n: nat :: 0 <= j < |fs| && V.Atoi(fs[j]) == Some(n as int) && IsAltMode(n) ==> n == k
  }

  ghost predicate NamesSwitch(ns: seq<nat>, k: nat) {
    forall j :: 0 <= j < |ns| && IsAltMode(ns[j]) ==> ns[j] == k
  }

  /** Only mode k can be on among those that switch screens, and the alternate screen shows when it is. */
  predicate SwitchedBy(t: Term, k: nat) {
    t.alt == (k in t.modes) && forall n :: n in t.modes && IsAltMode(n) ==> n == k
  }

  lemma {:induction false} SwitchKeeps(t: Term, ns: seq<nat>, on: bool, k: nat)
    requires SwitchedBy(t, k) && IsAltMode(k)
    requires NamesSwitch(ns, k)
    ensures SwitchedBy(Switch(t, ns, on), k)
    decreases ns
  {
    if ns != [] {
      assert ns == [ns[0]] + ns[1..];
      SwitchCons(t, ns[0], ns[1..], on);
      SwitchKeeps(if on then SetMode(t, ns[0]) else ResetMode(t, ns[0]), ns[1..], on, k);
    }
  }

  lemma {:induction false} NamedFields(fs: seq<seq<byte>>, k: nat)
    requires forall j :: 0 <= j < |fs| ==> IsNumeric(fs[j])
    requires FieldsSwitch(fs, k)
    ensures NamesSwitch(Named(ParamsOf(fs)), k)
  {
    if fs != [] {
      ParamsCons(fs);
      FieldValue(fs[0]);
      var ps := ParamsOf(fs);
      assert ps[0] == Extend(None, fs[0]) && ps[1..] == ParamsOf(fs[1..]);
      NamedFields(fs[1..], k);
      var head := if ps[0].Some? && ps[0].value <= MAX_INT then [ps[0].value] else [];
      assert Named(ps) == head + Named(ps[1..]);
      assert head != [] ==> V.Atoi(fs[0]) == Some(head[0] as int);
    }
  }

  lemma MatchSwitches(b: seq<byte>, i: nat, v: Vt, k: nat) returns (u: Vt)
    requires VtOk(v) && V.MatchAt(b, i) && IsAltMode(k) && OneSwitch(b, k) && SwitchedBy(v.term, k)
    ensures V.ParamEnd(b, i + 3) < |b| && VtOk(u) && u.parser == Ground && SwitchedBy(u.term, k)
    ensures FeedFrom(v, b, i) == FeedFrom(u, b, V.ParamEnd(b, i + 3) + 1)
  {
    var on: bool;
    u, on := TakeMatch(b, i, v);
    FieldsAtNumeric(b, i);
    NamedFields(FieldsAt(b, i), k);
    SwitchKeeps(v.term, Named(ParamsOf(FieldsAt(b, i))), on, k);
  }

  lemma {:induction false} ParserSwitches(b: seq<byte>, i: nat, v: Vt, k: nat)
    requires VtOk(v) && Clean(b) && i <= |b| && !Completes(b, i, v.parser)
    requires IsAltMode(k) && OneSwitch(b, k) && SwitchedBy(v.term, k)
    ensures SwitchedBy(FeedFrom(v, b, i).term, k)
    decreases |b| - i
  {
    if i == |b| {
    } else if V.MatchAt(b, i) {
      var u := MatchSwitches(b, i, v, k);
      ParserSwitches(b, V.ParamEnd(b, i + 3) + 1, u, k);
    } else {
      var u := SkipQuiet(b, i, v, map[]);
      ParserSwitches(b, i + 1, u, k);
    }
  }

  /** On such output with one switching mode, the scanned modes say which screen shows. */
  lemma ScannerKnowsTheScreen(w: nat, h: nat, cap: nat, defaults: set<nat>, chunks: seq<seq<byte>>, k: nat)
    requires w > 0 && h > 0 && !AltIn(defaults) && Uncut(chunks) && Clean(Concat(chunks))
    requires IsAltMode(k) && OneSwitch(Concat(chunks), k)
    ensures Played(w, h, cap, defaults, chunks).term.alt
       <==> exists n: nat :: n in V.ScanChunkList(chunks, map[]) && IsAltMode(n)
  {
    var b := Concat(chunks);
    var e := Played(w, h, cap, defaults, chunks).term;
    FeedWhole(Vt(Fresh(w, h, cap, defaults), Ground), b);
    ParserSwitches(b, 0, Vt(Fresh(w, h, cap, defaults), Ground), k);
    ScannerAgrees(w, h, cap, defaults, chunks);
    assert e.alt ==> k in e.modes && k !in defaults;
  }
}
