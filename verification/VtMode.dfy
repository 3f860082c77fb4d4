/** The DEC private-mode scanner (internal/vtmode) and the mode-restore printer of the attach replay. */
module VtMode {
  import opened Common
  import opened Decimal

  type Modes = map<int, bool>

  // ---------------------------------------------------------------- syntax

  predicate IsParam(c: byte) {
    '0' as int <= c <= '9' as int || c == ';' as int
  }

  predicate IsFinal(c: byte) {
    c == 'h' as int || c == 'l' as int
  }

  /** First position at or after `j` that does not hold a parameter byte. */
  function ParamEnd(b: seq<byte>, j: nat): (e: nat)
    requires j <= |b|
    ensures j <= e <= |b|
    ensures forall k :: j <= k < e ==> IsParam(b[k])
    ensures e < |b| ==> !IsParam(b[e])
    decreases |b| - j
  {
    if j < |b| && IsParam(b[j]) then ParamEnd(b, j + 1) else j
  }

  /** `ESC [ ?` starts at `i`. */
  predicate LeadAt(b: seq<byte>, i: nat) {
    i + 2 < |b| && b[i] == ESC && b[i + 1] == '[' as int && b[i + 2] == '?' as int
  }

  /** A complete set/reset sequence starts at `i`. */
  predicate MatchAt(b: seq<byte>, i: nat) {
    LeadAt(b, i) && var e := ParamEnd(b, i + 3); e < |b| && IsFinal(b[e])
  }

  // ---------------------------------------------------------------- meaning

  /** The fields between semicolons. */
  function Fields(s: seq<byte>): (fs: seq<seq<byte>>)
    ensures |fs| > 0
  {
    if s == [] then [[]]
    else
      var rest := Fields(s[1..]);
      if s[0] == ';' as int then [[]] + rest else [[s[0]] + rest[0]] + rest[1..]
  }

  function DigitValues(s: seq<byte>): seq<digit>
    requires forall k :: 0 <= k < |s| ==> '0' as int <= s[k] <= '9' as int
  {
    seq(|s|, k requires 0 <= k < |s| => s[k] - '0' as int)
  }

  /** The number a field names; None when it is empty or out of range. */
  function Atoi(s: seq<byte>): Option<int> {
    if s == [] || exists k :: 0 <= k < |s| && !('0' as int <= s[k] <= '9' as int) then None
    else
      var n := Accumulate(0, DigitValues(s));
      if n <= MAX_INT then Some(n) else None
  }

  function ApplyField(f: seq<byte>, on: bool, m: Modes): Modes {
    match Atoi(f)
    case None => m
    case Some(n) => if on then m[n := true] else m - {n}
  }

  function ApplyFields(fs: seq<seq<byte>>, on: bool, m: Modes): Modes {
    if fs == [] then m else ApplyFields(fs[1..], on, ApplyField(fs[0], on, m))
  }

  /** The effect of the sequence that starts at `i`. */
  function ApplyMatch(b: seq<byte>, i: nat, m: Modes): Modes
    requires MatchAt(b, i)
  {
    var e := ParamEnd(b, i + 3);
    ApplyFields(Fields(b[i + 3..e]), b[e] == 'h' as int, m)
  }

  /** The reference meaning: look at every position, skip nothing. */
  function ScanFrom(b: seq<byte>, i: nat, m: Modes): Modes
    decreases |b| - i
  {
    if i >= |b| then m
    else ScanFrom(b, i + 1, if MatchAt(b, i) then ApplyMatch(b, i, m) else m)
  }

  function Scan(b: seq<byte>, m: Modes): Modes {
    ScanFrom(b, 0, m)
  }

  // ---------------------------------------------------------------- the skipping scanner

  /** No sequence starts on the bytes the scanner jumps over. */
  lemma {:induction false} SkipIsSafe(b: seq<byte>, i: nat, k: nat, m: Modes)
    requires MatchAt(b, i) && i < k <= ParamEnd(b, i + 3) + 1
    ensures ScanFrom(b, k, m) == ScanFrom(b, ParamEnd(b, i + 3) + 1, m)
    decreases |b| - k
  {
    if k <= ParamEnd(b, i + 3) {
      assert b[k] != ESC;
      SkipIsSafe(b, i, k + 1, m);
    }
  }

  /** A mutable mode table: the map UpdatePrivateModes receives and updates in place. */
  class ModeTable {
    var on: Modes

    constructor ()
      ensures on == map[]
    {
      on := map[];
    }

    method Update(b: seq<byte>)
      modifies this
      ensures on == Scan(b, old(on))
    {
      var i := 0;
      while i < |b|
        invariant ScanFrom(b, i, on) == Scan(b, old(on))
      {
        if b[i] != ESC || i + 1 >= |b| || b[i + 1] != '[' as int {
          i := i + 1;
          continue;
        }
        var j := i + 2;
        if j >= |b| || b[j] != '?' as int {
          i := i + 1;
          continue;
        }
        j := j + 1;
        var start := j;
        while j < |b| && IsParam(b[j])
          invariant start <= j <= |b|
          invariant ParamEnd(b, start) == ParamEnd(b, j)
        {
          j := j + 1;
        }
        if j >= |b| || !IsFinal(b[j]) {
          i := i + 1;
          continue;
        }
        ghost var before := on;
        ApplyAll(Fields(b[start..j]), b[j] == 'h' as int);
        SkipIsSafe(b, i, i + 1, on);
        assert ScanFrom(b, i, before) == ScanFrom(b, i + 1, on);
        i := j + 1;
      }
    }

    method ApplyAll(fs: seq<seq<byte>>, turnOn: bool)
      modifies this
      ensures on == ApplyFields(fs, turnOn, old(on))
    {
      for k := 0 to |fs|
        invariant ApplyFields(fs[k..], turnOn, on) == ApplyFields(fs, turnOn, old(on))
      {
        assert fs[k..][1..] == fs[k + 1..];
        match Atoi(fs[k]) {
          case None =>
          case Some(n) =>
            if turnOn {
              on := on[n := true];
            } else {
              on := on - {n};
            }
        }
      }
      assert fs[|fs|..] == [];
    }
  }

  // ---------------------------------------------------------------- chunk boundaries

  lemma {:induction false} ParamEndShift(a: seq<byte>, b: seq<byte>, j: nat)
    requires j <= |b|
    ensures ParamEnd(a + b, |a| + j) == |a| + ParamEnd(b, j)
    decreases |b| - j
  {
    if j < |b| && IsParam(b[j]) {
      ParamEndShift(a, b, j + 1);
    }
  }

  lemma {:induction false} ScanShift(a: seq<byte>, b: seq<byte>, j: nat, m: Modes)
    requires j <= |b|
    ensures ScanFrom(a + b, |a| + j, m) == ScanFrom(b, j, m)
    decreases |b| - j
  {
    if j < |b| {
      if LeadAt(b, j) {
        ParamEndShift(a, b, j + 3);
        var e := ParamEnd(b, j + 3);
        assert (a + b)[|a| + j + 3..|a| + e] == b[j + 3..e];
      }
      ScanShift(a, b, j + 1, if MatchAt(b, j) then ApplyMatch(b, j, m) else m);
    }
  }

  lemma {:induction false} ParamEndPrefix(a: seq<byte>, b: seq<byte>, j: nat)
    requires j <= |a|
    ensures ParamEnd(a + b, j) >= ParamEnd(a, j)
    ensures ParamEnd(a, j) < |a| ==> ParamEnd(a + b, j) == ParamEnd(a, j)
    decreases |a| - j
  {
    if j < |a| && IsParam(a[j]) {
      ParamEndPrefix(a, b, j + 1);
    }
  }

  lemma {:induction false} NothingWithoutEscape(b: seq<byte>, k: nat, m: Modes)
    requires forall t :: k <= t < |b| ==> b[t] != ESC
    ensures ScanFrom(b, k, m) == m
    decreases |b| - k
  {
    if k < |b| {
      NothingWithoutEscape(b, k + 1, m);
    }
  }

  /** A sequence of a + b that begins in a and is cut by the boundary. */
  predicate Straddles(a: seq<byte>, b: seq<byte>, i: nat) {
    i < |a| && MatchAt(a + b, i) && !MatchAt(a, i)
  }

  /** What the cut sequence, if there is one, would have done. */
  ghost function ApplyStraddler(a: seq<byte>, b: seq<byte>, m: Modes): Modes {
    if i: nat :| Straddles(a, b, i) then ApplyMatch(a + b, i, m) else m
  }

  lemma StraddlerReachesCut(a: seq<byte>, b: seq<byte>, i: nat)
    requires Straddles(a, b, i)
    ensures |a| <= ParamEnd(a + b, i + 3)
    ensures forall t :: i < t < |a| ==> a[t] != ESC
  {
    var e := ParamEnd(a + b, i + 3);
    if e < |a| {
      assert LeadAt(a, i);
      ParamEndPrefix(a, b, i + 3);
      assert false;
    }
    forall t | i < t < |a|
      ensures a[t] != ESC
    {
      assert (a + b)[t] == a[t];
      if t >= i + 3 {
        assert IsParam((a + b)[t]);
      }
    }
  }

  lemma StraddlerIsUnique(a: seq<byte>, b: seq<byte>, i: nat, j: nat)
    requires Straddles(a, b, i) && Straddles(a, b, j)
    ensures i == j
  {
    StraddlerReachesCut(a, b, i);
    StraddlerReachesCut(a, b, j);
    assert (a + b)[i] == a[i] && (a + b)[j] == a[j];
  }

  lemma WholeMatchStays(a: seq<byte>, b: seq<byte>, j: nat, m: Modes)
    requires j < |a| && MatchAt(a, j)
    ensures MatchAt(a + b, j) && ApplyMatch(a + b, j, m) == ApplyMatch(a, j, m)
  {
    ParamEndPrefix(a, b, j + 3);
    var e := ParamEnd(a, j + 3);
    assert (a + b)[j + 3..e] == a[j + 3..e];
  }

  lemma ScanPastStraddler(a: seq<byte>, b: seq<byte>, j: nat, m: Modes)
    requires Straddles(a, b, j)
    ensures ScanFrom(a, j, m) == m
    ensures ScanFrom(a + b, j, m) == Scan(b, ApplyMatch(a + b, j, m))
  {
    var after := ApplyMatch(a + b, j, m);
    StraddlerReachesCut(a, b, j);
    NothingWithoutEscape(a, j + 1, m);
    SkipIsSafe(a + b, j, j + 1, after);
    SkipIsSafe(a + b, j, |a|, after);
    ScanShift(a, b, 0, after);
  }

  lemma StraddlerApplies(a: seq<byte>, b: seq<byte>, j: nat, m: Modes)
    requires Straddles(a, b, j)
    ensures ApplyStraddler(a, b, m) == ApplyMatch(a + b, j, m)
  {
    forall i: nat | Straddles(a, b, i)
      ensures i == j
    {
      StraddlerIsUnique(a, b, i, j);
    }
  }

  lemma {:induction false} ScanChunksFrom(a: seq<byte>, b: seq<byte>, j: nat, m: Modes)
    requires j <= |a|
    requires forall i :: 0 <= i < j ==> !Straddles(a, b, i)
    ensures ScanFrom(a + b, j, m) == Scan(b, ApplyStraddler(a, b, ScanFrom(a, j, m)))
    decreases |a| - j
  {
    if j == |a| {
      ScanShift(a, b, 0, m);
    } else if Straddles(a, b, j) {
      ScanPastStraddler(a, b, j, m);
      StraddlerApplies(a, b, j, m);
    } else {
      if MatchAt(a, j) {
        WholeMatchStays(a, b, j, m);
      }
      ScanChunksFrom(a, b, j + 1, if MatchAt(a, j) then ApplyMatch(a, j, m) else m);
    }
  }

  /** Exactly what a chunk boundary costs: the one sequence it cuts is not applied, and nothing else changes. */
  lemma ScanChunks(a: seq<byte>, b: seq<byte>, m: Modes)
    ensures Scan(a + b, m) == Scan(b, ApplyStraddler(a, b, Scan(a, m)))
    ensures (forall i: nat :: !Straddles(a, b, i)) ==> Scan(a + b, m) == Scan(b, Scan(a, m))
  {
    ScanChunksFrom(a, b, 0, m);
  }

  /** A cut sequence really is lost: ESC [ ? 2 | 5 h. */
  lemma CutSequenceIsLost()
    ensures var a: seq<byte> := [ESC, 0x5b, 0x3f, 0x32]; var b: seq<byte> := [0x35, 0x68];
            25 in Scan(a + b, map[]) && 25 !in Scan(b, Scan(a, map[]))
  {
    var a: seq<byte> := [ESC, 0x5b, 0x3f, 0x32];
    var b: seq<byte> := [0x35, 0x68];
    NothingWithoutEscape(b, 0, Scan(a, map[]));
    NothingWithoutEscape(a, 1, map[]);
    assert a + b == ModeSeq(25) by {
      assert Digits(25) == [2, 5];
    }
    ScanOneMode(25, map[]);
  }

  // ---------------------------------------------------------------- the restore printer

  function DecimalBytes(n: int): (s: seq<byte>) {
    if n < 0 then ['-' as int] + DigitBytes(Digits(-n)) else DigitBytes(Digits(n))
  }

  function DigitBytes(ds: seq<digit>): (s: seq<byte>) {
    seq(|ds|, k requires 0 <= k < |ds| => ds[k] + '0' as int)
  }

  /** ESC [ ? n h */
  function ModeSeq(n: int): seq<byte> {
    [ESC, '[' as int, '?' as int] + DecimalBytes(n) + ['h' as int]
  }

  function RestoreOf(ns: seq<int>): seq<byte> {
    if ns == [] then [] else ModeSeq(ns[0]) + RestoreOf(ns[1..])
  }

  ghost predicate Ascending(ns: seq<int>) {
    forall i, j :: 0 <= i < j < |ns| ==> ns[i] < ns[j]
  }

  function OnModes(m: Modes): set<int> {
    set n | n in m && m[n]
  }

  /** `ns` lists the elements of `s`, each once, in ascending order. */
  ghost predicate Lists(ns: seq<int>, s: set<int>) {
    Ascending(ns) && forall n :: n in ns <==> n in s
  }

  /** Modes a scan can leave behind. */
  ghost predicate Scanned(m: Modes) {
    forall n :: n in m ==> m[n] && 0 <= n <= MAX_INT
  }

  lemma ListedLengths(ns: seq<int>, s: set<int>)
    requires Lists(ns, s)
    ensures ns == [] <==> s == {}
  {
    if ns != [] {
      var n := ns[0];
      assert n in ns && n in s;
    } else if s != {} {
      var n := Pick(s);
      assert false;
    }
  }

  lemma HeadIsLeast(a: seq<int>, b: seq<int>, s: set<int>)
    requires Lists(a, s) && Lists(b, s) && a != [] && b != []
    ensures a[0] <= b[0]
  {
    var n := b[0];
    assert n in b && n in s && n in a;
    var k :| 0 <= k < |a| && a[k] == n;
  }

  lemma {:induction false} AscendingListIsUnique(a: seq<int>, b: seq<int>, s: set<int>)
    requires Lists(a, s) && Lists(b, s)
    ensures a == b
  {
    if a == [] || b == [] {
      ListedLengths(a, s);
      ListedLengths(b, s);
    } else {
      HeadIsLeast(a, b, s);
      HeadIsLeast(b, a, s);
      forall n ensures n in a[1..] <==> n in s - {a[0]} {
      }
      forall n ensures n in b[1..] <==> n in s - {a[0]} {
      }
      AscendingListIsUnique(a[1..], b[1..], s - {a[0]});
      assert a == [a[0]] + a[1..] && b == [b[0]] + b[1..];
    }
  }

  function Insert(n: int, ns: seq<int>): (r: seq<int>)
    requires Ascending(ns) && n !in ns
    ensures Ascending(r)
    ensures forall x :: x in r <==> x == n || x in ns
  {
    if ns == [] || n < ns[0] then [n] + ns
    else
      assert ns == [ns[0]] + ns[1..];
      var rest := Insert(n, ns[1..]);
      assert forall k :: 0 <= k < |rest| ==> rest[k] in rest;
      [ns[0]] + rest
  }

  /** Go's sort.Ints on distinct values. */
  method SortInts(ns: seq<int>) returns (sorted: seq<int>)
    requires forall i, j :: 0 <= i < j < |ns| ==> ns[i] != ns[j]
    ensures Ascending(sorted)
    ensures forall n :: n in sorted <==> n in ns
  {
    sorted := [];
    for i := 0 to |ns|
      invariant Ascending(sorted)
      invariant forall n :: n in sorted <==> n in ns[..i]
    {
      assert ns[i] !in ns[..i];
      sorted := Insert(ns[i], sorted);
    }
    assert ns[..|ns|] == ns;
  }

  method ModeRestoreBytes(modes: Modes) returns (out: seq<byte>, ghost order: seq<int>)
    ensures Lists(order, OnModes(modes)) && out == RestoreOf(order)
    ensures forall ns :: Lists(ns, OnModes(modes)) ==> out == RestoreOf(ns)
  {
    var ns: seq<int> := [];
    var rest := modes.Keys;
    while rest != {}
      invariant rest <= modes.Keys
      invariant forall n :: n in ns <==> n in modes && n !in rest && modes[n]
      invariant forall i, j :: 0 <= i < j < |ns| ==> ns[i] != ns[j]
      decreases rest
    {
      ghost var any := Pick(rest);
      var n :| n in rest;
      rest := rest - {n};
      if modes[n] {
        ns := ns + [n];
      }
    }
    ns := SortInts(ns);
    order := ns;
    out := PrintModes(ns);
    RestoreIsStable(ns, OnModes(modes));
  }

  /** The set sequence of each mode in turn. */
  method PrintModes(ns: seq<int>) returns (out: seq<byte>)
    ensures out == RestoreOf(ns)
  {
    out := [];
    for i := 0 to |ns|
      invariant out == RestoreOf(ns[..i])
    {
      RestoreSnoc(ns[..i], ns[i]);
      assert ns[..i + 1] == ns[..i] + [ns[i]];
      out := out + ModeSeq(ns[i]);
    }
    assert ns[..|ns|] == ns;
  }

  /** The set of modes alone decides what is printed. */
  lemma RestoreIsStable(order: seq<int>, s: set<int>)
    requires Lists(order, s)
    ensures forall ns :: Lists(ns, s) ==> RestoreOf(ns) == RestoreOf(order)
  {
    forall ns | Lists(ns, s)
      ensures RestoreOf(ns) == RestoreOf(order)
    {
      AscendingListIsUnique(ns, order, s);
    }
  }

  lemma {:induction false} RestoreSnoc(ns: seq<int>, n: int)
    ensures RestoreOf(ns + [n]) == RestoreOf(ns) + ModeSeq(n)
  {
    if ns == [] {
      AppendNothing([n]);
      AppendNothing(ModeSeq(n));
      assert RestoreOf([n]) == ModeSeq(n) + RestoreOf([n][1..]);
    } else {
      RestoreSnoc(ns[1..], n);
      TailOfAppend(ns, [n]);
      AppendAssoc(ModeSeq(ns[0]), RestoreOf(ns[1..]), ModeSeq(n));
    }
  }

  // ---------------------------------------------------------------- print, then scan

  lemma {:induction false} ParamRun(b: seq<byte>, j: nat, e: nat)
    requires j <= e < |b|
    requires forall k :: j <= k < e ==> IsParam(b[k])
    requires !IsParam(b[e])
    ensures ParamEnd(b, j) == e
    decreases e - j
  {
    if j < e {
      ParamRun(b, j + 1, e);
    }
  }

  lemma {:induction false} SingleField(s: seq<byte>)
    requires forall k :: 0 <= k < |s| ==> s[k] != ';' as int
    ensures Fields(s) == [s]
  {
    if s != [] {
      SingleField(s[1..]);
      assert [s[0]] + s[1..] == s;
    }
  }

  lemma ScanOneMode(n: int, m: Modes)
    requires 0 <= n <= MAX_INT
    ensures Scan(ModeSeq(n), m) == m[n := true]
    ensures MatchAt(ModeSeq(n), 0)
    ensures forall t :: 0 < t < |ModeSeq(n)| ==> ModeSeq(n)[t] != ESC
  {
    var b := ModeSeq(n);
    var ds := DigitBytes(Digits(n));
    ModeSeqShape(n);
    SingleField(ds);
    NumberReadsBack(n);
    OneField(ds, n, m);
    NothingWithoutEscape(b, 1, m[n := true]);
  }

  lemma ModeSeqShape(n: int)
    requires 0 <= n
    ensures var b := ModeSeq(n);
            var ds := DigitBytes(Digits(n));
            && |b| == |ds| + 4 && MatchAt(b, 0) && ParamEnd(b, 3) == 3 + |ds|
            && b[3..3 + |ds|] == ds && b[3 + |ds|] == 'h' as int
            && (forall t :: 0 < t < |b| ==> b[t] != ESC)
            && forall k :: 0 <= k < |ds| ==> ds[k] != ';' as int
  {
    var b := ModeSeq(n);
    var ds := DigitBytes(Digits(n));
    ReadBack(n);
    assert forall k :: 3 <= k < 3 + |ds| ==> b[k] == ds[k - 3];
    ParamRun(b, 3, 3 + |ds|);
  }

  lemma NumberReadsBack(n: int)
    requires 0 <= n <= MAX_INT
    ensures Atoi(DigitBytes(Digits(n))) == Some(n)
  {
    var ds := DigitBytes(Digits(n));
    ReadBack(n);
    assert DigitValues(ds) == Digits(n);
  }

  lemma OneField(f: seq<byte>, n: int, m: Modes)
    requires Atoi(f) == Some(n)
    ensures ApplyFields([f], true, m) == m[n := true]
  {
    assert [f][1..] == [];
  }

  /** Turning the listed modes on, one by one. */
  function TurnOn(ns: seq<int>, m: Modes): (r: Modes)
    ensures forall n :: n in r <==> n in m || n in ns
    ensures forall n :: n in r ==> r[n] == (n in ns || m[n])
    decreases ns
  {
    if ns == [] then m
    else
      assert ns == [ns[0]] + ns[1..];
      TurnOn(ns[1..], m[ns[0] := true])
  }

  lemma {:induction false} ScanRestoreOf(ns: seq<int>, m: Modes)
    requires forall n :: n in ns ==> 0 <= n <= MAX_INT
    ensures Scan(RestoreOf(ns), m) == TurnOn(ns, m)
    decreases ns
  {
    if ns != [] {
      var n := ns[0];
      assert n in ns;
      var a, b := ModeSeq(n), RestoreOf(ns[1..]);
      ScanOneMode(n, m);
      forall i: nat
        ensures !Straddles(a, b, i)
      {
        assert i < |a| ==> (a + b)[i] == a[i];
      }
      ScanChunks(a, b, m);
      assert forall x :: x in ns[1..] ==> x in ns;
      ScanRestoreOf(ns[1..], m[n := true]);
    }
  }

  lemma {:induction false} ScanKeepsScanned(b: seq<byte>, i: nat, m: Modes)
    requires Scanned(m)
    ensures Scanned(ScanFrom(b, i, m))
    decreases |b| - i
  {
    if i < |b| {
      if MatchAt(b, i) {
        var e := ParamEnd(b, i + 3);
        ApplyKeepsScanned(Fields(b[i + 3..e]), b[e] == 'h' as int, m);
      }
      ScanKeepsScanned(b, i + 1, if MatchAt(b, i) then ApplyMatch(b, i, m) else m);
    }
  }

  lemma {:induction false} ApplyKeepsScanned(fs: seq<seq<byte>>, on: bool, m: Modes)
    requires Scanned(m)
    ensures Scanned(ApplyFields(fs, on, m))
    decreases fs
  {
    if fs != [] {
      ApplyKeepsScanned(fs[1..], on, ApplyField(fs[0], on, m));
    }
  }

  lemma ListedOnModes(m: Modes, ns: seq<int>)
    requires Lists(ns, OnModes(m)) && Scanned(m)
    ensures TurnOn(ns, map[]) == m
  {
    var l := TurnOn(ns, map[]);
    forall n ensures n in l <==> n in m {
      assert n in ns <==> n in OnModes(m);
    }
  }

  /** Printing a mode set and scanning it from nothing gives it back exactly when it is one a scan could leave. */
  lemma RestoreRoundTrip(m: Modes, ns: seq<int>)
    requires Lists(ns, OnModes(m))
    ensures Scan(RestoreOf(ns), map[]) == m <==> Scanned(m)
  {
    if Scanned(m) {
      ScanRestoreOf(ns, map[]);
      ListedOnModes(m, ns);
    } else {
      ScanKeepsScanned(RestoreOf(ns), 0, map[]);
    }
  }

  /** Every mode set reached by scanning output, chunk after chunk, survives the print and scan. */
  lemma ReachableModesRoundTrip(chunks: seq<seq<byte>>, ns: seq<int>)
    requires Lists(ns, OnModes(ScanChunkList(chunks, map[])))
    ensures Scan(RestoreOf(ns), map[]) == ScanChunkList(chunks, map[])
  {
    ScanListKeepsScanned(chunks, map[]);
    RestoreRoundTrip(ScanChunkList(chunks, map[]), ns);
  }

  function ScanChunkList(chunks: seq<seq<byte>>, m: Modes): Modes
    decreases chunks
  {
    if chunks == [] then m else ScanChunkList(chunks[1..], Scan(chunks[0], m))
  }

  lemma {:induction false} ScanListKeepsScanned(chunks: seq<seq<byte>>, m: Modes)
    requires Scanned(m)
    ensures Scanned(ScanChunkList(chunks, m))
    decreases chunks
  {
    if chunks != [] {
      ScanKeepsScanned(chunks[0], 0, m);
      ScanListKeepsScanned(chunks[1..], Scan(chunks[0], m));
    }
  }
}
