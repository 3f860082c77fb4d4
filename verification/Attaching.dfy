/**
 Attaching to a session of which the daemon read chunks of output, with resizes in between: what
 arrives, and what the client sees of the chunks that follow.
 */
module Attaching {
  import opened Common
  import opened Terminal
  import opened Replay
  import opened ReplayRoundTrip
  import opened ReplayTheorems
  import opened ModeAgreement
  import opened LiveAttach
  import V = VtMode
  import S = Sessions

  // ---------------------------------------------------------------- the life of a session's terminal

  /** `to` is the terminal after the emulator's own resize. */
  datatype Happening = Chunk(bytes: seq<byte>) | Resize(to: Vt)

  predicate SameModes(a: Vt, b: Vt) {
    a.parser == b.parser && a.term.modes == b.term.modes && a.term.alt == b.term.alt
  }

  /** A resize may change rows, history and cursor as it likes. */
  predicate Resizes(from: Vt, to: Vt) {
    VtOk(to) && SameModes(from, to) && to.term.cap == from.term.cap && to.term.defaults == from.term.defaults
  }

  predicate Proper(v: Vt, run: seq<Happening>)
    requires VtOk(v)
    decreases run
  {
    run == [] ||
    match run[0]
    case Chunk(b) => Proper(Feed(v, Widen(b)), run[1..])
    case Resize(to) => Resizes(v, to) && Proper(to, run[1..])
  }

  /** The terminal after all that happened. */
  function Lived(v: Vt, run: seq<Happening>): (r: Vt)
    requires VtOk(v) && Proper(v, run)
    ensures VtOk(r)
    decreases run
  {
    if run == [] then v
    else
      match run[0]
      case Chunk(b) => Lived(Feed(v, Widen(b)), run[1..])
      case Resize(to) => Lived(to, run[1..])
  }

  /** The chunks the daemon read. */
  function ChunksOf(run: seq<Happening>): seq<seq<byte>> {
    if run == [] then [] else (if run[0].Chunk? then [run[0].bytes] else []) + ChunksOf(run[1..])
  }

  function Start(w: nat, h: nat, cap: nat, defaults: set<nat>): (v: Vt)
    requires w > 0 && h > 0 && !AltIn(defaults)
    ensures VtOk(v) && Seasoned(v.term)
  {
    FreshReached(w, h, cap, defaults);
    Vt(Fresh(w, h, cap, defaults), Ground)
  }

  lemma {:induction false} LivedKeepsDefaults(v: Vt, run: seq<Happening>)
    requires VtOk(v) && Proper(v, run)
    ensures Lived(v, run).term.defaults == v.term.defaults
    decreases run
  {
    if run != [] {
      match run[0]
      case Chunk(b) =>
        FeedKeepsSize(v, Widen(b));
        LivedKeepsDefaults(Feed(v, Widen(b)), run[1..]);
      case Resize(to) => LivedKeepsDefaults(to, run[1..]);
    }
  }

  /** Unless a resize leaves a line wider than the terminal, rows stay as printing makes them. */
  lemma {:induction false} LivedSeasoned(v: Vt, run: seq<Happening>)
    requires VtOk(v) && Seasoned(v.term) && Proper(v, run)
    requires forall k :: 0 <= k < |run| && run[k].Resize? ==> Seasoned(run[k].to.term)
    ensures Seasoned(Lived(v, run).term)
    decreases run
  {
    if run != [] {
      assert forall k :: 0 <= k < |run[1..]| ==> run[1..][k] == run[k + 1];
      match run[0]
      case Chunk(b) =>
        FeedReached(v, Widen(b));
        LivedSeasoned(Feed(v, Widen(b)), run[1..]);
      case Resize(to) => LivedSeasoned(to, run[1..]);
    }
  }

  // ---------------------------------------------------------------- modes do not depend on the size

  lemma {:induction false} SwitchesSameModes(a: Term, b: Term, ns: seq<nat>)
    requires a.modes == b.modes && a.alt == b.alt
    ensures SetModes(a, ns).modes == SetModes(b, ns).modes && SetModes(a, ns).alt == SetModes(b, ns).alt
    ensures ResetModes(a, ns).modes == ResetModes(b, ns).modes && ResetModes(a, ns).alt == ResetModes(b, ns).alt
    decreases ns
  {
    if ns != [] {
      SwitchesSameModes(SetMode(a, ns[0]), SetMode(b, ns[0]), ns[1..]);
      SwitchesSameModes(ResetMode(a, ns[0]), ResetMode(b, ns[0]), ns[1..]);
    }
  }

  lemma PerformSameModes(a: Term, b: Term, action: Action)
    requires TermOk(a) && TermOk(b) && ActionOk(action) && a.modes == b.modes && a.alt == b.alt
    ensures Perform(a, action).modes == Perform(b, action).modes && Perform(a, action).alt == Perform(b, action).alt
  {
    if Switches(action) {
      SwitchesSameModes(a, b, Named(action.params));
    } else {
      PerformKeepsModes(a, action);
      PerformKeepsModes(b, action);
    }
  }

  lemma {:induction false} FeedSameModes(a: Vt, b: Vt, stream: seq<Sym>)
    requires VtOk(a) && VtOk(b) && SameModes(a, b)
    ensures SameModes(Feed(a, stream), Feed(b, stream))
    decreases stream
  {
    if stream != [] {
      PerformSameModes(a.term, b.term, Parse(a.parser, stream[0]).action);
      FeedSameModes(Step(a, stream[0]), Step(b, stream[0]), stream[1..]);
    }
  }

  lemma WidenConcat(a: seq<byte>, b: seq<byte>)
    ensures Widen(a + b) == Widen(a) + Widen(b)
  {
  }

  /** A resized terminal has the modes of one that was never resized. */
  lemma {:induction false} LivedModes(a: Vt, b: Vt, run: seq<Happening>)
    requires VtOk(a) && VtOk(b) && Proper(a, run) && SameModes(a, b)
    ensures SameModes(Lived(a, run), Feed(b, Widen(Concat(ChunksOf(run)))))
    decreases run
  {
    if run != [] {
      var rest := ChunksOf(run[1..]);
      match run[0]
      case Chunk(c) =>
        FeedSameModes(a, b, Widen(c));
        LivedModes(Feed(a, Widen(c)), Feed(b, Widen(c)), run[1..]);
        assert ([c] + rest)[1..] == rest;
        WidenConcat(c, Concat(rest));
        FeedConcat(b, Widen(c), Widen(Concat(rest)));
      case Resize(to) =>
        AppendNothing(rest);
        LivedModes(to, b, run[1..]);
    }
  }

  // ---------------------------------------------------------------- the modes the daemon scanned

  /** The modes scanned from the chunks, in the order the replay restores them. */
  ghost predicate Scans(order: seq<Mode>, chunks: seq<seq<byte>>) {
    V.Lists(order, V.OnModes(V.ScanChunkList(chunks, map[])))
  }

  lemma ListedModes(order: seq<Mode>, chunks: seq<seq<byte>>)
    requires Scans(order, chunks)
    ensures forall n: nat :: n in Elements(order) <==> n in V.ScanChunkList(chunks, map[])
  {
    V.ScanListKeepsScanned(chunks, map[]);
    var m := V.ScanChunkList(chunks, map[]);
    forall n: nat
      ensures n in Elements(order) <==> n in m
    {
      var k: int := n;
      assert k in order <==> k in V.OnModes(m);
    }
  }

  lemma AltListed(order: seq<Mode>, chunks: seq<seq<byte>>)
    requires forall n: nat :: n in Elements(order) <==> n in V.ScanChunkList(chunks, map[])
    ensures AltIn(Elements(order)) <==> exists n: nat :: n in V.ScanChunkList(chunks, map[]) && IsAltMode(n)
  {
    var m := V.ScanChunkList(chunks, map[]);
    var s, t, u: nat := 47, 1047, 1049;
    assert s in Elements(order) <==> s in m;
    assert t in Elements(order) <==> t in m;
    assert u in Elements(order) <==> u in m;
    assert IsAltMode(s) && IsAltMode(t) && IsAltMode(u);
  }

  /** No sequence is cut by a chunk or has control characters inside, and screens are switched by one mode. */
  ghost predicate Plain(chunks: seq<seq<byte>>) {
    Uncut(chunks) && Clean(Concat(chunks)) && exists k: nat :: IsAltMode(k) && OneSwitch(Concat(chunks), k)
  }

  /** The scanned modes say which screen a resized terminal shows. */
  lemma ScreenIsKnown(w: nat, h: nat, cap: nat, defaults: set<nat>, run: seq<Happening>, order: seq<Mode>)
    requires w > 0 && h > 0 && !AltIn(defaults)
    requires Proper(Start(w, h, cap, defaults), run) && Scans(order, ChunksOf(run)) && Plain(ChunksOf(run))
    ensures Lived(Start(w, h, cap, defaults), run).term.alt == AltIn(Elements(order))
  {
    var chunks := ChunksOf(run);
    var k: nat :| IsAltMode(k) && OneSwitch(Concat(chunks), k);
    LivedModes(Start(w, h, cap, defaults), Start(w, h, cap, defaults), run);
    ScannerKnowsTheScreen(w, h, cap, defaults, chunks, k);
    ListedModes(order, chunks);
    AltListed(order, chunks);
  }

  // ---------------------------------------------------------------- what arrives

  /**
   For all chunks and resizes, with the modes the daemon scanned from the chunks: what arrives, and
   when the history does. Plain output is never taken for the wrong screen.
   */
  lemma ReplayOfSession(w: nat, h: nat, cap: nat, defaults: set<nat>, run: seq<Happening>, order: seq<Mode>)
    requires w > 0 && h > 0 && !AltIn(defaults)
    requires Proper(Start(w, h, cap, defaults), run) && Scans(order, ChunksOf(run))
    requires Seasoned(Lived(Start(w, h, cap, defaults), run).term)
    ensures var v := Lived(Start(w, h, cap, defaults), run);
            var e, c := v.term, Attached(v, order).term;
            && c.screen == e.screen && (c.cx, c.cy) == (e.cx, e.cy)
            && (c.history == (if e.alt then [] else NormRows(e.history, e.w)) <==> e.alt || !c.alt || e.history == [])
            && (Plain(ChunksOf(run)) ==> c.alt == e.alt)
  {
    ReplayOfOutput(Lived(Start(w, h, cap, defaults), run), order);
    if Plain(ChunksOf(run)) {
      ScreenIsKnown(w, h, cap, defaults, run, order);
    }
  }

  /**
   The client has the modes it started with and those that were scanned. On output whose sequences
   are whole these are the session's modes if and only if no mode that was on from the start is off.
   */
  lemma ModesRestoredIff(w: nat, h: nat, cap: nat, defaults: set<nat>, run: seq<Happening>, order: seq<Mode>)
    requires w > 0 && h > 0 && !AltIn(defaults)
    requires Proper(Start(w, h, cap, defaults), run) && Scans(order, ChunksOf(run))
    requires Seasoned(Lived(Start(w, h, cap, defaults), run).term)
    ensures var chunks := ChunksOf(run);
            var v := Lived(Start(w, h, cap, defaults), run);
            var c := Attached(v, order);
            && c.term.modes == defaults + Elements(order)
            && (forall n: nat :: n in Elements(order) <==> n in V.ScanChunkList(chunks, map[]))
            && (Uncut(chunks) && Clean(Concat(chunks)) ==> (c.term.modes == v.term.modes <==> defaults <= v.term.modes))
  {
    var chunks := ChunksOf(run);
    var v := Lived(Start(w, h, cap, defaults), run);
    ListedModes(order, chunks);
    LivedKeepsDefaults(Start(w, h, cap, defaults), run);
    if Uncut(chunks) && Clean(Concat(chunks)) {
      ModesTracked(w, h, cap, defaults, run);
      forall n: nat
        ensures n in v.term.modes ==> n in defaults + Elements(order)
        ensures defaults <= v.term.modes && n in defaults + Elements(order) ==> n in v.term.modes
      {
      }
    }
  }

  lemma ModesTracked(w: nat, h: nat, cap: nat, defaults: set<nat>, run: seq<Happening>)
    requires w > 0 && h > 0 && !AltIn(defaults) && Proper(Start(w, h, cap, defaults), run)
    requires Uncut(ChunksOf(run)) && Clean(Concat(ChunksOf(run)))
    ensures Tracks(V.ScanChunkList(ChunksOf(run), map[]), Lived(Start(w, h, cap, defaults), run).term.modes, defaults)
  {
    LivedModes(Start(w, h, cap, defaults), Start(w, h, cap, defaults), run);
    ScannerAgrees(w, h, cap, defaults, ChunksOf(run));
  }

  /** The condition on the session's terminal alone: as a client starts, with nothing behind the alternate screen. */
  ghost predicate Bare(v: Vt) {
    && Settled(v)
    && (AUTOWRAP in v.term.defaults ==> Wraps(v.term))
    && (v.term.alt ==> v.term.history == [] && IsBlank(v.term.saved, v.term.w))
  }

  /** After plain output, with the scanned modes, the condition for looking the same is one on the terminal alone. */
  lemma SessionThenLiveIff(w: nat, h: nat, cap: nat, defaults: set<nat>, run: seq<Happening>, order: seq<Mode>)
    requires w > 0 && h > 0 && !AltIn(defaults)
    requires Proper(Start(w, h, cap, defaults), run) && Scans(order, ChunksOf(run)) && Plain(ChunksOf(run))
    requires var v := Lived(Start(w, h, cap, defaults), run); Seasoned(v.term) && Showing(Attached(v, order), v)
    ensures var v := Lived(Start(w, h, cap, defaults), run);
            SameFuture(Attached(v, order), v) <==> Bare(v)
  {
    var v := Lived(Start(w, h, cap, defaults), run);
    LiveAfterReplayIff(v, order);
    ScreenIsKnown(w, h, cap, defaults, run, order);
    ModesTracked(w, h, cap, defaults, run);
    ListedModes(order, ChunksOf(run));
    LivedKeepsDefaults(Start(w, h, cap, defaults), run);
  }

  // ---------------------------------------------------------------- joining a running session

  function AsRun(chunks: seq<seq<byte>>): (r: seq<Happening>)
    ensures |r| == |chunks|
  {
    if chunks == [] then [] else [Chunk(chunks[0])] + AsRun(chunks[1..])
  }

  lemma {:induction false} LivedChunks(v: Vt, more: seq<seq<byte>>)
    requires VtOk(v)
    ensures Proper(v, AsRun(more)) && Lived(v, AsRun(more)) == Feed(v, Widen(Concat(more)))
    ensures ChunksOf(AsRun(more)) == more
    decreases more
  {
    if more != [] {
      LivedChunks(Feed(v, Widen(more[0])), more[1..]);
      WidenConcat(more[0], Concat(more[1..]));
      FeedConcat(v, Widen(more[0]), Widen(Concat(more[1..])));
      SplitAt(more, 1);
    }
  }

  /** One run after another. */
  lemma {:induction false} LivedOn(v: Vt, run: seq<Happening>, more: seq<Happening>)
    requires VtOk(v) && Proper(v, run) && Proper(Lived(v, run), more)
    ensures Proper(v, run + more) && Lived(v, run + more) == Lived(Lived(v, run), more)
    ensures ChunksOf(run + more) == ChunksOf(run) + ChunksOf(more)
    decreases run
  {
    if run == [] {
      AppendNothing(more);
    } else {
      TailOfAppend(run, more);
      match run[0]
      case Chunk(b) =>
        LivedOn(Feed(v, Widen(b)), run[1..], more);
        AppendAssoc([b], ChunksOf(run[1..]), ChunksOf(more));
      case Resize(to) =>
        LivedOn(to, run[1..], more);
        AppendNothing(ChunksOf(run[1..]));
        AppendNothing(ChunksOf(run[1..]) + ChunksOf(more));
    }
  }

  /** A client fed the replay and then more chunks looks like the session's terminal after them. */
  lemma ClientLivesOn(start: Vt, run: seq<Happening>, order: seq<Mode>, more: seq<seq<byte>>)
    requires VtOk(start) && Proper(start, run)
    requires Seasoned(Lived(start, run).term) && Carries(Lived(start, run), order)
    ensures var all := run + AsRun(more);
            && Proper(start, all) && ChunksOf(all) == ChunksOf(run) + more
            && Seen(Feed(Attached(Lived(start, run), order), Widen(Concat(more)))) == Seen(Lived(start, all))
  {
    LiveAfterReplay(Lived(start, run), order, Widen(Concat(more)));
    LivedChunks(Lived(start, run), more);
    LivedOn(start, run, AsRun(more));
  }

  /**
   The client of a subscription gets the replay made when it joined, then what its channel took or
   still queues. Whatever happened before the join: unless its queue was found full, the client looks
   like the session's terminal after the output of `before` and that of `after` up to the end of the
   subscription. While it is subscribed that is all there is.
   */
  lemma JoinedSession(before: seq<S.Event>, p: S.Session, c: S.Conn, ch: S.ChanId, after: seq<S.Event>, s: S.Session,
                      start: Vt, run: seq<Happening>, order: seq<Mode>)
    requires S.Leads(S.NewSession(), before, p) && ch !in p.chans && p.Ok()
    requires S.Leads(S.Step(p, S.Join(c, ch)), after, s)
    requires ch in s.chans && !s.chans[ch].dropped
    requires VtOk(start) && Proper(start, run) && ChunksOf(run) == S.EmittedIn(before)
    requires Seasoned(Lived(start, run).term) && Carries(Lived(start, run), order)
    ensures var got := s.chans[ch].Got();
            var all := run + AsRun(got);
            && got == (if S.End in before then [] else S.OfferedIn(after, ch))
            && Proper(start, all) && ChunksOf(all) == S.EmittedIn(before) + got
            && (ch in s.subs ==> ChunksOf(all) == S.EmittedIn(before) + S.EmittedIn(after))
            && Seen(Feed(Attached(Lived(start, run), order), Widen(Concat(got)))) == Seen(Lived(start, all))
  {
    S.NoGapNoDuplicate(before, p, c, ch, after, s);
    ClientLivesOn(start, run, order, s.chans[ch].Got());
  }
}
