/** The promises of the attach replay, read off the state a client arrives in. */
module ReplayTheorems {
  import opened Common
  import opened Terminal
  import opened Replay
  import opened ReplayRoundTrip

  function Blanks(n: nat, w: nat): seq<Row> {
    seq(n, _ => BlankRow(w, PLAIN))
  }

  /** The client that consumed the replay of e, made with the modes listed in `order`. */
  ghost function Client(e: Term, order: seq<Mode>, height: nat): (c: Term)
    requires Replayable(e) && e.h <= height
    ensures Arrived(c, e, order, height)
  {
    ReplayArrives(e, order, height);
    Feed(Vt(Fresh(e.w, height, e.cap, e.defaults), Ground), ReplaySyms(e, order)).term
  }

  lemma NormRowsConcat(a: seq<Row>, b: seq<Row>, w: nat)
    ensures NormRows(a + b, w) == NormRows(a, w) + NormRows(b, w)
  {
  }

  /** As many rows on the screen as in b: the screen is b, the history a. */
  lemma LaidOutSplit(a: seq<Row>, b: seq<Row>, screen: seq<Row>, history: Option<seq<Row>>, w: nat)
    requires LaidOut(a + b, screen, history, w) && |screen| == |b|
    ensures screen == b && (history.Some? ==> history.value == a)
  {
    TailIsScreen(a + b, a, b);
    AppendNothing(screen);
  }

  /** With room for all rows, they are the top of the screen. */
  lemma LaidOutFits(rows: seq<Row>, screen: seq<Row>, history: Option<seq<Row>>, w: nat)
    requires LaidOut(rows, screen, history, w) && |rows| <= |screen|
    ensures screen == rows + Blanks(|screen| - |rows|, w)
  {
    AppendNothing(rows);
    SplitAt(screen, |rows|);
    BlankTail(screen, |rows|, w);
  }

  lemma ArrivedSameSize(c: Term, e: Term, order: seq<Mode>, a: seq<Row>, b: seq<Row>)
    requires Replayable(e) && !e.alt && Arrived(c, e, order, e.h)
    requires a == NormRows(e.history, e.w) && b == NormRows(e.screen, e.w)
    ensures c.history == (if c.alt then [] else a) && c.screen == b
    ensures (c.cx, c.cy) == (e.cx, e.cy)
  {
    NormRowsConcat(e.history, e.screen, e.w);
    LaidOutSplit(a, b, c.screen, if c.alt then None else Some(c.history), e.w);
  }

  /** Same size, main screen: history, screen and cursor come back, and no style is left in the pen. */
  lemma SameSizeRoundTrip(e: Term, order: seq<Mode>)
    requires Replayable(e) && !e.alt && !AltIn(Elements(order))
    ensures var c := Client(e, order, e.h);
            && c.history == NormRows(e.history, e.w)
            && c.screen == NormRows(e.screen, e.w)
            && (c.cx, c.cy) == (e.cx, e.cy)
            && c.pen == PLAIN && c.modes == e.defaults + Elements(order)
  {
    ArrivedSameSize(Client(e, order, e.h), e, order, NormRows(e.history, e.w), NormRows(e.screen, e.w));
  }

  /** Taller client: history and screen together start with the original ones, and the cursor is on its own line. */
  lemma TallerClient(e: Term, order: seq<Mode>, height: nat)
    requires Replayable(e) && !e.alt && !AltIn(Elements(order)) && e.h <= height
    ensures var c := Client(e, order, height);
            && var all := c.history + c.screen;
               var n := |e.history| + e.h;
            && n <= |all|
            && all == NormRows(e.history, e.w) + NormRows(e.screen, e.w) + Blanks(|all| - n, e.w)
            && |c.history| + c.cy == |e.history| + e.cy
            && c.cx == e.cx
  {
    var c := Client(e, order, height);
    var rows := NormRows(Carried(e), e.w);
    var top := if |rows| < height then 0 else |rows| - height;
    NormRowsConcat(e.history, e.screen, e.w);
    SplitAt(c.screen, |rows| - top);
    BlankTail(c.screen, |rows| - top, e.w);
    SplitAt(rows, top);
  }

  /** Alternate screen: only the frame is replayed, and nothing is pushed into the client's history. */
  lemma AltScreenRoundTrip(e: Term, order: seq<Mode>, height: nat)
    requires Replayable(e) && e.alt && e.h <= height
    ensures var c := Client(e, order, height);
            && c.history == []
            && c.screen == NormRows(e.screen, e.w) + Blanks(height - e.h, e.w)
            && (c.cx, c.cy) == (e.cx, e.cy)
            && c.alt == AltIn(Elements(order))
  {
    AppendNothing(e.screen);
    ArrivedFrame(Client(e, order, height), e, order, height, NormRows(e.screen, e.w));
  }

  lemma ArrivedFrame(c: Term, e: Term, order: seq<Mode>, height: nat, rows: seq<Row>)
    requires Replayable(e) && e.alt && e.h <= height && Arrived(c, e, order, height)
    requires Carried(e) == e.screen && rows == NormRows(e.screen, e.w)
    ensures c.history == [] && c.screen == rows + Blanks(height - e.h, e.w) && (c.cx, c.cy) == (e.cx, e.cy)
  {
    LaidOutFits(rows, c.screen, if c.alt then None else Some(c.history), e.w);
  }

  lemma BlankTail(screen: seq<Row>, n: nat, w: nat)
    requires n <= |screen| && forall i :: n <= i < |screen| ==> screen[i] == BlankRow(w, PLAIN)
    ensures screen[n..] == Blanks(|screen| - n, w)
  {
  }

  /**
   The mode lead comes from a byte scan that misses a sequence cut across chunks. If it
   wrongly says the alternate screen shows, the history is printed where it cannot be
   kept: it is restored exactly when the scan agrees or there is none.
   */
  lemma HistoryRestoredIff(e: Term, order: seq<Mode>)
    requires Replayable(e) && !e.alt
    ensures var c := Client(e, order, e.h);
            && (c.history == NormRows(e.history, e.w) <==> !AltIn(Elements(order)) || e.history == [])
            && c.screen == NormRows(e.screen, e.w)
            && (c.cx, c.cy) == (e.cx, e.cy)
  {
    if !AltIn(Elements(order)) {
      SameSizeRoundTrip(e, order);
    } else {
      ArrivedSameSize(Client(e, order, e.h), e, order, NormRows(e.history, e.w), NormRows(e.screen, e.w));
    }
  }

  lemma TailIsScreen(rows: seq<Row>, a: seq<Row>, b: seq<Row>)
    requires rows == a + b
    ensures rows[|a|..] == b && rows[..|a|] == a
  {
  }

  lemma FeedThree(v: Vt, a: seq<Sym>, b: seq<Sym>, c: seq<Sym>)
    requires VtOk(v)
    ensures Feed(v, a + b + c) == Feed(Feed(Feed(v, a), b), c)
  {
    FeedConcat(v, a, b);
    FeedConcat(v, a + b, c);
  }

  // ---------------------------------------------------------------- states a terminal really reaches

  /** A row as printing makes it: full width, every cell filled, no links. */
  predicate Filled(row: Row, w: nat) {
    |row| == w && RowOk(row)
    && forall i :: 0 <= i < w ==> row[i] == SHADOW || (row[i].width > 0 && row[i].content.Some? && row[i].link.None?)
  }

  predicate AllFilled(rows: seq<Row>, w: nat) {
    forall i :: 0 <= i < |rows| ==> Filled(rows[i], w)
  }

  /** A terminal whose rows were all printed; lines of its history may come from when it was narrower. */
  predicate Seasoned(t: Term) {
    TermOk(t) && AllFilled(t.screen, t.w) && AllFilled(t.saved, t.w) && Narrower(t.history, t.w)
  }

  predicate Narrower(history: seq<Row>, w: nat) {
    forall k :: 0 <= k < |history| ==> |history[k]| <= w && Filled(history[k], |history[k]|)
  }

  predicate AsWide(history: seq<Row>, w: nat) {
    forall k :: 0 <= k < |history| ==> |history[k]| == w
  }

  /** A terminal as output leaves it when it was never resized. */
  predicate Reached(t: Term) {
    Seasoned(t) && AsWide(t.history, t.w)
  }

  /** u is such a terminal too if t is. */
  predicate StaysReached(t: Term, u: Term)
    requires Seasoned(t)
  {
    Seasoned(u) && (Reached(t) ==> Reached(u))
  }

  lemma FilledIsNormal(rows: seq<Row>, w: nat)
    requires AllFilled(rows, w)
    ensures NormRows(rows, w) == rows
  {
    forall k | 0 <= k < |rows|
      ensures NormRow(rows[k], w) == rows[k]
    {
    }
  }

  lemma BlankFilled(w: nat, style: Style)
    ensures Filled(BlankRow(w, style), w)
  {
    BlankRowOk(w, style);
  }

  lemma PutFilled(row: Row, x: nat, s: Sym, style: Style, w: nat)
    requires Filled(row, w) && s.Cols() in {1, 2} && x + s.Cols() <= |row|
    ensures Filled(Put(row, x, s, style), w)
  {
    PutOk(row, x, s, style);
    DetachOk(row, x, PLAIN);
  }

  lemma PushFilled(history: seq<Row>, row: Row, cap: nat, w: nat)
    requires Narrower(history, w) && Filled(row, w)
    ensures var r := Push(history, row, cap); Narrower(r, w) && (AsWide(history, w) ==> AsWide(r, w))
  {
  }

  lemma LineFeedReached(t: Term)
    requires Seasoned(t)
    ensures StaysReached(t, LineFeed(t))
  {
    LineFeedOk(t);
    BlankFilled(t.w, PLAIN.(bg := t.pen.bg));
    PushFilled(t.history, t.screen[0], t.cap, t.w);
  }

  lemma PlaceReached(t: Term, n: nat)
    requires Seasoned(t) && 0 < n <= t.w
    ensures StaysReached(t, Place(t, n))
  {
    PlaceOk(t, n);
    LineFeedReached(CarriageReturn(t));
  }

  lemma OverwriteReached(t: Term, s: Sym)
    requires Seasoned(t) && !t.pending && s.Cols() in {1, 2} && t.cx + s.Cols() <= t.w
    ensures StaysReached(t, Overwrite(t, s))
  {
    PutOk(t.screen[t.cy], t.cx, s, t.pen);
    PutFilled(t.screen[t.cy], t.cx, s, t.pen, t.w);
  }

  lemma PrintReached(t: Term, s: Sym)
    requires Seasoned(t) && s.Cols() in {1, 2}
    ensures StaysReached(t, Print(t, s))
  {
    if s.Cols() <= t.w {
      PlaceOk(t, s.Cols());
      PlaceReached(t, s.Cols());
      OverwriteReached(Place(t, s.Cols()), s);
    }
  }

  lemma SwitchReached(t: Term, n: nat)
    requires Seasoned(t)
    ensures StaysReached(t, SetMode(t, n)) && StaysReached(t, ResetMode(t, n))
  {
    SetModeOk(t, n);
    ResetModeOk(t, n);
    BlankFilled(t.w, PLAIN);
  }

  lemma {:induction false} SetModesReached(t: Term, ns: seq<nat>)
    requires Seasoned(t)
    ensures StaysReached(t, SetModes(t, ns)) && StaysReached(t, ResetModes(t, ns))
    decreases ns
  {
    if ns != [] {
      SwitchReached(t, ns[0]);
      SetModesReached(SetMode(t, ns[0]), ns[1..]);
      SetModesReached(ResetMode(t, ns[0]), ns[1..]);
    }
  }

  lemma EraseFilled(row: Row, x: nat, style: Style, w: nat)
    requires Filled(row, w) && x < w
    ensures Filled(Erase(row, x, style), w)
  {
    EraseOk(row, x, style);
    DetachOk(row, x, PLAIN);
  }

  lemma EraseReached(t: Term)
    requires Seasoned(t)
    ensures StaysReached(t, EraseLine(t))
  {
    EraseLineOk(t);
    EraseFilled(t.screen[t.cy], t.cx, PLAIN.(bg := t.pen.bg), t.w);
  }

  /** Only the cursor, the pen, the region or the cursor saved change. */
  predicate SameRows(t: Term, u: Term) {
    t.w == u.w && t.h == u.h && t.history == u.history && t.screen == u.screen && t.saved == u.saved
  }

  lemma SameRowsReached(t: Term, u: Term)
    requires Seasoned(t) && TermOk(u) && SameRows(t, u)
    ensures StaysReached(t, u)
  {
  }

  lemma DispatchKeepsRows(t: Term, ps: seq<nat>, final: Sym)
    requires TermOk(t) && ps != [] && !(final == EL && ps == [0])
    ensures SameRows(t, Dispatch(t, ps, final))
  {
  }

  lemma DispatchReached(t: Term, ps: seq<nat>, final: Sym)
    requires Seasoned(t) && ps != []
    ensures StaysReached(t, Dispatch(t, ps, final))
  {
    if final == EL && ps == [0] {
      EraseReached(t);
    } else {
      DispatchOk(t, ps, final);
      DispatchKeepsRows(t, ps, final);
      SameRowsReached(t, Dispatch(t, ps, final));
    }
  }

  lemma PerformReached(t: Term, a: Action)
    requires Seasoned(t) && ActionOk(a)
    ensures StaysReached(t, Perform(t, a))
  {
    match a
    case Show(s) => PrintReached(t, s);
    case NewLine => LineFeedReached(t);
    case Control(isPrivate, ps, final) =>
      SetModesReached(t, Named(ps));
      DispatchReached(t, Values(ps), final);
    case _ =>
  }

  lemma {:induction false} FeedReached(v: Vt, stream: seq<Sym>)
    requires VtOk(v) && Seasoned(v.term)
    ensures StaysReached(v.term, Feed(v, stream).term)
    decreases stream
  {
    if stream != [] {
      PerformReached(v.term, Parse(v.parser, stream[0]).action);
      FeedReached(Step(v, stream[0]), stream[1..]);
    }
  }

  lemma FreshReached(w: nat, h: nat, cap: nat, defaults: set<nat>)
    requires w > 0 && h > 0 && !AltIn(defaults)
    ensures Reached(Fresh(w, h, cap, defaults))
  {
    BlankFilled(w, PLAIN);
  }

  /** Size, history depth and starting modes. */
  predicate SameSize(t: Term, u: Term) {
    u.w == t.w && u.h == t.h && u.cap == t.cap && u.defaults == t.defaults
  }

  lemma {:induction false} SetModesKeepsSize(t: Term, ns: seq<nat>)
    ensures SameSize(t, SetModes(t, ns)) && SameSize(t, ResetModes(t, ns))
    decreases ns
  {
    if ns != [] {
      SetModesKeepsSize(SetMode(t, ns[0]), ns[1..]);
      SetModesKeepsSize(ResetMode(t, ns[0]), ns[1..]);
    }
  }

  lemma PrintKeepsSize(t: Term, s: Sym)
    requires TermOk(t) && s.Cols() in {1, 2}
    ensures SameSize(t, Print(t, s))
  {
    if s.Cols() <= t.w {
      PlaceOk(t, s.Cols());
    }
  }

  lemma PerformKeepsSize(t: Term, a: Action)
    requires TermOk(t) && ActionOk(a)
    ensures SameSize(t, Perform(t, a))
  {
    match a
    case Show(s) => PrintKeepsSize(t, s);
    case Control(true, ps, final) => SetModesKeepsSize(t, Named(ps));
    case _ =>
  }

  lemma StepKeepsSize(v: Vt, s: Sym)
    requires VtOk(v)
    ensures SameSize(v.term, Step(v, s).term)
  {
    PerformKeepsSize(v.term, Parse(v.parser, s).action);
  }

  lemma {:induction false} FeedKeepsSize(v: Vt, stream: seq<Sym>)
    requires VtOk(v)
    ensures SameSize(v.term, Feed(v, stream).term)
    decreases stream
  {
    if stream != [] {
      StepKeepsSize(v, stream[0]);
      FeedKeepsSize(Step(v, stream[0]), stream[1..]);
    }
  }

  lemma AnyOutputReached(w: nat, h: nat, cap: nat, defaults: set<nat>, output: seq<Sym>)
    requires w > 0 && h > 0 && !AltIn(defaults)
    ensures var e := Feed(Vt(Fresh(w, h, cap, defaults), Ground), output).term;
            Reached(e) && e.w == w && e.h == h
  {
    var v := Vt(Fresh(w, h, cap, defaults), Ground);
    FreshReached(w, h, cap, defaults);
    FeedReached(v, output);
    FeedKeepsSize(v, output);
  }

  lemma ReachedRoundTrip(e: Term, order: seq<Mode>)
    requires Reached(e) && e.alt == AltIn(Elements(order))
    ensures Replayable(e)
    ensures var c := Client(e, order, e.h);
            && c.history == (if e.alt then [] else e.history)
            && c.screen == e.screen
            && (c.cx, c.cy) == (e.cx, e.cy)
            && c.alt == e.alt
  {
    FilledIsNormal(e.history, e.w);
    FilledIsNormal(e.screen, e.w);
    if e.alt {
      AltScreenRoundTrip(e, order, e.h);
      AppendNothing(e.screen);
    } else {
      SameSizeRoundTrip(e, order);
    }
  }
}
