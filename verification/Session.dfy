/**
 One shared PTY session (internal/daemon/session.go): size ownership, subscriber
 channels, output fan-out and the end of the session. The datatype gives the meaning
 of each method of the class below it; runs are sequences of those meanings.
 */
module Sessions {
  import opened Common
  import VtMode

  type Conn = nat
  type ChanId = nat
  type Chunk = seq<byte>

  /** Depth of a subscriber's channel. */
  const SUB_BUFFER := 1024

  // ---------------------------------------------------------------- channels

  /**
   A subscriber's channel and its history: which chunks it was offered
   (the session's chunks number start up to stop) and which it has taken.
   */
  datatype Chan = Chan(conn: Conn, start: nat, stop: nat, taken: seq<Chunk>,
                       queue: seq<Chunk>, dropped: bool, closed: bool) {

    /** A non-blocking send; Go panics if the channel is closed. */
    function Offer(b: Chunk): Chan
      requires !closed
    {
      if |queue| < SUB_BUFFER
      then this.(queue := queue + [b], stop := stop + 1)
      else this.(dropped := true, stop := stop + 1)
    }

    /** Go panics if the channel is already closed. */
    function Close(): Chan
      requires !closed
    {
      this.(closed := true)
    }

    function Take(): Chan
      requires queue != []
    {
      this.(taken := taken + [queue[0]], queue := queue[1..])
    }

    function Got(): seq<Chunk> {
      taken + queue
    }
  }

  // ---------------------------------------------------------------- sessions

  datatype Session = Session(
    owner: Option<Conn>,
    subs: map<ChanId, Conn>,
    chans: map<ChanId, Chan>,
    emitted: seq<Chunk>,
    modes: VtMode.Modes,
    reading: bool,          // the read loop still runs
    ended: bool,            // the exit handler has run
    cols: int, rows: int
  ) {

    /** Every subscribed channel exists, belongs to its connection and is open, and an ended session has none. */
    ghost predicate Ok() {
      && subs.Keys <= chans.Keys
      && (forall ch :: ch in subs ==> !chans[ch].closed && chans[ch].conn == subs[ch])
      && (ended ==> subs == map[] && !reading)
    }

    function ClaimIfUnowned(c: Conn): Session {
      if owner.None? then this.(owner := Some(c)) else this
    }

    function Take(c: Conn): Session {
      this.(owner := Some(c))
    }

    /**
     Who may inherit the size when c lets go of it: any other subscriber, or nobody if there
     is none. When somebody else owns it there is nothing to inherit.
     */
    predicate MayInherit(c: Conn, heir: Option<Conn>) {
      (owner.Some? && owner != Some(c))
      || match heir
         case Some(h) => h != c && h in subs.Values
         case None => forall h :: h in subs.Values ==> h == c
    }

    function Release(c: Conn, heir: Option<Conn>): Session {
      if owner == Some(c) || owner.None? then this.(owner := heir) else this
    }

    function Resize(w: int, h: int): Session {
      if w <= 0 || h <= 0 then this else this.(cols := w, rows := h)
    }

    function Output(b: Chunk): Session
      requires Ok()
    {
      this.(emitted := emitted + [b],
            modes := VtMode.Scan(b, modes),
            chans := map ch | ch in chans :: if ch in subs then chans[ch].Offer(b) else chans[ch])
    }

    /** A subscription of c on the fresh channel ch; after the end it is born closed and gets no snapshot. */
    function Subscribe(c: Conn, ch: ChanId): Session {
      var n := |emitted|;
      if ended then this.(chans := chans[ch := Chan(c, n, n, [], [], false, true)])
      else this.(subs := subs[ch := c], chans := chans[ch := Chan(c, n, n, [], [], false, false)])
    }

    function Unsubscribe(ch: ChanId): Session {
      this.(subs := subs - {ch})
    }

    function Receive(ch: ChanId): Session
      requires ch in chans && chans[ch].queue != []
    {
      this.(chans := chans[ch := chans[ch].Take()])
    }

    function StopReading(): Session {
      this.(reading := false)
    }

    function Exit(): Session
      requires Ok()
    {
      this.(ended := true, subs := map[],
            chans := map ch | ch in chans :: if ch in subs then chans[ch].Close() else chans[ch])
    }
  }

  function NewSession(): Session {
    Session(None, map[], map[], [], map[], true, false, 0, 0)
  }

  // ---------------------------------------------------------------- runs

  datatype Event =
    | Claim(c: Conn)
    | Own(c: Conn)
    | Let(c: Conn, heir: Option<Conn>)
    | SetSize(w: int, h: int)
    | Emit(b: Chunk)
    | Join(c: Conn, ch: ChanId)
    | Leave(ch: ChanId)
    | Read(ch: ChanId)
    | ReaderDone
    | End

  /** Output comes from the read loop; the exit handler runs once, after the loop. */
  predicate Enabled(s: Session, e: Event) {
    match e
    case Let(c, heir) => s.MayInherit(c, heir)
    case Emit(_) => s.reading
    case Join(_, ch) => ch !in s.chans
    case Read(ch) => ch in s.chans && s.chans[ch].queue != []
    case End => !s.reading && !s.ended
    case _ => true
  }

  function Step(s: Session, e: Event): (r: Session)
    requires s.Ok() && Enabled(s, e)
    ensures r.Ok()
  {
    match e
    case Claim(c) => s.ClaimIfUnowned(c)
    case Own(c) => s.Take(c)
    case Let(c, heir) => s.Release(c, heir)
    case SetSize(w, h) => s.Resize(w, h)
    case Emit(b) => s.Output(b)
    case Join(c, ch) => s.Subscribe(c, ch)
    case Leave(ch) => s.Unsubscribe(ch)
    case Read(ch) => s.Receive(ch)
    case ReaderDone => s.StopReading()
    case End => s.Exit()
  }

  /** The events lead from one state to the other. */
  ghost predicate Leads(from: Session, events: seq<Event>, s: Session) {
    if events == [] then s == from
    else
      var n := |events| - 1;
      exists p: Session :: Leads(from, events[..n], p) && p.Ok() && Enabled(p, events[n]) && s == Step(p, events[n])
  }

  // ---------------------------------------------------------------- no gap, no duplicate

  /** a can be obtained from b by leaving elements out. */
  ghost predicate Subsequence<T>(a: seq<T>, b: seq<T>)
    decreases b
  {
    a == [] || (b != [] &&
      var b' := b[..|b| - 1];
      (a[|a| - 1] == b[|b| - 1] && Subsequence(a[..|a| - 1], b')) || Subsequence(a, b'))
  }

  lemma SubsequenceSnoc<T>(a: seq<T>, b: seq<T>, x: T)
    requires Subsequence(a, b)
    ensures Subsequence(a + [x], b + [x]) && Subsequence(a, b + [x])
  {
    assert (a + [x])[..|a|] == a && (b + [x])[..|b|] == b;
  }

  /** What a channel was given: in order, from its snapshot point on, everything unless it was ever found full. */
  ghost predicate Delivered(c: Chan, emitted: seq<Chunk>) {
    && c.start <= c.stop <= |emitted|
    && |c.queue| <= SUB_BUFFER
    && Subsequence(c.Got(), emitted[c.start..c.stop])
    && (!c.dropped ==> c.Got() == emitted[c.start..c.stop])
  }

  ghost predicate Good(s: Session) {
    && s.Ok()
    && (forall ch :: ch in s.chans ==> Delivered(s.chans[ch], s.emitted))
    && (forall ch :: ch in s.subs ==> s.chans[ch].stop == |s.emitted|)
    && s.modes == VtMode.ScanChunkList(s.emitted, map[])
    && VtMode.Scanned(s.modes)
  }

  lemma OfferDelivers(c: Chan, emitted: seq<Chunk>, b: Chunk)
    requires Delivered(c, emitted) && !c.closed && c.stop == |emitted|
    ensures Delivered(c.Offer(b), emitted + [b])
  {
    var part, more := emitted[c.start..c.stop], (emitted + [b])[c.start..c.stop + 1];
    GrowsBy(emitted, c.start, b);
    assert more == part + [b];
    OfferGets(c, b);
    SubsequenceSnoc(c.Got(), part, b);
  }

  lemma OfferGets(c: Chan, b: Chunk)
    requires !c.closed
    ensures c.Offer(b).Got() == if |c.queue| < SUB_BUFFER then c.Got() + [b] else c.Got()
  {
    AppendAssoc(c.taken, c.queue, [b]);
  }

  lemma GrowsBy(emitted: seq<Chunk>, k: nat, b: Chunk)
    requires k <= |emitted|
    ensures (emitted + [b])[k..|emitted| + 1] == emitted[k..|emitted|] + [b]
  {
  }

  lemma EarlierDelivers(c: Chan, emitted: seq<Chunk>, b: Chunk)
    requires Delivered(c, emitted)
    ensures Delivered(c, emitted + [b])
  {
    assert (emitted + [b])[c.start..c.stop] == emitted[c.start..c.stop];
  }

  lemma {:induction false} ScanListSnoc(chunks: seq<Chunk>, b: Chunk, m: VtMode.Modes)
    ensures VtMode.ScanChunkList(chunks + [b], m) == VtMode.Scan(b, VtMode.ScanChunkList(chunks, m))
    decreases chunks
  {
    if chunks == [] {
      assert VtMode.ScanChunkList([b][1..], VtMode.Scan(b, m)) == VtMode.Scan(b, m);
    } else {
      assert (chunks + [b])[1..] == chunks[1..] + [b];
      ScanListSnoc(chunks[1..], b, VtMode.Scan(chunks[0], m));
    }
  }

  lemma OutputKeepsGood(s: Session, b: Chunk)
    requires Good(s)
    ensures Good(s.Output(b))
  {
    var r := s.Output(b);
    forall ch | ch in r.chans
      ensures Delivered(r.chans[ch], r.emitted)
    {
      if ch in s.subs {
        OfferDelivers(s.chans[ch], s.emitted, b);
      } else {
        EarlierDelivers(s.chans[ch], s.emitted, b);
      }
    }
    ScanListSnoc(s.emitted, b, map[]);
    VtMode.ScanKeepsScanned(b, 0, s.modes);
  }

  lemma ReceiveKeepsGood(s: Session, ch: ChanId)
    requires Good(s) && ch in s.chans && s.chans[ch].queue != []
    ensures Good(s.Receive(ch))
  {
    var r := s.Receive(ch);
    assert s.chans[ch].Take().Got() == s.chans[ch].Got();
    forall k | k in r.chans
      ensures Delivered(r.chans[k], r.emitted)
    {
      assert k in s.chans && Delivered(s.chans[k], s.emitted);
    }
  }

  lemma StepKeepsGood(s: Session, e: Event)
    requires Good(s) && Enabled(s, e)
    ensures Good(Step(s, e))
  {
    match e
    case Emit(b) => OutputKeepsGood(s, b);
    case Read(ch) => ReceiveKeepsGood(s, ch);
    case _ =>
  }

  /** In every run, every channel that ever subscribed was given exactly what it should have been. */
  lemma {:induction false} RunsAreGood(from: Session, events: seq<Event>, s: Session)
    requires Good(from) && Leads(from, events, s)
    ensures Good(s)
    decreases events
  {
    if events != [] {
      var n := |events| - 1;
      var p: Session :| Leads(from, events[..n], p) && p.Ok() && Enabled(p, events[n]) && s == Step(p, events[n]);
      RunsAreGood(from, events[..n], p);
      StepKeepsGood(p, events[n]);
    }
  }

  lemma NewIsGood()
    ensures Good(NewSession())
  {
  }

  /** r is s, ended as it was, except for channels read on and channels subscribed too late. */
  ghost predicate Frozen(s: Session, r: Session) {
    && r.ended && r.subs == map[] && r.emitted == s.emitted
    && (forall ch :: ch in s.chans ==>
          ch in r.chans && r.chans[ch].closed == s.chans[ch].closed && r.chans[ch].Got() == s.chans[ch].Got()
          && r.chans[ch].conn == s.chans[ch].conn)
    && forall ch :: ch in r.chans && ch !in s.chans ==> r.chans[ch].closed && r.chans[ch].Got() == []
  }

  lemma EndedStep(s: Session, e: Event)
    requires s.Ok() && s.ended && Enabled(s, e)
    ensures Frozen(s, Step(s, e))
  {
    if e.Read? {
      assert s.chans[e.ch].Take().Got() == s.chans[e.ch].Got();
    }
  }

  /**
   After the end, over every run: nobody is subscribed, nothing more is emitted or delivered, no
   channel is reopened, and a late channel is born closed and never holds anything.
   */
  lemma {:induction false} EndIsFinal(s: Session, events: seq<Event>, r: Session)
    requires s.Ok() && s.ended && Leads(s, events, r)
    ensures r.Ok() && Frozen(s, r)
    decreases events
  {
    if events != [] {
      var n := |events| - 1;
      var p: Session :| Leads(s, events[..n], p) && p.Ok() && Enabled(p, events[n]) && r == Step(p, events[n]);
      EndIsFinal(s, events[..n], p);
      EndedStep(p, events[n]);
    }
  }

  // ---------------------------------------------------------------- what the events say

  /** The output of a run, in order. */
  function EmittedIn(events: seq<Event>): seq<Chunk> {
    if events == [] then []
    else
      var n := |events| - 1;
      EmittedIn(events[..n]) + if events[n].Emit? then [events[n].b] else []
  }

  /** Neither the channel nor the session has ended. */
  predicate StillOn(events: seq<Event>, ch: ChanId) {
    Leave(ch) !in events && End !in events
  }

  /** The output up to the end of the subscription. */
  function OfferedIn(events: seq<Event>, ch: ChanId): seq<Chunk> {
    if events == [] then []
    else
      var n := |events| - 1;
      OfferedIn(events[..n], ch) + if events[n].Emit? && StillOn(events[..n], ch) then [events[n].b] else []
  }

  function ReadsIn(events: seq<Event>, ch: ChanId): nat {
    if events == [] then 0
    else
      var n := |events| - 1;
      ReadsIn(events[..n], ch) + if events[n] == Read(ch) then 1 else 0
  }

  /** The session ended while the channel was subscribed. */
  predicate ClosedIn(events: seq<Event>, ch: ChanId) {
    events != [] &&
    var n := |events| - 1;
    ClosedIn(events[..n], ch) || (events[n] == End && StillOn(events[..n], ch))
  }

  lemma StillOnSnoc(events: seq<Event>, ch: ChanId)
    requires events != []
    ensures var n := |events| - 1;
            StillOn(events, ch) <==> StillOn(events[..n], ch) && events[n] != Leave(ch) && events[n] != End
  {
    var n := |events| - 1;
    assert events == events[..n] + [events[n]];
  }

  lemma {:induction false} OfferedWhileOn(events: seq<Event>, ch: ChanId)
    requires StillOn(events, ch)
    ensures OfferedIn(events, ch) == EmittedIn(events)
  {
    if events != [] {
      StillOnSnoc(events, ch);
      OfferedWhileOn(events[..|events| - 1], ch);
    }
  }

  /** All output of a run is kept, in order, and nothing else. */
  lemma {:induction false} RunEmits(from: Session, events: seq<Event>, s: Session)
    requires Leads(from, events, s)
    ensures s.emitted == from.emitted + EmittedIn(events)
    decreases events
  {
    if events == [] {
      AppendNothing(from.emitted);
    } else {
      var n := |events| - 1;
      var p: Session :| Leads(from, events[..n], p) && p.Ok() && Enabled(p, events[n]) && s == Step(p, events[n]);
      RunEmits(from, events[..n], p);
      EmitStep(p, events[n]);
      AppendNothing(EmittedIn(events[..n]));
      if events[n].Emit? {
        AppendAssoc(from.emitted, EmittedIn(events[..n]), [events[n].b]);
      }
    }
  }

  lemma EmitStep(p: Session, e: Event)
    requires p.Ok() && Enabled(p, e)
    ensures Step(p, e).emitted == if e.Emit? then p.emitted + [e.b] else p.emitted
  {
  }

  /** What a channel that was subscribed when `start` chunks had been emitted has become. */
  ghost predicate Served(s: Session, c: Conn, ch: ChanId, start: nat, events: seq<Event>) {
    && ch in s.chans
    && var k := s.chans[ch];
    && k.conn == c && k.start == start && k.stop == start + |OfferedIn(events, ch)|
    && (k.closed <==> ClosedIn(events, ch))
    && |k.taken| == ReadsIn(events, ch)
    && Subsequence(k.Got(), OfferedIn(events, ch))
    && (!k.dropped ==> k.Got() == OfferedIn(events, ch))
    && (ch in s.subs <==> StillOn(events, ch))
    && (ch in s.subs ==> s.subs[ch] == c)
  }

  lemma ServedStep(p: Session, c: Conn, ch: ChanId, start: nat, events: seq<Event>)
    requires events != []
    requires var n := |events| - 1;
             p.Ok() && Served(p, c, ch, start, events[..n]) && Enabled(p, events[n])
    ensures Served(Step(p, events[|events| - 1]), c, ch, start, events)
  {
    var e := events[|events| - 1];
    var before := events[..|events| - 1];
    StillOnSnoc(events, ch);
    AppendNothing(OfferedIn(before, ch));
    if e.Emit? {
      ServedEmit(p, c, ch, start, before, e.b);
    } else {
      ServedOther(p, ch, e);
    }
  }

  /** A chunk reaches the channel if it is subscribed. */
  lemma ServedEmit(p: Session, c: Conn, ch: ChanId, start: nat, before: seq<Event>, b: Chunk)
    requires p.Ok() && Served(p, c, ch, start, before)
    ensures var k, was, offered := p.Output(b).chans[ch], p.chans[ch], OfferedIn(before, ch);
            && p.Output(b).subs == p.subs
            && k.conn == c && k.start == start && k.closed == was.closed && k.taken == was.taken
            && if StillOn(before, ch)
               then && k.stop == was.stop + 1 && Subsequence(k.Got(), offered + [b])
                    && (!k.dropped ==> k.Got() == offered + [b])
               else k == was
  {
    SubsequenceSnoc(p.chans[ch].Got(), OfferedIn(before, ch), b);
    AppendAssoc(p.chans[ch].taken, p.chans[ch].queue, [b]);
  }

  lemma ServedOther(p: Session, ch: ChanId, e: Event)
    requires p.Ok() && Enabled(p, e) && ch in p.chans && !e.Emit?
    ensures var s := Step(p, e);
            && ch in s.chans
            && var k, was := s.chans[ch], p.chans[ch];
            && k.conn == was.conn && k.start == was.start && k.stop == was.stop && k.dropped == was.dropped
            && k.Got() == was.Got() && |k.taken| == |was.taken| + (if e == Read(ch) then 1 else 0)
            && (k.closed <==> was.closed || (e == End && ch in p.subs))
            && (ch in s.subs <==> ch in p.subs && e != Leave(ch) && e != End)
            && (ch in s.subs ==> s.subs[ch] == p.subs[ch])
  {
    if e.Read? {
      assert p.chans[e.ch].Take().Got() == p.chans[e.ch].Got();
    }
  }

  /** From the moment of subscription on, over every run. */
  lemma {:induction false} RunServes(p: Session, c: Conn, ch: ChanId, after: seq<Event>, s: Session)
    requires p.Ok() && !p.ended && ch !in p.chans && Leads(Step(p, Join(c, ch)), after, s)
    ensures Served(s, c, ch, |p.emitted|, after)
    decreases after
  {
    if after != [] {
      var n := |after| - 1;
      var q: Session :| Leads(Step(p, Join(c, ch)), after[..n], q) && q.Ok() && Enabled(q, after[n])
                       && s == Step(q, after[n]);
      RunServes(p, c, ch, after[..n], q);
      ServedStep(q, c, ch, |p.emitted|, after);
    }
  }

  /** A chunk is dropped only if the queue was full when it came. */
  lemma {:induction false} DroppedWhenFull(p: Session, c: Conn, ch: ChanId, after: seq<Event>, s: Session)
    requires p.Ok() && !p.ended && ch !in p.chans && Leads(Step(p, Join(c, ch)), after, s)
    requires ch in s.chans && s.chans[ch].dropped
    ensures exists n: nat, q: Session ::
              && n < |after| && after[n].Emit? && Leads(Step(p, Join(c, ch)), after[..n], q)
              && ch in q.chans && |q.chans[ch].queue| >= 1024
    decreases after
  {
    if after != [] {
      var n := |after| - 1;
      var q: Session :| Leads(Step(p, Join(c, ch)), after[..n], q) && q.Ok() && Enabled(q, after[n])
                       && s == Step(q, after[n]);
      RunServes(p, c, ch, after[..n], q);
      if q.chans[ch].dropped {
        DroppedWhenFull(p, c, ch, after[..n], q);
        var m: nat, r: Session :| m < n && after[..n][m].Emit? && Leads(Step(p, Join(c, ch)), after[..n][..m], r)
                                  && ch in r.chans && |r.chans[ch].queue| >= 1024;
        assert after[..n][..m] == after[..m];
      } else {
        OnlyFullDrops(q, after[n], ch);
      }
    }
  }

  lemma OnlyFullDrops(p: Session, e: Event, ch: ChanId)
    requires p.Ok() && Enabled(p, e) && ch in p.chans && !p.chans[ch].dropped && Step(p, e).chans[ch].dropped
    ensures e.Emit? && |p.chans[ch].queue| >= SUB_BUFFER
  {
  }

  /** Whether the loop still reads and whether the session is over, as the events say. */
  lemma {:induction false} RunEnds(from: Session, events: seq<Event>, s: Session)
    requires Leads(from, events, s)
    ensures s.reading <==> from.reading && ReaderDone !in events
    ensures s.ended <==> from.ended || End in events
    decreases events
  {
    if events != [] {
      var n := |events| - 1;
      var p: Session :| Leads(from, events[..n], p) && p.Ok() && Enabled(p, events[n]) && s == Step(p, events[n]);
      RunEnds(from, events[..n], p);
      EndsStep(p, events[n]);
      InSnoc(events, ReaderDone);
      InSnoc(events, End);
    }
  }

  lemma InSnoc<T>(s: seq<T>, x: T)
    requires s != []
    ensures x in s <==> x in s[..|s| - 1] || x == s[|s| - 1]
  {
  }

  lemma EndsStep(p: Session, e: Event)
    requires p.Ok() && Enabled(p, e)
    ensures Step(p, e).reading <==> p.reading && e != ReaderDone
    ensures Step(p, e).ended <==> p.ended || e == End
  {
  }

  /**
   A subscriber sees every chunk exactly once. Take any run up to a subscription and any run
   after it: the snapshot covers the output before, and what the channel took or still queues is
   the output after it up to the end of the subscription, in order, without repetition; if the
   queue was never found full nothing is missing either.
   */
  lemma NoGapNoDuplicate(before: seq<Event>, p: Session, c: Conn, ch: ChanId, after: seq<Event>, s: Session)
    requires Leads(NewSession(), before, p) && ch !in p.chans && p.Ok()
    requires Leads(Step(p, Join(c, ch)), after, s)
    ensures p.emitted == EmittedIn(before) && s.emitted == EmittedIn(before) + EmittedIn(after)
    ensures ch in s.chans && s.chans[ch].conn == c && |s.chans[ch].queue| <= 1024
    ensures End !in before ==> Served(s, c, ch, |EmittedIn(before)|, after)
    ensures End in before ==> ch !in s.subs && s.chans[ch].closed && s.chans[ch].Got() == []
    ensures ch in s.subs ==> OfferedIn(after, ch) == EmittedIn(after)
  {
    JoinedIsGood(before, p, c, ch, after, s);
    RunEmits(NewSession(), before, p);
    AppendNothing(EmittedIn(before));
    RunEmits(Step(p, Join(c, ch)), after, s);
    RunEnds(NewSession(), before, p);
    if End in before {
      LateJoin(p, c, ch, after, s);
    } else {
      RunServes(p, c, ch, after, s);
      if StillOn(after, ch) {
        OfferedWhileOn(after, ch);
      }
    }
  }

  lemma JoinedIsGood(before: seq<Event>, p: Session, c: Conn, ch: ChanId, after: seq<Event>, s: Session)
    requires Leads(NewSession(), before, p) && ch !in p.chans && p.Ok()
    requires Leads(Step(p, Join(c, ch)), after, s)
    ensures Good(s)
  {
    NewIsGood();
    RunsAreGood(NewSession(), before, p);
    StepKeepsGood(p, Join(c, ch));
    RunsAreGood(Step(p, Join(c, ch)), after, s);
  }

  /** After the end a channel is born closed, and stays empty. */
  lemma LateJoin(p: Session, c: Conn, ch: ChanId, after: seq<Event>, s: Session)
    requires p.Ok() && p.ended && ch !in p.chans && Leads(Step(p, Join(c, ch)), after, s)
    ensures ch in s.chans && ch !in s.subs
    ensures var k := s.chans[ch]; k.conn == c && k.closed && k.Got() == []
  {
    EndIsFinal(Step(p, Join(c, ch)), after, s);
  }

  // ---------------------------------------------------------------- the session object

  class LiveSession {
    var owner: Option<Conn>
    var subs: map<ChanId, Conn>
    var chans: map<ChanId, Chan>
    var nextChan: ChanId
    var reading: bool
    var ended: bool
    var cols: int
    var rows: int
    const modes: VtMode.ModeTable
    var emitted: seq<Chunk>       // stands for the emulator, which is a function of it

    ghost predicate Valid()
      reads this, modes
    {
      State().Ok() && forall ch :: ch in chans ==> ch < nextChan
    }

    ghost function State(): Session
      reads this, modes
    {
      Session(owner, subs, chans, emitted, modes.on, reading, ended, cols, rows)
    }

    constructor ()
      ensures Valid() && State() == NewSession() && fresh(modes)
    {
      owner := None;
      subs, chans, nextChan := map[], map[], 0;
      reading, ended := true, false;
      cols, rows := 0, 0;
      modes := new VtMode.ModeTable();
      emitted := [];
    }

    /** The process could not be started: nothing will ever be read, and the object is dropped. */
    method Discard()
      requires Valid() && State() == NewSession()
      modifies this
      ensures Valid() && State() == NewSession().(reading := false, ended := true)
    {
      reading, ended := false, true;
    }

    method OwnsSize(c: Conn, claim: bool) returns (owns: bool)
      requires Valid()
      modifies this
      ensures Valid() && State() == if claim then old(State()).ClaimIfUnowned(c) else old(State())
      ensures owns <==> owner == Some(c)
    {
      if owner.None? && claim {
        owner := Some(c);
      }
      owns := owner == Some(c);
    }

    method TakeSize(c: Conn)
      requires Valid()
      modifies this
      ensures Valid() && State() == old(State()).Take(c)
    {
      owner := Some(c);
    }

    method ReassignOwnerAfter(c: Conn) returns (next: Option<Conn>)
      requires Valid()
      modifies this
      ensures Valid() && next == owner && owner != Some(c)
      ensures old(State()).MayInherit(c, next)
      ensures State() == old(State()).Release(c, next)
    {
      if owner == Some(c) {
        owner := None;
      }
      if owner.None? {
        var rest := subs.Keys;
        while rest != {} && owner.None?
          invariant rest <= subs.Keys
          invariant owner.None? ==> forall ch :: ch in subs && ch !in rest ==> subs[ch] == c
          invariant owner.Some? ==> owner.value != c && owner.value in subs.Values
          invariant nextChan == old(nextChan) && subs == old(subs) && State() == old(State()).(owner := owner)
          decreases rest
        {
          var ch :| ch in rest;
          rest := rest - {ch};
          if subs[ch] != c {
            owner := Some(subs[ch]);
          }
        }
      }
      next := owner;
    }

    method Resize(w: int, h: int) returns (ok: bool)
      requires Valid()
      modifies this
      ensures Valid() && State() == old(State()).Resize(w, h)
      ensures ok <==> w > 0 && h > 0
    {
      if w <= 0 || h <= 0 {
        return false;
      }
      cols, rows := w, h;
      return true;
    }

    method HandleOutput(b: Chunk)
      requires Valid()
      modifies this, modes
      ensures Valid() && State() == old(State()).Output(b)
      ensures emitted == old(emitted) + [b] && modes.on == VtMode.Scan(b, old(modes.on))
      ensures forall ch :: ch in subs && |old(chans)[ch].queue| < SUB_BUFFER ==>
                ch in chans && chans[ch].Got() == old(chans)[ch].Got() + [b]
    {
      assert forall ch :: ch in subs ==> chans[ch].taken + (chans[ch].queue + [b]) == chans[ch].Got() + [b];
      modes.Update(b);
      emitted := emitted + [b];
      FanOut(b);
      assert chans == old(State()).Output(b).chans;
    }

    /** A non-blocking send to every subscriber. */
    method FanOut(b: Chunk)
      requires Valid()
      modifies this`chans
      ensures chans.Keys == old(chans).Keys
      ensures forall ch :: ch in chans ==> chans[ch] == if ch in subs then old(chans)[ch].Offer(b) else old(chans)[ch]
    {
      var rest := subs.Keys;
      while rest != {}
        invariant rest <= subs.Keys
        invariant chans.Keys == old(chans).Keys
        invariant forall ch :: ch in chans ==>
                    chans[ch] == if ch in subs && ch !in rest then old(chans)[ch].Offer(b) else old(chans)[ch]
        decreases rest
      {
        var ch :| ch in rest;
        rest := rest - {ch};
        var k := chans[ch];
        if |k.queue| < SUB_BUFFER {
          chans := chans[ch := k.(queue := k.queue + [b], stop := k.stop + 1)];
        } else {
          chans := chans[ch := k.(dropped := true, stop := k.stop + 1)];
        }
      }
    }

    /** The new channel and, unless the session is over, the number of chunks its snapshot covers. */
    method SubscribeWithScrollback(c: Conn) returns (ch: ChanId, ghost snapshot: Option<nat>)
      requires Valid()
      modifies this
      ensures Valid() && ch !in old(chans) && State() == old(State()).Subscribe(c, ch)
      ensures snapshot == if ended then None else Some(|emitted|)
    {
      ch := nextChan;
      nextChan := nextChan + 1;
      var n := |emitted|;
      if ended {
        chans := chans[ch := Chan(c, n, n, [], [], false, true)];
        snapshot := None;
        return;
      }
      chans := chans[ch := Chan(c, n, n, [], [], false, false)];
      subs := subs[ch := c];
      snapshot := Some(n);
    }

    method Unsubscribe(ch: ChanId)
      requires Valid()
      modifies this
      ensures Valid() && State() == old(State()).Unsubscribe(ch)
    {
      subs := subs - {ch};
    }

    /** The session half of the exit handler; the connections to notify come back as a map. */
    method EndSubscriptions() returns (writers: map<ChanId, Conn>)
      requires Valid() && !reading
      modifies this
      ensures Valid() && writers == old(subs) && State() == old(State()).Exit()
    {
      ended := true;
      writers := subs;
      CloseAll();
      assert chans == old(State()).Exit().chans;
    }

    method CloseAll()
      requires State().(ended := false).Ok()
      modifies this`subs, this`chans
      ensures subs == map[] && chans.Keys == old(chans).Keys
      ensures forall ch :: ch in chans ==>
                  chans[ch] == if ch in old(subs) then old(chans)[ch].Close() else old(chans)[ch]
    {
      while subs.Keys != {}
        invariant subs.Keys <= old(subs).Keys
        invariant chans.Keys == old(chans).Keys
        invariant forall ch :: ch in chans ==>
                    chans[ch] == if ch in old(subs) && ch !in subs then old(chans)[ch].Close() else old(chans)[ch]
        decreases subs.Keys
      {
        var ch :| ch in subs.Keys;
        subs := subs - {ch};
        chans := chans[ch := chans[ch].Close()];
      }
    }
  }
}
