/**
 What each event does to the daemon, over every run: which sessions are listed, who owns them and
 how large they are, what is written to whom, and what becomes of a session's output.
 */
module DaemonSteps {
  import opened Common
  import opened Sessions
  import opened Daemons

  // ---------------------------------------------------------------- the size of a session

  /** Owner and size are those of the other state. */
  predicate SameHold(s: Session, r: Session) {
    s.owner == r.owner && Size(s) == Size(r)
  }

  /**
   A resize takes effect if and only if nobody else owns the session; the sender then owns it. Only
   the claim is announced.
   */
  lemma ResizeIff(states: seq<Daemon>, events: seq<Daemons.Event>, k: nat, c: Conn, sid: Sid, w: int, h: int)
    requires IsRun(states, events) && k < |events| && events[k] == Handle(c, ResizeTo(sid, w, h))
    requires sid in states[k].listed
    ensures states[k].listed[sid] < |states[k + 1].objs|
    ensures var was, now := states[k].objs[states[k].listed[sid]], states[k + 1].objs[states[k].listed[sid]];
            && (now.owner == Some(c) <==> was.owner in {None, Some(c)})
            && (w > 0 && h > 0 ==> (Size(now) == (w, h) && now.owner == Some(c) <==> was.owner in {None, Some(c)}))
            && (was.owner !in {None, Some(c)} ==> SameHold(now, was))
            && (w <= 0 || h <= 0 ==> Size(now) == Size(was))
            && now.subs == was.subs && now.chans == was.chans
            && (was.owner.Some? ==> states[k + 1].logs == states[k].logs)
  {
    assert StepAt(states, events, k);
  }

  /** An activation makes the sender the owner, at the size it last asked for, if it did. */
  lemma ActivationTakes(states: seq<Daemon>, events: seq<Daemons.Event>, k: nat, c: Conn, sid: Sid, heir: Option<Conn>)
    requires IsRun(states, events) && k < |events| && events[k] == Handle(c, SetActive(sid, Some(true), heir))
    requires sid in states[k].listed
    ensures states[k].listed[sid] < |states[k + 1].objs|
    ensures var was, now := states[k].objs[states[k].listed[sid]], states[k + 1].objs[states[k].listed[sid]];
            && now.owner == Some(c) && now.subs == was.subs && now.chans == was.chans
            && Size(now) == match LastAsked(states, events, k, c, sid)
                            case Some((w, h)) => if w > 0 && h > 0 then (w, h) else Size(was)
                            case None => Size(was)
  {
    assert StepAt(states, events, k);
    SizesAreLastAsked(states, events, k, c, sid);
  }

  // ---------------------------------------------------------------- requests

  /** An attach subscribes the sender, labels its pad and tells it if somebody else owns the size. */
  lemma AttachSubscribes(states: seq<Daemon>, events: seq<Daemons.Event>, k: nat, c: Conn, sid: Sid, ch: ChanId)
    requires IsRun(states, events) && k < |events| && events[k] == Handle(c, Attach(sid, ch))
    requires sid in states[k].listed
    ensures states[k].listed[sid] < |states[k + 1].objs|
    ensures var i := states[k].listed[sid];
            var was, now := states[k].objs[i], states[k + 1].objs[i];
            && SameHold(now, was) && now.ended == was.ended && now.emitted == was.emitted
            && now.subs == (if was.ended then was.subs else was.subs[ch := c])
            && ch !in was.chans && ch in now.chans && now.chans[ch].conn == c
            && now.chans[ch].Got() == [] && (now.chans[ch].closed <==> was.ended)
            && (forall x :: x in was.chans ==> x in now.chans && now.chans[x] == was.chans[x])
            && Log(states[k + 1].logs, c) == Log(states[k].logs, c) + [Button(i), Button(i)]
                 + (if was.owner in {None, Some(c)} then [] else [Flag(i, false)])
  {
    assert StepAt(states, events, k);
    var i := states[k].listed[sid];
    var log := Log(states[k].logs, c);
    AppendAssoc(log, [Button(i)], [Button(i)]);
    assert [Button(i)] + [Button(i)] == [Button(i), Button(i)];
    AppendNothing(log + [Button(i), Button(i)]);
  }

  /** Requests that concern no session's state are answered by one frame, or by none. */
  function Reply(d: Daemon, req: Request): seq<Msg> {
    match req
    case List => [SessionList]
    case New(false, _) => [Error]
    case Attach(sid, _) => if sid in d.listed then [] else [Error]
    case Detach => [Detached]
    case Input(sid, accepted) => if sid in d.listed && accepted then [] else [Error]
    case ListDir => [DirList]
    case Unknown => [Error]
    case _ => []
  }

  /** A request that leaves all sessions alone: the sender gets its reply and nobody else anything. */
  lemma OthersAreLeftAlone(states: seq<Daemon>, events: seq<Daemons.Event>, k: nat, c: Conn, req: Request)
    requires IsRun(states, events) && k < |events| && events[k] == Handle(c, req)
    requires !(req.New? && req.known) && !req.NewCmd?
    requires (req.Attach? || req.ResizeTo? || (req.SetActive? && req.active.Some?)) ==> req.sid !in states[k].listed
    ensures states[k + 1].objs == states[k].objs
    ensures Log(states[k + 1].logs, c) == Log(states[k].logs, c) + Reply(states[k], req)
    ensures forall x: Conn :: x != c ==> Log(states[k + 1].logs, x) == Log(states[k].logs, x)
  {
    assert StepAt(states, events, k);
    AppendNothing(Log(states[k].logs, c));
  }

  /** A new session, or that it could not start, is reported to the sender; the others go on as they were. */
  lemma CreationReplies(states: seq<Daemon>, events: seq<Daemons.Event>, k: nat, c: Conn, req: Request)
    requires IsRun(states, events) && k < |events| && events[k] == Handle(c, req)
    requires req.NewCmd? || (req.New? && req.known)
    ensures states[k].objs <= states[k + 1].objs
    ensures Log(states[k + 1].logs, c)
         == Log(states[k].logs, c) + [if req.starts then Created(|states[k].objs|) else Error]
    ensures forall x: Conn :: x != c ==> Log(states[k + 1].logs, x) == Log(states[k].logs, x)
  {
    assert StepAt(states, events, k);
    CreateBears(states[k], c, req.starts);
    CreateWrites(states[k], c, req.starts);
  }

  lemma CreateWrites(d: Daemon, c: Conn, starts: bool)
    ensures Log(d.Create(c, starts).logs, c) == Log(d.logs, c) + [if starts then Created(|d.objs|) else Error]
    ensures forall x: Conn :: x != c ==> Log(d.Create(c, starts).logs, x) == Log(d.logs, x)
  {
  }

  // ---------------------------------------------------------------- the list of sessions

  /** The request creates a session object. */
  predicate Creates(e: Daemons.Event) {
    e.Handle? && (e.req.NewCmd? || (e.req.New? && e.req.known))
  }

  predicate Starts(req: Request) {
    (req.New? || req.NewCmd?) && req.starts
  }

  /**
   What is listed after each step: a new session under the next id, unless it could not start; a killed
   one and one that exited no longer; nothing else changes.
   */
  lemma ListedAfter(states: seq<Daemon>, events: seq<Daemons.Event>, k: nat)
    requires IsRun(states, events) && k < |events|
    ensures var d, n, e := states[k], states[k + 1], events[k];
            var id := (|d.objs| + 1) % 0x1_0000_0000;
            && |n.objs| == |d.objs| + (if Creates(e) then 1 else 0)
            && n.listed == if Creates(e) then (if Starts(e.req) then d.listed[id := |d.objs|] else d.listed - {id})
                           else if e.Handle? && e.req.Kill? then d.listed - {e.req.sid}
                           else if e.Exits? then d.listed - {(e.i + 1) % 0x1_0000_0000}
                           else d.listed
  {
    assert StepAt(states, events, k);
    RunsKeepIds(states, events, k);
    if events[k].Handle? {
      RequestLists(states[k], events[k].c, events[k].req);
    } else {
      EventLists(states[k], events[k]);
    }
  }

  lemma RequestLists(d: Daemon, c: Conn, req: Request)
    requires d.Ok() && d.nextID == WireId(|d.objs|)
    ensures var n := d.HandleRequest(c, req);
            var creates := req.NewCmd? || (req.New? && req.known);
            && |n.objs| == |d.objs| + (if creates then 1 else 0)
            && n.listed == if creates then (if req.starts then d.listed[WireId(|d.objs|) := |d.objs|]
                                            else d.listed - {WireId(|d.objs|)})
                           else if req.Kill? then d.listed - {req.sid}
                           else d.listed
  {
  }

  lemma EventLists(d: Daemon, e: Daemons.Event)
    requires d.Ok() && Daemons.Enabled(d, e) && !e.Handle?
    ensures |Next(d, e).objs| == |d.objs|
    ensures Next(d, e).listed == if e.Exits? then d.listed - {WireId(e.i)} else d.listed
  {
  }

  /** The step hands out the id to a session that started. */
  predicate HandsOut(d: Daemon, e: Daemons.Event, sid: Sid) {
    Creates(e) && Starts(e.req) && sid == (|d.objs| + 1) % 0x1_0000_0000
  }

  /** An id that is not listed, because its session was killed or has exited, is not until it is handed out again. */
  lemma {:induction false} StaysUnlisted(states: seq<Daemon>, events: seq<Daemons.Event>, k: nat, m: nat, sid: Sid)
    requires IsRun(states, events) && k <= m <= |events| && sid !in states[k].listed
    requires forall j :: k <= j < m ==> !HandsOut(states[j], events[j], sid)
    ensures sid !in states[m].listed
    decreases m - k
  {
    if k < m {
      StaysUnlisted(states, events, k, m - 1, sid);
      ListedAfter(states, events, m - 1);
      assert !HandsOut(states[m - 1], events[m - 1], sid);
    }
  }

  // ---------------------------------------------------------------- broadcasts and the exit

  /** The channels the connection has. */
  function Channels(subs: map<ChanId, Conn>, c: Conn): set<ChanId> {
    set ch | ch in subs && subs[ch] == c
  }

  /** c was sent one more frame m for each of its subscribed channels. */
  predicate Told(was: Logs, now: Logs, subs: map<ChanId, Conn>, c: Conn, m: Msg) {
    var before, after := Log(was, c), Log(now, c);
    && before <= after && |after| == |before| + |Channels(subs, c)|
    && forall j :: |before| <= j < |after| ==> after[j] == m
  }

  lemma {:induction false} CopiesAre(m: Msg, n: nat)
    ensures |Copies(m, n)| == n && forall j :: 0 <= j < n ==> Copies(m, n)[j] == m
  {
    if n > 0 {
      CopiesAre(m, n - 1);
    }
  }

  lemma TellTells(logs: Logs, subs: map<ChanId, Conn>, note: Note, c: Conn)
    ensures Told(logs, Tell(logs, subs, note), subs, c, note.For(c))
  {
    assert Channels(subs, c) == ChannelsOf(subs, c);
    SubscriberHasChannel(subs, c);
    CopiesAre(note.For(c), |ChannelsOf(subs, c)|);
    AppendNothing(Log(logs, c));
  }

  /**
   The exit closes every channel that was subscribed and keeps what is queued on it, tells every
   subscriber, and forgets the session.
   */
  lemma ExitEnds(states: seq<Daemon>, events: seq<Daemons.Event>, k: nat, i: nat, c: Conn)
    requires IsRun(states, events) && k < |events| && events[k] == Exits(i)
    ensures i < |states[k].objs| && i < |states[k + 1].objs|
    ensures var was, now := states[k].objs[i], states[k + 1].objs[i];
            && now.ended && now.subs == map[] && SameHold(now, was)
            && now.chans.Keys == was.chans.Keys
            && (forall ch :: ch in was.chans ==> now.chans[ch].Got() == was.chans[ch].Got())
            && (forall ch :: ch in was.chans ==> (now.chans[ch].closed <==> was.chans[ch].closed || ch in was.subs))
            && Told(states[k].logs, states[k + 1].logs, was.subs, c, State(i))
            && (i + 1) % 0x1_0000_0000 !in states[k + 1].listed
  {
    assert StepAt(states, events, k);
    TellTells(states[k].logs, states[k].objs[i].subs, StateNote(i), c);
  }

  /** A title change is told to every subscriber. */
  lemma RetitleTells(states: seq<Daemon>, events: seq<Daemons.Event>, k: nat, i: nat, c: Conn)
    requires IsRun(states, events) && k < |events| && events[k] == Retitle(i)
    ensures i < |states[k].objs| && states[k + 1] == states[k].(logs := states[k + 1].logs)
    ensures Told(states[k].logs, states[k + 1].logs, states[k].objs[i].subs, c, State(i))
  {
    assert StepAt(states, events, k);
    TellTells(states[k].logs, states[k].objs[i].subs, StateNote(i), c);
  }

  /** A handover, by request or by hanging up, is told to every subscriber. */
  lemma HandoverTells(states: seq<Daemon>, events: seq<Daemons.Event>, k: nat, i: nat, c: Conn)
    requires IsRun(states, events) && k < |events| && i < |states[k].objs|
    requires var e := events[k];
             || (e.Drop? && e.i == i)
             || (e.Handle? && e.req.SetActive? && e.req.active.Some? && e.req.sid in states[k].listed
                 && states[k].listed[e.req.sid] == i)
    ensures i < |states[k + 1].objs|
    ensures Told(states[k].logs, states[k + 1].logs, states[k].objs[i].subs, c,
                 Flag(i, states[k + 1].objs[i].owner == Some(c)))
  {
    assert StepAt(states, events, k);
    HandoverLogs(states[k], events[k], i);
    TellTells(states[k].logs, states[k].objs[i].subs, ActiveNote(i, states[k + 1].objs[i].owner), c);
  }

  lemma HandoverLogs(d: Daemon, e: Daemons.Event, i: nat)
    requires d.Ok() && Daemons.Enabled(d, e) && i < |d.objs|
    requires (e.Drop? && e.i == i)
             || (e.Handle? && e.req.SetActive? && e.req.active.Some?
                 && e.req.sid in d.listed && d.listed[e.req.sid] == i)
    ensures i < |Next(d, e).objs|
    ensures Next(d, e).logs == Tell(d.logs, d.objs[i].subs, ActiveNote(i, Next(d, e).objs[i].owner))
  {
    if e.Handle? {
      ActivateLogs(d, e.c, e.req.sid, e.req.active, e.req.heir, i);
    }
  }

  lemma ActivateLogs(d: Daemon, c: Conn, sid: Sid, active: Option<bool>, heir: Option<Conn>, i: nat)
    requires d.Ok() && sid in d.listed && d.listed[sid] == i && active.Some?
    ensures var n := d.Activate(c, sid, active, heir);
            |n.objs| == |d.objs| && n.logs == Tell(d.logs, d.objs[i].subs, ActiveNote(i, n.objs[i].owner))
  {
    var s := d.objs[i];
    var r := if active.value then d.Refocused(s.Take(c), c, sid) else s.Release(c, heir);
    RefocusedKeeps(d, s.Take(c), c, sid);
    BroadcastLogs(d, i, r);
    assert d.Activate(c, sid, active, heir) == d.With(i, r).BroadcastActive(i);
  }

  lemma RefocusedKeeps(d: Daemon, s: Session, c: Conn, sid: Sid)
    ensures d.Refocused(s, c, sid).subs == s.subs
  {
  }

  lemma BroadcastLogs(d: Daemon, i: nat, s: Session)
    requires i < |d.objs|
    ensures var n := d.With(i, s).BroadcastActive(i);
            |n.objs| == |d.objs| && n.objs[i] == s && n.logs == Tell(d.logs, s.subs, ActiveNote(i, s.owner))
  {
  }

  // ---------------------------------------------------------------- the history of one session

  /** What a step is for session i. */
  function EventsFor(d: Daemon, e: Daemons.Event, i: nat): seq<Sessions.Event>
    requires i < |d.objs|
  {
    match e
    case Handle(c, Attach(sid, ch)) => if sid in d.listed && d.listed[sid] == i then [Join(c, ch)] else []
    case Handle(c, ResizeTo(sid, w, h)) =>
      if sid in d.listed && d.listed[sid] == i && d.objs[i].owner in {None, Some(c)}
      then [Claim(c), SetSize(w, h)]
      else []
    case Handle(c, SetActive(sid, Some(active), heir)) =>
      if sid !in d.listed || d.listed[sid] != i then []
      else if !active then [Let(c, heir)]
      else [Own(c)] + if (c, sid) in d.sizes then [SetSize(d.sizes[(c, sid)].0, d.sizes[(c, sid)].1)] else []
    case Drop(c, j, heir) => if j == i then [Let(c, heir)] else []
    case Produce(j, b) => if j == i then [Emit(b)] else []
    case Deliver(j, ch) => if j == i then [Read(ch)] else []
    case ReaderStops(j) => if j == i then [ReaderDone] else []
    case Exits(j) => if j == i then [Sessions.End] else []
    case StreamEnds(j, ch) => if j == i then [Leave(ch)] else []
    case _ => []
  }

  /** Everything that happened to session i within the first k steps; one that could not start ends at once. */
  ghost function History(states: seq<Daemon>, events: seq<Daemons.Event>, k: nat, i: nat): seq<Sessions.Event>
    requires k <= |events| < |states|
  {
    if k == 0 then []
    else if i < |states[k - 1].objs|
    then History(states, events, k - 1, i) + EventsFor(states[k - 1], events[k - 1], i)
    else if Creates(events[k - 1]) && !Starts(events[k - 1].req) then [ReaderDone, Sessions.End]
    else []
  }

  lemma LeadsOne(s: Session, e: Sessions.Event)
    requires s.Ok() && Sessions.Enabled(s, e)
    ensures Leads(s, [e], Step(s, e))
  {
    assert [e][..0] == [];
  }

  lemma {:induction false} LeadsOn(a: Session, x: seq<Sessions.Event>, b: Session, y: seq<Sessions.Event>, c: Session)
    requires Leads(a, x, b) && Leads(b, y, c)
    ensures Leads(a, x + y, c)
    decreases y
  {
    if y == [] {
      AppendNothing(x);
    } else {
      var n := |y| - 1;
      var p: Session :| Leads(b, y[..n], p) && p.Ok() && Sessions.Enabled(p, y[n]) && c == Step(p, y[n]);
      LeadsOn(a, x, b, y[..n], p);
      assert (x + y)[..|x + y| - 1] == x + y[..n];
    }
  }

  lemma LeadsTwo(s: Session, e: Sessions.Event, f: Sessions.Event)
    requires s.Ok() && Sessions.Enabled(s, e) && Sessions.Enabled(Step(s, e), f)
    ensures Leads(s, [e, f], Step(Step(s, e), f))
  {
    LeadsOne(s, e);
    LeadsOne(Step(s, e), f);
    LeadsOn(s, [e], Step(s, e), [f], Step(Step(s, e), f));
    assert [e] + [f] == [e, f];
  }

  /** Each step takes session i through the events it is for it. */
  lemma StepIsFor(d: Daemon, e: Daemons.Event, i: nat)
    requires d.Ok() && Daemons.Enabled(d, e) && i < |d.objs|
    ensures i < |Next(d, e).objs| && Leads(d.objs[i], EventsFor(d, e, i), Next(d, e).objs[i])
  {
    if e.Handle? {
      RequestIsFor(d, e.c, e.req, i);
    } else {
      StreamIsFor(d, e, i);
    }
  }

  lemma StreamIsFor(d: Daemon, e: Daemons.Event, i: nat)
    requires d.Ok() && Daemons.Enabled(d, e) && i < |d.objs| && !e.Handle?
    ensures i < |Next(d, e).objs| && Leads(d.objs[i], EventsFor(d, e, i), Next(d, e).objs[i])
  {
    match e
    case Drop(c, j, heir) =>
      if j == i {
        LeadsOne(d.objs[i], Let(c, heir));
      }
    case Exits(j) =>
      if j == i {
        LeadsOne(d.objs[i], Sessions.End);
      }
    case _ => StreamedIsFor(d, e, i);
  }

  lemma StreamedIsFor(d: Daemon, e: Daemons.Event, i: nat)
    requires d.Ok() && Daemons.Enabled(d, e) && i < |d.objs| && !e.Handle? && !e.Drop? && !e.Exits?
    ensures i < |Next(d, e).objs| && Leads(d.objs[i], EventsFor(d, e, i), Next(d, e).objs[i])
  {
    var es := EventsFor(d, e, i);
    if es != [] {
      LeadsOne(d.objs[i], es[0]);
    }
  }

  lemma RequestIsFor(d: Daemon, c: Conn, req: Request, i: nat)
    requires d.Ok() && Daemons.Enabled(d, Handle(c, req)) && i < |d.objs|
    ensures i < |d.HandleRequest(c, req).objs|
    ensures Leads(d.objs[i], EventsFor(d, Handle(c, req), i), d.HandleRequest(c, req).objs[i])
  {
    match req
    case Attach(sid, ch) =>
      if sid in d.listed && d.listed[sid] == i {
        LeadsOne(d.objs[i], Join(c, ch));
      }
    case ResizeTo(sid, w, h) => ResizeIsFor(d, c, sid, w, h, i);
    case SetActive(sid, active, heir) => ActivateIsFor(d, c, sid, active, heir, i);
    case _ =>
  }

  lemma ResizeIsFor(d: Daemon, c: Conn, sid: Sid, w: int, h: int, i: nat)
    requires d.Ok() && i < |d.objs|
    ensures i < |d.ResizeBy(c, sid, w, h).objs|
    ensures Leads(d.objs[i], EventsFor(d, Handle(c, ResizeTo(sid, w, h)), i), d.ResizeBy(c, sid, w, h).objs[i])
  {
    if sid in d.listed && d.listed[sid] == i && d.objs[i].owner in {None, Some(c)} {
      LeadsTwo(d.objs[i], Claim(c), SetSize(w, h));
    }
  }

  lemma ActivateIsFor(d: Daemon, c: Conn, sid: Sid, active: Option<bool>, heir: Option<Conn>, i: nat)
    requires d.Ok() && Daemons.Enabled(d, Handle(c, SetActive(sid, active, heir))) && i < |d.objs|
    ensures i < |d.Activate(c, sid, active, heir).objs|
    ensures Leads(d.objs[i], EventsFor(d, Handle(c, SetActive(sid, active, heir)), i),
                  d.Activate(c, sid, active, heir).objs[i])
  {
    if sid in d.listed && d.listed[sid] == i && active.Some? {
      if active.value {
        TakingIsFor(d, d.objs[i], c, sid);
      } else {
        LeadsOne(d.objs[i], Let(c, heir));
      }
    }
  }

  lemma TakingIsFor(d: Daemon, s: Session, c: Conn, sid: Sid)
    requires s.Ok()
    ensures Leads(s, [Own(c)] + if (c, sid) in d.sizes then [SetSize(d.sizes[(c, sid)].0, d.sizes[(c, sid)].1)] else [],
                  d.Refocused(s.Take(c), c, sid))
  {
    LeadsOne(s, Own(c));
    if (c, sid) in d.sizes {
      LeadsOne(s.Take(c), SetSize(d.sizes[(c, sid)].0, d.sizes[(c, sid)].1));
      LeadsOn(s, [Own(c)], s.Take(c), [SetSize(d.sizes[(c, sid)].0, d.sizes[(c, sid)].1)],
              d.Refocused(s.Take(c), c, sid));
    } else {
      AppendNothing([Own(c)]);
    }
  }

  /**
   Every session of every run of the daemon goes through a run of its own, so that what holds of those
   runs holds here.
   */
  lemma {:induction false} SessionsRun(states: seq<Daemon>, events: seq<Daemons.Event>, k: nat, i: nat)
    requires IsRun(states, events) && k < |states| && i < |states[k].objs|
    ensures Leads(NewSession(), History(states, events, k, i), states[k].objs[i])
  {
    if k > 0 {
      assert StepAt(states, events, k - 1);
      if i < |states[k - 1].objs| {
        SessionsRun(states, events, k - 1, i);
        StepIsFor(states[k - 1], events[k - 1], i);
        LeadsOn(NewSession(), History(states, events, k - 1, i), states[k - 1].objs[i],
                EventsFor(states[k - 1], events[k - 1], i), states[k].objs[i]);
      } else {
        Born(states[k - 1], events[k - 1], i);
      }
    }
  }

  /** A new session is the last one; one that could not start has ended. */
  lemma Born(d: Daemon, e: Daemons.Event, i: nat)
    requires d.Ok() && Daemons.Enabled(d, e) && |d.objs| <= i < |Next(d, e).objs|
    ensures Leads(NewSession(), if Creates(e) && !Starts(e.req) then [ReaderDone, Sessions.End] else [],
                  Next(d, e).objs[i])
  {
    LeadsTwo(NewSession(), ReaderDone, Sessions.End);
    if e.Handle? {
      RequestBears(d, e.c, e.req, i);
    } else {
      EventLists(d, e);
    }
  }

  lemma RequestBears(d: Daemon, c: Conn, req: Request, i: nat)
    requires d.Ok() && |d.objs| <= i < |d.HandleRequest(c, req).objs|
    ensures Creates(Handle(c, req)) && i == |d.objs|
    ensures d.HandleRequest(c, req).objs[i]
         == if req.starts then NewSession() else NewSession().(reading := false, ended := true)
  {
    match req
    case New(known, starts) => CreateBears(d, c, starts);
    case NewCmd(starts) => CreateBears(d, c, starts);
    case _ =>
  }

  lemma CreateBears(d: Daemon, c: Conn, starts: bool)
    ensures d.Create(c, starts).objs
           == d.objs + [if starts then NewSession() else NewSession().(reading := false, ended := true)]
  {
  }

  // ---------------------------------------------------------------- output

  /** The chunks session i produced within the first k steps. */
  function ProducedIn(events: seq<Daemons.Event>, i: nat): seq<Chunk> {
    if events == [] then []
    else
      var n := |events| - 1;
      ProducedIn(events[..n], i) + if events[n].Produce? && events[n].i == i then [events[n].b] else []
  }

  lemma NothingProduced(states: seq<Daemon>, events: seq<Daemons.Event>, k: nat, i: nat)
    requires IsRun(states, events) && k <= |events| && i >= |states[k].objs|
    ensures ProducedIn(events[..k], i) == []
  {
    if k > 0 {
      assert StepAt(states, events, k - 1);
      ListedAfter(states, events, k - 1);
      assert events[..k][..k - 1] == events[..k - 1];
      NothingProduced(states, events, k - 1, i);
    }
  }

  /** A session has emitted what it produced, all of it and in order. */
  lemma {:induction false} OutputIsKept(states: seq<Daemon>, events: seq<Daemons.Event>, k: nat, i: nat)
    requires IsRun(states, events) && k <= |events| && i < |states[k].objs|
    ensures states[k].objs[i].emitted == ProducedIn(events[..k], i)
  {
    if k > 0 {
      assert StepAt(states, events, k - 1);
      assert events[..k][..k - 1] == events[..k - 1];
      if i < |states[k - 1].objs| {
        OutputIsKept(states, events, k - 1, i);
        StepIsFor(states[k - 1], events[k - 1], i);
        RunEmits(states[k - 1].objs[i], EventsFor(states[k - 1], events[k - 1], i), states[k].objs[i]);
        EmittedFor(states[k - 1], events[k - 1], i);
      } else {
        NothingProduced(states, events, k - 1, i);
        Born(states[k - 1], events[k - 1], i);
        RunEmits(NewSession(), if Creates(events[k - 1]) && !Starts(events[k - 1].req) then [ReaderDone, Sessions.End]
                 else [],
                 states[k].objs[i]);
        NothingEmitted();
      }
    }
  }

  lemma NothingEmitted()
    ensures EmittedIn([ReaderDone, Sessions.End]) == []
  {
    assert [ReaderDone, Sessions.End][..1] == [ReaderDone] && [ReaderDone][..0] == [];
  }

  lemma EmittedFor(d: Daemon, e: Daemons.Event, i: nat)
    requires i < |d.objs|
    ensures EmittedIn(EventsFor(d, e, i)) == if e.Produce? && e.i == i then [e.b] else []
  {
    var es := EventsFor(d, e, i);
    if |es| == 1 {
      assert es[..0] == [];
    } else if |es| == 2 {
      assert es[..1] == [es[0]] && [es[0]][..0] == [];
      assert EmittedIn(es[..1]) == [];
    }
  }

  // ---------------------------------------------------------------- a client hangs up

  /** The session after c let go of it: another subscriber owns it if there is one, and nothing else changed. */
  predicate LetGo(was: Session, now: Session, c: Conn) {
    && now == was.(owner := now.owner)
    && if was.owner !in {None, Some(c)} then now.owner == was.owner
       else match now.owner
            case Some(h) => h != c && h in was.subs.Values
            case None => forall h :: h in was.subs.Values ==> h == c
  }

  /** Every subscriber was last told whether it owns session i. */
  predicate Informed(d: Daemon, i: nat)
    requires i < |d.objs|
  {
    forall x: Conn :: x in d.objs[i].subs.Values ==> (LastFlag(Log(d.logs, x), i) <==> d.objs[i].owner == Some(x))
  }

  /** c has let go of the sessions in `done`, whose subscribers know; all others are as they were. */
  predicate HandedOn(d: Daemon, n: Daemon, c: Conn, done: set<nat>) {
    && |n.objs| == |d.objs| && n.listed == d.listed && n.sizes == d.sizes && n.nextID == d.nextID
    && (forall i :: 0 <= i < |n.objs| && i !in done ==> n.objs[i] == d.objs[i])
    && (forall i :: 0 <= i < |n.objs| && i in done ==> LetGo(d.objs[i], n.objs[i], c) && Informed(n, i))
  }

  lemma DropLetsGo(d: Daemon, n: Daemon, c: Conn, done: set<nat>, i: nat, heir: Option<Conn>)
    requires d.Ok() && n.Ok() && HandedOn(d, n, c, done) && i !in done && Daemons.Enabled(n, Drop(c, i, heir))
    ensures HandedOn(d, Next(n, Drop(c, i, heir)), c, done + {i})
  {
    var r := Next(n, Drop(c, i, heir));
    ReleaseLetsSessionGo(n.objs[i], c, heir);
    forall j | 0 <= j < |r.objs| && j in done + {i}
      ensures LetGo(d.objs[j], r.objs[j], c) && Informed(r, j)
    {
      assert j in done ==> LetGo(d.objs[j], n.objs[j], c) && Informed(n, j);
      DropInforms(n, c, i, heir, j);
    }
  }

  lemma ReleaseLetsSessionGo(s: Session, c: Conn, heir: Option<Conn>)
    requires s.MayInherit(c, heir)
    ensures LetGo(s, s.Release(c, heir), c)
  {
  }

  /** A round informs the subscribers of its session, and those of the others stay informed. */
  lemma DropInforms(n: Daemon, c: Conn, i: nat, heir: Option<Conn>, j: nat)
    requires n.Ok() && Daemons.Enabled(n, Drop(c, i, heir)) && j < |n.objs| && (j == i || Informed(n, j))
    ensures Informed(Next(n, Drop(c, i, heir)), j)
  {
    TellSetsFlags(n.logs, n.objs[i].subs, ActiveNote(i, n.objs[i].Release(c, heir).owner));
  }

  lemma SegmentOn(states: seq<Daemon>, events: seq<Daemons.Event>, e: Daemons.Event)
    requires Segment(states, events) && Daemons.Enabled(states[|events|], e)
    ensures Segment(states + [Next(states[|events|], e)], events + [e])
  {
    var more := states + [Next(states[|events|], e)];
    forall k | 0 <= k < |events + [e]|
      ensures StepAt(more, events + [e], k)
    {
      if k < |events| {
        assert StepAt(states, events, k);
      }
    }
  }

  /** One round of the disconnect handler for each of the sessions. */
  ghost predicate DropsEach(events: seq<Daemons.Event>, c: Conn, done: set<nat>) {
    && (forall k :: 0 <= k < |events| ==> events[k].Drop? && events[k].c == c && events[k].i in done)
    && (forall i :: i in done ==> exists k :: 0 <= k < |events| && events[k].Drop? && events[k].i == i)
    && (forall j, k :: 0 <= j < k < |events| && events[j].Drop? && events[k].Drop? ==> events[j].i != events[k].i)
  }

  /** A run that goes on with a segment is a run, so that the handler's rounds can be added to any run. */
  lemma RunGoesOn(states: seq<Daemon>, events: seq<Daemons.Event>, more: seq<Daemon>, after: seq<Daemons.Event>)
    requires IsRun(states, events) && Segment(more, after) && more[0] == states[|events|]
    ensures IsRun(states + more[1..], events + after)
  {
    var all, es := states + more[1..], events + after;
    forall k | 0 <= k < |es|
      ensures StepAt(all, es, k)
    {
      if k < |events| {
        assert StepAt(states, events, k);
      } else {
        assert StepAt(more, after, k - |events|);
      }
    }
  }

  /** The disconnect handler so far: the rounds done, as a run from the state before the client hung up. */
  datatype Rounds = Rounds(states: seq<Daemon>, events: seq<Daemons.Event>, done: set<nat>) {
    ghost predicate Ok(c: Conn) {
      && Segment(states, [Hangup(c)] + events) && DropsEach(events, c, done)
      && HandedOn(First(), Now(), c, done)
    }

    function First(): Daemon
      requires states != []
    {
      states[0]
    }

    function Now(): Daemon
      requires states != []
    {
      states[|states| - 1]
    }
  }

  lemma RoundsHandOn(r: Rounds, c: Conn)
    requires r.Ok(c)
    ensures HandedOn(r.First(), r.Now(), c, r.done)
  {
  }

  lemma NoRounds(d: Daemon, c: Conn) returns (r: Rounds)
    requires d.Ok() && c !in d.gone
    ensures r.Ok(c) && r.First() == d && r.Now() == d.(gone := d.gone + {c}) && r.done == {}
  {
    r := Rounds([d, d.(gone := d.gone + {c})], [], {});
    AppendNothing([Hangup(c)]);
    assert StepAt(r.states, [Hangup(c)] + r.events, 0);
  }

  lemma DropsOneMore(events: seq<Daemons.Event>, c: Conn, done: set<nat>, i: nat, heir: Option<Conn>)
    requires DropsEach(events, c, done) && i !in done
    ensures DropsEach(events + [Drop(c, i, heir)], c, done + {i})
  {
    var after := events + [Drop(c, i, heir)];
    assert after[|events|].Drop? && after[|events|].i == i;
    forall j | j in done + {i}
      ensures exists k :: 0 <= k < |after| && after[k].Drop? && after[k].i == j
    {
      if j in done {
        var k :| 0 <= k < |events| && events[k].Drop? && events[k].i == j;
        assert after[k] == events[k];
      }
    }
  }

  /** One round more. */
  lemma Onward(before: Rounds, c: Conn, i: nat, heir: Option<Conn>) returns (after: Rounds)
    requires before.Ok(c) && i !in before.done && Daemons.Enabled(before.Now(), Drop(c, i, heir))
    ensures after.Ok(c) && after.First() == before.First() && after.Now() == Next(before.Now(), Drop(c, i, heir))
    ensures after.done == before.done + {i}
  {
    var e := Drop(c, i, heir);
    DropLetsGo(before.First(), before.Now(), c, before.done, i, heir);
    SegmentOn(before.states, [Hangup(c)] + before.events, e);
    AppendAssoc([Hangup(c)], before.events, [e]);
    DropsOneMore(before.events, c, before.done, i, heir);
    after := Rounds(before.states + [Next(before.Now(), e)], before.events + [e], before.done + {i});
  }
}
