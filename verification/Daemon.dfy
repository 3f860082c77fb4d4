/**
 The session-sharing protocol (internal/daemon/daemon.go): many connections, many
 sessions. Every case of the request handler, every per-session step of the
 disconnect handler and every session event is one atomic step; an attach includes
 the subscription its stream makes.
 */
module Daemons {
  import opened Common
  import opened Sessions

  /** A session id on the wire: an unsigned 32-bit counter that starts at 1 and wraps. */
  type Sid = n: nat | n < 0x1_0000_0000

  /** Control frames the daemon writes. Sessions are named by creation index; the wire carries WireId of it. */
  datatype Msg =
    | Flag(index: nat, active: bool)   // session_state with an active flag
    | State(index: nat)                // session_state without one
    | Created(index: nat)              // session_state answering a new session
    | SessionList | Button(index: nat) | Detached | DirList | Error

  datatype Request =
    | List
    | New(known: bool, starts: bool)
    | NewCmd(starts: bool)
    | Attach(sid: Sid, ch: ChanId)
    | Detach
    | Kill(sid: Sid)
    | Input(sid: Sid, accepted: bool)  // action, text, set_button
    | ResizeTo(sid: Sid, w: int, h: int)
    | SetActive(sid: Sid, active: Option<bool>, heir: Option<Conn>)
    | ListDir
    | Unknown

  datatype Event =
    | Handle(c: Conn, req: Request)
    | Hangup(c: Conn)                            // the connection's read loop ends
    | Drop(c: Conn, i: nat, heir: Option<Conn>)  // its disconnect handler, for one session
    | Retitle(i: nat)
    | Produce(i: nat, b: Chunk)
    | Deliver(i: nat, ch: ChanId)
    | ReaderStops(i: nat)
    | Exits(i: nat)
    | WriteFails(c: Conn)
    | StreamEnds(i: nat, ch: ChanId)

  /** What a broadcast says; an active broadcast tells each subscriber whether it is the owner. */
  datatype Note = ActiveNote(index: nat, owner: Option<Conn>) | StateNote(index: nat) {
    function For(c: Conn): Msg {
      match this
      case ActiveNote(i, o) => Flag(i, o == Some(c))
      case StateNote(i) => State(i)
    }
  }

  type Logs = map<Conn, seq<Msg>>

  function Log(logs: Logs, c: Conn): seq<Msg> {
    if c in logs then logs[c] else []
  }

  function Send(logs: Logs, c: Conn, m: Msg): Logs {
    logs[c := Log(logs, c) + [m]]
  }

  function Copies(m: Msg, n: nat): seq<Msg> {
    if n == 0 then [] else Copies(m, n - 1) + [m]
  }

  function ChannelsOf(subs: map<ChanId, Conn>, c: Conn): set<ChanId> {
    set ch | ch in subs && subs[ch] == c
  }

  /** One frame per subscribed channel. */
  function Tell(logs: Logs, subs: map<ChanId, Conn>, note: Note): Logs {
    map c | c in logs.Keys + subs.Values :: Log(logs, c) + Copies(note.For(c), |ChannelsOf(subs, c)|)
  }

  datatype Daemon = Daemon(
    objs: seq<Session>,                       // every session ever created
    listed: map<Sid, nat>,                    // the sessions map
    nextID: Sid,
    sizes: map<(Conn, Sid), (int, int)>,      // last requested size per connection and session
    logs: Logs,                               // control frames written to each connection
    gone: set<Conn>,
    broken: set<Conn>                         // a write to the connection has failed
  ) {
    ghost predicate Ok() {
      && (forall i :: 0 <= i < |objs| ==> objs[i].Ok())
      && (forall sid :: sid in listed ==> listed[sid] < |objs|)
    }

    function With(i: nat, s: Session): (r: Daemon)
      requires i < |objs|
      ensures Ok() && s.Ok() ==> r.Ok()
    {
      this.(objs := objs[i := s])
    }

    function Reply(c: Conn, m: Msg): Daemon {
      this.(logs := Send(logs, c, m))
    }

    /** Tell every subscriber of session i whether it owns the size. */
    function BroadcastActive(i: nat): Daemon
      requires i < |objs|
    {
      this.(logs := Tell(logs, objs[i].subs, ActiveNote(i, objs[i].owner)))
    }

    function BroadcastState(i: nat): Daemon
      requires i < |objs|
    {
      this.(logs := Tell(logs, objs[i].subs, StateNote(i)))
    }

    function Create(c: Conn, starts: bool): (r: Daemon)
      ensures Ok() ==> r.Ok()
    {
      if starts then Added(NewSession(), listed[nextID := |objs|]).Reply(c, Created(|objs|))
      else Added(NewSession().(reading := false, ended := true), listed - {nextID}).Reply(c, Error)
    }

    /** One more session object, under the next id; an id that is listed names it or an older one. */
    function Added(s: Session, list: map<Sid, nat>): Daemon {
      this.(nextID := (nextID + 1) % 0x1_0000_0000, objs := objs + [s], listed := list)
    }

    function AttachTo(c: Conn, sid: Sid, ch: ChanId): (r: Daemon)
      requires Ok()
      ensures r.Ok()
    {
      if sid !in listed then Reply(c, Error)
      else
        var i := listed[sid];
        var s := objs[i];
        var labelled := Send(Send(logs, c, Button(i)), c, Button(i));
        With(i, s.Subscribe(c, ch)).(logs :=
          if s.owner.Some? && s.owner != Some(c) then Send(labelled, c, Flag(i, false)) else labelled)
    }

    function ResizeBy(c: Conn, sid: Sid, w: int, h: int): (r: Daemon)
      requires Ok()
      ensures r.Ok()
    {
      if sid !in listed then this
      else
        var i := listed[sid];
        var d := this.(sizes := sizes[(c, sid) := (w, h)]);
        var claimed := objs[i].ClaimIfUnowned(c);
        if claimed.owner != Some(c) then d
        else
          var e := d.With(i, claimed.Resize(w, h));
          if objs[i].owner == Some(c) then e else e.BroadcastActive(i)
    }

    /** Re-apply the size this connection last asked for. */
    function Refocused(s: Session, c: Conn, sid: Sid): Session {
      if (c, sid) !in sizes then s
      else
        var (w, h) := sizes[(c, sid)];
        if s.cols != w || s.rows != h then s.Resize(w, h) else s
    }

    function Activate(c: Conn, sid: Sid, active: Option<bool>, heir: Option<Conn>): (r: Daemon)
      requires Ok()
      ensures r.Ok()
    {
      if sid !in listed || active.None? then this
      else
        var i := listed[sid];
        var s := objs[i];
        With(i, if active.value then Refocused(s.Take(c), c, sid) else s.Release(c, heir)).BroadcastActive(i)
    }

    /** The exit handler: tell the subscribers, close their channels, forget the session. */
    function End(i: nat): Daemon
      requires i < |objs| && objs[i].Ok()
    {
      With(i, objs[i].Exit()).(logs := Tell(logs, objs[i].subs, StateNote(i)), listed := listed - {WireId(i)})
    }

    function HandleRequest(c: Conn, req: Request): (r: Daemon)
      requires Ok()
      ensures r.Ok()
    {
      match req
      case List => Reply(c, SessionList)
      case New(known, starts) => if known then Create(c, starts) else Reply(c, Error)
      case NewCmd(starts) => Create(c, starts)
      case Attach(sid, ch) => AttachTo(c, sid, ch)
      case Detach => Reply(c, Detached)
      case Kill(sid) => this.(listed := listed - {sid})
      case Input(sid, accepted) => if sid in listed && accepted then this else Reply(c, Error)
      case ResizeTo(sid, w, h) => ResizeBy(c, sid, w, h)
      case SetActive(sid, active, heir) => Activate(c, sid, active, heir)
      case ListDir => Reply(c, DirList)
      case Unknown => Reply(c, Error)
    }
  }

  function WireId(i: nat): Sid {
    (i + 1) % 0x1_0000_0000
  }

  const INIT := Daemon([], map[], 1, map[], map[], {}, {})

  predicate Enabled(d: Daemon, e: Event)
    requires forall sid :: sid in d.listed ==> d.listed[sid] < |d.objs|
  {
    match e
    case Handle(c, req) =>
      && c !in d.gone
      && (req.Attach? && req.sid in d.listed ==> req.ch !in d.objs[d.listed[req.sid]].chans)
      && (req.SetActive? && req.active == Some(false) && req.sid in d.listed ==>
            d.objs[d.listed[req.sid]].MayInherit(c, req.heir))
    case Hangup(c) => c !in d.gone
    case Drop(c, i, heir) => c in d.gone && i < |d.objs| && d.objs[i].MayInherit(c, heir)
    case Retitle(i) => i < |d.objs|
    case Produce(i, b) => i < |d.objs| && d.objs[i].reading
    case Deliver(i, ch) => i < |d.objs| && ch in d.objs[i].chans && d.objs[i].chans[ch].queue != []
    case ReaderStops(i) => i < |d.objs|
    case Exits(i) => i < |d.objs| && !d.objs[i].reading && !d.objs[i].ended
    case WriteFails(c) => true
    case StreamEnds(i, ch) =>
      i < |d.objs| && ch in d.objs[i].chans && (d.objs[i].chans[ch].closed || d.objs[i].chans[ch].conn in d.broken)
  }

  function Next(d: Daemon, e: Event): (r: Daemon)
    requires d.Ok() && Enabled(d, e)
    ensures r.Ok()
  {
    match e
    case Handle(c, req) => d.HandleRequest(c, req)
    case Hangup(c) => d.(gone := d.gone + {c})
    case Drop(c, i, heir) => d.With(i, d.objs[i].Release(c, heir)).BroadcastActive(i)
    case Retitle(i) => d.BroadcastState(i)
    case Exits(i) => d.End(i)
    case WriteFails(c) => d.(broken := d.broken + {c})
    case _ => d.With(e.i, Streamed(d.objs[e.i], e))
  }

  /** The session after an event of its streams. */
  function Streamed(s: Session, e: Event): (r: Session)
    requires s.Ok() && (e.Produce? || e.Deliver? || e.ReaderStops? || e.StreamEnds?)
    requires e.Deliver? ==> e.ch in s.chans && s.chans[e.ch].queue != []
    ensures r.Ok()
  {
    match e
    case Produce(_, b) => s.Output(b)
    case Deliver(_, ch) => s.Receive(ch)
    case ReaderStops(_) => s.StopReading()
    case StreamEnds(_, ch) => s.Unsubscribe(ch)
  }

  // ---------------------------------------------------------------- flags in a connection's log

  /** The last active flag about session i, true when there is none. */
  function LastFlag(log: seq<Msg>, i: nat): bool {
    if log == [] then true
    else
      var n := |log| - 1;
      if log[n].Flag? && log[n].index == i then log[n].active else LastFlag(log[..n], i)
  }

  lemma LastFlagSnoc(log: seq<Msg>, m: Msg, i: nat)
    ensures LastFlag(log + [m], i) == if m.Flag? && m.index == i then m.active else LastFlag(log, i)
  {
    assert (log + [m])[..|log|] == log;
  }

  lemma {:induction false} LastFlagCopies(log: seq<Msg>, m: Msg, n: nat, i: nat)
    ensures LastFlag(log + Copies(m, n), i) == if n > 0 && m.Flag? && m.index == i then m.active else LastFlag(log, i)
  {
    if n == 0 {
      AppendNothing(log);
    } else {
      LastFlagCopies(log, m, n - 1, i);
      LastFlagSnoc(log + Copies(m, n - 1), m, i);
      AppendAssoc(log, Copies(m, n - 1), [m]);
    }
  }

  lemma SubscriberHasChannel(subs: map<ChanId, Conn>, c: Conn)
    ensures |ChannelsOf(subs, c)| > 0 <==> c in subs.Values
  {
    if c in subs.Values {
      var ch :| ch in subs && subs[ch] == c;
      assert ch in ChannelsOf(subs, c);
    } else {
      assert ChannelsOf(subs, c) == {};
    }
  }

  /** A broadcast sets the subscribers' last flag and nobody else's. */
  lemma TellSetsFlags(logs: Logs, subs: map<ChanId, Conn>, note: Note)
    ensures forall c: Conn, i: nat :: LastFlag(Log(Tell(logs, subs, note), c), i)
              == if note.ActiveNote? && note.index == i && c in subs.Values then note.owner == Some(c)
                 else LastFlag(Log(logs, c), i)
  {
    forall c: Conn, i: nat
      ensures LastFlag(Log(Tell(logs, subs, note), c), i)
           == if note.ActiveNote? && note.index == i && c in subs.Values then note.owner == Some(c)
                 else LastFlag(Log(logs, c), i)
    {
      SubscriberHasChannel(subs, c);
      LastFlagCopies(Log(logs, c), note.For(c), |ChannelsOf(subs, c)|, i);
    }
  }

  lemma SendSetsFlag(logs: Logs, c: Conn, m: Msg)
    ensures forall k: Conn, i: nat :: LastFlag(Log(Send(logs, c, m), k), i)
              == if k == c && m.Flag? && m.index == i then m.active else LastFlag(Log(logs, k), i)
  {
    forall k: Conn, i: nat
      ensures LastFlag(Log(Send(logs, c, m), k), i)
           == if k == c && m.Flag? && m.index == i then m.active else LastFlag(Log(logs, k), i)
    {
      LastFlagSnoc(Log(logs, c), m, i);
    }
  }

  // ---------------------------------------------------------------- active-flag agreement

  /** While session i has an owner, every subscriber whose connection still takes writes was last told the truth. */
  ghost predicate Agree(d: Daemon, i: nat)
    requires i < |d.objs|
  {
    forall c: Conn :: c in d.objs[i].subs.Values && c !in d.broken && d.objs[i].owner.Some? ==>
      (LastFlag(Log(d.logs, c), i) <==> d.objs[i].owner == Some(c))
  }

  /** Whoever is not subscribed to a running session still believes the default. */
  ghost predicate Quiet(d: Daemon, i: nat)
    requires i < |d.objs|
  {
    !d.objs[i].ended ==> forall c: Conn :: c !in d.objs[i].subs.Values && c !in d.broken ==> LastFlag(Log(d.logs, c), i)
  }

  ghost predicate Agreement(d: Daemon) {
    && d.Ok()
    && (forall i :: 0 <= i < |d.objs| ==> Agree(d, i) && Quiet(d, i))
    && (forall i: nat, c: Conn :: i >= |d.objs| ==> LastFlag(Log(d.logs, c), i))
  }

  /** Session i changes in ways that do not concern ownership; whoever it loses as subscriber is broken. */
  lemma QuietChangeAgrees(d: Daemon, i: nat, s: Session)
    requires Agreement(d) && i < |d.objs| && s.Ok()
    requires s.owner == d.objs[i].owner && s.ended == d.objs[i].ended
    requires s.subs.Values <= d.objs[i].subs.Values
    requires forall c :: c in d.objs[i].subs.Values && c !in s.subs.Values ==> c in d.broken
    ensures Agreement(d.With(i, s))
  {
    var r := d.With(i, s);
    forall k | 0 <= k < |r.objs|
      ensures Agree(r, k) && Quiet(r, k)
    {
      assert Agree(d, k) && Quiet(d, k);
    }
  }

  /** Any change of owner followed by a broadcast. */
  lemma AnnouncedChangeAgrees(d: Daemon, i: nat, s: Session)
    requires Agreement(d) && i < |d.objs| && s.Ok()
    requires s.subs == d.objs[i].subs && s.ended == d.objs[i].ended
    ensures Agreement(d.With(i, s).BroadcastActive(i))
  {
    var r := d.With(i, s).BroadcastActive(i);
    TellSetsFlags(d.logs, s.subs, ActiveNote(i, s.owner));
    forall k | 0 <= k < |r.objs|
      ensures Agree(r, k) && Quiet(r, k)
    {
      assert Agree(d, k) && Quiet(d, k);
    }
  }

  /** Frames without a flag. */
  lemma ReplyAgrees(d: Daemon, c: Conn, m: Msg)
    requires Agreement(d) && !m.Flag?
    ensures Agreement(d.Reply(c, m))
  {
    var r := d.Reply(c, m);
    SendSetsFlag(d.logs, c, m);
    forall k | 0 <= k < |r.objs|
      ensures Agree(r, k) && Quiet(r, k)
    {
      assert Agree(d, k) && Quiet(d, k);
    }
  }

  lemma StateBroadcastAgrees(d: Daemon, i: nat)
    requires Agreement(d) && i < |d.objs|
    ensures Agreement(d.BroadcastState(i))
  {
    var r := d.BroadcastState(i);
    TellSetsFlags(d.logs, d.objs[i].subs, StateNote(i));
    forall k | 0 <= k < |r.objs|
      ensures Agree(r, k) && Quiet(r, k)
    {
      assert Agree(d, k) && Quiet(d, k);
    }
  }

  lemma CreateAgrees(d: Daemon, c: Conn, starts: bool)
    requires Agreement(d)
    ensures Agreement(d.Create(c, starts))
  {
    if starts {
      var list := d.listed[d.nextID := |d.objs|];
      AddedAgrees(d, NewSession(), list);
      ReplyAgrees(d.Added(NewSession(), list), c, Created(|d.objs|));
    } else {
      var failed := NewSession().(reading := false, ended := true);
      AddedAgrees(d, failed, d.listed - {d.nextID});
      ReplyAgrees(d.Added(failed, d.listed - {d.nextID}), c, Error);
    }
  }

  /** One more session, without owner or subscribers. */
  lemma AddedAgrees(d: Daemon, s: Session, list: map<Sid, nat>)
    requires Agreement(d) && s.Ok() && s.owner == None && s.subs == map[]
    requires forall sid :: sid in list ==> list[sid] <= |d.objs|
    ensures Agreement(d.Added(s, list))
  {
    var e := d.Added(s, list);
    forall k | 0 <= k < |e.objs|
      ensures e.objs[k].Ok() && Agree(e, k) && Quiet(e, k)
    {
      if k < |d.objs| {
        assert Agree(d, k) && Quiet(d, k) && e.objs[k] == d.objs[k];
      } else {
        assert e.objs[k] == s;
      }
    }
  }

  /** A newcomer is told at once when someone else owns the size. */
  lemma AttachAgrees(d: Daemon, c: Conn, sid: Sid, ch: ChanId)
    requires Agreement(d) && sid in d.listed && ch !in d.objs[d.listed[sid]].chans
    ensures Agreement(d.AttachTo(c, sid, ch))
  {
    var i := d.listed[sid];
    var s := d.objs[i];
    var r := d.AttachTo(c, sid, ch);
    LabelsSetFlag(d.logs, c, i);
    SubscribersAfterJoin(s, c, ch);
    forall k | 0 <= k < |r.objs|
      ensures Agree(r, k) && Quiet(r, k)
    {
      assert Agree(d, k) && Quiet(d, k);
    }
  }

  /** The labels say nothing about activity; a flag after them does. */
  lemma LabelsSetFlag(logs: Logs, c: Conn, i: nat)
    ensures var labelled := Send(Send(logs, c, Button(i)), c, Button(i));
            && (forall k: Conn, j: nat :: LastFlag(Log(labelled, k), j) == LastFlag(Log(logs, k), j))
            && forall k: Conn, j: nat :: LastFlag(Log(Send(labelled, c, Flag(i, false)), k), j)
                 == if k == c && j == i then false else LastFlag(Log(logs, k), j)
  {
    var logs1 := Send(logs, c, Button(i));
    SendSetsFlag(logs, c, Button(i));
    SendSetsFlag(logs1, c, Button(i));
    SendSetsFlag(Send(logs1, c, Button(i)), c, Flag(i, false));
  }

  lemma SubscribersAfterJoin(s: Session, c: Conn, ch: ChanId)
    requires s.Ok() && ch !in s.chans
    ensures var r := s.Subscribe(c, ch);
            && r.owner == s.owner && r.ended == s.ended
            && r.subs.Values == if s.ended then {} else s.subs.Values + {c}
  {
    var r := s.Subscribe(c, ch);
    if !s.ended {
      assert r.subs[ch] == c;
      forall x | x in s.subs.Values
        ensures x in r.subs.Values
      {
        var k :| k in s.subs && s.subs[k] == x;
        assert r.subs[k] == x;
      }
    }
  }

  lemma ResizeAgrees(d: Daemon, c: Conn, sid: Sid, w: int, h: int)
    requires Agreement(d)
    ensures Agreement(d.ResizeBy(c, sid, w, h))
  {
    if sid in d.listed {
      var i := d.listed[sid];
      var e := d.(sizes := d.sizes[(c, sid) := (w, h)]);
      SameFlags(d, e);
      var claimed := d.objs[i].ClaimIfUnowned(c);
      if claimed.owner == Some(c) {
        if d.objs[i].owner == Some(c) {
          QuietChangeAgrees(e, i, claimed.Resize(w, h));
        } else {
          AnnouncedChangeAgrees(e, i, claimed.Resize(w, h));
        }
      }
    }
  }

  /** Bookkeeping that touches neither sessions nor logs, and only adds broken connections. */
  lemma SameFlags(d: Daemon, e: Daemon)
    requires Agreement(d) && e.objs == d.objs && e.logs == d.logs && e.broken >= d.broken && e.Ok()
    ensures Agreement(e)
  {
    forall k | 0 <= k < |e.objs|
      ensures Agree(e, k) && Quiet(e, k)
    {
      assert Agree(d, k) && Quiet(d, k);
    }
  }

  lemma HandleAgrees(d: Daemon, c: Conn, req: Request)
    requires Agreement(d) && Enabled(d, Handle(c, req))
    ensures Agreement(d.HandleRequest(c, req))
  {
    match req
    case List => ReplyAgrees(d, c, SessionList);
    case New(known, starts) => CreateAgrees(d, c, starts); ReplyAgrees(d, c, Error);
    case NewCmd(starts) => CreateAgrees(d, c, starts);
    case Attach(sid, ch) =>
      ReplyAgrees(d, c, Error);
      if sid in d.listed {
        AttachAgrees(d, c, sid, ch);
      }
    case Detach => ReplyAgrees(d, c, Detached);
    case Kill(sid) => SameFlags(d, d.(listed := d.listed - {sid}));
    case Input(sid, accepted) => ReplyAgrees(d, c, Error);
    case ResizeTo(sid, w, h) => ResizeAgrees(d, c, sid, w, h);
    case SetActive(sid, active, heir) =>
      if sid in d.listed && active.Some? {
        var i := d.listed[sid];
        AnnouncedChangeAgrees(d, i,
                                    if active.value then d.Refocused(d.objs[i].Take(c), c, sid)
                                    else d.objs[i].Release(c, heir));
      }
    case ListDir => ReplyAgrees(d, c, DirList);
    case Unknown => ReplyAgrees(d, c, Error);
  }

  lemma ExitAgrees(d: Daemon, i: nat)
    requires Agreement(d) && Enabled(d, Exits(i))
    ensures Agreement(Next(d, Exits(i)))
  {
    StateBroadcastAgrees(d, i);
    var e := d.BroadcastState(i);
    var r := e.With(i, d.objs[i].Exit());
    forall k | 0 <= k < |r.objs|
      ensures Agree(r, k) && Quiet(r, k)
    {
      assert Agree(e, k) && Quiet(e, k);
    }
    SameFlags(r, r.(listed := d.listed - {WireId(i)}));
  }

  lemma StreamEndAgrees(d: Daemon, i: nat, ch: ChanId)
    requires Agreement(d) && Enabled(d, StreamEnds(i, ch))
    ensures Agreement(Next(d, StreamEnds(i, ch)))
  {
    var s := d.objs[i];
    var u := s.Unsubscribe(ch);
    forall c | c in s.subs.Values
      ensures c in u.subs.Values || (ch in s.subs && c == s.subs[ch])
    {
      var k :| k in s.subs && s.subs[k] == c;
      if k != ch {
        assert u.subs[k] == c;
      }
    }
    QuietChangeAgrees(d, i, u);
  }

  lemma StepAgrees(d: Daemon, e: Event)
    requires Agreement(d) && Enabled(d, e)
    ensures Agreement(Next(d, e))
  {
    match e
    case Handle(c, req) => HandleAgrees(d, c, req);
    case Hangup(c) => SameFlags(d, d.(gone := d.gone + {c}));
    case Drop(c, i, heir) => AnnouncedChangeAgrees(d, i, d.objs[i].Release(c, heir));
    case Retitle(i) => StateBroadcastAgrees(d, i);
    case Produce(i, b) => QuietChangeAgrees(d, i, d.objs[i].Output(b));
    case Deliver(i, ch) => QuietChangeAgrees(d, i, d.objs[i].Receive(ch));
    case ReaderStops(i) => QuietChangeAgrees(d, i, d.objs[i].StopReading());
    case Exits(i) => ExitAgrees(d, i);
    case WriteFails(c) => SameFlags(d, d.(broken := d.broken + {c}));
    case StreamEnds(i, ch) => StreamEndAgrees(d, i, ch);
  }

  // ---------------------------------------------------------------- runs

  /** states[k + 1] is reached from states[k] by events[k], starting from an empty daemon. */
  ghost predicate IsRun(states: seq<Daemon>, events: seq<Event>) {
    Segment(states, events) && states[0] == INIT
  }

  /** Part of a run, from any state. */
  ghost predicate Segment(states: seq<Daemon>, events: seq<Event>) {
    && |states| == |events| + 1
    && (forall k :: 0 <= k < |states| ==> states[k].Ok())
    && forall k :: 0 <= k < |events| ==> StepAt(states, events, k)
  }

  ghost predicate StepAt(states: seq<Daemon>, events: seq<Event>, k: nat)
    requires k < |events| && |states| == |events| + 1
  {
    StepsTo(states[k], events[k], states[k + 1])
  }

  ghost predicate StepsTo(d: Daemon, e: Event, r: Daemon) {
    d.Ok() && Enabled(d, e) && r == Next(d, e)
  }

  /** In every reachable state the subscribers of an owned session agree on who the owner is. */
  lemma {:induction false} RunsAgree(states: seq<Daemon>, events: seq<Event>, k: nat)
    requires IsRun(states, events) && k < |states|
    ensures Agreement(states[k])
  {
    if k > 0 {
      RunsAgree(states, events, k - 1);
      assert StepAt(states, events, k - 1);
      StepAgrees(states[k - 1], events[k - 1]);
    }
  }

  /**
   Spelled out: among the subscribers whose connections still take writes, the last flag is
   true for the owner and for nobody else; in particular at most one of them is active.
   */
  lemma OneActiveSubscriber(states: seq<Daemon>, events: seq<Event>, k: nat, i: nat, a: Conn, b: Conn)
    requires IsRun(states, events) && k < |states| && i < |states[k].objs|
    requires var s := states[k].objs[i]; s.owner.Some? && {a, b} <= s.subs.Values && {a, b} !! states[k].broken
    ensures LastFlag(Log(states[k].logs, a), i) <==> states[k].objs[i].owner == Some(a)
    ensures LastFlag(Log(states[k].logs, a), i) && LastFlag(Log(states[k].logs, b), i) ==> a == b
  {
    RunsAgree(states, events, k);
    assert Agree(states[k], i);
  }

  // ---------------------------------------------------------------- the size follows the owner

  /** The size connection c last asked for, when that reached a listed session, within the first k events. */
  ghost function LastAsked(states: seq<Daemon>, events: seq<Event>, k: nat, c: Conn, sid: Sid): Option<(int, int)>
    requires k <= |events| < |states|
  {
    if k == 0 then None
    else
      match events[k - 1]
      case Handle(c', ResizeTo(sid', w, h)) =>
        if c' == c && sid' == sid && sid in states[k - 1].listed then Some((w, h))
        else LastAsked(states, events, k - 1, c, sid)
      case _ => LastAsked(states, events, k - 1, c, sid)
  }

  lemma SizesStep(d: Daemon, e: Event)
    requires d.Ok() && Enabled(d, e)
    ensures Next(d, e).sizes ==
            match e
            case Handle(c, ResizeTo(sid, w, h)) => if sid in d.listed then d.sizes[(c, sid) := (w, h)] else d.sizes
            case _ => d.sizes
  {
    if e.Handle? {
      RequestSizes(d, e.c, e.req);
    } else {
      OtherSizes(d, e);
    }
  }

  lemma RequestSizes(d: Daemon, c: Conn, req: Request)
    requires d.Ok()
    ensures d.HandleRequest(c, req).sizes ==
            if req.ResizeTo? && req.sid in d.listed then d.sizes[(c, req.sid) := (req.w, req.h)] else d.sizes
  {
  }

  lemma OtherSizes(d: Daemon, e: Event)
    requires d.Ok() && Enabled(d, e) && !e.Handle?
    ensures Next(d, e).sizes == d.sizes
  {
  }

  /** What the daemon remembers is what was last asked. */
  lemma {:induction false} SizesAreLastAsked(states: seq<Daemon>, events: seq<Event>, k: nat, c: Conn, sid: Sid)
    requires IsRun(states, events) && k < |states|
    ensures LastAsked(states, events, k, c, sid)
           == if (c, sid) in states[k].sizes then Some(states[k].sizes[(c, sid)]) else None
  {
    if k > 0 {
      SizesAreLastAsked(states, events, k - 1, c, sid);
      assert StepAt(states, events, k - 1);
      SizesStep(states[k - 1], events[k - 1]);
    }
  }

  function Size(s: Session): (int, int) {
    (s.cols, s.rows)
  }

  /** No event but a request changes the size of an existing session. */
  lemma OnlyRequestsResize(d: Daemon, e: Event, i: nat)
    requires d.Ok() && Enabled(d, e) && i < |d.objs| && !e.Handle?
    ensures i < |Next(d, e).objs| && Size(Next(d, e).objs[i]) == Size(d.objs[i])
  {
  }

  /** A request that changes a size is a resize or an activation by the connection that owns the session afterwards. */
  lemma RequestResizes(d: Daemon, c: Conn, req: Request, i: nat)
    requires d.Ok() && i < |d.objs|
    ensures i < |d.HandleRequest(c, req).objs|
    ensures var r := d.HandleRequest(c, req);
            Size(r.objs[i]) != Size(d.objs[i]) ==>
              && (req.ResizeTo? || req.SetActive?) && req.sid in d.listed && d.listed[req.sid] == i
              && r.objs[i].owner == Some(c)
              && (c, req.sid) in r.sizes && r.sizes[(c, req.sid)] == Size(r.objs[i])
  {
    match req
    case ResizeTo(sid, w, h) => ResizeResizes(d, c, sid, w, h, i);
    case SetActive(sid, active, heir) => ActivateResizes(d, c, sid, active, heir, i);
    case _ =>
  }

  lemma ResizeResizes(d: Daemon, c: Conn, sid: Sid, w: int, h: int, i: nat)
    requires d.Ok() && i < |d.objs|
    ensures |d.ResizeBy(c, sid, w, h).objs| == |d.objs|
    ensures var r := d.ResizeBy(c, sid, w, h);
            Size(r.objs[i]) != Size(d.objs[i]) ==>
              && sid in d.listed && d.listed[sid] == i && r.objs[i].owner == Some(c)
              && (c, sid) in r.sizes && r.sizes[(c, sid)] == Size(r.objs[i])
  {
  }

  lemma ActivateResizes(d: Daemon, c: Conn, sid: Sid, active: Option<bool>, heir: Option<Conn>, i: nat)
    requires d.Ok() && i < |d.objs|
    ensures |d.Activate(c, sid, active, heir).objs| == |d.objs|
    ensures var r := d.Activate(c, sid, active, heir);
            Size(r.objs[i]) != Size(d.objs[i]) ==>
              && sid in d.listed && d.listed[sid] == i && r.objs[i].owner == Some(c)
              && (c, sid) in r.sizes && r.sizes[(c, sid)] == Size(r.objs[i])
  {
  }

  /** Over every run, a size changes only to what the acting connection last asked for, which then owns the session. */
  lemma SizeFollowsOwner(states: seq<Daemon>, events: seq<Event>, k: nat, i: nat)
    requires IsRun(states, events) && k < |events| && i < |states[k].objs|
    requires i < |states[k + 1].objs| && Size(states[k + 1].objs[i]) != Size(states[k].objs[i])
    ensures events[k].Handle? && (events[k].req.ResizeTo? || events[k].req.SetActive?)
    ensures LastAsked(states, events, k + 1, events[k].c, events[k].req.sid) == Some(Size(states[k + 1].objs[i]))
    ensures states[k + 1].objs[i].owner == Some(events[k].c)
  {
    assert StepAt(states, events, k);
    StepFollowsOwner(states[k], events[k], states[k + 1], i);
    SizesAreLastAsked(states, events, k + 1, events[k].c, events[k].req.sid);
  }

  lemma StepFollowsOwner(d: Daemon, e: Event, n: Daemon, i: nat)
    requires StepsTo(d, e, n) && i < |d.objs|
    requires i < |n.objs| && Size(n.objs[i]) != Size(d.objs[i])
    ensures e.Handle? && (e.req.ResizeTo? || e.req.SetActive?)
    ensures n.objs[i].owner == Some(e.c)
    ensures (e.c, e.req.sid) in n.sizes && n.sizes[(e.c, e.req.sid)] == Size(n.objs[i])
  {
    if e.Handle? {
      RequestResizes(d, e.c, e.req, i);
    } else {
      OnlyRequestsResize(d, e, i);
    }
  }

  /** A resize remembered while someone else owned the session takes effect when its sender activates itself. */
  lemma RememberedResizeTakesEffect(states: seq<Daemon>, events: seq<Event>, k: nat, c: Conn, sid: Sid,
                                   heir: Option<Conn>, w: int, h: int)
    requires IsRun(states, events) && k < |events|
    requires events[k] == Handle(c, SetActive(sid, Some(true), heir)) && sid in states[k].listed
    requires LastAsked(states, events, k, c, sid) == Some((w, h)) && w > 0 && h > 0
    ensures states[k].listed[sid] < |states[k + 1].objs|
    ensures var s := states[k + 1].objs[states[k].listed[sid]];
            Size(s) == (w, h) && s.owner == Some(c)
  {
    assert StepAt(states, events, k);
    SizesAreLastAsked(states, events, k, c, sid);
  }

  /**
   Over every run, an owner changes only by a resize that claims an unowned session, by an activation
   or a release, or in the disconnect handler: never by input, output, a title or an exit.
   */
  lemma OwnerChangesOnlyBy(states: seq<Daemon>, events: seq<Event>, k: nat, i: nat)
    requires IsRun(states, events) && k < |events| && i < |states[k].objs|
    requires i < |states[k + 1].objs| && states[k + 1].objs[i].owner != states[k].objs[i].owner
    ensures var e := events[k];
            var was, now := states[k].objs[i].owner, states[k + 1].objs[i].owner;
            || (e.Handle? && e.req.ResizeTo? && was == None && now == Some(e.c))
            || (e.Handle? && e.req.SetActive? && e.req.active == Some(true) && now == Some(e.c))
            || (e.Handle? && e.req.SetActive? && e.req.active == Some(false)
                && was in {None, Some(e.c)} && now != Some(e.c))
            || (e.Drop? && was in {None, Some(e.c)} && now != Some(e.c))
  {
    assert StepAt(states, events, k);
    if events[k].Handle? {
      RequestChangesOwner(states[k], events[k].c, events[k].req, i);
    } else if !events[k].Drop? {
      OtherEventsKeepOwner(states[k], events[k], i);
    }
  }

  lemma RequestChangesOwner(d: Daemon, c: Conn, req: Request, i: nat)
    requires d.Ok() && Enabled(d, Handle(c, req)) && i < |d.objs|
    ensures i < |d.HandleRequest(c, req).objs|
    ensures var was, now := d.objs[i].owner, d.HandleRequest(c, req).objs[i].owner;
            || was == now
            || (req.ResizeTo? && was == None && now == Some(c))
            || (req.SetActive? && req.active == Some(true) && now == Some(c))
            || (req.SetActive? && req.active == Some(false) && was in {None, Some(c)} && now != Some(c))
  {
  }

  lemma OtherEventsKeepOwner(d: Daemon, e: Event, i: nat)
    requires d.Ok() && Enabled(d, e) && i < |d.objs| && !e.Handle? && !e.Drop?
    ensures i < |Next(d, e).objs| && Next(d, e).objs[i].owner == d.objs[i].owner
  {
  }

  /** Letting go of a session, by request or by hanging up, leaves it with another owner or none. */
  lemma ReleaseLetsGo(d: Daemon, e: Event, c: Conn, i: nat)
    requires d.Ok() && Enabled(d, e) && i < |d.objs|
    requires (e.Drop? && e.c == c && e.i == i)
             || (e.Handle? && e.c == c && e.req.SetActive? && e.req.active == Some(false)
                 && e.req.sid in d.listed && d.listed[e.req.sid] == i)
    ensures var o := Next(d, e).objs[i].owner;
            && o != Some(c)
            && (o.None? ==> forall h :: h in d.objs[i].subs.Values ==> h == c)
            && if d.objs[i].owner in {None, Some(c)} then o.Some? ==> o.value in d.objs[i].subs.Values
               else o == d.objs[i].owner
  {
  }

  // ---------------------------------------------------------------- reply alignment

  /** A request whose sender waits for one reply. */
  predicate RoundTrip(req: Request) {
    req.List? || req.New? || req.NewCmd?
  }

  /** Requests of a connection that only manages sessions. */
  predicate Managing(req: Request) {
    RoundTrip(req) || req.Kill?
  }

  /** A request and the number of sessions created before it. */
  datatype Question = Question(req: Request, created: nat)

  /** The round-trip requests c made within the first k events. */
  ghost function Asked(states: seq<Daemon>, events: seq<Event>, k: nat, c: Conn): seq<Question>
    requires k <= |events| < |states|
  {
    if k == 0 then []
    else
      var before := Asked(states, events, k - 1, c);
      match events[k - 1]
      case Handle(c', req) =>
        if c' == c && RoundTrip(req) then before + [Question(req, |states[k - 1].objs|)] else before
      case _ => before
  }

  /** A request for a session is answered with the one it created, or an error. */
  predicate Answers(q: Question, m: Msg) {
    match q.req
    case List => m == SessionList
    case New(known, starts) => m == if known && starts then Created(q.created) else Error
    case NewCmd(starts) => m == if starts then Created(q.created) else Error
    case _ => false
  }

  ghost predicate Aligned(qs: seq<Question>, log: seq<Msg>) {
    |qs| == |log| && forall j :: 0 <= j < |qs| ==> Answers(qs[j], log[j])
  }

  ghost predicate OnlyManages(events: seq<Event>, k: nat, c: Conn)
    requires k <= |events|
  {
    forall j :: 0 <= j < k && events[j].Handle? && events[j].c == c ==> Managing(events[j].req)
  }

  ghost predicate Unsubscribed(d: Daemon, c: Conn) {
    forall i :: 0 <= i < |d.objs| ==> c !in d.objs[i].subs.Values
  }

  lemma TellOthers(logs: Logs, subs: map<ChanId, Conn>, note: Note, c: Conn)
    requires c !in subs.Values
    ensures Log(Tell(logs, subs, note), c) == Log(logs, c)
  {
    SubscriberHasChannel(subs, c);
    AppendNothing(Log(logs, c));
  }

  /** Requests of others neither subscribe c nor write to it; its own managing requests write their replies. */
  lemma RequestWrites(d: Daemon, k: Conn, req: Request, c: Conn)
    requires d.Ok() && Enabled(d, Handle(k, req)) && Unsubscribed(d, c)
    requires k == c ==> Managing(req)
    ensures Unsubscribed(d.HandleRequest(k, req), c)
    ensures var before, after := Log(d.logs, c), Log(d.HandleRequest(k, req).logs, c);
            if k == c && RoundTrip(req) then exists m :: after == before + [m] && Answers(Question(req, |d.objs|), m)
            else after == before
  {
    match req
    case Attach(sid, ch) => AttachWrites(d, k, sid, ch, c);
    case ResizeTo(sid, w, h) => ResizeWrites(d, k, sid, w, h, c);
    case SetActive(sid, active, heir) => ActivateWrites(d, k, sid, active, heir, c);
    case New(known, starts) => CreateWrites(d, k, starts, c);
    case NewCmd(starts) => CreateWrites(d, k, starts, c);
    case _ =>
  }

  lemma CreateWrites(d: Daemon, k: Conn, starts: bool, c: Conn)
    requires d.Ok() && Unsubscribed(d, c)
    ensures Unsubscribed(d.Create(k, starts), c)
    ensures Log(d.Create(k, starts).logs, c)
         == if k == c then Log(d.logs, c) + [if starts then Created(|d.objs|) else Error] else Log(d.logs, c)
  {
  }

  lemma AttachWrites(d: Daemon, k: Conn, sid: Sid, ch: ChanId, c: Conn)
    requires d.Ok() && Enabled(d, Handle(k, Attach(sid, ch))) && Unsubscribed(d, c) && k != c
    ensures Unsubscribed(d.AttachTo(k, sid, ch), c)
    ensures Log(d.AttachTo(k, sid, ch).logs, c) == Log(d.logs, c)
  {
    if sid in d.listed {
      SubscribersAfterJoin(d.objs[d.listed[sid]], k, ch);
    }
  }

  lemma ActivateWrites(d: Daemon, k: Conn, sid: Sid, active: Option<bool>, heir: Option<Conn>, c: Conn)
    requires d.Ok() && Unsubscribed(d, c)
    ensures Unsubscribed(d.Activate(k, sid, active, heir), c)
    ensures Log(d.Activate(k, sid, active, heir).logs, c) == Log(d.logs, c)
  {
    if sid in d.listed && active.Some? {
      var i := d.listed[sid];
      var s := if active.value then d.Refocused(d.objs[i].Take(k), k, sid) else d.objs[i].Release(k, heir);
      TellOthers(d.logs, d.objs[i].subs, ActiveNote(i, s.owner), c);
    }
  }

  lemma ResizeWrites(d: Daemon, k: Conn, sid: Sid, w: int, h: int, c: Conn)
    requires d.Ok() && Unsubscribed(d, c)
    ensures Unsubscribed(d.ResizeBy(k, sid, w, h), c)
    ensures Log(d.ResizeBy(k, sid, w, h).logs, c) == Log(d.logs, c)
  {
    if sid in d.listed {
      var i := d.listed[sid];
      TellOthers(d.logs, d.objs[i].subs, ActiveNote(i, d.objs[i].ClaimIfUnowned(k).owner), c);
    }
  }

  /** No other event writes to a connection that is not subscribed, or subscribes it. */
  lemma OtherEventsWrite(d: Daemon, e: Event, c: Conn)
    requires d.Ok() && Enabled(d, e) && Unsubscribed(d, c) && !e.Handle?
    ensures Unsubscribed(Next(d, e), c) && Log(Next(d, e).logs, c) == Log(d.logs, c)
  {
    match e
    case Drop(k, i, heir) => TellOthers(d.logs, d.objs[i].subs, ActiveNote(i, d.objs[i].Release(k, heir).owner), c);
    case Retitle(i) => TellOthers(d.logs, d.objs[i].subs, StateNote(i), c);
    case Exits(i) => TellOthers(d.logs, d.objs[i].subs, StateNote(i), c);
    case StreamEnds(i, ch) => assert d.objs[i].Unsubscribe(ch).subs.Values <= d.objs[i].subs.Values;
    case _ =>
  }

  /**
   On a connection that never attaches, the k-th control frame the daemon writes answers its k-th
   round trip, whatever other connections, broadcasts, kills and exits do in between.
   */
  lemma {:induction false} RepliesAreAligned(states: seq<Daemon>, events: seq<Event>, k: nat, c: Conn)
    requires IsRun(states, events) && k < |states| && OnlyManages(events, k, c)
    ensures Unsubscribed(states[k], c)
    ensures Aligned(Asked(states, events, k, c), Log(states[k].logs, c))
  {
    if k > 0 {
      RepliesAreAligned(states, events, k - 1, c);
      assert StepAt(states, events, k - 1);
      StepReplies(states[k - 1], events[k - 1], states[k], c);
    }
  }

  lemma StepReplies(d: Daemon, e: Event, n: Daemon, c: Conn)
    requires StepsTo(d, e, n) && Unsubscribed(d, c)
    requires e.Handle? && e.c == c ==> Managing(e.req)
    ensures Unsubscribed(n, c)
    ensures if e.Handle? && e.c == c && RoundTrip(e.req)
            then exists m :: Log(n.logs, c) == Log(d.logs, c) + [m] && Answers(Question(e.req, |d.objs|), m)
            else Log(n.logs, c) == Log(d.logs, c)
  {
    if e.Handle? {
      RequestWrites(d, e.c, e.req, c);
    } else {
      OtherEventsWrite(d, e, c);
    }
  }

  // ---------------------------------------------------------------- session ids

  /** Ids on the wire are handed out in creation order, and the listing is keyed by them. */
  ghost predicate IdsOk(d: Daemon) {
    d.nextID == WireId(|d.objs|) && forall sid :: sid in d.listed ==> WireId(d.listed[sid]) == sid
  }

  lemma {:induction false} RunsKeepIds(states: seq<Daemon>, events: seq<Event>, k: nat)
    requires IsRun(states, events) && k < |states|
    ensures IdsOk(states[k])
  {
    if k > 0 {
      RunsKeepIds(states, events, k - 1);
      assert StepAt(states, events, k - 1);
      StepKeepsIds(states[k - 1], events[k - 1]);
    }
  }

  lemma StepKeepsIds(d: Daemon, e: Event)
    requires d.Ok() && Enabled(d, e) && IdsOk(d)
    ensures IdsOk(Next(d, e))
  {
    match e
    case Handle(c, New(known, starts)) => CreateKeepsIds(d, c, starts);
    case Handle(c, NewCmd(starts)) => CreateKeepsIds(d, c, starts);
    case Handle(c, req) => RequestKeepsIds(d, c, req);
    case _ =>
  }

  lemma CreateKeepsIds(d: Daemon, c: Conn, starts: bool)
    requires IdsOk(d)
    ensures IdsOk(d.Create(c, starts))
  {
  }

  lemma RequestKeepsIds(d: Daemon, c: Conn, req: Request)
    requires d.Ok() && IdsOk(d) && !req.New? && !req.NewCmd?
    ensures IdsOk(d.HandleRequest(c, req))
  {
  }

  /** Two sessions share a wire id only if 2^32 creations lie between them. */
  lemma WireIdsCollideIff(i: nat, j: nat)
    requires i < j
    ensures WireId(i) == WireId(j) <==> (j - i) % 0x1_0000_0000 == 0
  {
  }

  // ---------------------------------------------------------------- the owner need not be alive

  /** A run goes on with any enabled event. */
  lemma Extend(states: seq<Daemon>, events: seq<Event>, e: Event) returns (more: seq<Daemon>)
    requires IsRun(states, events) && Enabled(states[|events|], e)
    ensures IsRun(more, events + [e]) && more[|events| + 1] == Next(states[|events|], e)
  {
    var d := states[|events|];
    more := states + [Next(d, e)];
    forall k | 0 <= k < |events + [e]|
      ensures StepAt(more, events + [e], k)
    {
      if k < |events| {
        assert StepAt(states, events, k);
      }
    }
  }

  lemma OneSession() returns (states: seq<Daemon>, events: seq<Event>)
    ensures IsRun(states, events)
    ensures var d := states[|events|];
            |d.objs| == 1 && d.listed == map[1 := 0] && d.gone == {} && d.sizes == map[]
            && d.objs[0] == NewSession()
  {
    states := Extend([INIT], [], Handle(1, NewCmd(true)));
    events := [Handle(1, NewCmd(true))];
    assert [] + events == events;
  }

  lemma OneClient() returns (states: seq<Daemon>, events: seq<Event>)
    ensures IsRun(states, events)
    ensures var d := states[|events|];
            |d.objs| == 1 && d.listed == map[1 := 0] && d.gone == {} && d.sizes == map[]
            && d.objs[0].owner == None && d.objs[0].subs == map[0 := 1]
            && d.objs[0].chans.Keys == {0} && !d.objs[0].ended
  {
    states, events := OneSession();
    states := Extend(states, events, Handle(1, Attach(1, 0)));
    events := events + [Handle(1, Attach(1, 0))];
  }

  /** Two clients attached to one session nobody owns. */
  lemma TwoClients() returns (states: seq<Daemon>, events: seq<Event>)
    ensures IsRun(states, events)
    ensures var d := states[|events|];
            |d.objs| == 1 && d.listed == map[1 := 0] && d.gone == {} && d.sizes == map[]
            && d.objs[0].owner == None && d.objs[0].subs == map[0 := 1, 1 := 2]
  {
    states, events := OneClient();
    states := Extend(states, events, Handle(2, Attach(1, 1)));
    events := events + [Handle(2, Attach(1, 1))];
  }

  lemma SecondTakesOver() returns (states: seq<Daemon>, events: seq<Event>)
    ensures IsRun(states, events)
    ensures var d := states[|events|];
            |d.objs| == 1 && d.listed == map[1 := 0] && d.gone == {}
            && d.objs[0].owner == Some(2) && d.objs[0].subs == map[0 := 1, 1 := 2]
  {
    states, events := TwoClients();
    var take := Handle(2, SetActive(1, Some(true), None));
    states := Extend(states, events, take);
    events := events + [take];
  }

  /** The second takes the size, then the first hangs up. */
  lemma FirstHangsUp() returns (states: seq<Daemon>, events: seq<Event>)
    ensures IsRun(states, events)
    ensures var d := states[|events|];
            |d.objs| == 1 && d.listed == map[1 := 0] && d.gone == {1}
            && d.objs[0].owner == Some(2) && d.objs[0].subs == map[0 := 1, 1 := 2]
  {
    states, events := SecondTakesOver();
    states := Extend(states, events, Hangup(1));
    events := events + [Hangup(1)];
  }

  /** The clients that may own session i once c has let go of it. */
  function Successors(s: Session, c: Conn): set<Conn> {
    match s.owner
    case Some(x) => if x != c then {x} else s.subs.Values - {c}
    case None => s.subs.Values - {c}
  }

  /** The session is left without an owner, or with one that has not hung up. */
  predicate LeftAlive(d: Daemon, i: nat) {
    i < |d.objs| && (d.objs[i].owner.Some? ==> d.objs[i].owner.value !in d.gone)
  }

  lemma ReleaseChoosesSuccessor(s: Session, c: Conn, h: Conn)
    requires h in Successors(s, c)
    ensures s.MayInherit(c, Some(h)) && s.Release(c, Some(h)).owner == Some(h)
  {
  }

  lemma ReleasedToSuccessor(s: Session, c: Conn, heir: Option<Conn>)
    requires s.MayInherit(c, heir) && s.Release(c, heir).owner.Some?
    ensures s.Release(c, heir).owner.value in Successors(s, c)
  {
  }

  /**
   A release leaves the size with a live client, whichever heir is chosen, if and only if nobody
   who may inherit it has hung up.
   */
  lemma ReleaseLeavesLiveOwnerIff(d: Daemon, c: Conn, sid: Sid)
    requires d.Ok() && sid in d.listed && c !in d.gone
    ensures var i := d.listed[sid];
            (forall heir :: Enabled(d, Handle(c, SetActive(sid, Some(false), heir))) ==>
                              LeftAlive(Next(d, Handle(c, SetActive(sid, Some(false), heir))), i))
            <==> (forall h :: h in Successors(d.objs[i], c) ==> h !in d.gone)
  {
    var i := d.listed[sid];
    var s := d.objs[i];
    forall heir | Enabled(d, Handle(c, SetActive(sid, Some(false), heir)))
      ensures Next(d, Handle(c, SetActive(sid, Some(false), heir))).objs[i].owner == s.Release(c, heir).owner
      ensures s.Release(c, heir).owner.Some? ==> s.Release(c, heir).owner.value in Successors(s, c)
    {
      if s.Release(c, heir).owner.Some? {
        ReleasedToSuccessor(s, c, heir);
      }
    }
    forall h | h in Successors(s, c)
      ensures Enabled(d, Handle(c, SetActive(sid, Some(false), Some(h)))) && s.Release(c, Some(h)).owner == Some(h)
    {
      ReleaseChoosesSuccessor(s, c, h);
    }
  }

  /** The same for the disconnect handler of c, one session at a time. */
  lemma DropLeavesLiveOwnerIff(d: Daemon, c: Conn, i: nat)
    requires d.Ok() && i < |d.objs| && c in d.gone
    ensures (forall heir :: Enabled(d, Drop(c, i, heir)) ==> LeftAlive(Next(d, Drop(c, i, heir)), i))
            <==> (forall h :: h in Successors(d.objs[i], c) ==> h !in d.gone)
  {
    var s := d.objs[i];
    forall heir | Enabled(d, Drop(c, i, heir))
      ensures Next(d, Drop(c, i, heir)).objs[i].owner == s.Release(c, heir).owner
      ensures s.Release(c, heir).owner.Some? ==> s.Release(c, heir).owner.value in Successors(s, c)
    {
      if s.Release(c, heir).owner.Some? {
        ReleasedToSuccessor(s, c, heir);
      }
    }
    forall h | h in Successors(s, c)
      ensures Enabled(d, Drop(c, i, Some(h))) && s.Release(c, Some(h)).owner == Some(h)
    {
      ReleaseChoosesSuccessor(s, c, h);
    }
  }

  /**
   A release can hand the size to a client that has hung up: it stays subscribed until a
   write to it fails.
   */
  lemma OwnerMayBeGone() returns (states: seq<Daemon>, events: seq<Event>)
    ensures IsRun(states, events)
    ensures var d := states[|events|];
            |d.objs| == 1 && d.objs[0].owner == Some(1) && 1 in d.gone
  {
    states, events := FirstHangsUp();
    var release := Handle(2, SetActive(1, Some(false), Some(1)));
    var s := states[|events|].objs[0];
    assert s.subs[0] == 1 && 1 in s.subs.Values;
    states := Extend(states, events, release);
    events := events + [release];
  }
}
