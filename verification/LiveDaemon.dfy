/** The daemon object: the request handler and its helpers, each proved against the protocol step it performs. */
module LiveDaemons {
  import opened Common
  import opened Sessions
  import opened Daemons
  import opened DaemonSteps

  lemma OneMoreChannel(subs: map<ChanId, Conn>, ch: ChanId, c: Conn)
    requires ch !in subs
    ensures |ChannelsOf(subs[ch := c], c)| == |ChannelsOf(subs, c)| + 1
    ensures forall x: Conn :: x != c ==> ChannelsOf(subs[ch := c], x) == ChannelsOf(subs, x)
  {
    var more := subs[ch := c];
    assert ChannelsOf(more, c) == ChannelsOf(subs, c) + {ch};
    forall x: Conn | x != c
      ensures ChannelsOf(more, x) == ChannelsOf(subs, x)
    {
    }
  }

  lemma OneMoreValue(subs: map<ChanId, Conn>, ch: ChanId, c: Conn)
    requires ch !in subs
    ensures subs[ch := c].Values == subs.Values + {c}
  {
    var more := subs[ch := c];
    assert more[ch] == c;
    forall x | x in subs.Values
      ensures x in more.Values
    {
      var k :| k in subs && subs[k] == x;
      assert more[k] == x;
    }
  }

  /** One more channel in the subscriber map is one more frame. */
  lemma TellOneMore(logs: Logs, subs: map<ChanId, Conn>, note: Note, ch: ChanId, c: Conn)
    requires ch !in subs
    ensures Tell(logs, subs[ch := c], note) == Send(Tell(logs, subs, note), c, note.For(c))
  {
    var told, sent := Tell(logs, subs[ch := c], note), Send(Tell(logs, subs, note), c, note.For(c));
    OneMoreValue(subs, ch, c);
    assert told.Keys == sent.Keys;
    forall x | x in told
      ensures told[x] == sent[x]
    {
      TellMoreTo(logs, subs, note, ch, c, x);
    }
  }

  /** The frames of one connection. */
  lemma TellMoreTo(logs: Logs, subs: map<ChanId, Conn>, note: Note, ch: ChanId, c: Conn, x: Conn)
    requires ch !in subs
    ensures Log(logs, x) + Copies(note.For(x), |ChannelsOf(subs[ch := c], x)|)
         == if x == c then Log(Tell(logs, subs, note), c) + [note.For(c)] else Log(Tell(logs, subs, note), x)
  {
    OneMoreChannel(subs, ch, c);
    TellOthersOrNone(logs, subs, note, x);
    AppendAssoc(Log(logs, c), Copies(note.For(c), |ChannelsOf(subs, c)|), [note.For(c)]);
  }

  /** Writing to one of the remaining writers. */
  lemma TellNext(logs: Logs, writers: map<ChanId, Conn>, rest: set<ChanId>, note: Note, ch: ChanId)
    requires ch in rest && ch in writers
    ensures Tell(logs, writers - (rest - {ch}), note)
         == Send(Tell(logs, writers - rest, note), writers[ch], note.For(writers[ch]))
  {
    assert writers - (rest - {ch}) == (writers - rest)[ch := writers[ch]];
    TellOneMore(logs, writers - rest, note, ch, writers[ch]);
  }

  lemma TellOthersOrNone(logs: Logs, subs: map<ChanId, Conn>, note: Note, c: Conn)
    ensures Log(Tell(logs, subs, note), c) == Log(logs, c) + Copies(note.For(c), |ChannelsOf(subs, c)|)
  {
    SubscriberHasChannel(subs, c);
    AppendNothing(Log(logs, c));
  }

  lemma TellNobody(logs: Logs, note: Note)
    ensures Tell(logs, map[], note) == logs
  {
    var none: map<ChanId, Conn> := map[];
    forall c: Conn
      ensures Log(logs, c) + Copies(note.For(c), |ChannelsOf(none, c)|) == Log(logs, c)
    {
      assert ChannelsOf(none, c) == {};
      AppendNothing(Log(logs, c));
    }
  }

  class LiveDaemon {
    var objs: seq<LiveSession>
    var listed: map<Sid, nat>
    var nextID: Sid
    var sizes: map<(Conn, Sid), (int, int)>
    var logs: Logs
    ghost var gone: set<Conn>
    ghost var broken: set<Conn>

    ghost function Tables(): set<object>
      reads this
    {
      set i | 0 <= i < |objs| :: objs[i].modes
    }

    ghost predicate Valid()
      reads this, objs, Tables()
    {
      && (forall i :: 0 <= i < |objs| ==> objs[i].Valid())
      && (forall i, j :: 0 <= i < j < |objs| ==> objs[i] != objs[j] && objs[i].modes != objs[j].modes)
      && (forall sid :: sid in listed ==> listed[sid] < |objs|)
    }

    ghost function States(): (s: seq<Session>)
      reads this, objs, Tables()
      ensures |s| == |objs|
    {
      seq(|objs|, i requires 0 <= i < |objs| reads this, objs, Tables() => objs[i].State())
    }

    ghost function D(): Daemon
      reads this, objs, Tables()
    {
      Daemon(States(), listed, nextID, sizes, logs, gone, broken)
    }

    constructor ()
      ensures Valid() && D() == INIT
    {
      objs, listed, nextID := [], map[], 1;
      sizes, logs := map[], map[];
      gone, broken := {}, {};
    }

    method SendControl(c: Conn, m: Msg)
      modifies this`logs
      ensures logs == Send(old(logs), c, m)
    {
      logs := logs[c := (if c in logs then logs[c] else []) + [m]];
    }

    /** One frame to each of the writers snapshotted from the subscriber map. */
    method Broadcast(writers: map<ChanId, Conn>, note: Note)
      modifies this`logs
      ensures logs == Tell(old(logs), writers, note)
    {
      var rest := writers.Keys;
      TellNobody(logs, note);
      assert writers - rest == map[];
      while rest != {}
        invariant rest <= writers.Keys
        invariant logs == Tell(old(logs), writers - rest, note)
        decreases rest
      {
        var ch :| ch in rest;
        TellNext(old(logs), writers, rest, note, ch);
        rest := rest - {ch};
        SendControl(writers[ch], note.For(writers[ch]));
      }
      assert writers - {} == writers;
    }

    /** Tell every subscriber of session i whether it owns the shared size. */
    method BroadcastActive(i: nat)
      requires Valid() && i < |objs|
      modifies this`logs
      ensures logs == Tell(old(logs), objs[i].subs, ActiveNote(i, objs[i].owner))
    {
      Broadcast(objs[i].subs, ActiveNote(i, objs[i].owner));
    }

    /** Only session i changed, and it is still valid. */
    twostate lemma OneChanged(i: nat)
      requires old(Valid()) && i < |objs| && objs == old(objs) && listed == old(listed)
      requires objs[i].Valid()
      requires forall j :: 0 <= j < |objs| && j != i ==> unchanged(objs[j]) && unchanged(objs[j].modes)
      ensures Valid() && States() == old(States())[i := objs[i].State()]
    {
    }

    /** No session changed. */
    twostate lemma NoneChanged()
      requires old(Valid()) && objs == old(objs)
      requires forall j :: 0 <= j < |objs| ==> unchanged(objs[j]) && unchanged(objs[j].modes)
      requires forall sid :: sid in listed ==> listed[sid] < |objs|
      ensures Valid() && States() == old(States())
    {
    }

    /** Claim an unowned session, then resize it if it is ours. */
    method ClaimAndResize(i: nat, c: Conn, w: int, h: int) returns (owns: bool)
      requires Valid() && i < |objs|
      modifies objs[i]
      ensures var claimed := old(objs[i].State()).ClaimIfUnowned(c);
              && owns == (claimed.owner == Some(c))
              && Valid() && States() == if owns then old(States())[i := claimed.Resize(w, h)] else old(States())
    {
      owns := objs[i].OwnsSize(c, true);
      if owns {
        var ok := objs[i].Resize(w, h);
      }
      OneChanged(i);
    }

    method HandleResize(c: Conn, sid: Sid, w: int, h: int)
      requires Valid()
      modifies this`sizes, this`logs, objs
      ensures Valid() && D() == old(D()).ResizeBy(c, sid, w, h)
    {
      if sid !in listed {
        return;
      }
      var i := listed[sid];
      sizes := sizes[(c, sid) := (w, h)];
      assert D() == old(D()).(sizes := sizes);
      var wasOwner := objs[i].owner == Some(c);
      assert objs[i].State() == States()[i];
      var owns := ClaimAndResize(i, c, w, h);
      assert objs[i].State() == States()[i];
      if !owns {
        return;
      }
      if !wasOwner {
        BroadcastActive(i);
      }
    }

    /** Re-apply this connection's remembered size if the shared one differs. */
    method RefocusSize(i: nat, c: Conn, sid: Sid)
      requires Valid() && i < |objs|
      modifies objs[i]
      ensures objs[i].Valid() && objs[i].State() == old(D()).Refocused(old(objs[i].State()), c, sid)
    {
      if (c, sid) !in sizes {
        return;
      }
      var (w, h) := sizes[(c, sid)];
      if objs[i].cols != w || objs[i].rows != h {
        var ok := objs[i].Resize(w, h);
      }
    }

    method TakeOver(i: nat, c: Conn, sid: Sid)
      requires Valid() && i < |objs|
      modifies objs[i]
      ensures objs[i].Valid() && objs[i].State() == old(D()).Refocused(old(objs[i].State()).Take(c), c, sid)
    {
      objs[i].TakeSize(c);
      OneChanged(i);
      RefocusSize(i, c, sid);
    }

    method HandleSetActive(c: Conn, sid: Sid, active: Option<bool>) returns (ghost heir: Option<Conn>)
      requires Valid()
      modifies this`logs, objs
      ensures Valid() && D() == old(D()).Activate(c, sid, active, heir)
      ensures sid in listed && active == Some(false) ==> old(objs[listed[sid]].State()).MayInherit(c, heir)
    {
      heir := None;
      if sid !in listed || active.None? {
        return;
      }
      var i := listed[sid];
      if active.value {
        TakeOver(i, c, sid);
      } else {
        var next := objs[i].ReassignOwnerAfter(c);
        heir := next;
      }
      OneChanged(i);
      BroadcastActive(i);
    }

    /** One round of the disconnect handler. */
    method DropFrom(c: Conn, i: nat) returns (ghost heir: Option<Conn>)
      requires Valid() && i < |objs| && c in gone
      modifies this`logs, objs
      ensures Valid() && Daemons.Enabled(old(D()), Drop(c, i, heir)) && D() == Next(old(D()), Drop(c, i, heir))
      ensures objs[i].owner != Some(c) && forall j :: 0 <= j < |objs| && j != i ==> objs[j].owner == old(objs[j].owner)
    {
      var next := objs[i].ReassignOwnerAfter(c);
      heir := next;
      OneChanged(i);
      BroadcastActive(i);
    }

    method HandleAttach(c: Conn, sid: Sid) returns (ghost ch: ChanId)
      requires Valid()
      modifies this`logs, objs
      ensures Valid() && D() == old(D()).AttachTo(c, sid, ch)
      ensures sid in listed ==> ch !in old(objs[listed[sid]].chans)
    {
      ch := 0;
      if sid !in listed {
        SendControl(c, Error);
        return;
      }
      var i := listed[sid];
      var ch', snapshot := objs[i].SubscribeWithScrollback(c);
      ch := ch';
      OneChanged(i);
      SendLabels(c, i, objs[i].owner);
    }

    /** The label, the agent and, for a client that does not own the size, that it does not. */
    method SendLabels(c: Conn, i: nat, o: Option<Conn>)
      modifies this`logs
      ensures var labelled := Send(Send(old(logs), c, Button(i)), c, Button(i));
              logs == if o.Some? && o != Some(c) then Send(labelled, c, Flag(i, false)) else labelled
    {
      SendControl(c, Button(i));
      SendControl(c, Button(i));
      if o.Some? && o != Some(c) {
        SendControl(c, Flag(i, false));
      }
    }

    /** A new, unshared session joined the list of all sessions. */
    twostate lemma OneAdded(new s: LiveSession)
      requires old(Valid()) && objs == old(objs) + [s]
      requires s.Valid() && fresh(s) && fresh(s.modes)
      requires forall j :: 0 <= j < |old(objs)| ==> unchanged(old(objs)[j]) && unchanged(old(objs)[j].modes)
      requires forall sid :: sid in listed ==> listed[sid] < |objs|
      ensures Valid() && States() == old(States()) + [s.State()]
    {
    }

    method MakeSession(starts: bool) returns (s: LiveSession)
      ensures fresh(s) && fresh(s.modes) && s.Valid()
      ensures s.State() == if starts then NewSession() else NewSession().(reading := false, ended := true)
    {
      s := new LiveSession();
      if !starts {
        s.Discard();
      }
    }

    /** Register a session under the next id; if it cannot start it is unlisted again. */
    method HandleNew(c: Conn, starts: bool)
      requires Valid()
      modifies this
      ensures Valid() && D() == old(D()).Create(c, starts)
    {
      var id := nextID;
      nextID := (nextID + 1) % 0x1_0000_0000;
      var s := MakeSession(starts);
      var i := |objs|;
      objs := objs + [s];
      listed := if starts then listed[id := i] else listed - {id};
      OneAdded(s);
      SendControl(c, if starts then Created(i) else Error);
    }

    method HandleKill(sid: Sid)
      requires Valid()
      modifies this`listed
      ensures Valid() && D() == old(D()).(listed := old(listed) - {sid})
    {
      listed := listed - {sid};
    }

    /** A frame back to the sender. */
    method Reply(c: Conn, m: Msg)
      requires Valid()
      modifies this`logs
      ensures Valid() && D() == old(D()).Reply(c, m)
    {
      SendControl(c, m);
      NoneChanged();
    }

    /** `full` is the request with the choices the daemon makes filled in. */
    ghost predicate Fills(req: Request, full: Request) {
      match req
      case Attach(sid, _) => full.Attach? && full.sid == sid
      case SetActive(sid, active, _) => full.SetActive? && full.sid == sid && full.active == active
      case _ => full == req
    }

    method Handle(c: Conn, req: Request) returns (ghost full: Request)
      requires Valid() && c !in gone
      modifies this, objs
      ensures Valid() && Fills(req, full)
      ensures Daemons.Enabled(old(D()), Daemons.Handle(c, full)) && D() == Next(old(D()), Daemons.Handle(c, full))
    {
      full := req;
      match req {
        case List => Reply(c, SessionList);
        case New(known, starts) =>
          if known {
            HandleNew(c, starts);
          } else {
            Reply(c, Error);
          }
        case NewCmd(starts) => HandleNew(c, starts);
        case Attach(sid, _) =>
          var ch := HandleAttach(c, sid);
          full := Attach(sid, ch);
        case Detach => Reply(c, Detached);
        case Kill(sid) => HandleKill(sid);
        case Input(sid, accepted) =>
          if sid !in listed || !accepted {
            Reply(c, Error);
          }
        case ResizeTo(sid, w, h) => HandleResize(c, sid, w, h);
        case SetActive(sid, active, _) =>
          var heir := HandleSetActive(c, sid, active);
          full := SetActive(sid, active, heir);
        case ListDir => Reply(c, DirList);
        case Unknown => Reply(c, Error);
      }
    }

    method CloseSession(i: nat) returns (writers: map<ChanId, Conn>)
      requires Valid() && i < |objs| && !objs[i].reading && !objs[i].ended
      modifies objs[i]
      ensures Valid() && writers == old(States())[i].subs && States() == old(States())[i := old(States())[i].Exit()]
    {
      writers := objs[i].EndSubscriptions();
      OneChanged(i);
    }

    /** Tell the subscribers, close their channels and forget the session. */
    method HandleSessionExit(i: nat)
      requires Valid() && i < |objs| && !objs[i].reading && !objs[i].ended
      modifies this`logs, this`listed, objs
      ensures Valid() && D() == old(D()).End(i)
    {
      var writers := CloseSession(i);
      Broadcast(writers, StateNote(i));
      listed := listed - {WireId(i)};
    }

    /** The next round: what was done so far and this session. */
    method DropNext(c: Conn, i: nat, ghost before: Rounds) returns (ghost after: Rounds)
      requires Valid() && i < |objs| && c in gone && before.Ok(c) && i !in before.done
      requires before.Now() == D()
      modifies this`logs, objs
      ensures Valid() && after.Ok(c) && after.Now() == D()
      ensures after.First() == before.First() && after.done == before.done + {i}
    {
      var heir := DropFrom(c, i);
      after := Onward(before, c, i, heir);
    }

    /**
     The disconnect handler: in every listed session the connection lets go of, another subscriber
     owns the size if there is one, and every subscriber knows. The rounds are steps of a run.
     */
    method Disconnect(c: Conn) returns (ghost rounds: Rounds)
      requires Valid() && c !in gone
      modifies this`gone, this`logs, objs
      ensures Valid() && gone == old(gone) + {c} && listed == old(listed)
      ensures HandedOn(old(D()), D(), c, listed.Values)
      ensures rounds.Ok(c) && rounds.First() == old(D()) && rounds.Now() == D() && rounds.done == listed.Values
    {
      rounds := NoRounds(D(), c);
      gone := gone + {c};
      NoneChanged();
      rounds := DropAll(c, rounds);
      RoundsHandOn(rounds, c);
    }

    /** One round for each listed session. */
    method DropAll(c: Conn, ghost before: Rounds) returns (ghost rounds: Rounds)
      requires Valid() && c in gone && before.Ok(c) && before.Now() == D() && before.done == {}
      modifies this`logs, objs
      ensures Valid() && rounds.Ok(c) && rounds.First() == before.First() && rounds.Now() == D()
      ensures rounds.done == listed.Values
    {
      rounds := before;
      var rest := listed.Values;
      while rest != {}
        invariant Valid() && rest <= listed.Values
        invariant rounds.Ok(c) && rounds.First() == before.First() && rounds.Now() == D()
        invariant rounds.done == listed.Values - rest
        decreases rest
      {
        var i :| i in rest;
        rest := rest - {i};
        rounds := DropNext(c, i, rounds);
      }
      assert rounds.done == listed.Values;
    }
  }
}
