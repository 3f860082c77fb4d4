/**
 The redraw loop of the desktop view. Damage puts a token into a one-slot channel; a waiter
 takes it, lets the burst settle and posts a tick; the tick is handled like any other message,
 and every handled message is followed by a view.
 */
module RedrawLoop {
  import opened Common
  import opened Terminal
  import opened Pager

  /** What is on display. */
  datatype Picture = Live(rows: seq<string>) | History(lines: seq<Row>)

  datatype Loop = Loop(
    vt: Vt, anchor: Anchor,
    parked: bool, frozen: Picture,
    token: bool,                     // in the notification channel
    waiting: nat,                    // waiters blocked on the first damage
    coalescing: nat,                 // waiters letting a burst settle
    ticks: nat,                      // render ticks not handled yet
    shown: Picture                   // the last view
  )

  /** Messages besides the render tick. `next` is the emulator after its own resize. */
  datatype Message = Tick | Size(next: Vt) | Wheel(up: bool) | Key | Blink | Active(on: bool)

  datatype Event = Output(stream: seq<Sym>) | Take | Absorb | Settle | Handle(m: Message)

  function Draw(s: Loop, p: Painter): Picture {
    var sbLen := |s.vt.term.history|;
    if s.anchor.top > 0 then History(Window(s.vt.term, Redrawn(s.anchor, sbLen).top, s.vt.term.h))
    else Live(p.Frame(s.vt.term))
  }

  /** What a view would show now. */
  function Current(s: Loop, p: Painter): Picture {
    if s.parked then s.frozen else Draw(s, p)
  }

  /**
   The display is current. A paged window whose history has been cleared shows the live screen,
   drawn by the pager one last time.
   */
  predicate UpToDate(s: Loop, p: Painter) {
    || s.shown == Current(s, p)
    || (!s.parked && s.anchor.top == 0 && s.shown == History(Window(s.vt.term, 0, s.vt.term.h)))
  }

  /** Drawing a paged window pins it. */
  function Settled(s: Loop): Loop {
    if s.anchor.top > 0 then s.(anchor := Redrawn(s.anchor, |s.vt.term.history|)) else s
  }

  function View(s: Loop, p: Painter): Loop {
    (if s.parked then s else Settled(s)).(shown := Current(s, p))
  }

  function Init(vt: Vt, p: Painter): Loop {
    var still := Live(p.Frame(vt.term));
    Loop(vt, Anchor(0, 0), false, still, false, 1, 0, 0, still)
  }

  predicate Enabled(s: Loop, e: Event) {
    match e
    case Output(_) => true
    case Take => s.token && s.waiting > 0
    case Absorb => s.token && s.coalescing > 0
    case Settle => s.coalescing > 0
    case Handle(Tick) => s.ticks > 0
    case Handle(Size(next)) => VtOk(next)
    case Handle(_) => true
  }

  function Update(s: Loop, m: Message, p: Painter): Loop
    requires VtOk(s.vt) && Enabled(s, Handle(m))
  {
    match m
    case Tick => s.(ticks := s.ticks - 1, waiting := s.waiting + 1)
    case Size(next) => s.(vt := next, token := true, waiting := s.waiting + 1)
    case Wheel(up) =>
      if s.parked || OwnWheel(s.vt.term) then s
      else s.(anchor := Wheeled(s.anchor, |s.vt.term.history|, if up then WHEEL_ROWS else -WHEEL_ROWS))
    case Key => s.(anchor := Anchor(0, s.anchor.seen), parked := false)
    case Blink => s
    case Active(true) => s.(parked := false)
    case Active(false) => Settled(s).(parked := true, frozen := Draw(s, p))
  }

  function After(s: Loop, e: Event, p: Painter): Loop
    requires VtOk(s.vt) && Enabled(s, e)
  {
    match e
    case Output(stream) => s.(vt := Feed(s.vt, stream), token := true)
    case Take => s.(token := false, waiting := s.waiting - 1, coalescing := s.coalescing + 1)
    case Absorb => s.(token := false)
    case Settle => s.(coalescing := s.coalescing - 1, ticks := s.ticks + 1)
    case Handle(m) => View(Update(s, m, p), p)
  }

  ghost predicate IsRun(s: Loop, es: seq<Event>, p: Painter)
    decreases |es|
  {
    VtOk(s.vt) && (es == [] || (Enabled(s, es[0]) && IsRun(After(s, es[0], p), es[1..], p)))
  }

  ghost function Run(s: Loop, es: seq<Event>, p: Painter): (r: Loop)
    requires IsRun(s, es, p)
    ensures VtOk(r.vt)
    decreases |es|
  {
    if es == [] then s else Run(After(s, es[0], p), es[1..], p)
  }

  function Waiters(s: Loop): nat {
    s.waiting + s.coalescing + s.ticks
  }

  /** A redraw is on its way. */
  predicate Coming(s: Loop) {
    s.token || s.coalescing > 0 || s.ticks > 0
  }

  function Resizes(es: seq<Event>): nat {
    if es == [] then 0
    else (if es[0].Handle? && es[0].m.Size? then 1 else 0) + Resizes(es[1..])
  }

  /** A stale display is about to be redrawn, and somebody is there to do it. */
  ghost predicate Good(s: Loop, p: Painter) {
    && VtOk(s.vt)
    && Waiters(s) > 0
    && (!UpToDate(s, p) ==> Coming(s))
  }

  lemma ViewIsCurrent(s: Loop, p: Painter)
    ensures UpToDate(View(s, p), p)
  {
  }

  lemma StepGood(s: Loop, e: Event, p: Painter)
    requires Good(s, p) && Enabled(s, e)
    ensures Good(After(s, e, p), p)
    ensures Waiters(After(s, e, p)) == Waiters(s) + if e.Handle? && e.m.Size? then 1 else 0
    ensures e.Handle? ==> UpToDate(After(s, e, p), p)
  {
    if e.Handle? {
      HandleGood(s, e.m, p);
    }
  }

  lemma HandleGood(s: Loop, m: Message, p: Painter)
    requires Good(s, p) && Enabled(s, Handle(m))
    ensures var r := After(s, Handle(m), p);
            VtOk(r.vt) && UpToDate(r, p) && Waiters(r) == Waiters(s) + if m.Size? then 1 else 0
  {
    UpdateCounts(s, m, p);
    ViewIsCurrent(Update(s, m, p), p);
  }

  lemma UpdateCounts(s: Loop, m: Message, p: Painter)
    requires VtOk(s.vt) && Enabled(s, Handle(m))
    ensures var u := Update(s, m, p); VtOk(u.vt) && Waiters(u) == Waiters(s) + if m.Size? then 1 else 0
  {
  }

  /**
   No redraw is lost: in every run, whenever the display differs from a fresh picture, a token, a
   settling waiter or a tick is on its way. Waiters never run out; only resizes add to them.
   */
  lemma {:induction false} NoLostRedraw(s: Loop, es: seq<Event>, p: Painter)
    requires Good(s, p) && IsRun(s, es, p)
    ensures Good(Run(s, es, p), p)
    ensures Waiters(Run(s, es, p)) == Waiters(s) + Resizes(es)
    decreases |es|
  {
    if es != [] {
      StepGood(s, es[0], p);
      NoLostRedraw(After(s, es[0], p), es[1..], p);
    }
  }

  /** So it is from the first view on: no run loses a redraw, and there is one waiter more for every resize. */
  lemma NoLostRedrawFromTheStart(vt: Vt, es: seq<Event>, p: Painter)
    requires VtOk(vt) && IsRun(Init(vt, p), es, p)
    ensures var s := Run(Init(vt, p), es, p);
            && (!UpToDate(s, p) ==> Coming(s))
            && Waiters(s) == 1 + Resizes(es)
  {
    assert UpToDate(Init(vt, p), p);
    NoLostRedraw(Init(vt, p), es, p);
  }

  /** The loop's own next steps, with no further output or input. */
  function Quiesce(s: Loop): seq<Event> {
    if s.ticks > 0 then [Handle(Tick)]
    else if s.coalescing > 0 then [Settle, Handle(Tick)]
    else if s.token && s.waiting > 0 then [Take, Settle, Handle(Tick)]
    else []
  }

  /** Left alone, the loop brings a stale display up to date in at most three steps of its own. */
  lemma StaleIsRedrawn(s: Loop, p: Painter)
    requires Good(s, p)
    ensures IsRun(s, Quiesce(s), p) && |Quiesce(s)| <= 3
    ensures var n := Run(s, Quiesce(s), p); UpToDate(n, p) && n.vt == s.vt && n.parked == s.parked
  {
    var tick := [Handle(Tick)];
    if s.ticks > 0 {
      TickRedraws(s, p);
    } else if s.coalescing > 0 {
      StepGood(s, Settle, p);
      TickRedraws(After(s, Settle, p), p);
      assert [Settle, Handle(Tick)][1..] == tick;
    } else if s.token && s.waiting > 0 {
      var a := After(s, Take, p);
      StepGood(s, Take, p);
      StepGood(a, Settle, p);
      TickRedraws(After(a, Settle, p), p);
      assert [Settle, Handle(Tick)][1..] == tick;
      assert [Take, Settle, Handle(Tick)][1..] == [Settle, Handle(Tick)];
      assert IsRun(a, [Settle, Handle(Tick)], p);
    }
  }

  lemma TickRedraws(s: Loop, p: Painter)
    requires Good(s, p) && s.ticks > 0
    ensures IsRun(s, [Handle(Tick)], p)
    ensures var n := Run(s, [Handle(Tick)], p); UpToDate(n, p) && n.vt == s.vt && n.parked == s.parked
  {
    StepGood(s, Handle(Tick), p);
    assert [Handle(Tick)][1..] == [];
    assert IsRun(After(s, Handle(Tick), p), [], p);
  }

  // ---------------------------------------------------------------- what the loop shows

  /** The emulator after output and resizes. */
  function EmulatorAfter(vt: Vt, es: seq<Event>): (r: Option<Vt>)
    decreases es
  {
    if es == [] then Some(vt)
    else
      match es[0]
      case Output(stream) => if VtOk(vt) then EmulatorAfter(Feed(vt, stream), es[1..]) else None
      case Handle(Size(next)) => EmulatorAfter(next, es[1..])
      case _ => EmulatorAfter(vt, es[1..])
  }

  /** Messages, ticks and waiters leave the emulator alone. */
  lemma {:induction false} LoopFeeds(s: Loop, es: seq<Event>, p: Painter)
    requires IsRun(s, es, p)
    ensures EmulatorAfter(s.vt, es) == Some(Run(s, es, p).vt)
    decreases |es|
  {
    if es != [] {
      StepFeeds(s, es[0], p);
      LoopFeeds(After(s, es[0], p), es[1..], p);
    }
  }

  lemma StepFeeds(s: Loop, e: Event, p: Painter)
    requires VtOk(s.vt) && Enabled(s, e)
    ensures After(s, e, p).vt == match e
                                 case Output(stream) => Feed(s.vt, stream)
                                 case Handle(Size(next)) => next
                                 case _ => s.vt
  {
  }

  /** The view over the emulator and its scrollback. */
  function DeskOf(s: Loop): Desk {
    Desk(s.vt, s.vt.term.history, s.anchor)
  }

  /**
   An unparked view that handled a message shows the page of the pager while it is paged, and the
   live frame otherwise.
   */
  lemma DisplayIs(s: Loop, m: Message, p: Painter)
    requires VtOk(s.vt) && Enabled(s, Handle(m)) && !After(s, Handle(m), p).parked
    ensures var u := Update(s, m, p);
            After(s, Handle(m), p).shown
            == if u.anchor.top > 0 then History(Page(DeskOf(u), u.vt.term.h)) else Live(p.Frame(u.vt.term))
  {
  }

  /** Wheel and keys move the window as they move the pager's, and no other message does. */
  lemma MessageMoves(s: Loop, m: Message, p: Painter)
    requires DeskOk(DeskOf(s)) && Enabled(s, Handle(m))
    ensures var u := Update(s, m, p).anchor;
            match m
            case Wheel(up) => u == if s.parked then s.anchor else Pager.After(DeskOf(s), Pager.Wheel(up)).anchor
            case Key => u == Pager.After(DeskOf(s), Pager.Key).anchor && u.top == 0
            case Active(false) => u == Pager.After(DeskOf(s), Pager.Redraw).anchor
            case _ => u == s.anchor
  {
  }

  /** A parked view keeps showing what was on display, until a key or a handover resumes it. */
  lemma {:induction false} ParkedStays(s: Loop, es: seq<Event>, p: Painter)
    requires IsRun(s, es, p) && s.parked && s.shown == s.frozen
    requires forall k :: 0 <= k < |es| ==> !(es[k].Handle? && (es[k].m.Key? || es[k].m.Active?))
    ensures var r := Run(s, es, p); r.parked && r.shown == s.shown
    decreases |es|
  {
    if es != [] {
      assert forall k :: 0 <= k < |es[1..]| ==> es[1..][k] == es[k + 1];
      ParkedStays(After(s, es[0], p), es[1..], p);
    }
  }

  /** Parking freezes the picture of that moment, a key or a handover shows the live screen or page again. */
  lemma ParkingFreezes(s: Loop, on: bool, p: Painter)
    requires VtOk(s.vt)
    ensures var r := After(s, Handle(Active(on)), p);
            && r.parked == !on
            && (!on ==> r.shown == Draw(s, p) && r.frozen == r.shown)
            && !After(s, Handle(Message.Key), p).parked
  {
  }
}
