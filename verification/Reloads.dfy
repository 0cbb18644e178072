/**
 * WatchReloaded (signals.go): a second goroutine ranges over the events of the first and
 * forwards one tick per Reloaded signal. Both goroutines, the bus, the context and the
 * tick consumer interleave freely.
 */
module Reloads {
  import opened Seqs
  import opened Signals

  const TICK_CAPACITY := 4

  datatype Ticker = Ranging | Ticking | TickClosing | TickDone

  /** `consumed` counts the ticks the caller received, `dropped` the tick a cancel abandoned. */
  datatype Watch = Watch(
    pipe: Pipe,
    ticker: Ticker,
    ticks: nat,
    tickCloses: nat,
    panicked: bool,
    consumed: nat,
    dropped: nat)

  function Begin(cancelled: bool): Watch {
    Watch(Start(cancelled), Ranging, 0, 0, false, 0, 0)
  }

  datatype Event =
    | Pipes(a: Action)  // anything but a receive from out, which is the ticker's alone
    | TakeTick          // the caller receives a tick
    | TickReceive | TickEnd | TickSend | TickDrop | TickClose

  function Next(w: Watch, e: Event): Option<Watch> {
    match e
    case Pipes(a) =>
      if a.Take? then None
      else (match Apply(w.pipe, a) case None => None case Some(p) => Some(w.(pipe := p)))
    case TakeTick =>
      if w.ticks > 0 then Some(w.(ticks := w.ticks - 1, consumed := w.consumed + 1)) else None
    case TickReceive =>
      if w.ticker.Ranging? && w.pipe.out != []
      then Some(w.(pipe := Apply(w.pipe, Take).value,
                   ticker := if IsReload(w.pipe.out[0]) then Ticking else Ranging))
      else None
    case TickEnd =>
      if w.ticker.Ranging? && w.pipe.out == [] && w.pipe.outCloses > 0
      then Some(w.(ticker := TickClosing))
      else None
    case TickSend =>
      if !w.ticker.Ticking? then None
      else if w.tickCloses > 0 then Some(w.(panicked := true))
      else if w.ticks < TICK_CAPACITY then Some(w.(ticks := w.ticks + 1, ticker := Ranging))
      else None
    case TickDrop =>
      if w.ticker.Ticking? && w.pipe.cancelled
      then Some(w.(ticker := TickClosing, dropped := w.dropped + 1))
      else None
    case TickClose =>
      if !w.ticker.TickClosing? then None
      else if w.tickCloses > 0 then Some(w.(panicked := true))
      else Some(w.(tickCloses := 1, ticker := TickDone))
  }

  function Schedule(w: Watch, es: seq<Event>): Option<Watch> {
    if es == [] then Some(w)
    else
      match Schedule(w, es[..|es| - 1])
      case None => None
      case Some(v) => Next(v, es[|es| - 1])
  }

  predicate IsReload(s: Signal) { s.member == "Reloaded" }

  function Reloaded(ss: seq<Signal>): nat {
    if ss == [] then 0 else Reloaded(ss[..|ss| - 1]) + if IsReload(ss[|ss| - 1]) then 1 else 0
  }

  lemma {:induction false} ReloadedConcat(a: seq<Signal>, b: seq<Signal>)
    ensures Reloaded(a + b) == Reloaded(a) + Reloaded(b)
  {
    if b == [] {
      assert a + b == a;
    } else {
      ReloadedConcat(a, b[..|b| - 1]);
      assert (a + b)[..|a + b| - 1] == a + b[..|b| - 1];
    }
  }

  function TickInHand(w: Watch): nat { if w.ticker.Ticking? then 1 else 0 }

  predicate Running(w: Watch) { w.ticker.Ranging? || w.ticker.Ticking? }

  ghost predicate WatchInv(w: Watch) {
    && Inv(w.pipe)
    && !w.panicked
    && w.ticks <= TICK_CAPACITY
    && w.tickCloses == (if w.ticker.TickDone? then 1 else 0)
    && w.consumed + w.ticks + TickInHand(w) + w.dropped == Reloaded(w.pipe.taken)
    && w.dropped <= 1
    && (w.dropped > 0 ==> w.pipe.cancelled && !Running(w))
    && (!Running(w) && !w.pipe.cancelled ==> w.pipe.out == [] && w.pipe.outCloses > 0)
  }

  lemma {:induction false} TickReceiveKeepsInv(w: Watch, v: Watch)
    requires WatchInv(w) && Next(w, TickReceive) == Some(v)
    ensures WatchInv(v)
  {
    hide Inv, Reloaded;
    InvStep(w.pipe, Take, v.pipe);
    ReloadedConcat(w.pipe.taken, [w.pipe.out[0]]);
    ReloadedOfOne(w.pipe.out[0]);
  }

  lemma ReloadedOfOne(s: Signal)
    ensures Reloaded([s]) == if IsReload(s) then 1 else 0
  {
  }

  lemma {:induction false} PipesKeepInv(w: Watch, a: Action, v: Watch)
    requires WatchInv(w) && Next(w, Pipes(a)) == Some(v)
    ensures WatchInv(v)
  {
    hide Reloaded, Events;
    InvStep(w.pipe, a, v.pipe);
  }

  lemma {:induction false} WatchInvStep(w: Watch, e: Event, v: Watch)
    requires WatchInv(w) && Next(w, e) == Some(v)
    ensures WatchInv(v)
  {
    hide Inv, Reloaded;
    match e {
      case Pipes(a) => PipesKeepInv(w, a, v);
      case TickReceive => TickReceiveKeepsInv(w, v);
      case _ =>
    }
  }

  /** Every interleaving keeps both goroutines' invariants; neither ever panics. */
  lemma {:induction false} ScheduleKeepsInv(w: Watch, es: seq<Event>, v: Watch)
    requires WatchInv(w) && Schedule(w, es) == Some(v)
    ensures WatchInv(v)
  {
    if es != [] {
      var u := Schedule(w, es[..|es| - 1]).value;
      ScheduleKeepsInv(w, es[..|es| - 1], u);
      WatchInvStep(u, es[|es| - 1], v);
    }
  }

  lemma ReachableInv(cancelled: bool, es: seq<Event>, w: Watch)
    requires Schedule(Begin(cancelled), es) == Some(w)
    ensures WatchInv(w)
  {
    hide Inv, Events, Reloaded;
    assert Run(Start(cancelled), []) == Some(Start(cancelled));
    RunKeepsInv(cancelled, [], Start(cancelled));
    NoneReloaded();
    ScheduleKeepsInv(Begin(cancelled), es, w);
  }

  /** Every Reloaded signal that entered is somewhere in the pipe. */
  lemma ReloadsInPipe(p: Pipe)
    requires Inv(p)
    ensures Reloaded(Events(p.accepted)) ==
            Reloaded(p.taken) + Reloaded(p.out) + Reloaded(InHand(p)) + Reloaded(p.lost) + Reloaded(Events(p.raw))
  {
    hide Events, Reloaded, TeardownInOrder;
    EventsConcat(Read(p), p.raw);
    ReloadedConcat(Events(Read(p)), Events(p.raw));
    ReloadedConcat(Delivered(p), Pending(p));
    ReloadedConcat(p.taken, p.out);
    ReloadedConcat(InHand(p), p.lost);
  }

  // ---------------------------------------------------------- results

  /**
   * One tick per Reloaded signal. Before cancellation the ticks received, buffered and
   * in hand plus the Reloaded events still upstream are exactly those that entered; at
   * no moment are there more ticks than that; and a watcher the bus ends delivers all.
   */
  lemma {:induction false} TicksMatchReloads(cancelled: bool, es: seq<Event>, w: Watch)
    requires Schedule(Begin(cancelled), es) == Some(w)
    ensures !w.pipe.cancelled ==>
              w.consumed + w.ticks + TickInHand(w)
              + Reloaded(w.pipe.out) + Reloaded(InHand(w.pipe)) + Reloaded(Events(w.pipe.raw))
              == Reloaded(Events(w.pipe.accepted))
    ensures w.consumed + w.ticks <= Reloaded(Events(w.pipe.accepted))
    ensures w.ticker.TickDone? && !w.pipe.cancelled ==>
              w.consumed + w.ticks == Reloaded(Events(w.pipe.accepted))
  {
    hide Schedule, Events, Reloaded, Accounted;
    ReachableInv(cancelled, es, w);
    ReloadsInPipe(w.pipe);
    NoneReloaded();
  }

  lemma NoneReloaded()
    ensures Reloaded([]) == 0 && Events([]) == []
  {
  }

  /** Each channel is closed at most once, by its own goroutine at its very end. */
  lemma ChannelsCloseOnce(cancelled: bool, es: seq<Event>, w: Watch)
    requires Schedule(Begin(cancelled), es) == Some(w)
    ensures !w.panicked && !w.pipe.panicked
    ensures w.tickCloses == (if w.ticker.TickDone? then 1 else 0)
    ensures w.pipe.outCloses == (if w.pipe.fwd.Done? then 1 else 0)
    ensures w.pipe.outCloses > 0 ==> !w.pipe.registered && w.pipe.rules == []
  {
    hide Schedule, Events, Accounted;
    ReachableInv(cancelled, es, w);
  }

  /** Accepting a raw signal brings one more tick if and only if it is firewalld's Reloaded. */
  lemma {:induction false} OneTickPerReloaded(accepted: seq<RawSignal>, r: RawSignal)
    ensures Reloaded(Events(accepted + [r])) == Reloaded(Events(accepted)) ||
            Reloaded(Events(accepted + [r])) == Reloaded(Events(accepted)) + 1
    ensures Reloaded(Events(accepted + [r])) == Reloaded(Events(accepted)) + 1 <==>
            exists iface :: "org.fedoraproject.FirewallD1" <= iface && r.name == iface + "." + "Reloaded"
  {
    hide Events, Reloaded, Signals.LastDot;
    EventsConcat(accepted, [r]);
    var events := Events([r]);
    ReloadedConcat(Events(accepted), events);
    NoneReloaded();
    var iface, member := EveryNameIsOneOrTheOther(r.name);
    if r.name == iface + "." + member {
      EventOfQualifiedName(iface, member, r.path, r.body);
      if events != [] { ReloadedOfOne(events[0]); }
      forall other | r.name == other + "." + "Reloaded" ensures other == iface && member == "Reloaded" {
        SplitUndoesJoin(iface, member);
        SplitUndoesJoin(other, "Reloaded");
      }
    } else {
      NoEventWithoutInterface(member, r.path, r.body);
      forall other ensures r.name != other + "." + "Reloaded" {
        QualifiedNameHasADot(other, "Reloaded");
      }
    }
  }

  /** The tick channel holds four; it takes a tick exactly while it holds fewer. */
  lemma TickChannelTakesFour(w: Watch)
    ensures w.ticker.Ticking? && w.tickCloses == 0 ==> (Next(w, TickSend).Some? <==> w.ticks < 4)
  {
  }

  // ------------------------------------------------------ termination

  /** The two goroutines' own actions. */
  predicate Internal(e: Event) {
    match e
    case Pipes(a) => OfForwarder(a)
    case TakeTick => false
    case _ => true
  }

  function TickerRank(w: Watch): nat {
    match w.ticker
    case Ranging => 2
    case Ticking => 2
    case TickClosing => 1
    case TickDone => 0
  }

  function TotalWork(w: Watch): nat {
    Work(w.pipe) + 3 * TickInHand(w) + w.ticks + TickerRank(w)
  }

  lemma InternalStepDecreasesWork(w: Watch, e: Event, v: Watch)
    requires WatchInv(w) && Internal(e) && Next(w, e) == Some(v)
    ensures TotalWork(v) < TotalWork(w)
  {
    hide Events, Reloaded;
    if e.Pipes? {
      ForwarderStepDecreasesWork(w.pipe, e.a, v.pipe);
    }
  }

  predicate Finished(w: Watch) { w.pipe.fwd.Done? && w.ticker.TickDone? }

  /** An action some goroutine can take once the context is cancelled. */
  function NextMove(w: Watch): Event
    requires w.pipe.cancelled && !Finished(w)
  {
    if !w.pipe.fwd.Done? then Pipes(NextAfterCancel(w.pipe))
    else
      match w.ticker
      case Ranging => if w.pipe.out != [] then TickReceive else TickEnd
      case Ticking => TickDrop
      case _ => TickClose
  }

  /** No new signal enters; the bus, the context and the caller may do anything else. */
  predicate NoArrival(e: Event) { !(e.Pipes? && e.a.Arrive?) }

  /** How many steps of a schedule the two goroutines take. */
  function OwnSteps(es: seq<Event>): nat {
    if es == [] then 0 else OwnSteps(es[..|es| - 1]) + if Internal(es[|es| - 1]) then 1 else 0
  }

  /** Taking a tick, cancelling and losing the bus add no work. */
  lemma OutsideStepAddsNoWork(w: Watch, e: Event, v: Watch)
    requires !Internal(e) && NoArrival(e) && Next(w, e) == Some(v)
    ensures TotalWork(v) <= TotalWork(w)
  {
    hide Work, Apply;
    if e.Pipes? {
      OtherStepAddsNoWork(w.pipe, e.a, v.pipe);
    }
  }

  lemma {:induction false} WorkBoundsTheSchedule(w: Watch, es: seq<Event>, v: Watch)
    requires WatchInv(w) && Schedule(w, es) == Some(v) && forall i :: 0 <= i < |es| ==> NoArrival(es[i])
    ensures OwnSteps(es) + TotalWork(v) <= TotalWork(w)
  {
    hide Next, TotalWork, WatchInv;
    if es != [] {
      var u := Schedule(w, es[..|es| - 1]).value;
      WorkBoundsTheSchedule(w, es[..|es| - 1], u);
      ScheduleKeepsInv(w, es[..|es| - 1], u);
      if Internal(es[|es| - 1]) {
        InternalStepDecreasesWork(u, es[|es| - 1], v);
      } else {
        OutsideStepAddsNoWork(u, es[|es| - 1], v);
      }
    }
  }

  lemma CancelledWatchCanMove(w: Watch)
    requires WatchInv(w) && w.pipe.cancelled
    ensures !Finished(w) ==> Internal(NextMove(w)) && Next(w, NextMove(w)).Some?
    ensures Finished(w) ==> w.pipe.outCloses == 1 && w.tickCloses == 1
  {
  }

  /**
   * After cancellation, with no more signals entering, the two goroutines take a bounded
   * number of steps, whatever the bus, the context and the caller do meanwhile; and at
   * every moment one of them can move, without anyone's help, until both have ended and
   * closed their channels exactly once.
   */
  lemma {:induction false} CancelledWatchTerminates(
      cancelled: bool, past: seq<Event>, w: Watch, es: seq<Event>, v: Watch)
    requires Schedule(Begin(cancelled), past) == Some(w) && w.pipe.cancelled
    requires Schedule(w, es) == Some(v) && forall i :: 0 <= i < |es| ==> NoArrival(es[i])
    ensures OwnSteps(es) + TotalWork(v) <= TotalWork(w)
    ensures v.pipe.cancelled
    ensures !Finished(v) ==> Internal(NextMove(v)) && Next(v, NextMove(v)).Some?
    ensures Finished(v) ==> v.pipe.outCloses == 1 && v.tickCloses == 1
  {
    hide Schedule, WatchInv, Next, NextMove, TotalWork;
    ReachableInv(cancelled, past, w);
    ScheduleKeepsInv(w, es, v);
    WorkBoundsTheSchedule(w, es, v);
    CancelIsFinal(w, es, v);
    CancelledWatchCanMove(v);
  }

  lemma StepKeepsCancel(w: Watch, e: Event, v: Watch)
    requires w.pipe.cancelled && Next(w, e) == Some(v)
    ensures v.pipe.cancelled
  {
    hide IsReload, IsFirewalld, ToSignal;
  }

  lemma {:induction false} CancelIsFinal(w: Watch, es: seq<Event>, v: Watch)
    requires w.pipe.cancelled && Schedule(w, es) == Some(v)
    ensures v.pipe.cancelled
  {
    hide Next;
    if es != [] {
      var u := Schedule(w, es[..|es| - 1]).value;
      CancelIsFinal(w, es[..|es| - 1], u);
      StepKeepsCancel(u, es[|es| - 1], v);
    }
  }

  /**
   * Before cancellation the goroutines wait only for their neighbours: when neither can
   * move and the caller has taken every tick, no signal is stuck anywhere on the way,
   * and if the bus has closed raw both goroutines have ended.
   */
  lemma NothingIsStranded(cancelled: bool, es: seq<Event>, w: Watch)
    requires Schedule(Begin(cancelled), es) == Some(w) && !w.pipe.cancelled && w.ticks == 0
    requires forall e :: Internal(e) ==> Next(w, e).None?
    ensures w.pipe.raw == [] && w.pipe.out == [] && InHand(w.pipe) == [] && TickInHand(w) == 0
    ensures w.consumed == Reloaded(Events(w.pipe.accepted))
    ensures w.pipe.rawClosed ==> Finished(w)
  {
    hide Schedule, Events, Reloaded, Accounted;
    ReachableInv(cancelled, es, w);
    assert Next(w, TickSend).None? && Next(w, TickReceive).None?;
    assert Next(w, Pipes(Send)).None? && Next(w, Pipes(Receive)).None?;
    assert Next(w, Pipes(SeeClosed)).None? && Next(w, TickEnd).None? && Next(w, TickClose).None?;
    assert Next(w, Pipes(Unregister)).None? && Next(w, Pipes(Unmatch)).None? && Next(w, Pipes(Close)).None?;
    TicksMatchReloads(cancelled, es, w);
    NoneReloaded();
  }
}
