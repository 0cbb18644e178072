/**
 * The signal pipeline (signals.go): the goroutine WatchSignals starts, between its raw
 * and out channels, as a machine whose actions interleave freely with deliveries,
 * cancellation and the consumer.
 */
module Signals {
  import opened Seqs
  import opened Values

  datatype RawSignal = RawSignal(name: string, path: string, body: seq<Value>)
  datatype Signal = Signal(member: string, iface: string, path: string, body: seq<Value>)

  const IFACE_MAIN := "org.fedoraproject.FirewallD1"

  /** The interfaces matched on subscription and dropped again on teardown. */
  const SIGNAL_INTERFACES: seq<string> := [
    "org.fedoraproject.FirewallD1", "org.fedoraproject.FirewallD1.zone",
    "org.fedoraproject.FirewallD1.ipset", "org.fedoraproject.FirewallD1.direct",
    "org.fedoraproject.FirewallD1.policy", "org.fedoraproject.FirewallD1.policies",
    "org.fedoraproject.FirewallD1.config", "org.fedoraproject.FirewallD1.config.zone",
    "org.fedoraproject.FirewallD1.config.ipset", "org.fedoraproject.FirewallD1.config.policy",
    "org.fedoraproject.FirewallD1.config.service", "org.fedoraproject.FirewallD1.config.icmptype",
    "org.fedoraproject.FirewallD1.config.helper", "org.fedoraproject.FirewallD1.config.direct"
  ]

  const RAW_CAPACITY := 64
  const OUT_CAPACITY := 64

  // ------------------------------------------------- splitSignalName

  /** The index of the last dot, -1 when there is none. */
  function LastDot(s: string): (i: int)
    ensures -1 <= i < |s|
    ensures i >= 0 ==> s[i] == '.'
    ensures forall j :: i < j < |s| ==> s[j] != '.'
  {
    if s == "" then -1
    else if s[|s| - 1] == '.' then |s| - 1
    else LastDot(s[..|s| - 1])
  }

  function SplitSignalName(full: string): (string, string) {
    var i := LastDot(full);
    if i < 0 then ("", full) else (full[..i], full[i + 1..])
  }

  /** Splitting undoes joining, and a name without a dot is all member. */
  lemma {:induction false} SplitUndoesJoin(iface: string, member: string)
    requires '.' !in member
    ensures SplitSignalName(iface + "." + member) == (iface, member)
    ensures SplitSignalName(member) == ("", member)
  {
    var full := iface + "." + member;
    assert full[|iface|] == '.';
    assert forall j :: |iface| < j < |full| ==> full[j] == member[j - |iface| - 1];
    assert LastDot(full) == |iface|;
    assert full[..|iface|] == iface && full[|iface| + 1..] == member;
  }

  predicate IsFirewalld(r: RawSignal) {
    HasPrefix(SplitSignalName(r.name).0, IFACE_MAIN)
  }

  function ToSignal(r: RawSignal): Signal {
    var (iface, member) := SplitSignalName(r.name);
    Signal(member, iface, r.path, r.body)
  }

  /** The events a watcher should see for a run of raw signals: filtered, in order. */
  function Events(rs: seq<RawSignal>): seq<Signal> {
    if rs == [] then []
    else Events(rs[..|rs| - 1]) + if IsFirewalld(rs[|rs| - 1]) then [ToSignal(rs[|rs| - 1])] else []
  }

  lemma {:induction false} EventsConcat(a: seq<RawSignal>, b: seq<RawSignal>)
    ensures Events(a + b) == Events(a) + Events(b)
  {
    hide IsFirewalld, ToSignal;
    if b == [] {
      assert a + b == a;
    } else {
      var init := b[..|b| - 1];
      EventsConcat(a, init);
      assert (a + b)[..|a + b| - 1] == a + init;
    }
  }

  lemma EventsOfOne(r: RawSignal)
    ensures Events([]) == []
    ensures Events([r]) == if IsFirewalld(r) then [ToSignal(r)] else []
  {
  }

  /**
   * What one raw signal becomes: under firewalld's interfaces the event with its member,
   * interface, path and body, and anywhere else nothing.
   */
  lemma {:induction false} EventOfQualifiedName(iface: string, member: string, path: string, body: seq<Value>)
    requires '.' !in member
    ensures Events([RawSignal(iface + "." + member, path, body)]) ==
            if "org.fedoraproject.FirewallD1" <= iface
            then [Signal(member := member, iface := iface, path := path, body := body)]
            else []
  {
    SplitUndoesJoin(iface, member);
    EventsOfOne(RawSignal(iface + "." + member, path, body));
  }

  lemma {:induction false} NoEventWithoutInterface(member: string, path: string, body: seq<Value>)
    requires '.' !in member
    ensures Events([RawSignal(member, path, body)]) == []
  {
    SplitUndoesJoin("", member);
    EventsOfOne(RawSignal(member, path, body));
  }

  lemma QualifiedNameHasADot(iface: string, member: string)
    ensures '.' in iface + "." + member
  {
    assert (iface + "." + member)[|iface|] == '.';
  }

  /** Those two cases are all there are. */
  lemma EveryNameIsOneOrTheOther(name: string) returns (iface: string, member: string)
    ensures '.' !in member && (name == iface + "." + member || (iface == "" && name == member))
  {
    var i := LastDot(name);
    if i < 0 {
      iface, member := "", name;
    } else {
      iface, member := name[..i], name[i + 1..];
      assert name == name[..i] + [name[i]] + name[i + 1..];
    }
  }

  // ---------------------------------------------------- the forwarder

  /**
   * Where the forwarder goroutine is: in the outer select, in the inner select with an
   * event in hand, or running its deferred calls, last deferred first.
   */
  datatype Forwarder = Selecting | Holding(ev: Signal) | Unregistering | Unmatching | Closing | Done

  /**
   * The watcher and its two channels. `accepted`, `taken` and `lost` record every raw
   * signal that entered, every event the consumer received and the event abandoned on
   * cancellation. A send on or a second close of a closed channel panics.
   */
  datatype Pipe = Pipe(
    cancelled: bool,
    registered: bool,
    rules: seq<string>,
    rawClosed: bool,
    raw: seq<RawSignal>,
    out: seq<Signal>,
    outCloses: nat,
    fwd: Forwarder,
    panicked: bool,
    accepted: seq<RawSignal>,
    taken: seq<Signal>,
    lost: seq<Signal>)

  function Start(cancelled: bool): Pipe {
    Pipe(cancelled, true, SIGNAL_INTERFACES, false, [], [], 0, Selecting, false, [], [], [])
  }

  datatype Action =
    | Arrive(sig: RawSignal)  // the bus delivers into raw
    | Cancel                  // ctx is cancelled
    | BusGone                 // the bus connection ends and closes raw
    | Take                    // the consumer receives from out
    | SeeCancel | SeeClosed | Receive | Send | Drop | Unregister | Unmatch | Close

  /** The state an action leads to, None where it is not enabled. */
  function Apply(p: Pipe, a: Action): Option<Pipe> {
    match a
    case Arrive(sig) =>
      if p.registered && !p.rawClosed && |p.raw| < RAW_CAPACITY
      then Some(p.(raw := p.raw + [sig], accepted := p.accepted + [sig]))
      else None
    case Cancel => Some(p.(cancelled := true))
    case BusGone => if p.registered then Some(p.(rawClosed := true)) else None
    case Take =>
      if p.out != [] then Some(p.(out := p.out[1..], taken := p.taken + [p.out[0]])) else None
    case SeeCancel =>
      if p.fwd.Selecting? && p.cancelled then Some(p.(fwd := Unregistering)) else None
    case SeeClosed =>
      if p.fwd.Selecting? && p.raw == [] && p.rawClosed then Some(p.(fwd := Unregistering)) else None
    case Receive =>
      if p.fwd.Selecting? && p.raw != []
      then Some(p.(raw := p.raw[1..],
                   fwd := if IsFirewalld(p.raw[0]) then Holding(ToSignal(p.raw[0])) else Selecting))
      else None
    case Send =>
      if !p.fwd.Holding? then None
      else if p.outCloses > 0 then Some(p.(panicked := true))
      else if |p.out| < OUT_CAPACITY then Some(p.(out := p.out + [p.fwd.ev], fwd := Selecting))
      else None
    case Drop =>
      if p.fwd.Holding? && p.cancelled
      then Some(p.(fwd := Unregistering, lost := p.lost + [p.fwd.ev]))
      else None
    case Unregister =>
      if p.fwd.Unregistering? then Some(p.(registered := false, fwd := Unmatching)) else None
    case Unmatch =>
      if !p.fwd.Unmatching? then None
      else if p.rules == [] then Some(p.(fwd := Closing))
      else Some(p.(rules := p.rules[1..]))
    case Close =>
      if !p.fwd.Closing? then None
      else if p.outCloses > 0 then Some(p.(panicked := true))
      else Some(p.(outCloses := 1, fwd := Done))
  }

  /** Both channels hold 64; an open one takes a value exactly while it holds fewer. */
  lemma ChannelsTakeSixtyFour(p: Pipe, sig: RawSignal)
    ensures p.registered && !p.rawClosed ==> (Apply(p, Arrive(sig)).Some? <==> |p.raw| < 64)
    ensures p.fwd.Holding? && p.outCloses == 0 ==> (Apply(p, Send).Some? <==> |p.out| < 64)
  {
  }

  /** The state a whole schedule of actions leads to, None if one is not enabled. */
  function Run(p: Pipe, acts: seq<Action>): Option<Pipe> {
    if acts == [] then Some(p)
    else
      match Run(p, acts[..|acts| - 1])
      case None => None
      case Some(q) => Apply(q, acts[|acts| - 1])
  }

  // -------------------------------------------------------- invariant

  function InHand(p: Pipe): seq<Signal> {
    if p.fwd.Holding? then [p.fwd.ev] else []
  }

  /** The raw signals the forwarder has read. */
  function Read(p: Pipe): seq<RawSignal> {
    if |p.raw| <= |p.accepted| then p.accepted[..|p.accepted| - |p.raw|] else []
  }

  /** What the consumer has or will get from the out channel. */
  function Delivered(p: Pipe): seq<Signal> { p.taken + p.out }

  /** The event in the forwarder's hand, or the one it abandoned there. */
  function Pending(p: Pipe): seq<Signal> { InHand(p) + p.lost }

  predicate Serving(p: Pipe) { p.fwd.Selecting? || p.fwd.Holding? }

  ghost predicate Accounted(p: Pipe) {
    && |p.raw| <= |p.accepted|
    && p.accepted == Read(p) + p.raw
    && Events(Read(p)) == Delivered(p) + Pending(p)
  }

  predicate TeardownInOrder(p: Pipe) {
    && p.registered == (Serving(p) || p.fwd.Unregistering?)
    && (p.registered ==> p.rules == SIGNAL_INTERFACES)
    && |p.rules| <= |SIGNAL_INTERFACES|
    && (p.fwd.Closing? || p.fwd.Done? ==> p.rules == [])
    && p.outCloses == (if p.fwd.Done? then 1 else 0)
  }

  ghost predicate Inv(p: Pipe) {
    && !p.panicked
    && |p.raw| <= RAW_CAPACITY && |p.out| <= OUT_CAPACITY
    && TeardownInOrder(p)
    && Accounted(p)
    && |p.lost| <= 1
    && (p.lost != [] ==> p.cancelled && !Serving(p))
    && (!Serving(p) && !p.cancelled ==> p.rawClosed && p.raw == [])
  }

  /** Moving the head of one queue to the tail of another changes nothing overall. */
  lemma MoveHead<T>(a: seq<T>, b: seq<T>)
    requires b != []
    ensures (a + [b[0]]) + b[1..] == a + b
  {
  }

  /** Reading one more element of a suffix. */
  lemma ReadOneMore<T>(all: seq<T>, n: nat, rest: seq<T>)
    requires n <= |all| && all == all[..n] + rest && rest != []
    ensures all[..n + 1] == all[..n] + [rest[0]]
    ensures all == all[..n + 1] + rest[1..]
  {
  }

  lemma ReceiveAccounted(p: Pipe, q: Pipe)
    requires Accounted(p) && p.lost == [] && Apply(p, Receive) == Some(q)
    ensures Accounted(q)
  {
    hide Events, IsFirewalld, ToSignal;
    assert p.fwd.Selecting? && p.raw != [];
    ReadOneMore(p.accepted, |p.accepted| - |p.raw|, p.raw);
    EventsConcat(Read(p), [p.raw[0]]);
    EventsOfOne(p.raw[0]);
    assert Pending(p) == [] && Pending(q) == Events([p.raw[0]]);
  }

  lemma TakeAccounted(p: Pipe, q: Pipe)
    requires Accounted(p) && Apply(p, Take) == Some(q)
    ensures Accounted(q)
  {
    hide Events;
    assert Read(q) == Read(p);
    MoveHead(p.taken, p.out);
  }

  lemma SendAccounted(p: Pipe, q: Pipe)
    requires Accounted(p) && p.lost == [] && Apply(p, Send) == Some(q)
    ensures Accounted(q)
  {
    hide Events;
    assert Read(q) == Read(p);
    if p.outCloses == 0 {
      assert Delivered(q) == Delivered(p) + [p.fwd.ev];
      assert Pending(p) == [p.fwd.ev] && Pending(q) == [];
    }
  }

  lemma ArriveAccounted(p: Pipe, sig: RawSignal, q: Pipe)
    requires Accounted(p) && Apply(p, Arrive(sig)) == Some(q)
    ensures Accounted(q)
  {
    hide Events;
    assert Read(q) == Read(p);
    assert Delivered(q) == Delivered(p) && Pending(q) == Pending(p);
  }

  lemma DropAccounted(p: Pipe, q: Pipe)
    requires Accounted(p) && p.lost == [] && Apply(p, Drop) == Some(q)
    ensures Accounted(q)
  {
    hide Events;
    assert Pending(p) == [p.fwd.ev] && Pending(q) == [p.fwd.ev];
  }

  /** A step that neither reads raw nor moves an event keeps the account. */
  lemma {:induction false} IdleAccounted(p: Pipe, a: Action, q: Pipe)
    requires Accounted(p) && Apply(p, a) == Some(q)
    requires a.Cancel? || a.BusGone? || a.SeeCancel? || a.SeeClosed? || a.Unregister? || a.Unmatch? || a.Close?
    ensures Accounted(q)
  {
    hide Events, IsFirewalld, ToSignal;
    assert q.raw == p.raw && q.accepted == p.accepted;
    assert Delivered(q) == Delivered(p) && Pending(q) == Pending(p);
  }

  lemma InvStep(p: Pipe, a: Action, q: Pipe)
    requires Inv(p) && Apply(p, a) == Some(q)
    ensures Inv(q)
  {
    hide Events, IsFirewalld, ToSignal, Accounted;
    if a.Receive? {
      ReceiveAccounted(p, q);
    } else if a.Take? {
      TakeAccounted(p, q);
    } else if a.Send? {
      SendAccounted(p, q);
    } else if a.Arrive? {
      ArriveAccounted(p, a.sig, q);
    } else if a.Drop? {
      DropAccounted(p, q);
    } else {
      IdleAccounted(p, a, q);
    }
  }

  /** Every interleaving keeps the invariant; in particular nothing ever panics. */
  lemma {:induction false} RunKeepsInv(cancelled: bool, acts: seq<Action>, p: Pipe)
    requires Run(Start(cancelled), acts) == Some(p)
    ensures Inv(p)
  {
    if acts == [] {
      assert Events([]) == [];
    } else {
      var q := Run(Start(cancelled), acts[..|acts| - 1]).value;
      RunKeepsInv(cancelled, acts[..|acts| - 1], q);
      InvStep(q, acts[|acts| - 1], p);
    }
  }

  // ---------------------------------------------------------- results

  /**
   * Conservation. While the forwarder serves, which is always so before cancellation
   * and loss of the bus, the events received, buffered, in hand and still to be read
   * are exactly the events that entered, in order.
   */
  lemma NothingLostWhileServing(cancelled: bool, acts: seq<Action>, p: Pipe)
    requires Run(Start(cancelled), acts) == Some(p)
    ensures !p.cancelled && !p.rawClosed ==> Serving(p)
    ensures Serving(p) ==> p.taken + p.out + InHand(p) + Events(p.raw) == Events(p.accepted)
  {
    hide Events;
    RunKeepsInv(cancelled, acts, p);
    EventsConcat(Read(p), p.raw);
    assert Serving(p) ==> Pending(p) == InHand(p);
  }

  /**
   * At every moment what was delivered is a prefix of what entered: nothing earlier is
   * lost, duplicated or reordered. At most the one event in hand is abandoned, and only
   * by a cancellation; a watcher ended by the bus delivers everything.
   */
  lemma DeliveredIsAPrefix(cancelled: bool, acts: seq<Action>, p: Pipe)
    requires Run(Start(cancelled), acts) == Some(p)
    ensures p.taken + p.out <= Events(p.accepted)
    ensures |Events(Read(p))| <= |p.taken + p.out| + 1
    ensures p.fwd.Done? && !p.cancelled ==> p.taken + p.out == Events(p.accepted)
  {
    hide Events, Run, IsFirewalld, ToSignal, TeardownInOrder;
    RunKeepsInv(cancelled, acts, p);
    EventsConcat(Read(p), p.raw);
    assert Events(p.accepted) == Delivered(p) + (Pending(p) + Events(p.raw));
    if p.fwd.Done? && !p.cancelled {
      EventsOfOne(RawSignal("", "", []));
    }
  }

  /**
   * The out channel is closed once, by the forwarder's last deferred call, after raw is
   * unregistered and every match rule is dropped; until then all rules are in force.
   */
  lemma ClosedOnceAfterTeardown(cancelled: bool, acts: seq<Action>, p: Pipe)
    requires Run(Start(cancelled), acts) == Some(p)
    ensures !p.panicked
    ensures p.outCloses == (if p.fwd.Done? then 1 else 0)
    ensures p.outCloses > 0 ==> !p.registered && p.rules == []
    ensures Serving(p) ==> p.registered && p.rules == SIGNAL_INTERFACES
  {
    hide Events;
    RunKeepsInv(cancelled, acts, p);
  }

  // ------------------------------------------------------ termination

  /** The forwarder's own actions: all but those of the bus, the context and the consumer. */
  predicate OfForwarder(a: Action) {
    !a.Arrive? && !a.Cancel? && !a.BusGone? && !a.Take?
  }

  function PhaseRank(p: Pipe): nat {
    match p.fwd
    case Selecting => |p.rules| + 4
    case Holding(_) => |p.rules| + 4
    case Unregistering => |p.rules| + 3
    case Unmatching => |p.rules| + 2
    case Closing => 1
    case Done => 0
  }

  /** The work left in the pipe: an event costs less the further it has come. */
  function Work(p: Pipe): nat {
    6 * |p.raw| + 5 * |InHand(p)| + 4 * |p.out| + PhaseRank(p)
  }

  lemma ForwarderStepDecreasesWork(p: Pipe, a: Action, q: Pipe)
    requires Inv(p) && OfForwarder(a) && Apply(p, a) == Some(q)
    ensures Work(q) < Work(p)
  {
  }

  /** Cancelling, losing the bus and a consumer's receive add no work. */
  lemma OtherStepAddsNoWork(p: Pipe, a: Action, q: Pipe)
    requires !OfForwarder(a) && !a.Arrive? && Apply(p, a) == Some(q)
    ensures Work(q) <= Work(p)
  {
  }

  /** The forwarder's next action once the context is cancelled; no consumer is needed. */
  function NextAfterCancel(p: Pipe): Action
    requires p.cancelled && !p.fwd.Done?
  {
    match p.fwd
    case Selecting => SeeCancel
    case Holding(_) => Drop
    case Unregistering => Unregister
    case Unmatching => Unmatch
    case Closing => Close
  }

  lemma CancelledForwarderCanMove(p: Pipe)
    requires Inv(p) && p.cancelled && !p.fwd.Done?
    ensures OfForwarder(NextAfterCancel(p)) && Apply(p, NextAfterCancel(p)).Some?
  {
  }
}
