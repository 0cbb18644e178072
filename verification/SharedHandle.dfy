/**
 * One permanent zone handle shared by any number of goroutines (permzone.go): the mutex,
 * the cached path and name it guards, and the server's directory of names, as a machine
 * whose micro-steps interleave freely.
 */
module SharedHandle {
  import opened Seqs

  /** What a goroutine is doing with the handle: an ordinary call, or a rename. */
  datatype Request = UseIt | RenameTo(to: string)

  datatype Pc =
    | Idle
    | Waiting(req: Request)                 // in resolve, before mu.Lock
    | Locked(req: Request)                  // holds mu, about to read the path
    | Asking(req: Request, asked: string)   // holds mu, getZoneByName is out
    | Answered(req: Request, path: string)  // holds mu, the answer is in hand
    | Ready(req: Request, path: string)     // resolve has returned; the call is next
    | Renamed(to: string)                   // the server renamed; about to lock
    | Assigning(to: string)                 // holds mu, about to assign

  /** What happened to the name and path, in order. */
  datatype Event =
    | Asked(name: string)
    | Looked(name: string, path: string)
    | LookFailed(name: string)
    | Assigned(name: string)

  datatype State = State(
    name: string,
    path: string,
    holder: Option<nat>,
    pcs: map<nat, Pc>,
    dir: map<string, string>,
    log: seq<Event>)

  function Init(name: string, dir: map<string, string>): State {
    State(name, "", None, map[], dir, [])
  }

  function PcOf(s: State, g: nat): Pc { if g in s.pcs then s.pcs[g] else Idle }

  function At(s: State, g: nat, pc: Pc): State { s.(pcs := s.pcs[g := pc]) }

  datatype Action =
    | Begin(g: nat, req: Request)
    | Lock(g: nat)
    | Hit(g: nat)
    | Ask(g: nat)
    | Answer(g: nat, delivered: bool)
    | Store(g: nat)
    | Invoke(g: nat, accepted: bool)
    | LockAssign(g: nat)
    | Assign(g: nat)
    | Elsewhere(dir: map<string, string>)  // the server's names change by other hands

  /** The directory after the object at p was renamed. */
  function RenameIn(dir: map<string, string>, p: string, to: string): map<string, string> {
    (map n | n in dir && dir[n] != p :: dir[n])[to := p]
  }

  function Apply(s: State, a: Action): Option<State> {
    match a
    case Begin(g, req) =>
      if PcOf(s, g).Idle? then Some(At(s, g, Waiting(req))) else None
    case Lock(g) =>
      if PcOf(s, g).Waiting? && s.holder.None?
      then Some(At(s, g, Locked(PcOf(s, g).req)).(holder := Some(g)))
      else None
    case Hit(g) =>
      if PcOf(s, g).Locked? && s.path != ""
      then Some(At(s, g, Ready(PcOf(s, g).req, s.path)).(holder := None))
      else None
    case Ask(g) =>
      if PcOf(s, g).Locked? && s.path == ""
      then Some(At(s, g, Asking(PcOf(s, g).req, s.name)).(log := s.log + [Asked(s.name)]))
      else None
    case Answer(g, delivered) =>
      if !PcOf(s, g).Asking? then None
      else
        var n := PcOf(s, g).asked;
        if delivered && n in s.dir && s.dir[n] != ""
        then Some(At(s, g, Answered(PcOf(s, g).req, s.dir[n])).(log := s.log + [Looked(n, s.dir[n])]))
        else Some(At(s, g, Idle).(holder := None, log := s.log + [LookFailed(n)]))
    case Store(g) =>
      if PcOf(s, g).Answered?
      then Some(At(s, g, Ready(PcOf(s, g).req, PcOf(s, g).path)).(path := PcOf(s, g).path, holder := None))
      else None
    case Invoke(g, accepted) =>
      if !PcOf(s, g).Ready? then None
      else if PcOf(s, g).req.RenameTo? && accepted && PcOf(s, g).req.to !in s.dir
      then Some(At(s, g, Renamed(PcOf(s, g).req.to))
                .(dir := RenameIn(s.dir, PcOf(s, g).path, PcOf(s, g).req.to)))
      else Some(At(s, g, Idle))
    case LockAssign(g) =>
      if PcOf(s, g).Renamed? && s.holder.None?
      then Some(At(s, g, Assigning(PcOf(s, g).to)).(holder := Some(g)))
      else None
    case Assign(g) =>
      if PcOf(s, g).Assigning?
      then Some(At(s, g, Idle).(name := PcOf(s, g).to, path := "", holder := None,
                                log := s.log + [Assigned(PcOf(s, g).to)]))
      else None
    case Elsewhere(dir) => Some(s.(dir := dir))
  }

  function Run(s: State, acts: seq<Action>): Option<State> {
    if acts == [] then Some(s)
    else
      match Run(s, acts[..|acts| - 1])
      case None => None
      case Some(t) => Apply(t, acts[|acts| - 1])
  }

  // -------------------------------------------------------- the history

  /** The last successful answer since the name was last assigned. */
  function LastAnswer(log: seq<Event>): Option<(string, string)> {
    if log == [] then None
    else
      match log[|log| - 1]
      case Looked(n, p) => Some((n, p))
      case Asked(_) | LookFailed(_) => LastAnswer(log[..|log| - 1])
      case Assigned(_) => None
  }

  /** How many lookups succeeded since the name was last assigned. */
  function Successes(log: seq<Event>): nat {
    if log == [] then 0
    else
      match log[|log| - 1]
      case Looked(_, _) => Successes(log[..|log| - 1]) + 1
      case Asked(_) | LookFailed(_) => Successes(log[..|log| - 1])
      case Assigned(_) => 0
  }

  /** The name the history leaves the handle with. */
  function NameAfter(log: seq<Event>, first: string): string {
    if log == [] then first
    else if log[|log| - 1].Assigned? then log[|log| - 1].name
    else NameAfter(log[..|log| - 1], first)
  }

  /** In no stretch between two assignments do two lookups succeed. */
  ghost predicate OneSuccessPerName(log: seq<Event>) {
    forall i :: 0 <= i <= |log| ==> Successes(log[..i]) <= 1
  }

  /** Every answer, good or bad, comes right after the question it answers. */
  ghost predicate AnswersFollowQuestions(log: seq<Event>) {
    forall i :: 0 <= i < |log| && (log[i].Looked? || log[i].LookFailed?) ==> i > 0 && log[i - 1] == Asked(log[i].name)
  }

  predicate JustAsked(log: seq<Event>, name: string) { log != [] && log[|log| - 1] == Asked(name) }

  lemma HistorySnoc(log: seq<Event>, e: Event)
    ensures LastAnswer(log + [e]) ==
            match e {
              case Looked(n, p) => Some((n, p))
              case Asked(_) | LookFailed(_) => LastAnswer(log)
              case Assigned(_) => None
            }
    ensures Successes(log + [e]) ==
            match e {
              case Looked(_, _) => Successes(log) + 1
              case Asked(_) | LookFailed(_) => Successes(log)
              case Assigned(_) => 0
            }
    ensures forall first :: NameAfter(log + [e], first) == if e.Assigned? then e.name else NameAfter(log, first)
  {
  }

  lemma OneSuccessSnoc(log: seq<Event>, e: Event)
    requires OneSuccessPerName(log) && (e.Looked? ==> Successes(log) == 0)
    ensures OneSuccessPerName(log + [e])
  {
    hide Successes;
    HistorySnoc(log, e);
    assert log[..|log|] == log;
    forall i | 0 <= i <= |log + [e]| ensures Successes((log + [e])[..i]) <= 1 {
      if i <= |log| {
        assert (log + [e])[..i] == log[..i];
      } else {
        assert (log + [e])[..i] == log + [e];
      }
    }
  }

  // -------------------------------------------------------- invariant

  predicate Holds(pc: Pc) { pc.Locked? || pc.Asking? || pc.Answered? || pc.Assigning? }

  /** The path an answer in a goroutine's hand is about to become, "" if there is none. */
  function InHand(s: State): string {
    if s.holder.Some? && PcOf(s, s.holder.value).Answered? then PcOf(s, s.holder.value).path else ""
  }

  /** The mutex is held by exactly the goroutine that is inside a critical section. */
  ghost predicate Exclusive(s: State) {
    forall g: nat :: Holds(PcOf(s, g)) <==> s.holder == Some(g)
  }

  ghost predicate Consistent(s: State, first: string) {
    && s.name == NameAfter(s.log, first)
    && (s.path != "" ==> InHand(s) == "")
    && LastAnswer(s.log) == (if s.path != "" then Some((s.name, s.path))
                             else if InHand(s) != "" then Some((s.name, InHand(s))) else None)
    && Successes(s.log) == (if s.path != "" || InHand(s) != "" then 1 else 0)
    && OneSuccessPerName(s.log)
    && AnswersFollowQuestions(s.log)
  }

  /** The server once answered a lookup with this path. */
  ghost predicate Recorded(log: seq<Event>, path: string) {
    exists i :: 0 <= i < |log| && log[i].Looked? && log[i].path == path
  }

  ghost predicate PcOk(s: State, pc: Pc) {
    && (pc.Asking? ==> pc.asked == s.name && s.path == "" && JustAsked(s.log, s.name))
    && (pc.Answered? ==> pc.path != "" && s.path == "")
    && (pc.Ready? ==> pc.path != "" && Recorded(s.log, pc.path))
  }

  ghost predicate Inv(s: State, first: string) {
    Exclusive(s) && Consistent(s, first) && forall g: nat :: PcOk(s, PcOf(s, g))
  }

  lemma ExclusiveStep(s: State, a: Action, t: State)
    requires Exclusive(s) && Apply(s, a) == Some(t)
    ensures Exclusive(t)
  {
  }

  lemma {:induction false} LastAnswerIsRecorded(log: seq<Event>)
    ensures LastAnswer(log).Some? ==> Recorded(log, LastAnswer(log).value.1)
  {
    if log != [] {
      var init := log[..|log| - 1];
      if !log[|log| - 1].Looked? && LastAnswer(log).Some? {
        LastAnswerIsRecorded(init);
        RecordedStays(init, log, LastAnswer(init).value.1);
      }
    }
  }

  lemma RecordedStays(log: seq<Event>, more: seq<Event>, path: string)
    requires log <= more && Recorded(log, path)
    ensures Recorded(more, path)
  {
  }

  lemma PcsStep(s: State, a: Action, t: State, first: string)
    requires Inv(s, first) && Apply(s, a) == Some(t)
    ensures forall g: nat :: PcOk(t, PcOf(t, g))
  {
    hide LastAnswer, Successes, NameAfter, OneSuccessPerName, Recorded;
    LastAnswerIsRecorded(s.log);
    forall g: nat ensures PcOk(t, PcOf(t, g)) {
      assert PcOk(s, PcOf(s, g));
      if PcOf(t, g).Ready? && PcOf(s, g).Ready? {
        RecordedStays(s.log, t.log, PcOf(s, g).path);
      }
    }
  }

  lemma ConsistentStep(s: State, a: Action, t: State, first: string)
    requires Inv(s, first) && Apply(s, a) == Some(t)
    ensures Consistent(t, first)
  {
    hide LastAnswer, Successes, NameAfter, OneSuccessPerName;
    if t.log != s.log {
      var e := t.log[|s.log|];
      assert t.log == s.log + [e];
      HistorySnoc(s.log, e);
      OneSuccessSnoc(s.log, e);
    }
  }

  lemma InvStep(s: State, a: Action, t: State, first: string)
    requires Inv(s, first) && Apply(s, a) == Some(t)
    ensures Inv(t, first)
  {
    hide Apply, Exclusive, Consistent, PcOk;
    ExclusiveStep(s, a, t);
    PcsStep(s, a, t, first);
    ConsistentStep(s, a, t, first);
  }

  /** Every interleaving of any number of goroutines keeps the invariant. */
  lemma {:induction false} RunKeepsInv(name: string, dir: map<string, string>, acts: seq<Action>, s: State)
    requires Run(Init(name, dir), acts) == Some(s)
    ensures Inv(s, name)
  {
    if acts != [] {
      var t := Run(Init(name, dir), acts[..|acts| - 1]).value;
      RunKeepsInv(name, dir, acts[..|acts| - 1], t);
      InvStep(t, acts[|acts| - 1], s, name);
    }
  }

  // ---------------------------------------------------------- results

  /**
   * Whatever the interleaving: a cached path is the answer to a lookup of the handle's
   * current name, asked after that name was last assigned; between two assignments at
   * most one lookup succeeds; no failed lookup is cached; and a goroutine about to call
   * an object was given its path by the server.
   */
  lemma CachedPathIsAnAnswer(name: string, dir: map<string, string>, acts: seq<Action>, s: State)
    requires Run(Init(name, dir), acts) == Some(s)
    ensures s.path != "" ==> LastAnswer(s.log) == Some((NameAfter(s.log, name), s.path))
    ensures s.name == NameAfter(s.log, name)
    ensures LastAnswer(s.log).None? ==> s.path == ""
    ensures OneSuccessPerName(s.log) && AnswersFollowQuestions(s.log)
    ensures forall g: nat :: PcOf(s, g).Ready? ==> Recorded(s.log, PcOf(s, g).path)
  {
    hide LastAnswer, Successes, NameAfter, OneSuccessPerName, Recorded, Run;
    RunKeepsInv(name, dir, acts, s);
    assert forall g: nat :: PcOk(s, PcOf(s, g));
  }

  /** No two goroutines are ever inside the mutex, and whoever is can always move on. */
  lemma MutexIsExclusiveAndReleased(name: string, dir: map<string, string>, acts: seq<Action>, s: State, g: nat, h: nat)
    requires Run(Init(name, dir), acts) == Some(s) && Holds(PcOf(s, g))
    ensures Holds(PcOf(s, h)) ==> g == h
    ensures Apply(s, NextInside(s, g)).Some?
  {
    hide LastAnswer, Successes, NameAfter, OneSuccessPerName, Recorded, Run;
    RunKeepsInv(name, dir, acts, s);
  }

  function NextInside(s: State, g: nat): Action {
    match PcOf(s, g)
    case Locked(_) => if s.path != "" then Hit(g) else Ask(g)
    case Asking(_, _) => Answer(g, false)
    case Answered(_, _) => Store(g)
    case _ => Assign(g)
  }

  // ----------------------------------------- agreement with the server

  /** The server has renamed the object but the handle has not yet taken the new name. */
  predicate Pending(pc: Pc) { pc.Renamed? || pc.Assigning? }

  ghost predicate NonePending(s: State) { forall g: nat :: !Pending(PcOf(s, g)) }

  /** No goroutine stands between a rename the server accepted and the mutex. */
  ghost predicate NoneRenamed(s: State) { forall g: nat :: !PcOf(s, g).Renamed? }

  predicate Filed(dir: map<string, string>, n: string, home: string) { n in dir && dir[n] == home }

  /** The name the handle goes by as soon as the mutex is free. */
  function NextName(s: State): string {
    if s.holder.Some? && PcOf(s, s.holder.value).Assigning? then PcOf(s, s.holder.value).to else s.name
  }

  /** The directory entries the handle depends on. */
  ghost predicate Watched(s: State, n: string) {
    n == NextName(s) || exists g: nat :: PcOf(s, g) == Renamed(n)
  }

  /**
   * No rename is accepted while another goroutine has yet to lock after one, and other
   * hands leave the names the handle goes by alone.
   */
  ghost predicate Orderly(s: State, a: Action) {
    match a
    case Invoke(g, accepted) => PcOf(s, g).Ready? && PcOf(s, g).req.RenameTo? && accepted ==> NoneRenamed(s)
    case Elsewhere(dir) => forall n :: Watched(s, n) ==> (n in dir <==> n in s.dir) && (n in dir ==> dir[n] == s.dir[n])
    case _ => true
  }

  ghost predicate OrderlyRun(s: State, acts: seq<Action>) {
    acts == [] ||
    var prefix := acts[..|acts| - 1];
    OrderlyRun(s, prefix) && (Run(s, prefix).Some? ==> Orderly(Run(s, prefix).value, acts[|acts| - 1]))
  }

  /** Every path in use is the object's, and the server files it under the name to come. */
  ghost predicate Faithful(s: State, home: string) {
    && home != ""
    && (s.path == "" || s.path == home)
    && (forall g: nat :: PcOf(s, g).Answered? || PcOf(s, g).Ready? ==> PcOf(s, g).path == home)
    && (forall g: nat, h: nat :: PcOf(s, g).Renamed? && PcOf(s, h).Renamed? ==> g == h)
    && (forall g: nat :: PcOf(s, g).Renamed? ==> Filed(s.dir, PcOf(s, g).to, home) && NextName(s) !in s.dir)
    && (NoneRenamed(s) ==> Filed(s.dir, NextName(s), home))
  }

  /** A step that leaves the name to come and the accepted renames alone. */
  lemma FaithfulWhenQuiet(s: State, t: State, home: string)
    requires Faithful(s, home)
    requires NextName(t) == NextName(s)
    requires forall g: nat :: PcOf(t, g).Renamed? || PcOf(s, g).Renamed? ==> PcOf(t, g) == PcOf(s, g)
    requires forall n :: Watched(s, n) ==> (n in t.dir <==> n in s.dir) && (n in t.dir ==> t.dir[n] == s.dir[n])
    requires t.path == "" || t.path == home
    requires forall g: nat :: PcOf(t, g).Answered? || PcOf(t, g).Ready? ==> PcOf(t, g).path == home
    ensures Faithful(t, home)
  {
    assert Watched(s, NextName(s));
    forall g: nat | PcOf(t, g).Renamed? ensures Filed(t.dir, PcOf(t, g).to, home) {
      assert Watched(s, PcOf(s, g).to);
    }
    assert NoneRenamed(t) ==> NoneRenamed(s);
  }

  lemma FaithfulRename(s: State, g: nat, t: State, home: string)
    requires Faithful(s, home) && NoneRenamed(s) && Exclusive(s)
    requires PcOf(s, g).Ready? && PcOf(s, g).req.RenameTo? && PcOf(s, g).req.to !in s.dir
    requires Apply(s, Invoke(g, true)) == Some(t)
    ensures Faithful(t, home)
  {
    assert forall h: nat :: h != g ==> PcOf(t, h) == PcOf(s, h);
    assert NextName(t) == NextName(s);
    assert PcOf(t, g).Renamed? && Filed(t.dir, PcOf(t, g).to, home);
  }

  lemma FaithfulAssign(s: State, g: nat, t: State, home: string)
    requires Faithful(s, home) && Exclusive(s) && Apply(s, Assign(g)) == Some(t)
    ensures Faithful(t, home)
  {
    assert s.holder == Some(g);
    assert forall h: nat :: h != g ==> PcOf(t, h) == PcOf(s, h);
    FaithfulWhenQuiet(s, t, home);
  }

  lemma FaithfulLockAssign(s: State, g: nat, t: State, home: string)
    requires Faithful(s, home) && Apply(s, LockAssign(g)) == Some(t)
    ensures Faithful(t, home)
  {
    assert forall h: nat :: h != g ==> PcOf(t, h) == PcOf(s, h);
    assert NextName(t) == PcOf(s, g).to;
  }

  lemma FaithfulInResolve(s: State, a: Action, t: State, home: string)
    requires Faithful(s, home) && Exclusive(s) && Apply(s, a) == Some(t)
    requires a.Begin? || a.Lock? || a.Hit? || a.Ask? || a.Store?
    ensures Faithful(t, home)
  {
    assert forall h: nat :: h != a.g ==> PcOf(t, h) == PcOf(s, h);
    assert Holds(PcOf(s, a.g)) <==> s.holder == Some(a.g);
    assert NextName(t) == NextName(s);
    FaithfulWhenQuiet(s, t, home);
  }

  lemma FaithfulAnswerStep(s: State, g: nat, delivered: bool, t: State, home: string)
    requires Faithful(s, home) && Exclusive(s) && PcOk(s, PcOf(s, g)) && Apply(s, Answer(g, delivered)) == Some(t)
    ensures Faithful(t, home)
  {
    hide Recorded;
    assert s.holder == Some(g) && NextName(s) == s.name;
    if delivered && s.name in s.dir {
      assert NoneRenamed(s);
    }
    assert forall h: nat :: h != g ==> PcOf(t, h) == PcOf(s, h);
    FaithfulWhenQuiet(s, t, home);
  }

  lemma FaithfulInvoke(s: State, g: nat, accepted: bool, t: State, home: string)
    requires Faithful(s, home) && Exclusive(s)
    requires Orderly(s, Invoke(g, accepted)) && Apply(s, Invoke(g, accepted)) == Some(t)
    ensures Faithful(t, home)
  {
    if PcOf(s, g).req.RenameTo? && accepted && PcOf(s, g).req.to !in s.dir {
      FaithfulRename(s, g, t, home);
    } else {
      assert forall h: nat :: h != g ==> PcOf(t, h) == PcOf(s, h);
      assert NextName(t) == NextName(s);
      FaithfulWhenQuiet(s, t, home);
    }
  }

  lemma FaithfulStep(s: State, a: Action, t: State, first: string, home: string)
    requires Inv(s, first) && Faithful(s, home) && Orderly(s, a) && Apply(s, a) == Some(t)
    ensures Faithful(t, home)
  {
    hide Faithful, Consistent, Recorded, Apply, Exclusive;
    match a {
      case Elsewhere(dir) => FaithfulElsewhere(s, dir, t, home);
      case Assign(g) => FaithfulAssign(s, g, t, home);
      case Invoke(g, accepted) => FaithfulInvoke(s, g, accepted, t, home);
      case Answer(g, delivered) =>
        assert PcOk(s, PcOf(s, g));
        FaithfulAnswerStep(s, g, delivered, t, home);
      case LockAssign(g) => FaithfulLockAssign(s, g, t, home);
      case _ => FaithfulInResolve(s, a, t, home);
    }
  }

  lemma FaithfulElsewhere(s: State, dir: map<string, string>, t: State, home: string)
    requires Faithful(s, home) && Orderly(s, Elsewhere(dir)) && Apply(s, Elsewhere(dir)) == Some(t)
    ensures Faithful(t, home)
  {
    assert forall g: nat :: PcOf(t, g) == PcOf(s, g);
    FaithfulWhenQuiet(s, t, home);
  }

  lemma {:induction false} OrderlyRunKeepsFaithful(
      s: State, first: string, home: string, acts: seq<Action>, t: State)
    requires Inv(s, first) && Faithful(s, home) && OrderlyRun(s, acts) && Run(s, acts) == Some(t)
    ensures Inv(t, first) && Faithful(t, home)
  {
    hide Inv, Faithful, Apply, Orderly;
    if acts != [] {
      var u := Run(s, acts[..|acts| - 1]).value;
      OrderlyRunKeepsFaithful(s, first, home, acts[..|acts| - 1], u);
      InvStep(u, acts[|acts| - 1], t, first);
      FaithfulStep(u, acts[|acts| - 1], t, first, home);
    }
  }

  /**
   * As long as no rename is accepted while another goroutine has yet to lock after one,
   * and nobody else moves the names, the handle follows its zone: outside a rename its
   * name is filed for the object, a cached path is what the server answers at that very
   * moment, and every call goes to that object.
   */
  lemma OrderlyHandleAgreesWithServer(
      name: string, dir: map<string, string>, home: string, acts: seq<Action>, s: State)
    requires Filed(dir, name, home) && home != ""
    requires OrderlyRun(Init(name, dir), acts) && Run(Init(name, dir), acts) == Some(s)
    ensures Inv(s, name) && Faithful(s, home)
    ensures NonePending(s) ==> Filed(s.dir, s.name, home) && (s.path != "" ==> s.dir[s.name] == s.path)
  {
    EmptyRun(Init(name, dir));
    RunKeepsInv(name, dir, [], Init(name, dir));
    hide Run, OrderlyRun;
    OrderlyRunKeepsFaithful(Init(name, dir), name, home, acts, s);
  }

  // ------------------------------------------------- overlapping renames

  /** Actions of goroutines that neither call an object nor change the directory. */
  predicate Calm(acts: seq<Action>) {
    forall i :: 0 <= i < |acts| ==> !acts[i].Invoke? && !acts[i].Elsewhere?
  }

  lemma {:induction false} CalmRunIsOrderly(s: State, acts: seq<Action>)
    requires Calm(acts)
    ensures OrderlyRun(s, acts)
  {
    if acts != [] {
      CalmRunIsOrderly(s, acts[..|acts| - 1]);
    }
  }

  lemma RunSnoc(s: State, acts: seq<Action>, t: State, a: Action) returns (more: seq<Action>, u: State)
    requires Run(s, acts) == Some(t) && Apply(t, a).Some?
    ensures more == acts + [a] && Run(s, more) == Some(u) && Apply(t, a) == Some(u)
    ensures Calm(acts) && !a.Invoke? && !a.Elsewhere? ==> Calm(more)
  {
    more, u := acts + [a], Apply(t, a).value;
    assert more[..|more| - 1] == acts;
  }

  lemma OrderlySnoc(s: State, acts: seq<Action>, t: State, a: Action)
    requires Run(s, acts) == Some(t) && OrderlyRun(s, acts) && Orderly(t, a)
    ensures OrderlyRun(s, acts + [a])
  {
    hide Run;
    assert (acts + [a])[..|acts|] == acts;
  }

  lemma EmptyRun(s: State)
    ensures Run(s, []) == Some(s) && OrderlyRun(s, [])
  {
  }

  /** Whoever holds the mutex can leave it without a call; nobody else moves. */
  lemma MutexCanBeFreed(s: State) returns (acts: seq<Action>, t: State)
    requires Exclusive(s)
    ensures Run(s, acts) == Some(t) && Calm(acts)
    ensures t.holder == None && t.dir == s.dir
    ensures forall g: nat :: if Holds(PcOf(s, g)) then !Pending(PcOf(t, g)) else PcOf(t, g) == PcOf(s, g)
  {
    hide Run, OrderlyRun;
    EmptyRun(s);
    acts, t := [], s;
    if s.holder.Some? {
      var k := s.holder.value;
      assert Holds(PcOf(s, k));
      if PcOf(t, k).Locked? && t.path == "" {
        acts, t := RunSnoc(s, acts, t, Ask(k));
      }
      acts, t := RunSnoc(s, acts, t, NextInside(t, k));
    }
  }

  /** A goroutine that waits to assign does so at once when the mutex is free. */
  lemma AssignCanFinish(s: State, acts: seq<Action>, t: State, g: nat) returns (more: seq<Action>, u: State)
    requires Run(s, acts) == Some(t) && Calm(acts) && t.holder == None && PcOf(t, g).Renamed?
    ensures Run(s, more) == Some(u) && Calm(more)
    ensures u.holder == None && u.dir == t.dir && u.name == PcOf(t, g).to
    ensures forall h: nat :: PcOf(u, h) == if h == g then Idle else PcOf(t, h)
  {
    hide Run;
    more, u := RunSnoc(s, acts, t, LockAssign(g));
    more, u := RunSnoc(s, more, u, Assign(g));
  }

  /** The object goes by one of two accepted names, and the other one is assigned last. */
  lemma OverlapLosesTheZone(s: State, g: nat, h: nat) returns (acts: seq<Action>, t: State)
    requires Exclusive(s) && g != h
    requires forall k: nat :: PcOf(s, k).Renamed? <==> k == g || k == h
    ensures Run(s, acts) == Some(t) && Calm(acts)
    ensures NonePending(t) && t.name == PcOf(s, g).to && t.dir == s.dir
  {
    hide Run;
    acts, t := MutexCanBeFreed(s);
    assert !Holds(PcOf(s, g)) && !Holds(PcOf(s, h));
    acts, t := AssignCanFinish(s, acts, t, h);
    acts, t := AssignCanFinish(s, acts, t, g);
  }

  /**
   * Exactly when accepting a rename is safe. In every state an orderly run reaches, with
   * a goroutine whose rename the server is about to accept: every orderly continuation
   * that finishes its renames leaves the handle under a name filed for its object, if
   * and only if no goroutine stands between an earlier acceptance and the mutex. One
   * that already holds the mutex does no harm.
   */
  lemma AcceptanceIsSafeExactlyWhenNoneRenamed(
      name: string, dir: map<string, string>, home: string, past: seq<Action>, s: State, h: nat, t: State)
    requires Filed(dir, name, home) && home != ""
    requires OrderlyRun(Init(name, dir), past) && Run(Init(name, dir), past) == Some(s)
    requires PcOf(s, h).Ready? && PcOf(s, h).req.RenameTo? && PcOf(s, h).req.to !in s.dir
    requires Apply(s, Invoke(h, true)) == Some(t)
    ensures NoneRenamed(s) <==>
            forall acts, u :: OrderlyRun(t, acts) && Run(t, acts) == Some(u) && NonePending(u) ==>
              Filed(u.dir, u.name, home)
  {
    hide Run, OrderlyRun;
    OrderlyHandleAgreesWithServer(name, dir, home, past, s);
    InvStep(s, Invoke(h, true), t, name);
    if NoneRenamed(s) {
      FaithfulStep(s, Invoke(h, true), t, name, home);
      forall acts, u | OrderlyRun(t, acts) && Run(t, acts) == Some(u) && NonePending(u)
        ensures Filed(u.dir, u.name, home)
      {
        OrderlyRunKeepsFaithful(t, name, home, acts, u);
      }
    } else {
      var g: nat :| PcOf(s, g).Renamed?;
      var acts, u := AcceptedOverlapLosesTheZone(s, g, h, t, name, home);
      CalmRunIsOrderly(t, acts);
    }
  }

  /** From every such overlap a run without further calls ends under a name that is gone. */
  lemma AcceptedOverlapLosesTheZone(s: State, g: nat, h: nat, t: State, first: string, home: string)
    returns (acts: seq<Action>, u: State)
    requires Inv(s, first) && Faithful(s, home) && PcOf(s, g).Renamed?
    requires PcOf(s, h).Ready? && PcOf(s, h).req.RenameTo? && PcOf(s, h).req.to !in s.dir
    requires Apply(s, Invoke(h, true)) == Some(t)
    ensures Run(t, acts) == Some(u) && Calm(acts) && NonePending(u)
    ensures u.name == PcOf(s, g).to && u.name !in u.dir
  {
    hide Run;
    ExclusiveStep(s, Invoke(h, true), t);
    assert forall k: nat :: k != h ==> PcOf(t, k) == PcOf(s, k);
    assert PcOf(s, g).to !in t.dir;
    acts, u := OverlapLosesTheZone(t, g, h);
  }

  /** Two goroutines hold the path of "a", one to rename it to b, the other to c. */
  lemma BothReady() returns (acts: seq<Action>, s: State)
    ensures Run(Init("a", map["a" := "/1"]), acts) == Some(s) && Calm(acts)
    ensures s.name == "a" && s.path == "/1" && s.dir == map["a" := "/1"] && s.holder == None
    ensures s.pcs == map[1 := Ready(RenameTo("b"), "/1"), 2 := Ready(RenameTo("c"), "/1")]
  {
    hide Run, OrderlyRun;
    var s0 := Init("a", map["a" := "/1"]);
    acts, s := [], s0;
    EmptyRun(s0);
    acts, s := RunSnoc(s0, acts, s, Begin(1, RenameTo("b")));
    acts, s := RunSnoc(s0, acts, s, Lock(1));
    acts, s := RunSnoc(s0, acts, s, Ask(1));
    acts, s := RunSnoc(s0, acts, s, Answer(1, true));
    acts, s := RunSnoc(s0, acts, s, Store(1));
    acts, s := RunSnoc(s0, acts, s, Begin(2, RenameTo("c")));
    acts, s := RunSnoc(s0, acts, s, Lock(2));
    acts, s := RunSnoc(s0, acts, s, Hit(2));
  }

  /** Orderly runs do reach states in which an overlap is about to happen. */
  lemma OverlapIsReachable() returns (acts: seq<Action>, s: State)
    ensures OrderlyRun(Init("a", map["a" := "/1"]), acts) && Run(Init("a", map["a" := "/1"]), acts) == Some(s)
    ensures PcOf(s, 1) == Renamed("b") && PcOf(s, 2) == Ready(RenameTo("c"), "/1") && "c" !in s.dir
  {
    hide Run, OrderlyRun;
    acts, s := BothReady();
    CalmRunIsOrderly(Init("a", map["a" := "/1"]), acts);
    OrderlySnoc(Init("a", map["a" := "/1"]), acts, s, Invoke(1, true));
    acts, s := RunSnoc(Init("a", map["a" := "/1"]), acts, s, Invoke(1, true));
  }
}
