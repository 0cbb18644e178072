/**
 * The lazily resolved path cache of a permanent zone, policy or service handle
 * (permzone.go, policy.go, service.go), one caller at a time. Each operation maps a session and a handle to the
 * next ones and a result; the classes in Client are proved against these functions.
 */
module Handles {
  import opened Values
  import opened Versions
  import opened Bus
  import opened Errors

  datatype Kind = ZoneKind | PolicyKind | ServiceKind

  /** A handle; the empty path stands for "not resolved". */
  datatype Handle = Handle(name: string, path: string)

  function LookupCall(k: Kind, name: string): Call {
    var lookup :=
      match k
      case ZoneKind => GetZoneByName
      case PolicyKind => GetPolicyByName
      case ServiceKind => GetServiceByName;
    Call(CONFIG_PATH, Config, lookup, [Arg(Str(name))])
  }

  function ObjectCall(k: Kind, path: string, m: Method, args: seq<Arg>): Call {
    var iface :=
      match k
      case ZoneKind => ConfigZone
      case PolicyKind => ConfigPolicy
      case ServiceKind => ConfigService;
    Call(path, iface, m, args)
  }

  /** Policy handles are refused on servers without policies. */
  predicate Refused<W>(s: Session<W>, k: Kind) {
    k.PolicyKind? && Policies !in s.caps
  }

  function Resolve<W>(serve: Server<W>, s: Session<W>, k: Kind, h: Handle): (Session<W>, Handle, Result<string>) {
    if Refused(s, k) then (s, h, Fail(UNSUPPORTED))
    else if h.path != "" then (s, h, Ok(h.path))
    else
      var (s', r) := Send(serve, s, LookupCall(k, h.name));
      match PathIn(r)
      case Fail(e) => (s', h, Fail(e))
      case Ok(p) => (s', h.(path := p), Ok(p))
  }

  function CallOn<W>(serve: Server<W>, s: Session<W>, k: Kind, h: Handle, m: Method, args: seq<Arg>)
    : (Session<W>, Handle, Result<Body>)
  {
    var (s', h', p) := Resolve(serve, s, k, h);
    match p
    case Fail(e) => (s', h', Fail(e))
    case Ok(path) =>
      var (s'', r) := Send(serve, s', ObjectCall(k, path, m, args));
      (s'', h', r)
  }

  /** A successful rename takes the new name and forgets the path. */
  function RenameTo<W>(serve: Server<W>, s: Session<W>, k: Kind, h: Handle, name: string)
    : (Session<W>, Handle, Result<Body>)
  {
    var (s', h', r) := CallOn(serve, s, k, h, Rename, [Arg(Str(name))]);
    (s', if r.Ok? then Handle(name, "") else h', r)
  }

  // ------------------------------------------- what a handle calls

  /**
   * A call through an unresolved handle first asks for the path by name, once, of the
   * method its kind calls for; when a path is answered it keeps it and makes the call on
   * that object, and otherwise it makes no call and keeps nothing.
   */
  lemma UnresolvedHandleLooksItsNameUp<W>(
      serve: Server<W>, s: Session<W>, k: Kind, h: Handle, m: Method, args: seq<Arg>)
    requires h.path == "" && !(k.PolicyKind? && Policies !in s.caps)
    ensures var (ask, iface) :=
              match k
              case ZoneKind => (GetZoneByName, ConfigZone)
              case PolicyKind => (GetPolicyByName, ConfigPolicy)
              case ServiceKind => (GetServiceByName, ConfigService);
            var lookup := Call("/org/fedoraproject/FirewallD1/config", Config, ask, [Arg(Str(h.name))]);
            var (w, answer) := serve(s.world, lookup);
            var (s', h', r) := CallOn(serve, s, k, h, m, args);
            if answer.Returned? && answer.body.PathBody? then
              var call := Call(answer.body.path, iface, m, args);
              && s' == s.(world := serve(w, call).0, trace := s.trace + [lookup] + [call])
              && h' == Handle(h.name, answer.body.path)
              && r == Outcome(serve(w, call).1)
            else
              && s' == s.(world := w, trace := s.trace + [lookup])
              && h' == h && r.Fail?
              && (answer.Failed? ==> r == Fail(MapError(answer.err)))
  {
    var lookup := LookupCall(k, h.name);
    var (w, answer) := serve(s.world, lookup);
    assert Send(serve, s, lookup) == (s.(world := w, trace := s.trace + [lookup]), Outcome(answer));
    assert PathIn(Outcome(answer)).Ok? <==> answer.Returned? && answer.body.PathBody?;
  }

  /** A call through a resolved handle looks nothing up. */
  lemma ResolvedHandleCallsItsPath<W>(
      serve: Server<W>, s: Session<W>, k: Kind, h: Handle, m: Method, args: seq<Arg>)
    requires h.path != "" && !(k.PolicyKind? && Policies !in s.caps)
    ensures var iface :=
              match k
              case ZoneKind => ConfigZone
              case PolicyKind => ConfigPolicy
              case ServiceKind => ConfigService;
            var call := Call(h.path, iface, m, args);
            var (w, answer) := serve(s.world, call);
            CallOn(serve, s, k, h, m, args) == (s.(world := w, trace := s.trace + [call]), h, Outcome(answer))
  {
  }

  // ------------------------------------------- the handle without a cache

  /** The reference: look the name up before every call. */
  function FreshCallOn<W>(serve: Server<W>, s: Session<W>, k: Kind, name: string, m: Method, args: seq<Arg>)
    : (Session<W>, Result<Body>)
  {
    var (s', _, r) := CallOn(serve, s, k, Handle(name, ""), m, args);
    (s', r)
  }

  /** What a caller may do with a handle, and what may happen to the server meanwhile. */
  datatype Step<W> =
    | Use(m: Method, args: seq<Arg>)
    | Renaming(name: string)
    | Elsewhere(world: W)

  function CachedStep<W>(serve: Server<W>, s: Session<W>, k: Kind, h: Handle, step: Step<W>)
    : (Session<W>, Handle, seq<Result<Body>>)
  {
    match step
    case Use(m, args) => var (s', h', r) := CallOn(serve, s, k, h, m, args); (s', h', [r])
    case Renaming(name) => var (s', h', r) := RenameTo(serve, s, k, h, name); (s', h', [r])
    case Elsewhere(w) => (s.(world := w), h, [])
  }

  function FreshStep<W>(serve: Server<W>, s: Session<W>, k: Kind, name: string, step: Step<W>)
    : (Session<W>, string, seq<Result<Body>>)
  {
    match step
    case Use(m, args) => var (s', r) := FreshCallOn(serve, s, k, name, m, args); (s', name, [r])
    case Renaming(to) =>
      var (s', r) := FreshCallOn(serve, s, k, name, Rename, [Arg(Str(to))]);
      (s', if r.Ok? then to else name, [r])
    case Elsewhere(w) => (s.(world := w), name, [])
  }

  function CachedRun<W>(serve: Server<W>, s: Session<W>, k: Kind, h: Handle, steps: seq<Step<W>>)
    : (Session<W>, Handle, seq<Result<Body>>)
  {
    if steps == [] then (s, h, [])
    else
      var (s1, h1, r1) := CachedRun(serve, s, k, h, steps[..|steps| - 1]);
      var (s2, h2, r2) := CachedStep(serve, s1, k, h1, steps[|steps| - 1]);
      (s2, h2, r1 + r2)
  }

  function FreshRun<W>(serve: Server<W>, s: Session<W>, k: Kind, name: string, steps: seq<Step<W>>)
    : (Session<W>, string, seq<Result<Body>>)
  {
    if steps == [] then (s, name, [])
    else
      var (s1, n1, r1) := FreshRun(serve, s, k, name, steps[..|steps| - 1]);
      var (s2, n2, r2) := FreshStep(serve, s1, k, n1, steps[|steps| - 1]);
      (s2, n2, r1 + r2)
  }

  // --------------------------------------------------------- the server

  /** The path a name stands for among the objects of a kind, "" when it stands for none. */
  type Directory<!W> = (W, Kind, string) -> string

  predicate IsLookup(c: Call) {
    c.iface.Config? && (c.name.GetZoneByName? || c.name.GetPolicyByName? || c.name.GetServiceByName?)
  }

  /** A call that renames or removes the object at path p. */
  predicate MovesName(c: Call, p: string) { c.path == p && (c.name.Rename? || c.name.Remove?) }

  /**
   * A server that answers lookups from its directory, changes nothing on a lookup, moves
   * a name only on a rename or removal of its object, and files a renamed object under
   * the new name.
   */
  ghost predicate KeepsNames<W(!new)>(serve: Server<W>, dir: Directory<W>, k: Kind) {
    && (forall w, n :: Answers(serve, dir, k, w, n))
    && (forall w, c, n :: Preserves(serve, dir, k, w, c, n))
    && (forall w, p, n :: Renames(serve, dir, k, w, p, n))
  }

  ghost predicate Answers<W>(serve: Server<W>, dir: Directory<W>, k: Kind, w: W, n: string) {
    var m :=
      match k
      case ZoneKind => GetZoneByName
      case PolicyKind => GetPolicyByName
      case ServiceKind => GetServiceByName;
    var (w', r) := serve(w, Call("/org/fedoraproject/FirewallD1/config", Config, m, [Arg(Str(n))]));
    w' == w && if dir(w, k, n) != "" then r == Returned(PathBody(dir(w, k, n))) else r.Failed?
  }

  ghost predicate Preserves<W>(serve: Server<W>, dir: Directory<W>, k: Kind, w: W, c: Call, n: string) {
    var (w', r) := serve(w, c);
    dir(w, k, n) != "" && !(MovesName(c, dir(w, k, n)) && r.Returned?) ==> dir(w', k, n) == dir(w, k, n)
  }

  ghost predicate Renames<W>(serve: Server<W>, dir: Directory<W>, k: Kind, w: W, p: string, n: string) {
    var (w', r) := serve(w, ObjectCall(k, p, Rename, [Arg(Str(n))]));
    r.Returned? ==> dir(w', k, n) == p
  }

  // -------------------------------------------------------- refinement

  /** The cache is empty or holds what the server answers for the handle's name. */
  predicate Current<W>(dir: Directory<W>, k: Kind, w: W, h: Handle) {
    h.path != "" ==> dir(w, k, h.name) == h.path
  }

  /** The calls made on anything but the name directory, in order. */
  function ObjectCalls(trace: seq<Call>): seq<Call> {
    if trace == [] then []
    else ObjectCalls(trace[..|trace| - 1]) + if IsLookup(trace[|trace| - 1]) then [] else [trace[|trace| - 1]]
  }

  lemma ObjectCallsSnoc(trace: seq<Call>, c: Call)
    ensures ObjectCalls(trace + [c]) == ObjectCalls(trace) + if IsLookup(c) then [] else [c]
  {
  }

  /** Two sessions the server and its objects cannot tell apart. */
  ghost predicate Alike<W>(s: Session<W>, t: Session<W>) {
    s.caps == t.caps && s.world == t.world && ObjectCalls(s.trace) == ObjectCalls(t.trace)
  }

  lemma CallOnMatchesFresh<W(!new)>(
      serve: Server<W>, dir: Directory<W>, s: Session<W>, t: Session<W>, k: Kind, h: Handle, m: Method, args: seq<Arg>)
    requires KeepsNames(serve, dir, k) && Alike(s, t) && Current(dir, k, s.world, h)
    ensures var (s', h', r) := CallOn(serve, s, k, h, m, args);
            var (t', q) := FreshCallOn(serve, t, k, h.name, m, args);
            && r == q && Alike(s', t')
            && h'.name == h.name && (h'.path == h.path || h'.path == dir(s.world, k, h.name))
  {
    hide ObjectCalls;
    var w := s.world;
    assert Answers(serve, dir, k, w, h.name);
    ObjectCallsSnoc(s.trace, LookupCall(k, h.name));
    ObjectCallsSnoc(t.trace, LookupCall(k, h.name));
    var p := dir(w, k, h.name);
    var c := ObjectCall(k, p, m, args);
    ObjectCallsSnoc(s.trace, c);
    ObjectCallsSnoc(s.trace + [LookupCall(k, h.name)], c);
    ObjectCallsSnoc(t.trace + [LookupCall(k, h.name)], c);
  }

  /** Only the handle renames its object, and nobody removes it. */
  ghost predicate Undisturbed<W>(dir: Directory<W>, k: Kind, w: W, h: Handle, step: Step<W>) {
    match step
    case Use(m, _) => !m.Rename? && !m.Remove?
    case Renaming(_) => true
    case Elsewhere(w') => dir(w, k, h.name) != "" ==> dir(w', k, h.name) == dir(w, k, h.name)
  }

  ghost predicate UndisturbedRun<W>(
      serve: Server<W>, dir: Directory<W>, s: Session<W>, k: Kind, h: Handle, steps: seq<Step<W>>)
  {
    steps == [] ||
    var prefix := steps[..|steps| - 1];
    var (s1, h1, _) := CachedRun(serve, s, k, h, prefix);
    UndisturbedRun(serve, dir, s, k, h, prefix) && Undisturbed(dir, k, s1.world, h1, steps[|steps| - 1])
  }

  /** One step, with or without the cache: same result, same calls, and the cache stays current. */
  lemma StepMatchesFresh<W(!new)>(
      serve: Server<W>, dir: Directory<W>, s: Session<W>, t: Session<W>, k: Kind, h: Handle, step: Step<W>)
    requires KeepsNames(serve, dir, k) && Alike(s, t) && Current(dir, k, s.world, h)
    requires Undisturbed(dir, k, s.world, h, step)
    ensures var (s', h', r) := CachedStep(serve, s, k, h, step);
            var (t', n, q) := FreshStep(serve, t, k, h.name, step);
            r == q && n == h'.name && Alike(s', t') && Current(dir, k, s'.world, h')
  {
    hide ObjectCalls;
    var w := s.world;
    assert Answers(serve, dir, k, w, h.name);
    match step {
      case Use(m, args) =>
        CallOnMatchesFresh(serve, dir, s, t, k, h, m, args);
        assert Preserves(serve, dir, k, w, ObjectCall(k, dir(w, k, h.name), m, args), h.name);
      case Renaming(name) =>
        CallOnMatchesFresh(serve, dir, s, t, k, h, Rename, [Arg(Str(name))]);
        assert Preserves(serve, dir, k, w, ObjectCall(k, dir(w, k, h.name), Rename, [Arg(Str(name))]), h.name);
      case Elsewhere(_) =>
    }
  }

  /**
   * The cache is invisible. Over every run in which only the handle renames its object
   * and nobody removes it, a handle that caches its path returns the same results and
   * makes the same calls on the same objects as one that looks its name up every time.
   */
  lemma {:induction false} CacheRefinesFreshLookup<W(!new)>(
      serve: Server<W>, dir: Directory<W>, s: Session<W>, k: Kind, h: Handle, steps: seq<Step<W>>)
    requires KeepsNames(serve, dir, k) && Current(dir, k, s.world, h)
    requires UndisturbedRun(serve, dir, s, k, h, steps)
    ensures var (s', h', r) := CachedRun(serve, s, k, h, steps);
            var (t', n, q) := FreshRun(serve, s, k, h.name, steps);
            && r == q && n == h'.name
            && s'.world == t'.world && ObjectCalls(s'.trace) == ObjectCalls(t'.trace)
            && s'.caps == t'.caps && Current(dir, k, s'.world, h')
  {
    hide ObjectCalls, KeepsNames;
    if steps != [] {
      var prefix := steps[..|steps| - 1];
      CacheRefinesFreshLookup(serve, dir, s, k, h, prefix);
      var (s1, h1, _) := CachedRun(serve, s, k, h, prefix);
      var (t1, n1, _) := FreshRun(serve, s, k, h.name, prefix);
      StepMatchesFresh(serve, dir, s1, t1, k, h1, steps[|steps| - 1]);
    }
  }

  /** Whether a call through the handle calls the object a fresh lookup would find. */
  ghost predicate Agrees<W>(serve: Server<W>, s: Session<W>, k: Kind, h: Handle, m: Method, args: seq<Arg>) {
    ObjectCalls(CallOn(serve, s, k, h, m, args).0.trace)
    == ObjectCalls(FreshCallOn(serve, s, k, h.name, m, args).0.trace)
  }

  lemma StaleExactlyWhenServerDisagrees<W(!new)>(
      serve: Server<W>, dir: Directory<W>, s: Session<W>, k: Kind, h: Handle, m: Method, args: seq<Arg>)
    requires Answers(serve, dir, k, s.world, h.name) && h.path != "" && !Refused(s, k)
    ensures Agrees(serve, s, k, h, m, args) <==> dir(s.world, k, h.name) == h.path
  {
    hide ObjectCalls;
    var l := LookupCall(k, h.name);
    ObjectCallsSnoc(s.trace, l);
    ObjectCallsSnoc(s.trace, ObjectCall(k, h.path, m, args));
    ObjectCallsSnoc(s.trace + [l], ObjectCall(k, dir(s.world, k, h.name), m, args));
    var o := ObjectCalls(s.trace);
    assert (o + [ObjectCall(k, h.path, m, args)])[|o|] == ObjectCall(k, h.path, m, args);
    assert (o + [ObjectCall(k, dir(s.world, k, h.name), m, args)])[|o|].path == dir(s.world, k, h.name);
    assert |o + [ObjectCall(k, h.path, m, args)]| == |o| + 1;
  }

  // ------------------------------------------------------------ removal

  /** The objects that were removed from a server for good. */
  type Graveyard<!W> = (W, string) -> bool

  /**
   * A server that never reuses a path: an accepted removal buries its object, no call
   * brings one back, and no name stands for a buried object.
   */
  ghost predicate NeverReusesPaths<W(!new)>(serve: Server<W>, dir: Directory<W>, gone: Graveyard<W>, k: Kind) {
    && (forall w, p, args :: Buries(serve, gone, k, w, p, args))
    && (forall w, c, p :: StaysGone(serve, gone, w, c, p))
    && (forall w, p, n :: Nameless(dir, gone, k, w, p, n))
  }

  ghost predicate StaysGone<W>(serve: Server<W>, gone: Graveyard<W>, w: W, c: Call, p: string) {
    gone(w, p) ==> gone(serve(w, c).0, p)
  }

  ghost predicate Nameless<W>(dir: Directory<W>, gone: Graveyard<W>, k: Kind, w: W, p: string, n: string) {
    gone(w, p) ==> dir(w, k, n) != p
  }

  ghost predicate Buries<W>(serve: Server<W>, gone: Graveyard<W>, k: Kind, w: W, p: string, args: seq<Arg>) {
    var (w', r) := serve(w, ObjectCall(k, p, Remove, args));
    r.Returned? ==> gone(w', p)
  }

  /**
   * What may happen around a handle that also removes its object: other hands neither
   * move the name while it stands for the cached object nor bring removed objects back.
   */
  ghost predicate Ordinary<W(!new)>(dir: Directory<W>, gone: Graveyard<W>, k: Kind, w: W, h: Handle, step: Step<W>) {
    match step
    case Use(m, _) => !m.Rename?
    case Renaming(_) => true
    case Elsewhere(w') =>
      && (forall p :: gone(w, p) ==> gone(w', p))
      && (h.path != "" && dir(w, k, h.name) == h.path ==> dir(w', k, h.name) == h.path)
  }

  ghost predicate OrdinaryRun<W(!new)>(
      serve: Server<W>, dir: Directory<W>, gone: Graveyard<W>, s: Session<W>, k: Kind, h: Handle, steps: seq<Step<W>>)
  {
    steps == [] ||
    var prefix := steps[..|steps| - 1];
    var (s1, h1, _) := CachedRun(serve, s, k, h, prefix);
    && OrdinaryRun(serve, dir, gone, s, k, h, prefix)
    && Ordinary(dir, gone, k, s1.world, h1, steps[|steps| - 1])
  }

  /** Some removal through the handle succeeded during the run. */
  predicate Removed<W>(serve: Server<W>, s: Session<W>, k: Kind, h: Handle, steps: seq<Step<W>>) {
    steps != [] &&
    var prefix := steps[..|steps| - 1];
    var (s1, h1, _) := CachedRun(serve, s, k, h, prefix);
    Removed(serve, s, k, h, prefix) || RemovesNow(serve, s1, k, h1, steps[|steps| - 1])
  }

  predicate RemovesNow<W>(serve: Server<W>, s: Session<W>, k: Kind, h: Handle, step: Step<W>) {
    step.Use? && step.m.Remove? && CallOn(serve, s, k, h, step.m, step.args).2.Ok?
  }

  /** Before a removal the cache is current; after one the handle keeps a buried path. */
  ghost predicate CurrentOrBuried<W>(
      dir: Directory<W>, gone: Graveyard<W>, k: Kind, s: Session<W>, h: Handle, removed: bool)
  {
    if removed then h.path != "" && gone(s.world, h.path) && !Refused(s, k) else Current(dir, k, s.world, h)
  }

  lemma StepKeepsCurrentOrBuried<W(!new)>(
      serve: Server<W>, dir: Directory<W>, gone: Graveyard<W>, s: Session<W>, k: Kind, h: Handle,
      step: Step<W>, removed: bool)
    requires KeepsNames(serve, dir, k) && NeverReusesPaths(serve, dir, gone, k)
    requires CurrentOrBuried(dir, gone, k, s, h, removed) && Ordinary(dir, gone, k, s.world, h, step)
    ensures var (s', h', _) := CachedStep(serve, s, k, h, step);
            && CurrentOrBuried(dir, gone, k, s', h', removed || RemovesNow(serve, s, k, h, step))
            && (removed ==> h' == h)
  {
    var w := s.world;
    assert Answers(serve, dir, k, w, h.name);
    var p := if h.path != "" then h.path else dir(w, k, h.name);
    match step {
      case Use(m, args) =>
        var c := ObjectCall(k, p, m, args);
        assert Preserves(serve, dir, k, w, c, h.name);
        assert StaysGone(serve, gone, w, c, p) && Buries(serve, gone, k, w, p, args);
        assert m.Remove? ==> c == ObjectCall(k, p, Remove, args);
        assert RemovesNow(serve, s, k, h, step) ==> m.Remove? && serve(w, c).1.Returned?;
      case Renaming(name) =>
        var c := ObjectCall(k, p, Rename, [Arg(Str(name))]);
        assert Preserves(serve, dir, k, w, c, h.name);
        assert StaysGone(serve, gone, w, c, p) && Renames(serve, dir, k, w, p, name);
        assert Nameless(dir, gone, k, serve(w, c).0, p, name);
      case Elsewhere(_) =>
    }
  }

  lemma {:induction false} RunKeepsCurrentOrBuried<W(!new)>(
      serve: Server<W>, dir: Directory<W>, gone: Graveyard<W>, s: Session<W>, k: Kind, h: Handle, steps: seq<Step<W>>)
    requires KeepsNames(serve, dir, k) && NeverReusesPaths(serve, dir, gone, k)
    requires Current(dir, k, s.world, h) && OrdinaryRun(serve, dir, gone, s, k, h, steps)
    ensures var (s', h', _) := CachedRun(serve, s, k, h, steps);
            CurrentOrBuried(dir, gone, k, s', h', Removed(serve, s, k, h, steps))
  {
    hide KeepsNames, NeverReusesPaths, CurrentOrBuried, Ordinary, CachedStep, RemovesNow;
    if steps != [] {
      var prefix := steps[..|steps| - 1];
      RunKeepsCurrentOrBuried(serve, dir, gone, s, k, h, prefix);
      var (s1, h1, _) := CachedRun(serve, s, k, h, prefix);
      StepKeepsCurrentOrBuried(serve, dir, gone, s1, k, h1, steps[|steps| - 1], Removed(serve, s, k, h, prefix));
    } else {
      NotBuriedYet(dir, gone, k, s, h);
    }
  }

  lemma NotBuriedYet<W>(dir: Directory<W>, gone: Graveyard<W>, k: Kind, s: Session<W>, h: Handle)
    requires Current(dir, k, s.world, h)
    ensures CurrentOrBuried(dir, gone, k, s, h, false)
  {
  }

  /**
   * Remove does not clear the path, and that is exactly what makes a handle stale. After
   * every ordinary run, on a server that never reuses a path, every further call through
   * the handle reaches the object a fresh lookup would if and only if no removal
   * through it has succeeded.
   */
  lemma StaleExactlyAfterRemoval<W(!new)>(
      serve: Server<W>, dir: Directory<W>, gone: Graveyard<W>, s: Session<W>, k: Kind, h: Handle, steps: seq<Step<W>>,
      m: Method, args: seq<Arg>)
    requires KeepsNames(serve, dir, k) && NeverReusesPaths(serve, dir, gone, k)
    requires Current(dir, k, s.world, h) && OrdinaryRun(serve, dir, gone, s, k, h, steps)
    ensures var (s', h', _) := CachedRun(serve, s, k, h, steps);
            Agrees(serve, s', k, h', m, args) <==> !Removed(serve, s, k, h, steps)
  {
    hide CachedRun, OrdinaryRun, Removed, ObjectCalls;
    RunKeepsCurrentOrBuried(serve, dir, gone, s, k, h, steps);
    var (s', h', _) := CachedRun(serve, s, k, h, steps);
    assert Answers(serve, dir, k, s'.world, h'.name) && Nameless(dir, gone, k, s'.world, h'.path, h'.name);
    if h'.path != "" && !Refused(s', k) {
      StaleExactlyWhenServerDisagrees(serve, dir, s', k, h', m, args);
    }
  }

  /** Once removed, the handle never lets go of the path: no later step changes it. */
  lemma RemovedHandleKeepsItsPath<W(!new)>(
      serve: Server<W>, dir: Directory<W>, gone: Graveyard<W>, s: Session<W>, k: Kind, h: Handle,
      steps: seq<Step<W>>, step: Step<W>)
    requires KeepsNames(serve, dir, k) && NeverReusesPaths(serve, dir, gone, k)
    requires Current(dir, k, s.world, h) && OrdinaryRun(serve, dir, gone, s, k, h, steps + [step])
    requires Removed(serve, s, k, h, steps)
    ensures CachedRun(serve, s, k, h, steps + [step]).1 == CachedRun(serve, s, k, h, steps).1
  {
    hide KeepsNames, NeverReusesPaths, CurrentOrBuried, Ordinary, CachedStep, Removed;
    assert (steps + [step])[..|steps|] == steps;
    RunKeepsCurrentOrBuried(serve, dir, gone, s, k, h, steps);
    var (s1, h1, _) := CachedRun(serve, s, k, h, steps);
    StepKeepsCurrentOrBuried(serve, dir, gone, s1, k, h1, step, true);
  }

  /**
   * A rename sends the new name. A failed one keeps the name and any resolved path; a
   * successful one makes the next call look the new name up first.
   */
  lemma RenameResolvesAnew<W>(serve: Server<W>, s: Session<W>, k: Kind, h: Handle, name: string)
    ensures var (s', h', r) := RenameTo(serve, s, k, h, name);
            var (t, _, q) := CallOn(serve, s, k, h, Rename, [Arg(Str(name))]);
            && s' == t && r == q
            && (r.Fail? ==> h'.name == h.name && (h.path != "" ==> h'.path == h.path))
            && (r.Ok? ==> h'.name == name && forall m, args ::
                  s'.trace + [LookupCall(k, name)] <= CallOn(serve, s', k, h', m, args).0.trace)
  {
  }
}
