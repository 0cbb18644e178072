/**
 * A server that does what firewalld promises its clients: it files zones, policies and
 * services apart, each under its name, keeps their settings, and answers from what it
 * keeps. It shows that the promises the client's guarantees rest on can all be kept at
 * once, and runs a zone's whole life through the client on every version.
 */
module ReferenceServer {
  import opened Seqs
  import opened Values
  import opened Boxing
  import opened Errors
  import opened Versions
  import opened Bus
  import opened Handles
  import opened ZoneTransport
  import opened PolicyTransport
  import opened ServiceTransport
  import opened WriteThenRead
  import ZoneCodec
  import PolicyCodec

  /**
   * The objects of each kind by name, what is stored under each path, the settings of
   * each kind at runtime, and how many paths were given out.
   */
  datatype Registry = Registry(
    names: map<(Kind, string), string>,
    store: map<string, Stored>,
    runtime: map<(Kind, string), Dict>,
    next: nat)

  /** Every object sits at a path that was given out. */
  ghost predicate Sound(w: Registry) {
    forall n :: n in w.names ==> GivenOut(w.next, w.names[n])
  }

  ghost predicate GivenOut(next: nat, p: string) { exists i: nat :: i < next && p == NewPath(i) }

  type World = w: Registry | Sound(w) ghost witness Registry(map[], map[], map[], 0)

  /** A path that was given out and stands for nothing any more. */
  ghost function Buried(w: World, p: string): bool { GivenOut(w.next, p) && p !in w.names.Values }

  const REFUSED := Failed(Plain("refused"))

  function NameOn(w: World, k: Kind, n: string): string {
    if (k, n) in w.names then w.names[(k, n)] else ""
  }

  /** The paths of the objects of a kind. */
  function PathsOf(w: World, k: Kind): set<string> {
    set n | n in w.names && n.0 == k :: w.names[n]
  }

  function KeptOn(w: World, p: string): Option<Stored> {
    if p in w.store then Some(w.store[p]) else None
  }

  /** The name argument of a lookup, rename or creation. */
  function NameArg(c: Call): Option<string> {
    if c.args != [] && c.args[0].Arg? && c.args[0].value.Str? then Some(c.args[0].value.s) else None
  }

  function SettingsArg(a: Arg): Option<Stored> {
    match a
    case DictArg(d) => Some(AsDict(d))
    case Arg(Struct(fields)) => Some(AsTuple(fields))
    case _ => None
  }

  /** A new zone's path is one firewalld never used before. */
  function NewPath(n: nat): string { "/org/fedoraproject/FirewallD1/config/zone/" + Decimal(n) }

  /** The object of kind k at p goes by `to` and by nothing else. */
  function Refiled(names: map<(Kind, string), string>, k: Kind, p: string, to: string): map<(Kind, string), string> {
    (map n | n in names && names[n] != p :: names[n])[(k, to) := p]
  }

  /** The kind of object an interface belongs to. */
  function KindOf(i: Iface): Option<Kind> {
    match i
    case ConfigZone => Some(ZoneKind)
    case ConfigPolicy => Some(PolicyKind)
    case ConfigService => Some(ServiceKind)
    case _ => None
  }

  lemma GivenOutGrows(next: nat, paths: set<string>)
    ensures forall p :: p in paths && GivenOut(next, p) ==> GivenOut(next + 1, p)
  {
  }

  function Lookup(w: World, k: Kind, c: Call): (World, Reply) {
    match NameArg(c)
    case Some(n) => (w, if NameOn(w, k, n) != "" then Returned(PathBody(NameOn(w, k, n))) else REFUSED)
    case None => (w, REFUSED)
  }

  function Create(w: World, k: Kind, c: Call): (World, Reply) {
    if |c.args| != 2 || NameArg(c).None? || SettingsArg(c.args[1]).None? then (w, REFUSED)
    else if (k, NameArg(c).value) in w.names then (w, REFUSED)
    else
      var settings := SettingsArg(c.args[1]).value;
      var p := NewPath(w.next);
      assert GivenOut(w.next + 1, p);
      GivenOutGrows(w.next, w.names.Values);
      (w.(names := w.names[(k, NameArg(c).value) := p], store := w.store[p := settings], next := w.next + 1),
       Returned(PathBody(p)))
  }

  /** The object a call is made on, if there is one of its interface's kind. */
  function Target(w: World, c: Call): Option<Kind> {
    match KindOf(c.iface)
    case Some(k) => if c.path in PathsOf(w, k) then Some(k) else None
    case None => None
  }

  function Renaming(w: World, c: Call): (World, Reply) {
    if Target(w, c).None? || NameArg(c).None? || (Target(w, c).value, NameArg(c).value) in w.names then (w, REFUSED)
    else (w.(names := Refiled(w.names, Target(w, c).value, c.path, NameArg(c).value)), Returned(Nothing))
  }

  function Removing(w: World, c: Call): (World, Reply) {
    if Target(w, c).None? then (w, REFUSED)
    else
      var left := map n | n in w.names && w.names[n] != c.path :: w.names[n];
      (w.(names := left, store := w.store - {c.path}), Returned(Nothing))
  }

  function Write(w: World, c: Call): (World, Reply) {
    if Target(w, c).None? || |c.args| != 1 || SettingsArg(c.args[0]).None? then (w, REFUSED)
    else (w.(store := w.store[c.path := SettingsArg(c.args[0]).value]), Returned(Nothing))
  }

  /** A stored dict as it comes back: each value in its wire form. */
  function DictOnWire(d: Dict): Dict { map k | k in d :: OnWire(d[k]) }

  function Read(w: World, c: Call): Reply {
    match KeptOn(w, c.path)
    case Some(AsDict(d)) =>
      if c.name.GetSettings2? || c.iface.ConfigPolicy? then Returned(DictBody(DictOnWire(d))) else REFUSED
    case Some(AsTuple(fields)) => if c.name.GetSettings? then Returned(TupleBody(MapSeq(OnWire, fields))) else REFUSED
    case None => REFUSED
  }

  function RuntimeOn(w: World, k: Kind, n: string): Option<Dict> {
    if (k, n) in w.runtime then Some(w.runtime[(k, n)]) else None
  }

  function WriteRuntime(w: World, k: Kind, c: Call): (World, Reply) {
    if |c.args| != 2 || NameArg(c).None? || !c.args[1].DictArg? then (w, REFUSED)
    else (w.(runtime := w.runtime[(k, NameArg(c).value) := c.args[1].dict]), Returned(Nothing))
  }

  function ReadRuntimeDict(w: World, k: Kind, c: Call): Reply {
    if NameArg(c).None? || RuntimeOn(w, k, NameArg(c).value).None? then REFUSED
    else Returned(DictBody(DictOnWire(RuntimeOn(w, k, NameArg(c).value).value)))
  }

  function Serve(w: World, c: Call): (World, Reply) {
    match c.name
    case GetZoneByName => Lookup(w, ZoneKind, c)
    case GetPolicyByName => Lookup(w, PolicyKind, c)
    case GetServiceByName => Lookup(w, ServiceKind, c)
    case AddZone | AddZone2 => Create(w, ZoneKind, c)
    case AddPolicy => Create(w, PolicyKind, c)
    case AddService => Create(w, ServiceKind, c)
    case Rename => Renaming(w, c)
    case Remove => Removing(w, c)
    case Update | Update2 => Write(w, c)
    case GetSettings | GetSettings2 => (w, Read(w, c))
    case SetZoneSettings2 => WriteRuntime(w, ZoneKind, c)
    case SetPolicySettings => WriteRuntime(w, PolicyKind, c)
    case GetZoneSettings2 => (w, ReadRuntimeDict(w, ZoneKind, c))
    case GetPolicySettings => (w, ReadRuntimeDict(w, PolicyKind, c))
    case _ => (w, Returned(Nothing))
  }

  // --------------------------------------------------------- promises kept

  lemma ServeKeepsNames(k: Kind)
    ensures KeepsNames(Serve, NameOn, k)
  {
    forall w, n ensures Answers(Serve, NameOn, k, w, n) {
      ServeAnswers(k, w, n);
    }
    forall w, c, n ensures Preserves(Serve, NameOn, k, w, c, n) {
      ServePreserves(k, w, c, n);
    }
    forall w, p, n ensures Renames(Serve, NameOn, k, w, p, n) {
      ServeRenames(k, w, p, n);
    }
  }

  lemma ServeAnswers(k: Kind, w: World, n: string)
    ensures Answers(Serve, NameOn, k, w, n)
  {
    assert NameArg(LookupCall(k, n)) == Some(n);
  }

  lemma ServePreserves(k: Kind, w: World, c: Call, n: string)
    ensures Preserves(Serve, NameOn, k, w, c, n)
  {
    hide OnWire, MapSeq, NewPath;
  }

  lemma ServeRenames(k: Kind, w: World, p: string, n: string)
    ensures Renames(Serve, NameOn, k, w, p, n)
  {
    hide OnWire, MapSeq, NewPath;
  }

  lemma ReadsBack(w: World, p: string)
    ensures ReadBack(Serve, KeptOn, w, p)
  {
    hide OnWire, MapSeq;
    match KeptOn(w, p)
    case Some(AsDict(d)) =>
      DictComesBack(d);
    case Some(AsTuple(fields)) =>
      forall i | 0 <= i < |fields| ensures Boxes(OnWire(fields[i]), MapSeq(OnWire, fields)[i]) {
        BoxesReflexive(OnWire(fields[i]));
      }
    case None =>
  }

  lemma ServeKeepsSettings()
    ensures KeepsSettings(Serve, KeptOn)
  {
    forall w, p, x ensures UpdateKept(Serve, KeptOn, w, p, x) {
    }
    forall w, p ensures ReadBack(Serve, KeptOn, w, p) {
      ReadsBack(w, p);
    }
  }

  function PolicyOn(w: World, p: string): Option<Dict> {
    match KeptOn(w, p)
    case Some(AsDict(d)) => Some(d)
    case _ => None
  }

  function ServiceOn(w: World, p: string): Option<seq<Value>> {
    match KeptOn(w, p)
    case Some(AsTuple(fields)) => Some(fields)
    case _ => None
  }

  lemma ServeKeepsPoliciesAndServices()
    ensures KeepsPolicies(Serve, PolicyOn) && KeepsServices(Serve, ServiceOn)
  {
    hide OnWire, MapSeq;
    forall w, p ensures PolicyReadBack(Serve, PolicyOn, w, p) {
      if PolicyOn(w, p).Some? {
        DictComesBack(PolicyOn(w, p).value);
      }
    }
    forall w, p ensures ServiceReadBack(Serve, ServiceOn, w, p) {
      ReadsBack(w, p);
    }
  }

  lemma ServeCreates()
    ensures Creates(Serve, NameOn, KeptOn)
  {
  }

  lemma ServeCreatesPoliciesAndServices()
    ensures CreatesPolicies(Serve, NameOn, PolicyOn) && CreatesServices(Serve, NameOn, ServiceOn)
  {
    hide Decimal, OnWire, MapSeq;
  }

  function RuntimeZoneOn(w: World, n: string): Option<Dict> { RuntimeOn(w, ZoneKind, n) }

  function RuntimePolicyOn(w: World, n: string): Option<Dict> { RuntimeOn(w, PolicyKind, n) }

  lemma DictComesBack(d: Dict)
    ensures ZoneCodec.DictReply(d, DictOnWire(d)) && PolicyCodec.DictReply(d, DictOnWire(d))
  {
    hide OnWire, MapSeq;
    forall k ensures KeyReply(DictValue(d, k), DictValue(DictOnWire(d), k)) {
      if k in d { BoxesReflexive(OnWire(d[k])); }
    }
  }

  lemma ServeKeepsRuntimeZones()
    ensures KeepsRuntimeZones(Serve, RuntimeZoneOn)
  {
    hide OnWire, MapSeq, DictOnWire, ZoneCodec.DictReply;
    forall w, zone ensures RuntimeZoneReadBack(Serve, RuntimeZoneOn, w, zone) {
      if RuntimeZoneOn(w, zone).Some? { DictComesBack(RuntimeZoneOn(w, zone).value); }
    }
  }

  lemma ServeKeepsRuntimePolicies()
    ensures KeepsRuntimePolicies(Serve, RuntimePolicyOn)
  {
    hide OnWire, MapSeq, DictOnWire, PolicyCodec.DictReply, NewPath;
    forall w, name ensures RuntimePolicyReadBack(Serve, RuntimePolicyOn, w, name) {
      if RuntimePolicyOn(w, name).Some? { DictComesBack(RuntimePolicyOn(w, name).value); }
    }
  }

  /** The paths given out are all different. */
  lemma NewPathsDiffer(i: nat, j: nat)
    ensures NewPath(i) == NewPath(j) ==> i == j
  {
    var prefix := "/org/fedoraproject/FirewallD1/config/zone/";
    if NewPath(i) == NewPath(j) {
      assert Decimal(i) == NewPath(i)[|prefix|..] && Decimal(j) == NewPath(j)[|prefix|..];
      DecimalHasItsValue(i);
      DecimalHasItsValue(j);
    }
  }

  lemma ServeNeverReusesPaths(k: Kind)
    ensures NeverReusesPaths(Serve, NameOn, Buried, k)
  {
    hide NewPath, OnWire, MapSeq;
    forall w, p, args ensures Buries(Serve, Buried, k, w, p, args) {
    }
    forall w, c, p ensures StaysGone(Serve, Buried, w, c, p) {
      if Buried(w, p) { BuriedStays(w, c, p); }
    }
    forall w, p, n ensures Nameless(NameOn, Buried, k, w, p, n) {
      NewPathsAreNotEmpty(w.next);
    }
  }

  lemma NewPathsAreNotEmpty(next: nat)
    ensures !GivenOut(next, "")
  {
  }

  lemma BuriedStays(w: World, c: Call, p: string)
    requires Buried(w, p)
    ensures Buried(Serve(w, c).0, p)
  {
    hide NewPath, OnWire, MapSeq;
    var i: nat :| i < w.next && p == NewPath(i);
    NewPathsDiffer(i, w.next);
    var w' := Serve(w, c).0;
    assert i < w'.next;
  }

  /** Names and paths are served as promised for every kind of object. */
  ghost predicate Files<W(!new)>(serve: Server<W>, dir: Directory<W>, gone: Graveyard<W>) {
    forall k: Kind :: KeepsNames(serve, dir, k) && NeverReusesPaths(serve, dir, gone, k)
  }

  /** All that is asked of a server can be had from one server. */
  lemma PromisesCanBeKept()
    ensures exists serve: Server<World>, dir: Directory<World>, store: Store<World>, gone: Graveyard<World>,
              policies: PolicyStore<World>, services: ServiceStore<World>,
              zonesNow: Runtime<World>, policiesNow: Runtime<World> ::
              && Files(serve, dir, gone)
              && KeepsSettings(serve, store) && Creates(serve, dir, store)
              && KeepsPolicies(serve, policies) && KeepsServices(serve, services)
              && CreatesPolicies(serve, dir, policies) && CreatesServices(serve, dir, services)
              && KeepsRuntimeZones(serve, zonesNow) && KeepsRuntimePolicies(serve, policiesNow)
  {
    forall k: Kind ensures KeepsNames(Serve, NameOn, k) && NeverReusesPaths(Serve, NameOn, Buried, k) {
      ServeKeepsNames(k);
      ServeNeverReusesPaths(k);
    }
    ServeKeepsSettings();
    ServeCreates();
    ServeKeepsPoliciesAndServices();
    ServeCreatesPoliciesAndServices();
    ServeKeepsRuntimeZones();
    ServeKeepsRuntimePolicies();
    hide CreatesPolicies, CreatesServices, KeepsRuntimeZones, KeepsRuntimePolicies;
    hide KeepsNames, NeverReusesPaths, KeepsSettings, Creates, KeepsPolicies, KeepsServices;
    assert Files(Serve, NameOn, Buried);
  }

  // ------------------------------------------------------ a zone's life

  lemma CreateIsAccepted(v: Version, s: Session<World>, a: string, z: ZoneSettings)
    requires s.caps == CapsFor(v) && (ZoneKind, a) !in s.world.names
    ensures var (s', p) := CreateZone(Serve, s, a, z);
            var path := NewPath(s.world.next);
            p == Ok(path) && s'.caps == s.caps && s'.world.names == s.world.names[(ZoneKind, a) := path]
  {
    hide ZoneCodec.DictOf, ZoneCodec.TupleFields, Decimal;
    var c := AddZoneCall(s.caps, a, z);
    assert NameArg(c) == Some(a) && SettingsArg(c.args[1]) == Some(StoredFor(s.caps, z));
  }

  lemma UpdateIsAccepted(v: Version, s: Session<World>, a: string, z: ZoneSettings)
    requires s.caps == CapsFor(v) && NameOn(s.world, ZoneKind, a) != ""
    ensures var (s', h', r) := UpdateZone(Serve, s, Handle(a, ""), z);
            var path := NameOn(s.world, ZoneKind, a);
            && r.Ok? && h' == Handle(a, path) && s'.caps == s.caps && s'.world.names == s.world.names
            && KeptOn(s'.world, path) == Some(StoredFor(s.caps, z))
  {
    hide ZoneCodec.DictOf, ZoneCodec.TupleFields, NewPath, OnWire, MapSeq, DictOnWire;
    assert NameArg(LookupCall(ZoneKind, a)) == Some(a);
  }

  lemma RenameIsAccepted(s: Session<World>, h: Handle, b: string)
    requires h.path != "" && NameOn(s.world, ZoneKind, h.name) == h.path && (ZoneKind, b) !in s.world.names
    ensures var (s', h', r) := RenameTo(Serve, s, ZoneKind, h, b);
            && r.Ok? && h' == Handle(b, "") && s'.caps == s.caps && s'.world.store == s.world.store
            && NameOn(s'.world, ZoneKind, b) == h.path && NameOn(s'.world, ZoneKind, h.name) == ""
  {
    var c := ObjectCall(ZoneKind, h.path, Rename, [Arg(Str(b))]);
    assert NameArg(c) == Some(b);
  }

  /**
   * On every version a zone is created, updated through a handle opened by name,
   * renamed through it, and read under its new name: every step succeeds, the settings
   * read are those last written, and the old name is gone.
   */
  lemma {:induction false} ZoneLife(
      v: Version, s: Session<World>, a: string, b: string, first: ZoneSettings, last: ZoneSettings)
    requires s.caps == CapsFor(v) && (ZoneKind, a) !in s.world.names && (ZoneKind, b) !in s.world.names && a != b
    ensures var (s1, p) := CreateZone(Serve, s, a, first);
            var (s2, h2, r2) := UpdateZone(Serve, s1, Handle(a, ""), last);
            var (s3, h3, r3) := RenameTo(Serve, s2, ZoneKind, h2, b);
            && p.Ok? && r2.Ok? && r3.Ok?
            && ReadZone(Serve, s3, h3).2.Ok? && Survives(v, last, ReadZone(Serve, s3, h3).2.value)
            && NameOn(s3.world, ZoneKind, a) == ""
  {
    hide ReadZone, UpdateZone, CreateZone, RenameTo, ZoneCodec.DictOf, ZoneCodec.TupleFields, Decimal, Serve;
    CreateIsAccepted(v, s, a, first);
    var (s1, p) := CreateZone(Serve, s, a, first);
    UpdateIsAccepted(v, s1, a, last);
    var (s2, h2, r2) := UpdateZone(Serve, s1, Handle(a, ""), last);
    RenameIsAccepted(s2, h2, b);
    var (s3, h3, r3) := RenameTo(Serve, s2, ZoneKind, h2, b);
    ServeKeepsNames(ZoneKind);
    assert Answers(Serve, NameOn, ZoneKind, s3.world, b);
    var (s4, q) := Send(Serve, s3, LookupCall(ZoneKind, b));
    ServeKeepsSettings();
    StoredZoneIsRead(Serve, KeptOn, v, s4, Handle(b, p.value), last);
    ReadAfterLookup(Serve, s3, b);
  }

  // ------------------------------------------------- removing a zone

  lemma RemoveIsAccepted(s: Session<World>, n: string)
    requires (ZoneKind, n) in s.world.names
    ensures var h := Handle(n, "");
            var (s', h', r) := CallOn(Serve, s, ZoneKind, h, Remove, []);
            && r.Ok? && h' == Handle(n, s.world.names[(ZoneKind, n)]) && s'.caps == s.caps
            && (ZoneKind, n) !in s'.world.names && s'.world.next == s.world.next
            && Buried(s'.world, s.world.names[(ZoneKind, n)])
  {
    hide NewPath;
    NewPathsAreNotEmpty(s.world.next);
    assert NameArg(LookupCall(ZoneKind, n)) == Some(n);
  }

  /**
   * The failing run: a fresh handle removes its zone, any zone, and somebody creates the
   * name anew. The run is ordinary and the name stands for a zone again, yet every later
   * call through the handle misses it, as it did before the zone came back.
   */
  lemma RecreatedZoneIsMissed(s: Session<World>, n: string, again: ZoneSettings, m: Method, args: seq<Arg>)
    requires (ZoneKind, n) in s.world.names
    ensures var h := Handle(n, "");
            var gone := [Use(Remove, [])];
            var (s1, h1, _) := CachedRun(Serve, s, ZoneKind, h, gone);
            var back := gone + [Elsewhere(Serve(s1.world, AddZoneCall(s1.caps, n, again)).0)];
            var (s2, h2, _) := CachedRun(Serve, s, ZoneKind, h, back);
            && OrdinaryRun(Serve, NameOn, Buried, s, ZoneKind, h, back)
            && Removed(Serve, s, ZoneKind, h, gone) && Removed(Serve, s, ZoneKind, h, back)
            && NameOn(s2.world, ZoneKind, n) != ""
            && !Agrees(Serve, s1, ZoneKind, h1, m, args) && !Agrees(Serve, s2, ZoneKind, h2, m, args)
  {
    hide NewPath, ZoneCodec.DictOf, ZoneCodec.TupleFields, Agrees, Serve, Buried;
    var h := Handle(n, "");
    var gone := [Use(Remove, [])];
    RemoveIsAccepted(s, n);
    OneStepRun(s, h, Use(Remove, []));
    var (s1, h1, _) := CachedRun(Serve, s, ZoneKind, h, gone);
    var c := AddZoneCall(s1.caps, n, again);
    NameComesBack(s1.world, s1.caps, n, again);
    var there: Step<World> := Elsewhere(Serve(s1.world, c).0);
    assert (gone + [there])[..1] == gone;
    forall p | Buried(s1.world, p) ensures Buried(Serve(s1.world, c).0, p) {
      BuriedStays(s1.world, c, p);
    }
    ServeKeepsNames(ZoneKind);
    ServeNeverReusesPaths(ZoneKind);
    StaleExactlyAfterRemoval(Serve, NameOn, Buried, s, ZoneKind, h, gone, m, args);
    StaleExactlyAfterRemoval(Serve, NameOn, Buried, s, ZoneKind, h, gone + [there], m, args);
  }

  lemma OneStepRun(s: Session<World>, h: Handle, step: Step<World>)
    requires Ordinary(NameOn, Buried, ZoneKind, s.world, h, step)
    ensures OrdinaryRun(Serve, NameOn, Buried, s, ZoneKind, h, [step])
    ensures CachedRun(Serve, s, ZoneKind, h, [step]) == CachedStep(Serve, s, ZoneKind, h, step)
    ensures Removed(Serve, s, ZoneKind, h, [step]) <==> RemovesNow(Serve, s, ZoneKind, h, step)
  {
    hide Serve, Ordinary, CachedStep, RemovesNow, Buried;
    assert [step][..0] == [];
    assert CachedRun(Serve, s, ZoneKind, h, []) == (s, h, []);
    var (s', h', r) := CachedStep(Serve, s, ZoneKind, h, step);
    assert [] + r == r;
  }

  lemma NameComesBack(w: World, caps: set<Capability>, n: string, z: ZoneSettings)
    requires (ZoneKind, n) !in w.names
    ensures NameOn(Serve(w, AddZoneCall(caps, n, z)).0, ZoneKind, n) == NewPath(w.next) != ""
  {
    hide ZoneCodec.DictOf, ZoneCodec.TupleFields, Decimal;
    var c := AddZoneCall(caps, n, z);
    assert NameArg(c) == Some(n) && SettingsArg(c.args[1]).Some?;
  }
}
