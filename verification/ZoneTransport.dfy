/**
 * Reading and writing a zone's permanent settings through whichever transport the
 * server supports (permzone.go, config.go): what is written is what is read back.
 */
module ZoneTransport {
  import opened Seqs
  import opened Values
  import opened Boxing
  import opened Versions
  import opened Bus
  import opened Handles
  import ZoneCodec

  type ZoneSettings = ZoneCodec.ZoneSettings

  // --------------------------------------------------------- operations

  function TupleArg(z: ZoneSettings): Arg { Arg(ZoneCodec.ToTuple(z)) }

  function DictArgOf(z: ZoneSettings): Arg { DictArg(ZoneCodec.DictOf(z)) }

  function UpdateZone<W>(serve: Server<W>, s: Session<W>, h: Handle, z: ZoneSettings)
    : (Session<W>, Handle, Result<Body>)
  {
    if DictZoneSettings in s.caps then CallOn(serve, s, ZoneKind, h, Update2, [DictArgOf(z)])
    else CallOn(serve, s, ZoneKind, h, Update, [TupleArg(z)])
  }

  function DecodeDict(r: Result<Body>): Result<ZoneSettings> {
    match DictIn(r)
    case Fail(e) => Fail(e)
    case Ok(d) => Ok(ZoneCodec.SettingsIn(d))
  }

  function DecodeTuple(r: Result<Body>): Result<ZoneSettings> {
    match TupleIn(r)
    case Fail(e) => Fail(e)
    case Ok(raw) => Ok(ZoneCodec.FromTuple(raw))
  }

  function ReadZone<W>(serve: Server<W>, s: Session<W>, h: Handle): (Session<W>, Handle, Result<ZoneSettings>) {
    if DictZoneSettings in s.caps then
      var (s', h', r) := CallOn(serve, s, ZoneKind, h, GetSettings2, []);
      (s', h', DecodeDict(r))
    else
      var (s', h', r) := CallOn(serve, s, ZoneKind, h, GetSettings, []);
      (s', h', DecodeTuple(r))
  }

  function AddZoneCall(caps: set<Capability>, name: string, z: ZoneSettings): Call {
    if Versions.AddZone2 in caps
    then Call(CONFIG_PATH, Config, Bus.AddZone2, [Arg(Str(name)), DictArgOf(z)])
    else Call(CONFIG_PATH, Config, AddZone, [Arg(Str(name)), TupleArg(z)])
  }

  function CreateZone<W>(serve: Server<W>, s: Session<W>, name: string, z: ZoneSettings): (Session<W>, Result<string>) {
    var (s', r) := Send(serve, s, AddZoneCall(s.caps, name, z));
    (s', PathIn(r))
  }

  // ------------------------------------------------------ honest servers

  /** Settings as a server received them. */
  datatype Stored = AsTuple(fields: seq<Value>) | AsDict(dict: Dict)

  /** What a server holds for the object at a path. */
  type Store<!W> = (W, string) -> Option<Stored>

  /**
   * A server that keeps what is written to a zone and, asked through the transport it
   * was written with, gives it back: possibly re-boxed, without zero-valued dict keys.
   */
  ghost predicate KeepsSettings<W(!new)>(serve: Server<W>, store: Store<W>) {
    && (forall w, p, x :: UpdateKept(serve, store, w, p, x))
    && (forall w, p :: ReadBack(serve, store, w, p))
  }

  ghost predicate UpdateKept<W>(serve: Server<W>, store: Store<W>, w: W, p: string, x: Stored) {
    var (w', r) := serve(w, ObjectCall(ZoneKind, p, if x.AsDict? then Update2 else Update, [ArgOf(x)]));
    r.Returned? ==> store(w', p) == Some(x)
  }

  function ArgOf(x: Stored): Arg {
    match x
    case AsDict(d) => DictArg(d)
    case AsTuple(fields) => Arg(Struct(fields))
  }

  ghost predicate ReadBack<W>(serve: Server<W>, store: Store<W>, w: W, p: string) {
    match store(w, p)
    case Some(AsDict(d)) =>
      var (_, r) := serve(w, ObjectCall(ZoneKind, p, GetSettings2, []));
      r.Returned? && r.body.DictBody? && ZoneCodec.DictReply(d, r.body.dict)
    case Some(AsTuple(fields)) =>
      var (_, r) := serve(w, ObjectCall(ZoneKind, p, GetSettings, []));
      r.Returned? && r.body.TupleBody? && TupleReply(fields, r.body.fields)
    case None => true
  }

  /** A created zone goes by its name, at the path returned, with the settings sent. */
  ghost predicate Creates<W(!new)>(serve: Server<W>, dir: Directory<W>, store: Store<W>) {
    forall w, n, x :: CreationKept(serve, dir, store, w, n, x)
  }

  ghost predicate CreationKept<W>(serve: Server<W>, dir: Directory<W>, store: Store<W>, w: W, n: string, x: Stored) {
    var m := if x.AsDict? then Bus.AddZone2 else AddZone;
    var (w', r) := serve(w, Call(CONFIG_PATH, Config, m, [Arg(Str(n)), ArgOf(x)]));
    r.Returned? && r.body.PathBody? ==>
      r.body.path != "" && dir(w', ZoneKind, n) == r.body.path && store(w', r.body.path) == Some(x)
  }

  // ------------------------------------------------------- transparency

  /**
   * The record read back is the one written, up to what the version cannot carry: an
   * empty target reads as "default" and, below 0.9 only, the forward flag and both
   * priorities read as zero.
   */
  predicate Survives(v: Version, written: ZoneSettings, read: ZoneSettings) {
    && read.target == (if written.target == "" then "default" else written.target)
    && (if v.major > 0 || (v.major == 0 && v.minor >= 9) then read == written.(target := read.target)
        else read == written.(target := read.target, forward := false, egressPriority := 0, ingressPriority := 0))
  }

  function StoredFor(caps: set<Capability>, z: ZoneSettings): Stored {
    if DictZoneSettings in caps then AsDict(ZoneCodec.DictOf(z)) else AsTuple(ZoneCodec.TupleFields(z))
  }

  /** Reading a zone through a handle already resolved to the object that holds `z`. */
  lemma StoredZoneIsRead<W(!new)>(
      serve: Server<W>, store: Store<W>, v: Version, s: Session<W>, h: Handle, z: ZoneSettings)
    requires KeepsSettings(serve, store) && s.caps == CapsFor(v)
    requires h.path != "" && store(s.world, h.path) == Some(StoredFor(s.caps, z))
    ensures var r := ReadZone(serve, s, h).2; r.Ok? && Survives(v, z, r.value)
  {
    hide ZoneCodec.DictReply, ZoneCodec.SettingsIn, ZoneCodec.DictOf;
    hide TupleReply, ZoneCodec.FromTuple, ZoneCodec.TupleFields;
    assert ReadBack(serve, store, s.world, h.path);
    if DictZoneSettings in s.caps {
      var (_, r) := serve(s.world, ObjectCall(ZoneKind, h.path, GetSettings2, []));
      ZoneCodec.DictRoundTrip(z, r.body.dict);
    } else {
      var (_, r) := serve(s.world, ObjectCall(ZoneKind, h.path, GetSettings, []));
      ZoneCodec.TupleRoundTrip(z, r.body.fields);
    }
  }

  /**
   * Transport transparency. On every version, settings that Update accepted are what
   * Settings then returns, with an empty target read as "default" and, below 0.9 only,
   * the forward flag and both priorities zeroed.
   */
  lemma UpdateThenSettings<W(!new)>(
      serve: Server<W>, store: Store<W>, v: Version, s: Session<W>, h: Handle, z: ZoneSettings)
    requires KeepsSettings(serve, store) && s.caps == CapsFor(v)
    requires UpdateZone(serve, s, h, z).2.Ok? && UpdateZone(serve, s, h, z).1.path != ""
    ensures var (s', h', _) := UpdateZone(serve, s, h, z);
            var r := ReadZone(serve, s', h').2;
            r.Ok? && Survives(v, z, r.value)
  {
    hide ReadZone, ZoneCodec.DictOf, ZoneCodec.TupleFields;
    var (s', h', _) := UpdateZone(serve, s, h, z);
    var (s1, _, _) := Resolve(serve, s, ZoneKind, h);
    var x := StoredFor(s.caps, z);
    var c := ObjectCall(ZoneKind, h'.path, if x.AsDict? then Update2 else Update, [ArgOf(x)]);
    assert UpdateKept(serve, store, s1.world, h'.path, x);
    assert s' == Send(serve, s1, c).0 && serve(s1.world, c).1.Returned?;
    StoredZoneIsRead(serve, store, v, s', h', z);
  }

  /** The same for a zone that was just created, read through a handle on its name. */
  lemma CreateThenSettings<W(!new)>(
      serve: Server<W>, dir: Directory<W>, store: Store<W>, v: Version, s: Session<W>, name: string, z: ZoneSettings)
    requires KeepsSettings(serve, store) && Creates(serve, dir, store) && s.caps == CapsFor(v)
    requires forall w, n :: Answers(serve, dir, ZoneKind, w, n)
    requires CreateZone(serve, s, name, z).1.Ok?
    ensures var (s', _) := CreateZone(serve, s, name, z);
            var r := ReadZone(serve, s', Handle(name, "")).2;
            r.Ok? && Survives(v, z, r.value)
  {
    hide ReadZone, ZoneCodec.DictOf, ZoneCodec.TupleFields;
    var (s', p) := CreateZone(serve, s, name, z);
    var x := StoredFor(s.caps, z);
    var c := Call(CONFIG_PATH, Config, if x.AsDict? then Bus.AddZone2 else AddZone, [Arg(Str(name)), ArgOf(x)]);
    assert AddZoneCall(s.caps, name, z) == c;
    assert CreationKept(serve, dir, store, s.world, name, x);
    assert s'.world == serve(s.world, c).0 && serve(s.world, c).1 == Returned(PathBody(p.value));
    assert dir(s'.world, ZoneKind, name) == p.value;
    assert Answers(serve, dir, ZoneKind, s'.world, name);
    var (s1, r) := Send(serve, s', LookupCall(ZoneKind, name));
    assert s1.world == s'.world && PathIn(r) == p;
    StoredZoneIsRead(serve, store, v, s1, Handle(name, p.value), z);
    ReadAfterLookup(serve, s', name);
  }

  /** Reading through an unresolved handle is a lookup and then a read through the answer. */
  lemma ReadAfterLookup<W>(serve: Server<W>, s: Session<W>, name: string)
    ensures var (s1, r) := Send(serve, s, LookupCall(ZoneKind, name));
            PathIn(r).Ok? && PathIn(r).value != "" ==>
              ReadZone(serve, s, Handle(name, "")).2 == ReadZone(serve, s1, Handle(name, PathIn(r).value)).2
  {
  }
}
