/**
 * Reading a service at runtime, through whichever transport the server supports, and
 * reading and writing it permanently, always through the v1 tuple (service.go).
 */
module ServiceTransport {
  import opened Seqs
  import opened Values
  import opened Boxing
  import opened Versions
  import opened Bus
  import opened Handles
  import ServiceCodec

  type ServiceSettings = ServiceCodec.ServiceSettings

  function ReadServiceCall(caps: set<Capability>, service: string): Call {
    if ServiceSettings2 in caps then Call(BASE_PATH, Main, GetServiceSettings2, [Arg(Str(service))])
    else Call(BASE_PATH, Main, GetServiceSettings, [Arg(Str(service))])
  }

  function ReadService<W>(serve: Server<W>, s: Session<W>, service: string)
    : (Session<W>, Result<ServiceSettings>)
  {
    var (s', r) := Send(serve, s, ReadServiceCall(s.caps, service));
    (s', if ServiceSettings2 in s.caps then DecodeServiceDict(r) else DecodeServiceTuple(r))
  }

  function DecodeServiceDict(r: Result<Body>): Result<ServiceSettings> {
    match DictIn(r)
    case Fail(e) => Fail(e)
    case Ok(d) => Ok(ServiceCodec.SettingsIn(d))
  }

  function DecodeServiceTuple(r: Result<Body>): Result<ServiceSettings> {
    match TupleIn(r)
    case Fail(e) => Fail(e)
    case Ok(raw) => Ok(ServiceCodec.FromTuple(raw))
  }

  // ------------------------------------------------- permanent services

  function UpdateService<W>(serve: Server<W>, s: Session<W>, h: Handle, z: ServiceSettings)
    : (Session<W>, Handle, Result<Body>)
  {
    CallOn(serve, s, ServiceKind, h, Update, [Arg(ServiceCodec.ToTuple(z))])
  }

  function ReadServiceObject<W>(serve: Server<W>, s: Session<W>, h: Handle)
    : (Session<W>, Handle, Result<ServiceSettings>)
  {
    var (s', h', r) := CallOn(serve, s, ServiceKind, h, GetSettings, []);
    (s', h', DecodeServiceTuple(r))
  }

  /** What a server holds for the service at a path. */
  type ServiceStore<!W> = (W, string) -> Option<seq<Value>>

  /** A server that keeps the tuple written to a service and gives it back on request. */
  ghost predicate KeepsServices<W(!new)>(serve: Server<W>, store: ServiceStore<W>) {
    && (forall w, p, fields :: ServiceKept(serve, store, w, p, fields))
    && (forall w, p :: ServiceReadBack(serve, store, w, p))
  }

  ghost predicate ServiceKept<W>(
      serve: Server<W>, store: ServiceStore<W>, w: W, p: string, fields: seq<Value>)
  {
    var (w', r) := serve(w, ObjectCall(ServiceKind, p, Update, [Arg(Struct(fields))]));
    r.Returned? ==> store(w', p) == Some(fields)
  }

  ghost predicate ServiceReadBack<W>(serve: Server<W>, store: ServiceStore<W>, w: W, p: string) {
    match store(w, p)
    case None => true
    case Some(fields) =>
      var (_, r) := serve(w, ObjectCall(ServiceKind, p, GetSettings, []));
      r.Returned? && r.body.TupleBody? && TupleReply(fields, r.body.fields)
  }

  /** Settings that Update accepted come back without includes and helpers. */
  lemma UpdateThenReadService<W(!new)>(
      serve: Server<W>, store: ServiceStore<W>, s: Session<W>, h: Handle, z: ServiceSettings)
    requires KeepsServices(serve, store)
    requires UpdateService(serve, s, h, z).2.Ok? && UpdateService(serve, s, h, z).1.path != ""
    ensures var (s', h', _) := UpdateService(serve, s, h, z);
            ReadServiceObject(serve, s', h').2 == Ok(z.(includes := [], helpers := []))
  {
    hide TupleReply, ServiceCodec.FromTuple, ServiceCodec.TupleFields;
    var (s', h', _) := UpdateService(serve, s, h, z);
    var (s1, _, _) := Resolve(serve, s, ServiceKind, h);
    var fields := ServiceCodec.TupleFields(z);
    assert ServiceKept(serve, store, s1.world, h'.path, fields);
    var c := ObjectCall(ServiceKind, h'.path, Update, [Arg(Struct(fields))]);
    assert s' == Send(serve, s1, c).0 && serve(s1.world, c).1.Returned?;
    assert ServiceReadBack(serve, store, s'.world, h'.path);
    var (_, r) := serve(s'.world, ObjectCall(ServiceKind, h'.path, GetSettings, []));
    ServiceCodec.TupleRoundTrip(z, r.body.fields);
  }

  /**
   * Copying a runtime service to a permanent one. What ServiceSettings read and Update
   * then wrote is what the permanent service holds if and only if the service has no
   * includes and no helpers; below 1.0 it never has any, and nothing is lost.
   */
  lemma CopiedServiceKeepsAllButItsDictFields<W(!new)>(
      serve: Server<W>, store: ServiceStore<W>, v: Version, s: Session<W>, service: string, h: Handle)
    requires KeepsServices(serve, store) && s.caps == CapsFor(v)
    requires ReadService(serve, s, service).1.Ok?
    requires var (s1, z) := ReadService(serve, s, service);
             UpdateService(serve, s1, h, z.value).2.Ok? && UpdateService(serve, s1, h, z.value).1.path != ""
    ensures var (s1, z) := ReadService(serve, s, service);
            var (s2, h2, _) := UpdateService(serve, s1, h, z.value);
            var held := ReadServiceObject(serve, s2, h2).2;
            && (held == z <==> z.value.includes == [] && z.value.helpers == [])
            && (!AtLeast(v, 1, 0) ==> held == z)
  {
    hide UpdateService, ReadServiceObject, ServiceCodec.SettingsIn;
    var (s1, z) := ReadService(serve, s, service);
    UpdateThenReadService(serve, store, s1, h, z.value);
  }
}
