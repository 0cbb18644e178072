/**
 * What is written at runtime or created is what is then read (zone.go, policy.go,
 * service.go), on servers whose promises are stated call by call.
 */
module WriteThenRead {
  import opened Seqs
  import opened Values
  import opened Boxing
  import opened Versions
  import opened Bus
  import opened Handles
  import opened ZoneTransport
  import opened PolicyTransport
  import opened ServiceTransport
  import opened Gating
  import Errors
  import ZoneCodec
  import PolicyCodec
  import ServiceCodec

  /** What a server holds at runtime under a name. */
  type Runtime<!W> = (W, string) -> Option<Dict>

  // ------------------------------------------------------ runtime zones

  ghost predicate KeepsRuntimeZones<W(!new)>(serve: Server<W>, held: Runtime<W>) {
    && (forall w, zone, d :: RuntimeZoneKept(serve, held, w, zone, d))
    && (forall w, zone :: RuntimeZoneReadBack(serve, held, w, zone))
  }

  ghost predicate RuntimeZoneKept<W>(serve: Server<W>, held: Runtime<W>, w: W, zone: string, d: Dict) {
    var (w', r) :=
      serve(w, Call("/org/fedoraproject/FirewallD1", Zone, SetZoneSettings2, [Arg(Str(zone)), DictArg(d)]));
    r.Returned? ==> held(w', zone) == Some(d)
  }

  ghost predicate RuntimeZoneReadBack<W>(serve: Server<W>, held: Runtime<W>, w: W, zone: string) {
    match held(w, zone)
    case None => true
    case Some(d) =>
      var (_, r) := serve(w, Call("/org/fedoraproject/FirewallD1", Zone, GetZoneSettings2, [Arg(Str(zone))]));
      r.Returned? && r.body.DictBody? && ZoneCodec.DictReply(d, r.body.dict)
  }

  /**
   * Runtime settings that SetSettings wrote are what Settings then reads; where there is
   * no writer, nothing is called and nothing changes.
   */
  lemma SetRuntimeThenRead<W(!new)>(
      serve: Server<W>, held: Runtime<W>, v: Version, s: Session<W>, zone: string, z: ZoneSettings)
    requires KeepsRuntimeZones(serve, held) && s.caps == CapsFor(v)
    ensures var (s', r) := Guarded(serve, s, DictZoneSettings, SetRuntimeCall(zone, z));
            if v.major > 0 || (v.major == 0 && v.minor >= 9) then
              r.Ok? ==> ReadRuntime(serve, s', zone).1
                        == Ok(z.(target := if z.target == "" then "default" else z.target))
            else s' == s && r == Fail(Errors.Sent(Errors.Unsupported))
  {
    hide ZoneCodec.DictOf, ZoneCodec.DictReply, ZoneCodec.SettingsIn, ZoneCodec.FromTuple;
    var (s', r) := Guarded(serve, s, DictZoneSettings, SetRuntimeCall(zone, z));
    if DictZoneSettings in s.caps && r.Ok? {
      var c := SetRuntimeCall(zone, z);
      assert s'.world == serve(s.world, c).0 && serve(s.world, c).1.Returned?;
      assert RuntimeZoneKept(serve, held, s.world, zone, ZoneCodec.DictOf(z));
      assert held(s'.world, zone) == Some(ZoneCodec.DictOf(z));
      assert RuntimeZoneReadBack(serve, held, s'.world, zone);
      var (_, q) := serve(s'.world, ReadRuntimeCall(s'.caps, zone));
      ZoneCodec.DictRoundTrip(z, q.body.dict);
    }
  }

  /** Below 0.9 a runtime zone is read from the main interface's tuple. */
  lemma OldRuntimeZoneIsRead<W>(
      serve: Server<W>, v: Version, s: Session<W>, zone: string, z: ZoneSettings, reply: seq<Value>)
    requires s.caps == CapsFor(v) && v.major == 0 && v.minor < 9
    requires serve(s.world, Call("/org/fedoraproject/FirewallD1", Main, GetZoneSettings, [Arg(Str(zone))])).1
             == Returned(TupleBody(reply))
    requires TupleReply(ZoneCodec.TupleFields(z), reply)
    ensures ReadRuntime(serve, s, zone).1 == Ok(z.(
              target := if z.target == "" then "default" else z.target,
              forward := false, egressPriority := 0, ingressPriority := 0))
  {
    hide ZoneCodec.TupleFields, TupleReply, ZoneCodec.FromTuple, ZoneCodec.SettingsIn;
    ZoneCodec.TupleRoundTrip(z, reply);
  }

  // --------------------------------------------------- runtime policies

  ghost predicate KeepsRuntimePolicies<W(!new)>(serve: Server<W>, held: Runtime<W>) {
    && (forall w, name, d :: RuntimePolicyKept(serve, held, w, name, d))
    && (forall w, name :: RuntimePolicyReadBack(serve, held, w, name))
  }

  ghost predicate RuntimePolicyKept<W>(serve: Server<W>, held: Runtime<W>, w: W, name: string, d: Dict) {
    var (w', r) :=
      serve(w, Call("/org/fedoraproject/FirewallD1", Policy, SetPolicySettings, [Arg(Str(name)), DictArg(d)]));
    r.Returned? ==> held(w', name) == Some(d)
  }

  ghost predicate RuntimePolicyReadBack<W>(serve: Server<W>, held: Runtime<W>, w: W, name: string) {
    match held(w, name)
    case None => true
    case Some(d) =>
      var (_, r) := serve(w, Call("/org/fedoraproject/FirewallD1", Policy, GetPolicySettings, [Arg(Str(name))]));
      r.Returned? && r.body.DictBody? && PolicyCodec.DictReply(d, r.body.dict)
  }

  /** The same for a runtime policy, with the condition on the rich rules. */
  lemma WritePolicyThenRead<W(!new)>(
      serve: Server<W>, held: Runtime<W>, s: Session<W>, name: string, p: PolicySettings)
    requires KeepsRuntimePolicies(serve, held)
    requires Guarded(serve, s, Policies, PolicyCall(WritePolicy(name, p))).1.Ok?
    ensures var s' := Guarded(serve, s, Policies, PolicyCall(WritePolicy(name, p))).0;
            var r := Guarded(serve, s', Policies, PolicyCall(ReadPolicy(name))).1;
            && DictIn(r).Ok?
            && (DecodePolicy(r) == Ok(p.(target := if p.target == "" then "CONTINUE" else p.target))
                <==> RulesStrKey !in DictIn(r).value || p.richRules == [])
  {
    hide PolicyCodec.DictOf, PolicyCodec.DictReply, PolicyCodec.SettingsIn;
    var (s', r) := Guarded(serve, s, Policies, PolicyCall(WritePolicy(name, p)));
    var c := PolicyCall(WritePolicy(name, p));
    assert s'.world == serve(s.world, c).0 && serve(s.world, c).1.Returned?;
    assert RuntimePolicyKept(serve, held, s.world, name, PolicyCodec.DictOf(p));
    assert held(s'.world, name) == Some(PolicyCodec.DictOf(p));
    assert RuntimePolicyReadBack(serve, held, s'.world, name);
    var (_, q) := serve(s'.world, PolicyCall(ReadPolicy(name)));
    PolicyCodec.PolicyRoundTrip(p, q.body.dict);
  }

  // ---------------------------------------------------- created objects

  ghost predicate CreatesPolicies<W(!new)>(serve: Server<W>, dir: Directory<W>, store: PolicyStore<W>) {
    forall w, n, d :: PolicyCreated(serve, dir, store, w, n, d)
  }

  ghost predicate PolicyCreated<W>(
      serve: Server<W>, dir: Directory<W>, store: PolicyStore<W>, w: W, n: string, d: Dict)
  {
    var (w', r) :=
      serve(w, Call("/org/fedoraproject/FirewallD1/config", Config, Bus.AddPolicy, [Arg(Str(n)), DictArg(d)]));
    r.Returned? && r.body.PathBody? ==>
      r.body.path != "" && dir(w', PolicyKind, n) == r.body.path && store(w', r.body.path) == Some(d)
  }

  /** A created policy, read through a handle on its name. */
  lemma CreateThenReadPolicy<W(!new)>(
      serve: Server<W>, dir: Directory<W>, store: PolicyStore<W>, s: Session<W>, name: string, p: PolicySettings)
    requires KeepsPolicies(serve, store) && CreatesPolicies(serve, dir, store)
    requires forall w, n :: Answers(serve, dir, PolicyKind, w, n)
    requires PathIn(Guarded(serve, s, Policies, PolicyCall(CreatePolicy(name, p))).1).Ok?
    ensures var s' := Guarded(serve, s, Policies, PolicyCall(CreatePolicy(name, p))).0;
            var reply := DictIn(CallOn(serve, s', PolicyKind, Handle(name, ""), GetSettings, []).2);
            && reply.Ok?
            && (ReadPolicyObject(serve, s', Handle(name, "")).2
                == Ok(p.(target := if p.target == "" then "CONTINUE" else p.target))
                <==> RulesStrKey !in reply.value || p.richRules == [])
  {
    hide PolicyCodec.DictOf, PolicyCodec.DictReply, PolicyCodec.SettingsIn;
    var (s', r) := Guarded(serve, s, Policies, PolicyCall(CreatePolicy(name, p)));
    var path := PathIn(r).value;
    var c := PolicyCall(CreatePolicy(name, p));
    assert s'.world == serve(s.world, c).0 && serve(s.world, c).1 == Returned(PathBody(path));
    assert PolicyCreated(serve, dir, store, s.world, name, PolicyCodec.DictOf(p));
    assert dir(s'.world, PolicyKind, name) == path && store(s'.world, path) == Some(PolicyCodec.DictOf(p));
    assert Answers(serve, dir, PolicyKind, s'.world, name);
    UnresolvedHandleLooksItsNameUp(serve, s', PolicyKind, Handle(name, ""), GetSettings, []);
    assert PolicyReadBack(serve, store, s'.world, path);
    var (_, q) := serve(s'.world, ObjectCall(PolicyKind, path, GetSettings, []));
    PolicyCodec.PolicyRoundTrip(p, q.body.dict);
  }

  ghost predicate CreatesServices<W(!new)>(serve: Server<W>, dir: Directory<W>, store: ServiceStore<W>) {
    forall w, n, fields :: ServiceCreated(serve, dir, store, w, n, fields)
  }

  ghost predicate ServiceCreated<W>(
      serve: Server<W>, dir: Directory<W>, store: ServiceStore<W>, w: W, n: string, fields: seq<Value>)
  {
    var args := [Arg(Str(n)), Arg(Struct(fields))];
    var (w', r) := serve(w, Call("/org/fedoraproject/FirewallD1/config", Config, Bus.AddService, args));
    r.Returned? && r.body.PathBody? ==>
      r.body.path != "" && dir(w', ServiceKind, n) == r.body.path && store(w', r.body.path) == Some(fields)
  }

  /** A created service, read through a handle on its name, lacks its includes and helpers. */
  lemma CreateThenReadService<W(!new)>(
      serve: Server<W>, dir: Directory<W>, store: ServiceStore<W>, s: Session<W>, name: string, z: ServiceSettings)
    requires KeepsServices(serve, store) && CreatesServices(serve, dir, store)
    requires forall w, n :: Answers(serve, dir, ServiceKind, w, n)
    requires PathIn(Send(serve, s, AddServiceCall(name, z)).1).Ok?
    ensures var s' := Send(serve, s, AddServiceCall(name, z)).0;
            ReadServiceObject(serve, s', Handle(name, "")).2 == Ok(z.(includes := [], helpers := []))
  {
    hide ServiceCodec.TupleFields, TupleReply, ServiceCodec.FromTuple;
    var (s', r) := Send(serve, s, AddServiceCall(name, z));
    var path := PathIn(r).value;
    var fields := ServiceCodec.TupleFields(z);
    var c := AddServiceCall(name, z);
    assert s'.world == serve(s.world, c).0 && serve(s.world, c).1 == Returned(PathBody(path));
    assert ServiceCreated(serve, dir, store, s.world, name, fields);
    assert dir(s'.world, ServiceKind, name) == path && store(s'.world, path) == Some(fields);
    assert Answers(serve, dir, ServiceKind, s'.world, name);
    UnresolvedHandleLooksItsNameUp(serve, s', ServiceKind, Handle(name, ""), GetSettings, []);
    assert ServiceReadBack(serve, store, s'.world, path);
    var (_, q) := serve(s'.world, ObjectCall(ServiceKind, path, GetSettings, []));
    ServiceCodec.TupleRoundTrip(z, q.body.fields);
  }

  // --------------------------------------------------- runtime services

  /** A service the server presents is read whole from 1.0 on, and without the dict fields before. */
  lemma PresentedServiceIsReadAtRuntime<W>(
      serve: Server<W>, v: Version, s: Session<W>, name: string, z: ServiceSettings, d: Dict, fields: seq<Value>)
    requires s.caps == CapsFor(v) && v.major >= 0 && v.minor >= 0
    requires ServiceCodec.Presents(z, d) && TupleReply(ServiceCodec.TupleFields(z), fields)
    requires serve(s.world, Call("/org/fedoraproject/FirewallD1", Main, GetServiceSettings2, [Arg(Str(name))])).1
             == Returned(DictBody(d))
    requires serve(s.world, Call("/org/fedoraproject/FirewallD1", Main, GetServiceSettings, [Arg(Str(name))])).1
             == Returned(TupleBody(fields))
    ensures ReadService(serve, s, name).1 == Ok(if v.major >= 1 then z else z.(includes := [], helpers := []))
  {
    hide ServiceCodec.TupleFields, TupleReply, ServiceCodec.FromTuple, ServiceCodec.SettingsIn, ServiceCodec.Presents;
    ServiceCodec.PresentedServiceIsRead(z, d);
    ServiceCodec.TupleRoundTrip(z, fields);
  }

  // ------------------------------------------------------ guarded calls

  /** The remaining guarded operations, call by call. */
  lemma GuardedCallsInFull<W>(serve: Server<W>, v: Version, s: Session<W>)
    requires s.caps == CapsFor(v) && v.major >= 0 && v.minor >= 0
    ensures v.major >= 1 ==>
              Guarded(serve, s, Versions.ResetToDefaults, RESET_CALL)
              == Send(serve, s, Call("/org/fedoraproject/FirewallD1", Main, Bus.ResetToDefaults, []))
    ensures v.major > 0 || v.minor >= 9 ==>
              && Guarded(serve, s, Policies, PolicyCall(ListRuntime))
                 == Send(serve, s, Call("/org/fedoraproject/FirewallD1", Policy, GetPolicies, []))
              && Guarded(serve, s, Policies, PolicyCall(ListActive))
                 == Send(serve, s, Call("/org/fedoraproject/FirewallD1", Policy, GetActivePolicies, []))
              && Guarded(serve, s, Policies, PolicyCall(ListNames))
                 == Send(serve, s, Call("/org/fedoraproject/FirewallD1/config", Config, GetPolicyNames, []))
              && Guarded(serve, s, Policies, PolicyCall(ListPaths))
                 == Send(serve, s, Call("/org/fedoraproject/FirewallD1/config", Config, ListPolicies, []))
  {
  }

  /** Each include operation is its own call on the service's object. */
  lemma IncludeCallsInFull<W>(serve: Server<W>, s: Session<W>, h: Handle, service: string)
    requires h.path != ""
    ensures forall i: Include :: i in {AddIt(service), DropIt(service), AskIt(service), ListThem} ==>
              var call :=
                match i
                case AddIt(_) => Call(h.path, ConfigService, AddInclude, [Arg(Str(service))])
                case DropIt(_) => Call(h.path, ConfigService, RemoveInclude, [Arg(Str(service))])
                case AskIt(_) => Call(h.path, ConfigService, QueryInclude, [Arg(Str(service))])
                case ListThem => Call(h.path, ConfigService, GetIncludes, []);
              ServiceHandleOp(serve, s, h, OfInclude(i)) == (Send(serve, s, call).0, h)
  {
    hide ServiceCodec.TupleFields;
  }
}
