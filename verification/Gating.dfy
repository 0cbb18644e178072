/**
 * Which methods a client may emit (firewalld.go, zone.go, config.go, policy.go,
 * service.go). The zone transports, the policies, getServiceSettings2 and resetToDefaults
 * follow the capability set derived from the server's version; the permanent service
 * operations follow nothing, and this module says exactly what that costs.
 */
module Gating {
  import opened Seqs
  import opened Values
  import opened Errors
  import opened Versions
  import opened Bus
  import opened Handles
  import opened ZoneTransport
  import opened PolicyTransport
  import opened ServiceTransport
  import ZoneCodec
  import PolicyCodec
  import ServiceCodec

  // --------------------------------------------------------- operations

  /** A call that is refused with ErrUnsupported when the capability is missing. */
  function Guarded<W>(serve: Server<W>, s: Session<W>, cap: Capability, c: Call): (Session<W>, Result<Body>) {
    if cap !in s.caps then (s, Fail(UNSUPPORTED)) else Send(serve, s, c)
  }

  const RESET_CALL := Call(BASE_PATH, Main, Bus.ResetToDefaults, [])

  function SetRuntimeCall(zone: string, z: ZoneSettings): Call {
    Call(BASE_PATH, Zone, SetZoneSettings2, [Arg(Str(zone)), DictArgOf(z)])
  }

  function ReadRuntimeCall(caps: set<Capability>, zone: string): Call {
    if DictZoneSettings in caps then Call(BASE_PATH, Zone, GetZoneSettings2, [Arg(Str(zone))])
    else Call(BASE_PATH, Main, GetZoneSettings, [Arg(Str(zone))])
  }

  function ReadRuntime<W>(serve: Server<W>, s: Session<W>, zone: string): (Session<W>, Result<ZoneSettings>) {
    var (s', r) := Send(serve, s, ReadRuntimeCall(s.caps, zone));
    (s', if DictZoneSettings in s.caps then DecodeDict(r) else DecodeTuple(r))
  }

  /** The policy operations that are not made through a handle; all are guarded. */
  datatype PolicyRequest =
    | ListRuntime | ListActive | ReadPolicy(name: string) | WritePolicy(name: string, p: PolicyCodec.PolicySettings)
    | ListNames | ListPaths | CreatePolicy(name: string, p: PolicyCodec.PolicySettings)

  function PolicyCall(q: PolicyRequest): Call {
    match q
    case ListRuntime => Call(BASE_PATH, Policy, GetPolicies, [])
    case ListActive => Call(BASE_PATH, Policy, GetActivePolicies, [])
    case ReadPolicy(n) => Call(BASE_PATH, Policy, GetPolicySettings, [Arg(Str(n))])
    case WritePolicy(n, p) => Call(BASE_PATH, Policy, SetPolicySettings, [Arg(Str(n)), DictArg(PolicyCodec.DictOf(p))])
    case ListNames => Call(CONFIG_PATH, Config, GetPolicyNames, [])
    case ListPaths => Call(CONFIG_PATH, Config, ListPolicies, [])
    case CreatePolicy(n, p) => Call(CONFIG_PATH, Config, AddPolicy, [Arg(Str(n)), DictArg(PolicyCodec.DictOf(p))])
  }

  // --------------------------------------------------------------- runs

  /** The include operations of a service handle, made for firewalld 1.0 and later. */
  datatype Include = AddIt(service: string) | DropIt(service: string) | AskIt(service: string) | ListThem

  function IncludeMethod(i: Include): Method {
    match i
    case AddIt(_) => AddInclude
    case DropIt(_) => RemoveInclude
    case AskIt(_) => QueryInclude
    case ListThem => GetIncludes
  }

  function IncludeArgs(i: Include): seq<Arg> {
    if i.ListThem? then [] else [Arg(Str(i.service))]
  }

  function AddServiceCall(name: string, z: ServiceCodec.ServiceSettings): Call {
    Call(CONFIG_PATH, Config, Bus.AddService, [Arg(Str(name)), Arg(ServiceCodec.ToTuple(z))])
  }

  /** What a caller may do through a zone, policy or service handle. */
  datatype HandleOp =
    | ReadIt
    | WriteZone(z: ZoneSettings)
    | WritePolicyDict(p: PolicyCodec.PolicySettings)
    | WriteService(sv: ServiceCodec.ServiceSettings)
    | OfInclude(i: Include)
    | RenameIt(name: string)
    | RemoveIt
    | ElementOp(member: ElementName, args: seq<Arg>)

  datatype Op =
    | Reset
    | SetRuntime(zone: string, z: ZoneSettings)
    | GetRuntime(zone: string)
    | GetService(service: string)
    | OfPolicy(q: PolicyRequest)
    | Create(name: string, z: ZoneSettings)
    | CreateService(service: string, sv: ServiceCodec.ServiceSettings)
    | RuntimeElement(member: ElementName, args: seq<Arg>)
    | OpenHandle(id: nat, k: Kind, name: string)
    | OnHandle(id: nat, op: HandleOp)

  /** A client: its session and the handles it holds. */
  datatype Client<W> = Client(s: Session<W>, handles: map<nat, (Kind, Handle)>)

  function ZoneHandleOp<W>(serve: Server<W>, s: Session<W>, h: Handle, op: HandleOp): (Session<W>, Handle) {
    match op
    case ReadIt => var (s', h', _) := ReadZone(serve, s, h); (s', h')
    case WriteZone(z) => var (s', h', _) := UpdateZone(serve, s, h, z); (s', h')
    case RenameIt(n) => var (s', h', _) := RenameTo(serve, s, ZoneKind, h, n); (s', h')
    case RemoveIt => var (s', h', _) := CallOn(serve, s, ZoneKind, h, Remove, []); (s', h')
    case ElementOp(n, args) => var (s', h', _) := CallOn(serve, s, ZoneKind, h, Element(n), args); (s', h')
    case WritePolicyDict(_) | WriteService(_) | OfInclude(_) => (s, h)
  }

  function PolicyHandleOp<W>(serve: Server<W>, s: Session<W>, h: Handle, op: HandleOp): (Session<W>, Handle) {
    match op
    case ReadIt => var (s', h', _) := ReadPolicyObject(serve, s, h); (s', h')
    case WritePolicyDict(p) => var (s', h', _) := UpdatePolicy(serve, s, h, p); (s', h')
    case RenameIt(n) => var (s', h', _) := RenameTo(serve, s, PolicyKind, h, n); (s', h')
    case RemoveIt => var (s', h', _) := CallOn(serve, s, PolicyKind, h, Remove, []); (s', h')
    case WriteZone(_) | WriteService(_) | OfInclude(_) | ElementOp(_, _) => (s, h)
  }

  function ServiceHandleOp<W>(serve: Server<W>, s: Session<W>, h: Handle, op: HandleOp): (Session<W>, Handle) {
    match op
    case ReadIt => var (s', h', _) := ReadServiceObject(serve, s, h); (s', h')
    case WriteService(sv) => var (s', h', _) := UpdateService(serve, s, h, sv); (s', h')
    case OfInclude(i) =>
      var (s', h', _) := CallOn(serve, s, ServiceKind, h, IncludeMethod(i), IncludeArgs(i)); (s', h')
    case RemoveIt => var (s', h', _) := CallOn(serve, s, ServiceKind, h, Remove, []); (s', h')
    case ElementOp(n, args) => var (s', h', _) := CallOn(serve, s, ServiceKind, h, Element(n), args); (s', h')
    case WriteZone(_) | WritePolicyDict(_) | RenameIt(_) => (s, h)
  }

  function HandleStep<W>(serve: Server<W>, s: Session<W>, k: Kind, h: Handle, op: HandleOp): (Session<W>, Handle) {
    match k
    case ZoneKind => ZoneHandleOp(serve, s, h, op)
    case PolicyKind => PolicyHandleOp(serve, s, h, op)
    case ServiceKind => ServiceHandleOp(serve, s, h, op)
  }

  function Exec<W>(serve: Server<W>, c: Client<W>, op: Op): Client<W> {
    match op
    case Reset => c.(s := Guarded(serve, c.s, Versions.ResetToDefaults, RESET_CALL).0)
    case SetRuntime(zone, z) => c.(s := Guarded(serve, c.s, DictZoneSettings, SetRuntimeCall(zone, z)).0)
    case GetRuntime(zone) => c.(s := ReadRuntime(serve, c.s, zone).0)
    case GetService(service) => c.(s := ReadService(serve, c.s, service).0)
    case OfPolicy(q) => c.(s := Guarded(serve, c.s, Policies, PolicyCall(q)).0)
    case Create(name, z) => c.(s := CreateZone(serve, c.s, name, z).0)
    case CreateService(name, sv) => c.(s := Send(serve, c.s, AddServiceCall(name, sv)).0)
    case RuntimeElement(m, args) => c.(s := Send(serve, c.s, Call(BASE_PATH, Zone, Element(m), args)).0)
    case OpenHandle(id, k, name) => c.(handles := c.handles[id := (k, Handle(name, ""))])
    case OnHandle(id, hop) =>
      if id !in c.handles then c
      else
        var (k, h) := c.handles[id];
        var (s', h') := HandleStep(serve, c.s, k, h, hop);
        Client(s', c.handles[id := (k, h')])
  }

  function ExecAll<W>(serve: Server<W>, c: Client<W>, ops: seq<Op>): Client<W> {
    if ops == [] then c else Exec(serve, ExecAll(serve, c, ops[..|ops| - 1]), ops[|ops| - 1])
  }

  /** Connecting reads the version property; without it there is no client. */
  function Connect<W>(serve: Server<W>, world: W): Result<(Version, Client<W>)> {
    var (s, r) := Send(serve, Session({}, world, []), VERSION_CALL);
    match VersionIn(r)
    case Fail(e) => Fail(e)
    case Ok(v) => Ok((v, Client(s.(caps := CapsFor(v)), map[])))
  }

  /**
   * Against a server that reports a printed release, connecting succeeds with exactly
   * that version and exactly the capabilities released by then, after that one call.
   */
  lemma ConnectReadsTheVersion<W>(
      serve: Server<W>, world: W, major: nat, minor: nat, patch: nat, suffix: string)
    requires major < 0x8000_0000_0000_0000 && minor < 0x8000_0000_0000_0000 && patch < 0x8000_0000_0000_0000
    requires suffix == "" || !('0' <= suffix[0] <= '9')
    requires var raw := Decimal(major) + "." + (Decimal(minor) + "." + (Decimal(patch) + suffix));
             serve(world, Call("/org/fedoraproject/FirewallD1", Properties, Get,
                               [Arg(Str("org.fedoraproject.FirewallD1")), Arg(Str("version"))])).1
             == Returned(VariantBody(Str(raw)))
    ensures Connect(serve, world).Ok?
    ensures var raw := Decimal(major) + "." + (Decimal(minor) + "." + (Decimal(patch) + suffix));
            var (v, c) := Connect(serve, world).value;
            && v == Version(major, minor, patch, raw)
            && c.handles == map[]
            && (forall cap :: cap in {DictZoneSettings, Policies, Versions.AddZone2} ==>
                  (cap in c.s.caps <==> major > 0 || minor >= 9))
            && (forall cap :: cap in {ServiceSettings2, Versions.ResetToDefaults} ==>
                  (cap in c.s.caps <==> major >= 1))
  {
    hide Decimal, Parsed, CapsFor;
    PrintParse(major, minor, patch, suffix);
    var (v, c) := Connect(serve, world).value;
    CapsInPlainTerms(v);
  }

  /**
   * A version that is not a string reads as 0.0.0, without capabilities; a failed call or
   * any other reply leaves no client; and the one call made is the question itself.
   */
  lemma ConnectOtherwise<W>(serve: Server<W>, world: W)
    ensures var asked := Call("/org/fedoraproject/FirewallD1", Properties, Get,
                              [Arg(Str("org.fedoraproject.FirewallD1")), Arg(Str("version"))]);
            var (w, reply) := serve(world, asked);
            match reply
            case Failed(e) => Connect(serve, world) == Fail(MapError(e))
            case Returned(VariantBody(x)) =>
              && Connect(serve, world).Ok?
              && var (v, c) := Connect(serve, world).value;
              && c.s.trace == [asked] && c.s.world == w
              && (!x.Str? ==> v == Version(0, 0, 0, "") && c.s.caps == {})
              && (x.Str? ==> v == Parsed(x.s))
            case Returned(_) => Connect(serve, world).Fail?
  {
    assert Parsed("") == Version(0, 0, 0, "");
  }

  // -------------------------------------------------------------- gates

  /** The release that introduced the method a call uses, when that matters. */
  function Introduced(c: Call): Option<(int, int)> {
    match c.name
    case GetSettings2 | Update2 | GetZoneSettings2 | SetZoneSettings2 | AddZone2 => Some((0, 9))
    case GetPolicies | GetActivePolicies | GetPolicySettings | SetPolicySettings => Some((0, 9))
    case GetPolicyNames | ListPolicies | AddPolicy | GetPolicyByName => Some((0, 9))
    case GetServiceSettings2 | ResetToDefaults => Some((1, 0))
    case AddInclude | RemoveInclude | QueryInclude | GetIncludes => Some((1, 0))
    case _ => if c.iface.Policy? || c.iface.ConfigPolicy? then Some((0, 9)) else None
  }

  /** The release whose dict transport replaced the tuple method a call uses. */
  function Superseded(c: Call): Option<(int, int)> {
    match c.name
    case GetSettings | Update =>
      if c.iface.ConfigZone? then Some((0, 9)) else if c.iface.ConfigService? then Some((1, 0)) else None
    case GetZoneSettings | AddZone => Some((0, 9))
    case GetServiceSettings | AddService => Some((1, 0))
    case _ => None
  }

  /** The permanent service methods, which no capability guards. */
  predicate Unguarded(c: Call) {
    match c.name
    case AddInclude | RemoveInclude | QueryInclude | GetIncludes | AddService => true
    case GetSettings | Update => c.iface.ConfigService?
    case _ => false
  }

  predicate Reached(v: Version, release: (int, int)) {
    NotAfter(release, (v.major, v.minor))
  }

  /**
   * What one may ask of a call: that the server's release has its method, that the
   * release has no successor of it, or both unless it is an unguarded service method.
   */
  datatype Gate = NotTooNew | NotTooOld | GuardedOnly

  predicate Meets(g: Gate, v: Version, c: Call) {
    var available := Introduced(c).Some? ==> Reached(v, Introduced(c).value);
    var current := Superseded(c).Some? ==> !Reached(v, Superseded(c).value);
    match g
    case NotTooNew => available
    case NotTooOld => current
    case GuardedOnly => Unguarded(c) || (available && current)
  }

  predicate AllMeet(g: Gate, v: Version, trace: seq<Call>) {
    forall i :: 0 <= i < |trace| ==> Meets(g, v, trace[i])
  }

  predicate Permitted(v: Version, c: Call) { Meets(GuardedOnly, v, c) }

  predicate Gated<W>(v: Version, s: Session<W>) {
    s.caps == CapsFor(v) && AllMeet(GuardedOnly, v, s.trace)
  }

  /** The versions on which the unguarded methods fail a gate. */
  predicate Exposed(g: Gate, v: Version) {
    match g
    case NotTooNew => !Reached(v, (1, 0))
    case NotTooOld => Reached(v, (1, 0))
    case GuardedOnly => false
  }

  /** The service handle operations that fail a gate on such versions, once they reach the object. */
  predicate Risky(g: Gate, op: HandleOp) {
    match g
    case NotTooNew => op.OfInclude?
    case NotTooOld => op.ReadIt? || op.WriteService?
    case GuardedOnly => false
  }

  /** The operation is about to use an unguarded method that may fail the gate. */
  predicate Offends<W>(g: Gate, serve: Server<W>, c: Client<W>, op: Op) {
    match op
    case CreateService(_, _) => g.NotTooOld?
    case OnHandle(id, hop) =>
      && id in c.handles && c.handles[id].0.ServiceKind? && Risky(g, hop)
      && Resolve(serve, c.s, ServiceKind, c.handles[id].1).2.Ok?
    case _ => false
  }

  predicate SomeOffends<W>(g: Gate, serve: Server<W>, c: Client<W>, ops: seq<Op>) {
    ops != [] &&
    var prefix := ops[..|ops| - 1];
    SomeOffends(g, serve, c, prefix) || Offends(g, serve, ExecAll(serve, c, prefix), ops[|ops| - 1])
  }

  // --------------------------------------------------------- each step

  lemma SendMeets<W>(g: Gate, serve: Server<W>, v: Version, s: Session<W>, c: Call)
    ensures AllMeet(g, v, Send(serve, s, c).0.trace) <==> AllMeet(g, v, s.trace) && Meets(g, v, c)
    ensures Send(serve, s, c).0.caps == s.caps
  {
    hide Meets;
    var trace := s.trace + [c];
    assert trace[|s.trace|] == c;
    assert forall i :: 0 <= i < |s.trace| ==> trace[i] == s.trace[i];
  }

  lemma SendKeepsGate<W>(serve: Server<W>, v: Version, s: Session<W>, c: Call)
    requires Gated(v, s) && Permitted(v, c)
    ensures Gated(v, Send(serve, s, c).0)
  {
    SendMeets(GuardedOnly, serve, v, s, c);
  }

  /** Lookups always meet the gates where they are not refused. */
  lemma LookupsMeet(g: Gate, v: Version, k: Kind, name: string)
    ensures !k.PolicyKind? || Policies in CapsFor(v) ==> Meets(g, v, LookupCall(k, name))
  {
  }

  /** An object's path plays no part in the gates. */
  lemma PathsDoNotMatter(g: Gate, v: Version, k: Kind, path: string, m: Method, args: seq<Arg>)
    ensures Meets(g, v, ObjectCall(k, path, m, args)) <==> Meets(g, v, ObjectCall(k, "", m, args))
  {
  }

  lemma ResolveMeets<W>(g: Gate, serve: Server<W>, v: Version, s: Session<W>, k: Kind, h: Handle)
    requires s.caps == CapsFor(v)
    ensures var s' := Resolve(serve, s, k, h).0;
            s'.caps == s.caps && (AllMeet(g, v, s'.trace) <==> AllMeet(g, v, s.trace))
  {
    hide Meets, AllMeet, LookupCall, ObjectCall, CapsFor, PathIn;
    LookupsMeet(g, v, k, h.name);
    SendMeets(g, serve, v, s, LookupCall(k, h.name));
  }

  /** A call through a handle meets a gate unless it reaches its object with a method that does not. */
  lemma CallOnMeets<W>(
      g: Gate, serve: Server<W>, v: Version, s: Session<W>, k: Kind, h: Handle, m: Method, args: seq<Arg>)
    requires s.caps == CapsFor(v)
    ensures var s' := CallOn(serve, s, k, h, m, args).0;
            && s'.caps == s.caps
            && (AllMeet(g, v, s'.trace) <==>
                AllMeet(g, v, s.trace)
                && (Resolve(serve, s, k, h).2.Ok? ==> Meets(g, v, ObjectCall(k, "", m, args))))
  {
    hide Meets, AllMeet, LookupCall, ObjectCall, CapsFor, Resolve;
    ResolveMeets(g, serve, v, s, k, h);
    var (s', _, p) := Resolve(serve, s, k, h);
    if p.Ok? {
      PathsDoNotMatter(g, v, k, p.value, m, args);
      SendMeets(g, serve, v, s', ObjectCall(k, p.value, m, args));
    }
  }

  lemma CallOnKeepsGate<W>(
      serve: Server<W>, v: Version, s: Session<W>, k: Kind, h: Handle, m: Method, args: seq<Arg>)
    requires Gated(v, s) && (Refused(s, k) || Permitted(v, ObjectCall(k, "", m, args)))
    ensures Gated(v, CallOn(serve, s, k, h, m, args).0)
  {
    CallOnMeets(GuardedOnly, serve, v, s, k, h, m, args);
  }

  /** The object methods of zone and policy handles meet every gate where they are not refused. */
  lemma ObjectMethodsMeet(g: Gate, v: Version, n: ElementName, args: seq<Arg>)
    ensures var m := if DictZoneSettings in CapsFor(v) then GetSettings2 else GetSettings;
            Meets(g, v, ObjectCall(ZoneKind, "", m, args))
    ensures var m := if DictZoneSettings in CapsFor(v) then Update2 else Update;
            Meets(g, v, ObjectCall(ZoneKind, "", m, args))
    ensures forall k: Kind :: !k.PolicyKind? ==>
              && Meets(g, v, ObjectCall(k, "", Remove, args)) && Meets(g, v, ObjectCall(k, "", Rename, args))
              && Meets(g, v, ObjectCall(k, "", Element(n), args))
    ensures Policies in CapsFor(v) ==>
              forall m: Method :: m in {GetSettings, Update, Rename, Remove} ==>
                Meets(g, v, ObjectCall(PolicyKind, "", m, args))
  {
  }

  lemma ServiceMethodsMeet(g: Gate, v: Version, i: Include, args: seq<Arg>)
    ensures Meets(g, v, ObjectCall(ServiceKind, "", IncludeMethod(i), args)) <==> !(Exposed(g, v) && g.NotTooNew?)
    ensures forall m: Method :: m in {GetSettings, Update} ==>
              (Meets(g, v, ObjectCall(ServiceKind, "", m, args)) <==> !(Exposed(g, v) && g.NotTooOld?))
  {
  }

  lemma ZoneHandleOpMeets<W>(g: Gate, serve: Server<W>, v: Version, s: Session<W>, h: Handle, op: HandleOp)
    requires s.caps == CapsFor(v)
    ensures var s' := ZoneHandleOp(serve, s, h, op).0;
            s'.caps == s.caps && (AllMeet(g, v, s'.trace) <==> AllMeet(g, v, s.trace))
  {
    hide CallOn, Meets, AllMeet, CapsFor, ObjectCall, ZoneCodec.DictOf, ZoneCodec.TupleFields;
    var (m, args) :=
      match op
      case ReadIt => (if DictZoneSettings in s.caps then GetSettings2 else GetSettings, [])
      case WriteZone(z) =>
        if DictZoneSettings in s.caps then (Update2, [DictArgOf(z)]) else (Update, [TupleArg(z)])
      case RenameIt(n) => (Rename, [Arg(Str(n))])
      case ElementOp(n, args) => (Element(n), args)
      case _ => (Remove, []);
    CallOnMeets(g, serve, v, s, ZoneKind, h, m, args);
    ObjectMethodsMeet(g, v, if op.ElementOp? then op.member else "", args);
  }

  lemma PolicyHandleOpMeets<W>(g: Gate, serve: Server<W>, v: Version, s: Session<W>, h: Handle, op: HandleOp)
    requires s.caps == CapsFor(v)
    ensures var s' := PolicyHandleOp(serve, s, h, op).0;
            s'.caps == s.caps && (AllMeet(g, v, s'.trace) <==> AllMeet(g, v, s.trace))
  {
    hide CallOn, Meets, AllMeet, CapsFor, ObjectCall, PolicyCodec.DictOf;
    var (m, args) :=
      match op
      case ReadIt => (GetSettings, [])
      case WritePolicyDict(p) => (Update, [DictArg(PolicyCodec.DictOf(p))])
      case RenameIt(n) => (Rename, [Arg(Str(n))])
      case _ => (Remove, []);
    CallOnMeets(g, serve, v, s, PolicyKind, h, m, args);
    ObjectMethodsMeet(g, v, "", args);
  }

  lemma ServiceHandleOpMeets<W>(g: Gate, serve: Server<W>, v: Version, s: Session<W>, h: Handle, op: HandleOp)
    requires s.caps == CapsFor(v)
    ensures var s' := ServiceHandleOp(serve, s, h, op).0;
            && s'.caps == s.caps
            && (AllMeet(g, v, s'.trace) <==>
                AllMeet(g, v, s.trace)
                && !(Exposed(g, v) && Risky(g, op) && Resolve(serve, s, ServiceKind, h).2.Ok?))
  {
    hide CallOn, Meets, AllMeet, CapsFor, ObjectCall, Resolve, ServiceCodec.TupleFields;
    var (m, args) :=
      match op
      case ReadIt => (GetSettings, [])
      case WriteService(sv) => (Update, [Arg(ServiceCodec.ToTuple(sv))])
      case OfInclude(i) => (IncludeMethod(i), IncludeArgs(i))
      case ElementOp(n, args) => (Element(n), args)
      case _ => (Remove, []);
    CallOnMeets(g, serve, v, s, ServiceKind, h, m, args);
    ObjectMethodsMeet(g, v, if op.ElementOp? then op.member else "", args);
    ServiceMethodsMeet(g, v, if op.OfInclude? then op.i else ListThem, args);
  }

  /** Each guard admits only calls its capability permits. */
  lemma GuardsPermit(g: Gate, v: Version, zone: string, z: ZoneSettings, q: PolicyRequest)
    ensures Versions.ResetToDefaults in CapsFor(v) ==> Meets(g, v, RESET_CALL)
    ensures DictZoneSettings in CapsFor(v) ==> Meets(g, v, SetRuntimeCall(zone, z))
    ensures Policies in CapsFor(v) ==> Meets(g, v, PolicyCall(q))
  {
    hide ZoneCodec.DictOf, PolicyCodec.DictOf, Meets;
    if Policies in CapsFor(v) { PolicyCallsMeet(g, v, PolicyCall(q)); }
    SettingCallsMeet(g, v, RESET_CALL);
    SettingCallsMeet(g, v, SetRuntimeCall(zone, z));
  }

  lemma PolicyCallsMeet(g: Gate, v: Version, c: Call)
    requires Policies in CapsFor(v)
    requires c.name in {
               GetPolicies, GetActivePolicies, GetPolicySettings, SetPolicySettings,
               GetPolicyNames, ListPolicies, AddPolicy
             }
    ensures Meets(g, v, c)
  {
  }

  lemma SettingCallsMeet(g: Gate, v: Version, c: Call)
    ensures c.name.ResetToDefaults? && Versions.ResetToDefaults in CapsFor(v) ==> Meets(g, v, c)
    ensures c.name.SetZoneSettings2? && DictZoneSettings in CapsFor(v) ==> Meets(g, v, c)
  {
  }

  /** Each choice between two transports picks one the version permits; creating a service has none. */
  lemma ChoicesPermit(g: Gate, v: Version, name: string, z: ZoneSettings, sv: ServiceCodec.ServiceSettings)
    ensures Meets(g, v, ReadRuntimeCall(CapsFor(v), name))
    ensures Meets(g, v, ReadServiceCall(CapsFor(v), name))
    ensures Meets(g, v, AddZoneCall(CapsFor(v), name, z))
    ensures Meets(g, v, AddServiceCall(name, sv)) <==> !(Exposed(g, v) && g.NotTooOld?)
  {
    hide ZoneCodec.DictOf, ZoneCodec.TupleFields, ServiceCodec.TupleFields;
  }

  lemma ExecMeets<W>(g: Gate, serve: Server<W>, v: Version, c: Client<W>, op: Op)
    requires c.s.caps == CapsFor(v)
    ensures var c' := Exec(serve, c, op);
            && c'.s.caps == c.s.caps
            && (AllMeet(g, v, c'.s.trace) <==>
                AllMeet(g, v, c.s.trace) && !(Exposed(g, v) && Offends(g, serve, c, op)))
  {
    hide ZoneHandleOp, PolicyHandleOp, ServiceHandleOp, CapsFor, Meets, AllMeet, Risky, Resolve;
    hide SetRuntimeCall, PolicyCall, ReadRuntimeCall, ReadServiceCall, AddZoneCall, AddServiceCall;
    match op {
      case Reset =>
        GuardsPermit(g, v, "", ZoneCodec.ZERO, ListRuntime);
        SendMeets(g, serve, v, c.s, RESET_CALL);
      case SetRuntime(zone, z) =>
        GuardsPermit(g, v, zone, z, ListRuntime);
        SendMeets(g, serve, v, c.s, SetRuntimeCall(zone, z));
      case GetRuntime(zone) =>
        ChoicesPermit(g, v, zone, ZoneCodec.ZERO, ServiceCodec.ZERO);
        SendMeets(g, serve, v, c.s, ReadRuntimeCall(c.s.caps, zone));
      case GetService(service) =>
        ChoicesPermit(g, v, service, ZoneCodec.ZERO, ServiceCodec.ZERO);
        SendMeets(g, serve, v, c.s, ReadServiceCall(c.s.caps, service));
      case OfPolicy(q) =>
        GuardsPermit(g, v, "", ZoneCodec.ZERO, q);
        SendMeets(g, serve, v, c.s, PolicyCall(q));
      case Create(name, z) =>
        ChoicesPermit(g, v, name, z, ServiceCodec.ZERO);
        SendMeets(g, serve, v, c.s, AddZoneCall(c.s.caps, name, z));
      case CreateService(name, sv) =>
        ChoicesPermit(g, v, name, ZoneCodec.ZERO, sv);
        SendMeets(g, serve, v, c.s, AddServiceCall(name, sv));
      case RuntimeElement(m, args) =>
        ElementsMeet(g, v, m, args);
        SendMeets(g, serve, v, c.s, Call(BASE_PATH, Zone, Element(m), args));
      case OpenHandle(_, _, _) =>
      case OnHandle(id, hop) =>
        if id in c.handles {
          var (k, h) := c.handles[id];
          match k {
            case ZoneKind => ZoneHandleOpMeets(g, serve, v, c.s, h, hop);
            case PolicyKind => PolicyHandleOpMeets(g, serve, v, c.s, h, hop);
            case ServiceKind => ServiceHandleOpMeets(g, serve, v, c.s, h, hop);
          }
        }
    }
  }

  lemma ElementsMeet(g: Gate, v: Version, m: ElementName, args: seq<Arg>)
    ensures Meets(g, v, Call(BASE_PATH, Zone, Element(m), args))
  {
  }

  // ----------------------------------------------------------- results

  lemma {:induction false} ExecAllMeets<W>(g: Gate, serve: Server<W>, v: Version, c: Client<W>, ops: seq<Op>)
    requires c.s.caps == CapsFor(v)
    ensures var c' := ExecAll(serve, c, ops);
            && c'.s.caps == c.s.caps
            && (AllMeet(g, v, c'.s.trace) <==>
                AllMeet(g, v, c.s.trace) && !(Exposed(g, v) && SomeOffends(g, serve, c, ops)))
  {
    hide AllMeet, Exposed, Offends, Exec, CapsFor;
    if ops != [] {
      ExecAllMeets(g, serve, v, c, ops[..|ops| - 1]);
      ExecMeets(g, serve, v, ExecAll(serve, c, ops[..|ops| - 1]), ops[|ops| - 1]);
    }
  }

  /**
   * What the capabilities do not guard, exactly. Over every client run, against every
   * server: every call uses a method the reported version has if and only if the version
   * is at least 1.0 or no include operation of the run reaches its service; and no call
   * uses a tuple method the version has superseded if and only if the version is below
   * 1.0 or the run neither creates a service nor reads or writes one through a handle
   * that reaches it.
   */
  lemma RunMeetsGateExactlyWhen<W>(g: Gate, serve: Server<W>, world: W, ops: seq<Op>)
    requires Connect(serve, world).Ok?
    ensures var (v, c) := Connect(serve, world).value;
            AllMeet(g, v, ExecAll(serve, c, ops).s.trace) <==> !(Exposed(g, v) && SomeOffends(g, serve, c, ops))
  {
    hide ExecAll, SomeOffends, Exposed;
    var (v, c) := Connect(serve, world).value;
    assert c.s.trace == [VERSION_CALL];
    ExecAllMeets(g, serve, v, c, ops);
  }

  /** Everything else is guarded: those service methods aside, no call of any run is too new or superseded. */
  lemma EveryRunIsGated<W>(serve: Server<W>, world: W, ops: seq<Op>)
    requires Connect(serve, world).Ok?
    ensures var (v, c) := Connect(serve, world).value;
            var trace := ExecAll(serve, c, ops).s.trace;
            forall i :: 0 <= i < |trace| && !Unguarded(trace[i]) ==>
              Meets(NotTooNew, v, trace[i]) && Meets(NotTooOld, v, trace[i])
  {
    hide ExecAll, SomeOffends;
    RunMeetsGateExactlyWhen(GuardedOnly, serve, world, ops);
  }

  /** The guarded methods in plain terms. */
  predicate OfItsTime(v: Version, c: Call) {
    var dicts := v.major > 0 || (v.major == 0 && v.minor >= 9);
    var latest := v.major > 1 || (v.major == 1 && v.minor >= 0);
    && (c.name in {GetSettings2, Update2, GetZoneSettings2, SetZoneSettings2, Bus.AddZone2} ==> dicts)
    && (c.name in {GetPolicies, GetActivePolicies, GetPolicySettings, SetPolicySettings} ==> dicts)
    && (c.name in {GetPolicyByName, GetPolicyNames, ListPolicies, AddPolicy} ==> dicts)
    && (c.iface.ConfigPolicy? && c.name in {GetSettings, Update, Rename, Remove} ==> dicts)
    && (c.name in {GetServiceSettings2, Bus.ResetToDefaults} ==> latest)
  }

  lemma GuardedCallIsOfItsTime(v: Version, c: Call)
    requires Meets(GuardedOnly, v, c)
    ensures OfItsTime(v, c)
  {
  }

  /**
   * In every run a dict method, a policy method, getServiceSettings2 or resetToDefaults
   * is called only on a version that has it.
   */
  lemma GuardedMethodsByVersion<W>(serve: Server<W>, world: W, ops: seq<Op>)
    requires Connect(serve, world).Ok?
    ensures var (v, c) := Connect(serve, world).value;
            var trace := ExecAll(serve, c, ops).s.trace;
            forall i :: 0 <= i < |trace| ==> OfItsTime(v, trace[i])
  {
    hide ExecAll, SomeOffends, Meets, OfItsTime;
    RunMeetsGateExactlyWhen(GuardedOnly, serve, world, ops);
    var (v, c) := Connect(serve, world).value;
    var trace := ExecAll(serve, c, ops).s.trace;
    assert AllMeet(GuardedOnly, v, trace);
    forall i | 0 <= i < |trace| ensures OfItsTime(v, trace[i]) {
      GuardedCallIsOfItsTime(v, trace[i]);
    }
  }

  /**
   * A failing run: on a server that answers lookups, any version below 1.0 and any
   * service, opening a handle and adding an include emits a method the server lacks.
   */
  lemma IncludeOnOldServerIsTooNew<W>(
      serve: Server<W>, v: Version, c: Client<W>, id: nat, name: string, included: string)
    requires c.s.caps == CapsFor(v) && !Reached(v, (1, 0))
    requires Resolve(serve, c.s, ServiceKind, Handle(name, "")).2.Ok?
    ensures var ops := [OpenHandle(id, ServiceKind, name), OnHandle(id, OfInclude(AddIt(included)))];
            var trace := ExecAll(serve, c, ops).s.trace;
            trace != [] && trace[|trace| - 1].name.AddInclude? && !Meets(NotTooNew, v, trace[|trace| - 1])
  {
    hide Meets;
    var open, add := OpenHandle(id, ServiceKind, name), OnHandle(id, OfInclude(AddIt(included)));
    assert [open, add][..1] == [open] && [open][..0] == [];
    assert ExecAll(serve, c, [open]) == Exec(serve, ExecAll(serve, c, []), open);
    assert ExecAll(serve, c, [open, add]) == Exec(serve, ExecAll(serve, c, [open]), add);
    hide ExecAll;
    var (s', _, p) := Resolve(serve, c.s, ServiceKind, Handle(name, ""));
    var args := [Arg(Str(included))];
    var call := ObjectCall(ServiceKind, p.value, AddInclude, args);
    assert CallOn(serve, c.s, ServiceKind, Handle(name, ""), AddInclude, args).0.trace == s'.trace + [call];
    PathsDoNotMatter(NotTooNew, v, ServiceKind, p.value, AddInclude, args);
    ServiceMethodsMeet(NotTooNew, v, AddIt(included), args);
  }

  /** The other half: on any version from 1.0 on, creating a service uses the superseded method. */
  lemma CreateServiceOnNewServerIsSuperseded<W>(
      serve: Server<W>, v: Version, c: Client<W>, name: string, sv: ServiceCodec.ServiceSettings)
    requires Reached(v, (1, 0))
    ensures var trace := ExecAll(serve, c, [CreateService(name, sv)]).s.trace;
            trace != [] && trace[|trace| - 1].name.AddService? && !Meets(NotTooOld, v, trace[|trace| - 1])
  {
    var op := CreateService(name, sv);
    assert [op][..0] == [];
    assert ExecAll(serve, c, [op]) == Exec(serve, ExecAll(serve, c, []), op);
  }

  /** A guarded operation issues its call if and only if the version has the capability. */
  lemma RefusalMakesNoCall<W>(serve: Server<W>, v: Version, s: Session<W>, cap: Capability, c: Call)
    requires s.caps == CapsFor(v)
    ensures var (s', r) := Guarded(serve, s, cap, c);
            if Reached(v, Since(cap)) then s'.trace == s.trace + [c] else s' == s && r == Fail(UNSUPPORTED)
  {
  }

  /** A policy handle makes no call, and stays as it was, exactly on servers without policies. */
  lemma PolicyHandleRefusesWithoutCalls<W>(
      serve: Server<W>, v: Version, s: Session<W>, h: Handle, m: Method, args: seq<Arg>)
    requires s.caps == CapsFor(v)
    ensures CallOn(serve, s, PolicyKind, h, m, args).0.trace == s.trace <==> !Reached(v, (0, 9))
    ensures !Reached(v, (0, 9)) ==> CallOn(serve, s, PolicyKind, h, m, args) == (s, h, Fail(UNSUPPORTED))
  {
    var (s1, _, p) := Resolve(serve, s, PolicyKind, h);
    assert Reached(v, (0, 9)) ==> |CallOn(serve, s, PolicyKind, h, m, args).0.trace| > |s.trace|;
  }
}
