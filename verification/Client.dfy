/**
 * The client objects (firewalld.go, zone.go, config.go, permzone.go, policy.go,
 * service.go), which update their fields in place. Every method is proved against the
 * session functions of Bus, Handles, ZoneTransport and Gating.
 */
module Client {
  import opened Values
  import opened Errors
  import opened Versions
  import opened Bus
  import opened Handles
  import opened ZoneTransport
  import opened PolicyTransport
  import opened ServiceTransport
  import Gating
  import RuntimeZones
  import ZoneCodec
  import PolicyCodec
  import ServiceCodec

  class Conn<W> {
    const serve: Server<W>
    var version: Version
    var caps: set<Capability>
    var world: W
    var trace: seq<Call>

    /** The abstract session. */
    ghost function S(): Session<W>
      reads this
    {
      Session(caps, world, trace)
    }

    ghost predicate Valid()
      reads this
    {
      Gating.Gated(version, S())
    }

    constructor (serve: Server<W>, world: W)
      ensures S() == Session({}, world, []) && this.serve == serve
    {
      this.serve := serve;
      this.world := world;
      version := Version(0, 0, 0, "");
      caps := {};
      trace := [];
    }

    /** The single choke point of every call; error mapping happens here alone. */
    method Invoke(c: Call) returns (r: Result<Body>)
      modifies this`world, this`trace
      ensures (S(), r) == Send(serve, old(S()), c)
    {
      var (w, reply) := serve(world, c);
      world := w;
      trace := trace + [c];
      match reply {
        case Failed(e) => return Fail(MapError(e));
        case Returned(b) => return Ok(b);
      }
    }

    method ReadVersion() returns (r: Result<Version>)
      modifies this`world, this`trace
      ensures S() == Send(serve, old(S()), VERSION_CALL).0
      ensures r == VersionIn(Send(serve, old(S()), VERSION_CALL).1)
    {
      var b := Invoke(VERSION_CALL);
      match b {
        case Fail(e) => return Fail(e);
        case Ok(VariantBody(v)) =>
          var raw := if v.Str? then v.s else "";
          var parsed := ParseVersion(raw);
          return Ok(parsed);
        case Ok(_) => return Fail(MapError(STORE_MISMATCH));
      }
    }

    predicate Supports(cap: Capability)
      reads this
    {
      cap in caps
    }

    method ResetToDefaults() returns (r: Result<Body>)
      requires Valid()
      modifies this`world, this`trace
      ensures Valid()
      ensures (S(), r) == Gating.Guarded(serve, old(S()), Versions.ResetToDefaults, Gating.RESET_CALL)
    {
      if !Supports(Versions.ResetToDefaults) {
        return Fail(UNSUPPORTED);
      }
      Gating.SendKeepsGate(serve, version, S(), Gating.RESET_CALL);
      r := Invoke(Gating.RESET_CALL);
    }

    /** Runtime().Settings */
    method RuntimeSettings(zone: string) returns (r: Result<ZoneSettings>)
      requires Valid()
      modifies this`world, this`trace
      ensures Valid()
      ensures (S(), r) == Gating.ReadRuntime(serve, old(S()), zone)
    {
      Gating.SendKeepsGate(serve, version, S(), Gating.ReadRuntimeCall(caps, zone));
      if Supports(DictZoneSettings) {
        var b := Invoke(Call(BASE_PATH, Zone, GetZoneSettings2, [Arg(Str(zone))]));
        r := DecodeDictReply(b);
      } else {
        var b := Invoke(Call(BASE_PATH, Main, GetZoneSettings, [Arg(Str(zone))]));
        r := DecodeTuple(b);
      }
    }

    /** Runtime().SetSettings */
    method SetRuntimeSettings(zone: string, z: ZoneSettings) returns (r: Result<Body>)
      requires Valid()
      modifies this`world, this`trace
      ensures Valid()
      ensures (S(), r) == Gating.Guarded(serve, old(S()), DictZoneSettings, Gating.SetRuntimeCall(zone, z))
    {
      if !Supports(DictZoneSettings) {
        return Fail(UNSUPPORTED);
      }
      Gating.SendKeepsGate(serve, version, S(), Gating.SetRuntimeCall(zone, z));
      var d := ZoneCodec.ToDict(z);
      r := Invoke(Call(BASE_PATH, Zone, SetZoneSettings2, [Arg(Str(zone)), DictArg(d)]));
    }

    method ServiceSettings(service: string) returns (r: Result<ServiceCodec.ServiceSettings>)
      requires Valid()
      modifies this`world, this`trace
      ensures Valid()
      ensures (S(), r) == ServiceTransport.ReadService(serve, old(S()), service)
    {
      Gating.SendKeepsGate(serve, version, S(), ServiceTransport.ReadServiceCall(caps, service));
      if Supports(ServiceSettings2) {
        var b := Invoke(Call(BASE_PATH, Main, GetServiceSettings2, [Arg(Str(service))]));
        match DictIn(b) {
          case Fail(e) => return Fail(e);
          case Ok(d) =>
            var s := ServiceCodec.FromDict(d);
            return Ok(s);
        }
      }
      var b := Invoke(Call(BASE_PATH, Main, GetServiceSettings, [Arg(Str(service))]));
      match TupleIn(b) {
        case Fail(e) => return Fail(e);
        case Ok(raw) => return Ok(ServiceCodec.FromTuple(raw));
      }
    }

    /** Permanent().AddZone */
    method AddZone(name: string, z: ZoneSettings) returns (r: Result<string>)
      requires Valid()
      modifies this`world, this`trace
      ensures Valid()
      ensures (S(), r) == CreateZone(serve, old(S()), name, z)
    {
      Gating.SendKeepsGate(serve, version, S(), AddZoneCall(caps, name, z));
      if Supports(Versions.AddZone2) {
        var d := ZoneCodec.ToDict(z);
        var b := Invoke(Call(CONFIG_PATH, Config, Bus.AddZone2, [Arg(Str(name)), DictArg(d)]));
        return PathIn(b);
      }
      var tuple := ZoneCodec.ToTuple(z);
      var b := Invoke(Call(CONFIG_PATH, Config, Bus.AddZone, [Arg(Str(name)), Arg(tuple)]));
      return PathIn(b);
    }

    /** Permanent().AddService: always the v1 tuple. */
    method AddService(name: string, z: ServiceCodec.ServiceSettings) returns (r: Result<string>)
      requires Valid()
      modifies this`world, this`trace
      ensures Valid()
      ensures var (s, b) := Send(serve, old(S()), Gating.AddServiceCall(name, z));
              S() == s && r == PathIn(b)
    {
      Gating.SendKeepsGate(serve, version, S(), Gating.AddServiceCall(name, z));
      var b := Invoke(Gating.AddServiceCall(name, z));
      return PathIn(b);
    }

    /** The guarded policy operations of Runtime and Permanent. */
    method PolicyRequest(q: Gating.PolicyRequest) returns (r: Result<Body>)
      requires Valid()
      modifies this`world, this`trace
      ensures Valid()
      ensures (S(), r) == Gating.Guarded(serve, old(S()), Policies, Gating.PolicyCall(q))
    {
      if !Supports(Policies) {
        return Fail(UNSUPPORTED);
      }
      Gating.SendKeepsGate(serve, version, S(), Gating.PolicyCall(q));
      r := Invoke(Gating.PolicyCall(q));
    }

    /** Runtime().Policies, Permanent().PolicyNames and PolicyPaths */
    method PolicyList(q: Gating.PolicyRequest) returns (r: Result<seq<string>>)
      requires Valid() && (q.ListRuntime? || q.ListNames? || q.ListPaths?)
      modifies this`world, this`trace
      ensures Valid()
      ensures S() == Gating.Guarded(serve, old(S()), Policies, Gating.PolicyCall(q)).0
      ensures r == NamesIn(Gating.Guarded(serve, old(S()), Policies, Gating.PolicyCall(q)).1)
    {
      var b := PolicyRequest(q);
      return NamesIn(b);
    }

    /** Runtime().ActivePolicies: each bound policy once, in no particular order. */
    method ActivePolicies() returns (r: Result<seq<string>>)
      requires Valid()
      modifies this`world, this`trace
      ensures Valid()
      ensures S() == Gating.Guarded(serve, old(S()), Policies, Gating.PolicyCall(Gating.ListActive)).0
      ensures match ActiveIn(Gating.Guarded(serve, old(S()), Policies, Gating.PolicyCall(Gating.ListActive)).1) {
                case Fail(e) => r == Fail(e)
                case Ok(active) => r.Ok? && multiset(r.value) == multiset(active.Keys)
              }
    {
      var b := PolicyRequest(Gating.ListActive);
      match ActiveIn(b) {
        case Fail(e) => return Fail(e);
        case Ok(active) =>
          var names := KeysInSomeOrder(active);
          return Ok(names);
      }
    }

    /** Runtime().PolicySettings */
    method PolicySettings(policy: string) returns (r: Result<PolicyCodec.PolicySettings>)
      requires Valid()
      modifies this`world, this`trace
      ensures Valid()
      ensures var (s, b) := Gating.Guarded(serve, old(S()), Policies, Gating.PolicyCall(Gating.ReadPolicy(policy)));
              && S() == s
              && r == match DictIn(b) { case Fail(e) => Fail(e) case Ok(d) => Ok(PolicyCodec.SettingsIn(d)) }
    {
      var b := PolicyRequest(Gating.ReadPolicy(policy));
      match DictIn(b) {
        case Fail(e) => return Fail(e);
        case Ok(d) =>
          var p := PolicyCodec.FromDict(d);
          return Ok(p);
      }
    }

    /** Permanent().AddPolicy */
    method AddPolicy(name: string, p: PolicyCodec.PolicySettings) returns (r: Result<string>)
      requires Valid()
      modifies this`world, this`trace
      ensures Valid()
      ensures var (s, b) := Gating.Guarded(serve, old(S()), Policies, Gating.PolicyCall(Gating.CreatePolicy(name, p)));
              S() == s && r == PathIn(b)
    {
      var b := PolicyRequest(Gating.CreatePolicy(name, p));
      return PathIn(b);
    }

    /** Any of a client's operations that goes through no handle. */
    method Perform(op: Gating.Op)
      requires Valid() && !op.OpenHandle? && !op.OnHandle?
      modifies this`world, this`trace
      ensures Valid()
      ensures S() == Gating.Exec(serve, Gating.Client(old(S()), map[]), op).s
    {
      match op {
        case Reset => var _ := ResetToDefaults();
        case SetRuntime(zone, z) => var _ := SetRuntimeSettings(zone, z);
        case GetRuntime(zone) => var _ := RuntimeSettings(zone);
        case GetService(service) => var _ := ServiceSettings(service);
        case OfPolicy(q) => var _ := PolicyRequest(q);
        case Create(name, z) => var _ := AddZone(name, z);
        case CreateService(name, sv) => var _ := AddService(name, sv);
        case RuntimeElement(m, args) =>
          Gating.SendKeepsGate(serve, version, S(), Call(BASE_PATH, Zone, Element(m), args));
          var _ := Invoke(Call(BASE_PATH, Zone, Element(m), args));
      }
    }

    /** RuntimeZone.addElement: the zone name, the element's arguments, the timeout. */
    method AddElement(zone: string, member: ElementName, timeout: Int64, args: seq<Arg>) returns (r: Result<Body>)
      requires Valid()
      modifies this`world, this`trace
      ensures Valid()
      ensures (S(), r) == Send(serve, old(S()),
                               Call(BASE_PATH, Zone, Element(member), RuntimeZones.AddArgs(zone, args, timeout)))
    {
      var full := [Arg(Str(zone))];
      full := full + args;
      full := full + [Arg(I32(RuntimeZones.TimeoutSeconds(timeout)))];
      Gating.SendKeepsGate(serve, version, S(), Call(BASE_PATH, Zone, Element(member), full));
      r := Invoke(Call(BASE_PATH, Zone, Element(member), full));
    }
  }

  method DecodeDictReply(b: Result<Body>) returns (r: Result<ZoneSettings>)
    ensures r == DecodeDict(b)
  {
    match DictIn(b) {
      case Fail(e) => return Fail(e);
      case Ok(d) =>
        var s := ZoneCodec.FromDict(d);
        return Ok(s);
    }
  }

  /** The loop that collects the keys of a map, in whatever order they come. */
  method KeysInSomeOrder<V>(m: map<string, V>) returns (out: seq<string>)
    ensures multiset(out) == multiset(m.Keys)
  {
    out := [];
    var todo := m.Keys;
    while todo != {}
      invariant todo <= m.Keys
      invariant multiset(out) == multiset(m.Keys - todo)
      decreases |todo|
    {
      var k :| k in todo;
      assert m.Keys - (todo - {k}) == (m.Keys - todo) + {k};
      out := out + [k];
      todo := todo - {k};
    }
    assert m.Keys - todo == m.Keys;
  }

  /** Connects: reads the version and derives the capabilities, or fails without a client. */
  method NewConn<W>(serve: Server<W>, world: W) returns (r: Result<Conn<W>>)
    ensures match Gating.Connect(serve, world) {
              case Fail(e) => r == Fail(e)
              case Ok((v, client)) =>
                r.Ok? && fresh(r.value) && r.value.serve == serve
                && r.value.version == v && r.value.S() == client.s && r.value.Valid()
            }
  {
    var c := new Conn(serve, world);
    var v := c.ReadVersion();
    match v {
      case Fail(e) => return Fail(e);
      case Ok(version) =>
        c.version := version;
        c.caps := CapsFor(version);
        return Ok(c);
    }
  }

  // ------------------------------------------------------ zone handles

  /** A handle on one permanent zone; its path is looked up on first use and kept. */
  class PermZone<W> {
    const c: Conn<W>
    var name: string
    var path: string

    ghost function H(): Handle
      reads this
    {
      Handle(name, path)
    }

    constructor (c: Conn<W>, name: string)
      ensures this.c == c && H() == Handle(name, "")
    {
      this.c := c;
      this.name := name;
      path := "";
    }

    method Resolve() returns (r: Result<string>)
      requires c.Valid()
      modifies this`path, c`world, c`trace
      ensures c.Valid()
      ensures (c.S(), H(), r) == Handles.Resolve(c.serve, old(c.S()), ZoneKind, old(H()))
    {
      if path != "" {
        return Ok(path);
      }
      var lookup := LookupCall(ZoneKind, name);
      Gating.SendKeepsGate(c.serve, c.version, c.S(), lookup);
      var b := c.Invoke(lookup);
      var p := PathIn(b);
      if p.Fail? {
        return Fail(p.err);
      }
      path := p.value;
      return Ok(path);
    }

    method CallOn(m: Method, args: seq<Arg>) returns (r: Result<Body>)
      requires c.Valid() && Gating.Permitted(c.version, ObjectCall(ZoneKind, "", m, args))
      modifies this`path, c`world, c`trace
      ensures c.Valid()
      ensures (c.S(), H(), r) == Handles.CallOn(c.serve, old(c.S()), ZoneKind, old(H()), m, args)
    {
      var p := Resolve();
      if p.Fail? {
        return Fail(p.err);
      }
      var call := ObjectCall(ZoneKind, p.value, m, args);
      Gating.SendKeepsGate(c.serve, c.version, c.S(), call);
      r := c.Invoke(call);
    }

    method Settings() returns (r: Result<ZoneSettings>)
      requires c.Valid()
      modifies this`path, c`world, c`trace
      ensures c.Valid()
      ensures (c.S(), H(), r) == ReadZone(c.serve, old(c.S()), old(H()))
    {
      if c.Supports(DictZoneSettings) {
        var b := CallOn(GetSettings2, []);
        r := DecodeDictReply(b);
      } else {
        var b := CallOn(GetSettings, []);
        r := DecodeTuple(b);
      }
    }

    method UpdateSettings(z: ZoneSettings) returns (r: Result<Body>)
      requires c.Valid()
      modifies this`path, c`world, c`trace
      ensures c.Valid()
      ensures (c.S(), H(), r) == UpdateZone(c.serve, old(c.S()), old(H()), z)
    {
      if c.Supports(DictZoneSettings) {
        var d := ZoneCodec.ToDict(z);
        r := CallOn(Update2, [DictArg(d)]);
      } else {
        r := CallOn(Update, [Arg(ZoneCodec.ToTuple(z))]);
      }
    }

    method Rename(newName: string) returns (r: Result<Body>)
      requires c.Valid()
      modifies this, c`world, c`trace
      ensures c.Valid()
      ensures (c.S(), H(), r) == RenameTo(c.serve, old(c.S()), ZoneKind, old(H()), newName)
    {
      r := CallOn(Bus.Rename, [Arg(Str(newName))]);
      if r.Fail? {
        return;
      }
      name := newName;
      path := "";
    }

    method Remove() returns (r: Result<Body>)
      requires c.Valid()
      modifies this`path, c`world, c`trace
      ensures c.Valid()
      ensures (c.S(), H(), r) == Handles.CallOn(c.serve, old(c.S()), ZoneKind, old(H()), Bus.Remove, [])
    {
      r := CallOn(Bus.Remove, []);
    }

    /** Any of a client's operations through this handle. */
    method Perform(op: Gating.HandleOp)
      requires c.Valid()
      modifies this, c`world, c`trace
      ensures c.Valid()
      ensures (c.S(), H()) == Gating.ZoneHandleOp(c.serve, old(c.S()), old(H()), op)
    {
      match op {
        case ReadIt => var _ := Settings();
        case WriteZone(z) => var _ := UpdateSettings(z);
        case RenameIt(n) => var _ := Rename(n);
        case RemoveIt => var _ := Remove();
        case ElementOp(n, args) => var _ := CallOn(Element(n), args);
        case _ =>
      }
    }
  }

  /**
   * Writes a zone's settings and reads them back: on a server that keeps settings, an
   * accepted write is followed by a read that returns what was written.
   */
  method UpdateThenRead<W(!new)>(zone: PermZone<W>, z: ZoneSettings, ghost store: Store<W>)
    returns (written: Result<Body>, read: Result<ZoneSettings>)
    requires zone.c.Valid() && KeepsSettings(zone.c.serve, store)
    modifies zone`path, zone.c`world, zone.c`trace
    ensures zone.c.Valid()
    ensures written.Fail? ==> read == Fail(written.err)
    ensures written.Ok? && UpdateZone(zone.c.serve, old(zone.c.S()), old(zone.H()), z).1.path != "" ==>
              read.Ok? && Survives(zone.c.version, z, read.value)
  {
    hide UpdateZone, ReadZone, Survives, KeepsSettings, CapsFor;
    ghost var before, handle := zone.c.S(), zone.H();
    written := zone.UpdateSettings(z);
    if written.Fail? {
      return written, Fail(written.err);
    }
    ghost var path := zone.path;
    read := zone.Settings();
    if path != "" {
      UpdateThenSettings(zone.c.serve, store, zone.c.version, before, handle, z);
    }
  }

  // ---------------------------------------------------- policy handles

  /** A handle on one permanent policy; refused outright where there are no policies. */
  class PermPolicy<W> {
    const c: Conn<W>
    var name: string
    var path: string

    ghost function H(): Handle
      reads this
    {
      Handle(name, path)
    }

    constructor (c: Conn<W>, name: string)
      ensures this.c == c && H() == Handle(name, "")
    {
      this.c := c;
      this.name := name;
      path := "";
    }

    method Resolve() returns (r: Result<string>)
      requires c.Valid()
      modifies this`path, c`world, c`trace
      ensures c.Valid()
      ensures (c.S(), H(), r) == Handles.Resolve(c.serve, old(c.S()), PolicyKind, old(H()))
    {
      if !c.Supports(Policies) {
        return Fail(UNSUPPORTED);
      }
      if path != "" {
        return Ok(path);
      }
      var lookup := LookupCall(PolicyKind, name);
      Gating.SendKeepsGate(c.serve, c.version, c.S(), lookup);
      var b := c.Invoke(lookup);
      var p := PathIn(b);
      if p.Fail? {
        return Fail(p.err);
      }
      path := p.value;
      return Ok(path);
    }

    method CallOn(m: Method, args: seq<Arg>) returns (r: Result<Body>)
      requires c.Valid() && m in {GetSettings, Update, Bus.Rename, Bus.Remove}
      modifies this`path, c`world, c`trace
      ensures c.Valid()
      ensures (c.S(), H(), r) == Handles.CallOn(c.serve, old(c.S()), PolicyKind, old(H()), m, args)
    {
      Gating.CallOnKeepsGate(c.serve, c.version, c.S(), PolicyKind, H(), m, args);
      var p := Resolve();
      if p.Fail? {
        return Fail(p.err);
      }
      r := c.Invoke(ObjectCall(PolicyKind, p.value, m, args));
    }

    method Settings() returns (r: Result<PolicyCodec.PolicySettings>)
      requires c.Valid()
      modifies this`path, c`world, c`trace
      ensures c.Valid()
      ensures (c.S(), H(), r) == ReadPolicyObject(c.serve, old(c.S()), old(H()))
    {
      var b := CallOn(GetSettings, []);
      match DictIn(b) {
        case Fail(e) => return Fail(e);
        case Ok(d) =>
          var p := PolicyCodec.FromDict(d);
          return Ok(p);
      }
    }

    method UpdateSettings(p: PolicyCodec.PolicySettings) returns (r: Result<Body>)
      requires c.Valid()
      modifies this`path, c`world, c`trace
      ensures c.Valid()
      ensures (c.S(), H(), r) == UpdatePolicy(c.serve, old(c.S()), old(H()), p)
    {
      r := CallOn(Update, [DictArg(PolicyCodec.DictOf(p))]);
    }

    method Rename(newName: string) returns (r: Result<Body>)
      requires c.Valid()
      modifies this, c`world, c`trace
      ensures c.Valid()
      ensures (c.S(), H(), r) == RenameTo(c.serve, old(c.S()), PolicyKind, old(H()), newName)
    {
      r := CallOn(Bus.Rename, [Arg(Str(newName))]);
      if r.Fail? {
        return;
      }
      name := newName;
      path := "";
    }

    method Remove() returns (r: Result<Body>)
      requires c.Valid()
      modifies this`path, c`world, c`trace
      ensures c.Valid()
      ensures (c.S(), H(), r) == Handles.CallOn(c.serve, old(c.S()), PolicyKind, old(H()), Bus.Remove, [])
    {
      r := CallOn(Bus.Remove, []);
    }

    /** Any of a client's operations through this handle. */
    method Perform(op: Gating.HandleOp)
      requires c.Valid()
      modifies this, c`world, c`trace
      ensures c.Valid()
      ensures (c.S(), H()) == Gating.PolicyHandleOp(c.serve, old(c.S()), old(H()), op)
    {
      match op {
        case ReadIt => var _ := Settings();
        case WritePolicyDict(p) => var _ := UpdateSettings(p);
        case RenameIt(n) => var _ := Rename(n);
        case RemoveIt => var _ := Remove();
        case _ =>
      }
    }
  }

  // --------------------------------------------------- service handles

  /** A handle on one permanent service: no capability guards it. */
  class PermService<W> {
    const c: Conn<W>
    var name: string
    var path: string

    ghost function H(): Handle
      reads this
    {
      Handle(name, path)
    }

    constructor (c: Conn<W>, name: string)
      ensures this.c == c && H() == Handle(name, "")
    {
      this.c := c;
      this.name := name;
      path := "";
    }

    method Resolve() returns (r: Result<string>)
      requires c.Valid()
      modifies this`path, c`world, c`trace
      ensures c.Valid()
      ensures (c.S(), H(), r) == Handles.Resolve(c.serve, old(c.S()), ServiceKind, old(H()))
    {
      if path != "" {
        return Ok(path);
      }
      var lookup := LookupCall(ServiceKind, name);
      Gating.SendKeepsGate(c.serve, c.version, c.S(), lookup);
      var b := c.Invoke(lookup);
      var p := PathIn(b);
      if p.Fail? {
        return Fail(p.err);
      }
      path := p.value;
      return Ok(path);
    }

    method CallOn(m: Method, args: seq<Arg>) returns (r: Result<Body>)
      requires c.Valid() && Gating.Permitted(c.version, ObjectCall(ServiceKind, "", m, args))
      modifies this`path, c`world, c`trace
      ensures c.Valid()
      ensures (c.S(), H(), r) == Handles.CallOn(c.serve, old(c.S()), ServiceKind, old(H()), m, args)
    {
      var p := Resolve();
      if p.Fail? {
        return Fail(p.err);
      }
      var call := ObjectCall(ServiceKind, p.value, m, args);
      Gating.SendKeepsGate(c.serve, c.version, c.S(), call);
      r := c.Invoke(call);
    }

    method Settings() returns (r: Result<ServiceCodec.ServiceSettings>)
      requires c.Valid()
      modifies this`path, c`world, c`trace
      ensures c.Valid()
      ensures (c.S(), H(), r) == ReadServiceObject(c.serve, old(c.S()), old(H()))
    {
      var b := CallOn(GetSettings, []);
      r := DecodeServiceTuple(b);
    }

    method UpdateSettings(z: ServiceCodec.ServiceSettings) returns (r: Result<Body>)
      requires c.Valid()
      modifies this`path, c`world, c`trace
      ensures c.Valid()
      ensures (c.S(), H(), r) == UpdateService(c.serve, old(c.S()), old(H()), z)
    {
      r := CallOn(Update, [Arg(ServiceCodec.ToTuple(z))]);
    }

    /** AddInclude, RemoveInclude, QueryInclude and Includes. */
    method OfInclude(i: Gating.Include) returns (r: Result<Body>)
      requires c.Valid()
      modifies this`path, c`world, c`trace
      ensures c.Valid()
      ensures (c.S(), H(), r) ==
              Handles.CallOn(c.serve, old(c.S()), ServiceKind, old(H()), Gating.IncludeMethod(i), Gating.IncludeArgs(i))
    {
      r := CallOn(Gating.IncludeMethod(i), Gating.IncludeArgs(i));
    }

    method Remove() returns (r: Result<Body>)
      requires c.Valid()
      modifies this`path, c`world, c`trace
      ensures c.Valid()
      ensures (c.S(), H(), r) == Handles.CallOn(c.serve, old(c.S()), ServiceKind, old(H()), Bus.Remove, [])
    {
      r := CallOn(Bus.Remove, []);
    }

    /** Any of a client's operations through this handle. */
    method Perform(op: Gating.HandleOp)
      requires c.Valid()
      modifies this, c`world, c`trace
      ensures c.Valid()
      ensures (c.S(), H()) == Gating.ServiceHandleOp(c.serve, old(c.S()), old(H()), op)
    {
      match op {
        case ReadIt => var _ := Settings();
        case WriteService(sv) => var _ := UpdateSettings(sv);
        case OfInclude(i) => var _ := OfInclude(i);
        case RemoveIt => var _ := Remove();
        case ElementOp(n, args) => var _ := CallOn(Element(n), args);
        case _ =>
      }
    }
  }
}
