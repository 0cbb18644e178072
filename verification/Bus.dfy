/**
 * The bus as a client sees it: method calls to an arbitrary server and the session state
 * that threads through them (firewalld.go). The server is any function from its state
 * and a call to its next state and a reply, so a claim about every `serve` is a claim
 * about every server and every sequence of replies.
 */
module Bus {
  import opened Seqs
  import opened Values
  import opened Errors
  import opened Versions

  datatype Iface = Main | Zone | Policy | Config | ConfigZone | ConfigPolicy | ConfigService | Properties

  /**
   * The D-Bus methods that matter to versions, handles or settings; the rest are `Element`
   * methods, which carry the member name.
   */
  datatype Method =
    | Get
    | GetZoneByName | GetPolicyByName | Rename | Remove
    | GetSettings | GetSettings2 | Update | Update2
    | AddZone | AddZone2
    | GetZoneSettings | GetZoneSettings2 | SetZoneSettings2
    | GetServiceSettings | GetServiceSettings2
    | GetServiceByName | AddService
    | AddInclude | RemoveInclude | QueryInclude | GetIncludes
    | ResetToDefaults
    | GetPolicies | GetActivePolicies | GetPolicySettings | SetPolicySettings
    | GetPolicyNames | ListPolicies | AddPolicy
    | Element(name: ElementName)

  /**
   * Members that came with a release or were superseded by one on some object a handle
   * names. They have constructors of their own, so no `Element` stands for one.
   */
  predicate IsVersioned(member: string) {
    member in {
      "getSettings", "getSettings2", "update", "update2",
      "addInclude", "removeInclude", "queryInclude", "getIncludes"
    }
  }

  type ElementName = s: string | !IsVersioned(s) witness ""

  /** An argument: an a{sv} dict or any other value. */
  datatype Arg = DictArg(dict: Dict) | Arg(value: Value)

  datatype Call = Call(path: string, iface: Iface, name: Method, args: seq<Arg>)

  /** What a reply carries. */
  datatype Body =
    | Nothing
    | PathBody(path: string)
    | VariantBody(v: Value)
    | TupleBody(fields: seq<Value>)
    | DictBody(dict: Dict)
    | NamesBody(names: seq<string>)
    | ActiveBody(active: map<string, map<string, seq<string>>>)
    | OtherBody(value: Value)

  datatype Reply = Failed(err: Err) | Returned(body: Body)

  datatype Result<+T> = Ok(value: T) | Fail(err: Err)

  const BASE_PATH := "/org/fedoraproject/FirewallD1"
  const CONFIG_PATH := "/org/fedoraproject/FirewallD1/config"

  const UNSUPPORTED := Sent(Unsupported)

  /** What storing a reply into a variable of the wrong type yields. */
  const STORE_MISMATCH := Plain("dbus.Store: type mismatch")

  // ------------------------------------------------------------ results

  /** The error mapping every call's outcome goes through. */
  function Outcome(r: Reply): Result<Body> {
    match r
    case Failed(e) => Fail(MapError(e))
    case Returned(b) => Ok(b)
  }

  function PathIn(r: Result<Body>): Result<string> {
    match r
    case Fail(e) => Fail(e)
    case Ok(PathBody(p)) => Ok(p)
    case Ok(_) => Fail(MapError(STORE_MISMATCH))
  }

  function TupleIn(r: Result<Body>): Result<seq<Value>> {
    match r
    case Fail(e) => Fail(e)
    case Ok(TupleBody(raw)) => Ok(raw)
    case Ok(_) => Fail(MapError(STORE_MISMATCH))
  }

  function DictIn(r: Result<Body>): Result<Dict> {
    match r
    case Fail(e) => Fail(e)
    case Ok(DictBody(d)) => Ok(d)
    case Ok(_) => Fail(MapError(STORE_MISMATCH))
  }

  /** A list of names or of object paths. */
  function NamesIn(r: Result<Body>): Result<seq<string>> {
    match r
    case Fail(e) => Fail(e)
    case Ok(NamesBody(names)) => Ok(names)
    case Ok(_) => Fail(MapError(STORE_MISMATCH))
  }

  /** Names with their bindings, of which only the names matter. */
  function ActiveIn(r: Result<Body>): Result<map<string, map<string, seq<string>>>> {
    match r
    case Fail(e) => Fail(e)
    case Ok(ActiveBody(active)) => Ok(active)
    case Ok(_) => Fail(MapError(STORE_MISMATCH))
  }

  /** A failed call fails every typed result with its own error, mapped. */
  lemma FailuresPassThrough(e: Err)
    ensures Outcome(Failed(e)) == Fail(MapError(e))
    ensures PathIn(Fail(e)) == Fail(e) && TupleIn(Fail(e)) == Fail(e) && DictIn(Fail(e)) == Fail(e)
    ensures NamesIn(Fail(e)) == Fail(e) && ActiveIn(Fail(e)) == Fail(e) && VersionIn(Fail(e)) == Fail(e)
  {
  }

  // ----------------------------------------------------------- sessions

  /** A connection: its capabilities, the server's state and every call made so far. */
  datatype Session<W> = Session(caps: set<Capability>, world: W, trace: seq<Call>)

  type Server<!W> = (W, Call) -> (W, Reply)

  /** One call: the only way a session changes. */
  function Send<W>(serve: Server<W>, s: Session<W>, c: Call): (Session<W>, Result<Body>) {
    var (w, r) := serve(s.world, c);
    (s.(world := w, trace := s.trace + [c]), Outcome(r))
  }

  const VERSION_CALL :=
    Call(BASE_PATH, Properties, Get, [Arg(Str("org.fedoraproject.FirewallD1")), Arg(Str("version"))])

  /** The version a Properties.Get reply reports; a non-string variant reads as "". */
  function VersionIn(r: Result<Body>): Result<Version> {
    match r
    case Fail(e) => Fail(e)
    case Ok(VariantBody(v)) => Ok(Parsed(if v.Str? then v.s else ""))
    case Ok(_) => Fail(MapError(STORE_MISMATCH))
  }

  /**
   * A call that fails with an exception whose text starts with a code, behind any white
   * space, fails with an error that matches that code's sentinel and no other, and keeps
   * the code and the text.
   */
  lemma FailedCallIsClassified<W>(
      serve: Server<W>, s: Session<W>, c: Call, ws: string, code: string, rest: string, target: Sentinel)
    requires forall i :: 0 <= i < |ws| ==> ws[i] in " \t\n\r"
    requires |code| >= 2
    requires forall i :: 0 <= i < |code| ==> 'A' <= code[i] <= 'Z' || '0' <= code[i] <= '9' || code[i] == '_'
    requires rest != "" ==> !('A' <= rest[0] <= 'Z' || '0' <= rest[0] <= '9' || rest[0] == '_')
    requires serve(s.world, c).1 ==
             Failed(DBus("org.fedoraproject.FirewallD1.Exception", [Str(ws + code + rest)]))
    ensures var r := Send(serve, s, c).1;
            && r.Fail? && r.err.Firewalld?
            && r.err.code == code && r.err.message == ws + code + rest
            && (Matches(r.err, target) <==> SentinelOf(code) == Some(target))
  {
    hide SentinelOf, TokenOf;
    TokenInPlainTerms(ws, code, rest);
  }
}
