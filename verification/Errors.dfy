/** Classification of the errors a bus call returns (errors.go). */
module Errors {
  import opened Seqs
  import opened Values

  /** The package's sentinel errors, each an identity of its own. */
  datatype Sentinel =
    | AlreadyEnabled | NotEnabled | InvalidZone | InvalidPort | InvalidProtocol | InvalidService
    | InvalidIcmpType | InvalidIPSet | InvalidInterface | InvalidSource | InvalidPolicy | InvalidHelper
    | InvalidCommand | NameConflict | ZoneConflict | BuiltinZone | AlreadySet | MissingName | NotRunning
    | NotApplicable | Unsupported

  /**
   * A Go error. `DBus` is a dbus.Error, `Firewalld` the package's *Error, `Wrapped` an
   * error with one Unwrap target and `Joined` one with several.
   */
  datatype Err =
    | Sent(id: Sentinel)
    | Plain(msg: string)
    | DBus(name: string, body: seq<Value>)
    | Firewalld(code: string, message: string, sentinel: Option<Sentinel>)
    | Wrapped(msg: string, inner: Err)
    | Joined(errs: seq<Err>)

  const EXCEPTION_NAME := "org.fedoraproject.FirewallD1.Exception"

  /** The sentinel of an exception token. */
  function SentinelOf(code: string): Option<Sentinel> {
    if code == "ALREADY_ENABLED" then Some(AlreadyEnabled)
    else if code == "NOT_ENABLED" then Some(NotEnabled)
    else if code == "ZONE_ALREADY_SET" then Some(AlreadySet)
    else if code == "ALREADY_SET" then Some(AlreadySet)
    else if code == "INVALID_ZONE" then Some(InvalidZone)
    else if code == "INVALID_PORT" then Some(InvalidPort)
    else if code == "INVALID_PROTOCOL" then Some(InvalidProtocol)
    else if code == "INVALID_SERVICE" then Some(InvalidService)
    else if code == "INVALID_ICMPTYPE" then Some(InvalidIcmpType)
    else if code == "INVALID_IPSET" then Some(InvalidIPSet)
    else if code == "INVALID_INTERFACE" then Some(InvalidInterface)
    else if code == "INVALID_SOURCE" then Some(InvalidSource)
    else if code == "INVALID_POLICY" then Some(InvalidPolicy)
    else if code == "INVALID_HELPER" then Some(InvalidHelper)
    else if code == "INVALID_COMMAND" then Some(InvalidCommand)
    else if code == "NAME_CONFLICT" then Some(NameConflict)
    else if code == "ZONE_CONFLICT" then Some(ZoneConflict)
    else if code == "BUILTIN_ZONE" then Some(BuiltinZone)
    else if code == "MISSING_NAME" then Some(MissingName)
    else if code == "NOT_RUNNING" then Some(NotRunning)
    else if code == "NOT_APPLICABLE" then Some(NotApplicable)
    else None
  }

  // Every code the client knows, and its sentinel.

  lemma EnablementCodes()
    ensures SentinelOf("ALREADY_ENABLED") == Some(AlreadyEnabled)
    ensures SentinelOf("NOT_ENABLED") == Some(NotEnabled)
    ensures SentinelOf("ZONE_ALREADY_SET") == Some(AlreadySet)
    ensures SentinelOf("ALREADY_SET") == Some(AlreadySet)
  {
  }

  lemma InvalidElementCodes()
    ensures SentinelOf("INVALID_PORT") == Some(InvalidPort)
    ensures SentinelOf("INVALID_PROTOCOL") == Some(InvalidProtocol)
    ensures SentinelOf("INVALID_SERVICE") == Some(InvalidService)
    ensures SentinelOf("INVALID_INTERFACE") == Some(InvalidInterface)
    ensures SentinelOf("INVALID_SOURCE") == Some(InvalidSource)
  {
  }

  lemma InvalidObjectCodes()
    ensures SentinelOf("INVALID_ZONE") == Some(InvalidZone)
    ensures SentinelOf("INVALID_ICMPTYPE") == Some(InvalidIcmpType)
    ensures SentinelOf("INVALID_IPSET") == Some(InvalidIPSet)
    ensures SentinelOf("INVALID_POLICY") == Some(InvalidPolicy)
    ensures SentinelOf("INVALID_HELPER") == Some(InvalidHelper)
    ensures SentinelOf("INVALID_COMMAND") == Some(InvalidCommand)
  {
  }

  lemma ConflictCodes()
    ensures SentinelOf("NAME_CONFLICT") == Some(NameConflict)
    ensures SentinelOf("ZONE_CONFLICT") == Some(ZoneConflict)
    ensures SentinelOf("BUILTIN_ZONE") == Some(BuiltinZone)
  {
  }

  lemma StateCodes()
    ensures SentinelOf("MISSING_NAME") == Some(MissingName)
    ensures SentinelOf("NOT_RUNNING") == Some(NotRunning)
    ensures SentinelOf("NOT_APPLICABLE") == Some(NotApplicable)
  {
  }

  /** No other code has one, and no code stands for ErrUnsupported, which is the client's own. */
  lemma OtherCodesHaveNoSentinel(code: string)
    requires code !in {
               "ALREADY_ENABLED", "NOT_ENABLED", "ZONE_ALREADY_SET", "ALREADY_SET",
               "INVALID_ZONE", "INVALID_PORT", "INVALID_PROTOCOL", "INVALID_SERVICE",
               "INVALID_ICMPTYPE", "INVALID_IPSET", "INVALID_INTERFACE", "INVALID_SOURCE",
               "INVALID_POLICY", "INVALID_HELPER", "INVALID_COMMAND", "NAME_CONFLICT",
               "ZONE_CONFLICT", "BUILTIN_ZONE", "MISSING_NAME", "NOT_RUNNING",
               "NOT_APPLICABLE"
             }
    ensures SentinelOf(code) == None
  {
  }

  lemma NoCodeIsUnsupported(code: string)
    ensures SentinelOf(code) != Some(Unsupported)
  {
  }

  // ------------------------------------------------------ leadingToken

  /** White space as strings.TrimSpace sees it. */
  predicate IsSpace(c: char) {
    || '\t' <= c <= '\r' || c == ' ' || c == '\U{85}' || c == '\U{A0}' || c == '\U{1680}'
    || '\U{2000}' <= c <= '\U{200A}' || c == '\U{2028}' || c == '\U{2029}'
    || c == '\U{202F}' || c == '\U{205F}' || c == '\U{3000}'
  }

  /** How many leading characters of `s` are white space. */
  function SpaceRun(s: string): (n: nat)
    ensures n <= |s| && forall i :: 0 <= i < n ==> IsSpace(s[i])
    ensures n < |s| ==> !IsSpace(s[n])
  {
    if s == "" || !IsSpace(s[0]) then 0 else 1 + SpaceRun(s[1..])
  }

  function TrimLeft(s: string): string { s[SpaceRun(s)..] }

  function TrimRight(s: string): (r: string)
    ensures r <= s
    ensures forall i :: |r| <= i < |s| ==> IsSpace(s[i])
  {
    if s != "" && IsSpace(s[|s| - 1]) then TrimRight(s[..|s| - 1]) else s
  }

  function TrimSpace(s: string): string { TrimRight(TrimLeft(s)) }

  predicate IsTokenChar(c: char) {
    'A' <= c <= 'Z' || c == '_' || '0' <= c <= '9'
  }

  function TokenRun(s: string): (n: nat)
    ensures n <= |s| && forall i :: 0 <= i < n ==> IsTokenChar(s[i])
    ensures n < |s| ==> !IsTokenChar(s[n])
  {
    if s == "" || !IsTokenChar(s[0]) then 0 else 1 + TokenRun(s[1..])
  }

  function TokenOf(msg: string): string {
    var s := TrimSpace(msg);
    var token := s[..TokenRun(s)];
    if |token| < 2 then "" else token
  }

  method LeadingToken(message: string) returns (token: string)
    ensures token == TokenOf(message)
  {
    var msg := TrimSpace(message);
    var end := 0;
    while end < |msg|
      invariant 0 <= end <= |msg|
      invariant forall i :: 0 <= i < end ==> IsTokenChar(msg[i])
    {
      if IsTokenChar(msg[end]) {
        end := end + 1;
        continue;
      }
      break;
    }
    assert end < |msg| ==> !IsTokenChar(msg[end]);
    assert TokenRun(msg) == end;
    token := msg[..end];
    if |token| < 2 {
      return "";
    }
  }

  predicate AllSpace(s: string) { forall i :: 0 <= i < |s| ==> IsSpace(s[i]) }

  predicate AllToken(s: string) { forall i :: 0 <= i < |s| ==> IsTokenChar(s[i]) }

  lemma TrimLeftSkipsSpace(ws: string, s: string)
    requires AllSpace(ws) && (s == "" || !IsSpace(s[0]))
    ensures TrimLeft(ws + s) == s
  {
    hide IsSpace;
    assert forall i :: 0 <= i < |ws| ==> (ws + s)[i] == ws[i];
    assert s != "" ==> (ws + s)[|ws|] == s[0];
    assert SpaceRun(ws + s) == |ws|;
  }

  /** `rest` neither continues the token run nor, after an empty run, the white space. */
  predicate Ends(run: string, rest: string) {
    rest == "" || (!IsTokenChar(rest[0]) && (run == "" ==> !IsSpace(rest[0])))
  }

  /** Every message is white space, a token run and a rest that continues neither. */
  lemma MessageHasParts(msg: string) returns (ws: string, run: string, rest: string)
    ensures msg == ws + run + rest && AllSpace(ws) && AllToken(run) && Ends(run, rest)
  {
    hide IsSpace, IsTokenChar, SpaceRun, TokenRun;
    ws := msg[..SpaceRun(msg)];
    var s := msg[SpaceRun(msg)..];
    run := s[..TokenRun(s)];
    rest := s[TokenRun(s)..];
    assert msg == ws + s && s == run + rest;
  }

  /** Of those parts the token is the run, unless it is shorter than two characters. */
  lemma TokenOfParts(ws: string, run: string, rest: string)
    requires AllSpace(ws) && AllToken(run) && Ends(run, rest)
    ensures TokenOf(ws + run + rest) == if |run| >= 2 then run else ""
  {
    TokensAreNoSpace();
    hide IsSpace, IsTokenChar, SpaceRun, TokenRun, TrimLeft, TrimRight;
    assert ws + run + rest == ws + (run + rest);
    TrimLeftSkipsSpace(ws, run + rest);
    TrimRightKeepsRun(run, rest);
  }

  /**
   * The same in plain terms: after any white space, the token is the longest run of
   * capitals, digits and underscores, or blank when that is shorter than two.
   */
  lemma TokenInPlainTerms(ws: string, run: string, rest: string)
    requires forall i :: 0 <= i < |ws| ==> ws[i] in " \t\n\r"
    requires forall i :: 0 <= i < |run| ==> 'A' <= run[i] <= 'Z' || '0' <= run[i] <= '9' || run[i] == '_'
    requires rest != "" ==> !('A' <= rest[0] <= 'Z' || '0' <= rest[0] <= '9' || rest[0] == '_')
    requires rest != "" && run == "" ==> '!' <= rest[0] <= '~'
    ensures TokenOf(ws + run + rest) == if |run| >= 2 then run else ""
  {
    TokenOfParts(ws, run, rest);
  }

  lemma TokensAreNoSpace()
    ensures forall c :: IsTokenChar(c) ==> !IsSpace(c)
  {
  }

  lemma TrimRightKeepsRun(run: string, rest: string)
    requires AllToken(run) && Ends(run, rest)
    ensures var s := TrimRight(run + rest); TokenRun(s) == |run| && s[..|run|] == run
  {
    TokensAreNoSpace();
    hide IsSpace, IsTokenChar, SpaceRun, TokenRun, TrimRight;
    var s := TrimRight(run + rest);
    var k := if |s| < |run| then |s| else 0;  // no trimmed position lies in the run
    assert run != "" ==> (run + rest)[k] == run[k];
    assert |run| <= |s|;
    assert forall i :: 0 <= i < |run| ==> s[i] == run[i];
    assert |run| < |s| ==> s[|run|] == rest[0];
  }

  // ---------------------------------------------------------- mapError

  /** errors.As with a dbus.Error target: the first one, depth first. */
  function FirstDBus(e: Err): (r: Option<Err>)
    ensures r.Some? ==> r.value.DBus?
    decreases e
  {
    match e
    case DBus(_, _) => Some(e)
    case Wrapped(_, inner) => FirstDBus(inner)
    case Joined(errs) => FirstDBusOf(errs)
    case _ => None
  }

  function FirstDBusOf(errs: seq<Err>): (r: Option<Err>)
    ensures r.Some? ==> r.value.DBus?
    decreases errs
  {
    if errs == [] then None
    else if FirstDBus(errs[0]).Some? then FirstDBus(errs[0])
    else FirstDBusOf(errs[1..])
  }

  /** The text of a dbus.Error: its first body element when that is a string, else its name. */
  function DBusMessage(e: Err): string
    requires e.DBus?
  {
    if e.body != [] && e.body[0].Str? then e.body[0].s else e.name
  }

  function MapError(e: Err): Err {
    match FirstDBus(e)
    case None => e
    case Some(d) =>
      if d.name != EXCEPTION_NAME then e
      else
        var msg := DBusMessage(d);
        var code := TokenOf(msg);
        Firewalld(code, msg, SentinelOf(code))
  }

  /** errors.Is against a sentinel: it occurs somewhere in the chain. */
  predicate Matches(e: Err, target: Sentinel)
    decreases e
  {
    match e
    case Sent(id) => id == target
    case Firewalld(_, _, s) => s == Some(target)
    case Wrapped(_, inner) => Matches(inner, target)
    case Joined(errs) => exists i :: 0 <= i < |errs| && Matches(errs[i], target)
    case _ => false
  }

  /** The first dbus error of the chain is a firewalld exception. */
  predicate IsException(e: Err) {
    FirstDBus(e).Some? && FirstDBus(e).value.name == EXCEPTION_NAME
  }

  /**
   * A chain whose first dbus error is an exception with the message "<ws><token><rest>"
   * becomes an error that matches the token's sentinel and no other, and keeps code and
   * message; every other error is returned unchanged.
   */
  lemma {:induction false} MapErrorIsExact(e: Err, ws: string, token: string, rest: string, target: Sentinel)
    requires IsException(e) && DBusMessage(FirstDBus(e).value) == ws + token + rest
    requires AllSpace(ws) && AllToken(token) && |token| >= 2 && (rest == "" || !IsTokenChar(rest[0]))
    ensures Matches(MapError(e), target) <==> SentinelOf(token) == Some(target)
    ensures MapError(e).code == token && MapError(e).message == ws + token + rest
  {
    hide SentinelOf, TokenOf;
    TokenOfParts(ws, token, rest);
  }

  /** Every other error is returned unchanged, and mapping twice is mapping once. */
  lemma MapErrorLeavesOthersAlone(e: Err)
    ensures MapError(e) == e <==> !IsException(e)
    ensures MapError(MapError(e)) == MapError(e)
  {
    hide SentinelOf, TokenOf;
    if IsException(e) {
      assert MapError(e).Firewalld? && FirstDBus(MapError(e)).None?;
    }
  }

  /** An exception without a text body reports its own name, has no code and matches nothing. */
  lemma {:induction false} ExceptionWithoutTextMatchesNothing(e: Err, target: Sentinel)
    requires IsException(e)
    requires var d := FirstDBus(e).value; d.body == [] || !d.body[0].Str?
    ensures MapError(e) == Firewalld("", EXCEPTION_NAME, None)
    ensures !Matches(MapError(e), target)
  {
    hide SentinelOf, TokenOf;
    ExceptionNameHasNoToken();
  }

  lemma ExceptionNameHasNoToken()
    ensures TokenOf(EXCEPTION_NAME) == "" && SentinelOf("") == None
  {
    hide TokenOf;
    assert !IsTokenChar(EXCEPTION_NAME[0]) && !IsSpace(EXCEPTION_NAME[0]);
    TokenOfParts("", "", EXCEPTION_NAME);
    assert "" + "" + EXCEPTION_NAME == EXCEPTION_NAME;
  }

  /**
   * Wrapping hides nothing: an error wrapped in another, or joined behind errors that did
   * not come from the bus, is classified as it would be by itself.
   */
  lemma WrappingHidesNothing(e: Err, text: string, before: seq<Err>, after: seq<Err>)
    requires forall i :: 0 <= i < |before| ==> before[i].Plain? || before[i].Sent?
    requires e.DBus? && e.name == "org.fedoraproject.FirewallD1.Exception"
    ensures MapError(e).Firewalld?
    ensures MapError(Wrapped(text, e)) == MapError(e)
    ensures MapError(Joined(before + [e] + after)) == MapError(e)
  {
    hide SentinelOf, TokenOf;
    FirstOfJoined(before, e, after);
  }

  lemma {:induction false} FirstOfJoined(before: seq<Err>, e: Err, after: seq<Err>)
    requires e.DBus? && forall i :: 0 <= i < |before| ==> before[i].Plain? || before[i].Sent?
    ensures FirstDBusOf(before + [e] + after) == Some(e)
  {
    var errs := before + [e] + after;
    if before == [] {
      assert errs[0] == e;
    } else {
      assert errs[0] == before[0] && errs[1..] == before[1..] + [e] + after;
      FirstOfJoined(before[1..], e, after);
    }
  }

  /** A wrapped sentinel or classified error still matches, and an unrelated one does not. */
  lemma MatchesSeesThroughWrapping(e: Err, text: string, target: Sentinel, other: Err)
    requires other.Plain?
    ensures Matches(Wrapped(text, e), target) <==> Matches(e, target)
    ensures Matches(Joined([other, e]), target) <==> Matches(e, target)
    ensures Matches(Sent(target), target) && !Matches(other, target)
  {
    var errs := [other, e];
    assert errs[0] == other && errs[1] == e;
  }
}
