/** Version strings and the capabilities they grant (caps.go). */
module Versions {
  import opened Seqs

  datatype Version = Version(major: int, minor: int, patch: int, raw: string)

  /** The largest `int` of a 64-bit build. */
  const INT_MAX := 0x7fff_ffff_ffff_ffff

  // ----------------------------------------------------------- scanning

  predicate IsDigit(c: char) { '0' <= c <= '9' }

  predicate AllDigits(s: string) { forall i :: 0 <= i < |s| ==> IsDigit(s[i]) }

  /** How many leading characters of `s` are digits. */
  function DigitRun(s: string): (n: nat)
    ensures n <= |s| && AllDigits(s[..n])
    ensures n < |s| ==> !IsDigit(s[n])
  {
    if s == "" || !IsDigit(s[0]) then 0 else 1 + DigitRun(s[1..])
  }

  function ValueOf(digits: string): nat
    requires AllDigits(digits)
  {
    if digits == "" then 0
    else ValueOf(digits[..|digits| - 1]) * 10 + (digits[|digits| - 1] - '0') as nat
  }

  /** strconv.Atoi on a run of digits: None when it is empty or exceeds an int. */
  function Atoi(digits: string): Option<nat>
    requires AllDigits(digits)
  {
    if digits == "" || ValueOf(digits) > INT_MAX then None else Some(ValueOf(digits))
  }

  function LeadingNumber(s: string): nat {
    match Atoi(s[..DigitRun(s)])
    case Some(n) => n
    case None => 0
  }

  method LeadingInt(s: string) returns (n: nat)
    ensures n == LeadingNumber(s)
  {
    var end := 0;
    while end < |s| && IsDigit(s[end])
      invariant 0 <= end <= |s| && AllDigits(s[..end])
    {
      end := end + 1;
    }
    DigitRunIsMaximal(s, end);
    if end == 0 {
      return 0;
    }
    match Atoi(s[..end]) {
      case None => return 0;
      case Some(v) => return v;
    }
  }

  lemma {:induction false} DigitRunIsMaximal(s: string, end: nat)
    requires end <= |s| && AllDigits(s[..end]) && (end < |s| ==> !IsDigit(s[end]))
    ensures DigitRun(s) == end
  {
  }

  /** The index of the first dot, |s| when there is none. */
  function FirstDot(s: string): (i: nat)
    ensures i <= |s| && '.' !in s[..i]
    ensures i < |s| ==> s[i] == '.'
  {
    if s == "" || s[0] == '.' then 0
    else
      assert s[..1 + FirstDot(s[1..])] == [s[0]] + s[1..][..FirstDot(s[1..])];
      1 + FirstDot(s[1..])
  }

  /** strings.SplitN(s, ".", n): at most n parts, the last one unsplit. */
  function SplitN(s: string, n: nat): (parts: seq<string>)
    requires n >= 1
    ensures 1 <= |parts| <= n
  {
    var i := FirstDot(s);
    if n == 1 || i == |s| then [s] else [s[..i]] + SplitN(s[i + 1..], n - 1)
  }

  function NumberAt(parts: seq<string>, i: nat): nat {
    if i < |parts| then LeadingNumber(parts[i]) else 0
  }

  function Parsed(raw: string): Version {
    var parts := SplitN(raw, 3);
    Version(NumberAt(parts, 0), NumberAt(parts, 1), NumberAt(parts, 2), raw)
  }

  method ParseVersion(raw: string) returns (v: Version)
    ensures v == Parsed(raw)
  {
    var parts := SplitN(raw, 3);
    var dst := new nat[3](_ => 0);
    var i := 0;
    while i < |parts| && i < 3
      invariant 0 <= i <= |parts| <= 3
      invariant forall j :: 0 <= j < i ==> dst[j] == NumberAt(parts, j)
      invariant forall j :: i <= j < 3 ==> dst[j] == 0
    {
      var n := LeadingInt(parts[i]);
      dst[i] := n;
      i := i + 1;
    }
    v := Version(dst[0], dst[1], dst[2], raw);
  }

  // -------------------------------------------------------- print, parse

  /** The decimal rendering of a number. */
  function Decimal(n: nat): (s: string)
    ensures s != "" && AllDigits(s)
  {
    if n < 10 then [n as char + '0'] else Decimal(n / 10) + [(n % 10) as char + '0']
  }

  lemma {:induction false} DecimalHasItsValue(n: nat)
    ensures ValueOf(Decimal(n)) == n
  {
    var s := Decimal(n);
    if n < 10 {
      assert s[..0] == "";
    } else {
      assert s[..|s| - 1] == Decimal(n / 10);
      DecimalHasItsValue(n / 10);
    }
  }

  /** Digits count ten per place, the last one for itself. */
  lemma TenPerPlace(digits: string, d: char)
    requires AllDigits(digits) && '0' <= d <= '9'
    ensures AllDigits(digits + [d])
    ensures ValueOf("") == 0
    ensures ValueOf(digits + [d]) == 10 * ValueOf(digits) + (d as int - '0' as int)
  {
    assert (digits + [d])[..|digits|] == digits;
  }

  /** leadingInt is the value of the maximal digit prefix, 0 when it is empty or too large. */
  lemma {:induction false} LeadingNumberOfPrefix(digits: string, rest: string)
    requires AllDigits(digits) && (rest == "" || !IsDigit(rest[0]))
    ensures LeadingNumber(digits + rest) == if ValueOf(digits) <= INT_MAX then ValueOf(digits) else 0
  {
    var s := digits + rest;
    assert s[..|digits|] == digits;
    DigitRunIsMaximal(s, |digits|);
  }

  lemma LeadingNumberOfDecimal(n: nat, rest: string)
    requires rest == "" || !IsDigit(rest[0])
    ensures LeadingNumber(Decimal(n) + rest) == if n <= INT_MAX then n else 0
  {
    DecimalHasItsValue(n);
    LeadingNumberOfPrefix(Decimal(n), rest);
  }

  lemma {:induction false} FirstDotAfterDigits(digits: string, rest: string)
    requires AllDigits(digits)
    ensures FirstDot(digits + "." + rest) == |digits|
    ensures SplitN(digits + "." + rest, 3) == [digits] + SplitN(rest, 2)
    ensures SplitN(digits + "." + rest, 2) == [digits, rest]
  {
    var s := digits + "." + rest;
    assert s[|digits|] == '.';
    assert forall i :: 0 <= i < |digits| ==> s[i] == digits[i];
    assert s[..|digits|] == digits && s[|digits| + 1..] == rest;
  }

  /** A printed version parses back to its components, whatever non-digit suffix follows. */
  lemma {:induction false} PrintParse(major: nat, minor: nat, patch: nat, suffix: string)
    requires major < 0x8000_0000_0000_0000 && minor < 0x8000_0000_0000_0000 && patch < 0x8000_0000_0000_0000
    requires suffix == "" || !('0' <= suffix[0] <= '9')
    ensures var raw := Decimal(major) + "." + (Decimal(minor) + "." + (Decimal(patch) + suffix));
            Parsed(raw) == Version(major, minor, patch, raw)
  {
    hide Decimal, ValueOf, LeadingNumber, FirstDot, SplitN;
    var last := Decimal(patch) + suffix;
    FirstDotAfterDigits(Decimal(major), Decimal(minor) + "." + last);
    FirstDotAfterDigits(Decimal(minor), last);
    LeadingNumberOfDecimal(major, "");
    LeadingNumberOfDecimal(minor, "");
    LeadingNumberOfDecimal(patch, suffix);
    assert Decimal(major) + "" == Decimal(major) && Decimal(minor) + "" == Decimal(minor);
  }

  /** Missing components read as zero. */
  lemma PrintParseShort(major: nat, minor: nat, suffix: string)
    requires major <= INT_MAX && minor <= INT_MAX
    requires '.' !in suffix && (suffix == "" || !IsDigit(suffix[0]))
    ensures var raw := Decimal(major) + suffix; Parsed(raw) == Version(major, 0, 0, raw)
    ensures var raw := Decimal(major) + "." + (Decimal(minor) + suffix); Parsed(raw) == Version(major, minor, 0, raw)
  {
    NoDotNoSplit(Decimal(major), suffix);
    NoDotNoSplit(Decimal(minor), suffix);
    LeadingNumberOfDecimal(major, suffix);
    LeadingNumberOfDecimal(minor, suffix);
    FirstDotAfterDigits(Decimal(major), Decimal(minor) + suffix);
    LeadingNumberOfDecimal(major, "");
    assert Decimal(major) + "" == Decimal(major);
  }

  lemma NoDotNoSplit(digits: string, suffix: string)
    requires AllDigits(digits) && '.' !in suffix
    ensures SplitN(digits + suffix, 3) == [digits + suffix] && SplitN(digits + suffix, 2) == [digits + suffix]
  {
  }

  // ------------------------------------------------------- capabilities

  datatype Capability = DictZoneSettings | Policies | ServiceSettings2 | AddZone2 | ResetToDefaults

  predicate AtLeast(v: Version, major: int, minor: int) {
    if v.major != major then v.major > major else v.minor >= minor
  }

  function CapsFor(v: Version): set<Capability> {
    (if AtLeast(v, 0, 9) then {DictZoneSettings, Policies, AddZone2} else {})
    + (if AtLeast(v, 1, 0) then {ServiceSettings2, ResetToDefaults} else {})
  }

  /** The release that brought a capability. */
  function Since(c: Capability): (int, int) {
    match c
    case DictZoneSettings | Policies | AddZone2 => (0, 9)
    case ServiceSettings2 | ResetToDefaults => (1, 0)
  }

  /** Lexicographic order on (major, minor). */
  predicate NotAfter(a: (int, int), b: (int, int)) {
    a.0 < b.0 || (a.0 == b.0 && a.1 <= b.1)
  }

  lemma AtLeastIsLexicographic(v: Version, major: int, minor: int)
    ensures AtLeast(v, major, minor) <==> NotAfter((major, minor), (v.major, v.minor))
  {
  }

  /** The gates, in plain terms. */
  lemma CapsInPlainTerms(v: Version)
    requires v.major >= 0
    ensures forall c :: c in {DictZoneSettings, Policies, AddZone2} ==>
              (c in CapsFor(v) <==> v.major > 0 || v.minor >= 9)
    ensures forall c :: c in {ServiceSettings2, ResetToDefaults} ==>
              (c in CapsFor(v) <==> v.major > 1 || (v.major == 1 && v.minor >= 0))
  {
  }

  /** Capabilities are exactly those released by then, so newer servers only gain. */
  lemma CapsGrowWithVersion(v: Version, w: Version)
    requires NotAfter((v.major, v.minor), (w.major, w.minor))
    ensures forall c :: c in CapsFor(v) <==> NotAfter(Since(c), (v.major, v.minor))
    ensures CapsFor(v) <= CapsFor(w)
  {
  }

  /** End to end: a printed release has a capability exactly when it is recent enough. */
  lemma CapsOfPrintedRelease(major: nat, minor: nat, patch: nat, suffix: string, c: Capability)
    requires major <= INT_MAX && minor <= INT_MAX && patch <= INT_MAX
    requires suffix == "" || !IsDigit(suffix[0])
    ensures c in CapsFor(Parsed(Decimal(major) + "." + (Decimal(minor) + "." + (Decimal(patch) + suffix))))
            <==> NotAfter(Since(c), (major, minor))
  {
    PrintParse(major, minor, patch, suffix);
  }
}
