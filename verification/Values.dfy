/**
 * The dynamic values a D-Bus reply decodes to, and the length-tolerant helpers
 * every settings decoder reads them with (decode.go).
 *
 * A Go slice is a sequence here, so nil and empty slices are the same value.
 */
module Values {
  import opened Seqs

  type Int32 = x: int | -0x8000_0000 <= x < 0x8000_0000
  type UInt32 = x: int | 0 <= x < 0x1_0000_0000
  type Int64 = x: int | -0x8000_0000_0000_0000 <= x < 0x8000_0000_0000_0000

  datatype Port = Port(port: string, protocol: string)
  datatype ForwardPort = ForwardPort(port: string, protocol: string, toPort: string, toAddr: string)

  const NO_PORT := Port("", "")
  const NO_FORWARD := ForwardPort("", "", "", "")

  /**
   * The D-Bus type a Go type encodes to; an `any` and a dbus.Variant both encode as a
   * `VariantT`, and `NoType` marks what does not encode at all.
   */
  datatype Type =
    | StringT | BoolT | IntT | Int64T | UInt32T
    | VariantT
    | StringDictT
    | VariantDictT
    | ArrayOf(elem: Type)
    | StructOf(fields: seq<Type>)
    | NoType

  /**
   * A Go value held in an `any`. `Ports` and `ForwardPorts` are the native slices
   * []Port and []ForwardPort; `List` is every other slice, under the static type of its
   * elements: a []string is a list of `StringT`, a []any or
   * []dbus.Variant one of `VariantT`. `Struct` is a Go struct,
   * which reflection does not treat as a slice. `OtherInt` holds the integer widths
   * asInt32 does not accept and `Other` every remaining kind.
   */
  datatype Value =
    | Nil
    | Str(s: string)
    | Bool(b: bool)
    | I32(i32: Int32)
    | GoInt(goInt: Int64)
    | I64(i64: Int64)
    | U32(u32: UInt32)
    | OtherInt(n: int)
    | List(kind: Type, elems: seq<Value>)
    | Struct(fields: seq<Value>)
    | Ports(ports: seq<Port>)
    | ForwardPorts(forwards: seq<ForwardPort>)
    | StringMap(strings: map<string, string>)
    | Map(entries: map<string, Value>)
    | Boxed(content: Value)
    | Other

  /** The settings keys the codecs use; every other string is an `ExtraKey`. */
  datatype Key =
    | VersionKey
    | ShortKey
    | DescriptionKey
    | TargetKey
    | ServicesKey
    | PortListKey
    | IcmpBlocksKey
    | MasqueradeKey
    | ForwardPortListKey
    | InterfacesKey
    | SourcesKey
    | RulesStrKey
    | RichRulesKey
    | ProtocolsKey
    | SourcePortsKey
    | IcmpBlockInversionKey
    | ForwardKey
    | EgressPriorityKey
    | IngressPriorityKey
    | PriorityKey
    | IngressZonesKey
    | EgressZonesKey
    | ModuleKey
    | ModulesKey
    | DestinationKey
    | DestinationsKey
    | IncludesKey
    | HelpersKey
    | ExtraKey(name: ExtraName)

  /** The spellings of the settings keys. */
  const SPELLINGS: set<string> := {
    "version", "short", "description", "target", "services", "ports", "icmp_blocks", "masquerade",
    "forward_ports", "interfaces", "sources", "rules_str", "rich_rules", "protocols", "source_ports",
    "icmp_block_inversion", "forward", "egress_priority", "ingress_priority", "priority", "ingress_zones",
    "egress_zones", "module", "modules", "destination", "destinations", "includes", "helpers"
  }

  predicate IsSpelling(s: string) { s in SPELLINGS }

  type ExtraName = s: string | !IsSpelling(s) witness ""

  /** The spelling of a key on the bus. */
  function Spelling(k: Key): string {
    match k
    case VersionKey => "version"
    case ShortKey => "short"
    case DescriptionKey => "description"
    case TargetKey => "target"
    case ServicesKey => "services"
    case PortListKey => "ports"
    case IcmpBlocksKey => "icmp_blocks"
    case MasqueradeKey => "masquerade"
    case ForwardPortListKey => "forward_ports"
    case InterfacesKey => "interfaces"
    case SourcesKey => "sources"
    case RulesStrKey => "rules_str"
    case RichRulesKey => "rich_rules"
    case ProtocolsKey => "protocols"
    case SourcePortsKey => "source_ports"
    case IcmpBlockInversionKey => "icmp_block_inversion"
    case ForwardKey => "forward"
    case EgressPriorityKey => "egress_priority"
    case IngressPriorityKey => "ingress_priority"
    case PriorityKey => "priority"
    case IngressZonesKey => "ingress_zones"
    case EgressZonesKey => "egress_zones"
    case ModuleKey => "module"
    case ModulesKey => "modules"
    case DestinationKey => "destination"
    case DestinationsKey => "destinations"
    case IncludesKey => "includes"
    case HelpersKey => "helpers"
    case ExtraKey(name) => name
  }

  /** Length, first and fourth character tell the settings keys apart. */
  function Shape(k: Key): (nat, char, char)
    requires !k.ExtraKey?
  {
    match k
    case VersionKey => (7, 'v', 's')
    case ShortKey => (5, 's', 'r')
    case DescriptionKey => (11, 'd', 'c')
    case TargetKey => (6, 't', 'g')
    case ServicesKey => (8, 's', 'v')
    case PortListKey => (5, 'p', 't')
    case IcmpBlocksKey => (11, 'i', 'p')
    case MasqueradeKey => (10, 'm', 'q')
    case ForwardPortListKey => (13, 'f', 'w')
    case InterfacesKey => (10, 'i', 'e')
    case SourcesKey => (7, 's', 'r')
    case RulesStrKey => (9, 'r', 'e')
    case RichRulesKey => (10, 'r', 'h')
    case ProtocolsKey => (9, 'p', 't')
    case SourcePortsKey => (12, 's', 'r')
    case IcmpBlockInversionKey => (20, 'i', 'p')
    case ForwardKey => (7, 'f', 'w')
    case EgressPriorityKey => (15, 'e', 'e')
    case IngressPriorityKey => (16, 'i', 'r')
    case PriorityKey => (8, 'p', 'o')
    case IngressZonesKey => (13, 'i', 'r')
    case EgressZonesKey => (12, 'e', 'e')
    case ModuleKey => (6, 'm', 'u')
    case ModulesKey => (7, 'm', 'u')
    case DestinationKey => (11, 'd', 't')
    case DestinationsKey => (12, 'd', 't')
    case IncludesKey => (8, 'i', 'l')
    case HelpersKey => (7, 'h', 'p')
  }

  lemma SpellingHasShape(k: Key)
    requires !k.ExtraKey?
    ensures IsSpelling(Spelling(k)) && |Spelling(k)| > 3
    ensures (|Spelling(k)|, Spelling(k)[0], Spelling(k)[3]) == Shape(k)
  {
  }

  lemma ShapesAreDistinct(k: Key, j: Key)
    requires !k.ExtraKey? && !j.ExtraKey? && Shape(k) == Shape(j)
    ensures k == j
  {
  }

  /** No string is the spelling of two keys, so a `Dict` is a map from strings. */
  lemma SpellingsAreDistinct(k: Key, j: Key)
    requires Spelling(k) == Spelling(j)
    ensures k == j
  {
    hide Spelling, Shape, IsSpelling;
    if !k.ExtraKey? && !j.ExtraKey? {
      SpellingHasShape(k);
      SpellingHasShape(j);
      ShapesAreDistinct(k, j);
    } else if k.ExtraKey? {
      ExtrasSpellThemselves(k);
      if j.ExtraKey? { ExtrasSpellThemselves(j); } else { SpellingHasShape(j); }
    } else {
      ExtrasSpellThemselves(j);
      SpellingHasShape(k);
    }
  }

  lemma ExtrasSpellThemselves(k: Key)
    requires k.ExtraKey?
    ensures Spelling(k) == k.name && !IsSpelling(Spelling(k))
  {
  }

  /** An a{sv} dict; each key maps to the content of its variant. */
  type Dict = map<Key, Value>

  // ---------------------------------------------------------------- unwrap

  /** The value left once every outer variant is peeled off. */
  function Unwrapped(v: Value): (r: Value)
    ensures !r.Boxed?
    ensures !v.Boxed? ==> r == v
  {
    if v.Boxed? then Unwrapped(v.content) else v
  }

  method Unwrap(v: Value) returns (r: Value)
    ensures r == Unwrapped(v)
  {
    r := v;
    while r.Boxed?
      invariant Unwrapped(r) == Unwrapped(v)
      decreases r
    {
      r := r.content;
    }
  }

  // ------------------------------------------------------------ sliceElems

  function PortStruct(p: Port): Value {
    Struct([Str(p.port), Str(p.protocol)])
  }

  function ForwardStruct(f: ForwardPort): Value {
    Struct([Str(f.port), Str(f.protocol), Str(f.toPort), Str(f.toAddr)])
  }

  /** What reflection sees: the elements of a slice-kinded value, None otherwise. */
  function Reflected(v: Value): Option<seq<Value>> {
    match v
    case List(_, xs) => Some(xs)
    case Ports(ps) => Some(MapSeq(PortStruct, ps))
    case ForwardPorts(fs) => Some(MapSeq(ForwardStruct, fs))
    case _ => None
  }

  /** The unwrapped elements of a slice, however deep in variants it and they sit. */
  function Elems(v: Value): seq<Value> {
    match Reflected(Unwrapped(v))
    case Some(xs) => MapSeq(Unwrapped, xs)
    case None => []
  }

  method SliceElems(v: Value) returns (out: seq<Value>)
    ensures out == Elems(v)
  {
    var u := Unwrap(v);
    match Reflected(u) {
      case None =>
        return [];
      case Some(rv) =>
        var buf := new Value[|rv|](_ => Nil);
        var i := 0;
        while i < |rv|
          invariant 0 <= i <= |rv|
          invariant forall j :: 0 <= j < i ==> buf[j] == Unwrapped(rv[j])
        {
          var e := Unwrap(rv[i]);
          buf[i] := e;
          i := i + 1;
        }
        return buf[..];
    }
  }

  // --------------------------------------------------------------- scalars

  function TupleField(raw: seq<Value>, i: int): Value {
    if i < 0 || i >= |raw| then Nil else raw[i]
  }

  function AsString(v: Value): string {
    match Unwrapped(v)
    case Str(s) => s
    case _ => ""
  }

  function AsBool(v: Value): bool {
    match Unwrapped(v)
    case Bool(b) => b
    case _ => false
  }

  /** Go's conversion of a wider integer to int32: keep the low 32 bits, read signed. */
  function Narrow(n: int): Int32 {
    (n + 0x8000_0000) % 0x1_0000_0000 - 0x8000_0000
  }

  function AsInt32(v: Value): Int32 {
    match Unwrapped(v)
    case I32(n) => n
    case GoInt(n) => Narrow(n)
    case I64(n) => Narrow(n)
    case U32(n) => Narrow(n)
    case _ => 0
  }

  /** Each scalar decoder reads its own kind, at any depth of variants, and nothing else. */
  lemma ScalarsReadTheirOwnKind(v: Value)
    ensures var u := Unwrapped(v);
            && AsString(v) == (if u.Str? then u.s else "")
            && AsBool(v) == (u.Bool? && u.b)
            && (!u.I32? && !u.GoInt? && !u.I64? && !u.U32? ==> AsInt32(v) == 0)
    ensures Unwrapped(Boxed(v)) == Unwrapped(v)
  {
  }

  // ----------------------------------------------------------------- lists

  function Strings(v: Value): seq<string> {
    MapSeq(AsString, Elems(v))
  }

  method AsStrings(v: Value) returns (out: seq<string>)
    ensures out == Strings(v)
  {
    var els := SliceElems(v);
    out := [];
    for i := 0 to |els|
      invariant out == MapSeq(AsString, els[..i])
    {
      out := out + [AsString(els[i])];
    }
    assert els[..|els|] == els;
  }

  /** The string at position i of a decoded tuple, "" when the tuple is too short. */
  function StringAt(els: seq<Value>, i: nat): string {
    if i < |els| then AsString(els[i]) else ""
  }

  function PairOf(v: Value): (string, string) {
    var els := Elems(v);
    (StringAt(els, 0), StringAt(els, 1))
  }

  method Pair(v: Value) returns (a: string, b: string)
    ensures (a, b) == PairOf(v)
  {
    var els := SliceElems(v);
    a, b := "", "";
    if |els| > 0 {
      a := AsString(els[0]);
    }
    if |els| > 1 {
      b := AsString(els[1]);
    }
  }

  function QuadOf(v: Value): (string, string, string, string) {
    var els := Elems(v);
    (StringAt(els, 0), StringAt(els, 1), StringAt(els, 2), StringAt(els, 3))
  }

  method Quad(v: Value) returns (a: string, b: string, c: string, d: string)
    ensures (a, b, c, d) == QuadOf(v)
  {
    var els := SliceElems(v);
    var buf := new string[4](_ => "");
    var i := 0;
    while i < |els| && i < 4
      invariant 0 <= i <= 4 && i <= |els|
      invariant forall j :: 0 <= j < i ==> buf[j] == StringAt(els, j)
      invariant forall j :: i <= j < 4 ==> buf[j] == ""
    {
      buf[i] := AsString(els[i]);
      i := i + 1;
    }
    a, b, c, d := buf[0], buf[1], buf[2], buf[3];
  }

  function PortOf(e: Value): Port {
    var (a, b) := PairOf(e);
    Port(a, b)
  }

  function ForwardOf(e: Value): ForwardPort {
    var (a, b, c, d) := QuadOf(e);
    ForwardPort(a, b, c, d)
  }

  /** A native []Port is returned as it is, before any variant is peeled. */
  function PortsOf(v: Value): seq<Port> {
    if v.Ports? then v.ports else MapSeq(PortOf, Elems(v))
  }

  method AsPorts(v: Value) returns (out: seq<Port>)
    ensures out == PortsOf(v)
  {
    if v.Ports? {
      return v.ports;
    }
    var els := SliceElems(v);
    out := [];
    for i := 0 to |els|
      invariant out == MapSeq(PortOf, els[..i])
    {
      var p, proto := Pair(els[i]);
      out := out + [Port(p, proto)];
    }
    assert els[..|els|] == els;
  }

  function ForwardsOf(v: Value): seq<ForwardPort> {
    if v.ForwardPorts? then v.forwards else MapSeq(ForwardOf, Elems(v))
  }

  method AsForwardPorts(v: Value) returns (out: seq<ForwardPort>)
    ensures out == ForwardsOf(v)
  {
    if v.ForwardPorts? {
      return v.forwards;
    }
    var els := SliceElems(v);
    out := [];
    for i := 0 to |els|
      invariant out == MapSeq(ForwardOf, els[..i])
    {
      var p, proto, toPort, toAddr := Quad(els[i]);
      out := out + [ForwardPort(p, proto, toPort, toAddr)];
    }
    assert els[..|els|] == els;
  }

  // ------------------------------------------------------------------ maps

  function StringsByKey(v: Value): map<string, string> {
    match Unwrapped(v)
    case StringMap(m) => m
    case Map(m) => map k | k in m :: AsString(m[k])
    case _ => map[]
  }

  method AsStringMap(v: Value) returns (out: map<string, string>)
    ensures out == StringsByKey(v)
  {
    var u := Unwrap(v);
    match u {
      case StringMap(m) =>
        return m;
      case Map(m) =>
        out := map[];
        var todo := m.Keys;
        while todo != {}
          invariant todo <= m.Keys
          invariant out == map k | k in m.Keys - todo :: AsString(m[k])
          decreases |todo|
        {
          var k :| k in todo;
          out := out[k := AsString(m[k])];
          todo := todo - {k};
        }
      case _ =>
        return map[];
    }
  }

  /** The value under key k of a dict, if the server sent it. */
  function DictValue(d: Dict, k: Key): Option<Value> {
    if k in d then Some(d[k]) else None
  }

  // ---------------------------------------------------------- dict readers

  function StringIn(d: Dict, k: Key): string { if k in d then AsString(d[k]) else "" }
  function BoolIn(d: Dict, k: Key): bool { if k in d then AsBool(d[k]) else false }
  function Int32In(d: Dict, k: Key): Int32 { if k in d then AsInt32(d[k]) else 0 }
  function StringsIn(d: Dict, k: Key): seq<string> { if k in d then Strings(d[k]) else [] }
  function PortsIn(d: Dict, k: Key): seq<Port> { if k in d then PortsOf(d[k]) else [] }
  function ForwardsIn(d: Dict, k: Key): seq<ForwardPort> { if k in d then ForwardsOf(d[k]) else [] }

  function StringMapIn(d: Dict, k: Key): map<string, string> { if k in d then StringsByKey(d[k]) else map[] }

  /** The primary key when the dict has it, its alias otherwise. */
  function Preferred(d: Dict, primary: Key, alias: Key): Key {
    if primary in d then primary else alias
  }

  method ReadStrings(d: Dict, k: Key) returns (xs: seq<string>)
    ensures xs == StringsIn(d, k)
  {
    xs := [];
    var v := DictValue(d, k);
    if v.Some? {
      xs := AsStrings(v.value);
    }
  }

  method ReadPorts(d: Dict, k: Key) returns (ps: seq<Port>)
    ensures ps == PortsIn(d, k)
  {
    ps := [];
    var v := DictValue(d, k);
    if v.Some? {
      ps := AsPorts(v.value);
    }
  }

  method ReadForwards(d: Dict, k: Key) returns (fs: seq<ForwardPort>)
    ensures fs == ForwardsIn(d, k)
  {
    fs := [];
    var v := DictValue(d, k);
    if v.Some? {
      fs := AsForwardPorts(v.value);
    }
  }

  method ReadStringMap(d: Dict, k: Key) returns (m: map<string, string>)
    ensures m == StringMapIn(d, k)
  {
    m := map[];
    var v := DictValue(d, k);
    if v.Some? {
      m := AsStringMap(v.value);
    }
  }
}
