/** Service settings over the v1 tuple and the a{sv} dict with its key aliases (service.go). */
module ServiceCodec {
  import opened Seqs
  import opened Values
  import opened Boxing

  datatype ServiceSettings = ServiceSettings(
    version: string,
    short: string,
    description: string,
    ports: seq<Port>,
    modules: seq<string>,
    destinations: map<string, string>,
    protocols: seq<string>,
    sourcePorts: seq<Port>,
    includes: seq<string>,
    helpers: seq<string>)

  const ZERO := ServiceSettings("", "", "", [], [], map[], [], [], [], [])

  /** Position i of the serviceTuple struct. */
  function TupleEntry(s: ServiceSettings, i: nat): Value {
    match i
    case 0 => Str(s.version)
    case 1 => Str(s.short)
    case 2 => Str(s.description)
    case 3 => Ports(s.ports)
    case 4 => StrList(s.modules)
    case 5 => StringMap(s.destinations)
    case 6 => StrList(s.protocols)
    case 7 => Ports(s.sourcePorts)
    case _ => Nil
  }

  function TupleFields(s: ServiceSettings): seq<Value> {
    seq(8, i requires 0 <= i < 8 => TupleEntry(s, i))
  }

  function ToTuple(s: ServiceSettings): Value {
    Struct(TupleFields(s))
  }

  function FromTuple(raw: seq<Value>): ServiceSettings {
    ServiceSettings(
      AsString(TupleField(raw, 0)),
      AsString(TupleField(raw, 1)),
      AsString(TupleField(raw, 2)),
      PortsOf(TupleField(raw, 3)),
      Strings(TupleField(raw, 4)),
      StringsByKey(TupleField(raw, 5)),
      Strings(TupleField(raw, 6)),
      PortsOf(TupleField(raw, 7)),
      [], [])
  }

  function SettingsIn(d: Dict): ServiceSettings {
    ServiceSettings(
      StringIn(d, VersionKey),
      StringIn(d, ShortKey),
      StringIn(d, DescriptionKey),
      PortsIn(d, PortListKey),
      StringsIn(d, Preferred(d, ModuleKey, ModulesKey)),
      StringMapIn(d, Preferred(d, DestinationKey, DestinationsKey)),
      StringsIn(d, ProtocolsKey),
      PortsIn(d, SourcePortsKey),
      StringsIn(d, IncludesKey),
      StringsIn(d, HelpersKey))
  }

  /** Fills one field at a time as the keys turn up; a missing key leaves its zero value. */
  method FromDict(d: Dict) returns (s: ServiceSettings)
    ensures s == SettingsIn(d)
  {
    s := ZERO;
    s := s.(version := StringIn(d, VersionKey));
    s := s.(short := StringIn(d, ShortKey));
    s := s.(description := StringIn(d, DescriptionKey));
    var ports := ReadPorts(d, PortListKey);
    s := s.(ports := ports);
    var modules := ReadStrings(d, Preferred(d, ModuleKey, ModulesKey));
    s := s.(modules := modules);
    var destinations := ReadStringMap(d, Preferred(d, DestinationKey, DestinationsKey));
    s := s.(destinations := destinations);
    var protocols := ReadStrings(d, ProtocolsKey);
    s := s.(protocols := protocols);
    var sourcePorts := ReadPorts(d, SourcePortsKey);
    s := s.(sourcePorts := sourcePorts);
    var includes := ReadStrings(d, IncludesKey);
    s := s.(includes := includes);
    var helpers := ReadStrings(d, HelpersKey);
    s := s.(helpers := helpers);
  }

  // ---------------------------------------------------------- properties

  /** All eight tuple fields come back, the destination map included; the rest is zeroed. */
  lemma TupleRoundTrip(s: ServiceSettings, reply: seq<Value>)
    requires TupleReply(TupleFields(s), reply)
    ensures FromTuple(reply) == s.(includes := [], helpers := [])
  {
    TupleScalarsArrive(s, reply);
    TupleListsArrive(s, reply);
  }

  lemma TupleScalarsArrive(s: ServiceSettings, reply: seq<Value>)
    requires TupleReply(TupleFields(s), reply)
    ensures AsString(TupleField(reply, 0)) == s.version
    ensures AsString(TupleField(reply, 1)) == s.short
    ensures AsString(TupleField(reply, 2)) == s.description
    ensures StringsByKey(TupleField(reply, 5)) == s.destinations
  {
    hide TupleReply;
    var sent := TupleFields(s);
    StringField(sent, reply, 0, s.version);
    StringField(sent, reply, 1, s.short);
    StringField(sent, reply, 2, s.description);
    StringMapField(sent, reply, 5, s.destinations);
  }

  lemma TupleListsArrive(s: ServiceSettings, reply: seq<Value>)
    requires TupleReply(TupleFields(s), reply)
    ensures PortsOf(TupleField(reply, 3)) == s.ports
    ensures Strings(TupleField(reply, 4)) == s.modules
    ensures Strings(TupleField(reply, 6)) == s.protocols
    ensures PortsOf(TupleField(reply, 7)) == s.sourcePorts
  {
    hide TupleReply, MapSeq;
    var sent := TupleFields(s);
    PortsField(sent, reply, 3, s.ports);
    StringsField(sent, reply, 4, s.modules);
    StringsField(sent, reply, 6, s.protocols);
    PortsField(sent, reply, 7, s.sourcePorts);
  }

  /**
   * A value a server may file under either of two keys. Under the primary key it may
   * file anything at all under the alias; without either key the value was zero.
   */
  ghost predicate EitherKey(v: Value, d: Dict, primary: Key, alias: Key) {
    || (primary in d && Boxes(OnWire(v), d[primary]))
    || (primary !in d && alias in d && Boxes(OnWire(v), d[alias]))
    || (primary !in d && alias !in d && IsZero(OnWire(v)))
  }

  /** A dict that presents `s`: any boxing, zero values left out, either key spelling. */
  ghost predicate Presents(s: ServiceSettings, d: Dict) {
    && KeyReply(Some(Str(s.version)), DictValue(d, VersionKey))
    && KeyReply(Some(Str(s.short)), DictValue(d, ShortKey))
    && KeyReply(Some(Str(s.description)), DictValue(d, DescriptionKey))
    && KeyReply(Some(Ports(s.ports)), DictValue(d, PortListKey))
    && EitherKey(StrList(s.modules), d, ModuleKey, ModulesKey)
    && EitherKey(StringMap(s.destinations), d, DestinationKey, DestinationsKey)
    && KeyReply(Some(StrList(s.protocols)), DictValue(d, ProtocolsKey))
    && KeyReply(Some(Ports(s.sourcePorts)), DictValue(d, SourcePortsKey))
    && KeyReply(Some(StrList(s.includes)), DictValue(d, IncludesKey))
    && KeyReply(Some(StrList(s.helpers)), DictValue(d, HelpersKey))
  }

  /** Every dict that presents a service reads back as that service, all ten fields. */
  lemma PresentedServiceIsRead(s: ServiceSettings, d: Dict)
    requires Presents(s, d)
    ensures SettingsIn(d) == s
  {
    hide KeyReply, MapSeq;
    StringKey(d, VersionKey, s.version);
    StringKey(d, ShortKey, s.short);
    StringKey(d, DescriptionKey, s.description);
    PortsKey(d, PortListKey, s.ports);
    StringsKey(d, Preferred(d, ModuleKey, ModulesKey), s.modules);
    StringMapKey(d, Preferred(d, DestinationKey, DestinationsKey), s.destinations);
    StringsKey(d, ProtocolsKey, s.protocols);
    PortsKey(d, SourcePortsKey, s.sourcePorts);
    StringsKey(d, IncludesKey, s.includes);
    StringsKey(d, HelpersKey, s.helpers);
  }

  /** Where both transports present the same service they agree on the eight shared fields. */
  lemma {:induction false} TupleAndDictAgree(s: ServiceSettings, tuple: seq<Value>, d: Dict)
    requires TupleReply(TupleFields(s), tuple) && Presents(s, d)
    ensures FromTuple(tuple) == SettingsIn(d).(includes := [], helpers := [])
  {
    TupleRoundTrip(s, tuple);
    PresentedServiceIsRead(s, d);
  }

  /**
   * The primary key wins over its alias, and setting any other key to anything leaves
   * the aliased fields alone.
   */
  lemma OnlyItsOwnKeysInfluenceAField(d: Dict, k: Key, v: Value)
    ensures !k.ModuleKey? && (!k.ModulesKey? || ModuleKey in d) ==>
              SettingsIn(d[k := v]).modules == SettingsIn(d).modules
    ensures !k.DestinationKey? && (!k.DestinationsKey? || DestinationKey in d) ==>
              SettingsIn(d[k := v]).destinations == SettingsIn(d).destinations
    ensures SettingsIn(d[ModuleKey := v]).modules == Strings(v)
    ensures SettingsIn(d[DestinationKey := v]).destinations == StringsByKey(v)
  {
  }

  /** Re-boxing any parts of a decoded dict changes nothing in the record. */
  lemma DictSeesThroughBoxes(d: Dict, boxed: Dict)
    requires BoxesDict(d, boxed)
    ensures SettingsIn(boxed) == SettingsIn(d)
  {
    EntriesSeeThroughBoxes(d, boxed);
  }

  /** Re-boxing any parts of a decoded tuple, of any length, changes nothing in the record. */
  lemma TupleSeesThroughBoxes(raw: seq<Value>, boxed: seq<Value>)
    requires OffTheWire(raw) && BoxesAll(raw, boxed)
    ensures FromTuple(boxed) == FromTuple(raw)
  {
    hide TupleField, AsString, AsBool, AsInt32, Strings, PortsOf, ForwardsOf, StringsByKey;
    forall i {:trigger TupleField(raw, i)} ensures FieldsAgree(TupleField(raw, i), TupleField(boxed, i)) {
      FieldSeesThroughBoxes(raw, boxed, i);
    }
  }
}
