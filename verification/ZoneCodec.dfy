/**
 * Zone settings over both transports (zonesettings.go): the positional v1 tuple and
 * the a{sv} dict with omitted keys.
 */
module ZoneCodec {
  import opened Seqs
  import opened Values
  import opened Boxing

  datatype ZoneSettings = ZoneSettings(
    version: string,
    short: string,
    description: string,
    target: string,
    services: seq<string>,
    ports: seq<Port>,
    icmpBlocks: seq<string>,
    masquerade: bool,
    forwardPorts: seq<ForwardPort>,
    interfaces: seq<string>,
    sources: seq<string>,
    richRules: seq<string>,
    protocols: seq<string>,
    sourcePorts: seq<Port>,
    icmpBlockInversion: bool,
    forward: bool,
    egressPriority: Int32,
    ingressPriority: Int32)

  const ZERO := ZoneSettings("", "", "", "", [], [], [], false, [], [], [], [], [], [], false, false, 0, 0)

  const TARGET_DEFAULT := "default"

  function TargetOrDefault(target: string): string {
    if target == "" then TARGET_DEFAULT else target
  }

  // ----------------------------------------------------------- v1 tuple

  /** Position i of the zoneTuple struct; firewalld fixes the order, and position 3 is dead. */
  function TupleEntry(s: ZoneSettings, i: nat): Value {
    match i
    case 0 => Str(s.version)
    case 1 => Str(s.short)
    case 2 => Str(s.description)
    case 3 => Bool(false)
    case 4 => Str(TargetOrDefault(s.target))
    case 5 => StrList(s.services)
    case 6 => Ports(s.ports)
    case 7 => StrList(s.icmpBlocks)
    case 8 => Bool(s.masquerade)
    case 9 => ForwardPorts(s.forwardPorts)
    case 10 => StrList(s.interfaces)
    case 11 => StrList(s.sources)
    case 12 => StrList(s.richRules)
    case 13 => StrList(s.protocols)
    case 14 => Ports(s.sourcePorts)
    case 15 => Bool(s.icmpBlockInversion)
    case _ => Nil
  }

  function TupleFields(s: ZoneSettings): seq<Value> {
    seq(16, i requires 0 <= i < 16 => TupleEntry(s, i))
  }

  function ToTuple(s: ZoneSettings): Value {
    Struct(TupleFields(s))
  }

  function FromTuple(raw: seq<Value>): ZoneSettings {
    ZoneSettings(
      AsString(TupleField(raw, 0)),
      AsString(TupleField(raw, 1)),
      AsString(TupleField(raw, 2)),
      AsString(TupleField(raw, 4)),
      Strings(TupleField(raw, 5)),
      PortsOf(TupleField(raw, 6)),
      Strings(TupleField(raw, 7)),
      AsBool(TupleField(raw, 8)),
      ForwardsOf(TupleField(raw, 9)),
      Strings(TupleField(raw, 10)),
      Strings(TupleField(raw, 11)),
      Strings(TupleField(raw, 12)),
      Strings(TupleField(raw, 13)),
      PortsOf(TupleField(raw, 14)),
      AsBool(TupleField(raw, 15)),
      false, 0, 0)
  }

  // ------------------------------------------------------------ v2 dict

  /** The sixteen entries every dict carries. */
  function BaseEntries(s: ZoneSettings, target: string): Dict {
    map[
      VersionKey := Str(s.version),
      ShortKey := Str(s.short),
      DescriptionKey := Str(s.description),
      TargetKey := Str(target),
      ServicesKey := StrList(s.services),
      PortListKey := Ports(s.ports),
      IcmpBlocksKey := StrList(s.icmpBlocks),
      MasqueradeKey := Bool(s.masquerade),
      ForwardPortListKey := ForwardPorts(s.forwardPorts),
      InterfacesKey := StrList(s.interfaces),
      SourcesKey := StrList(s.sources),
      RulesStrKey := StrList(s.richRules),
      ProtocolsKey := StrList(s.protocols),
      SourcePortsKey := Ports(s.sourcePorts),
      IcmpBlockInversionKey := Bool(s.icmpBlockInversion),
      ForwardKey := Bool(s.forward)
    ]
  }

  /** A priority key is sent only when the priority is not zero. */
  function WithPriority(d: Dict, key: Key, priority: Int32): Dict {
    if priority != 0 then d[key := I32(priority)] else d
  }

  function DictOf(s: ZoneSettings): Dict {
    WithPriority(
      WithPriority(BaseEntries(s, TargetOrDefault(s.target)), EgressPriorityKey, s.egressPriority),
      IngressPriorityKey, s.ingressPriority)
  }

  method ToDict(s: ZoneSettings) returns (d: Dict)
    ensures d == DictOf(s)
  {
    var target := s.target;
    if target == "" {
      target := TARGET_DEFAULT;
    }
    d := BaseEntries(s, target);
    if s.egressPriority != 0 {
      d := d[EgressPriorityKey := I32(s.egressPriority)];
    }
    if s.ingressPriority != 0 {
      d := d[IngressPriorityKey := I32(s.ingressPriority)];
    }
  }

  function SettingsIn(d: Dict): ZoneSettings {
    ZoneSettings(
      StringIn(d, VersionKey),
      StringIn(d, ShortKey),
      StringIn(d, DescriptionKey),
      StringIn(d, TargetKey),
      StringsIn(d, ServicesKey),
      PortsIn(d, PortListKey),
      StringsIn(d, IcmpBlocksKey),
      BoolIn(d, MasqueradeKey),
      ForwardsIn(d, ForwardPortListKey),
      StringsIn(d, InterfacesKey),
      StringsIn(d, SourcesKey),
      StringsIn(d, Preferred(d, RulesStrKey, RichRulesKey)),
      StringsIn(d, ProtocolsKey),
      PortsIn(d, SourcePortsKey),
      BoolIn(d, IcmpBlockInversionKey),
      BoolIn(d, ForwardKey),
      Int32In(d, EgressPriorityKey),
      Int32In(d, IngressPriorityKey))
  }

  /** Fills one field at a time as the keys turn up; a missing key leaves its zero value. */
  method FromDict(d: Dict) returns (s: ZoneSettings)
    ensures s == SettingsIn(d)
  {
    s := ZERO;
    s := s.(version := StringIn(d, VersionKey));
    s := s.(short := StringIn(d, ShortKey));
    s := s.(description := StringIn(d, DescriptionKey));
    s := s.(target := StringIn(d, TargetKey));
    var services := ReadStrings(d, ServicesKey);
    s := s.(services := services);
    var ports := ReadPorts(d, PortListKey);
    s := s.(ports := ports);
    var icmpBlocks := ReadStrings(d, IcmpBlocksKey);
    s := s.(icmpBlocks := icmpBlocks);
    s := s.(masquerade := BoolIn(d, MasqueradeKey));
    var forwardPorts := ReadForwards(d, ForwardPortListKey);
    s := s.(forwardPorts := forwardPorts);
    var interfaces := ReadStrings(d, InterfacesKey);
    s := s.(interfaces := interfaces);
    var sources := ReadStrings(d, SourcesKey);
    s := s.(sources := sources);
    var richRules := ReadStrings(d, Preferred(d, RulesStrKey, RichRulesKey));
    s := s.(richRules := richRules);
    var protocols := ReadStrings(d, ProtocolsKey);
    s := s.(protocols := protocols);
    var sourcePorts := ReadPorts(d, SourcePortsKey);
    s := s.(sourcePorts := sourcePorts);
    s := s.(icmpBlockInversion := BoolIn(d, IcmpBlockInversionKey));
    s := s.(forward := BoolIn(d, ForwardKey));
    s := s.(egressPriority := Int32In(d, EgressPriorityKey));
    s := s.(ingressPriority := Int32In(d, IngressPriorityKey));
  }

  // ------------------------------------------------------- round trips

  /** What the dict holds under each key; a priority is sent only when it is not zero. */
  function Entry(s: ZoneSettings, k: Key): Option<Value> {
    match k
    case VersionKey => Some(Str(s.version))
    case ShortKey => Some(Str(s.short))
    case DescriptionKey => Some(Str(s.description))
    case TargetKey => Some(Str(TargetOrDefault(s.target)))
    case ServicesKey => Some(StrList(s.services))
    case PortListKey => Some(Ports(s.ports))
    case IcmpBlocksKey => Some(StrList(s.icmpBlocks))
    case MasqueradeKey => Some(Bool(s.masquerade))
    case ForwardPortListKey => Some(ForwardPorts(s.forwardPorts))
    case InterfacesKey => Some(StrList(s.interfaces))
    case SourcesKey => Some(StrList(s.sources))
    case RulesStrKey => Some(StrList(s.richRules))
    case ProtocolsKey => Some(StrList(s.protocols))
    case SourcePortsKey => Some(Ports(s.sourcePorts))
    case IcmpBlockInversionKey => Some(Bool(s.icmpBlockInversion))
    case ForwardKey => Some(Bool(s.forward))
    case EgressPriorityKey => if s.egressPriority != 0 then Some(I32(s.egressPriority)) else None
    case IngressPriorityKey => if s.ingressPriority != 0 then Some(I32(s.ingressPriority)) else None
    case _ => None
  }

  lemma BaseHolds(s: ZoneSettings, k: Key)
    ensures DictValue(BaseEntries(s, TargetOrDefault(s.target)), k) ==
            if k.EgressPriorityKey? || k.IngressPriorityKey? then None else Entry(s, k)
  {
  }

  lemma PrioritiesHold(s: ZoneSettings, base: Dict, k: Key)
    requires DictValue(base, k) == if k.EgressPriorityKey? || k.IngressPriorityKey? then None else Entry(s, k)
    ensures var egress := WithPriority(base, EgressPriorityKey, s.egressPriority);
            DictValue(WithPriority(egress, IngressPriorityKey, s.ingressPriority), k) == Entry(s, k)
  {
  }

  /** The dict holds exactly these entries, nothing else. */
  lemma DictHolds(s: ZoneSettings, k: Key)
    ensures DictValue(DictOf(s), k) == Entry(s, k)
  {
    BaseHolds(s, k);
    PrioritiesHold(s, BaseEntries(s, TargetOrDefault(s.target)), k);
  }

  predicate Reads(k: Key) {
    match k
    case VersionKey | ShortKey | DescriptionKey | TargetKey | ServicesKey | PortListKey => true
    case IcmpBlocksKey | MasqueradeKey | ForwardPortListKey | InterfacesKey | SourcesKey => true
    case RulesStrKey | RichRulesKey | ProtocolsKey | SourcePortsKey | IcmpBlockInversionKey => true
    case ForwardKey | EgressPriorityKey | IngressPriorityKey => true
    case _ => false
  }

  /**
   * A server's reply to a stored dict, judged on the keys the client reads. Any other
   * key may hold anything.
   */
  ghost predicate DictReply(stored: Dict, reply: Dict) {
    forall k {:trigger DictValue(reply, k)} :: Reads(k) ==> KeyReply(DictValue(stored, k), DictValue(reply, k))
  }

  ghost predicate EntryReply(s: ZoneSettings, reply: Dict) {
    forall k {:trigger DictValue(reply, k)} :: Reads(k) ==> KeyReply(Entry(s, k), DictValue(reply, k))
  }

  /** A priority survives although a zero one is never sent. */
  lemma PriorityKey(priority: Int32, sent: Option<Value>, reply: Dict, k: Key)
    requires sent == if priority != 0 then Some(I32(priority)) else None
    requires KeyReply(sent, DictValue(reply, k))
    ensures Int32In(reply, k) == priority
  {
    if priority != 0 {
      Int32Key(reply, k, priority);
    } else {
      UnsentKey(reply, k);
    }
  }

  lemma RulesComeBack(s: ZoneSettings, reply: Dict)
    requires EntryReply(s, reply)
    ensures StringsIn(reply, Preferred(reply, RulesStrKey, RichRulesKey)) == s.richRules
  {
    StringsKey(reply, RulesStrKey, s.richRules);
    UnsentKey(reply, RichRulesKey);
  }

  lemma ScalarsComeBack(s: ZoneSettings, reply: Dict)
    requires EntryReply(s, reply)
    ensures StringIn(reply, VersionKey) == s.version
    ensures StringIn(reply, ShortKey) == s.short
    ensures StringIn(reply, DescriptionKey) == s.description
    ensures StringIn(reply, TargetKey) == TargetOrDefault(s.target)
    ensures BoolIn(reply, MasqueradeKey) == s.masquerade
    ensures BoolIn(reply, IcmpBlockInversionKey) == s.icmpBlockInversion
    ensures BoolIn(reply, ForwardKey) == s.forward
    ensures Int32In(reply, EgressPriorityKey) == s.egressPriority
    ensures Int32In(reply, IngressPriorityKey) == s.ingressPriority
  {
    hide KeyReply, MapSeq, StrList;
    hide StringIn, BoolIn, Int32In, StringsIn, PortsIn, ForwardsIn;
    StringKey(reply, VersionKey, s.version);
    StringKey(reply, ShortKey, s.short);
    StringKey(reply, DescriptionKey, s.description);
    StringKey(reply, TargetKey, TargetOrDefault(s.target));
    BoolKey(reply, MasqueradeKey, s.masquerade);
    BoolKey(reply, IcmpBlockInversionKey, s.icmpBlockInversion);
    BoolKey(reply, ForwardKey, s.forward);
    PriorityKey(s.egressPriority, Entry(s, EgressPriorityKey), reply, EgressPriorityKey);
    PriorityKey(s.ingressPriority, Entry(s, IngressPriorityKey), reply, IngressPriorityKey);
  }

  lemma ListsComeBack(s: ZoneSettings, reply: Dict)
    requires EntryReply(s, reply)
    ensures StringsIn(reply, ServicesKey) == s.services
    ensures StringsIn(reply, IcmpBlocksKey) == s.icmpBlocks
    ensures StringsIn(reply, InterfacesKey) == s.interfaces
    ensures StringsIn(reply, SourcesKey) == s.sources
    ensures StringsIn(reply, ProtocolsKey) == s.protocols
    ensures PortsIn(reply, PortListKey) == s.ports
    ensures ForwardsIn(reply, ForwardPortListKey) == s.forwardPorts
    ensures PortsIn(reply, SourcePortsKey) == s.sourcePorts
  {
    hide KeyReply, MapSeq, StrList;
    hide StringIn, BoolIn, Int32In, StringsIn, PortsIn, ForwardsIn;
    StringsKey(reply, ServicesKey, s.services);
    StringsKey(reply, IcmpBlocksKey, s.icmpBlocks);
    StringsKey(reply, InterfacesKey, s.interfaces);
    StringsKey(reply, SourcesKey, s.sources);
    StringsKey(reply, ProtocolsKey, s.protocols);
    PortsKey(reply, PortListKey, s.ports);
    ForwardsKey(reply, ForwardPortListKey, s.forwardPorts);
    PortsKey(reply, SourcePortsKey, s.sourcePorts);
  }

  /**
   * The dict transport loses nothing, whatever the server re-boxes or leaves out; an
   * empty target, and no other, comes back as "default".
   */
  lemma DictRoundTrip(s: ZoneSettings, reply: Dict)
    requires DictReply(DictOf(s), reply)
    ensures SettingsIn(reply) == s.(target := if s.target == "" then "default" else s.target)
  {
    hide DictReply, EntryReply;
    EntriesComeBack(s, reply);
    ScalarsComeBack(s, reply);
    ListsComeBack(s, reply);
    RulesComeBack(s, reply);
  }

  lemma {:induction false} EntriesComeBack(s: ZoneSettings, reply: Dict)
    requires DictReply(DictOf(s), reply)
    ensures EntryReply(s, reply)
  {
    forall k | Reads(k) ensures KeyReply(Entry(s, k), DictValue(reply, k)) {
      DictHolds(s, k);
    }
  }

  // ------------------------------------------------------ tuple results

  lemma TupleScalarsArrive(s: ZoneSettings, reply: seq<Value>)
    requires TupleReply(TupleFields(s), reply)
    ensures AsString(TupleField(reply, 0)) == s.version
    ensures AsString(TupleField(reply, 1)) == s.short
    ensures AsString(TupleField(reply, 2)) == s.description
    ensures AsString(TupleField(reply, 4)) == TargetOrDefault(s.target)
    ensures AsBool(TupleField(reply, 8)) == s.masquerade
    ensures AsBool(TupleField(reply, 15)) == s.icmpBlockInversion
  {
    hide TupleReply, MapSeq, TupleField, StrList, AsString, AsBool;
    var sent := TupleFields(s);
    StringField(sent, reply, 0, s.version);
    StringField(sent, reply, 1, s.short);
    StringField(sent, reply, 2, s.description);
    StringField(sent, reply, 4, TargetOrDefault(s.target));
    BoolField(sent, reply, 8, s.masquerade);
    BoolField(sent, reply, 15, s.icmpBlockInversion);
  }

  lemma TupleStringsArrive(s: ZoneSettings, reply: seq<Value>)
    requires TupleReply(TupleFields(s), reply)
    ensures Strings(TupleField(reply, 5)) == s.services
    ensures Strings(TupleField(reply, 7)) == s.icmpBlocks
    ensures Strings(TupleField(reply, 10)) == s.interfaces
    ensures Strings(TupleField(reply, 11)) == s.sources
    ensures Strings(TupleField(reply, 12)) == s.richRules
    ensures Strings(TupleField(reply, 13)) == s.protocols
  {
    hide TupleReply, MapSeq, TupleField, StrList, Strings;
    var sent := TupleFields(s);
    StringsField(sent, reply, 5, s.services);
    StringsField(sent, reply, 7, s.icmpBlocks);
    StringsField(sent, reply, 10, s.interfaces);
    StringsField(sent, reply, 11, s.sources);
    StringsField(sent, reply, 12, s.richRules);
    StringsField(sent, reply, 13, s.protocols);
  }

  lemma TuplePortsArrive(s: ZoneSettings, reply: seq<Value>)
    requires TupleReply(TupleFields(s), reply)
    ensures PortsOf(TupleField(reply, 6)) == s.ports
    ensures ForwardsOf(TupleField(reply, 9)) == s.forwardPorts
    ensures PortsOf(TupleField(reply, 14)) == s.sourcePorts
  {
    hide TupleReply, MapSeq, TupleField, StrList, PortsOf, ForwardsOf;
    var sent := TupleFields(s);
    PortsField(sent, reply, 6, s.ports);
    ForwardsField(sent, reply, 9, s.forwardPorts);
    PortsField(sent, reply, 14, s.sourcePorts);
  }

  /**
   * The tuple transport keeps all fifteen of its fields and nothing else; an empty
   * target, and no other, comes back as "default".
   */
  lemma {:induction false} TupleRoundTrip(s: ZoneSettings, reply: seq<Value>)
    requires TupleReply(TupleFields(s), reply)
    ensures FromTuple(reply) == s.(
              target := if s.target == "" then "default" else s.target,
              forward := false, egressPriority := 0, ingressPriority := 0)
  {
    hide TupleReply, MapSeq, TupleFields, TupleField, AsString, AsBool, Strings, PortsOf, ForwardsOf;
    TupleScalarsArrive(s, reply);
    TupleStringsArrive(s, reply);
    TuplePortsArrive(s, reply);
  }

  /** Both transports carry the same record, up to the three dict-only fields. */
  lemma {:induction false} TupleAndDictAgree(s: ZoneSettings, tuple: seq<Value>, dict: Dict)
    requires TupleReply(TupleFields(s), tuple) && DictReply(DictOf(s), dict)
    ensures FromTuple(tuple) == SettingsIn(dict).(forward := false, egressPriority := 0, ingressPriority := 0)
    ensures SettingsIn(dict).forward == s.forward
    ensures SettingsIn(dict).egressPriority == s.egressPriority
    ensures SettingsIn(dict).ingressPriority == s.ingressPriority
  {
    TupleRoundTrip(s, tuple);
    DictRoundTrip(s, dict);
  }

  /** The record with every field whose tuple index is n or more zeroed. */
  function Truncated(s: ZoneSettings, n: nat): ZoneSettings {
    ZoneSettings(
      if n > 0 then s.version else "",
      if n > 1 then s.short else "",
      if n > 2 then s.description else "",
      if n > 4 then s.target else "",
      if n > 5 then s.services else [],
      if n > 6 then s.ports else [],
      if n > 7 then s.icmpBlocks else [],
      if n > 8 then s.masquerade else false,
      if n > 9 then s.forwardPorts else [],
      if n > 10 then s.interfaces else [],
      if n > 11 then s.sources else [],
      if n > 12 then s.richRules else [],
      if n > 13 then s.protocols else [],
      if n > 14 then s.sourcePorts else [],
      if n > 15 then s.icmpBlockInversion else false,
      s.forward, s.egressPriority, s.ingressPriority)
  }

  /** A short tuple costs exactly the fields it lacks; a long one is read to index 15. */
  lemma TupleTruncation(raw: seq<Value>, n: nat)
    requires n <= |raw|
    ensures FromTuple(raw[..n]) == Truncated(FromTuple(raw), n)
    ensures n >= 16 ==> FromTuple(raw[..n]) == FromTuple(raw)
  {
    NilDecodesToZero();
    forall i | 0 <= i < 16 ensures TupleField(raw[..n], i) == if i < n then TupleField(raw, i) else Nil {}
  }

  lemma NilDecodesToZero()
    ensures AsString(Nil) == "" && !AsBool(Nil)
    ensures Strings(Nil) == [] && PortsOf(Nil) == [] && ForwardsOf(Nil) == []
  {
  }

  /** Re-boxing any parts of a decoded tuple changes nothing in the record. */
  lemma {:induction false} TupleSeesThroughBoxes(raw: seq<Value>, boxed: seq<Value>)
    requires OffTheWire(raw) && BoxesAll(raw, boxed)
    ensures FromTuple(boxed) == FromTuple(raw)
  {
    hide TupleField, AsString, AsBool, AsInt32, Strings, PortsOf, ForwardsOf, StringsByKey;
    forall i {:trigger TupleField(raw, i)} ensures FieldsAgree(TupleField(raw, i), TupleField(boxed, i)) {
      FieldSeesThroughBoxes(raw, boxed, i);
    }
  }

  /** Re-boxing any parts of a decoded dict changes nothing in the record. */
  lemma DictSeesThroughBoxes(d: Dict, boxed: Dict)
    requires BoxesDict(d, boxed)
    ensures SettingsIn(boxed) == SettingsIn(d)
  {
    EntriesSeeThroughBoxes(d, boxed);
  }
}
