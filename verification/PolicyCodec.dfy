/** Policy settings, exchanged only as an a{sv} dict (policy.go). */
module PolicyCodec {
  import opened Seqs
  import opened Values
  import opened Boxing

  datatype PolicySettings = PolicySettings(
    version: string,
    short: string,
    description: string,
    target: string,
    priority: Int32,
    ingressZones: seq<string>,
    egressZones: seq<string>,
    services: seq<string>,
    ports: seq<Port>,
    sourcePorts: seq<Port>,
    icmpBlocks: seq<string>,
    masquerade: bool,
    forwardPorts: seq<ForwardPort>,
    richRules: seq<string>,
    protocols: seq<string>)

  const ZERO := PolicySettings("", "", "", "", 0, [], [], [], [], [], [], false, [], [], [])

  const TARGET_CONTINUE := "CONTINUE"

  function TargetOrContinue(target: string): string {
    if target == "" then TARGET_CONTINUE else target
  }

  function DictOf(s: PolicySettings): Dict {
    map[
      VersionKey := Str(s.version),
      ShortKey := Str(s.short),
      DescriptionKey := Str(s.description),
      TargetKey := Str(TargetOrContinue(s.target)),
      PriorityKey := I32(s.priority),
      IngressZonesKey := StrList(s.ingressZones),
      EgressZonesKey := StrList(s.egressZones),
      ServicesKey := StrList(s.services),
      PortListKey := Ports(s.ports),
      SourcePortsKey := Ports(s.sourcePorts),
      IcmpBlocksKey := StrList(s.icmpBlocks),
      MasqueradeKey := Bool(s.masquerade),
      ForwardPortListKey := ForwardPorts(s.forwardPorts),
      RichRulesKey := StrList(s.richRules),
      ProtocolsKey := StrList(s.protocols)
    ]
  }

  function SettingsIn(d: Dict): PolicySettings {
    PolicySettings(
      StringIn(d, VersionKey),
      StringIn(d, ShortKey),
      StringIn(d, DescriptionKey),
      StringIn(d, TargetKey),
      Int32In(d, PriorityKey),
      StringsIn(d, IngressZonesKey),
      StringsIn(d, EgressZonesKey),
      StringsIn(d, ServicesKey),
      PortsIn(d, PortListKey),
      PortsIn(d, SourcePortsKey),
      StringsIn(d, IcmpBlocksKey),
      BoolIn(d, MasqueradeKey),
      ForwardsIn(d, ForwardPortListKey),
      StringsIn(d, Preferred(d, RulesStrKey, RichRulesKey)),
      StringsIn(d, ProtocolsKey))
  }

  /** Fills one field at a time as the keys turn up; a missing key leaves its zero value. */
  method FromDict(d: Dict) returns (s: PolicySettings)
    ensures s == SettingsIn(d)
  {
    s := ZERO;
    s := s.(version := StringIn(d, VersionKey));
    s := s.(short := StringIn(d, ShortKey));
    s := s.(description := StringIn(d, DescriptionKey));
    s := s.(target := StringIn(d, TargetKey));
    s := s.(priority := Int32In(d, PriorityKey));
    var ingressZones := ReadStrings(d, IngressZonesKey);
    s := s.(ingressZones := ingressZones);
    var egressZones := ReadStrings(d, EgressZonesKey);
    s := s.(egressZones := egressZones);
    var services := ReadStrings(d, ServicesKey);
    s := s.(services := services);
    var ports := ReadPorts(d, PortListKey);
    s := s.(ports := ports);
    var sourcePorts := ReadPorts(d, SourcePortsKey);
    s := s.(sourcePorts := sourcePorts);
    var icmpBlocks := ReadStrings(d, IcmpBlocksKey);
    s := s.(icmpBlocks := icmpBlocks);
    s := s.(masquerade := BoolIn(d, MasqueradeKey));
    var forwardPorts := ReadForwards(d, ForwardPortListKey);
    s := s.(forwardPorts := forwardPorts);
    var richRules := ReadStrings(d, Preferred(d, RulesStrKey, RichRulesKey));
    s := s.(richRules := richRules);
    var protocols := ReadStrings(d, ProtocolsKey);
    s := s.(protocols := protocols);
  }

  // --------------------------------------------------------- round trip

  function Entry(s: PolicySettings, k: Key): Option<Value> {
    match k
    case VersionKey => Some(Str(s.version))
    case ShortKey => Some(Str(s.short))
    case DescriptionKey => Some(Str(s.description))
    case TargetKey => Some(Str(TargetOrContinue(s.target)))
    case PriorityKey => Some(I32(s.priority))
    case IngressZonesKey => Some(StrList(s.ingressZones))
    case EgressZonesKey => Some(StrList(s.egressZones))
    case ServicesKey => Some(StrList(s.services))
    case PortListKey => Some(Ports(s.ports))
    case SourcePortsKey => Some(Ports(s.sourcePorts))
    case IcmpBlocksKey => Some(StrList(s.icmpBlocks))
    case MasqueradeKey => Some(Bool(s.masquerade))
    case ForwardPortListKey => Some(ForwardPorts(s.forwardPorts))
    case RichRulesKey => Some(StrList(s.richRules))
    case ProtocolsKey => Some(StrList(s.protocols))
    case _ => None
  }

  /** The dict holds exactly these entries, nothing else. */
  lemma DictHolds(s: PolicySettings, k: Key)
    ensures DictValue(DictOf(s), k) == Entry(s, k)
  {
  }

  predicate Reads(k: Key) {
    match k
    case VersionKey | ShortKey | DescriptionKey | TargetKey | PriorityKey | IngressZonesKey => true
    case EgressZonesKey | ServicesKey | PortListKey | SourcePortsKey | IcmpBlocksKey => true
    case MasqueradeKey | ForwardPortListKey | RulesStrKey | RichRulesKey | ProtocolsKey => true
    case _ => false
  }

  /** A server's reply to a stored dict, judged on the keys the client reads. */
  ghost predicate DictReply(stored: Dict, reply: Dict) {
    forall k {:trigger DictValue(reply, k)} :: Reads(k) ==> KeyReply(DictValue(stored, k), DictValue(reply, k))
  }

  ghost predicate EntryReply(s: PolicySettings, reply: Dict) {
    forall k {:trigger DictValue(reply, k)} :: Reads(k) ==> KeyReply(Entry(s, k), DictValue(reply, k))
  }

  lemma EntriesComeBack(s: PolicySettings, reply: Dict)
    requires DictReply(DictOf(s), reply)
    ensures EntryReply(s, reply)
  {
    forall k | Reads(k) ensures KeyReply(Entry(s, k), DictValue(reply, k)) {
      DictHolds(s, k);
    }
  }

  /**
   * The decoder reads "rules_str" before the "rich_rules" the encoder writes, so the
   * rules survive exactly when no "rules_str" comes back or there were no rules.
   */
  lemma RulesComeBack(s: PolicySettings, reply: Dict)
    requires EntryReply(s, reply)
    ensures StringsIn(reply, Preferred(reply, RulesStrKey, RichRulesKey)) == s.richRules
            <==> RulesStrKey !in reply || s.richRules == []
  {
    StringsKey(reply, RichRulesKey, s.richRules);
    UnsentKey(reply, RulesStrKey);
  }

  lemma ScalarsComeBack(s: PolicySettings, reply: Dict)
    requires EntryReply(s, reply)
    ensures StringIn(reply, VersionKey) == s.version
    ensures StringIn(reply, ShortKey) == s.short
    ensures StringIn(reply, DescriptionKey) == s.description
    ensures StringIn(reply, TargetKey) == TargetOrContinue(s.target)
    ensures Int32In(reply, PriorityKey) == s.priority
    ensures BoolIn(reply, MasqueradeKey) == s.masquerade
  {
    hide KeyReply, MapSeq, StrList;
    hide StringIn, BoolIn, Int32In, StringsIn, PortsIn, ForwardsIn;
    StringKey(reply, VersionKey, s.version);
    StringKey(reply, ShortKey, s.short);
    StringKey(reply, DescriptionKey, s.description);
    StringKey(reply, TargetKey, TargetOrContinue(s.target));
    Int32Key(reply, PriorityKey, s.priority);
    BoolKey(reply, MasqueradeKey, s.masquerade);
  }

  lemma ListsComeBack(s: PolicySettings, reply: Dict)
    requires EntryReply(s, reply)
    ensures StringsIn(reply, IngressZonesKey) == s.ingressZones
    ensures StringsIn(reply, EgressZonesKey) == s.egressZones
    ensures StringsIn(reply, ServicesKey) == s.services
    ensures StringsIn(reply, IcmpBlocksKey) == s.icmpBlocks
    ensures StringsIn(reply, ProtocolsKey) == s.protocols
    ensures PortsIn(reply, PortListKey) == s.ports
    ensures PortsIn(reply, SourcePortsKey) == s.sourcePorts
    ensures ForwardsIn(reply, ForwardPortListKey) == s.forwardPorts
  {
    hide KeyReply, MapSeq, StrList;
    hide StringIn, BoolIn, Int32In, StringsIn, PortsIn, ForwardsIn;
    StringsKey(reply, IngressZonesKey, s.ingressZones);
    StringsKey(reply, EgressZonesKey, s.egressZones);
    StringsKey(reply, ServicesKey, s.services);
    StringsKey(reply, IcmpBlocksKey, s.icmpBlocks);
    StringsKey(reply, ProtocolsKey, s.protocols);
    PortsKey(reply, PortListKey, s.ports);
    PortsKey(reply, SourcePortsKey, s.sourcePorts);
    ForwardsKey(reply, ForwardPortListKey, s.forwardPorts);
  }

  /**
   * The dict carries a policy without loss, whatever is re-boxed or left out, exactly
   * when the server adds no empty "rules_str" of its own to a policy with rich rules; an
   * empty target, and no other, comes back as "CONTINUE".
   */
  lemma PolicyRoundTrip(s: PolicySettings, reply: Dict)
    requires DictReply(DictOf(s), reply)
    ensures SettingsIn(reply) == s.(target := if s.target == "" then "CONTINUE" else s.target)
            <==> RulesStrKey !in reply || s.richRules == []
  {
    hide DictReply, EntryReply;
    EntriesComeBack(s, reply);
    ScalarsComeBack(s, reply);
    ListsComeBack(s, reply);
    RulesComeBack(s, reply);
  }

  /** A reply that re-boxes nothing and adds an empty "rules_str" hides the rich rules. */
  lemma EmptyRulesStrHidesRichRules(rule: string)
    ensures var s := ZERO.(richRules := [rule]);
            var reply := map[
              TargetKey := Str(TARGET_CONTINUE), RulesStrKey := StrList([]), RichRulesKey := StrList([rule])
            ];
            DictReply(DictOf(s), reply) && SettingsIn(reply).richRules == []
  {
    hide DictOf;
    var s := ZERO.(richRules := [rule]);
    var reply := map[TargetKey := Str(TARGET_CONTINUE), RulesStrKey := StrList([]), RichRulesKey := StrList([rule])];
    forall k | Reads(k) ensures KeyReply(DictValue(DictOf(s), k), DictValue(reply, k)) {
      DictHolds(s, k);
      if k.RichRulesKey? {
        StrListArrives([rule]);
        BoxesReflexive(StrList([rule]));
      } else if k.RulesStrKey? {
        assert IsZero(StrList([])) && Boxes(StrList([]), StrList([]));
      }
    }
    assert Elems(StrList([])) == [];
  }

  /** Re-boxing any parts of a decoded dict changes nothing in the record. */
  lemma DictSeesThroughBoxes(d: Dict, boxed: Dict)
    requires BoxesDict(d, boxed)
    ensures SettingsIn(boxed) == SettingsIn(d)
  {
    EntriesSeeThroughBoxes(d, boxed);
  }
}
