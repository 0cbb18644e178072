/**
 * Where each field sits on the wire: by position in a tuple and by the spelling of its
 * key in a dict (zonesettings.go, policy.go, service.go).
 */
module Layouts {
  import opened Seqs
  import opened Values
  import opened Boxing
  import ZoneCodec
  import PolicyCodec
  import ServiceCodec

  // ------------------------------------------------------------- tuples

  /** The v1 zone tuple; position 3 is always false. */
  lemma ZoneTupleByPosition(s: ZoneCodec.ZoneSettings)
    ensures var sent := ZoneCodec.TupleFields(s);
            |sent| == 16
            && sent[0] == Str(s.version) && sent[1] == Str(s.short)
            && sent[2] == Str(s.description) && sent[3] == Bool(false)
            && sent[4] == Str(if s.target == "" then "default" else s.target) && sent[5] == StrList(s.services)
            && sent[6] == Ports(s.ports) && sent[7] == StrList(s.icmpBlocks)
            && sent[8] == Bool(s.masquerade) && sent[9] == ForwardPorts(s.forwardPorts)
            && sent[10] == StrList(s.interfaces) && sent[11] == StrList(s.sources)
            && sent[12] == StrList(s.richRules) && sent[13] == StrList(s.protocols)
            && sent[14] == Ports(s.sourcePorts) && sent[15] == Bool(s.icmpBlockInversion)
  {
    hide MapSeq, StrList;
  }

  /** The v1 service tuple. */
  lemma ServiceTupleByPosition(s: ServiceCodec.ServiceSettings)
    ensures var sent := ServiceCodec.TupleFields(s);
            |sent| == 8
            && sent[0] == Str(s.version) && sent[1] == Str(s.short)
            && sent[2] == Str(s.description) && sent[3] == Ports(s.ports)
            && sent[4] == StrList(s.modules) && sent[5] == StringMap(s.destinations)
            && sent[6] == StrList(s.protocols) && sent[7] == Ports(s.sourcePorts)
  {
    hide MapSeq, StrList;
  }

  // -------------------------------------------------------------- dicts

  /** The dict, seen as a map from strings, holds v under the key. */
  ghost predicate Holds(d: Dict, key: string, v: Value) {
    exists k :: k in d && Spelling(k) == key && d[k] == v
  }

  /** The dict has no such key. */
  ghost predicate Lacks(d: Dict, key: string) {
    forall k :: k in d ==> Spelling(k) != key
  }

  lemma OnlyKey(k: Key, key: string)
    requires Spelling(k) == key
    ensures forall j: Key {:trigger Spelling(j)} :: Spelling(j) == key ==> j == k
  {
    hide Spelling, IsSpelling;
    forall j: Key | Spelling(j) == key ensures j == k {
      SpellingsAreDistinct(j, k);
    }
  }

  /** A key's spelling finds that key and no other. */
  lemma Named(d: Dict, k: Key, key: string, v: Value)
    requires Spelling(k) == key
    ensures Holds(d, key, v) <==> k in d && d[k] == v
    ensures Lacks(d, key) <==> k !in d
  {
    OnlyKey(k, key);
    hide Spelling, IsSpelling;
  }

  /** The zone dict, by the spelling of its keys. */
  lemma ZoneDictIdentity(s: ZoneCodec.ZoneSettings)
    ensures Holds(ZoneCodec.DictOf(s), "version", Str(s.version))
    ensures Holds(ZoneCodec.DictOf(s), "short", Str(s.short))
    ensures Holds(ZoneCodec.DictOf(s), "description", Str(s.description))
    ensures Holds(ZoneCodec.DictOf(s), "target", Str(if s.target == "" then "default" else s.target))
  {
    hide MapSeq, StrList, Holds, ZoneCodec.DictOf;
    var d := ZoneCodec.DictOf(s);
    ZoneCodec.DictHolds(s, VersionKey);
    Named(d, VersionKey, "version", Str(s.version));
    ZoneCodec.DictHolds(s, ShortKey);
    Named(d, ShortKey, "short", Str(s.short));
    ZoneCodec.DictHolds(s, DescriptionKey);
    Named(d, DescriptionKey, "description", Str(s.description));
    ZoneCodec.DictHolds(s, TargetKey);
    Named(d, TargetKey, "target", Str(if s.target == "" then "default" else s.target));
  }

  lemma ZoneDictServices(s: ZoneCodec.ZoneSettings)
    ensures Holds(ZoneCodec.DictOf(s), "services", StrList(s.services))
    ensures Holds(ZoneCodec.DictOf(s), "ports", Ports(s.ports))
    ensures Holds(ZoneCodec.DictOf(s), "icmp_blocks", StrList(s.icmpBlocks))
    ensures Holds(ZoneCodec.DictOf(s), "masquerade", Bool(s.masquerade))
  {
    hide MapSeq, StrList, Holds, ZoneCodec.DictOf;
    var d := ZoneCodec.DictOf(s);
    ZoneCodec.DictHolds(s, ServicesKey);
    Named(d, ServicesKey, "services", StrList(s.services));
    ZoneCodec.DictHolds(s, PortListKey);
    Named(d, PortListKey, "ports", Ports(s.ports));
    ZoneCodec.DictHolds(s, IcmpBlocksKey);
    Named(d, IcmpBlocksKey, "icmp_blocks", StrList(s.icmpBlocks));
    ZoneCodec.DictHolds(s, MasqueradeKey);
    Named(d, MasqueradeKey, "masquerade", Bool(s.masquerade));
  }

  lemma ZoneDictBindings(s: ZoneCodec.ZoneSettings)
    ensures Holds(ZoneCodec.DictOf(s), "forward_ports", ForwardPorts(s.forwardPorts))
    ensures Holds(ZoneCodec.DictOf(s), "interfaces", StrList(s.interfaces))
    ensures Holds(ZoneCodec.DictOf(s), "sources", StrList(s.sources))
    ensures Holds(ZoneCodec.DictOf(s), "rules_str", StrList(s.richRules))
  {
    hide MapSeq, StrList, Holds, ZoneCodec.DictOf;
    var d := ZoneCodec.DictOf(s);
    ZoneCodec.DictHolds(s, ForwardPortListKey);
    Named(d, ForwardPortListKey, "forward_ports", ForwardPorts(s.forwardPorts));
    ZoneCodec.DictHolds(s, InterfacesKey);
    Named(d, InterfacesKey, "interfaces", StrList(s.interfaces));
    ZoneCodec.DictHolds(s, SourcesKey);
    Named(d, SourcesKey, "sources", StrList(s.sources));
    ZoneCodec.DictHolds(s, RulesStrKey);
    Named(d, RulesStrKey, "rules_str", StrList(s.richRules));
  }

  lemma ZoneDictProtocols(s: ZoneCodec.ZoneSettings)
    ensures Holds(ZoneCodec.DictOf(s), "protocols", StrList(s.protocols))
    ensures Holds(ZoneCodec.DictOf(s), "source_ports", Ports(s.sourcePorts))
    ensures Holds(ZoneCodec.DictOf(s), "icmp_block_inversion", Bool(s.icmpBlockInversion))
    ensures Holds(ZoneCodec.DictOf(s), "forward", Bool(s.forward))
  {
    hide MapSeq, StrList, Holds, ZoneCodec.DictOf;
    var d := ZoneCodec.DictOf(s);
    ZoneCodec.DictHolds(s, ProtocolsKey);
    Named(d, ProtocolsKey, "protocols", StrList(s.protocols));
    ZoneCodec.DictHolds(s, SourcePortsKey);
    Named(d, SourcePortsKey, "source_ports", Ports(s.sourcePorts));
    ZoneCodec.DictHolds(s, IcmpBlockInversionKey);
    Named(d, IcmpBlockInversionKey, "icmp_block_inversion", Bool(s.icmpBlockInversion));
    ZoneCodec.DictHolds(s, ForwardKey);
    Named(d, ForwardKey, "forward", Bool(s.forward));
  }

  /** A priority is there exactly when it is not zero, and the fallback key never is. */
  lemma ZoneDictPriorities(s: ZoneCodec.ZoneSettings)
    ensures s.egressPriority != 0 ==> Holds(ZoneCodec.DictOf(s), "egress_priority", I32(s.egressPriority))
    ensures s.egressPriority == 0 ==> Lacks(ZoneCodec.DictOf(s), "egress_priority")
    ensures s.ingressPriority != 0 ==> Holds(ZoneCodec.DictOf(s), "ingress_priority", I32(s.ingressPriority))
    ensures s.ingressPriority == 0 ==> Lacks(ZoneCodec.DictOf(s), "ingress_priority")
    ensures Lacks(ZoneCodec.DictOf(s), "rich_rules")
  {
    hide MapSeq, StrList, Holds, Lacks, ZoneCodec.DictOf;
    var d := ZoneCodec.DictOf(s);
    ZoneCodec.DictHolds(s, EgressPriorityKey);
    Named(d, EgressPriorityKey, "egress_priority", I32(s.egressPriority));
    ZoneCodec.DictHolds(s, IngressPriorityKey);
    Named(d, IngressPriorityKey, "ingress_priority", I32(s.ingressPriority));
    ZoneCodec.DictHolds(s, RichRulesKey);
    Named(d, RichRulesKey, "rich_rules", Nil);
  }

  /** The policy dict, by the spelling of its keys. */
  lemma PolicyDictIdentity(s: PolicyCodec.PolicySettings)
    ensures Holds(PolicyCodec.DictOf(s), "version", Str(s.version))
    ensures Holds(PolicyCodec.DictOf(s), "short", Str(s.short))
    ensures Holds(PolicyCodec.DictOf(s), "description", Str(s.description))
    ensures Holds(PolicyCodec.DictOf(s), "target", Str(if s.target == "" then "CONTINUE" else s.target))
    ensures Holds(PolicyCodec.DictOf(s), "priority", I32(s.priority))
  {
    hide MapSeq, StrList, Holds, PolicyCodec.DictOf;
    var d := PolicyCodec.DictOf(s);
    PolicyCodec.DictHolds(s, VersionKey);
    Named(d, VersionKey, "version", Str(s.version));
    PolicyCodec.DictHolds(s, ShortKey);
    Named(d, ShortKey, "short", Str(s.short));
    PolicyCodec.DictHolds(s, DescriptionKey);
    Named(d, DescriptionKey, "description", Str(s.description));
    PolicyCodec.DictHolds(s, TargetKey);
    Named(d, TargetKey, "target", Str(if s.target == "" then "CONTINUE" else s.target));
    PolicyCodec.DictHolds(s, PriorityKey);
    Named(d, PriorityKey, "priority", I32(s.priority));
  }

  lemma PolicyDictZones(s: PolicyCodec.PolicySettings)
    ensures Holds(PolicyCodec.DictOf(s), "ingress_zones", StrList(s.ingressZones))
    ensures Holds(PolicyCodec.DictOf(s), "egress_zones", StrList(s.egressZones))
    ensures Holds(PolicyCodec.DictOf(s), "services", StrList(s.services))
    ensures Holds(PolicyCodec.DictOf(s), "ports", Ports(s.ports))
    ensures Holds(PolicyCodec.DictOf(s), "source_ports", Ports(s.sourcePorts))
  {
    hide MapSeq, StrList, Holds, PolicyCodec.DictOf;
    var d := PolicyCodec.DictOf(s);
    PolicyCodec.DictHolds(s, IngressZonesKey);
    Named(d, IngressZonesKey, "ingress_zones", StrList(s.ingressZones));
    PolicyCodec.DictHolds(s, EgressZonesKey);
    Named(d, EgressZonesKey, "egress_zones", StrList(s.egressZones));
    PolicyCodec.DictHolds(s, ServicesKey);
    Named(d, ServicesKey, "services", StrList(s.services));
    PolicyCodec.DictHolds(s, PortListKey);
    Named(d, PortListKey, "ports", Ports(s.ports));
    PolicyCodec.DictHolds(s, SourcePortsKey);
    Named(d, SourcePortsKey, "source_ports", Ports(s.sourcePorts));
  }

  lemma PolicyDictRules(s: PolicyCodec.PolicySettings)
    ensures Holds(PolicyCodec.DictOf(s), "icmp_blocks", StrList(s.icmpBlocks))
    ensures Holds(PolicyCodec.DictOf(s), "masquerade", Bool(s.masquerade))
    ensures Holds(PolicyCodec.DictOf(s), "forward_ports", ForwardPorts(s.forwardPorts))
    ensures Holds(PolicyCodec.DictOf(s), "rich_rules", StrList(s.richRules))
    ensures Holds(PolicyCodec.DictOf(s), "protocols", StrList(s.protocols))
  {
    hide MapSeq, StrList, Holds, PolicyCodec.DictOf;
    var d := PolicyCodec.DictOf(s);
    PolicyCodec.DictHolds(s, IcmpBlocksKey);
    Named(d, IcmpBlocksKey, "icmp_blocks", StrList(s.icmpBlocks));
    PolicyCodec.DictHolds(s, MasqueradeKey);
    Named(d, MasqueradeKey, "masquerade", Bool(s.masquerade));
    PolicyCodec.DictHolds(s, ForwardPortListKey);
    Named(d, ForwardPortListKey, "forward_ports", ForwardPorts(s.forwardPorts));
    PolicyCodec.DictHolds(s, RichRulesKey);
    Named(d, RichRulesKey, "rich_rules", StrList(s.richRules));
    PolicyCodec.DictHolds(s, ProtocolsKey);
    Named(d, ProtocolsKey, "protocols", StrList(s.protocols));
  }

  /** A policy's rules never go under the key a zone's do. */
  lemma PolicyDictLacksRulesStr(s: PolicyCodec.PolicySettings)
    ensures Lacks(PolicyCodec.DictOf(s), "rules_str")
  {
    PolicyCodec.DictHolds(s, RulesStrKey);
    hide PolicyCodec.DictOf;
    Named(PolicyCodec.DictOf(s), RulesStrKey, "rules_str", Nil);
  }

  // ------------------------------------------------------------ aliases

  /** Rich rules are read under "rules_str", or failing that under "rich_rules". */
  lemma RichRulesByName(d: Dict, v: Value)
    ensures Holds(d, "rules_str", v) || (Lacks(d, "rules_str") && Holds(d, "rich_rules", v)) ==>
              ZoneCodec.SettingsIn(d).richRules == Strings(v) && PolicyCodec.SettingsIn(d).richRules == Strings(v)
    ensures Lacks(d, "rules_str") && Lacks(d, "rich_rules") ==>
              ZoneCodec.SettingsIn(d).richRules == [] && PolicyCodec.SettingsIn(d).richRules == []
  {
    hide Holds, Lacks, Strings;
    Named(d, RulesStrKey, "rules_str", v);
    Named(d, RichRulesKey, "rich_rules", v);
  }

  /** A service's modules and destinations, each under either spelling. */
  lemma ServiceAliasesByName(d: Dict, v: Value)
    ensures Holds(d, "module", v) || (Lacks(d, "module") && Holds(d, "modules", v)) ==>
              ServiceCodec.SettingsIn(d).modules == Strings(v)
    ensures Holds(d, "destination", v) || (Lacks(d, "destination") && Holds(d, "destinations", v)) ==>
              ServiceCodec.SettingsIn(d).destinations == StringsByKey(v)
  {
    hide Holds, Lacks, Strings, StringsByKey;
    Named(d, ModuleKey, "module", v);
    Named(d, ModulesKey, "modules", v);
    Named(d, DestinationKey, "destination", v);
    Named(d, DestinationsKey, "destinations", v);
  }

  /** A service's other fields, each under its one key; what is missing is zero. */
  lemma ServiceTextsByName(d: Dict, v: Value)
    ensures Holds(d, "version", v) ==> ServiceCodec.SettingsIn(d).version == AsString(v)
    ensures Holds(d, "short", v) ==> ServiceCodec.SettingsIn(d).short == AsString(v)
    ensures Holds(d, "description", v) ==> ServiceCodec.SettingsIn(d).description == AsString(v)
    ensures Lacks(d, "version") ==> ServiceCodec.SettingsIn(d).version == ""
    ensures Lacks(d, "short") ==> ServiceCodec.SettingsIn(d).short == ""
    ensures Lacks(d, "description") ==> ServiceCodec.SettingsIn(d).description == ""
  {
    hide Holds, Lacks, AsString;
    Named(d, VersionKey, "version", v);
    Named(d, ShortKey, "short", v);
    Named(d, DescriptionKey, "description", v);
  }

  lemma ServiceListsByName(d: Dict, v: Value)
    ensures Holds(d, "ports", v) ==> ServiceCodec.SettingsIn(d).ports == PortsOf(v)
    ensures Holds(d, "source_ports", v) ==> ServiceCodec.SettingsIn(d).sourcePorts == PortsOf(v)
    ensures Holds(d, "protocols", v) ==> ServiceCodec.SettingsIn(d).protocols == Strings(v)
    ensures Holds(d, "includes", v) ==> ServiceCodec.SettingsIn(d).includes == Strings(v)
    ensures Holds(d, "helpers", v) ==> ServiceCodec.SettingsIn(d).helpers == Strings(v)
  {
    hide Holds, Lacks, Strings, PortsOf;
    Named(d, PortListKey, "ports", v);
    Named(d, SourcePortsKey, "source_ports", v);
    Named(d, ProtocolsKey, "protocols", v);
    Named(d, IncludesKey, "includes", v);
    Named(d, HelpersKey, "helpers", v);
  }
}
