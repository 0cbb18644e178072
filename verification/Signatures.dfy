/**
 * The D-Bus signatures of what the client sends (signatures_test.go). godbus derives a
 * signature from the Go type of an argument; a slice or field typed `any` becomes a
 * variant, which firewalld rejects where it wants a plain string or tuple.
 */
module Signatures {
  import opened Seqs
  import opened Values
  import opened Boxing
  import ZoneCodec
  import PolicyCodec
  import ServiceCodec
  import DirectCodec

  // -------------------------------------------------- types of Go values

  const PORT := StructOf([StringT, StringT])
  const FORWARD := StructOf([StringT, StringT, StringT, StringT])

  /** dbus.SignatureOf. A struct field declared `any` is a boxed value here, a variant. */
  function SignatureOf(v: Value): Type
    decreases v
  {
    match v
    case Str(_) => StringT
    case Bool(_) => BoolT
    case I32(_) => IntT
    case GoInt(_) => IntT
    case I64(_) => Int64T
    case U32(_) => UInt32T
    case List(t, _) => ArrayOf(t)
    case Struct(xs) => StructOf(seq(|xs|, i requires 0 <= i < |xs| => SignatureOf(xs[i])))
    case Ports(_) => ArrayOf(PORT)
    case ForwardPorts(_) => ArrayOf(FORWARD)
    case StringMap(_) => StringDictT
    case Map(_) => VariantDictT
    case Boxed(_) => VariantT
    case Nil | OtherInt(_) | Other => NoType
  }

  /** Every slice in the value holds what its static element type says. */
  predicate Typed(v: Value)
    decreases v
  {
    match v
    case List(t, xs) =>
      forall i :: 0 <= i < |xs| ==> Typed(xs[i]) && (t == VariantT || SignatureOf(xs[i]) == t)
    case Struct(xs) => forall i :: 0 <= i < |xs| ==> Typed(xs[i])
    case _ => true
  }

  /** The value is well typed and encodes at exactly this type. */
  predicate Encodes(v: Value, t: Type) { Typed(v) && SignatureOf(v) == t }

  lemma StringsEncode(xs: seq<string>)
    ensures Encodes(StrList(xs), ArrayOf(StringT))
  {
    var elems := StrList(xs).elems;
    forall i | 0 <= i < |elems| ensures Typed(elems[i]) && SignatureOf(elems[i]) == StringT {
      assert elems[i] == Str(xs[i]);
    }
  }

  // ---------------------------------------------------------- spelling

  function Text(t: Type): string {
    match t
    case StringT => "s"
    case BoolT => "b"
    case IntT => "i"
    case Int64T => "x"
    case UInt32T => "u"
    case VariantT => "v"
    case StringDictT => "a{ss}"
    case VariantDictT => "a{sv}"
    case ArrayOf(e) => "a" + Text(e)
    case StructOf(ts) => "(" + Texts(ts) + ")"
    case NoType => ""
  }

  function Texts(ts: seq<Type>): string {
    if ts == [] then "" else Texts(ts[..|ts| - 1]) + Text(ts[|ts| - 1])
  }

  lemma {:induction false} TextsConcat(a: seq<Type>, b: seq<Type>)
    ensures Texts(a + b) == Texts(a) + Texts(b)
  {
    hide Text;
    if b == [] {
      assert a + b == a;
    } else {
      TextsConcat(a, b[..|b| - 1]);
      assert (a + b)[..|a + b| - 1] == a + b[..|b| - 1];
    }
  }

  lemma TextsOfOne(a: Type)
    ensures Texts([a]) == Text(a)
  {
    hide Text;
    assert [a][..0] == [] && Texts([a]) == "" + Text(a);
  }

  lemma TextsOfTwo(a: Type, b: Type)
    ensures Texts([a, b]) == Text(a) + Text(b)
  {
    hide Text;
    TextsOfOne(a);
    assert [a, b][..1] == [a];
  }

  lemma TextsOfThree(a: Type, b: Type, c: Type)
    ensures Texts([a, b, c]) == Text(a) + Text(b) + Text(c)
  {
    hide Text;
    TextsOfTwo(a, b);
    assert [a, b, c][..2] == [a, b];
  }

  lemma TextsOfFour(a: Type, b: Type, c: Type, d: Type)
    ensures Texts([a, b, c, d]) == Text(a) + Text(b) + Text(c) + Text(d)
  {
    hide Text;
    TextsOfThree(a, b, c);
    assert [a, b, c, d][..3] == [a, b, c];
  }

  lemma TextOfStruct(a: seq<Type>, b: seq<Type>, head: string, tail: string)
    requires Texts(a) == head && Texts(b) == tail
    ensures Text(StructOf(a + b)) == "(" + head + tail + ")"
  {
    TextsConcat(a, b);
    hide Texts;
    assert Text(StructOf(a + b)) == "(" + Texts(a + b) + ")";
    assert "(" + (head + tail) + ")" == "(" + head + tail + ")";
  }

  lemma TextsOfLists()
    ensures Text(ArrayOf(StringT)) == "as" && Text(ArrayOf(PORT)) == "a(ss)" && Text(ArrayOf(FORWARD)) == "a(ssss)"
  {
    TextsOfTwo(StringT, StringT);
    TextsOfFour(StringT, StringT, StringT, StringT);
  }

  // ------------------------------------------------------------- tuples

  const STRINGS := ArrayOf(StringT)
  const PORTS := ArrayOf(PORT)
  const FORWARDS := ArrayOf(FORWARD)

  const ZONE_HEAD := [StringT, StringT, StringT, BoolT] + [StringT, STRINGS, PORTS, STRINGS]
  const ZONE_TAIL := [BoolT, FORWARDS, STRINGS, STRINGS] + [STRINGS, STRINGS, PORTS, BoolT]
  const ZONE := StructOf(ZONE_HEAD + ZONE_TAIL)

  /** Whatever the settings, a zone tuple has the signature of firewalld's v1 interface. */
  lemma {:induction false} ZoneTupleSignature(s: ZoneCodec.ZoneSettings)
    ensures Encodes(ZoneCodec.ToTuple(s), ZONE)
    ensures Text(SignatureOf(ZoneCodec.ToTuple(s))) == "(sssbsasa(ss)asba(ssss)asasasasa(ss)b)"
  {
    hide MapSeq, StrList, Text, ZoneCodec.TupleEntry;
    forall i | 0 <= i < 16 ensures Encodes(ZoneCodec.TupleEntry(s, i), ZONE.fields[i]) {
      ZoneEntryType(s, i);
    }
    assert SignatureOf(ZoneCodec.ToTuple(s)).fields == ZONE.fields;
    ZoneText();
  }

  lemma ZoneEntryType(s: ZoneCodec.ZoneSettings, i: nat)
    requires i < 16
    ensures Encodes(ZoneCodec.TupleEntry(s, i), ZONE.fields[i])
  {
    hide MapSeq, StrList;
    forall xs: seq<string> ensures Encodes(StrList(xs), STRINGS) { StringsEncode(xs); }
  }

  lemma ZoneText()
    ensures Text(ZONE) == "(sssbsasa(ss)asba(ssss)asasasasa(ss)b)"
  {
    HalfTexts();
    hide Texts, Text;
    TextOfStruct(ZONE_HEAD, ZONE_TAIL, "sssbsasa(ss)as", "ba(ssss)asasasasa(ss)b");
  }

  lemma HalfTexts()
    ensures Texts(ZONE_HEAD) == "sssbsasa(ss)as"
    ensures Texts(ZONE_TAIL) == "ba(ssss)asasasasa(ss)b"
  {
    hide Texts, Text;
    QuarterTexts();
    TextsConcat([StringT, StringT, StringT, BoolT], [StringT, STRINGS, PORTS, STRINGS]);
    TextsConcat([BoolT, FORWARDS, STRINGS, STRINGS], [STRINGS, STRINGS, PORTS, BoolT]);
  }

  lemma QuarterTexts()
    ensures Texts([StringT, StringT, StringT, BoolT]) == "sssb"
    ensures Texts([StringT, STRINGS, PORTS, STRINGS]) == "sasa(ss)as"
    ensures Texts([BoolT, FORWARDS, STRINGS, STRINGS]) == "ba(ssss)asas"
    ensures Texts([STRINGS, STRINGS, PORTS, BoolT]) == "asasa(ss)b"
  {
    TextsOfLists();
    hide Texts;
    TextsOfFour(StringT, StringT, StringT, BoolT);
    TextsOfFour(StringT, STRINGS, PORTS, STRINGS);
    TextsOfFour(BoolT, FORWARDS, STRINGS, STRINGS);
    TextsOfFour(STRINGS, STRINGS, PORTS, BoolT);
  }

  const SERVICE := StructOf([StringT, StringT, StringT, PORTS] + [STRINGS, StringDictT, STRINGS, PORTS])

  /** Whatever the settings, a service tuple has the signature of firewalld's v1 interface. */
  lemma {:induction false} ServiceTupleSignature(s: ServiceCodec.ServiceSettings)
    ensures Encodes(ServiceCodec.ToTuple(s), SERVICE)
    ensures Text(SignatureOf(ServiceCodec.ToTuple(s))) == "(sssa(ss)asa{ss}asa(ss))"
  {
    hide MapSeq, StrList, Text, ServiceCodec.TupleEntry;
    forall i | 0 <= i < 8 ensures Encodes(ServiceCodec.TupleEntry(s, i), SERVICE.fields[i]) {
      ServiceEntryType(s, i);
    }
    assert SignatureOf(ServiceCodec.ToTuple(s)).fields == SERVICE.fields;
    ServiceText();
  }

  lemma ServiceEntryType(s: ServiceCodec.ServiceSettings, i: nat)
    requires i < 8
    ensures Encodes(ServiceCodec.TupleEntry(s, i), SERVICE.fields[i])
  {
    hide MapSeq, StrList;
    forall xs: seq<string> ensures Encodes(StrList(xs), STRINGS) { StringsEncode(xs); }
  }

  lemma ServiceText()
    ensures Text(SERVICE) == "(sssa(ss)asa{ss}asa(ss))"
  {
    TextsOfLists();
    hide Texts;
    TextsOfFour(StringT, StringT, StringT, PORTS);
    TextsOfFour(STRINGS, StringDictT, STRINGS, PORTS);
    TextsConcat([StringT, StringT, StringT, PORTS], [STRINGS, StringDictT, STRINGS, PORTS]);
  }

  // -------------------------------------------- the direct configuration

  const DIRECT :=
    StructOf([ArrayOf(DirectCodec.CHAIN), ArrayOf(DirectCodec.RULE), ArrayOf(DirectCodec.PASSTHROUGH)])

  /** Every direct configuration, each row included, has the signature of config.direct. */
  lemma {:induction false} DirectTupleSignature(c: DirectCodec.DirectConfig)
    ensures Encodes(Struct(DirectCodec.TupleFields(c)), DIRECT)
    ensures Text(SignatureOf(Struct(DirectCodec.TupleFields(c)))) == "(a(sss)a(sssias)a(sas))"
  {
    hide MapSeq, Text;
    DirectRowsEncode(c);
    assert SignatureOf(Struct(DirectCodec.TupleFields(c))).fields == DIRECT.fields;
    DirectText();
  }

  lemma DirectRowsEncode(c: DirectCodec.DirectConfig)
    ensures Encodes(List(DirectCodec.CHAIN, MapSeq(DirectCodec.ChainStruct, c.chains)), ArrayOf(DirectCodec.CHAIN))
    ensures Encodes(List(DirectCodec.RULE, MapSeq(DirectCodec.RuleStruct, c.rules)), ArrayOf(DirectCodec.RULE))
    ensures Encodes(List(DirectCodec.PASSTHROUGH, MapSeq(DirectCodec.PassthroughStruct, c.passthroughs)),
                    ArrayOf(DirectCodec.PASSTHROUGH))
  {
    forall x ensures Encodes(DirectCodec.ChainStruct(x), DirectCodec.CHAIN) { ChainEncodes(x); }
    forall x ensures Encodes(DirectCodec.RuleStruct(x), DirectCodec.RULE) { RuleEncodes(x); }
    forall x ensures Encodes(DirectCodec.PassthroughStruct(x), DirectCodec.PASSTHROUGH) { PassthroughEncodes(x); }
    hide MapSeq, DirectCodec.ChainStruct, DirectCodec.RuleStruct, DirectCodec.PassthroughStruct;
  }

  lemma ChainEncodes(c: DirectCodec.DirectChain)
    ensures Encodes(DirectCodec.ChainStruct(c), DirectCodec.CHAIN)
  {
    assert SignatureOf(DirectCodec.ChainStruct(c)).fields == DirectCodec.CHAIN.fields;
  }

  lemma RuleEncodes(r: DirectCodec.DirectRule)
    ensures Encodes(DirectCodec.RuleStruct(r), DirectCodec.RULE)
  {
    hide MapSeq, StrList;
    StringsEncode(r.args);
    var fields := DirectCodec.RuleStruct(r).fields;
    assert fields[4] == StrList(r.args);
    assert forall i :: 0 <= i < 5 ==> Typed(fields[i]);
    assert SignatureOf(DirectCodec.RuleStruct(r)).fields == DirectCodec.RULE.fields;
  }

  lemma PassthroughEncodes(p: DirectCodec.DirectPassthrough)
    ensures Encodes(DirectCodec.PassthroughStruct(p), DirectCodec.PASSTHROUGH)
  {
    hide MapSeq, StrList;
    StringsEncode(p.args);
    var fields := DirectCodec.PassthroughStruct(p).fields;
    assert fields[1] == StrList(p.args);
    assert forall i :: 0 <= i < 2 ==> Typed(fields[i]);
    assert SignatureOf(DirectCodec.PassthroughStruct(p)).fields == DirectCodec.PASSTHROUGH.fields;
  }

  lemma DirectText()
    ensures Text(DIRECT) == "(a(sss)a(sssias)a(sas))"
  {
    RowTexts();
    hide Texts;
    TextsOfThree(ArrayOf(DirectCodec.CHAIN), ArrayOf(DirectCodec.RULE), ArrayOf(DirectCodec.PASSTHROUGH));
  }

  lemma RowTexts()
    ensures Text(DirectCodec.CHAIN) == "(sss)"
    ensures Text(DirectCodec.RULE) == "(sssias)"
    ensures Text(DirectCodec.PASSTHROUGH) == "(sas)"
  {
    hide Texts;
    TextsOfThree(StringT, StringT, StringT);
    TextsOfFour(StringT, StringT, StringT, IntT);
    TextsOfOne(STRINGS);
    TextsConcat([StringT, StringT, StringT, IntT], [STRINGS]);
    assert DirectCodec.RULE == StructOf([StringT, StringT, StringT, IntT] + [STRINGS]);
    TextsOfTwo(StringT, STRINGS);
  }

  // -------------------------------------------------------------- dicts

  /** The type firewalld expects under a key of a zone or policy dict. */
  function KeyType(k: Key): Type {
    match k
    case VersionKey | ShortKey | DescriptionKey | TargetKey => StringT
    case MasqueradeKey | IcmpBlockInversionKey | ForwardKey => BoolT
    case PriorityKey | EgressPriorityKey | IngressPriorityKey => IntT
    case PortListKey | SourcePortsKey => PORTS
    case ForwardPortListKey => FORWARDS
    case DestinationKey | DestinationsKey => StringDictT
    case _ => STRINGS
  }

  /** Every value of a zone dict has the concrete type of its key, never an array of variants. */
  lemma {:induction false} ZoneDictSignatures(s: ZoneCodec.ZoneSettings, k: Key)
    requires k in ZoneCodec.DictOf(s)
    ensures Encodes(ZoneCodec.DictOf(s)[k], KeyType(k))
  {
    hide MapSeq, StrList, ZoneCodec.DictOf;
    ZoneCodec.DictHolds(s, k);
    forall xs: seq<string> ensures Encodes(StrList(xs), STRINGS) { StringsEncode(xs); }
  }

  lemma {:induction false} PolicyDictSignatures(s: PolicyCodec.PolicySettings, k: Key)
    requires k in PolicyCodec.DictOf(s)
    ensures Encodes(PolicyCodec.DictOf(s)[k], KeyType(k))
  {
    hide MapSeq, StrList, PolicyCodec.DictOf;
    PolicyCodec.DictHolds(s, k);
    forall xs: seq<string> ensures Encodes(StrList(xs), STRINGS) { StringsEncode(xs); }
  }

  // ----------------------------------------------------------- variants

  /** No part of the type is a variant, so no array of it is an "av". */
  predicate VariantFree(t: Type)
    decreases t
  {
    match t
    case VariantT | VariantDictT | NoType => false
    case ArrayOf(e) => VariantFree(e)
    case StructOf(ts) => forall i :: 0 <= i < |ts| ==> VariantFree(ts[i])
    case _ => true
  }

  lemma ListTypesAreVariantFree()
    ensures VariantFree(STRINGS) && VariantFree(PORTS) && VariantFree(FORWARDS)
  {
    assert VariantFree(PORT) && VariantFree(FORWARD);
  }

  lemma TupleTypesAreVariantFree()
    ensures VariantFree(ZONE) && VariantFree(SERVICE) && VariantFree(DIRECT)
  {
    ListTypesAreVariantFree();
    RowTypesAreVariantFree();
  }

  lemma RowTypesAreVariantFree()
    ensures VariantFree(DirectCodec.CHAIN) && VariantFree(DirectCodec.RULE) && VariantFree(DirectCodec.PASSTHROUGH)
  {
  }

  lemma KeyTypesAreVariantFree(k: Key)
    ensures VariantFree(KeyType(k))
  {
    ListTypesAreVariantFree();
  }

  /** A slice typed `any`, as an array of variants, is not. */
  lemma AnySliceIsAnArrayOfVariants(xs: seq<Value>)
    ensures SignatureOf(List(VariantT, xs)) == ArrayOf(VariantT) && !VariantFree(ArrayOf(VariantT))
  {
  }

  /**
   * The regression the source guards against cannot happen: whatever the settings, no
   * tuple and no dict value the client sends has a variant, or an array of them, in its
   * signature at any depth.
   */
  lemma {:induction false} NothingSentIsAVariant(
      z: ZoneCodec.ZoneSettings, p: PolicyCodec.PolicySettings, s: ServiceCodec.ServiceSettings,
      c: DirectCodec.DirectConfig, k: Key)
    ensures VariantFree(SignatureOf(ZoneCodec.ToTuple(z)))
    ensures VariantFree(SignatureOf(ServiceCodec.ToTuple(s)))
    ensures VariantFree(SignatureOf(Struct(DirectCodec.TupleFields(c))))
    ensures k in ZoneCodec.DictOf(z) ==> VariantFree(SignatureOf(ZoneCodec.DictOf(z)[k]))
    ensures k in PolicyCodec.DictOf(p) ==> VariantFree(SignatureOf(PolicyCodec.DictOf(p)[k]))
  {
    hide SignatureOf, Typed, VariantFree, KeyType, ZoneCodec.DictOf, PolicyCodec.DictOf, ZoneCodec.ToTuple;
    hide ServiceCodec.ToTuple, DirectCodec.TupleFields, Text;
    TupleTypesAreVariantFree();
    ZoneTupleSignature(z);
    ServiceTupleSignature(s);
    DirectTupleSignature(c);
    KeyTypesAreVariantFree(k);
    if k in ZoneCodec.DictOf(z) { ZoneDictSignatures(z, k); }
    if k in PolicyCodec.DictOf(p) { PolicyDictSignatures(p, k); }
  }
}
