/**
 * The direct interface's settings (direct.go): the permanent blob of chains, rules and
 * passthroughs, and the runtime rule listings.
 */
module DirectCodec {
  import opened Seqs
  import opened Values
  import opened Boxing

  datatype DirectChain = DirectChain(ipv: string, table: string, chain: string)
  datatype DirectRule = DirectRule(ipv: string, table: string, chain: string, priority: Int32, args: seq<string>)
  datatype DirectPassthrough = DirectPassthrough(ipv: string, args: seq<string>)
  datatype DirectConfig = DirectConfig(
    chains: seq<DirectChain>,
    rules: seq<DirectRule>,
    passthroughs: seq<DirectPassthrough>)

  // -------------------------------------------------------------- encode

  function ChainStruct(c: DirectChain): Value {
    Struct([Str(c.ipv), Str(c.table), Str(c.chain)])
  }

  function RuleStruct(r: DirectRule): Value {
    Struct([Str(r.ipv), Str(r.table), Str(r.chain), I32(r.priority), StrList(r.args)])
  }

  function PassthroughStruct(p: DirectPassthrough): Value {
    Struct([Str(p.ipv), StrList(p.args)])
  }

  const CHAIN := StructOf([StringT, StringT, StringT])
  const RULE := StructOf([StringT, StringT, StringT, IntT, ArrayOf(StringT)])
  const PASSTHROUGH := StructOf([StringT, ArrayOf(StringT)])

  /** The three fields of the directConfigTuple struct. */
  function TupleFields(c: DirectConfig): seq<Value> {
    [ List(CHAIN, MapSeq(ChainStruct, c.chains)),
      List(RULE, MapSeq(RuleStruct, c.rules)),
      List(PASSTHROUGH, MapSeq(PassthroughStruct, c.passthroughs)) ]
  }

  method ToTuple(c: DirectConfig) returns (fields: seq<Value>)
    ensures fields == TupleFields(c)
  {
    hide MapSeq;
    var chains, rules, passthroughs := [], [], [];
    for i := 0 to |c.chains|
      invariant chains == MapSeq(ChainStruct, c.chains[..i])
    {
      MapSnoc(ChainStruct, c.chains, i);
      chains := chains + [ChainStruct(c.chains[i])];
    }
    for i := 0 to |c.rules|
      invariant rules == MapSeq(RuleStruct, c.rules[..i])
    {
      MapSnoc(RuleStruct, c.rules, i);
      rules := rules + [RuleStruct(c.rules[i])];
    }
    for i := 0 to |c.passthroughs|
      invariant passthroughs == MapSeq(PassthroughStruct, c.passthroughs[..i])
    {
      MapSnoc(PassthroughStruct, c.passthroughs, i);
      passthroughs := passthroughs + [PassthroughStruct(c.passthroughs[i])];
    }
    assert c.chains[..|c.chains|] == c.chains;
    assert c.rules[..|c.rules|] == c.rules;
    assert c.passthroughs[..|c.passthroughs|] == c.passthroughs;
    return [List(CHAIN, chains), List(RULE, rules), List(PASSTHROUGH, passthroughs)];
  }

  // -------------------------------------------------------------- decode

  function Int32At(els: seq<Value>, i: nat): Int32 {
    if i < |els| then AsInt32(els[i]) else 0
  }

  function StringsAt(els: seq<Value>, i: nat): seq<string> {
    if i < |els| then Strings(els[i]) else []
  }

  function ChainOf(e: Value): DirectChain {
    var (ipv, table, chain, _) := QuadOf(e);
    DirectChain(ipv, table, chain)
  }

  /** A rule row (ipv, table, chain, priority, args); missing columns read as zero. */
  function RuleIn(row: seq<Value>): DirectRule {
    DirectRule(StringAt(row, 0), StringAt(row, 1), StringAt(row, 2), Int32At(row, 3), StringsAt(row, 4))
  }

  function RuleOf(e: Value): DirectRule { RuleIn(Elems(e)) }

  function PassthroughOf(e: Value): DirectPassthrough {
    var row := Elems(e);
    DirectPassthrough(StringAt(row, 0), StringsAt(row, 1))
  }

  function ConfigOf(raw: seq<Value>): DirectConfig {
    DirectConfig(
      MapSeq(ChainOf, Elems(TupleField(raw, 0))),
      MapSeq(RuleOf, Elems(TupleField(raw, 1))),
      MapSeq(PassthroughOf, Elems(TupleField(raw, 2))))
  }

  method ReadRule(row: seq<Value>) returns (r: DirectRule)
    ensures r == RuleIn(row)
  {
    r := DirectRule("", "", "", 0, []);
    if |row| >= 1 {
      r := r.(ipv := AsString(row[0]));
    }
    if |row| >= 2 {
      r := r.(table := AsString(row[1]));
    }
    if |row| >= 3 {
      r := r.(chain := AsString(row[2]));
    }
    if |row| >= 4 {
      r := r.(priority := AsInt32(row[3]));
    }
    if |row| >= 5 {
      var args := AsStrings(row[4]);
      r := r.(args := args);
    }
  }

  method ReadPassthrough(row: seq<Value>) returns (p: DirectPassthrough)
    ensures p == DirectPassthrough(StringAt(row, 0), StringsAt(row, 1))
  {
    p := DirectPassthrough("", []);
    if |row| >= 1 {
      p := p.(ipv := AsString(row[0]));
    }
    if |row| >= 2 {
      var args := AsStrings(row[1]);
      p := p.(args := args);
    }
  }

  method FromTuple(raw: seq<Value>) returns (c: DirectConfig)
    ensures c == ConfigOf(raw)
  {
    hide MapSeq;
    c := DirectConfig([], [], []);
    var els := SliceElems(TupleField(raw, 0));
    for i := 0 to |els|
      invariant c.rules == [] && c.passthroughs == []
      invariant c.chains == MapSeq(ChainOf, els[..i])
    {
      var ipv, table, chain, _ := Quad(els[i]);
      MapSnoc(ChainOf, els, i);
      c := c.(chains := c.chains + [DirectChain(ipv, table, chain)]);
    }
    assert els[..|els|] == els;
    ghost var chains := c.chains;
    els := SliceElems(TupleField(raw, 1));
    for i := 0 to |els|
      invariant c.chains == chains && c.passthroughs == []
      invariant c.rules == MapSeq(RuleOf, els[..i])
    {
      var row := SliceElems(els[i]);
      var r := ReadRule(row);
      MapSnoc(RuleOf, els, i);
      c := c.(rules := c.rules + [r]);
    }
    assert els[..|els|] == els;
    ghost var rules := c.rules;
    els := SliceElems(TupleField(raw, 2));
    for i := 0 to |els|
      invariant c.chains == chains && c.rules == rules
      invariant c.passthroughs == MapSeq(PassthroughOf, els[..i])
    {
      var row := SliceElems(els[i]);
      var p := ReadPassthrough(row);
      MapSnoc(PassthroughOf, els, i);
      c := c.(passthroughs := c.passthroughs + [p]);
    }
    assert els[..|els|] == els;
  }

  /** getAllRules: every rule of every chain, one per row. */
  method AllRules(raw: seq<seq<Value>>) returns (out: seq<DirectRule>)
    ensures out == MapSeq(RuleIn, raw)
  {
    hide MapSeq;
    out := [];
    for i := 0 to |raw|
      invariant out == MapSeq(RuleIn, raw[..i])
    {
      var r := ReadRule(raw[i]);
      MapSnoc(RuleIn, raw, i);
      out := out + [r];
    }
    assert raw[..|raw|] == raw;
  }

  /** A (priority, args) row of getRules under the chain that was asked for. */
  function RuleInChain(at: DirectChain, row: seq<Value>): DirectRule {
    DirectRule(at.ipv, at.table, at.chain, Int32At(row, 0), StringsAt(row, 1))
  }

  method ReadRuleInChain(at: DirectChain, row: seq<Value>) returns (r: DirectRule)
    ensures r == RuleInChain(at, row)
  {
    r := DirectRule(at.ipv, at.table, at.chain, 0, []);
    if |row| >= 1 {
      r := r.(priority := AsInt32(row[0]));
    }
    if |row| >= 2 {
      var args := AsStrings(row[1]);
      r := r.(args := args);
    }
  }

  /** getRules: every rule of one chain, one per row. */
  method Rules(at: DirectChain, raw: seq<seq<Value>>) returns (out: seq<DirectRule>)
    ensures |out| == |raw| && forall i :: 0 <= i < |raw| ==> out[i] == RuleInChain(at, raw[i])
  {
    hide RuleInChain;
    out := [];
    for i := 0 to |raw|
      invariant |out| == i && forall j :: 0 <= j < i ==> out[j] == RuleInChain(at, raw[j])
    {
      var r := ReadRuleInChain(at, raw[i]);
      out := out + [r];
    }
  }

  /** getAllChains: every chain, one per row, from its first three columns however boxed. */
  method AllChains(raw: seq<seq<Value>>) returns (out: seq<DirectChain>)
    ensures |out| == |raw|
    ensures forall i :: 0 <= i < |raw| ==>
              out[i] == DirectChain(StringAt(raw[i], 0), StringAt(raw[i], 1), StringAt(raw[i], 2))
  {
    hide StringAt;
    out := [];
    for i := 0 to |raw|
      invariant |out| == i
      invariant forall j :: 0 <= j < i ==>
                  out[j] == DirectChain(StringAt(raw[j], 0), StringAt(raw[j], 1), StringAt(raw[j], 2))
    {
      var ipv, table, chain, _ := Quad(List(VariantT, raw[i]));
      UnwrapTwice(raw[i]);
      out := out + [DirectChain(ipv, table, chain)];
    }
  }

  /** getAllPassthroughs: every passthrough, one per row. */
  method AllPassthroughs(raw: seq<seq<Value>>) returns (out: seq<DirectPassthrough>)
    ensures |out| == |raw|
    ensures forall i :: 0 <= i < |raw| ==> out[i] == DirectPassthrough(StringAt(raw[i], 0), StringsAt(raw[i], 1))
  {
    hide StringAt, StringsAt;
    out := [];
    for i := 0 to |raw|
      invariant |out| == i
      invariant forall j :: 0 <= j < i ==> out[j] == DirectPassthrough(StringAt(raw[j], 0), StringsAt(raw[j], 1))
    {
      var p := ReadPassthrough(raw[i]);
      out := out + [p];
    }
  }

  /** The per-chain listing is the full listing with the chain's three columns supplied. */
  lemma ChainListingMatchesFullListing(at: DirectChain, row: seq<Value>)
    ensures RuleInChain(at, row) == RuleIn([Str(at.ipv), Str(at.table), Str(at.chain)] + row)
  {
  }

  // ------------------------------------------------------------- columns

  /** Which column of a row, however boxed, is which field of a permanent chain. */
  lemma ChainsByColumn(raw: seq<Value>, i: nat)
    requires i < |Elems(TupleField(raw, 0))|
    ensures |ConfigOf(raw).chains| == |Elems(TupleField(raw, 0))|
    ensures var row := Elems(Elems(TupleField(raw, 0))[i]);
            ConfigOf(raw).chains[i] ==
            DirectChain(ipv := StringAt(row, 0), table := StringAt(row, 1), chain := StringAt(row, 2))
  {
    hide MapSeq;
  }

  /** The same for rules. */
  lemma RulesByColumn(raw: seq<Value>, i: nat)
    requires i < |Elems(TupleField(raw, 1))|
    ensures |ConfigOf(raw).rules| == |Elems(TupleField(raw, 1))|
    ensures var row := Elems(Elems(TupleField(raw, 1))[i]);
            ConfigOf(raw).rules[i] ==
            DirectRule(ipv := StringAt(row, 0), table := StringAt(row, 1), chain := StringAt(row, 2),
                       priority := if |row| > 3 then AsInt32(row[3]) else 0,
                       args := if |row| > 4 then Strings(row[4]) else [])
  {
    hide MapSeq;
  }

  /** The same for passthroughs. */
  lemma PassthroughsByColumn(raw: seq<Value>, i: nat)
    requires i < |Elems(TupleField(raw, 2))|
    ensures |ConfigOf(raw).passthroughs| == |Elems(TupleField(raw, 2))|
    ensures var row := Elems(Elems(TupleField(raw, 2))[i]);
            ConfigOf(raw).passthroughs[i] ==
            DirectPassthrough(ipv := StringAt(row, 0), args := if |row| > 1 then Strings(row[1]) else [])
  {
    hide MapSeq;
  }

  /** What is sent, row by row and column by column. */
  lemma SentRows(c: DirectConfig)
    ensures |TupleFields(c)| == 3 && forall f :: 0 <= f < 3 ==> TupleFields(c)[f].List?
    ensures var sent := TupleFields(c)[0].elems;
            |sent| == |c.chains| && forall i :: 0 <= i < |sent| ==>
              sent[i] == Struct([Str(c.chains[i].ipv), Str(c.chains[i].table), Str(c.chains[i].chain)])
    ensures var sent := TupleFields(c)[1].elems;
            |sent| == |c.rules| && forall i :: 0 <= i < |sent| ==>
              var r := c.rules[i];
              sent[i] == Struct([Str(r.ipv), Str(r.table), Str(r.chain), I32(r.priority), StrList(r.args)])
    ensures var sent := TupleFields(c)[2].elems;
            |sent| == |c.passthroughs| && forall i :: 0 <= i < |sent| ==>
              sent[i] == Struct([Str(c.passthroughs[i].ipv), StrList(c.passthroughs[i].args)])
  {
    hide MapSeq, StrList;
  }

  // ---------------------------------------------------------- properties

  lemma ColumnsSeeThroughBoxes(e: Value, f: Value, i: nat)
    requires Boxes(e, f)
    ensures |Elems(e)| == |Elems(f)|
    ensures StringAt(Elems(f), i) == StringAt(Elems(e), i)
    ensures Int32At(Elems(f), i) == Int32At(Elems(e), i)
    ensures StringsAt(Elems(f), i) == StringsAt(Elems(e), i)
  {
    ElemsBoxes(e, f);
    if i < |Elems(e)| {
      ScalarsSeeThroughBoxes(Elems(e)[i], Elems(f)[i]);
      ListsSeeThroughBoxes(Elems(e)[i], Elems(f)[i]);
    }
  }

  lemma {:induction false} RowsSeeThroughBoxes(e: Value, f: Value)
    requires Boxes(e, f)
    ensures ChainOf(f) == ChainOf(e) && RuleOf(f) == RuleOf(e) && PassthroughOf(f) == PassthroughOf(e)
  {
    ListsSeeThroughBoxes(e, f);
    forall i: nat ensures StringAt(Elems(f), i) == StringAt(Elems(e), i) {
      ColumnsSeeThroughBoxes(e, f, i);
    }
    ColumnsSeeThroughBoxes(e, f, 1);
    ColumnsSeeThroughBoxes(e, f, 3);
    ColumnsSeeThroughBoxes(e, f, 4);
  }

  /** Re-boxing any parts of a raw blob, malformed or not, changes nothing decoded from it. */
  lemma DirectSeesThroughBoxes(raw: seq<Value>, boxed: seq<Value>)
    requires BoxesAll(raw, boxed)
    ensures ConfigOf(boxed) == ConfigOf(raw)
  {
    hide MapSeq;
    RowListsSeeThroughBoxes(raw, boxed, 0);
    RowListsSeeThroughBoxes(raw, boxed, 1);
    RowListsSeeThroughBoxes(raw, boxed, 2);
  }

  lemma {:induction false} RowListsSeeThroughBoxes(raw: seq<Value>, boxed: seq<Value>, i: nat)
    requires BoxesAll(raw, boxed)
    ensures var a, b := Elems(TupleField(raw, i)), Elems(TupleField(boxed, i));
            && MapSeq(ChainOf, b) == MapSeq(ChainOf, a)
            && MapSeq(RuleOf, b) == MapSeq(RuleOf, a)
            && MapSeq(PassthroughOf, b) == MapSeq(PassthroughOf, a)
  {
    hide MapSeq;
    var a, b := Elems(TupleField(raw, i)), Elems(TupleField(boxed, i));
    BoxesReflexive(Nil);
    ElemsBoxes(TupleField(raw, i), TupleField(boxed, i));
    forall j | 0 <= j < |a|
      ensures ChainOf(b[j]) == ChainOf(a[j])
      ensures RuleOf(b[j]) == RuleOf(a[j])
      ensures PassthroughOf(b[j]) == PassthroughOf(a[j])
    {
      RowsSeeThroughBoxes(a[j], b[j]);
    }
  }

  lemma ChainArrives(c: DirectChain)
    ensures ChainOf(OnWire(ChainStruct(c))) == c
  {
    hide MapSeq;
    StructArrives(ChainStruct(c).fields);
  }

  lemma RuleArrives(r: DirectRule)
    ensures RuleOf(OnWire(RuleStruct(r))) == r
  {
    hide MapSeq;
    StructArrives(RuleStruct(r).fields);
    StrListArrives(r.args);
    BoxesReflexive(StrList(r.args));
    StringsArrive(r.args, StrList(r.args));
  }

  lemma PassthroughArrives(p: DirectPassthrough)
    ensures PassthroughOf(OnWire(PassthroughStruct(p))) == p
  {
    hide MapSeq;
    StructArrives(PassthroughStruct(p).fields);
    StrListArrives(p.args);
    BoxesReflexive(StrList(p.args));
    StringsArrive(p.args, StrList(p.args));
  }

  /** The blob as it comes off the wire, before any re-boxing. */
  function Arrived(c: DirectConfig): seq<Value> {
    MapSeq(OnWire, TupleFields(c))
  }

  lemma ArrivedField(c: DirectConfig, i: nat)
    requires i < 3
    ensures TupleField(Arrived(c), i) == OnWire(TupleFields(c)[i])
  {
    hide MapSeq, OnWire;
  }

  lemma StructIsNotBoxed(v: Value)
    requires v.Struct?
    ensures Unwrapped(OnWire(v)) == OnWire(v)
  {
  }

  lemma {:induction false} ChainsArrive(c: DirectConfig)
    ensures ConfigOf(Arrived(c)).chains == c.chains
  {
    hide MapSeq, OnWire, Elems, TupleField, ChainOf, Arrived;
    var structs := MapSeq(ChainStruct, c.chains);
    ArrivedField(c, 0);
    ListArrives(CHAIN, structs);
    forall i | 0 <= i < |c.chains| ensures ChainOf(Unwrapped(OnWire(structs[i]))) == c.chains[i] {
      ChainArrives(c.chains[i]);
      StructIsNotBoxed(structs[i]);
    }
  }

  lemma {:induction false} RulesArrive(c: DirectConfig)
    ensures ConfigOf(Arrived(c)).rules == c.rules
  {
    hide MapSeq, OnWire, Elems, TupleField, RuleOf, Arrived;
    var structs := MapSeq(RuleStruct, c.rules);
    ArrivedField(c, 1);
    ListArrives(RULE, structs);
    forall i | 0 <= i < |c.rules| ensures RuleOf(Unwrapped(OnWire(structs[i]))) == c.rules[i] {
      RuleArrives(c.rules[i]);
      StructIsNotBoxed(structs[i]);
    }
  }

  lemma {:induction false} PassthroughsArrive(c: DirectConfig)
    ensures ConfigOf(Arrived(c)).passthroughs == c.passthroughs
  {
    hide MapSeq, OnWire, Elems, TupleField, PassthroughOf, Arrived;
    var structs := MapSeq(PassthroughStruct, c.passthroughs);
    ArrivedField(c, 2);
    ListArrives(PASSTHROUGH, structs);
    forall i | 0 <= i < |c.passthroughs| ensures PassthroughOf(Unwrapped(OnWire(structs[i]))) == c.passthroughs[i] {
      PassthroughArrives(c.passthroughs[i]);
      StructIsNotBoxed(structs[i]);
    }
  }

  /**
   * Every configuration comes back whole: the same chains, rules and passthroughs in
   * the same order, with priorities and argument lists, however the reply is re-boxed.
   */
  lemma DirectRoundTrip(c: DirectConfig, reply: seq<Value>)
    requires TupleReply(TupleFields(c), reply)
    ensures ConfigOf(reply) == c
  {
    hide MapSeq;
    assert BoxesAll(Arrived(c), reply[..3]);
    DirectSeesThroughBoxes(Arrived(c), reply[..3]);
    ReadsThreeFields(reply);
    ChainsArrive(c);
    RulesArrive(c);
    PassthroughsArrive(c);
  }

  lemma ReadsThreeFields(raw: seq<Value>)
    requires |raw| >= 3
    ensures ConfigOf(raw[..3]) == ConfigOf(raw)
  {
  }

  /** Decoding is stable: what any raw blob decodes to survives being written and read again. */
  lemma DirectDecodeIsStable(raw: seq<Value>, reply: seq<Value>)
    requires TupleReply(TupleFields(ConfigOf(raw)), reply)
    ensures ConfigOf(reply) == ConfigOf(raw)
  {
    DirectRoundTrip(ConfigOf(raw), reply);
  }

  /** Each wire element yields one rule, in place, whatever its neighbours hold. */
  lemma OneRulePerElement(t: Type, before: seq<Value>, after: seq<Value>, head: Value)
    ensures ConfigOf([head, List(t, before + after)]).rules ==
            ConfigOf([head, List(t, before)]).rules + ConfigOf([head, List(t, after)]).rules
  {
    hide MapSeq;
    RulesOfList(t, head, before + after);
    RulesOfList(t, head, before);
    RulesOfList(t, head, after);
    MapConcat(Unwrapped, before, after);
    MapConcat(RuleOf, MapSeq(Unwrapped, before), MapSeq(Unwrapped, after));
  }

  lemma RulesOfList(t: Type, head: Value, xs: seq<Value>)
    ensures ConfigOf([head, List(t, xs)]).rules == MapSeq(RuleOf, MapSeq(Unwrapped, xs))
  {
    hide MapSeq;
    var raw := [head, List(t, xs)];
    assert TupleField(raw, 1) == List(t, xs);
  }
}
