/**
 * Variant boxes and the wire. `Boxes(v, w)` says that w is v with variant wrappers
 * inserted at any positions and depths; `OnWire` is what godbus hands back for a value
 * it was given to encode. The decoders of decode.go must see through both.
 */
module Boxing {
  import opened Seqs
  import opened Values

  ghost predicate Boxes(v: Value, w: Value)
    decreases w
  {
    || (w.Boxed? && Boxes(v, w.content))
    || match v {
         case Boxed(x) => w.Boxed? && Boxes(x, w.content)
         case List(_, xs) =>
           w.List? && |w.elems| == |xs| && forall i :: 0 <= i < |xs| ==> Boxes(xs[i], w.elems[i])
         case Map(m) =>
           w.Map? && w.entries.Keys == m.Keys && forall k :: k in m ==> Boxes(m[k], w.entries[k])
         case StringMap(m) =>
           || w == v
           || (w.Map? && w.entries.Keys == m.Keys && forall k :: k in m ==> Boxes(Str(m[k]), w.entries[k]))
         case _ => w == v
       }
  }

  ghost predicate BoxesAll(vs: seq<Value>, ws: seq<Value>) {
    |vs| == |ws| && forall i :: 0 <= i < |vs| ==> Boxes(vs[i], ws[i])
  }

  lemma {:induction false} BoxesReflexive(v: Value)
    ensures Boxes(v, v)
    decreases v
  {
    match v {
      case Boxed(x) => BoxesReflexive(x);
      case List(_, xs) => forall i | 0 <= i < |xs| ensures Boxes(xs[i], xs[i]) { BoxesReflexive(xs[i]); }
      case Map(m) => forall k | k in m ensures Boxes(m[k], m[k]) { BoxesReflexive(m[k]); }
      case _ =>
    }
  }

  /** Peeling the outer boxes of both sides leaves them related, head to head. */
  lemma {:induction false} UnwrapBoxes(v: Value, w: Value)
    requires Boxes(v, w)
    ensures Boxes(Unwrapped(v), Unwrapped(w))
    decreases w
  {
    if w.Boxed? && Boxes(v, w.content) {
      UnwrapBoxes(v, w.content);
    } else if v.Boxed? {
      UnwrapBoxes(v.content, w.content);
    }
  }

  lemma {:induction false} ElemsBoxes(v: Value, w: Value)
    requires Boxes(v, w)
    ensures BoxesAll(Elems(v), Elems(w))
  {
    UnwrapBoxes(v, w);
    var a, b := Unwrapped(v), Unwrapped(w);
    if a.List? {
      forall i | 0 <= i < |a.elems| ensures Boxes(Unwrapped(a.elems[i]), Unwrapped(b.elems[i])) {
        UnwrapBoxes(a.elems[i], b.elems[i]);
      }
    } else {
      forall i | 0 <= i < |Elems(v)| ensures Boxes(Elems(v)[i], Elems(v)[i]) {
        BoxesReflexive(Elems(v)[i]);
      }
    }
  }

  // --------------------------------------------------- boxing invariance

  lemma {:induction false} ScalarsSeeThroughBoxes(v: Value, w: Value)
    requires Boxes(v, w)
    ensures AsString(w) == AsString(v)
    ensures AsBool(w) == AsBool(v)
    ensures AsInt32(w) == AsInt32(v)
  {
    UnwrapBoxes(v, w);
  }

  lemma {:induction false} ListsSeeThroughBoxes(v: Value, w: Value)
    requires Boxes(v, w)
    ensures Strings(w) == Strings(v)
    ensures PairOf(w) == PairOf(v)
    ensures QuadOf(w) == QuadOf(v)
  {
    ElemsBoxes(v, w);
    var a, b := Elems(v), Elems(w);
    forall i | 0 <= i < |a| ensures AsString(a[i]) == AsString(b[i]) {
      ScalarsSeeThroughBoxes(a[i], b[i]);
    }
  }

  /**
   * asPorts sees through boxes on every value except a native []Port: reflection on a
   * boxed native slice yields structs, not pairs, so every port reads as blank.
   */
  lemma {:induction false} PortsSeeThroughBoxes(v: Value, w: Value)
    requires Boxes(v, w)
    ensures PortsOf(w) == PortsOf(v) <==>
            (v.Ports? ==> w.Ports? || forall i :: 0 <= i < |v.ports| ==> v.ports[i] == NO_PORT)
  {
    ElemsBoxes(v, w);
    UnwrapBoxes(v, w);
    var a, b := Elems(v), Elems(w);
    if v.Ports? {
      if !w.Ports? {
        assert PortsOf(w) == MapSeq(PortOf, b);
        forall i | 0 <= i < |v.ports| ensures PortsOf(w)[i] == NO_PORT {
          assert b[i] == PortStruct(v.ports[i]);
        }
      }
    } else {
      forall i | 0 <= i < |a| ensures PortOf(a[i]) == PortOf(b[i]) {
        ListsSeeThroughBoxes(a[i], b[i]);
      }
      assert MapSeq(PortOf, a) == MapSeq(PortOf, b);
      assert !w.Ports?;
    }
  }

  lemma {:induction false} ForwardsSeeThroughBoxes(v: Value, w: Value)
    requires Boxes(v, w)
    ensures ForwardsOf(w) == ForwardsOf(v) <==>
            (v.ForwardPorts? ==>
               w.ForwardPorts? || forall i :: 0 <= i < |v.forwards| ==> v.forwards[i] == NO_FORWARD)
  {
    ElemsBoxes(v, w);
    UnwrapBoxes(v, w);
    var a, b := Elems(v), Elems(w);
    if v.ForwardPorts? {
      if !w.ForwardPorts? {
        assert ForwardsOf(w) == MapSeq(ForwardOf, b);
        forall i | 0 <= i < |v.forwards| ensures ForwardsOf(w)[i] == NO_FORWARD {
          assert b[i] == ForwardStruct(v.forwards[i]);
        }
      }
    } else {
      forall i | 0 <= i < |a| ensures ForwardOf(a[i]) == ForwardOf(b[i]) {
        ListsSeeThroughBoxes(a[i], b[i]);
      }
      assert MapSeq(ForwardOf, a) == MapSeq(ForwardOf, b);
      assert !w.ForwardPorts?;
    }
  }

  /** A native []Port sent through one extra variant loses every port. */
  lemma BoxedNativePortsAreLost(p: Port)
    ensures PortsOf(Boxed(Ports([p]))) == [NO_PORT]
  {
  }

  lemma {:induction false} MapsSeeThroughBoxes(v: Value, w: Value)
    requires Boxes(v, w)
    ensures StringsByKey(w) == StringsByKey(v)
  {
    UnwrapBoxes(v, w);
    var a, b := Unwrapped(v), Unwrapped(w);
    if b.Map? {
      forall k | k in b.entries ensures AsString(b.entries[k]) == StringsByKey(v)[k] {
        if a.Map? {
          ScalarsSeeThroughBoxes(a.entries[k], b.entries[k]);
        } else {
          ScalarsSeeThroughBoxes(Str(a.strings[k]), b.entries[k]);
        }
      }
    }
  }

  /**
   * List decoders work element by element: each wire element, malformed or not, yields
   * exactly one output, in place and whatever its neighbours hold.
   */
  lemma {:induction false} ListsDecodeElementwise(t: Type, xs: seq<Value>, ys: seq<Value>, e: Value)
    ensures Strings(List(t, xs + ys)) == Strings(List(t, xs)) + Strings(List(t, ys))
    ensures PortsOf(List(t, xs + ys)) == PortsOf(List(t, xs)) + PortsOf(List(t, ys))
    ensures ForwardsOf(List(t, xs + ys)) == ForwardsOf(List(t, xs)) + ForwardsOf(List(t, ys))
    ensures |Strings(List(t, [e]))| == 1 && |PortsOf(List(t, [e]))| == 1 && |ForwardsOf(List(t, [e]))| == 1
  {
    hide MapSeq;
    var a, b := MapSeq(Unwrapped, xs), MapSeq(Unwrapped, ys);
    MapConcat(Unwrapped, xs, ys);
    assert Elems(List(t, xs + ys)) == a + b && Elems(List(t, xs)) == a && Elems(List(t, ys)) == b;
    MapConcat(AsString, a, b);
    MapConcat(PortOf, a, b);
    MapConcat(ForwardOf, a, b);
  }

  /** Reading a string out of a row whose elements were already unwrapped changes nothing. */
  lemma UnwrapTwice(row: seq<Value>)
    ensures forall i: nat :: StringAt(Elems(List(VariantT, row)), i) == StringAt(row, i)
  {
  }

  // ------------------------------------------------------------ the wire

  function StrOf(s: string): Value { Str(s) }

  /** A []string. */
  function StrList(xs: seq<string>): Value { List(StringT, MapSeq(StrOf, xs)) }

  /** The []any tuples a (ss) and a (ssss) arrive as. */
  function PairList(p: Port): Value { List(VariantT, MapSeq(StrOf, [p.port, p.protocol])) }

  function QuadList(f: ForwardPort): Value {
    List(VariantT, MapSeq(StrOf, [f.port, f.protocol, f.toPort, f.toAddr]))
  }

  /** The element type a slice arrives with: a struct is decoded into a []any. */
  function Arrives(t: Type): Type {
    match t
    case StructOf(_) => ArrayOf(VariantT)
    case ArrayOf(e) => ArrayOf(Arrives(e))
    case _ => t
  }

  /**
   * What the receiver decodes for a sent value: structs and native port lists arrive
   * as positional []any tuples, everything else as itself.
   */
  function OnWire(v: Value): Value
    decreases v
  {
    match v
    case List(t, xs) => List(Arrives(t), seq(|xs|, i requires 0 <= i < |xs| => OnWire(xs[i])))
    case Struct(xs) => List(VariantT, seq(|xs|, i requires 0 <= i < |xs| => OnWire(xs[i])))
    case Ports(ps) => List(ArrayOf(VariantT), MapSeq(PairList, ps))
    case ForwardPorts(fs) => List(ArrayOf(VariantT), MapSeq(QuadList, fs))
    case Map(m) => Map(map k | k in m :: OnWire(m[k]))
    case Boxed(x) => Boxed(OnWire(x))
    case _ => v
  }

  lemma {:induction false} StrListArrives(xs: seq<string>)
    ensures OnWire(StrList(xs)) == StrList(xs)
  {
  }

  /** A struct arrives as a tuple of its arrived fields. */
  lemma StructArrives(fields: seq<Value>)
    ensures |Elems(OnWire(Struct(fields)))| == |fields|
    ensures forall i :: 0 <= i < |fields| ==> Elems(OnWire(Struct(fields)))[i] == Unwrapped(OnWire(fields[i]))
  {
  }

  /** So does each element of a slice. */
  lemma ListArrives(t: Type, xs: seq<Value>)
    ensures |Elems(OnWire(List(t, xs)))| == |xs|
    ensures forall i :: 0 <= i < |xs| ==> Elems(OnWire(List(t, xs)))[i] == Unwrapped(OnWire(xs[i]))
  {
  }

  lemma StringsArrive(xs: seq<string>, w: Value)
    requires Boxes(OnWire(StrList(xs)), w)
    ensures Strings(w) == xs
  {
    StrListArrives(xs);
    ListsSeeThroughBoxes(StrList(xs), w);
    assert Elems(StrList(xs)) == MapSeq(StrOf, xs);
  }

  lemma TuplesArrive(p: Port, f: ForwardPort)
    ensures PortOf(PairList(p)) == p
    ensures ForwardOf(QuadList(f)) == f
  {
  }

  lemma {:induction false} PortsArrive(ps: seq<Port>, w: Value)
    requires Boxes(OnWire(Ports(ps)), w)
    ensures PortsOf(w) == ps
  {
    var v := OnWire(Ports(ps));
    PortsSeeThroughBoxes(v, w);
    forall i | 0 <= i < |ps| ensures PortsOf(v)[i] == ps[i] {
      TuplesArrive(ps[i], NO_FORWARD);
    }
    assert PortsOf(v) == ps;
  }

  lemma {:induction false} ForwardsArrive(fs: seq<ForwardPort>, w: Value)
    requires Boxes(OnWire(ForwardPorts(fs)), w)
    ensures ForwardsOf(w) == fs
  {
    var v := OnWire(ForwardPorts(fs));
    ForwardsSeeThroughBoxes(v, w);
    forall i | 0 <= i < |fs| ensures ForwardsOf(v)[i] == fs[i] {
      TuplesArrive(NO_PORT, fs[i]);
    }
    assert ForwardsOf(v) == fs;
  }

  // -------------------------------------------- what the wire can bring

  /** Nothing that arrives, re-boxed or not, is a native port list. */
  lemma {:induction false} NothingNativeArrives(v: Value, w: Value)
    requires Boxes(OnWire(v), w)
    ensures !OnWire(v).Ports? && !OnWire(v).ForwardPorts?
    ensures !w.Ports? && !w.ForwardPorts?
  {
  }

  ghost predicate FieldsAgree(v: Value, w: Value) {
    && AsString(v) == AsString(w)
    && AsBool(v) == AsBool(w)
    && AsInt32(v) == AsInt32(w)
    && Strings(v) == Strings(w)
    && PortsOf(v) == PortsOf(w)
    && ForwardsOf(v) == ForwardsOf(w)
    && StringsByKey(v) == StringsByKey(w)
  }

  lemma {:induction false} ValueSeesThroughBoxes(v: Value, w: Value)
    requires Boxes(v, w) && !v.Ports? && !v.ForwardPorts?
    ensures FieldsAgree(v, w)
  {
    ScalarsSeeThroughBoxes(v, w);
    ListsSeeThroughBoxes(v, w);
    PortsSeeThroughBoxes(v, w);
    ForwardsSeeThroughBoxes(v, w);
    MapsSeeThroughBoxes(v, w);
  }

  /** No position holds a native port list, as in anything decoded from the wire. */
  predicate OffTheWire(raw: seq<Value>) {
    forall i :: 0 <= i < |raw| ==> !raw[i].Ports? && !raw[i].ForwardPorts?
  }

  lemma FieldSeesThroughBoxes(raw: seq<Value>, boxed: seq<Value>, i: int)
    requires OffTheWire(raw) && BoxesAll(raw, boxed)
    ensures FieldsAgree(TupleField(raw, i), TupleField(boxed, i))
  {
    BoxesReflexive(Nil);
    ValueSeesThroughBoxes(TupleField(raw, i), TupleField(boxed, i));
  }

  /** The same keys, each value re-boxed; no value is a native port list. */
  ghost predicate BoxesDict(d: Dict, boxed: Dict) {
    && boxed.Keys == d.Keys
    && forall k :: k in d ==> Boxes(d[k], boxed[k]) && !d[k].Ports? && !d[k].ForwardPorts?
  }

  lemma EntriesSeeThroughBoxes(d: Dict, boxed: Dict)
    requires BoxesDict(d, boxed)
    ensures forall k :: k in d ==> FieldsAgree(d[k], boxed[k])
  {
    hide FieldsAgree, Boxes;
    forall k | k in d ensures FieldsAgree(d[k], boxed[k]) {
      ValueSeesThroughBoxes(d[k], boxed[k]);
    }
  }

  // --------------------------------------------------------- zero values

  /** The wire values firewalld may leave out of a dict. */
  predicate IsZero(v: Value) {
    match v
    case Str(s) => s == ""
    case Bool(b) => !b
    case I32(n) => n == 0
    case List(_, xs) => xs == []
    case StringMap(m) => m == map[]
    case Map(m) => m == map[]
    case _ => false
  }

  lemma {:induction false} ZeroDecodesToZero(z: Value, w: Value)
    requires IsZero(z) && Boxes(z, w)
    ensures AsString(w) == "" && !AsBool(w) && AsInt32(w) == 0
    ensures Strings(w) == [] && PortsOf(w) == [] && ForwardsOf(w) == [] && StringsByKey(w) == map[]
  {
    ScalarsSeeThroughBoxes(z, w);
    ListsSeeThroughBoxes(z, w);
    PortsSeeThroughBoxes(z, w);
    ForwardsSeeThroughBoxes(z, w);
    MapsSeeThroughBoxes(z, w);
    assert Elems(z) == [];
  }

  /**
   * What may come back under a key: a value that was sent comes back re-boxed or, when
   * it is zero, not at all; nothing sent comes back as nothing or as a zero value.
   */
  ghost predicate KeyReply(sent: Option<Value>, got: Option<Value>) {
    match (sent, got)
    case (Some(v), Some(w)) => Boxes(OnWire(v), w)
    case (Some(v), None) => IsZero(OnWire(v))
    case (None, Some(w)) => exists z :: IsZero(z) && Boxes(z, w)
    case (None, None) => true
  }

  lemma UnsentKey(d: Dict, k: Key)
    requires KeyReply(None, DictValue(d, k))
    ensures StringIn(d, k) == "" && !BoolIn(d, k) && Int32In(d, k) == 0
    ensures StringsIn(d, k) == [] && PortsIn(d, k) == [] && ForwardsIn(d, k) == []
    ensures StringMapIn(d, k) == map[]
  {
    if k in d {
      var z :| IsZero(z) && Boxes(z, d[k]);
      ZeroDecodesToZero(z, d[k]);
    }
  }

  lemma StringKey(d: Dict, k: Key, x: string)
    requires KeyReply(Some(Str(x)), DictValue(d, k))
    ensures StringIn(d, k) == x
  {
    if k in d { ScalarsSeeThroughBoxes(Str(x), d[k]); }
  }

  lemma BoolKey(d: Dict, k: Key, x: bool)
    requires KeyReply(Some(Bool(x)), DictValue(d, k))
    ensures BoolIn(d, k) == x
  {
    if k in d { ScalarsSeeThroughBoxes(Bool(x), d[k]); }
  }

  lemma Int32Key(d: Dict, k: Key, x: Int32)
    requires KeyReply(Some(I32(x)), DictValue(d, k))
    ensures Int32In(d, k) == x
  {
    if k in d { ScalarsSeeThroughBoxes(I32(x), d[k]); }
  }

  lemma StringsKey(d: Dict, k: Key, xs: seq<string>)
    requires KeyReply(Some(StrList(xs)), DictValue(d, k))
    ensures StringsIn(d, k) == xs
  {
    StrListArrives(xs);
    if k in d { StringsArrive(xs, d[k]); }
  }

  lemma PortsKey(d: Dict, k: Key, ps: seq<Port>)
    requires KeyReply(Some(Ports(ps)), DictValue(d, k))
    ensures PortsIn(d, k) == ps
  {
    if k in d { PortsArrive(ps, d[k]); }
  }

  lemma ForwardsKey(d: Dict, k: Key, fs: seq<ForwardPort>)
    requires KeyReply(Some(ForwardPorts(fs)), DictValue(d, k))
    ensures ForwardsIn(d, k) == fs
  {
    if k in d { ForwardsArrive(fs, d[k]); }
  }

  lemma StringMapKey(d: Dict, k: Key, m: map<string, string>)
    requires KeyReply(Some(StringMap(m)), DictValue(d, k))
    ensures StringMapIn(d, k) == m
  {
    if k in d { MapsSeeThroughBoxes(StringMap(m), d[k]); }
  }

  // ------------------------------------------------------ tuple replies

  /** A reply to a stored tuple: its fields re-boxed, with anything appended. */
  ghost predicate TupleReply(stored: seq<Value>, reply: seq<Value>) {
    |stored| <= |reply| && forall i {:trigger reply[i]} :: 0 <= i < |stored| ==> Boxes(OnWire(stored[i]), reply[i])
  }

  lemma StringField(sent: seq<Value>, reply: seq<Value>, i: nat, x: string)
    requires TupleReply(sent, reply) && i < |sent| && sent[i] == Str(x)
    ensures AsString(TupleField(reply, i)) == x
  {
    ScalarsSeeThroughBoxes(Str(x), reply[i]);
  }

  lemma BoolField(sent: seq<Value>, reply: seq<Value>, i: nat, x: bool)
    requires TupleReply(sent, reply) && i < |sent| && sent[i] == Bool(x)
    ensures AsBool(TupleField(reply, i)) == x
  {
    ScalarsSeeThroughBoxes(Bool(x), reply[i]);
  }

  lemma StringsField(sent: seq<Value>, reply: seq<Value>, i: nat, xs: seq<string>)
    requires TupleReply(sent, reply) && i < |sent| && sent[i] == StrList(xs)
    ensures Strings(TupleField(reply, i)) == xs
  {
    StringsArrive(xs, reply[i]);
  }

  lemma PortsField(sent: seq<Value>, reply: seq<Value>, i: nat, ps: seq<Port>)
    requires TupleReply(sent, reply) && i < |sent| && sent[i] == Ports(ps)
    ensures PortsOf(TupleField(reply, i)) == ps
  {
    PortsArrive(ps, reply[i]);
  }

  lemma ForwardsField(sent: seq<Value>, reply: seq<Value>, i: nat, fs: seq<ForwardPort>)
    requires TupleReply(sent, reply) && i < |sent| && sent[i] == ForwardPorts(fs)
    ensures ForwardsOf(TupleField(reply, i)) == fs
  {
    ForwardsArrive(fs, reply[i]);
  }

  lemma StringMapField(sent: seq<Value>, reply: seq<Value>, i: nat, m: map<string, string>)
    requires TupleReply(sent, reply) && i < |sent| && sent[i] == StringMap(m)
    ensures StringsByKey(TupleField(reply, i)) == m
  {
    MapsSeeThroughBoxes(StringMap(m), reply[i]);
  }

  // ------------------------------------------------------ int32 narrowing

  /** The conversion yields the one int32 congruent to its input modulo 2^32. */
  lemma NarrowIsUniqueCongruent(n: int, r: Int32)
    ensures r == Narrow(n) <==> (r - n) % 0x1_0000_0000 == 0
    ensures -0x8000_0000 <= n < 0x8000_0000 ==> Narrow(n) == n
  {
  }

  predicate IsInteger(v: Value) { v.I32? || v.GoInt? || v.I64? || v.U32? }

  function IntegerIn(v: Value): int
    requires IsInteger(v)
  {
    match v
    case I32(n) => n
    case GoInt(n) => n
    case I64(n) => n
    case U32(n) => n
  }

  lemma {:induction false} AsInt32IsCongruent(v: Value, w: Value, r: Int32)
    requires IsInteger(v) && Boxes(v, w)
    ensures r == AsInt32(w) <==> (r - IntegerIn(v)) % 0x1_0000_0000 == 0
    ensures -0x8000_0000 <= IntegerIn(v) < 0x8000_0000 ==> AsInt32(w) == IntegerIn(v)
  {
    ScalarsSeeThroughBoxes(v, w);
    NarrowIsUniqueCongruent(IntegerIn(v), r);
    assert AsInt32(v) == Narrow(IntegerIn(v));
  }
}
