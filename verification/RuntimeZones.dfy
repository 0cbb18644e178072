/** Runtime zone edits: the timeout argument and the typed port listings (zone.go). */
module RuntimeZones {
  import opened Seqs
  import opened Values
  import opened Boxing
  import opened Bus

  const SECOND := 1_000_000_000

  /** A duration in nanoseconds as firewalld's int32 seconds; none or negative means 0. */
  function TimeoutSeconds(d: Int64): Int32 {
    if d <= 0 then 0 else Narrow(d / SECOND)
  }

  /**
   * The floor in seconds of a duration in nanoseconds, exact up to 2^31 seconds and never
   * beyond, where the conversion to int32 wraps; no timeout for a negative duration.
   */
  lemma TimeoutIsFloorBelowWrap(d: Int64)
    ensures d >= 0 ==> (TimeoutSeconds(d) == d / 1_000_000_000 <==> d < 0x8000_0000 * 1_000_000_000)
    ensures d < 0 ==> TimeoutSeconds(d) == 0
  {
  }

  lemma TimeoutIsMonotone(d: Int64, e: Int64)
    requires d <= e < 0x8000_0000 * 1_000_000_000
    ensures 0 <= TimeoutSeconds(d) <= TimeoutSeconds(e)
  {
  }

  /** A positive timeout is sent as "none" exactly when its whole seconds are a multiple of 2^32. */
  lemma PositiveTimeoutReadsAsNone(d: Int64)
    requires d > 0
    ensures TimeoutSeconds(d) == 0 <==> (d / 1_000_000_000) % 0x1_0000_0000 == 0
  {
  }

  /** Half a second is such a timeout: the edit would never expire. */
  lemma HalfASecondNeverExpires()
    ensures TimeoutSeconds(500_000_000) == 0 && TimeoutSeconds(1_000_000_000) == 1
  {
  }

  /** The arguments of an add method: the zone, the element's own, the timeout last. */
  function AddArgs(zone: string, args: seq<Arg>, timeout: Int64): seq<Arg> {
    [Arg(Str(zone))] + args + [Arg(I32(TimeoutSeconds(timeout)))]
  }

  /** The zone comes first, the timeout last, and the element's own arguments between. */
  lemma AddArgsInOrder(zone: string, args: seq<Arg>, timeout: Int64)
    ensures var full := AddArgs(zone, args, timeout);
            && |full| == |args| + 2
            && full[0] == Arg(Str(zone))
            && full[1..|full| - 1] == args
            && full[|full| - 1] == Arg(I32(TimeoutSeconds(timeout)))
  {
  }

  function RowOf(row: seq<Value>): Value { List(VariantT, row) }

  /** Re-wraps decoded rows so the port decoders can read them. */
  method ToAnySlice(raw: seq<seq<Value>>) returns (out: Value)
    ensures out == List(VariantT, MapSeq(RowOf, raw))
  {
    var rows := new Value[|raw|](_ => Nil);
    var i := 0;
    while i < |raw|
      invariant 0 <= i <= |raw|
      invariant forall j :: 0 <= j < i ==> rows[j] == List(VariantT, raw[j])
    {
      rows[i] := List(VariantT, raw[i]);
      i := i + 1;
    }
    assert rows[..] == MapSeq(RowOf, raw);
    out := List(VariantT, rows[..]);
  }

  /** One port per row, in order, from its first two columns however they are boxed. */
  method PortsOfRows(raw: seq<seq<Value>>) returns (out: seq<Port>)
    ensures |out| == |raw|
    ensures forall i :: 0 <= i < |raw| ==> out[i] == Port(StringAt(raw[i], 0), StringAt(raw[i], 1))
  {
    var rows := ToAnySlice(raw);
    out := AsPorts(rows);
    forall i | 0 <= i < |raw| ensures out[i] == Port(StringAt(raw[i], 0), StringAt(raw[i], 1)) {
      assert Elems(rows)[i] == List(VariantT, raw[i]);
      UnwrapTwice(raw[i]);
    }
  }

  /** One forward port per row, in order, from its first four columns however they are boxed. */
  method ForwardPortsOfRows(raw: seq<seq<Value>>) returns (out: seq<ForwardPort>)
    ensures |out| == |raw|
    ensures forall i :: 0 <= i < |raw| ==>
              out[i] == ForwardPort(port := StringAt(raw[i], 0), protocol := StringAt(raw[i], 1),
                                    toPort := StringAt(raw[i], 2), toAddr := StringAt(raw[i], 3))
  {
    var rows := ToAnySlice(raw);
    out := AsForwardPorts(rows);
    forall i | 0 <= i < |raw|
      ensures out[i] == ForwardPort(StringAt(raw[i], 0), StringAt(raw[i], 1), StringAt(raw[i], 2), StringAt(raw[i], 3))
    {
      assert Elems(rows)[i] == List(VariantT, raw[i]);
      UnwrapTwice(raw[i]);
    }
  }
}
