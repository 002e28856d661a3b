/** PostgreSQL types and values, the binary format of a value, and the JSON a value stands for. */
module Wire {
  import opened Text
  import opened Bytes
  import opened Json

  /** A type with its kind. `Leaf` is any simple type whose format a library owns. */
  datatype PgType =
    | Int4
    | Int8
    | Bits
    | Enum
    | Leaf(id: nat)
    | Domain(base: PgType)
    | Array(oid: int, elem: PgType)
    | Composite(fields: seq<Field>)
    | Range(sub: PgType)
    | Multirange(sub: PgType)

  datatype Field = Field(name: string, oid: int, ty: PgType)

  datatype Value =
    | IntV(n: int)
    | BitsV(bits: seq<bool>)
    | EnumV(text: string)
    | LeafV(bytes: seq<byte>)
    | ArrayV(lowerBound: int, elems: seq<Option<Value>>)
    | CompositeV(fields: seq<Option<Value>>)
    | RangeV(range: RangeOf)
    | MultirangeV(ranges: seq<RangeOf>)

  datatype RangeOf = EmptyRange | Bounds(lower: Option<Value>, lowerInc: bool, upper: Option<Value>, upperInc: bool)

  /** The libraries' decoders of leaves: as an element or field, and as a range bound if that is supported. */
  datatype Library = Library(scalar: (nat, seq<byte>) -> Json, bound: (nat, seq<byte>) -> Option<string>)

  // -------------------------------------------------------------------------
  // The binary format

  function Sized(v: Option<seq<byte>>): seq<byte> {
    match v {
      case None => Be32(-1)
      case Some(bytes) => Be32(|bytes|) + bytes
    }
  }

  /** The number whose binary digits are `bits`, the first one the most significant. */
  function BitsValue(bits: seq<bool>): (n: nat)
    ensures n < Pow2(|bits|)
  {
    if bits == [] then 0 else 2 * BitsValue(bits[..|bits| - 1]) + (if bits[|bits| - 1] then 1 else 0)
  }

  function Pow2(k: nat): nat {
    if k == 0 then 1 else 2 * Pow2(k - 1)
  }

  function Zeros(n: nat): (zs: seq<bool>)
    ensures |zs| == n
  {
    seq(n, _ => false)
  }

  /** Up to eight bits in a byte, zeros after them. */
  function PackByte(bits: seq<bool>): byte
    requires |bits| <= 8
  {
    assert Pow2(8) == 256;
    BitsValue(bits + Zeros(8 - |bits|))
  }

  function PackBits(bits: seq<bool>): (bytes: seq<byte>)
    ensures |bytes| == (|bits| + 7) / 8
  {
    if bits == [] then [] else if |bits| <= 8 then [PackByte(bits)] else [PackByte(bits[..8])] + PackBits(bits[8..])
  }

  function Encode(ty: PgType, v: Value): seq<byte>
    decreases ty, 0
  {
    match (ty, v) {
      case (Int4, IntV(n)) => Be32(n)
      case (Int8, IntV(n)) => Be64(n)
      case (Bits, BitsV(bits)) => Be32(|bits|) + PackBits(bits)
      case (Enum, EnumV(text)) => EncodeUtf8(text)
      case (Leaf(_), LeafV(bytes)) => bytes
      case (Domain(base), _) => Encode(base, v)
      case (Array(oid, elem), ArrayV(lowerBound, elems)) => EncodeArray(oid, elem, lowerBound, elems)
      case (Composite(fields), CompositeV(vs)) => Be32(|fields|) + EncodeFields(fields, vs)
      case (Range(sub), RangeV(range)) => EncodeRange(sub, range)
      case (Multirange(sub), MultirangeV(ranges)) => Be32(|ranges|) + EncodeRanges(sub, ranges)
      case _ => []
    }
  }

  /** No dimension for an empty array, one for any other. */
  function EncodeArray(oid: int, elem: PgType, lowerBound: int, elems: seq<Option<Value>>): seq<byte>
    decreases elem, |elems| + 2
  {
    if elems == [] then Be32(0) + (Be32(0) + Be32(oid))
    else
      var hasNulls := if None in elems then 1 else 0;
      Be32(1) + (Be32(hasNulls) + (Be32(oid) + (Be32(|elems|) + (Be32(lowerBound) + EncodeElems(elem, elems)))))
  }

  function EncodeOption(ty: PgType, v: Option<Value>): seq<byte>
    decreases ty, 1
  {
    Sized(if v.None? then None else Some(Encode(ty, v.value)))
  }

  function EncodeElems(elem: PgType, elems: seq<Option<Value>>): seq<byte>
    decreases elem, |elems| + 1
  {
    if elems == [] then [] else EncodeOption(elem, elems[0]) + EncodeElems(elem, elems[1..])
  }

  /** Each field: its type's OID, then its value. */
  function EncodeFields(fields: seq<Field>, vs: seq<Option<Value>>): seq<byte>
    decreases fields
  {
    if fields == [] || vs == [] then []
    else EncodeField(fields[0], vs[0]) + EncodeFields(fields[1..], vs[1..])
  }

  function EncodeField(field: Field, v: Option<Value>): seq<byte>
    decreases field
  {
    Be32(field.oid) + EncodeOption(field.ty, v)
  }

  function Flags(range: RangeOf): byte {
    match range {
      case EmptyRange => 1
      case Bounds(lower, lowerInc, upper, upperInc) =>
        (if lowerInc then 2 else 0) + (if upperInc then 4 else 0) + (if lower.None? then 8 else 0)
        + (if upper.None? then 16 else 0)
    }
  }

  function EncodeBound(sub: PgType, v: Option<Value>): seq<byte>
    decreases sub, 1
  {
    if v.None? then [] else Sized(Some(Encode(sub, v.value)))
  }

  function EncodeRange(sub: PgType, range: RangeOf): seq<byte>
    decreases sub, 2
  {
    if range.EmptyRange? then [Flags(range)]
    else [Flags(range)] + (EncodeBound(sub, range.lower) + EncodeBound(sub, range.upper))
  }

  function EncodeRanges(sub: PgType, ranges: seq<RangeOf>): seq<byte>
    decreases sub, |ranges| + 3
  {
    if ranges == [] then [] else Sized(Some(EncodeRange(sub, ranges[0]))) + EncodeRanges(sub, ranges[1..])
  }

  // -------------------------------------------------------------------------
  // The JSON a value stands for

  function BitsText(bits: seq<bool>): string {
    if bits == [] then "" else [if bits[0] then '1' else '0'] + BitsText(bits[1..])
  }

  function JsonOf(lib: Library, ty: PgType, v: Value): Json
    decreases ty, 0
  {
    match (ty, v) {
      case (Int4, IntV(n)) => JNum(n)
      case (Int8, IntV(n)) => I64ToJson(n)
      case (Bits, BitsV(bits)) => JStr(BitsText(bits))
      case (Enum, EnumV(text)) => JStr(text)
      case (Leaf(id), LeafV(bytes)) => lib.scalar(id, bytes)
      case (Domain(base), _) => JsonOf(lib, base, v)
      case (Array(_, elem), ArrayV(_, elems)) => JArr(JsonOfElems(lib, elem, elems))
      case (Composite(fields), CompositeV(vs)) => JObj(JsonOfFields(lib, fields, vs, map[]))
      case (Range(sub), RangeV(range)) => JStr(RangeText(lib, sub, range))
      case (Multirange(sub), MultirangeV(ranges)) => JStr("{" + Join(RangeTexts(lib, sub, ranges), ",") + "}")
      case _ => JNull
    }
  }

  function JsonOfOption(lib: Library, ty: PgType, v: Option<Value>): Json
    decreases ty, 1
  {
    if v.None? then JNull else JsonOf(lib, ty, v.value)
  }

  function JsonOfElems(lib: Library, elem: PgType, elems: seq<Option<Value>>): seq<Json>
    decreases elem, |elems| + 1
  {
    if elems == [] then [] else [JsonOfOption(lib, elem, elems[0])] + JsonOfElems(lib, elem, elems[1..])
  }

  /** `done` and then each field under its name, NULL fields in place. */
  function JsonOfFields(lib: Library, fields: seq<Field>, vs: seq<Option<Value>>, done: map<string, Json>)
      : map<string, Json>
    decreases fields
  {
    if fields == [] || vs == [] then done
    else
      var f := fields[0];
      JsonOfFields(lib, fields[1..], vs[1..], done[f.name := JsonOfOption(lib, f.ty, vs[0])])
  }

  /** The JSON of a bound, for the types a bound can be read in. */
  function BoundJson(lib: Library, sub: PgType, v: Value): Json {
    match (sub, v) {
      case (Int4, IntV(n)) => JNum(n)
      case (Int8, IntV(n)) => I64ToJson(n)
      case (Leaf(id), LeafV(bytes)) => (match lib.bound(id, bytes) case None => JNull case Some(s) => JStr(s))
      case _ => JNull
    }
  }

  function BoundText(lib: Library, sub: PgType, v: Option<Value>): string {
    if v.None? then "" else
      var j := BoundJson(lib, sub, v.value);
      if j.JNum? || j.JStr? then ScalarText(j) else "null"
  }

  function RangeText(lib: Library, sub: PgType, range: RangeOf): string {
    match range {
      case EmptyRange => "empty"
      case Bounds(lower, lowerInc, upper, upperInc) =>
        (if lowerInc then "[" else "(") + BoundText(lib, sub, lower) + ", " + BoundText(lib, sub, upper)
        + (if upperInc then "]" else ")")
    }
  }

  function RangeTexts(lib: Library, sub: PgType, ranges: seq<RangeOf>): seq<string> {
    if ranges == [] then [] else [RangeText(lib, sub, ranges[0])] + RangeTexts(lib, sub, ranges[1..])
  }

  // -------------------------------------------------------------------------
  // The values the format can carry

  predicate Fits(lib: Library, ty: PgType, v: Value)
    decreases ty, 0
  {
    match (ty, v) {
      case (Int4, IntV(n)) => -TWO_31 <= n < TWO_31
      case (Int8, IntV(n)) => I64_MIN <= n <= I64_MAX
      case (Bits, BitsV(bits)) => |bits| < TWO_31
      case (Enum, EnumV(_)) => true
      case (Leaf(_), LeafV(_)) => true
      case (Domain(base), _) => Fits(lib, base, v)
      case (Array(_, elem), ArrayV(_, elems)) =>
        |elems| < TWO_31 && (forall i :: 0 <= i < |elems| ==> FitsOption(lib, elem, elems[i]))
      case (Composite(fields), CompositeV(vs)) => |fields| < TWO_31 && FitsFields(lib, fields, vs)
      case (Range(sub), RangeV(range)) => FitsRange(lib, sub, range)
      case (Multirange(sub), MultirangeV(ranges)) =>
        |ranges| < TWO_31
        && (forall i :: 0 <= i < |ranges| ==> FitsRange(lib, sub, ranges[i]) && |EncodeRange(sub, ranges[i])| < TWO_31)
      case _ => false
    }
  }

  predicate FitsOption(lib: Library, ty: PgType, v: Option<Value>)
    decreases ty, 1
  {
    v.Some? ==> Fits(lib, ty, v.value) && |Encode(ty, v.value)| < TWO_31
  }

  predicate FitsFields(lib: Library, fields: seq<Field>, vs: seq<Option<Value>>)
    decreases fields
  {
    |fields| == |vs| && (fields != [] ==> FitsOption(lib, fields[0].ty, vs[0]) && FitsFields(lib, fields[1..], vs[1..]))
  }

  predicate FitsBound(lib: Library, sub: PgType, v: Option<Value>)
    decreases sub, 1
  {
    v.Some? ==> Fits(lib, sub, v.value) && |Encode(sub, v.value)| < TWO_31 && BoundJson(lib, sub, v.value) != JNull
  }

  predicate FitsRange(lib: Library, sub: PgType, range: RangeOf)
    decreases sub, 2
  {
    range.Bounds? ==> FitsBound(lib, sub, range.lower) && FitsBound(lib, sub, range.upper)
  }
}
