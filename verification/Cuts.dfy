/** What the decoder makes of a valid encoding that was cut short. */
module Cuts {
  import opened Text
  import opened Bytes
  import opened Json
  import opened Wire
  import opened Decoder
  import opened RoundTrip

  lemma CutOption(lib: Library, ty: PgType, v: Option<Value>, room: nat)
    requires FitsOption(lib, ty, v) && room < |EncodeOption(ty, v)|
    ensures var p := ReadSized(EncodeOption(ty, v)[..room]); p.NoLength? || p.NoValue?
  {
    var enc := EncodeOption(ty, v);
    if room >= 4 {
      var bytes := Encode(ty, v.value);
      ReadBe32(|bytes|, bytes[..room - 4]);
      assert enc[..room] == Be32(|bytes|) + bytes[..room - 4];
    }
  }

  // -------------------------------------------------------------------------
  // Arrays

  lemma CutConcat(first: seq<byte>, rest: seq<byte>, room: nat)
    requires room <= |first| + |rest|
    ensures (first + rest)[..room] == if room < |first| then first[..room] else first + rest[..room - |first|]
  {
  }

  lemma ElemStep(lib: Library, elem: PgType, v: Option<Value>, n: nat, rest: seq<byte>)
    requires FitsOption(lib, elem, v) && n > 0 && DecodeElems(lib, elem, n - 1, rest) == None
    ensures DecodeElems(lib, elem, n, EncodeOption(elem, v) + rest) == None
  {
    OptionReads(lib, elem, v, rest);
  }

  lemma {:induction false} CutElems(lib: Library, elem: PgType, elems: seq<Option<Value>>, room: nat)
    requires forall i :: 0 <= i < |elems| ==> FitsOption(lib, elem, elems[i])
    requires room < |EncodeElems(elem, elems)|
    ensures DecodeElems(lib, elem, |elems|, EncodeElems(elem, elems)[..room]) == None
  {
    var first := EncodeOption(elem, elems[0]);
    var rest := EncodeElems(elem, elems[1..]);
    CutConcat(first, rest, room);
    if room < |first| {
      CutOption(lib, elem, elems[0], room);
    } else {
      var left := room - |first|;
      CutElems(lib, elem, elems[1..], left);
      ElemStep(lib, elem, elems[0], |elems|, rest[..left]);
    }
  }

  /** A cut array is rejected as a whole, never shortened. */
  lemma CutArray(lib: Library, oid: int, elem: PgType, lowerBound: int, elems: seq<Option<Value>>, cut: nat)
    requires Fits(lib, Array(oid, elem), ArrayV(lowerBound, elems))
    requires cut < |EncodeArray(oid, elem, lowerBound, elems)|
    ensures DecodeArray(lib, elem, EncodeArray(oid, elem, lowerBound, elems)[..cut]) == None
  {
    if cut >= 12 {
      var hasNulls := if None in elems then 1 else 0;
      var body := EncodeElems(elem, elems);
      var raw := EncodeArray(oid, elem, lowerBound, elems);
      ArrayHeader(1, hasNulls, oid, |elems|, lowerBound, body);
      assert raw == Be32(1) + (Be32(hasNulls) + (Be32(oid) + (Be32(|elems|) + (Be32(lowerBound) + body))));
      CutHeader(raw, cut);
      if cut >= 20 {
        CutElems(lib, elem, elems, cut - 20);
        assert raw[20..][..cut - 20] == body[..cut - 20];
      }
    }
  }

  lemma CutHeader(raw: seq<byte>, cut: nat)
    requires 12 <= cut <= |raw|
    ensures ReadI32(raw[..cut]) == ReadI32(raw)
    ensures cut >= 20 ==> ReadI32(raw[..cut][12..]) == ReadI32(raw[12..]) && raw[..cut][20..] == raw[20..][..cut - 20]
  {
  }

  // -------------------------------------------------------------------------
  // Composites

  predicate Names(fields: seq<Field>, name: string) {
    exists i :: 0 <= i < |fields| && fields[i].name == name
  }

  /** No two fields share a name, as in any composite type. */
  predicate Distinct(fields: seq<Field>) {
    forall i, j :: 0 <= i < j < |fields| ==> fields[i].name != fields[j].name
  }

  lemma {:induction false} NullsAt(fields: seq<Field>, done: map<string, Json>, name: string)
    ensures name in Nulls(fields, done) <==> Names(fields, name) || name in done
    ensures name in Nulls(fields, done) ==>
              Nulls(fields, done)[name] == if Names(fields, name) then JNull else done[name]
  {
    if fields != [] {
      NullsAt(fields[1..], done[fields[0].name := JNull], name);
      NamesStep(fields, name);
    }
  }

  lemma NamesStep(fields: seq<Field>, name: string)
    requires fields != []
    ensures Names(fields, name) <==> fields[0].name == name || Names(fields[1..], name)
  {
    if i :| 0 <= i < |fields| && fields[i].name == name {
      assert i > 0 ==> fields[1..][i - 1].name == name;
    }
    if j :| 0 <= j < |fields[1..]| && fields[1..][j].name == name {
      assert fields[j + 1].name == name;
    }
  }

  /** Decoding any bytes at all gives an entry for exactly the declared fields, and leaves earlier entries alone. */
  lemma {:induction false} FieldsKept(lib: Library, fields: seq<Field>, buf: seq<byte>, done: map<string, Json>,
                                      name: string)
    ensures name in DecodeFields(lib, fields, buf, done) <==> Names(fields, name) || name in done
    ensures name in done && !Names(fields, name) ==> DecodeFields(lib, fields, buf, done)[name] == done[name]
    decreases fields
  {
    if fields != [] {
      NullsAt(fields, done, name);
      NamesStep(fields, name);
      if |buf| >= 4 {
        var p := ReadSized(buf[4..]);
        if p.Null? {
          FieldsKept(lib, fields[1..], p.rest, done[fields[0].name := JNull], name);
        } else if p.Got? {
          FieldsKept(lib, fields[1..], p.rest, done[fields[0].name := Decode(lib, fields[0].ty, p.bytes)], name);
        }
      }
    }
  }

  lemma CutField(lib: Library, fields: seq<Field>, v: Option<Value>, room: nat, done: map<string, Json>)
    requires fields != [] && FitsOption(lib, fields[0].ty, v) && room < |EncodeField(fields[0], v)|
    ensures DecodeFields(lib, fields, EncodeField(fields[0], v)[..room], done) == Nulls(fields, done)
  {
    var enc := EncodeField(fields[0], v);
    if room >= 4 {
      assert enc[..room][4..] == EncodeOption(fields[0].ty, v)[..room - 4];
      CutOption(lib, fields[0].ty, v, room - 4);
    }
  }

  /** Field `i` after the encoded fields were cut to `room` bytes: its value if it lies inside, null if not. */
  function AfterCut(lib: Library, fields: seq<Field>, vs: seq<Option<Value>>, room: int, i: nat): Json
    requires i < |fields| == |vs|
  {
    if |EncodeFields(fields[..i + 1], vs[..i + 1])| <= room then JsonOfOption(lib, fields[i].ty, vs[i]) else JNull
  }

  /** Of the encoded fields cut to `room` bytes, field `i` keeps its value if it lies inside and is null if not. */
  lemma {:induction false} CutFields(lib: Library, fields: seq<Field>, vs: seq<Option<Value>>, room: nat,
                                     done: map<string, Json>, i: nat)
    requires FitsFields(lib, fields, vs) && Distinct(fields) && i < |fields| && room <= |EncodeFields(fields, vs)|
    ensures var m := DecodeFields(lib, fields, EncodeFields(fields, vs)[..room], done);
            && fields[i].name in m
            && m[fields[i].name] == AfterCut(lib, fields, vs, room, i)
    decreases fields
  {
    var first := EncodeField(fields[0], vs[0]);
    var rest := EncodeFields(fields[1..], vs[1..]);
    PrefixLength(fields, vs, i);
    CutConcat(first, rest, room);
    if room < |first| {
      CutField(lib, fields, vs[0], room, done);
      NullsAt(fields, done, fields[i].name);
      assert Names(fields, fields[i].name);
    } else {
      var left := room - |first|;
      FirstFits(lib, fields, vs, rest[..left], done);
      var done' := done[fields[0].name := JsonOfOption(lib, fields[0].ty, vs[0])];
      if i == 0 {
        FieldsKept(lib, fields[1..], rest[..left], done', fields[0].name);
      } else {
        CutFields(lib, fields[1..], vs[1..], left, done', i - 1);
      }
    }
  }

  lemma FirstFits(lib: Library, fields: seq<Field>, vs: seq<Option<Value>>, rest: seq<byte>, done: map<string, Json>)
    requires fields != [] && FitsFields(lib, fields, vs)
    ensures DecodeFields(lib, fields, EncodeField(fields[0], vs[0]) + rest, done)
         == DecodeFields(lib, fields[1..], rest, done[fields[0].name := JsonOfOption(lib, fields[0].ty, vs[0])])
  {
    FieldReads(lib, fields[0], vs[0], rest);
  }

  lemma PrefixLength(fields: seq<Field>, vs: seq<Option<Value>>, i: nat)
    requires i < |fields| == |vs|
    ensures |EncodeFields(fields[..i + 1], vs[..i + 1])|
         == |EncodeField(fields[0], vs[0])| + (if i == 0 then 0 else |EncodeFields(fields[1..][..i], vs[1..][..i])|)
  {
    assert fields[..i + 1][1..] == fields[1..][..i] && vs[..i + 1][1..] == vs[1..][..i];
  }

  /** A cut composite still has every declared field: those wholly inside keep their values, all later ones are null. */
  lemma CutComposite(lib: Library, fields: seq<Field>, vs: seq<Option<Value>>, cut: nat)
    requires Fits(lib, Composite(fields), CompositeV(vs)) && |fields| == |vs| && Distinct(fields)
    requires cut <= |Encode(Composite(fields), CompositeV(vs))|
    ensures var m := DecodeComposite(lib, fields, Encode(Composite(fields), CompositeV(vs))[..cut]);
            && (forall name :: name in m <==> Names(fields, name))
            && (forall i :: 0 <= i < |fields| ==>
                  fields[i].name in m && m[fields[i].name] == AfterCut(lib, fields, vs, cut - 4, i))
  {
    var body := EncodeFields(fields, vs);
    var buf := Encode(Composite(fields), CompositeV(vs))[..cut];
    if cut < 4 {
      forall name ensures name in Nulls(fields, map[]) <==> Names(fields, name) {
        NullsAt(fields, map[], name);
      }
      forall i | 0 <= i < |fields|
        ensures fields[i].name in Nulls(fields, map[]) && Nulls(fields, map[])[fields[i].name] == JNull
      {
        NullsAt(fields, map[], fields[i].name);
        assert Names(fields, fields[i].name);
      }
    } else {
      assert buf[4..] == body[..cut - 4];
      forall name ensures name in DecodeFields(lib, fields, buf[4..], map[]) <==> Names(fields, name) {
        FieldsKept(lib, fields, buf[4..], map[], name);
      }
      forall i | 0 <= i < |fields|
        ensures var m := DecodeFields(lib, fields, buf[4..], map[]);
                fields[i].name in m && m[fields[i].name] == AfterCut(lib, fields, vs, cut - 4, i)
      {
        CutFields(lib, fields, vs, cut - 4, map[], i);
      }
    }
  }

  // -------------------------------------------------------------------------
  // Arrays that are not one-dimensional

  /** Length and lower bound of every dimension. */
  function EncodeDims(dims: seq<(int, int)>): seq<byte> {
    if dims == [] then [] else Be32(dims[0].0) + (Be32(dims[0].1) + EncodeDims(dims[1..]))
  }

  /** An array of any number of dimensions, its elements being `body`. */
  function EncodeWithDims(dims: seq<(int, int)>, hasNulls: int, oid: int, body: seq<byte>): seq<byte> {
    Be32(|dims|) + (Be32(hasNulls) + (Be32(oid) + (EncodeDims(dims) + body)))
  }

  /** An array of two or more dimensions is not read at all, whatever its elements. */
  lemma ManyDimensions(lib: Library, elem: PgType, dims: seq<(int, int)>, hasNulls: int, oid: int, body: seq<byte>)
    requires 2 <= |dims| < TWO_31
    ensures DecodeArray(lib, elem, EncodeWithDims(dims, hasNulls, oid, body)) == None
    ensures Decode(lib, Array(oid, elem), EncodeWithDims(dims, hasNulls, oid, body)) == JNull
  {
    ReadBe32(|dims|, Be32(hasNulls) + (Be32(oid) + (EncodeDims(dims) + body)));
  }

  /** Nor is one whose only dimension has a negative length. */
  lemma NegativeLength(lib: Library, elem: PgType, len: int, lowerBound: int, hasNulls: int, oid: int, body: seq<byte>)
    requires -TWO_31 <= len < 0
    ensures DecodeArray(lib, elem, EncodeWithDims([(len, lowerBound)], hasNulls, oid, body)) == None
  {
    var dims := [(len, lowerBound)];
    var tail := Be32(lowerBound) + body;
    assert EncodeDims(dims[1..]) == [];
    assert EncodeDims(dims) + body == Be32(len) + tail;
    var raw := EncodeWithDims(dims, hasNulls, oid, body);
    ReadBe32(1, Be32(hasNulls) + (Be32(oid) + (EncodeDims(dims) + body)));
    ReadBe32(len, tail);
    assert raw[12..] == Be32(len) + tail;
  }

  // -------------------------------------------------------------------------
  // Ranges

  lemma CutBound(lib: Library, sub: PgType, v: Option<Value>, room: nat)
    requires FitsBound(lib, sub, v) && room < |EncodeBound(sub, v)|
    ensures DecodeBound(lib, sub, EncodeBound(sub, v)[..room])
            == (None, if room < 4 then EncodeBound(sub, v)[..room] else EncodeBound(sub, v)[4..room])
  {
    var enc := EncodeBound(sub, v);
    if room >= 4 {
      var bytes := Encode(sub, v.value);
      ReadBe32(|bytes|, bytes[..room - 4]);
      assert enc[..room] == Be32(|bytes|) + bytes[..room - 4];
    }
  }

  function Opening(range: RangeOf): string
    requires range.Bounds?
  {
    if range.lowerInc then "[" else "("
  }

  function Closing(range: RangeOf): string
    requires range.Bounds?
  {
    if range.upperInc then "]" else ")"
  }

  /** A cut range keeps its brackets and what was read before the cut: no bound, or the lower one. */
  lemma CutRange(lib: Library, sub: PgType, range: RangeOf, cut: nat)
    requires FitsRange(lib, sub, range) && range.Bounds? && 1 <= cut < |EncodeRange(sub, range)|
    ensures DecodeRange(lib, sub, EncodeRange(sub, range)[..cut]).0
            == JStr(if cut < 1 + |EncodeBound(sub, range.lower)| then Opening(range) + "null, null" + Closing(range)
                    else Opening(range) + BoundText(lib, sub, range.lower) + ", " + "null" + Closing(range))
  {
    var lower, upper := EncodeBound(sub, range.lower), EncodeBound(sub, range.upper);
    CutConcat(lower, upper, cut - 1);
    var rest := (lower + upper)[..cut - 1];
    assert EncodeRange(sub, range)[..cut] == [Flags(range)] + rest;
    RangeIs(lib, sub, range, rest);
    if cut < 1 + |lower| {
      CutBound(lib, sub, range.lower, cut - 1);
    } else {
      var room := cut - 1 - |lower|;
      BoundReads(lib, sub, range.lower, upper[..room]);
      CutBound(lib, sub, range.upper, room);
    }
  }

  /** What comes of one bound of a range: nothing if there is none, which is text too. */
  function BoundOf(lib: Library, sub: PgType, v: Option<Value>, buf: seq<byte>): (Option<string>, seq<byte>) {
    if v.None? then (Some(""), buf) else DecodeBound(lib, sub, buf)
  }

  /** The flags say which bounds there are and which brackets; the rest is the bounds'. */
  lemma RangeIs(lib: Library, sub: PgType, range: RangeOf, rest: seq<byte>)
    requires range.Bounds?
    ensures var (lower, mid) := BoundOf(lib, sub, range.lower, rest);
            var upper := BoundOf(lib, sub, range.upper, mid).0;
            DecodeRange(lib, sub, [Flags(range)] + rest).0
            == JStr(if lower.None? then Opening(range) + "null, null" + Closing(range)
                    else Opening(range) + lower.value + ", " + (if upper.None? then "null" else upper.value)
                         + Closing(range))
  {
    FlagsRead(range);
    var buf := [Flags(range)] + rest;
    assert buf[0] == Flags(range) && buf[1..] == rest;
  }

  /** The text of a range whose bounds may be of a kind that is not read: without the lower one nothing is. */
  function ReadableText(lib: Library, sub: PgType, range: RangeOf): string {
    if range.Bounds? && range.lower.Some? && BoundJson(lib, sub, range.lower.value) == JNull
    then Opening(range) + "null, null" + Closing(range) else RangeText(lib, sub, range)
  }

  predicate Carried(lib: Library, sub: PgType, v: Option<Value>) {
    v.Some? ==> Fits(lib, sub, v.value) && |Encode(sub, v.value)| < TWO_31
  }

  lemma SimpleExactly(lib: Library, sub: PgType, v: Value)
    requires Fits(lib, sub, v)
    ensures DecodeSimple(lib, sub, Encode(sub, v)) == BoundJson(lib, sub, v)
  {
    if BoundJson(lib, sub, v) != JNull {
      SimpleReads(lib, sub, v);
    }
  }

  lemma BoundExactly(lib: Library, sub: PgType, v: Option<Value>, rest: seq<byte>)
    requires Carried(lib, sub, v)
    ensures BoundOf(lib, sub, v, EncodeBound(sub, v) + rest)
            == (if v.Some? && BoundJson(lib, sub, v.value) == JNull then None else Some(BoundText(lib, sub, v)), rest)
  {
    if v.None? {
      assert EncodeBound(sub, v) + rest == rest;
    } else {
      SizedReads(Encode(sub, v.value), rest);
      SimpleExactly(lib, sub, v.value);
    }
  }

  /** Bounds that cannot be read become `null`, a lower one for both. */
  lemma UnreadableBounds(lib: Library, sub: PgType, range: RangeOf, rest: seq<byte>)
    requires range.Bounds? ==> Carried(lib, sub, range.lower) && Carried(lib, sub, range.upper)
    ensures DecodeRange(lib, sub, EncodeRange(sub, range) + rest).0 == JStr(ReadableText(lib, sub, range))
  {
    var buf := EncodeRange(sub, range) + rest;
    if range.Bounds? {
      var tail := EncodeBound(sub, range.upper) + rest;
      BoundExactly(lib, sub, range.lower, tail);
      BoundExactly(lib, sub, range.upper, rest);
      RangeSplits(sub, range, rest);
      assert buf == [Flags(range)] + (EncodeBound(sub, range.lower) + tail);
      RangeIs(lib, sub, range, EncodeBound(sub, range.lower) + tail);
    } else {
      FlagsRead(range);
      assert buf[0] == Flags(range);
    }
  }

  /** A bound of negative length is none at all. */
  lemma NegativeBound(lib: Library, sub: PgType, len: int, rest: seq<byte>)
    requires -TWO_31 <= len < 0
    ensures DecodeBound(lib, sub, Be32(len) + rest) == (None, rest)
  {
    ReadBe32(len, rest);
  }

  // -------------------------------------------------------------------------
  // Multiranges

  /** A multirange cut after some of its ranges, or inside the length of the next, keeps those. */
  lemma CutMultirange(lib: Library, sub: PgType, ranges: seq<RangeOf>, n: nat, rest: seq<byte>)
    requires FitRanges(lib, sub, ranges) && |ranges| <= n < TWO_31 && |rest| < 4
    ensures DecodeMultirange(lib, sub, Be32(n) + (EncodeRanges(sub, ranges) + rest))
            == JStr("{" + Join(RangeTexts(lib, sub, ranges), ",") + "}")
  {
    RangesRead(lib, sub, ranges, n, rest);
    ReadBe32(n, EncodeRanges(sub, ranges) + rest);
  }

  // -------------------------------------------------------------------------
  // Bytes that are too few

  /** The bytes a value of the kind has at least. */
  function Least(ty: PgType): nat {
    match ty {
      case Int4 => 4
      case Int8 => 8
      case Bits => 4
      case Array(_, _) => 12
      case Range(_) => 1
      case Multirange(_) => 4
      case _ => 0
    }
  }

  /** A value that is too short for its kind, or an integer that is too long, is null. */
  lemma ShortIsNull(lib: Library, ty: PgType, buf: seq<byte>)
    ensures |buf| < Least(ty) ==> Decode(lib, ty, buf) == JNull
    ensures (ty.Int4? || ty.Int8?) && |buf| != Least(ty) ==> Decode(lib, ty, buf) == JNull
  {
  }
}
