/** Decoding inverts PostgreSQL's encoding, and what it makes of an encoding cut short. */
module RoundTrip {
  import opened Text
  import opened Bytes
  import opened Json
  import opened Wire
  import opened Decoder

  // -------------------------------------------------------------------------
  // Leaves and length prefixes

  lemma SizedReads(bytes: seq<byte>, rest: seq<byte>)
    requires |bytes| < TWO_31
    ensures ReadSized(Sized(Some(bytes)) + rest) == Got(bytes, rest)
  {
    ReadBe32(|bytes|, bytes + rest);
    assert Sized(Some(bytes)) + rest == Be32(|bytes|) + (bytes + rest);
  }

  lemma NullReads(rest: seq<byte>)
    ensures ReadSized(Sized(None) + rest) == Null(rest)
  {
    ReadBe32(-1, rest);
  }

  lemma {:induction false} BitStringOf(bits: seq<bool>)
    ensures BitString(BitsValue(bits), |bits|) == BitsText(bits)
  {
    if bits != [] {
      var front, last := bits[..|bits| - 1], bits[|bits| - 1];
      BitStringOf(front);
      BitsTextConcat(front, [last]);
      assert front + [last] == bits;
      assert BitsText([last]) == [if last then '1' else '0'] + BitsText([last][1..]);
    }
  }

  lemma {:induction false} BitsTextConcat(a: seq<bool>, b: seq<bool>)
    ensures BitsText(a + b) == BitsText(a) + BitsText(b) && |BitsText(a)| == |a|
  {
    if a == [] {
      assert a + b == b;
    } else {
      BitsTextConcat(a[1..], b);
      assert (a + b)[1..] == a[1..] + b;
    }
  }

  lemma {:induction false} PackedBits(bits: seq<bool>)
    ensures |BitsText(bits)| == |bits| <= 8 * |PackBits(bits)|
    ensures BitsOfBytes(PackBits(bits))[..|bits|] == BitsText(bits)
  {
    if bits == [] {
    } else if |bits| <= 8 {
      var padded := bits + Zeros(8 - |bits|);
      BitStringOf(padded);
      BitsTextConcat(bits, Zeros(8 - |bits|));
      assert PackBits(bits)[1..] == [];
    } else {
      var head, tail := bits[..8], bits[8..];
      BitStringOf(head);
      assert head + Zeros(0) == head;
      PackedBits(tail);
      BitsTextConcat(head, tail);
      assert bits == head + tail;
      assert PackBits(bits)[1..] == PackBits(tail);
    }
  }

  lemma BitsRoundTrip(bits: seq<bool>)
    requires |bits| < TWO_31
    ensures BitsFromBytes(Be32(|bits|) + PackBits(bits)) == Some(BitsText(bits))
  {
    ReadBe32(|bits|, PackBits(bits));
    PackedBits(bits);
  }

  // -------------------------------------------------------------------------
  // The theorem

  /** For every type tree and every value of it, decoding its binary encoding gives that value's JSON. */
  lemma {:induction false} DecodeEncode(lib: Library, ty: PgType, v: Value)
    requires Fits(lib, ty, v)
    ensures Decode(lib, ty, Encode(ty, v)) == JsonOf(lib, ty, v)
    decreases ty, 0
  {
    match ty {
      case Int4 =>
        ReadBe32(v.n, []);
        assert Be32(v.n) + [] == Be32(v.n);
      case Int8 => ReadBe64(v.n);
      case Bits => BitsRoundTrip(v.bits);
      case Enum => Utf8RoundTrip(v.text);
      case Leaf(_) =>
      case Domain(base) => DecodeEncode(lib, base, v);
      case Array(oid, elem) => ArrayRoundTrip(lib, oid, elem, v.lowerBound, v.elems);
      case Composite(fields) =>
        ReadBe32(|fields|, EncodeFields(fields, v.fields));
        FieldsRoundTrip(lib, fields, v.fields, map[]);
      case Range(sub) =>
        RangeReads(lib, sub, v.range, []);
        assert EncodeRange(sub, v.range) + [] == EncodeRange(sub, v.range);
      case Multirange(sub) =>
        ReadBe32(|v.ranges|, EncodeRanges(sub, v.ranges));
        RangesRead(lib, sub, v.ranges, |v.ranges|, []);
        assert EncodeRanges(sub, v.ranges) + [] == EncodeRanges(sub, v.ranges);
    }
  }

  lemma {:induction false} OptionReads(lib: Library, ty: PgType, v: Option<Value>, rest: seq<byte>)
    requires FitsOption(lib, ty, v)
    ensures var p := ReadSized(EncodeOption(ty, v) + rest);
            && (p.Null? || p.Got?) && p.rest == rest
            && JsonOfOption(lib, ty, v) == (if p.Null? then JNull else Decode(lib, ty, p.bytes))
    decreases ty, 1
  {
    if v.None? {
      NullReads(rest);
    } else {
      SizedReads(Encode(ty, v.value), rest);
      DecodeEncode(lib, ty, v.value);
    }
  }

  lemma ArrayHeader(ndim: int, hasNulls: int, oid: int, len: int, lowerBound: int, body: seq<byte>)
    requires 0 <= ndim < TWO_31 && 0 <= len < TWO_31
    ensures var raw := Be32(ndim) + (Be32(hasNulls) + (Be32(oid) + (Be32(len) + (Be32(lowerBound) + body))));
            |raw| == 20 + |body| && ReadI32(raw) == ndim && ReadI32(raw[12..]) == len && raw[20..] == body
  {
    var tail := Be32(lowerBound) + body;
    ReadBe32(ndim, Be32(hasNulls) + (Be32(oid) + (Be32(len) + tail)));
    ReadBe32(len, tail);
    var raw := Be32(ndim) + (Be32(hasNulls) + (Be32(oid) + (Be32(len) + tail)));
    assert raw[12..] == Be32(len) + tail;
  }

  lemma {:induction false} ArrayRoundTrip(lib: Library, oid: int, elem: PgType, lowerBound: int,
                                          elems: seq<Option<Value>>)
    requires |elems| < TWO_31 && (forall i :: 0 <= i < |elems| ==> FitsOption(lib, elem, elems[i]))
    ensures DecodeArray(lib, elem, EncodeArray(oid, elem, lowerBound, elems)) == Some(JsonOfElems(lib, elem, elems))
    decreases elem, |elems| + 3
  {
    if elems == [] {
      ReadBe32(0, Be32(0) + Be32(oid));
    } else {
      ArrayHeader(1, if None in elems then 1 else 0, oid, |elems|, lowerBound, EncodeElems(elem, elems));
      ElemsRoundTrip(lib, elem, elems);
    }
  }

  lemma ElemReads(lib: Library, elem: PgType, n: nat, buf: seq<byte>, j: Json, rest: seq<byte>)
    requires var p := ReadSized(buf);
             (p.Null? || p.Got?) && p.rest == rest && j == (if p.Null? then JNull else Decode(lib, elem, p.bytes))
    ensures DecodeElems(lib, elem, n + 1, buf) == Prepend(j, DecodeElems(lib, elem, n, rest))
  {
  }

  lemma {:induction false} ElemsRoundTrip(lib: Library, elem: PgType, elems: seq<Option<Value>>)
    requires forall i :: 0 <= i < |elems| ==> FitsOption(lib, elem, elems[i])
    ensures DecodeElems(lib, elem, |elems|, EncodeElems(elem, elems)) == Some(JsonOfElems(lib, elem, elems))
    decreases elem, |elems| + 2
  {
    if elems != [] {
      var rest := EncodeElems(elem, elems[1..]);
      OptionReads(lib, elem, elems[0], rest);
      ElemsRoundTrip(lib, elem, elems[1..]);
      ElemReads(lib, elem, |elems| - 1, EncodeOption(elem, elems[0]) + rest, JsonOfOption(lib, elem, elems[0]), rest);
    }
  }

  lemma {:induction false} FieldsRoundTrip(lib: Library, fields: seq<Field>, vs: seq<Option<Value>>,
                                           done: map<string, Json>)
    requires FitsFields(lib, fields, vs)
    ensures DecodeFields(lib, fields, EncodeFields(fields, vs), done) == JsonOfFields(lib, fields, vs, done)
    decreases fields
  {
    if fields != [] {
      var rest := EncodeFields(fields[1..], vs[1..]);
      FieldReads(lib, fields[0], vs[0], rest);
      FieldsRoundTrip(lib, fields[1..], vs[1..], done[fields[0].name := JsonOfOption(lib, fields[0].ty, vs[0])]);
    }
  }

  lemma {:induction false} FieldReads(lib: Library, field: Field, v: Option<Value>, rest: seq<byte>)
    requires FitsOption(lib, field.ty, v)
    ensures var buf := EncodeField(field, v) + rest;
            |buf| >= 4 && var p := ReadSized(buf[4..]);
            && (p.Null? || p.Got?) && p.rest == rest
            && JsonOfOption(lib, field.ty, v) == (if p.Null? then JNull else Decode(lib, field.ty, p.bytes))
    decreases field
  {
    var buf := EncodeField(field, v) + rest;
    assert buf[4..] == EncodeOption(field.ty, v) + rest;
    OptionReads(lib, field.ty, v, rest);
  }

  lemma SimpleReads(lib: Library, sub: PgType, v: Value)
    requires Fits(lib, sub, v) && BoundJson(lib, sub, v) != JNull
    ensures DecodeSimple(lib, sub, Encode(sub, v)) == BoundJson(lib, sub, v)
  {
    match sub {
      case Int4 =>
        ReadBe32(v.n, []);
        assert Be32(v.n) + [] == Be32(v.n);
      case Int8 => ReadBe64(v.n);
      case _ =>
    }
  }

  lemma BoundReads(lib: Library, sub: PgType, v: Option<Value>, rest: seq<byte>)
    requires FitsBound(lib, sub, v)
    ensures (if v.None? then (Some(""), EncodeBound(sub, v) + rest)
             else DecodeBound(lib, sub, EncodeBound(sub, v) + rest))
         == (Some(BoundText(lib, sub, v)), rest)
  {
    if v.None? {
      assert EncodeBound(sub, v) + rest == rest;
    } else {
      SizedReads(Encode(sub, v.value), rest);
      SimpleReads(lib, sub, v.value);
    }
  }

  lemma FlagsRead(range: RangeOf)
    ensures Flag(Flags(range), 1) <==> range.EmptyRange?
    ensures range.Bounds? ==>
              && (Flag(Flags(range), 2) <==> range.lowerInc) && (Flag(Flags(range), 4) <==> range.upperInc)
              && (Flag(Flags(range), 8) <==> range.lower.None?) && (Flag(Flags(range), 16) <==> range.upper.None?)
  {
  }

  lemma RangeSplits(sub: PgType, range: RangeOf, rest: seq<byte>)
    requires range.Bounds?
    ensures var buf := EncodeRange(sub, range) + rest;
            && buf != [] && buf[0] == Flags(range)
            && buf[1..] == EncodeBound(sub, range.lower) + (EncodeBound(sub, range.upper) + rest)
  {
  }

  /** A range is read off the front of a longer buffer, which is how a multirange reads its ranges. */
  lemma RangeReads(lib: Library, sub: PgType, range: RangeOf, rest: seq<byte>)
    requires FitsRange(lib, sub, range)
    ensures DecodeRange(lib, sub, EncodeRange(sub, range) + rest) == (JStr(RangeText(lib, sub, range)), rest)
  {
    FlagsRead(range);
    if range.Bounds? {
      RangeSplits(sub, range, rest);
      BoundReads(lib, sub, range.lower, EncodeBound(sub, range.upper) + rest);
      BoundReads(lib, sub, range.upper, rest);
    } else {
      var buf := EncodeRange(sub, range) + rest;
      assert buf[0] == Flags(range) && buf[1..] == rest;
    }
  }

  lemma PrefixSkips(bytes: seq<byte>, rest: seq<byte>)
    ensures var buf := Sized(Some(bytes)) + rest; |buf| >= 4 && buf[4..] == bytes + rest
  {
  }

  lemma EncodedSplits(sub: PgType, ranges: seq<RangeOf>, rest: seq<byte>)
    requires ranges != []
    ensures EncodeRanges(sub, ranges) + rest
            == Sized(Some(EncodeRange(sub, ranges[0]))) + (EncodeRanges(sub, ranges[1..]) + rest)
  {
    Associates(Sized(Some(EncodeRange(sub, ranges[0]))), EncodeRanges(sub, ranges[1..]), rest);
  }

  lemma Associates(a: seq<byte>, b: seq<byte>, c: seq<byte>)
    ensures a + b + c == a + (b + c)
  {
  }

  lemma RangesStep(lib: Library, sub: PgType, ranges: seq<RangeOf>, n: nat, rest: seq<byte>)
    requires ranges != [] && FitsRange(lib, sub, ranges[0]) && |EncodeRange(sub, ranges[0])| < TWO_31 && n > 0
    requires DecodeRanges(lib, sub, n - 1, EncodeRanges(sub, ranges[1..]) + rest) == RangeTexts(lib, sub, ranges[1..])
    ensures DecodeRanges(lib, sub, n, EncodeRanges(sub, ranges) + rest) == RangeTexts(lib, sub, ranges)
  {
    var more := EncodeRanges(sub, ranges[1..]) + rest;
    EncodedSplits(sub, ranges, rest);
    PrefixSkips(EncodeRange(sub, ranges[0]), more);
    RangeReads(lib, sub, ranges[0], more);
  }

  lemma NoRanges(lib: Library, sub: PgType, n: nat, rest: seq<byte>)
    requires |rest| < 4
    ensures DecodeRanges(lib, sub, n, EncodeRanges(sub, []) + rest) == RangeTexts(lib, sub, [])
  {
    assert EncodeRanges(sub, []) + rest == rest;
  }

  predicate FitRanges(lib: Library, sub: PgType, ranges: seq<RangeOf>) {
    forall i :: 0 <= i < |ranges| ==> FitsRange(lib, sub, ranges[i]) && |EncodeRange(sub, ranges[i])| < TWO_31
  }

  /** Ranges are read until there are enough of them or no length is left. */
  lemma {:induction false} RangesRead(lib: Library, sub: PgType, ranges: seq<RangeOf>, n: nat, rest: seq<byte>)
    requires FitRanges(lib, sub, ranges) && |ranges| <= n && |rest| < 4
    ensures DecodeRanges(lib, sub, n, EncodeRanges(sub, ranges) + rest) == RangeTexts(lib, sub, ranges)
  {
    if ranges == [] {
      NoRanges(lib, sub, n, rest);
    } else {
      RangesRead(lib, sub, ranges[1..], n - 1, rest);
      RangesStep(lib, sub, ranges, n, rest);
    }
  }
}
