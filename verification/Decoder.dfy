/** The recursive binary decoder of src/extract.rs: what it returns for any bytes, and the loops that compute it. */
module Decoder {
  import opened Text
  import opened Bytes
  import opened Json
  import opened Wire

  /** A length-prefixed value at the front of a buffer: cut before or after its length, NULL, or there. */
  datatype Prefixed =
    | NoLength
    | NoValue(rest: seq<byte>)
    | Null(rest: seq<byte>)
    | Got(bytes: seq<byte>, rest: seq<byte>)

  function ReadSized(buf: seq<byte>): (p: Prefixed)
    ensures p.Got? ==> |p.rest| < |buf|
  {
    if |buf| < 4 then NoLength
    else
      var len := ReadI32(buf);
      var rest := buf[4..];
      if len < 0 then Null(rest) else if |rest| < len then NoValue(rest) else Got(rest[..len], rest[len..])
  }

  // -------------------------------------------------------------------------
  // Leaves

  /** The last `width` binary digits of `b`, as `format!("{:08b}")` prints a byte's eight. */
  function BitString(b: nat, width: nat): (s: string)
    ensures |s| == width
  {
    if width == 0 then "" else BitString(b / 2, width - 1) + [if b % 2 == 1 then '1' else '0']
  }

  function BitsOfBytes(bytes: seq<byte>): (s: string)
    ensures |s| == 8 * |bytes|
  {
    if bytes == [] then "" else BitString(bytes[0], 8) + BitsOfBytes(bytes[1..])
  }

  /** `as usize` of an i32. */
  function AsUsize(n: int): nat
    requires -TWO_31 <= n < TWO_31
  {
    if n < 0 then n + 0x1_0000_0000_0000_0000 else n
  }

  /** The count's worth of bits, the padding of the last byte left out; `None` if there are too few bytes. */
  function BitsFromBytes(raw: seq<byte>): Option<string> {
    if |raw| < 4 then None
    else
      var count := AsUsize(ReadI32(raw));
      if 8 * (|raw| - 4) < count then None else Some(BitsOfBytes(raw[4..])[..count])
  }

  function OrNull(s: Option<string>): Json {
    if s.Some? then JStr(s.value) else JNull
  }

  // -------------------------------------------------------------------------
  // What the decoder returns

  /** `extract_kind_from_bytes`. */
  function Decode(lib: Library, ty: PgType, buf: seq<byte>): Json
    decreases ty, 0
  {
    match ty {
      case Int4 => if |buf| == 4 then JNum(ReadI32(buf)) else JNull
      case Int8 => if |buf| == 8 then I64ToJson(ReadI64(buf)) else JNull
      case Bits => OrNull(BitsFromBytes(buf))
      case Enum => OrNull(DecodeUtf8(buf))
      case Leaf(id) => lib.scalar(id, buf)
      case Domain(base) => Decode(lib, base, buf)
      case Array(_, elem) => (match DecodeArray(lib, elem, buf) case None => JNull case Some(items) => JArr(items))
      case Composite(fields) => JObj(DecodeComposite(lib, fields, buf))
      case Range(sub) => DecodeRange(lib, sub, buf).0
      case Multirange(sub) => DecodeMultirange(lib, sub, buf)
    }
  }

  /** A whole array or nothing. */
  function DecodeArray(lib: Library, elem: PgType, raw: seq<byte>): Option<seq<Json>>
    decreases elem, |raw| + 2
  {
    if |raw| < 12 then None
    else if ReadI32(raw) == 0 then Some([])
    else if ReadI32(raw) != 1 || |raw| < 20 || ReadI32(raw[12..]) < 0 then None
    else DecodeElems(lib, elem, ReadI32(raw[12..]), raw[20..])
  }

  function DecodeElems(lib: Library, elem: PgType, n: nat, buf: seq<byte>): Option<seq<Json>>
    decreases elem, |buf| + 1, n
  {
    if n == 0 then Some([])
    else
      match ReadSized(buf) {
        case NoLength => None
        case NoValue(_) => None
        case Null(rest) => Prepend(JNull, DecodeElems(lib, elem, n - 1, rest))
        case Got(bytes, rest) => Prepend(Decode(lib, elem, bytes), DecodeElems(lib, elem, n - 1, rest))
      }
  }

  function Prepend<T>(x: T, xs: Option<seq<T>>): Option<seq<T>> {
    if xs.None? then None else Some([x] + xs.value)
  }

  /** An object with every declared field. */
  function DecodeComposite(lib: Library, fields: seq<Field>, buf: seq<byte>): map<string, Json>
    decreases fields, 1
  {
    if |buf| < 4 then Nulls(fields, map[]) else DecodeFields(lib, fields, buf[4..], map[])
  }

  function Nulls(fields: seq<Field>, done: map<string, Json>): map<string, Json> {
    if fields == [] then done else Nulls(fields[1..], done[fields[0].name := JNull])
  }

  /** Fields in order until one is cut off; that one and all later ones are null. */
  function DecodeFields(lib: Library, fields: seq<Field>, buf: seq<byte>, done: map<string, Json>): map<string, Json>
    decreases fields, 0
  {
    if fields == [] then done
    else if |buf| < 4 then Nulls(fields, done)
    else
      match ReadSized(buf[4..]) {
        case NoLength => Nulls(fields, done)
        case NoValue(_) => Nulls(fields, done)
        case Null(rest) => DecodeFields(lib, fields[1..], rest, done[fields[0].name := JNull])
        case Got(bytes, rest) =>
          DecodeFields(lib, fields[1..], rest, done[fields[0].name := Decode(lib, fields[0].ty, bytes)])
      }
  }

  /** `extract_simple_from_bytes`: the types a range bound is read in. */
  function DecodeSimple(lib: Library, ty: PgType, buf: seq<byte>): (j: Json)
    ensures j.JNull? || j.JNum? || j.JStr?
  {
    match ty {
      case Int4 => if |buf| == 4 then JNum(ReadI32(buf)) else JNull
      case Int8 => if |buf| == 8 then I64ToJson(ReadI64(buf)) else JNull
      case Leaf(id) => OrNull(lib.bound(id, buf))
      case _ => JNull
    }
  }

  /** The bound's text, if it can be read, and the buffer after it. */
  function DecodeBound(lib: Library, sub: PgType, buf: seq<byte>): (Option<string>, seq<byte>) {
    match ReadSized(buf) {
      case NoLength => (None, buf)
      case NoValue(rest) => (None, rest)
      case Null(rest) => (None, rest)
      case Got(bytes, rest) =>
        var j := DecodeSimple(lib, sub, bytes);
        (if j.JNull? then None else Some(ScalarText(j)), rest)
    }
  }

  predicate Flag(flag: int, mask: int)
    requires mask > 0
  {
    flag / mask % 2 == 1
  }

  /**
   One range from the front of `buf`, and the buffer after it. A lower bound that cannot be read ends it as `null,
   null`.
   */
  function DecodeRange(lib: Library, sub: PgType, buf: seq<byte>): (Json, seq<byte>) {
    if buf == [] then (JNull, buf)
    else if Flag(buf[0], 1) then (JStr("empty"), buf[1..])
    else
      var open := if Flag(buf[0], 2) then "[" else "(";
      var close := if Flag(buf[0], 4) then "]" else ")";
      var (lower, rest) := if Flag(buf[0], 8) then (Some(""), buf[1..]) else DecodeBound(lib, sub, buf[1..]);
      if lower.None? then (JStr(open + "null, null" + close), rest)
      else
        var (upper, last) := if Flag(buf[0], 16) then (Some(""), rest) else DecodeBound(lib, sub, rest);
        (JStr(open + lower.value + ", " + (if upper.None? then "null" else upper.value) + close), last)
  }

  function RangeJsonText(j: Json): string {
    if j.JStr? then j.s else "null"
  }

  /** The texts of up to `n` ranges, as many as have a length prefix in the buffer. */
  function DecodeRanges(lib: Library, sub: PgType, n: nat, buf: seq<byte>): seq<string>
    decreases n
  {
    if n == 0 || |buf| < 4 then []
    else
      var (j, rest) := DecodeRange(lib, sub, buf[4..]);
      [RangeJsonText(j)] + DecodeRanges(lib, sub, n - 1, rest)
  }

  function DecodeMultirange(lib: Library, sub: PgType, raw: seq<byte>): Json {
    if |raw| < 4 then JNull else JStr("{" + Join(DecodeRanges(lib, sub, ReadU32(raw), raw[4..]), ",") + "}")
  }

  // -------------------------------------------------------------------------
  // The loops

  lemma LastBits(raw: seq<byte>, i: nat, count: nat)
    requires 4 <= i < |raw| && 8 * (i - 4) < count <= 8 * (i - 3)
    ensures BitsOfBytes(raw[4..])[..count] == BitsOfBytes(raw[4..i]) + BitString(raw[i], 8)[..count - 8 * (i - 4)]
  {
    BitsOfSnoc(raw[4..i], raw[i]);
    BitsOfConcat(raw[4..i] + [raw[i]], raw[i + 1..]);
    assert raw[4..] == raw[4..i] + [raw[i]] + raw[i + 1..];
  }

  method BitOrVarBit(raw: seq<byte>) returns (bits: Option<string>)
    ensures bits == BitsFromBytes(raw)
  {
    if |raw| < 4 {
      return None;
    }
    var bitsNum := AsUsize(ReadI32(raw));
    var bitsLen := bitsNum / 8;
    var remainder := bitsNum % 8;
    if remainder > 0 {
      bitsLen := bitsLen + 1;
    }
    if |raw| < 4 + bitsLen {
      return None;
    }
    if bitsLen == 0 {
      return Some("");
    }
    var out := "";
    var i := 4;
    while i < 4 + bitsLen - 1
      invariant 4 <= i <= 4 + bitsLen - 1
      invariant out == BitsOfBytes(raw[4..i])
    {
      BitsOfSnoc(raw[4..i], raw[i]);
      assert raw[4..i + 1] == raw[4..i] + [raw[i]];
      out := out + BitString(raw[i], 8);
      i := i + 1;
    }
    var lastByte := BitString(raw[i], 8);
    LastBits(raw, i, bitsNum);
    if remainder > 0 {
      out := out + lastByte[..remainder];
    } else {
      assert lastByte[..8] == lastByte;
      out := out + lastByte;
    }
    bits := Some(out);
  }

  lemma {:induction false} BitsOfConcat(a: seq<byte>, b: seq<byte>)
    ensures BitsOfBytes(a + b) == BitsOfBytes(a) + BitsOfBytes(b)
  {
    if a == [] {
      assert a + b == b;
    } else {
      BitsOfConcat(a[1..], b);
      assert (a + b)[1..] == a[1..] + b;
    }
  }

  lemma BitsOfSnoc(a: seq<byte>, b: byte)
    ensures BitsOfBytes(a + [b]) == BitsOfBytes(a) + BitString(b, 8)
  {
    BitsOfConcat(a, [b]);
    assert [b][1..] == [];
    assert BitsOfBytes([b]) == BitString(b, 8) + BitsOfBytes([]);
  }

  method ExtractKindFromBytes(lib: Library, ty: PgType, buf: seq<byte>) returns (j: Json)
    ensures j == Decode(lib, ty, buf)
    decreases ty, 0
  {
    match ty {
      case Domain(base) => j := ExtractKindFromBytes(lib, base, buf);
      case Array(_, elem) =>
        var items := ArrayFromSql(lib, elem, buf);
        j := if items.None? then JNull else JArr(items.value);
      case Composite(fields) =>
        var fieldMap := ExtractCompositeFields(lib, fields, buf);
        j := JObj(fieldMap);
      case Range(sub) =>
        var rest;
        j, rest := ExtractRangeOrNull(lib, sub, buf);
      case Multirange(sub) => j := MultirangeFromSql(lib, sub, buf);
      case Bits =>
        var bits := BitOrVarBit(buf);
        j := OrNull(bits);
      case _ => j := Decode(lib, ty, buf);
    }
  }

  /** Elements are only ever appended, so a cut buffer costs no more than its own length. */
  method ArrayFromSql(lib: Library, elem: PgType, raw: seq<byte>) returns (items: Option<seq<Json>>)
    ensures items == DecodeArray(lib, elem, raw)
    decreases elem, 2
  {
    if |raw| < 12 {
      return None;
    }
    var dimensions := ReadI32(raw);
    if dimensions == 0 {
      return Some([]);
    }
    if dimensions != 1 {
      return None;
    }
    var buf := raw[12..];
    if |buf| < 8 {
      return None;
    }
    var len := ReadI32(buf);
    if len < 0 {
      return None;
    }
    items := ReadElements(lib, elem, len, raw[20..]);
  }

  method ReadElements(lib: Library, elem: PgType, len: nat, raw: seq<byte>) returns (items: Option<seq<Json>>)
    ensures items == DecodeElems(lib, elem, len, raw)
    decreases elem, 1
  {
    var buf := raw;
    var elements: seq<Json> := [];
    OntoNothing(DecodeElems(lib, elem, len, buf));
    for i := 0 to len
      invariant DecodeElems(lib, elem, len, raw) == Onto(elements, DecodeElems(lib, elem, len - i, buf))
    {
      var element;
      match ReadSized(buf) {
        case NoLength => return None;
        case NoValue(_) => return None;
        case Null(rest) => element, buf := JNull, rest;
        case Got(bytes, rest) =>
          element := ExtractKindFromBytes(lib, elem, bytes);
          buf := rest;
      }
      OntoSnoc(elements, element, DecodeElems(lib, elem, len - i - 1, buf));
      elements := elements + [element];
    }
    assert elements + [] == elements;
    items := Some(elements);
  }

  function Onto<T>(xs: seq<T>, ys: Option<seq<T>>): Option<seq<T>> {
    if ys.None? then None else Some(xs + ys.value)
  }

  lemma OntoNothing<T>(ys: Option<seq<T>>)
    ensures Onto([], ys) == ys
  {
    if ys.Some? {
      assert [] + ys.value == ys.value;
    }
  }

  lemma OntoSnoc<T>(xs: seq<T>, x: T, ys: Option<seq<T>>)
    ensures Onto(xs, Prepend(x, ys)) == Onto(xs + [x], ys)
  {
    if ys.Some? {
      assert xs + ([x] + ys.value) == xs + [x] + ys.value;
    }
  }

  lemma NullsStep(fields: seq<Field>, i: nat, done: map<string, Json>)
    requires i < |fields|
    ensures Nulls(fields[i..], done) == Nulls(fields[i + 1..], done[fields[i].name := JNull])
  {
    assert fields[i..][1..] == fields[i + 1..];
  }

  lemma FieldStep(lib: Library, fields: seq<Field>, i: nat, buf: seq<byte>, done: map<string, Json>)
    requires i < |fields| && |buf| >= 4
    ensures var p := ReadSized(buf[4..]);
            DecodeFields(lib, fields[i..], buf, done)
            == if p.NoLength? || p.NoValue? then Nulls(fields[i..], done)
               else DecodeFields(lib, fields[i + 1..], p.rest,
                                 done[fields[i].name := if p.Null? then JNull else Decode(lib, fields[i].ty, p.bytes)])
  {
    assert fields[i..][1..] == fields[i + 1..];
  }

  method ExtractCompositeFields(lib: Library, fields: seq<Field>, raw: seq<byte>) returns (fieldMap: map<string, Json>)
    ensures fieldMap == DecodeComposite(lib, fields, raw)
    decreases fields, 1
  {
    if |raw| < 4 {
      fieldMap := FillCompositeNulls(fields, map[]);
      return;
    }
    var buf := raw[4..];
    fieldMap := map[];
    for i := 0 to |fields|
      invariant DecodeComposite(lib, fields, raw) == DecodeFields(lib, fields[i..], buf, fieldMap)
    {
      NullsStep(fields, i, fieldMap);
      if |buf| < 4 {
        fieldMap := FillCompositeNulls(fields[i..], fieldMap);
        return;
      }
      FieldStep(lib, fields, i, buf, fieldMap);
      buf := buf[4..];
      var value, rest := ExtractCompositeFieldValue(lib, fields[i], buf);
      buf := rest;
      if value.Some? {
        fieldMap := fieldMap[fields[i].name := value.value];
      } else {
        fieldMap := fieldMap[fields[i].name := JNull];
        if i + 1 < |fields| {
          fieldMap := FillCompositeNulls(fields[i + 1..], fieldMap);
          return;
        }
        assert fields[i + 1..] == [] && DecodeFields(lib, [], buf, fieldMap) == fieldMap;
      }
    }
    assert fields[|fields|..] == [];
    assert DecodeFields(lib, [], buf, fieldMap) == fieldMap;
  }

  method FillCompositeNulls(fields: seq<Field>, done: map<string, Json>) returns (fieldMap: map<string, Json>)
    ensures fieldMap == Nulls(fields, done)
  {
    fieldMap := done;
    for i := 0 to |fields|
      invariant Nulls(fields, done) == Nulls(fields[i..], fieldMap)
    {
      assert fields[i..][1..] == fields[i + 1..];
      fieldMap := fieldMap[fields[i].name := JNull];
    }
    assert fields[|fields|..] == [];
  }

  method ExtractCompositeFieldValue(lib: Library, field: Field, buf: seq<byte>)
      returns (value: Option<Json>, rest: seq<byte>)
    ensures var p := ReadSized(buf);
            value == if p.NoLength? || p.NoValue? then None
                     else Some(if p.Null? then JNull else Decode(lib, field.ty, p.bytes))
    ensures rest == if ReadSized(buf).NoLength? then buf else ReadSized(buf).rest
    decreases field, 0
  {
    match ReadSized(buf) {
      case NoLength => return None, buf;
      case NoValue(after) => return None, after;
      case Null(after) => return Some(JNull), after;
      case Got(bytes, after) =>
        var j := ExtractKindFromBytes(lib, field.ty, bytes);
        return Some(j), after;
    }
  }

  method ExtractRangeBound(lib: Library, sub: PgType, buf: seq<byte>) returns (text: Option<string>, rest: seq<byte>)
    ensures (text, rest) == DecodeBound(lib, sub, buf)
  {
    match ReadSized(buf) {
      case NoLength => return None, buf;
      case NoValue(after) => return None, after;
      case Null(after) => return None, after;
      case Got(bytes, after) =>
        var j := DecodeSimple(lib, sub, bytes);
        return if j.JNull? then None else Some(ScalarText(j)), after;
    }
  }

  method ExtractRangeOrNull(lib: Library, sub: PgType, raw: seq<byte>) returns (j: Json, rest: seq<byte>)
    ensures (j, rest) == DecodeRange(lib, sub, raw)
    decreases sub, 0
  {
    rest := raw;
    if rest == [] {
      return JNull, rest;
    }
    var flag := rest[0];
    rest := rest[1..];
    if Flag(flag, 1) {
      return JStr("empty"), rest;
    }
    var lowerChar := if Flag(flag, 2) then "[" else "(";
    var upperChar := if Flag(flag, 4) then "]" else ")";
    var out := lowerChar;
    var bound;
    if !Flag(flag, 8) {
      bound, rest := ExtractRangeBound(lib, sub, rest);
      if bound.None? {
        out := out + "null, null" + upperChar;
        return JStr(out), rest;
      }
      out := out + bound.value;
    } else {
      assert out == lowerChar + "";
    }
    out := out + ", ";
    if !Flag(flag, 16) {
      bound, rest := ExtractRangeBound(lib, sub, rest);
      if bound.Some? {
        out := out + bound.value;
      } else {
        out := out + "null";
      }
    } else {
      assert out == out + "";
    }
    out := out + upperChar;
    j := JStr(out);
  }

  /** Every text followed by a comma. */
  function WithCommas(texts: seq<string>): string {
    if texts == [] then "" else texts[0] + "," + WithCommas(texts[1..])
  }

  lemma {:induction false} CommasSnoc(texts: seq<string>, text: string)
    ensures WithCommas(texts + [text]) == WithCommas(texts) + text + ","
    ensures Join(texts + [text], ",") == WithCommas(texts) + text
  {
    if texts == [] {
      assert texts + [text] == [text];
      assert [text][1..] == [];
      assert WithCommas([text]) == text + "," + WithCommas([]);
    } else {
      CommasSnoc(texts[1..], text);
      assert (texts + [text])[1..] == texts[1..] + [text];
      assert WithCommas(texts) == texts[0] + "," + WithCommas(texts[1..]);
    }
  }

  /** What is returned when the next length prefix is missing: the comma after the last range goes. */
  method CloseEarly(ranges: string, ghost texts: seq<string>) returns (out: string)
    requires ranges == "{" + WithCommas(texts)
    ensures out == "{" + Join(texts, ",") + "}" && texts + [] == texts
  {
    out := ranges;
    if texts != [] {
      CommasSnoc(texts[..|texts| - 1], texts[|texts| - 1]);
      assert texts[..|texts| - 1] + [texts[|texts| - 1]] == texts;
    }
    if out[|out| - 1] == ',' {
      out := out[..|out| - 1];
    }
    out := out + "}";
  }

  lemma PushComma(ranges: string, texts: seq<string>, text: string, more: seq<string>)
    requires ranges == "{" + WithCommas(texts)
    ensures ranges + text + "," == "{" + WithCommas(texts + [text])
    ensures texts + ([text] + more) == texts + [text] + more
  {
    CommasSnoc(texts, text);
  }

  lemma PushClose(ranges: string, texts: seq<string>, text: string)
    requires ranges == "{" + WithCommas(texts)
    ensures ranges + text + "}" == "{" + Join(texts + [text], ",") + "}"
    ensures texts + ([text] + []) == texts + [text]
  {
    CommasSnoc(texts, text);
  }

  lemma RangesStep(lib: Library, sub: PgType, n: nat, buf: seq<byte>)
    requires n > 0 && |buf| >= 4
    ensures var (j, rest) := DecodeRange(lib, sub, buf[4..]);
            DecodeRanges(lib, sub, n, buf) == [RangeJsonText(j)] + DecodeRanges(lib, sub, n - 1, rest)
    ensures n == 1 ==> DecodeRanges(lib, sub, n - 1, DecodeRange(lib, sub, buf[4..]).1) == []
  {
  }

  /** The loop over all ranges but the last, then the last without a comma. */
  method RangesText(lib: Library, sub: PgType, count: nat, raw: seq<byte>) returns (ranges: string)
    requires count > 0
    ensures ranges == "{" + Join(DecodeRanges(lib, sub, count, raw), ",") + "}"
    decreases sub, 1
  {
    ranges := "{";
    var buf := raw;
    ghost var texts: seq<string> := [];
    ghost var all := DecodeRanges(lib, sub, count, raw);
    ghost var left := all;
    for i := 0 to count - 1
      invariant ranges == "{" + WithCommas(texts)
      invariant left == DecodeRanges(lib, sub, count - i, buf) && all == texts + left
    {
      if |buf| < 4 {
        ranges := CloseEarly(ranges, texts);
        return;
      }
      RangesStep(lib, sub, count - i, buf);
      var range, rest := ExtractRangeOrNull(lib, sub, buf[4..]);
      var text := RangeJsonText(range);
      left := DecodeRanges(lib, sub, count - i - 1, rest);
      PushComma(ranges, texts, text, left);
      ranges := ranges + text + ",";
      texts := texts + [text];
      buf := rest;
    }
    ranges := LastRange(lib, sub, ranges, texts, buf);
  }

  /** The last range, if there is one. */
  method LastRange(lib: Library, sub: PgType, ranges: string, ghost texts: seq<string>, buf: seq<byte>)
      returns (out: string)
    requires ranges == "{" + WithCommas(texts)
    ensures out == "{" + Join(texts + DecodeRanges(lib, sub, 1, buf), ",") + "}"
    decreases sub, 0
  {
    if |buf| < 4 {
      out := CloseEarly(ranges, texts);
      return;
    }
    RangesStep(lib, sub, 1, buf);
    var range, _ := ExtractRangeOrNull(lib, sub, buf[4..]);
    PushClose(ranges, texts, RangeJsonText(range));
    out := ranges + RangeJsonText(range) + "}";
  }

  method MultirangeFromSql(lib: Library, sub: PgType, raw: seq<byte>) returns (j: Json)
    ensures j == DecodeMultirange(lib, sub, raw)
    decreases sub, 2
  {
    if |raw| < 4 {
      return JNull;
    }
    var count := ReadU32(raw);
    if count == 0 {
      return JStr("{}");
    }
    var ranges := RangesText(lib, sub, count, raw[4..]);
    j := JStr(ranges);
  }
}
