/** From JSON values to SQL fragments and typed parameters (src/binding.rs). */
module Binding {
  import opened Text
  import opened Json
  import ArrayLiteral

  /** SQL text, or the placeholder `$index`. */
  datatype Piece = Plain(text: string) | Hole(index: nat)

  type Sql = seq<Piece>

  /** The placeholders of a fragment in order. */
  function Holes(sql: Sql): seq<nat> {
    if sql == [] then [] else (if sql[0].Hole? then [sql[0].index] else []) + Holes(sql[1..])
  }

  datatype SqlType = INT8 | FLOAT8 | BOOL | TEXT | JSON | JSONB | BYTEA | UUID | NUMERIC | HSTORE(oid: nat)

  datatype Payload =
    | IntP(i: int)
    | FloatP(of: Json)
    | BoolP(b: bool)
    | TextP(s: string)
    | JsonP(j: Json)
    | BytesP(bytes: seq<int>)
    | UuidP(uuid: string)
    | DecimalP(digits: string)
    | HstoreP(entries: map<string, Option<string>>)

  datatype Param = Param(payload: Payload, ty: SqlType)

  datatype Bound = Bound(sql: Sql, param: Option<Param>)

  datatype BindError =
    | NotBoolean | NotInteger | NotNumeric | NotFloat | NotVector | NotHstore | NoHstoreOid
    | ObjectInPlainColumn | BadArrayElement | EmptyKey | UnsupportedKey

  datatype Result<T> = Ok(value: T) | Err(error: BindError)

  datatype BindOptions = BindOptions(columnType: Option<string>, enumType: Option<string>, allowDefault: bool,
                                     hstoreOid: Option<nat>)

  /** What libraries parse. */
  datatype Parsers = Parsers(
    uuid: string -> Option<string>, decimal: string -> Option<string>, float: string -> Option<Json>,
    blob: string -> Option<seq<int>>, json: string -> Option<Json>, showReal: real -> string)

  // -------------------------------------------------------------------------
  // Shapes of bound values

  /** A bound value uses its placeholder exactly once if it has a parameter, and no placeholder otherwise. */
  predicate UsesIndex(b: Bound, idx: nat) {
    Holes(b.sql) == if b.param.Some? then [idx] else []
  }

  lemma HoleBetween(before: string, idx: nat, after: string)
    ensures Holes([Plain(before), Hole(idx), Plain(after)]) == [idx]
  {
    var c := [Plain(before), Hole(idx), Plain(after)];
    assert c[1..] == [c[1], c[2]] && c[1..][1..] == [c[2]];
    assert Holes([c[2]]) == [];
    assert Holes(c[1..]) == [idx] + Holes([c[2]]);
  }

  function Inlined(text: string): (b: Bound)
    ensures forall idx :: UsesIndex(b, idx)
  {
    assert Holes([Plain(text)][1..]) == [];
    Bound([Plain(text)], None)
  }

  function Direct(idx: nat, payload: Payload, ty: SqlType): (b: Bound)
    ensures UsesIndex(b, idx)
  {
    Bound([Hole(idx)], Some(Param(payload, ty)))
  }

  /** `before$idx` and `after`. */
  function Wrapped(before: string, idx: nat, after: string, payload: Payload, ty: SqlType): (b: Bound)
    ensures UsesIndex(b, idx)
  {
    HoleBetween(before, idx, after);
    Bound([Plain(before), Hole(idx), Plain(after)], Some(Param(payload, ty)))
  }

  function Cast(idx: nat, target: string, payload: Payload, ty: SqlType): (b: Bound)
    ensures UsesIndex(b, idx)
  {
    Wrapped("CAST(", idx, " AS " + target + ")", payload, ty)
  }

  /** Whatever a step of the cascade binds uses its placeholder as `UsesIndex` says. */
  predicate Disciplined(r: Result<Bound>, idx: nat) {
    r.Ok? ==> UsesIndex(r.value, idx)
  }

  // -------------------------------------------------------------------------
  // Column types

  function UpTo(s: string, c: char): string {
    if s == "" || s[0] == c then "" else [s[0]] + UpTo(s[1..], c)
  }

  /** `extract_base_type`. */
  function BaseType(columnType: string): string {
    Upper(Trim(UpTo(columnType, '(')))
  }

  function BaseTypeOf(columnType: Option<string>): Option<string> {
    if columnType.None? then None else Some(BaseType(columnType.value))
  }

  predicate IsIntColumn(t: string) {
    t == "SMALLINT" || t == "INTEGER" || t == "BIGINT" || t == "INT2" || t == "INT4" || t == "INT8"
  }

  function TemporalTarget(t: string): Option<string> {
    if t == "TIMESTAMP" || t == "TIMESTAMP WITHOUT TIME ZONE" then Some("timestamp")
    else if t == "TIMESTAMPTZ" || t == "TIMESTAMP WITH TIME ZONE" then Some("timestamptz")
    else if t == "DATE" then Some("date")
    else if t == "TIME" || t == "TIME WITHOUT TIME ZONE" then Some("time")
    else if t == "TIMETZ" || t == "TIME WITH TIME ZONE" then Some("timetz")
    else if t == "INTERVAL" then Some("interval")
    else None
  }

  function VectorType(t: string): Option<string> {
    if t == "VECTOR" then Some("vector")
    else if t == "HALFVEC" then Some("halfvec")
    else if t == "SPARSEVEC" then Some("sparsevec")
    else None
  }

  // -------------------------------------------------------------------------
  // The cascade for strings

  /** `bind_pg_numeric_string`; `None` if the column is not numeric. */
  function BindNumericString(lib: Parsers, s: string, t: string, idx: nat): (r: Option<Result<Bound>>)
    ensures r.Some? ==> Disciplined(r.value, idx)
  {
    if IsIntColumn(t) || t == "SERIAL" || t == "BIGSERIAL" then
      Some(match ParseI64(s) case None => Err(NotInteger) case Some(i) => Ok(Cast(idx, "bigint", IntP(i), INT8)))
    else if t == "NUMERIC" || t == "DECIMAL" then
      Some(match lib.decimal(s)
           case None => Err(NotNumeric)
           case Some(d) => Ok(Cast(idx, "numeric", DecimalP(d), NUMERIC)))
    else if t == "REAL" || t == "DOUBLE PRECISION" || t == "FLOAT4" || t == "FLOAT8" then
      Some(match lib.float(s)
           case None => Err(NotFloat)
           case Some(f) => Ok(Cast(idx, "double precision", FloatP(f), FLOAT8)))
    else None
  }

  function BindTemporalString(s: string, t: string, idx: nat): (r: Option<Result<Bound>>)
    ensures r.Some? ==> Disciplined(r.value, idx)
  {
    match TemporalTarget(t) {
      case None => None
      case Some(target) => Some(Ok(Cast(idx, target, TextP(s), TEXT)))
    }
  }

  predicate IsVectorChar(c: char) {
    IsDigit(c) || c == '+' || c == '-' || c == '.' || c == 'e' || c == 'E' || c == '[' || c == ']' || c == '{'
    || c == '}'
    || c == ',' || c == ':' || c == '/' || c == ' '
  }

  function BindVectorString(s: string, t: string): (r: Option<Result<Bound>>)
    ensures forall idx :: r.Some? ==> Disciplined(r.value, idx)
  {
    match VectorType(t) {
      case None => None
      case Some(name) =>
        var trimmed := Trim(s);
        if trimmed != "" && (forall i :: 0 <= i < |trimmed| ==> IsVectorChar(trimmed[i]))
        then Some(Ok(Inlined("'" + trimmed + "'::" + name))) else Some(Err(NotVector))
    }
  }

  function BoolOf(s: string): Option<bool> {
    var u := Upper(Trim(s));
    if u == "TRUE" || u == "T" || u == "YES" || u == "Y" || u == "ON" || u == "1" then Some(true)
    else if u == "FALSE" || u == "F" || u == "NO" || u == "N" || u == "OFF" || u == "0" then Some(false)
    else None
  }

  /** `is_raw_sql_function`: such a string is inlined as it is. */
  predicate IsRawSqlFunction(s: string) {
    var u := Upper(Trim(s));
    if StartsWith(u, "ST_") then '(' in u
    else
      || StartsWith(u, "GEOMFROMTEXT(") || StartsWith(u, "GEOMFROMWKB(")
      || StartsWith(u, "POINTFROMTEXT(") || StartsWith(u, "POINTFROMWKB(")
  }

  predicate IsWktGeometry(s: string) {
    var u := Upper(Trim(s));
    || StartsWith(u, "POINT(") || StartsWith(u, "LINESTRING(") || StartsWith(u, "POLYGON(")
    || StartsWith(u, "MULTIPOINT(") || StartsWith(u, "MULTILINESTRING(") || StartsWith(u, "MULTIPOLYGON(")
    || StartsWith(u, "GEOMETRYCOLLECTION(") || StartsWith(u, "GEOMETRY(")
  }

  function BindArray(lib: Parsers, items: seq<Json>): (r: Result<Bound>)
    ensures forall idx :: Disciplined(r, idx)
  {
    match ArrayLiteral.Print(lib.showReal, items) {
      case None => Err(BadArrayElement)
      case Some(text) => Ok(Inlined(text))
    }
  }

  /** `bind_pg_string`, its column-driven steps first. */
  function BindString(lib: Parsers, s: string, idx: nat, o: BindOptions, t: Option<string>): (r: Result<Bound>)
    ensures Disciplined(r, idx)
  {
    if o.allowDefault && s == "__USE_DEFAULT__" then Ok(Inlined("DEFAULT"))
    else if t.Some? && BindVectorString(s, t.value).Some? then BindVectorString(s, t.value).value
    else if lib.blob(s).Some? then Ok(Direct(idx, BytesP(lib.blob(s).value), BYTEA))
    else if o.enumType.Some? then Ok(Cast(idx, o.enumType.value, TextP(s), TEXT))
    else if t == Some("BOOLEAN") || t == Some("BOOL") then
      match BoolOf(s) case None => Err(NotBoolean) case Some(b) => Ok(Direct(idx, BoolP(b), BOOL))
    else if t.Some? && BindNumericString(lib, s, t.value, idx).Some? then BindNumericString(lib, s, t.value, idx).value
    else if t.Some? && BindTemporalString(s, t.value, idx).Some? then BindTemporalString(s, t.value, idx).value
    else BindByShape(lib, s, idx)
  }

  /** The steps driven by what the string looks like. */
  function BindByShape(lib: Parsers, s: string, idx: nat): (r: Result<Bound>)
    ensures Disciplined(r, idx)
  {
    var trimmed := Trim(s);
    var parsed := if trimmed != "" && trimmed[0] == '[' && trimmed[|trimmed| - 1] == ']' then lib.json(trimmed)
                  else None;
    if IsRawSqlFunction(s) then Ok(Inlined(s))
    else if IsWktGeometry(s) then Ok(Wrapped("ST_GeomFromText(", idx, ")", TextP(s), TEXT))
    else if lib.uuid(s).Some? then Ok(Cast(idx, "uuid", TextP(s), TEXT))
    else if parsed.Some? && parsed.value.JArr? then BindArray(lib, parsed.value.items)
    else Ok(Direct(idx, TextP(s), TEXT))
  }

  // -------------------------------------------------------------------------
  // Other values

  function BindNumber(n: Json, idx: nat): (r: Bound)
    ensures UsesIndex(r, idx)
  {
    if n.JNum? && I64_MIN <= n.n <= I64_MAX then Cast(idx, "bigint", IntP(n.n), INT8)
    else Cast(idx, "double precision", FloatP(n), FLOAT8)
  }

  predicate HstoreFits(m: map<string, Json>) {
    forall k :: k in m ==> m[k].JStr? || m[k].JNull?
  }

  function HstoreOf(m: map<string, Json>): map<string, Option<string>> {
    map k | k in m :: if m[k].JStr? then Some(m[k].s) else None
  }

  /** `bind_pg_hstore`. */
  function BindHstore(lib: Parsers, v: Json, idx: nat, oid: Option<nat>): (r: Result<Bound>)
    ensures Disciplined(r, idx)
  {
    if v.JNull? then Ok(Inlined("NULL"))
    else
      var parsed := if v.JStr? then lib.json(v.s) else Some(v);
      if parsed.None? || !parsed.value.JObj? then Err(NotHstore)
      else if oid.None? then Err(NoHstoreOid)
      else if !HstoreFits(parsed.value.fields) then Err(NotHstore)
      else Ok(Direct(idx, HstoreP(HstoreOf(parsed.value.fields)), HSTORE(oid.value)))
  }

  /** `bind_pg_value`. */
  function BindValue(lib: Parsers, v: Json, idx: nat, o: BindOptions): (r: Result<Bound>)
    ensures Disciplined(r, idx)
  {
    var t := BaseTypeOf(o.columnType);
    if o.columnType == Some("hstore") then BindHstore(lib, v, idx, o.hstoreOid)
    else if (t == Some("JSON") || t == Some("JSONB")) && !v.JStr? && !v.JNull? then
      Ok(Direct(idx, JsonP(v), if t == Some("JSONB") then JSONB else JSON))
    else
      match v {
        case JNum(_) => Ok(BindNumber(v, idx))
        case JReal(_) => Ok(BindNumber(v, idx))
        case JStr(s) => BindString(lib, s, idx, o, t)
        case JBool(b) => Ok(Direct(idx, BoolP(b), BOOL))
        case JNull => Ok(Inlined("NULL"))
        case JArr(items) => BindArray(lib, items)
        case JObj(_) => Err(ObjectInPlainColumn)
      }
  }

  // -------------------------------------------------------------------------
  // Keys

  function ParseUnsafeBigint(s: string): Option<int> {
    match ParseI64(s) {
      case None => None
      case Some(i) => if -JS_MAX_SAFE_INTEGER <= i <= JS_MAX_SAFE_INTEGER then None else Some(i)
    }
  }

  lemma {:induction false} HolesOfConcat(a: Sql, b: Sql)
    ensures Holes(a + b) == Holes(a) + Holes(b)
  {
    if a == [] {
      assert a + b == b;
    } else {
      HolesOfConcat(a[1..], b);
      var first := if a[0].Hole? then [a[0].index] else [];
      assert (a + b)[0] == a[0] && (a + b)[1..] == a[1..] + b;
      assert Holes(a + b) == first + (Holes(a[1..]) + Holes(b));
    }
  }

  lemma HolesInside(before: string, sql: Sql, after: string)
    ensures Holes([Plain(before)] + sql + [Plain(after)]) == Holes(sql)
  {
    HolesOfConcat([Plain(before)], sql);
    HolesOfConcat([Plain(before)] + sql, [Plain(after)]);
    assert [Plain(before)][1..] == [] && [Plain(after)][1..] == [];
  }

  /** A float4 column compares at its own precision. */
  function AtPrecision(b: Bound, isReal: bool): (r: Bound)
    ensures r.param == b.param && Holes(r.sql) == Holes(b.sql)
  {
    HolesInside("CAST(", b.sql, " AS real)");
    if isReal then Bound([Plain("CAST(")] + b.sql + [Plain(" AS real)")], b.param) else b
  }

  function AtPrecisionResult(r: Result<Bound>, isReal: bool): Result<Bound> {
    if r.Ok? then Ok(AtPrecision(r.value, isReal)) else r
  }

  predicate IsReal(t: Option<string>) {
    t == Some("REAL") || t == Some("FLOAT4")
  }

  /** `bind_pk_value`. A bound key that is not NULL has a parameter. */
  function BindKey(lib: Parsers, v: Json, idx: nat, columnType: Option<string>): (r: Result<Bound>)
    ensures Disciplined(r, idx)
    ensures r.Ok? && !v.JNull? ==> r.value.param.Some?
  {
    BindKeyAs(lib, v, idx, BaseTypeOf(columnType))
  }

  function BindKeyAs(lib: Parsers, v: Json, idx: nat, t: Option<string>): (r: Result<Bound>)
    ensures Disciplined(r, idx)
    ensures r.Ok? && !v.JNull? ==> r.value.param.Some?
  {
    match v {
      case JNum(_) => Ok(AtPrecision(BindNumber(v, idx), IsReal(t)))
      case JReal(_) => Ok(AtPrecision(BindNumber(v, idx), IsReal(t)))
      case JStr(s) => BindKeyString(lib, s, idx, t, IsReal(t))
      case JBool(b) => Ok(Direct(idx, BoolP(b), BOOL))
      case JNull => Ok(Inlined("IS NULL"))
      case _ => Err(UnsupportedKey)
    }
  }

  function BindKeyString(lib: Parsers, s: string, idx: nat, t: Option<string>, isReal: bool): (r: Result<Bound>)
    ensures Disciplined(r, idx)
    ensures r.Ok? ==> r.value.param.Some?
  {
    if (t.None? || t.value == "UUID") && lib.uuid(s).Some? then Ok(Direct(idx, UuidP(lib.uuid(s).value), UUID))
    else if t.Some? && BindNumericString(lib, s, t.value, idx).Some? then
      AtPrecisionResult(BindNumericString(lib, s, t.value, idx).value, isReal)
    else if t.Some? && BindTemporalString(s, t.value, idx).Some? then
      AtPrecisionResult(BindTemporalString(s, t.value, idx).value, isReal)
    else if (t.None? || IsIntColumn(t.value)) && ParseUnsafeBigint(s).Some? then
      Ok(Cast(idx, "bigint", IntP(ParseUnsafeBigint(s).value), INT8))
    else Ok(Direct(idx, TextP(s), TEXT))
  }

  // -------------------------------------------------------------------------
  // A key is bound the same way wherever it stands

  function Moved(sql: Sql, idx: nat): Sql {
    if sql == [] then [] else [if sql[0].Hole? then Hole(idx) else sql[0]] + Moved(sql[1..], idx)
  }

  function MovedResult(r: Result<Bound>, idx: nat): Result<Bound> {
    if r.Ok? then Ok(Bound(Moved(r.value.sql, idx), r.value.param)) else r
  }

  lemma WrappedMoves(before: string, i: nat, j: nat, after: string)
    ensures Moved([Plain(before), Hole(i), Plain(after)], j) == [Plain(before), Hole(j), Plain(after)]
    ensures Moved([Hole(i)], j) == [Hole(j)]
  {
    var c := [Plain(before), Hole(i), Plain(after)];
    assert c[1..] == [c[1], c[2]] && c[1..][1..] == [c[2]];
    assert Moved([c[2]], j) == [c[2]] + Moved([], j);
    assert Moved(c[1..], j) == [Hole(j)] + Moved([c[2]], j);
    assert [Hole(i)][1..] == [];
  }

  lemma PlainMoves(text: string, j: nat)
    ensures Moved([Plain(text)], j) == [Plain(text)]
  {
    assert Moved([Plain(text)], j) == [Plain(text)] + Moved([Plain(text)][1..], j);
  }

  lemma {:induction false} MovedConcat(a: Sql, b: Sql, j: nat)
    ensures Moved(a + b, j) == Moved(a, j) + Moved(b, j)
  {
    if a == [] {
      assert a + b == b;
    } else {
      MovedConcat(a[1..], b, j);
      assert (a + b)[1..] == a[1..] + b;
    }
  }

  lemma PrecisionMoves(a: Bound, b: Bound, isReal: bool, j: nat)
    requires b == Bound(Moved(a.sql, j), a.param)
    ensures AtPrecision(b, isReal) == Bound(Moved(AtPrecision(a, isReal).sql, j), a.param)
  {
    MovedConcat([Plain("CAST(")], a.sql, j);
    MovedConcat([Plain("CAST(")] + a.sql, [Plain(" AS real)")], j);
    assert [Plain("CAST(")][1..] == [] && [Plain(" AS real)")][1..] == [];
  }

  lemma NumericMoves(lib: Parsers, s: string, t: string, i: nat, j: nat)
    requires BindNumericString(lib, s, t, i).Some?
    ensures BindNumericString(lib, s, t, j) == Some(MovedResult(BindNumericString(lib, s, t, i).value, j))
  {
    WrappedMoves("CAST(", i, j, " AS " + "bigint" + ")");
    WrappedMoves("CAST(", i, j, " AS " + "numeric" + ")");
    WrappedMoves("CAST(", i, j, " AS " + "double precision" + ")");
  }

  lemma KeyStringMoves(lib: Parsers, s: string, i: nat, j: nat, t: Option<string>, isReal: bool)
    ensures BindKeyString(lib, s, j, t, isReal) == MovedResult(BindKeyString(lib, s, i, t, isReal), j)
  {
    WrappedMoves("CAST(", i, j, " AS " + "bigint" + ")");
    if t.Some? && BindNumericString(lib, s, t.value, i).Some? {
      NumericMoves(lib, s, t.value, i, j);
      var r := BindNumericString(lib, s, t.value, i).value;
      if r.Ok? {
        PrecisionMoves(r.value, MovedResult(r, j).value, isReal, j);
      }
    } else if t.Some? && TemporalTarget(t.value).Some? {
      WrappedMoves("CAST(", i, j, " AS " + TemporalTarget(t.value).value + ")");
      PrecisionMoves(BindTemporalString(s, t.value, i).value.value, BindTemporalString(s, t.value, j).value.value,
                     isReal, j);
    }
  }

  /** Only the number in the placeholder depends on where a key's entry stands. */
  lemma KeyMoves(lib: Parsers, v: Json, i: nat, j: nat, columnType: Option<string>)
    ensures BindKey(lib, v, j, columnType) == MovedResult(BindKey(lib, v, i, columnType), j)
  {
    KeyMovesAs(lib, v, i, j, BaseTypeOf(columnType));
  }

  lemma KeyMovesAs(lib: Parsers, v: Json, i: nat, j: nat, t: Option<string>)
    ensures BindKeyAs(lib, v, j, t) == MovedResult(BindKeyAs(lib, v, i, t), j)
  {
    match v {
      case JStr(s) => KeyStringMoves(lib, s, i, j, t, IsReal(t));
      case JNull => PlainMoves("IS NULL", j);
      case JBool(_) => WrappedMoves("", i, j, "");
      case _ =>
        WrappedMoves("CAST(", i, j, " AS " + "bigint" + ")");
        WrappedMoves("CAST(", i, j, " AS " + "double precision" + ")");
        if v.JNum? || v.JReal? {
          PrecisionMoves(BindNumber(v, i), BindNumber(v, j), IsReal(t), j);
        }
    }
  }

  // -------------------------------------------------------------------------
  // Row identity across JSON

  /** The string form is recognised exactly outside the safe range, which is exactly where it is produced. */
  lemma UnsafeExactly(v: int)
    requires I64_MIN <= v <= I64_MAX
    ensures ParseUnsafeBigint(PrintInt(v)) == if -JS_MAX_SAFE_INTEGER <= v <= JS_MAX_SAFE_INTEGER then None else Some(v)
    ensures v != I64_MIN ==> (I64ToJson(v).JStr? <==> ParseUnsafeBigint(PrintInt(v)) == Some(v))
  {
    ParseOfPrintInt(v);
  }

  /** No text shorter than 32 characters is a UUID. */
  ghost predicate UuidsAreLong(lib: Parsers) {
    forall s: string :: lib.uuid(s).Some? ==> |s| >= 32
  }

  lemma PrintIntLength(v: int)
    requires I64_MIN <= v <= I64_MAX
    ensures |PrintInt(v)| <= 20
  {
    assert Pow10(19) == 10000000000000000000 by {
      assert Pow10(5) == 100000;
      assert Pow10(10) == 10000000000;
      assert Pow10(15) == 1000000000000000;
    }
    PrintNatLength(if v < 0 then -v else v, 10000000000000000000, 19);
  }

  lemma NumeralIsNoUuid(lib: Parsers, v: int)
    requires I64_MIN <= v <= I64_MAX && UuidsAreLong(lib)
    ensures lib.uuid(PrintInt(v)).None?
  {
    PrintIntLength(v);
  }

  lemma IntIsNotReal(t: string)
    requires IsIntColumn(t)
    ensures !IsReal(Some(t))
  {
  }

  /** A numeral in an integer column, or one recognised without a column type, binds as its number. */
  lemma NumeralBinds(lib: Parsers, s: string, v: int, idx: nat, t: Option<string>)
    requires ParseI64(s) == Some(v) && lib.uuid(s).None?
    requires if t.Some? then IsIntColumn(t.value) else ParseUnsafeBigint(s) == Some(v)
    ensures BindKeyString(lib, s, idx, t, false) == Ok(Cast(idx, "bigint", IntP(v), INT8))
  {
    if t.Some? {
      assert BindNumericString(lib, s, t.value, idx) == Some(Ok(Cast(idx, "bigint", IntP(v), INT8)));
    }
  }

  lemma SurvivesAs(lib: Parsers, v: int, idx: nat, t: Option<string>)
    requires I64_MIN <= v <= I64_MAX && UuidsAreLong(lib) && !IsReal(t)
    requires t.Some? ==> IsIntColumn(t.value)
    ensures BindKeyAs(lib, I64ToJson(v), idx, t) == Ok(Cast(idx, "bigint", IntP(v), INT8))
  {
    if I64ToJson(v).JStr? {
      StringSurvives(lib, v, idx, t);
    } else {
      assert I64ToJson(v) == JNum(v);
    }
  }

  lemma StringSurvives(lib: Parsers, v: int, idx: nat, t: Option<string>)
    requires I64_MIN <= v <= I64_MAX && UuidsAreLong(lib) && I64ToJson(v).JStr?
    requires t.Some? ==> IsIntColumn(t.value)
    ensures BindKeyString(lib, PrintInt(v), idx, t, false) == Ok(Cast(idx, "bigint", IntP(v), INT8))
  {
    ParseOfPrintInt(v);
    NumeralIsNoUuid(lib, v);
    UnsafeExactly(v);
    NumeralBinds(lib, PrintInt(v), v, idx, t);
  }

  /**
   Every 64-bit integer that left as JSON comes back as the INT8 it was, when the column is an integer column or not
   known at all.
   */
  lemma BigintSurvives(lib: Parsers, v: int, idx: nat, columnType: Option<string>)
    requires I64_MIN <= v <= I64_MAX && UuidsAreLong(lib)
    requires columnType.Some? ==> IsIntColumn(BaseType(columnType.value))
    ensures BindKey(lib, I64ToJson(v), idx, columnType) == Ok(Cast(idx, "bigint", IntP(v), INT8))
  {
    var t := BaseTypeOf(columnType);
    if t.Some? {
      IntIsNotReal(t.value);
    }
    SurvivesAs(lib, v, idx, t);
  }
}
