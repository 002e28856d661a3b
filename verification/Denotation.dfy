/** What bound values say to the server, read apart from the cascades that bind them. */
module Denotation {
  import opened Text
  import opened Json
  import opened Binding
  import ArrayLiteral

  // -------------------------------------------------------------------------
  // Reading a parameter

  predicate SaysBool(s: string, b: bool) {
    var u := Upper(Trim(s));
    if b then u in {"TRUE", "T", "YES", "Y", "ON", "1"} else u in {"FALSE", "F", "NO", "N", "OFF", "0"}
  }

  /** An hstore holds a JSON object's entries, null for null and text for text. */
  predicate SaysEntries(m: map<string, Option<string>>, fields: map<string, Json>) {
    && m.Keys == fields.Keys
    && forall k :: k in m ==> fields[k] == if m[k].None? then JNull else JStr(m[k].value)
  }

  predicate SaysHstore(lib: Parsers, m: map<string, Option<string>>, v: Json) {
    if v.JStr? then lib.json(v.s).Some? && lib.json(v.s).value.JObj? && SaysEntries(m, lib.json(v.s).value.fields)
    else v.JObj? && SaysEntries(m, v.fields)
  }

  /** The parameter, sent with its type, stands for this JSON value. */
  predicate StandsFor(lib: Parsers, p: Param, v: Json) {
    match p.payload {
      case IntP(i) => p.ty == INT8 && (v == JNum(i) || (v.JStr? && ParseI64(v.s) == Some(i)))
      case FloatP(f) =>
        p.ty == FLOAT8 && ((v == f && (v.JNum? || v.JReal?)) || (v.JStr? && lib.float(v.s) == Some(f)))
      case BoolP(b) => p.ty == BOOL && (v == JBool(b) || (v.JStr? && SaysBool(v.s, b)))
      case TextP(s) => p.ty == TEXT && v == JStr(s)
      case JsonP(j) => (p.ty == JSON || p.ty == JSONB) && v == j
      case BytesP(bytes) => p.ty == BYTEA && v.JStr? && lib.blob(v.s) == Some(bytes)
      case UuidP(u) => p.ty == UUID && v.JStr? && lib.uuid(v.s) == Some(u)
      case DecimalP(d) => p.ty == NUMERIC && v.JStr? && lib.decimal(v.s) == Some(d)
      case HstoreP(m) => p.ty.HSTORE? && SaysHstore(lib, m, v)
    }
  }

  /** A parameter that is no library's value reads back as the value itself. */
  function ReadBack(p: Param): Option<Json> {
    match p.payload {
      case IntP(i) => Some(JNum(i))
      case FloatP(f) => Some(f)
      case BoolP(b) => Some(JBool(b))
      case TextP(s) => Some(JStr(s))
      case JsonP(j) => Some(j)
      case _ => None
    }
  }

  // -------------------------------------------------------------------------
  // Reading a fragment: the SQL type of the value it denotes

  function TypeName(ty: SqlType): string {
    match ty {
      case INT8 => "bigint"
      case FLOAT8 => "double precision"
      case BOOL => "boolean"
      case TEXT => "text"
      case JSON => "json"
      case JSONB => "jsonb"
      case BYTEA => "bytea"
      case UUID => "uuid"
      case NUMERIC => "numeric"
      case HSTORE(_) => "hstore"
    }
  }

  /** `" AS t)"` ends a cast to `t`. */
  predicate CastsTo(piece: Piece, t: string) {
    piece == Plain(" AS " + t + ")")
  }

  /**
   The fragment denotes a value of SQL type `t`: its placeholder itself, or inside casts of which the outermost is to
   `t`.
   */
  predicate HasType(b: Bound, t: string) {
    b.param.Some? &&
    if |b.sql| == 1 then b.sql[0].Hole? && TypeName(b.param.value.ty) == t
    else
      var n := |b.sql|;
      n >= 3 && b.sql[0] == Plain("CAST(") && CastsTo(b.sql[n - 1], t) && (n == 3 || n == 5)
      && (n == 3 ==> b.sql[1].Hole?) && (n == 5 ==> b.sql[1] == Plain("CAST(") && b.sql[2].Hole?)
  }

  // -------------------------------------------------------------------------
  // Columns

  datatype Family = Integers | Numerics | Reals | Doubles | Temporal(target: string) | Uuids | Rest

  /** PostgreSQL's names for its types, as the catalog and users write them, in capitals. */
  function FamilyOf(t: string): Family {
    if t in {"SMALLINT", "INTEGER", "BIGINT", "INT2", "INT4", "INT8", "SERIAL", "BIGSERIAL"} then Integers
    else if t in {"NUMERIC", "DECIMAL"} then Numerics
    else if t in {"REAL", "FLOAT4"} then Reals
    else if t in {"DOUBLE PRECISION", "FLOAT8"} then Doubles
    else if t in {"TIMESTAMP", "TIMESTAMP WITHOUT TIME ZONE"} then Temporal("timestamp")
    else if t in {"TIMESTAMPTZ", "TIMESTAMP WITH TIME ZONE"} then Temporal("timestamptz")
    else if t in {"TIME", "TIME WITHOUT TIME ZONE"} then Temporal("time")
    else if t in {"TIMETZ", "TIME WITH TIME ZONE"} then Temporal("timetz")
    else if t == "DATE" then Temporal("date")
    else if t == "INTERVAL" then Temporal("interval")
    else if t == "UUID" then Uuids
    else Rest
  }

  /** The type in which a text key is compared with its column, or `None` if the text is no such value. */
  function ComparedAs(lib: Parsers, s: string, column: Option<string>): Option<string> {
    if column.None? then
      Some(if lib.uuid(s).Some? then "uuid" else if ParseUnsafeBigint(s).Some? then "bigint" else "text")
    else
      match FamilyOf(column.value) {
        case Integers => if ParseI64(s).Some? then Some("bigint") else None
        case Numerics => if lib.decimal(s).Some? then Some("numeric") else None
        case Reals => if lib.float(s).Some? then Some("real") else None
        case Doubles => if lib.float(s).Some? then Some("double precision") else None
        case Temporal(target) => Some(target)
        case Uuids => Some(if lib.uuid(s).Some? then "uuid" else "text")
        case Rest => Some("text")
      }
  }

  predicate Blank(g: string) {
    forall i :: 0 <= i < |g| ==> IsSpace(g[i])
  }

  predicate Without(s: string, c: char) {
    forall i :: 0 <= i < |s| ==> s[i] != c
  }

  lemma WithoutConcat(a: string, b: string, c: char)
    requires Without(a, c) && Without(b, c)
    ensures Without(a + b, c)
  {
  }

  lemma BlankHasNoParen(g: string)
    requires Blank(g)
    ensures Without(g, '(')
  {
  }

  /** The column type as the catalog writes it: a name in any case, whitespace around it, perhaps a modifier. */
  lemma BaseTypeReads(before: string, name: string, after: string, modifier: string)
    requires Blank(before) && Blank(after) && Without(name, '(') && (modifier == "" || modifier[0] == '(')
    requires name != "" && !IsSpace(name[0]) && !IsSpace(name[|name| - 1])
    ensures BaseType(before + (name + after) + modifier) == Upper(name)
  {
    BlankHasNoParen(before);
    BlankHasNoParen(after);
    WithoutConcat(name, after, '(');
    WithoutConcat(before, name + after, '(');
    CutBefore(before + (name + after), modifier);
    TrimAround(before, name, after);
  }

  lemma {:induction false} CutBefore(text: string, modifier: string)
    requires Without(text, '(') && (modifier == "" || modifier[0] == '(')
    ensures UpTo(text + modifier, '(') == text
  {
    if text == "" {
      assert text + modifier == modifier;
    } else {
      CutBefore(text[1..], modifier);
      assert (text + modifier)[1..] == text[1..] + modifier;
    }
  }

  lemma {:induction false} SkipSpaces(before: string, rest: string)
    requires Blank(before) && rest != "" && !IsSpace(rest[0])
    ensures TrimStart(before + rest) == rest
  {
    if before == "" {
      assert before + rest == rest;
    } else {
      SkipSpaces(before[1..], rest);
      assert (before + rest)[1..] == before[1..] + rest;
    }
  }

  lemma {:induction false} DropSpaces(t: string, after: string)
    requires Blank(after) && t != "" && !IsSpace(t[|t| - 1])
    ensures TrimEnd(t + after) == t
  {
    if after == "" {
      assert t + after == t;
    } else {
      var n := |after| - 1;
      DropSpaces(t, after[..n]);
      assert (t + after)[..|t + after| - 1] == t + after[..n];
    }
  }

  lemma TrimAround(before: string, name: string, after: string)
    requires Blank(before) && Blank(after)
    requires name != "" && !IsSpace(name[0]) && !IsSpace(name[|name| - 1])
    ensures Trim(before + (name + after)) == name
  {
    assert (name + after)[0] == name[0];
    SkipSpaces(before, name + after);
    DropSpaces(name, after);
  }

  // -------------------------------------------------------------------------
  // Keys

  lemma CastHasType(idx: nat, target: string, payload: Payload, ty: SqlType)
    ensures HasType(Cast(idx, target, payload, ty), target)
  {
    assert " AS " + target + ")" == " AS " + (target + ")");
  }

  lemma PrecisionHasType(b: Bound, t: string)
    requires HasType(b, t) && |b.sql| == 3
    ensures HasType(AtPrecision(b, true), "real")
  {
    var sql := [Plain("CAST(")] + b.sql + [Plain(" AS real)")];
    assert |sql| == 5 && sql[1] == b.sql[0] && sql[2] == b.sql[1] && sql[4] == Plain(" AS real)");
    assert " AS " + "real" + ")" == " AS real)";
  }

  lemma NumericSays(lib: Parsers, s: string, t: string, idx: nat)
    requires FamilyOf(t) in {Integers, Numerics, Reals, Doubles}
    ensures BindNumericString(lib, s, t, idx).Some?
    ensures var r := BindNumericString(lib, s, t, idx).value;
            && (r.Ok? <==> ComparedAs(lib, s, Some(t)).Some?)
            && (r.Ok? ==> r.value.param.Some? && StandsFor(lib, r.value.param.value, JStr(s)) && |r.value.sql| == 3
                          && HasType(r.value, if FamilyOf(t) == Reals then "double precision"
                                              else ComparedAs(lib, s, Some(t)).value))
  {
    var r := BindNumericString(lib, s, t, idx).value;
    if r.Ok? {
      var p := r.value.param.value;
      var target := if FamilyOf(t) == Reals then "double precision" else ComparedAs(lib, s, Some(t)).value;
      CastHasType(idx, target, p.payload, p.ty);
    }
  }

  lemma TemporalSays(s: string, t: string, idx: nat)
    ensures BindTemporalString(s, t, idx).Some? <==> FamilyOf(t).Temporal?
    ensures FamilyOf(t).Temporal? ==>
              BindTemporalString(s, t, idx) == Some(Ok(Cast(idx, FamilyOf(t).target, TextP(s), TEXT)))
  {
  }

  lemma NotNumeric_(lib: Parsers, s: string, t: string, idx: nat)
    requires FamilyOf(t) !in {Integers, Numerics, Reals, Doubles}
    ensures BindNumericString(lib, s, t, idx).None? && !IsIntColumn(t) && !IsReal(Some(t))
  {
  }

  lemma StringKeySays(lib: Parsers, s: string, idx: nat, t: Option<string>)
    ensures var r := BindKeyString(lib, s, idx, t, IsReal(t));
            && (r.Ok? <==> ComparedAs(lib, s, t).Some?)
            && (r.Ok? ==> r.value.param.Some? && StandsFor(lib, r.value.param.value, JStr(s))
                          && HasType(r.value, ComparedAs(lib, s, t).value))
  {
    if t.Some? {
      ColumnKeySays(lib, s, idx, t.value);
    } else if lib.uuid(s).None? && ParseUnsafeBigint(s).Some? {
      CastHasType(idx, "bigint", IntP(ParseUnsafeBigint(s).value), INT8);
    }
  }

  lemma ColumnKeySays(lib: Parsers, s: string, idx: nat, t: string)
    ensures var r := BindKeyString(lib, s, idx, Some(t), IsReal(Some(t)));
            && (r.Ok? <==> ComparedAs(lib, s, Some(t)).Some?)
            && (r.Ok? ==> r.value.param.Some? && StandsFor(lib, r.value.param.value, JStr(s))
                          && HasType(r.value, ComparedAs(lib, s, Some(t)).value))
  {
    if FamilyOf(t) !in {Uuids, Rest} {
      KeyCoerces(lib, s, idx, t);
      CoercedSays(lib, s, t, idx);
      var r := Coerced(lib, s, idx, t).value;
      if r.Ok? && FamilyOf(t) == Reals {
        CoercedIsCast(lib, s, t, idx);
        PrecisionHasType(r.value, "double precision");
      }
    } else {
      OtherKeySays(lib, s, idx, t);
    }
  }

  lemma CoercedIsCast(lib: Parsers, s: string, t: string, idx: nat)
    requires FamilyOf(t) == Reals
    ensures Coerced(lib, s, idx, t).Some?
    ensures Coerced(lib, s, idx, t).value.Ok? ==> |Coerced(lib, s, idx, t).value.value.sql| == 3
  {
    NumericSays(lib, s, t, idx);
  }

  lemma OtherKeySays(lib: Parsers, s: string, idx: nat, t: string)
    requires FamilyOf(t) in {Uuids, Rest}
    ensures var r := BindKeyString(lib, s, idx, Some(t), IsReal(Some(t)));
            && r.Ok? && r.value.param.Some? && StandsFor(lib, r.value.param.value, JStr(s))
            && HasType(r.value, if FamilyOf(t) == Uuids && lib.uuid(s).Some? then "uuid" else "text")
  {
    NotNumeric_(lib, s, t, idx);
    TemporalSays(s, t, idx);
  }

  lemma NumberKeySays(v: Json, idx: nat, isReal: bool)
    requires v.JNum? || v.JReal?
    ensures var b := AtPrecision(BindNumber(v, idx), isReal);
            && b.param.Some? && ReadBack(b.param.value) == Some(v)
            && HasType(b, if isReal then "real" else if v.JNum? && I64_MIN <= v.n <= I64_MAX then "bigint"
                          else "double precision")
  {
    var inRange := v.JNum? && I64_MIN <= v.n <= I64_MAX;
    var p := BindNumber(v, idx).param.value;
    CastHasType(idx, if inRange then "bigint" else "double precision", p.payload, p.ty);
    if isReal {
      PrecisionHasType(BindNumber(v, idx), if inRange then "bigint" else "double precision");
    }
  }

  /**
   A bound key's parameter stands for the key's value, and a number, a boolean or a text reads back as itself; the
   fragment has the type in which the column compares. A text key fails exactly on a numeric column it is no number for.
   */
  lemma KeySays(lib: Parsers, v: Json, idx: nat, columnType: Option<string>)
    requires !v.JNull?
    ensures var r, t := BindKey(lib, v, idx, columnType), BaseTypeOf(columnType);
            && (r.Ok? <==> !v.JArr? && !v.JObj? && (v.JStr? ==> ComparedAs(lib, v.s, t).Some?))
            && (r.Ok? ==> r.value.param.Some? && StandsFor(lib, r.value.param.value, v))
            && (r.Ok? && v.JStr? ==> HasType(r.value, ComparedAs(lib, v.s, t).value))
            && (r.Ok? && !v.JStr? ==> ReadBack(r.value.param.value) == Some(v))
            && (v.JBool? ==> HasType(r.value, "boolean"))
            && (v.JNum? && I64_MIN <= v.n <= I64_MAX && !IsReal(t) ==> HasType(r.value, "bigint"))
            && ((v.JNum? || v.JReal?) && t.Some? && FamilyOf(t.value) == Reals ==> HasType(r.value, "real"))
  {
    var t := BaseTypeOf(columnType);
    if v.JStr? {
      StringKeySays(lib, v.s, idx, t);
    } else if v.JNum? || v.JReal? {
      NumberKeySays(v, idx, IsReal(t));
    }
  }

  /**
   Two different text keys on one column never bind one text parameter, nor a text key what a number or boolean binds.
   */
  lemma TextKeysDiffer(lib: Parsers, a: Json, b: Json, idx: nat, columnType: Option<string>)
    requires a.JStr? && !b.JNull? && a != b
    requires BindKey(lib, a, idx, columnType).Ok? && BindKey(lib, b, idx, columnType).Ok?
    requires BindKey(lib, a, idx, columnType).value.param.Some?
    requires BindKey(lib, a, idx, columnType).value.param.value.payload.TextP?
    ensures BindKey(lib, a, idx, columnType).value.param != BindKey(lib, b, idx, columnType).value.param
  {
    KeySays(lib, a, idx, columnType);
    KeySays(lib, b, idx, columnType);
  }

  // -------------------------------------------------------------------------
  // Values of INSERT and UPDATE

  /** The types of pgvector. */
  function VectorName(t: Option<string>): Option<string> {
    if t == Some("VECTOR") then Some("vector")
    else if t == Some("HALFVEC") then Some("halfvec")
    else if t == Some("SPARSEVEC") then Some("sparsevec")
    else None
  }

  /** What is written into the statement itself says the value. */
  predicate SaysInline(lib: Parsers, v: Json, o: BindOptions, text: string) {
    || (v.JNull? && text == "NULL")
    || (v == JStr("__USE_DEFAULT__") && o.allowDefault && text == "DEFAULT")
    || (v.JStr? && VectorName(BaseTypeOf(o.columnType)).Some?
        && text == "'" + Trim(v.s) + "'::" + VectorName(BaseTypeOf(o.columnType)).value)
    || (v.JStr? && IsRawSqlFunction(v.s) && text == v.s)
    || (v.JStr? && lib.json(Trim(v.s)).Some? && lib.json(Trim(v.s)).value.JArr?
        && ArrayLiteral.Print(lib.showReal, lib.json(Trim(v.s)).value.items) == Some(text))
    || (v.JArr? && ArrayLiteral.Print(lib.showReal, v.items) == Some(text))
  }

  /** A bound value either has a parameter that stands for it, or is written out as it says. */
  predicate Says(lib: Parsers, b: Bound, v: Json, o: BindOptions) {
    if b.param.Some? then StandsFor(lib, b.param.value, v)
    else |b.sql| == 1 && b.sql[0].Plain? && SaysInline(lib, v, o, b.sql[0].text)
  }

  lemma VectorLiteral(s: string, t: string)
    requires VectorName(Some(t)).Some? && BindVectorString(s, t).Some? && BindVectorString(s, t).value.Ok?
    ensures BindVectorString(s, t).value.value == Inlined("'" + Trim(s) + "'::" + VectorName(Some(t)).value)
  {
  }

  lemma VectorSays(lib: Parsers, s: string, o: BindOptions, t: string)
    requires BaseTypeOf(o.columnType) == Some(t) && BindVectorString(s, t).Some? && BindVectorString(s, t).value.Ok?
    ensures Says(lib, BindVectorString(s, t).value.value, JStr(s), o)
  {
    VectorColumn(s, t);
    VectorLiteral(s, t);
    InlineSays(lib, "'" + Trim(s) + "'::" + VectorName(Some(t)).value, JStr(s), o);
  }

  lemma VectorColumn(s: string, t: string)
    ensures BindVectorString(s, t).Some? <==> VectorName(Some(t)).Some?
  {
  }

  lemma ParamSays(lib: Parsers, b: Bound, v: Json, o: BindOptions)
    requires b.param.Some? && StandsFor(lib, b.param.value, v)
    ensures Says(lib, b, v, o)
  {
  }

  lemma InlineSays(lib: Parsers, text: string, v: Json, o: BindOptions)
    requires SaysInline(lib, v, o, text)
    ensures Says(lib, Inlined(text), v, o)
  {
  }

  lemma ShapeSays(lib: Parsers, s: string, idx: nat, o: BindOptions)
    requires BindByShape(lib, s, idx).Ok?
    ensures Says(lib, BindByShape(lib, s, idx).value, JStr(s), o)
  {
    var r := BindByShape(lib, s, idx).value;
    if r.param.Some? {
      ShapeParam(lib, s, idx);
      ParamSays(lib, r, JStr(s), o);
    } else if IsRawSqlFunction(s) {
      InlineSays(lib, s, JStr(s), o);
    } else {
      InlineSays(lib, ArrayLiteral.Print(lib.showReal, lib.json(Trim(s)).value.items).value, JStr(s), o);
    }
  }

  lemma ShapeParam(lib: Parsers, s: string, idx: nat)
    requires BindByShape(lib, s, idx).Ok? && BindByShape(lib, s, idx).value.param.Some?
    ensures StandsFor(lib, BindByShape(lib, s, idx).value.param.value, JStr(s))
  {
    assert BindByShape(lib, s, idx).value.param.value.payload == TextP(s);
  }

  /** The steps of the cascade between the vectors and the shapes. */
  lemma ColumnSays(lib: Parsers, s: string, idx: nat, o: BindOptions, t: Option<string>)
    requires !(o.allowDefault && s == "__USE_DEFAULT__") && !(t.Some? && BindVectorString(s, t.value).Some?)
    requires lib.blob(s).Some? || o.enumType.Some? || t == Some("BOOLEAN") || t == Some("BOOL")
             || (t.Some? && FamilyOf(t.value) !in {Uuids, Rest})
    requires BindString(lib, s, idx, o, t).Ok?
    ensures var b := BindString(lib, s, idx, o, t).value; b.param.Some? && StandsFor(lib, b.param.value, JStr(s))
  {
    if lib.blob(s).None? && o.enumType.None? && t != Some("BOOLEAN") && t != Some("BOOL") {
      SetCoerces(lib, s, idx, o, t.value);
      CoercedSays(lib, s, t.value, idx);
    } else if lib.blob(s).None? && o.enumType.None? {
      BoolSays(s);
    }
  }

  lemma BoolSays(s: string)
    ensures BoolOf(s).Some? ==> SaysBool(s, BoolOf(s).value)
    ensures BoolOf(s).None? ==> !SaysBool(s, true) && !SaysBool(s, false)
  {
  }

  lemma CoercedSays(lib: Parsers, s: string, t: string, idx: nat)
    requires FamilyOf(t) !in {Uuids, Rest}
    ensures Coerced(lib, s, idx, t).Some?
    ensures var r := Coerced(lib, s, idx, t).value;
            && (r.Ok? <==> ComparedAs(lib, s, Some(t)).Some?)
            && (r.Ok? ==> r.value.param.Some? && StandsFor(lib, r.value.param.value, JStr(s))
                          && HasType(r.value, if FamilyOf(t) == Reals then "double precision"
                                              else ComparedAs(lib, s, Some(t)).value))
  {
    TemporalSays(s, t, idx);
    if FamilyOf(t).Temporal? {
      NotNumeric_(lib, s, t, idx);
      CastHasType(idx, FamilyOf(t).target, TextP(s), TEXT);
    } else {
      NumericSays(lib, s, t, idx);
    }
  }

  /** A text that no column claims is bound by its looks. */
  lemma Unclaimed(lib: Parsers, s: string, idx: nat, o: BindOptions, t: Option<string>)
    requires !(o.allowDefault && s == "__USE_DEFAULT__") && !(t.Some? && BindVectorString(s, t.value).Some?)
    requires lib.blob(s).None? && o.enumType.None? && t != Some("BOOLEAN") && t != Some("BOOL")
    requires t.Some? ==> FamilyOf(t.value) in {Uuids, Rest}
    ensures BindString(lib, s, idx, o, t) == BindByShape(lib, s, idx)
  {
    if t.Some? {
      NotNumeric_(lib, s, t.value, idx);
      TemporalSays(s, t.value, idx);
    }
  }

  lemma StringSays(lib: Parsers, s: string, idx: nat, o: BindOptions, t: Option<string>)
    requires t == BaseTypeOf(o.columnType) && BindString(lib, s, idx, o, t).Ok?
    ensures Says(lib, BindString(lib, s, idx, o, t).value, JStr(s), o)
  {
    if o.allowDefault && s == "__USE_DEFAULT__" {
      InlineSays(lib, "DEFAULT", JStr(s), o);
    } else if t.Some? && BindVectorString(s, t.value).Some? {
      VectorSays(lib, s, o, t.value);
    } else if lib.blob(s).Some? || o.enumType.Some? || t == Some("BOOLEAN") || t == Some("BOOL")
              || (t.Some? && FamilyOf(t.value) !in {Uuids, Rest}) {
      ColumnSays(lib, s, idx, o, t);
      ParamSays(lib, BindString(lib, s, idx, o, t).value, JStr(s), o);
    } else {
      Unclaimed(lib, s, idx, o, t);
      ShapeSays(lib, s, idx, o);
    }
  }

  /** Whatever path it takes, a bound value says the JSON value it was bound from. */
  lemma ValueSays(lib: Parsers, v: Json, idx: nat, o: BindOptions)
    requires BindValue(lib, v, idx, o).Ok?
    ensures Says(lib, BindValue(lib, v, idx, o).value, v, o)
  {
    var t := BaseTypeOf(o.columnType);
    if o.columnType == Some("hstore") {
      HstoreSays(lib, v, idx, o.hstoreOid, o);
    } else if v.JStr? {
      StringSays(lib, v.s, idx, o, t);
    }
  }

  lemma HstoreSays(lib: Parsers, v: Json, idx: nat, oid: Option<nat>, o: BindOptions)
    requires BindHstore(lib, v, idx, oid).Ok?
    ensures Says(lib, BindHstore(lib, v, idx, oid).value, v, o)
  {
  }

  /**
   A text into a numeric or temporal column is coerced as a text key on that column is, the precision of `real` apart.
   */
  lemma SetLikeKey(lib: Parsers, s: string, idx: nat, o: BindOptions, columnType: string)
    requires o.columnType == Some(columnType) && columnType != "hstore" && o.enumType.None? && lib.blob(s).None?
    requires !(o.allowDefault && s == "__USE_DEFAULT__")
    requires FamilyOf(BaseType(columnType)) !in {Uuids, Rest}
    ensures var value, key := BindValue(lib, JStr(s), idx, o), BindKey(lib, JStr(s), idx, Some(columnType));
            && (value.Ok? <==> key.Ok?) && (value.Err? ==> key == value)
            && (value.Ok? ==> key.value == AtPrecision(value.value, FamilyOf(BaseType(columnType)) == Reals))
  {
    var t := BaseType(columnType);
    SetCoerces(lib, s, idx, o, t);
    KeyCoerces(lib, s, idx, t);
  }

  /** What a numeric or temporal column makes of a text. */
  function Coerced(lib: Parsers, s: string, idx: nat, t: string): Option<Result<Bound>> {
    if BindNumericString(lib, s, t, idx).Some? then BindNumericString(lib, s, t, idx) else BindTemporalString(s, t, idx)
  }

  lemma SetCoerces(lib: Parsers, s: string, idx: nat, o: BindOptions, t: string)
    requires o.enumType.None? && lib.blob(s).None? && !(o.allowDefault && s == "__USE_DEFAULT__")
    requires FamilyOf(t) !in {Uuids, Rest}
    ensures Coerced(lib, s, idx, t) == Some(BindString(lib, s, idx, o, Some(t)))
  {
    FamilyClaims(t);
    Coercible(lib, s, idx, t);
    SetSteps(lib, s, idx, o, t);
  }

  lemma FamilyClaims(t: string)
    requires FamilyOf(t) !in {Uuids, Rest}
    ensures VectorType(t).None? && t != "BOOLEAN" && t != "BOOL"
  {
  }

  lemma SetSteps(lib: Parsers, s: string, idx: nat, o: BindOptions, t: string)
    requires o.enumType.None? && lib.blob(s).None? && !(o.allowDefault && s == "__USE_DEFAULT__")
    requires VectorType(t).None? && t != "BOOLEAN" && t != "BOOL" && Coerced(lib, s, idx, t).Some?
    ensures Coerced(lib, s, idx, t) == Some(BindString(lib, s, idx, o, Some(t)))
  {
  }

  lemma Coercible(lib: Parsers, s: string, idx: nat, t: string)
    requires FamilyOf(t) !in {Uuids, Rest}
    ensures Coerced(lib, s, idx, t).Some?
    ensures IsReal(Some(t)) <==> FamilyOf(t) == Reals
  {
    TemporalSays(s, t, idx);
    if !FamilyOf(t).Temporal? {
      NumericSays(lib, s, t, idx);
    }
  }

  lemma KeyCoerces(lib: Parsers, s: string, idx: nat, t: string)
    requires FamilyOf(t) !in {Uuids, Rest}
    ensures Coerced(lib, s, idx, t).Some?
    ensures BindKeyString(lib, s, idx, Some(t), IsReal(Some(t)))
            == AtPrecisionResult(Coerced(lib, s, idx, t).value, FamilyOf(t) == Reals)
  {
    Coercible(lib, s, idx, t);
  }

  // -------------------------------------------------------------------------
  // How a text is written into a column

  datatype Written = Typed(t: string) | Geometry | Inline | Refused

  predicate IsVectorText(s: string) {
    Trim(s) != "" && forall i :: 0 <= i < |Trim(s)| ==> Trim(s)[i] in "0123456789+-.eE[]{},:/ "
  }

  predicate IsArrayText(lib: Parsers, s: string) {
    var t := Trim(s);
    t != "" && t[0] == '[' && t[|t| - 1] == ']' && lib.json(t).Some? && lib.json(t).value.JArr?
  }

  /** The column decides first, by its kind; only for the others the text's looks do. */
  function WrittenAs(lib: Parsers, s: string, o: BindOptions, t: Option<string>): Written {
    if o.allowDefault && s == "__USE_DEFAULT__" then Inline
    else if VectorName(t).Some? then (if IsVectorText(s) then Inline else Refused)
    else if lib.blob(s).Some? then Typed("bytea")
    else if o.enumType.Some? then Typed(o.enumType.value)
    else if t == Some("BOOLEAN") || t == Some("BOOL") then
      (if SaysBool(s, true) || SaysBool(s, false) then Typed("boolean") else Refused)
    else if t.Some? && FamilyOf(t.value) !in {Uuids, Rest} then
      match ComparedAs(lib, s, t) {
        case None => Refused
        case Some(type_) => Typed(if FamilyOf(t.value) == Reals then "double precision" else type_)
      }
    else WrittenByLooks(lib, s)
  }

  function WrittenByLooks(lib: Parsers, s: string): Written {
    if IsRawSqlFunction(s) then Inline
    else if IsWktGeometry(s) then Geometry
    else if lib.uuid(s).Some? then Typed("uuid")
    else if IsArrayText(lib, s) then
      (if ArrayLiteral.Print(lib.showReal, lib.json(Trim(s)).value.items).Some? then Inline else Refused)
    else Typed("text")
  }

  predicate IsWritten(r: Result<Bound>, idx: nat, w: Written) {
    match w {
      case Refused => r.Err?
      case Inline => r.Ok? && r.value.param.None?
      case Geometry => r.Ok? && r.value.param.Some? && r.value.sql == [Plain("ST_GeomFromText("), Hole(idx), Plain(")")]
      case Typed(t) => r.Ok? && HasType(r.value, t)
    }
  }

  lemma VectorText(s: string, t: string)
    ensures BindVectorString(s, t).Some? <==> VectorName(Some(t)).Some?
    ensures BindVectorString(s, t).Some? ==> (BindVectorString(s, t).value.Ok? <==> IsVectorText(s))
    ensures BindVectorString(s, t).Some? && BindVectorString(s, t).value.Ok? ==>
              BindVectorString(s, t).value.value.param.None?
  {
    forall c: char ensures IsVectorChar(c) <==> c in "0123456789+-.eE[]{},:/ " {
      VectorChar(c);
    }
  }

  lemma VectorChar(c: char)
    ensures IsVectorChar(c) <==> c in "0123456789+-.eE[]{},:/ "
  {
    var all := "0123456789+-.eE[]{},:/ ";
    if IsDigit(c) {
      assert all[(c - '0') as nat] == c;
    }
    assert all[10] == '+' && all[11] == '-' && all[12] == '.' && all[13] == 'e' && all[14] == 'E' && all[15] == '[';
    assert all[16] == ']' && all[17] == '{' && all[18] == '}' && all[19] == ',' && all[20] == ':' && all[21] == '/';
    assert all[22] == ' ';
  }

  lemma ShapeWritten(lib: Parsers, s: string, idx: nat)
    ensures IsWritten(BindByShape(lib, s, idx), idx, WrittenByLooks(lib, s))
  {
    CastHasType(idx, "uuid", TextP(s), TEXT);
    if IsRawSqlFunction(s) {
      assert BindByShape(lib, s, idx) == Ok(Inlined(s));
    } else if !IsWktGeometry(s) && lib.uuid(s).None? && !IsArrayText(lib, s) {
      assert BindByShape(lib, s, idx) == Ok(Direct(idx, TextP(s), TEXT));
    }
  }

  /** A text is written as its column and its looks ask for, and refused exactly where they do not allow it. */
  lemma TextWritten(lib: Parsers, s: string, idx: nat, o: BindOptions)
    requires o.columnType != Some("hstore")
    ensures IsWritten(BindValue(lib, JStr(s), idx, o), idx, WrittenAs(lib, s, o, BaseTypeOf(o.columnType)))
  {
    StringWritten(lib, s, idx, o, BaseTypeOf(o.columnType));
  }

  lemma StringWritten(lib: Parsers, s: string, idx: nat, o: BindOptions, t: Option<string>)
    ensures IsWritten(BindString(lib, s, idx, o, t), idx, WrittenAs(lib, s, o, t))
  {
    if t.Some? {
      VectorText(s, t.value);
    }
    if o.allowDefault && s == "__USE_DEFAULT__" {
    } else if VectorName(t).Some? {
    } else if lib.blob(s).Some? || o.enumType.Some? || t == Some("BOOLEAN") || t == Some("BOOL") {
      KindWritten(lib, s, idx, o, t);
    } else if t.Some? && FamilyOf(t.value) !in {Uuids, Rest} {
      SetCoerces(lib, s, idx, o, t.value);
      CoercedSays(lib, s, t.value, idx);
    } else {
      Unclaimed(lib, s, idx, o, t);
      ShapeWritten(lib, s, idx);
    }
  }

  lemma KindWritten(lib: Parsers, s: string, idx: nat, o: BindOptions, t: Option<string>)
    requires !(o.allowDefault && s == "__USE_DEFAULT__") && VectorName(t).None?
    requires t.Some? ==> BindVectorString(s, t.value).None?
    requires lib.blob(s).Some? || o.enumType.Some? || t == Some("BOOLEAN") || t == Some("BOOL")
    ensures IsWritten(BindString(lib, s, idx, o, t), idx, WrittenAs(lib, s, o, t))
  {
    if lib.blob(s).None? && o.enumType.Some? {
      CastHasType(idx, o.enumType.value, TextP(s), TEXT);
    } else if lib.blob(s).None? {
      BoolSays(s);
    }
  }

  // -------------------------------------------------------------------------
  // What a text looks like

  lemma {:induction false} PrefixStays(x: string, n: nat)
    requires n <= |x| && (n > 0 ==> !IsSpace(x[n - 1]))
    ensures n <= |TrimEnd(x)| && TrimEnd(x)[..n] == x[..n]
    decreases |x|
  {
    if x != "" && IsSpace(x[|x| - 1]) {
      assert n < |x|;
      PrefixStays(x[..|x| - 1], n);
      assert x[..|x| - 1][..n] == x[..n];
    }
  }

  /** Past whitespace, a text in any case starts as it is written. */
  lemma LooksLike(before: string, head: string, rest: string)
    requires Blank(before) && head != "" && !IsSpace(head[0]) && !IsSpace(head[|head| - 1])
    ensures StartsWith(Upper(Trim(before + (head + rest))), Upper(head))
  {
    var x := head + rest;
    assert x[0] == head[0] && x[|head| - 1] == head[|head| - 1] && x[..|head|] == head;
    SkipSpaces(before, x);
    PrefixStays(x, |head|);
    UpperOfPrefix(TrimEnd(x), |head|);
  }

  predicate IsShapeName(u: string) {
    u in {"POINT(", "LINESTRING(", "POLYGON(", "MULTIPOINT(", "MULTILINESTRING(", "MULTIPOLYGON(",
          "GEOMETRYCOLLECTION(", "GEOMETRY("}
  }

  /** Well-known text is recognised by its name and parenthesis, in any case, behind any whitespace. */
  lemma GeometryLooks(before: string, head: string, rest: string)
    requires Blank(before) && head != "" && !IsSpace(head[0]) && !IsSpace(head[|head| - 1]) && IsShapeName(Upper(head))
    ensures IsWktGeometry(before + (head + rest))
  {
    LooksLike(before, head, rest);
  }

  /** So is a constructor function. */
  lemma FunctionLooks(before: string, head: string, rest: string)
    requires Blank(before) && head != "" && !IsSpace(head[0]) && !IsSpace(head[|head| - 1])
    requires Upper(head) in {"GEOMFROMTEXT(", "GEOMFROMWKB(", "POINTFROMTEXT(", "POINTFROMWKB("}
    ensures IsRawSqlFunction(before + (head + rest))
  {
    LooksLike(before, head, rest);
    var u := Upper(Trim(before + (head + rest)));
    assert u[..|head|][0] == u[0];
    assert Upper(head)[0] == 'G' || Upper(head)[0] == 'P';
  }

  /** And any function of PostGIS, which starts with `ST_` and has a parenthesis. */
  lemma PostgisLooks(before: string, head: string, name: string, rest: string)
    requires Blank(before) && Upper(head) == "ST_" && Without(name, '(')
    ensures IsRawSqlFunction(before + (head + (name + ("(" + rest))))
  {
    var whole := head + (name + "(");
    assert Upper(head)[0] == UpperChar(head[0]) == 'S';
    assert before + (whole + rest) == before + (head + (name + ("(" + rest)));
    LooksLike(before, whole, rest);
    UpperOfConcat(head, name + "(");
    UpperOfConcat(name, "(");
    var u := Upper(Trim(before + (whole + rest)));
    assert Upper(whole) == Upper(head) + (Upper(name) + Upper("("));
    assert u[..|whole|][..3] == u[..3] && Upper(whole)[..3] == "ST_";
    assert u[..|whole|][|whole| - 1] == Upper(whole)[|whole| - 1] == '(';
  }

  // -------------------------------------------------------------------------
  // How other values are written

  /** By the column if it is of JSON, by the value's own kind otherwise. */
  function WrittenPlain(lib: Parsers, v: Json, t: Option<string>): Written
    requires !v.JStr?
  {
    if v.JNull? then Inline
    else if t == Some("JSON") then Typed("json")
    else if t == Some("JSONB") then Typed("jsonb")
    else
      match v {
        case JNum(n) => if I64_MIN <= n <= I64_MAX then Typed("bigint") else Typed("double precision")
        case JReal(_) => Typed("double precision")
        case JBool(_) => Typed("boolean")
        case JArr(items) => if ArrayLiteral.Print(lib.showReal, items).Some? then Inline else Refused
        case _ => Refused
      }
  }

  lemma PlainWritten(lib: Parsers, v: Json, idx: nat, o: BindOptions)
    requires o.columnType != Some("hstore") && !v.JStr?
    ensures IsWritten(BindValue(lib, v, idx, o), idx, WrittenPlain(lib, v, BaseTypeOf(o.columnType)))
  {
    var t := BaseTypeOf(o.columnType);
    if (t == Some("JSON") || t == Some("JSONB")) && !v.JNull? {
      assert IsWritten(BindValue(lib, v, idx, o), idx, Typed(if t == Some("JSONB") then "jsonb" else "json"));
    } else if v.JNum? || v.JReal? {
      NumberKeySays(v, idx, false);
    }
  }

  /** An hstore takes an object, or its text, of which every entry is text or null, if the type's OID is known. */
  lemma HstoreWritten(lib: Parsers, v: Json, idx: nat, o: BindOptions)
    requires o.columnType == Some("hstore") && !v.JNull?
    ensures var r := BindValue(lib, v, idx, o); var parsed := if v.JStr? then lib.json(v.s) else Some(v);
            && (r.Ok? <==> parsed.Some? && parsed.value.JObj? && o.hstoreOid.Some?
                           && forall k :: k in parsed.value.fields ==>
                                parsed.value.fields[k].JStr? || parsed.value.fields[k].JNull?)
            && (r.Ok? ==> HasType(r.value, "hstore") && r.value.param.value.ty == HSTORE(o.hstoreOid.value))
  {
  }
}
