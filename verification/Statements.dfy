/** The statements of `Crud` read back: their table, their columns and their terms, from the SQL alone. */
module Statements {
  import opened Text
  import opened Json
  import opened Binding
  import opened Crud
  import ArrayLiteral
  import Denotation

  // -------------------------------------------------------------------------
  // Names

  function Push(c: char, r: Option<(string, string)>): Option<(string, string)> {
    if r.None? then None else Some(([c] + r.value.0, r.value.1))
  }

  /** The rest of a quoted name and what follows its closing quote; a doubled quote stands for one. */
  function ReadQuoted(s: string): Option<(string, string)> {
    if s == "" then None
    else if s[0] == '"' && (|s| == 1 || s[1] != '"') then Some(("", s[1..]))
    else if s[0] == '"' then Push('"', ReadQuoted(s[2..]))
    else Push(s[0], ReadQuoted(s[1..]))
  }

  function ReadName(s: string): Option<(string, string)> {
    if s == "" || s[0] != '"' then None else ReadQuoted(s[1..])
  }

  lemma {:induction false} QuotedReads(name: string, rest: string)
    requires rest == "" || rest[0] != '"'
    ensures ReadQuoted(Quoted(name) + ("\"" + rest)) == Some((name, rest))
  {
    var s := Quoted(name) + ("\"" + rest);
    if name == "" {
      assert s == "\"" + rest && s[1..] == rest;
    } else {
      QuotedReads(name[1..], rest);
      var more := Quoted(name[1..]) + ("\"" + rest);
      assert [name[0]] + name[1..] == name;
      if name[0] == '"' {
        assert s == "\"\"" + more && s[2..] == more;
      } else {
        assert s == [name[0]] + more && s[1..] == more;
      }
    }
  }

  lemma NameReads(name: string, rest: string)
    requires rest == "" || rest[0] != '"'
    ensures ReadName(Identifier(name) + rest) == Some((name, rest))
  {
    QuotedReads(name, rest);
    assert Identifier(name) + rest == "\"" + (Quoted(name) + ("\"" + rest));
    assert (Identifier(name) + rest)[1..] == Quoted(name) + ("\"" + rest);
  }

  /** `format!("\"{}\".\"{}\"", schema, table)`, both escaped. */
  function Qualified(schema: string, table: string): string {
    Identifier(schema) + ("." + Identifier(table))
  }

  function ReadQualified(s: string): Option<(string, string, string)> {
    match ReadName(s) {
      case None => None
      case Some((schema, rest)) =>
        if rest == "" || rest[0] != '.' then None
        else
          match ReadName(rest[1..]) {
            case None => None
            case Some((table, after)) => Some((schema, table, after))
          }
    }
  }

  lemma QualifiedReads(schema: string, table: string, rest: string)
    requires rest == "" || rest[0] != '"'
    ensures ReadQualified(Qualified(schema, table) + rest) == Some((schema, table, rest))
  {
    var tail := "." + (Identifier(table) + rest);
    assert Qualified(schema, table) + rest == Identifier(schema) + tail;
    NameReads(schema, tail);
    assert tail[1..] == Identifier(table) + rest;
    NameReads(table, rest);
  }

  /** `s` without `prefix`. */
  function After(prefix: string, s: string): Option<string> {
    if StartsWith(s, prefix) then Some(s[|prefix|..]) else None
  }

  lemma AfterPrefix(prefix: string, rest: string)
    ensures After(prefix, prefix + rest) == Some(rest)
  {
    assert (prefix + rest)[..|prefix|] == prefix && (prefix + rest)[|prefix|..] == rest;
  }

  // -------------------------------------------------------------------------
  // Pieces between separators

  /** No piece of the fragment is this separator. */
  predicate Lacks(sql: Sql, separator: string) {
    forall i :: 0 <= i < |sql| ==> sql[i] != Plain(separator)
  }

  /** The fragments between pieces that are the separator. */
  function SplitSql(sql: Sql, separator: string): (parts: seq<Sql>)
    ensures parts != []
  {
    if sql == [] then [[]]
    else
      var rest := SplitSql(sql[1..], separator);
      if sql[0] == Plain(separator) then [[]] + rest else [[sql[0]] + rest[0]] + rest[1..]
  }

  lemma {:induction false} SplitOne(part: Sql, separator: string)
    requires Lacks(part, separator)
    ensures SplitSql(part, separator) == [part]
  {
    if part != [] {
      assert Lacks(part[1..], separator);
      SplitOne(part[1..], separator);
      assert [part[0]] + part[1..] == part;
    }
  }

  lemma {:induction false} SplitFirst(part: Sql, separator: string, rest: Sql)
    requires Lacks(part, separator)
    ensures SplitSql(part + ([Plain(separator)] + rest), separator) == [part] + SplitSql(rest, separator)
  {
    var sql := part + ([Plain(separator)] + rest);
    if part == [] {
      assert sql == [Plain(separator)] + rest && sql[1..] == rest;
    } else {
      assert Lacks(part[1..], separator);
      SplitFirst(part[1..], separator, rest);
      assert sql[1..] == part[1..] + ([Plain(separator)] + rest);
      assert [part[0]] + part[1..] == part;
    }
  }

  lemma {:induction false} SplitJoined(parts: seq<Sql>, separator: string)
    requires parts != [] && forall i :: 0 <= i < |parts| ==> Lacks(parts[i], separator)
    ensures SplitSql(JoinSql(parts, separator), separator) == parts
  {
    if |parts| == 1 {
      SplitOne(parts[0], separator);
    } else {
      SplitJoined(parts[1..], separator);
      SplitFirst(parts[0], separator, JoinSql(parts[1..], separator));
      assert parts[0] + [Plain(separator)] + JoinSql(parts[1..], separator)
             == parts[0] + ([Plain(separator)] + JoinSql(parts[1..], separator));
      assert parts == [parts[0]] + parts[1..];
    }
  }

  // -------------------------------------------------------------------------
  // WHERE

  function ReadTerm(sql: Sql): Option<Term> {
    if sql == [] || sql[0].Hole? then None
    else
      match ReadName(sql[0].text) {
        case None => None
        case Some((column, rest)) =>
          if rest == " IS NULL" && |sql| == 1 then Some(NullTest(column))
          else if rest == " = " then Some(Comparison(column, sql[1..]))
          else None
      }
  }

  function ReadTerms(parts: seq<Sql>): Option<seq<Term>> {
    if parts == [] then Some([])
    else
      match (ReadTerm(parts[0]), ReadTerms(parts[1..])) {
        case (Some(term), Some(terms)) => Some([term] + terms)
        case _ => None
      }
  }

  function ReadWhere(sql: Sql): Option<seq<Term>> {
    ReadTerms(SplitSql(sql, " AND "))
  }

  /** No right-hand side holds the separator. */
  predicate TermsLack(terms: seq<Term>) {
    forall i :: 0 <= i < |terms| ==> terms[i].Comparison? ==> Lacks(terms[i].rhs, " AND ")
  }

  lemma TermReads(term: Term)
    ensures ReadTerm(TermSql(term)) == Some(term)
  {
    match term {
      case NullTest(column) => NameReads(column, " IS NULL");
      case Comparison(column, rhs) =>
        NameReads(column, " = ");
        assert TermSql(term)[1..] == rhs;
    }
  }

  lemma {:induction false} TermsRead(terms: seq<Term>)
    ensures ReadTerms(TermSqls(terms)) == Some(terms)
  {
    if terms != [] {
      TermReads(terms[0]);
      TermsRead(terms[1..]);
      assert TermSqls(terms)[1..] == TermSqls(terms[1..]);
      assert [terms[0]] + terms[1..] == terms;
    }
  }

  lemma TermLacks(term: Term)
    requires term.Comparison? ==> Lacks(term.rhs, " AND ")
    ensures Lacks(TermSql(term), " AND ")
  {
    assert (Identifier(term.column) + " IS NULL")[0] == '"' && (Identifier(term.column) + " = ")[0] == '"';
  }

  lemma {:induction false} TermSqlsAt(terms: seq<Term>)
    ensures |TermSqls(terms)| == |terms|
    ensures forall i :: 0 <= i < |terms| ==> TermSqls(terms)[i] == TermSql(terms[i])
  {
    if terms != [] {
      TermSqlsAt(terms[1..]);
    }
  }

  /** A WHERE clause reads back as its terms. */
  lemma WhereReads(terms: seq<Term>)
    requires terms != [] && TermsLack(terms)
    ensures ReadWhere(WhereSql(terms)) == Some(terms)
  {
    TermSqlsAt(terms);
    forall i | 0 <= i < |terms| ensures Lacks(TermSqls(terms)[i], " AND ") {
      TermLacks(terms[i]);
    }
    SplitJoined(TermSqls(terms), " AND ");
    TermsRead(terms);
  }

  // -------------------------------------------------------------------------
  // The three statements

  datatype Read =
    | Deletes(schema: string, table: string, terms: seq<Term>)
    | Updates(schema: string, table: string, column: string, value: Sql, terms: seq<Term>)
    | Inserts(schema: string, table: string, columns: seq<string>, values: seq<Sql>)

  function ReadDelete(sql: Sql): Option<Read> {
    if sql == [] || sql[0].Hole? || After("DELETE FROM ", sql[0].text).None? then None
    else
      match (ReadQualified(After("DELETE FROM ", sql[0].text).value), ReadWhere(sql[1..])) {
        case (Some((schema, table, rest)), Some(terms)) =>
          if rest == " WHERE " then Some(Deletes(schema, table, terms)) else None
        case _ => None
      }
  }

  lemma DeleteReads(schema: string, table: string, terms: seq<Term>)
    requires terms != [] && TermsLack(terms)
    ensures ReadDelete([Plain("DELETE FROM " + Qualified(schema, table) + " WHERE ")] + WhereSql(terms))
            == Some(Deletes(schema, table, terms))
  {
    var head := "DELETE FROM " + Qualified(schema, table) + " WHERE ";
    var sql := [Plain(head)] + WhereSql(terms);
    assert head == "DELETE FROM " + (Qualified(schema, table) + " WHERE ");
    AfterPrefix("DELETE FROM ", Qualified(schema, table) + " WHERE ");
    QualifiedReads(schema, table, " WHERE ");
    WhereReads(terms);
    assert sql[1..] == WhereSql(terms);
  }

  /** The table and column of an UPDATE's first piece. */
  function ReadSet(text: string): Option<(string, string, string)> {
    if After("UPDATE ", text).None? then None
    else
      match ReadQualified(After("UPDATE ", text).value) {
        case None => None
        case Some((schema, table, rest)) =>
          if After(" SET ", rest).None? then None
          else
            match ReadName(After(" SET ", rest).value) {
              case None => None
              case Some((column, last)) => if last == " = " then Some((schema, table, column)) else None
            }
      }
  }

  function ReadUpdate(sql: Sql): Option<Read> {
    if sql == [] || sql[0].Hole? then None
    else
      var parts := SplitSql(sql[1..], " WHERE ");
      if |parts| != 2 then None
      else
        match (ReadSet(sql[0].text), ReadWhere(parts[1])) {
          case (Some((schema, table, column)), Some(terms)) => Some(Updates(schema, table, column, parts[0], terms))
          case _ => None
        }
  }

  lemma SetReads(schema: string, table: string, column: string)
    ensures ReadSet("UPDATE " + Qualified(schema, table) + " SET " + Identifier(column) + " = ")
            == Some((schema, table, column))
  {
    var last := Identifier(column) + " = ";
    var rest := " SET " + last;
    assert "UPDATE " + Qualified(schema, table) + " SET " + Identifier(column) + " = "
           == "UPDATE " + (Qualified(schema, table) + rest);
    AfterPrefix("UPDATE ", Qualified(schema, table) + rest);
    QualifiedReads(schema, table, rest);
    AfterPrefix(" SET ", last);
    NameReads(column, " = ");
  }

  /** No term holds the word that begins the clause. */
  predicate WhereLacks(terms: seq<Term>) {
    Lacks(WhereSql(terms), " WHERE ")
  }

  lemma UpdateReads(schema: string, table: string, column: string, value: Sql, terms: seq<Term>)
    requires terms != [] && TermsLack(terms) && WhereLacks(terms) && Lacks(value, " WHERE ")
    ensures ReadUpdate(UpdateSql(Qualified(schema, table), column, value, terms))
            == Some(Updates(schema, table, column, value, terms))
  {
    var head := Plain("UPDATE " + Qualified(schema, table) + " SET " + Identifier(column) + " = ");
    var sql := UpdateSql(Qualified(schema, table), column, value, terms);
    assert sql == [head] + (value + ([Plain(" WHERE ")] + WhereSql(terms)));
    assert sql[1..] == value + ([Plain(" WHERE ")] + WhereSql(terms));
    SetReads(schema, table, column);
    SplitFirst(value, " WHERE ", WhereSql(terms));
    SplitOne(WhereSql(terms), " WHERE ");
    WhereReads(terms);
  }

  /** Quoted names separated by commas, up to the closing parenthesis, and what follows it. */
  function ReadNames(s: string): Option<(seq<string>, string)>
    decreases |s|
  {
    match ReadName(s) {
      case None => None
      case Some((name, rest)) =>
        if After(")", rest).Some? then Some(([name], After(")", rest).value))
        else if After(", ", rest).Some? && |After(", ", rest).value| < |s| then
          match ReadNames(After(", ", rest).value) {
            case None => None
            case Some((names, last)) => Some(([name] + names, last))
          }
        else None
    }
  }

  function Identifiers(names: seq<string>): seq<string> {
    if names == [] then [] else [Identifier(names[0])] + Identifiers(names[1..])
  }

  lemma {:induction false} NamesRead(names: seq<string>, rest: string)
    requires names != []
    ensures ReadNames(Join(Identifiers(names), ", ") + (")" + rest)) == Some((names, rest))
    decreases |names|
  {
    var s := Join(Identifiers(names), ", ") + (")" + rest);
    if |names| == 1 {
      assert Identifiers(names) == [Identifier(names[0])];
      NameReads(names[0], ")" + rest);
      AfterPrefix(")", rest);
      assert names == [names[0]];
    } else {
      var more := Join(Identifiers(names[1..]), ", ") + (")" + rest);
      assert Identifiers(names)[1..] == Identifiers(names[1..]) && Identifiers(names[1..]) != [];
      assert s == Identifier(names[0]) + (", " + more);
      NameReads(names[0], ", " + more);
      AfterPrefix(", ", more);
      NamesRead(names[1..], rest);
      assert names == [names[0]] + names[1..];
    }
  }

  function ReadInto(text: string): Option<(string, string, seq<string>)> {
    if After("INSERT INTO ", text).None? then None
    else
      match ReadQualified(After("INSERT INTO ", text).value) {
        case None => None
        case Some((schema, table, rest)) =>
          if After(" (", rest).None? then None
          else
            match ReadNames(After(" (", rest).value) {
              case None => None
              case Some((columns, last)) => if last == " VALUES (" then Some((schema, table, columns)) else None
            }
      }
  }

  lemma IntoReads(schema: string, table: string, columns: seq<string>)
    requires columns != []
    ensures ReadInto("INSERT INTO " + Qualified(schema, table) + " (" + Join(Identifiers(columns), ", ") + ") VALUES (")
            == Some((schema, table, columns))
  {
    var names := Join(Identifiers(columns), ", ") + (")" + " VALUES (");
    var rest := " (" + names;
    assert "INSERT INTO " + Qualified(schema, table) + " (" + Join(Identifiers(columns), ", ") + ") VALUES ("
           == "INSERT INTO " + (Qualified(schema, table) + rest);
    AfterPrefix("INSERT INTO ", Qualified(schema, table) + rest);
    QualifiedReads(schema, table, rest);
    AfterPrefix(" (", names);
    NamesRead(columns, " VALUES (");
  }

  function ReadInsert(sql: Sql): Option<Read> {
    if |sql| < 2 || sql[0].Hole? || sql[|sql| - 1] != Plain(")") then None
    else
      match ReadInto(sql[0].text) {
        case None => None
        case Some((schema, table, columns)) =>
          Some(Inserts(schema, table, columns, SplitSql(sql[1..|sql| - 1], ", ")))
      }
  }

  lemma {:induction false} ColumnsAreIdentifiers(entries: seq<Entry>)
    ensures Columns(entries) == Identifiers(NamesOf(entries))
  {
    if entries != [] {
      ColumnsAreIdentifiers(entries[1..]);
      assert NamesOf(entries)[1..] == NamesOf(entries[1..]);
    }
  }

  function NamesOf(entries: seq<Entry>): seq<string> {
    if entries == [] then [] else [entries[0].0] + NamesOf(entries[1..])
  }

  lemma InsertReads(schema: string, table: string, entries: seq<Entry>, fragments: seq<Sql>)
    requires entries != [] && fragments != [] && forall i :: 0 <= i < |fragments| ==> Lacks(fragments[i], ", ")
    ensures ReadInsert(InsertSql(Qualified(schema, table), Columns(entries), fragments))
            == Some(Inserts(schema, table, NamesOf(entries), fragments))
  {
    var sql := InsertSql(Qualified(schema, table), Columns(entries), fragments);
    ColumnsAreIdentifiers(entries);
    IntoReads(schema, table, NamesOf(entries));
    SplitJoined(fragments, ", ");
    assert sql[1..|sql| - 1] == JoinSql(fragments, ", ");
  }

  // -------------------------------------------------------------------------
  // What the plugin's own statements say

  /** Fragments made of casts and placeholders hold no separator. */
  predicate Separable(sql: Sql) {
    Lacks(sql, " AND ") && Lacks(sql, " WHERE ") && Lacks(sql, ", ")
  }

  lemma CastSeparable(idx: nat, target: string, payload: Payload, ty: SqlType)
    ensures Separable(Cast(idx, target, payload, ty).sql)
  {
    var last := " AS " + target + ")";
    assert last[1] == 'A' && last[2] == 'S';
  }

  lemma PrecisionSeparable(b: Bound, isReal: bool)
    requires Separable(b.sql)
    ensures Separable(AtPrecision(b, isReal).sql)
  {
    assert " AS real)"[1] == 'A' && " AS real)"[2] == 'S';
  }

  lemma HoleSeparable(idx: nat)
    ensures Separable([Hole(idx)])
  {
  }

  lemma NumericSeparable(lib: Parsers, s: string, t: string, idx: nat)
    ensures var r := BindNumericString(lib, s, t, idx);
            r.Some? && r.value.Ok? ==> Separable(r.value.value.sql)
  {
    var r := BindNumericString(lib, s, t, idx);
    if r.Some? && r.value.Ok? {
      var p := r.value.value.param.value;
      var target := if p.payload.IntP? then "bigint" else if p.payload.DecimalP? then "numeric" else "double precision";
      CastSeparable(idx, target, p.payload, p.ty);
    }
  }

  lemma TemporalSeparable(s: string, t: string, idx: nat)
    ensures var r := BindTemporalString(s, t, idx); r.Some? && r.value.Ok? ==> Separable(r.value.value.sql)
  {
    if TemporalTarget(t).Some? {
      CastSeparable(idx, TemporalTarget(t).value, TextP(s), TEXT);
    }
  }

  lemma NumberSeparable(n: Json, idx: nat)
    ensures Separable(BindNumber(n, idx).sql)
  {
    var p := BindNumber(n, idx).param.value;
    CastSeparable(idx, if p.payload.IntP? then "bigint" else "double precision", p.payload, p.ty);
  }

  lemma KeySeparable(lib: Parsers, v: Json, idx: nat, t: Option<string>)
    requires !v.JNull?
    ensures var r := BindKey(lib, v, idx, t); r.Ok? ==> Separable(r.value.sql)
  {
    var base := BaseTypeOf(t);
    HoleSeparable(idx);
    if v.JNum? || v.JReal? {
      NumberSeparable(v, idx);
      PrecisionSeparable(BindNumber(v, idx), IsReal(base));
    } else if v.JStr? {
      StringKeySeparable(lib, v.s, idx, base);
    }
  }

  lemma StringKeySeparable(lib: Parsers, s: string, idx: nat, t: Option<string>)
    ensures var r := BindKeyString(lib, s, idx, t, IsReal(t)); r.Ok? ==> Separable(r.value.sql)
  {
    if t.Some? {
      NumericSeparable(lib, s, t.value, idx);
      TemporalSeparable(s, t.value, idx);
      var n, d := BindNumericString(lib, s, t.value, idx), BindTemporalString(s, t.value, idx);
      if n.Some? && n.value.Ok? {
        PrecisionSeparable(n.value.value, IsReal(t));
      }
      if d.Some? && d.value.Ok? {
        PrecisionSeparable(d.value.value, IsReal(t));
      }
    }
    HoleSeparable(idx);
    if ParseUnsafeBigint(s).Some? {
      CastSeparable(idx, "bigint", IntP(ParseUnsafeBigint(s).value), INT8);
    }
  }

  lemma {:induction false} TermsSeparable(lib: Parsers, entries: seq<KeyEntry>, types: ColumnTypes, idx: nat)
    requires Terms(Keys(lib), entries, types, idx).Ok?
    ensures var terms := Terms(Keys(lib), entries, types, idx).value.0;
            && |terms| == |entries|
            && forall i :: 0 <= i < |terms| ==>
                 && terms[i].column == entries[i].0 && (terms[i].NullTest? <==> entries[i].1.JNull?)
                 && (terms[i].Comparison? ==> Separable(terms[i].rhs))
  {
    if entries != [] {
      var (column, v) := entries[0];
      var b := BindKey(lib, v, idx, TypeOf(types, column));
      if !v.JNull? {
        KeySeparable(lib, v, idx, TypeOf(types, column));
      }
      TermsSeparable(lib, entries[1..], types, if v.JNull? then idx else idx + |ParamsOf(b.value)|);
    }
  }

  lemma {:induction false} JoinLacks(parts: seq<Sql>, separator: string, other: string)
    requires separator != other && forall i :: 0 <= i < |parts| ==> Lacks(parts[i], other)
    ensures Lacks(JoinSql(parts, separator), other)
  {
    if |parts| > 1 {
      JoinLacks(parts[1..], separator, other);
    }
  }

  lemma WhereSeparable(terms: seq<Term>)
    requires forall i :: 0 <= i < |terms| ==> (terms[i].Comparison? ==> Separable(terms[i].rhs))
    ensures TermsLack(terms) && WhereLacks(terms)
  {
    TermSqlsAt(terms);
    forall i | 0 <= i < |terms| ensures Lacks(TermSqls(terms)[i], " WHERE ") {
      var term := terms[i];
      assert (Identifier(term.column) + " IS NULL")[0] == '"' && (Identifier(term.column) + " = ")[0] == '"';
    }
    JoinLacks(TermSqls(terms), " AND ", " WHERE ");
  }

  /**
   A DELETE's text reads back as its table and one term per key entry, on that entry's column, and those terms are true
   exactly on the rows that agree with every entry.
   */
  lemma DeleteSays(lib: Parsers, schema: string, table: string, entries: seq<KeyEntry>, types: ColumnTypes,
                   eq: Equality, row: Row) returns (terms: seq<Term>)
    requires DeleteStatement(Keys(lib), Qualified(schema, table), entries, types).Ok?
    ensures var st := DeleteStatement(Keys(lib), Qualified(schema, table), entries, types).value;
            && ReadDelete(st.sql) == Some(Deletes(schema, table, terms))
            && |terms| == |entries| && (forall i :: 0 <= i < |terms| ==> terms[i].column == entries[i].0)
            && (PredicateTruth(eq, row, terms, st.params) == Yes
                <==> forall i :: 0 <= i < |entries| ==> Agrees(Keys(lib), eq, row, entries[i], types))
  {
    CascadesAreGood(lib);
    terms := KeyPredicate(Keys(lib), entries, types, 1).value.0;
    var params := KeyPredicate(Keys(lib), entries, types, 1).value.1;
    PredicateMatches(Keys(lib), eq, row, entries, types, []);
    assert [] + params == params;
    TermsSeparable(lib, entries, types, 1);
    WhereSeparable(terms);
    DeleteReads(schema, table, terms);
  }

  lemma InlinedSeparable(text: string)
    requires text != "" && text[0] != ' ' && text[0] != ','
    ensures Separable(Inlined(text).sql)
  {
  }

  lemma RawHead(s: string, u: string)
    requires u == Upper(Trim(s)) && IsRawSqlFunction(s)
    ensures u != "" && (u[0] == 'S' || u[0] == 'G' || u[0] == 'P')
  {
    HeadOf(u, "ST_");
    HeadOf(u, "GEOMFROMTEXT(");
    HeadOf(u, "GEOMFROMWKB(");
    HeadOf(u, "POINTFROMTEXT(");
    HeadOf(u, "POINTFROMWKB(");
  }

  lemma HeadOf(u: string, head: string)
    requires head != ""
    ensures StartsWith(u, head) ==> u != "" && u[0] == head[0]
  {
  }

  lemma SeparatorHead(t: string)
    requires t == "AND" || t == "WHERE" || t == ","
    ensures Upper(t)[0] == 'A' || Upper(t)[0] == 'W' || Upper(t)[0] == ','
  {
  }

  lemma RawStart(s: string)
    requires IsRawSqlFunction(s)
    ensures Separable(Inlined(s).sql)
  {
    RawHead(s, Upper(Trim(s)));
    TrimmedSeparators();
    if s == " AND " || s == " WHERE " || s == ", " {
      SeparatorHead(Trim(s));
    }
  }

  lemma TrimmedSeparators()
    ensures Trim(" AND ") == "AND" && Trim(" WHERE ") == "WHERE" && Trim(", ") == ","
  {
    assert " AND "[1..] == "AND " && "AND "[..3] == "AND";
    assert " WHERE "[1..] == "WHERE " && "WHERE "[..5] == "WHERE";
    assert ", "[..1] == ",";
    assert TrimStart(" AND ") == "AND " && TrimStart(" WHERE ") == "WHERE " && TrimStart(", ") == ", ";
    assert TrimEnd("AND ") == TrimEnd("AND") && TrimEnd("WHERE ") == TrimEnd("WHERE") && TrimEnd(", ") == TrimEnd(",");
  }

  lemma ArraySeparable(lib: Parsers, items: seq<Json>)
    requires BindArray(lib, items).Ok?
    ensures Separable(BindArray(lib, items).value.sql)
  {
    var text := ArrayLiteral.Print(lib.showReal, items).value;
    assert text != "" && text[0] != ' ' && text[0] != ',';
    InlinedSeparable(text);
  }

  lemma ValueSeparable(lib: Parsers, v: Json, idx: nat, o: BindOptions)
    ensures var r := BindValue(lib, v, idx, o); r.Ok? ==> Separable(r.value.sql)
  {
    InlinedSeparable("NULL");
    HoleSeparable(idx);
    if o.columnType != Some("hstore") {
      PlainSeparable(lib, v, idx, o);
    }
  }

  lemma PlainSeparable(lib: Parsers, v: Json, idx: nat, o: BindOptions)
    requires o.columnType != Some("hstore")
    ensures var r := BindValue(lib, v, idx, o); r.Ok? ==> Separable(r.value.sql)
  {
    HoleSeparable(idx);
    if v.JStr? {
      StringSeparable(lib, v.s, idx, o, BaseTypeOf(o.columnType));
    } else if v.JNum? || v.JReal? {
      NumberSeparable(v, idx);
    } else if v.JArr? && BindArray(lib, v.items).Ok? {
      ArraySeparable(lib, v.items);
    } else if v.JNull? {
      InlinedSeparable("NULL");
    }
  }

  lemma GeometrySeparable(s: string, idx: nat)
    ensures Separable(Wrapped("ST_GeomFromText(", idx, ")", TextP(s), TEXT).sql)
  {
  }

  lemma ShapeSeparable(lib: Parsers, s: string, idx: nat)
    ensures var r := BindByShape(lib, s, idx); r.Ok? ==> Separable(r.value.sql)
  {
    var trimmed := Trim(s);
    CastSeparable(idx, "uuid", TextP(s), TEXT);
    GeometrySeparable(s, idx);
    HoleSeparable(idx);
    if IsRawSqlFunction(s) {
      RawStart(s);
    } else if lib.json(trimmed).Some? && lib.json(trimmed).value.JArr?
              && BindArray(lib, lib.json(trimmed).value.items).Ok? {
      ArraySeparable(lib, lib.json(trimmed).value.items);
    }
  }

  lemma StringSeparable(lib: Parsers, s: string, idx: nat, o: BindOptions, t: Option<string>)
    ensures var r := BindString(lib, s, idx, o, t); r.Ok? ==> Separable(r.value.sql)
  {
    if o.allowDefault && s == "__USE_DEFAULT__" {
      InlinedSeparable("DEFAULT");
    } else if t.Some? && BindVectorString(s, t.value).Some? {
      VectorSeparable(s, t.value);
    } else {
      RestSeparable(lib, s, idx, o, t);
    }
  }

  lemma VectorSeparable(s: string, t: string)
    ensures var r := BindVectorString(s, t); r.Some? && r.value.Ok? ==> Separable(r.value.value.sql)
  {
    if VectorType(t).Some? {
      InlinedSeparable("'" + Trim(s) + "'::" + VectorType(t).value);
    }
  }

  /** The steps after the sentinel and the vectors. */
  lemma RestSeparable(lib: Parsers, s: string, idx: nat, o: BindOptions, t: Option<string>)
    requires !(o.allowDefault && s == "__USE_DEFAULT__") && !(t.Some? && BindVectorString(s, t.value).Some?)
    ensures var r := BindString(lib, s, idx, o, t); r.Ok? ==> Separable(r.value.sql)
  {
    HoleSeparable(idx);
    ShapeSeparable(lib, s, idx);
    if o.enumType.Some? {
      CastSeparable(idx, o.enumType.value, TextP(s), TEXT);
    }
    if t.Some? {
      NumericSeparable(lib, s, t.value, idx);
      TemporalSeparable(s, t.value, idx);
    }
  }

  /** An UPDATE's text reads back as its table, its column, the fragment of the new value and the terms of its key. */
  lemma UpdateSays(lib: Parsers, schema: string, table: string, entries: seq<KeyEntry>, column: string, v: Json,
                   cat: Catalog, eq: Equality, row: Row) returns (terms: seq<Term>)
    requires UpdateStatement(Keys(lib), Values(lib), Qualified(schema, table), entries, column, v, cat).Ok?
    ensures var st := UpdateStatement(Keys(lib), Values(lib), Qualified(schema, table), entries, column, v, cat).value;
            var b := BindValue(lib, v, 1, OptionsFor(cat, column, true));
            && b.Ok? && ReadUpdate(st.sql) == Some(Updates(schema, table, column, b.value.sql, terms))
            && (b.value.param.Some? ==> st.params != [] && st.params[0] == b.value.param.value)
            && |terms| == |entries| && (forall i :: 0 <= i < |terms| ==> terms[i].column == entries[i].0)
            && (PredicateTruth(eq, row, terms, st.params) == Yes
                <==> forall i :: 0 <= i < |entries| ==> Agrees(Keys(lib), eq, row, entries[i], cat.types))
  {
    CascadesAreGood(lib);
    var o := OptionsFor(cat, column, true);
    var b := BindValue(lib, v, 1, o).value;
    var first := 1 + |ParamsOf(b)|;
    terms := KeyPredicate(Keys(lib), entries, cat.types, first).value.0;
    PredicateMatches(Keys(lib), eq, row, entries, cat.types, ParamsOf(b));
    TermsSeparable(lib, entries, cat.types, first);
    WhereSeparable(terms);
    ValueSeparable(lib, v, 1, o);
    UpdateReads(schema, table, column, b.sql, terms);
  }

  lemma {:induction false} FragmentsSeparable(lib: Parsers, entries: seq<Entry>, cat: Catalog, idx: nat)
    requires Fragments(Values(lib), entries, cat, idx).Ok?
    ensures var sqls := Fragments(Values(lib), entries, cat, idx).value.0;
            |sqls| == |entries| && forall i :: 0 <= i < |sqls| ==> Lacks(sqls[i], ", ")
  {
    if entries != [] {
      var o := OptionsFor(cat, entries[0].0, false);
      ValueSeparable(lib, entries[0].1, idx, o);
      FragmentsSeparable(lib, entries[1..], cat, idx + |ParamsOf(BindValue(lib, entries[0].1, idx, o).value)|);
    }
  }

  /** An INSERT's text reads back as its table, its columns and, column by column, the fragments of the values. */
  lemma InsertSays(lib: Parsers, schema: string, table: string, entries: seq<Entry>, cat: Catalog)
    requires entries != [] && InsertStatement(Values(lib), Qualified(schema, table), entries, cat).Ok?
    ensures var st := InsertStatement(Values(lib), Qualified(schema, table), entries, cat).value;
            && Fragments(Values(lib), entries, cat, 1).Ok?
            && var (sqls, params) := Fragments(Values(lib), entries, cat, 1).value;
               && |sqls| == |entries| && st.params == params
               && ReadInsert(st.sql) == Some(Inserts(schema, table, NamesOf(entries), sqls))
  {
    FragmentsSeparable(lib, entries, cat, 1);
    InsertReads(schema, table, entries, Fragments(Values(lib), entries, cat, 1).value.0);
  }

  /** Where the sentinel stands for the column's default: in an UPDATE, and nowhere in an INSERT. */
  lemma SentinelIsDefault(lib: Parsers, idx: nat, cat: Catalog, column: string)
    requires TypeOf(cat.types, column) != Some("hstore")
    ensures BindValue(lib, JStr("__USE_DEFAULT__"), idx, OptionsFor(cat, column, true)) == Ok(Inlined("DEFAULT"))
    ensures BindValue(lib, JStr("__USE_DEFAULT__"), idx, OptionsFor(cat, column, false)) != Ok(Inlined("DEFAULT"))
  {
    var o := OptionsFor(cat, column, false);
    var v := JStr("__USE_DEFAULT__");
    if BindValue(lib, v, idx, o) == Ok(Inlined("DEFAULT")) {
      Denotation.ValueSays(lib, v, idx, o);
      NotTheSentinel(lib, o);
    }
  }

  lemma NotTheSentinel(lib: Parsers, o: BindOptions)
    requires !o.allowDefault
    ensures !Denotation.SaysInline(lib, JStr("__USE_DEFAULT__"), o, "DEFAULT")
  {
    var s := "__USE_DEFAULT__";
    assert "DEFAULT"[0] == 'D' && s[0] == '_' && "NULL"[0] == 'N';
    var j := lib.json(Trim(s));
    if j.Some? && j.value.JArr? {
      LiteralHead(lib.showReal, j.value.items);
    }
  }

  /** An array's literal is no bare word. */
  lemma LiteralHead(showReal: real -> string, items: seq<Json>)
    ensures var text := ArrayLiteral.Print(showReal, items);
            text.Some? ==> text.value != "" && (text.value[0] == 'A' || text.value[0] == '\'')
  {
  }

  /** Each column is bound with its own type, its own enum and, if it is an hstore, its own OID. */
  lemma OwnOptions(cat: Catalog, column: string, allowDefault: bool)
    ensures var o := OptionsFor(cat, column, allowDefault);
            && (o.columnType.Some? <==> column in cat.types)
            && (column in cat.types ==> o.columnType == Some(cat.types[column]))
            && (o.enumType.Some? <==> column in cat.enums)
            && (column in cat.enums ==> o.enumType == Some(cat.enums[column]))
            && (o.hstoreOid.Some? ==> column in cat.hstoreOids && o.hstoreOid == Some(cat.hstoreOids[column]))
            && (o.columnType == Some("hstore") && column in cat.hstoreOids ==> o.hstoreOid.Some?)
  {
  }
}
