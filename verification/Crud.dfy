/** Placeholders and parameters of INSERT, UPDATE and DELETE, and which rows a key predicate matches. */
module Crud {
  import opened Text
  import opened Json
  import opened Binding

  // -------------------------------------------------------------------------
  // Binders: all that the statements need to know of the binding cascades

  /** How a value is bound at a placeholder. */
  type Binder = (Json, nat, BindOptions) -> Result<Bound>

  /** How a key value is bound at a placeholder, given its column's type. */
  type KeyBinder = (Json, nat, Option<string>) -> Result<Bound>

  function ParamsOf(b: Bound): (ps: seq<Param>)
    ensures |ps| == if b.param.Some? then 1 else 0
  {
    if b.param.Some? then [b.param.value] else []
  }

  ghost predicate GoodAt(bind: Binder, v: Json, idx: nat, o: BindOptions) {
    Disciplined(bind(v, idx, o), idx)
  }

  /** Every value's fragment holds its placeholder exactly if it has a parameter. */
  ghost predicate Good(bind: Binder) {
    forall v: Json, idx: nat, o: BindOptions :: GoodAt(bind, v, idx, o)
  }

  ghost predicate GoodKeyAt(bind: KeyBinder, v: Json, idx: nat, t: Option<string>) {
    var r := bind(v, idx, t);
    Disciplined(r, idx) && (r.Ok? && !v.JNull? ==> r.value.param.Some?)
  }

  ghost predicate MovesAt(bind: KeyBinder, v: Json, i: nat, j: nat, t: Option<string>) {
    bind(v, j, t) == MovedResult(bind(v, i, t), j)
  }

  /** The same for keys, where a value that is not NULL always has a parameter and binds alike at every placeholder. */
  ghost predicate GoodKeys(bind: KeyBinder) {
    && (forall v: Json, idx: nat, t: Option<string> :: GoodKeyAt(bind, v, idx, t))
    && (forall v: Json, i: nat, j: nat, t: Option<string> :: MovesAt(bind, v, i, j, t))
  }

  function Values(lib: Parsers): Binder {
    (v: Json, idx: nat, o: BindOptions) => BindValue(lib, v, idx, o)
  }

  function Keys(lib: Parsers): KeyBinder {
    (v: Json, idx: nat, t: Option<string>) => BindKey(lib, v, idx, t)
  }

  /** Both cascades meet these terms, whatever the libraries parse. */
  lemma CascadesAreGood(lib: Parsers)
    ensures Good(Values(lib)) && GoodKeys(Keys(lib))
  {
    forall v: Json, i: nat, j: nat, t: Option<string> ensures MovesAt(Keys(lib), v, i, j, t) {
      KeyMoves(lib, v, i, j, t);
    }
  }

  // -------------------------------------------------------------------------
  // Key predicates

  type KeyEntry = (string, Json)

  /** `"col" IS NULL` or `"col" = rhs`. */
  datatype Term = NullTest(column: string) | Comparison(column: string, rhs: Sql)

  function Quoted(name: string): string {
    if name == "" then "" else (if name[0] == '"' then "\"\"" else [name[0]]) + Quoted(name[1..])
  }

  function Identifier(name: string): string {
    "\"" + Quoted(name) + "\""
  }

  function TermSql(term: Term): Sql {
    match term {
      case NullTest(column) => [Plain(Identifier(column) + " IS NULL")]
      case Comparison(column, rhs) => [Plain(Identifier(column) + " = ")] + rhs
    }
  }

  function JoinSql(parts: seq<Sql>, separator: string): Sql {
    if parts == [] then []
    else if |parts| == 1 then parts[0]
    else parts[0] + [Plain(separator)] + JoinSql(parts[1..], separator)
  }

  function TermSqls(terms: seq<Term>): seq<Sql> {
    if terms == [] then [] else [TermSql(terms[0])] + TermSqls(terms[1..])
  }

  type ColumnTypes = map<string, string>

  function TypeOf(types: ColumnTypes, column: string): Option<string> {
    if column in types then Some(types[column]) else None
  }

  /** The terms for `entries` and their parameters, numbered from `idx`. */
  function Terms(bindKey: KeyBinder, entries: seq<KeyEntry>, types: ColumnTypes, idx: nat)
      : Result<(seq<Term>, seq<Param>)>
  {
    if entries == [] then Ok(([], []))
    else
      var (column, v) := entries[0];
      if v.JNull? then
        match Terms(bindKey, entries[1..], types, idx) {
          case Err(e) => Err(e)
          case Ok((terms, params)) => Ok(([NullTest(column)] + terms, params))
        }
      else
        match bindKey(v, idx, TypeOf(types, column)) {
          case Err(e) => Err(e)
          case Ok(bound) =>
            match Terms(bindKey, entries[1..], types, idx + |ParamsOf(bound)|) {
              case Err(e) => Err(e)
              case Ok((terms, params)) => Ok(([Comparison(column, bound.sql)] + terms, ParamsOf(bound) + params))
            }
        }
  }

  function KeyPredicate(bindKey: KeyBinder, entries: seq<KeyEntry>, types: ColumnTypes, idx: nat)
      : Result<(seq<Term>, seq<Param>)>
  {
    if entries == [] then Err(EmptyKey) else Terms(bindKey, entries, types, idx)
  }

  function OntoTerms(terms: seq<Term>, params: seq<Param>, r: Result<(seq<Term>, seq<Param>)>)
      : Result<(seq<Term>, seq<Param>)>
  {
    if r.Err? then r else Ok((terms + r.value.0, params + r.value.1))
  }

  /** `build_pk_map_predicate`, the loop over the sorted keys; NULL entries consume no placeholder. */
  method BuildPkMapPredicate(bindKey: KeyBinder, entries: seq<KeyEntry>, types: ColumnTypes, placeholderIdx: nat)
      returns (r: Result<(seq<Term>, seq<Param>)>)
    ensures r == KeyPredicate(bindKey, entries, types, placeholderIdx)
  {
    if entries == [] {
      return Err(EmptyKey);
    }
    var terms: seq<Term> := [];
    var params: seq<Param> := [];
    var idx := placeholderIdx;
    assert entries[0..] == entries;
    OntoNothing(Terms(bindKey, entries, types, idx));
    for i := 0 to |entries|
      invariant Terms(bindKey, entries, types, placeholderIdx)
                == OntoTerms(terms, params, Terms(bindKey, entries[i..], types, idx))
    {
      TermStep(bindKey, entries, types, i, idx, terms, params);
      var (column, v) := entries[i];
      if v.JNull? {
        terms := terms + [NullTest(column)];
        continue;
      }
      var bound := bindKey(v, idx, TypeOf(types, column));
      if bound.Err? {
        return Err(bound.error);
      }
      terms := terms + [Comparison(column, bound.value.sql)];
      if bound.value.param.Some? {
        params := params + [bound.value.param.value];
        idx := idx + 1;
      } else {
        assert params + [] == params;
      }
    }
    assert entries[|entries|..] == [] && terms + [] == terms && params + [] == params;
    r := Ok((terms, params));
  }

  lemma OntoNothing(r: Result<(seq<Term>, seq<Param>)>)
    ensures OntoTerms([], [], r) == r
  {
    if r.Ok? {
      assert [] + r.value.0 == r.value.0 && [] + r.value.1 == r.value.1;
    }
  }

  lemma TermStep(bindKey: KeyBinder, entries: seq<KeyEntry>, types: ColumnTypes, i: nat, idx: nat, terms: seq<Term>,
                 params: seq<Param>)
    requires i < |entries|
    ensures var (column, v) := entries[i]; var b := bindKey(v, idx, TypeOf(types, column));
            OntoTerms(terms, params, Terms(bindKey, entries[i..], types, idx))
            == if v.JNull?
               then OntoTerms(terms + [NullTest(column)], params, Terms(bindKey, entries[i + 1..], types, idx))
               else if b.Err? then Err(b.error)
               else OntoTerms(terms + [Comparison(column, b.value.sql)], params + ParamsOf(b.value),
                              Terms(bindKey, entries[i + 1..], types, idx + |ParamsOf(b.value)|))
  {
    assert entries[i..][1..] == entries[i + 1..];
    var rest := Terms(bindKey, entries[i + 1..], types, idx);
    var (column, v) := entries[i];
    var b := bindKey(v, idx, TypeOf(types, column));
    if v.JNull? && rest.Ok? {
      assert terms + ([NullTest(column)] + rest.value.0) == terms + [NullTest(column)] + rest.value.0;
    } else if !v.JNull? && b.Ok? {
      var next := Terms(bindKey, entries[i + 1..], types, idx + |ParamsOf(b.value)|);
      if next.Ok? {
        var t, ps := Comparison(column, b.value.sql), ParamsOf(b.value);
        assert terms + ([t] + next.value.0) == terms + [t] + next.value.0;
        assert params + (ps + next.value.1) == params + ps + next.value.1;
      }
    }
  }

  // -------------------------------------------------------------------------
  // Which rows a predicate matches

  datatype Truth = Yes | No | Unknown

  function And3(a: Truth, b: Truth): Truth {
    if a == No || b == No then No else if a == Unknown || b == Unknown then Unknown else Yes
  }

  /** A row's columns; `None` is NULL. */
  type Row = map<string, Option<int>>

  /** Whether a cell equals what a right-hand side denotes, given its shape and its parameter's value. */
  type Equality = (int, Sql, Param) -> bool

  function Cell(row: Row, column: string): Option<int> {
    if column in row then row[column] else None
  }

  /** SQL's truth value of a term; its placeholder reads the parameter of that number. */
  function TermTruth(eq: Equality, row: Row, term: Term, params: seq<Param>): Truth {
    match term {
      case NullTest(column) => if Cell(row, column).None? then Yes else No
      case Comparison(column, rhs) =>
        var holes := Holes(rhs);
        if Cell(row, column).None? then Unknown
        else if |holes| != 1 || !(1 <= holes[0] <= |params|) then Unknown
        else if eq(Cell(row, column).value, Moved(rhs, 0), params[holes[0] - 1]) then Yes else No
    }
  }

  function PredicateTruth(eq: Equality, row: Row, terms: seq<Term>, params: seq<Param>): Truth {
    if terms == [] then Yes else And3(TermTruth(eq, row, terms[0], params), PredicateTruth(eq, row, terms[1..], params))
  }

  /**
   The row agrees with one entry of the key, whatever the other entries are: NULL with NULL, a value with an equal
   value.
   */
  predicate Agrees(bindKey: KeyBinder, eq: Equality, row: Row, entry: KeyEntry, types: ColumnTypes) {
    var (column, v) := entry;
    if v.JNull? then Cell(row, column).None?
    else
      var b := bindKey(v, 0, TypeOf(types, column));
      Cell(row, column).Some? && b.Ok? && b.value.param.Some?
      && eq(Cell(row, column).value, b.value.sql, b.value.param.value)
  }

  predicate Bindable(bindKey: KeyBinder, entry: KeyEntry, types: ColumnTypes) {
    entry.1.JNull? || bindKey(entry.1, 0, TypeOf(types, entry.0)).Ok?
  }

  /**
   A predicate is built if and only if there is an entry and every entry can be bound; where an entry stands does not
   matter.
   */
  lemma {:induction false} BuiltExactly(bindKey: KeyBinder, entries: seq<KeyEntry>, types: ColumnTypes, idx: nat)
    requires GoodKeys(bindKey)
    ensures Terms(bindKey, entries, types, idx).Ok?
            <==> forall i :: 0 <= i < |entries| ==> Bindable(bindKey, entries[i], types)
    ensures KeyPredicate(bindKey, entries, types, idx).Ok? <==> entries != [] && Terms(bindKey, entries, types, idx).Ok?
  {
    if entries != [] {
      var (column, v) := entries[0];
      var t := TypeOf(types, column);
      var b := bindKey(v, idx, t);
      assert MovesAt(bindKey, v, 0, idx, t);
      assert GoodKeyAt(bindKey, v, idx, t);
      BuiltExactly(bindKey, entries[1..], types, if v.JNull? || b.Err? then idx else idx + |ParamsOf(b.value)|);
      if Bindable(bindKey, entries[0], types)
         && (forall i :: 0 <= i < |entries[1..]| ==> Bindable(bindKey, entries[1..][i], types)) {
        forall i | 0 <= i < |entries| ensures Bindable(bindKey, entries[i], types) {
          assert i > 0 ==> entries[i] == entries[1..][i - 1];
        }
      }
      if forall i :: 0 <= i < |entries| ==> Bindable(bindKey, entries[i], types) {
        forall i | 0 <= i < |entries[1..]| ensures Bindable(bindKey, entries[1..][i], types) {
          assert entries[1..][i] == entries[i + 1];
        }
      }
    }
  }

  lemma ComparisonTruth(bindKey: KeyBinder, eq: Equality, row: Row, entry: KeyEntry, types: ColumnTypes, idx: nat,
                        params: seq<Param>)
    requires GoodKeys(bindKey) && !entry.1.JNull? && 1 <= idx <= |params|
    requires var b := bindKey(entry.1, idx, TypeOf(types, entry.0)); b.Ok? && b.value.param == Some(params[idx - 1])
    ensures var b := bindKey(entry.1, idx, TypeOf(types, entry.0));
            TermTruth(eq, row, Comparison(entry.0, b.value.sql), params) == Yes
            <==> Agrees(bindKey, eq, row, entry, types)
  {
    assert MovesAt(bindKey, entry.1, idx, 0, TypeOf(types, entry.0));
    assert GoodKeyAt(bindKey, entry.1, idx, TypeOf(types, entry.0));
  }

  lemma {:induction false} TermsMatch(bindKey: KeyBinder, eq: Equality, row: Row, entries: seq<KeyEntry>,
                                      types: ColumnTypes, before: seq<Param>)
    requires GoodKeys(bindKey) && Terms(bindKey, entries, types, |before| + 1).Ok?
    ensures var (terms, params) := Terms(bindKey, entries, types, |before| + 1).value;
            PredicateTruth(eq, row, terms, before + params) == Yes
            <==> forall i :: 0 <= i < |entries| ==> Agrees(bindKey, eq, row, entries[i], types)
  {
    if entries != [] {
      var (column, v) := entries[0];
      var idx := |before| + 1;
      var (terms, params) := Terms(bindKey, entries, types, idx).value;
      ForallStep(bindKey, eq, row, entries, types);
      if v.JNull? {
        TermsMatch(bindKey, eq, row, entries[1..], types, before);
        assert terms[1..] == Terms(bindKey, entries[1..], types, idx).value.0;
      } else {
        assert GoodKeyAt(bindKey, v, idx, TypeOf(types, column));
        var b := bindKey(v, idx, TypeOf(types, column)).value;
        var before' := before + ParamsOf(b);
        assert before + params == before' + Terms(bindKey, entries[1..], types, idx + 1).value.1;
        ComparisonTruth(bindKey, eq, row, entries[0], types, idx, before + params);
        TermsMatch(bindKey, eq, row, entries[1..], types, before');
        assert terms[1..] == Terms(bindKey, entries[1..], types, idx + 1).value.0;
      }
    }
  }

  lemma ForallStep(bindKey: KeyBinder, eq: Equality, row: Row, entries: seq<KeyEntry>, types: ColumnTypes)
    requires entries != []
    ensures (forall i :: 0 <= i < |entries| ==> Agrees(bindKey, eq, row, entries[i], types))
            <==> (&& Agrees(bindKey, eq, row, entries[0], types)
                  && forall i :: 0 <= i < |entries[1..]| ==> Agrees(bindKey, eq, row, entries[1..][i], types))
  {
    if Agrees(bindKey, eq, row, entries[0], types)
       && (forall i :: 0 <= i < |entries[1..]| ==> Agrees(bindKey, eq, row, entries[1..][i], types)) {
      forall i | 0 <= i < |entries| ensures Agrees(bindKey, eq, row, entries[i], types) {
        assert i > 0 ==> entries[i] == entries[1..][i - 1];
      }
    }
    if forall i :: 0 <= i < |entries| ==> Agrees(bindKey, eq, row, entries[i], types) {
      forall i | 0 <= i < |entries[1..]| ensures Agrees(bindKey, eq, row, entries[1..][i], types) {
        assert entries[1..][i] == entries[i + 1];
      }
    }
  }

  /**
   In three-valued logic the key predicate is TRUE on exactly the rows that agree with every entry, NULL entries
   matching only NULL.
   */
  lemma PredicateMatches(bindKey: KeyBinder, eq: Equality, row: Row, entries: seq<KeyEntry>, types: ColumnTypes,
                         before: seq<Param>)
    requires GoodKeys(bindKey) && KeyPredicate(bindKey, entries, types, |before| + 1).Ok?
    ensures var (terms, params) := KeyPredicate(bindKey, entries, types, |before| + 1).value;
            PredicateTruth(eq, row, terms, before + params) == Yes
            <==> forall i :: 0 <= i < |entries| ==> Agrees(bindKey, eq, row, entries[i], types)
  {
    TermsMatch(bindKey, eq, row, entries, types, before);
  }

  // -------------------------------------------------------------------------
  // Placeholder discipline

  /** `from`, `from + 1`, and so on, `n` numbers. */
  function Numbers(from: nat, n: nat): (ns: seq<nat>)
    ensures |ns| == n && forall i :: 0 <= i < n ==> ns[i] == from + i
  {
    seq(n, i requires 0 <= i < n => from + i)
  }

  lemma HolesOfPlain(text: string)
    ensures Holes([Plain(text)]) == []
  {
    assert [Plain(text)][1..] == [];
  }

  lemma {:induction false} JoinedHoles(parts: seq<Sql>, separator: string)
    ensures Holes(JoinSql(parts, separator)) == AllHoles(parts)
  {
    if |parts| == 1 {
      assert parts[1..] == [];
      assert AllHoles(parts) == Holes(parts[0]) + AllHoles([]);
    } else if |parts| > 1 {
      JoinedHoles(parts[1..], separator);
      HolesOfPlain(separator);
      HolesOfConcat(parts[0], [Plain(separator)]);
      HolesOfConcat(parts[0] + [Plain(separator)], JoinSql(parts[1..], separator));
    }
  }

  function AllHoles(parts: seq<Sql>): seq<nat> {
    if parts == [] then [] else Holes(parts[0]) + AllHoles(parts[1..])
  }

  lemma {:induction false} TermHoles(bindKey: KeyBinder, entries: seq<KeyEntry>, types: ColumnTypes, idx: nat)
    requires GoodKeys(bindKey) && Terms(bindKey, entries, types, idx).Ok?
    ensures var (terms, params) := Terms(bindKey, entries, types, idx).value;
            AllHoles(TermSqls(terms)) == Numbers(idx, |params|)
  {
    if entries != [] {
      var (column, v) := entries[0];
      var (terms, params) := Terms(bindKey, entries, types, idx).value;
      HolesOfPlain(Identifier(column) + " IS NULL");
      if v.JNull? {
        TermHoles(bindKey, entries[1..], types, idx);
        assert terms[1..] == Terms(bindKey, entries[1..], types, idx).value.0;
      } else {
        var b := bindKey(v, idx, TypeOf(types, column)).value;
        assert GoodKeyAt(bindKey, v, idx, TypeOf(types, column));
        TermHoles(bindKey, entries[1..], types, idx + 1);
        ComparisonHoles(column, b.sql);
        NumbersStep(idx, |params|);
        assert terms[1..] == Terms(bindKey, entries[1..], types, idx + 1).value.0;
      }
    }
  }

  lemma ComparisonHoles(column: string, rhs: Sql)
    ensures Holes(TermSql(Comparison(column, rhs))) == Holes(rhs)
  {
    HolesOfPlain(Identifier(column) + " = ");
    HolesOfConcat([Plain(Identifier(column) + " = ")], rhs);
  }

  lemma NumbersStep(from: nat, n: nat)
    requires n > 0
    ensures Numbers(from, n) == [from] + Numbers(from + 1, n - 1)
  {
  }

  datatype Statement = Statement(sql: Sql, params: seq<Param>)

  /** Each of `$1` to `$n` appears exactly once, in order, where n is the number of parameters. */
  predicate Numbered(st: Statement) {
    Holes(st.sql) == Numbers(1, |st.params|)
  }

  function WhereSql(terms: seq<Term>): Sql {
    JoinSql(TermSqls(terms), " AND ")
  }

  // -------------------------------------------------------------------------
  // DELETE

  function DeleteStatement(bindKey: KeyBinder, table: string, entries: seq<KeyEntry>, types: ColumnTypes)
      : Result<Statement>
  {
    match KeyPredicate(bindKey, entries, types, 1) {
      case Err(e) => Err(e)
      case Ok((terms, params)) => Ok(Statement([Plain("DELETE FROM " + table + " WHERE ")] + WhereSql(terms), params))
    }
  }

  method ExecDelete(bindKey: KeyBinder, table: string, entries: seq<KeyEntry>, types: ColumnTypes)
      returns (r: Result<Statement>)
    requires GoodKeys(bindKey)
    ensures r == DeleteStatement(bindKey, table, entries, types)
    ensures r.Ok? ==> Numbered(r.value)
  {
    var built := BuildPkMapPredicate(bindKey, entries, types, 1);
    if built.Err? {
      return Err(built.error);
    }
    var (terms, params) := built.value;
    DeleteNumbered(bindKey, table, entries, types);
    r := Ok(Statement([Plain("DELETE FROM " + table + " WHERE ")] + WhereSql(terms), params));
  }

  lemma DeleteNumbered(bindKey: KeyBinder, table: string, entries: seq<KeyEntry>, types: ColumnTypes)
    requires GoodKeys(bindKey)
    ensures var r := DeleteStatement(bindKey, table, entries, types); r.Ok? ==> Numbered(r.value)
  {
    if KeyPredicate(bindKey, entries, types, 1).Ok? {
      var (terms, params) := KeyPredicate(bindKey, entries, types, 1).value;
      TermHoles(bindKey, entries, types, 1);
      JoinedHoles(TermSqls(terms), " AND ");
      HolesOfPlain("DELETE FROM " + table + " WHERE ");
      HolesOfConcat([Plain("DELETE FROM " + table + " WHERE ")], WhereSql(terms));
    }
  }

  // -------------------------------------------------------------------------
  // UPDATE

  /** What the catalog says about a table's columns. */
  datatype Catalog = Catalog(types: ColumnTypes, enums: map<string, string>, hstoreOids: map<string, nat>)

  function OptionsFor(cat: Catalog, column: string, allowDefault: bool): BindOptions {
    var t := TypeOf(cat.types, column);
    BindOptions(t,
                if column in cat.enums then Some(cat.enums[column]) else None,
                allowDefault,
                if t == Some("hstore") && column in cat.hstoreOids then Some(cat.hstoreOids[column]) else None)
  }

  function UpdateSql(table: string, column: string, value: Sql, terms: seq<Term>): Sql {
    [Plain("UPDATE " + table + " SET " + Identifier(column) + " = ")] + value + [Plain(" WHERE ")] + WhereSql(terms)
  }

  function UpdateStatement(bindKey: KeyBinder, bind: Binder, table: string, entries: seq<KeyEntry>, column: string,
                           v: Json, cat: Catalog)
      : Result<Statement>
  {
    match bind(v, 1, OptionsFor(cat, column, true)) {
      case Err(e) => Err(e)
      case Ok(bound) =>
        match KeyPredicate(bindKey, entries, cat.types, 1 + |ParamsOf(bound)|) {
          case Err(e) => Err(e)
          case Ok((terms, params)) =>
            Ok(Statement(UpdateSql(table, column, bound.sql, terms), ParamsOf(bound) + params))
        }
    }
  }

  method ExecUpdate(bindKey: KeyBinder, bind: Binder, table: string, entries: seq<KeyEntry>, column: string, v: Json,
                    cat: Catalog)
      returns (r: Result<Statement>)
    requires GoodKeys(bindKey) && Good(bind)
    ensures r == UpdateStatement(bindKey, bind, table, entries, column, v, cat)
    ensures r.Ok? ==> Numbered(r.value)
  {
    UpdateNumbered(bindKey, bind, table, entries, column, v, cat);
    var bound := bind(v, 1, OptionsFor(cat, column, true));
    if bound.Err? {
      return Err(bound.error);
    }
    var params: seq<Param> := [];
    var placeholderIdx := 1;
    if bound.value.param.Some? {
      params := params + [bound.value.param.value];
      placeholderIdx := 2;
    }
    assert params == ParamsOf(bound.value);
    var built := BuildPkMapPredicate(bindKey, entries, cat.types, placeholderIdx);
    if built.Err? {
      return Err(built.error);
    }
    var (terms, pkParams) := built.value;
    r := Ok(Statement(UpdateSql(table, column, bound.value.sql, terms), params + pkParams));
  }

  lemma WhereHoles(terms: seq<Term>)
    ensures Holes(WhereSql(terms)) == AllHoles(TermSqls(terms))
  {
    JoinedHoles(TermSqls(terms), " AND ");
  }

  lemma UpdateHoles(table: string, column: string, value: Sql, terms: seq<Term>)
    ensures Holes(UpdateSql(table, column, value, terms)) == Holes(value) + AllHoles(TermSqls(terms))
  {
    var head := Plain("UPDATE " + table + " SET " + Identifier(column) + " = ");
    WhereHoles(terms);
    HolesOfPlain(head.text);
    HolesOfPlain(" WHERE ");
    HolesOfConcat([head], value);
    HolesOfConcat([head] + value, [Plain(" WHERE ")]);
    HolesOfConcat([head] + value + [Plain(" WHERE ")], WhereSql(terms));
  }

  lemma UpdateNumbered(bindKey: KeyBinder, bind: Binder, table: string, entries: seq<KeyEntry>, column: string, v: Json,
                       cat: Catalog)
    requires GoodKeys(bindKey) && Good(bind)
    ensures var r := UpdateStatement(bindKey, bind, table, entries, column, v, cat); r.Ok? ==> Numbered(r.value)
  {
    var o := OptionsFor(cat, column, true);
    var r := UpdateStatement(bindKey, bind, table, entries, column, v, cat);
    if r.Ok? {
      assert GoodAt(bind, v, 1, o);
      var bound := bind(v, 1, o).value;
      var first := 1 + |ParamsOf(bound)|;
      var (terms, params) := KeyPredicate(bindKey, entries, cat.types, first).value;
      TermHoles(bindKey, entries, cat.types, first);
      UpdateHoles(table, column, bound.sql, terms);
      if bound.param.Some? {
        NumbersStep(1, |r.value.params|);
      }
    }
  }

  /** An UPDATE sets its column to the new value and touches exactly the rows that agree with every key entry. */
  lemma UpdateTouches(bindKey: KeyBinder, bind: Binder, table: string, entries: seq<KeyEntry>, column: string, v: Json,
                      cat: Catalog, eq: Equality, row: Row)
      returns (terms: seq<Term>)
    requires GoodKeys(bindKey) && Good(bind) && UpdateStatement(bindKey, bind, table, entries, column, v, cat).Ok?
    ensures var st := UpdateStatement(bindKey, bind, table, entries, column, v, cat).value;
            && bind(v, 1, OptionsFor(cat, column, true)).Ok?
            && var b := bind(v, 1, OptionsFor(cat, column, true)).value;
               && st.sql == UpdateSql(table, column, b.sql, terms)
               && (b.param.Some? ==> Holes(b.sql) == [1] && st.params != [] && st.params[0] == b.param.value)
               && (PredicateTruth(eq, row, terms, st.params) == Yes
                   <==> forall i :: 0 <= i < |entries| ==> Agrees(bindKey, eq, row, entries[i], cat.types))
  {
    assert GoodAt(bind, v, 1, OptionsFor(cat, column, true));
    var before := ParamsOf(bind(v, 1, OptionsFor(cat, column, true)).value);
    terms := KeyPredicate(bindKey, entries, cat.types, |before| + 1).value.0;
    PredicateMatches(bindKey, eq, row, entries, cat.types, before);
  }

  /** A DELETE touches exactly the rows that agree with every key entry. */
  lemma DeleteTouches(bindKey: KeyBinder, table: string, entries: seq<KeyEntry>, types: ColumnTypes, eq: Equality,
                      row: Row)
      returns (terms: seq<Term>)
    requires GoodKeys(bindKey) && DeleteStatement(bindKey, table, entries, types).Ok?
    ensures var st := DeleteStatement(bindKey, table, entries, types).value;
            && st.sql == [Plain("DELETE FROM " + table + " WHERE ")] + WhereSql(terms)
            && (PredicateTruth(eq, row, terms, st.params) == Yes
                <==> forall i :: 0 <= i < |entries| ==> Agrees(bindKey, eq, row, entries[i], types))
  {
    terms := KeyPredicate(bindKey, entries, types, 1).value.0;
    PredicateMatches(bindKey, eq, row, entries, types, []);
    var params := KeyPredicate(bindKey, entries, types, 1).value.1;
    assert [] + params == params;
  }

  // -------------------------------------------------------------------------
  // INSERT

  type Entry = (string, Json)

  /** The fragments for `entries` and their parameters, numbered from `idx`. */
  function Fragments(bind: Binder, entries: seq<Entry>, cat: Catalog, idx: nat): Result<(seq<Sql>, seq<Param>)> {
    if entries == [] then Ok(([], []))
    else
      match bind(entries[0].1, idx, OptionsFor(cat, entries[0].0, false)) {
        case Err(e) => Err(e)
        case Ok(bound) =>
          match Fragments(bind, entries[1..], cat, idx + |ParamsOf(bound)|) {
            case Err(e) => Err(e)
            case Ok((sqls, params)) => Ok(([bound.sql] + sqls, ParamsOf(bound) + params))
          }
      }
  }

  function Columns(entries: seq<Entry>): seq<string> {
    if entries == [] then [] else [Identifier(entries[0].0)] + Columns(entries[1..])
  }

  function InsertSql(table: string, columns: seq<string>, fragments: seq<Sql>): Sql {
    [Plain("INSERT INTO " + table + " (" + Join(columns, ", ") + ") VALUES (")] + JoinSql(fragments, ", ")
    + [Plain(")")]
  }

  function InsertStatement(bind: Binder, table: string, entries: seq<Entry>, cat: Catalog): Result<Statement> {
    if entries == [] then Ok(Statement([Plain("INSERT INTO " + table + " DEFAULT VALUES")], []))
    else
      match Fragments(bind, entries, cat, 1) {
        case Err(e) => Err(e)
        case Ok((sqls, params)) => Ok(Statement(InsertSql(table, Columns(entries), sqls), params))
      }
  }

  function OntoFragments(sqls: seq<Sql>, params: seq<Param>, r: Result<(seq<Sql>, seq<Param>)>)
      : Result<(seq<Sql>, seq<Param>)>
  {
    if r.Err? then r else Ok((sqls + r.value.0, params + r.value.1))
  }

  lemma FragmentStep(bind: Binder, entries: seq<Entry>, cat: Catalog, i: nat, idx: nat, sqls: seq<Sql>,
                     params: seq<Param>)
    requires i < |entries|
    ensures var b := bind(entries[i].1, idx, OptionsFor(cat, entries[i].0, false));
            OntoFragments(sqls, params, Fragments(bind, entries[i..], cat, idx))
            == if b.Err? then Err(b.error)
               else OntoFragments(sqls + [b.value.sql], params + ParamsOf(b.value),
                                  Fragments(bind, entries[i + 1..], cat, idx + |ParamsOf(b.value)|))
    ensures Columns(entries[i..]) == [Identifier(entries[i].0)] + Columns(entries[i + 1..])
  {
    assert entries[i..][1..] == entries[i + 1..];
    var b := bind(entries[i].1, idx, OptionsFor(cat, entries[i].0, false));
    if b.Ok? {
      var next := Fragments(bind, entries[i + 1..], cat, idx + |ParamsOf(b.value)|);
      if next.Ok? {
        assert sqls + ([b.value.sql] + next.value.0) == sqls + [b.value.sql] + next.value.0;
        assert params + (ParamsOf(b.value) + next.value.1) == params + ParamsOf(b.value) + next.value.1;
      }
    }
  }

  /** `exec_insert`: columns, fragments, parameters and the next placeholder grow together. */
  method ExecInsert(bind: Binder, table: string, entries: seq<Entry>, cat: Catalog) returns (r: Result<Statement>)
    requires Good(bind)
    ensures r == InsertStatement(bind, table, entries, cat)
    ensures r.Ok? ==> Numbered(r.value)
  {
    InsertNumbered(bind, table, entries, cat);
    if entries == [] {
      return Ok(Statement([Plain("INSERT INTO " + table + " DEFAULT VALUES")], []));
    }
    var cols: seq<string> := [];
    var sqlFragments: seq<Sql> := [];
    var ownedParams: seq<Param> := [];
    var placeholderIdx := 1;
    InsertStart(bind, entries, cat);
    for i := 0 to |entries|
      invariant Columns(entries) == cols + Columns(entries[i..])
      invariant Fragments(bind, entries, cat, 1)
                == OntoFragments(sqlFragments, ownedParams, Fragments(bind, entries[i..], cat, placeholderIdx))
    {
      FragmentStep(bind, entries, cat, i, placeholderIdx, sqlFragments, ownedParams);
      var (colName, val) := entries[i];
      assert cols + ([Identifier(colName)] + Columns(entries[i + 1..]))
             == cols + [Identifier(colName)] + Columns(entries[i + 1..]);
      cols := cols + [Identifier(colName)];
      var bound := bind(val, placeholderIdx, OptionsFor(cat, colName, false));
      if bound.Err? {
        return Err(bound.error);
      }
      sqlFragments := sqlFragments + [bound.value.sql];
      if bound.value.param.Some? {
        ownedParams := ownedParams + [bound.value.param.value];
        placeholderIdx := placeholderIdx + 1;
      } else {
        assert ownedParams + [] == ownedParams;
      }
    }
    assert entries[|entries|..] == [] && cols + [] == cols && sqlFragments + [] == sqlFragments
           && ownedParams + [] == ownedParams;
    r := Ok(Statement(InsertSql(table, cols, sqlFragments), ownedParams));
  }

  lemma InsertStart(bind: Binder, entries: seq<Entry>, cat: Catalog)
    ensures Columns(entries) == [] + Columns(entries[0..])
    ensures Fragments(bind, entries, cat, 1) == OntoFragments([], [], Fragments(bind, entries[0..], cat, 1))
  {
    assert entries[0..] == entries;
    var r := Fragments(bind, entries, cat, 1);
    if r.Ok? {
      assert [] + r.value.0 == r.value.0 && [] + r.value.1 == r.value.1;
    }
  }

  lemma {:induction false} FragmentHoles(bind: Binder, entries: seq<Entry>, cat: Catalog, idx: nat)
    requires Good(bind) && Fragments(bind, entries, cat, idx).Ok?
    ensures var (sqls, params) := Fragments(bind, entries, cat, idx).value; AllHoles(sqls) == Numbers(idx, |params|)
  {
    if entries != [] {
      var o := OptionsFor(cat, entries[0].0, false);
      assert GoodAt(bind, entries[0].1, idx, o);
      var bound := bind(entries[0].1, idx, o).value;
      var (sqls, params) := Fragments(bind, entries, cat, idx).value;
      var next := idx + |ParamsOf(bound)|;
      FragmentHoles(bind, entries[1..], cat, next);
      assert sqls[1..] == Fragments(bind, entries[1..], cat, next).value.0;
      if bound.param.Some? {
        NumbersStep(idx, |params|);
      }
    }
  }

  lemma InsertHoles(table: string, columns: seq<string>, fragments: seq<Sql>)
    ensures Holes(InsertSql(table, columns, fragments)) == AllHoles(fragments)
  {
    JoinedHoles(fragments, ", ");
    var head := Plain("INSERT INTO " + table + " (" + Join(columns, ", ") + ") VALUES (");
    HolesOfPlain(head.text);
    HolesOfPlain(")");
    HolesOfConcat([head], JoinSql(fragments, ", "));
    HolesOfConcat([head] + JoinSql(fragments, ", "), [Plain(")")]);
  }

  lemma InsertNumbered(bind: Binder, table: string, entries: seq<Entry>, cat: Catalog)
    requires Good(bind)
    ensures var r := InsertStatement(bind, table, entries, cat); r.Ok? ==> Numbered(r.value)
  {
    var r := InsertStatement(bind, table, entries, cat);
    if entries == [] {
      HolesOfPlain("INSERT INTO " + table + " DEFAULT VALUES");
    } else if r.Ok? {
      FragmentHoles(bind, entries, cat, 1);
      InsertHoles(table, Columns(entries), Fragments(bind, entries, cat, 1).value.0);
    }
  }

  /**
   `sql` binds the entry's own value at `$k`, and if it has a parameter it is the `k`-th, `params` starting at number
   `idx`.
   */
  ghost predicate BindsOwn(bind: Binder, entry: Entry, cat: Catalog, sql: Sql, params: seq<Param>, idx: nat, k: nat) {
    var r := bind(entry.1, k, OptionsFor(cat, entry.0, false));
    && r.Ok? && r.value.sql == sql
    && (r.value.param.Some? ==>
          Holes(sql) == [k] && idx <= k < idx + |params| && params[k - idx] == r.value.param.value)
  }

  /**
   In an INSERT, each column's fragment binds that column's own value, and the parameter of its placeholder is that
   value's.
   */
  lemma {:induction false} OwnParameter(bind: Binder, entries: seq<Entry>, cat: Catalog, idx: nat, i: nat)
      returns (k: nat)
    requires Good(bind) && Fragments(bind, entries, cat, idx).Ok? && i < |entries|
    ensures var (sqls, params) := Fragments(bind, entries, cat, idx).value;
            |sqls| == |entries| && BindsOwn(bind, entries[i], cat, sqls[i], params, idx, k)
  {
    var o := OptionsFor(cat, entries[0].0, false);
    assert GoodAt(bind, entries[0].1, idx, o);
    var bound := bind(entries[0].1, idx, o).value;
    var (sqls, params) := Fragments(bind, entries, cat, idx).value;
    var next := idx + |ParamsOf(bound)|;
    var (sqls', params') := Fragments(bind, entries[1..], cat, next).value;
    k := idx;
    if entries[1..] != [] {
      var k' := OwnParameter(bind, entries[1..], cat, next, if i == 0 then 0 else i - 1);
      if i > 0 {
        k := k';
        assert params == ParamsOf(bound) + params' && sqls[i] == sqls'[i - 1];
      }
    }
  }
}
