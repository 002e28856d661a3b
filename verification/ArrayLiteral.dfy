/** `json_array_to_pg_literal`: nested JSON arrays as `ARRAY[..]` text, and that text read back. */
module ArrayLiteral {
  import opened Text
  import opened Json

  // -------------------------------------------------------------------------
  // The printer

  /** `s.replace('\'', "''")`. */
  function Doubled(s: string): string {
    if s == "" then "" else (if s[0] == '\'' then "''" else [s[0]]) + Doubled(s[1..])
  }

  function PrintElement(showReal: real -> string, j: Json): Option<string>
    decreases j, 0
  {
    match j {
      case JStr(s) => Some("'" + (Doubled(s) + "'"))
      case JNum(n) => Some(PrintInt(n))
      case JReal(r) => Some(showReal(r))
      case JBool(b) => Some(if b then "TRUE" else "FALSE")
      case JNull => Some("NULL")
      case JArr(items) => Print(showReal, items)
      case JObj(_) => None
    }
  }

  function PrintElements(showReal: real -> string, items: seq<Json>): Option<seq<string>>
    decreases items, 1
  {
    if items == [] then Some([])
    else
      match (PrintElement(showReal, items[0]), PrintElements(showReal, items[1..])) {
        case (Some(part), Some(parts)) => Some([part] + parts)
        case _ => None
      }
  }

  /** What `json_array_to_pg_literal` returns; `None` if some element, however deep, is an object. */
  function Print(showReal: real -> string, items: seq<Json>): Option<string>
    decreases items, 2
  {
    if items == [] then Some("'{}'")
    else
      match PrintElements(showReal, items) {
        case None => None
        case Some(parts) => Some("ARRAY[" + (Join(parts, ", ") + "]"))
      }
  }

  function Onto(done: seq<string>, parts: Option<seq<string>>): Option<seq<string>> {
    if parts.None? then None else Some(done + parts.value)
  }

  lemma PartStep(showReal: real -> string, arr: seq<Json>, i: nat, done: seq<string>)
    requires i < |arr|
    ensures var part := PrintElement(showReal, arr[i]);
            Onto(done, PrintElements(showReal, arr[i..]))
            == if part.None? then None else Onto(done + [part.value], PrintElements(showReal, arr[i + 1..]))
  {
    assert arr[i..][1..] == arr[i + 1..];
    var part, parts := PrintElement(showReal, arr[i]), PrintElements(showReal, arr[i + 1..]);
    if part.Some? && parts.Some? {
      assert done + ([part.value] + parts.value) == done + [part.value] + parts.value;
    }
  }

  /** The loop as written: one part per element, nested arrays by a call of its own. */
  method JsonArrayToPgLiteral(showReal: real -> string, arr: seq<Json>) returns (literal: Option<string>)
    ensures literal == Print(showReal, arr)
    decreases arr
  {
    if arr == [] {
      return Some("'{}'");
    }
    var parts: seq<string> := [];
    assert arr[0..] == arr;
    assert PrintElements(showReal, arr).Some? ==>
        [] + PrintElements(showReal, arr).value == PrintElements(showReal, arr).value;
    for i := 0 to |arr|
      invariant PrintElements(showReal, arr) == Onto(parts, PrintElements(showReal, arr[i..]))
    {
      PartStep(showReal, arr, i, parts);
      var part: Option<string>;
      match arr[i] {
        case JArr(nested) => part := JsonArrayToPgLiteral(showReal, nested);
        case JObj(_) => return None;
        case _ => part := PrintElement(showReal, arr[i]);
      }
      if part.None? {
        return None;
      }
      parts := parts + [part.value];
    }
    assert arr[|arr|..] == [] && parts + [] == parts;
    literal := Some("ARRAY[" + (Join(parts, ", ") + "]"));
  }

  // -------------------------------------------------------------------------
  // The reader, under the rules of SQL string constants: a doubled quote is a quote, nothing else is special

  /** The rest of a quoted constant. */
  function ReadQuoted(s: string): (r: Option<(string, string)>)
    ensures r.Some? ==> |r.value.1| < |s|
  {
    if s == "" then None
    else if s[0] != '\'' then Push(s[0], ReadQuoted(s[1..]))
    else if |s| >= 2 && s[1] == '\'' then Push('\'', ReadQuoted(s[2..]))
    else Some(("", s[1..]))
  }

  function Push(c: char, r: Option<(string, string)>): (q: Option<(string, string)>)
    ensures q.Some? <==> r.Some?
    ensures q.Some? ==> q.value.1 == r.value.1
  {
    if r.None? then None else Some(([c] + r.value.0, r.value.1))
  }

  predicate InNumber(c: char) {
    IsDigit(c) || c == '-'
  }

  function SpanNumber(s: string): (n: nat)
    ensures n <= |s|
  {
    if s == "" || !InNumber(s[0]) then 0 else 1 + SpanNumber(s[1..])
  }

  /** The numeral at the front of `s`, of any size. */
  function ReadNumber(s: string): (r: Option<(Json, string)>)
    ensures r.Some? ==> |r.value.1| < |s|
  {
    var n := SpanNumber(s);
    var negative := n > 0 && s[0] == '-';
    var digits := if negative then s[1..n] else s[..n];
    if digits == "" || !AllDigits(digits) then None
    else Some((JNum(if negative then -(DigitsValue(digits) as int) else DigitsValue(digits)), s[n..]))
  }

  /** `'{}'` is the empty array; any other constant is a string. */
  function StringOrEmpty(s: string): Json {
    if s == "{}" then JArr([]) else JStr(s)
  }

  /** One element or array, and the text after it. */
  function Read(s: string): (r: Option<(Json, string)>)
    ensures r.Some? ==> |r.value.1| < |s|
    decreases |s|, 0
  {
    if s == "" then None
    else if s[0] == '\'' then
      match ReadQuoted(s[1..]) {
        case None => None
        case Some((text, rest)) => Some((StringOrEmpty(text), rest))
      }
    else if s[0] == 'T' then (if StartsWith(s, "TRUE") then Some((JBool(true), s[4..])) else None)
    else if s[0] == 'F' then (if StartsWith(s, "FALSE") then Some((JBool(false), s[5..])) else None)
    else if s[0] == 'N' then (if StartsWith(s, "NULL") then Some((JNull, s[4..])) else None)
    else if s[0] == 'A' then
      if !StartsWith(s, "ARRAY[") then None
      else
        match ReadElements(s[6..]) {
          case None => None
          case Some((items, rest)) => Some((JArr(items), rest))
        }
    else ReadNumber(s)
  }

  /** Elements separated by a comma and a space, up to the bracket. */
  function ReadElements(s: string): (r: Option<(seq<Json>, string)>)
    ensures r.Some? ==> |r.value.1| < |s|
    decreases |s|, 1
  {
    match Read(s) {
      case None => None
      case Some((first, rest)) =>
        if rest == "" then None
        else if rest[0] == ']' then Some(([first], rest[1..]))
        else if !(|rest| >= 2 && rest[0] == ',' && rest[1] == ' ') then None
        else
          match ReadElements(rest[2..]) {
            case None => None
            case Some((items, last)) => Some(([first] + items, last))
          }
    }
  }

  // -------------------------------------------------------------------------
  // Reading inverts printing

  /** Arrays of strings, integers, booleans, nulls and such arrays. */
  predicate Printable(j: Json) {
    match j {
      case JArr(items) => forall i :: 0 <= i < |items| ==> Printable(items[i])
      case JObj(_) => false
      case JReal(_) => false
      case _ => true
    }
  }

  /** Some element, however deep, is the string `{}`. */
  predicate HasBraces(j: Json) {
    match j {
      case JStr(s) => s == "{}"
      case JArr(items) => exists i :: 0 <= i < |items| && HasBraces(items[i])
      case _ => false
    }
  }

  /** The value with every string `{}` replaced by an empty array. */
  function Emptied(j: Json): Json
    decreases j, 0
  {
    match j {
      case JStr(s) => StringOrEmpty(s)
      case JArr(items) => JArr(EmptiedAll(items))
      case _ => j
    }
  }

  function EmptiedAll(items: seq<Json>): seq<Json>
    decreases items, 1
  {
    if items == [] then [] else [Emptied(items[0])] + EmptiedAll(items[1..])
  }

  lemma Associates(a: string, b: string, c: string)
    ensures a + b + c == a + (b + c)
  {
  }

  lemma QuoteStep(tail: string)
    ensures ReadQuoted("''" + tail) == Push('\'', ReadQuoted(tail))
  {
    assert ("''" + tail)[2..] == tail;
  }

  lemma CharStep(c: char, tail: string)
    requires c != '\''
    ensures ReadQuoted([c] + tail) == Push(c, ReadQuoted(tail))
  {
    assert ([c] + tail)[1..] == tail;
  }

  lemma {:induction false} QuotedReads(s: string, rest: string)
    requires rest == "" || rest[0] != '\''
    ensures ReadQuoted(Doubled(s) + ("'" + rest)) == Some((s, rest))
  {
    if s == "" {
      assert Doubled(s) + ("'" + rest) == "'" + rest;
      assert ("'" + rest)[1..] == rest;
    } else {
      var tail := Doubled(s[1..]) + ("'" + rest);
      QuotedReads(s[1..], rest);
      assert [s[0]] + s[1..] == s;
      if s[0] == '\'' {
        Associates("''", Doubled(s[1..]), "'" + rest);
        QuoteStep(tail);
      } else {
        Associates([s[0]], Doubled(s[1..]), "'" + rest);
        CharStep(s[0], tail);
      }
    }
  }

  predicate Ends(rest: string) {
    rest == "" || rest[0] == ',' || rest[0] == ']'
  }

  lemma {:induction false} NumberSpan(digits: string, rest: string)
    requires (forall i :: 0 <= i < |digits| ==> InNumber(digits[i])) && Ends(rest)
    ensures SpanNumber(digits + rest) == |digits|
  {
    if digits == "" {
      assert digits + rest == rest;
    } else {
      NumberSpan(digits[1..], rest);
      assert (digits + rest)[1..] == digits[1..] + rest;
    }
  }

  lemma NumeralReads(n: int, rest: string)
    requires Ends(rest)
    ensures ReadNumber(PrintInt(n) + rest) == Some((JNum(n), rest))
  {
    var digits := PrintInt(n);
    var s := digits + rest;
    NumberSpan(digits, rest);
    assert s[|digits|..] == rest && s[..|digits|] == digits;
    if n < 0 {
      PrintNatValue(-n);
      assert s[1..|digits|] == PrintNat(-n);
    } else {
      PrintNatValue(n);
    }
  }

  lemma NumberReads(n: int, rest: string)
    requires Ends(rest)
    ensures Read(PrintInt(n) + rest) == Some((JNum(n), rest))
  {
    var s := PrintInt(n) + rest;
    NumeralReads(n, rest);
    assert s[0] == PrintInt(n)[0] && InNumber(s[0]);
    assert Read(s) == ReadNumber(s);
  }

  lemma PrefixReads(prefix: string, rest: string)
    ensures StartsWith(prefix + rest, prefix) && (prefix + rest)[|prefix|..] == rest
  {
  }

  lemma {:induction false} ElementReads(showReal: real -> string, j: Json, rest: string)
    requires Printable(j) && Ends(rest)
    ensures PrintElement(showReal, j).Some? && Read(PrintElement(showReal, j).value + rest) == Some((Emptied(j), rest))
    decreases j, 0
  {
    match j {
      case JStr(s) =>
        QuotedReads(s, rest);
        var tail := Doubled(s) + ("'" + rest);
        assert "'" + (Doubled(s) + "'") + rest == "'" + tail;
        assert ("'" + tail)[1..] == tail;
      case JNum(n) => NumberReads(n, rest);
      case JBool(b) => PrefixReads(if b then "TRUE" else "FALSE", rest);
      case JNull => PrefixReads("NULL", rest);
      case JArr(items) => ArrayReads(showReal, items, rest);
    }
  }

  lemma {:induction false} ArrayReads(showReal: real -> string, items: seq<Json>, rest: string)
    requires (forall i :: 0 <= i < |items| ==> Printable(items[i])) && Ends(rest)
    ensures Print(showReal, items).Some?
            && Read(Print(showReal, items).value + rest) == Some((JArr(EmptiedAll(items)), rest))
    decreases items, 2
  {
    if items == [] {
      EmptyReads(rest);
    } else {
      ElementsRead(showReal, items, rest);
      var body := Join(PrintElements(showReal, items).value, ", ") + ("]" + rest);
      var s := Print(showReal, items).value + rest;
      assert s == "ARRAY[" + body;
      PrefixReads("ARRAY[", body);
    }
  }

  lemma EmptyReads(rest: string)
    requires Ends(rest)
    ensures Read("'{}'" + rest) == Some((JArr([]), rest))
  {
    assert Doubled("{}") == "{}" by {
      assert "{}"[1..] == "}" && "}"[1..] == "";
      assert Doubled("}") == "}" + Doubled("");
    }
    QuotedReads("{}", rest);
    var tail := "{}" + ("'" + rest);
    assert "'{}'" + rest == "'" + tail;
    assert ("'" + tail)[1..] == tail;
  }

  lemma LastRead(s: string, j: Json, rest: string)
    requires Read(s) == Some((j, "]" + rest))
    ensures ReadElements(s) == Some(([j], rest))
  {
    assert ("]" + rest)[1..] == rest;
  }

  lemma MoreRead(s: string, j: Json, tail: string, items: seq<Json>, rest: string)
    requires Read(s) == Some((j, ", " + tail)) && ReadElements(tail) == Some((items, rest))
    ensures ReadElements(s) == Some(([j] + items, rest))
  {
    assert (", " + tail)[2..] == tail;
  }

  lemma {:induction false} ElementsRead(showReal: real -> string, items: seq<Json>, rest: string)
    requires items != [] && (forall i :: 0 <= i < |items| ==> Printable(items[i]))
    ensures var parts := PrintElements(showReal, items);
            && parts.Some? && |parts.value| == |items|
            && ReadElements(Join(parts.value, ", ") + ("]" + rest)) == Some((EmptiedAll(items), rest))
    decreases items, 1
  {
    var close := "]" + rest;
    if |items| == 1 {
      ElementReads(showReal, items[0], close);
      var first := PrintElement(showReal, items[0]).value;
      assert items[1..] == [];
      assert PrintElements(showReal, items).value == [first] + [] == [first];
      assert EmptiedAll(items) == [Emptied(items[0])] + [] == [Emptied(items[0])];
      LastRead(first + close, Emptied(items[0]), rest);
    } else {
      ElementsRead(showReal, items[1..], rest);
      var others := PrintElements(showReal, items[1..]).value;
      var tail := Join(others, ", ") + close;
      ElementReads(showReal, items[0], ", " + tail);
      var first := PrintElement(showReal, items[0]).value;
      assert PrintElements(showReal, items).value == [first] + others;
      JoinStep(first, others, close);
      MoreRead(first + (", " + tail), Emptied(items[0]), tail, EmptiedAll(items[1..]), rest);
    }
  }

  lemma JoinStep(first: string, others: seq<string>, close: string)
    requires others != []
    ensures Join([first] + others, ", ") + close == first + (", " + (Join(others, ", ") + close))
  {
    assert ([first] + others)[1..] == others;
  }

  lemma {:induction false} EmptiedExactly(j: Json)
    ensures Emptied(j) == j <==> !HasBraces(j)
    decreases j, 0
  {
    if j.JArr? {
      AllEmptiedExactly(j.items);
    }
  }

  lemma {:induction false} AllEmptiedExactly(items: seq<Json>)
    ensures EmptiedAll(items) == items <==> (forall i :: 0 <= i < |items| ==> !HasBraces(items[i]))
    decreases items, 1
  {
    if items != [] {
      EmptiedExactly(items[0]);
      AllEmptiedExactly(items[1..]);
      assert items == [items[0]] + items[1..];
      assert (forall i :: 0 <= i < |items| ==> !HasBraces(items[i])) <==>
             (!HasBraces(items[0]) && forall i :: 0 <= i < |items[1..]| ==> !HasBraces(items[1..][i])) by {
        if !HasBraces(items[0]) && forall i :: 0 <= i < |items[1..]| ==> !HasBraces(items[1..][i]) {
          forall i | 0 <= i < |items| ensures !HasBraces(items[i]) {
            assert i > 0 ==> items[i] == items[1..][i - 1];
          }
        }
        if forall i :: 0 <= i < |items| ==> !HasBraces(items[i]) {
          forall i | 0 <= i < |items[1..]| ensures !HasBraces(items[1..][i]) {
            assert items[1..][i] == items[i + 1];
          }
        }
      }
      if EmptiedAll(items) == items {
        assert EmptiedAll(items)[0] == items[0] && EmptiedAll(items)[1..] == items[1..];
      }
    }
  }

  /** The printed literal reads back as the array it was printed from, if and only if no element is the string `{}`. */
  lemma LiteralRoundTrip(showReal: real -> string, items: seq<Json>)
    requires Printable(JArr(items))
    ensures Print(showReal, items).Some?
    ensures Read(Print(showReal, items).value) == Some((JArr(items), "")) <==> !HasBraces(JArr(items))
  {
    ArrayReads(showReal, items, "");
    assert Print(showReal, items).value + "" == Print(showReal, items).value;
    EmptiedExactly(JArr(items));
  }
}
