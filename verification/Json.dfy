/** JSON values (serde_json), and 64-bit integers in them. */
module Json {
  import opened Text

  /** `JReal` is any number that is not an integer of i64 or u64. */
  datatype Json =
    | JNull
    | JBool(b: bool)
    | JNum(n: int)
    | JReal(r: real)
    | JStr(s: string)
    | JArr(items: seq<Json>)
    | JObj(fields: map<string, Json>)

  const JS_MAX_SAFE_INTEGER: int := 9007199254740991

  /** `i64::abs` without overflow checks: the smallest integer stays as it is. */
  function WrappingAbs(v: int): int {
    if v == I64_MIN then I64_MIN else if v < 0 then -v else v
  }

  /** `i64_to_json`. */
  function I64ToJson(v: int): Json {
    if WrappingAbs(v) <= JS_MAX_SAFE_INTEGER then JNum(v) else JStr(PrintInt(v))
  }

  /** The string form appears exactly outside the safe range, except that the smallest integer is a number too. */
  lemma StringOutsideSafeRange(v: int)
    requires I64_MIN <= v <= I64_MAX
    ensures I64ToJson(v).JStr? <==> !(-JS_MAX_SAFE_INTEGER <= v <= JS_MAX_SAFE_INTEGER) && v != I64_MIN
    ensures I64ToJson(v) == if I64ToJson(v).JStr? then JStr(PrintInt(v)) else JNum(v)
  {
  }

  /** One character inside a JSON string literal. */
  function EscapeChar(c: char): string {
    if c == '"' then "\\\"" else if c == '\\' then "\\\\"
    else if c == '\n' then "\\n" else if c == '\r' then "\\r" else if c == '\t' then "\\t"
    else if c == '\U{8}' then "\\b" else if c == '\U{C}' then "\\f"
    else if c < ' ' then "\\u00" + (if c < '\U{10}' then "0" else "1") + [HexDigit((c as int) % 16)]
    else [c]
  }

  function HexDigit(d: nat): char
    requires d < 16
  {
    if d < 10 then '0' + d as char else 'a' + (d - 10) as char
  }

  function Escape(s: string): string {
    if s == "" then "" else EscapeChar(s[0]) + Escape(s[1..])
  }

  /** `to_string` of a scalar. */
  function ScalarText(j: Json): string
    requires j.JNull? || j.JNum? || j.JStr?
  {
    match j {
      case JNull => "null"
      case JNum(n) => PrintInt(n)
      case JStr(s) => "\"" + Escape(s) + "\""
    }
  }

  // -------------------------------------------------------------------------
  // A string literal, read as section 7 of RFC 8259 says

  function HexValue(c: char): Option<nat> {
    if '0' <= c <= '9' then Some((c - '0') as nat)
    else if 'a' <= c <= 'f' then Some(10 + (c - 'a') as nat)
    else if 'A' <= c <= 'F' then Some(10 + (c - 'A') as nat)
    else None
  }

  function PushChar(c: char, r: Option<(string, string)>): Option<(string, string)> {
    if r.None? then None else Some(([c] + r.value.0, r.value.1))
  }

  /** What a two-character escape stands for. */
  function ShortEscape(c: char): Option<char> {
    if c == '"' || c == '\\' || c == '/' then Some(c)
    else if c == 'b' then Some('\U{8}')
    else if c == 'f' then Some('\U{C}')
    else if c == 'n' then Some('\n')
    else if c == 'r' then Some('\r')
    else if c == 't' then Some('\t')
    else None
  }

  /** Four hexadecimal digits below 256. */
  function LongEscape(s: string): Option<char> {
    if |s| < 4 || s[0] != '0' || s[1] != '0' || HexValue(s[2]).None? || HexValue(s[3]).None? then None
    else Some((16 * HexValue(s[2]).value + HexValue(s[3]).value) as char)
  }

  /** The rest of a string literal and what follows its closing quote; control characters must be escaped. */
  function ReadLiteral(s: string): Option<(string, string)>
    decreases |s|
  {
    if s == "" || s[0] < ' ' then None
    else if s[0] == '"' then Some(("", s[1..]))
    else if s[0] != '\\' then PushChar(s[0], ReadLiteral(s[1..]))
    else if |s| >= 2 && s[1] == 'u' then
      if LongEscape(s[2..]).None? then None else PushChar(LongEscape(s[2..]).value, ReadLiteral(s[6..]))
    else if |s| >= 2 && ShortEscape(s[1]).Some? then PushChar(ShortEscape(s[1]).value, ReadLiteral(s[2..]))
    else None
  }

  lemma HexReads(d: nat)
    requires d < 16
    ensures HexValue(HexDigit(d)) == Some(d)
  {
  }

  lemma EscapeReads(c: char, rest: string)
    ensures ReadLiteral(EscapeChar(c) + rest) == PushChar(c, ReadLiteral(rest))
  {
    var e := EscapeChar(c);
    var s := e + rest;
    if |e| == 1 {
      assert s[1..] == rest;
    } else if |e| == 2 {
      assert s[2..] == rest;
    } else {
      var n := c as int;
      assert n < 32;
      HexReads(n % 16);
      assert e == "\\u00" + (if n < 16 then "0" else "1") + [HexDigit(n % 16)];
      assert s[2..][..4] == e[2..] && s[6..] == rest;
      assert s[2..][0] == '0' && s[2..][1] == '0' && s[2..][3] == HexDigit(n % 16);
    }
  }

  lemma {:induction false} LiteralReads(s: string, rest: string)
    ensures ReadLiteral(Escape(s) + ("\"" + rest)) == Some((s, rest))
  {
    var tail := "\"" + rest;
    if s == "" {
      assert Escape(s) + tail == tail && tail[1..] == rest;
    } else {
      assert Escape(s) + tail == EscapeChar(s[0]) + (Escape(s[1..]) + tail);
      EscapeReads(s[0], Escape(s[1..]) + tail);
      LiteralReads(s[1..], rest);
      assert [s[0]] + s[1..] == s;
    }
  }

  /** The text of a string, as it stands in a range, is a JSON literal that reads back as the string. */
  lemma ScalarTextReads(s: string)
    ensures var t := ScalarText(JStr(s)); t != "" && t[0] == '"' && ReadLiteral(t[1..]) == Some((s, ""))
  {
    var t := ScalarText(JStr(s));
    assert t[1..] == Escape(s) + ("\"" + "");
    LiteralReads(s, "");
  }
}
