/** TSQUERY values: their prefix bytes, the decoder of src/extract.rs that prints them, and the text it prints. */
module TsQuery {
  import opened Text
  import opened Bytes

  /** A query. `weights` is a subset of A to D; a distance is what `<N>` carries. */
  datatype Query =
    | Lexeme(text: string, weights: set<char>, prefix: bool)
    | Not(operand: Query)
    | Binary(op: Operator, left: Query, right: Query)

  datatype Operator = Phrase(distance: int) | And | Or

  /** Binding strength: 1 is the strongest. */
  function LevelOf(op: Operator): nat {
    match op {
      case Phrase(_) => 2
      case And => 3
      case Or => 4
    }
  }

  function Level(q: Query): nat {
    if q.Binary? then LevelOf(q.op) else 1
  }

  // -------------------------------------------------------------------------
  // PostgreSQL's bytes: prefix order, the right operand before the left one

  function Mask(weights: set<char>): byte {
    (if 'D' in weights then 1 else 0) + (if 'C' in weights then 2 else 0) + (if 'B' in weights then 4 else 0)
    + (if 'A' in weights then 8 else 0)
  }

  function Be16(n: int): (bytes: seq<byte>)
    ensures |bytes| == 2
  {
    var u := n % 0x1_0000;
    [u / 0x100, u % 0x100]
  }

  function EncodeOp(op: Operator): seq<byte> {
    match op {
      case And => [2, 2]
      case Or => [2, 3]
      case Phrase(distance) => [2, 4] + Be16(distance)
    }
  }

  function EncodeQuery(q: Query): seq<byte> {
    match q {
      case Lexeme(text, weights, prefix) => [1, Mask(weights), if prefix then 1 else 0] + (EncodeUtf8(text) + [0])
      case Not(operand) => [2, 1] + EncodeQuery(operand)
      case Binary(op, left, right) => EncodeOp(op) + (EncodeQuery(right) + EncodeQuery(left))
    }
  }

  // -------------------------------------------------------------------------
  // The printed text

  function OpText(op: Operator): string {
    match op {
      case And => "&"
      case Or => "|"
      case Phrase(distance) => if distance == 1 then "<->" else "<" + PrintInt(distance) + ">"
    }
  }

  /** The one weight a mask stands for; `None` if it is not a mask the decoder knows. */
  function WeightOf(mask: int): Option<string> {
    if mask == 0 then Some("")
    else if mask == 1 then Some("D")
    else if mask == 2 then Some("C")
    else if mask == 4 then Some("B")
    else if mask == 8 then Some("A")
    else None
  }

  function FlagsText(weight: string, prefix: bool): string {
    if prefix then ":" + ("*" + weight) else if weight != "" then ":" + weight else ""
  }

  function LexemeText(text: string, weight: string, prefix: bool): string {
    "'" + (text + ("'" + FlagsText(weight, prefix)))
  }

  function Weights(q: Query): string
    requires q.Lexeme?
  {
    var w := WeightOf(Mask(q.weights));
    if w.Some? then w.value else ""
  }

  /** The text of `q` under an operator of level `outer`: parentheses exactly around a weaker operator. */
  function Print(q: Query, outer: nat): string {
    match q {
      case Lexeme(text, _, prefix) => LexemeText(text, Weights(q), prefix)
      case Not(operand) => "!" + Print(operand, 1)
      case Binary(op, left, right) =>
        var body := Print(left, LevelOf(op)) + (" " + (OpText(op) + (" " + Print(right, LevelOf(op)))));
        if outer < LevelOf(op) then "(" + (body + ")") else body
    }
  }

  // -------------------------------------------------------------------------
  // The decoder

  /** The text before the first NUL, and the bytes after it. */
  function NulText(buf: seq<byte>): (r: Option<(string, seq<byte>)>)
    ensures r.Some? ==> |r.value.1| < |buf|
  {
    var n := Nul(buf);
    if n == |buf| then None
    else
      match DecodeUtf8(buf[..n]) {
        case None => None
        case Some(text) => Some((text, buf[n + 1..]))
      }
  }

  /** The position of the first NUL, or the length if there is none. */
  function Nul(buf: seq<byte>): (n: nat)
    ensures n <= |buf| && (n < |buf| ==> buf[n] == 0)
  {
    if buf == [] || buf[0] == 0 then 0 else 1 + Nul(buf[1..])
  }

  function ReadI16(buf: seq<byte>): int
    requires |buf| >= 2
  {
    var (hi: int, lo: int) := (buf[0], buf[1]);
    var u := hi * 0x100 + lo;
    if u < 0x8000 then u else u - 0x1_0000
  }

  /** The operator at the front of `buf` and the bytes after it, `!` aside. */
  function DecodeOp(buf: seq<byte>): (r: Option<(Operator, seq<byte>)>)
    ensures r.Some? ==> |r.value.1| < |buf|
  {
    if |buf| < 2 || buf[0] != 2 then None
    else if buf[1] == 2 then Some((And, buf[2..]))
    else if buf[1] == 3 then Some((Or, buf[2..]))
    else if buf[1] == 4 && |buf| >= 4 then Some((Phrase(ReadI16(buf[2..])), buf[4..]))
    else None
  }

  /** The text of the tree at the front of `buf`, printed under level `outer`, and the bytes after it. */
  function Decode(buf: seq<byte>, outer: nat): (r: Option<(string, seq<byte>)>)
    ensures r.Some? ==> |r.value.1| < |buf|
    decreases |buf|, 0
  {
    if buf == [] then None
    else if buf[0] == 1 then DecodeOperand(buf)
    else if |buf| >= 2 && buf[0] == 2 && buf[1] == 1 then
      match Decode(buf[2..], 1) {
        case None => None
        case Some((operand, rest)) => Some(("!" + operand, rest))
      }
    else
      match DecodeOp(buf) {
        case None => None
        case Some((op, rest)) => DecodeOperands(op, rest, outer)
      }
  }

  function DecodeOperand(buf: seq<byte>): (r: Option<(string, seq<byte>)>)
    requires buf != []
    ensures r.Some? ==> |r.value.1| < |buf|
  {
    if |buf| < 3 || WeightOf(buf[1]).None? then None
    else
      match NulText(buf[3..]) {
        case None => None
        case Some((text, rest)) => Some((LexemeText(text, WeightOf(buf[1]).value, buf[2] == 1), rest))
      }
  }

  function DecodeOperands(op: Operator, buf: seq<byte>, outer: nat): (r: Option<(string, seq<byte>)>)
    ensures r.Some? ==> |r.value.1| < |buf|
    decreases |buf|, 1
  {
    match Decode(buf, LevelOf(op)) {
      case None => None
      case Some((right, rest)) =>
        match Decode(rest, LevelOf(op)) {
          case None => None
          case Some((left, last)) =>
            var body := left + (" " + (OpText(op) + (" " + right)));
            Some((if outer < LevelOf(op) then "(" + (body + ")") else body, last))
        }
    }
  }

  /** `TsQuery::from_sql`: a length header of four bytes, ignored, then the tree printed with nothing around it. */
  function FromSql(raw: seq<byte>): Option<string> {
    if |raw| < 4 then None
    else
      match Decode(raw[4..], 4) {
        case None => None
        case Some((text, _)) => Some(text)
      }
  }

  /** `extract_ts_query_node`, on a buffer it advances. */
  method ExtractTsQueryNode(buf: seq<byte>, preLvl: nat) returns (text: Option<string>, rest: seq<byte>)
    ensures Decode(buf, preLvl) == if text.None? then None else Some((text.value, rest))
    decreases |buf|
  {
    rest := buf;
    if buf == [] {
      return None, rest;
    }
    if buf[0] == 1 {
      text, rest := ExtractOperand(buf);
      return;
    }
    if buf[0] != 2 || |buf| < 2 {
      return None, rest;
    }
    rest := buf[2..];
    if buf[1] == 1 {
      var operand;
      operand, rest := ExtractTsQueryNode(rest, 1);
      text := if operand.None? then None else Some("!" + operand.value);
      return;
    }
    var op;
    if buf[1] == 2 {
      op := And;
    } else if buf[1] == 3 {
      op := Or;
    } else if buf[1] == 4 {
      if |rest| < 2 {
        return None, rest;
      }
      op := Phrase(ReadI16(rest));
      rest := rest[2..];
    } else {
      return None, rest;
    }
    assert DecodeOp(buf) == Some((op, rest));
    var right, afterRight := ExtractTsQueryNode(rest, LevelOf(op));
    if right.None? {
      return None, afterRight;
    }
    var left, afterLeft := ExtractTsQueryNode(afterRight, LevelOf(op));
    if left.None? {
      return None, afterLeft;
    }
    var body := left.value + (" " + (OpText(op) + (" " + right.value)));
    text := Some(if preLvl < LevelOf(op) then "(" + (body + ")") else body);
    rest := afterLeft;
  }

  method ExtractOperand(buf: seq<byte>) returns (text: Option<string>, rest: seq<byte>)
    requires buf != [] && buf[0] == 1
    ensures DecodeOperand(buf) == if text.None? then None else Some((text.value, rest))
  {
    rest := buf;
    if |buf| < 3 {
      return None, rest;
    }
    var weight := WeightOf(buf[1]);
    if weight.None? {
      return None, rest;
    }
    var prefixed := buf[2] == 1;
    rest := buf[3..];
    var nulPos := 0;
    while nulPos < |rest| && rest[nulPos] != 0
      invariant nulPos <= |rest|
      invariant Nul(rest) == nulPos + Nul(rest[nulPos..])
    {
      assert rest[nulPos..][1..] == rest[nulPos + 1..];
      nulPos := nulPos + 1;
    }
    if nulPos == |rest| {
      return None, rest;
    }
    var lexeme := DecodeUtf8(rest[..nulPos]);
    if lexeme.None? {
      return None, rest;
    }
    text := Some(LexemeText(lexeme.value, weight.value, prefixed));
    rest := rest[nulPos + 1..];
  }

  // -------------------------------------------------------------------------
  // Decoding consumes exactly the tree

  /** What PostgreSQL can send: weights A to D, no NUL inside a lexeme, distances of 15 bits. */
  predicate Sendable(q: Query) {
    match q {
      case Lexeme(text, weights, _) =>
        weights <= {'A', 'B', 'C', 'D'} && (forall i :: 0 <= i < |text| ==> text[i] != '\0')
      case Not(operand) => Sendable(operand)
      case Binary(op, left, right) => (op.Phrase? ==> 0 <= op.distance < 0x8000) && Sendable(left) && Sendable(right)
    }
  }

  /** No lexeme is restricted to two weights or more. */
  predicate SingleWeights(q: Query) {
    match q {
      case Lexeme(_, weights, _) => WeightOf(Mask(weights)).Some?
      case Not(operand) => SingleWeights(operand)
      case Binary(_, left, right) => SingleWeights(left) && SingleWeights(right)
    }
  }

  lemma {:induction false} NulAfter(text: string, rest: seq<byte>)
    requires forall i :: 0 <= i < |text| ==> text[i] != '\0'
    ensures Nul(EncodeUtf8(text) + ([0] + rest)) == |EncodeUtf8(text)|
  {
    if text == "" {
      assert EncodeUtf8(text) + ([0] + rest) == [0] + rest;
    } else {
      var c := EncodeChar(text[0]);
      var tail := EncodeUtf8(text[1..]) + ([0] + rest);
      NulAfter(text[1..], rest);
      assert text[0] as int != 0;
      SkipNonZero(c, tail);
      assert EncodeUtf8(text) + ([0] + rest) == c + tail;
    }
  }

  lemma {:induction false} SkipNonZero(a: seq<byte>, b: seq<byte>)
    requires forall i :: 0 <= i < |a| ==> a[i] != 0
    ensures Nul(a + b) == |a| + Nul(b)
  {
    if a == [] {
      assert a + b == b;
    } else {
      SkipNonZero(a[1..], b);
      assert (a + b)[1..] == a[1..] + b;
    }
  }

  lemma OperandReads(q: Query, rest: seq<byte>)
    requires q.Lexeme? && Sendable(q)
    ensures DecodeOperand(EncodeQuery(q) + rest) == if SingleWeights(q) then Some((Print(q, 4), rest)) else None
  {
    var bytes := EncodeUtf8(q.text);
    var buf := EncodeQuery(q) + rest;
    var tail := bytes + ([0] + rest);
    assert buf[3..] == tail;
    NulAfter(q.text, rest);
    Utf8RoundTrip(q.text);
    assert tail[..|bytes|] == bytes && tail[|bytes| + 1..] == rest;
  }

  lemma OpReads(op: Operator, rest: seq<byte>)
    requires op.Phrase? ==> 0 <= op.distance < 0x8000
    ensures DecodeOp(EncodeOp(op) + rest) == Some((op, rest))
    ensures var buf := EncodeOp(op) + rest; |buf| >= 2 && buf[0] == 2 && buf[1] != 1
  {
    var buf := EncodeOp(op) + rest;
    if op.Phrase? {
      assert buf[2..] == Be16(op.distance) + rest && buf[4..] == rest;
    } else {
      assert buf[2..] == rest;
    }
  }

  /**
   Decoding the bytes of any query prints that query and consumes exactly its bytes, if and only if every lexeme has at
   most one weight.
   */
  lemma {:induction false} DecodeEncode(q: Query, outer: nat, rest: seq<byte>)
    requires Sendable(q)
    ensures Decode(EncodeQuery(q) + rest, outer) == if SingleWeights(q) then Some((Print(q, outer), rest)) else None
    decreases q
  {
    var buf := EncodeQuery(q) + rest;
    match q {
      case Lexeme(_, _, _) => OperandReads(q, rest);
      case Not(operand) =>
        assert buf[2..] == EncodeQuery(operand) + rest;
        DecodeEncode(operand, 1, rest);
      case Binary(op, left, right) =>
        var leftAndRest := EncodeQuery(left) + rest;
        var operands := EncodeQuery(right) + leftAndRest;
        assert buf == EncodeOp(op) + operands;
        OpReads(op, operands);
        DecodeEncode(right, LevelOf(op), leftAndRest);
        DecodeEncode(left, LevelOf(op), rest);
    }
  }
}
