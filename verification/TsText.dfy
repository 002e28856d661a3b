/** From the printed characters to the tokens, and the whole way from a TSQUERY's bytes back to its tree. */
module TsText {
  import opened Text
  import opened TsQuery
  import opened TsParse
  import Bytes

  // -------------------------------------------------------------------------
  // The tokenizer

  /** The rest of a quoted lexeme: a doubled quote or any character after a backslash stands for itself. */
  function ReadQuoted(s: string): (r: Option<(string, string)>)
    ensures r.Some? ==> |r.value.0| + |r.value.1| + 1 <= |s|
  {
    if s == "" then None
    else if s[0] == '\'' && (|s| == 1 || s[1] != '\'') then Some(("", s[1..]))
    else if s[0] == '\'' then Push(s[1], ReadQuoted(s[2..]))
    else if s[0] == '\\' then (if |s| == 1 then None else Push(s[1], ReadQuoted(s[2..])))
    else Push(s[0], ReadQuoted(s[1..]))
  }

  function Push(c: char, r: Option<(string, string)>): Option<(string, string)> {
    if r.None? then None else Some(([c] + r.value.0, r.value.1))
  }

  /** Weights and `*` after the colon. */
  function ReadFlags(s: string, weights: set<char>, prefix: bool): (r: (set<char>, bool, string))
    ensures |r.2| <= |s|
  {
    if s != "" && s[0] == '*' then ReadFlags(s[1..], weights, true)
    else if s != "" && 'A' <= s[0] <= 'D' then ReadFlags(s[1..], weights + {s[0]}, prefix)
    else (weights, prefix, s)
  }

  function ReadColon(s: string): (r: (set<char>, bool, string))
    ensures |r.2| <= |s|
  {
    if s != "" && s[0] == ':' then ReadFlags(s[1..], {}, false) else ({}, false, s)
  }

  function ReadLexeme(s: string): (r: Option<(Token, string)>)
    ensures r.Some? ==> |r.value.1| < |s|
  {
    match ReadQuoted(s) {
      case None => None
      case Some((text, rest)) =>
        var (weights, prefix, after) := ReadColon(rest);
        Some((TLexeme(text, weights, prefix), after))
    }
  }

  function SpanDigits(s: string): (n: nat)
    ensures n <= |s| && AllDigits(s[..n])
  {
    if s == "" || !IsDigit(s[0]) then 0 else 1 + SpanDigits(s[1..])
  }

  /** `->` or `N>`, after the `<`. */
  function ReadPhrase(s: string): (r: Option<(Token, string)>)
    ensures r.Some? ==> |r.value.1| < |s|
  {
    var n := SpanDigits(s);
    if |s| >= 2 && s[0] == '-' && s[1] == '>' then Some((TOp(Phrase(1)), s[2..]))
    else if 0 < n < |s| && s[n] == '>' then Some((TOp(Phrase(DigitsValue(s[..n]))), s[n + 1..]))
    else None
  }

  function NextToken(s: string): (r: Option<(Token, string)>)
    requires s != ""
    ensures r.Some? ==> |r.value.1| < |s|
  {
    if s[0] == '(' then Some((TOpen, s[1..]))
    else if s[0] == ')' then Some((TClose, s[1..]))
    else if s[0] == '!' then Some((TNot, s[1..]))
    else if s[0] == '&' then Some((TOp(And), s[1..]))
    else if s[0] == '|' then Some((TOp(Or), s[1..]))
    else if s[0] == '<' then ReadPhrase(s[1..])
    else if s[0] == '\'' then ReadLexeme(s[1..])
    else None
  }

  function Tokenize(s: string): Option<seq<Token>>
    decreases |s|
  {
    if s == "" then Some([])
    else if s[0] == ' ' then Tokenize(s[1..])
    else
      match NextToken(s) {
        case None => None
        case Some((t, rest)) => Onto([t], Tokenize(rest))
      }
  }

  function Onto(front: seq<Token>, ts: Option<seq<Token>>): Option<seq<Token>> {
    if ts.None? then None else Some(front + ts.value)
  }

  /** The query a text denotes. */
  function ParseText(s: string): Option<Query> {
    match Tokenize(s) {
      case None => None
      case Some(ts) =>
        match Parse(4, ts) {
          case None => None
          case Some((q, rest)) => if rest == [] then Some(q) else None
        }
    }
  }

  // -------------------------------------------------------------------------
  // Which lexemes read back

  /** No character that quoting would have to double. */
  predicate Unquoted(text: string) {
    forall i :: 0 <= i < |text| ==> text[i] != '\'' && text[i] != '\\'
  }

  /**
   The printer doubles nothing, so a lexeme between quotes reads back as itself exactly if it has no quote or backslash.
   */
  lemma {:induction false} QuotedExactly(text: string, rest: string)
    requires rest == "" || rest[0] != '\''
    ensures ReadQuoted(text + ("'" + rest)) == Some((text, rest)) <==> Unquoted(text)
  {
    var s := text + ("'" + rest);
    if text == "" {
      assert s == "'" + rest && s[1..] == rest;
    } else {
      var tail := text[1..] + ("'" + rest);
      assert s == [text[0]] + tail && s[1..] == tail;
      QuotedExactly(text[1..], rest);
      if text[0] != '\'' && text[0] != '\\' {
        assert Unquoted(text) <==> Unquoted(text[1..]);
        assert [text[0]] + text[1..] == text;
        PushExactly(text[0], ReadQuoted(tail), text[1..], rest);
      } else {
        assert !Unquoted(text);
        assert |text| + |rest| + 1 == |s|;
      }
    }
  }

  lemma PushExactly(c: char, r: Option<(string, string)>, text: string, rest: string)
    ensures Push(c, r) == Some(([c] + text, rest)) <==> r == Some((text, rest))
  {
    if r.Some? && [c] + r.value.0 == [c] + text {
      assert r.value.0 == ([c] + r.value.0)[1..] == ([c] + text)[1..] == text;
    }
  }

  predicate Readable(q: Query) {
    match q {
      case Lexeme(text, _, _) => Unquoted(text)
      case Not(operand) => Readable(operand)
      case Binary(_, left, right) => Readable(left) && Readable(right)
    }
  }

  // -------------------------------------------------------------------------
  // Printed text is its tokens

  predicate Delimited(rest: string) {
    rest == "" || rest[0] == ' ' || rest[0] == ')'
  }

  lemma OntoOnto(a: seq<Token>, b: seq<Token>, ts: Option<seq<Token>>)
    ensures Onto(a, Onto(b, ts)) == Onto(a + b, ts)
  {
    if ts.Some? {
      assert a + (b + ts.value) == a + b + ts.value;
    }
  }

  lemma WeightSet(weights: set<char>)
    requires weights <= {'A', 'B', 'C', 'D'} && WeightOf(Mask(weights)).Some?
    ensures var w := WeightOf(Mask(weights)).value;
            |w| <= 1 && (w != "" ==> 'A' <= w[0] <= 'D') && weights == set c | c in w
  {
  }

  /** The flags as printed, read back. */
  lemma FlagsRead(w: string, rest: string, weights: set<char>, prefix: bool)
    requires |w| <= 1 && (w != "" ==> 'A' <= w[0] <= 'D') && weights == (set c | c in w) && Delimited(rest)
    ensures ReadFlags(w + rest, {}, prefix) == (weights, prefix, rest)
  {
    if w == "" {
      assert w + rest == rest;
      assert weights == {};
    } else {
      assert (w + rest)[1..] == rest;
      assert weights == {w[0]};
      assert {} + {w[0]} == {w[0]};
    }
  }

  lemma ColonTail(flags: string)
    ensures ReadColon(":" + flags) == ReadFlags(flags, {}, false)
    ensures ReadFlags("*" + flags, {}, false) == ReadFlags(flags, {}, true)
  {
    assert (":" + flags)[1..] == flags && ("*" + flags)[1..] == flags;
  }

  lemma ColonRead(w: string, prefix: bool, rest: string, weights: set<char>)
    requires |w| <= 1 && (w != "" ==> 'A' <= w[0] <= 'D') && weights == (set c | c in w) && Delimited(rest)
    ensures ReadColon(FlagsText(w, prefix) + rest) == (weights, prefix, rest)
    ensures var s := FlagsText(w, prefix) + rest; s == "" || s[0] != '\''
  {
    var s := FlagsText(w, prefix) + rest;
    FlagsRead(w, rest, weights, prefix);
    if prefix {
      assert s == ":" + ("*" + (w + rest));
      ColonTail(w + rest);
      ColonTail("*" + (w + rest));
    } else if w != "" {
      assert s == ":" + (w + rest);
      ColonTail(w + rest);
    } else {
      assert s == rest && weights == {};
    }
  }

  lemma LexemeSplits(text: string, flags: string, rest: string)
    ensures var s := "'" + (text + ("'" + flags)) + rest;
            s[0] == '\'' && s[1..] == text + ("'" + (flags + rest))
  {
    assert "'" + (text + ("'" + flags)) + rest == "'" + (text + ("'" + (flags + rest)));
  }

  lemma LexemeToken(q: Query, rest: string)
    requires q.Lexeme? && Sendable(q) && SingleWeights(q) && Unquoted(q.text) && Delimited(rest)
    ensures NextToken(Print(q, 4) + rest) == Some((TLexeme(q.text, q.weights, q.prefix), rest))
  {
    var w := Weights(q);
    WeightSet(q.weights);
    ColonRead(w, q.prefix, rest, q.weights);
    var tail := FlagsText(w, q.prefix) + rest;
    QuotedExactly(q.text, tail);
    LexemeSplits(q.text, FlagsText(w, q.prefix), rest);
  }

  lemma {:induction false} DigitsSpan(digits: string, rest: string)
    requires AllDigits(digits) && (rest == "" || !IsDigit(rest[0]))
    ensures SpanDigits(digits + rest) == |digits|
  {
    if digits == "" {
      assert digits + rest == rest;
    } else {
      DigitsSpan(digits[1..], rest);
      assert (digits + rest)[1..] == digits[1..] + rest;
    }
  }

  lemma OpToken(op: Operator, rest: string)
    requires op.Phrase? ==> op.distance >= 0
    ensures NextToken(OpText(op) + rest) == Some((TOp(op), rest)) && (OpText(op) + rest)[0] != ' '
  {
    var s := OpText(op) + rest;
    if op.Phrase? && op.distance != 1 {
      var digits := PrintNat(op.distance);
      var tail := ">" + rest;
      assert s == "<" + (digits + tail);
      assert s[1..] == digits + tail;
      DigitsSpan(digits, tail);
      PrintNatValue(op.distance);
      assert (digits + tail)[..|digits|] == digits;
      assert (digits + tail)[|digits| + 1..] == rest;
    } else if op.Phrase? {
      assert s[1..] == "->" + rest;
      assert s[1..][2..] == rest;
    } else {
      assert s[1..] == rest;
    }
  }

  lemma OneToken(c: char, t: Token, rest: string)
    requires NextToken([c] + rest) == Some((t, rest)) && c != ' '
    ensures Tokenize([c] + rest) == Onto([t], Tokenize(rest))
  {
  }

  lemma SkipSpace(s: string)
    ensures Tokenize(" " + s) == Tokenize(s)
  {
    assert (" " + s)[1..] == s;
  }

  /** ` op ` between two operands. */
  lemma SpacedOp(op: Operator, rest: string)
    requires op.Phrase? ==> op.distance >= 0
    ensures Tokenize(" " + (OpText(op) + (" " + rest))) == Onto([TOp(op)], Tokenize(rest))
  {
    var tail := " " + rest;
    OpToken(op, tail);
    SkipSpace(OpText(op) + tail);
    SkipSpace(rest);
  }

  lemma {:induction false} PrintTokens(q: Query, outer: nat, rest: string)
    requires Sendable(q) && SingleWeights(q) && Readable(q) && Delimited(rest)
    ensures Tokenize(Print(q, outer) + rest) == Onto(Tokens(q, outer), Tokenize(rest))
    decreases q, 1
  {
    match q {
      case Lexeme(_, _, _) =>
        LexemeToken(q, rest);
        assert (Print(q, outer) + rest)[0] == '\'';
      case Not(operand) =>
        assert Print(q, outer) + rest == "!" + (Print(operand, 1) + rest);
        PrintTokens(operand, 1, rest);
        var tail := Print(operand, 1) + rest;
        assert ("!" + tail)[1..] == tail;
        OneToken('!', TNot, tail);
        OntoOnto([TNot], Tokens(operand, 1), Tokenize(rest));
      case Binary(op, left, right) =>
        if outer < LevelOf(op) {
          BodyTokens(q, ")" + rest);
          InParentheses(q, outer, rest);
        } else {
          BodyTokens(q, rest);
        }
    }
  }

  lemma InParentheses(q: Query, outer: nat, rest: string)
    requires q.Binary? && outer < Level(q)
    requires Tokenize(Print(q, 4) + (")" + rest)) == Onto(Tokens(q, 4), Tokenize(")" + rest))
    ensures Tokenize(Print(q, outer) + rest) == Onto(Tokens(q, outer), Tokenize(rest))
  {
    var tail := Print(q, 4) + (")" + rest);
    assert Print(q, outer) + rest == "(" + tail;
    assert ("(" + tail)[1..] == tail && (")" + rest)[1..] == rest;
    OneToken('(', TOpen, tail);
    OneToken(')', TClose, rest);
    OntoOnto(Tokens(q, 4), [TClose], Tokenize(rest));
    OntoOnto([TOpen], Tokens(q, 4) + [TClose], Tokenize(rest));
  }

  lemma {:induction false} BodyTokens(q: Query, rest: string)
    requires q.Binary? && Sendable(q) && SingleWeights(q) && Readable(q) && Delimited(rest)
    ensures Tokenize(Print(q, 4) + rest) == Onto(Tokens(q, 4), Tokenize(rest))
    decreases q, 0
  {
    var k := LevelOf(q.op);
    var tail := Print(q.right, k) + rest;
    var middle := " " + (OpText(q.op) + (" " + tail));
    assert Print(q, 4) + rest == Print(q.left, k) + middle;
    PrintTokens(q.left, k, middle);
    SpacedOp(q.op, tail);
    PrintTokens(q.right, k, rest);
    OntoOnto([TOp(q.op)], Tokens(q.right, k), Tokenize(rest));
    OntoOnto(Tokens(q.left, k), [TOp(q.op)] + Tokens(q.right, k), Tokenize(rest));
  }

  // -------------------------------------------------------------------------
  // A lexeme that needs doubling is misread, and so is any query with one

  predicate Special(c: char) {
    c == '\'' || c == '\\'
  }

  /** Where a lexeme's closing quote is followed by anything but a quote or a backslash. */
  predicate Closed(tail: string) {
    tail == "" || !Special(tail[0])
  }

  /** Once `d` special characters have been swallowed, the reader is ahead of the text for good. */
  lemma {:induction false} NeverCatchesUp(w: string, d: nat, tail: string)
    requires 0 < d <= |w| && (forall i :: 0 <= i < d ==> Special(w[i])) && Closed(tail)
    ensures var r := ReadQuoted((w + ("'" + tail))[d..]); r.Some? ==> r.value.0 != w
    decreases |w|
  {
    var s := w + ("'" + tail);
    var r := ReadQuoted(s[d..]);
    if d < |w| && r.Some? && r.value.0 == w {
      assert s[d..][0] == w[d] && s[d..][1] == s[d + 1];
      assert s[d..][2..] == s[d + 2..];
      assert r.value.0[0] == w[0];
      PushTail(s[d + 1], ReadQuoted(s[d + 2..]), w);
      if d + 1 == |w| {
        assert s[d + 2..] == tail;
        assert ReadQuoted(tail).value.0[0] == w[1];
      } else {
        assert s[d + 1] == w[d + 1] == w[0];
        assert w[1..] + ("'" + tail) == s[1..];
        assert s[1..][d + 1..] == s[d + 2..];
        NeverCatchesUp(w[1..], d + 1, tail);
      }
    }
  }

  lemma PushTail(c: char, r: Option<(string, string)>, w: string)
    requires w != "" && Push(c, r).Some? && Push(c, r).value.0 == w
    ensures c == w[0] && r.Some? && r.value.0 == w[1..]
  {
  }

  lemma {:induction false} SpecialMisreads(text: string, tail: string)
    requires !Unquoted(text) && Closed(tail)
    ensures var r := ReadQuoted(text + ("'" + tail)); r.Some? ==> r.value.0 != text
  {
    var w := text[1..];
    var rest := w + ("'" + tail);
    var s := text + ("'" + tail);
    assert s[1..] == rest && (w == "" ==> rest[1..] == tail);
    var r := ReadQuoted(s);
    if r.Some? && r.value.0 == text {
      if !Special(text[0]) {
        PushTail(text[0], ReadQuoted(rest), text);
        assert !Unquoted(w);
        SpecialMisreads(w, tail);
      } else {
        assert s[2..] == rest[1..] && s[1] == rest[0];
        PushTail(s[1], ReadQuoted(rest[1..]), text);
        if w != "" {
          NeverCatchesUp(w, 1, tail);
        }
      }
    }
  }

  /** These lexemes do not begin the tokens read. */
  predicate Misses(leaves: seq<string>, ts: Option<seq<Token>>) {
    ts.Some? ==> !(leaves <= LexemeTexts(ts.value))
  }

  lemma MissesAfter(front: seq<Token>, leaves: seq<string>, ts: Option<seq<Token>>)
    requires Misses(leaves, ts)
    ensures Misses(LexemeTexts(front) + leaves, Onto(front, ts))
  {
    if ts.Some? {
      TextsConcat(front, ts.value);
      PrefixBehind(LexemeTexts(front), leaves, LexemeTexts(ts.value));
    }
  }

  lemma PrefixBehind(front: seq<string>, a: seq<string>, b: seq<string>)
    ensures front + a <= front + b <==> a <= b
  {
    assert (front + a)[|front|..] == a && (front + b)[|front|..] == b;
  }

  lemma MissesBefore(leaves: seq<string>, more: seq<string>, ts: Option<seq<Token>>)
    requires Misses(leaves, ts)
    ensures Misses(leaves + more, ts)
  {
    assert leaves == (leaves + more)[..|leaves|];
  }

  lemma LexemeMisread(q: Query, rest: string)
    requires q.Lexeme? && !Unquoted(q.text) && Delimited(rest)
    ensures Misses(Leaves(q), Tokenize(Print(q, 4) + rest))
  {
    var flags := FlagsText(Weights(q), q.prefix);
    var s := Print(q, 4) + rest;
    LexemeSplits(q.text, flags, rest);
    assert flags == "" || flags[0] == ':';
    SpecialMisreads(q.text, flags + rest);
    match NextToken(s) {
      case None =>
      case Some((t, after)) =>
        if Tokenize(s).Some? {
          assert LexemeTexts([t]) == [t.text];
          TextsConcat([t], Tokenize(after).value);
          assert LexemeTexts(Tokenize(s).value)[0] == t.text != q.text;
        }
    }
  }

  lemma MarkMisread(c: char, t: Token, leaves: seq<string>, rest: string)
    requires (c == '!' && t == TNot) || (c == '(' && t == TOpen)
    requires Misses(leaves, Tokenize(rest))
    ensures Misses(leaves, Tokenize([c] + rest))
  {
    assert ([c] + rest)[1..] == rest;
    OneToken(c, t, rest);
    MissesAfter([t], leaves, Tokenize(rest));
  }

  /** A misread operand behind the tokens of the other one and the operator. */
  lemma RightMisread(left: Query, level: nat, op: Operator, leaves: seq<string>, s: string, middle: string,
                     tail: string)
    requires Tokenize(s) == Onto(Tokens(left, level), Tokenize(middle))
    requires Tokenize(middle) == Onto([TOp(op)], Tokenize(tail))
    requires Misses(leaves, Tokenize(tail))
    ensures Misses(Leaves(left) + leaves, Tokenize(s))
  {
    MissesAfter([TOp(op)], leaves, Tokenize(tail));
    TextsOfTokens(left, level);
    MissesAfter(Tokens(left, level), leaves, Tokenize(middle));
  }

  /** The printed text never gives the lexemes back, if one of them needs doubling. */
  lemma {:induction false} Misread(q: Query, outer: nat, rest: string)
    requires Sendable(q) && SingleWeights(q) && !Readable(q) && Delimited(rest)
    ensures Misses(Leaves(q), Tokenize(Print(q, outer) + rest))
    decreases q, 1
  {
    match q {
      case Lexeme(_, _, _) => LexemeMisread(q, rest);
      case Not(operand) =>
        Misread(operand, 1, rest);
        assert Print(q, outer) + rest == "!" + (Print(operand, 1) + rest);
        MarkMisread('!', TNot, Leaves(operand), Print(operand, 1) + rest);
      case Binary(op, _, _) =>
        if outer < LevelOf(op) {
          var tail := Print(q, 4) + (")" + rest);
          BodyMisread(q, ")" + rest);
          assert Print(q, outer) + rest == "(" + tail;
          MarkMisread('(', TOpen, Leaves(q), tail);
        } else {
          BodyMisread(q, rest);
        }
    }
  }

  lemma {:induction false} BodyMisread(q: Query, rest: string)
    requires q.Binary? && Sendable(q) && SingleWeights(q) && !Readable(q) && Delimited(rest)
    ensures Misses(Leaves(q), Tokenize(Print(q, 4) + rest))
    decreases q, 0
  {
    var k := LevelOf(q.op);
    var tail := Print(q.right, k) + rest;
    var middle := " " + (OpText(q.op) + (" " + tail));
    assert Print(q, 4) + rest == Print(q.left, k) + middle;
    if !Readable(q.left) {
      Misread(q.left, k, middle);
      MissesBefore(Leaves(q.left), Leaves(q.right), Tokenize(Print(q.left, k) + middle));
    } else {
      PrintTokens(q.left, k, middle);
      SpacedOp(q.op, tail);
      Misread(q.right, k, rest);
      RightMisread(q.left, k, q.op, Leaves(q.right), Print(q.left, k) + middle, middle, tail);
    }
  }

  // -------------------------------------------------------------------------
  // The theorems

  /**
   The printed text denotes the query, runs grouped to the left, if and only if no lexeme has a quote or a backslash.
   */
  lemma ReadsBackExactly(q: Query)
    requires Sendable(q) && SingleWeights(q)
    ensures ParseText(Print(q, 4)) == Some(Canon(q)) <==> Readable(q)
  {
    assert Print(q, 4) + "" == Print(q, 4);
    if Readable(q) {
      PrintTokens(q, 4, "");
      assert Tokens(q, 4) + [] == Tokens(q, 4);
      ParsesBack(q);
    } else if ParseText(Print(q, 4)) == Some(Canon(q)) {
      var ts := Tokenize(Print(q, 4)).value;
      ParseLeaves(4, ts);
      CanonLeaves(q);
      Misread(q, 4, "");
    }
  }

  /**
   From bytes to text to tree: the decoder consumes the whole value, and its text reads back as the same tree with runs
   grouped to the left.
   */
  lemma TextReadsBack(q: Query, header: seq<Bytes.byte>)
    requires Sendable(q) && SingleWeights(q) && Readable(q) && |header| == 4
    ensures Decode(EncodeQuery(q), 4) == Some((Print(q, 4), []))
    ensures FromSql(header + EncodeQuery(q)) == Some(Print(q, 4)) && ParseText(Print(q, 4)) == Some(Canon(q))
    ensures Norm(Canon(q)) == Norm(q) <==> RightPhrases(q) == 0
  {
    DecodeEncode(q, 4, []);
    assert EncodeQuery(q) + [] == EncodeQuery(q);
    assert (header + EncodeQuery(q))[4..] == EncodeQuery(q);
    ReadsBackExactly(q);
    RegroupedExactly(q);
  }
}
