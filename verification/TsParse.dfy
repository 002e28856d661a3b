/**
 Reading TSQUERY text back, under the precedence of section 8.11.2 of the PostgreSQL documentation: `!` binds
 most tightly, then `<->`, then `&`, then `|`, and equal operators group to the left. Quotes and backslashes
 inside a quoted lexeme are doubled.
 */
module TsParse {
  import opened Text
  import opened TsQuery

  // -------------------------------------------------------------------------
  // Trees and grouping

  /** `x op y`, as left-to-right reading groups it when `y` is a run of operators of the same level. */
  function Graft(op: Operator, x: Query, y: Query): (q: Query)
    ensures q.Binary? && Level(q) == LevelOf(if y.Binary? && LevelOf(y.op) == LevelOf(op) then y.op else op)
    ensures Level(q) == LevelOf(op)
  {
    if y.Binary? && LevelOf(y.op) == LevelOf(op) then Binary(y.op, Graft(op, x, y.left), y.right) else Binary(op, x, y)
  }

  /** The tree with every run of operators of one level grouped to the left. */
  function Canon(q: Query): (c: Query)
    ensures Level(c) == Level(q)
  {
    match q {
      case Lexeme(_, _, _) => q
      case Not(operand) => Not(Canon(operand))
      case Binary(op, left, right) => Graft(op, Canon(left), Canon(right))
    }
  }

  /** The tree with runs of `&` and of `|` grouped to the left, phrases left as they are. */
  function Norm(q: Query): (c: Query)
    ensures Level(c) == Level(q)
  {
    match q {
      case Lexeme(_, _, _) => q
      case Not(operand) => Not(Norm(operand))
      case Binary(op, left, right) =>
        if op.Phrase? then Binary(op, Norm(left), Norm(right)) else Graft(op, Norm(left), Norm(right))
    }
  }

  /** How many phrases have a phrase as their right operand. */
  function RightPhrases(q: Query): nat {
    match q {
      case Lexeme(_, _, _) => 0
      case Not(operand) => RightPhrases(operand)
      case Binary(op, left, right) =>
        RightPhrases(left) + RightPhrases(right) + (if op.Phrase? && Level(right) == 2 then 1 else 0)
    }
  }

  lemma {:induction false} GraftAssociates(op: Operator, op2: Operator, x: Query, y: Query, z: Query)
    requires LevelOf(op) == LevelOf(op2)
    ensures Graft(op, x, Graft(op2, y, z)) == Graft(op2, Graft(op, x, y), z)
    decreases z
  {
    if z.Binary? && LevelOf(z.op) == LevelOf(op2) {
      GraftAssociates(op, op2, x, y, z.left);
    }
  }

  lemma {:induction false} NormOfGraft(op: Operator, x: Query, y: Query)
    requires !op.Phrase?
    ensures Norm(Graft(op, x, y)) == Graft(op, Norm(x), Norm(y))
    decreases y
  {
    if y.Binary? && LevelOf(y.op) == LevelOf(op) {
      NormOfGraft(op, x, y.left);
      GraftAssociates(op, y.op, Norm(x), Norm(y.left), Norm(y.right));
    }
  }

  lemma {:induction false} GraftPhrases(op: Operator, x: Query, y: Query)
    ensures !op.Phrase? ==> RightPhrases(Graft(op, x, y)) == RightPhrases(x) + RightPhrases(y)
    ensures op.Phrase? && RightPhrases(x) == 0 && RightPhrases(y) == 0 ==> RightPhrases(Graft(op, x, y)) == 0
    decreases y
  {
    if y.Binary? && LevelOf(y.op) == LevelOf(op) {
      GraftPhrases(op, x, y.left);
    }
  }

  lemma {:induction false} NormKeepsPhrases(q: Query)
    ensures RightPhrases(Norm(q)) == RightPhrases(q)
  {
    match q {
      case Lexeme(_, _, _) =>
      case Not(operand) => NormKeepsPhrases(operand);
      case Binary(op, left, right) =>
        NormKeepsPhrases(left);
        NormKeepsPhrases(right);
        GraftPhrases(op, Norm(left), Norm(right));
    }
  }

  lemma {:induction false} CanonHasNone(q: Query)
    ensures RightPhrases(Canon(q)) == 0
  {
    match q {
      case Lexeme(_, _, _) =>
      case Not(operand) => CanonHasNone(operand);
      case Binary(op, left, right) =>
        CanonHasNone(left);
        CanonHasNone(right);
        GraftPhrases(op, Canon(left), Canon(right));
    }
  }

  lemma {:induction false} NormOfCanon(q: Query)
    requires RightPhrases(q) == 0
    ensures Norm(Canon(q)) == Norm(q)
  {
    match q {
      case Lexeme(_, _, _) =>
      case Not(operand) => NormOfCanon(operand);
      case Binary(op, left, right) =>
        NormOfCanon(left);
        NormOfCanon(right);
        if !op.Phrase? {
          NormOfGraft(op, Canon(left), Canon(right));
        }
    }
  }

  /**
   Grouping everything to the left only regroups runs of `&` and `|`, if and only if no phrase is the right operand of a
   phrase.
   */
  lemma RegroupedExactly(q: Query)
    ensures Norm(Canon(q)) == Norm(q) <==> RightPhrases(q) == 0
  {
    if RightPhrases(q) == 0 {
      NormOfCanon(q);
    } else {
      CanonHasNone(q);
      NormKeepsPhrases(Canon(q));
      NormKeepsPhrases(q);
    }
  }

  // -------------------------------------------------------------------------
  // Tokens

  datatype Token = TLexeme(text: string, weights: set<char>, prefix: bool) | TNot | TOp(op: Operator) | TOpen | TClose

  /** The tokens of the text of `q` under level `outer`. */
  function Tokens(q: Query, outer: nat): seq<Token> {
    match q {
      case Lexeme(text, weights, prefix) => [TLexeme(text, weights, prefix)]
      case Not(operand) => [TNot] + Tokens(operand, 1)
      case Binary(op, left, right) =>
        var body := Tokens(left, LevelOf(op)) + ([TOp(op)] + Tokens(right, LevelOf(op)));
        if outer < LevelOf(op) then [TOpen] + (body + [TClose]) else body
    }
  }

  // -------------------------------------------------------------------------
  // The parser: one level calls the next stronger one, and loops over its own operators

  /** An expression of operators no weaker than `level`, and the tokens after it. */
  function Parse(level: nat, ts: seq<Token>): (r: Option<(Query, seq<Token>)>)
    ensures r.Some? ==> |r.value.1| < |ts|
    decreases |ts|, level + 1
  {
    if level <= 1 then ParseUnary(ts)
    else
      match Parse(level - 1, ts) {
        case None => None
        case Some((x, rest)) => ParseMore(level, x, rest)
      }
  }

  /** `x` and the operators of this very level that follow it. */
  function ParseMore(level: nat, x: Query, ts: seq<Token>): (r: Option<(Query, seq<Token>)>)
    ensures r.Some? ==> |r.value.1| <= |ts|
    decreases |ts|, level + 1
  {
    if level > 1 && ts != [] && ts[0].TOp? && LevelOf(ts[0].op) == level then
      match Parse(level - 1, ts[1..]) {
        case None => None
        case Some((y, rest)) => ParseMore(level, Binary(ts[0].op, x, y), rest)
      }
    else Some((x, ts))
  }

  function ParseUnary(ts: seq<Token>): (r: Option<(Query, seq<Token>)>)
    ensures r.Some? ==> |r.value.1| < |ts|
    decreases |ts|, 0
  {
    if ts == [] then None
    else
      match ts[0] {
        case TLexeme(text, weights, prefix) => Some((Lexeme(text, weights, prefix), ts[1..]))
        case TNot =>
          (match ParseUnary(ts[1..]) {
             case None => None
             case Some((x, rest)) => Some((Not(x), rest))
           })
        case TOpen =>
          (match Parse(4, ts[1..]) {
             case None => None
             case Some((x, rest)) => if rest != [] && rest[0] == TClose then Some((x, rest[1..])) else None
           })
        case _ => None
      }
  }

  /** Nothing stronger than `level` follows. */
  predicate Ends(level: nat, rest: seq<Token>) {
    rest != [] && rest[0].TOp? ==> LevelOf(rest[0].op) >= level
  }

  lemma Parenthesized(q: Query, outer: nat, rest: seq<Token>)
    requires q.Binary? && outer < Level(q)
    ensures Tokens(q, outer) + rest == [TOpen] + (Tokens(q, 4) + ([TClose] + rest))
  {
  }

  lemma Split(q: Query, level: nat, rest: seq<Token>)
    requires q.Binary? && Level(q) == level
    ensures Tokens(q, level) + rest == Tokens(q.left, level) + ([TOp(q.op)] + (Tokens(q.right, level) + rest))
  {
  }

  /** Reading an operand at `level` gives its canonical tree and goes on with what follows it. */
  lemma {:induction false} ParseTokens(q: Query, level: nat, rest: seq<Token>)
    requires 1 <= level <= 4 && Ends(level, rest)
    ensures Parse(level, Tokens(q, level) + rest) == ParseMore(level, Canon(q), rest)
    decreases q, 1, level
  {
    if level == 1 {
      ParseAtom(q, rest);
    } else if Level(q) == level {
      Split(q, level, rest);
      ParseTokens(q.left, level, [TOp(q.op)] + (Tokens(q.right, level) + rest));
      ParseOperand(q.op, Canon(q.left), q.right, level, rest);
    } else {
      assert Tokens(q, level) == Tokens(q, level - 1);
      ParseTokens(q, level - 1, rest);
    }
  }

  lemma {:induction false} ParseAtom(q: Query, rest: seq<Token>)
    ensures ParseUnary(Tokens(q, 1) + rest) == Some((Canon(q), rest))
    decreases q, 1, 0
  {
    var ts := Tokens(q, 1) + rest;
    match q {
      case Lexeme(_, _, _) => assert ts[1..] == rest;
      case Not(operand) =>
        assert ts[1..] == Tokens(operand, 1) + rest;
        ParseAtom(operand, rest);
      case Binary(op, _, _) =>
        Parenthesized(q, 1, rest);
        var after := [TClose] + rest;
        assert ts[1..] == Tokens(q, 4) + after;
        ParseInside(q, after);
        assert after[1..] == rest;
    }
  }

  /** A whole expression up to the closing parenthesis or the end. */
  lemma {:induction false} ParseInside(q: Query, rest: seq<Token>)
    requires q.Binary? && (rest == [] || rest[0] == TClose)
    ensures Parse(4, Tokens(q, 4) + rest) == Some((Canon(q), rest))
    decreases q, 0, 0
  {
    var k := Level(q);
    Split(q, k, rest);
    assert Tokens(q, k) == Tokens(q, 4);
    ParseTokens(q.left, k, [TOp(q.op)] + (Tokens(q.right, k) + rest));
    ParseOperand(q.op, Canon(q.left), q.right, k, rest);
    assert Parse(k, Tokens(q, k) + rest) == Some((Canon(q), rest));
    assert k < 4 ==> Parse(3, Tokens(q, k) + rest) == Some((Canon(q), rest));
  }

  /** Reading `op q` after `x` extends `x` to the left-grouped run. */
  lemma {:induction false} ParseOperand(op: Operator, x: Query, q: Query, level: nat, rest: seq<Token>)
    requires LevelOf(op) == level && Ends(level, rest)
    ensures ParseMore(level, x, [TOp(op)] + (Tokens(q, level) + rest)) == ParseMore(level, Graft(op, x, Canon(q)), rest)
    decreases q, 2, level
  {
    var ts := [TOp(op)] + (Tokens(q, level) + rest);
    if Level(q) == level {
      var after := [TOp(q.op)] + (Tokens(q.right, level) + rest);
      Split(q, level, rest);
      ParseOperand(op, x, q.left, level, after);
      ParseOperand(q.op, Graft(op, x, Canon(q.left)), q.right, level, rest);
      GraftAssociates(op, q.op, x, Canon(q.left), Canon(q.right));
    } else {
      assert ts[1..] == Tokens(q, level) + rest;
      assert Tokens(q, level) == Tokens(q, level - 1);
      ParseTokens(q, level - 1, rest);
    }
  }

  /** The tokens of any query, read back, are that query with its runs grouped to the left. */
  lemma ParsesBack(q: Query)
    ensures Parse(4, Tokens(q, 4)) == Some((Canon(q), []))
  {
    ParseTokens(q, 4, []);
    assert Tokens(q, 4) + [] == Tokens(q, 4);
  }

  // -------------------------------------------------------------------------
  // The parser reads every lexeme once, in order

  /** The lexemes of a query, left to right. */
  function Leaves(q: Query): (leaves: seq<string>)
    ensures leaves != []
  {
    match q {
      case Lexeme(text, _, _) => [text]
      case Not(operand) => Leaves(operand)
      case Binary(_, left, right) => Leaves(left) + Leaves(right)
    }
  }

  function LexemeTexts(ts: seq<Token>): seq<string> {
    if ts == [] then [] else (if ts[0].TLexeme? then [ts[0].text] else []) + LexemeTexts(ts[1..])
  }

  lemma {:induction false} TextsConcat(a: seq<Token>, b: seq<Token>)
    ensures LexemeTexts(a + b) == LexemeTexts(a) + LexemeTexts(b)
  {
    if a == [] {
      assert a + b == b;
    } else {
      TextsConcat(a[1..], b);
      assert (a + b)[1..] == a[1..] + b;
    }
  }

  lemma {:induction false} TextsOfTokens(q: Query, outer: nat)
    ensures LexemeTexts(Tokens(q, outer)) == Leaves(q)
  {
    match q {
      case Lexeme(text, weights, prefix) => assert LexemeTexts([TLexeme(text, weights, prefix)]) == [text];
      case Not(operand) => TextsOfTokens(operand, 1);
      case Binary(op, left, right) =>
        var k := LevelOf(op);
        TextsOfTokens(left, k);
        TextsOfTokens(right, k);
        BodyTexts(Tokens(left, k), op, Tokens(right, k));
    }
  }

  lemma BodyTexts(left: seq<Token>, op: Operator, right: seq<Token>)
    ensures var body := left + ([TOp(op)] + right);
            LexemeTexts(body) == LexemeTexts([TOpen] + (body + [TClose])) == LexemeTexts(left) + LexemeTexts(right)
  {
    TextsConcat([TOp(op)], right);
    TextsConcat(left, [TOp(op)] + right);
    var body := left + ([TOp(op)] + right);
    TextsConcat(body, [TClose]);
    TextsConcat([TOpen], body + [TClose]);
  }

  lemma {:induction false} GraftLeaves(op: Operator, x: Query, y: Query)
    ensures Leaves(Graft(op, x, y)) == Leaves(x) + Leaves(y)
    decreases y
  {
    if y.Binary? && LevelOf(y.op) == LevelOf(op) {
      GraftLeaves(op, x, y.left);
    }
  }

  lemma {:induction false} CanonLeaves(q: Query)
    ensures Leaves(Canon(q)) == Leaves(q)
  {
    match q {
      case Lexeme(_, _, _) =>
      case Not(operand) => CanonLeaves(operand);
      case Binary(op, left, right) =>
        CanonLeaves(left);
        CanonLeaves(right);
        GraftLeaves(op, Canon(left), Canon(right));
    }
  }

  /** Whatever an expression is read from, its lexemes are those of the tokens it consumed. */
  lemma {:induction false} ParseLeaves(level: nat, ts: seq<Token>)
    requires Parse(level, ts).Some?
    ensures var (x, rest) := Parse(level, ts).value; LexemeTexts(ts) == Leaves(x) + LexemeTexts(rest)
    decreases |ts|, level + 1
  {
    if level <= 1 {
      ParseUnaryLeaves(ts);
    } else {
      ParseLeaves(level - 1, ts);
      var (x, rest) := Parse(level - 1, ts).value;
      ParseMoreLeaves(level, x, rest);
    }
  }

  lemma {:induction false} ParseMoreLeaves(level: nat, x: Query, ts: seq<Token>)
    requires ParseMore(level, x, ts).Some?
    ensures var (y, rest) := ParseMore(level, x, ts).value; Leaves(x) + LexemeTexts(ts) == Leaves(y) + LexemeTexts(rest)
    decreases |ts|, level + 1
  {
    if level > 1 && ts != [] && ts[0].TOp? && LevelOf(ts[0].op) == level {
      ParseLeaves(level - 1, ts[1..]);
      var (y, rest) := Parse(level - 1, ts[1..]).value;
      ParseMoreLeaves(level, Binary(ts[0].op, x, y), rest);
      Regrouped(Leaves(x), Leaves(y), LexemeTexts(rest), LexemeTexts(ts));
    }
  }

  lemma Regrouped(x: seq<string>, y: seq<string>, rest: seq<string>, read: seq<string>)
    requires read == [] + (y + rest)
    ensures x + read == (x + y) + rest
  {
  }

  lemma {:induction false} ParseUnaryLeaves(ts: seq<Token>)
    requires ParseUnary(ts).Some?
    ensures var (x, rest) := ParseUnary(ts).value; LexemeTexts(ts) == Leaves(x) + LexemeTexts(rest)
    decreases |ts|, 0
  {
    if ts[0].TNot? {
      ParseUnaryLeaves(ts[1..]);
    } else if ts[0].TOpen? {
      ParseLeaves(4, ts[1..]);
    }
  }
}
