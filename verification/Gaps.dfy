/** Comments are whitespace to the classifiers of src/handlers/query.rs. */
module Gaps {
  import opened Text
  import opened Keywords

  predicate HasNewline(s: string) {
    exists i :: 0 <= i < |s| && s[i] == '\n'
  }

  /** The block comment open at `depth` closes within `s`. */
  predicate Closes(s: string, depth: nat) {
    if depth == 0 then true
    else if s == "" then false
    else if Starts(s, '*', '/') then Closes(s[2..], depth - 1)
    else if Starts(s, '/', '*') then Closes(s[2..], depth + 1)
    else Closes(s[1..], depth)
  }

  /** A complete, well-nested block comment and nothing else. */
  predicate IsBlockComment(c: string) {
    Starts(c, '/', '*') && Closes(c[2..], 1) && AfterBlock(c[2..], 1) == ""
  }

  /** A line comment and the newline that ends it. */
  predicate IsLineComment(c: string) {
    Starts(c, '-', '-') && HasNewline(c[2..]) && AfterLine(c[2..]) == ""
  }

  predicate IsGap(g: string) {
    g != "" && forall i :: 0 <= i < |g| ==> IsSpace(g[i])
  }

  /** Reading `a` ends in code: outside every comment, with no stopper met. */
  predicate EndsInCode(a: string)
    decreases |a|
  {
    if a == "" then true
    else if Starts(a, '-', '-') then HasNewline(a[2..]) && EndsInCode(AfterLine(a[2..]))
    else if Starts(a, '/', '*') then Closes(a[2..], 1) && EndsInCode(AfterBlock(a[2..], 1))
    else !IsStopper(a[0]) && EndsInCode(a[1..])
  }

  lemma {:induction false} AfterLineThen(s: string, x: string)
    requires HasNewline(s)
    ensures AfterLine(s + x) == AfterLine(s) + x
    ensures AfterLine(s) == "" ==> s[|s| - 1] == '\n'
  {
    if s[0] == '\n' {
      assert (s + x)[1..] == s[1..] + x;
    } else {
      assert (s + x)[1..] == s[1..] + x;
      var i :| 0 <= i < |s| && s[i] == '\n';
      assert s[1..][i - 1] == '\n';
      AfterLineThen(s[1..], x);
    }
  }

  lemma {:induction false} AfterBlockThen(s: string, depth: nat, x: string)
    requires depth > 0 && Closes(s, depth)
    ensures AfterBlock(s + x, depth) == AfterBlock(s, depth) + x
    ensures AfterBlock(s, depth) == "" ==> s[|s| - 1] == '/'
    decreases |s|
  {
    if Starts(s, '*', '/') {
      assert (s + x)[2..] == s[2..] + x;
      if depth > 1 {
        AfterBlockThen(s[2..], depth - 1, x);
      }
    } else if Starts(s, '/', '*') {
      assert (s + x)[2..] == s[2..] + x;
      AfterBlockThen(s[2..], depth + 1, x);
    } else {
      assert |s| > 1;
      assert (s + x)[1..] == s[1..] + x;
      AfterBlockThen(s[1..], depth, x);
    }
  }

  // One unfolding of `Code`, by the way the text begins.

  lemma CodeAtLine(s: string, tail: string)
    requires Starts(s, '-', '-') && AfterLine(s[2..]) == tail
    ensures Code(s) == " " + Code(tail)
  {
  }

  lemma CodeAtBlock(s: string, tail: string)
    requires Starts(s, '/', '*') && AfterBlock(s[2..], 1) == tail
    ensures Code(s) == " " + Code(tail)
  {
  }

  lemma CodeAtChar(s: string, c: char, tail: string)
    requires s == [c] + tail && !Starts(s, '-', '-') && !Starts(s, '/', '*') && !IsStopper(c)
    ensures Code(s) == [c] + Code(tail)
  {
    assert s[1..] == tail;
  }

  lemma CodeOfComment(c: string, b: string)
    requires IsBlockComment(c) || IsLineComment(c)
    ensures Code(c + b) == " " + Code(b)
  {
    var s := c + b;
    assert s[2..] == c[2..] + b;
    assert "" + b == b;
    if IsBlockComment(c) {
      AfterBlockThen(c[2..], 1, b);
      CodeAtBlock(s, b);
    } else {
      AfterLineThen(c[2..], b);
      CodeAtLine(s, b);
    }
  }

  /** A dash just before a line comment only makes the comment one dash longer. */
  lemma CodeOfDashedComment(c: string, b: string)
    requires IsLineComment(c)
    ensures Code("-" + c + b) == " " + Code(b)
  {
    var s := "-" + c + b;
    assert c[1..] == "-" + c[2..];
    assert s[2..] == c[1..] + b;
    var i :| 0 <= i < |c[2..]| && c[2..][i] == '\n';
    assert c[1..][i + 1] == '\n';
    AfterLineThen(c[1..], b);
    assert AfterLine(c[1..]) == AfterLine(c[1..][1..]) && c[1..][1..] == c[2..];
    assert "" + b == b;
    CodeAtLine(s, b);
  }

  lemma SpaceIsPlain(c: char)
    requires IsSpace(c)
    ensures c != '-' && c != '/' && c != '*' && !IsStopper(c) && !IsWordChar(c)
  {
  }

  lemma {:induction false} CodeOfGap(g: string, b: string)
    requires forall i :: 0 <= i < |g| ==> IsSpace(g[i])
    ensures Code(g + b) == g + Code(b)
  {
    if g == "" {
      assert g + b == b;
    } else {
      CodeOfGap(g[1..], b);
      SpaceIsPlain(g[0]);
      assert g + b == [g[0]] + (g[1..] + b);
      CodeAtChar(g + b, g[0], g[1..] + b);
    }
  }

  predicate IsBreak(g: string) {
    g != "" && forall i :: 0 <= i < |g| ==> !IsWordChar(g[i])
  }

  /** `Code` of `a + x`, one reading step into `a`: `head` is emitted and `rest` of `a` is left. */
  lemma CodeOneStep(a: string, x: string) returns (head: string, rest: string)
    requires a != "" && EndsInCode(a)
    requires x != "" && !(a == "-" && x[0] == '-') && x[0] != '*'
    ensures |rest| < |a| && EndsInCode(rest)
    ensures head == (if Starts(a, '-', '-') || Starts(a, '/', '*') then " " else a[..1])
    ensures rest == if Starts(a, '-', '-') then AfterLine(a[2..])
                    else if Starts(a, '/', '*') then AfterBlock(a[2..], 1) else a[1..]
    ensures Code(a + x) == head + Code(rest + x)
  {
    var s := a + x;
    assert |s| >= 2 && s[0] == a[0] && s[1] == if |a| > 1 then a[1] else x[0];
    if Starts(a, '-', '-') {
      head, rest := " ", AfterLine(a[2..]);
      AfterLineThen(a[2..], x);
      assert s[2..] == a[2..] + x;
      CodeAtLine(s, rest + x);
    } else if Starts(a, '/', '*') {
      head, rest := " ", AfterBlock(a[2..], 1);
      AfterBlockThen(a[2..], 1, x);
      assert s[2..] == a[2..] + x;
      CodeAtBlock(s, rest + x);
    } else {
      head, rest := a[..1], a[1..];
      assert s == [a[0]] + (rest + x);
      CodeAtChar(s, a[0], rest + x);
    }
  }

  /** After code `a`, the comment and the gap leave the same text up to one run of non-word characters. */
  lemma {:induction false} SplitAtGap(a: string, gap: string, c: string, b: string) returns (p: string, g: string)
    requires EndsInCode(a) && IsGap(gap)
    requires IsBlockComment(c) || IsLineComment(c)
    ensures IsBreak(g)
    ensures Code(a + (c + b)) == p + " " + Code(b)
    ensures Code(a + (gap + b)) == p + g + Code(b)
    decreases |a|
  {
    GapIsBreak(gap);
    CodeOfComment(c, b);
    CodeOfGap(gap, b);
    if a == "" {
      assert a + (c + b) == c + b && a + (gap + b) == gap + b;
      p, g := "", gap;
      assert p + " " == " " && p + g == g;
    } else if a == "-" && IsLineComment(c) {
      CodeOfDashedComment(c, b);
      assert a + (c + b) == "-" + c + b;
      CodeAtChar(a + (gap + b), '-', gap + b);
      p, g := "", "-" + gap;
      Regroup("-", gap, Code(b));
      assert p + " " == " " && p + g == g;
    } else {
      var head, rest := CodeOneStep(a, c + b);
      var head', rest' := CodeOneStep(a, gap + b);
      var q: string;
      q, g := SplitAtGap(rest, gap, c, b);
      p := head + q;
      Regroup(head, q + " ", Code(b));
      Regroup(head, q, " ");
      Regroup(head, q + g, Code(b));
      Regroup(head, q, g);
    }
  }

  lemma GapIsBreak(gap: string)
    requires IsGap(gap)
    ensures IsBreak(gap) && gap[0] != '-' && gap[0] != '/' && gap[0] != '*'
    ensures IsBreak("-" + gap)
  {
    forall i | 0 <= i < |gap| ensures !IsWordChar(gap[i]) {
      SpaceIsPlain(gap[i]);
    }
    SpaceIsPlain(gap[0]);
  }

  /** A run of non-word characters ends the word before it and is otherwise skipped. */
  lemma {:induction false} WordsAcrossBreak(word: string, x: string, g: string, y: string)
    requires IsBreak(g)
    ensures WordsFrom(word, x + g + y) == WordsFrom(word, x) + Words(y)
    decreases |x|, |g|
  {
    var s := x + g + y;
    if x != "" {
      assert s[1..] == x[1..] + g + y;
      if IsWordChar(x[0]) {
        WordsAcrossBreak(word + [x[0]], x[1..], g, y);
      } else {
        WordsAcrossBreak("", x[1..], g, y);
        Regroup(Flush(word), WordsFrom("", x[1..]), Words(y));
      }
    } else if |g| > 1 {
      assert s[1..] == "" + g[1..] + y;
      WordsAcrossBreak("", "", g[1..], y);
    } else {
      assert s[1..] == y;
    }
  }

  lemma UpperBreak(g: string)
    requires IsBreak(g)
    ensures IsBreak(Upper(g))
  {
  }

  lemma WordsWithComment(a: string, gap: string, c: string, b: string)
    requires EndsInCode(a) && IsGap(gap)
    requires IsBlockComment(c) || IsLineComment(c)
    ensures Words(Upper(Code(a + (c + b)))) == Words(Upper(Code(a + (gap + b))))
  {
    var p, g := SplitAtGap(a, gap, c, b);
    WordsOfSplit(p, " ", Code(b));
    WordsOfSplit(p, g, Code(b));
  }

  /**
   Putting a well-nested comment where a whitespace gap was leaves the keywords, hence both classifiers, unchanged.
   */
  lemma CommentForGap(a: string, gap: string, c: string, b: string, n: nat)
    requires EndsInCode(a) && IsGap(gap)
    requires IsBlockComment(c) || IsLineComment(c)
    ensures LeadingKeywords(a + (c + b), n) == LeadingKeywords(a + (gap + b), n)
    ensures TransactionEffect(a + (c + b)) == TransactionEffect(a + (gap + b))
    ensures SetsSessionLocalState(a + (c + b)) == SetsSessionLocalState(a + (gap + b))
  {
    WordsWithComment(a, gap, c, b);
    SameWords(a + (c + b), a + (gap + b), n);
  }

  lemma SameWords(q: string, q': string, n: nat)
    requires Words(Upper(Code(q))) == Words(Upper(Code(q')))
    ensures LeadingKeywords(q, n) == LeadingKeywords(q', n)
    ensures TransactionEffect(q) == TransactionEffect(q')
    ensures SetsSessionLocalState(q) == SetsSessionLocalState(q')
  {
  }

  lemma WordsOfSplit(p: string, g: string, t: string)
    requires IsBreak(g)
    ensures Words(Upper(p + g + t)) == Words(Upper(p)) + Words(Upper(t))
  {
    UpperOfConcat(p + g, t);
    UpperOfConcat(p, g);
    UpperBreak(g);
    WordsAcrossBreak("", Upper(p), Upper(g), Upper(t));
  }
}
