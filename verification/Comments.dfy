/**
 `strip_leading_sql_comments` and `returns_result_set` of src/handlers/query.rs, and where they agree with the keyword
 scanner.
 */
module Comments {
  import opened Text
  import opened Keywords
  import Gaps

  // What follows the first closing bracket of a block comment, wherever it stands in `s`.
  function AfterFirstClose(s: string): (r: Option<string>)
    ensures r.Some? ==> |r.value| + 2 <= |s|
  {
    if |s| < 2 then None
    else if Starts(s, '*', '/') then Some(s[2..])
    else AfterFirstClose(s[1..])
  }

  /** What `strip_leading_sql_comments` returns: block comments end at the first close, without nesting. */
  function StripLeading(s: string): (r: string)
    ensures r != "" ==> !IsSpace(r[0]) && !Starts(r, '-', '-') && !Starts(r, '/', '*')
    decreases |s|
  {
    var t := TrimStart(s);
    if Starts(t, '-', '-') then StripLeading(AfterLine(t[2..]))
    else if Starts(t, '/', '*') then
      match AfterFirstClose(t) {
        case None => ""
        case Some(rest) => StripLeading(rest)
      }
    else t
  }

  /** The text past the first newline, or `None` when there is none. */
  method FindNewline(s: string) returns (rest: Option<string>)
    ensures rest.Some? ==> rest.value == AfterLine(s) && |rest.value| < |s|
    ensures rest.None? ==> AfterLine(s) == ""
  {
    var chars := s;
    while chars != ""
      invariant |chars| <= |s|
      invariant AfterLine(chars) == AfterLine(s)
      decreases |chars|
    {
      if chars[0] == '\n' {
        return Some(chars[1..]);
      }
      chars := chars[1..];
    }
    return None;
  }

  /** The loop as written: trim, drop one leading comment, start over. */
  method StripLeadingSqlComments(query: string) returns (s: string)
    ensures s == StripLeading(query)
  {
    s := query;
    while true
      invariant StripLeading(s) == StripLeading(query)
      decreases |s|
    {
      var t := TrimStart(s);
      if Starts(t, '-', '-') {
        var rest := FindNewline(t[2..]);
        if rest.None? {
          assert StripLeading(s) == StripLeading("");
          return "";
        }
        s := rest.value;
      } else if Starts(t, '/', '*') {
        var rest := AfterFirstClose(t);
        if rest.None? {
          return "";
        }
        s := rest.value;
      } else {
        return t;
      }
    }
  }

  const ROW_KEYWORDS: seq<string> :=
    ["SELECT", "WITH", "SHOW", "EXPLAIN", "DESCRIBE", "VALUES", "TABLE", "PRAGMA", "CALL"]

  predicate StartsRows(upper: string) {
    exists i :: 0 <= i < |ROW_KEYWORDS| && StartsWith(upper, ROW_KEYWORDS[i])
  }

  predicate ReturnsResultSet(query: string) {
    StartsRows(Upper(StripLeading(query)))
  }

  // -------------------------------------------------------------------------
  // Agreement of the two scanners

  /** Inside a block comment, the first comment bracket met is a close (or there is none). */
  predicate ClosesPlainly(body: string) {
    if body == "" || Starts(body, '*', '/') then true
    else if Starts(body, '/', '*') then false
    else ClosesPlainly(body[1..])
  }

  /** No leading block comment contains an inner opening bracket or is opened by `/` `*` `/`. */
  predicate PlainLeading(s: string)
    decreases |s|
  {
    var t := TrimStart(s);
    if Starts(t, '-', '-') then PlainLeading(AfterLine(t[2..]))
    else if Starts(t, '/', '*') then
      && !Starts(t[1..], '*', '/')
      && ClosesPlainly(t[2..])
      && var rest := AfterFirstClose(t); rest.Some? ==> PlainLeading(rest.value)
    else true
  }

  lemma {:induction false} PlainCloseIsClose(body: string)
    requires ClosesPlainly(body)
    ensures AfterBlock(body, 1) == match AfterFirstClose(body) { case None => "" case Some(r) => r }
  {
    if body == "" {
    } else if Starts(body, '*', '/') {
      assert AfterBlock(body[2..], 0) == body[2..];
    } else {
      PlainCloseIsClose(body[1..]);
      assert |body| == 1 ==> body[1..] == "";
    }
  }

  lemma {:induction false} SkippedSpace(s: string)
    ensures AllWords(s) == AllWords(TrimStart(s))
  {
    if s != "" && IsSpace(s[0]) {
      Gaps.SpaceIsPlain(s[0]);
      Gaps.CodeAtChar(s, s[0], s[1..]);
      HeadBreak([s[0]], Code(s[1..]));
      SkippedSpace(s[1..]);
    }
  }

  lemma HeadBreak(g: string, t: string)
    requires Gaps.IsBreak(g)
    ensures Words(Upper(g + t)) == Words(Upper(t))
  {
    Gaps.WordsOfSplit("", g, t);
    assert "" + g == g;
  }

  /** All the keywords of a statement. */
  ghost function AllWords(s: string): seq<string> {
    Words(Upper(Code(s)))
  }

  lemma SpacedWords(s: string, rest: string)
    requires Code(s) == " " + Code(rest)
    ensures AllWords(s) == AllWords(rest)
  {
    HeadBreak(" ", Code(rest));
  }

  lemma LineDropsNoWord(t: string, rest: string)
    requires Starts(t, '-', '-') && rest == AfterLine(t[2..])
    ensures AllWords(t) == AllWords(rest)
  {
    Gaps.CodeAtLine(t, rest);
    SpacedWords(t, rest);
  }

  lemma BlockDropsNoWord(t: string, rest: string)
    requires Starts(t, '/', '*') && !Starts(t[1..], '*', '/') && ClosesPlainly(t[2..])
    requires rest == match AfterFirstClose(t) { case None => "" case Some(r) => r }
    ensures AllWords(t) == AllWords(rest)
  {
    assert t[1..][1..] == t[2..];
    PlainCloseIsClose(t[2..]);
    Gaps.CodeAtBlock(t, rest);
    SpacedWords(t, rest);
  }

  /** The comment stripper drops nothing the keyword scanner would read. */
  lemma {:induction false} StripKeepsWords(s: string)
    requires PlainLeading(s)
    ensures AllWords(s) == AllWords(StripLeading(s))
    decreases |s|
  {
    SkippedSpace(s);
    var t := TrimStart(s);
    if Starts(t, '-', '-') {
      LineDropsNoWord(t, AfterLine(t[2..]));
      StripKeepsWords(AfterLine(t[2..]));
    } else if Starts(t, '/', '*') {
      match AfterFirstClose(t) {
        case None => BlockDropsNoWord(t, "");
        case Some(rest) =>
          BlockDropsNoWord(t, rest);
          StripKeepsWords(rest);
      }
    }
  }

  /** The word characters `s` begins with. */
  function FirstWord(s: string): (w: string)
    ensures |w| <= |s| && w == s[..|w|]
    ensures forall i :: 0 <= i < |w| ==> IsWordChar(w[i])
    ensures |w| < |s| ==> !IsWordChar(s[|w|])
  {
    if s != "" && IsWordChar(s[0]) then [s[0]] + FirstWord(s[1..]) else ""
  }

  lemma {:induction false} FirstWordIsFirst(word: string, s: string)
    requires word != "" || (s != "" && IsWordChar(s[0]))
    ensures WordsFrom(word, Upper(Code(s))) != []
    ensures WordsFrom(word, Upper(Code(s)))[0] == word + Upper(FirstWord(s))
    decreases |s|
  {
    if s == "" {
      assert word + "" == word;
    } else if IsWordChar(s[0]) {
      PendingWordChar(word, s);
      FirstWordIsFirst(word + [UpperChar(s[0])], s[1..]);
      assert FirstWord(s) == [s[0]] + FirstWord(s[1..]);
      assert Upper(FirstWord(s)) == [UpperChar(s[0])] + Upper(FirstWord(s)[1..]);
      assert FirstWord(s)[1..] == FirstWord(s[1..]);
      Regroup(word, [UpperChar(s[0])], Upper(FirstWord(s[1..])));
    } else {
      PendingBreak(word, s);
      assert word + "" == word;
    }
  }

  /** With plain leading comments both scanners read the same statement, to any number of keywords. */
  lemma ScannersAgree(query: string, n: nat)
    requires PlainLeading(query)
    ensures LeadingKeywords(query, n) == LeadingKeywords(StripLeading(query), n)
    ensures var s := StripLeading(query);
            s != "" && IsWordChar(s[0]) ==> LeadingKeywords(query, 1) == [Upper(FirstWord(s))]
  {
    StripKeepsWords(query);
    var s := StripLeading(query);
    if s != "" && IsWordChar(s[0]) {
      FirstWordIsFirst("", s);
      assert "" + Upper(FirstWord(s)) == Upper(FirstWord(s));
    }
  }

  /** The first three letters of every row-returning keyword. */
  function RowHeads(): set<(char, char, char)> {
    {('S', 'E', 'L'), ('W', 'I', 'T'), ('S', 'H', 'O'), ('E', 'X', 'P'), ('D', 'E', 'S'),
     ('V', 'A', 'L'), ('T', 'A', 'B'), ('P', 'R', 'A'), ('C', 'A', 'L')}
  }

  lemma RowsHead(u: string)
    requires StartsRows(u)
    ensures |u| >= 4 && (u[0], u[1], u[2]) in RowHeads()
  {
    var i :| 0 <= i < |ROW_KEYWORDS| && StartsWith(u, ROW_KEYWORDS[i]);
    var k := ROW_KEYWORDS[i];
    assert |k| >= 4 && (k[0], k[1], k[2]) in RowHeads();
    assert u[..|k|][0] == u[0] && u[..|k|][1] == u[1] && u[..|k|][2] == u[2];
  }

  lemma LetterHead(u: string)
    requires |u| >= 3 && (u[0], u[1], u[2]) in RowHeads()
    ensures 'A' <= u[0] <= 'Z'
  {
  }

  /** A verb has other first letters than every row-returning keyword. */
  lemma VerbHead(w: string)
    requires IsTransactionVerb(w) || w == "SET" || w == "CREATE"
    ensures |w| >= 3 && (w[0], w[1], w[2]) !in RowHeads()
  {
  }

  /** A row-returning start makes a first word that is no transaction verb, no `SET` and no `CREATE`. */
  lemma RowsWord(s: string)
    requires StartsRows(Upper(s))
    ensures s != "" && IsWordChar(s[0])
    ensures var w := Upper(FirstWord(s)); !IsTransactionVerb(w) && w != "SET" && w != "CREATE"
  {
    var u := Upper(s);
    RowsHead(u);
    LetterHead(u);
    WordCharOfUpper(s[0]);
    var w := Upper(FirstWord(s));
    if IsTransactionVerb(w) || w == "SET" || w == "CREATE" {
      VerbHead(w);
      assert false;
    }
  }

  lemma WordCharOfUpper(c: char)
    requires 'A' <= UpperChar(c) <= 'Z'
    ensures IsWordChar(c)
  {
  }

  /** No statement with plain leading comments is both row-returning and transaction control, or sets session state. */
  lemma RowsAreNotControl(query: string)
    requires PlainLeading(query) && ReturnsResultSet(query)
    ensures TransactionEffect(query) == NoEffect
    ensures !SetsSessionLocalState(query)
  {
    var s := StripLeading(query);
    RowsWord(s);
    ScannersAgree(query, 6);
    ScannersAgree(query, 4);
    var words := Words(Upper(Code(query)));
    assert LeadingKeywords(query, 1)[0] == words[0] == LeadingKeywords(query, 6)[0] == LeadingKeywords(query, 4)[0];
    if TransactionEffect(query) != NoEffect {
      ControlNeedsVerb(query);
    }
  }

  // Single steps of the two ways to read a block comment.

  lemma {:induction false} PlainTextInBlock(x: string, y: string, depth: nat)
    requires depth > 0 && forall i :: 0 <= i < |x| ==> x[i] != '*' && x[i] != '/'
    ensures AfterBlock(x + y, depth) == AfterBlock(y, depth)
    ensures Gaps.Closes(x + y, depth) == Gaps.Closes(y, depth)
  {
    if x == "" {
      assert x + y == y;
    } else {
      PlainTextInBlock(x[1..], y, depth);
      assert (x + y)[1..] == x[1..] + y;
    }
  }

  lemma OpenInBlock(s: string, y: string, depth: nat)
    requires depth > 0 && s == "/*" + y
    ensures AfterBlock(s, depth) == AfterBlock(y, depth + 1)
    ensures Gaps.Closes(s, depth) == Gaps.Closes(y, depth + 1)
  {
    assert s[2..] == y;
  }

  lemma CloseInBlock(s: string, y: string, depth: nat)
    requires depth > 0 && s == "*/" + y
    ensures AfterBlock(s, depth) == AfterBlock(y, depth - 1)
    ensures Gaps.Closes(s, depth) == Gaps.Closes(y, depth - 1)
    ensures AfterFirstClose(s) == Some(y)
  {
    assert s[2..] == y;
  }

  lemma StepToClose(s: string, c: char, y: string)
    requires s == [c] + y && y != "" && !(c == '*' && y[0] == '/')
    ensures AfterFirstClose(s) == AfterFirstClose(y)
  {
    assert s[1..] == y;
  }

  lemma OpenIsNoClose(s: string, y: string)
    requires s == "/*" + y && y != "" && y[0] != '/'
    ensures AfterFirstClose(s) == AfterFirstClose(y)
  {
    assert "/*" + y == ['/'] + (['*'] + y);
    StepToClose(s, '/', ['*'] + y);
    StepToClose(['*'] + y, '*', y);
  }

  /** `b` behind one block comment that holds an empty comment and then a row-returning keyword. */
  function BehindNested(b: string): string {
    "/*" + (" " + ("/*" + ("*/" + ("CALL" + ("*/" + b)))))
  }

  lemma NestedIsOneComment(b: string)
    ensures Code(BehindNested(b)) == " " + Code(b)
  {
    var t5 := "CALL" + ("*/" + b);
    var t4 := "*/" + t5;
    var t3 := "/*" + t4;
    var t2 := " " + t3;
    PlainTextInBlock(" ", t3, 1);
    OpenInBlock(t3, t4, 1);
    CloseInBlock(t4, t5, 2);
    PlainTextInBlock("CALL", "*/" + b, 1);
    CloseInBlock("*/" + b, b, 1);
    var q := "/*" + t2;
    assert q[2..] == t2;
    Gaps.CodeAtBlock(q, b);
  }

  lemma StripAtBlock(q: string, tail: string)
    requires Starts(q, '/', '*') && AfterFirstClose(q) == Some(tail)
    ensures StripLeading(q) == StripLeading(tail)
  {
    assert TrimStart(q) == q;
  }

  lemma StripAtText(q: string)
    requires q != "" && !IsSpace(q[0]) && q[0] != '-' && q[0] != '/'
    ensures StripLeading(q) == q
  {
    assert TrimStart(q) == q;
  }

  lemma InnerOpenIsNotPlain(q: string)
    requires Starts(q, '/', '*') && |q| >= 5 && q[2] == ' ' && q[3] == '/' && q[4] == '*'
    ensures !PlainLeading(q)
  {
    assert TrimStart(q) == q;
    var body := q[2..];
    assert !Starts(body, '*', '/') && !Starts(body, '/', '*') && Starts(body[1..], '/', '*');
    assert !ClosesPlainly(body[1..]);
  }

  lemma FirstCloseOfNested(b: string)
    ensures AfterFirstClose(BehindNested(b)) == Some("CALL" + ("*/" + b))
  {
    var t5 := "CALL" + ("*/" + b);
    var t4 := "*/" + t5;
    var t3 := "/*" + t4;
    var t2 := " " + t3;
    CloseInBlock(t4, t5, 1);
    OpenIsNoClose(t3, t4);
    StepToClose(t2, ' ', t3);
    OpenIsNoClose("/*" + t2, t2);
  }

  /** The stripper ends the nested comment at the inner close. */
  lemma StripNested(b: string)
    ensures StripLeading(BehindNested(b)) == "CALL" + ("*/" + b) && !PlainLeading(BehindNested(b))
  {
    FirstCloseOfNested(b);
    StripAtBlock(BehindNested(b), "CALL" + ("*/" + b));
    StripAtText("CALL" + ("*/" + b));
    InnerOpenIsNotPlain(BehindNested(b));
  }

  /**
   Without that condition the claim fails: behind one nested comment, any statement whatever passes for row-returning.
   */
  lemma NestedCommentMisleads(b: string, n: nat)
    ensures ReturnsResultSet(BehindNested(b)) && !PlainLeading(BehindNested(b))
    ensures LeadingKeywords(BehindNested(b), n) == LeadingKeywords(b, n)
    ensures TransactionEffect(BehindNested(b)) == TransactionEffect(b)
  {
    NestedIsOneComment(b);
    HeadBreak(" ", Code(b));
    Gaps.SameWords(BehindNested(b), b, n);
    StripNested(b);
    UpperOfConcat("CALL", "*/" + b);
    assert Upper("CALL") == ROW_KEYWORDS[8];
  }

  // -------------------------------------------------------------------------
  // A statement of one word

  lemma {:induction false} Capitals(word: string, s: string)
    requires AllCapitals(s)
    ensures Code(s) == s && Upper(s) == s
    ensures WordsFrom(word, s) == if word == "" && s == "" then [] else [word + s]
    decreases |s|
  {
    if s == "" {
      assert word + s == word;
    } else {
      assert IsWordChar(s[0]) && UpperChar(s[0]) == s[0];
      Capitals(word + [s[0]], s[1..]);
      assert word + s == (word + [s[0]]) + s[1..];
      assert s == [s[0]] + s[1..];
    }
  }

  lemma SoleWord(w: string, n: nat)
    requires AllCapitals(w) && w != "" && n >= 1
    ensures LeadingKeywords(w, n) == [w] && StripLeading(w) == w && Upper(w) == w && PlainLeading(w)
  {
    Capitals("", w);
    assert "" + w == w;
    StripAtText(w);
  }

  lemma BeginOpens(w: string)
    requires w == "BEGIN"
    ensures TransactionEffect(w) == Opens
  {
    SoleWord(w, 6);
  }
}
