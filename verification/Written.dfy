/** Queries as users write them: LIMIT and OFFSET clauses in any case and spacing, with or without semicolons. */
module Written {
  import opened Text
  import opened Pagination
  import opened Pages

  /** Whitespace, the keyword in some case, whitespace, a number of up to 64 bits. */
  datatype UserClause = UserClause(gap: string, word: string, between: string, number: nat)

  predicate AllSpace(g: string) {
    forall i :: 0 <= i < |g| ==> IsSpace(g[i])
  }

  predicate IsClause(c: UserClause, keyword: string) {
    && c.gap != "" && AllSpace(c.gap) && c.between != "" && AllSpace(c.between)
    && Upper(c.word) == keyword && c.number <= U64_MAX
  }

  function ClauseText(c: UserClause): string {
    c.gap + (c.word + (c.between + PrintNat(c.number)))
  }

  function OptText(c: Option<UserClause>): string {
    if c.None? then "" else ClauseText(c.value)
  }

  /** Whitespace, semicolons, whitespace. */
  datatype Ending = Ending(before: string, semicolons: nat, after: string)

  function Semicolons(n: nat): string {
    if n == 0 then "" else ";" + Semicolons(n - 1)
  }

  function EndingText(e: Ending): string {
    e.before + (Semicolons(e.semicolons) + e.after)
  }

  function QueryText(base: string, limit: Option<UserClause>, offset: Option<UserClause>, e: Ending): string {
    ClausesText(base, limit, offset) + EndingText(e)
  }

  /** The last two words of the text are the keyword and a number. */
  predicate EndsIn(base: string, keyword: string) {
    var words := SplitWhitespace(base);
    var n := |words|;
    n >= 2 && Upper(words[n - 2]) == keyword && ParseUnsigned(words[n - 1], U64_MAX).Some?
  }

  /**
   The text before the clauses is trimmed; where a clause is missing, the text does not end in one; and without any
   clause it does not end in a semicolon.
   */
  predicate IsQuery(base: string, limit: Option<UserClause>, offset: Option<UserClause>, e: Ending) {
    && TrimEnd(base) == base && AllSpace(e.before) && AllSpace(e.after)
    && (limit.Some? ==> IsClause(limit.value, "LIMIT")) && (offset.Some? ==> IsClause(offset.value, "OFFSET"))
    && (limit.None? ==> !EndsIn(base, "LIMIT"))
    && (limit.None? && offset.None? ==> !EndsIn(base, "OFFSET") && (base != "" ==> base[|base| - 1] != ';'))
  }

  // -------------------------------------------------------------------------
  // The ending goes

  lemma {:induction false} TrimEndGap(t: string, g: string)
    requires AllSpace(g)
    ensures TrimEnd(t + g) == TrimEnd(t)
  {
    if g == "" {
      assert t + g == t;
    } else {
      var n := |g| - 1;
      TrimEndGap(t, g[..n]);
      assert (t + g)[..|t + g| - 1] == t + g[..n];
    }
  }

  lemma {:induction false} TrimSemis(t: string, n: nat)
    ensures TrimSemicolons(t + Semicolons(n)) == TrimSemicolons(t)
  {
    if n == 0 {
      assert t + Semicolons(0) == t;
    } else {
      SemisSnoc(n - 1);
      assert t + Semicolons(n) == t + Semicolons(n - 1) + ";";
      assert (t + Semicolons(n - 1) + ";")[..|t + Semicolons(n - 1)|] == t + Semicolons(n - 1);
      TrimSemis(t, n - 1);
    }
  }

  lemma {:induction false} SemisSnoc(n: nat)
    ensures Semicolons(n + 1) == Semicolons(n) + ";"
  {
    if n > 0 {
      SemisSnoc(n - 1);
      assert ";" + (Semicolons(n - 1) + ";") == ";" + Semicolons(n - 1) + ";";
    } else {
      assert Semicolons(1) == ";" + Semicolons(0);
    }
  }

  /** Ends in a letter, as it were: nothing to trim. */
  predicate Firm(t: string) {
    t != "" ==> !IsSpace(t[|t| - 1]) && t[|t| - 1] != ';'
  }

  lemma FirmStays(t: string)
    requires Firm(t)
    ensures TrimEnd(t) == t && TrimSemicolons(t) == t
  {
  }

  lemma SemisStay(u: string, n: nat)
    requires n > 0
    ensures TrimEnd(u + Semicolons(n)) == u + Semicolons(n)
  {
    SemisSnoc(n - 1);
    var w := u + Semicolons(n);
    assert w[|w| - 1] == Semicolons(n)[|Semicolons(n)| - 1] == ';';
  }

  /** Under the semicolons there is at most whitespace. */
  lemma UnderSemis(t: string, before: string)
    requires Firm(t) && AllSpace(before)
    ensures TrimEnd(TrimSemicolons(t + before)) == t
  {
    FirmStays(t);
    TrimEndGap(t, before);
    if before == "" {
      assert t + before == t;
    } else {
      var u := t + before;
      assert u[|u| - 1] == before[|before| - 1];
    }
  }

  lemma Nest(t: string, a: string, b: string, c: string)
    ensures t + (a + (b + c)) == ((t + a) + b) + c
  {
  }

  lemma EndingGoes(t: string, e: Ending)
    requires AllSpace(e.before) && AllSpace(e.after) && Firm(t)
    ensures Trimmed(t + EndingText(e)) == t
  {
    Nest(t, e.before, Semicolons(e.semicolons), e.after);
    SemisGo(t, e.before, e.semicolons, e.after);
  }

  lemma SemisGo(t: string, before: string, n: nat, after: string)
    requires AllSpace(before) && AllSpace(after) && Firm(t)
    ensures Trimmed(((t + before) + Semicolons(n)) + after) == t
  {
    var u := t + before;
    TrimEndGap(u + Semicolons(n), after);
    if n == 0 {
      assert u + Semicolons(0) == u;
      TrimEndGap(t, before);
      FirmStays(t);
    } else {
      SemisStay(u, n);
      TrimSemis(u, n);
      UnderSemis(t, before);
    }
  }

  // -------------------------------------------------------------------------
  // The clauses are two tokens each

  lemma {:induction false} GapSkipped(s: string, i: nat, j: nat)
    requires i <= j <= |s| && forall k :: i <= k < j ==> IsSpace(s[k])
    ensures TokensFrom(s, i) == TokensFrom(s, j)
    decreases j - i
  {
    if i < j {
      GapSkipped(s, i + 1, j);
    }
  }

  lemma WordAt(s: string, i: nat, w: string)
    requires i + |w| <= |s| && Solid(w) && OccursAt(s, w, i) && (i + |w| < |s| ==> IsSpace(s[i + |w|]))
    ensures TokensFrom(s, i) == [Token(w, i)] + TokensFrom(s, i + |w|)
  {
    forall k | i <= k < i + |w| ensures !IsSpace(s[k]) {
      assert s[k] == s[i..i + |w|][k - i];
    }
    RunOf(s, i, i + |w|);
  }

  lemma LettersAreSolid(w: string, u: string)
    requires u == Upper(w) && AllCapitals(u) && u != ""
    ensures Solid(w)
  {
    forall k | 0 <= k < |w| ensures !IsSpace(w[k]) {
      assert u[k] == UpperChar(w[k]);
    }
  }

  function ClauseTokens(c: UserClause, i: nat): seq<Token> {
    [Token(c.word, i + |c.gap|), Token(PrintNat(c.number), i + |c.gap| + |c.word| + |c.between|)]
  }

  lemma ClauseSlices(s: string, i: nat, c: UserClause)
    requires i <= |s| && s[i..] == ClauseText(c)
    ensures var a := i + |c.gap|; var b := a + |c.word|; var d := b + |c.between|;
            && |s| == d + |PrintNat(c.number)| && s[i..a] == c.gap && s[a..b] == c.word && s[b..d] == c.between
            && s[d..] == PrintNat(c.number)
  {
    var t, n := s[i..], PrintNat(c.number);
    var a, b, d := |c.gap|, |c.gap| + |c.word|, |c.gap| + |c.word| + |c.between|;
    FourSlices(c.gap, c.word, c.between, n);
    assert s[i..i + a] == t[..a] && s[i + a..i + b] == t[a..b] && s[i + b..i + d] == t[b..d] && s[i + d..] == t[d..];
  }

  lemma FourSlices(w: string, x: string, y: string, z: string)
    ensures var t := w + (x + (y + z)); var a := |w|; var b := a + |x|; var d := b + |y|;
            t[..a] == w && t[a..b] == x && t[b..d] == y && t[d..] == z
  {
  }

  lemma SpacesAt(s: string, i: nat, j: nat, g: string)
    requires i <= j <= |s| && s[i..j] == g && AllSpace(g)
    ensures forall k :: i <= k < j ==> IsSpace(s[k])
  {
    forall k | i <= k < j ensures IsSpace(s[k]) {
      assert s[k] == g[k - i];
    }
  }

  lemma TokensOfClause(s: string, i: nat, c: UserClause, keyword: string)
    requires i <= |s| && s[i..] == ClauseText(c)
    requires IsClause(c, keyword) && AllCapitals(keyword) && keyword != ""
    ensures TokensFrom(s, i) == ClauseTokens(c, i)
  {
    ClauseSlices(s, i, c);
    LettersAreSolid(c.word, Upper(c.word));
    NumeralIsSolid(c.number);
    TokensAtClause(s, i, c, i + |c.gap|, i + |c.gap| + |c.word|, i + |c.gap| + |c.word| + |c.between|);
  }

  /** The four slices of a clause, as tokens. */
  lemma TokensAtClause(s: string, i: nat, c: UserClause, a: nat, b: nat, d: nat)
    requires i < a < b < d < |s| && a == i + |c.gap| && b == a + |c.word| && d == b + |c.between|
    requires s[i..a] == c.gap && s[a..b] == c.word && s[b..d] == c.between && s[d..|s|] == PrintNat(c.number)
    requires AllSpace(c.gap) && AllSpace(c.between) && Solid(c.word) && Solid(PrintNat(c.number))
    ensures TokensFrom(s, i) == ClauseTokens(c, i)
  {
    WordAfterGap(s, i, a, b, c.gap, c.word);
    assert s[b] == s[b..d][0];
    WordAfterGap(s, b, d, |s|, c.between, PrintNat(c.number));
    assert TokensFrom(s, |s|) == [];
    TwoTokens(TokensFrom(s, i), TokensFrom(s, b), [], Token(c.word, a), Token(PrintNat(c.number), d));
  }

  lemma WordAfterGap(s: string, i: nat, a: nat, b: nat, gap: string, w: string)
    requires i <= a <= b <= |s| && s[i..a] == gap && AllSpace(gap) && s[a..b] == w && Solid(w)
    requires b < |s| ==> IsSpace(s[b])
    ensures TokensFrom(s, i) == [Token(w, a)] + TokensFrom(s, b)
  {
    SpacesAt(s, i, a, gap);
    GapSkipped(s, i, a);
    WordAt(s, a, w);
  }

  lemma TwoTokens(all: seq<Token>, mid: seq<Token>, rest: seq<Token>, x: Token, y: Token)
    requires all == [x] + mid && mid == [y] + rest
    ensures all == [x, y] + rest
  {
  }

  function OptTokens(c: Option<UserClause>, i: nat): seq<Token> {
    if c.None? then [] else ClauseTokens(c.value, i)
  }

  lemma SpaceFirst(c: UserClause, keyword: string)
    requires IsClause(c, keyword)
    ensures ClauseText(c) != "" && IsSpace(ClauseText(c)[0])
    ensures var t := ClauseText(c); !IsSpace(t[|t| - 1]) && t[|t| - 1] != ';'
  {
    NumeralIsSolid(c.number);
    var n := PrintNat(c.number);
    assert ClauseText(c)[|ClauseText(c)| - 1] == n[|n| - 1];
  }

  lemma SpaceOrNothing(c: Option<UserClause>, keyword: string)
    requires c.Some? ==> IsClause(c.value, keyword)
    ensures OptText(c) == "" <==> c.None?
    ensures OptText(c) != "" ==> IsSpace(OptText(c)[0]) && Firm(OptText(c))
  {
    if c.Some? {
      SpaceFirst(c.value, keyword);
    }
  }

  /** One clause more is its two tokens more. */
  lemma AddClause(t: string, c: Option<UserClause>, keyword: string)
    requires (c.Some? ==> IsClause(c.value, keyword)) && AllCapitals(keyword) && keyword != ""
    ensures TokensFrom(t + OptText(c), 0) == TokensFrom(t, 0) + OptTokens(c, |t|)
  {
    if c.None? {
      assert t + "" == t;
    } else {
      AddOne(t, c.value, ClauseText(c.value), keyword);
    }
  }

  lemma AddOne(t: string, c: UserClause, text: string, keyword: string)
    requires IsClause(c, keyword) && AllCapitals(keyword) && keyword != "" && text == ClauseText(c)
    ensures TokensFrom(t + text, 0) == TokensFrom(t, 0) + ClauseTokens(c, |t|)
  {
    SpaceFirst(c, keyword);
    TokensBehind(t, text);
    var s := t + text;
    assert s[|t|..] == text;
    TokensOfClause(s, |t|, c, keyword);
  }

  function ClausesText(base: string, limit: Option<UserClause>, offset: Option<UserClause>): string {
    (base + OptText(limit)) + OptText(offset)
  }

  function QueryTokens(base: string, limit: Option<UserClause>, offset: Option<UserClause>): seq<Token> {
    (TokensFrom(base, 0) + OptTokens(limit, |base|)) + OptTokens(offset, |base| + |OptText(limit)|)
  }

  lemma TokensOfQuery(base: string, limit: Option<UserClause>, offset: Option<UserClause>)
    requires limit.Some? ==> IsClause(limit.value, "LIMIT")
    requires offset.Some? ==> IsClause(offset.value, "OFFSET")
    ensures TokensFrom(ClausesText(base, limit, offset), 0) == QueryTokens(base, limit, offset)
  {
    AddClause(base, limit, "LIMIT");
    AddClauseTo(base + OptText(limit), offset, "OFFSET", TokensFrom(base, 0) + OptTokens(limit, |base|));
  }

  lemma AddClauseTo(t: string, c: Option<UserClause>, keyword: string, front: seq<Token>)
    requires (c.Some? ==> IsClause(c.value, keyword)) && AllCapitals(keyword) && keyword != ""
    requires TokensFrom(t, 0) == front
    ensures TokensFrom(t + OptText(c), 0) == front + OptTokens(c, |t|)
  {
    AddClause(t, c, keyword);
  }

  lemma TokensBehind(base: string, clauses: string)
    requires clauses != "" ==> IsSpace(clauses[0])
    ensures TokensFrom(base + clauses, 0) == TokensFrom(base, 0) + TokensFrom(base + clauses, |base|)
  {
    if clauses == "" {
      assert base + clauses == base;
    } else {
      TokensAcross(base, clauses, 0);
    }
  }

  // -------------------------------------------------------------------------
  // What stripping and extracting make of the tokens

  function NumberOf(c: Option<UserClause>): Option<nat> {
    if c.None? then None else Some(c.value.number)
  }

  lemma ClauseSeen(all: seq<Token>, end: nat, c: UserClause, keyword: string)
    requires 2 <= end <= |all| && all[end - 2].text == c.word && all[end - 1].text == PrintNat(c.number)
    requires IsClause(c, keyword)
    ensures Clause(all, end, keyword) && ParseUnsigned(all[end - 1].text, U32_MAX) == In32(Some(c.number))
    ensures forall other :: other != keyword ==> !Keyword(all, end, other)
  {
    ParseOfPrint(c.number, U64_MAX);
    ParseOfPrint(c.number, U32_MAX);
  }

  lemma NoClause(base: string, all: seq<Token>, keyword: string)
    requires all == TokensFrom(base, 0) && !EndsIn(base, keyword)
    ensures !Clause(all, |all|, keyword)
    ensures Keyword(all, |all|, keyword) ==> ParseUnsigned(all[|all| - 1].text, U32_MAX).None?
  {
  }

  /** Looking at the first tokens only is looking at those. */
  lemma Front(front: seq<Token>, more: seq<Token>, keyword: string)
    ensures Clause(front + more, |front|, keyword) == Clause(front, |front|, keyword)
    ensures Keyword(front + more, |front|, keyword) == Keyword(front, |front|, keyword)
  {
  }

  lemma SeenOffset(front: seq<Token>, all: seq<Token>, offset: Option<UserClause>, i: nat)
    requires all == front + OptTokens(offset, i) && (offset.Some? ==> IsClause(offset.value, "OFFSET"))
    requires offset.None? ==> !Clause(front, |front|, "OFFSET")
    requires offset.None? && Keyword(front, |front|, "OFFSET") ==> ParseUnsigned(front[|front| - 1].text, U32_MAX).None?
    ensures BeforeOffset(all) == |front| && OffsetOf(all) == In32(NumberOf(offset))
  {
    if offset.Some? {
      ClauseSeen(all, |all|, offset.value, "OFFSET");
    } else {
      assert all == front;
    }
  }

  lemma SeenLimit(base: seq<Token>, front: seq<Token>, all: seq<Token>, limit: Option<UserClause>, i: nat)
    requires front == base + OptTokens(limit, i) && front <= all && BeforeOffset(all) == |front|
    requires limit.Some? ==> IsClause(limit.value, "LIMIT")
    requires limit.None? ==> !Clause(base, |base|, "LIMIT")
    requires limit.None? && Keyword(base, |base|, "LIMIT") ==> ParseUnsigned(base[|base| - 1].text, U32_MAX).None?
    ensures BeforeClauses(all) == |base| && LimitOf(all) == In32(NumberOf(limit))
  {
    var more := all[|front|..];
    assert all == front + more;
    Front(front, more, "LIMIT");
    if limit.Some? {
      ClauseSeen(all, |front|, limit.value, "LIMIT");
    } else {
      assert front == base;
    }
  }

  /** Before the OFFSET clause there is none, nor a LIMIT before the LIMIT clause. */
  lemma FrontClauses(base: string, limit: Option<UserClause>, offset: Option<UserClause>, e: Ending,
                     tokens: seq<Token>, front: seq<Token>)
    requires IsQuery(base, limit, offset, e)
    requires tokens == TokensFrom(base, 0) && front == tokens + OptTokens(limit, |base|)
    ensures limit.None? ==> !Clause(tokens, |tokens|, "LIMIT")
    ensures limit.None? && Keyword(tokens, |tokens|, "LIMIT") ==>
              ParseUnsigned(tokens[|tokens| - 1].text, U32_MAX).None?
    ensures offset.None? ==> !Clause(front, |front|, "OFFSET")
    ensures offset.None? && Keyword(front, |front|, "OFFSET") ==>
              ParseUnsigned(front[|front| - 1].text, U32_MAX).None?
  {
    if limit.Some? {
      ClauseSeen(front, |front|, limit.value, "LIMIT");
    } else {
      assert front == tokens;
      NoClause(base, tokens, "LIMIT");
      if offset.None? {
        NoClause(base, tokens, "OFFSET");
      }
    }
  }

  lemma SeenClauses(base: string, limit: Option<UserClause>, offset: Option<UserClause>, e: Ending, all: seq<Token>)
    requires IsQuery(base, limit, offset, e)
    requires all == QueryTokens(base, limit, offset)
    ensures BeforeClauses(all) == |TokensFrom(base, 0)|
    ensures LimitOf(all) == In32(NumberOf(limit)) && OffsetOf(all) == In32(NumberOf(offset))
  {
    var tokens := TokensFrom(base, 0);
    var front := tokens + OptTokens(limit, |base|);
    FrontClauses(base, limit, offset, e, tokens, front);
    SeenOffset(front, all, offset, |base| + |OptText(limit)|);
    SeenLimit(tokens, front, all, limit, |base|);
  }

  lemma LastIsDigit(base: string, limit: Option<UserClause>, offset: Option<UserClause>, e: Ending)
    requires IsQuery(base, limit, offset, e)
    ensures Firm(ClausesText(base, limit, offset))
  {
    var t := ClausesText(base, limit, offset);
    if offset.Some? {
      SpaceFirst(offset.value, "OFFSET");
      assert t[|t| - 1] == OptText(offset)[|OptText(offset)| - 1];
    } else if limit.Some? {
      SpaceFirst(limit.value, "LIMIT");
      assert t[|t| - 1] == OptText(limit)[|OptText(limit)| - 1];
    } else {
      assert t == base;
    }
  }

  /**
   Whatever the case and the spacing, with either clause or none, stripping gives the text before the clauses and the
   extractors give exactly the numbers written, those beyond 32 bits excepted.
   */
  lemma WrittenIsRead(base: string, limit: Option<UserClause>, offset: Option<UserClause>, e: Ending)
    requires IsQuery(base, limit, offset, e)
    ensures var q := QueryText(base, limit, offset, e);
            Strip(q) == base && UserLimit(q) == In32(NumberOf(limit)) && UserOffset(q) == In32(NumberOf(offset))
  {
    var t := ClausesText(base, limit, offset);
    LastIsDigit(base, limit, offset, e);
    EndingGoes(t, e);
    TokensOfQuery(base, limit, offset);
    var all := TokensFrom(t, 0);
    SeenClauses(base, limit, offset, e, all);
    StrippedAt(base, limit, offset, all);
  }

  lemma StrippedAt(base: string, limit: Option<UserClause>, offset: Option<UserClause>, all: seq<Token>)
    requires TrimEnd(base) == base && (limit.Some? ==> IsClause(limit.value, "LIMIT"))
    requires offset.Some? ==> IsClause(offset.value, "OFFSET")
    requires all == QueryTokens(base, limit, offset)
    requires BeforeClauses(all) == |TokensFrom(base, 0)|
    ensures BaseOf(ClausesText(base, limit, offset), all) == base
  {
    var front := TokensFrom(base, 0);
    var t := ClausesText(base, limit, offset);
    if limit.Some? {
      FirstStart(front, OptTokens(limit, |base|), OptTokens(offset, |base| + |OptText(limit)|), all);
      GapPrefix(base, limit.value, OptText(offset));
      CutAtGap(base, limit.value.gap, t, all);
    } else {
      assert base + "" == base;
      StrippedOffsetAt(base, offset, front, all);
    }
  }

  lemma StrippedOffsetAt(base: string, offset: Option<UserClause>, front: seq<Token>, all: seq<Token>)
    requires TrimEnd(base) == base && (offset.Some? ==> IsClause(offset.value, "OFFSET"))
    requires all == (front + []) + OptTokens(offset, |base|) && BeforeClauses(all) == |front|
    ensures BaseOf(base + OptText(offset), all) == base
  {
    if offset.Some? {
      OffsetCut(base, offset.value, front, all);
    } else {
      NothingAdded(front, all);
      NothingCut(base, all);
    }
  }

  lemma OffsetCut(base: string, c: UserClause, front: seq<Token>, all: seq<Token>)
    requires TrimEnd(base) == base && IsClause(c, "OFFSET")
    requires all == (front + []) + ClauseTokens(c, |base|) && BeforeClauses(all) == |front|
    ensures BaseOf(base + ClauseText(c), all) == base
  {
    FirstStart(front, [], ClauseTokens(c, |base|), all);
    ShortGapPrefix(base, c);
    CutAtGap(base, c.gap, base + ClauseText(c), all);
  }

  lemma NothingCut(base: string, all: seq<Token>)
    requires BeforeClauses(all) == |all|
    ensures BaseOf(base + "", all) == base
  {
    assert base + "" == base;
  }

  lemma NothingAdded(front: seq<Token>, all: seq<Token>)
    requires all == (front + []) + []
    ensures all == front
  {
  }

  lemma ShortGapPrefix(base: string, c: UserClause)
    ensures base + c.gap <= base + ClauseText(c)
  {
  }

  lemma GapPrefix(base: string, c: UserClause, rest: string)
    ensures base + c.gap <= (base + ClauseText(c)) + rest
  {
  }

  lemma CutAtGap(base: string, gap: string, t: string, all: seq<Token>)
    requires TrimEnd(base) == base && AllSpace(gap) && base + gap <= t
    requires BeforeClauses(all) < |all| && all[BeforeClauses(all)].start == |base| + |gap|
    ensures BaseOf(t, all) == base
  {
    assert Before(t, |base + gap|) == base + gap;
    TrimEndGap(base, gap);
  }

  lemma FirstStart(front: seq<Token>, first: seq<Token>, second: seq<Token>, all: seq<Token>)
    requires all == (front + first) + second
    ensures first != [] ==> |front| < |all| && all[|front|] == first[0]
    ensures first == [] && second != [] ==> |front| < |all| && all[|front|] == second[0]
  {
  }

  /** So the paginated text is the user's text with this page's clauses in place of the user's. */
  lemma BuiltFromWritten(base: string, limit: Option<UserClause>, offset: Option<UserClause>, e: Ending, size: nat,
                         page: nat)
    requires IsQuery(base, limit, offset, e)
    ensures var start := PageOffset(page, size);
            Build(QueryText(base, limit, offset, e), size, page)
            == WithClauses(base, FetchCount(In32(NumberOf(limit)), size, start),
                           FetchOffset(In32(NumberOf(offset)), start))
  {
    WrittenIsRead(base, limit, offset, e);
  }

  lemma WrittenIsStripped(base: string, limit: Option<UserClause>, offset: Option<UserClause>, e: Ending)
    requires IsQuery(base, limit, offset, e)
    ensures var q := QueryText(base, limit, offset, e);
            StrippedLimit(q) == NumberOf(limit) && StrippedOffset(q) == NumberOf(offset)
  {
    var t := ClausesText(base, limit, offset);
    LastIsDigit(base, limit, offset, e);
    EndingGoes(t, e);
    TokensOfQuery(base, limit, offset);
    var all := TokensFrom(t, 0);
    SeenClauses(base, limit, offset, e, all);
    SeenWide(base, limit, offset, e, all);
  }

  lemma SeenWide(base: string, limit: Option<UserClause>, offset: Option<UserClause>, e: Ending, all: seq<Token>)
    requires IsQuery(base, limit, offset, e)
    requires all == QueryTokens(base, limit, offset)
    ensures StrippedLimitOf(all) == NumberOf(limit) && StrippedOffsetOf(all) == NumberOf(offset)
  {
    var tokens := TokensFrom(base, 0);
    var i := |base| + |OptText(limit)|;
    SeenWideIn(base, limit, offset, e, tokens, tokens + OptTokens(limit, |base|), i, all);
  }

  lemma SeenWideIn(base: string, limit: Option<UserClause>, offset: Option<UserClause>, e: Ending, tokens: seq<Token>,
                   front: seq<Token>, i: nat, all: seq<Token>)
    requires IsQuery(base, limit, offset, e) && tokens == TokensFrom(base, 0)
    requires front == tokens + OptTokens(limit, |base|) && all == front + OptTokens(offset, i)
    ensures StrippedLimitOf(all) == NumberOf(limit) && StrippedOffsetOf(all) == NumberOf(offset)
  {
    FrontClauses(base, limit, offset, e, tokens, front);
    SeenOffset(front, all, offset, i);
    WideLimitSeen(tokens, front, all, limit, |base|);
    WideOffsetSeen(front, all, offset, i);
  }

  lemma WideOffsetSeen(front: seq<Token>, all: seq<Token>, offset: Option<UserClause>, i: nat)
    requires all == front + OptTokens(offset, i) && (offset.Some? ==> IsClause(offset.value, "OFFSET"))
    requires offset.None? ==> !Clause(front, |front|, "OFFSET")
    ensures StrippedOffsetOf(all) == NumberOf(offset)
  {
    if offset.Some? {
      ClauseSeen(all, |all|, offset.value, "OFFSET");
      ParseOfPrint(offset.value.number, U64_MAX);
    } else {
      assert all == front;
    }
  }

  lemma WideLimitSeen(base: seq<Token>, front: seq<Token>, all: seq<Token>, limit: Option<UserClause>, i: nat)
    requires front == base + OptTokens(limit, i) && front <= all && BeforeOffset(all) == |front|
    requires limit.Some? ==> IsClause(limit.value, "LIMIT")
    requires limit.None? ==> !Clause(base, |base|, "LIMIT")
    ensures StrippedLimitOf(all) == NumberOf(limit)
  {
    var more := all[|front|..];
    assert all == front + more;
    Front(front, more, "LIMIT");
    if limit.Some? {
      ClauseSeen(all, |front|, limit.value, "LIMIT");
      ParseOfPrint(limit.value.number, U64_MAX);
    } else {
      assert front == base;
    }
  }

  /** And the pages shown add up to what the clauses, as written, select. */
  lemma PagesOfWritten(base: string, limit: Option<UserClause>, offset: Option<UserClause>, e: Ending, size: nat,
                       k: nat)
    requires IsQuery(base, limit, offset, e) && OrZero(NumberOf(offset)) <= U32_MAX
    requires Fits32(NumberOf(offset), size, k) && k * size <= U32_MAX
    ensures ShowsSelected(NumberOf(limit), NumberOf(offset), size, k)
  {
    var q := QueryText(base, limit, offset, e);
    WrittenIsRead(base, limit, offset, e);
    WrittenIsStripped(base, limit, offset, e);
    PagesOfQuery(q, size, k);
  }
}
