/** What paginated queries mean: their text reads back, and their pages add up to the user's result. */
module Pages {
  import opened Text
  import opened Pagination

  // -------------------------------------------------------------------------
  // The printed clauses read back

  predicate Solid(w: string) {
    w != "" && forall k :: 0 <= k < |w| ==> !IsSpace(w[k])
  }

  lemma {:induction false} RunOf(s: string, i: nat, j: nat)
    requires i <= j <= |s| && (forall k :: i <= k < j ==> !IsSpace(s[k])) && (j < |s| ==> IsSpace(s[j]))
    ensures RunEnd(s, i) == j
    decreases |s| - i
  {
    if i < j {
      RunOf(s, i + 1, j);
    }
  }

  lemma {:induction false} RunIs(s: string, i: nat)
    requires i <= |s|
    ensures var j := RunEnd(s, i); (j < |s| ==> IsSpace(s[j])) && forall k :: i <= k < j ==> !IsSpace(s[k])
    decreases |s| - i
  {
    if i < |s| && !IsSpace(s[i]) {
      RunIs(s, i + 1);
    }
  }

  /** Tokens of `a + b` are those of `a` and then those from where `b` starts, if `b` starts with a space. */
  lemma {:induction false} TokensAcross(a: string, b: string, i: nat)
    requires i <= |a| && b != "" && IsSpace(b[0])
    ensures TokensFrom(a + b, i) == TokensFrom(a, i) + TokensFrom(a + b, |a|)
    decreases |a| - i
  {
    if i == |a| {
      assert TokensFrom(a, i) == [];
    } else if IsSpace(a[i]) {
      TokensAcross(a, b, i + 1);
    } else {
      var j := RunEnd(a, i);
      RunAcross(a, b, i);
      TokensAcross(a, b, j);
      var rest := TokensFrom(a + b, |a|);
      assert [Token(a[i..j], i)] + (TokensFrom(a, j) + rest) == [Token(a[i..j], i)] + TokensFrom(a, j) + rest;
    }
  }

  lemma RunAcross(a: string, b: string, i: nat)
    requires i < |a| && b != "" && IsSpace(b[0]) && !IsSpace(a[i])
    ensures RunEnd(a + b, i) == RunEnd(a, i) && (a + b)[i..RunEnd(a, i)] == a[i..RunEnd(a, i)] && (a + b)[i] == a[i]
  {
    RunIs(a, i);
    RunOf(a + b, i, RunEnd(a, i));
  }

  /** A space and a solid word, before a space or the end. */
  lemma NextWord(s: string, i: nat, w: string)
    requires i + 1 + |w| <= |s| && IsSpace(s[i]) && Solid(w) && OccursAt(s, w, i + 1)
    requires i + 1 + |w| == |s| || IsSpace(s[i + 1 + |w|])
    ensures TokensFrom(s, i) == [Token(w, i + 1)] + TokensFrom(s, i + 1 + |w|)
  {
    forall k | i + 1 <= k < i + 1 + |w| ensures !IsSpace(s[k]) {
      assert s[k] == s[i + 1..i + 1 + |w|][k - (i + 1)];
    }
    RunOf(s, i + 1, i + 1 + |w|);
  }

  lemma SpacedSlices(s: string, i: nat, words: seq<string>)
    requires words != [] && i <= |s| && s[i..] == Spaced(words)
    ensures var w := words[0];
            && i + 1 + |w| <= |s| && s[i] == ' ' && OccursAt(s, w, i + 1) && s[i + 1 + |w|..] == Spaced(words[1..])
  {
    var w, tail := words[0], Spaced(words[1..]);
    assert s[i..][1..] == w + tail;
    assert s[i + 1..] == w + tail;
    assert s[i + 1..][..|w|] == w && s[i + 1..][|w|..] == tail;
  }

  function WordTokens(words: seq<string>, i: nat): seq<Token> {
    if words == [] then [] else [Token(words[0], i + 1)] + WordTokens(words[1..], i + 1 + |words[0]|)
  }

  lemma EndsOrSpace(s: string, j: nat, words: seq<string>)
    requires j <= |s| && s[j..] == Spaced(words)
    ensures j == |s| || s[j] == ' '
  {
    if words != [] {
      assert s[j..][0] == ' ';
    }
  }

  lemma WordStep(s: string, i: nat, words: seq<string>)
    requires words != [] && i <= |s| && s[i..] == Spaced(words) && Solid(words[0])
    ensures var j := i + 1 + |words[0]|;
            j <= |s| && s[j..] == Spaced(words[1..]) && TokensFrom(s, i) == [Token(words[0], i + 1)] + TokensFrom(s, j)
  {
    SpacedSlices(s, i, words);
    EndsOrSpace(s, i + 1 + |words[0]|, words[1..]);
    NextWord(s, i, words[0]);
  }

  lemma {:induction false} TokensOfWords(s: string, i: nat, words: seq<string>)
    requires i <= |s| && s[i..] == Spaced(words) && forall k :: 0 <= k < |words| ==> Solid(words[k])
    ensures TokensFrom(s, i) == WordTokens(words, i)
    decreases |words|
  {
    if words == [] {
      assert i == |s|;
    } else {
      WordStep(s, i, words);
      TokensOfWords(s, i + 1 + |words[0]|, words[1..]);
    }
  }

  lemma {:induction false} LastOfSpaced(s: string, i: nat, words: seq<string>)
    requires words != [] && i <= |s| && s[i..] == Spaced(words) && forall k :: 0 <= k < |words| ==> words[k] != ""
    ensures var w := words[|words| - 1]; s != "" && s[|s| - 1] == w[|w| - 1]
    decreases |words|
  {
    SpacedSlices(s, i, words);
    var w := words[0];
    var j := i + 1 + |w|;
    if |words| > 1 {
      LastOfSpaced(s, j, words[1..]);
    } else {
      assert j == |s| && s[i + 1..j] == w;
    }
  }

  lemma NumeralIsSolid(n: nat)
    ensures Solid(PrintNat(n)) && PrintNat(n)[|PrintNat(n)| - 1] != ';' && !IsSpace(PrintNat(n)[|PrintNat(n)| - 1])
  {
  }

  lemma FourTokens(a: string, b: string, c: string, d: string, i: nat)
    ensures var ts := WordTokens([a, b, c, d], i);
            |ts| == 4 && ts[0] == Token(a, i + 1) && ts[1].text == b && ts[2].text == c && ts[3].text == d
  {
    assert [a, b, c, d][1..] == [b, c, d] && [b, c, d][1..] == [c, d] && [c, d][1..] == [d] && [d][1..] == [];
    var j := i + 1 + |a|;
    var k := j + 1 + |b|;
    assert WordTokens([d], k + 1 + |c|) == [Token(d, k + 1 + |c| + 1)];
    assert WordTokens([c, d], k) == [Token(c, k + 1), Token(d, k + 1 + |c| + 1)];
    assert WordTokens([b, c, d], j) == [Token(b, j + 1), Token(c, k + 1), Token(d, k + 1 + |c| + 1)];
  }

  lemma ClausesAreSolid(count: nat, offset: nat)
    ensures forall k :: 0 <= k < 4 ==> Solid(["LIMIT", PrintNat(count), "OFFSET", PrintNat(offset)][k])
  {
    NumeralIsSolid(count);
    NumeralIsSolid(offset);
  }

  /** The text's tokens are the base's and the four of the clauses. */
  lemma TokensOfClauses(base: string, count: nat, offset: nat, words: seq<string>)
    requires words == ["LIMIT", PrintNat(count), "OFFSET", PrintNat(offset)]
    ensures var s := base + Spaced(words);
            && TokensFrom(s, 0) == TokensFrom(base, 0) + WordTokens(words, |base|)
            && Trimmed(s) == s && s[..|base| + 1] == base + " "
  {
    var tail := Spaced(words);
    var s := base + tail;
    ClausesAreSolid(count, offset);
    assert s[|base|..] == tail && tail[0] == ' ';
    TokensAcross(base, tail, 0);
    TokensOfWords(s, |base|, words);
    LastOfSpaced(s, |base|, words);
    NumeralIsSolid(offset);
    TrimmedAsIs(s);
  }

  lemma TrimmedAsIs(s: string)
    requires s != "" && !IsSpace(s[|s| - 1]) && s[|s| - 1] != ';'
    ensures Trimmed(s) == s
  {
  }

  lemma TrimEndOnce(s: string)
    ensures TrimEnd(TrimEnd(s)) == TrimEnd(s)
  {
  }

  lemma StripIsTrimmed(query: string)
    ensures TrimEnd(Strip(query)) == Strip(query)
  {
    TrimEndOnce(TrimSemicolons(TrimEnd(query)));
    var trimmed := Trimmed(query);
    var tokens := TokensFrom(trimmed, 0);
    var end := BeforeClauses(tokens);
    if end < |tokens| {
      TrimEndOnce(Before(trimmed, tokens[end].start));
    }
  }

  lemma TrimEndSpace(s: string)
    ensures TrimEnd(s + " ") == TrimEnd(s)
  {
    assert (s + " ")[..|s|] == s;
  }

  lemma EndsInClause(all: seq<Token>, end: nat, word: string, n: nat)
    requires 2 <= end <= |all| && all[end - 2].text == word && AllCapitals(word) && all[end - 1].text == PrintNat(n)
    requires n <= U32_MAX
    ensures Clause(all, end, word)
  {
    ParseOfPrint(n, U64_MAX);
    UpperOfCapitals(word);
  }

  lemma KeywordsAreCapital()
    ensures AllCapitals(LIMIT) && AllCapitals(OFFSET)
  {
  }

  lemma EndsInClauses(front: seq<Token>, ts: seq<Token>, count: nat, offset: nat)
    requires count <= U32_MAX && offset <= U32_MAX && |ts| == 4
    requires ts[0].text == LIMIT && ts[1].text == PrintNat(count) && ts[2].text == OFFSET
    requires ts[3].text == PrintNat(offset)
    ensures var all := front + ts; var n := |all|;
            && Clause(all, n, OFFSET) && Clause(all, n - 2, LIMIT)
            && all[n - 4] == ts[0] && all[n - 3] == ts[1] && all[n - 1] == ts[3]
  {
    var all := front + ts;
    KeywordsAreCapital();
    EndsInClause(all, |all|, OFFSET, offset);
    EndsInClause(all, |all| - 2, LIMIT, count);
  }

  lemma StripBack(query: string, base: string)
    requires TrimEnd(base) == base && Trimmed(query) == query && |query| > |base| && query[..|base| + 1] == base + " "
    requires var all := TokensFrom(query, 0); var n := |all|;
             BeforeClauses(all) == n - 4 && n >= 4 && all[n - 4].start == |base| + 1
    ensures Strip(query) == base
  {
    TrimEndSpace(base);
  }

  lemma OffsetBack(all: seq<Token>, offset: Option<nat>)
    requires Keyword(all, |all|, OFFSET) && ParseUnsigned(all[|all| - 1].text, U32_MAX) == offset
    ensures OffsetOf(all) == offset
  {
  }

  lemma LimitBack(all: seq<Token>, limit: Option<nat>)
    requires BeforeOffset(all) == |all| - 2 && Keyword(all, |all| - 2, LIMIT)
    requires ParseUnsigned(all[|all| - 3].text, U32_MAX) == limit
    ensures LimitOf(all) == limit
  {
  }

  /** Stripping the printed clauses gives the base back, and the extractors read exactly the printed numbers. */
  lemma ClausesReadBack(base: string, count: nat, offset: nat)
    requires TrimEnd(base) == base && count <= U32_MAX && offset <= U32_MAX
    ensures var s := WithClauses(base, count, offset);
            Strip(s) == base && UserLimit(s) == Some(count) && UserOffset(s) == Some(offset)
  {
    var words := ["LIMIT", PrintNat(count), "OFFSET", PrintNat(offset)];
    TokensOfClauses(base, count, offset, words);
    FourTokens(words[0], words[1], words[2], words[3], |base|);
    var ts := WordTokens(words, |base|);
    EndsInClauses(TokensFrom(base, 0), ts, count, offset);
    var s := base + Spaced(words);
    var all := TokensFrom(base, 0) + ts;
    assert BeforeOffset(all) == |all| - 2;
    ParseOfPrint(offset, U32_MAX);
    ParseOfPrint(count, U32_MAX);
    OffsetBack(all, Some(offset));
    LimitBack(all, Some(count));
    StripBack(s, base);
  }

  /**
   For every query, size and page: the paginated text strips to what the query itself strips to, and its numbers are the
   fetch count and offset.
   */
  lemma TextRoundTrip(query: string, size: nat, page: nat)
    requires size <= U32_MAX && page <= U32_MAX
    ensures var s := Build(query, size, page); var pageOffset := PageOffset(page, size);
            && Strip(s) == Strip(query)
            && UserLimit(s) == Some(FetchCount(UserLimit(query), size, pageOffset))
            && UserOffset(s) == Some(FetchOffset(UserOffset(query), pageOffset))
  {
    StripIsTrimmed(query);
    var pageOffset := PageOffset(page, size);
    ClausesReadBack(Strip(query), FetchCount(UserLimit(query), size, pageOffset),
                    FetchOffset(UserOffset(query), pageOffset));
  }

  // -------------------------------------------------------------------------
  // Pages of a fixed row sequence

  /** What `all` has from `start` on. */
  function From<T>(all: seq<T>, start: nat): seq<T> {
    if start <= |all| then all[start..] else []
  }

  function Take<T>(rows: seq<T>, n: nat): seq<T> {
    if n < |rows| then rows[..n] else rows
  }

  /** SQL's LIMIT and OFFSET. */
  function Select<T>(rows: seq<T>, limit: Option<nat>, offset: nat): seq<T> {
    if limit.None? then From(rows, offset) else Take(From(rows, offset), limit.value)
  }

  /** What the server returns for the page's query. */
  function Fetched<T>(rows: seq<T>, limit: Option<nat>, offset: Option<nat>, size: nat, page: nat): seq<T> {
    var pageOffset := PageOffset(page, size);
    Select(rows, Some(FetchCount(limit, size, pageOffset)), FetchOffset(offset, pageOffset))
  }

  /** The page shown, and `has_more`. */
  function Page<T>(rows: seq<T>, limit: Option<nat>, offset: Option<nat>, size: nat, page: nat): (seq<T>, bool) {
    var fetched := Fetched(rows, limit, offset, size, page);
    (Take(fetched, size), |fetched| > size)
  }

  function FirstPages<T>(rows: seq<T>, limit: Option<nat>, offset: Option<nat>, size: nat, k: nat): seq<T> {
    if k == 0 then [] else FirstPages(rows, limit, offset, size, k - 1) + Page(rows, limit, offset, size, k).0
  }

  function OrZero(n: Option<nat>): nat {
    if n.None? then 0 else n.value
  }

  /** Nothing overflows 32 bits up to page `k`. */
  predicate Fits32(offset: Option<nat>, size: nat, k: nat) {
    k >= 1 && (k - 1) * size + OrZero(offset) <= U32_MAX && size + 1 <= U32_MAX
  }

  lemma Fits32Before(offset: Option<nat>, size: nat, k: nat)
    requires Fits32(offset, size, k) && k > 1
    ensures Fits32(offset, size, k - 1)
  {
    assert (k - 2) * size <= (k - 1) * size;
  }

  /** Limiting after dropping `start` rows takes them off the limit. */
  lemma LimitedFrom<T>(tail: seq<T>, limit: nat, start: nat, count: nat)
    ensures Take(From(Take(tail, limit), start), count)
            == Take(From(tail, start), Min(SaturatingSub(limit, start), count))
  {
    if limit < |tail| && start <= limit {
      assert tail[..limit][start..] == tail[start..][..limit - start];
    }
  }

  lemma FromFrom<T>(rows: seq<T>, offset: nat, start: nat)
    ensures From(From(rows, offset), start) == From(rows, offset + start)
  {
    if offset + start <= |rows| {
      assert rows[offset..][start..] == rows[offset + start..];
    }
  }

  lemma SelectFrom<T>(rows: seq<T>, limit: Option<nat>, offset: nat, start: nat, count: nat)
    ensures var all := Select(rows, limit, offset);
            var left := if limit.None? then count else Min(SaturatingSub(limit.value, start), count);
            Select(rows, Some(left), offset + start) == Take(From(all, start), count)
  {
    FromFrom(rows, offset, start);
    if limit.Some? {
      LimitedFrom(From(rows, offset), limit.value, start, count);
    }
  }

  lemma OnePage<T>(rows: seq<T>, limit: Option<nat>, offset: Option<nat>, size: nat, k: nat, start: nat)
    requires Fits32(offset, size, k) && start == (k - 1) * size
    ensures var all := Select(rows, limit, OrZero(offset));
            && Page(rows, limit, offset, size, k).0 == Take(From(all, start), size)
            && (Page(rows, limit, offset, size, k).1 <==> |all| > start + size)
  {
    assert PageOffset(k, size) == start && Wrap32(size + 1) == size + 1;
    var first := OrZero(offset);
    assert FetchOffset(offset, start) == first + start;
    SelectFrom(rows, limit, first, start, size + 1);
  }

  lemma OneMorePage<T>(rows: seq<T>, limit: Option<nat>, offset: Option<nat>, size: nat, k: nat, start: nat)
    requires Fits32(offset, size, k) && start == (k - 1) * size
    requires FirstPages(rows, limit, offset, size, k - 1) == Take(Select(rows, limit, OrZero(offset)), start)
    ensures var all := Select(rows, limit, OrZero(offset));
            && FirstPages(rows, limit, offset, size, k) == Take(all, start + size)
            && (Page(rows, limit, offset, size, k).1 <==> |all| > start + size)
  {
    OnePage(rows, limit, offset, size, k, start);
    TakeMore(Select(rows, limit, OrZero(offset)), start, size);
  }

  lemma Products(k: nat, size: nat)
    requires k >= 1
    ensures (k - 1) * size + size == k * size && (k == 1 ==> (k - 1) * size == 0) && (k * size == 0 <==> size == 0)
  {
  }

  /**
   Pages partition the result: the first `k` of them are its first `k * size` rows, and `has_more` says whether a row
   remains.
   */
  lemma {:induction false} PagesPartition<T>(rows: seq<T>, limit: Option<nat>, offset: Option<nat>, size: nat, k: nat)
    requires Fits32(offset, size, k)
    ensures var all := Select(rows, limit, OrZero(offset));
            && FirstPages(rows, limit, offset, size, k) == Take(all, k * size)
            && (Page(rows, limit, offset, size, k).1 <==> |all| > k * size)
    decreases k
  {
    Products(k, size);
    if k > 1 {
      Fits32Before(offset, size, k);
      PagesPartition(rows, limit, offset, size, k - 1);
    } else {
      assert FirstPages(rows, limit, offset, size, 0) == Take(Select(rows, limit, OrZero(offset)), 0);
    }
    OneMorePage(rows, limit, offset, size, k, (k - 1) * size);
  }

  lemma TakeMore<T>(all: seq<T>, start: nat, size: nat)
    ensures Take(all, start) + Take(From(all, start), size) == Take(all, start + size)
  {
  }

  /** Beyond 32 bits the page offset is wrong, and only there. */
  lemma OffsetExactly(page: nat, size: nat)
    requires page >= 1
    ensures PageOffset(page, size) == (page - 1) * size <==> (page - 1) * size <= U32_MAX
  {
  }

  // -------------------------------------------------------------------------
  // Clauses wider than 32 bits

  /** The numbers, of up to 64 bits, of the clauses that stripping removes. */
  function StrippedOffset(query: string): Option<nat> {
    StrippedOffsetOf(TokensFrom(Trimmed(query), 0))
  }

  function StrippedLimit(query: string): Option<nat> {
    StrippedLimitOf(TokensFrom(Trimmed(query), 0))
  }

  function StrippedOffsetOf(tokens: seq<Token>): Option<nat> {
    if Clause(tokens, |tokens|, OFFSET) then ParseUnsigned(tokens[|tokens| - 1].text, U64_MAX) else None
  }

  function StrippedLimitOf(tokens: seq<Token>): Option<nat> {
    var end := BeforeOffset(tokens);
    if Clause(tokens, end, LIMIT) then ParseUnsigned(tokens[end - 1].text, U64_MAX) else None
  }

  function In32(n: Option<nat>): Option<nat> {
    if n.Some? && n.value <= U32_MAX then n else None
  }

  /** The extractors read what stripping removes, if it fits in 32 bits, and nothing otherwise. */
  lemma ExtractedIsStripped(query: string)
    ensures UserLimit(query) == In32(StrippedLimit(query)) && UserOffset(query) == In32(StrippedOffset(query))
  {
    ExtractedFrom(TokensFrom(Trimmed(query), 0));
  }

  lemma ExtractedFrom(tokens: seq<Token>)
    ensures LimitOf(tokens) == In32(StrippedLimitOf(tokens)) && OffsetOf(tokens) == In32(StrippedOffsetOf(tokens))
  {
  }

  /** The pages show what the removed clauses select, whatever the rows are. */
  ghost predicate ShowsSelected(limit: Option<nat>, offset: Option<nat>, size: nat, k: nat) {
    forall rows: seq<nat> ::
        FirstPages(rows, In32(limit), In32(offset), size, k) == Take(Select(rows, limit, OrZero(offset)), k * size)
  }

  /**
   With page numbers in range, a query's pages show what its own clauses select, if and only if its OFFSET fits
   in 32 bits or nothing is asked for anyway.
   */
  lemma PagesOfQuery(query: string, size: nat, k: nat)
    requires Fits32(UserOffset(query), size, k) && k * size <= U32_MAX
    ensures ShowsSelected(StrippedLimit(query), StrippedOffset(query), size, k)
       <==> OrZero(StrippedOffset(query)) <= U32_MAX || StrippedLimit(query) == Some(0) || size == 0
  {
    ExtractedIsStripped(query);
    ShownExactly(StrippedLimit(query), StrippedOffset(query), size, k);
  }

  /** In 32 bits or not, the first `n` rows selected are the same unless a wide OFFSET is lost. */
  lemma SameRows<T>(rows: seq<T>, limit: Option<nat>, offset: Option<nat>, n: nat)
    requires n <= U32_MAX && (OrZero(offset) <= U32_MAX || limit == Some(0) || n == 0)
    ensures Take(Select(rows, In32(limit), OrZero(In32(offset))), n) == Take(Select(rows, limit, OrZero(offset)), n)
  {
    WideLimit(rows, limit, OrZero(offset), n);
  }

  lemma LostOffset(rows: seq<nat>, limit: Option<nat>, offset: Option<nat>, n: nat)
    requires |rows| == 1 && OrZero(offset) > U32_MAX && limit != Some(0) && n >= 1
    ensures Take(Select(rows, In32(limit), OrZero(In32(offset))), n) != Take(Select(rows, limit, OrZero(offset)), n)
  {
    assert Take(Select(rows, In32(limit), 0), n) == rows;
    assert Select(rows, limit, OrZero(offset)) == [];
  }

  lemma ShownExactly(limit: Option<nat>, offset: Option<nat>, size: nat, k: nat)
    requires Fits32(In32(offset), size, k) && k * size <= U32_MAX
    ensures ShowsSelected(limit, offset, size, k) <==> OrZero(offset) <= U32_MAX || limit == Some(0) || size == 0
  {
    var n := k * size;
    Products(k, size);
    forall rows: seq<nat>
      ensures FirstPages(rows, In32(limit), In32(offset), size, k)
              == Take(Select(rows, In32(limit), OrZero(In32(offset))), n)
    {
      PagesPartition(rows, In32(limit), In32(offset), size, k);
    }
    ShownFirst(limit, offset, size, k, n);
  }

  lemma ShownFirst(limit: Option<nat>, offset: Option<nat>, size: nat, k: nat, n: nat)
    requires n == k * size && n <= U32_MAX && (n == 0 <==> size == 0)
    requires forall rows: seq<nat> ::
               FirstPages(rows, In32(limit), In32(offset), size, k)
               == Take(Select(rows, In32(limit), OrZero(In32(offset))), n)
    ensures ShowsSelected(limit, offset, size, k) <==> OrZero(offset) <= U32_MAX || limit == Some(0) || size == 0
  {
    if OrZero(offset) <= U32_MAX || limit == Some(0) || size == 0 {
      forall rows: seq<nat>
        ensures FirstPages(rows, In32(limit), In32(offset), size, k) == Take(Select(rows, limit, OrZero(offset)), n)
      {
        SameRows(rows, limit, offset, n);
      }
    } else {
      var rows: seq<nat> := [7];
      LostOffset(rows, limit, offset, n);
      assert FirstPages(rows, In32(limit), In32(offset), size, k)
             == Take(Select(rows, In32(limit), OrZero(In32(offset))), n);
    }
  }

  lemma WideLimit<T>(rows: seq<T>, limit: Option<nat>, offset: nat, n: nat)
    requires n <= U32_MAX
    ensures Take(Select(rows, In32(limit), offset), n) == Take(Select(rows, limit, offset), n)
  {
  }
}
