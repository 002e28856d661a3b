/** Pagination as text (src/utils/pagination.rs): positions are counted in characters. */
module Pagination {
  import opened Text

  datatype Token = Token(text: string, start: nat)

  // -------------------------------------------------------------------------
  // Tokens

  /** Where the run of non-space characters at `i` ends. */
  function RunEnd(s: string, i: nat): (j: nat)
    requires i <= |s|
    ensures i <= j <= |s|
    ensures i < |s| && !IsSpace(s[i]) ==> i < j
    decreases |s| - i
  {
    if i < |s| && !IsSpace(s[i]) then RunEnd(s, i + 1) else i
  }

  /** The maximal runs of non-space characters of `s` from `i` on, each with its position. */
  function TokensFrom(s: string, i: nat): (tokens: seq<Token>)
    requires i <= |s|
    decreases |s| - i
  {
    if i == |s| then []
    else if IsSpace(s[i]) then TokensFrom(s, i + 1)
    else [Token(s[i..RunEnd(s, i)], i)] + TokensFrom(s, RunEnd(s, i))
  }

  function Texts(tokens: seq<Token>): (texts: seq<string>)
    ensures |texts| == |tokens|
    ensures forall k :: 0 <= k < |tokens| ==> texts[k] == tokens[k].text
  {
    seq(|tokens|, k requires 0 <= k < |tokens| => tokens[k].text)
  }

  /** `split_whitespace`. */
  function SplitWhitespace(s: string): seq<string> {
    Texts(TokensFrom(s, 0))
  }

  predicate OccursAt(s: string, part: string, p: nat) {
    p + |part| <= |s| && s[p..p + |part|] == part
  }

  /** `s[from..].find(part)`: the first occurrence. */
  method Find(s: string, part: string, from: nat) returns (p: Option<nat>)
    requires from <= |s|
    ensures p.Some? ==>
              from <= p.value && OccursAt(s, part, p.value) && forall k :: from <= k < p.value ==> !OccursAt(s, part, k)
    ensures p.None? ==> forall k: nat :: from <= k ==> !OccursAt(s, part, k)
  {
    var i := from;
    while i + |part| <= |s|
      invariant from <= i
      invariant forall k :: from <= k < i ==> !OccursAt(s, part, k)
    {
      if s[i..i + |part|] == part {
        return Some(i);
      }
      i := i + 1;
    }
    return None;
  }

  /** The spaces before the first token of `s` from `i` on are skipped, and that token is where it says it is. */
  lemma {:induction false} FirstToken(s: string, i: nat)
    requires i <= |s| && TokensFrom(s, i) != []
    ensures var t := TokensFrom(s, i)[0];
            && i <= t.start < t.start + |t.text| <= |s| && OccursAt(s, t.text, t.start)
            && (forall k :: i <= k < t.start ==> IsSpace(s[k])) && !IsSpace(t.text[0])
            && TokensFrom(s, i) == [t] + TokensFrom(s, t.start + |t.text|)
    decreases |s| - i
  {
    if IsSpace(s[i]) {
      FirstToken(s, i + 1);
    }
  }

  lemma TextsStep(tokens: seq<Token>, t: Token, rest: seq<Token>)
    requires tokens == [t] + rest
    ensures Texts(tokens) == [t.text] + Texts(rest)
  {
  }

  /** Only spaces lie between `i` and the next token, so its text cannot occur earlier. */
  lemma FirstOccurrence(s: string, i: nat, p: nat)
    requires i <= |s| && TokensFrom(s, i) != []
    requires var part := TokensFrom(s, i)[0].text;
             i <= p && OccursAt(s, part, p) && forall k :: i <= k < p ==> !OccursAt(s, part, k)
    ensures p == TokensFrom(s, i)[0].start
  {
    FirstToken(s, i);
    var t := TokensFrom(s, i)[0];
    forall k | i <= k < t.start ensures !OccursAt(s, t.text, k) {
      assert s[k] != t.text[0];
    }
  }

  /** Searching for the next token's text from the end of the one before finds its true position. */
  method Locate(sql: string, idx: nat, part: string) returns (start: nat)
    requires idx <= |sql| && TokensFrom(sql, idx) != [] && TokensFrom(sql, idx)[0].text == part
    ensures start + |part| <= |sql|
    ensures TokensFrom(sql, idx) == [Token(part, start)] + TokensFrom(sql, start + |part|)
  {
    var found := Find(sql, part, idx);
    start := if found.Some? then found.value else idx;
    FirstToken(sql, idx);
    assert OccursAt(sql, part, TokensFrom(sql, idx)[0].start);
    FirstOccurrence(sql, idx, start);
  }

  lemma Moves(all: seq<Token>, tokens: seq<Token>, rest: seq<Token>, t: Token, after: seq<Token>)
    requires all == tokens + rest && rest == [t] + after
    ensures all == tokens + [t] + after && Texts(rest)[1..] == Texts(after)
  {
    TextsStep(rest, t, after);
  }

  /** `tokenize_with_pos`: every token of the text, at its true position. */
  method TokenizeWithPos(sql: string) returns (tokens: seq<Token>)
    ensures tokens == TokensFrom(sql, 0)
  {
    tokens := [];
    var idx: nat := 0;
    var parts := SplitWhitespace(sql);
    ghost var all := TokensFrom(sql, 0);
    ghost var rest := all;
    while parts != []
      invariant idx <= |sql| && rest == TokensFrom(sql, idx)
      invariant parts == Texts(rest)
      invariant all == tokens + rest
      decreases |parts|
    {
      var start := Locate(sql, idx, parts[0]);
      ghost var after := TokensFrom(sql, start + |parts[0]|);
      Moves(all, tokens, rest, Token(parts[0], start), after);
      rest := after;
      idx := start + |parts[0]|;
      tokens := tokens + [Token(parts[0], start)];
      parts := parts[1..];
    }
  }

  // -------------------------------------------------------------------------
  // The clauses

  function TrimSemicolons(s: string): (t: string)
    ensures |t| <= |s| && t == s[..|t|]
  {
    if s != "" && s[|s| - 1] == ';' then TrimSemicolons(s[..|s| - 1]) else s
  }

  function Trimmed(query: string): string {
    TrimEnd(TrimSemicolons(TrimEnd(query)))
  }

  const OFFSET: string := "OFFSET"
  const LIMIT: string := "LIMIT"

  /** The second last token before `end` is the keyword. */
  predicate Keyword(tokens: seq<Token>, end: nat, keyword: string) {
    2 <= end <= |tokens| && Upper(tokens[end - 2].text) == keyword
  }

  /** The two tokens before `end` are the keyword and a number of 64 bits. */
  predicate Clause(tokens: seq<Token>, end: nat, keyword: string) {
    Keyword(tokens, end, keyword) && ParseUnsigned(tokens[end - 1].text, U64_MAX).Some?
  }

  /** How many tokens are left once a trailing `OFFSET n` is taken off. */
  function BeforeOffset(tokens: seq<Token>): (end: nat)
    ensures end <= |tokens|
  {
    if Clause(tokens, |tokens|, OFFSET) then |tokens| - 2 else |tokens|
  }

  function BeforeClauses(tokens: seq<Token>): (end: nat)
    ensures end <= |tokens|
  {
    var end := BeforeOffset(tokens);
    if Clause(tokens, end, LIMIT) then end - 2 else end
  }

  function Before(s: string, n: nat): string {
    if n <= |s| then s[..n] else s
  }

  /** What `strip_limit_offset` returns. */
  function Strip(query: string): string {
    var trimmed := Trimmed(query);
    BaseOf(trimmed, TokensFrom(trimmed, 0))
  }

  function BaseOf(trimmed: string, tokens: seq<Token>): string {
    var end := BeforeClauses(tokens);
    if end == |tokens| then trimmed else TrimEnd(Before(trimmed, tokens[end].start))
  }

  function LimitOf(tokens: seq<Token>): Option<nat> {
    var end := BeforeOffset(tokens);
    if Keyword(tokens, end, LIMIT) then ParseUnsigned(tokens[end - 1].text, U32_MAX) else None
  }

  function OffsetOf(tokens: seq<Token>): Option<nat> {
    var end := |tokens|;
    if Keyword(tokens, end, OFFSET) then ParseUnsigned(tokens[end - 1].text, U32_MAX) else None
  }

  function UserLimit(query: string): Option<nat> {
    LimitOf(TokensFrom(Trimmed(query), 0))
  }

  function UserOffset(query: string): Option<nat> {
    OffsetOf(TokensFrom(Trimmed(query), 0))
  }

  lemma {:induction false} StartsInside(s: string, i: nat, k: nat)
    requires i <= |s| && k < |TokensFrom(s, i)|
    ensures TokensFrom(s, i)[k].start < |s|
    decreases |s| - i
  {
    FirstToken(s, i);
    var t := TokensFrom(s, i)[0];
    if k > 0 {
      StartsInside(s, t.start + |t.text|, k - 1);
    }
  }

  /** Takes a trailing clause with this keyword off the first `end` tokens. */
  method TakeOff(tokens: seq<Token>, end: nat, keyword: string) returns (rest: nat)
    requires end <= |tokens|
    ensures rest == if Clause(tokens, end, keyword) then end - 2 else end
  {
    rest := end;
    if end >= 2 && Upper(tokens[end - 2].text) == keyword && ParseUnsigned(tokens[end - 1].text, U64_MAX).Some? {
      rest := end - 2;
    }
  }

  method StripLimitOffset(query: string) returns (base: string)
    ensures base == Strip(query)
  {
    var trimmed := Trimmed(query);
    var tokens := TokenizeWithPos(trimmed);
    forall k | 0 <= k < |tokens| ensures tokens[k].start < |trimmed| {
      StartsInside(trimmed, 0, k);
    }
    base := CutClauses(trimmed, tokens);
  }

  /** The second half of `strip_limit_offset`, on the trimmed query and its tokens. */
  method CutClauses(trimmed: string, tokens: seq<Token>) returns (base: string)
    requires forall k :: 0 <= k < |tokens| ==> tokens[k].start < |trimmed|
    ensures base == BaseOf(trimmed, tokens)
  {
    var end := TakeOff(tokens, |tokens|, OFFSET);
    end := TakeOff(tokens, end, LIMIT);
    if end == |tokens| {
      return trimmed;
    }
    base := TrimEnd(trimmed[..tokens[end].start]);
  }

  method ExtractUserLimit(query: string) returns (limit: Option<nat>)
    ensures limit == UserLimit(query)
  {
    var tokens := TokenizeWithPos(Trimmed(query));
    var end := TakeOff(tokens, |tokens|, OFFSET);
    if Keyword(tokens, end, LIMIT) {
      return ParseUnsigned(tokens[end - 1].text, U32_MAX);
    }
    return None;
  }

  method ExtractUserOffset(query: string) returns (offset: Option<nat>)
    ensures offset == UserOffset(query)
  {
    var tokens := TokenizeWithPos(Trimmed(query));
    var end: nat := |tokens|;
    if Keyword(tokens, end, OFFSET) {
      return ParseUnsigned(tokens[end - 1].text, U32_MAX);
    }
    return None;
  }

  // -------------------------------------------------------------------------
  // Building a page's query, in u32 arithmetic that wraps

  function Wrap32(n: nat): (u: nat)
    ensures u <= U32_MAX
    ensures u == n <==> n <= U32_MAX
  {
    n % (U32_MAX + 1)
  }

  function SaturatingSub(a: nat, b: nat): nat {
    if a < b then 0 else a - b
  }

  function PageOffset(page: nat, size: nat): (offset: nat)
    ensures offset <= U32_MAX
  {
    Wrap32(SaturatingSub(page, 1) * size)
  }

  function Min(a: nat, b: nat): nat {
    if a < b then a else b
  }

  function FetchCount(limit: Option<nat>, size: nat, pageOffset: nat): nat {
    var full := Wrap32(size + 1);
    if limit.None? then full else Min(SaturatingSub(limit.value, pageOffset), full)
  }

  function FetchOffset(offset: Option<nat>, pageOffset: nat): nat {
    Min((if offset.None? then 0 else offset.value) + pageOffset, U32_MAX)
  }

  /** Each word after a space. */
  function Spaced(words: seq<string>): string {
    if words == [] then "" else " " + (words[0] + Spaced(words[1..]))
  }

  /** `format!("{} LIMIT {} OFFSET {}", ..)`. */
  function WithClauses(base: string, count: nat, offset: nat): string {
    base + Spaced(["LIMIT", PrintNat(count), "OFFSET", PrintNat(offset)])
  }

  function Build(query: string, size: nat, page: nat): string {
    var pageOffset := PageOffset(page, size);
    WithClauses(Strip(query), FetchCount(UserLimit(query), size, pageOffset),
                FetchOffset(UserOffset(query), pageOffset))
  }

  method BuildPaginatedQuery(query: string, size: nat, page: nat) returns (paginated: string)
    requires size <= U32_MAX && page <= U32_MAX
    ensures paginated == Build(query, size, page)
  {
    var pageOffset := PageOffset(page, size);
    var userLimit := ExtractUserLimit(query);
    var userOffset := ExtractUserOffset(query);
    var base := StripLimitOffset(query);
    paginated := WithClauses(base, FetchCount(userLimit, size, pageOffset), FetchOffset(userOffset, pageOffset));
  }
}
