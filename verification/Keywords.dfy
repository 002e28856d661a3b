/** The keyword scanner of src/handlers/query.rs and the classifiers built on it. */
module Keywords {
  import opened Text

  // -------------------------------------------------------------------------
  // What the scanner means: comments become one space each, the text ends at
  // the first quote, dollar sign or semicolon, and its words are its maximal
  // runs of word characters.

  /** A character that ends the part of a statement that keywords are read from. */
  predicate IsStopper(c: char) {
    c == '\'' || c == '"' || c == '$' || c == ';'
  }

  predicate Starts(s: string, a: char, b: char) {
    |s| >= 2 && s[0] == a && s[1] == b
  }

  /** The text after the newline that ends a line comment; empty if there is none. */
  function AfterLine(s: string): (r: string)
    ensures |r| <= |s|
  {
    if s == "" then "" else if s[0] == '\n' then s[1..] else AfterLine(s[1..])
  }

  /** The text after the block comment open at `depth`, nested comments counted; empty if it never closes. */
  function AfterBlock(s: string, depth: nat): (r: string)
    ensures |r| <= |s|
  {
    if depth == 0 || s == "" then s
    else if Starts(s, '*', '/') then AfterBlock(s[2..], depth - 1)
    else if Starts(s, '/', '*') then AfterBlock(s[2..], depth + 1)
    else AfterBlock(s[1..], depth)
  }

  /** The statement text up to the first stopper, each comment replaced by a space. */
  function Code(s: string): string
    decreases |s|
  {
    if s == "" then ""
    else if Starts(s, '-', '-') then " " + Code(AfterLine(s[2..]))
    else if Starts(s, '/', '*') then " " + Code(AfterBlock(s[2..], 1))
    else if IsStopper(s[0]) then ""
    else [s[0]] + Code(s[1..])
  }

  /** The maximal runs of word characters of `word + s`, where `word` is a run already read. */
  function WordsFrom(word: string, s: string): seq<string>
    decreases |s|
  {
    if s == "" then (if word == "" then [] else [word])
    else if IsWordChar(s[0]) then WordsFrom(word + [s[0]], s[1..])
    else (if word == "" then [] else [word]) + WordsFrom("", s[1..])
  }

  function Words(s: string): seq<string> {
    WordsFrom("", s)
  }

  function First<T>(s: seq<T>, n: nat): seq<T> {
    if |s| <= n then s else s[..n]
  }

  /** What `leading_keywords(query, n)` returns. */
  function LeadingKeywords(query: string, n: nat): (words: seq<string>)
    ensures |words| <= n
  {
    First(Words(Upper(Code(query))), n)
  }

  // -------------------------------------------------------------------------
  // The scanner as written: one pass over the characters.

  /** The words still to come: `word` is the run being read, `depth` the open block comments. */
  ghost function Pending(word: string, s: string, depth: nat): seq<string> {
    WordsFrom(word, Upper(if depth == 0 then Code(s) else Code(AfterBlock(s, depth))))
  }

  /** One pass with a word buffer and a comment depth computes `LeadingKeywords`. */
  method ScanLeadingKeywords(query: string, n: nat) returns (words: seq<string>)
    requires n >= 1
    ensures words == LeadingKeywords(query, n)
  {
    words := [];
    var word := "";
    var chars := query;
    var commentDepth := 0;
    ghost var all := Pending("", query, 0);
    while chars != ""
      invariant |words| < n
      invariant commentDepth > 0 ==> word == ""
      invariant all == words + Pending(word, chars, commentDepth)
      decreases |chars|
    {
      if commentDepth > 0 {
        PendingInComment(chars, commentDepth);
        chars, commentDepth := ReadInComment(chars, commentDepth);
        continue;
      }
      var c := chars[0];
      if IsWordChar(c) {
        PendingWordChar(word, chars);
        word := word + [UpperChar(c)];
        chars := chars[1..];
        assert all == words + Pending(word, chars, commentDepth);
        continue;
      }
      PendingBreak(word, chars);
      Regroup(words, Flush(word), PendingAfterBreak(chars));
      words := words + Flush(word);
      word := "";
      if |words| == n {
        return;
      }
      var stop: bool;
      chars, commentDepth, stop := ReadBreak(chars);
      if stop {
        Regroup(words, [], []);
        return;
      }
    }
    if word != "" && |words| < n {
      words := words + [word];
    }
  }

  /** One character, or one comment bracket, inside a block comment. */
  method ReadInComment(chars: string, depth: nat) returns (rest: string, commentDepth: nat)
    requires chars != "" && depth > 0
    ensures |rest| < |chars|
    ensures Pending("", rest, commentDepth) == Pending("", chars, depth)
  {
    if Starts(chars, '*', '/') {
      rest, commentDepth := chars[2..], depth - 1;
    } else if Starts(chars, '/', '*') {
      rest, commentDepth := chars[2..], depth + 1;
    } else {
      rest, commentDepth := chars[1..], depth;
    }
  }

  /** What follows a character that ends a word: a comment, the end of the code, or just the next character. */
  method ReadBreak(chars: string) returns (rest: string, commentDepth: nat, stop: bool)
    requires chars != "" && !IsWordChar(chars[0])
    ensures |rest| < |chars|
    ensures PendingAfterBreak(chars) == if stop then [] else Pending("", rest, commentDepth)
  {
    commentDepth, stop := 0, false;
    if Starts(chars, '-', '-') {
      rest := SkipLine(chars[2..]);
    } else if Starts(chars, '/', '*') {
      rest, commentDepth := chars[2..], 1;
    } else {
      rest, stop := chars[1..], IsStopper(chars[0]);
    }
  }

  /** The inner loop of the line-comment arm: skip to just after the newline, or to the end. */
  method SkipLine(s: string) returns (rest: string)
    ensures rest == AfterLine(s)
  {
    rest := s;
    while rest != ""
      invariant AfterLine(rest) == AfterLine(s)
      decreases |rest|
    {
      var c := rest[0];
      rest := rest[1..];
      if c == '\n' {
        return;
      }
    }
  }

  lemma Regroup<T>(a: seq<T>, b: seq<T>, c: seq<T>)
    ensures a + (b + c) == (a + b) + c
    ensures b == [] ==> a + b == a
  {
  }

  function Flush(word: string): seq<string> {
    if word == "" then [] else [word]
  }

  lemma PendingWordChar(word: string, s: string)
    requires s != "" && IsWordChar(s[0])
    ensures Pending(word, s, 0) == Pending(word + [UpperChar(s[0])], s[1..], 0)
  {
    var tail := Code(s[1..]);
    assert Code(s) == [s[0]] + tail;
    assert Upper(Code(s))[0] == UpperChar(s[0]) && Upper(Code(s))[1..] == Upper(tail);
  }

  lemma PendingInComment(s: string, depth: nat)
    requires s != "" && depth > 0
    ensures Pending("", s, depth) ==
            if Starts(s, '*', '/') then Pending("", s[2..], depth - 1)
            else if Starts(s, '/', '*') then Pending("", s[2..], depth + 1)
            else Pending("", s[1..], depth)
  {
  }

  /** What is pending once the break that begins `s` (a comment, a stopper or a separator) is read. */
  ghost function PendingAfterBreak(s: string): seq<string>
    requires s != ""
  {
    if Starts(s, '-', '-') then Pending("", AfterLine(s[2..]), 0)
    else if Starts(s, '/', '*') then Pending("", s[2..], 1)
    else if IsStopper(s[0]) then []
    else Pending("", s[1..], 0)
  }

  lemma PendingBreak(word: string, s: string)
    requires s != "" && !IsWordChar(s[0])
    ensures Pending(word, s, 0) == Flush(word) + PendingAfterBreak(s)
  {
    var code := Code(s);
    if code != "" {
      assert !IsWordChar(UpperChar(code[0]));
      assert Upper(code)[1..] == Upper(code[1..]);
      assert WordsFrom(word, Upper(code)) == Flush(word) + WordsFrom("", Upper(code[1..]));
    }
  }

  // -------------------------------------------------------------------------
  // Classifiers

  /** `TransactionEffect`: what a statement does to the surrounding transaction. */
  datatype Effect = Opens | Closes | Chains | NoEffect

  predicate IsEndVerb(word: string) {
    word == "COMMIT" || word == "END" || word == "ROLLBACK" || word == "ABORT"
  }

  /** `rest.windows(2).any(|p| p[0] == "AND" && p[1] == "CHAIN")`. */
  predicate HasAndChain(words: seq<string>) {
    exists i :: 0 <= i < |words| - 1 && words[i] == "AND" && words[i + 1] == "CHAIN"
  }

  function EffectOfWords(words: seq<string>): Effect {
    if words == [] then NoEffect
    else
      var first := words[0];
      var tail := words[1..];
      var rest := if IsEndVerb(first) && tail != [] && (tail[0] == "WORK" || tail[0] == "TRANSACTION")
                  then tail[1..] else tail;
      var second := if rest == [] then None else Some(rest[0]);
      if first == "BEGIN" then Opens
      else if first == "START" && second == Some("TRANSACTION") then Opens
      else if (first == "COMMIT" || first == "ROLLBACK") && second == Some("PREPARED") then NoEffect
      else if first == "ROLLBACK" && second == Some("TO") then NoEffect
      else if IsEndVerb(first) && HasAndChain(rest) then Chains
      else if IsEndVerb(first) then Closes
      else if first == "PREPARE" && second == Some("TRANSACTION") then Closes
      else NoEffect
  }

  function TransactionEffect(query: string): Effect {
    EffectOfWords(LeadingKeywords(query, 6))
  }

  predicate SetsStateWords(words: seq<string>) {
    var word := (i: nat) => if i < |words| then Some(words[i]) else None;
    || (word(0) == Some("SET") && word(1) != Some("LOCAL") && word(1) != Some("TRANSACTION")
        && word(1) != Some("CONSTRAINTS"))
    || (&& word(0) == Some("CREATE")
        && (|| ((word(1) == Some("TEMP") || word(1) == Some("TEMPORARY")) && word(2) == Some("TABLE"))
            || (&& (word(1) == Some("GLOBAL") || word(1) == Some("LOCAL"))
                && (word(2) == Some("TEMP") || word(2) == Some("TEMPORARY"))
                && word(3) == Some("TABLE"))))
  }

  predicate SetsSessionLocalState(query: string) {
    SetsStateWords(LeadingKeywords(query, 4))
  }

  /** Exactly the words that can open, close or chain a transaction. */
  predicate IsTransactionVerb(word: string) {
    word == "BEGIN" || word == "START" || word == "PREPARE" || IsEndVerb(word)
  }

  /**
   A statement is transaction control only if its first keyword is a transaction verb, and then it sets no session
   state.
   */
  lemma ControlNeedsVerb(query: string)
    requires TransactionEffect(query) != NoEffect
    ensures LeadingKeywords(query, 1) != [] && IsTransactionVerb(LeadingKeywords(query, 1)[0])
    ensures !SetsSessionLocalState(query)
  {
    var words := Words(Upper(Code(query)));
    assert LeadingKeywords(query, 6)[0] == words[0];
    assert LeadingKeywords(query, 4)[0] == words[0];
  }
}
