/**
 The statements of PostgreSQL that the classifiers are about, each with its spellings and its meaning: transaction
 commands (`BEGIN`, `COMMIT` and their kin in the PostgreSQL documentation) and those that set session state.
 */
module Commands {
  import opened Text
  import opened Keywords
  import opened Comments
  import Gaps

  // -------------------------------------------------------------------------
  // Spellings: words in any case, whitespace between them, and what follows

  /** A word with the whitespace before it. */
  datatype Spelling = Spelling(gap: string, word: string)

  predicate IsBlank(g: string) {
    forall i :: 0 <= i < |g| ==> IsSpace(g[i])
  }

  predicate IsWord(w: string) {
    w != "" && forall i :: 0 <= i < |w| ==> IsWordChar(w[i])
  }

  /** Whitespace separates the words; before the first one it may be missing. */
  predicate WellSpelled(parts: seq<Spelling>) {
    forall i :: 0 <= i < |parts| ==> IsBlank(parts[i].gap) && IsWord(parts[i].word) && (i > 0 ==> parts[i].gap != "")
  }

  function Spelled(parts: seq<Spelling>): string {
    if parts == [] then "" else parts[0].gap + (parts[0].word + Spelled(parts[1..]))
  }

  function UpperWords(parts: seq<Spelling>): (words: seq<string>)
    ensures |words| == |parts|
  {
    if parts == [] then [] else [Upper(parts[0].word)] + UpperWords(parts[1..])
  }

  /** What follows does not go on with the last word. */
  predicate Apart(tail: string) {
    tail == "" || !IsWordChar(tail[0])
  }

  lemma {:induction false} CodeOfPlain(x: string, tail: string)
    requires forall i :: 0 <= i < |x| ==> IsWordChar(x[i]) || IsSpace(x[i])
    ensures Code(x + tail) == x + Code(tail)
  {
    if x == "" {
      assert x + tail == tail;
    } else {
      CodeOfPlain(x[1..], tail);
      if IsSpace(x[0]) {
        Gaps.SpaceIsPlain(x[0]);
      }
      assert x + tail == [x[0]] + (x[1..] + tail);
      Gaps.CodeAtChar(x + tail, x[0], x[1..] + tail);
    }
  }

  lemma {:induction false} SpelledIsPlain(parts: seq<Spelling>)
    requires WellSpelled(parts)
    ensures forall i :: 0 <= i < |Spelled(parts)| ==> IsWordChar(Spelled(parts)[i]) || IsSpace(Spelled(parts)[i])
  {
    if parts != [] {
      assert WellSpelled(parts[1..]);
      SpelledIsPlain(parts[1..]);
    }
  }

  lemma {:induction false} WordThen(read: string, w: string, rest: string)
    requires (forall i :: 0 <= i < |w| ==> IsWordChar(w[i])) && Apart(rest) && read + w != ""
    ensures WordsFrom(read, w + rest) == [read + w] + WordsFrom("", rest)
    decreases |w|
  {
    if w == "" {
      assert w + rest == rest && read + w == read;
      if rest != "" {
        assert WordsFrom("", rest) == [] + WordsFrom("", rest[1..]);
      }
    } else {
      WordThen(read + [w[0]], w[1..], rest);
      assert (w + rest)[1..] == w[1..] + rest;
      assert read + [w[0]] + w[1..] == read + w;
    }
  }

  lemma {:induction false} GapThen(g: string, rest: string)
    requires forall i :: 0 <= i < |g| ==> !IsWordChar(g[i])
    ensures WordsFrom("", g + rest) == WordsFrom("", rest)
  {
    if g == "" {
      assert g + rest == rest;
    } else {
      GapThen(g[1..], rest);
      assert (g + rest)[1..] == g[1..] + rest;
    }
  }

  lemma BlankHasNoWord(g: string)
    requires IsBlank(g)
    ensures forall i :: 0 <= i < |Upper(g)| ==> !IsWordChar(Upper(g)[i])
  {
    forall i | 0 <= i < |g| ensures !IsWordChar(Upper(g)[i]) {
      Gaps.SpaceIsPlain(g[i]);
    }
  }

  lemma UpperOfWord(w: string)
    requires IsWord(w)
    ensures IsWord(Upper(w))
  {
    forall i | 0 <= i < |w| ensures IsWordChar(Upper(w)[i]) {
      assert Upper(w)[i] == UpperChar(w[i]);
    }
  }

  lemma ApartUpper(parts: seq<Spelling>, code: string)
    requires Apart(code) && WellSpelled(parts) && (parts != [] ==> parts[0].gap != "")
    ensures Apart(Upper(Spelled(parts) + code))
  {
    if parts != [] {
      Gaps.SpaceIsPlain(parts[0].gap[0]);
      assert (Spelled(parts) + code)[0] == parts[0].gap[0];
    } else {
      assert Spelled(parts) + code == code;
    }
  }

  lemma {:induction false} WordsOfSpelled(parts: seq<Spelling>, code: string)
    requires WellSpelled(parts) && Apart(code)
    ensures Words(Upper(Spelled(parts) + code)) == UpperWords(parts) + Words(Upper(code))
  {
    if parts == [] {
      assert Spelled(parts) + code == code;
    } else {
      var p, rest := parts[0], Spelled(parts[1..]) + code;
      assert WellSpelled(parts[1..]) && (parts[1..] != [] ==> parts[1..][0].gap != "");
      assert Spelled(parts) + code == p.gap + (p.word + rest);
      UpperOfConcat(p.gap, p.word + rest);
      UpperOfConcat(p.word, rest);
      BlankHasNoWord(p.gap);
      UpperOfWord(p.word);
      ApartUpper(parts[1..], code);
      GapThen(Upper(p.gap), Upper(p.word) + Upper(rest));
      WordThen("", Upper(p.word), Upper(rest));
      assert "" + Upper(p.word) == Upper(p.word);
      WordsOfSpelled(parts[1..], code);
      Regroup([Upper(p.word)], UpperWords(parts[1..]), Words(Upper(code)));
    }
  }

  lemma ApartCode(tail: string)
    requires Apart(tail)
    ensures Apart(Code(tail))
  {
  }

  /** The keywords of a spelled text are its words in capitals and then those of what follows. */
  lemma KeywordsOfSpelled(parts: seq<Spelling>, tail: string, n: nat)
    requires WellSpelled(parts) && Apart(tail)
    ensures LeadingKeywords(Spelled(parts) + tail, n) == First(UpperWords(parts) + Words(Upper(Code(tail))), n)
  {
    SpelledIsPlain(parts);
    CodeOfPlain(Spelled(parts), tail);
    ApartCode(tail);
    WordsOfSpelled(parts, Code(tail));
  }

  /** Nothing but whitespace, perhaps a semicolon and whatever is behind it. */
  predicate Ends(tail: string) {
    TrimStart(tail) == "" || TrimStart(tail)[0] == ';'
  }

  lemma {:induction false} EndHasNoWord(tail: string)
    requires Ends(tail)
    ensures Apart(tail) && Words(Upper(Code(tail))) == []
  {
    if tail != "" && IsSpace(tail[0]) {
      EndHasNoWord(tail[1..]);
      Gaps.SpaceIsPlain(tail[0]);
      Gaps.CodeAtChar(tail, tail[0], tail[1..]);
      HeadBreak([tail[0]], Code(tail[1..]));
    }
  }

  /** Code ends at the first quote, dollar sign or semicolon: nothing behind it is read, whatever it is. */
  lemma {:induction false} CodeStops(a: string, c: char, b: string)
    requires Gaps.EndsInCode(a) && c in {'\'', '"', '$', ';'}
    ensures Code(a + ([c] + b)) == Code(a)
    decreases |a|
  {
    var x := [c] + b;
    if a == "" {
      assert a + x == x;
    } else {
      var head, rest := Gaps.CodeOneStep(a, x);
      CodeStops(rest, c, b);
      OneStepAlone(a, head, rest);
    }
  }

  lemma OneStepAlone(a: string, head: string, rest: string)
    requires a != "" && Gaps.EndsInCode(a)
    requires head == (if Starts(a, '-', '-') || Starts(a, '/', '*') then " " else a[..1])
    requires rest == if Starts(a, '-', '-') then AfterLine(a[2..])
                     else if Starts(a, '/', '*') then AfterBlock(a[2..], 1) else a[1..]
    ensures Code(a) == head + Code(rest)
  {
  }

  /** No word of a string, a dollar-quoted body, a quoted name or a second statement is taken for a keyword. */
  lemma DataIsNotRead(a: string, c: char, b: string, n: nat)
    requires Gaps.EndsInCode(a) && c in {'\'', '"', '$', ';'}
    ensures LeadingKeywords(a + ([c] + b), n) == LeadingKeywords(a, n)
    ensures TransactionEffect(a + ([c] + b)) == TransactionEffect(a)
    ensures SetsSessionLocalState(a + ([c] + b)) == SetsSessionLocalState(a)
  {
    CodeStops(a, c, b);
  }

  // -------------------------------------------------------------------------
  // Transaction commands

  datatype Noise = NoNoise | Work | Transaction
  datatype Chain = NotSaid | AndChain | AndNoChain
  datatype EndVerb = Commit | End | Rollback | Abort

  datatype Command =
    | BeginWork(noise: Noise)                              // modes may follow
    | StartTransaction                                     // modes may follow
    | Finish(verb: EndVerb, noise: Noise, chain: Chain)
    | RollbackTo(noise: Noise, saidSavepoint: bool)        // the savepoint's name follows
    | CommitPrepared                                       // the transaction's identifier follows, a literal
    | RollbackPrepared
    | PrepareTransaction
    | PreparePlan(name: string)                            // `AS` and a statement follow
    | Other(first: string)                                 // no transaction verb, anything may follow

  function NoiseWords(noise: Noise): seq<string> {
    match noise {
      case NoNoise => []
      case Work => ["WORK"]
      case Transaction => ["TRANSACTION"]
    }
  }

  function ChainWords(chain: Chain): seq<string> {
    match chain {
      case NotSaid => []
      case AndChain => ["AND", "CHAIN"]
      case AndNoChain => ["AND", "NO", "CHAIN"]
    }
  }

  function VerbWord(verb: EndVerb): string {
    match verb {
      case Commit => "COMMIT"
      case End => "END"
      case Rollback => "ROLLBACK"
      case Abort => "ABORT"
    }
  }

  function CommandWords(c: Command): seq<string> {
    match c {
      case BeginWork(noise) => ["BEGIN"] + NoiseWords(noise)
      case StartTransaction => ["START", "TRANSACTION"]
      case Finish(verb, noise, chain) => [VerbWord(verb)] + (NoiseWords(noise) + ChainWords(chain))
      case RollbackTo(noise, said) =>
        ["ROLLBACK"] + (NoiseWords(noise) + (if said then ["TO", "SAVEPOINT"] else ["TO"]))
      case CommitPrepared => ["COMMIT", "PREPARED"]
      case RollbackPrepared => ["ROLLBACK", "PREPARED"]
      case PrepareTransaction => ["PREPARE", "TRANSACTION"]
      case PreparePlan(name) => ["PREPARE", name]
      case Other(first) => [first]
    }
  }

  /** Names that the grammar leaves to the command. */
  predicate WellNamed(c: Command) {
    && (c.PreparePlan? ==> c.name != "TRANSACTION")
    && (c.Other? ==> c.first !in {"BEGIN", "START", "COMMIT", "END", "ROLLBACK", "ABORT", "PREPARE"})
  }

  /** Whether the command is to be over after its words. */
  predicate Follows(c: Command, tail: string) {
    if c.Finish? then Ends(tail) else Apart(tail)
  }

  /** What the command does to the open transaction when it succeeds. */
  datatype Meaning = Starting | Ending | EndingAndStarting | Neither

  function MeaningOf(c: Command): Meaning {
    match c {
      case BeginWork(_) => Starting
      case StartTransaction => Starting
      case Finish(_, _, chain) => if chain == AndChain then EndingAndStarting else Ending
      case RollbackTo(_, _) => Neither
      case CommitPrepared => Neither
      case RollbackPrepared => Neither
      case PrepareTransaction => Ending
      case PreparePlan(_) => Neither
      case Other(_) => Neither
    }
  }

  function EffectOf(m: Meaning): Effect {
    match m {
      case Starting => Opens
      case Ending => Closes
      case EndingAndStarting => Chains
      case Neither => NoEffect
    }
  }

  /** `text` is the command, in some spelling, with what may follow it. */
  predicate Spells(parts: seq<Spelling>, tail: string, c: Command) {
    WellSpelled(parts) && UpperWords(parts) == CommandWords(c) && Follows(c, tail)
  }

  lemma NoChainInside(noise: Noise, chain: Chain)
    ensures HasAndChain(ChainWords(chain)) <==> chain == AndChain
  {
    var words := ChainWords(chain);
    if chain == AndChain {
      assert words[0] == "AND" && words[1] == "CHAIN";
    }
  }

  lemma FinishEffect(verb: EndVerb, noise: Noise, chain: Chain)
    ensures EffectOfWords(CommandWords(Finish(verb, noise, chain))) == EffectOf(MeaningOf(Finish(verb, noise, chain)))
  {
    var words := CommandWords(Finish(verb, noise, chain));
    NoChainInside(noise, chain);
    assert words[1..] == NoiseWords(noise) + ChainWords(chain);
    if noise == NoNoise {
      assert words[1..] == ChainWords(chain);
    } else {
      assert words[1..][1..] == ChainWords(chain);
    }
  }

  /** For the other commands the first words decide, whatever words follow. */
  lemma FirstWordsDecide(c: Command, more: seq<string>)
    requires !c.Finish? && WellNamed(c)
    ensures c.Other? || |CommandWords(c)| <= 4
    ensures EffectOfWords(First(CommandWords(c) + more, 6)) == EffectOf(MeaningOf(c))
  {
    var words := CommandWords(c);
    var all := First(words + more, 6);
    assert |words| <= 4 && words <= all;
    assert all[0] == words[0];
    assert |words| > 1 ==> all[1] == words[1];
    assert |words| > 2 ==> all[2] == words[2];
  }

  /** The classifier gives every transaction command, in every spelling, its meaning. */
  lemma EffectIsMeaning(parts: seq<Spelling>, tail: string, c: Command)
    requires Spells(parts, tail, c) && WellNamed(c)
    ensures TransactionEffect(Spelled(parts) + tail) == EffectOf(MeaningOf(c))
  {
    var more := Words(Upper(Code(tail)));
    if c.Finish? {
      EndHasNoWord(tail);
      assert CommandWords(c) + more == CommandWords(c);
      FinishEffect(c.verb, c.noise, c.chain);
    } else {
      FirstWordsDecide(c, more);
    }
    KeywordsOfSpelled(parts, tail, 6);
  }

  // -------------------------------------------------------------------------
  // Statements that set session state

  datatype SetScope = Unsaid | ForSession | ForTransaction
  datatype TempScope = NoScope | GlobalScope | LocalScope

  datatype Setting =
    | SetParameter(reach: SetScope, name: string)             // a value follows
    | SetTransaction                                          // modes follow
    | SetConstraints
    | CreateTempTable(scope: TempScope, spelledOut: bool)     // name and columns follow
    | CreateTemp(scope: TempScope, spelledOut: bool, what: string)
    | CreateOther(what: string)
    | NoSetting(first: string)

  function TempWords(scope: TempScope, spelledOut: bool): seq<string> {
    (match scope {
       case NoScope => []
       case GlobalScope => ["GLOBAL"]
       case LocalScope => ["LOCAL"]
     })
    + [if spelledOut then "TEMPORARY" else "TEMP"]
  }

  function SettingWords(c: Setting): seq<string> {
    match c {
      case SetParameter(Unsaid, name) => ["SET", name]
      case SetParameter(ForSession, name) => ["SET", "SESSION", name]
      case SetParameter(ForTransaction, name) => ["SET", "LOCAL", name]
      case SetTransaction => ["SET", "TRANSACTION"]
      case SetConstraints => ["SET", "CONSTRAINTS"]
      case CreateTempTable(scope, spelledOut) => ["CREATE"] + (TempWords(scope, spelledOut) + ["TABLE"])
      case CreateTemp(scope, spelledOut, what) => ["CREATE"] + (TempWords(scope, spelledOut) + [what])
      case CreateOther(what) => ["CREATE", what]
      case NoSetting(first) => [first]
    }
  }

  predicate SettingNamed(c: Setting) {
    && (c.SetParameter? && c.reach == Unsaid ==> c.name !in {"LOCAL", "TRANSACTION", "CONSTRAINTS"})
    && (c.CreateTemp? ==> c.what != "TABLE")
    && (c.CreateOther? ==> c.what !in {"TEMP", "TEMPORARY", "GLOBAL", "LOCAL"})
    && (c.NoSetting? ==> c.first !in {"SET", "CREATE"})
  }

  /** Parameters set for longer than the transaction, and temporary tables, are only there on their own connection. */
  predicate SetsState(c: Setting) {
    match c {
      case SetParameter(reach, _) => reach != ForTransaction
      case CreateTempTable(_, _) => true
      case _ => false
    }
  }

  lemma SettingDecides(c: Setting, more: seq<string>)
    requires SettingNamed(c)
    ensures SetsStateWords(First(SettingWords(c) + more, 4)) <==> SetsState(c)
  {
    var words := SettingWords(c);
    var all := First(words + more, 4);
    assert |words| <= 4 && words <= all;
    assert all[0] == words[0];
    assert |words| > 1 ==> all[1] == words[1];
    assert |words| > 2 ==> all[2] == words[2];
    assert |words| > 3 ==> all[3] == words[3];
  }

  /** The classifier recognises these statements, in every spelling, and no others. */
  lemma SettingExactly(parts: seq<Spelling>, tail: string, c: Setting)
    requires WellSpelled(parts) && UpperWords(parts) == SettingWords(c) && Apart(tail) && SettingNamed(c)
    ensures SetsSessionLocalState(Spelled(parts) + tail) <==> SetsState(c)
  {
    SettingDecides(c, Words(Upper(Code(tail))));
    KeywordsOfSpelled(parts, tail, 4);
  }

  // -------------------------------------------------------------------------
  // Statements that return rows

  predicate IsRowWord(u: string) {
    || u == "SELECT" || u == "WITH" || u == "SHOW" || u == "EXPLAIN" || u == "DESCRIBE" || u == "VALUES"
    || u == "TABLE" || u == "PRAGMA" || u == "CALL"
  }

  predicate StartsWithRowWord(s: string) {
    exists n :: 0 <= n <= |s| && IsRowWord(Upper(s[..n]))
  }

  lemma RowWordIsListed(u: string)
    ensures IsRowWord(u) <==> u in ROW_KEYWORDS
  {
    var k := ROW_KEYWORDS;
    assert k[0] == "SELECT" && k[1] == "WITH" && k[2] == "SHOW" && k[3] == "EXPLAIN" && k[4] == "DESCRIBE";
    assert k[5] == "VALUES" && k[6] == "TABLE" && k[7] == "PRAGMA" && k[8] == "CALL" && |k| == 9;
  }

  /** Row-returning statements are those that, past their leading comments, start with one of nine words in any case. */
  lemma RowsExactly(query: string)
    ensures ReturnsResultSet(query) <==> StartsWithRowWord(StripLeading(query))
  {
    var s := StripLeading(query);
    if n :| 0 <= n <= |s| && IsRowWord(Upper(s[..n])) {
      RowWordIsListed(Upper(s[..n]));
      var i :| 0 <= i < |ROW_KEYWORDS| && ROW_KEYWORDS[i] == Upper(s[..n]);
      UpperOfPrefix(s, n);
      assert StartsWith(Upper(s), ROW_KEYWORDS[i]);
    }
    if StartsRows(Upper(s)) {
      var i :| 0 <= i < |ROW_KEYWORDS| && StartsWith(Upper(s), ROW_KEYWORDS[i]);
      UpperOfPrefix(s, |ROW_KEYWORDS[i]|);
      RowWordIsListed(ROW_KEYWORDS[i]);
    }
  }

  /**
   Whitespace, a whole line comment, or a whole block comment with no bracket inside that the stripper would take for
   its end.
   */
  datatype Lead = Blank(g: string) | LineComment(body: string) | BlockComment(body: string)

  predicate NoClose(body: string) {
    forall i :: 0 <= i < |body| - 1 ==> !(body[i] == '*' && body[i + 1] == '/')
  }

  predicate WellFormed(lead: Lead) {
    match lead {
      case Blank(g) => IsBlank(g)
      case LineComment(body) => forall i :: 0 <= i < |body| ==> body[i] != '\n'
      case BlockComment(body) => NoClose(body) && (body != "" ==> body[0] != '/')
    }
  }

  function LeadText(lead: Lead): string {
    match lead {
      case Blank(g) => g
      case LineComment(body) => "--" + (body + "\n")
      case BlockComment(body) => "/*" + (body + "*/")
    }
  }

  function LeadsText(leads: seq<Lead>): string {
    if leads == [] then "" else LeadText(leads[0]) + LeadsText(leads[1..])
  }

  lemma {:induction false} LineThen(body: string, rest: string)
    requires forall i :: 0 <= i < |body| ==> body[i] != '\n'
    ensures AfterLine(body + ("\n" + rest)) == rest
  {
    var s := body + ("\n" + rest);
    if body == "" {
      assert s == "\n" + rest && s[1..] == rest;
    } else {
      LineThen(body[1..], rest);
      assert s[1..] == body[1..] + ("\n" + rest);
    }
  }

  lemma {:induction false} CloseThen(body: string, rest: string)
    requires NoClose(body)
    ensures AfterFirstClose(body + ("*/" + rest)) == Some(rest)
  {
    var s := body + ("*/" + rest);
    if body == "" {
      assert s == "*/" + rest && s[2..] == rest;
    } else {
      forall i | 0 <= i < |body| - 2 ensures !(body[1..][i] == '*' && body[1..][i + 1] == '/') {
        assert body[1..][i] == body[i + 1] && body[1..][i + 1] == body[i + 2];
      }
      CloseThen(body[1..], rest);
      assert s[1..] == body[1..] + ("*/" + rest);
      assert s[1] == if |body| > 1 then body[1] else '*';
    }
  }

  lemma {:induction false} BlankThen(g: string, rest: string)
    requires IsBlank(g)
    ensures TrimStart(g + rest) == TrimStart(rest)
  {
    if g == "" {
      assert g + rest == rest;
    } else {
      BlankThen(g[1..], rest);
      assert (g + rest)[1..] == g[1..] + rest;
    }
  }

  lemma LeadThen(lead: Lead, rest: string)
    requires WellFormed(lead)
    ensures StripLeading(LeadText(lead) + rest) == StripLeading(rest)
  {
    var s := LeadText(lead) + rest;
    match lead {
      case Blank(g) => BlankThen(g, rest);
      case LineComment(body) =>
        assert s == "--" + (body + ("\n" + rest));
        assert s[2..] == body + ("\n" + rest) && TrimStart(s) == s;
        LineThen(body, rest);
      case BlockComment(body) =>
        var inside := body + ("*/" + rest);
        assert s == "/*" + inside;
        CloseThen(body, rest);
        OpenIsNoClose(s, inside);
        assert TrimStart(s) == s;
    }
  }

  lemma {:induction false} LeadsAreStripped(leads: seq<Lead>, s: string)
    requires forall i :: 0 <= i < |leads| ==> WellFormed(leads[i])
    ensures StripLeading(LeadsText(leads) + s) == StripLeading(s)
  {
    if leads == [] {
      assert LeadsText(leads) + s == s;
    } else {
      assert LeadsText(leads) + s == LeadText(leads[0]) + (LeadsText(leads[1..]) + s);
      LeadThen(leads[0], LeadsText(leads[1..]) + s);
      LeadsAreStripped(leads[1..], s);
    }
  }

  /** Behind any whitespace and comments, one of the nine words in any case makes a statement return rows. */
  lemma RowsBehindComments(leads: seq<Lead>, word: string, rest: string)
    requires (forall i :: 0 <= i < |leads| ==> WellFormed(leads[i])) && IsRowWord(Upper(word))
    ensures ReturnsResultSet(LeadsText(leads) + (word + rest))
  {
    var s := word + rest;
    LeadsAreStripped(leads, s);
    RowsWordHead(word, Upper(word));
    StripAtText(s);
    assert s[..|word|] == word;
    RowsExactly(LeadsText(leads) + s);
  }

  lemma RowsWordHead(word: string, u: string)
    requires u == Upper(word) && IsRowWord(u)
    ensures word != "" && !IsSpace(word[0]) && word[0] != '-' && word[0] != '/'
  {
    RowWordHead(u);
    CapitalHead(word[0], u[0]);
  }

  lemma CapitalHead(c: char, u: char)
    requires u == UpperChar(c) && 'A' <= u <= 'Z'
    ensures !IsSpace(c) && c != '-' && c != '/'
  {
  }

  lemma RowWordHead(u: string)
    requires IsRowWord(u)
    ensures u != "" && 'A' <= u[0] <= 'Z'
  {
  }
}
