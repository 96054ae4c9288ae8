/**
 * Worked examples for the response parser: the docstring's own examples, and the
 * corner cases the patterns decide (the hyphen read as a separator, the line-end
 * anchor, the word boundary, the fallback on an empty prefix).
 *
 * Each example is taken apart into the scanner steps it needs, a few to a lemma,
 * so that no single proof has to evaluate the whole search.
 */
module ParsingExamples {
  import opened Common
  import opened ResponseParsing

  // ------------------------------------------------------------------
  // Steps shared by the examples
  // ------------------------------------------------------------------

  /** What ExtractCodeFromResponse returns once the search result is known. */
  lemma ExtractFromSearch(text: string, prefix: string, p: nat, t: Tail, lit: string, v: int)
    requires prefix != "" && FindPrefixed(text, prefix, 0) == Some((p, t))
    requires t.numStart <= t.numEnd <= |text| && text[t.numStart..t.numEnd] == lit
    requires IsIntLiteral(lit) && LiteralValue(lit) == v
    ensures ExtractCodeFromResponse(text, Some(prefix)) == Some(v)
  {
  }

  /** The prefixed pattern matches at the very start of the text, capturing `lit`. */
  predicate CodeAtStart(text: string, prefix: string, t: Tail, lit: string)
  {
    prefix != "" && |prefix| <= |text| && WordBoundary(text, 0) && PrefixAt(text, prefix, 0)
    && MatchTail(text, |prefix|) == Some(t)
    && t.numStart <= t.numEnd <= |text| && text[t.numStart..t.numEnd] == lit
  }

  /** What ExtractCodeFromResponse returns when the prefix matches at the very start of the text. */
  lemma ExtractAtStart(text: string, prefix: string, t: Tail, lit: string, v: int)
    requires CodeAtStart(text, prefix, t, lit)
    requires IsIntLiteral(lit) && LiteralValue(lit) == v
    ensures ExtractCodeFromResponse(text, Some(prefix)) == Some(v)
  {
    SearchStops(text, prefix, 0);
    ExtractFromSearch(text, prefix, 0, t, lit, v);
  }

  /** ExtractCodeFromResponse finds nothing when the search finds nothing. */
  lemma ExtractFromNoSearch(text: string, prefix: string)
    requires prefix != "" && FindPrefixed(text, prefix, 0).None?
    ensures ExtractCodeFromResponse(text, Some(prefix)) == None
  {
  }

  /** What the unprefixed mode returns once the integer is found. */
  lemma ExtractFromInteger(text: string, prefix: Option<string>, p: nat, e: nat, lit: string, v: int)
    requires !UsesPrefix(prefix) && FindInteger(text) == Some((p, e))
    requires p <= e <= |text| && text[p..e] == lit && IsIntLiteral(lit) && LiteralValue(lit) == v
    ensures ExtractCodeFromResponse(text, prefix) == Some(v)
  {
  }

  /** The digit run FindInteger reports, with the sign before it when there is one. */
  lemma FindIntegerIs(s: string, d: nat, p: nat, e: nat)
    requires IndexWhere(s, IsDigit, 0) == Some(d) && SkipWhile(s, IsDigit, d) == e
    requires p == if d > 0 && IsSign(s[d - 1]) then d - 1 else d
    ensures FindInteger(s) == Some((p, e))
  {
  }

  /** The integer literals the examples capture, and their values. */
  lemma Literals()
    ensures IsIntLiteral("1") && LiteralValue("1") == 1
    ensures IsIntLiteral("2") && LiteralValue("2") == 2
    ensures IsIntLiteral("-2") && LiteralValue("-2") == -2
    ensures IsIntLiteral("-3") && LiteralValue("-3") == -3
  {
    assert "-2"[1..] == "2";
    assert "-3"[1..] == "3";
  }

  /** The search moves past a start position the scanner rejects. */
  lemma SearchSkips(s: string, prefix: string, from: nat)
    requires from + |prefix| <= |s| && !ScanAt(s, prefix, from)
    ensures FindPrefixed(s, prefix, from) == FindPrefixed(s, prefix, from + 1)
  {
  }

  /** The search stops at a start position the scanner accepts. */
  lemma SearchStops(s: string, prefix: string, from: nat)
    requires from + |prefix| <= |s| && ScanAt(s, prefix, from)
    ensures FindPrefixed(s, prefix, from) == Some((from, MatchTail(s, from + |prefix|).value))
  {
  }

  /** The search gives up once the prefix no longer fits. */
  lemma SearchEnds(s: string, prefix: string, from: nat)
    requires from + |prefix| > |s|
    ensures FindPrefixed(s, prefix, from) == None
  {
  }

  /** The prefix matches where the text spells it exactly. */
  lemma PrefixAtExact(s: string, prefix: string, p: nat)
    requires p + |prefix| <= |s| && s[p..p + |prefix|] == prefix
    ensures PrefixAt(s, prefix, p)
  {
  }

  /** The prefix matches where the text spells it with a different case of the first letter. */
  lemma PrefixAtFoldFirst(s: string, prefix: string, p: nat)
    requires |prefix| > 0 && p + |prefix| <= |s|
    requires Lower(s[p]) == Lower(prefix[0]) && s[p + 1..p + |prefix|] == prefix[1..]
    ensures PrefixAt(s, prefix, p)
  {
    var t := s[p..p + |prefix|];
    assert t[0] == s[p] && t[1..] == s[p + 1..p + |prefix|];
    assert LowerString(t) == [Lower(t[0])] + LowerString(t[1..]);
    assert LowerString(prefix) == [Lower(prefix[0])] + LowerString(prefix[1..]);
  }

  /** One character that differs after case folding keeps the prefix from matching. */
  lemma NotPrefixAt(s: string, prefix: string, p: nat, k: nat)
    requires p + |prefix| <= |s| && k < |prefix| && Lower(s[p + k]) != Lower(prefix[k])
    ensures !PrefixAt(s, prefix, p)
  {
    var t := s[p..p + |prefix|];
    assert t[k] == s[p + k];
    assert LowerString(t)[k] != LowerString(prefix)[k];
  }

  // ------------------------------------------------------------------
  // The docstring's prefixed example
  // ------------------------------------------------------------------

  const Validity1: string := "Validity: 1"

  lemma DocstringTail()
    ensures MatchTail("Validity: 1", 9) == Some(Tail(10, 10, 10, 11))
  {
    var s := "Validity: 1";
    assert SkipWhile(s, IsSpace, 10) == 10;
    assert SkipWhile(s, IsSpace, 9) == 10;
    assert SkipWhile(s, IsDigit, 10) == 11;
    assert EndsLine(s, 11);
    MatchTailDef(s, 9, 10, 10, 10, 10, 11);
  }

  lemma DocstringPrefix()
    ensures WordBoundary("Validity: 1", 0) && PrefixAt("Validity: 1", "Validity:", 0)
  {
    PrefixAtExact("Validity: 1", "Validity:", 0);
  }

  lemma DocstringScan()
    ensures CodeAtStart("Validity: 1", "Validity:", Tail(10, 10, 10, 11), "1")
  {
    DocstringTail();
    DocstringPrefix();
    assert "Validity: 1"[10..11] == "1";
  }

  /** The docstring example: "Validity: 1" with prefix "Validity:" gives 1. */
  lemma ExtractDocstringPrefixed()
    ensures ExtractCodeFromResponse(Validity1, Some("Validity:")) == Some(1)
  {
    DocstringScan();
    Literals();
    ExtractAtStart(Validity1, "Validity:", Tail(10, 10, 10, 11), "1", 1);
  }

  // ------------------------------------------------------------------
  // The separator class takes a lone minus sign
  // ------------------------------------------------------------------

  const ValidityHyphen2: string := "Validity -2"

  lemma HyphenTail()
    ensures MatchTail("Validity -2", 8) == Some(Tail(9, 10, 10, 11))
  {
    var s := "Validity -2";
    assert SkipWhile(s, IsSpace, 9) == 9;
    assert SkipWhile(s, IsSpace, 8) == 9;
    assert SkipWhile(s, IsSpace, 10) == 10;
    assert SkipWhile(s, IsDigit, 10) == 11;
    assert EndsLine(s, 11);
    MatchTailDef(s, 8, 9, 10, 10, 10, 11);
  }

  lemma HyphenPrefix()
    ensures WordBoundary("Validity -2", 0) && PrefixAt("Validity -2", "validity", 0)
  {
    PrefixAtFoldFirst("Validity -2", "validity", 0);
  }

  lemma HyphenScan()
    ensures CodeAtStart("Validity -2", "validity", Tail(9, 10, 10, 11), "2")
  {
    HyphenTail();
    HyphenPrefix();
    assert "Validity -2"[10..11] == "2";
  }

  /**
   * A lone minus sign after the prefix is taken as the `[:\-]` separator, so the
   * captured group is "2", not "-2".  The match is case-insensitive.
   */
  lemma ExtractHyphenIsSeparator()
    ensures ExtractCodeFromResponse(ValidityHyphen2, Some("validity")) == Some(2)
  {
    HyphenScan();
    Literals();
    ExtractAtStart(ValidityHyphen2, "validity", Tail(9, 10, 10, 11), "2", 2);
  }

  // ------------------------------------------------------------------
  // After a colon the sign is part of the number
  // ------------------------------------------------------------------

  const ValidityColon2: string := "Validity: -2"

  lemma ColonTail()
    ensures MatchTail("Validity: -2", 8) == Some(Tail(8, 9, 10, 12))
  {
    var s := "Validity: -2";
    assert SkipWhile(s, IsSpace, 8) == 8;
    assert SkipWhile(s, IsSpace, 10) == 10;
    assert SkipWhile(s, IsSpace, 9) == 10;
    assert SkipWhile(s, IsDigit, 11) == 12;
    assert EndsLine(s, 12);
    MatchTailDef(s, 8, 8, 9, 10, 11, 12);
  }

  lemma ColonPrefix()
    ensures WordBoundary("Validity: -2", 0) && PrefixAt("Validity: -2", "Validity", 0)
  {
    PrefixAtExact("Validity: -2", "Validity", 0);
  }

  lemma ColonScan()
    ensures CodeAtStart("Validity: -2", "Validity", Tail(8, 9, 10, 12), "-2")
  {
    ColonTail();
    ColonPrefix();
    assert "Validity: -2"[10..12] == "-2";
  }

  /** After a colon separator the sign belongs to the captured integer. */
  lemma ExtractNegativeAfterColon()
    ensures ExtractCodeFromResponse(ValidityColon2, Some("Validity")) == Some(-2)
  {
    ColonScan();
    Literals();
    ExtractAtStart(ValidityColon2, "Validity", Tail(8, 9, 10, 12), "-2", -2);
  }

  // ------------------------------------------------------------------
  // The unprefixed mode
  // ------------------------------------------------------------------

  const CodeIs2: string := "I think the code is 2"

  lemma FallbackDigitsFrom16()
    ensures IndexWhere("I think the code is 2", IsDigit, 16) == Some(20)
  {
    var s := "I think the code is 2";
    assert !IsDigit(s[16]) && !IsDigit(s[17]) && !IsDigit(s[18]) && !IsDigit(s[19]) && IsDigit(s[20]);
  }

  lemma FallbackDigitsFrom12()
    ensures IndexWhere("I think the code is 2", IsDigit, 12) == Some(20)
  {
    var s := "I think the code is 2";
    assert !IsDigit(s[12]) && !IsDigit(s[13]) && !IsDigit(s[14]) && !IsDigit(s[15]);
    FallbackDigitsFrom16();
  }

  lemma FallbackDigitsFrom8()
    ensures IndexWhere("I think the code is 2", IsDigit, 8) == Some(20)
  {
    var s := "I think the code is 2";
    assert !IsDigit(s[8]) && !IsDigit(s[9]) && !IsDigit(s[10]) && !IsDigit(s[11]);
    FallbackDigitsFrom12();
  }

  lemma FallbackDigitsFrom4()
    ensures IndexWhere("I think the code is 2", IsDigit, 4) == Some(20)
  {
    var s := "I think the code is 2";
    assert !IsDigit(s[4]) && !IsDigit(s[5]) && !IsDigit(s[6]) && !IsDigit(s[7]);
    FallbackDigitsFrom8();
  }

  /** The first digit of the sentence is its last character. */
  lemma FallbackDigitsFrom0()
    ensures IndexWhere("I think the code is 2", IsDigit, 0) == Some(20)
  {
    var s := "I think the code is 2";
    assert !IsDigit(s[0]) && !IsDigit(s[1]) && !IsDigit(s[2]) && !IsDigit(s[3]);
    FallbackDigitsFrom4();
  }

  lemma FallbackSearch()
    ensures FindInteger("I think the code is 2") == Some((20, 21))
    ensures "I think the code is 2"[20..21] == "2"
  {
    var s := "I think the code is 2";
    FallbackDigitsFrom0();
    assert SkipWhile(s, IsDigit, 20) == 21;
    FindIntegerIs(s, 20, 20, 21);
  }

  /** The docstring example of the unprefixed mode: "I think the code is 2" gives 2. */
  lemma ExtractDocstringFallback()
    ensures ExtractCodeFromResponse(CodeIs2, None) == Some(2)
  {
    FallbackSearch();
    Literals();
    ExtractFromInteger(CodeIs2, None, 20, 21, "2", 2);
  }

  const RatedMinus3: string := "rated -3"

  lemma RatedSearch()
    ensures FindInteger("rated -3") == Some((6, 8))
    ensures "rated -3"[6..8] == "-3"
  {
    var s := "rated -3";
    assert IndexWhere(s, IsDigit, 0) == Some(7);
    assert SkipWhile(s, IsDigit, 7) == 8;
    FindIntegerIs(s, 7, 6, 8);
  }

  /** An empty prefix is falsy: the unprefixed mode runs and keeps the sign. */
  lemma ExtractEmptyPrefixFallsBack()
    ensures ExtractCodeFromResponse(RatedMinus3, Some("")) == Some(-3)
  {
    RatedSearch();
    Literals();
    ExtractFromInteger(RatedMinus3, Some(""), 6, 8, "-3", -3);
  }

  // ------------------------------------------------------------------
  // The line-end anchor
  // ------------------------------------------------------------------

  const Score1Ok: string := "Score: 1 ok"

  lemma LineEndTail()
    ensures MatchTail("Score: 1 ok", 5) == None
  {
    var s := "Score: 1 ok";
    assert SkipWhile(s, IsSpace, 5) == 5;
    assert SkipWhile(s, IsSpace, 7) == 7;
    assert SkipWhile(s, IsSpace, 6) == 7;
    assert SkipWhile(s, IsDigit, 7) == 8;
    assert SkipWhile(s, IsSpace, 9) == 9;
    assert SkipWhile(s, IsSpace, 8) == 9;
    assert IndexWhere(s, IsNewline, 8) == None;
    assert !EndsLine(s, 8);
    MatchTailDef(s, 5, 5, 6, 7, 7, 8);
  }

  /** "Score" matches at the start, but the integer after it does not end the line. */
  lemma LineEndSearchStart()
    ensures FindPrefixed("Score: 1 ok", "Score", 0) == FindPrefixed("Score: 1 ok", "Score", 1)
  {
    LineEndTail();
    SearchSkips("Score: 1 ok", "Score", 0);
  }

  /** Inside the word "Score" there is no word boundary. */
  lemma LineEndSearchWord()
    ensures FindPrefixed("Score: 1 ok", "Score", 1) == FindPrefixed("Score: 1 ok", "Score", 5)
  {
    var s := "Score: 1 ok";
    assert !WordBoundary(s, 1) && !WordBoundary(s, 2) && !WordBoundary(s, 3) && !WordBoundary(s, 4);
    SearchSkips(s, "Score", 1);
    SearchSkips(s, "Score", 2);
    SearchSkips(s, "Score", 3);
    SearchSkips(s, "Score", 4);
  }

  lemma LineEndSearchRest()
    ensures FindPrefixed("Score: 1 ok", "Score", 5) == None
  {
    var s := "Score: 1 ok";
    NotPrefixAt(s, "Score", 5, 0);
    SearchSkips(s, "Score", 5);
    assert !WordBoundary(s, 6);
    SearchSkips(s, "Score", 6);
    SearchEnds(s, "Score", 7);
  }

  /** The integer must end its line (up to trailing whitespace). */
  lemma ExtractNeedsLineEnd()
    ensures ExtractCodeFromResponse(Score1Ok, Some("Score")) == None
  {
    LineEndSearchStart();
    LineEndSearchWord();
    LineEndSearchRest();
    ExtractFromNoSearch(Score1Ok, "Score");
  }

  // ------------------------------------------------------------------
  // Multi-line text
  // ------------------------------------------------------------------

  const TwoLines: string := "A 1 b\na 2"

  /** On the first line the integer is followed by more text. */
  lemma FirstLineTail()
    ensures MatchTail("A 1 b\na 2", 1) == None
  {
    var s := "A 1 b\na 2";
    assert SkipWhile(s, IsSpace, 1) == 2;
    assert SkipWhile(s, IsDigit, 2) == 3;
    assert SkipWhile(s, IsSpace, 3) == 4;
    assert IndexWhere(s, IsNewline, 3) == Some(5);
    MatchTailDef(s, 1, 2, 2, 2, 2, 3);
  }

  lemma SecondLineTail()
    ensures MatchTail("A 1 b\na 2", 7) == Some(Tail(8, 8, 8, 9))
  {
    var s := "A 1 b\na 2";
    assert SkipWhile(s, IsSpace, 7) == 8;
    assert SkipWhile(s, IsDigit, 8) == 9;
    assert EndsLine(s, 9);
    MatchTailDef(s, 7, 8, 8, 8, 8, 9);
  }

  /** "A" matches "a" case-insensitively at the start, but the first line does not end in the integer. */
  lemma FirstLineSearch()
    ensures FindPrefixed("A 1 b\na 2", "a", 0) == FindPrefixed("A 1 b\na 2", "a", 1)
  {
    FirstLineTail();
    PrefixAtFoldFirst("A 1 b\na 2", "a", 0);
    SearchSkips("A 1 b\na 2", "a", 0);
  }

  /** No other "a" on the first line. */
  lemma FirstLineRest()
    ensures FindPrefixed("A 1 b\na 2", "a", 1) == FindPrefixed("A 1 b\na 2", "a", 6)
  {
    var s := "A 1 b\na 2";
    NotPrefixAt(s, "a", 1, 0);
    SearchSkips(s, "a", 1);
    NotPrefixAt(s, "a", 2, 0);
    SearchSkips(s, "a", 2);
    NotPrefixAt(s, "a", 3, 0);
    SearchSkips(s, "a", 3);
    NotPrefixAt(s, "a", 4, 0);
    SearchSkips(s, "a", 4);
    NotPrefixAt(s, "a", 5, 0);
    SearchSkips(s, "a", 5);
  }

  /** The second line starts with "a" and ends in an integer. */
  lemma SecondLineSearch()
    ensures FindPrefixed("A 1 b\na 2", "a", 6) == Some((6, Tail(8, 8, 8, 9)))
    ensures "A 1 b\na 2"[8..9] == "2"
  {
    var s := "A 1 b\na 2";
    SecondLineTail();
    PrefixAtExact(s, "a", 6);
    assert WordBoundary(s, 6);
    SearchStops(s, "a", 6);
  }

  /** With MULTILINE the first line that ends in an integer wins; earlier lines that do not are skipped. */
  lemma ExtractLaterLine()
    ensures ExtractCodeFromResponse(TwoLines, Some("a")) == Some(2)
  {
    FirstLineSearch();
    FirstLineRest();
    SecondLineSearch();
    Literals();
    ExtractFromSearch(TwoLines, "a", 6, Tail(8, 8, 8, 9), "2", 2);
  }

  // ------------------------------------------------------------------
  // The word boundary
  // ------------------------------------------------------------------

  const Subscore2: string := "Subscore: 2"

  /** Case-folded, "Subscore" starts with "s" but not with "score". */
  lemma SubscoreSearchFirst()
    ensures FindPrefixed("Subscore: 2", "score", 0) == FindPrefixed("Subscore: 2", "score", 1)
  {
    NotPrefixAt("Subscore: 2", "score", 0, 1);
    SearchSkips("Subscore: 2", "score", 0);
  }

  /** "score" does not occur before position 3. */
  lemma SubscoreSearchHead()
    ensures FindPrefixed("Subscore: 2", "score", 0) == FindPrefixed("Subscore: 2", "score", 3)
  {
    var s := "Subscore: 2";
    SubscoreSearchFirst();
    NotPrefixAt(s, "score", 1, 0);
    SearchSkips(s, "score", 1);
    NotPrefixAt(s, "score", 2, 0);
    SearchSkips(s, "score", 2);
  }

  /** At 3 "score" occurs, but not at a word boundary; after it, it does not occur again. */
  lemma SubscoreSearchRest()
    ensures FindPrefixed("Subscore: 2", "score", 3) == None
  {
    var s := "Subscore: 2";
    assert !WordBoundary(s, 3);
    SearchSkips(s, "score", 3);
    NotPrefixAt(s, "score", 4, 0);
    SearchSkips(s, "score", 4);
    NotPrefixAt(s, "score", 5, 0);
    SearchSkips(s, "score", 5);
    NotPrefixAt(s, "score", 6, 0);
    SearchSkips(s, "score", 6);
    SearchEnds(s, "score", 7);
  }

  /** `\b` keeps the prefix from matching inside a longer word. */
  lemma ExtractNeedsWordBoundary()
    ensures ExtractCodeFromResponse(Subscore2, Some("score")) == None
  {
    SubscoreSearchHead();
    SubscoreSearchRest();
    ExtractFromNoSearch(Subscore2, "score");
  }

  // ------------------------------------------------------------------
  // parse_llm_response's span
  // ------------------------------------------------------------------

  /** The greedy `.*` spans from the first `{` to the last `}`, across two objects. */
  lemma BraceSpanIsGreedy()
    ensures BraceSpan("a {x} b {y} c") == Some((2, 11))
  {
    var s := "a {x} b {y} c";
    assert LastIndexOf(s, '}') == Some(10);
    assert IndexWhere(s, c => c == '{', 0) == Some(2);
  }
}
