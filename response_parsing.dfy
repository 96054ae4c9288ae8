/**
 * Model of qualitative_analysis/response_parsing.py: pulling a JSON object and an
 * integer code out of a language model's free-text answer.
 *
 * Both functions of the source are regular-expression searches.  Each regex is
 * written here twice: once as a reference predicate that says which substrings the
 * pattern matches (and which one `re.search` reports), and once as an explicit
 * scanner; lemmas prove that the scanner reports exactly the match `re.search` does.
 */
module ResponseParsing {
  import opened Common

  /** A decoded JSON document, as `json.loads` returns it.  `JNull` is Python's `None`. */
  datatype Json =
    | JNull
    | JBool(b: bool)
    | JInt(i: int)
    | JReal(r: real)
    | JString(s: string)
    | JArray(items: seq<Json>)
    | JObject(members: map<string, Json>)

  // ------------------------------------------------------------------
  // Character classes and scanners
  // ------------------------------------------------------------------

  predicate IsDigit(c: char) { '0' <= c <= '9' }

  predicate IsSign(c: char) { c == '+' || c == '-' }

  /** The separator class `[:\-]` of the prefixed pattern. */
  predicate IsSeparator(c: char) { c == ':' || c == '-' }

  predicate IsNewline(c: char) { c == '\n' }

  /** Python's `\s` on a str pattern: exactly the characters for which str.isspace() holds. */
  predicate IsSpace(c: char)
  {
    var n := c as int;
    (9 <= n <= 13) || (28 <= n <= 32) || n == 0x85 || n == 0xA0 || n == 0x1680
    || (0x2000 <= n <= 0x200A) || n == 0x2028 || n == 0x2029 || n == 0x202F
    || n == 0x205F || n == 0x3000
  }

  /** A word character for `\b` (ASCII letters, digits and underscore). */
  predicate IsWordChar(c: char)
  {
    ('a' <= c <= 'z') || ('A' <= c <= 'Z') || IsDigit(c) || c == '_'
  }

  /** Case folding used by the `(?i)` flag (ASCII letters). */
  function Lower(c: char): char
  {
    if 'A' <= c <= 'Z' then (c as int + 32) as char else c
  }

  /** The first index at or after `from` whose character satisfies `P`. */
  function IndexWhere(s: string, P: char -> bool, from: nat): (r: Option<nat>)
    requires from <= |s|
    ensures r.Some? ==> from <= r.value < |s| && P(s[r.value])
    ensures forall k :: from <= k < (if r.Some? then r.value else |s|) ==> !P(s[k])
    decreases |s| - from
  {
    if from == |s| then None
    else if P(s[from]) then Some(from)
    else IndexWhere(s, P, from + 1)
  }

  /** The end of the longest run of `P`-characters that starts at `from`. */
  function SkipWhile(s: string, P: char -> bool, from: nat): (r: nat)
    requires from <= |s|
    ensures from <= r <= |s|
    decreases |s| - from
  {
    if from == |s| || !P(s[from]) then from else SkipWhile(s, P, from + 1)
  }

  /** SkipWhile stops at the end of the run: every character before the result satisfies P, the one at it does not. */
  lemma {:induction false} SkipWhileRun(s: string, P: char -> bool, from: nat)
    requires from <= |s|
    ensures forall k :: from <= k < SkipWhile(s, P, from) ==> P(s[k])
    ensures SkipWhile(s, P, from) == |s| || !P(s[SkipWhile(s, P, from)])
    decreases |s| - from
  {
    if from < |s| && P(s[from]) {
      SkipWhileRun(s, P, from + 1);
    }
  }

  /** A run of P-characters that stops where P fails is the run SkipWhile finds. */
  lemma {:induction false} SkipWhileStopsAt(s: string, P: char -> bool, from: nat, e: nat)
    requires from <= e <= |s| && (forall k :: from <= k < e ==> P(s[k])) && (e == |s| || !P(s[e]))
    ensures SkipWhile(s, P, from) == e
    decreases e - from
  {
    if from < e {
      SkipWhileStopsAt(s, P, from + 1, e);
    }
  }

  /** The last index of `c` in `s`. */
  function LastIndexOf(s: string, c: char): (r: Option<nat>)
    ensures r.Some? ==> r.value < |s| && s[r.value] == c
    ensures forall k :: (if r.Some? then r.value + 1 else 0) <= k < |s| ==> s[k] != c
  {
    if |s| == 0 then None
    else if s[|s| - 1] == c then Some(|s| - 1)
    else LastIndexOf(s[..|s| - 1], c)
  }

  predicate AllSpaces(s: string, i: int, j: int)
  {
    0 <= i <= j <= |s| && forall k :: i <= k < j ==> IsSpace(s[k])
  }

  // ------------------------------------------------------------------
  // parse_llm_response: the greedy span \{.*\} searched with re.DOTALL
  // ------------------------------------------------------------------

  /** s[i..j] is matched by `\{.*\}` when `.` matches every character (DOTALL). */
  predicate BraceMatch(s: string, i: int, j: int)
  {
    0 <= i && i + 2 <= j <= |s| && s[i] == '{' && s[j - 1] == '}'
  }

  /**
   * The match `re.search` reports: the leftmost start from which the pattern
   * matches, and from that start the longest span (the star is greedy).
   */
  ghost predicate SearchedBraceMatch(s: string, i: int, j: int)
  {
    BraceMatch(s, i, j)
    && (forall i', j' :: 0 <= i' < i ==> !BraceMatch(s, i', j'))
    && (forall j' :: j < j' ==> !BraceMatch(s, i, j'))
  }

  /** The span from the first `{` to the last `}`, when that `}` comes after the `{`. */
  function BraceSpan(s: string): (r: Option<(nat, nat)>)
    ensures r.Some? ==> SearchedBraceMatch(s, r.value.0, r.value.1)
    ensures r.None? ==> forall i, j :: !BraceMatch(s, i, j)
  {
    match IndexWhere(s, c => c == '{', 0)
    case None => None
    case Some(i) =>
      match LastIndexOf(s, '}')
      case None => None
      case Some(k) => if i < k then Some((i, k + 1)) else None
  }

  /** `re.search` reports at most one match. */
  lemma SearchedBraceMatchUnique(s: string, i: int, j: int, i': int, j': int)
    requires SearchedBraceMatch(s, i, j) && SearchedBraceMatch(s, i', j')
    ensures i == i' && j == j'
  {
  }

  /** The JSON text of a parsed object, or JNull (Python's None) for a missing key: `dict.get(field, None)`. */
  function FieldOrNull(obj: map<string, Json>, field: string): Json
  {
    if field in obj then obj[field] else JNull
  }

  /** The mapping `{field: None for field in selected_fields}`. */
  function AllNull(fields: seq<string>): map<string, Json>
  {
    map f | f in fields :: JNull
  }

  predicate IsObject(j: Option<Json>) { j.Some? && j.value.JObject? }

  /**
   * parse_llm_response.  `loads` stands for `json.loads`: None when it raises
   * JSONDecodeError.  A decoded value that is not an object makes `.get` raise,
   * which the source also catches; no exception leaves the function.
   */
  function ParseLlmResponse(text: string, fields: seq<string>, loads: string -> Option<Json>): (r: map<string, Json>)
    ensures r.Keys == set f | f in fields
    ensures (forall i, j :: !BraceMatch(text, i, j)) ==> forall f :: f in r ==> r[f] == JNull
    ensures forall i, j :: SearchedBraceMatch(text, i, j) && IsObject(loads(text[i..j])) ==>
      forall f :: f in r ==> r[f] == FieldOrNull(loads(text[i..j]).value.members, f)
    ensures forall i, j :: SearchedBraceMatch(text, i, j) && !IsObject(loads(text[i..j])) ==>
      forall f :: f in r ==> r[f] == JNull
  {
    match BraceSpan(text)
    case None => AllNull(fields)
    case Some((i, j)) =>
      var decoded := loads(text[i..j]);
      if IsObject(decoded) then map f | f in fields :: FieldOrNull(decoded.value.members, f)
      else AllNull(fields)
  }

  // ------------------------------------------------------------------
  // extract_code_from_response, unprefixed mode: the pattern [+-]?\d+
  // ------------------------------------------------------------------

  /** An optionally signed run of decimal digits, as `[+-]?\d+` matches and int() accepts. */
  predicate IsIntLiteral(t: string)
  {
    |t| >= 1 &&
    if IsSign(t[0]) then |t| >= 2 && forall k :: 1 <= k < |t| ==> IsDigit(t[k])
    else forall k :: 0 <= k < |t| ==> IsDigit(t[k])
  }

  function DecimalValue(d: string): (r: nat)
    requires forall k :: 0 <= k < |d| ==> IsDigit(d[k])
    decreases |d|
  {
    if |d| == 0 then 0 else 10 * DecimalValue(d[..|d| - 1]) + DigitValue(d[|d| - 1])
  }

  function DigitValue(c: char): nat
    requires IsDigit(c)
  {
    c as int - '0' as int
  }

  /** Python's int() of an integer literal. */
  function LiteralValue(t: string): int
    requires IsIntLiteral(t)
  {
    if t[0] == '-' then 0 - DecimalValue(t[1..])
    else if t[0] == '+' then DecimalValue(t[1..])
    else DecimalValue(t)
  }

  /**
   * s[p..e] is what `[+-]?\d+` matches when tried at p: the optional sign is taken
   * when present and `\d+` runs to the end of the digits.
   */
  predicate IntMatchAt(s: string, p: int, e: int)
  {
    0 <= p < e <= |s| && IsIntLiteral(s[p..e]) && (e == |s| || !IsDigit(s[e]))
  }

  /** The match `re.search` reports for `[+-]?\d+`: the leftmost one. */
  ghost predicate FirstIntMatch(s: string, p: int, e: int)
  {
    IntMatchAt(s, p, e) && forall q, e' :: 0 <= q < p ==> !IntMatchAt(s, q, e')
  }

  /** The leftmost match of `[+-]?\d+`. */
  function FindInteger(s: string): (r: Option<(nat, nat)>)
    ensures r.Some? ==> FirstIntMatch(s, r.value.0, r.value.1)
    ensures r.None? <==> forall k :: 0 <= k < |s| ==> !IsDigit(s[k])
  {
    match IndexWhere(s, IsDigit, 0)
    case None => None
    case Some(d) =>
      var e := SkipWhile(s, IsDigit, d);
      var p := if d > 0 && IsSign(s[d - 1]) then d - 1 else d;
      SkipWhileRun(s, IsDigit, d);
      FindIntegerAt(s, d, e, p);
      Some((p, e))
  }

  lemma FindIntegerAt(s: string, d: nat, e: nat, p: nat)
    requires d < e <= |s| && forall k :: d <= k < e ==> IsDigit(s[k])
    requires e == |s| || !IsDigit(s[e])
    requires forall k :: 0 <= k < d ==> !IsDigit(s[k])
    requires p == if d > 0 && IsSign(s[d - 1]) then d - 1 else d
    ensures FirstIntMatch(s, p, e)
  {
    forall q, e' | 0 <= q < p
      ensures !IntMatchAt(s, q, e')
    {
      IntMatchStart(s, q, e');
    }
    assert IsIntLiteral(s[p..e]) by {
      var t := s[p..e];
      if p == d - 1 {
        assert IsSign(t[0]);
        assert forall k :: 1 <= k < |t| ==> t[k] == s[d + k - 1];
      } else {
        assert forall k :: 0 <= k < |t| ==> t[k] == s[d + k];
      }
    }
  }

  /** A match of `[+-]?\d+` begins with a digit, or with a sign and a digit. */
  lemma IntMatchStart(s: string, p: int, e: int)
    ensures IntMatchAt(s, p, e) ==>
      IsDigit(s[p]) || (IsSign(s[p]) && p + 1 < |s| && IsDigit(s[p + 1]))
  {
    if IntMatchAt(s, p, e) {
      var t := s[p..e];
      assert t[0] == s[p];
      if IsSign(t[0]) { assert t[1] == s[p + 1]; }
    }
  }

  // ------------------------------------------------------------------
  // extract_code_from_response, prefixed mode:
  //   (?i)\b<re.escape(prefix)>\s*[:\-]?\s*([+-]?\d+)\s*$     with re.MULTILINE
  // ------------------------------------------------------------------

  /** `\b` at position p. */
  predicate WordBoundary(s: string, p: int)
    requires 0 <= p <= |s|
  {
    (p > 0 && IsWordChar(s[p - 1])) != (p < |s| && IsWordChar(s[p]))
  }

  /** The string with every letter case-folded. */
  function LowerString(t: string): (r: string)
    ensures |r| == |t|
    ensures forall k :: 0 <= k < |t| ==> r[k] == Lower(t[k])
  {
    if |t| == 0 then [] else [Lower(t[0])] + LowerString(t[1..])
  }

  /** The escaped prefix matches case-insensitively at p. */
  predicate PrefixAt(s: string, prefix: string, p: int)
  {
    0 <= p && p + |prefix| <= |s| && LowerString(s[p..p + |prefix|]) == LowerString(prefix)
  }

  /** `$` under MULTILINE: the end of the text, or just before a newline. */
  predicate AtLineEnd(s: string, k: int)
  {
    k == |s| || (0 <= k < |s| && s[k] == '\n')
  }

  /** `\s*$` can match starting at q. */
  ghost predicate LineEndsAfter(s: string, q: int)
  {
    exists k :: AllSpaces(s, q, k) && AtLineEnd(s, k)
  }

  /**
   * One way the part after the prefix can match, starting at a:
   * s[a..ws1End] for the first `\s*`, s[ws1End..sepEnd] for `[:\-]?`,
   * s[sepEnd..numStart] for the second `\s*`, the captured group s[numStart..numEnd],
   * then `\s*$`.
   */
  datatype Tail = Tail(ws1End: nat, sepEnd: nat, numStart: nat, numEnd: nat)

  ghost predicate IsTail(s: string, a: int, t: Tail)
  {
    0 <= a <= t.ws1End <= t.sepEnd <= t.numStart < t.numEnd <= |s|
    && AllSpaces(s, a, t.ws1End)
    && (t.sepEnd == t.ws1End || (t.sepEnd == t.ws1End + 1 && IsSeparator(s[t.ws1End])))
    && AllSpaces(s, t.sepEnd, t.numStart)
    && IsIntLiteral(s[t.numStart..t.numEnd])
    && LineEndsAfter(s, t.numEnd)
  }

  /**
   * Backtracking order: every quantifier is greedy, so the matcher tries longer
   * first `\s*`, then taking the separator, then longer second `\s*` first.  The
   * decomposition it reports is the greatest in this lexicographic order.
   */
  predicate GreedyLe(t: Tail, u: Tail)
  {
    t.ws1End < u.ws1End
    || (t.ws1End == u.ws1End && (t.sepEnd < u.sepEnd || (t.sepEnd == u.sepEnd && t.numStart <= u.numStart)))
  }

  /** The deterministic check for `\s*$` at q. */
  predicate EndsLine(s: string, q: nat)
    requires q <= |s|
  {
    var e := SkipWhile(s, IsSpace, q);
    e == |s| || match IndexWhere(s, IsNewline, q) { case Some(k) => k < e case None => false }
  }

  /** The deterministic matcher for the part after the prefix. */
  function MatchTail(s: string, a: nat): Option<Tail>
    requires a <= |s|
  {
    var b := SkipWhile(s, IsSpace, a);
    var c := if b < |s| && IsSeparator(s[b]) then b + 1 else b;
    var g0 := SkipWhile(s, IsSpace, c);
    var d := if g0 < |s| && IsSign(s[g0]) then g0 + 1 else g0;
    var g1 := SkipWhile(s, IsDigit, d);
    if d < g1 && EndsLine(s, g1) then Some(Tail(b, c, g0, g1)) else None
  }

  lemma EndsLineMeansLineEndsAfter(s: string, q: nat)
    requires q <= |s|
    ensures EndsLine(s, q) <==> LineEndsAfter(s, q)
  {
    var e := SkipWhile(s, IsSpace, q);
    SkipWhileRun(s, IsSpace, q);
    if EndsLine(s, q) {
      if e == |s| {
        assert AllSpaces(s, q, e) && AtLineEnd(s, e);
      } else {
        var k := IndexWhere(s, IsNewline, q).value;
        assert AllSpaces(s, q, k) && AtLineEnd(s, k);
      }
    }
    if LineEndsAfter(s, q) {
      var k :| AllSpaces(s, q, k) && AtLineEnd(s, k);
      if e < |s| {
        assert k <= e;
        assert k < e;
        assert IsNewline(s[k]);
      }
    }
  }

  /** An optional sign followed by a non-empty digit run is an integer literal. */
  lemma LiteralOfRun(s: string, g0: nat, g1: nat)
    requires g0 < g1 <= |s|
    requires IsSign(s[g0]) ==> g0 + 1 < g1
    requires forall k :: (if IsSign(s[g0]) then g0 + 1 else g0) <= k < g1 ==> IsDigit(s[k])
    ensures IsIntLiteral(s[g0..g1])
  {
    var lit := s[g0..g1];
    assert forall k :: 0 <= k < |lit| ==> lit[k] == s[g0 + k];
  }

  /** An integer literal inside s, read back in terms of s. */
  lemma RunOfLiteral(s: string, g0: nat, g1: nat)
    requires g0 <= g1 <= |s| && IsIntLiteral(s[g0..g1])
    ensures g0 < g1
    ensures IsSign(s[g0]) ==> g0 + 1 < g1
    ensures forall k :: (if IsSign(s[g0]) then g0 + 1 else g0) <= k < g1 ==> IsDigit(s[k])
  {
    var lit := s[g0..g1];
    assert forall k :: 0 <= k < |lit| ==> lit[k] == s[g0 + k];
  }

  /** In a decomposition the digits run to the end of the digit run. */
  lemma TailDigitsMaximal(s: string, a: int, t: Tail)
    requires IsTail(s, a, t)
    ensures t.numEnd == SkipWhile(s, IsDigit, if IsSign(s[t.numStart]) then t.numStart + 1 else t.numStart)
  {
    RunOfLiteral(s, t.numStart, t.numEnd);
    var k :| AllSpaces(s, t.numEnd, k) && AtLineEnd(s, k);
    assert t.numEnd == |s| || !IsDigit(s[t.numEnd]) by {
      if t.numEnd < |s| {
        if k == t.numEnd { assert s[k] == '\n'; } else { assert IsSpace(s[t.numEnd]); }
      }
    }
    SkipWhileStopsAt(s, IsDigit, if IsSign(s[t.numStart]) then t.numStart + 1 else t.numStart, t.numEnd);
  }

  /** MatchTail unfolded once, with its intermediate positions named. */
  lemma MatchTailDef(s: string, a: nat, b: nat, c: nat, g0: nat, d: nat, g1: nat)
    requires a <= |s|
    requires b == SkipWhile(s, IsSpace, a)
    requires c == if b < |s| && IsSeparator(s[b]) then b + 1 else b
    requires g0 == SkipWhile(s, IsSpace, c)
    requires d == if g0 < |s| && IsSign(s[g0]) then g0 + 1 else g0
    requires g1 == SkipWhile(s, IsDigit, d)
    ensures MatchTail(s, a) == if d < g1 && EndsLine(s, g1) then Some(Tail(b, c, g0, g1)) else None
  {
  }

  /** What MatchTail reports is a decomposition of the rest of the text. */
  lemma MatchTailSound(s: string, a: nat)
    requires a <= |s|
    ensures MatchTail(s, a).Some? ==> IsTail(s, a, MatchTail(s, a).value)
  {
    var b := SkipWhile(s, IsSpace, a);
    var c := if b < |s| && IsSeparator(s[b]) then b + 1 else b;
    var g0 := SkipWhile(s, IsSpace, c);
    var d := if g0 < |s| && IsSign(s[g0]) then g0 + 1 else g0;
    var g1 := SkipWhile(s, IsDigit, d);
    MatchTailDef(s, a, b, c, g0, d, g1);
    SkipWhileRun(s, IsSpace, a);
    SkipWhileRun(s, IsSpace, c);
    SkipWhileRun(s, IsDigit, d);
    if d < g1 && EndsLine(s, g1) {
      EndsLineMeansLineEndsAfter(s, g1);
      LiteralOfRun(s, g0, g1);
      assert IsTail(s, a, Tail(b, c, g0, g1));
    }
  }

  /** From the first character of the captured integer on, MatchTail and any decomposition agree. */
  lemma MatchTailFromNumber(s: string, a: nat, t: Tail, b: nat, c: nat)
    requires IsTail(s, a, t) && a <= b <= c <= |s|
    requires b == SkipWhile(s, IsSpace, a)
    requires c == if b < |s| && IsSeparator(s[b]) then b + 1 else b
    requires t.numStart == SkipWhile(s, IsSpace, c)
    ensures MatchTail(s, a) == Some(Tail(b, c, t.numStart, t.numEnd))
  {
    var g0 := t.numStart;
    var d := if g0 < |s| && IsSign(s[g0]) then g0 + 1 else g0;
    TailDigitsMaximal(s, a, t);
    RunOfLiteral(s, t.numStart, t.numEnd);
    EndsLineMeansLineEndsAfter(s, t.numEnd);
    MatchTailDef(s, a, b, c, g0, d, t.numEnd);
  }

  /** MatchTail finds a decomposition from a, and t comes no later than it in backtracking order. */
  predicate MatchTailBeats(s: string, a: nat, t: Tail)
  {
    a <= |s| && MatchTail(s, a).Some? && GreedyLe(t, MatchTail(s, a).value)
  }

  /**
   * Every decomposition of the rest of the text comes no later, in backtracking
   * order, than the one MatchTail reports; so MatchTail reports None only when the
   * pattern cannot match.
   */
  lemma MatchTailComplete(s: string, a: nat, t: Tail)
    requires a <= |s| && IsTail(s, a, t)
    ensures MatchTailBeats(s, a, t)
  {
    var b := SkipWhile(s, IsSpace, a);
    var c := if b < |s| && IsSeparator(s[b]) then b + 1 else b;
    SkipWhileRun(s, IsSpace, a);
    RunOfLiteral(s, t.numStart, t.numEnd);
    assert t.ws1End <= b;
    if t.ws1End < b || t.sepEnd == t.ws1End {
      // The separator was not taken, so the number starts where the spaces end.
      assert t.sepEnd == t.ws1End by {
        if t.ws1End < b { assert IsSpace(s[t.ws1End]); }
      }
      assert t.numStart == b;
      if c == b {
        SkipWhileStopsAt(s, IsSpace, c, t.numStart);
        MatchTailFromNumber(s, a, t, b, c);
      } else {
        // s[b] is '-': the matcher takes it as the separator and reads the digits after it.
        var digits := Tail(b, c, c, t.numEnd);
        LiteralOfRun(s, c, t.numEnd);
        assert IsTail(s, a, digits);
        SkipWhileStopsAt(s, IsSpace, c, c);
        MatchTailFromNumber(s, a, digits, b, c);
      }
    } else {
      assert c == b + 1;
      SkipWhileStopsAt(s, IsSpace, c, t.numStart);
      MatchTailFromNumber(s, a, t, b, c);
    }
  }

  /** The whole prefixed pattern matches at p with the decomposition t of the rest. */
  ghost predicate PrefixedMatch(s: string, prefix: string, p: int, t: Tail)
  {
    0 <= p && p + |prefix| <= |s| && WordBoundary(s, p) && PrefixAt(s, prefix, p)
    && IsTail(s, p + |prefix|, t)
  }

  /** The match `re.search` reports: the leftmost start, and there the first decomposition. */
  ghost predicate FirstPrefixedMatch(s: string, prefix: string, p: int, t: Tail)
  {
    PrefixedMatch(s, prefix, p, t)
    && (forall u :: PrefixedMatch(s, prefix, p, u) ==> GreedyLe(u, t))
    && (forall q, u :: 0 <= q < p ==> !PrefixedMatch(s, prefix, q, u))
  }

  /** The scanner's test at one start position. */
  predicate ScanAt(s: string, prefix: string, p: nat)
    requires p + |prefix| <= |s|
  {
    WordBoundary(s, p) && PrefixAt(s, prefix, p) && MatchTail(s, p + |prefix|).Some?
  }

  /** When the scanner accepts p, its decomposition is a match of the pattern. */
  lemma ScanAtSound(s: string, prefix: string, p: nat)
    requires p + |prefix| <= |s| && ScanAt(s, prefix, p)
    ensures PrefixedMatch(s, prefix, p, MatchTail(s, p + |prefix|).value)
  {
    MatchTailSound(s, p + |prefix|);
  }

  /** Any match of the pattern at p is found by the scanner, and is no later in backtracking order. */
  lemma ScanAtComplete(s: string, prefix: string, p: nat, u: Tail)
    ensures PrefixedMatch(s, prefix, p, u) ==>
      p + |prefix| <= |s| && ScanAt(s, prefix, p) && MatchTailBeats(s, p + |prefix|, u)
  {
    if PrefixedMatch(s, prefix, p, u) {
      ScanAtCompleteAt(s, prefix, p, u);
    }
  }

  /** ScanAtComplete for a match that is known to exist. */
  lemma ScanAtCompleteAt(s: string, prefix: string, p: nat, u: Tail)
    requires p + |prefix| <= |s| && WordBoundary(s, p) && PrefixAt(s, prefix, p) && IsTail(s, p + |prefix|, u)
    ensures ScanAt(s, prefix, p) && MatchTailBeats(s, p + |prefix|, u)
  {
    MatchTailComplete(s, p + |prefix|, u);
  }

  /** re.search for the prefixed pattern: the scanner tried at each start position from `from` on. */
  function FindPrefixed(s: string, prefix: string, from: nat): Option<(nat, Tail)>
    decreases |s| + 1 - from
  {
    if from + |prefix| > |s| then None
    else if ScanAt(s, prefix, from) then Some((from, MatchTail(s, from + |prefix|).value))
    else FindPrefixed(s, prefix, from + 1)
  }

  /** The scanner accepts no start position in [from, to). */
  predicate NoScanBetween(s: string, prefix: string, from: nat, to: nat)
  {
    forall q: nat :: from <= q < to && q + |prefix| <= |s| ==> !ScanAt(s, prefix, q)
  }

  /** The scanner accepts p, reports t there, and accepts no start position in [from, p). */
  predicate FoundAt(s: string, prefix: string, from: nat, p: nat, t: Tail)
  {
    from <= p && p + |prefix| <= |s| && ScanAt(s, prefix, p) && t == MatchTail(s, p + |prefix|).value
    && NoScanBetween(s, prefix, from, p)
  }

  /** FindPrefixed returns the first start position the scanner accepts, and the scanner's decomposition there. */
  lemma {:induction false} FindPrefixedFirst(s: string, prefix: string, from: nat)
    ensures FindPrefixed(s, prefix, from).Some? ==>
      FoundAt(s, prefix, from, FindPrefixed(s, prefix, from).value.0, FindPrefixed(s, prefix, from).value.1)
    ensures FindPrefixed(s, prefix, from).None? ==> NoScanBetween(s, prefix, from, |s| + 1)
    decreases |s| + 1 - from
  {
    if from + |prefix| > |s| {
      NoScanPastEnd(s, prefix, from);
    } else if ScanAt(s, prefix, from) {
      FoundHere(s, prefix, from);
    } else {
      var r := FindPrefixed(s, prefix, from + 1);
      FindPrefixedFirst(s, prefix, from + 1);
      SkipStep(s, prefix, from);
      if r.Some? {
        FoundStep(s, prefix, from, r.value.0, r.value.1);
      } else {
        NoScanStep(s, prefix, from, |s| + 1);
      }
    }
  }

  lemma NoScanPastEnd(s: string, prefix: string, from: nat)
    requires from + |prefix| > |s|
    ensures FindPrefixed(s, prefix, from).None? && NoScanBetween(s, prefix, from, |s| + 1)
  {
  }

  lemma FoundHere(s: string, prefix: string, from: nat)
    requires from + |prefix| <= |s| && ScanAt(s, prefix, from)
    ensures FindPrefixed(s, prefix, from) == Some((from, MatchTail(s, from + |prefix|).value))
    ensures FoundAt(s, prefix, from, from, MatchTail(s, from + |prefix|).value)
  {
  }

  lemma SkipStep(s: string, prefix: string, from: nat)
    requires from + |prefix| <= |s| && !ScanAt(s, prefix, from)
    ensures FindPrefixed(s, prefix, from) == FindPrefixed(s, prefix, from + 1)
  {
  }

  lemma NoScanStep(s: string, prefix: string, from: nat, to: nat)
    requires from + |prefix| <= |s| && !ScanAt(s, prefix, from) && NoScanBetween(s, prefix, from + 1, to)
    ensures NoScanBetween(s, prefix, from, to)
  {
  }

  lemma FoundStep(s: string, prefix: string, from: nat, p: nat, t: Tail)
    requires from + |prefix| <= |s| && !ScanAt(s, prefix, from) && FoundAt(s, prefix, from + 1, p, t)
    ensures FoundAt(s, prefix, from, p, t)
  {
    NoScanStep(s, prefix, from, p);
  }

  /** Where the scanner fails, the pattern has no match. */
  lemma NoMatchWhereScanFails(s: string, prefix: string, p: int, u: Tail)
    requires 0 <= p && p + |prefix| <= |s| ==> !ScanAt(s, prefix, p)
    ensures !PrefixedMatch(s, prefix, p, u)
  {
    if 0 <= p {
      ScanAtComplete(s, prefix, p, u);
    }
  }

  /** The first start position the scanner accepts holds the match re.search reports. */
  lemma FirstScanIsFirstMatch(s: string, prefix: string, p: nat, t: Tail)
    requires FoundAt(s, prefix, 0, p, t)
    ensures FirstPrefixedMatch(s, prefix, p, t)
  {
    ScanAtSound(s, prefix, p);
    forall u ensures PrefixedMatch(s, prefix, p, u) ==> GreedyLe(u, t) {
      ScanAtComplete(s, prefix, p, u);
    }
    forall q, u | 0 <= q < p ensures !PrefixedMatch(s, prefix, q, u) {
      NoMatchWhereScanFails(s, prefix, q, u);
    }
  }

  /** When the scanner accepts no start position, the pattern matches nowhere. */
  lemma NoScanNoMatch(s: string, prefix: string)
    requires NoScanBetween(s, prefix, 0, |s| + 1)
    ensures forall p, u :: !PrefixedMatch(s, prefix, p, u)
  {
    forall p, u ensures !PrefixedMatch(s, prefix, p, u) {
      NoMatchWhereScanFails(s, prefix, p, u);
    }
  }

  /** FindPrefixed reports the match re.search reports, and None when there is none. */
  lemma FindPrefixedCorrect(s: string, prefix: string)
    ensures FindPrefixed(s, prefix, 0).Some? ==>
      FirstPrefixedMatch(s, prefix, FindPrefixed(s, prefix, 0).value.0, FindPrefixed(s, prefix, 0).value.1)
    ensures FindPrefixed(s, prefix, 0).None? ==> forall p, u :: !PrefixedMatch(s, prefix, p, u)
  {
    var r := FindPrefixed(s, prefix, 0);
    FindPrefixedFirst(s, prefix, 0);
    if r.Some? {
      FirstScanIsFirstMatch(s, prefix, r.value.0, r.value.1);
    } else {
      NoScanNoMatch(s, prefix);
    }
  }

  /** The first match of the prefixed pattern is the one FindPrefixed reports. */
  lemma FindPrefixedOutcome(s: string, prefix: string)
    ensures FindPrefixed(s, prefix, 0).None? <==> forall p, u :: !PrefixedMatch(s, prefix, p, u)
    ensures forall p, u :: FirstPrefixedMatch(s, prefix, p, u) ==> FindPrefixed(s, prefix, 0) == Some((p, u))
  {
    var r := FindPrefixed(s, prefix, 0);
    FindPrefixedCorrect(s, prefix);
    if r.Some? {
      var (p, t) := r.value;
      assert PrefixedMatch(s, prefix, p, t);
      forall q, u | FirstPrefixedMatch(s, prefix, q, u)
        ensures (q, u) == (p, t)
      {
        GreedyMaxUnique(s, p + |prefix|, u, t);
      }
    }
  }

  /** Two decompositions that are each first in backtracking order are the same. */
  lemma GreedyMaxUnique(s: string, a: int, t: Tail, u: Tail)
    requires IsTail(s, a, t) && IsTail(s, a, u) && GreedyLe(t, u) && GreedyLe(u, t)
    ensures t == u
  {
    TailDigitsMaximal(s, a, t);
    TailDigitsMaximal(s, a, u);
  }

  /** `if prefix:` in the source: None and the empty string both select the unprefixed mode. */
  predicate UsesPrefix(prefix: Option<string>)
  {
    prefix.Some? && prefix.value != ""
  }

  /**
   * extract_code_from_response.  With a non-empty prefix the integer captured by the
   * first match of the prefixed pattern; otherwise the first signed integer in the text.
   */
  function ExtractCodeFromResponse(text: string, prefix: Option<string>): (r: Option<int>)
    ensures UsesPrefix(prefix) ==>
      (r.None? <==> forall p, t :: !PrefixedMatch(text, prefix.value, p, t))
    ensures UsesPrefix(prefix) ==>
      forall p, t :: FirstPrefixedMatch(text, prefix.value, p, t) ==>
        r == Some(LiteralValue(text[t.numStart..t.numEnd]))
    ensures !UsesPrefix(prefix) ==>
      (r.None? <==> forall k :: 0 <= k < |text| ==> !IsDigit(text[k]))
    ensures !UsesPrefix(prefix) ==>
      forall p, e :: FirstIntMatch(text, p, e) ==> r == Some(LiteralValue(text[p..e]))
  {
    if UsesPrefix(prefix) then
      FindPrefixedOutcome(text, prefix.value);
      FindPrefixedCorrect(text, prefix.value);
      match FindPrefixed(text, prefix.value, 0)
      case None => None
      case Some((p, t)) => Some(LiteralValue(text[t.numStart..t.numEnd]))
    else
      match FindInteger(text)
      case None => None
      case Some((p, e)) =>
        assert forall q, e' :: FirstIntMatch(text, q, e') ==> q == p && e' == e by {
          forall q, e' | FirstIntMatch(text, q, e')
            ensures q == p && e' == e
          {
            IntMatchEndUnique(text, p, e, e');
          }
        }
        Some(LiteralValue(text[p..e]))
  }

  lemma IntMatchEndUnique(s: string, p: int, e: int, e': int)
    requires IntMatchAt(s, p, e) && IntMatchAt(s, p, e')
    ensures e == e'
  {
  }
}
