/**
 internal/level/detect.go: severity detection by a prioritised table of regular expressions.
 The expressions are modelled with their own matching relation, and the table is then proved to
 mean something much simpler: the worst keyword among the words of the line.
 */
module Levels {

  /** The fragment of RE2 syntax the table uses; `fold` is the (?i) flag, Spaces is \s*. */
  datatype Regex =
    | Empty
    | Lit(text: string, fold: bool)
    | Bound
    | Spaces
    | Seq(first: Regex, second: Regex)
    | Alt(left: Regex, right: Regex)

  datatype Pattern = Pattern(re: Regex, level: string)

  predicate IsWordChar(c: char) {
    'a' <= c <= 'z' || 'A' <= c <= 'Z' || '0' <= c <= '9' || c == '_'
  }

  predicate IsSpace(c: char) {
    c == ' ' || c == '\t' || c == '\n' || c == '\r' || c as int == 12
  }

  function Upper(c: char): char {
    if 'a' <= c <= 'z' then (c as int - 32) as char else c
  }

  /** Equality up to ASCII case. */
  predicate SameWord(a: string, b: string) {
    |a| == |b| && forall i :: 0 <= i < |a| ==> Upper(a[i]) == Upper(b[i])
  }

  /** Is there a word character at position i? Positions off either end count as non-words. */
  predicate WordAt(s: string, i: int) {
    0 <= i < |s| && IsWordChar(s[i])
  }

  predicate BoundaryAt(s: string, i: int) {
    WordAt(s, i - 1) != WordAt(s, i)
  }

  /** Does `re` match exactly the stretch s[i..j]? */
  predicate Matches(re: Regex, s: string, i: nat, j: nat)
    requires i <= j <= |s|
  {
    match re
    case Empty => i == j
    case Lit(t, fold) => if fold then SameWord(s[i..j], t) else s[i..j] == t
    case Bound => i == j && BoundaryAt(s, i)
    case Spaces => forall k :: i <= k < j ==> IsSpace(s[k])
    case Seq(a, b) => exists k :: i <= k <= j && Matches(a, s, i, k) && Matches(b, s, k, j)
    case Alt(a, b) => Matches(a, s, i, j) || Matches(b, s, i, j)
  }

  predicate MatchString(re: Regex, s: string) {
    exists i, j :: 0 <= i <= j <= |s| && Matches(re, s, i, j)
  }

  function Keyword(body: Regex): Regex {
    Seq(Bound, Seq(body, Bound))
  }

  function Either(a: string, b: string, fold: bool): Regex {
    Alt(Lit(a, fold), Lit(b, fold))
  }

  /** "level"\s*:\s*"<value>" */
  function JsonLevel(value: Regex): Regex {
    Seq(Lit("\"level\"", false), Seq(Spaces, Seq(Lit(":", false), Seq(Spaces,
      Seq(Lit("\"", false), Seq(value, Lit("\"", false)))))))
  }

  const KEYWORD_PATTERNS: seq<Pattern> := [
    Pattern(Keyword(Either("FATAL", "PANIC", true)), "fatal"),
    Pattern(Keyword(Either("ERROR", "ERR", true)), "error"),
    Pattern(Keyword(Either("WARN", "WARNING", true)), "warn"),
    Pattern(Keyword(Lit("INFO", true)), "info"),
    Pattern(Keyword(Either("DEBUG", "TRACE", true)), "debug")]

  /** The value part of the five structured-log patterns, which are case-sensitive. */
  function JsonValue(k: nat): Regex
    requires k < 5
  {
    match k
    case 0 => Either("fatal", "panic", false)
    case 1 => Lit("error", false)
    case 2 => Seq(Lit("warn", false), Alt(Lit("ing", false), Empty))
    case 3 => Lit("info", false)
    case 4 => Either("debug", "trace", false)
  }

  const JSON_PATTERNS: seq<Pattern> := [
    Pattern(JsonLevel(JsonValue(0)), "fatal"),
    Pattern(JsonLevel(JsonValue(1)), "error"),
    Pattern(JsonLevel(JsonValue(2)), "warn"),
    Pattern(JsonLevel(JsonValue(3)), "info"),
    Pattern(JsonLevel(JsonValue(4)), "debug")]

  const PATTERNS := KEYWORD_PATTERNS + JSON_PATTERNS

  /** The level of the first pattern of the table that matches, "" when none does. */
  function FirstMatch(table: seq<Pattern>, line: string): string {
    if table == [] then ""
    else if MatchString(table[0].re, line) then table[0].level
    else FirstMatch(table[1..], line)
  }

  function Detect(line: string): string {
    FirstMatch(PATTERNS, line)
  }

  // ---------------------------------------------------------------------------------------------
  // The reference meaning: tokenise, rank, take the maximum.

  /** End of the run of word characters that starts at i. */
  function RunEnd(s: string, i: nat): (j: nat)
    requires i <= |s|
    ensures i <= j <= |s| && !WordAt(s, j)
    ensures forall k :: i <= k < j ==> WordAt(s, k)
    decreases |s| - i
  {
    if WordAt(s, i) then RunEnd(s, i + 1) else i
  }

  function WordsFrom(s: string, i: nat): seq<string>
    requires i <= |s|
    decreases |s| - i
  {
    if i == |s| then []
    else if WordAt(s, i) then
      var j := RunEnd(s, i);
      assert j > i;
      [s[i..j]] + WordsFrom(s, j)
    else WordsFrom(s, i + 1)
  }

  /** The maximal runs of ASCII word characters of a line. */
  function Words(s: string): seq<string> {
    WordsFrom(s, 0)
  }

  /** The keywords of each severity, FATAL and PANIC being the worst. */
  function KeywordsOf(rank: nat): (string, string)
    requires 1 <= rank <= 5
  {
    match rank
    case 5 => ("FATAL", "PANIC")
    case 4 => ("ERROR", "ERR")
    case 3 => ("WARN", "WARNING")
    case 2 => ("INFO", "INFO")
    case 1 => ("DEBUG", "TRACE")
  }

  predicate IsOneOf(word: string, keywords: (string, string)) {
    SameWord(word, keywords.0) || SameWord(word, keywords.1)
  }

  function Rank(word: string): nat {
    if IsOneOf(word, KeywordsOf(5)) then 5
    else if IsOneOf(word, KeywordsOf(4)) then 4
    else if IsOneOf(word, KeywordsOf(3)) then 3
    else if IsOneOf(word, KeywordsOf(2)) then 2
    else if IsOneOf(word, KeywordsOf(1)) then 1
    else 0
  }

  function MaxRank(words: seq<string>): (r: nat)
    ensures r <= 5
    ensures forall w :: w in words ==> Rank(w) <= r
    ensures r > 0 ==> exists w :: w in words && Rank(w) == r
  {
    if words == [] then 0
    else
      var rest := MaxRank(words[1..]);
      assert words == [words[0]] + words[1..];
      if Rank(words[0]) > rest then Rank(words[0]) else
        assert rest > 0 ==> exists w :: w in words[1..] && Rank(w) == rest;
        rest
  }

  function LevelName(rank: nat): string {
    match rank
    case 5 => "fatal"
    case 4 => "error"
    case 3 => "warn"
    case 2 => "info"
    case 1 => "debug"
    case _ => ""
  }

  predicate HasWord(s: string, keyword: string) {
    exists w :: w in Words(s) && SameWord(w, keyword)
  }

  // ---------------------------------------------------------------------------------------------

  predicate MaximalRun(s: string, i: nat, j: nat) {
    i < j <= |s| && !WordAt(s, i - 1) && !WordAt(s, j) && forall k :: i <= k < j ==> WordAt(s, k)
  }

  lemma {:induction false} RunIsWord(s: string, at: nat, i: nat, j: nat)
    requires at <= i && MaximalRun(s, i, j)
    requires !WordAt(s, at - 1) || !WordAt(s, at)
    ensures s[i..j] in WordsFrom(s, at)
    decreases |s| - at
  {
    assert WordAt(s, i);
    if at < i {
      if WordAt(s, at) {
        var e := RunEnd(s, at);
        assert e > i ==> WordAt(s, i - 1);
        RunIsWord(s, e, i, j);
      } else {
        RunIsWord(s, at + 1, i, j);
      }
    } else {
      var e := RunEnd(s, i);
      assert e < j ==> WordAt(s, e);
      assert e > j ==> WordAt(s, j);
    }
  }

  lemma {:induction false} WordIsRun(s: string, at: nat, w: string) returns (i: nat, j: nat)
    requires at <= |s| && w in WordsFrom(s, at)
    requires !WordAt(s, at - 1) || !WordAt(s, at)
    ensures MaximalRun(s, i, j) && s[i..j] == w
    decreases |s| - at
  {
    if WordAt(s, at) {
      var e := RunEnd(s, at);
      if w == s[at..e] {
        i, j := at, e;
      } else {
        i, j := WordIsRun(s, e, w);
      }
    } else {
      i, j := WordIsRun(s, at + 1, w);
    }
  }

  predicate IsKeyword(k: string) {
    k != [] && forall i :: 0 <= i < |k| ==> 'A' <= k[i] <= 'Z'
  }

  lemma MatchSplit(a: Regex, b: Regex, s: string, i: nat, j: nat) returns (k: nat)
    requires i <= j <= |s| && Matches(Seq(a, b), s, i, j)
    ensures i <= k <= j && Matches(a, s, i, k) && Matches(b, s, k, j)
  {
    k :| i <= k <= j && Matches(a, s, i, k) && Matches(b, s, k, j);
  }

  lemma MatchJoin(a: Regex, b: Regex, s: string, i: nat, k: nat, j: nat)
    requires i <= k <= j <= |s| && Matches(a, s, i, k) && Matches(b, s, k, j)
    ensures Matches(Seq(a, b), s, i, j)
  {
  }

  lemma MatchKeyword(body: Regex, s: string, i: nat, j: nat)
    requires i <= j <= |s|
    ensures Matches(Keyword(body), s, i, j) <==>
        BoundaryAt(s, i) && Matches(body, s, i, j) && BoundaryAt(s, j)
  {
    if BoundaryAt(s, i) && Matches(body, s, i, j) && BoundaryAt(s, j) {
      MatchJoin(body, Bound, s, i, j, j);
      MatchJoin(Bound, Seq(body, Bound), s, i, i, j);
    }
    if Matches(Keyword(body), s, i, j) {
      var k := MatchSplit(Bound, Seq(body, Bound), s, i, j);
      var m := MatchSplit(body, Bound, s, k, j);
    }
  }

  /** A folded keyword between two boundaries is exactly a maximal word run equal to it. */
  lemma KeywordIsRun(k: string, s: string, i: nat, j: nat)
    requires IsKeyword(k) && i <= j <= |s|
    ensures Matches(Keyword(Lit(k, true)), s, i, j) <==> MaximalRun(s, i, j) && SameWord(s[i..j], k)
  {
    MatchKeyword(Lit(k, true), s, i, j);
    if SameWord(s[i..j], k) {
      forall p | i <= p < j ensures WordAt(s, p) {
        assert Upper(s[i..j][p - i]) == Upper(k[p - i]) == k[p - i];
      }
      assert WordAt(s, i) && WordAt(s, j - 1);
    }
  }

  // The expression is an argument of its own below: the solver would otherwise keep unfolding the
  // matching relation on the constant table entries.

  lemma KeywordMatchesIffWord(re: Regex, k: string, s: string)
    requires IsKeyword(k) && re == Keyword(Lit(k, true))
    ensures MatchString(re, s) <==> HasWord(s, k)
  {
    if MatchString(re, s) {
      var i, j :| 0 <= i <= j <= |s| && Matches(re, s, i, j);
      KeywordIsRun(k, s, i, j);
      RunIsWord(s, 0, i, j);
    }
    if HasWord(s, k) {
      var w :| w in Words(s) && SameWord(w, k);
      var i, j := WordIsRun(s, 0, w);
      KeywordIsRun(k, s, i, j);
    }
  }

  lemma EitherMatchesIffWord(re: Regex, a: string, b: string, s: string)
    requires IsKeyword(a) && IsKeyword(b) && re == Keyword(Either(a, b, true))
    ensures MatchString(re, s) <==> HasWord(s, a) || HasWord(s, b)
  {
    forall i, j | 0 <= i <= j <= |s|
      ensures Matches(re, s, i, j) <==>
          Matches(Keyword(Lit(a, true)), s, i, j) || Matches(Keyword(Lit(b, true)), s, i, j)
    {
      MatchKeyword(Either(a, b, true), s, i, j);
      MatchKeyword(Lit(a, true), s, i, j);
      MatchKeyword(Lit(b, true), s, i, j);
    }
    KeywordMatchesIffWord(Keyword(Lit(a, true)), a, s);
    KeywordMatchesIffWord(Keyword(Lit(b, true)), b, s);
  }

  /** The quoted value of a JSON level field is itself a word of the line. */
  lemma JsonValueIsWord(re: Regex, value: Regex, s: string) returns (i: nat, j: nat)
    requires re == JsonLevel(value) && MatchString(re, s)
    ensures 0 < i <= j < |s| && s[i - 1] == '"' == s[j] && Matches(value, s, i, j)
  {
    var i0, end :| 0 <= i0 <= end <= |s| && Matches(re, s, i0, end);
    var quote := Lit("\"", false);
    var r5 := Seq(value, quote);
    var r4 := Seq(quote, r5);
    var r3 := Seq(Spaces, r4);
    var r2 := Seq(Lit(":", false), r3);
    var r1 := Seq(Spaces, r2);
    var i1 := MatchSplit(Lit("\"level\"", false), r1, s, i0, end);
    var i2 := MatchSplit(Spaces, r2, s, i1, end);
    var i3 := MatchSplit(Lit(":", false), r3, s, i2, end);
    var i4 := MatchSplit(Spaces, r4, s, i3, end);
    i := MatchSplit(quote, r5, s, i4, end);
    j := MatchSplit(value, quote, s, i, end);
    assert s[i4..i] == "\"" && s[j..end] == "\"";
    assert s[i4..i][0] == s[i4] && s[j..end][0] == s[j];
  }

  lemma KeywordsAreApart(r: nat, q: nat, w: string)
    requires 1 <= r < q <= 5
    ensures !(IsOneOf(w, KeywordsOf(r)) && IsOneOf(w, KeywordsOf(q)))
  {
    forall k: string | IsKeyword(k) && SameWord(w, k) ensures w != [] && Upper(w[0]) == k[0] {
      assert Upper(w[0]) == Upper(k[0]) == k[0];
    }
  }

  /** No word is a keyword of two severities, so the order of the tests in Rank does not matter. */
  lemma RankOfKeyword(w: string, r: nat)
    requires 1 <= r <= 5
    ensures Rank(w) == r <==> IsOneOf(w, KeywordsOf(r))
  {
    forall p, q | 1 <= p < q <= 5 ensures !(IsOneOf(w, KeywordsOf(p)) && IsOneOf(w, KeywordsOf(q))) {
      KeywordsAreApart(p, q, w);
    }
  }

  predicate HasRank(s: string, r: nat) {
    exists w :: w in Words(s) && Rank(w) == r
  }

  lemma RankIffWord(s: string, r: nat)
    requires 1 <= r <= 5
    ensures HasRank(s, r) <==> HasWord(s, KeywordsOf(r).0) || HasWord(s, KeywordsOf(r).1)
  {
    forall w | w in Words(s) ensures Rank(w) == r <==> IsOneOf(w, KeywordsOf(r)) {
      RankOfKeyword(w, r);
    }
  }

  function KeywordBody(a: string, b: string): Regex {
    if a == b then Lit(a, true) else Either(a, b, true)
  }

  lemma PatternIsRank(re: Regex, a: string, b: string, s: string, ranked: bool)
    requires IsKeyword(a) && IsKeyword(b) && re == Keyword(KeywordBody(a, b))
    requires ranked <==> HasWord(s, a) || HasWord(s, b)
    ensures MatchString(re, s) <==> ranked
  {
    if a == b {
      KeywordMatchesIffWord(re, a, s);
    } else {
      EitherMatchesIffWord(re, a, b, s);
    }
  }

  lemma KeywordTable(k: nat)
    requires k < 5
    ensures KEYWORD_PATTERNS[k].re == Keyword(KeywordBody(KeywordsOf(5 - k).0, KeywordsOf(5 - k).1))
    ensures IsKeyword(KeywordsOf(5 - k).0) && IsKeyword(KeywordsOf(5 - k).1)
  {
  }

  lemma KeywordPatternIsRank(s: string, k: nat)
    requires k < 5
    ensures MatchString(KEYWORD_PATTERNS[k].re, s) <==> HasRank(s, 5 - k)
  {
    RankIffWord(s, 5 - k);
    KeywordTable(k);
    PatternIsRank(KEYWORD_PATTERNS[k].re, KeywordsOf(5 - k).0, KeywordsOf(5 - k).1, s, HasRank(s, 5 - k));
  }

  lemma {:induction false} FirstOfKeywords(s: string, k: nat)
    requires k <= 5
    requires !exists j :: 0 <= j < k && MatchString(KEYWORD_PATTERNS[j].re, s)
    ensures FirstMatch(KEYWORD_PATTERNS[k..], s) ==
        if MaxRank(Words(s)) == 0 then "" else LevelName(MaxRank(Words(s)))
    decreases 5 - k
  {
    var top := MaxRank(Words(s));
    forall j | 0 <= j < 5 ensures MatchString(KEYWORD_PATTERNS[j].re, s) <==> HasRank(s, 5 - j) {
      KeywordPatternIsRank(s, j);
    }
    assert top > 0 ==> HasRank(s, top) && MatchString(KEYWORD_PATTERNS[5 - top].re, s);
    if k < 5 {
      assert KEYWORD_PATTERNS[k..][0] == KEYWORD_PATTERNS[k];
      assert KEYWORD_PATTERNS[k..][1..] == KEYWORD_PATTERNS[k + 1..];
      if MatchString(KEYWORD_PATTERNS[k].re, s) {
        assert HasRank(s, 5 - k);
        assert 5 - top >= k;
        assert KEYWORD_PATTERNS[k].level == LevelName(5 - k);
      } else {
        FirstOfKeywords(s, k + 1);
      }
    }
  }

  lemma {:induction false} FirstMatchConcat(a: seq<Pattern>, b: seq<Pattern>, s: string)
    ensures FirstMatch(a + b, s) ==
        if exists k :: 0 <= k < |a| && MatchString(a[k].re, s) then FirstMatch(a, s) else FirstMatch(b, s)
  {
    if a == [] {
      assert a + b == b;
    } else {
      assert (a + b)[1..] == a[1..] + b;
      FirstMatchConcat(a[1..], b, s);
      assert forall k :: 1 <= k < |a| ==> a[k] == a[1..][k - 1];
    }
  }

  lemma {:induction false} NoMatch(table: seq<Pattern>, s: string)
    requires forall k :: 0 <= k < |table| ==> !MatchString(table[k].re, s)
    ensures FirstMatch(table, s) == ""
  {
    if table != [] { NoMatch(table[1..], s); }
  }

  /** The shapes a JSON value pattern takes, each spelling out words a or b. */
  predicate ValueShape(re: Regex, a: string, b: string) {
    || (a == b && re == Lit(a, false))
    || re == Either(a, b, false)
    || (a <= b && re == Seq(Lit(a, false), Alt(Lit(b[|a|..], false), Empty)))
  }

  lemma ShapeMatches(re: Regex, a: string, b: string, s: string, i: nat, j: nat)
    requires i <= j <= |s| && ValueShape(re, a, b) && Matches(re, s, i, j)
    ensures s[i..j] == a || s[i..j] == b
  {
    if re.Seq? {
      var m := MatchSplit(re.first, re.second, s, i, j);
      assert s[i..j] == s[i..m] + s[m..j];
      assert Matches(re.second.left, s, m, j) || m == j;
    } else if re.Alt? {
      assert Matches(re.left, s, i, j) || Matches(re.right, s, i, j);
    }
  }

  function LowerOf(k: nat): (string, string)
    requires k < 5
  {
    match k
    case 0 => ("fatal", "panic")
    case 1 => ("error", "error")
    case 2 => ("warn", "warning")
    case 3 => ("info", "info")
    case 4 => ("debug", "trace")
  }

  lemma JsonTableIsLowerCase(k: nat)
    requires k < 5
    ensures SameWord(LowerOf(k).0, KeywordsOf(5 - k).0)
    ensures k != 1 ==> SameWord(LowerOf(k).1, KeywordsOf(5 - k).1)
  {
  }

  lemma JsonValueIsKeyword(k: nat, s: string, i: nat, j: nat)
    requires k < 5 && i <= j <= |s| && Matches(JsonValue(k), s, i, j)
    ensures IsOneOf(s[i..j], KeywordsOf(5 - k))
  {
    JsonTableIsLowerCase(k);
    ShapeMatches(JsonValue(k), LowerOf(k).0, LowerOf(k).1, s, i, j);
  }

  lemma QuotedKeywordIsWord(s: string, k: string, i: nat, j: nat)
    requires IsKeyword(k) && 0 < i <= j < |s| && s[i - 1] == '"' == s[j] && SameWord(s[i..j], k)
    ensures HasWord(s, k)
  {
    forall p | i <= p < j ensures WordAt(s, p) {
      assert Upper(s[i..j][p - i]) == Upper(k[p - i]) == k[p - i];
    }
    assert MaximalRun(s, i, j);
    RunIsWord(s, 0, i, j);
  }

  /** Whatever JSON pattern matches, the plain keyword pattern of the same level matches too. */
  lemma JsonPatternIsShadowed(s: string, k: nat)
    requires k < 5 && MatchString(JSON_PATTERNS[k].re, s)
    ensures MatchString(KEYWORD_PATTERNS[k].re, s)
  {
    RankIffWord(s, 5 - k);
    KeywordTable(k);
    KeywordPatternIsRank(s, k);
    var (a, b) := KeywordsOf(5 - k);
    var i, j := JsonValueIsWord(JSON_PATTERNS[k].re, JsonValue(k), s);
    JsonValueIsKeyword(k, s, i, j);
    if SameWord(s[i..j], a) {
      QuotedKeywordIsWord(s, a, i, j);
    } else {
      QuotedKeywordIsWord(s, b, i, j);
    }
  }

  /** The five JSON patterns can be deleted from the table without changing any result. */
  lemma JsonPatternsAreRedundant(s: string)
    ensures Detect(s) == FirstMatch(KEYWORD_PATTERNS, s)
  {
    FirstMatchConcat(KEYWORD_PATTERNS, JSON_PATTERNS, s);
    forall k | 0 <= k < 5 && MatchString(JSON_PATTERNS[k].re, s)
      ensures MatchString(KEYWORD_PATTERNS[k].re, s)
    {
      JsonPatternIsShadowed(s, k);
    }
    if !exists k :: 0 <= k < 5 && MatchString(KEYWORD_PATTERNS[k].re, s) {
      NoMatch(KEYWORD_PATTERNS, s);
      NoMatch(JSON_PATTERNS, s);
    }
  }

  /** Detection is the most severe keyword among the words of the line, for every line. */
  lemma DetectIsWorstWord(s: string)
    ensures Detect(s) == LevelName(MaxRank(Words(s)))
  {
    JsonPatternsAreRedundant(s);
    FirstOfKeywords(s, 0);
    assert KEYWORD_PATTERNS[0..] == KEYWORD_PATTERNS;
  }

  /** A line is an error line exactly when it has an ERROR or ERR word and no FATAL or PANIC word. */
  lemma DetectsErrorIff(s: string)
    ensures Detect(s) == "error" <==>
        (HasWord(s, "ERROR") || HasWord(s, "ERR")) && !HasWord(s, "FATAL") && !HasWord(s, "PANIC")
  {
    DetectIsWorstWord(s);
    RankIffWord(s, 5);
    RankIffWord(s, 4);
    assert HasRank(s, 4) && !HasRank(s, 5) <==> MaxRank(Words(s)) == 4;
  }

  /** Detection as a reader of the table would tell it: the first of these keywords, worst first, that is a word of the line. */
  lemma DetectsBySeverity(s: string)
    ensures Detect(s) ==
        if HasWord(s, "FATAL") || HasWord(s, "PANIC") then "fatal"
        else if HasWord(s, "ERROR") || HasWord(s, "ERR") then "error"
        else if HasWord(s, "WARN") || HasWord(s, "WARNING") then "warn"
        else if HasWord(s, "INFO") then "info"
        else if HasWord(s, "DEBUG") || HasWord(s, "TRACE") then "debug"
        else ""
  {
    DetectIsWorstWord(s);
    RankIffWord(s, 5);
    RankIffWord(s, 4);
    RankIffWord(s, 3);
    RankIffWord(s, 2);
    RankIffWord(s, 1);
  }

  /** The codes of the ASCII letters, digits and the underscore. */
  predicate WordCode(n: int) {
    48 <= n <= 57 || 65 <= n <= 90 || n == 95 || 97 <= n <= 122
  }

  /** The upper-case keyword stands at i in either case, letter by letter, and no word goes on before or after it. */
  ghost predicate StandsAt(keyword: string, s: string, i: nat) {
    && i + |keyword| <= |s|
    && (forall n :: 0 <= n < |keyword| ==>
          s[i + n] == keyword[n] || s[i + n] as int == keyword[n] as int + 32)
    && (i > 0 ==> !WordCode(s[i - 1] as int))
    && (i + |keyword| < |s| ==> !WordCode(s[i + |keyword|] as int))
  }

  lemma StandsIsRun(keyword: string, s: string, i: nat)
    requires IsKeyword(keyword)
    ensures StandsAt(keyword, s, i) <==>
        i + |keyword| <= |s| && MaximalRun(s, i, i + |keyword|) && SameWord(s[i..i + |keyword|], keyword)
  {
    var j := i + |keyword|;
    if j <= |s| {
      assert forall n :: 0 <= n < |keyword| ==> s[i..j][n] == s[i + n];
      if StandsAt(keyword, s, i) {
        forall k | i <= k < j ensures WordAt(s, k) {
          assert s[i + (k - i)] == keyword[k - i] || s[i + (k - i)] as int == keyword[k - i] as int + 32;
        }
      }
      if SameWord(s[i..j], keyword) {
        forall n | 0 <= n < |keyword|
          ensures s[i + n] == keyword[n] || s[i + n] as int == keyword[n] as int + 32
        {
          assert Upper(s[i..j][n]) == Upper(keyword[n]) == keyword[n];
        }
      }
    }
  }

  /** A keyword is a word of the line exactly when it stands somewhere in it, in upper or lower case, on its own. */
  lemma WordStandsAlone(s: string, keyword: string)
    requires IsKeyword(keyword)
    ensures HasWord(s, keyword) <==> exists i: nat :: i <= |s| && StandsAt(keyword, s, i)
  {
    if HasWord(s, keyword) {
      var w :| w in Words(s) && SameWord(w, keyword);
      var i, j := WordIsRun(s, 0, w);
      StandsIsRun(keyword, s, i);
    }
    if i: nat :| i <= |s| && StandsAt(keyword, s, i) {
      StandsIsRun(keyword, s, i);
      RunIsWord(s, 0, i, i + |keyword|);
    }
  }
}
