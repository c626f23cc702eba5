/** The five-dimension text scorer (`PTEScorer`): fluency, lexical resource,
    grammar, oral fluency and a pronunciation proxy, combined with fixed
    weights into a composite, truncated onto the 10-90 band and mapped to a
    0-90 section score. The object holds no mutable state, so the scorer is a
    module of functions; the three loops of the source (`_score_grammar`,
    `_score_pronunciation`, `_count_fillers`) are methods proved equal to the
    specification functions the lemmas reason about. */
module PteScorer {
  import opened Common
  import opened Text

  const MinScore: int := 10
  const MaxScore: int := 90
  const BandSize: int := 10

  const HighFreqWords: set<string> := {
    "the", "be", "to", "of", "and", "a", "in", "that", "have",
    "i", "it", "for", "not", "on", "with", "he", "as", "you",
    "do", "at", "this", "but", "his", "by", "from", "they"
  }

  const IntermediateWords: set<string> := {
    "however", "therefore", "moreover", "furthermore", "nevertheless",
    "accordingly", "specifically", "particularly", "especially",
    "develop", "demonstrate", "significant", "complex", "analysis"
  }

  const AdvancedWords: set<string> := {
    "ubiquitous", "ephemeral", "perspicacious", "amalgamate", "obfuscate",
    "elucidate", "ameliorate", "exacerbate", "circumvent", "delineate"
  }

  /** The filler lexicon. The source holds it in a set and sums over it, so
      the order chosen here does not matter. */
  const Fillers: seq<string> := ["um", "uh", "er", "like", "you know", "sort of", "kind of"]

  function FillerSet(): set<string> { set f | f in Fillers }

  datatype DimensionScores = DimensionScores(
    fluency: real,
    lexicalResource: real,
    grammar: real,
    oralFluency: real,
    pronunciation: real)

  datatype Breakdown = Breakdown(
    wordCount: nat,
    sentenceCount: nat,
    avgSentenceLength: real,
    lexicalDiversity: real,
    fillerCount: nat)

  datatype ScoreResult = ScoreResult(
    scores: DimensionScores,
    composite: real,
    band: int,
    sectionScore: real,
    breakdown: Breakdown)

  /** `text.lower().split()` */
  function LowerWords(text: string): seq<string> {
    Split(Lower(text))
  }

  predicate IsVowel(c: char) { c == 'a' || c == 'e' || c == 'i' || c == 'o' || c == 'u' }

  // ---------------------------------------------------------------- fluency

  /** Type-token ratio of the lower-cased whitespace tokens (0 when empty). */
  function LexicalDiversity(text: string): (r: real)
    ensures 0.0 <= r <= 1.0
    ensures LowerWords(text) != [] ==> r > 0.0
  {
    var words := LowerWords(text);
    if |words| == 0 then 0.0
    else
      DistinctBound(words);
      RatioBounds(|Distinct(words)|, |words|);
      |Distinct(words)| as real / |words| as real
  }

  function ScoreFluency(text: string): (r: real)
    ensures 0.0 <= r <= 100.0
    ensures |LowerWords(text)| < 5 ==> r == 20.0
  {
    var words := LowerWords(text);
    if |words| < 5 then 20.0
    else
      var diversityScore := MinR(LexicalDiversity(text) * 100.0, 60.0);
      var sentences := Sentences(text);
      var complexityScore :=
        if |sentences| > 1 then
          var avgLen := |words| as real / |sentences| as real;
          if avgLen > 5.0 then MinR(40.0, avgLen * 2.0) else 20.0
        else 10.0;
      var connectives := CountIn(words, IntermediateWords);
      var connectiveScore := MinR(40.0, connectives as real * 5.0);
      MinR(100.0, diversityScore + (complexityScore + connectiveScore) * 0.5)
  }

  // ------------------------------------------------------- lexical resource

  /** `[w.lower() for w in re.findall(r"\b\w+\b", text)]`: the maximal runs
      of word characters, lower-cased. */
  function WordTokens(text: string): seq<string> {
    Runs(Lower(text), IsWordChar)
  }


  /** The lexical-resource formula on the counts of `n >= 5` tokens: the
      balance term (preferring 40% high-frequency words, up to 15%
      intermediate and 10% advanced) plus 20 times the type-token ratio. */
  function LexicalFromCounts(n: nat, highFreq: nat, intermediate: nat, advanced: nat, distinct: nat): real
    requires 0 < n && highFreq <= n && intermediate <= n && advanced <= n && distinct <= n
  {
    var highFreqRatio := Ratio(highFreq, n);
    var deviation := if 0.4 - highFreqRatio >= 0.0 then 0.4 - highFreqRatio else highFreqRatio - 0.4;
    var balance := 50.0 * (1.0 - deviation)
      + 30.0 * MinR(Ratio(intermediate, n), 0.15)
      + 20.0 * MinR(Ratio(advanced, n), 0.1);
    MinR(100.0, balance + Ratio(distinct, n) * 20.0)
  }

  /** The balance term is at least 20 because the high-frequency ratio lies
      in [0,1]; the score is capped at 100. */
  lemma LexicalFromCountsBounds(n: nat, highFreq: nat, intermediate: nat, advanced: nat, distinct: nat)
    requires 0 < n && highFreq <= n && intermediate <= n && advanced <= n && distinct <= n
    ensures 20.0 <= LexicalFromCounts(n, highFreq, intermediate, advanced, distinct) <= 100.0
  {
    var h := Ratio(highFreq, n);
    assert 0.0 <= h <= 1.0;
    assert 0.0 <= Ratio(intermediate, n) && 0.0 <= Ratio(advanced, n) && 0.0 <= Ratio(distinct, n);
  }

  function ScoreLexicalResource(text: string): (r: real)
    ensures 20.0 <= r <= 100.0
    ensures |WordTokens(text)| < 5 ==> r == 20.0
  {
    var words := WordTokens(text);
    if |words| < 5 then 20.0
    else
      DistinctBound(words);
      var n := |words|;
      var highFreq := CountIn(words, HighFreqWords);
      var intermediate := CountIn(words, IntermediateWords);
      var advanced := CountIn(words, AdvancedWords);
      var distinct := |Distinct(words)|;
      LexicalFromCountsBounds(n, highFreq, intermediate, advanced, distinct);
      LexicalFromCounts(n, highFreq, intermediate, advanced, distinct)
  }

  // ---------------------------------------------------------------- grammar

  /** `\b<art>\s+[aeiou]` matches at position `i` of `s`. */
  predicate ArticleBeforeVowelAt(s: string, i: nat, art: string) {
    i + |art| < |s| && s[i..i + |art|] == art
    && (i == 0 || !IsWordChar(s[i - 1]))
    && IsSpace(s[i + |art|])
    && var j := i + |art| + RunLen(s[i + |art|..], IsSpace);
       j < |s| && IsVowel(s[j])
  }

  predicate ArticleBeforeVowel(s: string, art: string) {
    exists i: nat | i < |s| :: ArticleBeforeVowelAt(s, i, art)
  }

  /** `\bhe\s+don't\b` matches at position `i` of `s`. */
  predicate HeDontAt(s: string, i: nat) {
    i + 2 < |s| && s[i..i + 2] == "he"
    && (i == 0 || !IsWordChar(s[i - 1]))
    && IsSpace(s[i + 2])
    && var j := i + 2 + RunLen(s[i + 2..], IsSpace);
       j + 5 <= |s| && s[j..j + 5] == "don't"
       && (j + 5 == |s| || !IsWordChar(s[j + 5]))
  }

  predicate HeDont(s: string) {
    exists i: nat | i < |s| :: HeDontAt(s, i)
  }

  /** `_count_grammar_issues`: "a" before a vowel (unless "an" before a vowel
      also occurs) and "he don't" each count once. */
  function GrammarIssues(sentence: string): (n: nat)
    ensures n <= 2
  {
    (if ArticleBeforeVowel(sentence, "a") && !ArticleBeforeVowel(sentence, "an") then 1 else 0)
    + (if HeDont(sentence) then 1 else 0)
  }

  function TotalIssues(sentences: seq<string>): nat {
    if sentences == [] then 0
    else TotalIssues(sentences[..|sentences| - 1]) + GrammarIssues(sentences[|sentences| - 1])
  }

  lemma {:induction false} TotalIssuesBound(sentences: seq<string>)
    ensures TotalIssues(sentences) <= 2 * |sentences|
  {
    if sentences != [] { TotalIssuesBound(sentences[..|sentences| - 1]); }
  }

  /** Grammar = max(0, 1 - issues / sentences) * 100 for at least one sentence. */
  function GrammarFromCounts(issues: nat, sentences: nat): (r: real)
    requires sentences > 0
  {
    MaxR(0.0, 1.0 - issues as real / sentences as real) * 100.0
  }

  lemma GrammarFromCountsBounds(issues: nat, sentences: nat)
    requires sentences > 0
    ensures 0.0 <= GrammarFromCounts(issues, sentences) <= 100.0
    ensures issues == 0 ==> GrammarFromCounts(issues, sentences) == 100.0
    ensures issues >= sentences ==> GrammarFromCounts(issues, sentences) == 0.0
  {
    var ratio := issues as real / sentences as real;
    assert ratio >= 0.0;
    assert issues >= sentences ==> ratio >= 1.0;
  }

  /** 50 when there is no sentence. */
  function GrammarScore(text: string): real {
    var sentences := Sentences(text);
    if sentences == [] then 50.0 else GrammarFromCounts(TotalIssues(sentences), |sentences|)
  }

  lemma GrammarScoreBounds(text: string)
    ensures 0.0 <= GrammarScore(text) <= 100.0
  {
    var sentences := Sentences(text);
    if sentences != [] {
      GrammarFromCountsBounds(TotalIssues(sentences), |sentences|);
    }
  }

  /** `_score_grammar`: accumulates the issues of every sentence. */
  method ScoreGrammar(text: string) returns (score: real)
    ensures score == GrammarScore(text)
    ensures 0.0 <= score <= 100.0
  {
    var sentences := Sentences(text);
    if sentences == [] {
      return 50.0;
    }
    var totalErrors := SumIssues(sentences);
    score := GrammarFromCounts(totalErrors, |sentences|);
    GrammarScoreBounds(text);
  }

  method SumIssues(sentences: seq<string>) returns (totalErrors: nat)
    ensures totalErrors == TotalIssues(sentences)
  {
    totalErrors := 0;
    var i := 0;
    while i < |sentences|
      invariant 0 <= i <= |sentences|
      invariant totalErrors == TotalIssues(sentences[..i])
    {
      assert sentences[..i + 1][..i] == sentences[..i];
      totalErrors := totalErrors + GrammarIssues(sentences[i]);
      i := i + 1;
    }
    assert sentences[..i] == sentences;
  }

  // ---------------------------------------------------------- pronunciation

  predicate IsSibilant(c: char) { c == 's' || c == 'x' || c == 'z' }

  /** `re.search(r"[sxz][^aeiou]", word)` */
  predicate HasSibilantCluster(word: string) {
    exists i: nat | i + 1 < |word| :: IsSibilant(word[i]) && !IsVowel(word[i + 1])
  }

  /** `re.search(r"[dt][h]", word)` */
  predicate HasThBlend(word: string) {
    exists i: nat | i + 1 < |word| :: (word[i] == 'd' || word[i] == 't') && word[i + 1] == 'h'
  }

  /** Phonetic complexity points of one word: 2 for a sibilant cluster, 1 for
      a th/dh blend, 1 for more than two vowels. */
  function WordComplexity(word: string): (n: nat)
    ensures n <= 4
  {
    (if HasSibilantCluster(word) then 2 else 0)
    + (if HasThBlend(word) then 1 else 0)
    + (if CountChars(word, IsVowel) > 2 then 1 else 0)
  }

  function TotalComplexity(words: seq<string>): nat {
    if words == [] then 0
    else TotalComplexity(words[..|words| - 1]) + WordComplexity(words[|words| - 1])
  }

  lemma {:induction false} TotalComplexityBound(words: seq<string>)
    ensures TotalComplexity(words) <= 4 * |words|
  {
    if words != [] { TotalComplexityBound(words[..|words| - 1]); }
  }

  /** 60 plus ten times the mean complexity, capped at 100. */
  function PronunciationFromCounts(complexity: nat, n: nat): real
    requires n > 0
  {
    MinR(100.0, 60.0 + (complexity as real / n as real) * 10.0)
  }

  function PronunciationScore(text: string): real {
    var words := LowerWords(text);
    if words == [] then 50.0 else PronunciationFromCounts(TotalComplexity(words), |words|)
  }

  /** At least 60, and the cap at 100 never binds when every word earns at
      most four complexity points. */
  lemma PronunciationFromCountsBounds(complexity: nat, n: nat)
    requires 0 < n && complexity <= 4 * n
    ensures 60.0 <= PronunciationFromCounts(complexity, n) <= 100.0
    ensures PronunciationFromCounts(complexity, n) == 60.0 + (complexity as real / n as real) * 10.0
  {
    assert complexity as real <= 4.0 * n as real;
    assert complexity as real / n as real <= 4.0;
  }

  /** 50 without tokens; otherwise in [60,100]. */
  lemma PronunciationScoreBounds(text: string)
    ensures LowerWords(text) == [] ==> PronunciationScore(text) == 50.0
    ensures LowerWords(text) != [] ==> 60.0 <= PronunciationScore(text) <= 100.0
  {
    var words := LowerWords(text);
    if words != [] {
      TotalComplexityBound(words);
      PronunciationFromCountsBounds(TotalComplexity(words), |words|);
    }
  }

  /** `_score_pronunciation`: accumulates the complexity points of every token. */
  method ScorePronunciation(text: string) returns (score: real)
    ensures score == PronunciationScore(text)
    ensures 0.0 <= score <= 100.0
  {
    var words := LowerWords(text);
    if words == [] {
      return 50.0;
    }
    var phoneticComplexity := 0;
    var i := 0;
    while i < |words|
      invariant 0 <= i <= |words|
      invariant phoneticComplexity == TotalComplexity(words[..i])
    {
      var word := words[i];
      assert words[..i + 1][..i] == words[..i];
      if HasSibilantCluster(word) {
        phoneticComplexity := phoneticComplexity + 2;
      }
      if HasThBlend(word) {
        phoneticComplexity := phoneticComplexity + 1;
      }
      if CountChars(word, IsVowel) > 2 {
        phoneticComplexity := phoneticComplexity + 1;
      }
      i := i + 1;
    }
    assert words[..i] == words;
    score := PronunciationFromCounts(phoneticComplexity, |words|);
    PronunciationScoreBounds(text);
  }

  // ----------------------------------------------------------- oral fluency

  /** Number of tokens equal to some filler (`_count_fillers`). */
  function FillerCount(words: seq<string>): nat {
    CountIn(words, FillerSet())
  }

  /** `sum over fillers f of (number of tokens equal to f)` for the first
      fillers of a list: what `_count_fillers` has added up so far. */
  function SumOccurrences(words: seq<string>, fillers: seq<string>): nat {
    if fillers == [] then 0
    else SumOccurrences(words, fillers[..|fillers| - 1]) + CountIn(words, {fillers[|fillers| - 1]})
  }

  lemma {:induction false} CountInAddWord(words: seq<string>, lexicon: set<string>, w: string)
    requires w !in lexicon
    ensures CountIn(words, lexicon + {w}) == CountIn(words, lexicon) + CountIn(words, {w})
  {
    if words != [] { CountInAddWord(words[..|words| - 1], lexicon, w); }
  }

  /** Summing per-filler counts over a list without repetitions counts the
      tokens that are in the lexicon. */
  lemma {:induction false} SumOccurrencesIsCountIn(words: seq<string>, fillers: seq<string>)
    requires forall i, j :: 0 <= i < j < |fillers| ==> fillers[i] != fillers[j]
    ensures SumOccurrences(words, fillers) == CountIn(words, set f | f in fillers)
  {
    if fillers == [] {
      assert (set f | f in fillers) == {};
      CountInEmptyLexicon(words);
    } else {
      var init := fillers[..|fillers| - 1];
      var last := fillers[|fillers| - 1];
      SumOccurrencesIsCountIn(words, init);
      assert (set f | f in fillers) == (set f | f in init) + {last} by {
        forall f ensures f in fillers <==> f in init || f == last {
          if f in fillers {
            var k :| 0 <= k < |fillers| && fillers[k] == f;
            if k < |fillers| - 1 { assert init[k] == f; }
          }
          if f in init {
            var k :| 0 <= k < |init| && init[k] == f;
            assert fillers[k] == f;
          }
        }
      }
      assert last !in (set f | f in init);
      CountInAddWord(words, (set f | f in init), last);
    }
  }

  lemma {:induction false} CountInEmptyLexicon(words: seq<string>)
    ensures CountIn(words, {}) == 0
  {
    if words != [] { CountInEmptyLexicon(words[..|words| - 1]); }
  }

  /** `_count_fillers`: one pass per filler, adding up the tokens equal to it. */
  method CountFillers(text: string) returns (count: nat)
    ensures count == FillerCount(LowerWords(text))
    ensures count <= |LowerWords(text)|
  {
    var words := LowerWords(text);
    count := 0;
    var j := 0;
    while j < |Fillers|
      invariant 0 <= j <= |Fillers|
      invariant count == SumOccurrences(words, Fillers[..j])
    {
      assert Fillers[..j + 1][..j] == Fillers[..j];
      count := count + CountIn(words, {Fillers[j]});
      j := j + 1;
    }
    assert Fillers[..j] == Fillers;
    SumOccurrencesIsCountIn(words, Fillers);
  }

  /** A string holding whitespace is never one of the tokens of `str.split()`. */
  lemma NoTokenEquals(words: seq<string>, w: string, i: nat)
    requires forall k, j :: 0 <= k < |words| && 0 <= j < |words[k]| ==> !IsSpace(words[k][j])
    requires i < |w| && IsSpace(w[i])
    ensures forall k :: 0 <= k < |words| ==> words[k] != w
  {
    forall k | 0 <= k < |words| ensures words[k] != w {
      if i < |words[k]| { assert !IsSpace(words[k][i]); }
    }
  }

  /** The multi-word fillers ("you know", "sort of", "kind of") can never
      equal a whitespace token, so only the four one-word fillers count. */
  lemma MultiWordFillersNeverMatch(text: string)
    ensures FillerCount(LowerWords(text)) == CountIn(LowerWords(text), {"um", "uh", "er", "like"})
  {
    var words := LowerWords(text);
    NoTokenEquals(words, "you know", 3);
    NoTokenEquals(words, "sort of", 4);
    NoTokenEquals(words, "kind of", 4);
    var all := FillerSet();
    assert all == {"um", "uh", "er", "like", "you know", "sort of", "kind of"};
    CountInIgnoresAbsent(words, all, "you know");
    CountInIgnoresAbsent(words, all - {"you know"}, "sort of");
    CountInIgnoresAbsent(words, all - {"you know"} - {"sort of"}, "kind of");
    assert all - {"you know"} - {"sort of"} - {"kind of"} == {"um", "uh", "er", "like"};
  }

  /** Oral fluency of a text of `wordCount >= 10` tokens, `fillerCount` of
      them fillers: 0.6 * filler score + 0.4 * pacing score. */
  function OralFluencyFrom(wordCount: nat, fillerCount: nat): (r: real)
    requires wordCount >= 10
  {
    var fillerRatio := fillerCount as real / wordCount as real;
    var fillerScore :=
      if fillerRatio < 0.05 then 80.0
      else if fillerRatio < 0.10 then 60.0
      else MaxR(20.0, 60.0 - fillerRatio * 100.0);
    var relativeLength := MinR(wordCount as real / 150.0, 1.0) * 100.0;
    var pacingScore := MinR(80.0, relativeLength);
    fillerScore * 0.6 + pacingScore * 0.4
  }

  function OralFluencyScore(text: string): real {
    var words := LowerWords(text);
    if |words| < 10 then 40.0 else OralFluencyFrom(|words|, FillerCount(words))
  }

  /** 40 below ten tokens; otherwise within [12,80]. */
  lemma OralFluencyBounds(wordCount: nat, fillerCount: nat)
    requires wordCount >= 10 && fillerCount <= wordCount
    ensures 12.0 <= OralFluencyFrom(wordCount, fillerCount) <= 80.0
  {
    var ratio := fillerCount as real / wordCount as real;
    assert ratio <= 1.0;
    var rel := MinR(wordCount as real / 150.0, 1.0) * 100.0;
    assert rel >= 0.0;
  }

  /** With the token count fixed, more fillers never raise oral fluency: the
      filler score steps down 80, 60, then at most 50. */
  lemma OralFluencyFillerMonotone(wordCount: nat, fewer: nat, more: nat)
    requires wordCount >= 10 && fewer <= more
    ensures OralFluencyFrom(wordCount, more) <= OralFluencyFrom(wordCount, fewer)
  {
    var n := wordCount as real;
    var r1 := fewer as real / n;
    var r2 := more as real / n;
    assert r1 <= r2 by {
      assert fewer as real <= more as real;
    }
  }

  /** `_score_oral_fluency` */
  method ScoreOralFluency(text: string) returns (score: real)
    ensures score == OralFluencyScore(text)
    ensures |LowerWords(text)| < 10 ==> score == 40.0
    ensures |LowerWords(text)| >= 10 ==> 12.0 <= score <= 80.0
  {
    var words := LowerWords(text);
    if |words| < 10 {
      return 40.0;
    }
    var fillerCount := CountFillers(text);
    score := OralFluencyFrom(|words|, fillerCount);
    OralFluencyBounds(|words|, fillerCount);
  }

  // ------------------------------------------------- composite and calibration

  /** The fixed weights 0.25/0.25/0.20/0.15/0.15. */
  function Composite(s: DimensionScores): real {
    s.fluency * 0.25
    + s.lexicalResource * 0.25
    + s.grammar * 0.20
    + s.oralFluency * 0.15
    + s.pronunciation * 0.15
  }

  predicate InPercent(x: real) { 0.0 <= x <= 100.0 }

  predicate AllInPercent(s: DimensionScores) {
    InPercent(s.fluency) && InPercent(s.lexicalResource) && InPercent(s.grammar)
    && InPercent(s.oralFluency) && InPercent(s.pronunciation)
  }

  /** The weights sum to one: a composite lies between the smallest and the
      largest dimension score, hence in [0,100]. */
  lemma CompositeBounds(s: DimensionScores, lo: real, hi: real)
    requires lo <= s.fluency <= hi && lo <= s.lexicalResource <= hi && lo <= s.grammar <= hi
    requires lo <= s.oralFluency <= hi && lo <= s.pronunciation <= hi
    ensures lo <= Composite(s) <= hi
  {
  }

  /** `_calibrate_to_band`: `int(10 + composite / 100 * 80)` clamped to
      [10,90], then truncated to a multiple of ten. */
  function CalibrateToBand(composite: real): (band: int)
    ensures MinScore <= band <= MaxScore
    ensures band % BandSize == 0
  {
    var raw := Trunc(10.0 + (composite / 100.0) * 80.0);
    var clamped := MaxI(MinScore, MinI(MaxScore, raw));
    (clamped / BandSize) * BandSize
  }

  lemma CalibrateToBandMonotone(x: real, y: real)
    requires x <= y
    ensures CalibrateToBand(x) <= CalibrateToBand(y)
  {
    TruncMonotone(10.0 + (x / 100.0) * 80.0, 10.0 + (y / 100.0) * 80.0);
    var cx := MaxI(MinScore, MinI(MaxScore, Trunc(10.0 + (x / 100.0) * 80.0)));
    var cy := MaxI(MinScore, MinI(MaxScore, Trunc(10.0 + (y / 100.0) * 80.0)));
    assert cx <= cy;
    DivMonotone(cx, cy);
  }

  lemma DivMonotone(a: int, b: int)
    requires 0 <= a <= b
    ensures a / 10 <= b / 10
  {
  }

  /** On [0,100] the band is the multiple of ten at or below
      10 + composite * 0.8: it truncates, it never rounds up. */
  lemma CalibrateToBandTruncates(composite: real)
    requires 0.0 <= composite <= 100.0
    ensures CalibrateToBand(composite) as real <= 10.0 + composite * 0.8
    ensures composite < 100.0 ==> 10.0 + composite * 0.8 < CalibrateToBand(composite) as real + 10.0
  {
    var x := 10.0 + (composite / 100.0) * 80.0;
    assert x == 10.0 + composite * 0.8;
    var raw := Trunc(x);
    assert 10 <= raw <= 90;
  }

  lemma CalibrationEndpoints()
    ensures CalibrateToBand(0.0) == 10
    ensures CalibrateToBand(50.0) == 50
    ensures CalibrateToBand(100.0) == 90
    ensures CalibrateToBand(33.5) == 30
  {
    assert Trunc(10.0) == 10;
    assert Trunc(50.0) == 50;
    assert Trunc(90.0) == 90;
    assert Trunc(36.8) == 36;
  }

  /** `_band_to_section_score`: the band rescaled from 10..90 onto 0..90 and
      clamped. The result is a real, not always integral. */
  function BandToSectionScore(band: int): (r: real)
    ensures 0.0 <= r <= 90.0
  {
    MinR(90.0, MaxR(0.0, ((band - 10) as real / 80.0) * 90.0))
  }

  lemma BandToSectionScoreMonotone(a: int, b: int)
    requires a <= b
    ensures BandToSectionScore(a) <= BandToSectionScore(b)
  {
    assert (a - 10) as real / 80.0 <= (b - 10) as real / 80.0;
  }

  lemma SectionScoreEndpoints()
    ensures BandToSectionScore(10) == 0.0
    ensures BandToSectionScore(90) == 90.0
    ensures BandToSectionScore(20) == 11.25
    ensures BandToSectionScore(30) == 22.5
    ensures BandToSectionScore(0) == 0.0
    ensures BandToSectionScore(100) == 90.0
  {
  }

  // ------------------------------------------------------------------ score

  function Dimensions(text: string): DimensionScores {
    DimensionScores(
      ScoreFluency(text),
      ScoreLexicalResource(text),
      GrammarScore(text),
      OralFluencyScore(text),
      PronunciationScore(text))
  }

  function BreakdownOf(text: string): Breakdown {
    var wordCount := |Split(text)|;
    var sentenceCount := |Pieces(Strip(text), IsTerminal)|;
    Breakdown(
      wordCount,
      sentenceCount,
      wordCount as real / MaxI(sentenceCount, 1) as real,
      LexicalDiversity(text),
      FillerCount(LowerWords(text)))
  }

  /** What `PTEScorer.score` returns for `text`; metadata plays no part. */
  function ScoreOf(text: string): ScoreResult {
    var dims := Dimensions(text);
    var composite := Composite(dims);
    var band := CalibrateToBand(composite);
    ScoreResult(dims, composite, band, BandToSectionScore(band), BreakdownOf(text))
  }

  lemma DimensionsInPercent(text: string)
    ensures AllInPercent(Dimensions(text))
  {
    GrammarScoreBounds(text);
    PronunciationScoreBounds(text);
    var words := LowerWords(text);
    if |words| >= 10 {
      OralFluencyBounds(|words|, FillerCount(words));
    }
  }

  /** Every dimension score lies in [0,100], hence so does the composite;
      the band is a multiple of ten in [10,90] and the section score lies
      in [0,90]. */
  lemma ScoreOfBounds(text: string)
    ensures AllInPercent(ScoreOf(text).scores)
    ensures InPercent(ScoreOf(text).composite)
  {
    DimensionsInPercent(text);
    CompositeBounds(Dimensions(text), 0.0, 100.0);
  }

  /** `PTEScorer.score`. The metadata argument is accepted and ignored. */
  method Score(text: string, metadata: map<string, Json>) returns (r: ScoreResult)
    ensures r == ScoreOf(text)
    ensures AllInPercent(r.scores)
    ensures InPercent(r.composite)
    ensures MinScore <= r.band <= MaxScore && r.band % BandSize == 0
    ensures 0.0 <= r.sectionScore <= 90.0
  {
    var fluency := ScoreFluency(text);
    var lexical := ScoreLexicalResource(text);
    var grammar := ScoreGrammar(text);
    var oralFluency := ScoreOralFluency(text);
    var pronunciation := ScorePronunciation(text);
    var dims := DimensionScores(fluency, lexical, grammar, oralFluency, pronunciation);
    var composite := Composite(dims);
    var band := CalibrateToBand(composite);
    var sectionScore := BandToSectionScore(band);
    var wordCount := |Split(text)|;
    var sentenceCount := |Pieces(Strip(text), IsTerminal)|;
    var fillerCount := CountFillers(text);
    var breakdown := Breakdown(
      wordCount,
      sentenceCount,
      wordCount as real / MaxI(sentenceCount, 1) as real,
      LexicalDiversity(text),
      fillerCount);
    r := ScoreResult(dims, composite, band, sectionScore, breakdown);
    ScoreOfBounds(text);
  }

  /** The empty text does not fail: fluency 20, lexical 20, grammar 50, oral
      fluency 40, pronunciation 50, composite 33.5, band 30. */
  lemma EmptyTextScore()
    ensures ScoreOf("").scores == DimensionScores(20.0, 20.0, 50.0, 40.0, 50.0)
    ensures ScoreOf("").composite == 33.5
    ensures ScoreOf("").band == 30
    ensures ScoreOf("").sectionScore == 22.5
  {
    assert LowerWords("") == [];
    assert WordTokens("") == [];
    assert Pieces(Strip(""), IsTerminal) == [""];
    assert Sentences("") == [];
    CalibrationEndpoints();
  }
}
