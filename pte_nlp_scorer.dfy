/** The four-dimension NLP scorer (`compute_pte_scores`): fluency,
    pronunciation, lexical range and grammar, each clamped to the 10-90 PTE
    scale, and an overall score that is the truncated equal-weight mean.
    A text that is absent or whose stripped length is below 5 scores 10
    everywhere. Each sub-score is a clamp of a raw formula over a few counts;
    the raw formulas are separate functions so that their bounds can be
    proved once. */
module PteNlpScorer {
  import opened Common
  import opened Text

  const MinSubScore: int := 10
  const MaxSubScore: int := 90

  const Keys: set<string> := {"fluency", "pronunciation", "lexical_range", "grammar", "overall"}

  const NlpFillers: set<string> :=
    {"um", "uh", "like", "you know", "basically", "actually", "literally"}

  const FunctionWords: set<string> := {
    "the", "a", "an", "is", "are", "was", "were", "and", "or", "but",
    "in", "on", "at", "to", "of", "for", "with"
  }

  const Conjunctions: set<string> :=
    {"and", "but", "or", "because", "since", "although", "while", "when", "if"}

  // ------------------------------------------------------------- tokenising

  predicate AllLower(w: string) {
    forall i :: 0 <= i < |w| ==> IsLowerLetter(w[i])
  }

  /** The word-character runs made only of the letters a-z. */
  function LetterRuns(runs: seq<string>): (r: seq<string>)
    ensures |r| <= |runs|
    ensures forall k :: 0 <= k < |r| ==> r[k] != [] && AllLower(r[k])
  {
    if runs == [] then []
    else
      var rest := LetterRuns(runs[1..]);
      if runs[0] != [] && AllLower(runs[0]) then [runs[0]] + rest else rest
  }

  /** `re.findall(r'\b[a-z]+\b', text.lower())`: a maximal run of word
      characters yields a token exactly when all of it is letters, since a
      digit or underscore next to a letter leaves no word boundary there. */
  function Tokenize(text: string): (r: seq<string>)
    ensures forall k :: 0 <= k < |r| ==> r[k] != [] && AllLower(r[k])
    ensures forall k :: 0 <= k < |r| ==> Contains(Lower(text), r[k])
  {
    var runs := Runs(Lower(text), IsWordChar);
    RunsOccur(Lower(text), IsWordChar);
    LetterRunsOccur(Lower(text), runs);
    LetterRuns(runs)
  }

  /** Every run occurs in the string it was cut from. */
  lemma {:induction false} RunsOccur(s: string, p: char -> bool)
    ensures forall k :: 0 <= k < |Runs(s, p)| ==> Contains(s, Runs(s, p)[k])
    decreases |s|
  {
    if s != [] {
      if !p(s[0]) {
        RunsOccur(s[1..], p);
        forall k | 0 <= k < |Runs(s, p)| ensures Contains(s, Runs(s, p)[k]) {
          assert Runs(s, p)[k] == Runs(s[1..], p)[k];
        }
      } else {
        var n := RunLen(s, p);
        RunsOccur(s[n..], p);
        forall k | 0 <= k < |Runs(s, p)| ensures Contains(s, Runs(s, p)[k]) {
          if k == 0 {
            assert Runs(s, p)[0] == s[..n];
          } else {
            assert Runs(s, p)[k] == Runs(s[n..], p)[k - 1];
            ContainsSuffix(s, n, Runs(s[n..], p)[k - 1]);
          }
        }
      }
    }
  }

  /** A needle found in a suffix is found in the whole string. */
  lemma {:induction false} ContainsSuffix(s: string, n: nat, needle: string)
    requires n <= |s| && Contains(s[n..], needle)
    ensures Contains(s, needle)
    decreases n
  {
    if n > 0 {
      assert s[1..][n - 1..] == s[n..];
      ContainsSuffix(s[1..], n - 1, needle);
    }
  }

  lemma {:induction false} LetterRunsOccur(s: string, runs: seq<string>)
    requires forall k :: 0 <= k < |runs| ==> Contains(s, runs[k])
    ensures forall k :: 0 <= k < |LetterRuns(runs)| ==> Contains(s, LetterRuns(runs)[k])
  {
    if runs != [] {
      LetterRunsOccur(s, runs[1..]);
    }
  }

  /** A token is never a phrase with a space in it, so the multi-word filler
      "you know" never matches. */
  lemma NoTokenHasSpace(words: seq<string>, phrase: string, i: nat)
    requires forall k :: 0 <= k < |words| ==> AllLower(words[k])
    requires i < |phrase| && phrase[i] == ' '
    ensures forall k :: 0 <= k < |words| ==> words[k] != phrase
  {
    forall k | 0 <= k < |words| ensures words[k] != phrase {
      if i < |words[k]| { assert IsLowerLetter(words[k][i]); }
    }
  }

  // ------------------------------------------------------------- syllables

  predicate IsSyllableVowel(c: char) {
    c == 'a' || c == 'e' || c == 'i' || c == 'o' || c == 'u' || c == 'y'
  }

  /** Number of maximal vowel groups: vowels not preceded by a vowel. */
  function VowelGroups(w: string): (n: nat)
    ensures n <= |w|
  {
    if w == [] then 0
    else
      var starts := IsSyllableVowel(w[|w| - 1]) && (|w| == 1 || !IsSyllableVowel(w[|w| - 2]));
      VowelGroups(w[..|w| - 1]) + (if starts then 1 else 0)
  }

  /** The syllable estimate: vowel groups, one less for a final "e", one more
      for a final consonant + "le", and never below one. */
  function Syllables(word: string): (n: int)
    ensures n >= 1
  {
    var w := Lower(word);
    var groups := VowelGroups(w) as int;
    var silentE := if EndsWith(w, "e") then 1 else 0;
    var finalLe := if EndsWith(w, "le") && |w| > 2 && !IsSyllableVowel(w[|w| - 3]) then 1 else 0;
    MaxI(1, groups - silentE + finalLe)
  }

  /** `_count_syllables`: one pass over the characters, remembering whether
      the previous one was a vowel. */
  method CountSyllables(word: string) returns (n: int)
    ensures n == Syllables(word)
    ensures 1 <= n
  {
    var w := Lower(word);
    var syllableCount := 0;
    var previousWasVowel := false;
    var i := 0;
    while i < |w|
      invariant 0 <= i <= |w|
      invariant syllableCount == VowelGroups(w[..i])
      invariant previousWasVowel == (i > 0 && IsSyllableVowel(w[i - 1]))
    {
      var isVowel := IsSyllableVowel(w[i]);
      if isVowel && !previousWasVowel {
        syllableCount := syllableCount + 1;
      }
      previousWasVowel := isVowel;
      assert w[..i + 1][..i] == w[..i];
      i := i + 1;
    }
    assert w[..i] == w;
    if EndsWith(w, "e") {
      syllableCount := syllableCount - 1;
    }
    if EndsWith(w, "le") && |w| > 2 && !IsSyllableVowel(w[|w| - 3]) {
      syllableCount := syllableCount + 1;
    }
    n := MaxI(1, syllableCount);
  }

  /** A non-empty word never has more syllables than letters: the "le" bonus
      only ever cancels the silent-"e" deduction. */
  lemma SyllablesAtMostLength(word: string)
    requires word != []
    ensures Syllables(word) <= |word|
  {
    var w := Lower(word);
    if EndsWith(w, "le") {
      assert w[|w| - 1] == "le"[1];
      assert EndsWith(w, "e");
    }
  }

  /** Sum of the syllable estimates of `words`. */
  function TotalSyllables(words: seq<string>): (n: nat)
    ensures n >= |words|
  {
    if words == [] then 0
    else TotalSyllables(words[..|words| - 1]) + Syllables(words[|words| - 1])
  }

  /** Sum of the lengths of `words`. */
  function TotalLength(words: seq<string>): (n: nat) {
    if words == [] then 0
    else TotalLength(words[..|words| - 1]) + |words[|words| - 1]|
  }

  // --------------------------------------------------------------- helpers

  /** `not text or len(text.strip()) < 5`: the guard every sub-score shares. */
  predicate TooShort(text: Option<string>) {
    text.None? || |Strip(text.value)| < 5
  }

  /** `metadata.get(key, 0)` for a numeric hint. */
  function Hint(metadata: map<string, real>, key: string): real {
    if key in metadata then metadata[key] else 0.0
  }

  /** `max(10, min(90, int(score)))` */
  function Bounded(score: real): (r: int)
    ensures MinSubScore <= r <= MaxSubScore
  {
    Clamp(MinSubScore, MaxSubScore, Trunc(score))
  }

  lemma BoundedMonotone(x: real, y: real)
    requires x <= y
    ensures Bounded(x) <= Bounded(y)
  {
    TruncMonotone(x, y);
    ClampMonotone(MinSubScore, MaxSubScore, Trunc(x), Trunc(y));
  }

  // --------------------------------------------------------------- fluency

  /** The fluency formula: base 50, a length bonus of up to 20, a word-length
      bonus of up to 10 and a sentence bonus of up to 5, less a filler penalty
      of at most 5. */
  function FluencyRaw(wordCount: nat, totalLength: nat, sentences: int, fillers: nat): (r: real)
    requires sentences >= 1
    ensures 45.0 <= r <= 85.0
  {
    var lengthScore := MinR(20.0, wordCount as real / 4.0);
    var avgWordLen := if wordCount > 0 then totalLength as real / wordCount as real else 0.0;
    var complexity := MinR(10.0, avgWordLen / 5.0);
    var sentenceBonus := MinR(5.0, sentences as real / 2.0);
    var fillerPenalty := MinI(5, fillers);
    50.0 + lengthScore + complexity + sentenceBonus - fillerPenalty as real
  }

  /** `len(re.split(r'[.!?]+', text.strip())) - 1`, at least 1. */
  function SentenceEstimate(t: string): (r: int)
    ensures r >= 1
  {
    MaxI(1, |Pieces(Strip(t), IsTerminal)| - 1)
  }

  function ScoreFluency(text: Option<string>): (r: int)
    ensures MinSubScore <= r <= MaxSubScore
    ensures TooShort(text) ==> r == 10
    ensures !TooShort(text) ==> 45 <= r <= 85
  {
    if TooShort(text) then 10
    else
      var words := Tokenize(text.value);
      var raw := FluencyRaw(|words|, TotalLength(words), SentenceEstimate(text.value), CountIn(words, NlpFillers));
      Bounded(raw)
  }

  /** The multi-word filler never contributes to the filler count. */
  lemma YouKnowNeverMatches(text: string)
    ensures CountIn(Tokenize(text), NlpFillers) == CountIn(Tokenize(text), NlpFillers - {"you know"})
  {
    var words := Tokenize(text);
    NoTokenHasSpace(words, "you know", 3);
    CountInIgnoresAbsent(words, NlpFillers, "you know");
  }

  // --------------------------------------------------------- pronunciation

  predicate IsStressMarker(c: char) { c == '!' || c == '?' || IsUpper(c) }

  /** The text part of the pronunciation formula: base 60, twice the mean
      syllable count (at most 15) and a third of the stress markers (at most
      10). The clarity hint is added to it and the accent hint subtracted. */
  function PronunciationRaw(wordCount: nat, syllables: nat, stress: nat): (r: real)
    requires 0 < wordCount <= syllables
    ensures 62.0 <= r <= 85.0
  {
    RatioBounds(syllables, wordCount);
    var avgSyllables := syllables as real / wordCount as real;
    var complexityScore := MinR(15.0, avgSyllables * 2.0);
    var stressScore := MinR(10.0, stress as real / 3.0);
    60.0 + complexityScore + stressScore
  }

  function ScorePronunciation(text: Option<string>, metadata: map<string, real>): (r: int)
    ensures MinSubScore <= r <= MaxSubScore
    ensures TooShort(text) || Tokenize(text.value) == [] ==> r == 10
  {
    if TooShort(text) then 10
    else
      var words := Tokenize(text.value);
      if words == [] then 10
      else
        Bounded(PronunciationOfText(text.value) + Hint(metadata, "clarity_rating") - Hint(metadata, "accent_penalty"))
  }

  /** The text part of the pronunciation score, for a text with tokens. */
  function PronunciationOfText(t: string): (r: real)
    requires Tokenize(t) != []
    ensures 62.0 <= r <= 85.0
  {
    var words := Tokenize(t);
    PronunciationRaw(|words|, TotalSyllables(words), CountChars(t, IsStressMarker))
  }

  /** Pronunciation never falls when the clarity hint rises or the accent
      hint falls. */
  lemma PronunciationMonotone(text: Option<string>, m1: map<string, real>, m2: map<string, real>)
    requires Hint(m1, "clarity_rating") <= Hint(m2, "clarity_rating")
    requires Hint(m1, "accent_penalty") >= Hint(m2, "accent_penalty")
    ensures ScorePronunciation(text, m1) <= ScorePronunciation(text, m2)
  {
    if TooShort(text) || Tokenize(text.value) == [] {
      assert ScorePronunciation(text, m1) == 10 == ScorePronunciation(text, m2);
    } else {
      var raw := PronunciationOfText(text.value);
      var x := raw + Hint(m1, "clarity_rating") - Hint(m1, "accent_penalty");
      var y := raw + Hint(m2, "clarity_rating") - Hint(m2, "accent_penalty");
      assert ScorePronunciation(text, m1) == Bounded(x);
      assert ScorePronunciation(text, m2) == Bounded(y);
      BoundedMonotone(x, y);
    }
  }

  /** With a clarity rating of 10 and no accent penalty, a text with at least
      one token scores at least 72, well above 60. */
  lemma ClarityTenFloor(text: string, metadata: map<string, real>)
    requires |Strip(text)| >= 5 && Tokenize(text) != []
    requires Hint(metadata, "clarity_rating") == 10.0 && Hint(metadata, "accent_penalty") == 0.0
    ensures ScorePronunciation(Some(text), metadata) >= 72
  {
  }

  // ---------------------------------------------------------- lexical range

  /** The lexical-range formula: base 50, the type-token ratio (at most 25),
      the content-word density (at most 15) and the share of words of 8 or
      more letters (at most 10). */
  function LexicalRaw(n: nat, distinct: nat, content: nat, long: nat): (r: real)
    requires 0 < n && distinct <= n && content <= n && long <= n
    ensures 50.0 <= r <= 100.0
  {
    var ttrScore := MinR(25.0, Ratio(distinct, n) * 100.0);
    var densityScore := MinR(15.0, Ratio(content, n) * 100.0);
    var advancedScore := MinR(10.0, Ratio(long, n) * 100.0);
    50.0 + ttrScore + densityScore + advancedScore
  }


  /** Number of words of at least `len` characters. */
  function CountLong(words: seq<string>, len: nat): (n: nat)
    ensures n <= |words|
  {
    if words == [] then 0
    else CountLong(words[..|words| - 1], len) + (if |words[|words| - 1]| >= len then 1 else 0)
  }

  function ScoreLexicalRange(text: Option<string>): (r: int)
    ensures MinSubScore <= r <= MaxSubScore
    ensures TooShort(text) || Tokenize(text.value) == [] ==> r == 10
    ensures !TooShort(text) && Tokenize(text.value) != [] ==> r >= 50
  {
    if TooShort(text) then 10
    else
      var words := Tokenize(text.value);
      if words == [] then 10
      else
        DistinctBound(words);
        var raw := LexicalRaw(|words|, |Distinct(words)|, CountNotIn(words, FunctionWords), CountLong(words, 8));
        Bounded(raw)
  }

  // ---------------------------------------------------------------- grammar

  /** Total number of tokens over the sentences. */
  function SentenceTokens(sentences: seq<string>): (n: nat) {
    if sentences == [] then 0
    else SentenceTokens(sentences[..|sentences| - 1]) + |Tokenize(sentences[|sentences| - 1])|
  }

  /** Total number of conjunction tokens over the sentences. */
  function SentenceConjunctions(sentences: seq<string>): (n: nat) {
    if sentences == [] then 0
    else SentenceConjunctions(sentences[..|sentences| - 1]) + CountIn(Tokenize(sentences[|sentences| - 1]), Conjunctions)
  }

  function Abs(x: real): real { if x < 0.0 then -x else x }

  predicate IsClausePunct(c: char) { c == ',' || c == '.' || c == ';' || c == ':' }

  /** The grammar formula: base 55, a variety term that peaks at 5 for twelve
      words per sentence and falls without bound away from it, a punctuation
      term (at most 10) and a clause term (at most 15). */
  function GrammarRaw(sentences: nat, tokens: nat, punct: nat, conj: nat): (r: real)
    requires 0 < sentences
    ensures r <= 85.0
  {
    var avgSentLen := tokens as real / sentences as real;
    var varietyScore := MinR(10.0, 5.0 - Abs(avgSentLen - 12.0) / 5.0);
    var punctScore := MinR(10.0, punct as real / 5.0);
    var clauseScore := MinI(15, conj * 2);
    55.0 + varietyScore + punctScore + clauseScore as real
  }

  function ScoreGrammar(text: Option<string>): (r: int)
    ensures MinSubScore <= r <= MaxSubScore
    ensures TooShort(text) || Sentences(text.value) == [] ==> r == 10
    ensures r <= 85
  {
    if TooShort(text) then 10
    else
      var sentences := Sentences(text.value);
      if sentences == [] then 10
      else
        var raw := GrammarRaw(
          |sentences|, SentenceTokens(sentences),
          CountChars(text.value, IsClausePunct), SentenceConjunctions(sentences));
        TruncMonotone(raw, 85.0);
        Bounded(raw)
  }

  // ---------------------------------------------------------------- overall

  /** `int(0.25 * f + 0.25 * p + 0.25 * l + 0.25 * g)` */
  function Overall(f: int, p: int, l: int, g: int): (r: int)
    requires f >= 0 && p >= 0 && l >= 0 && g >= 0
    ensures MinI(MinI(f, p), MinI(l, g)) <= r <= MaxI(MaxI(f, p), MaxI(l, g))
  {
    var mean := 0.25 * f as real + 0.25 * p as real + 0.25 * l as real + 0.25 * g as real;
    var lo := MinI(MinI(f, p), MinI(l, g));
    var hi := MaxI(MaxI(f, p), MaxI(l, g));
    assert lo as real <= mean <= hi as real;
    TruncMonotone(lo as real, mean);
    TruncMonotone(mean, hi as real);
    TruncOfInt(lo);
    TruncOfInt(hi);
    Trunc(mean)
  }

  /** The result dictionary of `compute_pte_scores` for four sub-scores on
      the PTE scale: the sub-scores and their truncated mean. */
  function Combine(fluency: int, pronunciation: int, lexicalRange: int, grammar: int): (r: map<string, int>)
    requires MinSubScore <= fluency <= MaxSubScore && MinSubScore <= pronunciation <= MaxSubScore
    requires MinSubScore <= lexicalRange <= MaxSubScore && MinSubScore <= grammar <= MaxSubScore
    ensures r.Keys == Keys
    ensures r["fluency"] == fluency && r["pronunciation"] == pronunciation
    ensures r["lexical_range"] == lexicalRange && r["grammar"] == grammar
    ensures forall k :: k in r ==> MinSubScore <= r[k] <= MaxSubScore
    ensures MinI(MinI(fluency, pronunciation), MinI(lexicalRange, grammar))
            <= r["overall"]
            <= MaxI(MaxI(fluency, pronunciation), MaxI(lexicalRange, grammar))
  {
    var overall := Overall(fluency, pronunciation, lexicalRange, grammar);
    map[
      "fluency" := fluency,
      "pronunciation" := pronunciation,
      "lexical_range" := lexicalRange,
      "grammar" := grammar,
      "overall" := overall]
  }

  /** `compute_pte_scores`; absent metadata is the empty dictionary. */
  function ComputePteScores(text: Option<string>, metadata: Option<map<string, real>>): (r: map<string, int>)
    ensures r.Keys == Keys
    ensures forall k :: k in r ==> MinSubScore <= r[k] <= MaxSubScore
    ensures MinI(MinI(r["fluency"], r["pronunciation"]), MinI(r["lexical_range"], r["grammar"]))
            <= r["overall"]
            <= MaxI(MaxI(r["fluency"], r["pronunciation"]), MaxI(r["lexical_range"], r["grammar"]))
  {
    var hints := if metadata.Some? then metadata.value else map[];
    Combine(ScoreFluency(text), ScorePronunciation(text, hints), ScoreLexicalRange(text), ScoreGrammar(text))
  }

  /** Absent, empty or near-empty text scores 10 on every key, whatever the
      metadata. */
  lemma ShortTextScoresTen(text: Option<string>, metadata: Option<map<string, real>>)
    requires TooShort(text)
    ensures forall k :: k in ComputePteScores(text, metadata) ==> ComputePteScores(text, metadata)[k] == 10
  {
    var r := ComputePteScores(text, metadata);
    assert r["overall"] == 10;
  }

  lemma EmptyTextScoresTen(metadata: Option<map<string, real>>)
    ensures ComputePteScores(Some(""), metadata)["overall"] == 10
    ensures ComputePteScores(None, metadata)["overall"] == 10
  {
    ShortTextScoresTen(Some(""), metadata);
    ShortTextScoresTen(None, metadata);
  }
}
