/** The deterministic placeholder scorer (`compute_scores`): fluency grows
    with the text length modulo 31, pronunciation comes from an optional
    metadata hint, and the communicative score is their halved sum. */
module PlaceholderScorer {
  import opened Common

  const Base: int := 70

  const ScoreKeys: set<string> := {"fluency", "pronunciation", "communicative"}

  datatype Placeholder = Placeholder(scores: map<string, int>, raw: map<string, string>)

  /** `len(sub.text or "")` */
  function TextLength(text: Option<string>): (n: nat)
    ensures text.None? ==> n == 0
  {
    if text.Some? then |text.value| else 0
  }

  /** `sub.metadata.get("pronunciation_hint", 0) if sub.metadata else 0`;
      an empty metadata dictionary is falsy. */
  function PronunciationHint(metadata: Option<map<string, int>>): (h: int)
    ensures metadata.None? || "pronunciation_hint" !in metadata.value ==> h == 0
    ensures metadata.Some? && "pronunciation_hint" in metadata.value ==> h == metadata.value["pronunciation_hint"]
  {
    if metadata.Some? && metadata.value != map[] && "pronunciation_hint" in metadata.value
    then metadata.value["pronunciation_hint"]
    else 0
  }

  function FluencyOf(text: Option<string>): (f: int)
    ensures Base <= f <= 100
    ensures text.None? ==> f == Base
  {
    MinI(100, Base + TextLength(text) % 31)
  }

  function PronunciationOf(metadata: Option<map<string, int>>): (p: int)
    ensures p <= 100
    ensures PronunciationHint(metadata) == 0 ==> p == Base
  {
    MinI(100, Base + PronunciationHint(metadata))
  }

  /** `min(100, (fluency + pronunciation) // 2)`; Python's `//` floors, which
      is Dafny's `/` for a positive divisor. */
  function CommunicativeOf(fluency: int, pronunciation: int): (c: int)
    requires fluency <= 100 && pronunciation <= 100
    ensures MinI(fluency, pronunciation) <= c <= MaxI(fluency, pronunciation)
  {
    MinI(100, (fluency + pronunciation) / 2)
  }

  function ComputeScores(text: Option<string>, metadata: Option<map<string, int>>): (r: Placeholder)
    ensures r.scores.Keys == ScoreKeys
    ensures Base <= r.scores["fluency"] <= 100
    ensures r.scores["pronunciation"] <= 100
    ensures MinI(r.scores["fluency"], r.scores["pronunciation"]) <= r.scores["communicative"]
            <= MaxI(r.scores["fluency"], r.scores["pronunciation"])
    ensures r.raw == map["debug" := "synthetic_demo"]
  {
    var fluency := FluencyOf(text);
    var pronunciation := PronunciationOf(metadata);
    var communicative := CommunicativeOf(fluency, pronunciation);
    Placeholder(
      map["fluency" := fluency, "pronunciation" := pronunciation, "communicative" := communicative],
      map["debug" := "synthetic_demo"])
  }

  /** Fluency depends only on the text length modulo 31, and equals
      70 plus that remainder. */
  lemma FluencyPeriodic(s: string, t: string)
    requires |t| == |s| + 31
    ensures FluencyOf(Some(t)) == FluencyOf(Some(s))
    ensures FluencyOf(Some(s)) == Base + |s| % 31
  {
    assert |t| % 31 == |s| % 31;
  }

  /** Absent text and absent metadata give the base scores. */
  lemma DefaultsScoreBase()
    ensures ComputeScores(None, None).scores
         == map["fluency" := Base, "pronunciation" := Base, "communicative" := Base]
  {
  }

  /** A larger hint never lowers pronunciation or the communicative score. */
  lemma HintMonotone(text: Option<string>, h1: int, h2: int)
    requires h1 <= h2
    ensures ComputeScores(text, Some(map["pronunciation_hint" := h1])).scores["pronunciation"]
         <= ComputeScores(text, Some(map["pronunciation_hint" := h2])).scores["pronunciation"]
    ensures ComputeScores(text, Some(map["pronunciation_hint" := h1])).scores["communicative"]
         <= ComputeScores(text, Some(map["pronunciation_hint" := h2])).scores["communicative"]
  {
    var m1 := map["pronunciation_hint" := h1];
    var m2 := map["pronunciation_hint" := h2];
    assert PronunciationHint(Some(m1)) == h1;
    assert PronunciationHint(Some(m2)) == h2;
  }
}
