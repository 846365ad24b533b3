/**
 * The summary statistics over a ranked list of opportunities: how many there
 * are, how they split by intent, how many have answer-engine SERP features or
 * are questions, and the average score, volume and difficulty.
 */
module GapSummary {
  import opened Wrappers
  import opened Seqs
  import opened Rounding
  import opened Intent
  import opened GapAnalyzer

  /** What the summary reads from one record. */
  datatype GapView = GapView(
    intent: Option<string>, hasAeoFeatures: Option<bool>, aeoScore: Option<real>,
    volume: Option<int>, difficulty: Option<nat>)

  function ViewOf(g: KeywordRecord): GapView
    reads g
  {
    GapView(g.derived.intent, g.derived.hasAeoFeatures, g.derived.aeoScore, g.volume, g.difficulty)
  }

  function Views(gaps: seq<KeywordRecord>): (vs: seq<GapView>)
    reads set g | g in gaps
    ensures |vs| == |gaps| && forall k :: 0 <= k < |gaps| ==> vs[k] == ViewOf(gaps[k])
  {
    if gaps == [] then [] else Views(gaps[..|gaps| - 1]) + [ViewOf(gaps[|gaps| - 1])]
  }

  /** `g["aeo_score"]`, `g["volume"]` and `g["difficulty"]` exist (the averages raise `KeyError` otherwise). */
  predicate Complete(v: GapView)
  {
    v.aeoScore.Some? && v.volume.Some? && v.difficulty.Some?
  }

  datatype SummaryStats = SummaryStats(
    totalOpportunities: nat,
    intentBreakdown: map<string, nat>,
    withAeoSerpFeatures: nat,
    questionKeywords: nat,
    avgAeoScore: real,
    avgVolume: int,
    avgDifficulty: real)

  /** `gap.get("intent", "other")` */
  function IntentLabel(v: GapView): string
  {
    v.intent.GetOr(OtherIntent)
  }

  /** The `intent_counts` dict the loop builds over `vs`. */
  function Histogram(vs: seq<GapView>): map<string, nat>
  {
    if vs == [] then map[]
    else
      var h := Histogram(vs[..|vs| - 1]);
      var l := IntentLabel(vs[|vs| - 1]);
      h[l := (if l in h then h[l] else 0) + 1]
  }

  function HasFeatures(): GapView -> bool
  {
    (v: GapView) => v.hasAeoFeatures.GetOr(false)
  }

  function IsQuestion(): GapView -> bool
  {
    (v: GapView) => v.intent == Some("question")
  }

  function ScoreValue(v: GapView): real { v.aeoScore.GetOr(0.0) }
  function VolumeValue(v: GapView): real { v.volume.GetOr(0) as real }
  function DifficultyValue(v: GapView): real { v.difficulty.GetOr(0) as real }

  function Sum(xs: seq<real>): real
  {
    if xs == [] then 0.0 else Sum(xs[..|xs| - 1]) + xs[|xs| - 1]
  }

  /** `sum(xs) / len(xs)`. */
  function Mean(xs: seq<real>): real
    requires xs != []
  {
    Sum(xs) / |xs| as real
  }

  /** `generate_summary_stats` on the records' views: nothing for an empty list. */
  function Summary(vs: seq<GapView>): Option<SummaryStats>
  {
    if vs == [] then None
    else Some(SummaryStats(
      |vs|,
      Histogram(vs),
      |Filter(vs, HasFeatures())|,
      |Filter(vs, IsQuestion())|,
      Round(Mean(Map(vs, ScoreValue)), 2),
      RoundToInt(Mean(Map(vs, VolumeValue))),
      Round(Mean(Map(vs, DifficultyValue)), 1)))
  }

  /** `generate_summary_stats`: `{}` (here `None`) for no gaps, else the statistics of the records. */
  method GenerateSummaryStats(gaps: seq<KeywordRecord>) returns (stats: Option<SummaryStats>)
    requires forall k :: 0 <= k < |gaps| ==> Complete(ViewOf(gaps[k]))
    ensures stats.None? <==> gaps == []
    ensures stats == Summary(Views(gaps))
  {
    if gaps == [] {
      return None;
    }
    var views := Views(gaps);
    var intentCounts: map<string, nat> := map[];
    var i := 0;
    while i < |gaps|
      invariant 0 <= i <= |gaps|
      invariant intentCounts == Histogram(views[..i])
    {
      var intent := gaps[i].derived.intent.GetOr(OtherIntent);
      intentCounts := intentCounts[intent := (if intent in intentCounts then intentCounts[intent] else 0) + 1];
      assert views[..i + 1][..i] == views[..i];
      i := i + 1;
    }
    assert views[..i] == views;
    var withAeoFeatures := |Filter(views, HasFeatures())|;
    var questionKw := Filter(views, IsQuestion());
    stats := Some(SummaryStats(
      |gaps|,
      intentCounts,
      withAeoFeatures,
      |questionKw|,
      Round(Sum(Map(views, ScoreValue)) / |gaps| as real, 2),
      RoundToInt(Sum(Map(views, VolumeValue)) / |gaps| as real),
      Round(Sum(Map(views, DifficultyValue)) / |gaps| as real, 1)));
  }

  // ------------------------------------------------------------- histogram

  /** The sum of a histogram's counts. */
  ghost function Total(m: map<string, nat>): nat
    decreases |m|
  {
    if m == map[] then 0
    else
      var k :| k in m;
      m[k] + Total(m - {k})
  }

  lemma {:induction false} TotalRemove(m: map<string, nat>, k: string)
    requires k in m
    ensures Total(m) == m[k] + Total(m - {k})
    decreases |m|
  {
    var j :| j in m && Total(m) == m[j] + Total(m - {j});
    if j != k {
      TotalRemove(m - {j}, k);
      TotalRemove(m - {k}, j);
      assert m - {j} - {k} == m - {k} - {j};
    }
  }

  lemma TotalUpdate(m: map<string, nat>, k: string, v: nat)
    ensures Total(m[k := v]) == Total(m) - (if k in m then m[k] else 0) + v
  {
    TotalRemove(m[k := v], k);
    assert m[k := v] - {k} == m - {k};
    if k in m {
      TotalRemove(m, k);
    } else {
      assert m - {k} == m;
    }
  }

  /** The intent labels of the records, in order. */
  function Labels(vs: seq<GapView>): seq<string>
  {
    Map(vs, IntentLabel)
  }

  lemma LabelsSnoc(vs: seq<GapView>)
    requires vs != []
    ensures Labels(vs)[..|vs| - 1] == Labels(vs[..|vs| - 1])
    ensures Count(Labels(vs), IntentLabel(vs[|vs| - 1])) == Count(Labels(vs[..|vs| - 1]), IntentLabel(vs[|vs| - 1])) + 1
    ensures forall x :: x != IntentLabel(vs[|vs| - 1]) ==> Count(Labels(vs), x) == Count(Labels(vs[..|vs| - 1]), x)
  {
  }

  /**
   * The breakdown has a key for each intent that occurs, holding the number of
   * records with that intent.
   */
  lemma {:induction false} HistogramCounts(vs: seq<GapView>)
    ensures forall l :: l in Histogram(vs) <==> Count(Labels(vs), l) > 0
    ensures forall l :: l in Histogram(vs) ==> Histogram(vs)[l] == Count(Labels(vs), l)
  {
    if vs != [] {
      HistogramCounts(vs[..|vs| - 1]);
      LabelsSnoc(vs);
    }
  }

  /** The breakdown's counts add up to the number of records. */
  lemma {:induction false} HistogramTotal(vs: seq<GapView>)
    ensures Total(Histogram(vs)) == |vs|
  {
    if vs != [] {
      var init := vs[..|vs| - 1];
      var l := IntentLabel(vs[|vs| - 1]);
      HistogramTotal(init);
      TotalUpdate(Histogram(init), l, (if l in Histogram(init) then Histogram(init)[l] else 0) + 1);
    }
  }

  /** An intent is a key of the breakdown exactly when some record has it. */
  lemma HistogramKeys(vs: seq<GapView>)
    ensures forall l :: l in Histogram(vs) <==> l in Labels(vs)
  {
    HistogramCounts(vs);
    forall l ensures Count(Labels(vs), l) > 0 <==> l in Labels(vs) {
      CountIsMultiplicity(Labels(vs), l);
    }
  }

  /** The records labelled "question" by the breakdown are exactly those counted as questions. */
  lemma {:induction false} QuestionsInBreakdown(vs: seq<GapView>)
    ensures |Filter(vs, IsQuestion())| == Count(Labels(vs), "question")
  {
    if vs != [] {
      var init := vs[..|vs| - 1];
      QuestionsInBreakdown(init);
      LabelsSnoc(vs);
    }
  }

  // -------------------------------------------------------------- averages

  /** A mean lies between any bounds of its values. */
  lemma {:induction false} MeanBounds(xs: seq<real>, lo: real, hi: real)
    requires xs != []
    requires forall k :: 0 <= k < |xs| ==> lo <= xs[k] <= hi
    ensures lo <= Mean(xs) <= hi
  {
    SumBounds(xs, lo, hi);
    var n := |xs| as real;
    assert Mean(xs) * n == Sum(xs);
  }

  lemma {:induction false} SumBounds(xs: seq<real>, lo: real, hi: real)
    requires forall k :: 0 <= k < |xs| ==> lo <= xs[k] <= hi
    ensures lo * |xs| as real <= Sum(xs) <= hi * |xs| as real
  {
    if xs != [] {
      SumBounds(xs[..|xs| - 1], lo, hi);
    }
  }

  lemma RoundToIntOfInt(n: int)
    ensures RoundToInt(n as real) == n
  {
    RoundToIntUnique(n as real, n);
  }

  lemma RoundOfInt(n: int, digits: nat)
    ensures Round(n as real, digits) == n as real
  {
    var p := Pow10(digits);
    assert Scale(n as real, digits) == (n * p) as real;
    RoundToIntOfInt(n * p);
    assert Unscale(n * p, digits) == n as real;
  }

  /**
   * The statistics of a non-empty list: the total is its length, the breakdown
   * accounts for every record, the feature and question counts are at most the
   * total, and the question count is the breakdown's "question" entry.
   */
  lemma SummaryCounts(vs: seq<GapView>)
    requires vs != []
    ensures Summary(vs).Some?
    ensures var s := Summary(vs).value;
      && s.totalOpportunities == |vs|
      && Total(s.intentBreakdown) == s.totalOpportunities
      && s.withAeoSerpFeatures <= s.totalOpportunities
      && s.questionKeywords <= s.totalOpportunities
      && s.questionKeywords == (if "question" in s.intentBreakdown then s.intentBreakdown["question"] else 0)
  {
    var s := Summary(vs).value;
    assert s.intentBreakdown == Histogram(vs);
    assert s.withAeoSerpFeatures == |Filter(vs, HasFeatures())|;
    assert s.questionKeywords == |Filter(vs, IsQuestion())|;
    HistogramCounts(vs);
    HistogramTotal(vs);
    QuestionsInBreakdown(vs);
    FilterLength(vs, HasFeatures());
    FilterLength(vs, IsQuestion());
  }

  /**
   * The averages stay within the bounds of the values: with scores non-negative
   * the average score is, and with volumes and difficulties between integer
   * bounds so are their averages.
   */
  lemma SummaryAverages(vs: seq<GapView>, volLo: int, volHi: int, diffHi: int)
    requires vs != []
    requires forall k :: 0 <= k < |vs| ==> ScoreValue(vs[k]) >= 0.0
    requires forall k :: 0 <= k < |vs| ==> volLo as real <= VolumeValue(vs[k]) <= volHi as real
    requires forall k :: 0 <= k < |vs| ==> DifficultyValue(vs[k]) <= diffHi as real
    ensures Summary(vs).Some?
    ensures Summary(vs).value.avgAeoScore >= 0.0
    ensures volLo <= Summary(vs).value.avgVolume <= volHi
    ensures 0.0 <= Summary(vs).value.avgDifficulty <= diffHi as real
  {
    var scores, volumes, diffs := Map(vs, ScoreValue), Map(vs, VolumeValue), Map(vs, DifficultyValue);
    MeanBounds(volumes, volLo as real, volHi as real);
    RoundToIntMonotonic(volLo as real, Mean(volumes));
    RoundToIntMonotonic(Mean(volumes), volHi as real);
    RoundToIntOfInt(volLo);
    RoundToIntOfInt(volHi);
    assert diffHi >= 0 by {
      assert 0.0 <= DifficultyValue(vs[0]);
    }
    MeanBounds(diffs, 0.0, diffHi as real);
    RoundMonotonic(0.0, Mean(diffs), 1);
    RoundMonotonic(Mean(diffs), diffHi as real, 1);
    RoundOfInt(0, 1);
    RoundOfInt(diffHi, 1);
    assert Sum(scores) >= 0.0 by {
      NonNegativeSum(scores);
    }
    assert Sum(scores) / |vs| as real >= 0.0;
    RoundNonNegative(Mean(scores), 2);
  }

  lemma {:induction false} NonNegativeSum(xs: seq<real>)
    requires forall k :: 0 <= k < |xs| ==> xs[k] >= 0.0
    ensures Sum(xs) >= 0.0
  {
    if xs != [] {
      NonNegativeSum(xs[..|xs| - 1]);
    }
  }
}
