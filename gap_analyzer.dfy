/**
 * The AEO content-gap pipeline: keyword records fetched per competitor are
 * filtered to long-tail opportunities, classified by intent, checked for
 * answer-engine SERP features, scored, tagged with their competitor, pooled
 * and ranked by score.
 */
module GapAnalyzer {
  import opened Wrappers
  import opened Seqs
  import opened Text
  import opened Intent
  import opened Rounding
  import opened Sorting

  /** The five bounds of the long-tail filter. */
  datatype Filters = Filters(minVolume: int, maxVolume: int, maxDifficulty: int, maxCompetition: real, minWords: int)

  /** `AEO_FILTERS`. */
  const AeoFilters := Filters(100, 5000, 35, 0.3, 3)

  /** `AEO_SERP_FEATURES`: the SERP features answer engines draw on. */
  const AeoSerpFeatures: seq<string> := ["people_also_ask", "featured_snippet", "sge", "knowledge_panel", "faq"]

  const FeatureBoost := 1.3
  const NoFeatureBoost := 1.0

  /**
   * The fields the pipeline writes into a keyword record, each absent until
   * written: `word_count`, `competitor`, `intent`, `intent_multiplier`,
   * `matched_intents`, `aeo_serp_features`, `has_aeo_features`,
   * `aeo_feature_boost` and `aeo_score`.
   */
  datatype Derived = Derived(
    wordCount: Option<nat>,
    competitor: Option<string>,
    intent: Option<string>,
    intentMultiplier: Option<real>,
    matchedIntents: Option<seq<string>>,
    aeoSerpFeatures: Option<seq<string>>,
    hasAeoFeatures: Option<bool>,
    aeoFeatureBoost: Option<real>,
    aeoScore: Option<real>)

  const NoDerived := Derived(None, None, None, None, None, None, None, None, None)

  /**
   * A keyword record (a dict from the keyword-comparison API). The fields the
   * API supplies are never written by the pipeline; each may be absent.
   */
  class KeywordRecord {
    const keyword: Option<string>
    const volume: Option<int>
    const difficulty: Option<nat>
    const competition: Option<real>
    const serpFeatures: Option<seq<string>>
    var derived: Derived

    constructor (keyword: Option<string>, volume: Option<int>, difficulty: Option<nat>,
                 competition: Option<real>, serpFeatures: Option<seq<string>>)
      ensures this.keyword == keyword && this.volume == volume && this.difficulty == difficulty
      ensures this.competition == competition && this.serpFeatures == serpFeatures
      ensures derived == NoDerived
    {
      this.keyword := keyword;
      this.volume := volume;
      this.difficulty := difficulty;
      this.competition := competition;
      this.serpFeatures := serpFeatures;
      derived := NoDerived;
    }

    /** `kw.get("keyword", "")` */
    function KeywordText(): string { keyword.GetOr("") }

    /** `kw.get("volume", 0)` */
    function VolumeOr(): int { volume.GetOr(0) }

    /** `kw.get("difficulty", 100)` */
    function DifficultyOr(): nat { difficulty.GetOr(100) }

    /** `kw.get("competition", 1)` */
    function CompetitionOr(): real { competition.GetOr(1.0) }

    /** `keyword.get("serp_features", [])` */
    function SerpFeatureList(): seq<string> { serpFeatures.GetOr([]) }
  }

  // ---------------------------------------------------------------- filter

  /** The long-tail rule on a record's (defaulted) values: all five bounds hold, inclusively. */
  predicate KeepValues(f: Filters, volume: int, difficulty: int, competition: real, text: string)
  {
    && f.minVolume <= volume <= f.maxVolume
    && difficulty <= f.maxDifficulty
    && competition <= f.maxCompetition
    && WordCount(text) >= f.minWords
  }

  predicate Keep(r: KeywordRecord, f: Filters)
  {
    KeepValues(f, r.VolumeOr(), r.DifficultyOr(), r.CompetitionOr(), r.KeywordText())
  }

  function KeepFor(f: Filters): KeywordRecord -> bool
  {
    (r: KeywordRecord) => Keep(r, f)
  }

  /** A record after filtering: with its word count when kept, untouched otherwise. */
  function Filtered(d: Derived, r: KeywordRecord, f: Filters): Derived
  {
    if Keep(r, f) then d.(wordCount := Some(WordCount(r.KeywordText()))) else d
  }

  /**
   * `filter_longtail_aeo`: the records that pass the filters (`AEO_FILTERS` when
   * none are given), in input order; each of them gets its word count, and no
   * other record changes.
   */
  method FilterLongtail(keywords: seq<KeywordRecord>, filters: Option<Filters>) returns (longtail: seq<KeywordRecord>)
    modifies set r | r in keywords
    ensures longtail == Filter(keywords, KeepFor(filters.GetOr(AeoFilters)))
    ensures forall r :: r in keywords ==> r.derived == Filtered(old(r.derived), r, filters.GetOr(AeoFilters))
  {
    var f := if filters.None? then AeoFilters else filters.value;
    longtail := [];
    var i := 0;
    while i < |keywords|
      invariant 0 <= i <= |keywords|
      invariant longtail == Filter(keywords[..i], KeepFor(f))
      invariant forall r :: r in keywords ==> r.derived == (if r in keywords[..i] then Filtered(old(r.derived), r, f) else old(r.derived))
    {
      var kw := keywords[i];
      var kept := FilterOne(kw, f);
      if kept {
        longtail := longtail + [kw];
      }
      assert keywords[..i + 1] == keywords[..i] + [kw];
      FilterSnoc(keywords[..i], kw, KeepFor(f));
      forall r | r in keywords
        ensures r.derived == (if r in keywords[..i + 1] then Filtered(old(r.derived), r, f) else old(r.derived))
      {
        if r == kw {
          FilteredTwice(old(r.derived), r, f);
        } else {
          assert r in keywords[..i + 1] <==> r in keywords[..i];
        }
      }
      i := i + 1;
    }
    assert keywords[..i] == keywords;
  }

  /** Filtering a record a second time (it occurs twice in the input) changes nothing more. */
  lemma FilteredTwice(d: Derived, r: KeywordRecord, f: Filters)
    ensures Filtered(Filtered(d, r, f), r, f) == Filtered(d, r, f)
  {
  }

  /** One iteration of the filter loop: test the record and, when it passes, store its word count. */
  method FilterOne(kw: KeywordRecord, f: Filters) returns (kept: bool)
    modifies kw
    ensures kept == Keep(kw, f)
    ensures kw.derived == Filtered(old(kw.derived), kw, f)
  {
    var volume := kw.VolumeOr();
    var difficulty := kw.DifficultyOr();
    var competition := kw.CompetitionOr();
    var keywordText := kw.KeywordText();
    var wordCount := |Split(keywordText)|;
    kept := f.minVolume <= volume <= f.maxVolume && difficulty <= f.maxDifficulty
      && competition <= f.maxCompetition && wordCount >= f.minWords;
    if kept {
      kw.derived := kw.derived.(wordCount := Some(wordCount));
    }
  }

  /**
   * The filter keeps exactly the records that meet every bound, each as often as
   * it occurs and in input order; every other record violates some bound.
   */
  lemma FilterKeepRule(keywords: seq<KeywordRecord>, more: seq<KeywordRecord>, f: Filters)
    ensures forall r :: r in Filter(keywords, KeepFor(f)) <==> r in keywords && Keep(r, f)
    ensures forall r :: multiset(Filter(keywords, KeepFor(f)))[r] == if Keep(r, f) then multiset(keywords)[r] else 0
    ensures Filter(keywords + more, KeepFor(f)) == Filter(keywords, KeepFor(f)) + Filter(more, KeepFor(f))
    ensures forall r :: r in keywords && r !in Filter(keywords, KeepFor(f)) ==>
      || r.VolumeOr() < f.minVolume || r.VolumeOr() > f.maxVolume
      || r.DifficultyOr() > f.maxDifficulty || r.CompetitionOr() > f.maxCompetition
      || WordCount(r.KeywordText()) < f.minWords
  {
    FilterMultiset(keywords, KeepFor(f));
    FilterConcat(keywords, more, KeepFor(f));
  }

  lemma SplitEmpty()
    ensures WordCount("") == 0
  {
    assert TrimLeft("", IsSpace) == "";
  }

  /**
   * The defaults are pessimistic: under `AEO_FILTERS` a record missing its volume,
   * difficulty, competition or keyword is never kept.
   */
  lemma MissingFieldsExcluded(r: KeywordRecord)
    requires r.volume.None? || r.difficulty.None? || r.competition.None? || r.keyword.None?
    ensures !Keep(r, AeoFilters)
  {
    SplitEmpty();
  }

  // ---------------------------------------------------------------- intent

  /**
   * `categorize_by_intent`: records the classification of the lower-cased keyword
   * (primary intent, its multiplier and the matched intents); the keyword itself
   * is left as it is.
   */
  method CategorizeByIntent(r: KeywordRecord)
    requires r.keyword.Some?
    modifies r
    ensures var c := Classify(Lower(r.KeywordText()));
      r.derived == old(r.derived).(intent := Some(c.intent), intentMultiplier := Some(c.multiplier), matchedIntents := Some(c.matched))
  {
    var keywordLower := Lower(r.keyword.value);
    var matchedIntents: seq<string> := [];
    var maxMultiplier := 1.0;
    var primaryIntent := OtherIntent;
    var i := 0;
    while i < |IntentPatterns|
      invariant 0 <= i <= |IntentPatterns|
      invariant ClassifyWith(keywordLower, IntentPatterns[..i]) == Classification(primaryIntent, maxMultiplier, matchedIntents)
    {
      var config := IntentPatterns[i];
      if Matches(keywordLower, config) {
        matchedIntents := matchedIntents + [config.name];
        if config.multiplier > maxMultiplier {
          maxMultiplier := config.multiplier;
          primaryIntent := config.name;
        }
      }
      assert IntentPatterns[..i + 1][..i] == IntentPatterns[..i];
      i := i + 1;
    }
    assert IntentPatterns[..i] == IntentPatterns;
    r.derived := r.derived.(intent := Some(primaryIntent), intentMultiplier := Some(maxMultiplier), matchedIntents := Some(matchedIntents));
  }

  // ---------------------------------------------------------- SERP features

  function IsAeoFeature(): string -> bool
  {
    f => f in AeoSerpFeatures
  }

  /** `[f for f in serp_features if f in AEO_SERP_FEATURES]`. */
  function AeoFeatures(features: seq<string>): seq<string>
  {
    Filter(features, IsAeoFeature())
  }

  /** The boost is 1.3 exactly when some feature is on the allow-list, else 1.0. */
  function BoostOf(features: seq<string>): (b: real)
    ensures b == FeatureBoost <==> exists k :: 0 <= k < |features| && features[k] in AeoSerpFeatures
    ensures b == FeatureBoost || b == NoFeatureBoost
  {
    FilterMultiset(features, IsAeoFeature());
    if AeoFeatures(features) != [] then
      assert AeoFeatures(features)[0] in AeoFeatures(features);
      FeatureBoost
    else
      assert forall k :: 0 <= k < |features| ==> features[k] !in AeoSerpFeatures by {
        forall k | 0 <= k < |features| ensures features[k] !in AeoSerpFeatures {
          assert features[k] in features;
        }
      }
      NoFeatureBoost
  }

  /**
   * The AEO features are the allow-listed features in their original order, each
   * as often as in the record; so they are non-empty exactly when some feature
   * is allow-listed.
   */
  lemma AeoFeaturesSublist(features: seq<string>, more: seq<string>)
    ensures forall f :: f in AeoFeatures(features) <==> f in features && f in AeoSerpFeatures
    ensures forall f :: multiset(AeoFeatures(features))[f] == if f in AeoSerpFeatures then multiset(features)[f] else 0
    ensures AeoFeatures(features + more) == AeoFeatures(features) + AeoFeatures(more)
    ensures AeoFeatures(features) != [] <==> exists k :: 0 <= k < |features| && features[k] in AeoSerpFeatures
  {
    FilterMultiset(features, IsAeoFeature());
    FilterConcat(features, more, IsAeoFeature());
    if AeoFeatures(features) != [] {
      assert AeoFeatures(features)[0] in AeoFeatures(features);
    }
  }

  /**
   * `check_aeo_serp_features`: records the allow-listed features, whether there
   * are any, and the boost that follows (a missing feature list counts as empty).
   */
  method CheckAeoSerpFeatures(r: KeywordRecord)
    modifies r
    ensures var fs := AeoFeatures(r.SerpFeatureList());
      r.derived == old(r.derived).(aeoSerpFeatures := Some(fs), hasAeoFeatures := Some(fs != []),
                                   aeoFeatureBoost := Some(BoostOf(r.SerpFeatureList())))
  {
    var serpFeatures := r.SerpFeatureList();
    var aeoFeatures := AeoFeatures(serpFeatures);
    var has := |aeoFeatures| > 0;
    r.derived := r.derived.(aeoSerpFeatures := Some(aeoFeatures), hasAeoFeatures := Some(has));
    if has {
      r.derived := r.derived.(aeoFeatureBoost := Some(FeatureBoost));
    } else {
      r.derived := r.derived.(aeoFeatureBoost := Some(NoFeatureBoost));
    }
  }

  // ------------------------------------------------------------------ score

  /** `(volume * intent_multiplier * aeo_feature_boost) / (difficulty + 1)`. */
  function AeoScore(volume: int, multiplier: real, boost: real, difficulty: nat): real
  {
    (volume as real * multiplier * boost) / ((difficulty + 1) as real)
  }

  /** Multiplying the score back by `difficulty + 1` gives the weighted volume. */
  lemma AeoScoreEquation(volume: int, multiplier: real, boost: real, difficulty: nat)
    ensures AeoScore(volume, multiplier, boost, difficulty) * (difficulty + 1) as real == volume as real * multiplier * boost
  {
  }

  /** A non-negative volume with non-negative weights scores non-negatively. */
  lemma AeoScoreNonNegative(volume: int, multiplier: real, boost: real, difficulty: nat)
    requires volume >= 0 && multiplier >= 0.0 && boost >= 0.0
    ensures AeoScore(volume, multiplier, boost, difficulty) >= 0.0
  {
    assert volume as real * multiplier >= 0.0;
    assert volume as real * multiplier * boost >= 0.0;
  }

  /** A harder keyword never scores higher, other things equal. */
  lemma AeoScoreAntitoneInDifficulty(volume: int, multiplier: real, boost: real, d1: nat, d2: nat)
    requires volume >= 0 && multiplier >= 0.0 && boost >= 0.0 && d1 <= d2
    ensures AeoScore(volume, multiplier, boost, d1) >= AeoScore(volume, multiplier, boost, d2)
  {
    var w := volume as real * multiplier * boost;
    assert w >= 0.0 by {
      assert volume as real * multiplier >= 0.0;
    }
    var a, b := (d1 + 1) as real, (d2 + 1) as real;
    assert w / a - w / b == w * (b - a) / (a * b);
    assert w * (b - a) >= 0.0;
  }

  /**
   * `calculate_aeo_score`: returns the unrounded score, computed from the
   * record's current multiplier and boost (1.0 when absent), and stores it
   * rounded to two decimals.
   */
  method CalculateAeoScore(r: KeywordRecord) returns (score: real)
    modifies r
    ensures score == AeoScore(r.VolumeOr(), old(r.derived).intentMultiplier.GetOr(1.0),
                              old(r.derived).aeoFeatureBoost.GetOr(1.0), r.DifficultyOr())
    ensures r.derived == old(r.derived).(aeoScore := Some(Round(score, 2)))
  {
    var volume := r.VolumeOr();
    var difficulty := r.DifficultyOr();
    var intentMultiplier := r.derived.intentMultiplier.GetOr(1.0);
    var aeoFeatureBoost := r.derived.aeoFeatureBoost.GetOr(1.0);
    score := (volume as real * intentMultiplier * aeoFeatureBoost) / ((difficulty + 1) as real);
    r.derived := r.derived.(aeoScore := Some(Round(score, 2)));
  }

  // ----------------------------------------------------------- orchestrator

  /** The stored score of a fully annotated record: a function of the API fields alone. */
  function ScoreOf(r: KeywordRecord): real
  {
    Round(AeoScore(r.VolumeOr(), Classify(Lower(r.KeywordText())).multiplier,
                   BoostOf(r.SerpFeatureList()), r.DifficultyOr()), 2)
  }

  /** What the per-record steps of `analyze_content_gaps` write, on top of the word count. */
  function Tagged(d: Derived, r: KeywordRecord, competitor: string): Derived
  {
    var c := Classify(Lower(r.KeywordText()));
    var fs := AeoFeatures(r.SerpFeatureList());
    d.(competitor := Some(competitor),
       intent := Some(c.intent), intentMultiplier := Some(c.multiplier), matchedIntents := Some(c.matched),
       aeoSerpFeatures := Some(fs), hasAeoFeatures := Some(fs != []), aeoFeatureBoost := Some(BoostOf(r.SerpFeatureList())),
       aeoScore := Some(ScoreOf(r)))
  }

  /** All that the pipeline writes into a kept record. */
  function Annotated(d: Derived, r: KeywordRecord, competitor: string): Derived
  {
    Tagged(d.(wordCount := Some(WordCount(r.KeywordText()))), r, competitor)
  }

  /** A record after the pipeline: annotated when it passes `AEO_FILTERS`, untouched otherwise. */
  function Outcome(d: Derived, r: KeywordRecord, competitor: string): Derived
  {
    if Keep(r, AeoFilters) then Annotated(d, r, competitor) else d
  }

  /** Annotating a record a second time (it occurs twice in `longtail`) writes the same values again. */
  lemma TaggedTwice(d: Derived, r: KeywordRecord, competitor: string)
    ensures Tagged(Tagged(d, r, competitor), r, competitor) == Tagged(d, r, competitor)
  {
  }

  /** The loop over `longtail`: tag, classify, check features and score each record. */
  method AnnotateLongtail(longtail: seq<KeywordRecord>, competitor: string)
    requires forall r :: r in longtail ==> r.keyword.Some?
    modifies set r | r in longtail
    ensures forall r :: r in longtail ==> r.derived == Tagged(old(r.derived), r, competitor)
  {
    var j := 0;
    while j < |longtail|
      invariant 0 <= j <= |longtail|
      invariant forall r :: r in longtail ==> r.derived == (if r in longtail[..j] then Tagged(old(r.derived), r, competitor) else old(r.derived))
    {
      var kw := longtail[j];
      kw.derived := kw.derived.(competitor := Some(competitor));
      CategorizeByIntent(kw);
      CheckAeoSerpFeatures(kw);
      var _ := CalculateAeoScore(kw);
      assert longtail[..j + 1] == longtail[..j] + [kw];
      forall r | r in longtail
        ensures r.derived == (if r in longtail[..j + 1] then Tagged(old(r.derived), r, competitor) else old(r.derived))
      {
        if r == kw {
          TaggedTwice(old(r.derived), r, competitor);
        } else {
          assert r in longtail[..j + 1] <==> r in longtail[..j];
        }
      }
      j := j + 1;
    }
    assert longtail[..j] == longtail;
  }

  /** `competitors` when given and non-empty, else the first `max_competitors` discovered domains (a Python slice). */
  function ResolveCompetitors(given: seq<string>, discovered: seq<string>, maxCompetitors: int): (cs: seq<string>)
    ensures given != [] ==> cs == given
    ensures given == [] ==> |cs| <= |discovered| && cs == discovered[..|cs|]
    ensures given == [] && maxCompetitors >= 0 ==> |cs| == if maxCompetitors < |discovered| then maxCompetitors else |discovered|
  {
    if given != [] then given
    else if maxCompetitors >= 0 then discovered[..if maxCompetitors < |discovered| then maxCompetitors else |discovered|]
    else discovered[..if |discovered| + maxCompetitors > 0 then |discovered| + maxCompetitors else 0]
  }

  /** The records of all gap lists. */
  function Records(gapLists: seq<seq<KeywordRecord>>): set<KeywordRecord>
  {
    set i, r | 0 <= i < |gapLists| && r in gapLists[i] :: r
  }

  /** No record object is shared between the gap lists of two competitors. */
  predicate Separate(gapLists: seq<seq<KeywordRecord>>)
  {
    forall i, j, r :: 0 <= i < |gapLists| && 0 <= j < |gapLists| && r in gapLists[i] && r in gapLists[j] ==> i == j
  }

  function KeptOf(): seq<KeywordRecord> -> seq<KeywordRecord>
  {
    gaps => Filter(gaps, KeepFor(AeoFilters))
  }

  /** The pool before ranking: each competitor's long-tail records, in competitor order. */
  function Pool(gapLists: seq<seq<KeywordRecord>>): seq<KeywordRecord>
  {
    FlatMap(gapLists, KeptOf())
  }

  /** One competitor's turn: filter its gaps, then annotate the long-tail records. */
  method CollectCompetitor(gaps: seq<KeywordRecord>, competitor: string) returns (longtail: seq<KeywordRecord>)
    modifies set r | r in gaps
    ensures longtail == Filter(gaps, KeepFor(AeoFilters))
    ensures forall r :: r in gaps ==> r.derived == Outcome(old(r.derived), r, competitor)
  {
    longtail := FilterLongtail(gaps, None);
    FilterMultiset(gaps, KeepFor(AeoFilters));
    KeptHaveKeyword(longtail);
    AnnotateLongtail(longtail, competitor);
  }

  /**
   * `analyze_content_gaps`, with the API's answers given: `discovered` are the
   * competitor domains it would find and `gapLists[i]` the gap list it returns for
   * the i-th competitor (empty when the request failed). Kept records are
   * annotated with their competitor, classification, features and score;
   * no other record changes; the result is the pool stably sorted by score,
   * highest first.
   */
  method AnalyzeContentGaps(competitors: seq<string>, discovered: seq<string>, maxCompetitors: int,
                            gapLists: seq<seq<KeywordRecord>>)
    returns (chosen: seq<string>, allGaps: seq<KeywordRecord>)
    requires |gapLists| == |ResolveCompetitors(competitors, discovered, maxCompetitors)|
    requires Separate(gapLists)
    modifies Records(gapLists)
    ensures chosen == ResolveCompetitors(competitors, discovered, maxCompetitors)
    ensures allGaps == SortDesc(Pool(gapLists), ScoreOf)
    ensures forall i, r :: 0 <= i < |gapLists| && r in gapLists[i] ==> r.derived == Outcome(old(r.derived), r, chosen[i])
    ensures forall r :: r in allGaps ==> r.derived.aeoScore == Some(ScoreOf(r))
    ensures forall i, j :: 0 <= i < j < |allGaps| ==> allGaps[i].derived.aeoScore.value >= allGaps[j].derived.aeoScore.value
  {
    chosen := if competitors != [] then competitors else ResolveCompetitors([], discovered, maxCompetitors);
    var pooled: seq<KeywordRecord> := [];
    var i := 0;
    while i < |chosen|
      invariant 0 <= i <= |chosen|
      invariant pooled == Pool(gapLists[..i])
      invariant forall k, r :: 0 <= k < |gapLists| && r in gapLists[k] ==>
        r.derived == (if k < i then Outcome(old(r.derived), r, chosen[k]) else old(r.derived))
    {
      var gaps := gapLists[i];
      if gaps != [] {
        var longtail := CollectCompetitor(gaps, chosen[i]);
        pooled := pooled + longtail;
      }
      assert gapLists[..i + 1] == gapLists[..i] + [gaps];
      FlatMapSnoc(gapLists[..i], gaps, KeptOf());
      i := i + 1;
    }
    assert gapLists[..i] == gapLists;
    allGaps := SortDesc(pooled, ScoreOf);
    forall k, r | 0 <= k < |gapLists| && r in gapLists[k]
      ensures r.derived == Outcome(r.derived, r, chosen[k])
    {
      OutcomeIdem(old(r.derived), r, chosen[k]);
    }
    RankedByStoredScore(gapLists, chosen);
  }

  /** Running the pipeline's writes on a record a second time changes nothing. */
  lemma OutcomeIdem(d: Derived, r: KeywordRecord, competitor: string)
    ensures Outcome(Outcome(d, r, competitor), r, competitor) == Outcome(d, r, competitor)
  {
  }

  /** A kept record ends up storing `ScoreOf` as its score. */
  lemma OutcomeScore(d: Derived, r: KeywordRecord, competitor: string)
    requires Keep(r, AeoFilters)
    ensures Outcome(d, r, competitor).aeoScore == Some(ScoreOf(r))
    ensures Outcome(d, r, competitor).competitor == Some(competitor)
  {
  }

  lemma PooledIsKept(gapLists: seq<seq<KeywordRecord>>, r: KeywordRecord)
    requires r in Pool(gapLists)
    ensures exists i :: 0 <= i < |gapLists| && r in gapLists[i] && Keep(r, AeoFilters)
  {
    PoolMembership(gapLists);
  }

  /** Every pooled record stores `ScoreOf` as its score. */
  lemma PooledScores(gapLists: seq<seq<KeywordRecord>>, chosen: seq<string>)
    requires |chosen| == |gapLists|
    requires forall i, r :: 0 <= i < |gapLists| && r in gapLists[i] ==> r.derived == Outcome(r.derived, r, chosen[i])
    ensures forall r :: r in Pool(gapLists) ==> r.derived.aeoScore == Some(ScoreOf(r))
  {
    forall r: KeywordRecord | r in Pool(gapLists) ensures r.derived.aeoScore == Some(ScoreOf(r)) {
      PooledIsKept(gapLists, r);
      var i :| 0 <= i < |gapLists| && r in gapLists[i] && Keep(r, AeoFilters);
      OutcomeScore(r.derived, r, chosen[i]);
    }
  }

  /** The ranking by `ScoreOf` is the ranking by stored score: highest first, a permutation of the pool. */
  lemma RankedByStoredScore(gapLists: seq<seq<KeywordRecord>>, chosen: seq<string>)
    requires |chosen| == |gapLists|
    requires forall i, r :: 0 <= i < |gapLists| && r in gapLists[i] ==> r.derived == Outcome(r.derived, r, chosen[i])
    ensures multiset(SortDesc(Pool(gapLists), ScoreOf)) == multiset(Pool(gapLists))
    ensures forall r :: r in SortDesc(Pool(gapLists), ScoreOf) ==> r.derived.aeoScore == Some(ScoreOf(r))
    ensures var ranked := SortDesc(Pool(gapLists), ScoreOf);
      forall i, j :: 0 <= i < j < |ranked| ==> ranked[i].derived.aeoScore.value >= ranked[j].derived.aeoScore.value
  {
    var pool := Pool(gapLists);
    SortDescCorrect(pool, ScoreOf);
    PooledScores(gapLists, chosen);
    StoredScoresSorted(pool, SortDesc(pool, ScoreOf));
  }

  /**
   * A descending arrangement by `ScoreOf` of records that store `ScoreOf` is
   * descending by stored score.
   */
  lemma StoredScoresSorted(pool: seq<KeywordRecord>, ranked: seq<KeywordRecord>)
    requires multiset(ranked) == multiset(pool) && SortedDesc(ranked, ScoreOf)
    requires forall r :: r in pool ==> r.derived.aeoScore == Some(ScoreOf(r))
    ensures forall r :: r in ranked ==> r.derived.aeoScore == Some(ScoreOf(r))
    ensures forall i, j :: 0 <= i < j < |ranked| ==> ranked[i].derived.aeoScore.value >= ranked[j].derived.aeoScore.value
  {
    forall r | r in ranked ensures r in pool {
      assert r in multiset(ranked);
    }
    forall i, j | 0 <= i < j < |ranked|
      ensures ranked[i].derived.aeoScore.value >= ranked[j].derived.aeoScore.value
    {
      assert ranked[i] in ranked && ranked[j] in ranked;
    }
  }

  /** A record that passes `AEO_FILTERS` has a keyword of three or more words. */
  lemma KeptHaveKeyword(kept: seq<KeywordRecord>)
    requires forall r :: r in kept ==> Keep(r, AeoFilters)
    ensures forall r :: r in kept ==> r.keyword.Some? && WordCount(r.keyword.value) >= 3
  {
    SplitEmpty();
  }

  /** A record is pooled exactly when it is in some competitor's list and passes `AEO_FILTERS`. */
  lemma {:induction false} PoolMembership(gapLists: seq<seq<KeywordRecord>>)
    ensures forall r :: r in Pool(gapLists) <==>
      exists i :: 0 <= i < |gapLists| && r in gapLists[i] && Keep(r, AeoFilters)
  {
    if gapLists != [] {
      var init, last := gapLists[..|gapLists| - 1], gapLists[|gapLists| - 1];
      PoolMembership(init);
      assert gapLists == init + [last];
      FlatMapSnoc(init, last, KeptOf());
      FilterMultiset(last, KeepFor(AeoFilters));
      assert forall i :: 0 <= i < |init| ==> gapLists[i] == init[i];
    }
  }

  /**
   * The pool follows competitor order, and a competitor whose gap list is empty
   * (a failed request) contributes nothing: the others' records are still pooled.
   */
  lemma PoolInCompetitorOrder(before: seq<seq<KeywordRecord>>, gaps: seq<KeywordRecord>, after: seq<seq<KeywordRecord>>)
    ensures Pool(before + [gaps] + after) == Pool(before) + Filter(gaps, KeepFor(AeoFilters)) + Pool(after)
    ensures gaps == [] ==> Pool(before + [gaps] + after) == Pool(before) + Pool(after)
    ensures |Pool(before + [gaps])| == |Pool(before)| + |Filter(gaps, KeepFor(AeoFilters))|
  {
    FlatMapConcat(before + [gaps], after, KeptOf());
    FlatMapSnoc(before, gaps, KeptOf());
  }

  /**
   * The ranking is a stable sort: highest score first, the pool's records each as
   * often as pooled, and records with equal scores in pool order.
   */
  lemma RankingIsStableSort(pool: seq<KeywordRecord>, v: real)
    ensures SortedDesc(SortDesc(pool, ScoreOf), ScoreOf)
    ensures multiset(SortDesc(pool, ScoreOf)) == multiset(pool)
    ensures Filter(SortDesc(pool, ScoreOf), KeyIs(ScoreOf, v)) == Filter(pool, KeyIs(ScoreOf, v))
  {
    SortDescCorrect(pool, ScoreOf);
    SortDescStable(pool, ScoreOf, v);
  }
}
