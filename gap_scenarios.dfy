/**
 * The worked examples of the gap analyzer: a question keyword that passes the
 * filter and scores 57.14, the same keyword made too hard, a commercial
 * keyword boosted by a featured snippet, and an empty candidate pool.
 */
module GapScenarios {
  import opened Wrappers
  import opened Text
  import opened Intent
  import opened Rounding
  import opened GapAnalyzer
  import opened GapSummary

  /** The words of the keyword "how to reduce churn for saas". */
  const ChurnWords: seq<string> := ["how", "to", "reduce", "churn", "for", "saas"]

  /** "how to reduce churn for saas": its words joined by single spaces. */
  const ChurnKeyword := JoinWords(ChurnWords)

  lemma JoinStep(ws: seq<string>, i: nat)
    requires i + 1 < |ws|
    ensures JoinWords(ws[i..]) == ws[i] + " " + JoinWords(ws[i + 1..])
  {
    assert ws[i..][1..] == ws[i + 1..];
  }

  /** Lower-case words joined by spaces make a lower-case phrase. */
  lemma {:induction false} JoinLower(ws: seq<string>)
    requires forall k :: 0 <= k < |ws| ==> IsLower(ws[k])
    ensures IsLower(JoinWords(ws))
  {
    if |ws| > 1 {
      JoinLower(ws[1..]);
    }
  }

  lemma ChurnWordsAreWords()
    ensures forall k :: 0 <= k < |ChurnWords| ==> ChurnWords[k] != [] && NoSpace(ChurnWords[k]) && IsLower(ChurnWords[k])
  {
    forall k | 0 <= k < |ChurnWords| ensures ChurnWords[k] != [] && NoSpace(ChurnWords[k]) && IsLower(ChurnWords[k]) {
      assert forall i :: 0 <= i < |ChurnWords[k]| ==> 'a' <= ChurnWords[k][i] <= 'z';
    }
  }

  lemma ChurnWordCount()
    ensures WordCount(ChurnKeyword) == 6
  {
    ChurnWordsAreWords();
    SplitJoin(ChurnWords);
  }

  lemma ChurnIsLower()
    ensures Lower(ChurnKeyword) == ChurnKeyword
  {
    ChurnWordsAreWords();
    JoinLower(ChurnWords);
    LowerProperties(ChurnKeyword);
  }

  lemma ChurnStartsWithHow()
    ensures OccursAt(ChurnKeyword, "how", 0)
  {
    JoinStep(ChurnWords, 0);
    assert ChurnWords[0..] == ChurnWords;
  }

  lemma ChurnIsQuestion()
    ensures Lower(ChurnKeyword) == ChurnKeyword
    ensures Classify(ChurnKeyword).intent == "question" && Classify(ChurnKeyword).multiplier == 1.5
  {
    ChurnIsLower();
    ChurnStartsWithHow();
    assert IntentPatterns[0].triggers[0] == "how";
    QuestionWins(ChurnKeyword);
  }

  /** 800 × 1.5 / 21 = 57.142857…, stored as 57.14. */
  lemma ChurnScore()
    ensures Round(AeoScore(800, 1.5, NoFeatureBoost, 20), 2) == 57.14
  {
    var x := AeoScore(800, 1.5, NoFeatureBoost, 20);
    assert x == 1200.0 / 21.0;
    assert Pow10(2) == 100;
    RoundToIntUnique(Scale(x, 2), 5714);
  }

  /** A question keyword within all bounds is kept, classified as a question and scored 57.14. */
  lemma ScenarioQuestionKept(r: KeywordRecord)
    requires r.keyword == Some(ChurnKeyword) && r.volume == Some(800) && r.difficulty == Some(20)
    requires r.competition == Some(0.15) && r.serpFeatures.None?
    ensures Keep(r, AeoFilters)
    ensures Classify(Lower(r.KeywordText())).intent == "question"
    ensures Classify(Lower(r.KeywordText())).multiplier == 1.5
    ensures BoostOf(r.SerpFeatureList()) == NoFeatureBoost
    ensures ScoreOf(r) == 57.14
  {
    ChurnWordCount();
    ChurnIsQuestion();
    ChurnScore();
  }

  /** The same keyword at difficulty 50 exceeds the difficulty bound of 35 and is never kept. */
  lemma ScenarioTooHard(r: KeywordRecord)
    requires r.keyword == Some(ChurnKeyword) && r.volume == Some(800) && r.difficulty == Some(50)
    requires r.competition == Some(0.15)
    ensures !Keep(r, AeoFilters)
  {
  }

  /** 3000 × 1.3 × 1.3 / 11 = 460.9090…, stored as 460.91. */
  lemma PricingScore()
    ensures Round(AeoScore(3000, 1.3, FeatureBoost, 10), 2) == 460.91
  {
    var x := AeoScore(3000, 1.3, FeatureBoost, 10);
    assert x == 5070.0 / 11.0;
    assert Pow10(2) == 100;
    RoundToIntUnique(Scale(x, 2), 46091);
  }

  /** "pricing" is a single word. */
  lemma PricingWordCount()
    ensures WordCount("pricing") == 1
  {
    assert NoSpace("pricing");
    SplitJoin(["pricing"]);
  }

  /**
   * "pricing" with a featured snippet, taken through the per-record steps
   * directly: commercial at 1.3, boosted by 1.3, scored 460.91. As a single
   * word it fails the three-word minimum of `AEO_FILTERS`, so
   * `analyze_content_gaps` itself never classifies or scores it.
   */
  lemma ScenarioCommercialBoosted(r: KeywordRecord)
    requires r.keyword == Some("pricing") && r.volume == Some(3000) && r.difficulty == Some(10)
    requires r.serpFeatures == Some(["featured_snippet"])
    ensures Classify(Lower(r.KeywordText())).intent == "commercial"
    ensures Classify(Lower(r.KeywordText())).multiplier == 1.3
    ensures BoostOf(r.SerpFeatureList()) == FeatureBoost
    ensures ScoreOf(r) == 460.91
    ensures WordCount(r.KeywordText()) == 1 && !Keep(r, AeoFilters)
  {
    PricingWordCount();
    LowerProperties("pricing");
    PricingExample();
    assert r.SerpFeatureList()[0] in AeoSerpFeatures;
    PricingScore();
  }

  /** With no gap lists, or only empty ones, the ranking is empty and there is no summary. */
  lemma ScenarioEmptyPool(gapLists: seq<seq<KeywordRecord>>)
    requires forall i :: 0 <= i < |gapLists| ==> gapLists[i] == []
    ensures Pool(gapLists) == []
    ensures Summary([]) == None
  {
    if Pool(gapLists) != [] {
      PooledIsKept(gapLists, Pool(gapLists)[0]);
    }
  }
}
