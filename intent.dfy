/**
 * The intent classifier of the gap analyzer: an ordered table of intents, each
 * with trigger substrings and a score multiplier, and the rule that picks the
 * primary intent of a lower-cased keyword.
 */
module Intent {
  import opened Text
  import opened Seqs

  datatype IntentPattern = IntentPattern(name: string, triggers: seq<string>, multiplier: real)

  /** `AEO_INTENT_PATTERNS`, in declaration order (the order of the dict's items). */
  const IntentPatterns: seq<IntentPattern> := [
    IntentPattern("question",
      ["how", "what", "why", "when", "where", "who", "can", "should", "does", "is", "are", "will", "would"], 1.5),
    IntentPattern("commercial",
      ["best", "top", "vs", "versus", "review", "compare", "pricing", "cost", "alternative"], 1.3),
    IntentPattern("informational",
      ["guide", "tutorial", "tips", "examples", "template", "checklist", "definition", "meaning"], 1.4),
    IntentPattern("list",
      ["list", "ways to", "steps to", "types of", "kinds of", "ideas for"], 1.4),
    IntentPattern("local",
      ["near me", "in", "local", "nearby", "around"], 1.1)
  ]

  /** The intent given to a keyword that matches no pattern (at multiplier 1.0). */
  const OtherIntent := "other"

  /** `any(pattern in text for pattern in p.triggers)`. */
  predicate Matches(text: string, p: IntentPattern)
  {
    exists k :: 0 <= k < |p.triggers| && Contains(text, p.triggers[k])
  }

  function MatchesIn(text: string): IntentPattern -> bool
  {
    p => Matches(text, p)
  }

  /** The loop state of `categorize_by_intent`: primary intent, its multiplier, the matched intents. */
  datatype Classification = Classification(intent: string, multiplier: real, matched: seq<string>)

  const Unclassified := Classification(OtherIntent, 1.0, [])

  /** One iteration: a matching pattern is recorded, and taken as primary when its multiplier is strictly larger. */
  function Step(c: Classification, text: string, p: IntentPattern): Classification
  {
    if !Matches(text, p) then c
    else if p.multiplier > c.multiplier then Classification(p.name, p.multiplier, c.matched + [p.name])
    else c.(matched := c.matched + [p.name])
  }

  /** The state after the loop has visited the patterns `ps` in order. */
  function ClassifyWith(text: string, ps: seq<IntentPattern>): Classification
  {
    if ps == [] then Unclassified else Step(ClassifyWith(text, ps[..|ps| - 1]), text, ps[|ps| - 1])
  }

  /** The classification of a lower-cased keyword against the fixed table. */
  function Classify(text: string): Classification
  {
    ClassifyWith(text, IntentPatterns)
  }

  /**
   * Pattern `i` is the primary intent: it matches, raises the multiplier above 1.0,
   * no matching pattern has a larger multiplier and no earlier matching pattern
   * has the same one.
   */
  ghost predicate IsPrimary(text: string, ps: seq<IntentPattern>, i: int)
  {
    && 0 <= i < |ps| && Matches(text, ps[i]) && ps[i].multiplier > 1.0
    && (forall j :: 0 <= j < |ps| && Matches(text, ps[j]) ==> ps[j].multiplier <= ps[i].multiplier)
    && (forall j :: 0 <= j < i && Matches(text, ps[j]) ==> ps[j].multiplier < ps[i].multiplier)
  }

  /** The matched intents are the names of the matching patterns, in table order. */
  lemma {:induction false} MatchedInOrder(text: string, ps: seq<IntentPattern>)
    ensures var m := Filter(ps, MatchesIn(text));
      |ClassifyWith(text, ps).matched| == |m| &&
      forall k :: 0 <= k < |m| ==> ClassifyWith(text, ps).matched[k] == m[k].name
  {
    if ps != [] {
      MatchedInOrder(text, ps[..|ps| - 1]);
    }
  }

  /** An intent name is among the matched ones exactly when a pattern with that name matches. */
  lemma MatchedExactly(text: string, ps: seq<IntentPattern>, n: string)
    ensures n in ClassifyWith(text, ps).matched <==>
      exists i :: 0 <= i < |ps| && ps[i].name == n && Matches(text, ps[i])
  {
    var m := Filter(ps, MatchesIn(text));
    var c := ClassifyWith(text, ps);
    MatchedInOrder(text, ps);
    FilterMultiset(ps, MatchesIn(text));
    if n in c.matched {
      var k :| 0 <= k < |c.matched| && c.matched[k] == n;
      assert m[k] in ps && MatchesIn(text)(m[k]);
      var i :| 0 <= i < |ps| && ps[i] == m[k];
      assert ps[i].name == n && Matches(text, ps[i]);
    }
    if i :| 0 <= i < |ps| && ps[i].name == n && Matches(text, ps[i]) {
      assert ps[i] in m;
      var k :| 0 <= k < |m| && m[k] == ps[i];
      assert c.matched[k] == n;
    }
  }

  /**
   * The facts the loop keeps: the multiplier is at least 1.0 and bounds every
   * matching pattern's; at 1.0 the intent is still "other"; above 1.0 some
   * matching pattern carries it, the first one to do so, and the intent is its name.
   */
  lemma {:induction false} ClassifyFacts(text: string, ps: seq<IntentPattern>)
    ensures ClassifyWith(text, ps).multiplier >= 1.0
    ensures forall j :: 0 <= j < |ps| && Matches(text, ps[j]) ==> ps[j].multiplier <= ClassifyWith(text, ps).multiplier
    ensures ClassifyWith(text, ps).multiplier == 1.0 ==> ClassifyWith(text, ps).intent == OtherIntent
    ensures ClassifyWith(text, ps).multiplier > 1.0 ==>
      exists i :: 0 <= i < |ps| && Matches(text, ps[i])
        && ps[i].multiplier == ClassifyWith(text, ps).multiplier && ps[i].name == ClassifyWith(text, ps).intent
        && forall j :: 0 <= j < i && Matches(text, ps[j]) ==> ps[j].multiplier < ps[i].multiplier
  {
    if ps != [] {
      var init := ps[..|ps| - 1];
      var p := ps[|ps| - 1];
      var c := ClassifyWith(text, init);
      ClassifyFacts(text, init);
      assert forall j :: 0 <= j < |init| ==> ps[j] == init[j];
      if Matches(text, p) && p.multiplier > c.multiplier {
        assert forall j :: 0 <= j < |ps| - 1 && Matches(text, ps[j]) ==> ps[j].multiplier < p.multiplier;
      } else if c.multiplier > 1.0 {
        var i :| 0 <= i < |init| && Matches(text, init[i])
          && init[i].multiplier == c.multiplier && init[i].name == c.intent
          && forall j :: 0 <= j < i && Matches(text, init[j]) ==> init[j].multiplier < init[i].multiplier;
        assert ps[i] == init[i];
      }
    }
  }

  /**
   * `intent_multiplier` is the largest multiplier among the matching patterns, or
   * 1.0 when that is larger; `intent` is the first pattern to reach it, or "other".
   */
  lemma PrimaryIntent(text: string, ps: seq<IntentPattern>)
    ensures ClassifyWith(text, ps).multiplier >= 1.0
    ensures forall j :: 0 <= j < |ps| && Matches(text, ps[j]) ==> ps[j].multiplier <= ClassifyWith(text, ps).multiplier
    ensures forall i :: IsPrimary(text, ps, i) ==>
      ClassifyWith(text, ps).intent == ps[i].name && ClassifyWith(text, ps).multiplier == ps[i].multiplier
    ensures (forall i :: !IsPrimary(text, ps, i)) ==>
      ClassifyWith(text, ps).intent == OtherIntent && ClassifyWith(text, ps).multiplier == 1.0
  {
    var c := ClassifyWith(text, ps);
    ClassifyFacts(text, ps);
    if c.multiplier > 1.0 {
      var w :| 0 <= w < |ps| && Matches(text, ps[w])
        && ps[w].multiplier == c.multiplier && ps[w].name == c.intent
        && forall j :: 0 <= j < w && Matches(text, ps[j]) ==> ps[j].multiplier < ps[w].multiplier;
      assert IsPrimary(text, ps, w);
      forall i | IsPrimary(text, ps, i)
        ensures c.intent == ps[i].name && c.multiplier == ps[i].multiplier
      {
        assert ps[i].multiplier == c.multiplier;
        assert !(i < w) && !(w < i);
      }
    }
  }

  /** A table whose every multiplier exceeds 1.0 and where no intent is called "other". */
  predicate WellFormed(ps: seq<IntentPattern>)
  {
    forall i :: 0 <= i < |ps| ==> ps[i].multiplier > 1.0 && ps[i].name != OtherIntent
  }

  lemma TableWellFormed()
    ensures WellFormed(IntentPatterns)
    ensures |IntentPatterns| == 5
    ensures forall i, j :: 0 <= i < j < |IntentPatterns| ==> IntentPatterns[i].name != IntentPatterns[j].name
  {
  }

  /** Over such a table the intent is "other" exactly when nothing matched. */
  lemma OtherIffUnmatched(text: string, ps: seq<IntentPattern>)
    requires WellFormed(ps)
    ensures ClassifyWith(text, ps).intent == OtherIntent <==> ClassifyWith(text, ps).matched == []
    ensures ClassifyWith(text, ps).matched == [] <==> ClassifyWith(text, ps).multiplier == 1.0
  {
    var c := ClassifyWith(text, ps);
    ClassifyFacts(text, ps);
    MatchedInOrder(text, ps);
    FilterMultiset(ps, MatchesIn(text));
    if c.matched != [] {
      var m := Filter(ps, MatchesIn(text));
      assert m[0] in ps && Matches(text, m[0]);
      var j :| 0 <= j < |ps| && ps[j] == m[0];
      assert c.multiplier > 1.0;
    }
  }

  /** A pattern listed first with the largest multiplier of the table wins whenever it matches. */
  lemma FirstMaximalWins(text: string, ps: seq<IntentPattern>)
    requires ps != [] && ps[0].multiplier > 1.0 && Matches(text, ps[0])
    requires forall j :: 0 <= j < |ps| ==> ps[j].multiplier <= ps[0].multiplier
    ensures ClassifyWith(text, ps).intent == ps[0].name
    ensures ClassifyWith(text, ps).multiplier == ps[0].multiplier
  {
    assert IsPrimary(text, ps, 0);
    PrimaryIntent(text, ps);
  }

  /** Any question trigger makes a keyword a question at multiplier 1.5, whatever else it matches. */
  lemma QuestionWins(text: string)
    requires Matches(text, IntentPatterns[0])
    ensures Classify(text).intent == "question" && Classify(text).multiplier == 1.5
  {
    FirstMaximalWins(text, IntentPatterns);
  }

  /** Every character of a substring occurs in the text. */
  lemma ContainedChars(s: string, t: string)
    ensures Contains(s, t) ==> forall k :: 0 <= k < |t| ==> t[k] in s
  {
    if Contains(s, t) {
      var i :| OccursAt(s, t, i);
      forall k | 0 <= k < |t| ensures t[k] in s {
        assert s[i + k] == t[k];
      }
    }
  }

  /** No trigger of `p` occurs in `s`, as shown by a character of each trigger that `s` lacks. */
  lemma Misses(s: string, p: IntentPattern, witnesses: string)
    requires |witnesses| == |p.triggers|
    requires forall k :: 0 <= k < |p.triggers| ==> witnesses[k] in p.triggers[k] && witnesses[k] !in s
    ensures !Matches(s, p)
  {
    forall k | 0 <= k < |p.triggers| ensures !Contains(s, p.triggers[k]) {
      ContainedChars(s, p.triggers[k]);
    }
  }

  lemma PricingIsNoQuestion()
    ensures !Matches("pricing", IntentPatterns[0])
  {
    Misses("pricing", IntentPatterns[0], "hwwwwwasdsaww");
  }

  lemma PricingIsNotInformational()
    ensures !Matches("pricing", IntentPatterns[2])
  {
    Misses("pricing", IntentPatterns[2], "uttethdm");
  }

  lemma PricingIsNoList()
    ensures !Matches("pricing", IntentPatterns[3])
  {
    Misses("pricing", IntentPatterns[3], "lwstkd");
  }

  lemma PricingIsCommercialAndLocal()
    ensures Matches("pricing", IntentPatterns[1])
    ensures Matches("pricing", IntentPatterns[4])
  {
    assert OccursAt("pricing", IntentPatterns[1].triggers[6], 0);
    assert OccursAt("pricing", IntentPatterns[4].triggers[1], 4);
  }

  /** Matching is by substring: "pricing" is commercial, and local through "in". */
  lemma PricingExample()
    ensures Classify("pricing") == Classification("commercial", 1.3, ["commercial", "local"])
  {
    PricingIsNoQuestion();
    PricingIsCommercialAndLocal();
    PricingIsNotInformational();
    PricingIsNoList();
    var s, ps := "pricing", IntentPatterns;
    assert ps[..1][..0] == [] && ps[..1][0] == ps[0];
    var c1 := ClassifyWith(s, ps[..1]);
    assert ClassifyWith(s, []) == Unclassified;
    assert Step(Unclassified, s, ps[0]) == Unclassified;
    assert c1 == Unclassified;
    assert ps[..2][..1] == ps[..1] && ps[..2][1] == ps[1];
    var c2 := ClassifyWith(s, ps[..2]);
    assert c2 == Classification("commercial", 1.3, ["commercial"]);
    assert ps[..3][..2] == ps[..2] && ps[..3][2] == ps[2];
    assert ClassifyWith(s, ps[..3]) == c2;
    assert ps[..4][..3] == ps[..3] && ps[..4][3] == ps[3];
    assert ClassifyWith(s, ps[..4]) == c2;
    assert ps[..4] == ps[..|ps| - 1];
  }
}
