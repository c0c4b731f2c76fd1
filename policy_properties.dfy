/**
 * What the update policy guarantees: with an intent score and emotion scores
 * in [0, 1] every pair stays balanced and no computed value is rejected; the
 * exact effect of each intent branch on each trait pair; the inputs that
 * change nothing; and the partial update left behind when a value is rejected.
 */
module PolicyProperties {
  import opened PersonalityState
  import opened UpdatePolicy

  /** Every emotion score lies in [0, 1]. */
  predicate ScoresInRange(emotionVector: map<string, real>) {
    forall e :: e in emotionVector ==> 0.0 <= emotionVector[e] <= 1.0
  }

  predicate PolicyInRange(policy: Policy) {
    policy.EmotionPolicy? ==> ScoresInRange(policy.emotionVector)
  }

  /** The table holds all ten trait pairs of a default personality. */
  predicate HasAllTraitPairs(t: Traits) {
    forall k :: k in TRAIT_PAIRS ==> k in t
  }

  /** The emotion labels the emotion branch reads. */
  const MAPPED_EMOTIONS: set<string> := {"joy", "anger", "disgust", "surprise", "neutral"}

  /** The score of an emotion, 0 when the classifier did not report it. */
  function ScoreOf(emotionVector: map<string, real>, emotion: string): real {
    if emotion in emotionVector then emotionVector[emotion] else 0.0
  }

  /** A balanced pair with first pole `v1`. */
  function PolePair(v1: real): Pair {
    (v1, 1.0 - v1)
  }

  /** `a * f` lies between 0 and `a` when `f` is a fraction, and is 0 when `f` is. */
  lemma ScaleWithin(a: real, f: real)
    ensures 0.0 <= a && 0.0 <= f <= 1.0 ==> 0.0 <= a * f <= a
    ensures f == 0.0 ==> a * f == 0.0
  {
    if 0.0 <= a && 0.0 <= f <= 1.0 {
      assert a * f <= a * 1.0;
    }
  }

  /** `a` scaled by `f`: between 0 and `a` when `f` is a fraction, and 0 when `f` is. */
  function Scaled(a: real, f: real): (r: real)
    ensures 0.0 <= a && 0.0 <= f <= 1.0 ==> 0.0 <= r <= a
    ensures f == 0.0 ==> r == 0.0
  {
    ScaleWithin(a, f);
    a * f
  }

  /** The first pole raised by a fraction `k` of its distance to 1. */
  function Raised(v1: real, k: real): (r: real)
    ensures 0.0 <= v1 <= 1.0 && 0.0 <= k <= 1.0 ==> v1 <= r <= 1.0
    ensures k == 0.0 ==> r == v1
  {
    v1 + Scaled(1.0 - v1, k)
  }

  /** The first pole lowered by a fraction `k` of its distance to 0. */
  function Lowered(v1: real, k: real): (r: real)
    ensures 0.0 <= v1 <= 1.0 && 0.0 <= k <= 1.0 ==> 0.0 <= r <= v1
    ensures k == 0.0 ==> r == v1
  {
    Scaled(v1, 1.0 - k)
  }

  /** The pair an axis is left with after a move in `dir` by `k`. */
  function Moved(v: Pair, dir: Direction, k: real): Pair {
    match dir
    case RaiseFirst => PolePair(Raised(v.0, k))
    case LowerFirst => PolePair(Lowered(v.0, k))
    case NoMatch => v
  }

  /** The pair an axis is left with after one step of `policy` that does not raise. */
  function Expected(v: Pair, policy: Policy, traitPair: string, keyword: string, intentScore: real): Pair {
    match policy
    case EmotionPolicy(emotionVector) =>
      if keyword !in emotionVector then v
      else Moved(v, EmotionDirection(traitPair, keyword), WeightedScore(intentScore, emotionVector[keyword]))
    case PersonalityPolicy =>
      if keyword == "" then v else Moved(v, DirectionOf(traitPair, keyword), intentScore)
  }

  predicate DistinctTraitPairs(entries: seq<(string, string)>) {
    forall i, j :: 0 <= i < j < |entries| ==> entries[i].0 != entries[j].0
  }

  // ---------------------------------------------------------------------------
  // The pole each mapping entry moves
  // ---------------------------------------------------------------------------

  /** Splitting a joined name gives back its two poles. */
  lemma SplitJoin(first: string, second: string)
    requires '-' !in first
    ensures SplitPair(first + "-" + second) == (first, second)
  {
    var s := first + "-" + second;
    assert s[..|first|] == first && s[|first| + 1..] == second;
    assert HyphenFrom(s, 0) == |first| by {
      assert s[|first|] == '-';
      assert forall k :: 0 <= k < |first| ==> s[k] == first[k];
    }
  }

  /** Lower-casing a lower-cased string changes nothing. */
  lemma LowerIdempotent(s: string)
    ensures Lower(Lower(s)) == Lower(s)
  {
    var r := Lower(s);
    assert forall i :: 0 <= i < |r| ==> Lower(r)[i] == r[i];
  }

  /** The direction a keyword gives does not depend on the keyword's case. */
  lemma DirectionIgnoresCase(traitPair: string, keyword: string)
    ensures DirectionOf(traitPair, Lower(keyword)) == DirectionOf(traitPair, keyword)
  {
    LowerIdempotent(keyword);
  }

  /**
   * The direction of a keyword for the pair named `first-second`: up to
   * case, the first pole name raises it, else the second lowers it.
   */
  lemma DirectionFromPoles(first: string, second: string, keyword: string)
    requires '-' !in first
    ensures DirectionOf(first + "-" + second, keyword) ==
      if Lower(keyword) == Lower(first) then RaiseFirst
      else if Lower(keyword) == Lower(second) then LowerFirst
      else NoMatch
  {
    SplitJoin(first, second);
  }

  // Proof steps for `EmotionDirections` and `PersonalityDirections`. Each
  // one states a single fact about a literal pair name, so that the lemmas
  // using them never unfold `SplitPair` or `Lower` on a concatenation.

  /** `DirectionOf` read off a pair name whose split is known. */
  lemma DirectionOfSplit(traitPair: string, keyword: string, first: string, second: string)
    requires SplitPair(traitPair) == (first, second)
    ensures Lower(keyword) == Lower(first) ==> DirectionOf(traitPair, keyword) == RaiseFirst
    ensures Lower(keyword) != Lower(first) && Lower(keyword) == Lower(second) ==>
      DirectionOf(traitPair, keyword) == LowerFirst
    ensures Lower(keyword) != Lower(first) && Lower(keyword) != Lower(second) ==>
      DirectionOf(traitPair, keyword) == NoMatch
  {
  }

  /** The pole names of each mapped pair. */
  lemma SplitSadnessJoy()
    ensures SplitPair("Sadness-Joy") == ("Sadness", "Joy")
  {
    SplitJoin("Sadness", "Joy");
    assert "Sadness" + "-" + "Joy" == "Sadness-Joy";
  }

  lemma SplitAngerFear()
    ensures SplitPair("Anger-Fear") == ("Anger", "Fear")
  {
    SplitJoin("Anger", "Fear");
    assert "Anger" + "-" + "Fear" == "Anger-Fear";
  }

  lemma SplitDisgustTrust()
    ensures SplitPair("Disgust-Trust") == ("Disgust", "Trust")
  {
    SplitJoin("Disgust", "Trust");
    assert "Disgust" + "-" + "Trust" == "Disgust-Trust";
  }

  lemma SplitAnticipationSurprise()
    ensures SplitPair("Anticipation-Surprise") == ("Anticipation", "Surprise")
  {
    SplitJoin("Anticipation", "Surprise");
    assert "Anticipation" + "-" + "Surprise" == "Anticipation-Surprise";
  }

  lemma SplitStaticDynamic()
    ensures SplitPair("Static-Dynamic") == ("Static", "Dynamic")
  {
    SplitJoin("Static", "Dynamic");
    assert "Static" + "-" + "Dynamic" == "Static-Dynamic";
  }

  lemma SplitNegativePositive()
    ensures SplitPair("Negative-Positive") == ("Negative", "Positive")
  {
    SplitJoin("Negative", "Positive");
    assert "Negative" + "-" + "Positive" == "Negative-Positive";
  }

  lemma SplitAggressivePeaceful()
    ensures SplitPair("Aggressive-Peaceful") == ("Aggressive", "Peaceful")
  {
    SplitJoin("Aggressive", "Peaceful");
    assert "Aggressive" + "-" + "Peaceful" == "Aggressive-Peaceful";
  }

  lemma SplitCautiousOpen()
    ensures SplitPair("Cautious-Open") == ("Cautious", "Open")
  {
    SplitJoin("Cautious", "Open");
    assert "Cautious" + "-" + "Open" == "Cautious-Open";
  }

  lemma SplitIntrovertExtravert()
    ensures SplitPair("Introvert-Extravert") == ("Introvert", "Extravert")
  {
    SplitJoin("Introvert", "Extravert");
    assert "Introvert" + "-" + "Extravert" == "Introvert-Extravert";
  }

  lemma SplitInsecureConfident()
    ensures SplitPair("Insecure-Confident") == ("Insecure", "Confident")
  {
    SplitJoin("Insecure", "Confident");
    assert "Insecure" + "-" + "Confident" == "Insecure-Confident";
  }

  lemma EmotionKeywordsNamePoles()
    ensures Lower("joy") != Lower("Sadness") && Lower("joy") == Lower("Joy")
    ensures Lower("anger") == Lower("Anger")
    ensures Lower("disgust") == Lower("Disgust")
    ensures Lower("surprise") != Lower("Anticipation") && Lower("surprise") == Lower("Surprise")
    ensures Lower("neutral") != Lower("Static") && Lower("neutral") != Lower("Dynamic")
  {
    assert Lower("neutral")[0] != Lower("Dynamic")[0];
  }

  /**
   * "joy" and "surprise" name the second pole of their pair, "anger" and
   * "disgust" the first; "neutral" names neither pole of "Static-Dynamic".
   */
  lemma EmotionDirections()
    ensures DirectionOf("Sadness-Joy", "joy") == LowerFirst
    ensures DirectionOf("Anger-Fear", "anger") == RaiseFirst
    ensures DirectionOf("Disgust-Trust", "disgust") == RaiseFirst
    ensures DirectionOf("Anticipation-Surprise", "surprise") == LowerFirst
    ensures DirectionOf("Static-Dynamic", "neutral") == NoMatch
    ensures EmotionDirection("Sadness-Joy", "joy") == LowerFirst
    ensures EmotionDirection("Anger-Fear", "anger") == RaiseFirst
    ensures EmotionDirection("Disgust-Trust", "disgust") == RaiseFirst
    ensures EmotionDirection("Anticipation-Surprise", "surprise") == LowerFirst
    ensures EmotionDirection("Static-Dynamic", "neutral") == RaiseFirst
  {
    EmotionKeywordsNamePoles();
    SplitSadnessJoy();
    DirectionOfSplit("Sadness-Joy", "joy", "Sadness", "Joy");
    SplitAngerFear();
    DirectionOfSplit("Anger-Fear", "anger", "Anger", "Fear");
    SplitDisgustTrust();
    DirectionOfSplit("Disgust-Trust", "disgust", "Disgust", "Trust");
    SplitAnticipationSurprise();
    DirectionOfSplit("Anticipation-Surprise", "surprise", "Anticipation", "Surprise");
    SplitStaticDynamic();
    DirectionOfSplit("Static-Dynamic", "neutral", "Static", "Dynamic");
  }

  lemma OutlookKeywordsNamePoles()
    ensures Lower("positive") != Lower("Negative") && Lower("positive") == Lower("Positive")
    ensures Lower("peaceful") != Lower("Aggressive") && Lower("peaceful") == Lower("Peaceful")
    ensures Lower("open") != Lower("Cautious") && Lower("open") == Lower("Open")
  {
    assert Lower("positive")[0] != Lower("Negative")[0];
  }

  lemma SocialKeywordsNamePoles()
    ensures Lower("extravert") != Lower("Introvert") && Lower("extravert") == Lower("Extravert")
    ensures Lower("confident") != Lower("Insecure") && Lower("confident") == Lower("Confident")
  {
    assert Lower("extravert")[0] != Lower("Introvert")[0];
  }

  /** One clause of `EmotionDirections`, a proof step for the examples. */
  lemma JoyLowersSadness()
    ensures EmotionDirection("Sadness-Joy", "joy") == LowerFirst
  {
    EmotionDirections();
  }

  /** One clause of `EmotionDirections`, a proof step for the examples. */
  lemma AngerRaisesAnger()
    ensures EmotionDirection("Anger-Fear", "anger") == RaiseFirst
  {
    EmotionDirections();
  }

  /**
   * Every personality keyword names the second pole of its pair, so every
   * entry of the personality mapping lowers the first pole.
   */
  lemma PersonalityDirections()
    ensures forall i :: 0 <= i < |PERSONALITY_TRAIT_MAPPING| ==>
      DirectionOf(PERSONALITY_TRAIT_MAPPING[i].0, PERSONALITY_TRAIT_MAPPING[i].1) == LowerFirst
  {
    var m := PERSONALITY_TRAIT_MAPPING;
    forall i | 0 <= i < |m| ensures DirectionOf(m[i].0, m[i].1) == LowerFirst {
      OutlookKeywordsNamePoles();
      SocialKeywordsNamePoles();
      if i == 0 {
        assert m[i] == ("Negative-Positive", "positive");
        SplitNegativePositive();
        DirectionOfSplit(m[i].0, m[i].1, "Negative", "Positive");
      } else if i == 1 {
        assert m[i] == ("Aggressive-Peaceful", "peaceful");
        SplitAggressivePeaceful();
        DirectionOfSplit(m[i].0, m[i].1, "Aggressive", "Peaceful");
      } else if i == 2 {
        assert m[i] == ("Cautious-Open", "open");
        SplitCautiousOpen();
        DirectionOfSplit(m[i].0, m[i].1, "Cautious", "Open");
      } else if i == 3 {
        assert m[i] == ("Introvert-Extravert", "extravert");
        SplitIntrovertExtravert();
        DirectionOfSplit(m[i].0, m[i].1, "Introvert", "Extravert");
      } else {
        assert m[i] == ("Insecure-Confident", "confident");
        SplitInsecureConfident();
        DirectionOfSplit(m[i].0, m[i].1, "Insecure", "Confident");
      }
    }
  }

  /** No intent label belongs to two of the three lists. */
  lemma IntentListsDisjoint()
    ensures forall x :: x in INTENT_LABELS_EMOTION ==> x !in INTENT_LABELS_PERSONALITY
    ensures forall x :: x in INTENT_LABELS_EMOTION ==> x !in INTENT_LABELS_NEUTRAL
    ensures forall x :: x in INTENT_LABELS_PERSONALITY ==> x !in INTENT_LABELS_NEUTRAL
  {
  }

  // ---------------------------------------------------------------------------
  // One step
  // ---------------------------------------------------------------------------

  /** The diminishing-returns change shrinks as the pole it is seeded from grows. */
  lemma SaturationDiminishes(current: real, higher: real, baseChange: real)
    requires current < higher && 0.0 < baseChange
    ensures CalculateChange(higher, baseChange) < CalculateChange(current, baseChange)
  {
    var gap := higher - current;
    assert baseChange * gap > 0.0;
    assert CalculateChange(current, baseChange) - CalculateChange(higher, baseChange) == baseChange * gap;
  }

  lemma WeightedScoreInRange(intentScore: real, emotionScore: real)
    requires 0.0 <= intentScore <= 1.0 && 0.0 <= emotionScore <= 1.0
    ensures 0.0 <= WeightedScore(intentScore, emotionScore) <= 1.0
  {
    ScaleWithin(emotionScore, intentScore);
    assert intentScore * emotionScore == emotionScore * intentScore;
  }

  /**
   * A move of a balanced pair by a base change in [0, 1] is never rejected:
   * raising adds `(1 - v1) * k`, lowering subtracts `(1 - v2) * k`, which for
   * a balanced pair is `v1 * k`.
   */
  lemma {:induction false} MoveBalanced(t: Traits, traitPair: string, dir: Direction, k: real)
    requires WellFormed(t) && traitPair in t && 0.0 <= k <= 1.0
    ensures Move(t, traitPair, dir, k) == Ok(t[traitPair := Moved(t[traitPair], dir, k)])
    ensures Balanced(Moved(t[traitPair], dir, k))
  {
    var v := t[traitPair];
    assert v.1 == 1.0 - v.0;
    match dir
    case RaiseFirst =>
      assert v.0 + CalculateChange(v.0, k) == Raised(v.0, k);
    case LowerFirst =>
      assert v.0 - CalculateChange(v.1, k) == Lowered(v.0, k);
    case NoMatch =>
      assert t[traitPair := v] == t;
  }

  /** A move by zero leaves a balanced pair as it is. */
  lemma MovedByZero(v: Pair, dir: Direction)
    requires Balanced(v)
    ensures Moved(v, dir, 0.0) == v
  {
  }

  /** One step on a table that holds its trait pair is the reference move. */
  lemma {:induction false} StepExpected(t: Traits, policy: Policy, entry: (string, string), intentScore: real)
    requires WellFormed(t) && entry.0 in t && 0.0 <= intentScore <= 1.0 && PolicyInRange(policy)
    ensures Step(t, policy, entry, intentScore) ==
      Ok(t[entry.0 := Expected(t[entry.0], policy, entry.0, entry.1, intentScore)])
    ensures Balanced(Expected(t[entry.0], policy, entry.0, entry.1, intentScore))
  {
    var (traitPair, keyword) := entry;
    match policy
    case EmotionPolicy(emotionVector) =>
      if keyword !in emotionVector {
        assert t[traitPair := t[traitPair]] == t;
      } else {
        WeightedScoreInRange(intentScore, emotionVector[keyword]);
        MoveBalanced(t, traitPair, EmotionDirection(traitPair, keyword),
          WeightedScore(intentScore, emotionVector[keyword]));
      }
    case PersonalityPolicy =>
      if keyword == "" {
        assert t[traitPair := t[traitPair]] == t;
      } else {
        MoveBalanced(t, traitPair, DirectionOf(traitPair, keyword), intentScore);
      }
  }

  /**
   * One step keeps the table balanced; the only error it can raise is an
   * unknown trait pair, and only when the pair is missing.
   */
  lemma {:induction false} StepKeepsBalance(t: Traits, policy: Policy, entry: (string, string), intentScore: real)
    requires WellFormed(t) && 0.0 <= intentScore <= 1.0 && PolicyInRange(policy)
    ensures Step(t, policy, entry, intentScore).Ok? ==> WellFormed(Step(t, policy, entry, intentScore).value)
    ensures Step(t, policy, entry, intentScore).Err? ==>
      entry.0 !in t && Step(t, policy, entry, intentScore).error == UnknownTraitPair(entry.0)
  {
    if entry.0 in t {
      StepExpected(t, policy, entry, intentScore);
    }
  }

  // ---------------------------------------------------------------------------
  // A sequence of steps
  // ---------------------------------------------------------------------------

  /**
   * With scores in [0, 1] a run keeps every pair balanced, even when it stops
   * early; it can stop only on a missing trait pair, so it passes when every
   * entry's trait pair is present.
   */
  lemma {:induction false} ApplyKeepsBalance(
    t: Traits, policy: Policy, entries: seq<(string, string)>, intentScore: real)
    requires WellFormed(t) && 0.0 <= intentScore <= 1.0 && PolicyInRange(policy)
    ensures WellFormed(Apply(t, policy, entries, intentScore).traits)
    ensures Apply(t, policy, entries, intentScore).outcome.Fail? ==>
      Apply(t, policy, entries, intentScore).outcome.error.UnknownTraitPair?
    ensures (forall i :: 0 <= i < |entries| ==> entries[i].0 in t) ==>
      Apply(t, policy, entries, intentScore).outcome == Pass
  {
    if entries != [] {
      var init := entries[..|entries| - 1];
      assert forall i :: 0 <= i < |init| ==> init[i] == entries[i];
      ApplyKeepsBalance(t, policy, init, intentScore);
      var prev := Apply(t, policy, init, intentScore);
      if prev.outcome.Pass? {
        StepKeepsBalance(prev.traits, policy, entries[|entries| - 1], intentScore);
      }
    }
  }

  /**
   * With distinct trait pairs that are all present, a run passes, leaves the
   * pair of each entry as the reference move of that entry, and leaves every
   * pair that no entry names as it was.
   */
  lemma {:induction false} ApplyExpected(
    t: Traits, policy: Policy, entries: seq<(string, string)>, intentScore: real)
    requires WellFormed(t) && 0.0 <= intentScore <= 1.0 && PolicyInRange(policy)
    requires forall i :: 0 <= i < |entries| ==> entries[i].0 in t
    requires DistinctTraitPairs(entries)
    ensures Apply(t, policy, entries, intentScore).outcome == Pass
    ensures forall i :: 0 <= i < |entries| ==>
      Apply(t, policy, entries, intentScore).traits[entries[i].0] ==
        Expected(t[entries[i].0], policy, entries[i].0, entries[i].1, intentScore)
    ensures forall k :: k in t && (forall i :: 0 <= i < |entries| ==> entries[i].0 != k) ==>
      Apply(t, policy, entries, intentScore).traits[k] == t[k]
  {
    if entries != [] {
      var n := |entries| - 1;
      var init := entries[..n];
      var last := entries[n];
      assert forall i :: 0 <= i < |init| ==> init[i] == entries[i];
      ApplyExpected(t, policy, init, intentScore);
      ApplyKeepsBalance(t, policy, init, intentScore);
      var prev := Apply(t, policy, init, intentScore);
      StepExpected(prev.traits, policy, last, intentScore);
      assert prev.traits[last.0] == t[last.0];
      var r := Apply(t, policy, entries, intentScore);
      assert r == Run(prev.traits[last.0 := Expected(t[last.0], policy, last.0, last.1, intentScore)], Pass);
      forall i | 0 <= i < |entries|
        ensures r.traits[entries[i].0] == Expected(t[entries[i].0], policy, entries[i].0, entries[i].1, intentScore)
      {
        if i < n {
          var e := entries[i];
          assert init[i] == e;
          assert prev.traits[e.0] == Expected(t[e.0], policy, e.0, e.1, intentScore);
          assert e.0 != last.0;
          assert r.traits[e.0] == prev.traits[e.0];
        } else {
          assert entries[i] == last;
        }
      }
      forall k | k in t && (forall i :: 0 <= i < |entries| ==> entries[i].0 != k)
        ensures r.traits[k] == t[k]
      {
        assert last.0 != k;
        assert forall i :: 0 <= i < |init| ==> init[i].0 != k;
      }
    }
  }

  /** An emotion run reads only the scores of the labels its entries name. */
  lemma {:induction false} ApplyReadsOnlyMappedEmotions(
    t: Traits, entries: seq<(string, string)>, intentScore: real,
    emotionVector: map<string, real>, other: map<string, real>)
    requires forall i :: 0 <= i < |entries| ==>
      (entries[i].1 in emotionVector <==> entries[i].1 in other) &&
      (entries[i].1 in emotionVector ==> emotionVector[entries[i].1] == other[entries[i].1])
    ensures Apply(t, EmotionPolicy(emotionVector), entries, intentScore) ==
      Apply(t, EmotionPolicy(other), entries, intentScore)
  {
    if entries != [] {
      var init := entries[..|entries| - 1];
      assert forall i :: 0 <= i < |init| ==> init[i] == entries[i];
      ApplyReadsOnlyMappedEmotions(t, init, intentScore, emotionVector, other);
    }
  }

  /** An emotion run with an empty emotion map changes nothing and passes. */
  lemma {:induction false} ApplyWithoutEmotions(t: Traits, entries: seq<(string, string)>, intentScore: real)
    ensures Apply(t, EmotionPolicy(map[]), entries, intentScore) == Run(t, Pass)
  {
    if entries != [] {
      ApplyWithoutEmotions(t, entries[..|entries| - 1], intentScore);
    }
  }

  /** A run with intent score 0 leaves a balanced table as it was. */
  lemma {:induction false} ApplyWithZeroScore(t: Traits, policy: Policy, entries: seq<(string, string)>)
    requires WellFormed(t)
    ensures Apply(t, policy, entries, 0.0).traits == t
  {
    if entries != [] {
      var init := entries[..|entries| - 1];
      var last := entries[|entries| - 1];
      ApplyWithZeroScore(t, policy, init);
      var prev := Apply(t, policy, init, 0.0);
      if prev.outcome.Pass? && last.0 in t {
        var k := match policy
          case EmotionPolicy(emotionVector) =>
            if last.1 in emotionVector then WeightedScore(0.0, emotionVector[last.1]) else 0.0
          case PersonalityPolicy => 0.0;
        var dir := match policy
          case EmotionPolicy(_) => EmotionDirection(last.0, last.1)
          case PersonalityPolicy => DirectionOf(last.0, last.1);
        MoveBalanced(t, last.0, dir, k);
        MovedByZero(t[last.0], dir);
        assert t[last.0 := t[last.0]] == t;
      }
    }
  }

  // ---------------------------------------------------------------------------
  // The engine
  // ---------------------------------------------------------------------------

  lemma MappingsNameRegisteredPairs()
    ensures forall i :: 0 <= i < |EMOTION_TRAIT_MAPPING| ==> EMOTION_TRAIT_MAPPING[i].0 in TRAIT_PAIRS
    ensures forall i :: 0 <= i < |PERSONALITY_TRAIT_MAPPING| ==> PERSONALITY_TRAIT_MAPPING[i].0 in TRAIT_PAIRS
    ensures DistinctTraitPairs(EMOTION_TRAIT_MAPPING)
    ensures DistinctTraitPairs(PERSONALITY_TRAIT_MAPPING)
  {
  }

  /**
   * With the intent score and every emotion score in [0, 1], every pair stays
   * balanced (sums to 1, both poles in [0, 1]) and the table keeps its trait
   * pairs. No value the engine computes is rejected: the engine can only stop
   * on a missing trait pair, and on a table with all ten pairs it never stops.
   */
  lemma EngineKeepsBalance(t: Traits, mainIntent: string, intentScore: real, emotionVector: map<string, real>)
    requires WellFormed(t) && 0.0 <= intentScore <= 1.0 && ScoresInRange(emotionVector)
    ensures WellFormed(Engine(t, mainIntent, intentScore, emotionVector).traits)
    ensures Engine(t, mainIntent, intentScore, emotionVector).traits.Keys == t.Keys
    ensures Engine(t, mainIntent, intentScore, emotionVector).outcome.Fail? ==>
      Engine(t, mainIntent, intentScore, emotionVector).outcome.error.UnknownTraitPair?
    ensures HasAllTraitPairs(t) ==> Engine(t, mainIntent, intentScore, emotionVector).outcome == Pass
  {
    MappingsNameRegisteredPairs();
    ApplyKeepsBalance(t, EmotionPolicy(emotionVector), EMOTION_TRAIT_MAPPING, intentScore);
    ApplyKeepsBalance(t, PersonalityPolicy, PERSONALITY_TRAIT_MAPPING, intentScore);
  }

  /** The five trait pairs the emotion branch moves. */
  const EMOTION_PAIRS: set<string> :=
    {"Sadness-Joy", "Anger-Fear", "Disgust-Trust", "Anticipation-Surprise", "Static-Dynamic"}

  /** The five trait pairs the personality branch moves. */
  const PERSONALITY_PAIRS: set<string> :=
    {"Negative-Positive", "Aggressive-Peaceful", "Cautious-Open", "Introvert-Extravert", "Insecure-Confident"}

  lemma MappingsCoverPairs()
    ensures forall i :: 0 <= i < |EMOTION_TRAIT_MAPPING| ==> EMOTION_TRAIT_MAPPING[i].0 in EMOTION_PAIRS
    ensures forall i :: 0 <= i < |PERSONALITY_TRAIT_MAPPING| ==> PERSONALITY_TRAIT_MAPPING[i].0 in PERSONALITY_PAIRS
    ensures forall i :: 0 <= i < |PERSONALITY_TRAIT_MAPPING| ==> PERSONALITY_TRAIT_MAPPING[i].1 != ""
  {
  }

  /**
   * An emotion step moves a balanced pair by the intent score times the
   * emotion's score; an emotion the classifier did not report counts as 0.
   */
  lemma EmotionAxis(
    t: Traits, after: Traits, emotionVector: map<string, real>,
    traitPair: string, emotion: string, intentScore: real, dir: Direction)
    requires traitPair in t && Balanced(t[traitPair]) && traitPair in after
    requires after[traitPair] == Expected(t[traitPair], EmotionPolicy(emotionVector), traitPair, emotion, intentScore)
    requires EmotionDirection(traitPair, emotion) == dir
    ensures after[traitPair] == Moved(t[traitPair], dir, intentScore * ScoreOf(emotionVector, emotion))
  {
    var v := t[traitPair];
    if emotion !in emotionVector {
      assert after[traitPair] == v;
      UnreportedEmotionMove(v, dir, intentScore, emotionVector, emotion);
    } else {
      assert after[traitPair] == Moved(v, dir, WeightedScore(intentScore, emotionVector[emotion]));
      ReportedEmotionWeight(intentScore, emotionVector, emotion);
    }
  }

  /** A reported emotion weighs the intent score by its own score. */
  lemma ReportedEmotionWeight(intentScore: real, emotionVector: map<string, real>, emotion: string)
    requires emotion in emotionVector
    ensures WeightedScore(intentScore, emotionVector[emotion]) == intentScore * ScoreOf(emotionVector, emotion)
  {
    assert ScoreOf(emotionVector, emotion) == emotionVector[emotion];
  }

  /** An emotion the classifier did not report moves a balanced pair by zero. */
  lemma UnreportedEmotionMove(v: Pair, dir: Direction, intentScore: real, emotionVector: map<string, real>, emotion: string)
    requires Balanced(v) && emotion !in emotionVector
    ensures Moved(v, dir, intentScore * ScoreOf(emotionVector, emotion)) == v
  {
    assert intentScore * ScoreOf(emotionVector, emotion) == 0.0;
    MovedByZero(v, dir);
  }

  /** `after` holds the pair of `traitPair` in `before`, moved in `dir` by `k`. */
  predicate MovedIn(before: Traits, after: Traits, traitPair: string, dir: Direction, k: real) {
    traitPair in before && traitPair in after && after[traitPair] == Moved(before[traitPair], dir, k)
  }

  /** A personality step with a non-empty keyword moves its pair by the intent score. */
  lemma PersonalityAxis(t: Traits, after: Traits, traitPair: string, keyword: string, intentScore: real)
    requires traitPair in t && traitPair in after && keyword != ""
    requires after[traitPair] == Expected(t[traitPair], PersonalityPolicy, traitPair, keyword, intentScore)
    ensures MovedIn(t, after, traitPair, DirectionOf(traitPair, keyword), intentScore)
  {
  }

  /**
   * An emotion intent moves each of the five emotion pairs by the intent
   * score times its emotion's score (0 when the emotion is absent), in the
   * direction its emotion names, and leaves every other pair as it was.
   */
  lemma EmotionIntentEffect(t: Traits, mainIntent: string, intentScore: real, emotionVector: map<string, real>)
    requires mainIntent in INTENT_LABELS_EMOTION
    requires WellFormed(t) && HasAllTraitPairs(t) && 0.0 <= intentScore <= 1.0 && ScoresInRange(emotionVector)
    ensures Engine(t, mainIntent, intentScore, emotionVector).outcome == Pass
    ensures forall i :: 0 <= i < |EMOTION_TRAIT_MAPPING| ==>
      var (traitPair, emotion) := EMOTION_TRAIT_MAPPING[i];
      MovedIn(t, Engine(t, mainIntent, intentScore, emotionVector).traits, traitPair,
        EmotionDirection(traitPair, emotion), intentScore * ScoreOf(emotionVector, emotion))
    ensures forall i :: 0 <= i < |EMOTION_TRAIT_MAPPING| && EMOTION_TRAIT_MAPPING[i].1 !in emotionVector ==>
      Engine(t, mainIntent, intentScore, emotionVector).traits[EMOTION_TRAIT_MAPPING[i].0] == t[EMOTION_TRAIT_MAPPING[i].0]
    ensures forall k :: k in t && k !in EMOTION_PAIRS ==>
      Engine(t, mainIntent, intentScore, emotionVector).traits[k] == t[k]
  {
    var m := EMOTION_TRAIT_MAPPING;
    MappingsNameRegisteredPairs();
    MappingsCoverPairs();
    ApplyExpected(t, EmotionPolicy(emotionVector), m, intentScore);
    var r := Engine(t, mainIntent, intentScore, emotionVector).traits;
    forall i | 0 <= i < |m|
      ensures MovedIn(t, r, m[i].0, EmotionDirection(m[i].0, m[i].1), intentScore * ScoreOf(emotionVector, m[i].1))
    {
      EmotionAxis(t, r, emotionVector, m[i].0, m[i].1, intentScore, EmotionDirection(m[i].0, m[i].1));
      if m[i].1 !in emotionVector {
        MovedByZero(t[m[i].0], EmotionDirection(m[i].0, m[i].1));
      }
    }
  }

  /** The effect of an emotion intent on the pair of mapping entry `i`. */
  lemma EmotionEntryEffect(t: Traits, mainIntent: string, intentScore: real, emotionVector: map<string, real>, i: nat)
    requires mainIntent in INTENT_LABELS_EMOTION && i < |EMOTION_TRAIT_MAPPING|
    requires WellFormed(t) && HasAllTraitPairs(t) && 0.0 <= intentScore <= 1.0 && ScoresInRange(emotionVector)
    ensures Engine(t, mainIntent, intentScore, emotionVector).outcome == Pass
    ensures var entry := EMOTION_TRAIT_MAPPING[i];
      MovedIn(t, Engine(t, mainIntent, intentScore, emotionVector).traits, entry.0,
        EmotionDirection(entry.0, entry.1), intentScore * ScoreOf(emotionVector, entry.1))
  {
    EmotionIntentEffect(t, mainIntent, intentScore, emotionVector);
  }

  /** The first emotion entry is ("Sadness-Joy", "joy"), and joy lowers sadness. */
  lemma FirstEmotionEntryLowers()
    ensures EMOTION_TRAIT_MAPPING[0] == ("Sadness-Joy", "joy")
    ensures EmotionDirection(EMOTION_TRAIT_MAPPING[0].0, EMOTION_TRAIT_MAPPING[0].1) == LowerFirst
  {
    assert EMOTION_TRAIT_MAPPING[0] == ("Sadness-Joy", "joy");
    JoyLowersSadness();
  }

  /** The pair of mapping entry `i` stays as it is when its emotion was not reported. */
  lemma AbsentEmotionKeepsPair(t: Traits, mainIntent: string, intentScore: real, emotionVector: map<string, real>, i: nat)
    requires mainIntent in INTENT_LABELS_EMOTION && i < |EMOTION_TRAIT_MAPPING|
    requires WellFormed(t) && HasAllTraitPairs(t) && 0.0 <= intentScore <= 1.0 && ScoresInRange(emotionVector)
    requires EMOTION_TRAIT_MAPPING[i].1 !in emotionVector
    ensures EMOTION_TRAIT_MAPPING[i].0 in t
    ensures Engine(t, mainIntent, intentScore, emotionVector).traits[EMOTION_TRAIT_MAPPING[i].0] == t[EMOTION_TRAIT_MAPPING[i].0]
  {
    EmotionIntentEffect(t, mainIntent, intentScore, emotionVector);
  }

  /** An emotion intent leaves the five personality pairs as they are. */
  lemma EmotionIntentKeepsOtherPairs(t: Traits, mainIntent: string, intentScore: real, emotionVector: map<string, real>)
    requires mainIntent in INTENT_LABELS_EMOTION
    requires WellFormed(t) && HasAllTraitPairs(t) && 0.0 <= intentScore <= 1.0 && ScoresInRange(emotionVector)
    ensures forall k :: k in t && k !in EMOTION_PAIRS ==>
      Engine(t, mainIntent, intentScore, emotionVector).traits[k] == t[k]
  {
    EmotionIntentEffect(t, mainIntent, intentScore, emotionVector);
  }

  /**
   * A personality intent moves each of the five personality pairs by the
   * intent score, in the direction its keyword names, and leaves every other
   * pair as it was.
   */
  lemma PersonalityIntentEffect(t: Traits, mainIntent: string, intentScore: real, emotionVector: map<string, real>)
    requires mainIntent in INTENT_LABELS_PERSONALITY
    requires WellFormed(t) && HasAllTraitPairs(t) && 0.0 <= intentScore <= 1.0
    ensures Engine(t, mainIntent, intentScore, emotionVector).outcome == Pass
    ensures forall i :: 0 <= i < |PERSONALITY_TRAIT_MAPPING| ==>
      var (traitPair, keyword) := PERSONALITY_TRAIT_MAPPING[i];
      MovedIn(t, Engine(t, mainIntent, intentScore, emotionVector).traits, traitPair,
        DirectionOf(traitPair, keyword), intentScore)
    ensures forall k :: k in t && k !in PERSONALITY_PAIRS ==>
      Engine(t, mainIntent, intentScore, emotionVector).traits[k] == t[k]
  {
    var m := PERSONALITY_TRAIT_MAPPING;
    IntentListsDisjoint();
    MappingsNameRegisteredPairs();
    MappingsCoverPairs();
    ApplyExpected(t, PersonalityPolicy, m, intentScore);
    var r := Engine(t, mainIntent, intentScore, emotionVector).traits;
    forall i | 0 <= i < |m| ensures MovedIn(t, r, m[i].0, DirectionOf(m[i].0, m[i].1), intentScore) {
      PersonalityAxis(t, r, m[i].0, m[i].1, intentScore);
    }
  }

  /** A personality intent does not read the emotion map. */
  lemma PersonalityIgnoresEmotions(
    t: Traits, mainIntent: string, intentScore: real, emotionVector: map<string, real>, other: map<string, real>)
    requires mainIntent in INTENT_LABELS_PERSONALITY
    ensures Engine(t, mainIntent, intentScore, emotionVector) == Engine(t, mainIntent, intentScore, other)
  {
    IntentListsDisjoint();
  }

  /** A neutral intent changes nothing and raises nothing, whatever the scores. */
  lemma NeutralIntentIsNoOp(t: Traits, mainIntent: string, intentScore: real, emotionVector: map<string, real>)
    requires mainIntent in INTENT_LABELS_NEUTRAL
    ensures Engine(t, mainIntent, intentScore, emotionVector) == Run(t, Pass)
  {
    IntentListsDisjoint();
  }

  /**
   * Emotion labels outside "joy", "anger", "disgust", "surprise" and "neutral"
   * (such as "sadness" or "fear") have no effect on any pair.
   */
  lemma UnmappedEmotionsIgnored(
    t: Traits, mainIntent: string, intentScore: real, emotionVector: map<string, real>,
    emotion: string, score: real)
    requires emotion !in MAPPED_EMOTIONS
    ensures Engine(t, mainIntent, intentScore, emotionVector[emotion := score]) ==
      Engine(t, mainIntent, intentScore, emotionVector)
  {
    ApplyReadsOnlyMappedEmotions(t, EMOTION_TRAIT_MAPPING, intentScore, emotionVector[emotion := score], emotionVector);
  }

  /** An empty emotion map makes an emotion intent a no-op. */
  lemma NoEmotionsIsNoOp(t: Traits, mainIntent: string, intentScore: real)
    requires mainIntent in INTENT_LABELS_EMOTION
    ensures Engine(t, mainIntent, intentScore, map[]) == Run(t, Pass)
  {
    ApplyWithoutEmotions(t, EMOTION_TRAIT_MAPPING, intentScore);
  }

  /** An intent score of 0 leaves a balanced table exactly as it was. */
  lemma ZeroScoreIsNoOp(t: Traits, mainIntent: string, emotionVector: map<string, real>)
    requires WellFormed(t)
    ensures Engine(t, mainIntent, 0.0, emotionVector).traits == t
  {
    ApplyWithZeroScore(t, EmotionPolicy(emotionVector), EMOTION_TRAIT_MAPPING);
    ApplyWithZeroScore(t, PersonalityPolicy, PERSONALITY_TRAIT_MAPPING);
  }

  // ---------------------------------------------------------------------------
  // Worked examples
  // ---------------------------------------------------------------------------

  /**
   * "express_emotion_towards_character" with score 0.8 and {"joy": 0.6} moves
   * a Sadness-Joy of (0.5, 0.5) to (0.26, 0.74): sadness falls by
   * 0.8 * 0.6 * 0.5 and joy rises by as much. No other pair changes.
   */
  lemma JoyExample(t: Traits, mainIntent: string, intentScore: real, emotionVector: map<string, real>)
    requires WellFormed(t) && HasAllTraitPairs(t) && "Sadness-Joy" in t && t["Sadness-Joy"] == (0.5, 0.5)
    requires mainIntent in INTENT_LABELS_EMOTION
    requires intentScore == 0.8 && emotionVector == map["joy" := 0.6]
    ensures Engine(t, mainIntent, intentScore, emotionVector).outcome == Pass
    ensures Engine(t, mainIntent, intentScore, emotionVector).traits == t["Sadness-Joy" := (0.26, 0.74)]
  {
    JoySadnessValue(t, mainIntent, intentScore, emotionVector);
    OnlyJoyMoves(t, mainIntent, intentScore, emotionVector);
    OnlyPairChanged(t, Engine(t, mainIntent, intentScore, emotionVector).traits, "Sadness-Joy", (0.26, 0.74));
  }

  /** The Sadness-Joy pair of `JoyExample`. */
  lemma JoySadnessValue(t: Traits, mainIntent: string, intentScore: real, emotionVector: map<string, real>)
    requires WellFormed(t) && HasAllTraitPairs(t) && "Sadness-Joy" in t && t["Sadness-Joy"] == (0.5, 0.5)
    requires mainIntent in INTENT_LABELS_EMOTION
    requires intentScore == 0.8 && emotionVector == map["joy" := 0.6]
    ensures Engine(t, mainIntent, intentScore, emotionVector).outcome == Pass
    ensures Engine(t, mainIntent, intentScore, emotionVector).traits["Sadness-Joy"] == (0.26, 0.74)
  {
    EmotionEntryEffect(t, mainIntent, intentScore, emotionVector, 0);
    FirstEmotionEntryLowers();
    assert ScoreOf(emotionVector, "joy") == 0.6;
    JoyMove(intentScore, ScoreOf(emotionVector, "joy"));
  }

  /** A table that differs from `t` at most in `key` is `t` with `key` updated. */
  lemma OnlyPairChanged(t: Traits, r: Traits, key: string, v: Pair)
    requires r.Keys == t.Keys && key in r && r[key] == v
    requires forall k :: k in t && k != key ==> r[k] == t[k]
    ensures r == t[key := v]
  {
  }

  /** Lowering sadness in a (0.5, 0.5) pair by 0.8 * 0.6 gives (0.26, 0.74). */
  lemma JoyMove(intentScore: real, joyScore: real)
    requires intentScore == 0.8 && joyScore == 0.6
    ensures Moved((0.5, 0.5), LowerFirst, intentScore * joyScore) == (0.26, 0.74)
  {
  }

  /** `JoyExample` from the default personality: every other pair stays (0.5, 0.5). */
  lemma DefaultJoyExample(t: Traits)
    requires t == InitialTraits(None)
    ensures Engine(t, "express_emotion_towards_character", 0.8, map["joy" := 0.6]) ==
      Run(t["Sadness-Joy" := (0.26, 0.74)], Pass)
  {
    DefaultIsBalanced();
    assert INTENT_LABELS_EMOTION[0] == "express_emotion_towards_character";
    assert TRAIT_PAIRS[0] == "Sadness-Joy";
    assert "Sadness-Joy" in t;
    JoyExample(t, "express_emotion_towards_character", 0.8, map["joy" := 0.6]);
  }

  /** With only "joy" reported, an emotion intent moves no pair but Sadness-Joy. */
  lemma OnlyJoyMoves(t: Traits, mainIntent: string, intentScore: real, emotionVector: map<string, real>)
    requires mainIntent in INTENT_LABELS_EMOTION
    requires WellFormed(t) && HasAllTraitPairs(t) && 0.0 <= intentScore <= 1.0 && ScoresInRange(emotionVector)
    requires emotionVector.Keys == {"joy"}
    ensures forall k :: k in t && k != "Sadness-Joy" ==> Engine(t, mainIntent, intentScore, emotionVector).traits[k] == t[k]
  {
    var r := Engine(t, mainIntent, intentScore, emotionVector).traits;
    var m := EMOTION_TRAIT_MAPPING;
    forall k | k in t && k != "Sadness-Joy" ensures r[k] == t[k] {
      if k == "Anger-Fear" {
        assert m[1] == (k, "anger");
        AbsentEmotionKeepsPair(t, mainIntent, intentScore, emotionVector, 1);
      } else if k == "Disgust-Trust" {
        assert m[2] == (k, "disgust");
        AbsentEmotionKeepsPair(t, mainIntent, intentScore, emotionVector, 2);
      } else if k == "Anticipation-Surprise" {
        assert m[3] == (k, "surprise");
        AbsentEmotionKeepsPair(t, mainIntent, intentScore, emotionVector, 3);
      } else if k == "Static-Dynamic" {
        assert m[4] == (k, "neutral");
        AbsentEmotionKeepsPair(t, mainIntent, intentScore, emotionVector, 4);
      } else {
        EmotionIntentKeepsOtherPairs(t, mainIntent, intentScore, emotionVector);
      }
    }
  }

  /**
   * Any personality intent with score 0.9 moves each personality pair that
   * stands at (0.5, 0.5) to (0.05, 0.95); no other pair changes.
   */
  lemma PersonalityExample(t: Traits, mainIntent: string, intentScore: real, emotionVector: map<string, real>)
    requires mainIntent in INTENT_LABELS_PERSONALITY && intentScore == 0.9
    requires WellFormed(t) && HasAllTraitPairs(t)
    requires forall i :: 0 <= i < |PERSONALITY_TRAIT_MAPPING| ==>
      PERSONALITY_TRAIT_MAPPING[i].0 in t && t[PERSONALITY_TRAIT_MAPPING[i].0] == (0.5, 0.5)
    ensures Engine(t, mainIntent, intentScore, emotionVector).outcome == Pass
    ensures forall i :: 0 <= i < |PERSONALITY_TRAIT_MAPPING| ==>
      Engine(t, mainIntent, intentScore, emotionVector).traits[PERSONALITY_TRAIT_MAPPING[i].0] == (0.05, 0.95)
    ensures forall k :: k in t && k !in PERSONALITY_PAIRS ==> Engine(t, mainIntent, intentScore, emotionVector).traits[k] == t[k]
  {
    PersonalityIntentEffect(t, mainIntent, intentScore, emotionVector);
    PersonalityDirections();
    assert Moved((0.5, 0.5), LowerFirst, 0.9) == (0.05, 0.95);
  }

  /** `PersonalityExample` from the default personality. */
  lemma DefaultPersonalityExample(t: Traits, mainIntent: string, emotionVector: map<string, real>)
    requires t == InitialTraits(None) && mainIntent in INTENT_LABELS_PERSONALITY
    ensures Engine(t, mainIntent, 0.9, emotionVector).outcome == Pass
    ensures forall i :: 0 <= i < |PERSONALITY_TRAIT_MAPPING| ==>
      && PERSONALITY_TRAIT_MAPPING[i].0 in Engine(t, mainIntent, 0.9, emotionVector).traits
      && Engine(t, mainIntent, 0.9, emotionVector).traits[PERSONALITY_TRAIT_MAPPING[i].0] == (0.05, 0.95)
    ensures forall k :: k in t && k !in PERSONALITY_PAIRS ==> Engine(t, mainIntent, 0.9, emotionVector).traits[k] == (0.5, 0.5)
  {
    DefaultIsBalanced();
    MappingsNameRegisteredPairs();
    PersonalityExample(t, mainIntent, 0.9, emotionVector);
  }

  /**
   * The engine does not clamp. With score 1 and {"joy": 0.5, "anger": 3},
   * Sadness-Joy is first moved from (0.5, 0.5) to (0.25, 0.75); Anger-Fear's
   * new value 0.5 + 3 * (1 - 0.5) = 2 is then rejected, the update stops,
   * and the Sadness-Joy change stays.
   */
  lemma UnclampedValueRejected(t: Traits, mainIntent: string, intentScore: real, emotionVector: map<string, real>)
    requires mainIntent in INTENT_LABELS_EMOTION && intentScore == 1.0
    requires emotionVector == map["joy" := 0.5, "anger" := 3.0]
    requires "Sadness-Joy" in t && t["Sadness-Joy"] == (0.5, 0.5)
    requires "Anger-Fear" in t && t["Anger-Fear"] == (0.5, 0.5)
    ensures Engine(t, mainIntent, intentScore, emotionVector) ==
      Run(t["Sadness-Joy" := (0.25, 0.75)], Fail(ValueOutOfRange(2.0)))
  {
    var policy := EmotionPolicy(emotionVector);
    var m := EMOTION_TRAIT_MAPPING;
    var after := t["Sadness-Joy" := (0.25, 0.75)];
    assert m[..0] == [];
    assert m[0] == ("Sadness-Joy", "joy") && m[1] == ("Anger-Fear", "anger");
    ApplyExtend(t, policy, m, intentScore, 0);
    JoyStep(t, emotionVector);
    assert Apply(t, policy, m[..1], intentScore) == Run(after, Pass);
    ApplyExtend(t, policy, m, intentScore, 1);
    AngerStep(after, emotionVector);
    assert Apply(t, policy, m[..2], intentScore) == Run(after, Fail(ValueOutOfRange(2.0)));
    ApplyStopsAfterFailure(t, policy, m, intentScore, 2);
  }

  /** "joy" at 0.5 with score 1 lowers a Sadness-Joy of (0.5, 0.5) to (0.25, 0.75). */
  lemma JoyStep(t: Traits, emotionVector: map<string, real>)
    requires emotionVector == map["joy" := 0.5, "anger" := 3.0]
    requires "Sadness-Joy" in t && t["Sadness-Joy"] == (0.5, 0.5)
    ensures Step(t, EmotionPolicy(emotionVector), ("Sadness-Joy", "joy"), 1.0) ==
      Ok(t["Sadness-Joy" := (0.25, 0.75)])
  {
    JoyLowersSadness();
    assert WeightedScore(1.0, 0.5) == 0.5;
    assert CalculateChange(0.5, 0.5) == 0.25;
  }

  /** "anger" at 3 with score 1 asks for a first pole of 2, which is rejected. */
  lemma AngerStep(t: Traits, emotionVector: map<string, real>)
    requires emotionVector == map["joy" := 0.5, "anger" := 3.0]
    requires "Anger-Fear" in t && t["Anger-Fear"] == (0.5, 0.5)
    ensures Step(t, EmotionPolicy(emotionVector), ("Anger-Fear", "anger"), 1.0) == Err(ValueOutOfRange(2.0))
  {
    AngerRaisesAnger();
    assert WeightedScore(1.0, 3.0) == 3.0;
    assert CalculateChange(0.5, 3.0) == 1.5;
  }

  /**
   * A supplied pair that already sums to 1 is stored as it is, even with a
   * pole outside [0, 1].
   */
  lemma UnbalancedPairKept(traits: Traits)
    requires traits == map["Anger-Fear" := (2.0, -1.0)]
    ensures InitialTraits(Some(traits)) == traits
  {
    assert NormalizePair((2.0, -1.0)) == (2.0, -1.0);
  }

  /**
   * The balance needs a well-formed table. From Anger-Fear at (2, -1),
   * "anger" at 0.5 with score 1 asks for 2 + 0.5 * (1 - 2) = 1.5, which is
   * rejected, and the table stays as it was.
   */
  lemma UnbalancedTableRejected(t: Traits, mainIntent: string, emotionVector: map<string, real>)
    requires "Anger-Fear" in t && t["Anger-Fear"] == (2.0, -1.0)
    requires mainIntent in INTENT_LABELS_EMOTION && emotionVector == map["anger" := 0.5]
    ensures Engine(t, mainIntent, 1.0, emotionVector) == Run(t, Fail(ValueOutOfRange(1.5)))
  {
    var policy := EmotionPolicy(emotionVector);
    var m := EMOTION_TRAIT_MAPPING;
    assert m[..0] == [];
    assert m[0] == ("Sadness-Joy", "joy") && m[1] == ("Anger-Fear", "anger");
    ApplyExtend(t, policy, m, 1.0, 0);
    assert Apply(t, policy, m[..1], 1.0) == Run(t, Pass);
    ApplyExtend(t, policy, m, 1.0, 1);
    UnbalancedAngerStep(t, emotionVector);
    assert Apply(t, policy, m[..2], 1.0) == Run(t, Fail(ValueOutOfRange(1.5)));
    ApplyStopsAfterFailure(t, policy, m, 1.0, 2);
  }

  /** "anger" at 0.5 with score 1 asks for a first pole of 1.5 on a pair at (2, -1). */
  lemma UnbalancedAngerStep(t: Traits, emotionVector: map<string, real>)
    requires "Anger-Fear" in t && t["Anger-Fear"] == (2.0, -1.0) && emotionVector == map["anger" := 0.5]
    ensures Step(t, EmotionPolicy(emotionVector), ("Anger-Fear", "anger"), 1.0) == Err(ValueOutOfRange(1.5))
  {
    AngerRaisesAnger();
    assert WeightedScore(1.0, 0.5) == 0.5;
    assert CalculateChange(2.0, 0.5) == -0.5;
  }
}
