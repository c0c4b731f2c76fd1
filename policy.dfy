/**
 * The update policy: one classified utterance (a main intent label, its
 * confidence score and a map from emotion label to score) is turned into
 * in-place updates of up to five trait pairs of a `Personality`.
 *
 * The classifiers that produce the intent and the emotion map are not part of
 * this model; their outputs are parameters of the engine.
 */
module UpdatePolicy {
  import opened PersonalityState

  /** Intents that move the five emotion pairs. */
  const INTENT_LABELS_EMOTION: seq<string> := [
    "express_emotion_towards_character",
    "seek_emotional_support",
    "praise_character",
    "criticize_character",
    "share_personal_emotion",
    "encourage_character",
    "blame_character",
    "show_sympathy_for_character"
  ]

  /** Intents that move the five personality pairs. */
  const INTENT_LABELS_PERSONALITY: seq<string> := [
    "challenge_character_belief",
    "suggest_personality_change",
    "reinforce_character_trait",
    "request_character_reflection",
    "encourage_personal_growth",
    "highlight_flaws_in_character",
    "propose_new_interest"
  ]

  /** Intents that move nothing. */
  const INTENT_LABELS_NEUTRAL: seq<string> := [
    "ask_about_character_background",
    "request_factual_information",
    "confirm_character_action",
    "ask_for_progress_update",
    "seek_instruction",
    "inquire_about_preferences",
    "ask_for_story_continuation",
    "explore_hypothetical_scenario"
  ]

  /** Trait pair and the emotion keyword that drives it, in iteration order. */
  const EMOTION_TRAIT_MAPPING: seq<(string, string)> := [
    ("Sadness-Joy", "joy"),
    ("Anger-Fear", "anger"),
    ("Disgust-Trust", "disgust"),
    ("Anticipation-Surprise", "surprise"),
    ("Static-Dynamic", "neutral")
  ]

  /** Trait pair and the personality keyword that drives it, in iteration order. */
  const PERSONALITY_TRAIT_MAPPING: seq<(string, string)> := [
    ("Negative-Positive", "positive"),
    ("Aggressive-Peaceful", "peaceful"),
    ("Cautious-Open", "open"),
    ("Introvert-Extravert", "extravert"),
    ("Insecure-Confident", "confident")
  ]

  /**
   * Diminishing returns: the change applied to a pole whose current value is
   * `currentValue`; the closer the pole is to 1, the smaller the change.
   */
  function CalculateChange(currentValue: real, baseChange: real): (r: real)
    ensures baseChange == 0.0 || currentValue == 1.0 ==> r == 0.0
    ensures 0.0 <= baseChange <= 1.0 && currentValue <= 1.0 ==> 0.0 <= r <= 1.0 - currentValue
  {
    baseChange * (1.0 - currentValue)
  }

  /** ASCII lower-casing of one character. */
  function LowerChar(c: char): char {
    if 'A' <= c <= 'Z' then (c as int - 'A' as int + 'a' as int) as char else c
  }

  /**
   * Lower-cases every character of `s`: no upper-case ASCII letter is left,
   * each one becomes its lower-case letter, and every other character stays.
   */
  function Lower(s: string): (r: string)
    ensures |r| == |s|
    ensures forall i :: 0 <= i < |r| ==> !('A' <= r[i] <= 'Z')
    ensures forall i :: 0 <= i < |s| && 'A' <= s[i] <= 'Z' ==> r[i] as int == s[i] as int + 32
    ensures forall i :: 0 <= i < |s| && !('A' <= s[i] <= 'Z') ==> r[i] == s[i]
  {
    seq(|s|, i requires 0 <= i < |s| => LowerChar(s[i]))
  }

  /** The index of the first '-' at or after `i`, or |s| when there is none. */
  function HyphenFrom(s: string, i: nat): (j: nat)
    requires i <= |s|
    ensures i <= j <= |s|
    ensures j < |s| ==> s[j] == '-'
    ensures forall k :: i <= k < j ==> s[k] != '-'
    decreases |s| - i
  {
    if i == |s| || s[i] == '-' then i else HyphenFrom(s, i + 1)
  }

  /** The two pole names of a trait pair name such as "Sadness-Joy". */
  function SplitPair(traitPair: string): (r: (string, string))
    ensures '-' in traitPair ==> traitPair == r.0 + "-" + r.1 && '-' !in r.0
    ensures '-' !in traitPair ==> r == (traitPair, "")
  {
    var i := HyphenFrom(traitPair, 0);
    if i < |traitPair| then
      assert traitPair == traitPair[..i] + "-" + traitPair[i + 1..];
      (traitPair[..i], traitPair[i + 1..])
    else
      (traitPair, "")
  }

  /** Which pole of a trait pair a keyword names, compared without case. */
  datatype Direction = RaiseFirst | LowerFirst | NoMatch

  function DirectionOf(traitPair: string, keyword: string): Direction {
    var (trait1, trait2) := SplitPair(traitPair);
    if Lower(keyword) == Lower(trait1) then RaiseFirst
    else if Lower(keyword) == Lower(trait2) then LowerFirst
    else NoMatch
  }

  /** The branch the main intent selects, with the data that branch reads. */
  datatype Policy = EmotionPolicy(emotionVector: map<string, real>) | PersonalityPolicy

  /** The table after a sequence of steps, and whether a step raised. */
  datatype Run = Run(traits: Traits, outcome: Outcome)

  /**
   * Reads one pair and, if the keyword names one of its poles, stores the
   * moved first-pole value: raised by the change seeded from the first pole,
   * or lowered by the change seeded from the second pole.
   */
  function Move(t: Traits, traitPair: string, dir: Direction, base: real): (r: Result<Traits>)
    ensures traitPair !in t ==> r == Err(UnknownTraitPair(traitPair))
    ensures traitPair in t && dir == NoMatch ==> r == Ok(t)
    ensures r.Ok? ==> r.value.Keys == t.Keys
    ensures r.Ok? ==> forall k :: k in t && k != traitPair ==> r.value[k] == t[k]
  {
    match TraitValue(t, traitPair)
    case Err(e) => Err(e)
    case Ok(traitValue) =>
      match dir
      case RaiseFirst =>
        SetPole(t, traitPair, traitValue.0 + CalculateChange(traitValue.0, base))
      case LowerFirst =>
        SetPole(t, traitPair, traitValue.0 - CalculateChange(traitValue.1, base))
      case NoMatch => Ok(t)
  }

  /** Unfolds `Move` at `RaiseFirst`; a proof step for `MovePole`. */
  lemma MoveRaises(t: Traits, traitPair: string, base: real)
    requires traitPair in t
    ensures Move(t, traitPair, RaiseFirst, base) ==
      SetPole(t, traitPair, t[traitPair].0 + CalculateChange(t[traitPair].0, base))
  {
  }

  /** Unfolds `Move` at `LowerFirst`; a proof step for `MovePole`. */
  lemma MoveLowers(t: Traits, traitPair: string, base: real)
    requires traitPair in t
    ensures Move(t, traitPair, LowerFirst, base) ==
      SetPole(t, traitPair, t[traitPair].0 - CalculateChange(t[traitPair].1, base))
  {
  }

  /**
   * The pole an emotion label moves: "neutral" always raises the first pole
   * of "Static-Dynamic"; every other label is matched against the pole names.
   */
  function EmotionDirection(traitPair: string, emotion: string): Direction {
    if traitPair == "Static-Dynamic" && emotion == "neutral" then RaiseFirst
    else DirectionOf(traitPair, emotion)
  }

  /** The base change of an emotion step: the intent score weighted by the emotion score. */
  function WeightedScore(intentScore: real, emotionScore: real): real {
    intentScore * emotionScore
  }

  /** One iteration of either mapping loop. */
  function Step(t: Traits, policy: Policy, entry: (string, string), intentScore: real): Result<Traits> {
    var traitPair := entry.0;
    var keyword := entry.1;
    match policy
    case EmotionPolicy(emotionVector) =>
      if keyword !in emotionVector then Ok(t)
      else Move(t, traitPair, EmotionDirection(traitPair, keyword), WeightedScore(intentScore, emotionVector[keyword]))
    case PersonalityPolicy =>
      if keyword == "" then Ok(t)
      else Move(t, traitPair, DirectionOf(traitPair, keyword), intentScore)
  }

  /**
   * The entries applied in order. The first step that raises ends the run;
   * the steps before it keep their effect.
   */
  function Apply(t: Traits, policy: Policy, entries: seq<(string, string)>, intentScore: real): (r: Run)
    ensures r.traits.Keys == t.Keys
  {
    if entries == [] then Run(t, Pass)
    else
      var prev := Apply(t, policy, entries[..|entries| - 1], intentScore);
      if prev.outcome.Fail? then prev
      else
        match Step(prev.traits, policy, entries[|entries| - 1], intentScore)
        case Ok(next) => Run(next, Pass)
        case Err(e) => Run(prev.traits, Fail(e))
  }

  /** The emotion branch: every entry of `EMOTION_TRAIT_MAPPING` in order. */
  function EmotionBranch(t: Traits, intentScore: real, emotionVector: map<string, real>): Run {
    Apply(t, EmotionPolicy(emotionVector), EMOTION_TRAIT_MAPPING, intentScore)
  }

  /** The personality branch: every entry of `PERSONALITY_TRAIT_MAPPING` in order. */
  function PersonalityBranch(t: Traits, intentScore: real): Run {
    Apply(t, PersonalityPolicy, PERSONALITY_TRAIT_MAPPING, intentScore)
  }

  /** The whole trait-update branch for one classified utterance. */
  function Engine(t: Traits, mainIntent: string, intentScore: real, emotionVector: map<string, real>): (r: Run)
    ensures mainIntent !in INTENT_LABELS_EMOTION && mainIntent !in INTENT_LABELS_PERSONALITY ==>
      r == Run(t, Pass)
    ensures r.traits.Keys == t.Keys
  {
    if mainIntent in INTENT_LABELS_EMOTION then
      EmotionBranch(t, intentScore, emotionVector)
    else if mainIntent in INTENT_LABELS_PERSONALITY then
      PersonalityBranch(t, intentScore)
    else
      Run(t, Pass)
  }

  /** The result of a step as it reaches the caller: the outcome and the table. */
  function Settle(before: Traits, r: Result<Traits>): Run {
    if r.Ok? then Run(r.value, Pass) else Run(before, Fail(r.error))
  }

  /** A run that has passed its first `i` entries goes on with the step of entry `i`. */
  lemma ApplyExtend(t: Traits, policy: Policy, entries: seq<(string, string)>, intentScore: real, i: nat)
    requires i < |entries|
    requires Apply(t, policy, entries[..i], intentScore).outcome == Pass
    ensures var prev := Apply(t, policy, entries[..i], intentScore).traits;
      Apply(t, policy, entries[..i + 1], intentScore) ==
        Settle(prev, Step(prev, policy, entries[i], intentScore))
  {
    assert entries[..i + 1][..i] == entries[..i];
  }

  /** Once a run has failed, later entries do not change it. */
  lemma {:induction false} ApplyStopsAfterFailure(
    t: Traits, policy: Policy, entries: seq<(string, string)>, intentScore: real, i: nat)
    requires i <= |entries|
    requires Apply(t, policy, entries[..i], intentScore).outcome.Fail?
    ensures Apply(t, policy, entries, intentScore) == Apply(t, policy, entries[..i], intentScore)
    decreases |entries| - i
  {
    if i < |entries| {
      var longer := entries[..i + 1];
      assert longer[..i] == entries[..i];
      ApplyStopsAfterFailure(t, policy, entries, intentScore, i + 1);
    } else {
      assert entries[..i] == entries;
    }
  }

  /**
   * Reads one pair and stores its moved first-pole value on the avatar's
   * personality; the in-place counterpart of `Move`.
   */
  method MovePole(personality: Personality, traitPair: string, dir: Direction, base: real)
    returns (out: Outcome)
    modifies personality
    ensures Run(personality.traits, out) ==
      Settle(old(personality.traits), Move(old(personality.traits), traitPair, dir, base))
  {
    ghost var before := personality.traits;
    var traitValue := personality.GetTraitValue(traitPair);
    if traitValue.Err? {
      return Fail(traitValue.error);
    }
    match dir
    case RaiseFirst =>
      var updatedValue := traitValue.value.0 + CalculateChange(traitValue.value.0, base);
      MoveRaises(before, traitPair, base);
      out := personality.UpdateTraitPair(traitPair, updatedValue);
    case LowerFirst =>
      var updatedValue := traitValue.value.0 - CalculateChange(traitValue.value.1, base);
      MoveLowers(before, traitPair, base);
      out := personality.UpdateTraitPair(traitPair, updatedValue);
    case NoMatch =>
      out := Pass;
  }

  /** One iteration of the emotion loop, on the avatar's personality. */
  method UpdateEmotionTrait(
    personality: Personality, traitPair: string, emotion: string,
    intentScore: real, emotionVector: map<string, real>)
    returns (out: Outcome)
    modifies personality
    ensures Run(personality.traits, out) == Settle(old(personality.traits),
      Step(old(personality.traits), EmotionPolicy(emotionVector), (traitPair, emotion), intentScore))
  {
    out := Pass;
    if emotion in emotionVector {
      var baseChange := WeightedScore(intentScore, emotionVector[emotion]);
      out := MovePole(personality, traitPair, EmotionDirection(traitPair, emotion), baseChange);
    }
  }

  /** One iteration of the personality loop, on the avatar's personality. */
  method UpdatePersonalityTrait(
    personality: Personality, traitPair: string, personalityTrait: string, intentScore: real)
    returns (out: Outcome)
    modifies personality
    ensures Run(personality.traits, out) == Settle(old(personality.traits),
      Step(old(personality.traits), PersonalityPolicy, (traitPair, personalityTrait), intentScore))
  {
    out := Pass;
    if personalityTrait != "" {
      out := MovePole(personality, traitPair, DirectionOf(traitPair, personalityTrait), intentScore);
    }
  }

  /** The emotion loop: each (trait pair, emotion) entry in order. */
  method UpdateEmotionTraits(
    personality: Personality, emotionTraitMapping: seq<(string, string)>,
    intentScore: real, emotionVector: map<string, real>)
    returns (out: Outcome)
    modifies personality
    ensures Run(personality.traits, out) ==
      Apply(old(personality.traits), EmotionPolicy(emotionVector), emotionTraitMapping, intentScore)
  {
    ghost var start := personality.traits;
    ghost var policy := EmotionPolicy(emotionVector);
    var i := 0;
    while i < |emotionTraitMapping|
      invariant i <= |emotionTraitMapping|
      invariant Apply(start, policy, emotionTraitMapping[..i], intentScore) == Run(personality.traits, Pass)
    {
      var (traitPair, emotion) := emotionTraitMapping[i];
      ApplyExtend(start, policy, emotionTraitMapping, intentScore, i);
      out := UpdateEmotionTrait(personality, traitPair, emotion, intentScore, emotionVector);
      if out.Fail? {
        ApplyStopsAfterFailure(start, policy, emotionTraitMapping, intentScore, i + 1);
        return;
      }
      i := i + 1;
    }
    assert emotionTraitMapping[..i] == emotionTraitMapping;
    out := Pass;
  }

  /** The personality loop: each (trait pair, personality trait) entry in order. */
  method UpdatePersonalityTraits(
    personality: Personality, personalityTraitMapping: seq<(string, string)>, intentScore: real)
    returns (out: Outcome)
    modifies personality
    ensures Run(personality.traits, out) ==
      Apply(old(personality.traits), PersonalityPolicy, personalityTraitMapping, intentScore)
  {
    ghost var start := personality.traits;
    var i := 0;
    while i < |personalityTraitMapping|
      invariant i <= |personalityTraitMapping|
      invariant Apply(start, PersonalityPolicy, personalityTraitMapping[..i], intentScore) ==
        Run(personality.traits, Pass)
    {
      var (traitPair, personalityTrait) := personalityTraitMapping[i];
      ApplyExtend(start, PersonalityPolicy, personalityTraitMapping, intentScore, i);
      out := UpdatePersonalityTrait(personality, traitPair, personalityTrait, intentScore);
      if out.Fail? {
        ApplyStopsAfterFailure(start, PersonalityPolicy, personalityTraitMapping, intentScore, i + 1);
        return;
      }
      i := i + 1;
    }
    assert personalityTraitMapping[..i] == personalityTraitMapping;
    out := Pass;
  }

  /**
   * Updates the avatar's personality from an already classified utterance.
   * The new table and the outcome are those of `Engine`; a step that raises
   * stops the update and leaves earlier steps applied.
   */
  method UpdateAvatarEmotionAndPersonality(
    personality: Personality, mainIntent: string, intentScore: real, emotionVector: map<string, real>)
    returns (out: Outcome)
    modifies personality
    ensures Run(personality.traits, out) ==
      Engine(old(personality.traits), mainIntent, intentScore, emotionVector)
  {
    if mainIntent in INTENT_LABELS_EMOTION {
      var emotionTraitMapping := EMOTION_TRAIT_MAPPING;
      out := UpdateEmotionTraits(personality, emotionTraitMapping, intentScore, emotionVector);
    } else if mainIntent in INTENT_LABELS_PERSONALITY {
      var personalityTraitMapping := PERSONALITY_TRAIT_MAPPING;
      out := UpdatePersonalityTraits(personality, personalityTraitMapping, intentScore);
    } else {
      out := Pass;
    }
  }
}
