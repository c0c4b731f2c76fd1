# Avatar personality update engine

This project models the part of the embodied-avatar agent that keeps an
avatar's personality and changes it after each user utterance. All of it is
in `main.py`.

- **Personality table.** A `Personality` object holds a dictionary of ten
  bipolar trait pairs such as `"Sadness-Joy"`. Each pair holds the value of
  its first pole and its second pole. On construction every pair is
  normalized so that it sums to 1.
- **Updates.** `update_trait_pair` stores a new first-pole value and its
  complement. It raises for an unknown trait pair or a value outside [0, 1].
- **The update.** The trait-update branch of
  `update_avatar_emotion_and_personality` takes a classified utterance: a
  main intent label, its score, and a map from emotion label to score.
  - An emotion intent walks the five emotion pairs. Each pair whose emotion
    was reported moves by `intent_score * emotion_score`.
  - A personality intent walks the five personality pairs. Each moves by
    `intent_score`.
  - In both cases, the keyword that names a pole (compared without case)
    picks the direction. `calculate_change(v, base) = base * (1 - v)` gives
    diminishing returns.
  - A neutral intent, or any other label, changes nothing.
  - `"Static-Dynamic"` with `"neutral"` always raises the first pole.

The model is in three modules:

- `PersonalityState` (`personality.dfy`):
  - the table as a `class Personality` whose `traits` map its methods update
    in place;
  - the pure functions `NormalizePair`, `InitialTraits`, `TraitValue` and
    `SetPole`, which specify the methods;
  - the `Balanced` / `WellFormed` invariant: both poles are in [0, 1] and
    they sum to 1.
- `UpdatePolicy` (`policy.dfy`):
  - the three intent label lists, the two ordered mappings, `CalculateChange`,
    and the keyword direction test (`Lower`, `SplitPair`, `DirectionOf`);
  - the update as imperative methods on a `Personality`. There is one method
    per loop iteration, one loop per branch, and the top-level
    `UpdateAvatarEmotionAndPersonality`;
  - each method is proved equal to a pure reference: `Step` for one
    iteration, the fold `Apply` for a loop, and `Engine` for the whole
    update.
  - A raised `ValueError` is an `Outcome` of `Fail`. It ends the update and
    keeps the steps already applied, as the Python exception does.
- `PolicyProperties` (`policy_properties.dfy`):
  - what the update guarantees: the invariant is kept and no computed value
    is rejected when the scores lie in [0, 1];
  - the exact effect of each branch on each pair, and the inputs that change
    nothing;
  - worked examples, including the partial update left behind when a value
    out of range is rejected.

Values are `real`, not floating point.

Three behaviours of the code are worth knowing before reading the lemmas:

- **No clamping.** A computed value is stored as it is. A value outside
  [0, 1] makes `update_trait_pair` raise `ValueError`, which ends the update
  and leaves the pairs changed before it as they are
  (`UnclampedValueRejected`). With every score in [0, 1] and every pole of
  the table in [0, 1] this never happens (`EngineKeepsBalance`). Such a table
  is the default one, or one built from non-negative pairs
  (`SuppliedTraitsWellFormed`). A supplied pair that already sums to 1 is
  kept as it is, so `Personality({"Anger-Fear": (2.0, -1.0)})` holds a pole
  outside [0, 1] (`UnbalancedPairKept`). From there, "anger" at 0.5 with
  score 1 asks for 1.5, which is rejected (`UnbalancedTableRejected`).
- **Joy lowers sadness.** `"joy"` names the second pole of Sadness-Joy, so
  the first pole (sadness) falls. After `"express_emotion_towards_character"`
  with score 0.8 and `{"joy": 0.6}`, a (0.5, 0.5) pair becomes (0.26, 0.74)
  (`JoyExample`).
- **`"encourage_character"` is an emotion intent.** It is in the emotion
  list, and no label is in two lists (`IntentListsDisjoint`).

## Model

| member | source | states |
|---|---|---|
| PersonalityState.NormalizePair | main.py:115-120 | A pair summing to 0 becomes (0.5, 0.5). Otherwise the result sums to 1 and keeps the ratio of the input. A non-negative input gives a balanced pair. |
| PersonalityState.InitialTraits | main.py:96-113 | Without a table: the ten default pairs, each (0.5, 0.5). With a table: the same keys, each pair normalized. Every pair sums to 1. |
| PersonalityState.TraitValue | main.py:130-133 | Succeeds exactly when the name is in the table and returns its pair. Otherwise the error is an unknown trait pair. |
| PersonalityState.SetPole | main.py:122-128 | An unknown name is rejected first, then a value outside [0, 1]. It succeeds exactly when both checks pass. Success stores (value1, 1 - value1), keeps the keys and leaves every other pair unchanged. |
| PersonalityState.Personality.constructor | main.py:96-113 | The new object's table is `InitialTraits` of the argument. |
| PersonalityState.Personality.UpdateTraitPair | main.py:122-128 | On success the table becomes `SetPole`'s table. On an error the error is returned and the table is unchanged. |
| PersonalityState.Personality.GetTraitValue | main.py:130-133 | Returns the stored pair exactly when the name is present, and the unknown-pair error otherwise. |
| PersonalityState.DefaultIsBalanced | main.py:98-113 | A default personality has exactly the ten listed pairs, each (0.5, 0.5), and is well formed. |
| PersonalityState.SuppliedTraitsWellFormed | main.py:112-120 | A supplied table of non-negative pairs keeps its keys and is well formed once normalized. |
| PersonalityState.NormalizeIdempotent | main.py:115-120 | Normalizing an already normalized pair changes nothing. |
| PersonalityState.SetPoleKeepsWellFormed | main.py:122-128 | A successful store keeps every pair balanced. |
| PersonalityState.GetAfterSet | main.py:122-133 | After a store, the name reads back (value1, 1 - value1) and every other name reads as before. |
| PersonalityState.SetPoleSameValue | main.py:122-128 | Storing the first-pole value a balanced pair already has leaves the table unchanged. |
| UpdatePolicy.CalculateChange | main.py:282-283 | The change is 0 when the base is 0 or the pole is at 1. With a base in [0, 1], it never takes the pole past 1. |
| UpdatePolicy.Lower | main.py:331 | The result has the same length and no upper-case ASCII letter. Each upper-case letter becomes its lower-case letter, and every other character is kept. |
| UpdatePolicy.SplitPair | main.py:326 | A name with a hyphen is split at its first hyphen into the two pole names. |
| UpdatePolicy.Move | main.py:315-346 | A missing pair gives the unknown-pair error and a keyword that names neither pole changes nothing. Otherwise only the named pair changes and the keys are kept. |
| PersonalityState.DefaultTraits | main.py:100-111 | The table used when none is supplied. It has no contract of its own; `DefaultIsBalanced` states that it holds exactly the ten listed pairs, each (0.5, 0.5). |
| UpdatePolicy.DirectionOf | main.py:326-346 | The `.lower()` test of a keyword against the two pole names. It has no contract of its own; `DirectionFromPoles`, `DirectionIgnoresCase`, `EmotionDirections` and `PersonalityDirections` state what it gives. |
| UpdatePolicy.EmotionDirection | main.py:314-339 | The emotion loop's choice of pole: "neutral" on Static-Dynamic raises Static, any other label goes through `DirectionOf`. It has no contract of its own; `EmotionDirections` gives its value for every mapped entry. |
| UpdatePolicy.WeightedScore | main.py:319 | The base change of an emotion step, intent score times emotion score. It has no contract of its own; `WeightedScoreInRange` bounds it. |
| UpdatePolicy.Step | main.py:311-346 | One iteration of either loop: skip an unreported emotion or an empty keyword, otherwise `Move` in the keyword's direction. It has no contract of its own; `StepExpected` and `StepKeepsBalance` state its result. |
| UpdatePolicy.EmotionBranch | main.py:300-346 | The emotion loop over the five emotion entries in order. It has no contract of its own; `EmotionIntentEffect` states its effect. |
| UpdatePolicy.PersonalityBranch | main.py:349-380 | The personality loop over the five personality entries in order. It has no contract of its own; `PersonalityIntentEffect` states its effect. |
| UpdatePolicy.Apply | main.py:311-346 | The fold over the mapping in order keeps the table's keys. |
| UpdatePolicy.Engine | main.py:299-380 | An intent in neither the emotion nor the personality list leaves the table as it was and passes. Every intent keeps the keys. |
| UpdatePolicy.ApplyExtend | main.py:311-321 | A loop that passed its first i entries goes on with the step of entry i. |
| UpdatePolicy.ApplyStopsAfterFailure | main.py:320-346 | Once a step has raised, the later entries are not applied. |
| UpdatePolicy.MovePole | main.py:327-344 | Reading a pair and storing its moved first-pole value leaves the table and outcome of `Move` on the old table. An unknown pair raises before anything is stored, and a rejected value leaves the table unchanged. |
| UpdatePolicy.UpdateEmotionTrait | main.py:312-346 | One emotion iteration leaves the table and outcome of `Step` on the old table. This covers the Static-Dynamic special case, the raise and lower directions and the no-match case. |
| UpdatePolicy.UpdatePersonalityTrait | main.py:360-380 | One personality iteration leaves the table and outcome of `Step` on the old table. |
| UpdatePolicy.UpdateEmotionTraits | main.py:311-346 | The emotion loop leaves the table and outcome of `Apply` over the mapping, stopping at the first raise. |
| UpdatePolicy.UpdatePersonalityTraits | main.py:359-380 | The personality loop leaves the table and outcome of `Apply` over the mapping, stopping at the first raise. |
| UpdatePolicy.UpdateAvatarEmotionAndPersonality | main.py:299-380 | The whole update leaves exactly `Engine`'s table and outcome. |
| PolicyProperties.Raised | main.py:333-336 | Raising a pole in [0, 1] by a fraction in [0, 1] keeps it between its old value and 1. A fraction of 0 keeps it. |
| PolicyProperties.Lowered | main.py:341-344 | Lowering a pole in [0, 1] by a fraction in [0, 1] keeps it between 0 and its old value. A fraction of 0 keeps it. |
| PolicyProperties.SplitJoin | main.py:326 | Splitting "first-second" (first without a hyphen) gives back (first, second). |
| PolicyProperties.DirectionFromPoles | main.py:326-339 | For a pair named first-second, a keyword equal to the first pole name up to case raises the first pole. Otherwise one equal to the second pole name lowers it, and any other keyword matches nothing. |
| PolicyProperties.LowerIdempotent | main.py:331 | Lower-casing an already lower-cased string changes nothing. |
| PolicyProperties.DirectionIgnoresCase | main.py:331-339 | A keyword and its lower-cased form give the same direction. |
| PolicyProperties.EmotionDirections | main.py:302-346 | "joy" and "surprise" lower the first pole, "anger" and "disgust" raise it, and "neutral" names neither pole of Static-Dynamic but raises Static through the special case. |
| PolicyProperties.PersonalityDirections | main.py:351-380 | Each of the five personality keywords names the second pole of its pair, so every entry of the personality mapping lowers the first pole. |
| PolicyProperties.IntentListsDisjoint | main.py:225-257 | No label is in two of the emotion, personality and neutral lists. |
| PolicyProperties.SaturationDiminishes | main.py:282-283 | For a positive base, a pole closer to 1 gets a strictly smaller change. |
| PolicyProperties.WeightedScoreInRange | main.py:319 | Intent score times emotion score stays in [0, 1] when both are. |
| PolicyProperties.MoveBalanced | main.py:315-346 | A move of a balanced pair by a base in [0, 1] is never rejected and gives the reference move. |
| PolicyProperties.StepExpected | main.py:311-380 | One iteration on a present pair is the reference move: none when the emotion is unreported or the keyword is empty. The result is balanced. |
| PolicyProperties.StepKeepsBalance | main.py:311-380 | One iteration keeps the table well formed. It can only raise for a missing pair. |
| PolicyProperties.ApplyKeepsBalance | main.py:311-380 | A loop keeps the table well formed, even when it stops early. It can only stop on a missing pair, and passes when every pair is present. |
| PolicyProperties.ApplyExpected | main.py:311-380 | With distinct, present pairs the loop passes, each entry's pair is its reference move, and unnamed pairs are unchanged. |
| PolicyProperties.ApplyReadsOnlyMappedEmotions | main.py:311-319 | An emotion loop reads only the scores of the emotions its entries name. |
| PolicyProperties.ApplyWithoutEmotions | main.py:311-312 | An emotion loop with no reported emotions changes nothing and passes. |
| PolicyProperties.ApplyWithZeroScore | main.py:311-380 | A loop with intent score 0 leaves a balanced table as it was. |
| PolicyProperties.MappingsNameRegisteredPairs | main.py:100-111 | Both mappings name default trait pairs, each at most once. |
| PolicyProperties.EngineKeepsBalance | main.py:299-380 | On a balanced table (every pair sums to 1 with both poles in [0, 1]) and with scores in [0, 1], the update keeps every pair balanced and keeps the keys. On such a table it raises only for a missing pair, and never when all ten pairs are present, so no computed value is rejected. |
| PolicyProperties.EmotionIntentEffect | main.py:300-346 | An emotion intent passes. Each emotion pair moves in its keyword's direction by intent score times its emotion's score (0 if unreported), and every other pair is unchanged. |
| PolicyProperties.EmotionEntryEffect | main.py:311-346 | The same effect, for one entry of the emotion mapping. |
| PolicyProperties.AbsentEmotionKeepsPair | main.py:311-312 | A pair whose emotion was not reported stays as it was. |
| PolicyProperties.EmotionIntentKeepsOtherPairs | main.py:300-346 | An emotion intent leaves the personality pairs as they were. |
| PolicyProperties.PersonalityIntentEffect | main.py:349-380 | A personality intent passes. Each personality pair moves in its keyword's direction by the intent score, and every other pair is unchanged. |
| PolicyProperties.PersonalityIgnoresEmotions | main.py:349-380 | A personality intent gives the same result whatever the emotion map. |
| PolicyProperties.NeutralIntentIsNoOp | main.py:299-380 | A neutral intent changes nothing and passes. |
| PolicyProperties.UnmappedEmotionsIgnored | main.py:302-312 | Adding an emotion outside joy, anger, disgust, surprise and neutral changes nothing. |
| PolicyProperties.NoEmotionsIsNoOp | main.py:311-312 | An emotion intent with an empty emotion map changes nothing. |
| PolicyProperties.ZeroScoreIsNoOp | main.py:299-380 | An intent score of 0 leaves a balanced table as it was. |
| PolicyProperties.JoyExample | main.py:339-344 | "express_emotion_towards_character" at 0.8 with {"joy": 0.6} moves a Sadness-Joy of (0.5, 0.5) to (0.26, 0.74) and nothing else. |
| PolicyProperties.JoySadnessValue | main.py:339-344 | The Sadness-Joy pair of that example is (0.26, 0.74), and the run passes. |
| PolicyProperties.DefaultJoyExample | main.py:96-113 | The same, starting from the default personality. |
| PolicyProperties.OnlyJoyMoves | main.py:311-312 | With only "joy" reported, no pair but Sadness-Joy changes. |
| PolicyProperties.PersonalityExample | main.py:373-378 | Any personality intent at 0.9 moves each personality pair at (0.5, 0.5) to (0.05, 0.95), and nothing else. |
| PolicyProperties.DefaultPersonalityExample | main.py:96-113 | The same, starting from the default personality: the other five pairs stay (0.5, 0.5). |
| PolicyProperties.UnclampedValueRejected | main.py:311-346 | With score 1 and {"joy": 0.5, "anger": 3}, Sadness-Joy becomes (0.25, 0.75). Anger-Fear's value 2 is rejected and the update stops, but the Sadness-Joy change stays. |
| PolicyProperties.JoyStep | main.py:339-344 | "joy" at 0.5 with score 1 lowers a Sadness-Joy of (0.5, 0.5) to (0.25, 0.75). |
| PolicyProperties.AngerStep | main.py:331-336 | "anger" at 3 with score 1 asks for a first pole of 2 on a pair at 0.5, which is rejected as out of range. |
| PolicyProperties.UnbalancedTableRejected | main.py:311-346 | On any table holding Anger-Fear at (2.0, -1.0), an emotion intent at score 1 with {"anger": 0.5} computes 1.5. That value is rejected, and the table stays as it was. |
| PolicyProperties.UnbalancedPairKept | main.py:112-120 | Constructing from {"Anger-Fear": (2.0, -1.0)} keeps the table as it is, because the pair already sums to 1. |
| PolicyProperties.UnbalancedAngerStep | main.py:331-336 | "anger" at 0.5 with score 1 asks for a first pole of 1.5 on a pair at (2, -1), which is rejected as out of range. |

## Left out

- Parts of `main.py` that are not modelled:
  - The classifiers that produce the intent and the emotion map: `get_emotion_vector`, `get_intent` and the pipelines behind them (main.py:202-212, 222, 264-271, 397). They are machine-learning calls. Their outputs (main intent, score, emotion map) are parameters of the update.
  - The combined candidate label list (main.py:259-261). Only the classifier reads it. The three lists it joins are modelled.
  - `generate_character_description` (main.py:400-436). It is a network call.
  - All printing: `display_traits`, `greet`, `display_personality`, and the debug prints inside the update. They are console output only.
  - The module-level script code that builds a demo avatar and runs at import time.
  - The plain data classes (`Detail`, `LanguageStyle`, `Colloquium`, `CharacterAdjective`, `Adjective`, `DialogueStyle`). They hold data and check field types, which Dafny's types already give.
- Simplifications of what is modelled:
  - Floating-point rounding. Values are `real`, so `NormalizePair` sums to exactly 1, and no rounding near the bounds of [0, 1] is modelled.
  - `UpdatePolicy.Lower`: only ASCII letters are lower-cased. Python's `str.lower` also maps other Unicode letters. All labels and pole names in the code are ASCII.
  - `UpdatePolicy.SplitPair`: a name without exactly one hyphen makes Python's unpacking of `split("-")` raise. The model splits at the first hyphen instead. Every name in both mappings has exactly one hyphen.
  - Pairs are 2-tuples of reals. `sum(pair)` on tuples of other lengths, and non-numeric values, are not modelled.
  - The Python dictionaries that hold the mappings become sequences in their insertion order, which is the order Python iterates them in.
  - The avatar object is reduced to its `Personality`. The update takes the personality directly.
  - `UpdatePolicy.MovePole`: the read-compare-store code that the emotion loop and the personality loop repeat is one method here. Its direction is decided before the pair is read, while the source compares the names after reading it. The comparisons have no effects, so the outcome and the table are the same.
