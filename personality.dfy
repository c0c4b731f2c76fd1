/**
 * The personality state of an avatar: a table of bipolar trait pairs such as
 * "Sadness-Joy", each holding the pair (value of the first pole, value of the
 * second pole). The table is kept by a `Personality` object whose only
 * mutator stores a new first-pole value together with its complement.
 *
 * Values are modelled as `real`; floating-point rounding is not modelled.
 */
module PersonalityState {

  /** (value of the first pole, value of the second pole) */
  type Pair = (real, real)

  /** Trait pair name ("Sadness-Joy") to its current pair. */
  type Traits = map<string, Pair>

  /** The two `ValueError`s that the personality table raises. */
  datatype Error =
    | UnknownTraitPair(traitPair: string)
    | ValueOutOfRange(value: real)

  datatype Result<T> = Ok(value: T) | Err(error: Error)

  datatype Outcome = Pass | Fail(error: Error)

  datatype Option<T> = None | Some(value: T)

  /** The ten trait pairs of a default personality, in declaration order. */
  const TRAIT_PAIRS: seq<string> := [
    "Sadness-Joy", "Anger-Fear", "Disgust-Trust", "Anticipation-Surprise", "Static-Dynamic",
    "Negative-Positive", "Aggressive-Peaceful", "Cautious-Open", "Introvert-Extravert",
    "Insecure-Confident"
  ]

  /** The table a `Personality` starts from when no traits are supplied. */
  function DefaultTraits(): Traits {
    map[
      "Sadness-Joy" := (0.5, 0.5),
      "Anger-Fear" := (0.5, 0.5),
      "Disgust-Trust" := (0.5, 0.5),
      "Anticipation-Surprise" := (0.5, 0.5),
      "Static-Dynamic" := (0.5, 0.5),
      "Negative-Positive" := (0.5, 0.5),
      "Aggressive-Peaceful" := (0.5, 0.5),
      "Cautious-Open" := (0.5, 0.5),
      "Introvert-Extravert" := (0.5, 0.5),
      "Insecure-Confident" := (0.5, 0.5)
    ]
  }

  /** Both poles of `v` lie in [0, 1] and they sum to 1. */
  predicate Balanced(v: Pair) {
    v.0 + v.1 == 1.0 && 0.0 <= v.0 <= 1.0 && 0.0 <= v.1 <= 1.0
  }

  /** The invariant of a personality table: every pair is balanced. */
  predicate WellFormed(t: Traits) {
    forall k :: k in t ==> Balanced(t[k])
  }

  /**
   * Scales a pair by its sum; a pair that sums to zero becomes (0.5, 0.5).
   * The result always sums to exactly 1 and keeps the ratio of the input.
   */
  function NormalizePair(pair: Pair): (r: Pair)
    ensures pair.0 + pair.1 == 0.0 ==> r == (0.5, 0.5)
    ensures r.0 + r.1 == 1.0
    ensures pair.0 + pair.1 != 0.0 ==>
      r.0 * (pair.0 + pair.1) == pair.0 && r.1 * (pair.0 + pair.1) == pair.1
    ensures 0.0 <= pair.0 && 0.0 <= pair.1 ==> Balanced(r)
  {
    var total := pair.0 + pair.1;
    if total == 0.0 then
      (0.5, 0.5)
    else
      ShareOfTotal(pair.0, pair.1);
      (pair.0 / total, pair.1 / total)
  }

  /** The two shares of a non-zero total add up to 1 and scale back to the parts. */
  lemma ShareOfTotal(a: real, b: real)
    requires a + b != 0.0
    ensures a / (a + b) + b / (a + b) == 1.0
    ensures a / (a + b) * (a + b) == a && b / (a + b) * (a + b) == b
    ensures 0.0 <= a && 0.0 <= b ==> 0.0 <= a / (a + b) <= 1.0 && 0.0 <= b / (a + b) <= 1.0
  {
    var total := a + b;
    var x := a / total;
    var y := b / total;
    assert x * total == a;
    assert y * total == b;
    assert (x + y - 1.0) * total == 0.0;
    if 0.0 <= a && 0.0 <= b {
      assert 0.0 < total;
      assert 0.0 <= x && 0.0 <= y;
    }
  }

  /**
   * The table built by the constructor: the supplied table, or the default
   * one when none is supplied, with every pair normalized.
   */
  function InitialTraits(traits: Option<Traits>): (r: Traits)
    ensures traits.None? ==> r.Keys == set k | k in TRAIT_PAIRS
    ensures traits.None? ==> forall k :: k in r ==> r[k] == (0.5, 0.5)
    ensures traits.Some? ==> r.Keys == traits.value.Keys
    ensures traits.Some? ==> forall k :: k in r ==> r[k] == NormalizePair(traits.value[k])
    ensures forall k :: k in r ==> r[k].0 + r[k].1 == 1.0
  {
    var source := if traits.None? then DefaultTraits() else traits.value;
    map k | k in source :: NormalizePair(source[k])
  }

  /** `get_trait_value`: the stored pair, or an error for an unknown name. */
  function TraitValue(t: Traits, traitPair: string): (r: Result<Pair>)
    ensures r.Ok? <==> traitPair in t
    ensures r.Ok? ==> r.value == t[traitPair]
    ensures r.Err? ==> r.error == UnknownTraitPair(traitPair)
  {
    if traitPair !in t then Err(UnknownTraitPair(traitPair)) else Ok(t[traitPair])
  }

  /**
   * `update_trait_pair` as a function of the table: the new table, or the
   * error raised. The name is checked before the value.
   */
  function SetPole(t: Traits, traitPair: string, value1: real): (r: Result<Traits>)
    ensures traitPair !in t ==> r == Err(UnknownTraitPair(traitPair))
    ensures traitPair in t && !(0.0 <= value1 <= 1.0) ==> r == Err(ValueOutOfRange(value1))
    ensures r.Ok? <==> traitPair in t && 0.0 <= value1 <= 1.0
    ensures r.Ok? ==> r.value.Keys == t.Keys
    ensures r.Ok? ==> Balanced(r.value[traitPair]) && r.value[traitPair].0 == value1
    ensures r.Ok? ==> forall k :: k in t && k != traitPair ==> r.value[k] == t[k]
  {
    if traitPair !in t then
      Err(UnknownTraitPair(traitPair))
    else if !(0.0 <= value1 <= 1.0) then
      Err(ValueOutOfRange(value1))
    else
      var value2 := 1.0 - value1;
      Ok(t[traitPair := (value1, value2)])
  }

  /** The personality table of one avatar, updated in place. */
  class Personality {
    var traits: Traits

    constructor (traits: Option<Traits>)
      ensures this.traits == InitialTraits(traits)
    {
      this.traits := InitialTraits(traits);
    }

    /**
     * Stores (value1, 1 - value1) under `traitPair`. An unknown name or a
     * value outside [0, 1] is rejected and leaves the table as it was.
     */
    method UpdateTraitPair(traitPair: string, value1: real) returns (out: Outcome)
      modifies this
      ensures var r := SetPole(old(traits), traitPair, value1);
        if r.Ok? then out == Pass && traits == r.value
        else out == Fail(r.error) && traits == old(traits)
    {
      if traitPair !in traits {
        return Fail(UnknownTraitPair(traitPair));
      }
      if !(0.0 <= value1 <= 1.0) {
        return Fail(ValueOutOfRange(value1));
      }
      var value2 := 1.0 - value1;
      traits := traits[traitPair := (value1, value2)];
      out := Pass;
    }

    /** The stored pair of `traitPair`; reading never changes the table. */
    method GetTraitValue(traitPair: string) returns (r: Result<Pair>)
      ensures r == TraitValue(traits, traitPair)
    {
      if traitPair !in traits {
        return Err(UnknownTraitPair(traitPair));
      }
      r := Ok(traits[traitPair]);
    }
  }

  /** A default personality has exactly the ten listed pairs, each (0.5, 0.5). */
  lemma DefaultIsBalanced()
    ensures InitialTraits(None).Keys == set k | k in TRAIT_PAIRS
    ensures forall k :: k in InitialTraits(None) ==> InitialTraits(None)[k] == (0.5, 0.5)
    ensures WellFormed(InitialTraits(None))
  {
  }

  /** A supplied table of non-negative pairs is well formed once normalized. */
  lemma {:induction false} SuppliedTraitsWellFormed(traits: Traits)
    requires forall k :: k in traits ==> 0.0 <= traits[k].0 && 0.0 <= traits[k].1
    ensures InitialTraits(Some(traits)).Keys == traits.Keys
    ensures WellFormed(InitialTraits(Some(traits)))
  {
    var r := InitialTraits(Some(traits));
    forall k | k in r ensures Balanced(r[k]) {
      assert r[k] == NormalizePair(traits[k]);
    }
  }

  /** Normalizing a pair twice changes nothing the second time. */
  lemma NormalizeIdempotent(pair: Pair)
    ensures NormalizePair(NormalizePair(pair)) == NormalizePair(pair)
  {
    var r := NormalizePair(pair);
    var total := r.0 + r.1;
    assert total == 1.0;
    assert r.0 / total == r.0 && r.1 / total == r.1;
  }

  /** Every successful store keeps the table well formed. */
  lemma SetPoleKeepsWellFormed(t: Traits, traitPair: string, value1: real)
    requires WellFormed(t)
    ensures SetPole(t, traitPair, value1).Ok? ==> WellFormed(SetPole(t, traitPair, value1).value)
  {
  }

  /**
   * Reading after a store: the stored name yields (value1, 1 - value1) and
   * every other name yields what it yielded before.
   */
  lemma GetAfterSet(t: Traits, traitPair: string, value1: real, other: string)
    requires SetPole(t, traitPair, value1).Ok?
    ensures TraitValue(SetPole(t, traitPair, value1).value, traitPair) == Ok((value1, 1.0 - value1))
    ensures other != traitPair ==>
      TraitValue(SetPole(t, traitPair, value1).value, other) == TraitValue(t, other)
  {
  }

  /** Storing the first-pole value a balanced pair already has changes nothing. */
  lemma SetPoleSameValue(t: Traits, traitPair: string)
    requires WellFormed(t) && traitPair in t
    ensures SetPole(t, traitPair, t[traitPair].0) == Ok(t)
  {
    var v := t[traitPair];
    assert v == (v.0, 1.0 - v.0);
    assert t[traitPair := (v.0, 1.0 - v.0)] == t;
  }
}
