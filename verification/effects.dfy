/**
 * The `OutreachEffect` component of components/effects.py: once the simulation has started,
 * the outreach intervention redraws the adherence of every primary non-adherent simulant
 * from the outreach effect distribution of the medication type.
 */
module Effects {
  import opened Wrappers
  import opened Randomness
  import opened Frames
  import opened DataValues

  /** Every draw of the randomness stream lies in [0, 1). */
  ghost predicate UnitDraws(draw: int -> real)
  {
    forall id :: 0.0 <= draw(id) < 1.0
  }

  /** Every outreach effect distribution has positive total weight. */
  ghost predicate Distributions(effects: map<string, seq<(Adherence, real)>>)
  {
    forall t :: t in effects ==> Total(effects[t]) > 0.0
  }

  /** The simulants whose adherence is primary non-adherent. */
  function PrimaryNonAdherentIds(target: map<int, Adherence>): (r: set<int>)
    ensures forall id :: id in r <==> id in target && target[id] == PrimaryNonAdherent
  {
    Where(target, (id: int, a: Adherence) => a == PrimaryNonAdherent)
  }

  /**
   * `_adjust_target`: before the simulation start time the target is returned as it is;
   * afterwards the effect distribution of the medication type is looked up (a KeyError if
   * there is none) and each primary non-adherent simulant receives the adherence its draw
   * selects, while every other simulant keeps its value.
   */
  function Adjusted(clock: real, start: real, target: map<int, Adherence>, draw: int -> real,
                    effects: map<string, seq<(Adherence, real)>>, medicationType: string): (r: Result<map<int, Adherence>>)
    requires UnitDraws(draw) && Distributions(effects)
    ensures clock < start ==> r == Ok(target)
    ensures clock >= start ==> (r.Err? <==> medicationType !in effects)
    ensures r.Err? ==> r.error == KeyError(medicationType)
    ensures r.Ok? ==> r.value.Keys == target.Keys
    ensures r.Ok? ==> forall id :: id in target && target[id] != PrimaryNonAdherent ==> r.value[id] == target[id]
    ensures r.Ok? && clock >= start ==> forall id :: id in target && target[id] == PrimaryNonAdherent ==>
      r.value[id] == Choose(draw(id), effects[medicationType])
    ensures r.Ok? && clock >= start ==> forall id :: id in target && target[id] == PrimaryNonAdherent ==>
      exists k :: 0 <= k < |effects[medicationType]| && r.value[id] == effects[medicationType][k].0
  {
    if clock < start then Ok(target)
    else if medicationType !in effects then Err(KeyError(medicationType))
    else
      var choices := effects[medicationType];
      Ok(Updated(target, PrimaryNonAdherentIds(target), (id: int, a: Adherence) => Choose(draw(id), choices)))
  }

  /** The in-place version: `target[primary_non_adherent] = adjusted`, row by row. */
  method AdjustTarget(clock: real, start: real, target: map<int, Adherence>, draw: int -> real,
                      effects: map<string, seq<(Adherence, real)>>, medicationType: string)
    returns (r: Result<map<int, Adherence>>)
    requires UnitDraws(draw) && Distributions(effects)
    ensures r == Adjusted(clock, start, target, draw, effects, medicationType)
  {
    if clock < start {
      return Ok(target);
    }
    if medicationType !in effects {
      return Err(KeyError(medicationType));
    }
    var choices := effects[medicationType];
    var primaryNonAdherent := PrimaryNonAdherentIds(target);
    var adjusted := SetWhere(target, primaryNonAdherent, (id: int, a: Adherence) => Choose(draw(id), choices));
    r := Ok(adjusted);
  }

  /** The modifier of the SBP medication adherence pipeline uses the "sbp" effects. */
  method SbpAdherenceModifier(clock: real, start: real, target: map<int, Adherence>, draw: int -> real,
                              effects: map<string, seq<(Adherence, real)>>)
    returns (r: Result<map<int, Adherence>>)
    requires UnitDraws(draw) && Distributions(effects)
    ensures r == Adjusted(clock, start, target, draw, effects, "sbp")
  {
    r := AdjustTarget(clock, start, target, draw, effects, "sbp");
  }

  /** The modifier of the LDL-C medication adherence pipeline uses the "ldlc" effects. */
  method LdlcAdherenceModifier(clock: real, start: real, target: map<int, Adherence>, draw: int -> real,
                               effects: map<string, seq<(Adherence, real)>>)
    returns (r: Result<map<int, Adherence>>)
    requires UnitDraws(draw) && Distributions(effects)
    ensures r == Adjusted(clock, start, target, draw, effects, "ldlc")
  {
    r := AdjustTarget(clock, start, target, draw, effects, "ldlc");
  }

  /**
   * When the effect distribution never selects primary non-adherence, no simulant is primary
   * non-adherent after the adjustment has run.
   */
  lemma NoPrimaryNonAdherentRemains(clock: real, start: real, target: map<int, Adherence>, draw: int -> real,
                                    effects: map<string, seq<(Adherence, real)>>, medicationType: string)
    requires UnitDraws(draw) && Distributions(effects)
    requires clock >= start && medicationType in effects
    requires forall k :: 0 <= k < |effects[medicationType]| ==> effects[medicationType][k].0 != PrimaryNonAdherent
    ensures Adjusted(clock, start, target, draw, effects, medicationType).Ok?
    ensures PrimaryNonAdherentIds(Adjusted(clock, start, target, draw, effects, medicationType).value) == {}
  {
    var r := Adjusted(clock, start, target, draw, effects, medicationType).value;
    forall id | id in r
      ensures r[id] != PrimaryNonAdherent
    {
      if target[id] == PrimaryNonAdherent {
        var k :| 0 <= k < |effects[medicationType]| && r[id] == effects[medicationType][k].0;
      }
    }
  }
}
