/**
 * Population attributable fractions (components/paf_observer.py and the categorical PAF
 * of data/loader.py): the formula `(rr - 1) / rr` applied to a mean relative risk, and the
 * names under which the observer registers.
 */
module Paf {
  import opened Wrappers
  import opened Strings

  /**
   * `(rr - 1) / rr`. A zero mean relative risk has no fraction (floating point gives an
   * infinity there), so it is `None`.
   */
  function PafOf(rr: real): (r: Option<real>)
    ensures r.None? <==> rr == 0.0
    ensures r.Some? ==> r.value * rr == rr - 1.0
  {
    if rr == 0.0 then None else Some((rr - 1.0) / rr)
  }

  /** No excess risk, no attributable fraction. */
  lemma PafOfOne()
    ensures PafOf(1.0) == Some(0.0)
  {
  }

  /** A mean relative risk of at least 1 gives a fraction in [0, 1). */
  lemma PafBounds(rr: real)
    requires rr >= 1.0
    ensures PafOf(rr).Some? && 0.0 <= PafOf(rr).value < 1.0
  {
    var p := PafOf(rr).value;
    assert p == 1.0 - 1.0 / rr;
    InverseBounds(rr);
  }

  lemma InverseBounds(x: real)
    requires x >= 1.0
    ensures 0.0 < 1.0 / x <= 1.0
  {
  }

  /** The fraction strictly increases with the mean relative risk on positive values. */
  lemma PafIncreasing(a: real, b: real)
    requires 0.0 < a < b
    ensures PafOf(a).value < PafOf(b).value
  {
    var pa, pb := PafOf(a).value, PafOf(b).value;
    assert pa == 1.0 - 1.0 / a && pb == 1.0 - 1.0 / b;
    assert a * b > 0.0;
    assert 1.0 / a - 1.0 / b == (b - a) / (a * b);
  }

  /** The relative risk is recovered from the fraction: rr = 1 / (1 - paf). */
  lemma PafInverse(rr: real)
    requires rr != 0.0
    ensures PafOf(rr).value != 1.0 && rr == 1.0 / (1.0 - PafOf(rr).value)
  {
    var p := PafOf(rr).value;
    assert p * rr == rr - 1.0;
    assert (1.0 - p) * rr == 1.0;
  }

  function Sum(s: seq<real>): real
  {
    if s == [] then 0.0 else Sum(s[..|s| - 1]) + s[|s| - 1]
  }

  /** The mean of the relative risks; no mean for no simulants. */
  function Mean(s: seq<real>): (r: Option<real>)
    ensures r.None? <==> s == []
  {
    if s == [] then None else Some(Sum(s) / |s| as real)
  }

  lemma {:induction false} SumAtLeast(s: seq<real>, lo: real)
    requires forall i :: 0 <= i < |s| ==> s[i] >= lo
    ensures Sum(s) >= lo * |s| as real
  {
    if s != [] {
      SumAtLeast(s[..|s| - 1], lo);
    }
  }

  /**
   * `calculate_paf`: the fraction of the mean of the relative risks the risk effect gives
   * the alive simulants on a baseline of 1.
   */
  function CalculatePaf(relativeRisks: seq<real>): (r: Option<real>)
    ensures r.Some? <==> relativeRisks != [] && Sum(relativeRisks) != 0.0
    ensures r.Some? ==> r.value * Mean(relativeRisks).value == Mean(relativeRisks).value - 1.0
  {
    assert relativeRisks != [] ==> (Sum(relativeRisks) / |relativeRisks| as real == 0.0 <==> Sum(relativeRisks) == 0.0) by {
      if relativeRisks != [] {
        var n := |relativeRisks| as real;
        assert (Sum(relativeRisks) / n) * n == Sum(relativeRisks);
      }
    }
    match Mean(relativeRisks)
    case None => None
    case Some(m) => PafOf(m)
  }

  /** When no simulant's relative risk is below 1, the calculated fraction lies in [0, 1). */
  lemma CalculatePafBounds(relativeRisks: seq<real>)
    requires relativeRisks != []
    requires forall i :: 0 <= i < |relativeRisks| ==> relativeRisks[i] >= 1.0
    ensures CalculatePaf(relativeRisks).Some?
    ensures 0.0 <= CalculatePaf(relativeRisks).value < 1.0
  {
    SumAtLeast(relativeRisks, 1.0);
    var n := |relativeRisks| as real;
    var m := Sum(relativeRisks) / n;
    assert m * n == Sum(relativeRisks);
    assert m >= 1.0;
    PafBounds(m);
  }

  /** `EntityString`: a type and a name, printed `type.name`. */
  datatype EntityName = EntityName(kind: string, name: string)
  /** `TargetString`: a type, a name and a measure, printed `type.name.measure`. */
  datatype TargetName = TargetName(kind: string, name: string, measure: string)

  function EntityText(e: EntityName): string { e.kind + "." + e.name }
  function TargetText(t: TargetName): string { t.kind + "." + t.name + "." + t.measure }

  /** The observer's component name, `paf_observer.{risk}.{target}`. */
  function ObserverName(risk: EntityName, target: TargetName): (r: string)
    ensures |r| > |"paf_observer."|
  {
    "paf_observer." + EntityText(risk) + "." + TargetText(target)
  }

  /** The registered observation: its name, population filter, required columns and phase. */
  datatype Observation = Observation(name: string, popFilter: string, requiresColumns: seq<string>, when: string)

  /** The observation is `calculated_paf_{risk}_on_{target}` over alive simulants, at time-step prepare. */
  function PafObservation(risk: EntityName, target: TargetName): (r: Observation)
    ensures r.popFilter == "alive == \"alive\"" && r.requiresColumns == ["alive"] && r.when == "time_step__prepare"
    ensures r.name == "calculated_paf_" + EntityText(risk) + "_on_" + TargetText(target)
  {
    Observation("calculated_paf_" + EntityText(risk) + "_on_" + TargetText(target), "alive == \"alive\"", ["alive"], "time_step__prepare")
  }

  predicate Dotless(s: string) { Lacks(s, '.') }

  /** The component name is its six parts joined by dots. */
  lemma ObserverNameJoin(risk: EntityName, target: TargetName)
    ensures ObserverName(risk, target) ==
      Join(["paf_observer", risk.kind, risk.name, target.kind, target.name, target.measure], ".")
  {
    var parts := ["paf_observer", risk.kind, risk.name, target.kind, target.name, target.measure];
    assert Join(parts[5..], ".") == target.measure;
    assert Join(parts[4..], ".") == target.name + "." + target.measure;
    assert Join(parts[3..], ".") == TargetText(target);
    assert Join(parts[2..], ".") == risk.name + "." + TargetText(target);
    assert Join(parts[1..], ".") == EntityText(risk) + "." + TargetText(target);
  }

  /** With dot-free parts, the component name splits back into the risk and the target. */
  lemma ObserverNameParts(risk: EntityName, target: TargetName)
    requires Dotless(risk.kind) && Dotless(risk.name)
    requires Dotless(target.kind) && Dotless(target.name) && Dotless(target.measure)
    ensures Split(ObserverName(risk, target), ".") ==
      ["paf_observer", risk.kind, risk.name, target.kind, target.name, target.measure]
  {
    var parts := ["paf_observer", risk.kind, risk.name, target.kind, target.name, target.measure];
    ObserverNameJoin(risk, target);
    assert "."[..0] == [];
    assert Dotless("paf_observer");
    SplitJoin(parts, ".", 0);
  }

  /** Two observers with dot-free parts have the same name only for the same risk and target. */
  lemma ObserverNameInjective(r1: EntityName, t1: TargetName, r2: EntityName, t2: TargetName)
    requires Dotless(r1.kind) && Dotless(r1.name) && Dotless(t1.kind) && Dotless(t1.name) && Dotless(t1.measure)
    requires Dotless(r2.kind) && Dotless(r2.name) && Dotless(t2.kind) && Dotless(t2.name) && Dotless(t2.measure)
    requires ObserverName(r1, t1) == ObserverName(r2, t2)
    ensures r1 == r2 && t1 == t2
  {
    ObserverNameParts(r1, t1);
    ObserverNameParts(r2, t2);
  }
}
