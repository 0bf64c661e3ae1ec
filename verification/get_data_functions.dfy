/**
 * The combined-incidence rates and split proportions of the heart-disease model with explicit
 * transient states (components/causes/get_data_functions.py). Each function there loads the
 * acute-MI, HF-from-IHD and residual-HF incidence tables, aligns them on the demographic index
 * and combines them row by row; the model states one row. A division by a zero total is
 * `None` (pandas gives NaN or an infinity there).
 */
module GetDataFunctions {
  import opened Wrappers
  import Paf
  import Transition
  import State

  /** The three incidence values of one demographic row. */
  datatype Incidences = Incidences(acuteMi: real, hfIhd: real, hfResidual: real)

  predicate NonNegative(i: Incidences)
  {
    i.acuteMi >= 0.0 && i.hfIhd >= 0.0 && i.hfResidual >= 0.0
  }

  /** `part / whole`, with no value for a zero whole. */
  function Ratio(part: real, whole: real): (r: Option<real>)
    ensures r.None? <==> whole == 0.0
    ensures r.Some? ==> r.value * whole == part
  {
    if whole == 0.0 then None else Some(part / whole)
  }

  /** Leaving the susceptible state: the sum of the three incidences. */
  function TransientSusceptibleIncidenceRate(i: Incidences): (r: real)
    ensures NonNegative(i) ==> r >= i.acuteMi && r >= i.hfIhd && r >= i.hfResidual
    ensures r - i.acuteMi - i.hfIhd == i.hfResidual
  {
    i.acuteMi + i.hfIhd + i.hfResidual
  }

  /** Share of the susceptible exits that go to acute MI; times the exit rate it is the acute-MI incidence. */
  function AcuteMiAfterSusceptibleProportion(i: Incidences): (r: Option<real>)
    ensures r.None? <==> TransientSusceptibleIncidenceRate(i) == 0.0
    ensures r.Some? ==> r.value * TransientSusceptibleIncidenceRate(i) == i.acuteMi
  {
    Ratio(i.acuteMi, TransientSusceptibleIncidenceRate(i))
  }

  /** Share of the susceptible exits that go to heart failure from IHD. */
  function HfIhdAfterSusceptibleProportion(i: Incidences): (r: Option<real>)
    ensures r.None? <==> TransientSusceptibleIncidenceRate(i) == 0.0
    ensures r.Some? ==> r.value * TransientSusceptibleIncidenceRate(i) == i.hfIhd
  {
    Ratio(i.hfIhd, TransientSusceptibleIncidenceRate(i))
  }

  /** Share of the susceptible exits that go to residual heart failure. */
  function HfResidualAfterSusceptibleProportion(i: Incidences): (r: Option<real>)
    ensures r.None? <==> TransientSusceptibleIncidenceRate(i) == 0.0
    ensures r.Some? ==> r.value * TransientSusceptibleIncidenceRate(i) == i.hfResidual
  {
    Ratio(i.hfResidual, TransientSusceptibleIncidenceRate(i))
  }

  /** Leaving post-MI: acute-MI plus HF-from-IHD incidence (residual HF is not reachable from there). */
  function TransientPostMiTransitionRate(i: Incidences): (r: real)
    ensures NonNegative(i) ==> r >= i.acuteMi && r >= i.hfIhd && r <= TransientSusceptibleIncidenceRate(i)
    ensures r - i.acuteMi == i.hfIhd
  {
    i.acuteMi + i.hfIhd
  }

  /** Share of the post-MI exits that go back to acute MI. */
  function AcuteMiAfterPostMiProportion(i: Incidences): (r: Option<real>)
    ensures r.None? <==> TransientPostMiTransitionRate(i) == 0.0
    ensures r.Some? ==> r.value * TransientPostMiTransitionRate(i) == i.acuteMi
  {
    Ratio(i.acuteMi, TransientPostMiTransitionRate(i))
  }

  /** Share of the post-MI exits that go to heart failure from IHD. */
  function HfIhdOutOfPostMiProportion(i: Incidences): (r: Option<real>)
    ensures r.None? <==> TransientPostMiTransitionRate(i) == 0.0
    ensures r.Some? ==> r.value * TransientPostMiTransitionRate(i) == i.hfIhd
  {
    Ratio(i.hfIhd, TransientPostMiTransitionRate(i))
  }

  /** Three shares of one nonzero total add up to 1. */
  lemma SharesSumToOne(a: real, b: real, c: real, pa: real, pb: real, pc: real)
    requires a + b + c != 0.0
    requires pa * (a + b + c) == a && pb * (a + b + c) == b && pc * (a + b + c) == c
    ensures pa + pb + pc == 1.0
  {
    var s := a + b + c;
    var x := pa + pb + pc;
    assert x * s == pa * s + pb * s + pc * s;
    assert (x - 1.0) * s == 0.0;
  }

  /** With a nonzero exit rate, the three susceptible proportions exist and sum to 1. */
  lemma SusceptibleProportionsSumToOne(i: Incidences)
    requires TransientSusceptibleIncidenceRate(i) != 0.0
    ensures AcuteMiAfterSusceptibleProportion(i).Some?
    ensures HfIhdAfterSusceptibleProportion(i).Some?
    ensures HfResidualAfterSusceptibleProportion(i).Some?
    ensures AcuteMiAfterSusceptibleProportion(i).value + HfIhdAfterSusceptibleProportion(i).value
      + HfResidualAfterSusceptibleProportion(i).value == 1.0
  {
    SharesSumToOne(i.acuteMi, i.hfIhd, i.hfResidual,
      AcuteMiAfterSusceptibleProportion(i).value, HfIhdAfterSusceptibleProportion(i).value,
      HfResidualAfterSusceptibleProportion(i).value);
  }

  /** A share of a positive total made of non-negative parts lies in [0, 1]. */
  lemma ShareBounds(part: real, whole: real)
    requires 0.0 <= part <= whole && whole > 0.0
    ensures 0.0 <= Ratio(part, whole).value <= 1.0
  {
    var p := Ratio(part, whole).value;
    assert p * whole == part;
    assert (1.0 - p) * whole == whole - part;
  }

  /** For non-negative incidences with a positive sum, each susceptible proportion lies in [0, 1]. */
  lemma SusceptibleProportionBounds(i: Incidences)
    requires NonNegative(i) && TransientSusceptibleIncidenceRate(i) > 0.0
    ensures 0.0 <= AcuteMiAfterSusceptibleProportion(i).value <= 1.0
    ensures 0.0 <= HfIhdAfterSusceptibleProportion(i).value <= 1.0
    ensures 0.0 <= HfResidualAfterSusceptibleProportion(i).value <= 1.0
  {
    var s := TransientSusceptibleIncidenceRate(i);
    ShareBounds(i.acuteMi, s);
    ShareBounds(i.hfIhd, s);
    ShareBounds(i.hfResidual, s);
  }

  /** With a nonzero post-MI exit rate, the two post-MI proportions exist and sum to 1. */
  lemma PostMiProportionsSumToOne(i: Incidences)
    requires TransientPostMiTransitionRate(i) != 0.0
    ensures AcuteMiAfterPostMiProportion(i).Some? && HfIhdOutOfPostMiProportion(i).Some?
    ensures AcuteMiAfterPostMiProportion(i).value + HfIhdOutOfPostMiProportion(i).value == 1.0
  {
    SharesSumToOne(i.acuteMi, i.hfIhd, 0.0,
      AcuteMiAfterPostMiProportion(i).value, HfIhdOutOfPostMiProportion(i).value, 0.0);
  }

  /** For non-negative incidences with a positive sum, each post-MI proportion lies in [0, 1]. */
  lemma PostMiProportionBounds(i: Incidences)
    requires NonNegative(i) && TransientPostMiTransitionRate(i) > 0.0
    ensures 0.0 <= AcuteMiAfterPostMiProportion(i).value <= 1.0
    ensures 0.0 <= HfIhdOutOfPostMiProportion(i).value <= 1.0
  {
    var s := TransientPostMiTransitionRate(i);
    ShareBounds(i.acuteMi, s);
    ShareBounds(i.hfIhd, s);
  }

  /**
   * The explicit transient-state split agrees with the multi-exit state of components/causes:
   * the susceptible exit rate is the composite rate of the three sub-rates, and the three
   * proportions are that state's conditional exit probabilities.
   */
  lemma SusceptibleSplitMatchesMultiExit(i: Incidences)
    requires TransientSusceptibleIncidenceRate(i) != 0.0
    ensures Transition.CompositeRate([i.acuteMi, i.hfIhd, i.hfResidual]) == Ok(TransientSusceptibleIncidenceRate(i))
    ensures State.ExitProbabilities([i.acuteMi, i.hfIhd, i.hfResidual]) ==
      [AcuteMiAfterSusceptibleProportion(i).value, HfIhdAfterSusceptibleProportion(i).value,
       HfResidualAfterSusceptibleProportion(i).value]
  {
    var rates := [i.acuteMi, i.hfIhd, i.hfResidual];
    assert rates[..2][..1] == rates[..1] && rates[..1][..0] == [];
    assert Paf.Sum(rates[..1]) == i.acuteMi;
    assert Paf.Sum(rates[..2]) == i.acuteMi + i.hfIhd;
  }

  /** The same agreement for the two post-MI exits. */
  lemma PostMiSplitMatchesMultiExit(i: Incidences)
    requires TransientPostMiTransitionRate(i) != 0.0
    ensures Transition.CompositeRate([i.acuteMi, i.hfIhd]) == Ok(TransientPostMiTransitionRate(i))
    ensures State.ExitProbabilities([i.acuteMi, i.hfIhd]) ==
      [AcuteMiAfterPostMiProportion(i).value, HfIhdOutOfPostMiProportion(i).value]
  {
    var rates := [i.acuteMi, i.hfIhd];
    assert rates[..1][..0] == [];
    assert Paf.Sum(rates[..1]) == i.acuteMi;
  }
}
