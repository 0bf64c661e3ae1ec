/**
 * The risk-exposure components of components/risks.py: the drop-value post-processor, the
 * exposure limits applied to GBD exposures, the medication multiplier and the categorical
 * binning of systolic blood pressure. A series of exposures is a sequence, one value per
 * simulant of the index in index order; the inverse-CDF draws (`ppf`) are inputs.
 */
module Risks {
  import opened Wrappers

  /** An entity string `type.name`, e.g. `risk_factor.high_ldl_cholesterol`. */
  datatype RiskEntity = RiskEntity(kind: string, name: string)
  {
    function Text(): string { kind + "." + name }
  }

  /** The limits of one entry of `RISK_EXPOSURE_LIMITS`. */
  datatype ExposureLimits = ExposureLimits(minimum: real, maximum: real)

  /** `RISK_EXPOSURE_LIMITS`, keyed by the risk's name. */
  const RISK_EXPOSURE_LIMITS: map<string, ExposureLimits> := map[
    "high_ldl_cholesterol" := ExposureLimits(0.0, 10.0),
    "high_systolic_blood_pressure" := ExposureLimits(50.0, 300.0)
  ]

  /** Every configured range is non-empty. */
  lemma LimitsAreRanges(name: string)
    requires name in RISK_EXPOSURE_LIMITS
    ensures RISK_EXPOSURE_LIMITS[name].minimum < RISK_EXPOSURE_LIMITS[name].maximum
  {
  }

  // ---------------------------------------------------------------- drop values

  /** The names of the pipelines a `DropValueRisk` registers besides its exposure. */
  function RawExposurePipeline(risk: RiskEntity): string { risk.name + ".raw_exposure" }
  function DropValuePipeline(risk: RiskEntity): string { risk.name + ".drop_value" }
  function GbdExposurePipeline(risk: RiskEntity): string { risk.name + ".gbd_exposure" }

  /** The three pipeline names of a risk are pairwise different. */
  lemma PipelineNamesDiffer(risk: RiskEntity)
    ensures RawExposurePipeline(risk) != DropValuePipeline(risk)
    ensures RawExposurePipeline(risk) != GbdExposurePipeline(risk)
    ensures DropValuePipeline(risk) != GbdExposurePipeline(risk)
  {
    var n := |risk.name|;
    assert RawExposurePipeline(risk)[n + 1] == 'r';
    assert DropValuePipeline(risk)[n + 1] == 'd';
    assert GbdExposurePipeline(risk)[n + 1] == 'g';
  }

  /** The drop-value pipeline's source: zero for every simulant. */
  function DropValueSource(size: nat): (r: seq<real>)
    ensures |r| == size && forall i :: 0 <= i < size ==> r[i] == 0.0
  {
    seq(size, _ => 0.0)
  }

  /** The post-processor: the exposure minus the simulant's drop value. */
  function DropValuePostProcess(exposure: seq<real>, dropValues: seq<real>): (r: seq<real>)
    requires |dropValues| == |exposure|
    ensures |r| == |exposure|
    ensures forall i :: 0 <= i < |r| ==> r[i] + dropValues[i] == exposure[i]
  {
    seq(|exposure|, i requires 0 <= i < |exposure| => exposure[i] - dropValues[i])
  }

  /** With no modifier on the drop-value pipeline, the exposure passes through unchanged. */
  lemma UnmodifiedDropValueKeepsExposure(exposure: seq<real>)
    ensures DropValuePostProcess(exposure, DropValueSource(|exposure|)) == exposure
  {
  }

  // ---------------------------------------------------------------- limits

  /** One value after the two masked assignments: raised to the minimum, then cut to the maximum. */
  function Clamp(x: real, limits: ExposureLimits): (r: real)
    ensures limits.minimum <= limits.maximum ==> limits.minimum <= r <= limits.maximum
    ensures limits.minimum <= x <= limits.maximum ==> r == x
    ensures x > limits.maximum ==> r == limits.maximum
    ensures x < limits.minimum && limits.minimum <= limits.maximum ==> r == limits.minimum
  {
    var raised := if x < limits.minimum then limits.minimum else x;
    if raised > limits.maximum then limits.maximum else raised
  }

  /** `exposures[exposures < minimum] = minimum` */
  method RaiseToMinimum(exposures: array<real>, minimum: real)
    modifies exposures
    ensures forall i :: 0 <= i < exposures.Length ==>
      exposures[i] == (if old(exposures[i]) < minimum then minimum else old(exposures[i]))
  {
    for i := 0 to exposures.Length
      invariant forall j :: 0 <= j < i ==>
        exposures[j] == (if old(exposures[j]) < minimum then minimum else old(exposures[j]))
      invariant forall j :: i <= j < exposures.Length ==> exposures[j] == old(exposures[j])
    {
      if exposures[i] < minimum {
        exposures[i] := minimum;
      }
    }
  }

  /** `exposures[exposures > maximum] = maximum` */
  method CutToMaximum(exposures: array<real>, maximum: real)
    modifies exposures
    ensures forall i :: 0 <= i < exposures.Length ==>
      exposures[i] == (if old(exposures[i]) > maximum then maximum else old(exposures[i]))
  {
    for i := 0 to exposures.Length
      invariant forall j :: 0 <= j < i ==>
        exposures[j] == (if old(exposures[j]) > maximum then maximum else old(exposures[j]))
      invariant forall j :: i <= j < exposures.Length ==> exposures[j] == old(exposures[j])
    {
      if exposures[i] > maximum {
        exposures[i] := maximum;
      }
    }
  }

  /** A fresh series of the draws, both limits applied in place. */
  method ClampedSeries(ppf: seq<real>, limits: ExposureLimits) returns (exposures: seq<real>)
    ensures |exposures| == |ppf|
    ensures forall i :: 0 <= i < |ppf| ==> exposures[i] == Clamp(ppf[i], limits)
  {
    var a := new real[|ppf|](i requires 0 <= i < |ppf| => ppf[i]);
    RaiseToMinimum(a, limits.minimum);
    CutToMaximum(a, limits.maximum);
    exposures := a[..];
  }

  /**
   * `AdjustedRisk.get_gbd_exposure`: the exposure at each simulant's propensity, held within
   * the risk's limits when it has an entry in `RISK_EXPOSURE_LIMITS` and untouched otherwise.
   */
  method GetGbdExposure(risk: RiskEntity, ppf: seq<real>) returns (exposures: seq<real>)
    ensures |exposures| == |ppf|
    ensures risk.name in RISK_EXPOSURE_LIMITS ==> forall i :: 0 <= i < |ppf| ==>
      RISK_EXPOSURE_LIMITS[risk.name].minimum <= exposures[i] <= RISK_EXPOSURE_LIMITS[risk.name].maximum &&
      exposures[i] == Clamp(ppf[i], RISK_EXPOSURE_LIMITS[risk.name])
    ensures risk.name !in RISK_EXPOSURE_LIMITS ==> exposures == ppf
  {
    if risk.name in RISK_EXPOSURE_LIMITS {
      LimitsAreRanges(risk.name);
      exposures := ClampedSeries(ppf, RISK_EXPOSURE_LIMITS[risk.name]);
    } else {
      exposures := ppf;
    }
  }

  /**
   * `TruncatedRisk.get_current_exposure`: the limits are looked up unconditionally, so a risk
   * without an entry raises a KeyError; values already within the limits are kept.
   */
  method GetTruncatedExposure(risk: RiskEntity, ppf: seq<real>) returns (r: Result<seq<real>>)
    ensures r.Err? <==> risk.name !in RISK_EXPOSURE_LIMITS
    ensures r.Err? ==> r.error == KeyError(risk.name)
    ensures r.Ok? ==> |r.value| == |ppf| && forall i :: 0 <= i < |ppf| ==>
      RISK_EXPOSURE_LIMITS[risk.name].minimum <= r.value[i] <= RISK_EXPOSURE_LIMITS[risk.name].maximum &&
      (RISK_EXPOSURE_LIMITS[risk.name].minimum <= ppf[i] <= RISK_EXPOSURE_LIMITS[risk.name].maximum ==> r.value[i] == ppf[i])
  {
    if risk.name !in RISK_EXPOSURE_LIMITS {
      return Err(KeyError(risk.name));
    }
    LimitsAreRanges(risk.name);
    var exposures := ClampedSeries(ppf, RISK_EXPOSURE_LIMITS[risk.name]);
    r := Ok(exposures);
  }

  // ---------------------------------------------------------------- multipliers

  /** The state-table column that holds a risk's medication multiplier. */
  datatype MultiplierColumn = SbpMultiplier | LdlcMultiplier

  /** A column of the state table a risk reads. */
  datatype Column = Propensity(risk: string) | Multiplier(column: MultiplierColumn)

  /** The multiplier column of the two medicated risks; other risks have none. */
  function MultiplierColumnOf(risk: RiskEntity): (r: Option<MultiplierColumn>)
    ensures r == Some(SbpMultiplier) <==> risk.Text() == "risk_factor.high_systolic_blood_pressure"
    ensures r == Some(LdlcMultiplier) <==> risk.Text() == "risk_factor.high_ldl_cholesterol"
  {
    if risk.Text() == "risk_factor.high_systolic_blood_pressure" then Some(SbpMultiplier)
    else if risk.Text() == "risk_factor.high_ldl_cholesterol" then Some(LdlcMultiplier)
    else None
  }

  /**
   * The columns a correlated risk reads: its propensity column, and for an `AdjustedRisk`
   * also its multiplier column when it has one.
   */
  function ColumnsRequired(risk: RiskEntity, adjusted: bool): (r: seq<Column>)
    ensures |r| >= 1 && r[0] == Propensity(risk.name)
    ensures |r| == 2 <==> adjusted && MultiplierColumnOf(risk).Some?
    ensures |r| == 2 ==> r[1] == Multiplier(MultiplierColumnOf(risk).value)
    ensures |r| <= 2
  {
    if adjusted && MultiplierColumnOf(risk).Some? then [Propensity(risk.name), Multiplier(MultiplierColumnOf(risk).value)]
    else [Propensity(risk.name)]
  }

  /** A `CorrelatedRisk` creates no column of its own: its propensities come from the correlation. */
  function ColumnsCreated(risk: RiskEntity): (r: seq<Column>)
    ensures r == []
  {
    []
  }

  /**
   * `AdjustedRisk.get_current_exposure`: the GBD exposure times the simulant's multiplier for
   * the two medicated risks, and the GBD exposure itself for the others.
   */
  function CurrentExposure(risk: RiskEntity, gbd: seq<real>, multipliers: seq<real>): (r: seq<real>)
    requires |multipliers| == |gbd|
    ensures |r| == |gbd|
    ensures MultiplierColumnOf(risk).Some? ==> forall i :: 0 <= i < |gbd| ==> r[i] == gbd[i] * multipliers[i]
    ensures MultiplierColumnOf(risk).None? ==> r == gbd
  {
    if MultiplierColumnOf(risk).Some? then seq(|gbd|, i requires 0 <= i < |gbd| => gbd[i] * multipliers[i])
    else gbd
  }

  /** An untreated simulant (multiplier 1) keeps the GBD exposure. */
  lemma UnitMultiplierKeepsExposure(risk: RiskEntity, gbd: seq<real>)
    ensures CurrentExposure(risk, gbd, seq(|gbd|, _ => 1.0)) == gbd
  {
  }

  // ---------------------------------------------------------------- categorical SBP

  datatype SbpCategory = Cat1 | Cat2 | Cat3 | Cat4
  {
    /** Higher is more severe: cat1 is the highest pressure. */
    function Severity(): nat
    {
      match this
      case Cat4 => 0
      case Cat3 => 1
      case Cat2 => 2
      case Cat1 => 3
    }
  }

  /** The left edges of cat3, cat2 and cat1; `pd.cut` refuses bins that do not increase. */
  datatype SbpThresholds = SbpThresholds(cat3Left: real, cat2Left: real, cat1Left: real)
  {
    predicate Increasing() { 0.0 < cat3Left < cat2Left < cat1Left }
  }

  /**
   * `pd.cut(sbp, [0, c3, c2, c1, inf], right=False)`: left-closed, right-open bins; a value
   * below 0 falls in no bin (NaN).
   */
  function Categorize(sbp: real, t: SbpThresholds): (r: Option<SbpCategory>)
    requires t.Increasing()
    ensures r.None? <==> sbp < 0.0
    ensures r == Some(Cat4) <==> 0.0 <= sbp < t.cat3Left
    ensures r == Some(Cat3) <==> t.cat3Left <= sbp < t.cat2Left
    ensures r == Some(Cat2) <==> t.cat2Left <= sbp < t.cat1Left
    ensures r == Some(Cat1) <==> t.cat1Left <= sbp
  {
    if sbp < 0.0 then None
    else if sbp < t.cat3Left then Some(Cat4)
    else if sbp < t.cat2Left then Some(Cat3)
    else if sbp < t.cat1Left then Some(Cat2)
    else Some(Cat1)
  }

  /** A higher blood pressure never falls in a milder category. */
  lemma CategorizeMonotone(x: real, y: real, t: SbpThresholds)
    requires t.Increasing() && 0.0 <= x <= y
    ensures Categorize(x, t).value.Severity() <= Categorize(y, t).value.Severity()
  {
  }

  /** `CategoricalSBPRisk.get_current_exposure` over a series. */
  function CategoricalExposure(sbp: seq<real>, t: SbpThresholds): (r: seq<Option<SbpCategory>>)
    requires t.Increasing()
    ensures |r| == |sbp| && forall i :: 0 <= i < |sbp| ==> r[i] == Categorize(sbp[i], t)
  {
    seq(|sbp|, i requires 0 <= i < |sbp| => Categorize(sbp[i], t))
  }
}
