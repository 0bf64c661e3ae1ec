/**
 * The simulant record of the treatment and healthcare components and the pure rules of the
 * `Treatment` component (components/treatment.py): the SBP and LDL-C medication effects on
 * the exposure pipelines, the lifestyle drop-value schedule, the initial coverage
 * probabilities, measurement error and the ASCVD score.
 *
 * Medication levels are the `VALUE`s of the level tables: `NO_TREATMENT` is 0 and the
 * levels of a drug class run contiguously from 0 to its maximum.
 */
module Treatment {
  import opened Wrappers
  import opened DataValues
  import opened Frames

  const NO_TREATMENT: nat := 0

  /** The two medication classes, each with its own columns. */
  datatype Drug = Sbp | Ldlc

  /** One row of the population table, restricted to the columns these components use. */
  datatype Simulant = Simulant(
    alive: bool,
    age: real,
    sex: Sex,
    strokeState: string,
    ihdState: string,
    tracked: bool,
    sbpMedication: nat,
    ldlcMedication: nat,
    sbpAdherence: Adherence,
    ldlcAdherence: Adherence,
    sbpStartDate: Option<real>,
    ldlcStartDate: Option<real>,
    sbpDiscontinued: bool,
    ldlcDiscontinued: bool,
    lifestyleAdherence: bool,
    outreach: Category,
    polypill: Category,
    lifestyle: Option<real>,
    lastFpgTestDate: Option<real>,
    visitType: VisitType,
    scheduledDate: Option<real>)
  {
    function Level(d: Drug): nat { if d.Sbp? then sbpMedication else ldlcMedication }
    function AdherenceOf(d: Drug): Adherence { if d.Sbp? then sbpAdherence else ldlcAdherence }
    function StartDate(d: Drug): Option<real> { if d.Sbp? then sbpStartDate else ldlcStartDate }
    function Discontinued(d: Drug): bool { if d.Sbp? then sbpDiscontinued else ldlcDiscontinued }

    function WithLevel(d: Drug, level: nat): Simulant
    {
      if d.Sbp? then this.(sbpMedication := level) else this.(ldlcMedication := level)
    }

    function WithStartDate(d: Drug, date: Option<real>): Simulant
    {
      if d.Sbp? then this.(sbpStartDate := date) else this.(ldlcStartDate := date)
    }

    function WithDiscontinued(d: Drug, flag: bool): Simulant
    {
      if d.Sbp? then this.(sbpDiscontinued := flag) else this.(ldlcDiscontinued := flag)
    }
  }

  /** `rows.loc[ids, level column] = level`: the rows in `ids` get their level from `level`. */
  method SetLevels(rows: map<int, Simulant>, ids: set<int>, d: Drug, level: int -> nat) returns (r: map<int, Simulant>)
    ensures r.Keys == rows.Keys
    ensures forall id :: id in rows ==> r[id] == if id in ids then rows[id].WithLevel(d, level(id)) else rows[id]
  {
    r := SetWhere(rows, ids, (id: int, s: Simulant) => s.WithLevel(d, level(id)));
  }

  // ---------------------------------------------------------------- SBP medication effect

  /** A bin edge of the SBP effects table; a missing upper bound is infinity. */
  datatype Bound = At(x: real) | Infinite

  predicate Below(a: Bound, b: Bound)
  {
    a.At? && (b.Infinite? || a.x < b.x)
  }

  /** One row of the SBP medication effects file: a bin `(start, end]`, a level, an effect. */
  datatype SbpEffectRow = SbpEffectRow(startExclusive: real, endInclusive: Option<real>, level: nat, value: real)

  function EndBound(row: SbpEffectRow): Bound
  {
    if row.endInclusive.None? then Infinite else At(row.endInclusive.value)
  }

  /** `_get_sbp_bin_edges`: the sorted distinct bin starts and ends of the table. */
  ghost predicate IsBinEdges(edges: seq<Bound>, table: seq<SbpEffectRow>)
  {
    && (forall i :: 0 <= i < |edges| - 1 ==> Below(edges[i], edges[i + 1]))
    && (forall b :: b in edges <==> exists k :: 0 <= k < |table| && (b == At(table[k].startExclusive) || b == EndBound(table[k])))
  }

  /** `pd.cut(x, bins=edges, right=True)`: the first bin `(edges[i], edges[i + 1]]` holding `x`. */
  function SbpBin(x: real, edges: seq<Bound>): (r: Option<(Bound, Bound)>)
    ensures r.Some? ==> exists i :: 0 <= i < |edges| - 1 && r.value == (edges[i], edges[i + 1])
    ensures r.Some? ==> r.value.0.At? && r.value.0.x < x && (r.value.1.Infinite? || x <= r.value.1.x)
    ensures r.None? ==> forall i :: 0 <= i < |edges| - 1 ==> !(edges[i].At? && edges[i].x < x && (edges[i + 1].Infinite? || x <= edges[i + 1].x))
  {
    if |edges| < 2 then None
    else if edges[0].At? && edges[0].x < x && (edges[1].Infinite? || x <= edges[1].x) then Some((edges[0], edges[1]))
    else
      var r := SbpBin(x, edges[1..]);
      assert forall i :: 1 <= i < |edges| ==> edges[i] == edges[1..][i - 1];
      r
  }

  /** The left merge on `(sbp_start_exclusive, sbp_end_inclusive, level)`: the matching row's effect. */
  function SbpEffectOf(table: seq<SbpEffectRow>, bin: (Bound, Bound), level: nat): (r: Option<real>)
    ensures r.Some? <==> exists k :: 0 <= k < |table| && At(table[k].startExclusive) == bin.0 && EndBound(table[k]) == bin.1 && table[k].level == level
    ensures r.Some? ==> exists k :: 0 <= k < |table| && table[k].value == r.value && table[k].level == level
  {
    if table == [] then None
    else if At(table[0].startExclusive) == bin.0 && EndBound(table[0]) == bin.1 && table[0].level == level then Some(table[0].value)
    else
      assert forall k :: 1 <= k < |table| ==> table[k] == table[1..][k - 1];
      SbpEffectOf(table[1..], bin, level)
  }

  /** The level the SBP modifier uses: untracked simulants count as untreated. */
  function EffectiveSbpLevel(s: Simulant): (r: nat)
    ensures !s.tracked ==> r == NO_TREATMENT
    ensures s.tracked ==> r == s.sbpMedication
  {
    if s.tracked then s.sbpMedication else NO_TREATMENT
  }

  /**
   * One simulant's SBP decrease, `treatment_efficacy * adherence`: no decrease without
   * treatment; a treated simulant whose bin and level have no row fails the assertion.
   */
  function SbpDecrease(s: Simulant, target: real, table: seq<SbpEffectRow>, edges: seq<Bound>): (r: Result<real>)
    ensures EffectiveSbpLevel(s) == NO_TREATMENT ==> r == Ok(0.0)
    ensures r.Err? ==> r.error == AssertionError
    ensures r.Ok? && s.sbpAdherence != Adherent ==> r.value == 0.0
    ensures r.Ok? && r.value != 0.0 ==> exists k :: 0 <= k < |table| && table[k].value == r.value && table[k].level == EffectiveSbpLevel(s)
    ensures r.Err? <==> (EffectiveSbpLevel(s) != NO_TREATMENT &&
      (SbpBin(target, edges).None? || SbpEffectOf(table, SbpBin(target, edges).value, EffectiveSbpLevel(s)).None?))
  {
    var level := EffectiveSbpLevel(s);
    if level == NO_TREATMENT then Ok(0.0)
    else
      match SbpBin(target, edges)
      case None => Err(AssertionError)
      case Some(bin) =>
        match SbpEffectOf(table, bin, level)
        case None => Err(AssertionError)
        case Some(v) => Ok(if s.sbpAdherence == Adherent then v else 0.0)
  }

  /**
   * The SBP target modifier: `target - efficacy * adherent` for every simulant of the index,
   * or the assertion failure when some treated simulant has no effect row.
   */
  function SbpTargetModifier(target: map<int, real>, pop: map<int, Simulant>, table: seq<SbpEffectRow>, edges: seq<Bound>)
    : (r: Result<map<int, real>>)
    requires target.Keys <= pop.Keys
    ensures r.Err? <==> exists id :: id in target && SbpDecrease(pop[id], target[id], table, edges).Err?
    ensures r.Err? ==> r.error == AssertionError
    ensures r.Ok? ==> r.value.Keys == target.Keys
    ensures r.Ok? ==> forall id :: id in target && (EffectiveSbpLevel(pop[id]) == NO_TREATMENT || pop[id].sbpAdherence != Adherent) ==>
      r.value[id] == target[id]
    ensures r.Ok? ==> forall id :: id in target ==> r.value[id] == target[id] - SbpDecrease(pop[id], target[id], table, edges).value
  {
    if exists id :: id in target && SbpDecrease(pop[id], target[id], table, edges).Err? then Err(AssertionError)
    else Ok(map id | id in target :: target[id] - SbpDecrease(pop[id], target[id], table, edges).value)
  }

  /** With non-negative effects in the table, treatment never raises anyone's SBP. */
  lemma SbpTreatmentNeverRaises(target: map<int, real>, pop: map<int, Simulant>, table: seq<SbpEffectRow>, edges: seq<Bound>)
    requires target.Keys <= pop.Keys
    requires forall k :: 0 <= k < |table| ==> table[k].value >= 0.0
    requires SbpTargetModifier(target, pop, table, edges).Ok?
    ensures forall id :: id in target ==> SbpTargetModifier(target, pop, table, edges).value[id] <= target[id]
  {
    forall id | id in target
      ensures SbpDecrease(pop[id], target[id], table, edges).value >= 0.0
    {
      var d := SbpDecrease(pop[id], target[id], table, edges);
      if d.value != 0.0 {
        var k :| 0 <= k < |table| && table[k].value == d.value && table[k].level == EffectiveSbpLevel(pop[id]);
      }
    }
  }

  // ---------------------------------------------------------------- LDL-C medication effect

  /** `_get_ldlc_medication_effects`: the loaded percentages as fractions. */
  function LdlcMedicationEffects(percent: map<nat, real>): (r: map<nat, real>)
    ensures r.Keys == percent.Keys && forall l :: l in r ==> r[l] * 100.0 == percent[l]
  {
    map l | l in percent :: percent[l] / 100.0
  }

  /**
   * The LDL-C target modifier for one simulant, `target * (1 - efficacy * adherent)`:
   * untreated simulants keep their target, and a level without an effect gives NaN (None).
   */
  function LdlcAdjusted(s: Simulant, target: real, effects: map<nat, real>): (r: Option<real>)
    ensures r.None? <==> s.ldlcMedication != NO_TREATMENT && s.ldlcMedication !in effects
    ensures r.Some? && (s.ldlcMedication == NO_TREATMENT || s.ldlcAdherence != Adherent) ==> r.value == target
    ensures r.Some? && s.ldlcMedication != NO_TREATMENT && s.ldlcAdherence == Adherent ==>
      r.value == target * (1.0 - effects[s.ldlcMedication])
  {
    if s.ldlcMedication == NO_TREATMENT then Some(target)
    else if s.ldlcMedication !in effects then None
    else Some(target * (1.0 - if s.ldlcAdherence == Adherent then effects[s.ldlcMedication] else 0.0))
  }

  /** The LDL-C target modifier over the index. */
  function LdlcTargetModifier(target: map<int, real>, pop: map<int, Simulant>, effects: map<nat, real>): (r: map<int, Option<real>>)
    requires target.Keys <= pop.Keys
    ensures r.Keys == target.Keys
    ensures forall id :: id in target ==> r[id] == LdlcAdjusted(pop[id], target[id], effects)
  {
    map id | id in target :: LdlcAdjusted(pop[id], target[id], effects)
  }

  /** Effects that are fractions in [0, 1] keep a non-negative LDL-C between 0 and its value. */
  lemma LdlcTreatmentStaysInRange(s: Simulant, target: real, effects: map<nat, real>)
    requires target >= 0.0 && forall l :: l in effects ==> 0.0 <= effects[l] <= 1.0
    requires LdlcAdjusted(s, target, effects).Some?
    ensures 0.0 <= LdlcAdjusted(s, target, effects).value <= target
  {
    if s.ldlcMedication != NO_TREATMENT && s.ldlcAdherence == Adherent {
      var e := effects[s.ldlcMedication];
      assert 0.0 <= 1.0 - e <= 1.0;
      assert target * (1.0 - e) >= 0.0;
      assert target * (1.0 - e) == target - target * e;
      NonNegativeProduct(target, e);
    }
  }

  lemma NonNegativeProduct(a: real, b: real)
    requires a >= 0.0 && b >= 0.0
    ensures a * b >= 0.0
  {
  }

  // ---------------------------------------------------------------- lifestyle drop values

  /** `LIFESTYLE_DROP_VALUES`: initial and final drop values per risk, and the period lengths in years. */
  datatype LifestyleDropValues = LifestyleDropValues(
    bmiInitial: real, bmiFinal: real,
    fpgInitial: real, fpgFinal: real,
    sbpInitial: real, sbpFinal: real,
    yearsInMaintenancePeriod: real,
    yearsInDecreasingPeriod: real)

  /** The initial and final drop value of a risk; any other risk name is a ValueError. */
  function DropValuePair(risk: string, c: LifestyleDropValues): (r: Result<(real, real)>)
    ensures r.Err? <==> risk !in {"bmi", "fpg", "sbp"}
    ensures r.Err? ==> r.error == ValueError("Unrecognized risk " + risk + ". Risk should be bmi, fpg, or sbp.")
  {
    if risk == "bmi" then Ok((c.bmiInitial, c.bmiFinal))
    else if risk == "fpg" then Ok((c.fpgInitial, c.fpgFinal))
    else if risk == "sbp" then Ok((c.sbpInitial, c.sbpFinal))
    else Err(ValueError("Unrecognized risk " + risk + ". Risk should be bmi, fpg, or sbp."))
  }

  function DecreasingStart(enrollment: real, c: LifestyleDropValues): real
  {
    enrollment + DAYS_PER_YEAR * c.yearsInMaintenancePeriod
  }

  function DecreasingEnd(enrollment: real, c: LifestyleDropValues): real
  {
    DecreasingStart(enrollment, c) + DAYS_PER_YEAR * c.yearsInDecreasingPeriod
  }

  /**
   * The drop value of an enrolled simulant: the initial value up to the end of the
   * maintenance period, a linear move to the final value over the decreasing period, and
   * the final value afterwards. The three masks are assigned in that order, so where they
   * overlap (a negative decreasing period) the later one wins.
   */
  function ScheduledDropValue(clock: real, enrollment: real, initial: real, final: real, c: LifestyleDropValues): (r: real)
    ensures clock > DecreasingEnd(enrollment, c) ==> r == final
    ensures clock <= DecreasingEnd(enrollment, c) && clock <= DecreasingStart(enrollment, c) ==> r == initial
    ensures DecreasingStart(enrollment, c) < clock <= DecreasingEnd(enrollment, c) ==>
      r == initial - (clock - DecreasingStart(enrollment, c)) / (DecreasingEnd(enrollment, c) - DecreasingStart(enrollment, c)) * (initial - final)
  {
    var start := DecreasingStart(enrollment, c);
    if clock > DecreasingEnd(enrollment, c) then final
    else if start < clock then
      initial - (clock - start) / (DAYS_PER_YEAR * c.yearsInDecreasingPeriod) * (initial - final)
    else initial
  }

  /** The scheduled value always lies between the initial and the final drop value. */
  lemma ScheduledDropValueBetween(clock: real, enrollment: real, initial: real, final: real, c: LifestyleDropValues)
    ensures var v := ScheduledDropValue(clock, enrollment, initial, final, c);
      (initial <= v <= final) || (final <= v <= initial)
  {
    var start := DecreasingStart(enrollment, c);
    if start < clock <= DecreasingEnd(enrollment, c) {
      var span := DAYS_PER_YEAR * c.yearsInDecreasingPeriod;
      var progress := (clock - start) / span;
      assert 0.0 < clock - start <= span;
      DivideWithin(clock - start, span);
      assert initial - progress * (initial - final) == (1.0 - progress) * initial + progress * final;
    }
  }

  lemma DivideWithin(a: real, b: real)
    requires 0.0 < a <= b
    ensures 0.0 < a / b <= 1.0
  {
    assert (a / b) * b == a;
  }

  /** The schedule is continuous where the decreasing period ends: it reaches the final value there. */
  lemma ScheduledDropValueReachesFinal(enrollment: real, initial: real, final: real, c: LifestyleDropValues)
    requires c.yearsInDecreasingPeriod > 0.0
    ensures ScheduledDropValue(DecreasingEnd(enrollment, c), enrollment, initial, final, c) == final
    ensures ScheduledDropValue(DecreasingStart(enrollment, c), enrollment, initial, final, c) == initial
  {
    var span := DAYS_PER_YEAR * c.yearsInDecreasingPeriod;
    assert (DecreasingEnd(enrollment, c) - DecreasingStart(enrollment, c)) / span == 1.0;
  }

  /**
   * One simulant's updated drop value: without an enrollment date the masks all fail and the
   * target stays; the result is multiplied by the lifestyle adherence flag.
   */
  function UpdatedDropValue(clock: real, s: Simulant, target: real, initial: real, final: real, c: LifestyleDropValues): (r: real)
    ensures !s.lifestyleAdherence ==> r == 0.0
    ensures s.lifestyleAdherence && s.lifestyle.None? ==> r == target
    ensures s.lifestyleAdherence && s.lifestyle.Some? ==> r == ScheduledDropValue(clock, s.lifestyle.value, initial, final, c)
  {
    (if s.lifestyle.None? then target else ScheduledDropValue(clock, s.lifestyle.value, initial, final, c))
      * (if s.lifestyleAdherence then 1.0 else 0.0)
  }

  /** `get_updated_drop_values` over the index. */
  function UpdatedDropValues(target: map<int, real>, pop: map<int, Simulant>, risk: string, clock: real, c: LifestyleDropValues)
    : (r: Result<map<int, real>>)
    requires target.Keys <= pop.Keys
    ensures r.Err? <==> DropValuePair(risk, c).Err?
    ensures r.Ok? ==> r.value.Keys == target.Keys
    ensures r.Ok? ==> forall id :: id in target ==>
      r.value[id] == UpdatedDropValue(clock, pop[id], target[id], DropValuePair(risk, c).value.0, DropValuePair(risk, c).value.1, c)
  {
    var pair :- DropValuePair(risk, c);
    Ok(map id | id in target :: UpdatedDropValue(clock, pop[id], target[id], pair.0, pair.1, c))
  }

  /**
   * The masked assignments of `get_updated_drop_values`, in order: the initial value, the
   * decreasing period, the final value, then the adherence factor.
   */
  method GetUpdatedDropValues(target: map<int, real>, pop: map<int, Simulant>, risk: string, clock: real, c: LifestyleDropValues)
    returns (r: Result<map<int, real>>)
    requires target.Keys <= pop.Keys
    ensures r == UpdatedDropValues(target, pop, risk, clock, c)
  {
    var pair := DropValuePair(risk, c);
    if pair.Err? {
      return Err(pair.error);
    }
    var (initial, final) := pair.value;
    var values := target;
    var ids := target.Keys;
    while ids != {}
      invariant ids <= target.Keys && values.Keys == target.Keys
      invariant forall id :: id in target && id !in ids ==> values[id] == UpdatedDropValue(clock, pop[id], target[id], initial, final, c)
      invariant forall id :: id in ids ==> values[id] == target[id]
      decreases |ids|
    {
      var id := Pick(ids);
      var v := target[id];
      var s := pop[id];
      if s.lifestyle.Some? {
        var start := DecreasingStart(s.lifestyle.value, c);
        var end := DecreasingEnd(s.lifestyle.value, c);
        if clock <= start {
          v := initial;
        }
        if start < clock && clock <= end {
          v := initial - (clock - start) / (DAYS_PER_YEAR * c.yearsInDecreasingPeriod) * (initial - final);
        }
        if clock > end {
          v := final;
        }
      }
      values := values[id := v * (if s.lifestyleAdherence then 1.0 else 0.0)];
      ids := ids - {id};
    }
    var expected := map id | id in target :: UpdatedDropValue(clock, pop[id], target[id], initial, final, c);
    assert values.Keys == expected.Keys;
    assert forall id :: id in values ==> values[id] == expected[id];
    assert values == expected;
    r := Ok(values);
  }

  // ---------------------------------------------------------------- initial coverage

  /** Three non-negative numbers, one per medicated state: SBP only, LDL-C only, both. */
  datatype CoverageWeights = CoverageWeights(sbp: real, ldlc: real, both: real)
  {
    predicate NonNegative() { sbp >= 0.0 && ldlc >= 0.0 && both >= 0.0 }
  }

  /** The probabilities of the four initial coverage states. */
  datatype CoverageProbabilities = CoverageProbabilities(sbp: real, ldlc: real, both: real, none: real)

  /**
   * `calculate_initial_medication_coverage_probabilities`: the exponentiated covariates are
   * scaled by the coverage "relative risks"; each state gets its weight over one plus the
   * total, and "none" gets one over it. The probabilities are non-negative, sum to one, and
   * each medicated state's odds against "none" are its weight.
   */
  function InitialCoverageProbabilities(covariates: CoverageWeights, scaling: CoverageWeights): (r: CoverageProbabilities)
    requires covariates.NonNegative() && scaling.NonNegative()
    ensures r.sbp >= 0.0 && r.ldlc >= 0.0 && r.both >= 0.0 && 0.0 < r.none <= 1.0
    ensures r.sbp + r.ldlc + r.both + r.none == 1.0
    ensures r.sbp == covariates.sbp * scaling.sbp * r.none
    ensures r.ldlc == covariates.ldlc * scaling.ldlc * r.none
    ensures r.both == covariates.both * scaling.both * r.none
  {
    var w := CoverageWeights(covariates.sbp * scaling.sbp, covariates.ldlc * scaling.ldlc, covariates.both * scaling.both);
    assert w.NonNegative();
    var denominator := w.sbp + w.ldlc + w.both + 1.0;
    FractionsSumToOne(w.sbp, w.ldlc, w.both, denominator);
    CoverageProbabilities(w.sbp / denominator, w.ldlc / denominator, w.both / denominator, 1.0 / denominator)
  }

  lemma FractionsSumToOne(a: real, b: real, c: real, d: real)
    requires a >= 0.0 && b >= 0.0 && c >= 0.0 && d == a + b + c + 1.0
    ensures a / d + b / d + c / d + 1.0 / d == 1.0
    ensures a / d == a * (1.0 / d) && b / d == b * (1.0 / d) && c / d == c * (1.0 / d)
    ensures 0.0 < 1.0 / d <= 1.0 && a / d >= 0.0 && b / d >= 0.0 && c / d >= 0.0
  {
    assert a / d + b / d + c / d + 1.0 / d == (a + b + c + 1.0) / d;
  }

  // ---------------------------------------------------------------- measurements

  /** `get_measured_sbp` / `get_measured_ldlc`: exposure plus measurement error, clipped below at 0. */
  function Measured(exposure: real, error: real): (r: real)
    ensures r >= 0.0 && r >= exposure + error
    ensures exposure + error >= 0.0 ==> r == exposure + error
    ensures exposure + error < 0.0 ==> r == 0.0
  {
    if exposure + error < 0.0 then 0.0 else exposure + error
  }

  /** `ASCVD_COEFFICIENTS` and `ASCVD_SEX_MAPPING`. */
  datatype AscvdCoefficients = AscvdCoefficients(intercept: real, sbp: real, age: real, sex: real, female: real, male: real)

  /** The part of the score that does not depend on SBP: intercept, age and the mapped sex. */
  function AscvdBase(c: AscvdCoefficients, s: Simulant): real
  {
    c.intercept + c.age * s.age + c.sex * (if s.sex.Male? then c.male else c.female)
  }

  /**
   * `get_ascvd`: a linear score in SBP, age and the mapped sex. Only the SBP term depends
   * on the SBP pipeline passed in.
   */
  function Ascvd(c: AscvdCoefficients, s: Simulant, sbp: real): (r: real)
    ensures r == AscvdBase(c, s) + c.sbp * sbp
  {
    c.intercept + c.sbp * sbp + c.age * s.age + c.sex * (if s.sex.Male? then c.male else c.female)
  }

  /** With non-negative SBP and age coefficients, the score grows with SBP and with age. */
  lemma AscvdMonotone(c: AscvdCoefficients, s: Simulant, t: Simulant, sbp1: real, sbp2: real)
    requires c.sbp >= 0.0 && c.age >= 0.0
    requires sbp1 <= sbp2 && s.age <= t.age && s.sex == t.sex
    ensures Ascvd(c, s, sbp1) <= Ascvd(c, t, sbp2)
  {
    assert c.sbp * (sbp2 - sbp1) >= 0.0;
    assert c.age * (t.age - s.age) >= 0.0;
  }
}
