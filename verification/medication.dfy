/**
 * The population table as the `Treatment` component changes it in place
 * (components/treatment.py): the initial medication coverage and discontinuation columns,
 * discontinuation during a time step, and the time-step cleanup that runs the ramps and the
 * intervention enrolments for the visitors.
 *
 * The random draws, the pipeline values the component reads, and the probabilities that
 * vivarium's `filter_for_probability` / `filter_for_rate` derive are inputs.
 */
module Medication {
  import opened Wrappers
  import opened DataValues
  import opened Randomness
  import opened Frames
  import opened Treatment
  import opened Scenarios
  import opened Ramps
  import opened Enrollment

  // ---------------------------------------------------------------- initial coverage

  /** The columns of the coverage probability table: "sbp", "ldlc", "both" and "none". */
  datatype CoverageState = SbpOnly | LdlcOnly | Both | NoMedication
  {
    predicate Covers(d: Drug)
    {
      this == Both || (d.Sbp? && this == SbpOnly) || (d.Ldlc? && this == LdlcOnly)
    }
  }

  /** The coverage choices with their probabilities, in column order. */
  function CoverageChoices(p: CoverageProbabilities): (r: seq<(CoverageState, real)>)
    ensures Total(r) == p.sbp + p.ldlc + p.both + p.none
  {
    var r := [(SbpOnly, p.sbp), (LdlcOnly, p.ldlc), (Both, p.both), (NoMedication, p.none)];
    assert Total(r[3..]) == p.none by { assert r[3..][1..] == []; }
    assert Total(r[2..]) == p.both + p.none by { assert r[2..][1..] == r[3..]; }
    assert Total(r[1..]) == p.ldlc + p.both + p.none by { assert r[1..][1..] == r[2..]; }
    r
  }

  /** The random and pipeline inputs of `initialize_medication_coverage`. */
  datatype CoverageInputs = CoverageInputs(
    covariates: int -> CoverageWeights,
    scaling: int -> CoverageWeights,
    draw: (string, int) -> real,
    baselineSbp: seq<(nat, real)>,
    baselineLdlc: seq<(nat, real)>)
  {
    function Baseline(d: Drug): seq<(nat, real)> { if d.Sbp? then baselineSbp else baselineLdlc }
  }

  ghost predicate CoverageDomain(x: CoverageInputs)
  {
    && (forall id :: x.covariates(id).NonNegative() && x.scaling(id).NonNegative())
    && UnitKeyedDraws(x.draw) && Total(x.baselineSbp) > 0.0 && Total(x.baselineLdlc) > 0.0
  }

  /** The coverage state a simulant's draw selects from its initial coverage probabilities. */
  function InitialState(x: CoverageInputs, id: int): CoverageState
    requires CoverageDomain(x)
  {
    var p := InitialCoverageProbabilities(x.covariates(id), x.scaling(id));
    Choose(x.draw("initial_medication_coverage", id), CoverageChoices(p))
  }

  function BaselineKey(d: Drug): string
  {
    if d.Sbp? then "initial_sbp_medication" else "initial_ldlc_medication"
  }

  /** The level `initialize_medication_coverage` moves covered but non-adherent simulants to. */
  const LOWEST_LEVEL: nat := 1

  /**
   * A simulant's initial level of a class: no treatment unless its coverage state covers the
   * class; the lowest level when it is covered but not adherent; a baseline level otherwise.
   */
  function InitialLevel(x: CoverageInputs, adherence: Adherence, d: Drug, id: int): nat
    requires CoverageDomain(x)
  {
    if !InitialState(x, id).Covers(d) then NO_TREATMENT
    else if adherence != Adherent then LOWEST_LEVEL
    else Choose<nat>(x.draw(BaselineKey(d), id), x.Baseline(d))
  }

  /** One row of `initialize_medication_coverage`: the initial level of each class. */
  function CoverageRow(x: CoverageInputs, s: Simulant, id: int): (r: Simulant)
    requires CoverageDomain(x)
    ensures r == s.(sbpMedication := r.sbpMedication, ldlcMedication := r.ldlcMedication)
    ensures r.Level(Sbp) == InitialLevel(x, s.AdherenceOf(Sbp), Sbp, id)
    ensures r.Level(Ldlc) == InitialLevel(x, s.AdherenceOf(Ldlc), Ldlc, id)
  {
    s.WithLevel(Sbp, InitialLevel(x, s.sbpAdherence, Sbp, id)).WithLevel(Ldlc, InitialLevel(x, s.ldlcAdherence, Ldlc, id))
  }

  function CoverageInitialized(rows: map<int, Simulant>, x: CoverageInputs): (r: map<int, Simulant>)
    requires CoverageDomain(x)
    ensures r.Keys == rows.Keys
  {
    map id | id in rows :: CoverageRow(x, rows[id], id)
  }

  /**
   * Initial coverage changes only the two level columns; an uncovered class is untreated;
   * a covered but non-adherent simulant is on level 1; an adherent covered one is on a level
   * of the baseline distribution.
   */
  lemma InitialCoverageLevels(rows: map<int, Simulant>, x: CoverageInputs, d: Drug, id: int)
    requires CoverageDomain(x) && id in rows
    ensures var r := CoverageInitialized(rows, x);
      && r[id] == rows[id].(sbpMedication := r[id].sbpMedication, ldlcMedication := r[id].ldlcMedication)
      && (!InitialState(x, id).Covers(d) ==> r[id].Level(d) == NO_TREATMENT)
      && (InitialState(x, id).Covers(d) && rows[id].AdherenceOf(d) != Adherent ==> r[id].Level(d) == LOWEST_LEVEL)
      && (InitialState(x, id).Covers(d) && rows[id].AdherenceOf(d) == Adherent ==>
           exists k :: 0 <= k < |x.Baseline(d)| && r[id].Level(d) == x.Baseline(d)[k].0)
  {
    var r := CoverageInitialized(rows, x);
    if InitialState(x, id).Covers(d) && rows[id].AdherenceOf(d) == Adherent {
      assert r[id].Level(d) == Choose<nat>(x.draw(BaselineKey(d), id), x.Baseline(d));
    }
  }

  // ---------------------------------------------------------------- discontinuation

  /** The random inputs of discontinuation, per class and simulant. */
  datatype DiscontinuationInputs = DiscontinuationInputs(
    startDraw: (Drug, int) -> real,
    initialProbability: (Drug, int) -> real,
    initialDraw: (Drug, int) -> real,
    stepProbability: (Drug, int) -> real,
    stepDraw: (Drug, int) -> real)

  /** A start date drawn uniformly from the `yearsInPast` years before the simulation start. */
  function InitialStartDate(simStart: real, u: real, yearsInPast: real): (r: real)
    requires 0.0 <= u < 1.0 && yearsInPast >= 0.0
    ensures simStart - DAYS_PER_YEAR * yearsInPast <= r <= simStart
  {
    var span := DAYS_PER_YEAR * yearsInPast;
    NonNegativeProduct(u, span);
    NonNegativeProduct(1.0 - u, span);
    simStart - u * span
  }

  /**
   * One row of `initialize_medication_discontinuation`: a start date when treated, none
   * otherwise; discontinued only when untreated and kept by the filter.
   */
  function DiscontinuationRow(s: Simulant, d: Drug, date: real, kept: bool): (r: Simulant)
    ensures r.Level(d) == s.Level(d)
    ensures r.StartDate(d).Some? <==> s.Level(d) != NO_TREATMENT
    ensures r.StartDate(d).Some? ==> r.StartDate(d).value == date
    ensures r.Discontinued(d) <==> s.Level(d) == NO_TREATMENT && kept
  {
    var medicated := s.Level(d) != NO_TREATMENT;
    s.WithStartDate(d, if medicated then Some(date) else None).WithDiscontinued(d, !medicated && kept)
  }

  ghost predicate UnitStartDraws(x: DiscontinuationInputs)
  {
    forall d, id :: 0.0 <= x.startDraw(d, id) < 1.0
  }

  /**
   * `initialize_medication_discontinuation`: the medicated get a start date at most
   * `yearsInPast` years before the simulation start, the others none; only the unmedicated
   * can start as discontinued.
   */
  function DiscontinuationInitialized(rows: map<int, Simulant>, d: Drug, simStart: real, yearsInPast: real, x: DiscontinuationInputs)
    : (r: map<int, Simulant>)
    requires UnitStartDraws(x) && yearsInPast >= 0.0
    ensures r.Keys == rows.Keys
  {
    map id | id in rows ::
      DiscontinuationRow(rows[id], d, InitialStartDate(simStart, x.startDraw(d, id), yearsInPast),
        Kept(x.initialDraw(d, id), x.initialProbability(d, id)))
  }

  /**
   * After initialisation the discontinued are untreated, a simulant has a start date exactly
   * when treated, and that date lies at most `yearsInPast` years before the start.
   */
  lemma InitialDiscontinuation(rows: map<int, Simulant>, d: Drug, simStart: real, yearsInPast: real, x: DiscontinuationInputs)
    requires UnitStartDraws(x) && yearsInPast >= 0.0
    ensures var r := DiscontinuationInitialized(rows, d, simStart, yearsInPast, x);
      && DiscontinuedUntreated(r, d)
      && (forall id :: id in r ==> r[id].Level(d) == rows[id].Level(d))
      && (forall id :: id in r ==> (r[id].StartDate(d).Some? <==> r[id].Level(d) != NO_TREATMENT))
      && (forall id :: id in r && r[id].StartDate(d).Some? ==>
           simStart - DAYS_PER_YEAR * yearsInPast <= r[id].StartDate(d).value <= simStart)
  {
    var r := DiscontinuationInitialized(rows, d, simStart, yearsInPast, x);
    forall id | id in r
      ensures r[id].Discontinued(d) ==> r[id].Level(d) == NO_TREATMENT
      ensures r[id].Level(d) == rows[id].Level(d)
      ensures r[id].StartDate(d).Some? <==> r[id].Level(d) != NO_TREATMENT
      ensures r[id].StartDate(d).Some? ==> simStart - DAYS_PER_YEAR * yearsInPast <= r[id].StartDate(d).value <= simStart
    {
      var date := InitialStartDate(simStart, x.startDraw(d, id), yearsInPast);
      assert r[id] == DiscontinuationRow(rows[id], d, date, Kept(x.initialDraw(d, id), x.initialProbability(d, id)));
    }
  }

  /** The treated simulants whose start date lies within a year of the event time. */
  function DiscontinueCandidates(rows: map<int, Simulant>, d: Drug, eventTime: real): (r: set<int>)
    ensures forall id :: id in r <==> (id in rows && rows[id].Level(d) != NO_TREATMENT && rows[id].StartDate(d).Some?
      && rows[id].StartDate(d).value >= eventTime - DAYS_PER_YEAR)
  {
    set id | id in rows && rows[id].Level(d) != NO_TREATMENT && rows[id].StartDate(d).Some?
      && rows[id].StartDate(d).value >= eventTime - DAYS_PER_YEAR
  }

  /** The candidates the rate filter keeps. */
  function ToDiscontinue(rows: map<int, Simulant>, d: Drug, eventTime: real, x: DiscontinuationInputs): set<int>
  {
    set id | id in DiscontinueCandidates(rows, d, eventTime) && Kept(x.stepDraw(d, id), x.stepProbability(d, id))
  }

  /** `discontinue_medication`: the chosen are marked discontinued and taken off the class. */
  function MedicationDiscontinued(rows: map<int, Simulant>, d: Drug, eventTime: real, x: DiscontinuationInputs): (r: map<int, Simulant>)
    ensures r.Keys == rows.Keys
  {
    map id | id in rows ::
      if id in ToDiscontinue(rows, d, eventTime, x) then rows[id].WithDiscontinued(d, true).WithLevel(d, NO_TREATMENT) else rows[id]
  }

  /**
   * Discontinuation changes only the rows of treated simulants who started within a year,
   * and of those only the class's discontinued flag (to true) and level (to no treatment);
   * a simulant without a start date is never discontinued.
   */
  lemma DiscontinuationRules(rows: map<int, Simulant>, d: Drug, eventTime: real, x: DiscontinuationInputs, id: int)
    requires id in rows
    ensures var r := MedicationDiscontinued(rows, d, eventTime, x);
      && (r[id] != rows[id] ==> (rows[id].Level(d) != NO_TREATMENT && rows[id].StartDate(d).Some?
           && rows[id].StartDate(d).value >= eventTime - DAYS_PER_YEAR))
      && (r[id] != rows[id] ==> r[id] == rows[id].WithDiscontinued(d, true).WithLevel(d, NO_TREATMENT))
      && (rows[id].StartDate(d).None? ==> r[id] == rows[id])
  {
  }

  /** Discontinuation keeps every discontinued simulant untreated, for both classes. */
  lemma DiscontinuationKeepsUntreated(rows: map<int, Simulant>, d: Drug, eventTime: real, x: DiscontinuationInputs, e: Drug)
    requires DiscontinuedUntreated(rows, e)
    ensures DiscontinuedUntreated(MedicationDiscontinued(rows, d, eventTime, x), e)
  {
    var r := MedicationDiscontinued(rows, d, eventTime, x);
    forall id | id in r && r[id].Discontinued(e)
      ensures r[id].Level(e) == NO_TREATMENT
    {
      if id !in ToDiscontinue(rows, d, eventTime, x) {
        assert r[id] == rows[id];
      } else if d != e {
        assert r[id].Discontinued(e) == rows[id].Discontinued(e) && r[id].Level(e) == rows[id].Level(e);
      }
    }
  }

  // ---------------------------------------------------------------- the time step

  /** The inputs of a treatment time step. */
  datatype StepInputs = StepInputs(
    eventTime: real,
    discontinuation: DiscontinuationInputs,
    draw: (string, int) -> real,
    sbpVisit: SbpVisitInputs,
    ldlcVisit: LdlcVisitInputs,
    newOutreach: int -> Category,
    newPolypill: int -> Category,
    sbpAdherence: int -> Adherence,
    ldlcAdherence: int -> Adherence)

  /** The constants of a treatment time step. */
  datatype StepConstants = StepConstants(
    sbp: SbpRampConstants,
    ldlc: LdlcRampConstants,
    threeDrugsHalfDose: nat,
    scenario: InterventionScenario)

  ghost predicate StepDomain(x: StepInputs, c: StepConstants)
  {
    SbpRampDomain(c.sbp, x.draw) && LdlcRampDomain(c.ldlc, x.draw)
  }

  /** Emergency, scheduled and background visitors go through the ramps. */
  predicate Visiting(s: Simulant)
  {
    s.visitType == Emergency || s.visitType == Scheduled || s.visitType == Background
  }

  function AliveAndTracked(rows: map<int, Simulant>): (r: map<int, Simulant>)
    ensures forall id :: id in r <==> id in rows && rows[id].alive && rows[id].tracked
    ensures forall id :: id in r ==> r[id] == rows[id]
  {
    map id | id in rows && rows[id].alive && rows[id].tracked :: rows[id]
  }

  function VisitorRows(pop: map<int, Simulant>): (r: map<int, Simulant>)
    ensures forall id :: id in r <==> id in pop && Visiting(pop[id])
    ensures forall id :: id in r ==> r[id] == pop[id]
  {
    map id | id in pop && Visiting(pop[id]) :: pop[id]
  }

  /** The alive and tracked rows after both discontinuations. */
  function StepDiscontinued(rows: map<int, Simulant>, x: StepInputs): map<int, Simulant>
  {
    var pop := AliveAndTracked(rows);
    MedicationDiscontinued(MedicationDiscontinued(pop, Sbp, x.eventTime, x.discontinuation), Ldlc, x.eventTime, x.discontinuation)
  }

  /** The visitors' rows after both ramps and the enrolments the scenario runs. */
  function StepVisitors(pop: map<int, Simulant>, x: StepInputs, c: StepConstants): (r: map<int, Simulant>)
    requires StepDomain(x, c)
    ensures forall id :: id in r <==> id in pop && Visiting(pop[id])
  {
    var visitors := VisitorRows(pop);
    var sbpRamped := SbpRamped(visitors, x.sbpVisit, c.sbp, x.draw);
    var maybeEnrollSbp := SbpMaybeEnroll(visitors, x.sbpVisit, c.sbp, c.scenario);
    var ldlcRamped := LdlcRamped(sbpRamped, x.ldlcVisit, c.ldlc, x.draw);
    var maybeEnrollLdlc := LdlcMaybeEnroll(sbpRamped, x.ldlcVisit, c.ldlc, c.scenario);
    var outreach :=
      if c.scenario.isOutreachScenario
      then OutreachEnrolled(ldlcRamped, maybeEnrollSbp + maybeEnrollLdlc, x.newOutreach, x.sbpAdherence, x.ldlcAdherence)
      else ldlcRamped;
    if c.scenario.isPolypillScenario
    then PolypillEnrolled(outreach, maybeEnrollSbp, x.newPolypill, x.sbpAdherence, c.threeDrugsHalfDose,
      c.scenario.affectSbpAdherence, c.scenario.affectSbpMedication)
    else outreach
  }

  /** `on_time_step_cleanup`: the table after the treatment time step. */
  function TimeStepCleaned(rows: map<int, Simulant>, x: StepInputs, c: StepConstants): (r: map<int, Simulant>)
    requires StepDomain(x, c)
    ensures r.Keys == rows.Keys
  {
    var pop := StepDiscontinued(rows, x);
    rows + pop + StepVisitors(pop, x, c)
  }

  /**
   * The time step changes only alive, tracked simulants; of them, those who do not visit
   * change only by discontinuation.
   */
  lemma TimeStepScope(rows: map<int, Simulant>, x: StepInputs, c: StepConstants, id: int)
    requires StepDomain(x, c) && id in rows
    ensures id in TimeStepCleaned(rows, x, c)
    ensures !(rows[id].alive && rows[id].tracked) ==> TimeStepCleaned(rows, x, c)[id] == rows[id]
    ensures rows[id].alive && rows[id].tracked && !Visiting(StepDiscontinued(rows, x)[id]) ==>
      TimeStepCleaned(rows, x, c)[id] == StepDiscontinued(rows, x)[id]
  {
    var pop := StepDiscontinued(rows, x);
    if rows[id].alive && rows[id].tracked && !Visiting(pop[id]) {
      assert id !in VisitorRows(pop);
      assert id !in StepVisitors(pop, x, c);
    }
  }

  /** The SBP ramp keeps discontinued simulants untreated in both classes. */
  lemma SbpRampKeepsUntreated(pop: map<int, Simulant>, v: SbpVisitInputs, c: SbpRampConstants, draw: (string, int) -> real)
    requires SbpRampDomain(c, draw) && DiscontinuedUntreated(pop, Sbp) && DiscontinuedUntreated(pop, Ldlc)
    ensures DiscontinuedUntreated(SbpRamped(pop, v, c, draw), Sbp) && DiscontinuedUntreated(SbpRamped(pop, v, c, draw), Ldlc)
  {
    var r := SbpRamped(pop, v, c, draw);
    forall id | id in r && r[id].Discontinued(Sbp)
      ensures r[id].Level(Sbp) == NO_TREATMENT
    {
      SbpRampLevels(pop, v, c, draw, id);
      assert pop[id].Discontinued(Sbp);
      assert id !in SbpNewlyPrescribed(pop, v, c);
    }
  }

  /** The LDL-C ramp keeps discontinued simulants untreated in both classes. */
  lemma LdlcRampKeepsUntreated(pop: map<int, Simulant>, v: LdlcVisitInputs, c: LdlcRampConstants, draw: (string, int) -> real)
    requires LdlcRampDomain(c, draw) && DiscontinuedUntreated(pop, Sbp) && DiscontinuedUntreated(pop, Ldlc)
    ensures DiscontinuedUntreated(LdlcRamped(pop, v, c, draw), Sbp) && DiscontinuedUntreated(LdlcRamped(pop, v, c, draw), Ldlc)
  {
    var r := LdlcRamped(pop, v, c, draw);
    forall id | id in r && r[id].Discontinued(Ldlc)
      ensures r[id].Level(Ldlc) == NO_TREATMENT
    {
      LdlcRampLevels(pop, v, c, draw, id);
      assert pop[id].Discontinued(Ldlc);
      assert id !in LdlcNewlyPrescribed(pop, v, c);
    }
  }

  /** Outreach enrolment changes neither a level nor a discontinued flag. */
  lemma OutreachKeepsUntreated(pop: map<int, Simulant>, maybeEnroll: set<int>, newOutreach: int -> Category,
                               sbpAdherence: int -> Adherence, ldlcAdherence: int -> Adherence)
    requires DiscontinuedUntreated(pop, Sbp) && DiscontinuedUntreated(pop, Ldlc)
    ensures var r := OutreachEnrolled(pop, maybeEnroll, newOutreach, sbpAdherence, ldlcAdherence);
      DiscontinuedUntreated(r, Sbp) && DiscontinuedUntreated(r, Ldlc) && DiscontinuedIds(r, Sbp) == DiscontinuedIds(pop, Sbp)
  {
    var r := OutreachEnrolled(pop, maybeEnroll, newOutreach, sbpAdherence, ldlcAdherence);
    forall id | id in pop
      ensures r[id].Discontinued(Sbp) == pop[id].Discontinued(Sbp) && r[id].Discontinued(Ldlc) == pop[id].Discontinued(Ldlc)
      ensures r[id].Level(Sbp) == pop[id].Level(Sbp) && r[id].Level(Ldlc) == pop[id].Level(Ldlc)
    {
      OutreachEnrollment(pop, maybeEnroll, newOutreach, sbpAdherence, ldlcAdherence, id);
    }
  }

  /** Polypill enrolment of candidates none of whom discontinued SBP treatment keeps the discontinued untreated. */
  lemma PolypillKeepsUntreated(pop: map<int, Simulant>, maybeEnroll: set<int>, newPolypill: int -> Category,
                               sbpAdherence: int -> Adherence, threeDrugsHalfDose: nat, affectAdherence: bool, affectMedication: bool)
    requires DiscontinuedUntreated(pop, Sbp) && DiscontinuedUntreated(pop, Ldlc)
    requires maybeEnroll * DiscontinuedIds(pop, Sbp) == {}
    ensures var r := PolypillEnrolled(pop, maybeEnroll, newPolypill, sbpAdherence, threeDrugsHalfDose, affectAdherence, affectMedication);
      DiscontinuedUntreated(r, Sbp) && DiscontinuedUntreated(r, Ldlc)
  {
    var r := PolypillEnrolled(pop, maybeEnroll, newPolypill, sbpAdherence, threeDrugsHalfDose, affectAdherence, affectMedication);
    forall id | id in r && (r[id].Discontinued(Sbp) || r[id].Discontinued(Ldlc))
      ensures r[id].Discontinued(Sbp) ==> r[id].Level(Sbp) == NO_TREATMENT
      ensures r[id].Discontinued(Ldlc) ==> r[id].Level(Ldlc) == NO_TREATMENT
    {
      PolypillEnrollment(pop, maybeEnroll, newPolypill, sbpAdherence, threeDrugsHalfDose, affectAdherence, affectMedication, id);
      if r[id].Discontinued(Sbp) {
        assert id in DiscontinuedIds(pop, Sbp);
        assert id !in maybeEnroll by {
          assert id in maybeEnroll ==> id in maybeEnroll * DiscontinuedIds(pop, Sbp);
        }
      }
    }
  }

  /** The SBP ramp changes no discontinued flag. */
  lemma SbpRampKeepsFlags(pop: map<int, Simulant>, v: SbpVisitInputs, c: SbpRampConstants, draw: (string, int) -> real)
    requires SbpRampDomain(c, draw)
    ensures DiscontinuedIds(SbpRamped(pop, v, c, draw), Sbp) == DiscontinuedIds(pop, Sbp)
  {
    forall id | id in pop
      ensures SbpRamped(pop, v, c, draw)[id].sbpDiscontinued == pop[id].sbpDiscontinued
    {
      SbpRampLevels(pop, v, c, draw, id);
    }
  }

  /** The LDL-C ramp changes no discontinued flag. */
  lemma LdlcRampKeepsFlags(pop: map<int, Simulant>, v: LdlcVisitInputs, c: LdlcRampConstants, draw: (string, int) -> real)
    requires LdlcRampDomain(c, draw)
    ensures DiscontinuedIds(LdlcRamped(pop, v, c, draw), Sbp) == DiscontinuedIds(pop, Sbp)
  {
    forall id | id in pop
      ensures LdlcRamped(pop, v, c, draw)[id].sbpDiscontinued == pop[id].sbpDiscontinued
    {
      LdlcRampLevels(pop, v, c, draw, id);
    }
  }

  /** The ramps and enrolments of a time step keep every discontinued visitor untreated. */
  lemma StepVisitorsKeepUntreated(pop: map<int, Simulant>, x: StepInputs, c: StepConstants)
    requires StepDomain(x, c) && DiscontinuedUntreated(pop, Sbp) && DiscontinuedUntreated(pop, Ldlc)
    ensures DiscontinuedUntreated(StepVisitors(pop, x, c), Sbp) && DiscontinuedUntreated(StepVisitors(pop, x, c), Ldlc)
  {
    var visitors := VisitorRows(pop);
    var sbpRamped := SbpRamped(visitors, x.sbpVisit, c.sbp, x.draw);
    SbpRampKeepsUntreated(visitors, x.sbpVisit, c.sbp, x.draw);
    SbpRampKeepsFlags(visitors, x.sbpVisit, c.sbp, x.draw);
    var maybeEnrollSbp := SbpMaybeEnroll(visitors, x.sbpVisit, c.sbp, c.scenario);
    SbpMaybeEnrollRules(visitors, x.sbpVisit, c.sbp, c.scenario);
    var ldlcRamped := LdlcRamped(sbpRamped, x.ldlcVisit, c.ldlc, x.draw);
    LdlcRampKeepsUntreated(sbpRamped, x.ldlcVisit, c.ldlc, x.draw);
    LdlcRampKeepsFlags(sbpRamped, x.ldlcVisit, c.ldlc, x.draw);
    var maybeEnrollLdlc := LdlcMaybeEnroll(sbpRamped, x.ldlcVisit, c.ldlc, c.scenario);
    var outreach :=
      if c.scenario.isOutreachScenario
      then OutreachEnrolled(ldlcRamped, maybeEnrollSbp + maybeEnrollLdlc, x.newOutreach, x.sbpAdherence, x.ldlcAdherence)
      else ldlcRamped;
    if c.scenario.isOutreachScenario {
      OutreachKeepsUntreated(ldlcRamped, maybeEnrollSbp + maybeEnrollLdlc, x.newOutreach, x.sbpAdherence, x.ldlcAdherence);
    }
    assert DiscontinuedIds(outreach, Sbp) == DiscontinuedIds(visitors, Sbp);
    if c.scenario.isPolypillScenario {
      PolypillKeepsUntreated(outreach, maybeEnrollSbp, x.newPolypill, x.sbpAdherence, c.threeDrugsHalfDose,
        c.scenario.affectSbpAdherence, c.scenario.affectSbpMedication);
    }
  }

  /** Writing rows over a table keeps the discontinued untreated when both sides do. */
  lemma MergeKeepsUntreated(a: map<int, Simulant>, b: map<int, Simulant>, d: Drug)
    requires DiscontinuedUntreated(a, d) && DiscontinuedUntreated(b, d)
    ensures DiscontinuedUntreated(a + b, d)
  {
  }

  /**
   * Nobody who has discontinued a class is put back on it: if every discontinued simulant is
   * untreated before the time step, the same holds after it, for both classes.
   */
  lemma TimeStepKeepsDiscontinuedUntreated(rows: map<int, Simulant>, x: StepInputs, c: StepConstants)
    requires StepDomain(x, c) && DiscontinuedUntreated(rows, Sbp) && DiscontinuedUntreated(rows, Ldlc)
    ensures DiscontinuedUntreated(TimeStepCleaned(rows, x, c), Sbp)
    ensures DiscontinuedUntreated(TimeStepCleaned(rows, x, c), Ldlc)
  {
    var alive := AliveAndTracked(rows);
    var p1 := MedicationDiscontinued(alive, Sbp, x.eventTime, x.discontinuation);
    DiscontinuationKeepsUntreated(alive, Sbp, x.eventTime, x.discontinuation, Sbp);
    DiscontinuationKeepsUntreated(alive, Sbp, x.eventTime, x.discontinuation, Ldlc);
    var pop := MedicationDiscontinued(p1, Ldlc, x.eventTime, x.discontinuation);
    DiscontinuationKeepsUntreated(p1, Ldlc, x.eventTime, x.discontinuation, Sbp);
    DiscontinuationKeepsUntreated(p1, Ldlc, x.eventTime, x.discontinuation, Ldlc);
    StepVisitorsKeepUntreated(pop, x, c);
    var stepped := StepVisitors(pop, x, c);
    MergeKeepsUntreated(rows, pop, Sbp);
    MergeKeepsUntreated(rows, pop, Ldlc);
    MergeKeepsUntreated(rows + pop, stepped, Sbp);
    MergeKeepsUntreated(rows + pop, stepped, Ldlc);
  }

  // ---------------------------------------------------------------- the column updates

  /**
   * `initialize_medication_coverage`. Its three masked assignments to each level column
   * (everybody untreated, the covered on a baseline level, the covered but non-adherent on the
   * lowest level) give each row the levels `InitialLevel` describes.
   */
  method CoverageColumns(rows: map<int, Simulant>, x: CoverageInputs) returns (r: map<int, Simulant>)
    requires CoverageDomain(x)
    ensures r == CoverageInitialized(rows, x)
  {
    r := SetWhere(rows, rows.Keys, (id: int, s: Simulant) => CoverageRow(x, s, id));
  }

  /** `initialize_medication_discontinuation` for one class. */
  method DiscontinuationColumns(rows: map<int, Simulant>, d: Drug, simStart: real, yearsInPast: real, x: DiscontinuationInputs)
    returns (r: map<int, Simulant>)
    requires UnitStartDraws(x) && yearsInPast >= 0.0
    ensures r == DiscontinuationInitialized(rows, d, simStart, yearsInPast, x)
  {
    r := SetWhere(rows, rows.Keys, (id: int, s: Simulant) =>
      DiscontinuationRow(s, d, InitialStartDate(simStart, x.startDraw(d, id), yearsInPast),
        Kept(x.initialDraw(d, id), x.initialProbability(d, id))));
  }

  /** `discontinue_medication` for one class. */
  method DiscontinuedColumns(rows: map<int, Simulant>, d: Drug, eventTime: real, x: DiscontinuationInputs) returns (r: map<int, Simulant>)
    ensures r == MedicationDiscontinued(rows, d, eventTime, x)
  {
    var treated := Medicated(rows, d);
    var startedRecently := set id | id in rows && rows[id].StartDate(d).Some? && rows[id].StartDate(d).value >= eventTime - DAYS_PER_YEAR;
    var maybeDiscontinue := treated * startedRecently;
    assert maybeDiscontinue == DiscontinueCandidates(rows, d, eventTime);
    var discontinue := set id | id in maybeDiscontinue && Kept(x.stepDraw(d, id), x.stepProbability(d, id));
    assert discontinue == ToDiscontinue(rows, d, eventTime, x);
    var flagged := SetWhere(rows, discontinue, (id: int, s: Simulant) => s.WithDiscontinued(d, true));
    r := SetLevels(flagged, discontinue, d, (id: int) => NO_TREATMENT);
    forall id | id in rows
      ensures r[id] == MedicationDiscontinued(rows, d, eventTime, x)[id]
    {
      assert flagged[id] == if id in discontinue then rows[id].WithDiscontinued(d, true) else rows[id];
    }
  }

  // ---------------------------------------------------------------- the table

  /** The population table the component reads and updates. */
  class PopulationTable {
    var rows: map<int, Simulant>

    constructor(rows: map<int, Simulant>)
      ensures this.rows == rows
    {
      this.rows := rows;
    }

    /** `initialize_medication_coverage`: the two level columns of every row. */
    method InitializeMedicationCoverage(x: CoverageInputs)
      requires CoverageDomain(x)
      modifies this
      ensures rows == CoverageInitialized(old(rows), x)
    {
      rows := CoverageColumns(rows, x);
    }

    /** `initialize_medication_discontinuation`: one class's start date and discontinued columns. */
    method InitializeMedicationDiscontinuation(d: Drug, simStart: real, yearsInPast: real, x: DiscontinuationInputs)
      requires UnitStartDraws(x) && yearsInPast >= 0.0
      modifies this
      ensures rows == DiscontinuationInitialized(old(rows), d, simStart, yearsInPast, x)
    {
      rows := DiscontinuationColumns(rows, d, simStart, yearsInPast, x);
    }

    /** `discontinue_medication`: one class's discontinued and level columns. */
    method DiscontinueMedication(d: Drug, eventTime: real, x: DiscontinuationInputs)
      modifies this
      ensures rows == MedicationDiscontinued(old(rows), d, eventTime, x)
    {
      rows := DiscontinuedColumns(rows, d, eventTime, x);
    }

    /**
     * `on_time_step_cleanup`: discontinue both classes for the alive and tracked, run the
     * ramps for the visitors, enrol them as the scenario says, and write the rows back.
     */
    method OnTimeStepCleanup(x: StepInputs, c: StepConstants)
      requires StepDomain(x, c)
      modifies this
      ensures rows == TimeStepCleaned(old(rows), x, c)
    {
      var pop := new PopulationTable(AliveAndTracked(rows));
      pop.DiscontinueMedication(Sbp, x.eventTime, x.discontinuation);
      pop.DiscontinueMedication(Ldlc, x.eventTime, x.discontinuation);
      assert pop.rows == StepDiscontinued(rows, x);
      var visitors := RunStepVisitors(pop.rows, x, c);
      rows := rows + pop.rows + visitors;
    }
  }

  /** The ramps and enrolments of the time step, run on the visitors' rows. */
  method RunStepVisitors(pop: map<int, Simulant>, x: StepInputs, c: StepConstants) returns (visitors: map<int, Simulant>)
    requires StepDomain(x, c)
    ensures visitors == StepVisitors(pop, x, c)
  {
    visitors := VisitorRows(pop);
    var maybeEnrollSbp, maybeEnrollLdlc;
    visitors, maybeEnrollSbp := ApplySbpTreatmentRamp(visitors, x.sbpVisit, c.sbp, x.draw, c.scenario);
    visitors, maybeEnrollLdlc := ApplyLdlcTreatmentRamp(visitors, x.ldlcVisit, c.ldlc, x.draw, c.scenario);
    if c.scenario.isOutreachScenario {
      visitors := EnrollInOutreach(visitors, maybeEnrollSbp + maybeEnrollLdlc, x.newOutreach, x.sbpAdherence, x.ldlcAdherence);
    }
    if c.scenario.isPolypillScenario {
      visitors := EnrollInPolypill(visitors, maybeEnrollSbp, x.newPolypill, x.sbpAdherence, c.threeDrugsHalfDose, c.scenario);
    }
  }
}
