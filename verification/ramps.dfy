/**
 * The SBP and LDL-C treatment ramps of the `Treatment` component (components/treatment.py):
 * which visitors get a first prescription, which move one level up, and which become
 * candidates for the outreach and polypill interventions.
 *
 * A ramp works on the visitors' rows; its random inputs (the prescription inertia
 * propensities and the choice draws) and the measured values it reads are inputs, one per
 * simulant id.
 */
module Ramps {
  import opened Wrappers
  import opened DataValues
  import opened Randomness
  import opened Frames
  import opened Treatment
  import opened Scenarios
  import Models

  /** A disease history: not susceptible to IHD and heart failure, or not susceptible to stroke. */
  predicate HasHistory(s: Simulant, ihdSusceptibleStateName: string)
  {
    s.ihdState != ihdSusceptibleStateName || s.strokeState != Models.ISCHEMIC_STROKE_SUSCEPTIBLE_STATE_NAME
  }

  /** The visitors on some medication of the class. */
  function Medicated(pop: map<int, Simulant>, d: Drug): (r: set<int>)
    ensures forall id :: id in r <==> id in pop && pop[id].Level(d) != NO_TREATMENT
  {
    set id | id in pop && pop[id].Level(d) != NO_TREATMENT
  }

  /** The visitors who discontinued that class of medication. */
  function DiscontinuedIds(pop: map<int, Simulant>, d: Drug): (r: set<int>)
    ensures forall id :: id in r <==> id in pop && pop[id].Discontinued(d)
  {
    set id | id in pop && pop[id].Discontinued(d)
  }

  /** The level one step up the ladder: unchanged unless the visitor is in `change`. */
  function SteppedUp(pop: map<int, Simulant>, change: set<int>, d: Drug, id: int): nat
    requires id in pop
  {
    if id in change then pop[id].Level(d) + 1 else pop[id].Level(d)
  }

  /** The masked step up: the rows in `ids` move one level up the ladder. */
  method StepUp(rows: map<int, Simulant>, ids: set<int>, d: Drug) returns (r: map<int, Simulant>)
    ensures r.Keys == rows.Keys
    ensures forall id :: id in rows ==> r[id] == if id in ids then rows[id].WithLevel(d, rows[id].Level(d) + 1) else rows[id]
  {
    r := SetWhere(rows, ids, (id: int, s: Simulant) => s.WithLevel(d, s.Level(d) + 1));
  }

  /** The rows of `ids` that may move up: adherent and not yet at the top level. */
  method ChangeCandidates(rows: map<int, Simulant>, ids: set<int>, d: Drug, maxLevel: nat) returns (change: set<int>)
    ensures change == set id | id in ids && id in rows && rows[id].AdherenceOf(d) == Adherent && rows[id].Level(d) != maxLevel
  {
    var adherent := set id | id in rows && rows[id].AdherenceOf(d) == Adherent;
    var notAlreadyMaxMedicated := set id | id in rows && rows[id].Level(d) != maxLevel;
    change := ids * adherent * notAlreadyMaxMedicated;
  }

  /** Discontinuing sets the level to no treatment, so nobody is both medicated and discontinued. */
  ghost predicate DiscontinuedUntreated(pop: map<int, Simulant>, d: Drug)
  {
    forall id :: id in pop && pop[id].Discontinued(d) ==> pop[id].Level(d) == NO_TREATMENT
  }

  // ---------------------------------------------------------------- SBP

  /** The SBP thresholds, inertia thresholds, top level and first-prescription distributions. */
  datatype SbpRampConstants = SbpRampConstants(
    low: real,
    high: real,
    firstMedicationInertia: real,
    changeMedicationInertia: real,
    maxLevel: nat,
    mediumFirstPrescription: seq<(nat, real)>,
    highFirstPrescription: seq<(nat, real)>,
    ihdSusceptibleStateName: string)

  /** What the SBP ramp reads per visitor: the prescription inertia propensity and the measured SBP. */
  datatype SbpVisitInputs = SbpVisitInputs(propensity: int -> real, measuredSbp: int -> real)

  ghost predicate SbpRampDomain(c: SbpRampConstants, draw: (string, int) -> real)
  {
    UnitKeyedDraws(draw) && Total(c.mediumFirstPrescription) > 0.0 && Total(c.highFirstPrescription) > 0.0
  }

  /** The visitors who overcome first-medication inertia and are neither medicated, discontinued nor low. */
  function SbpNewlyPrescribed(pop: map<int, Simulant>, v: SbpVisitInputs, c: SbpRampConstants): set<int>
  {
    set id | id in pop && v.propensity(id) > c.firstMedicationInertia && pop[id].sbpMedication == NO_TREATMENT
      && !pop[id].sbpDiscontinued && !(v.measuredSbp(id) < c.low)
  }

  /** Ramp C: newly prescribed with high SBP. */
  function SbpGroupC(pop: map<int, Simulant>, v: SbpVisitInputs, c: SbpRampConstants): set<int>
  {
    set id | id in SbpNewlyPrescribed(pop, v, c) && v.measuredSbp(id) >= c.high
  }

  /** Ramp B: the other newly prescribed visitors. */
  function SbpGroupB(pop: map<int, Simulant>, v: SbpVisitInputs, c: SbpRampConstants): set<int>
  {
    SbpNewlyPrescribed(pop, v, c) - SbpGroupC(pop, v, c)
  }

  /** Ramp D: medicated visitors with high SBP who overcome change-medication inertia. */
  function SbpGroupD(pop: map<int, Simulant>, v: SbpVisitInputs, c: SbpRampConstants): set<int>
  {
    set id | id in Medicated(pop, Sbp) && v.measuredSbp(id) >= c.high && v.propensity(id) > c.changeMedicationInertia
  }

  /** The members of D who move up: adherent and not at the top level. */
  function SbpMedicationChange(pop: map<int, Simulant>, v: SbpVisitInputs, c: SbpRampConstants): (r: set<int>)
    ensures r <= pop.Keys
    ensures forall id :: id in r ==> pop[id].sbpAdherence == Adherent && pop[id].sbpMedication != c.maxLevel
  {
    set id | id in SbpGroupD(pop, v, c) && pop[id].sbpAdherence == Adherent && pop[id].sbpMedication != c.maxLevel
  }

  /** The level a newly prescribed visitor of ramp B (medium) or C (high) draws. */
  function SbpFirstPrescription(c: SbpRampConstants, draw: (string, int) -> real, high: bool, id: int): nat
    requires SbpRampDomain(c, draw)
  {
    if high then Choose<nat>(draw("high_sbp_first_prescriptions", id), c.highFirstPrescription)
    else Choose<nat>(draw("medium_sbp_first_prescriptions", id), c.mediumFirstPrescription)
  }

  /** A visitor's SBP level after the ramp. */
  function SbpRampedLevel(pop: map<int, Simulant>, v: SbpVisitInputs, c: SbpRampConstants, draw: (string, int) -> real, id: int): nat
    requires SbpRampDomain(c, draw) && id in pop
  {
    if id in SbpGroupB(pop, v, c) then SbpFirstPrescription(c, draw, false, id)
    else if id in SbpGroupC(pop, v, c) then SbpFirstPrescription(c, draw, true, id)
    else SteppedUp(pop, SbpMedicationChange(pop, v, c), Sbp, id)
  }

  /** The visitors' rows after the SBP ramp: only the SBP level changes. */
  function SbpRamped(pop: map<int, Simulant>, v: SbpVisitInputs, c: SbpRampConstants, draw: (string, int) -> real): (r: map<int, Simulant>)
    requires SbpRampDomain(c, draw)
    ensures r.Keys == pop.Keys
    ensures forall id :: id in pop ==> r[id] == pop[id].(sbpMedication := SbpRampedLevel(pop, v, c, draw, id))
  {
    map id | id in pop :: pop[id].(sbpMedication := SbpRampedLevel(pop, v, c, draw, id))
  }

  /**
   * The intervention candidates of the SBP ramp: under outreach or polypill, groups B and C
   * and the medicated; polypill also demands high SBP, or a history without low SBP.
   */
  function SbpMaybeEnroll(pop: map<int, Simulant>, v: SbpVisitInputs, c: SbpRampConstants, scenario: InterventionScenario): (r: set<int>)
    ensures r <= pop.Keys
    ensures !scenario.isOutreachScenario && !scenario.isPolypillScenario ==> r == {}
  {
    var candidates :=
      if scenario.isOutreachScenario || scenario.isPolypillScenario
      then SbpGroupB(pop, v, c) + SbpGroupC(pop, v, c) + Medicated(pop, Sbp)
      else {};
    if scenario.isPolypillScenario then
      set id | id in candidates && (v.measuredSbp(id) >= c.high || (HasHistory(pop[id], c.ihdSusceptibleStateName) && !(v.measuredSbp(id) < c.low)))
    else candidates
  }

  /** `apply_sbp_treatment_ramp`: the masked assignments of B, C and the step up, in order. */
  method ApplySbpTreatmentRamp(pop: map<int, Simulant>, v: SbpVisitInputs, c: SbpRampConstants, draw: (string, int) -> real,
                               scenario: InterventionScenario)
    returns (visitors: map<int, Simulant>, maybeEnroll: set<int>)
    requires SbpRampDomain(c, draw)
    ensures visitors == SbpRamped(pop, v, c, draw)
    ensures maybeEnroll == SbpMaybeEnroll(pop, v, c, scenario)
  {
    var prescribedB := SetLevels(pop, SbpGroupB(pop, v, c), Sbp,
      (id: int) => SbpFirstPrescription(c, draw, false, id));
    var prescribedC := SetLevels(prescribedB, SbpGroupC(pop, v, c), Sbp,
      (id: int) => SbpFirstPrescription(c, draw, true, id));
    // adherence and the top level are read from the rows B and C were written to
    var change := ChangeCandidates(prescribedC, SbpGroupD(pop, v, c), Sbp, c.maxLevel);
    visitors := StepUp(prescribedC, change, Sbp);
    SbpRampComposes(pop, v, c, draw, prescribedB, prescribedC, change, visitors);
    maybeEnroll := SbpCandidates(pop, v, c, scenario);
  }

  /** The candidate rule of the SBP ramp, as the scenario switches select it. */
  method SbpCandidates(pop: map<int, Simulant>, v: SbpVisitInputs, c: SbpRampConstants, scenario: InterventionScenario)
    returns (maybeEnroll: set<int>)
    ensures maybeEnroll == SbpMaybeEnroll(pop, v, c, scenario)
  {
    if scenario.isOutreachScenario || scenario.isPolypillScenario {
      maybeEnroll := SbpGroupB(pop, v, c) + SbpGroupC(pop, v, c) + Medicated(pop, Sbp);
    } else {
      maybeEnroll := {};
    }
    if scenario.isPolypillScenario {
      maybeEnroll := set id | id in maybeEnroll && (v.measuredSbp(id) >= c.high
        || (HasHistory(pop[id], c.ihdSusceptibleStateName) && !(v.measuredSbp(id) < c.low)));
    }
  }

  /** The three masked assignments of the SBP ramp together give the ramped rows. */
  lemma SbpRampComposes(pop: map<int, Simulant>, v: SbpVisitInputs, c: SbpRampConstants, draw: (string, int) -> real,
                        prescribedB: map<int, Simulant>, prescribedC: map<int, Simulant>, change: set<int>, visitors: map<int, Simulant>)
    requires SbpRampDomain(c, draw)
    requires prescribedB.Keys == pop.Keys && forall id :: id in pop ==> (prescribedB[id] ==
      if id in SbpGroupB(pop, v, c) then pop[id].WithLevel(Sbp, SbpFirstPrescription(c, draw, false, id))
      else pop[id])
    requires prescribedC.Keys == prescribedB.Keys && forall id :: id in prescribedB ==> (prescribedC[id] ==
      if id in SbpGroupC(pop, v, c) then prescribedB[id].WithLevel(Sbp, SbpFirstPrescription(c, draw, true, id))
      else prescribedB[id])
    requires change == set id | id in SbpGroupD(pop, v, c) && id in prescribedC && prescribedC[id].AdherenceOf(Sbp) == Adherent
      && prescribedC[id].Level(Sbp) != c.maxLevel
    requires visitors.Keys == prescribedC.Keys && forall id :: id in prescribedC ==> (visitors[id] ==
      if id in change then prescribedC[id].WithLevel(Sbp, prescribedC[id].Level(Sbp) + 1) else prescribedC[id])
    ensures visitors == SbpRamped(pop, v, c, draw)
  {
    SbpPrescriptionGroups(pop, v, c);
    var groupD := SbpGroupD(pop, v, c);
    forall id
      ensures id in change <==> id in SbpMedicationChange(pop, v, c)
    {
      if id in groupD {
        assert id !in SbpGroupB(pop, v, c) && id !in SbpGroupC(pop, v, c);
        assert prescribedC[id] == pop[id];
      }
    }
    assert change == SbpMedicationChange(pop, v, c);
    forall id | id in pop
      ensures visitors[id] == SbpRamped(pop, v, c, draw)[id]
    {
      SbpRowComposes(pop, v, c, draw, id, prescribedB[id], prescribedC[id], visitors[id], id in change);
    }
  }

  /** One visitor's row through the three masked assignments of the SBP ramp. */
  lemma SbpRowComposes(pop: map<int, Simulant>, v: SbpVisitInputs, c: SbpRampConstants, draw: (string, int) -> real, id: int,
                       afterB: Simulant, afterC: Simulant, after: Simulant, changed: bool)
    requires SbpRampDomain(c, draw) && id in pop
    requires afterB == if id in SbpGroupB(pop, v, c) then pop[id].WithLevel(Sbp, SbpFirstPrescription(c, draw, false, id)) else pop[id]
    requires afterC == if id in SbpGroupC(pop, v, c) then afterB.WithLevel(Sbp, SbpFirstPrescription(c, draw, true, id)) else afterB
    requires after == if changed then afterC.WithLevel(Sbp, afterC.Level(Sbp) + 1) else afterC
    requires changed <==> id in SbpMedicationChange(pop, v, c)
    ensures after == pop[id].(sbpMedication := SbpRampedLevel(pop, v, c, draw, id))
  {
    SbpPrescriptionGroups(pop, v, c);
  }

  /**
   * The new SBP prescriptions: B and C split them without overlap, C is exactly the high
   * ones, and nobody newly prescribed is medicated, discontinued or low.
   */
  lemma SbpPrescriptionGroups(pop: map<int, Simulant>, v: SbpVisitInputs, c: SbpRampConstants)
    ensures SbpGroupB(pop, v, c) * SbpGroupC(pop, v, c) == {}
    ensures SbpGroupB(pop, v, c) + SbpGroupC(pop, v, c) == SbpNewlyPrescribed(pop, v, c)
    ensures forall id :: id in SbpGroupB(pop, v, c) ==> v.measuredSbp(id) < c.high
    ensures forall id :: id in SbpNewlyPrescribed(pop, v, c) ==>
      (id in pop && pop[id].sbpMedication == NO_TREATMENT && !pop[id].sbpDiscontinued && c.low <= v.measuredSbp(id))
  {
  }

  /**
   * The SBP ramp changes nothing but the SBP level; a medicated visitor moves up exactly one
   * step when in D, adherent and below the top level, and otherwise keeps the level; an
   * unmedicated visitor stays untreated unless newly prescribed.
   */
  lemma SbpRampLevels(pop: map<int, Simulant>, v: SbpVisitInputs, c: SbpRampConstants, draw: (string, int) -> real, id: int)
    requires SbpRampDomain(c, draw) && id in pop
    ensures SbpRamped(pop, v, c, draw)[id] == pop[id].(sbpMedication := SbpRamped(pop, v, c, draw)[id].sbpMedication)
    ensures pop[id].sbpMedication != NO_TREATMENT ==>
      (SbpRamped(pop, v, c, draw)[id].sbpMedication == pop[id].sbpMedication + 1 <==>
        (id in SbpGroupD(pop, v, c) && pop[id].sbpAdherence == Adherent && pop[id].sbpMedication != c.maxLevel))
    ensures pop[id].sbpMedication != NO_TREATMENT && id !in SbpMedicationChange(pop, v, c) ==>
      SbpRamped(pop, v, c, draw)[id].sbpMedication == pop[id].sbpMedication
    ensures pop[id].sbpMedication == NO_TREATMENT && id !in SbpNewlyPrescribed(pop, v, c) ==>
      SbpRamped(pop, v, c, draw)[id].sbpMedication == NO_TREATMENT
  {
    SbpPrescriptionGroups(pop, v, c);
  }

  /** With every level and every first prescription on the ladder, the ramp keeps levels on it. */
  lemma SbpRampStaysOnLadder(pop: map<int, Simulant>, v: SbpVisitInputs, c: SbpRampConstants, draw: (string, int) -> real)
    requires SbpRampDomain(c, draw)
    requires forall id :: id in pop ==> pop[id].sbpMedication <= c.maxLevel
    requires forall k :: 0 <= k < |c.mediumFirstPrescription| ==> c.mediumFirstPrescription[k].0 <= c.maxLevel
    requires forall k :: 0 <= k < |c.highFirstPrescription| ==> c.highFirstPrescription[k].0 <= c.maxLevel
    ensures forall id :: id in pop ==> SbpRamped(pop, v, c, draw)[id].sbpMedication <= c.maxLevel
  {
    forall id | id in pop
      ensures SbpRampedLevel(pop, v, c, draw, id) <= c.maxLevel
    {
      if id in SbpGroupB(pop, v, c) {
        var k :| 0 <= k < |c.mediumFirstPrescription|
          && SbpFirstPrescription(c, draw, false, id) == c.mediumFirstPrescription[k].0;
      } else if id in SbpGroupC(pop, v, c) {
        var k :| 0 <= k < |c.highFirstPrescription|
          && SbpFirstPrescription(c, draw, true, id) == c.highFirstPrescription[k].0;
      }
    }
  }

  /**
   * The SBP intervention candidates: none in the baseline; under polypill each has high SBP
   * or a history without low SBP; and, since discontinued visitors are untreated, none of
   * them has discontinued.
   */
  lemma SbpMaybeEnrollRules(pop: map<int, Simulant>, v: SbpVisitInputs, c: SbpRampConstants, scenario: InterventionScenario)
    ensures !scenario.isOutreachScenario && !scenario.isPolypillScenario ==> SbpMaybeEnroll(pop, v, c, scenario) == {}
    ensures scenario.isPolypillScenario ==> forall id :: id in SbpMaybeEnroll(pop, v, c, scenario) ==>
      (id in pop && (v.measuredSbp(id) >= c.high || (HasHistory(pop[id], c.ihdSusceptibleStateName) && c.low <= v.measuredSbp(id))))
    ensures DiscontinuedUntreated(pop, Sbp) ==> SbpMaybeEnroll(pop, v, c, scenario) * DiscontinuedIds(pop, Sbp) == {}
    ensures SbpMaybeEnroll(pop, v, c, scenario) <= SbpNewlyPrescribed(pop, v, c) + Medicated(pop, Sbp)
  {
    SbpPrescriptionGroups(pop, v, c);
    if DiscontinuedUntreated(pop, Sbp) {
      forall id | id in SbpMaybeEnroll(pop, v, c, scenario)
        ensures id !in DiscontinuedIds(pop, Sbp)
      {
        if id in Medicated(pop, Sbp) {
          assert pop[id].Level(Sbp) != NO_TREATMENT;
        }
      }
    }
  }

  // ---------------------------------------------------------------- LDL-C

  /** The LDL-C and ASCVD thresholds, the old-age threshold, inertia, top level and distributions. */
  datatype LdlcRampConstants = LdlcRampConstants(
    ldlcLow: real,
    ldlcMedium: real,
    ldlcHigh: real,
    ascvdLow: real,
    ascvdHigh: real,
    oldAge: real,
    inertia: real,
    maxLevel: nat,
    rampD: seq<(nat, real)>,
    rampE: seq<(nat, real)>,
    rampF: seq<(nat, real)>,
    ihdSusceptibleStateName: string)

  /** What the LDL-C ramp reads per visitor: propensity, ASCVD score and measured LDL-C. */
  datatype LdlcVisitInputs = LdlcVisitInputs(propensity: int -> real, ascvd: int -> real, measuredLdlc: int -> real)

  ghost predicate LdlcRampDomain(c: LdlcRampConstants, draw: (string, int) -> real)
  {
    UnitKeyedDraws(draw) && Total(c.rampD) > 0.0 && Total(c.rampE) > 0.0 && Total(c.rampF) > 0.0
  }

  predicate Old(s: Simulant, c: LdlcRampConstants) { s.age >= c.oldAge }

  /** Untreated, not discontinued visitors who overcome the prescription inertia. */
  function LdlcUntreatedCandidates(pop: map<int, Simulant>, v: LdlcVisitInputs, c: LdlcRampConstants): set<int>
  {
    set id | id in pop && v.propensity(id) > c.inertia && pop[id].ldlcMedication == NO_TREATMENT && !pop[id].ldlcDiscontinued
  }

  /** Young candidates whose ASCVD and LDL-C are not low. */
  function LdlcNewlyYoung(pop: map<int, Simulant>, v: LdlcVisitInputs, c: LdlcRampConstants): set<int>
  {
    set id | id in LdlcUntreatedCandidates(pop, v, c) && !(v.ascvd(id) < c.ascvdLow) && !(v.measuredLdlc(id) < c.ldlcLow)
      && !Old(pop[id], c)
  }

  /** Old candidates whose LDL-C is at least medium. */
  function LdlcNewlyOld(pop: map<int, Simulant>, v: LdlcVisitInputs, c: LdlcRampConstants): set<int>
  {
    set id | id in LdlcUntreatedCandidates(pop, v, c) && Old(pop[id], c) && v.measuredLdlc(id) >= c.ldlcMedium
  }

  function LdlcNewlyPrescribed(pop: map<int, Simulant>, v: LdlcVisitInputs, c: LdlcRampConstants): set<int>
  {
    LdlcNewlyYoung(pop, v, c) + LdlcNewlyOld(pop, v, c)
  }

  /** Ramp D: young new prescriptions with a disease history. */
  function LdlcGroupD(pop: map<int, Simulant>, v: LdlcVisitInputs, c: LdlcRampConstants): set<int>
  {
    set id | id in LdlcNewlyYoung(pop, v, c) && HasHistory(pop[id], c.ihdSusceptibleStateName)
  }

  /** Ramp E: the other young new prescriptions with high ASCVD or high LDL-C. */
  function LdlcGroupE(pop: map<int, Simulant>, v: LdlcVisitInputs, c: LdlcRampConstants): set<int>
  {
    set id | id in LdlcNewlyYoung(pop, v, c) - LdlcGroupD(pop, v, c) && (v.ascvd(id) >= c.ascvdHigh || v.measuredLdlc(id) >= c.ldlcHigh)
  }

  /** Ramp F: the remaining young new prescriptions and all old ones. */
  function LdlcGroupF(pop: map<int, Simulant>, v: LdlcVisitInputs, c: LdlcRampConstants): set<int>
  {
    (LdlcNewlyYoung(pop, v, c) - LdlcGroupD(pop, v, c) - LdlcGroupE(pop, v, c)) + LdlcNewlyOld(pop, v, c)
  }

  /** The medicated whose ASCVD is not low and whose LDL-C is elevated for their age. */
  function LdlcChangeEligible(pop: map<int, Simulant>, v: LdlcVisitInputs, c: LdlcRampConstants): set<int>
  {
    set id | id in Medicated(pop, Ldlc) && !(v.ascvd(id) < c.ascvdLow)
      && (if Old(pop[id], c) then v.measuredLdlc(id) >= c.ldlcMedium else !(v.measuredLdlc(id) < c.ldlcLow))
  }

  /** Ramp G: eligible visitors who overcome the prescription inertia. */
  function LdlcGroupG(pop: map<int, Simulant>, v: LdlcVisitInputs, c: LdlcRampConstants): set<int>
  {
    set id | id in LdlcChangeEligible(pop, v, c) && v.propensity(id) > c.inertia
  }

  function LdlcMedicationChange(pop: map<int, Simulant>, v: LdlcVisitInputs, c: LdlcRampConstants): (r: set<int>)
    ensures r <= pop.Keys
    ensures forall id :: id in r ==> pop[id].ldlcAdherence == Adherent && pop[id].ldlcMedication != c.maxLevel
  {
    set id | id in LdlcGroupG(pop, v, c) && pop[id].ldlcAdherence == Adherent && pop[id].ldlcMedication != c.maxLevel
  }

  /** The first-prescription distribution of a newly prescribed visitor's group. */
  function FirstPrescriptionLevels(pop: map<int, Simulant>, v: LdlcVisitInputs, c: LdlcRampConstants, id: int): (r: seq<(nat, real)>)
    ensures r == c.rampD || r == c.rampE || r == c.rampF
  {
    if id in LdlcGroupD(pop, v, c) then c.rampD
    else if id in LdlcGroupE(pop, v, c) then c.rampE
    else c.rampF
  }

  /** The level a newly prescribed visitor draws from the distribution of its group. */
  function LdlcFirstPrescription(pop: map<int, Simulant>, v: LdlcVisitInputs, c: LdlcRampConstants, draw: (string, int) -> real, id: int): nat
    requires LdlcRampDomain(c, draw)
  {
    Choose<nat>(draw("high_ldlc_first_prescriptions", id), FirstPrescriptionLevels(pop, v, c, id))
  }

  /** A visitor's LDL-C level after the ramp. */
  function LdlcRampedLevel(pop: map<int, Simulant>, v: LdlcVisitInputs, c: LdlcRampConstants, draw: (string, int) -> real, id: int): nat
    requires LdlcRampDomain(c, draw) && id in pop
  {
    if id in LdlcNewlyPrescribed(pop, v, c) then LdlcFirstPrescription(pop, v, c, draw, id)
    else SteppedUp(pop, LdlcMedicationChange(pop, v, c), Ldlc, id)
  }

  /** The visitors' rows after the LDL-C ramp: only the LDL-C level changes. */
  function LdlcRamped(pop: map<int, Simulant>, v: LdlcVisitInputs, c: LdlcRampConstants, draw: (string, int) -> real): (r: map<int, Simulant>)
    requires LdlcRampDomain(c, draw)
    ensures r.Keys == pop.Keys
    ensures forall id :: id in pop ==> r[id] == pop[id].(ldlcMedication := LdlcRampedLevel(pop, v, c, draw, id))
  {
    map id | id in pop :: pop[id].(ldlcMedication := LdlcRampedLevel(pop, v, c, draw, id))
  }

  /** Only outreach enrols from the LDL-C ramp: the newly prescribed and the medicated. */
  function LdlcMaybeEnroll(pop: map<int, Simulant>, v: LdlcVisitInputs, c: LdlcRampConstants, scenario: InterventionScenario): (r: set<int>)
    ensures !scenario.isOutreachScenario ==> r == {}
  {
    if scenario.isOutreachScenario then LdlcNewlyPrescribed(pop, v, c) + Medicated(pop, Ldlc) else {}
  }

  /** `apply_ldlc_treatment_ramp`: one choice over the new prescriptions, then the step up. */
  method ApplyLdlcTreatmentRamp(pop: map<int, Simulant>, v: LdlcVisitInputs, c: LdlcRampConstants, draw: (string, int) -> real,
                                scenario: InterventionScenario)
    returns (visitors: map<int, Simulant>, maybeEnroll: set<int>)
    requires LdlcRampDomain(c, draw)
    ensures visitors == LdlcRamped(pop, v, c, draw)
    ensures maybeEnroll == LdlcMaybeEnroll(pop, v, c, scenario)
  {
    var newlyPrescribed := LdlcNewlyPrescribed(pop, v, c);
    var prescribed := SetLevels(pop, newlyPrescribed, Ldlc,
      (id: int) => LdlcFirstPrescription(pop, v, c, draw, id));
    // adherence and the top level are read from the rows the new prescriptions were written to
    var change := ChangeCandidates(prescribed, LdlcGroupG(pop, v, c), Ldlc, c.maxLevel);
    visitors := StepUp(prescribed, change, Ldlc);
    LdlcRampComposes(pop, v, c, draw, prescribed, change, visitors);
    if scenario.isOutreachScenario {
      maybeEnroll := newlyPrescribed + Medicated(pop, Ldlc);
    } else {
      maybeEnroll := {};
    }
  }

  /** The two masked assignments of the LDL-C ramp together give the ramped rows. */
  lemma LdlcRampComposes(pop: map<int, Simulant>, v: LdlcVisitInputs, c: LdlcRampConstants, draw: (string, int) -> real,
                         prescribed: map<int, Simulant>, change: set<int>, visitors: map<int, Simulant>)
    requires LdlcRampDomain(c, draw)
    requires prescribed.Keys == pop.Keys && forall id :: id in pop ==> (prescribed[id] ==
      if id in LdlcNewlyPrescribed(pop, v, c)
      then pop[id].WithLevel(Ldlc, LdlcFirstPrescription(pop, v, c, draw, id))
      else pop[id])
    requires change == set id | id in LdlcGroupG(pop, v, c) && id in prescribed && prescribed[id].AdherenceOf(Ldlc) == Adherent
      && prescribed[id].Level(Ldlc) != c.maxLevel
    requires visitors.Keys == prescribed.Keys && forall id :: id in prescribed ==> (visitors[id] ==
      if id in change then prescribed[id].WithLevel(Ldlc, prescribed[id].Level(Ldlc) + 1) else prescribed[id])
    ensures visitors == LdlcRamped(pop, v, c, draw)
  {
    LdlcPrescriptionGroups(pop, v, c);
    forall id
      ensures id in change <==> id in LdlcMedicationChange(pop, v, c)
    {
      if id in LdlcGroupG(pop, v, c) {
        assert id !in LdlcNewlyPrescribed(pop, v, c);
        assert prescribed[id] == pop[id];
      }
    }
    assert change == LdlcMedicationChange(pop, v, c);
    forall id | id in pop
      ensures visitors[id] == LdlcRamped(pop, v, c, draw)[id]
    {
      LdlcRowComposes(pop, v, c, draw, id, prescribed[id], visitors[id], id in change);
    }
  }

  /** One visitor's row through the two masked assignments of the LDL-C ramp. */
  lemma LdlcRowComposes(pop: map<int, Simulant>, v: LdlcVisitInputs, c: LdlcRampConstants, draw: (string, int) -> real, id: int,
                        prescribed: Simulant, after: Simulant, changed: bool)
    requires LdlcRampDomain(c, draw) && id in pop
    requires prescribed ==
      if id in LdlcNewlyPrescribed(pop, v, c) then pop[id].WithLevel(Ldlc, LdlcFirstPrescription(pop, v, c, draw, id)) else pop[id]
    requires after == if changed then prescribed.WithLevel(Ldlc, prescribed.Level(Ldlc) + 1) else prescribed
    requires changed <==> id in LdlcMedicationChange(pop, v, c)
    ensures after == pop[id].(ldlcMedication := LdlcRampedLevel(pop, v, c, draw, id))
  {
    LdlcPrescriptionGroups(pop, v, c);
  }

  /**
   * The new LDL-C prescriptions: young and old never overlap, D, E and F are pairwise
   * disjoint and together are exactly the new prescriptions, and none of those is medicated
   * or discontinued.
   */
  lemma LdlcPrescriptionGroups(pop: map<int, Simulant>, v: LdlcVisitInputs, c: LdlcRampConstants)
    ensures LdlcNewlyYoung(pop, v, c) * LdlcNewlyOld(pop, v, c) == {}
    ensures LdlcGroupD(pop, v, c) * LdlcGroupE(pop, v, c) == {}
    ensures LdlcGroupD(pop, v, c) * LdlcGroupF(pop, v, c) == {}
    ensures LdlcGroupE(pop, v, c) * LdlcGroupF(pop, v, c) == {}
    ensures LdlcGroupD(pop, v, c) + LdlcGroupE(pop, v, c) + LdlcGroupF(pop, v, c) == LdlcNewlyPrescribed(pop, v, c)
    ensures forall id :: id in LdlcNewlyPrescribed(pop, v, c) ==>
      (id in pop && pop[id].ldlcMedication == NO_TREATMENT && !pop[id].ldlcDiscontinued)
  {
  }

  /**
   * The LDL-C ramp changes nothing but the LDL-C level; a medicated visitor moves up exactly
   * one step when in G, adherent and below the top level, and otherwise keeps the level; an
   * unmedicated visitor stays untreated unless newly prescribed.
   */
  lemma LdlcRampLevels(pop: map<int, Simulant>, v: LdlcVisitInputs, c: LdlcRampConstants, draw: (string, int) -> real, id: int)
    requires LdlcRampDomain(c, draw) && id in pop
    ensures LdlcRamped(pop, v, c, draw)[id] == pop[id].(ldlcMedication := LdlcRamped(pop, v, c, draw)[id].ldlcMedication)
    ensures pop[id].ldlcMedication != NO_TREATMENT ==>
      (LdlcRamped(pop, v, c, draw)[id].ldlcMedication == pop[id].ldlcMedication + 1 <==>
        (id in LdlcGroupG(pop, v, c) && pop[id].ldlcAdherence == Adherent && pop[id].ldlcMedication != c.maxLevel))
    ensures pop[id].ldlcMedication != NO_TREATMENT && id !in LdlcMedicationChange(pop, v, c) ==>
      LdlcRamped(pop, v, c, draw)[id].ldlcMedication == pop[id].ldlcMedication
    ensures pop[id].ldlcMedication == NO_TREATMENT && id !in LdlcNewlyPrescribed(pop, v, c) ==>
      LdlcRamped(pop, v, c, draw)[id].ldlcMedication == NO_TREATMENT
  {
    LdlcPrescriptionGroups(pop, v, c);
  }

  /** With every level and every first prescription on the ladder, the ramp keeps levels on it. */
  lemma LdlcRampStaysOnLadder(pop: map<int, Simulant>, v: LdlcVisitInputs, c: LdlcRampConstants, draw: (string, int) -> real)
    requires LdlcRampDomain(c, draw)
    requires forall id :: id in pop ==> pop[id].ldlcMedication <= c.maxLevel
    requires forall k :: 0 <= k < |c.rampD| ==> c.rampD[k].0 <= c.maxLevel
    requires forall k :: 0 <= k < |c.rampE| ==> c.rampE[k].0 <= c.maxLevel
    requires forall k :: 0 <= k < |c.rampF| ==> c.rampF[k].0 <= c.maxLevel
    ensures forall id :: id in pop ==> LdlcRamped(pop, v, c, draw)[id].ldlcMedication <= c.maxLevel
  {
    forall id | id in pop
      ensures LdlcRampedLevel(pop, v, c, draw, id) <= c.maxLevel
    {
      if id in LdlcNewlyPrescribed(pop, v, c) {
        var levels := FirstPrescriptionLevels(pop, v, c, id);
        var k :| 0 <= k < |levels| && LdlcFirstPrescription(pop, v, c, draw, id) == levels[k].0;
        assert levels[k].0 <= c.maxLevel;
      }
    }
  }

  /**
   * The LDL-C intervention candidates: none outside outreach, and, since discontinued
   * visitors are untreated, none of them has discontinued.
   */
  lemma LdlcMaybeEnrollRules(pop: map<int, Simulant>, v: LdlcVisitInputs, c: LdlcRampConstants, scenario: InterventionScenario)
    ensures !scenario.isOutreachScenario ==> LdlcMaybeEnroll(pop, v, c, scenario) == {}
    ensures DiscontinuedUntreated(pop, Ldlc) ==> LdlcMaybeEnroll(pop, v, c, scenario) * DiscontinuedIds(pop, Ldlc) == {}
  {
    LdlcPrescriptionGroups(pop, v, c);
    if DiscontinuedUntreated(pop, Ldlc) {
      forall id | id in LdlcMaybeEnroll(pop, v, c, scenario)
        ensures id !in DiscontinuedIds(pop, Ldlc)
      {
        if id in Medicated(pop, Ldlc) {
          assert pop[id].Level(Ldlc) != NO_TREATMENT;
        }
      }
    }
  }
}
