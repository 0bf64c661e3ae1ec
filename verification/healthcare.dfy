/**
 * The `HealthcareUtilization` component (components/healthcare_utilization.py): each time
 * step it sorts the alive simulants into emergency, scheduled, missed and background visits,
 * clears the scheduled dates that fell due, tests eligible visitors' fasting plasma glucose,
 * enrols some of the tested in the lifestyle intervention and schedules follow-up visits
 * without overwriting a follow-up already booked for the future.
 *
 * Dates are real numbers of days and NaT is `None`. The random draws, the background
 * utilization probability and the exposure and measurement pipelines are inputs, one value
 * per simulant id; the thresholds the component reads from its data-values module are
 * constants of the model.
 */
module HealthcareUtilization {
  import opened Wrappers
  import opened DataValues
  import opened Frames
  import opened Randomness
  import opened Treatment
  import opened Medication
  import Models

  const MISS_SCHEDULED_VISITS_KEY := "miss_scheduled_visits"
  const BACKGROUND_VISITS_KEY := "background_visits"
  const SCHEDULE_FOLLOWUP_KEY := "schedule_followup"
  const FPG_TEST_DATE_KEY := "fpg_test_date"
  /** The key of a draw taken without an additional key, as `filter_for_probability` takes it. */
  const UNKEYED := ""
  /** Initial FPG test dates are counted back from 28 days after the start of the simulation. */
  const FPG_TEST_DATE_OFFSET: real := 28.0

  /** The thresholds, probabilities and follow-up window of the component (in days and years). */
  datatype VisitConstants = VisitConstants(
    acuteMiStateName: string,
    postMiStateName: string,
    missScheduledVisitProbability: real,
    followupMin: real,
    followupMax: real,
    ageEligibilityThreshold: real,
    bmiEligibilityThreshold: real,
    minYearsBetweenTests: real,
    probabilityOfTestingGivenEligible: real,
    lowerEnrollmentBound: real,
    upperEnrollmentBound: real,
    sbpLow: real,
    ldlcLow: real,
    ascvdLow: real)

  /**
   * What a time step reads besides the table: the keyed draws, each simulant's background
   * visit probability for the step, the BMI, raw BMI and FPG exposures, whether the lifestyle
   * pipeline says `EXPOSED`, and the measured SBP, measured LDL-C and ASCVD score.
   */
  datatype VisitInputs = VisitInputs(
    draw: (string, int) -> real,
    backgroundProbability: int -> real,
    bmi: int -> real,
    bmiRaw: int -> real,
    fpg: int -> real,
    lifestyleExposed: int -> bool,
    measuredSbp: int -> real,
    measuredLdlc: int -> real,
    ascvd: int -> real)

  /** `pop.loc[ids]`: the rows of the given ids. */
  function Rows(pop: map<int, Simulant>, ids: set<int>): (r: map<int, Simulant>)
    ensures forall id :: id in r <==> id in pop && id in ids
    ensures forall id :: id in r ==> r[id] == pop[id]
  {
    map id | id in pop && id in ids :: pop[id]
  }

  /** The rows the query `alive == "alive"` selects. */
  function AliveRows(rows: map<int, Simulant>): (r: map<int, Simulant>)
    ensures forall id :: id in r <==> id in rows && rows[id].alive
    ensures forall id :: id in r ==> r[id] == rows[id]
  {
    map id | id in rows && rows[id].alive :: rows[id]
  }

  // ---------------------------------------------------------------- schedule_followup

  /** `schedule_followup`: the event time plus `minDays` plus the draw's share of the window up to `maxDays`. */
  function ScheduleFollowup(eventTime: real, u: real, minDays: real, maxDays: real): (r: real)
    ensures u == 0.0 ==> r == eventTime + minDays
    ensures u == 1.0 ==> r == eventTime + maxDays
    ensures r - eventTime - minDays == u * (maxDays - minDays)
  {
    eventTime + minDays + (maxDays - minDays) * u
  }

  /**
   * With a draw in [0, 1] a follow-up lies in the window from `minDays` to `maxDays` after
   * the event time, and with a draw below 1 strictly before the end of a non-empty window.
   */
  lemma FollowupInWindow(eventTime: real, u: real, minDays: real, maxDays: real)
    requires 0.0 <= u <= 1.0 && minDays <= maxDays
    ensures eventTime + minDays <= ScheduleFollowup(eventTime, u, minDays, maxDays) <= eventTime + maxDays
    ensures u < 1.0 && minDays < maxDays ==> ScheduleFollowup(eventTime, u, minDays, maxDays) < eventTime + maxDays
  {
    var w := maxDays - minDays;
    NonNegativeProduct(w, u);
    NonNegativeProduct(w, 1.0 - u);
    assert w * (1.0 - u) == w - w * u;
    if u < 1.0 && minDays < maxDays {
      PositiveProduct(w, 1.0 - u);
    }
  }

  lemma PositiveProduct(a: real, b: real)
    requires a > 0.0 && b > 0.0
    ensures a * b > 0.0
  {
  }

  // ---------------------------------------------------------------- the visit categories

  /** In the acute ischemic stroke or the acute myocardial infarction state. */
  predicate InEmergency(s: Simulant, c: VisitConstants)
  {
    s.strokeState == Models.ACUTE_ISCHEMIC_STROKE_STATE_NAME || s.ihdState == c.acuteMiStateName
  }

  /** A scheduled date at or before the event time (NaT compares false). */
  predicate Due(s: Simulant, eventTime: real)
  {
    s.scheduledDate.Some? && s.scheduledDate.value <= eventTime
  }

  /** A scheduled date after the event time. */
  predicate FollowupPending(s: Simulant, eventTime: real)
  {
    s.scheduledDate.Some? && s.scheduledDate.value > eventTime
  }

  function EmergencyVisits(pop: map<int, Simulant>, c: VisitConstants): set<int>
  {
    set id | id in pop && InEmergency(pop[id], c)
  }

  /** The scheduled visits that fell due, for simulants who are not in an emergency. */
  function ScheduledNonEmergency(pop: map<int, Simulant>, eventTime: real, c: VisitConstants): set<int>
  {
    set id | id in pop && Due(pop[id], eventTime) && !InEmergency(pop[id], c)
  }

  /** The due visits whose draw is at most the probability of missing a scheduled visit. */
  function MissedVisits(pop: map<int, Simulant>, eventTime: real, x: VisitInputs, c: VisitConstants): set<int>
  {
    set id | id in ScheduledNonEmergency(pop, eventTime, c) && x.draw(MISS_SCHEDULED_VISITS_KEY, id) <= c.missScheduledVisitProbability
  }

  function ScheduledVisits(pop: map<int, Simulant>, eventTime: real, x: VisitInputs, c: VisitConstants): set<int>
  {
    ScheduledNonEmergency(pop, eventTime, c) - MissedVisits(pop, eventTime, x, c)
  }

  /** Everybody else whose background-visit draw passes the utilization rate filter. */
  function BackgroundVisits(pop: map<int, Simulant>, eventTime: real, x: VisitInputs, c: VisitConstants): set<int>
  {
    set id | id in pop.Keys - (EmergencyVisits(pop, c) + ScheduledNonEmergency(pop, eventTime, c))
      && Kept(x.draw(BACKGROUND_VISITS_KEY, id), x.backgroundProbability(id))
  }

  /** `all_visitors`: emergency, attended scheduled and background visits. */
  function AllVisitors(pop: map<int, Simulant>, eventTime: real, x: VisitInputs, c: VisitConstants): set<int>
  {
    EmergencyVisits(pop, c) + ScheduledVisits(pop, eventTime, x, c) + BackgroundVisits(pop, eventTime, x, c)
  }

  /** The visit type the four masked assignments leave: the last one that selects the simulant wins. */
  function VisitTypeOf(pop: map<int, Simulant>, eventTime: real, x: VisitInputs, c: VisitConstants, id: int): VisitType
  {
    if id in BackgroundVisits(pop, eventTime, x, c) then Background
    else if id in ScheduledVisits(pop, eventTime, x, c) then Scheduled
    else if id in MissedVisits(pop, eventTime, x, c) then Missed
    else if id in EmergencyVisits(pop, c) then Emergency
    else NoVisit
  }

  /**
   * The four categories never overlap: the missed and the attended scheduled visits split
   * the due ones, and background visits are drawn only from those neither in an emergency
   * nor due. So the order of the masked assignments does not matter.
   */
  lemma VisitCategories(pop: map<int, Simulant>, eventTime: real, x: VisitInputs, c: VisitConstants)
    ensures MissedVisits(pop, eventTime, x, c) <= ScheduledNonEmergency(pop, eventTime, c)
    ensures ScheduledVisits(pop, eventTime, x, c) + MissedVisits(pop, eventTime, x, c) == ScheduledNonEmergency(pop, eventTime, c)
    ensures EmergencyVisits(pop, c) * ScheduledNonEmergency(pop, eventTime, c) == {}
    ensures EmergencyVisits(pop, c) * MissedVisits(pop, eventTime, x, c) == {}
    ensures EmergencyVisits(pop, c) * ScheduledVisits(pop, eventTime, x, c) == {}
    ensures ScheduledVisits(pop, eventTime, x, c) * MissedVisits(pop, eventTime, x, c) == {}
    ensures BackgroundVisits(pop, eventTime, x, c) * (EmergencyVisits(pop, c) + ScheduledNonEmergency(pop, eventTime, c)) == {}
    ensures AllVisitors(pop, eventTime, x, c) * MissedVisits(pop, eventTime, x, c) == {}
    ensures AllVisitors(pop, eventTime, x, c) <= pop.Keys
  {
  }

  /** Each visit type names exactly its category; nobody else is left at no visit. */
  lemma VisitTypeMeaning(pop: map<int, Simulant>, eventTime: real, x: VisitInputs, c: VisitConstants, id: int)
    ensures VisitTypeOf(pop, eventTime, x, c, id) == Emergency <==> id in EmergencyVisits(pop, c)
    ensures VisitTypeOf(pop, eventTime, x, c, id) == Missed <==> id in MissedVisits(pop, eventTime, x, c)
    ensures VisitTypeOf(pop, eventTime, x, c, id) == Scheduled <==> id in ScheduledVisits(pop, eventTime, x, c)
    ensures VisitTypeOf(pop, eventTime, x, c, id) == Background <==> id in BackgroundVisits(pop, eventTime, x, c)
    ensures VisitTypeOf(pop, eventTime, x, c, id) == NoVisit <==>
      id !in AllVisitors(pop, eventTime, x, c) && id !in MissedVisits(pop, eventTime, x, c)
  {
    VisitCategories(pop, eventTime, x, c);
  }

  /** The rows after the visit types are assigned and the due dates are cleared. */
  function VisitsAssigned(pop: map<int, Simulant>, eventTime: real, x: VisitInputs, c: VisitConstants): (r: map<int, Simulant>)
    ensures r.Keys == pop.Keys
  {
    map id | id in pop :: pop[id].(
      visitType := VisitTypeOf(pop, eventTime, x, c, id),
      scheduledDate := if id in ScheduledNonEmergency(pop, eventTime, c) then None else pop[id].scheduledDate)
  }

  /** The rows after the emergency visits are marked and the due dates cleared. */
  function EmergenciesMarked(pop: map<int, Simulant>, eventTime: real, c: VisitConstants): (r: map<int, Simulant>)
    ensures r.Keys == pop.Keys
  {
    map id | id in pop :: pop[id].(
      visitType := if id in EmergencyVisits(pop, c) then Emergency else NoVisit,
      scheduledDate := if id in ScheduledNonEmergency(pop, eventTime, c) then None else pop[id].scheduledDate)
  }

  /**
   * The visit part of `on_time_step_cleanup`: the visit type is reset, then the emergency,
   * missed, scheduled and background masks are written in turn; the due dates are cleared
   * whether the visit is attended or missed. The masks read only columns no earlier
   * assignment has written, so they are the categories of the rows as read.
   */
  method AssignVisits(pop: map<int, Simulant>, eventTime: real, x: VisitInputs, c: VisitConstants)
    returns (r: map<int, Simulant>, visitors: set<int>)
    ensures r == VisitsAssigned(pop, eventTime, x, c)
    ensures visitors == AllVisitors(pop, eventTime, x, c)
  {
    var cleared := MarkEmergencies(pop, eventTime, c);
    var missed := MissedVisits(pop, eventTime, x, c);
    var withMissed := SetWhere(cleared, missed, (id: int, s: Simulant) => s.(visitType := Missed));
    var scheduled := ScheduledNonEmergency(pop, eventTime, c) - missed;
    var withScheduled := SetWhere(withMissed, scheduled, (id: int, s: Simulant) => s.(visitType := Scheduled));
    var background := BackgroundVisits(pop, eventTime, x, c);
    r := SetWhere(withScheduled, background, (id: int, s: Simulant) => s.(visitType := Background));
    visitors := EmergencyVisits(pop, c) + scheduled + background;
    ghost var expected := VisitsAssigned(pop, eventTime, x, c);
    forall id | id in pop
      ensures r[id] == expected[id]
    {
      AttendedRow(pop, eventTime, x, c, id, cleared[id], withMissed[id], withScheduled[id], r[id]);
    }
    SameRows(r, expected);
  }

  /** The first three masked assignments: reset, emergencies, and the due dates cleared. */
  method MarkEmergencies(pop: map<int, Simulant>, eventTime: real, c: VisitConstants) returns (r: map<int, Simulant>)
    ensures r == EmergenciesMarked(pop, eventTime, c)
  {
    var reset := SetWhere(pop, pop.Keys, (id: int, s: Simulant) => s.(visitType := NoVisit));
    var withEmergency := SetWhere(reset, EmergencyVisits(pop, c), (id: int, s: Simulant) => s.(visitType := Emergency));
    r := SetWhere(withEmergency, ScheduledNonEmergency(pop, eventTime, c), (id: int, s: Simulant) => s.(scheduledDate := None));
    ghost var expected := EmergenciesMarked(pop, eventTime, c);
    forall id | id in pop
      ensures r[id] == expected[id]
    {
    }
    SameRows(r, expected);
  }

  /** One row through the masked assignments of the missed, scheduled and background visits. */
  lemma AttendedRow(pop: map<int, Simulant>, eventTime: real, x: VisitInputs, c: VisitConstants, id: int,
                    cleared: Simulant, withMissed: Simulant, withScheduled: Simulant, after: Simulant)
    requires id in pop
    requires cleared == EmergenciesMarked(pop, eventTime, c)[id]
    requires withMissed == if id in MissedVisits(pop, eventTime, x, c) then cleared.(visitType := Missed) else cleared
    requires withScheduled == if id in ScheduledVisits(pop, eventTime, x, c) then withMissed.(visitType := Scheduled) else withMissed
    requires after == if id in BackgroundVisits(pop, eventTime, x, c) then withScheduled.(visitType := Background) else withScheduled
    ensures after == VisitsAssigned(pop, eventTime, x, c)[id]
  {
  }

  // ---------------------------------------------------------------- FPG testing and lifestyle

  /**
   * Eligible for an FPG test: not enrolled in the lifestyle intervention, at or above the
   * age and BMI thresholds, and never tested or last tested more than the minimum number of
   * years before the clock.
   */
  predicate FpgTestEligible(s: Simulant, id: int, clock: real, x: VisitInputs, c: VisitConstants)
  {
    s.lifestyle.None? && s.age >= c.ageEligibilityThreshold && x.bmi(id) >= c.bmiEligibilityThreshold
    && (s.lastFpgTestDate.None? || s.lastFpgTestDate.value < clock - DAYS_PER_YEAR * c.minYearsBetweenTests)
  }

  /** `test_fpg`: the eligible visitors the testing probability keeps. */
  function TestFpg(visitors: map<int, Simulant>, clock: real, x: VisitInputs, c: VisitConstants): (r: set<int>)
    ensures r <= visitors.Keys
    ensures forall id :: id in r ==> FpgTestEligible(visitors[id], id, clock, x, c)
    ensures forall id :: id in visitors && FpgTestEligible(visitors[id], id, clock, x, c) ==>
      (id in r <==> Kept(x.draw(UNKEYED, id), c.probabilityOfTestingGivenEligible))
  {
    set id | id in visitors && FpgTestEligible(visitors[id], id, clock, x, c)
      && Kept(x.draw(UNKEYED, id), c.probabilityOfTestingGivenEligible)
  }

  /** `determine_lifestyle_enrollment`: the tested whose FPG is within bounds and whose lifestyle pipeline says exposed. */
  function DetermineLifestyleEnrollment(tested: set<int>, x: VisitInputs, c: VisitConstants): (r: set<int>)
    ensures r <= tested
    ensures forall id :: id in r ==>
      c.lowerEnrollmentBound <= x.fpg(id) <= c.upperEnrollmentBound && x.lifestyleExposed(id)
    ensures forall id :: id in tested && x.lifestyleExposed(id) && c.lowerEnrollmentBound <= x.fpg(id) <= c.upperEnrollmentBound ==> id in r
  {
    set id | id in tested && c.lowerEnrollmentBound <= x.fpg(id) <= c.upperEnrollmentBound && x.lifestyleExposed(id)
  }

  /** The rows after the tested get today's test date and the enrolled today's enrolment date. */
  function FpgRecorded(rows: map<int, Simulant>, tested: set<int>, enrolled: set<int>, clock: real): (r: map<int, Simulant>)
    ensures r.Keys == rows.Keys
  {
    map id | id in rows :: rows[id].(
      lastFpgTestDate := if id in tested then Some(clock) else rows[id].lastFpgTestDate,
      lifestyle := if id in enrolled then Some(clock) else rows[id].lifestyle)
  }

  /** The testing and enrolment part of `on_time_step_cleanup`: test the visitors, enrol, and write both dates. */
  method TestAndEnroll(rows: map<int, Simulant>, visitors: set<int>, clock: real, x: VisitInputs, c: VisitConstants)
    returns (r: map<int, Simulant>, enrolled: set<int>)
    ensures enrolled == DetermineLifestyleEnrollment(TestFpg(Rows(rows, visitors), clock, x, c), x, c)
    ensures r == FpgRecorded(rows, TestFpg(Rows(rows, visitors), clock, x, c), enrolled, clock)
  {
    var tested := TestFpg(Rows(rows, visitors), clock, x, c);
    enrolled := DetermineLifestyleEnrollment(tested, x, c);
    var withTests := SetWhere(rows, tested, (id: int, s: Simulant) => s.(lastFpgTestDate := Some(clock)));
    r := SetWhere(withTests, enrolled, (id: int, s: Simulant) => s.(lifestyle := Some(clock)));
    ghost var expected := FpgRecorded(rows, tested, enrolled, clock);
    forall id | id in rows
      ensures r[id] == expected[id]
    {
    }
    SameRows(r, expected);
  }

  // ---------------------------------------------------------------- follow-ups

  /** `determine_followups_sbp`: the visitors on SBP medication or with measured SBP at least the low threshold. */
  function DetermineFollowupsSbp(visitors: map<int, Simulant>, x: VisitInputs, c: VisitConstants): (r: set<int>)
    ensures forall id :: id in r <==> id in visitors && (visitors[id].sbpMedication != NO_TREATMENT || x.measuredSbp(id) >= c.sbpLow)
  {
    set id | id in visitors && (visitors[id].sbpMedication != NO_TREATMENT || x.measuredSbp(id) >= c.sbpLow)
  }

  /** `determine_followups_ldlc`: the visitors with both ASCVD and measured LDL-C at least their low thresholds. */
  function DetermineFollowupsLdlc(visitors: map<int, Simulant>, x: VisitInputs, c: VisitConstants): (r: set<int>)
    ensures forall id :: id in r <==> id in visitors && x.ascvd(id) >= c.ascvdLow && x.measuredLdlc(id) >= c.ldlcLow
  {
    set id | id in visitors && x.ascvd(id) >= c.ascvdLow && x.measuredLdlc(id) >= c.ldlcLow
  }

  /** Who needs a follow-up: the newly enrolled and the SBP and LDL-C follow-ups among the visitors. */
  function NeedsFollowup(rows: map<int, Simulant>, visitors: set<int>, enrolled: set<int>, x: VisitInputs, c: VisitConstants): set<int>
  {
    enrolled + (DetermineFollowupsSbp(Rows(rows, visitors), x, c) + DetermineFollowupsLdlc(Rows(rows, visitors), x, c))
  }

  /** The follow-up date of a simulant, from its `schedule_followup` draw and the default window. */
  function FollowupDate(eventTime: real, x: VisitInputs, c: VisitConstants, id: int): real
  {
    ScheduleFollowup(eventTime, x.draw(SCHEDULE_FOLLOWUP_KEY, id), c.followupMin, c.followupMax)
  }

  /** The rows after those who need a follow-up and hold none in the future get one. */
  function FollowupsScheduled(rows: map<int, Simulant>, visitors: set<int>, enrolled: set<int>, eventTime: real,
                              x: VisitInputs, c: VisitConstants): (r: map<int, Simulant>)
    ensures r.Keys == rows.Keys
  {
    map id | id in rows :: rows[id].(
      scheduledDate :=
        if id in NeedsFollowup(rows, visitors, enrolled, x, c) && !FollowupPending(rows[id], eventTime)
        then Some(FollowupDate(eventTime, x, c, id))
        else rows[id].scheduledDate)
  }

  /** The follow-up part of `on_time_step_cleanup`: schedule follow-ups except over a future one. */
  method ScheduleFollowups(rows: map<int, Simulant>, visitors: set<int>, enrolled: set<int>, eventTime: real,
                           x: VisitInputs, c: VisitConstants)
    returns (r: map<int, Simulant>)
    ensures r == FollowupsScheduled(rows, visitors, enrolled, eventTime, x, c)
  {
    var needsFollowupSbp := DetermineFollowupsSbp(Rows(rows, visitors), x, c);
    var needsFollowupLdlc := DetermineFollowupsLdlc(Rows(rows, visitors), x, c);
    var hasFollowupAlreadyScheduled := set id | id in rows && FollowupPending(rows[id], eventTime);
    var toScheduleFollowup := (enrolled + (needsFollowupSbp + needsFollowupLdlc)) - hasFollowupAlreadyScheduled;
    r := SetWhere(rows, toScheduleFollowup, (id: int, s: Simulant) => s.(scheduledDate := Some(FollowupDate(eventTime, x, c, id))));
    ghost var expected := FollowupsScheduled(rows, visitors, enrolled, eventTime, x, c);
    forall id | id in rows
      ensures r[id] == expected[id]
    {
    }
    SameRows(r, expected);
  }

  // ---------------------------------------------------------------- the time step

  /** The simulants the time step enrols: the tested visitors the enrolment rule selects. */
  function TimeStepEnrolled(pop: map<int, Simulant>, clock: real, eventTime: real, x: VisitInputs, c: VisitConstants): set<int>
  {
    var typed := VisitsAssigned(pop, eventTime, x, c);
    DetermineLifestyleEnrollment(TestFpg(Rows(typed, AllVisitors(pop, eventTime, x, c)), clock, x, c), x, c)
  }

  /** The alive rows after the first two phases: visits assigned, tests and enrolments recorded. */
  function TimeStepRecorded(pop: map<int, Simulant>, clock: real, eventTime: real, x: VisitInputs, c: VisitConstants): (r: map<int, Simulant>)
    ensures r.Keys == pop.Keys
  {
    var typed := VisitsAssigned(pop, eventTime, x, c);
    var tested := TestFpg(Rows(typed, AllVisitors(pop, eventTime, x, c)), clock, x, c);
    FpgRecorded(typed, tested, DetermineLifestyleEnrollment(tested, x, c), clock)
  }

  /** The alive rows after `on_time_step_cleanup`, from the three phases in turn. */
  function TimeStepVisited(pop: map<int, Simulant>, clock: real, eventTime: real, x: VisitInputs, c: VisitConstants): (r: map<int, Simulant>)
    ensures r.Keys == pop.Keys
  {
    FollowupsScheduled(TimeStepRecorded(pop, clock, eventTime, x, c), AllVisitors(pop, eventTime, x, c),
                       TimeStepEnrolled(pop, clock, eventTime, x, c), eventTime, x, c)
  }

  /**
   * `on_time_step_cleanup`: the alive rows go through the three phases and the four columns
   * are written back to the table.
   */
  method OnTimeStepCleanup(table: PopulationTable, clock: real, eventTime: real, x: VisitInputs, c: VisitConstants)
    modifies table
    ensures table.rows == old(table.rows) + TimeStepVisited(AliveRows(old(table.rows)), clock, eventTime, x, c)
  {
    var pop := AliveRows(table.rows);
    var typed, visitors := AssignVisits(pop, eventTime, x, c);
    var recorded, enrolled := TestAndEnroll(typed, visitors, clock, x, c);
    var stepped := ScheduleFollowups(recorded, visitors, enrolled, eventTime, x, c);
    table.rows := table.rows + stepped;
  }

  /** Tested this step: a visitor, eligible, and kept by the testing probability. */
  predicate TestedInStep(pop: map<int, Simulant>, clock: real, eventTime: real, x: VisitInputs, c: VisitConstants, id: int)
  {
    id in pop && id in AllVisitors(pop, eventTime, x, c) && FpgTestEligible(pop[id], id, clock, x, c)
    && Kept(x.draw(UNKEYED, id), c.probabilityOfTestingGivenEligible)
  }

  /** Enrolled this step: tested, exposed by the lifestyle pipeline, and with FPG within the bounds. */
  predicate EnrolledInStep(pop: map<int, Simulant>, clock: real, eventTime: real, x: VisitInputs, c: VisitConstants, id: int)
  {
    TestedInStep(pop, clock, eventTime, x, c, id) && x.lifestyleExposed(id)
    && c.lowerEnrollmentBound <= x.fpg(id) <= c.upperEnrollmentBound
  }

  /**
   * Given a new follow-up this step: no follow-up pending after the event time, and newly
   * enrolled or a visitor who needs an SBP or an LDL-C follow-up.
   */
  predicate RescheduledInStep(pop: map<int, Simulant>, clock: real, eventTime: real, x: VisitInputs, c: VisitConstants, id: int)
  {
    id in pop && !FollowupPending(pop[id], eventTime)
    && (EnrolledInStep(pop, clock, eventTime, x, c, id)
        || (id in AllVisitors(pop, eventTime, x, c)
            && (pop[id].sbpMedication != NO_TREATMENT || x.measuredSbp(id) >= c.sbpLow
                || (x.ascvd(id) >= c.ascvdLow && x.measuredLdlc(id) >= c.ldlcLow))))
  }

  /** One alive simulant through the visit assignment, the FPG test and the enrolment. */
  lemma RecordedRow(pop: map<int, Simulant>, clock: real, eventTime: real, x: VisitInputs, c: VisitConstants, id: int)
    requires id in pop
    ensures TimeStepRecorded(pop, clock, eventTime, x, c)[id] == pop[id].(
      visitType := VisitTypeOf(pop, eventTime, x, c, id),
      lastFpgTestDate := if TestedInStep(pop, clock, eventTime, x, c, id) then Some(clock) else pop[id].lastFpgTestDate,
      lifestyle := if EnrolledInStep(pop, clock, eventTime, x, c, id) then Some(clock) else pop[id].lifestyle,
      scheduledDate := if id in ScheduledNonEmergency(pop, eventTime, c) then None else pop[id].scheduledDate)
    ensures id in TimeStepEnrolled(pop, clock, eventTime, x, c) <==> EnrolledInStep(pop, clock, eventTime, x, c, id)
  {
    var typed := VisitsAssigned(pop, eventTime, x, c);
    var testedIds := TestFpg(Rows(typed, AllVisitors(pop, eventTime, x, c)), clock, x, c);
    var enrolledIds := DetermineLifestyleEnrollment(testedIds, x, c);
    TestedIff(pop, clock, eventTime, x, c, id);
    FourColumns(pop[id], VisitTypeOf(pop, eventTime, x, c, id), id in ScheduledNonEmergency(pop, eventTime, c),
                id in testedIds, id in enrolledIds, clock, typed[id], FpgRecorded(typed, testedIds, enrolledIds, clock)[id]);
  }

  /** One alive simulant through the time step, column by column. */
  lemma StepRow(pop: map<int, Simulant>, clock: real, eventTime: real, x: VisitInputs, c: VisitConstants, id: int)
    requires id in pop
    ensures TimeStepVisited(pop, clock, eventTime, x, c)[id] == pop[id].(
      visitType := VisitTypeOf(pop, eventTime, x, c, id),
      lastFpgTestDate := if TestedInStep(pop, clock, eventTime, x, c, id) then Some(clock) else pop[id].lastFpgTestDate,
      lifestyle := if EnrolledInStep(pop, clock, eventTime, x, c, id) then Some(clock) else pop[id].lifestyle,
      scheduledDate :=
        if RescheduledInStep(pop, clock, eventTime, x, c, id) then Some(FollowupDate(eventTime, x, c, id))
        else if id in ScheduledNonEmergency(pop, eventTime, c) then None
        else pop[id].scheduledDate)
  {
    RecordedRow(pop, clock, eventTime, x, c, id);
    var recorded := TimeStepRecorded(pop, clock, eventTime, x, c);
    NeedsFollowupIff(recorded, AllVisitors(pop, eventTime, x, c), TimeStepEnrolled(pop, clock, eventTime, x, c), x, c, id);
    // a date the step cleared was due, so the pending test reads the same either way
    assert FollowupPending(recorded[id], eventTime) == FollowupPending(pop[id], eventTime);
  }

  /** The columns the three phases write, composed for one row. */
  lemma FourColumns(s: Simulant, visitType: VisitType, cleared: bool, tested: bool, enrolled: bool, clock: real,
                    typedRow: Simulant, recordedRow: Simulant)
    requires typedRow == s.(visitType := visitType, scheduledDate := if cleared then None else s.scheduledDate)
    requires recordedRow == typedRow.(lastFpgTestDate := if tested then Some(clock) else typedRow.lastFpgTestDate,
                                      lifestyle := if enrolled then Some(clock) else typedRow.lifestyle)
    ensures recordedRow == s.(visitType := visitType,
                              lastFpgTestDate := if tested then Some(clock) else s.lastFpgTestDate,
                              lifestyle := if enrolled then Some(clock) else s.lifestyle,
                              scheduledDate := if cleared then None else s.scheduledDate)
  {
  }

  /**
   * Whether `test_fpg` selects a visitor reads only its age, test date and enrolment, which
   * the visit assignment leaves as they were.
   */
  lemma TestedIff(pop: map<int, Simulant>, clock: real, eventTime: real, x: VisitInputs, c: VisitConstants, id: int)
    ensures id in TestFpg(Rows(VisitsAssigned(pop, eventTime, x, c), AllVisitors(pop, eventTime, x, c)), clock, x, c) <==>
      TestedInStep(pop, clock, eventTime, x, c, id)
  {
    var typed := VisitsAssigned(pop, eventTime, x, c);
    var visitors := AllVisitors(pop, eventTime, x, c);
    if id in pop && id in visitors {
      assert Rows(typed, visitors)[id] == typed[id];
    }
  }

  /** Who needs a follow-up, one simulant at a time. */
  lemma NeedsFollowupIff(rows: map<int, Simulant>, visitors: set<int>, enrolled: set<int>, x: VisitInputs, c: VisitConstants, id: int)
    requires id in rows
    ensures id in NeedsFollowup(rows, visitors, enrolled, x, c) <==>
      (id in enrolled || (id in visitors &&
        (rows[id].sbpMedication != NO_TREATMENT || x.measuredSbp(id) >= c.sbpLow
         || (x.ascvd(id) >= c.ascvdLow && x.measuredLdlc(id) >= c.ldlcLow))))
  {
    if id in visitors {
      assert Rows(rows, visitors)[id] == rows[id];
    }
  }

  /**
   * A follow-up already booked for a date after the event time survives the step unchanged,
   * and a due date never does: it is cleared, or replaced by a new follow-up.
   */
  lemma ScheduledDatesAfterStep(pop: map<int, Simulant>, clock: real, eventTime: real, x: VisitInputs, c: VisitConstants, id: int)
    requires id in pop
    ensures FollowupPending(pop[id], eventTime) ==>
      TimeStepVisited(pop, clock, eventTime, x, c)[id].scheduledDate == pop[id].scheduledDate
    ensures id in ScheduledNonEmergency(pop, eventTime, c) ==>
      TimeStepVisited(pop, clock, eventTime, x, c)[id].scheduledDate in {None, Some(FollowupDate(eventTime, x, c, id))}
  {
    StepRow(pop, clock, eventTime, x, c, id);
  }

  /**
   * Every visitor who was enrolled or needs an SBP or LDL-C follow-up leaves the step with
   * a follow-up after the event time: the one already booked, or a new one in the window.
   */
  lemma FollowupsCovered(pop: map<int, Simulant>, clock: real, eventTime: real, x: VisitInputs, c: VisitConstants, id: int)
    requires id in pop && UnitKeyedDraws(x.draw) && 0.0 < c.followupMin <= c.followupMax
    requires id in AllVisitors(pop, eventTime, x, c)
    requires pop[id].sbpMedication != NO_TREATMENT || x.measuredSbp(id) >= c.sbpLow
      || (x.ascvd(id) >= c.ascvdLow && x.measuredLdlc(id) >= c.ldlcLow)
    ensures FollowupPending(TimeStepVisited(pop, clock, eventTime, x, c)[id], eventTime)
  {
    StepRow(pop, clock, eventTime, x, c, id);
    if RescheduledInStep(pop, clock, eventTime, x, c, id) {
      FollowupInWindow(eventTime, x.draw(SCHEDULE_FOLLOWUP_KEY, id), c.followupMin, c.followupMax);
    }
  }

  /** The newly enrolled leave the step with a follow-up after the event time as well. */
  lemma EnrolledFollowedUp(pop: map<int, Simulant>, clock: real, eventTime: real, x: VisitInputs, c: VisitConstants, id: int)
    requires id in pop && UnitKeyedDraws(x.draw) && 0.0 < c.followupMin <= c.followupMax
    ensures EnrolledInStep(pop, clock, eventTime, x, c, id) <==>
      TimeStepVisited(pop, clock, eventTime, x, c)[id].lifestyle != pop[id].lifestyle
    ensures EnrolledInStep(pop, clock, eventTime, x, c, id) ==>
      FollowupPending(TimeStepVisited(pop, clock, eventTime, x, c)[id], eventTime)
  {
    StepRow(pop, clock, eventTime, x, c, id);
    if RescheduledInStep(pop, clock, eventTime, x, c, id) {
      FollowupInWindow(eventTime, x.draw(SCHEDULE_FOLLOWUP_KEY, id), c.followupMin, c.followupMax);
    }
  }

  /**
   * Only visitors are tested, and only the eligible ones; only the tested are enrolled, so an
   * enrolment date is never overwritten; a simulant who did not visit keeps its test and
   * enrolment dates and its visit type is missed or no visit.
   */
  lemma TestingAndEnrolmentRules(pop: map<int, Simulant>, clock: real, eventTime: real, x: VisitInputs, c: VisitConstants, id: int)
    requires id in pop
    ensures var r := TimeStepVisited(pop, clock, eventTime, x, c)[id];
      && (r.lastFpgTestDate != pop[id].lastFpgTestDate ==>
            id in AllVisitors(pop, eventTime, x, c) && FpgTestEligible(pop[id], id, clock, x, c) && r.lastFpgTestDate == Some(clock))
      && (r.lifestyle != pop[id].lifestyle ==>
            r.lastFpgTestDate == Some(clock) && pop[id].lifestyle.None? && r.lifestyle == Some(clock)
            && c.lowerEnrollmentBound <= x.fpg(id) <= c.upperEnrollmentBound && x.lifestyleExposed(id))
      && (pop[id].lifestyle.Some? ==> r.lifestyle == pop[id].lifestyle)
      && (id !in AllVisitors(pop, eventTime, x, c) ==>
            r.lastFpgTestDate == pop[id].lastFpgTestDate && r.lifestyle == pop[id].lifestyle
            && r.visitType in {Missed, NoVisit})
  {
    StepRow(pop, clock, eventTime, x, c, id);
    VisitTypeMeaning(pop, eventTime, x, c, id);
  }

  /**
   * The visitors the treatment ramps pick out by visit type are exactly this step's
   * emergency, scheduled and background visitors.
   */
  lemma VisitorsReachTreatment(pop: map<int, Simulant>, clock: real, eventTime: real, x: VisitInputs, c: VisitConstants, id: int)
    requires id in pop
    ensures Visiting(TimeStepVisited(pop, clock, eventTime, x, c)[id]) <==> id in AllVisitors(pop, eventTime, x, c)
  {
    StepRow(pop, clock, eventTime, x, c, id);
    VisitTypeMeaning(pop, eventTime, x, c, id);
  }

  /** The step writes only alive simulants' rows, and of them only the four columns. */
  lemma TimeStepScope(rows: map<int, Simulant>, clock: real, eventTime: real, x: VisitInputs, c: VisitConstants, id: int)
    requires id in rows
    ensures var after := rows + TimeStepVisited(AliveRows(rows), clock, eventTime, x, c);
      && after.Keys == rows.Keys
      && (!rows[id].alive ==> after[id] == rows[id])
      && after[id] == rows[id].(visitType := after[id].visitType, scheduledDate := after[id].scheduledDate,
                                lastFpgTestDate := after[id].lastFpgTestDate, lifestyle := after[id].lifestyle)
  {
    if rows[id].alive {
      StepRow(AliveRows(rows), clock, eventTime, x, c, id);
    }
  }

  // ---------------------------------------------------------------- on_initialize_simulants

  /** On SBP or LDL-C medication. */
  predicate OnMedication(s: Simulant)
  {
    s.sbpMedication != NO_TREATMENT || s.ldlcMedication != NO_TREATMENT
  }

  /** In the chronic ischemic stroke or the post myocardial infarction state. */
  predicate AcuteHistory(s: Simulant, c: VisitConstants)
  {
    s.strokeState == Models.CHRONIC_ISCHEMIC_STROKE_STATE_NAME || s.ihdState == c.postMiStateName
  }

  /** The follow-up of the medicated and those with a history: the window shifted to start now. */
  function HistoryFollowupDate(eventTime: real, x: VisitInputs, c: VisitConstants, id: int): real
  {
    ScheduleFollowup(eventTime, x.draw(SCHEDULE_FOLLOWUP_KEY, id), 0.0, c.followupMax - c.followupMin)
  }

  /**
   * The initial scheduled date as `on_initialize_simulants` computes it: the series written into
   * `on_medication ∪ acute_history` is indexed by `acute_history` alone, and assignment
   * aligns on the index, so a medicated simulant without a history gets NaT.
   */
  function InitialFollowupAsWritten(s: Simulant, id: int, eventTime: real, x: VisitInputs, c: VisitConstants): (r: Option<real>)
    ensures r.Some? <==> InEmergency(s, c) || AcuteHistory(s, c)
  {
    if InEmergency(s, c) then Some(FollowupDate(eventTime, x, c, id))
    else if AcuteHistory(s, c) then Some(HistoryFollowupDate(eventTime, x, c, id))
    else None
  }

  /** A medicated simulant without a history or an emergency starts without a follow-up. */
  lemma InitialFollowupSkipsMedicated(s: Simulant, id: int, eventTime: real, x: VisitInputs, c: VisitConstants)
    requires OnMedication(s) && !AcuteHistory(s, c) && !InEmergency(s, c)
    ensures InitialFollowupAsWritten(s, id, eventTime, x, c) == None
    ensures InitialFollowup(s, id, eventTime, x, c) == Some(HistoryFollowupDate(eventTime, x, c, id))
  {
  }

  /** The initial scheduled date the component documents: the medicated are followed up too. */
  function InitialFollowup(s: Simulant, id: int, eventTime: real, x: VisitInputs, c: VisitConstants): (r: Option<real>)
    ensures r.Some? <==> InEmergency(s, c) || OnMedication(s) || AcuteHistory(s, c)
  {
    if InEmergency(s, c) then Some(FollowupDate(eventTime, x, c, id))
    else if OnMedication(s) || AcuteHistory(s, c) then Some(HistoryFollowupDate(eventTime, x, c, id))
    else None
  }

  /**
   * Every simulant on medication, with a history or in an emergency starts with a follow-up;
   * an emergency one lies in the default window, the others in the window shifted to start
   * at the event time; nobody else has one.
   */
  lemma InitialFollowupWindows(s: Simulant, id: int, eventTime: real, x: VisitInputs, c: VisitConstants)
    requires UnitKeyedDraws(x.draw) && 0.0 <= c.followupMin <= c.followupMax
    ensures InitialFollowup(s, id, eventTime, x, c).Some? <==> InEmergency(s, c) || OnMedication(s) || AcuteHistory(s, c)
    ensures InEmergency(s, c) ==> eventTime + c.followupMin <= InitialFollowup(s, id, eventTime, x, c).value <= eventTime + c.followupMax
    ensures !InEmergency(s, c) && (OnMedication(s) || AcuteHistory(s, c)) ==>
      eventTime <= InitialFollowup(s, id, eventTime, x, c).value <= eventTime + (c.followupMax - c.followupMin)
  {
    var u := x.draw(SCHEDULE_FOLLOWUP_KEY, id);
    FollowupInWindow(eventTime, u, c.followupMin, c.followupMax);
    FollowupInWindow(eventTime, u, 0.0, c.followupMax - c.followupMin);
  }

  /**
   * The initial last FPG test date: the eligible by age and raw BMI whom the testing
   * probability keeps were tested up to `MIN_YEARS_BETWEEN_TESTS` years before 28 days after
   * the clock; the others were never tested.
   */
  function InitialFpgTestDate(age: real, id: int, clock: real, x: VisitInputs, c: VisitConstants): (r: Option<real>)
    ensures r.Some? ==> age >= c.ageEligibilityThreshold && x.bmiRaw(id) >= c.bmiEligibilityThreshold
  {
    if age >= c.ageEligibilityThreshold && x.bmiRaw(id) >= c.bmiEligibilityThreshold
       && Kept(x.draw(UNKEYED, id), c.probabilityOfTestingGivenEligible)
    then Some(clock + FPG_TEST_DATE_OFFSET - x.draw(FPG_TEST_DATE_KEY, id) * (DAYS_PER_YEAR * c.minYearsBetweenTests))
    else None
  }

  /** An initial test date lies at most `MIN_YEARS_BETWEEN_TESTS` years before 28 days after the clock. */
  lemma InitialFpgTestDateWindow(age: real, id: int, clock: real, x: VisitInputs, c: VisitConstants)
    requires UnitKeyedDraws(x.draw) && c.minYearsBetweenTests >= 0.0
    requires InitialFpgTestDate(age, id, clock, x, c).Some?
    ensures clock + FPG_TEST_DATE_OFFSET - DAYS_PER_YEAR * c.minYearsBetweenTests
      <= InitialFpgTestDate(age, id, clock, x, c).value <= clock + FPG_TEST_DATE_OFFSET
  {
    var u := x.draw(FPG_TEST_DATE_KEY, id);
    var span := DAYS_PER_YEAR * c.minYearsBetweenTests;
    NonNegativeProduct(u, span);
    NonNegativeProduct(1.0 - u, span);
    assert (1.0 - u) * span == span - u * span;
  }

  /** The new simulants' rows with the three columns the component creates. */
  function VisitsInitialized(pop: map<int, Simulant>, clock: real, eventTime: real, x: VisitInputs, c: VisitConstants): (r: map<int, Simulant>)
    ensures r.Keys == pop.Keys
  {
    map id | id in pop :: pop[id].(
      visitType := if InEmergency(pop[id], c) then Emergency else NoVisit,
      scheduledDate := InitialFollowup(pop[id], id, eventTime, x, c),
      lastFpgTestDate := InitialFpgTestDate(pop[id].age, id, clock, x, c))
  }

  /**
   * `on_initialize_simulants` on the new simulants' rows: the columns are initialized, the
   * emergency visit type written, the follow-ups of the medicated and those with a history
   * scheduled and then overwritten for those in an emergency, and the FPG test dates set.
   */
  method InitializeVisitColumns(pop: map<int, Simulant>, clock: real, eventTime: real, x: VisitInputs, c: VisitConstants)
    returns (r: map<int, Simulant>)
    ensures r == VisitsInitialized(pop, clock, eventTime, x, c)
  {
    var withFollowups := InitializeFollowups(pop, eventTime, x, c);
    r := SetWhere(withFollowups, pop.Keys, (id: int, s: Simulant) => s.(lastFpgTestDate := InitialFpgTestDate(s.age, id, clock, x, c)));
    ghost var expected := VisitsInitialized(pop, clock, eventTime, x, c);
    forall id | id in pop
      ensures r[id] == expected[id]
    {
    }
    SameRows(r, expected);
  }

  /** The first two masked assignments of `on_initialize_simulants`: the columns reset, emergencies marked. */
  method InitializeVisitTypes(pop: map<int, Simulant>, c: VisitConstants) returns (r: map<int, Simulant>)
    ensures r.Keys == pop.Keys
    ensures forall id :: id in pop ==>
      r[id] == pop[id].(visitType := if InEmergency(pop[id], c) then Emergency else NoVisit, scheduledDate := None)
  {
    var initialized := SetWhere(pop, pop.Keys, (id: int, s: Simulant) => s.(visitType := NoVisit, scheduledDate := None));
    var emergency := set id | id in pop && InEmergency(pop[id], c);
    r := SetWhere(initialized, emergency, (id: int, s: Simulant) => s.(visitType := Emergency));
  }

  /** The next two: the follow-ups of the medicated and those with a history, then of the emergencies. */
  method InitializeFollowups(pop: map<int, Simulant>, eventTime: real, x: VisitInputs, c: VisitConstants)
    returns (r: map<int, Simulant>)
    ensures r.Keys == pop.Keys
    ensures forall id :: id in pop ==> r[id] == pop[id].(
      visitType := if InEmergency(pop[id], c) then Emergency else NoVisit,
      scheduledDate := InitialFollowup(pop[id], id, eventTime, x, c))
  {
    var withEmergency := InitializeVisitTypes(pop, c);
    var followedUp := set id | id in pop && (OnMedication(pop[id]) || AcuteHistory(pop[id], c));
    var withHistory := SetWhere(withEmergency, followedUp,
      (id: int, s: Simulant) => s.(scheduledDate := Some(HistoryFollowupDate(eventTime, x, c, id))));
    var emergency := set id | id in pop && InEmergency(pop[id], c);
    r := SetWhere(withHistory, emergency,
      (id: int, s: Simulant) => s.(scheduledDate := Some(FollowupDate(eventTime, x, c, id))));
    forall id | id in pop
      ensures r[id] == pop[id].(
        visitType := if InEmergency(pop[id], c) then Emergency else NoVisit,
        scheduledDate := InitialFollowup(pop[id], id, eventTime, x, c))
    {
      InitializedRow(pop, eventTime, x, c, id, withEmergency[id], withHistory[id], r[id]);
    }
  }

  /** One new row through the masked assignments of the follow-up. */
  lemma InitializedRow(pop: map<int, Simulant>, eventTime: real, x: VisitInputs, c: VisitConstants, id: int,
                       withEmergency: Simulant, withHistory: Simulant, after: Simulant)
    requires id in pop
    requires withEmergency == pop[id].(visitType := if InEmergency(pop[id], c) then Emergency else NoVisit, scheduledDate := None)
    requires withHistory ==
      if OnMedication(pop[id]) || AcuteHistory(pop[id], c)
      then withEmergency.(scheduledDate := Some(HistoryFollowupDate(eventTime, x, c, id)))
      else withEmergency
    requires after ==
      if InEmergency(pop[id], c) then withHistory.(scheduledDate := Some(FollowupDate(eventTime, x, c, id))) else withHistory
    ensures after == pop[id].(
      visitType := if InEmergency(pop[id], c) then Emergency else NoVisit,
      scheduledDate := InitialFollowup(pop[id], id, eventTime, x, c))
  {
  }

  /** `on_initialize_simulants`: the new simulants' three columns are written to the table. */
  method OnInitializeSimulants(table: PopulationTable, newIds: set<int>, clock: real, eventTime: real, x: VisitInputs, c: VisitConstants)
    modifies table
    ensures table.rows == old(table.rows) + VisitsInitialized(Rows(old(table.rows), newIds), clock, eventTime, x, c)
  {
    var initialized := InitializeVisitColumns(Rows(table.rows, newIds), clock, eventTime, x, c);
    table.rows := table.rows + initialized;
  }
}
