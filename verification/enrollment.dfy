/**
 * Enrolment in the outreach and polypill interventions (`enroll_in_outreach` and
 * `enroll_in_polypill` of components/treatment.py). The intervention pipelines' values for
 * the candidates (the new enrolment category and the adherence the pipelines now give)
 * are inputs.
 */
module Enrollment {
  import opened Wrappers
  import opened DataValues
  import opened Frames
  import opened Treatment
  import opened Scenarios

  // ---------------------------------------------------------------- outreach

  /** The candidates whose outreach category the pipeline changes. */
  function OutreachToEnroll(pop: map<int, Simulant>, maybeEnroll: set<int>, newOutreach: int -> Category): (r: set<int>)
    ensures forall id :: id in r <==> id in maybeEnroll && id in pop && pop[id].outreach != newOutreach(id)
  {
    set id | id in maybeEnroll && id in pop && pop[id].outreach != newOutreach(id)
  }

  /** The rows after outreach enrolment. */
  function OutreachEnrolled(pop: map<int, Simulant>, maybeEnroll: set<int>, newOutreach: int -> Category,
                            sbpAdherence: int -> Adherence, ldlcAdherence: int -> Adherence): (r: map<int, Simulant>)
    ensures r.Keys == pop.Keys
  {
    map id | id in pop ::
      if id in OutreachToEnroll(pop, maybeEnroll, newOutreach)
      then pop[id].(outreach := newOutreach(id), sbpAdherence := sbpAdherence(id), ldlcAdherence := ldlcAdherence(id))
      else pop[id]
  }

  /**
   * `enroll_in_outreach`: the candidates whose category changes take the new category and
   * both adherences the pipelines now give them.
   */
  method EnrollInOutreach(pop: map<int, Simulant>, maybeEnroll: set<int>, newOutreach: int -> Category,
                          sbpAdherence: int -> Adherence, ldlcAdherence: int -> Adherence)
    returns (visitors: map<int, Simulant>)
    ensures visitors == OutreachEnrolled(pop, maybeEnroll, newOutreach, sbpAdherence, ldlcAdherence)
  {
    var toEnroll := OutreachToEnroll(pop, maybeEnroll, newOutreach);
    visitors := pop;
    if toEnroll != {} {
      visitors := SetWhere(visitors, toEnroll, (id: int, s: Simulant) => s.(outreach := newOutreach(id)));
      visitors := SetWhere(visitors, toEnroll, (id: int, s: Simulant) => s.(sbpAdherence := sbpAdherence(id)));
      visitors := SetWhere(visitors, toEnroll, (id: int, s: Simulant) => s.(ldlcAdherence := ldlcAdherence(id)));
    }
    assert forall id :: id in pop ==> visitors[id] == OutreachEnrolled(pop, maybeEnroll, newOutreach, sbpAdherence, ldlcAdherence)[id];
  }

  /**
   * After outreach enrolment every candidate has the pipeline's category; everybody else,
   * and every candidate whose category did not change, keeps the whole row; and only the
   * outreach and adherence columns ever change.
   */
  lemma OutreachEnrollment(pop: map<int, Simulant>, maybeEnroll: set<int>, newOutreach: int -> Category,
                           sbpAdherence: int -> Adherence, ldlcAdherence: int -> Adherence, id: int)
    requires id in pop
    ensures var r := OutreachEnrolled(pop, maybeEnroll, newOutreach, sbpAdherence, ldlcAdherence);
      && (id in maybeEnroll ==> r[id].outreach == newOutreach(id))
      && (id !in maybeEnroll || pop[id].outreach == newOutreach(id) ==> r[id] == pop[id])
      && r[id] == pop[id].(outreach := r[id].outreach, sbpAdherence := r[id].sbpAdherence, ldlcAdherence := r[id].ldlcAdherence)
  {
  }

  /** Enrolling the same candidates again with the same pipeline values changes nothing more. */
  lemma OutreachEnrollmentIdempotent(pop: map<int, Simulant>, maybeEnroll: set<int>, newOutreach: int -> Category,
                                     sbpAdherence: int -> Adherence, ldlcAdherence: int -> Adherence)
    ensures var once := OutreachEnrolled(pop, maybeEnroll, newOutreach, sbpAdherence, ldlcAdherence);
      OutreachEnrolled(once, maybeEnroll, newOutreach, sbpAdherence, ldlcAdherence) == once
  {
    var once := OutreachEnrolled(pop, maybeEnroll, newOutreach, sbpAdherence, ldlcAdherence);
    forall id | id in once
      ensures id !in OutreachToEnroll(once, maybeEnroll, newOutreach)
    {
      OutreachEnrollment(pop, maybeEnroll, newOutreach, sbpAdherence, ldlcAdherence, id);
    }
    assert OutreachToEnroll(once, maybeEnroll, newOutreach) == {};
  }

  // ---------------------------------------------------------------- polypill

  /**
   * The rows after polypill enrolment with the two switches already resolved: every
   * candidate takes the pipeline's polypill category; a candidate whose category changes
   * takes the pipeline's SBP adherence when adherence is affected, and is raised to
   * `threeDrugsHalfDose` when medication is affected and its level is below that.
   */
  function PolypillEnrolled(pop: map<int, Simulant>, maybeEnroll: set<int>, newPolypill: int -> Category,
                            sbpAdherence: int -> Adherence, threeDrugsHalfDose: nat, affectAdherence: bool, affectMedication: bool)
    : (r: map<int, Simulant>)
    ensures r.Keys == pop.Keys
  {
    map id | id in pop ::
      var s := pop[id];
      if id !in maybeEnroll then s
      else
        var enrolling := s.polypill != newPolypill(id);
        s.(polypill := newPolypill(id),
           sbpAdherence := if enrolling && affectAdherence then sbpAdherence(id) else s.sbpAdherence,
           sbpMedication := if enrolling && affectMedication && s.sbpMedication < threeDrugsHalfDose then threeDrugsHalfDose else s.sbpMedication)
  }

  /**
   * `enroll_in_polypill` with the names of the two scenario switches it reads: a name the
   * scenario does not have raises an AttributeError.
   */
  function EnrollInPolypillReading(pop: map<int, Simulant>, maybeEnroll: set<int>, newPolypill: int -> Category,
                                   sbpAdherence: int -> Adherence, threeDrugsHalfDose: nat, scenario: InterventionScenario,
                                   adherenceSwitch: string, medicationSwitch: string)
    : (r: Result<map<int, Simulant>>)
    ensures r.Err? <==> Attribute(scenario, adherenceSwitch).Err? || Attribute(scenario, medicationSwitch).Err?
    ensures r.Ok? ==> r.value == PolypillEnrolled(pop, maybeEnroll, newPolypill, sbpAdherence, threeDrugsHalfDose,
      Attribute(scenario, adherenceSwitch).value, Attribute(scenario, medicationSwitch).value)
  {
    var affectAdherence :- Attribute(scenario, adherenceSwitch);
    var affectMedication :- Attribute(scenario, medicationSwitch);
    Ok(PolypillEnrolled(pop, maybeEnroll, newPolypill, sbpAdherence, threeDrugsHalfDose, affectAdherence, affectMedication))
  }

  /**
   * `enroll_in_polypill` as written: it reads `polypill_affects_sbp_adherence`, a switch no
   * scenario defines, so every call fails with an AttributeError.
   */
  function EnrollInPolypillAsWritten(pop: map<int, Simulant>, maybeEnroll: set<int>, newPolypill: int -> Category,
                                     sbpAdherence: int -> Adherence, threeDrugsHalfDose: nat, scenario: InterventionScenario)
    : (r: Result<map<int, Simulant>>)
    ensures r == Err(AttributeError("polypill_affects_sbp_adherence"))
  {
    EnrollInPolypillReading(pop, maybeEnroll, newPolypill, sbpAdherence, threeDrugsHalfDose, scenario,
      "polypill_affects_sbp_adherence", "polypill_affects_sbp_medication")
  }

  /** Read through the scenario's own switch names, polypill enrolment never fails. */
  lemma EnrollInPolypillCorrected(pop: map<int, Simulant>, maybeEnroll: set<int>, newPolypill: int -> Category,
                                  sbpAdherence: int -> Adherence, threeDrugsHalfDose: nat, scenario: InterventionScenario)
    ensures EnrollInPolypillReading(pop, maybeEnroll, newPolypill, sbpAdherence, threeDrugsHalfDose, scenario,
      "affect_sbp_adherence", "affect_sbp_medication")
      == Ok(PolypillEnrolled(pop, maybeEnroll, newPolypill, sbpAdherence, threeDrugsHalfDose,
        scenario.affectSbpAdherence, scenario.affectSbpMedication))
  {
  }

  /** The candidates whose polypill category the pipeline changes. */
  function PolypillToEnroll(pop: map<int, Simulant>, maybeEnroll: set<int>, newPolypill: int -> Category): (r: set<int>)
    ensures forall id :: id in r <==> id in maybeEnroll && id in pop && pop[id].polypill != newPolypill(id)
  {
    set id | id in maybeEnroll && id in pop && pop[id].polypill != newPolypill(id)
  }

  /**
   * `enroll_in_polypill` reading the scenario's `affect_sbp_adherence` and
   * `affect_sbp_medication` switches: the masked assignments of the category, the adherence
   * and the level, in order.
   */
  method EnrollInPolypill(pop: map<int, Simulant>, maybeEnroll: set<int>, newPolypill: int -> Category,
                          sbpAdherence: int -> Adherence, threeDrugsHalfDose: nat, scenario: InterventionScenario)
    returns (visitors: map<int, Simulant>)
    ensures visitors == PolypillEnrolled(pop, maybeEnroll, newPolypill, sbpAdherence, threeDrugsHalfDose,
      scenario.affectSbpAdherence, scenario.affectSbpMedication)
  {
    var toEnroll := PolypillToEnroll(pop, maybeEnroll, newPolypill);
    var statuses := SetPolypill(pop, maybeEnroll, newPolypill);
    var adhered := statuses;
    if scenario.affectSbpAdherence {
      adhered := SetSbpAdherence(statuses, toEnroll, sbpAdherence);
    }
    visitors := adhered;
    if scenario.affectSbpMedication {
      visitors := RaiseSbpLevels(adhered, toEnroll, threeDrugsHalfDose);
    }
    PolypillComposes(pop, maybeEnroll, newPolypill, sbpAdherence, threeDrugsHalfDose, scenario, statuses, adhered, visitors);
  }

  /** `rows.loc[ids, polypill column] = pipeline values`. */
  method SetPolypill(rows: map<int, Simulant>, ids: set<int>, newPolypill: int -> Category) returns (r: map<int, Simulant>)
    ensures r.Keys == rows.Keys
    ensures forall id :: id in rows ==> r[id] == if id in ids then rows[id].(polypill := newPolypill(id)) else rows[id]
  {
    r := SetWhere(rows, ids, (id: int, s: Simulant) => s.(polypill := newPolypill(id)));
  }

  /** `rows.loc[ids, SBP adherence column] = pipeline values`. */
  method SetSbpAdherence(rows: map<int, Simulant>, ids: set<int>, sbpAdherence: int -> Adherence) returns (r: map<int, Simulant>)
    ensures r.Keys == rows.Keys
    ensures forall id :: id in rows ==> r[id] == if id in ids then rows[id].(sbpAdherence := sbpAdherence(id)) else rows[id]
  {
    r := SetWhere(rows, ids, (id: int, s: Simulant) => s.(sbpAdherence := sbpAdherence(id)));
  }

  /** `rows.loc[ids & (SBP level < dose), SBP level column] = dose`. */
  method RaiseSbpLevels(rows: map<int, Simulant>, ids: set<int>, dose: nat) returns (r: map<int, Simulant>)
    ensures r.Keys == rows.Keys
    ensures forall id :: id in rows ==>
      r[id] == if id in ids && rows[id].sbpMedication < dose then rows[id].WithLevel(Sbp, dose) else rows[id]
  {
    var lowSbpMedicationDose := set id | id in rows && rows[id].sbpMedication < dose;
    r := SetLevels(rows, ids * lowSbpMedicationDose, Sbp, (id: int) => dose);
  }

  /** The masked assignments of polypill enrolment together give the enrolled rows. */
  lemma PolypillComposes(pop: map<int, Simulant>, maybeEnroll: set<int>, newPolypill: int -> Category,
                         sbpAdherence: int -> Adherence, threeDrugsHalfDose: nat, scenario: InterventionScenario,
                         statuses: map<int, Simulant>, adhered: map<int, Simulant>, visitors: map<int, Simulant>)
    requires statuses.Keys == pop.Keys
    requires forall id :: id in pop ==> statuses[id] == if id in maybeEnroll then pop[id].(polypill := newPolypill(id)) else pop[id]
    requires !scenario.affectSbpAdherence ==> adhered == statuses
    requires scenario.affectSbpAdherence ==> adhered.Keys == statuses.Keys && forall id :: id in statuses ==>
      (adhered[id] == if id in PolypillToEnroll(pop, maybeEnroll, newPolypill) then statuses[id].(sbpAdherence := sbpAdherence(id)) else statuses[id])
    requires !scenario.affectSbpMedication ==> visitors == adhered
    requires scenario.affectSbpMedication ==> visitors.Keys == adhered.Keys && forall id :: id in adhered ==>
      (visitors[id] ==
        if id in PolypillToEnroll(pop, maybeEnroll, newPolypill) && adhered[id].sbpMedication < threeDrugsHalfDose
        then adhered[id].WithLevel(Sbp, threeDrugsHalfDose) else adhered[id])
    ensures visitors == PolypillEnrolled(pop, maybeEnroll, newPolypill, sbpAdherence, threeDrugsHalfDose,
      scenario.affectSbpAdherence, scenario.affectSbpMedication)
  {
    var expected := PolypillEnrolled(pop, maybeEnroll, newPolypill, sbpAdherence, threeDrugsHalfDose,
      scenario.affectSbpAdherence, scenario.affectSbpMedication);
    forall id | id in pop
      ensures visitors[id] == expected[id]
    {
      PolypillRowComposes(pop, maybeEnroll, newPolypill, sbpAdherence, threeDrugsHalfDose,
        scenario.affectSbpAdherence, scenario.affectSbpMedication, id, statuses[id], adhered[id], visitors[id]);
    }
  }

  /** One row through the masked assignments of polypill enrolment. */
  lemma PolypillRowComposes(pop: map<int, Simulant>, maybeEnroll: set<int>, newPolypill: int -> Category,
                            sbpAdherence: int -> Adherence, threeDrugsHalfDose: nat, affectAdherence: bool, affectMedication: bool,
                            id: int, status: Simulant, adhered: Simulant, after: Simulant)
    requires id in pop
    requires status == if id in maybeEnroll then pop[id].(polypill := newPolypill(id)) else pop[id]
    requires adhered ==
      if affectAdherence && id in PolypillToEnroll(pop, maybeEnroll, newPolypill) then status.(sbpAdherence := sbpAdherence(id)) else status
    requires after ==
      if affectMedication && id in PolypillToEnroll(pop, maybeEnroll, newPolypill) && adhered.sbpMedication < threeDrugsHalfDose
      then adhered.WithLevel(Sbp, threeDrugsHalfDose) else adhered
    ensures after == PolypillEnrolled(pop, maybeEnroll, newPolypill, sbpAdherence, threeDrugsHalfDose, affectAdherence, affectMedication)[id]
  {
  }

  /**
   * Polypill enrolment never lowers an SBP level; it raises one only for a candidate whose
   * category changed, when medication is affected and the level was below
   * `threeDrugsHalfDose`, and then to exactly that level; every candidate ends with the
   * pipeline's category; non-candidates keep their rows; and only the polypill, SBP
   * adherence and SBP level columns change.
   */
  lemma PolypillEnrollment(pop: map<int, Simulant>, maybeEnroll: set<int>, newPolypill: int -> Category,
                           sbpAdherence: int -> Adherence, threeDrugsHalfDose: nat, affectAdherence: bool, affectMedication: bool, id: int)
    requires id in pop
    ensures var r := PolypillEnrolled(pop, maybeEnroll, newPolypill, sbpAdherence, threeDrugsHalfDose, affectAdherence, affectMedication);
      && r[id].sbpMedication >= pop[id].sbpMedication
      && (r[id].sbpMedication != pop[id].sbpMedication <==>
           (id in PolypillToEnroll(pop, maybeEnroll, newPolypill) && affectMedication && pop[id].sbpMedication < threeDrugsHalfDose))
      && (r[id].sbpMedication != pop[id].sbpMedication ==> r[id].sbpMedication == threeDrugsHalfDose)
      && (r[id].sbpAdherence != pop[id].sbpAdherence ==> id in PolypillToEnroll(pop, maybeEnroll, newPolypill) && affectAdherence)
      && (id in maybeEnroll ==> r[id].polypill == newPolypill(id))
      && (id !in maybeEnroll ==> r[id] == pop[id])
      && r[id] == pop[id].(polypill := r[id].polypill, sbpAdherence := r[id].sbpAdherence, sbpMedication := r[id].sbpMedication)
  {
  }
}
