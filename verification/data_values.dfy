/**
 * The categorical values the treatment and healthcare components exchange through the
 * population table (constants/data_values.py and the names the components read from it).
 */
module DataValues {

  /** `MEDICATION_ADHERENCE_TYPE`: the medication adherence categories. */
  datatype Adherence = Adherent | PrimaryNonAdherent | SecondaryNonAdherent

  /** `VISIT_TYPE`: the visit a simulant made during the current time step. */
  datatype VisitType = NoVisit | Emergency | Scheduled | Missed | Background

  /** The two sexes of the population table. */
  datatype Sex = Female | Male

  /** Intervention exposure categories: `cat1` means enrolled, `cat2` not enrolled. */
  datatype Category = Cat1 | Cat2

  /** Days in a year, as the components convert years to timedeltas. */
  const DAYS_PER_YEAR: real := 365.25
}
