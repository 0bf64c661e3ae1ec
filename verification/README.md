# vivarium_nih_us_cvd in Dafny

This project models the deterministic rule logic of `vivarium_nih_us_cvd`. That package is a
vivarium microsimulation of cardiovascular disease in the US population: ischemic stroke,
ischemic heart disease and heart failure, together with their risk factors, medication and
interventions. The model covers five areas.

- **Disease models.** The causes configuration is parsed into disease models:
  - multi-transition marking;
  - default layers;
  - the choice of state class;
  - dispatch on the transition data type;
  - classification of data-getter strings.

  The concrete stroke and heart-disease graphs are modelled in both their current and their
  older form. A state with several exits goes through a composite rate transition and a
  transient state, and its exit probabilities sum to 1.
- **Risk exposures.** The drop-value post-processor, exposure limits, the medication
  multiplier, the categorical SBP bins, correlated-propensity assembly and the calculated PAF.
- **Treatment and healthcare visits.**
  - initial medication coverage and discontinuation;
  - the SBP and LDL-C treatment ramps, with their medication-level ladder;
  - enrolment in outreach and polypill;
  - the outreach adherence effect;
  - the lifestyle drop-value schedule;
  - the visit categories of a time step, FPG testing and follow-up scheduling.
- **Population.** New simulants get evenly spaced ages and alternating sexes.
- **Names and results.** Transition strings, scenario lookup, result columns and the results
  map, the post-processing of output tables, and the pure helpers of the data loader.

The code is modelled in the form it takes. Pure rules are functions with named results. The
components that update a population table step by step are methods:
- on a class holding the table (`Medication.PopulationTable`);
- on the composite transition and the multi-transition state (`Transition`, `State`);
- or with loops over arrays and sequences.

Each method is proved against a specification function. The properties the code promises
about that function are lemmas.

The following are inputs of the model:
- random draws, one value in [0, 1) per simulant and key;
- pipeline values and lookup-table values;
- the constants the components read but the package's `data_values.py` does not define.

Dates are real numbers of days, and NaT is `None`.

## Model

| member | source | states |
|---|---|---|
| Models.NewTransitionString | src/vivarium_nih_us_cvd/constants/models.py:6-10 | the value is lower-cased; the string is accepted exactly when splitting on `_TO_` gives two parts, which are then the from and to states and join back to the input; otherwise a ValueError |
| Models.LowerConcat | src/vivarium_nih_us_cvd/constants/models.py:8 | lower-casing distributes over concatenation |
| Models.LowerSeparator | src/vivarium_nih_us_cvd/constants/models.py:8-9 | the `_TO_` separator lower-cases to `_to_` |
| Models.SplitOfStates | src/vivarium_nih_us_cvd/constants/models.py:9 | two lower-case names joined by `_TO_` split back into exactly those two names |
| Models.TransitionOfStates | src/vivarium_nih_us_cvd/constants/models.py:6-10 | a transition string built from two lower-case names succeeds, has them as its halves and the `_to_` join as its value |
| Models.TransitionValues | src/vivarium_nih_us_cvd/constants/models.py:27-29 | one f-string value per state pair |
| Models.ExpectedTransitions | src/vivarium_nih_us_cvd/constants/models.py:26-30 | one expected transition string per state pair |
| Models.NewTransitionStrings | src/vivarium_nih_us_cvd/constants/models.py:26-30 | building a tuple of transition strings succeeds exactly when every element builds, and then keeps their order |
| Models.AllStates | src/vivarium_nih_us_cvd/constants/models.py:40 | `STATES` holds exactly the states of the models of the map |
| Models.AllTransitions | src/vivarium_nih_us_cvd/constants/models.py:41 | `TRANSITIONS` holds exactly the transitions of the models of the map |
| Models.StrokeNamesLowerCase | src/vivarium_nih_us_cvd/constants/models.py:18-20 | the three stroke state names have no upper-case letter |
| Models.TransitionsOfPairs | src/vivarium_nih_us_cvd/constants/models.py:26-30 | pairs of lower-case names always build, into exactly the expected transition strings |
| Models.StrokeTransitionStrings | src/vivarium_nih_us_cvd/constants/models.py:26-30 | the stroke transitions build without error, to the three expected strings |
| Models.StrokeStateMachine | src/vivarium_nih_us_cvd/constants/models.py:32-41 | `STATES` and `TRANSITIONS` are the stroke states and transitions, and every transition joins two stroke states |
| Scenarios.Attribute | src/vivarium_nih_us_cvd/constants/scenarios.py:17-21 | the four switch attributes resolve to their values; any other switch name is an AttributeError |
| Scenarios.GetItem | src/vivarium_nih_us_cvd/constants/scenarios.py:57-61 | the result is a scenario of that name and no earlier scenario has it; KeyError exactly when no scenario has the name |
| Scenarios.GetItemOwnName | src/vivarium_nih_us_cvd/constants/scenarios.py:57-61 | with distinct names, each scenario is found by its own name |
| Scenarios.ScenarioNamesDistinct | src/vivarium_nih_us_cvd/constants/scenarios.py:24-55 | there are nine scenarios and their names are distinct |
| Scenarios.ScenarioLookup | src/vivarium_nih_us_cvd/constants/scenarios.py:57-64 | every scenario of `INTERVENTION_SCENARIOS` is found by its name |
| Scenarios.ScenarioSwitches | src/vivarium_nih_us_cvd/constants/scenarios.py:25-55 | outreach and polypill never combine; a scenario affects adherence or medication exactly when it is a polypill scenario; only the baseline has every switch off |
| Strings.FindFrom | src/vivarium_nih_us_cvd/constants/models.py:9 | the first occurrence of the pattern at or after the start, or none when there is none |
| Strings.Find | src/vivarium_nih_us_cvd/constants/models.py:9 | the first occurrence of the pattern; none exactly when the string does not contain it |
| Strings.Split | src/vivarium_nih_us_cvd/constants/models.py:9 | at least one piece, and no piece contains the separator |
| Strings.JoinSplit | src/vivarium_nih_us_cvd/plugins/causes_parser.py:318 | splitting and joining with the same separator gives the string back |
| Strings.SplitStep | src/vivarium_nih_us_cvd/plugins/causes_parser.py:318 | the split is the text before the first separator followed by the split of the rest |
| Strings.SplitAfter | src/vivarium_nih_us_cvd/components/risk_correlation.py:140 | the split of `x + sep + y` is `x` followed by the split of `y` when `x` cannot hide a separator |
| Strings.SplitJoin | src/vivarium_nih_us_cvd/components/risk_correlation.py:140 | joining parts that cannot contain the separator and splitting again gives the parts back |
| Strings.SplitWithout | src/vivarium_nih_us_cvd/data/loader.py:1030-1037 | a string lacking a character of the separator splits into itself |
| Strings.NoMatchAcross | src/vivarium_nih_us_cvd/data/loader.py:1030-1037 | a pattern cannot occur across a join whose halves each lack one of its characters, in order |
| Strings.Lower | src/vivarium_nih_us_cvd/constants/results.py:156 | the same length, each ASCII letter lower-cased and every other character kept |
| Strings.LowerOfLower | src/vivarium_nih_us_cvd/constants/models.py:8 | lower-casing a string without upper-case letters leaves it unchanged |
| Strings.ParseInt | src/vivarium_nih_us_cvd/data/loader.py:1035 | a number exactly for a non-empty string of digits, a ValueError otherwise; narrower than `int()`, which also takes a sign, surrounding whitespace and underscores, but every age-group piece the loader reads is a plain digit string |
| Strings.NatToString | src/vivarium_nih_us_cvd/data/loader.py:1035 | the decimal text of a natural number is digits only |
| Strings.ParseNatToString | src/vivarium_nih_us_cvd/data/loader.py:1035 | parsing the printed number gives it back |
| Sorting.Insert | src/vivarium_nih_us_cvd/results_processing/process_results.py:157 | inserting into a sorted sequence keeps it sorted and adds exactly the new element |
| Sorting.SortBy | src/vivarium_nih_us_cvd/results_processing/process_results.py:157 | the result is sorted and a permutation of the input |
| Sorting.InOrderCons | src/vivarium_nih_us_cvd/results_processing/process_results.py:155-156 | keeping or dropping the head of a list before values in its tail's order keeps the list's order, which is how a filtering comprehension orders its result |
| Sorting.InOrderUnique | src/vivarium_nih_us_cvd/results_processing/process_results.py:155-157 | two repeat-free lists holding the same values in the order of a third are equal, so the order clauses fix the columns |
| Sorting.LexLeTotal | src/vivarium_nih_us_cvd/constants/results.py:161 | any two strings compare |
| Sorting.LexLeTransitive | src/vivarium_nih_us_cvd/constants/results.py:161 | string order chains |
| Sorting.LexLeAntisymmetric | src/vivarium_nih_us_cvd/constants/results.py:161 | two strings each at most the other are equal |
| Sorting.LexLeTotalPreorder | src/vivarium_nih_us_cvd/constants/results.py:161 | string order is a total preorder, so sorting by it is well defined |
| Randomness.CountExceeded | src/vivarium_nih_us_cvd/components/treatment.py:667-672 | the index counted never passes the number of choices |
| Randomness.CountExceededBelowTotal | src/vivarium_nih_us_cvd/components/treatment.py:667-672 | a draw below the total weight selects an existing choice |
| Randomness.Choose | src/vivarium_nih_us_cvd/components/treatment.py:667-672 | a draw in [0, 1) selects one of the offered choices |
| Randomness.Draw | src/vivarium_nih_us_cvd/components/treatment.py:667-672 | the draw scaled by the total weight lies in [0, total) |
| Randomness.CountExceededBracket | src/vivarium_nih_us_cvd/components/treatment.py:667-672 | with non-negative weights, the index counted is the bin holding the value: the cumulative weight before it is below the value (unless it is the first) and the cumulative weight through it reaches the value |
| Randomness.ChooseIndex | src/vivarium_nih_us_cvd/components/treatment.py:667-672 | with non-negative weights, the chosen entry k is the one whose cumulative weight before it is below u times the total (unless k is 0) and whose cumulative weight through it is at least u times the total |
| Randomness.CountExceededSingleMass | src/vivarium_nih_us_cvd/components/effects.py:73 | a choice list whose only positive weight is on one entry always selects it |
| Randomness.KeptExtremes | src/vivarium_nih_us_cvd/components/treatment.py:777-781 | a probability of one keeps every simulant and a probability of zero keeps none |
| Frames.Updated | src/vivarium_nih_us_cvd/components/healthcare_utilization.py:223-228 | the same ids; the selected rows rewritten, every other row kept |
| Frames.SetWhere | src/vivarium_nih_us_cvd/components/healthcare_utilization.py:223-228 | the row-by-row masked write gives the updated table |
| Frames.Where | src/vivarium_nih_us_cvd/components/healthcare_utilization.py:223-227 | exactly the ids whose rows satisfy the condition |
| Library.TriggerOf | src/vivarium_nih_us_cvd/plugins/causes_parser.py:262 | a KeyError exactly for a name that is not a trigger member, each member name giving its trigger |
| Library.DiseaseNode.AllowSelfTransitions | src/vivarium_nih_us_cvd/components/disease.py:27 | the state keeps simulants; its exits are unchanged |
| Library.DiseaseNode.AddRateTransition | src/vivarium_nih_us_cvd/components/causes/disease.py:33 | one rate exit is appended, nothing else changes |
| Library.DiseaseNode.AddProportionTransition | src/vivarium_nih_us_cvd/plugins/causes_parser.py:277 | one proportion exit is appended, nothing else changes |
| Library.DiseaseNode.AddDwellTimeTransition | src/vivarium_nih_us_cvd/components/causes/disease.py:34 | one dwell-time exit is appended, nothing else changes |
| Library.DiseaseNode.AddTransition | src/vivarium_nih_us_cvd/components/disease.py:33-47 | no data type gives a plain exit, "rate" and "proportion" their kinds, anything else a ValueError with the state unchanged |
| HealthcareUtilization.ScheduleFollowup | src/vivarium_nih_us_cvd/components/healthcare_utilization.py:382-398 | the follow-up is the event time plus `min_followup` plus the draw's share of the window up to `max_followup`: a draw of 0 gives the window's start and a draw of 1 its end |
| HealthcareUtilization.FollowupInWindow | src/vivarium_nih_us_cvd/components/healthcare_utilization.py:382-398 | with a draw in [0, 1] a follow-up lies between min and max days after the event time, and strictly before the end of a non-empty window when the draw is below 1 |
| HealthcareUtilization.VisitCategories | src/vivarium_nih_us_cvd/components/healthcare_utilization.py:207-253 | missed and attended scheduled visits split the due non-emergency ones; emergency, scheduled, missed and background never overlap; no visitor missed a visit; visitors are alive simulants |
| HealthcareUtilization.VisitTypeMeaning | src/vivarium_nih_us_cvd/components/healthcare_utilization.py:207-253 | each visit type holds exactly for its category, and no visit exactly for those who neither visited nor missed |
| HealthcareUtilization.AssignVisits | src/vivarium_nih_us_cvd/components/healthcare_utilization.py:207-253 | the masked writes leave each row with its category's visit type and its due date cleared, all other columns as they were; the visitors are emergency ∪ scheduled ∪ background |
| HealthcareUtilization.MarkEmergencies | src/vivarium_nih_us_cvd/components/healthcare_utilization.py:207-228 | after the reset, the emergency write and the clearing, a row has Emergency or no visit and loses a due date exactly when it is due and not in an emergency |
| HealthcareUtilization.AttendedRow | src/vivarium_nih_us_cvd/components/healthcare_utilization.py:229-253 | one row through the missed, scheduled and background writes ends at its per-row visit assignment |
| HealthcareUtilization.TestFpg | src/vivarium_nih_us_cvd/components/healthcare_utilization.py:299-328 | only visitors are tested; every tested visitor is eligible; an eligible visitor is tested exactly when the testing probability keeps it |
| HealthcareUtilization.DetermineLifestyleEnrollment | src/vivarium_nih_us_cvd/components/healthcare_utilization.py:368-380 | the enrolled are exactly the tested with FPG within the bounds and an exposed lifestyle pipeline |
| HealthcareUtilization.TestAndEnroll | src/vivarium_nih_us_cvd/components/healthcare_utilization.py:255-265 | the tested get today's test date, the enrolled today's enrolment date, everybody else keeps both; the enrolled are returned |
| HealthcareUtilization.DetermineFollowupsSbp | src/vivarium_nih_us_cvd/components/healthcare_utilization.py:330-346 | a visitor needs an SBP follow-up exactly when on SBP medication or with measured SBP at least the low threshold |
| HealthcareUtilization.DetermineFollowupsLdlc | src/vivarium_nih_us_cvd/components/healthcare_utilization.py:348-366 | a visitor needs an LDL-C follow-up exactly when both ASCVD and measured LDL-C reach their low thresholds |
| HealthcareUtilization.ScheduleFollowups | src/vivarium_nih_us_cvd/components/healthcare_utilization.py:267-282 | a simulant who needs a follow-up gets a new date unless one is already booked after the event time; other rows are unchanged |
| HealthcareUtilization.OnTimeStepCleanup | src/vivarium_nih_us_cvd/components/healthcare_utilization.py:199-293 | the alive rows of the table become their time-step result and every other row is kept |
| HealthcareUtilization.RecordedRow | src/vivarium_nih_us_cvd/components/healthcare_utilization.py:207-265 | after the visits, tests and enrolments, an alive row has its visit type, test date set exactly when tested, enrolment date set exactly when enrolled, due date cleared |
| HealthcareUtilization.StepRow | src/vivarium_nih_us_cvd/components/healthcare_utilization.py:199-293 | one alive simulant after the step: only the four columns change, each exactly as the visit, test, enrolment and follow-up rules say |
| HealthcareUtilization.TestedIff | src/vivarium_nih_us_cvd/components/healthcare_utilization.py:256-257 | the visit assignment leaves the columns the test reads, so testing the assigned rows tests exactly the eligible visitors the draw keeps |
| HealthcareUtilization.NeedsFollowupIff | src/vivarium_nih_us_cvd/components/healthcare_utilization.py:268-279 | a simulant needs a follow-up exactly when newly enrolled or a visitor meeting the SBP or the LDL-C rule |
| HealthcareUtilization.ScheduledDatesAfterStep | src/vivarium_nih_us_cvd/components/healthcare_utilization.py:199-203 | a follow-up booked after the event time survives the step; a due date is either cleared or replaced by a new follow-up |
| HealthcareUtilization.FollowupsCovered | src/vivarium_nih_us_cvd/components/healthcare_utilization.py:267-282 | every visitor meeting the SBP or LDL-C rule leaves the step with a follow-up after the event time |
| HealthcareUtilization.EnrolledFollowedUp | src/vivarium_nih_us_cvd/components/healthcare_utilization.py:258-282 | a simulant's enrolment date changes exactly when it is enrolled this step, and the enrolled leave with a follow-up after the event time |
| HealthcareUtilization.TestingAndEnrolmentRules | src/vivarium_nih_us_cvd/components/healthcare_utilization.py:255-265 | a test date changes only for eligible visitors; an enrolment date is set only once, with a test the same day and FPG in bounds; non-visitors keep both dates and are missed or no visit |
| HealthcareUtilization.VisitorsReachTreatment | src/vivarium_nih_us_cvd/components/healthcare_utilization.py:256 | the rows the treatment ramps treat as visiting are exactly this step's emergency, scheduled and background visitors |
| HealthcareUtilization.TimeStepScope | src/vivarium_nih_us_cvd/components/healthcare_utilization.py:206-293 | the step keeps the table's ids, leaves dead simulants' rows alone and changes only the four columns |
| HealthcareUtilization.InitialFollowupSkipsMedicated | src/vivarium_nih_us_cvd/components/healthcare_utilization.py:147-154 | as written, a medicated simulant with neither a history nor an emergency starts with no follow-up, although the documented rule gives it one |
| HealthcareUtilization.InitialFollowupWindows | src/vivarium_nih_us_cvd/components/healthcare_utilization.py:92-97 | the medicated, those with a history and those in an emergency start with a follow-up and nobody else does; an emergency follow-up lies in the default window, the others within the shifted window from the event time |
| HealthcareUtilization.InitialFpgTestDate | src/vivarium_nih_us_cvd/components/healthcare_utilization.py:161-187 | a simulant with an initial test date meets the age and raw BMI thresholds |
| HealthcareUtilization.InitialFpgTestDateWindow | src/vivarium_nih_us_cvd/components/healthcare_utilization.py:175-186 | an initial test date lies between the minimum years between tests before, and exactly at, 28 days after the clock |
| HealthcareUtilization.InitializeVisitColumns | src/vivarium_nih_us_cvd/components/healthcare_utilization.py:111-187 | the new rows get their initial visit type, follow-up and FPG test date; nothing else changes; the follow-up is the documented one, the corrected half of the second Finding |
| HealthcareUtilization.InitializeVisitTypes | src/vivarium_nih_us_cvd/components/healthcare_utilization.py:111-124 | the reset and the emergency write leave Emergency exactly for those in an acute state, no visit otherwise, and no scheduled date |
| HealthcareUtilization.InitializeFollowups | src/vivarium_nih_us_cvd/components/healthcare_utilization.py:126-159 | after the two follow-up writes each new row has its documented initial follow-up, with emergencies overwriting the history date; for a medicated simulant without an acute history this is the corrected behaviour, not the NaT the code as written leaves |
| HealthcareUtilization.InitializedRow | src/vivarium_nih_us_cvd/components/healthcare_utilization.py:147-159 | one new row through the two follow-up writes, as corrected in the second Finding, ends with its documented initial follow-up |
| HealthcareUtilization.OnInitializeSimulants | src/vivarium_nih_us_cvd/components/healthcare_utilization.py:87-197 | the new simulants' rows get the three initial columns, with the corrected initial follow-up of the second Finding; every other row is kept |
| Population.Linspace | src/vivarium_nih_us_cvd/components/population.py:31-33 | the given number of points, the k-th equal to start plus k steps of (stop − start)/num |
| Population.OnInitializeSimulants | src/vivarium_nih_us_cvd/components/population.py:22-37 | one row per new index: entrance time the creation time, no exit time, alive, the location, the k-th even age of the user-data-or-configured range, and male exactly for odd indices |
| Population.EvenAgesInside | src/vivarium_nih_us_cvd/components/population.py:31-33 | with age start below age end, every new age lies strictly inside the range |
| Population.EvenAgesIncreasing | src/vivarium_nih_us_cvd/components/population.py:31-33 | the new ages strictly increase with the row position |
| Population.EvenAgesEquallySpaced | src/vivarium_nih_us_cvd/components/population.py:31-33 | consecutive ages are one step apart, and one step separates the first from the start and the last from the end |
| Population.ConsecutiveSplitEvenly | src/vivarium_nih_us_cvd/components/population.py:10-15 | a run of consecutive indices is split evenly, half male, the odd one out taking the sex of the first index |
| Population.SexAlternates | src/vivarium_nih_us_cvd/components/population.py:34-35 | male exactly for odd indices, so neighbouring indices differ in sex |
| HealthcareUtilization.InitialFollowupAsWritten | src/vivarium_nih_us_cvd/components/healthcare_utilization.py:147-154 | as written, a follow-up exactly for a simulant in an emergency or with an acute history |
| HealthcareUtilization.InitialFollowup | src/vivarium_nih_us_cvd/components/healthcare_utilization.py:126-159 | as documented, a follow-up exactly for a simulant in an emergency, on medication or with an acute history |
| HealthcareUtilization.VisitsInitialized | src/vivarium_nih_us_cvd/components/healthcare_utilization.py:111-187 | the initialised rows have exactly the new simulants' ids |
| Population.EvenAges | src/vivarium_nih_us_cvd/components/population.py:31-33 | one age per new simulant |
| Population.NewSimulant | src/vivarium_nih_us_cvd/components/population.py:26-35 | a new simulant is male exactly when its index is odd |
| Treatment.SetLevels | src/vivarium_nih_us_cvd/components/treatment.py:942-944 | the selected rows get their new medication level, every other row and column is kept |
| Treatment.SbpBin | src/vivarium_nih_us_cvd/components/treatment.py:176-184 | the bin returned is a consecutive pair of edges holding the value (open below, closed above); no bin is returned only when no pair holds it |
| Treatment.SbpEffectOf | src/vivarium_nih_us_cvd/components/treatment.py:185-200 | an effect is found exactly when some table row has the bin's bounds and the level, and then it is that row's value |
| Treatment.SbpDecrease | src/vivarium_nih_us_cvd/components/treatment.py:166-218 | no decrease without treatment or without adherence; a decrease comes from a table row of the simulant's level; the assertion fails exactly for a treated simulant whose bin and level have no row |
| Treatment.SbpTargetModifier | src/vivarium_nih_us_cvd/components/treatment.py:161-220 | the assertion error happens exactly when some simulant's decrease fails; otherwise every target is lowered by its simulant's decrease, untreated and non-adherent simulants keep it |
| Treatment.SbpTreatmentNeverRaises | src/vivarium_nih_us_cvd/components/treatment.py:161-220 | with non-negative effects the modified SBP never exceeds the target |
| Treatment.LdlcMedicationEffects | src/vivarium_nih_us_cvd/components/treatment.py:222-227 | the same levels, each effect a hundredth of the loaded percentage |
| Treatment.LdlcAdjusted | src/vivarium_nih_us_cvd/components/treatment.py:234-254 | NaN exactly for a treated level without an effect; untreated or non-adherent simulants keep the target; adherent treated ones get target times one minus the effect |
| Treatment.LdlcTargetModifier | src/vivarium_nih_us_cvd/components/treatment.py:229-256 | the same index, each simulant adjusted as above |
| Treatment.LdlcTreatmentStaysInRange | src/vivarium_nih_us_cvd/components/treatment.py:234-254 | effects in [0, 1] keep a non-negative LDL-C between 0 and the target |
| Treatment.DropValuePair | src/vivarium_nih_us_cvd/components/treatment.py:612-624 | a ValueError with the source's message exactly for a risk other than bmi, fpg or sbp |
| Treatment.ScheduledDropValue | src/vivarium_nih_us_cvd/components/treatment.py:626-651 | the initial drop value through the maintenance period, a linear move to the final value over the decreasing period by the progress made in it, and the final value after it, the later mask winning where they overlap |
| Treatment.ScheduledDropValueBetween | src/vivarium_nih_us_cvd/components/treatment.py:626-651 | the scheduled drop value always lies between the initial and the final value |
| Treatment.ScheduledDropValueReachesFinal | src/vivarium_nih_us_cvd/components/treatment.py:626-651 | the initial value at the start of the decreasing period and the final value at its end |
| Treatment.UpdatedDropValue | src/vivarium_nih_us_cvd/components/treatment.py:626-656 | zero for non-adherent simulants; the target without an enrolment date; otherwise the scheduled value |
| Treatment.UpdatedDropValues | src/vivarium_nih_us_cvd/components/treatment.py:604-656 | a ValueError exactly for an unknown risk; otherwise the same index with each simulant's updated value |
| Treatment.GetUpdatedDropValues | src/vivarium_nih_us_cvd/components/treatment.py:604-656 | the masked assignments in order give the updated drop values |
| Treatment.InitialCoverageProbabilities | src/vivarium_nih_us_cvd/components/treatment.py:708-735 | non-negative probabilities summing to one, none positive, each medicated state's probability its scaled covariate times none's |
| Treatment.Measured | src/vivarium_nih_us_cvd/components/treatment.py:1236-1254 | exposure plus error when non-negative, else 0: never negative and never below the unclipped value |
| Treatment.Ascvd | src/vivarium_nih_us_cvd/components/treatment.py:1256-1271 | the ASCVD score is an SBP-free part (intercept, age term and the mapped sex term) plus the SBP coefficient times the SBP the pipeline passed in gives |
| Treatment.AscvdMonotone | src/vivarium_nih_us_cvd/components/treatment.py:1256-1271 | with non-negative SBP and age coefficients the score grows with SBP and with age |
| Treatment.EffectiveSbpLevel | src/vivarium_nih_us_cvd/components/treatment.py:181-184 | untracked simulants count as untreated, tracked ones keep their SBP level |
| Medication.CoverageChoices | src/vivarium_nih_us_cvd/components/treatment.py:667-672 | the four coverage choices carry the whole probability mass of the row |
| Medication.CoverageRow | src/vivarium_nih_us_cvd/components/treatment.py:658-706 | one simulant's coverage changes only its two level columns, each to the initial level of its class |
| Medication.InitialCoverageLevels | src/vivarium_nih_us_cvd/components/treatment.py:658-706 | an uncovered class is untreated; a covered but non-adherent simulant is on the lowest level; an adherent covered one is on a baseline level; nothing else changes |
| Medication.InitialStartDate | src/vivarium_nih_us_cvd/components/treatment.py:757-762 | a start date lies at most the configured number of years before the simulation start, and not after it |
| Medication.DiscontinuationRow | src/vivarium_nih_us_cvd/components/treatment.py:747-782 | the level is kept; a start date exactly when treated; discontinued exactly when untreated and kept by the filter |
| Medication.InitialDiscontinuation | src/vivarium_nih_us_cvd/components/treatment.py:737-782 | after initialisation the discontinued are untreated, a simulant has a start date exactly when treated, and the date lies in the window before the start |
| Medication.DiscontinueCandidates | src/vivarium_nih_us_cvd/components/treatment.py:796-800 | the candidates are exactly the treated simulants whose start date lies within a year of the event time |
| Medication.DiscontinuationRules | src/vivarium_nih_us_cvd/components/treatment.py:784-822 | only treated simulants who started within a year change, and only their discontinued flag (to true) and level (to no treatment); without a start date nobody is discontinued |
| Medication.DiscontinuationKeepsUntreated | src/vivarium_nih_us_cvd/components/treatment.py:821-822 | discontinuation keeps every discontinued simulant untreated |
| Medication.AliveAndTracked | src/vivarium_nih_us_cvd/components/treatment.py:535 | exactly the alive and tracked rows, unchanged |
| Medication.VisitorRows | src/vivarium_nih_us_cvd/components/treatment.py:557-565 | exactly the emergency, scheduled and background visitors' rows, unchanged |
| Medication.TimeStepScope | src/vivarium_nih_us_cvd/components/treatment.py:533-598 | the step keeps every id, leaves dead or untracked simulants alone, and changes non-visitors only by discontinuation |
| Medication.SbpRampKeepsUntreated | src/vivarium_nih_us_cvd/components/treatment.py:824-967 | the SBP ramp prescribes nothing to a discontinued simulant |
| Medication.LdlcRampKeepsUntreated | src/vivarium_nih_us_cvd/components/treatment.py:969-1148 | the LDL-C ramp prescribes nothing to a discontinued simulant |
| Medication.OutreachKeepsUntreated | src/vivarium_nih_us_cvd/components/treatment.py:1150-1185 | outreach enrolment changes neither a level nor a discontinued flag |
| Medication.PolypillKeepsUntreated | src/vivarium_nih_us_cvd/components/treatment.py:1187-1234 | polypill enrolment of candidates who have not discontinued SBP treatment keeps the discontinued untreated |
| Medication.SbpRampKeepsFlags | src/vivarium_nih_us_cvd/components/treatment.py:824-967 | the SBP ramp changes no discontinued flag |
| Medication.LdlcRampKeepsFlags | src/vivarium_nih_us_cvd/components/treatment.py:969-1148 | the LDL-C ramp changes no discontinued flag |
| Medication.StepVisitorsKeepUntreated | src/vivarium_nih_us_cvd/components/treatment.py:567-585 | the ramps and enrolments of a step keep every discontinued visitor untreated |
| Medication.MergeKeepsUntreated | src/vivarium_nih_us_cvd/components/treatment.py:587-598 | writing rows over a table keeps the discontinued untreated when both sides do |
| Medication.TimeStepKeepsDiscontinuedUntreated | src/vivarium_nih_us_cvd/components/treatment.py:533-598 | nobody who discontinued a class is put back on it by a time step |
| Medication.CoverageColumns | src/vivarium_nih_us_cvd/components/treatment.py:658-706 | the masked writes give exactly the initial coverage of every row |
| Medication.DiscontinuationColumns | src/vivarium_nih_us_cvd/components/treatment.py:737-782 | the masked writes give exactly the initial discontinuation of every row |
| Medication.DiscontinuedColumns | src/vivarium_nih_us_cvd/components/treatment.py:784-822 | the masked writes give exactly the discontinuation of the step |
| Medication.PopulationTable.InitializeMedicationCoverage | src/vivarium_nih_us_cvd/components/treatment.py:658-706 | the table's rows become their initial coverage |
| Medication.PopulationTable.InitializeMedicationDiscontinuation | src/vivarium_nih_us_cvd/components/treatment.py:737-782 | the table's rows become their initial discontinuation for the class |
| Medication.PopulationTable.DiscontinueMedication | src/vivarium_nih_us_cvd/components/treatment.py:784-822 | the table's rows become their discontinuation for the class |
| Medication.PopulationTable.OnTimeStepCleanup | src/vivarium_nih_us_cvd/components/treatment.py:533-598 | the table becomes its time-step result: discontinuation, ramps and scenario enrolments for the alive and tracked, written back; polypill enrolment reads the scenario's own switches, the corrected half of the first Finding |
| Medication.RunStepVisitors | src/vivarium_nih_us_cvd/components/treatment.py:556-585 | the visitors' rows after both ramps and the enrolments the scenario turns on, with polypill enrolment as corrected in the first Finding |
| Medication.StepVisitors | src/vivarium_nih_us_cvd/components/treatment.py:556-585 | the step's result for the visitors holds exactly the emergency, scheduled and background visitors |
| Medication.TimeStepCleaned | src/vivarium_nih_us_cvd/components/treatment.py:533-598 | the time step keeps exactly the table's ids |
| Ramps.Medicated | src/vivarium_nih_us_cvd/components/treatment.py:861-864 | exactly the visitors on some level of the class |
| Ramps.DiscontinuedIds | src/vivarium_nih_us_cvd/components/treatment.py:865-867 | exactly the visitors who discontinued the class |
| Ramps.StepUp | src/vivarium_nih_us_cvd/components/treatment.py:942-947 | the rows in the change set move one level up the ladder, every other row is kept |
| Ramps.ChangeCandidates | src/vivarium_nih_us_cvd/components/treatment.py:931-941 | exactly the rows of the ramp group that are adherent and below the top level |
| Ramps.SbpRamped | src/vivarium_nih_us_cvd/components/treatment.py:897-947 | the ramp changes only the SBP level of each visitor |
| Ramps.ApplySbpTreatmentRamp | src/vivarium_nih_us_cvd/components/treatment.py:824-967 | the masked writes of ramps B, C and D give the ramped rows, and the candidates are the scenario's enrolment candidates |
| Ramps.SbpCandidates | src/vivarium_nih_us_cvd/components/treatment.py:949-965 | the candidates are the scenario's SBP enrolment candidates |
| Ramps.SbpRampComposes | src/vivarium_nih_us_cvd/components/treatment.py:905-947 | the three masked writes, applied in order, give the ramped rows |
| Ramps.SbpRowComposes | src/vivarium_nih_us_cvd/components/treatment.py:905-947 | one visitor's row through the three writes ends at its ramped level |
| Ramps.SbpPrescriptionGroups | src/vivarium_nih_us_cvd/components/treatment.py:879-903 | B and C split the new prescriptions without overlap, C holds exactly the high ones, and nobody newly prescribed is medicated, discontinued or low |
| Ramps.SbpRampLevels | src/vivarium_nih_us_cvd/components/treatment.py:897-947 | only the SBP level changes; a medicated visitor moves up exactly one step when in D, adherent and below the top, and keeps the level otherwise; an unmedicated one stays untreated unless newly prescribed |
| Ramps.SbpRampStaysOnLadder | src/vivarium_nih_us_cvd/components/treatment.py:905-947 | with levels and first prescriptions on the ladder, the ramp keeps every level on it |
| Ramps.SbpMaybeEnrollRules | src/vivarium_nih_us_cvd/components/treatment.py:949-965 | no candidates in the baseline; under polypill each has high SBP, or a history without low SBP; none has discontinued; all are newly prescribed or medicated |
| Ramps.FirstPrescriptionLevels | src/vivarium_nih_us_cvd/components/treatment.py:1096-1109 | a newly prescribed visitor draws from the distribution of ramp D, E or F |
| Ramps.LdlcRamped | src/vivarium_nih_us_cvd/components/treatment.py:1073-1138 | the ramp changes only the LDL-C level of each visitor |
| Ramps.ApplyLdlcTreatmentRamp | src/vivarium_nih_us_cvd/components/treatment.py:969-1148 | the choice over the new prescriptions and the step up give the ramped rows, and the candidates are the scenario's enrolment candidates |
| Ramps.LdlcRampComposes | src/vivarium_nih_us_cvd/components/treatment.py:1095-1138 | the two masked writes, applied in order, give the ramped rows |
| Ramps.LdlcRowComposes | src/vivarium_nih_us_cvd/components/treatment.py:1095-1138 | one visitor's row through the two writes ends at its ramped level |
| Ramps.LdlcPrescriptionGroups | src/vivarium_nih_us_cvd/components/treatment.py:1037-1093 | young and old never overlap; D, E and F are pairwise disjoint and together are the new prescriptions; none of those is medicated or discontinued |
| Ramps.LdlcRampLevels | src/vivarium_nih_us_cvd/components/treatment.py:1073-1138 | only the LDL-C level changes; a medicated visitor moves up exactly one step when in G, adherent and below the top, and keeps the level otherwise; an unmedicated one stays untreated unless newly prescribed |
| Ramps.LdlcRampStaysOnLadder | src/vivarium_nih_us_cvd/components/treatment.py:1095-1138 | with levels and first prescriptions on the ladder, the ramp keeps every level on it |
| Ramps.LdlcMaybeEnrollRules | src/vivarium_nih_us_cvd/components/treatment.py:1140-1146 | no candidates outside outreach, and none of them has discontinued |
| Ramps.SbpMedicationChange | src/vivarium_nih_us_cvd/components/treatment.py:939-941 | the visitors stepped up are adherent and below the top SBP level |
| Ramps.SbpMaybeEnroll | src/vivarium_nih_us_cvd/components/treatment.py:948-967 | the SBP candidates are visitors, and there are none in the baseline scenario |
| Ramps.LdlcMedicationChange | src/vivarium_nih_us_cvd/components/treatment.py:1130-1132 | the visitors stepped up are adherent and below the top LDL-C level |
| Ramps.LdlcMaybeEnroll | src/vivarium_nih_us_cvd/components/treatment.py:1140-1148 | no LDL-C candidates outside the outreach scenario |
| Enrollment.OutreachToEnroll | src/vivarium_nih_us_cvd/components/treatment.py:1159-1161 | exactly the candidates whose outreach category the pipeline changes |
| Enrollment.EnrollInOutreach | src/vivarium_nih_us_cvd/components/treatment.py:1150-1185 | the masked writes give the outreach-enrolled rows |
| Enrollment.OutreachEnrollment | src/vivarium_nih_us_cvd/components/treatment.py:1150-1185 | every candidate ends with the pipeline's category; everybody else, and every candidate whose category did not change, keeps the whole row; only the outreach and adherence columns change |
| Enrollment.OutreachEnrollmentIdempotent | src/vivarium_nih_us_cvd/components/treatment.py:1159-1173 | enrolling the same candidates again with the same pipeline values changes nothing |
| Enrollment.EnrollInPolypillReading | src/vivarium_nih_us_cvd/components/treatment.py:1204-1213 | reading a switch the scenario lacks is an AttributeError, and only that; otherwise the result is the polypill enrolment with the switches' values |
| Enrollment.EnrollInPolypillAsWritten | src/vivarium_nih_us_cvd/components/treatment.py:1204 | as written, every call fails with an AttributeError on `polypill_affects_sbp_adherence` |
| Enrollment.EnrollInPolypillCorrected | src/vivarium_nih_us_cvd/constants/scenarios.py:8-21 | read through the scenario's own switch names, polypill enrolment never fails |
| Enrollment.PolypillToEnroll | src/vivarium_nih_us_cvd/components/treatment.py:1196-1198 | exactly the candidates whose polypill category the pipeline changes |
| Enrollment.EnrollInPolypill | src/vivarium_nih_us_cvd/components/treatment.py:1187-1234 | the masked writes of the category, the adherence and the level, under the scenario's switches, give the polypill-enrolled rows |
| Enrollment.SetPolypill | src/vivarium_nih_us_cvd/components/treatment.py:1201 | the candidates take the pipeline's polypill category, every other row is kept |
| Enrollment.SetSbpAdherence | src/vivarium_nih_us_cvd/components/treatment.py:1208-1210 | the selected rows take the pipeline's SBP adherence, every other row is kept |
| Enrollment.RaiseSbpLevels | src/vivarium_nih_us_cvd/components/treatment.py:1213-1223 | the selected rows below the three-drug half dose are raised to it, every other row is kept |
| Enrollment.PolypillComposes | src/vivarium_nih_us_cvd/components/treatment.py:1196-1223 | the masked writes, applied in order, give the enrolled rows |
| Enrollment.PolypillRowComposes | src/vivarium_nih_us_cvd/components/treatment.py:1196-1223 | one row through the masked writes ends at its enrolled row |
| Enrollment.PolypillEnrollment | src/vivarium_nih_us_cvd/components/treatment.py:1187-1234 | an SBP level is never lowered, and is raised only for a candidate whose category changed, with medication affected and a level below the half dose, to exactly that level; every candidate ends with the pipeline's category |
| Enrollment.OutreachEnrolled | src/vivarium_nih_us_cvd/components/treatment.py:1150-1185 | outreach enrolment keeps exactly the visitors' ids |
| Enrollment.PolypillEnrolled | src/vivarium_nih_us_cvd/components/treatment.py:1187-1234 | polypill enrolment keeps exactly the visitors' ids |
| Effects.Adjusted | src/vivarium_nih_us_cvd/components/effects.py:62-81 | before the simulation start the target is returned unchanged; afterwards a KeyError exactly for a medication type without effects; otherwise the same index, non-primary-non-adherent simulants unchanged and the others drawn from the effect distribution |
| Effects.AdjustTarget | src/vivarium_nih_us_cvd/components/effects.py:62-81 | the row-by-row write gives the adjusted target |
| Effects.SbpAdherenceModifier | src/vivarium_nih_us_cvd/components/effects.py:50-54 | the SBP adherence modifier adjusts with the "sbp" effects |
| Effects.LdlcAdherenceModifier | src/vivarium_nih_us_cvd/components/effects.py:56-60 | the LDL-C adherence modifier adjusts with the "ldlc" effects |
| Effects.NoPrimaryNonAdherentRemains | src/vivarium_nih_us_cvd/components/effects.py:62-81 | when the distribution never selects primary non-adherence, nobody is primary non-adherent after the adjustment |
| Risks.LimitsAreRanges | src/vivarium_nih_us_cvd/constants/data_values.py:66-75 | every configured exposure range has its minimum below its maximum |
| Risks.PipelineNamesDiffer | src/vivarium_nih_us_cvd/components/risks.py:32-35 | the raw exposure, drop value and GBD exposure pipelines of a risk have different names |
| Risks.DropValueSource | src/vivarium_nih_us_cvd/components/risks.py:46-50 | the drop-value pipeline's source is zero for every simulant |
| Risks.DropValuePostProcess | src/vivarium_nih_us_cvd/components/risks.py:73-80 | the exposure minus the drop value, simulant by simulant |
| Risks.UnmodifiedDropValueKeepsExposure | src/vivarium_nih_us_cvd/components/risks.py:46-80 | without a modifier on the drop-value pipeline, the exposure passes unchanged |
| Risks.Clamp | src/vivarium_nih_us_cvd/components/risks.py:177-178 | a value raised to the minimum then cut to the maximum lies within a non-empty range, and a value already inside is kept |
| Risks.RaiseToMinimum | src/vivarium_nih_us_cvd/components/risks.py:177 | values below the minimum become the minimum, the others are kept |
| Risks.CutToMaximum | src/vivarium_nih_us_cvd/components/risks.py:178 | values above the maximum become the maximum, the others are kept |
| Risks.ClampedSeries | src/vivarium_nih_us_cvd/components/risks.py:172-178 | each exposure is its draw clamped to the limits |
| Risks.GetGbdExposure | src/vivarium_nih_us_cvd/components/risks.py:170-179 | with configured limits each exposure is clamped; without, the draws pass unchanged |
| Risks.GetTruncatedExposure | src/vivarium_nih_us_cvd/components/risks.py:199-208 | a KeyError exactly for a risk without configured limits; otherwise each exposure is clamped |
| Risks.MultiplierColumnOf | src/vivarium_nih_us_cvd/components/risks.py:132-138 | the SBP multiplier exactly for high SBP, the LDL-C multiplier exactly for high LDL-C |
| Risks.ColumnsRequired | src/vivarium_nih_us_cvd/components/risks.py:95-126 | the propensity column first, and the multiplier column exactly for an adjusted medicated risk |
| Risks.ColumnsCreated | src/vivarium_nih_us_cvd/components/risks.py:91-94 | a correlated risk creates no column |
| Risks.CurrentExposure | src/vivarium_nih_us_cvd/components/risks.py:181-189 | the GBD exposure times the multiplier for the two medicated risks, the GBD exposure otherwise |
| Risks.UnitMultiplierKeepsExposure | src/vivarium_nih_us_cvd/components/risks.py:181-189 | an untreated simulant, with multiplier 1, keeps the GBD exposure |
| Risks.Categorize | src/vivarium_nih_us_cvd/components/risks.py:259-277 | a negative value has no category, and each category holds exactly its left-closed, right-open interval |
| Risks.CategorizeMonotone | src/vivarium_nih_us_cvd/components/risks.py:259-277 | a higher blood pressure never falls in a milder category |
| Risks.CategoricalExposure | src/vivarium_nih_us_cvd/components/risks.py:259-277 | each simulant's category is the category of its exposure |
| Effects.PrimaryNonAdherentIds | src/vivarium_nih_us_cvd/components/effects.py:70-72 | exactly the simulants whose adherence is primary non-adherent |
| RiskCorrelation.PropensityColumns | src/vivarium_nih_us_cvd/components/risk_correlation.py:50 | one `{risk}_propensity` column per correlated risk, in order |
| RiskCorrelation.PairColumns | src/vivarium_nih_us_cvd/components/risk_correlation.py:138 | exactly the columns whose name contains "AND", without repeats when the columns have none |
| RiskCorrelation.Switched | src/vivarium_nih_us_cvd/components/risk_correlation.py:140 | an IndexError exactly when the name has no "_AND_" separator; otherwise the pair with its first two pieces swapped |
| RiskCorrelation.SwitchedAll | src/vivarium_nih_us_cvd/components/risk_correlation.py:139-141 | succeeds exactly when every pair switches, and then holds each pair's switched name |
| RiskCorrelation.SwitchPlainPair | src/vivarium_nih_us_cvd/components/risk_correlation.py:140 | switching the column of two names without 'A' gives the column of the names swapped |
| RiskCorrelation.PlainPairsAreWellPaired | src/vivarium_nih_us_cvd/components/risk_correlation.py:138-141 | columns built from names without 'A' switch to columns that switch back to them |
| RiskCorrelation.WithColumns | src/vivarium_nih_us_cvd/components/risk_correlation.py:135 | the columns after the writes are the old columns and the new names, without repeats |
| RiskCorrelation.CorrelationData.SetColumn | src/vivarium_nih_us_cvd/components/risk_correlation.py:135 | writing a column overwrites it in place or appends it, keeping the table well formed |
| RiskCorrelation.CorrelationData.SetNamedColumn | src/vivarium_nih_us_cvd/components/risk_correlation.py:135 | one more write appends one more name to the written names |
| RiskCorrelation.CorrelationData.AddSelfCorrelations | src/vivarium_nih_us_cvd/components/risk_correlation.py:133-135 | every risk's self column is present and all ones |
| RiskCorrelation.CorrelationData.CopySwitchedPairs | src/vivarium_nih_us_cvd/components/risk_correlation.py:143-144 | no column is lost, and with well-paired names every pair column ends equal to its switched column |
| RiskCorrelation.CorrelationData.UpdateCorrelationData | src/vivarium_nih_us_cvd/components/risk_correlation.py:128-146 | an IndexError exactly when some pair column cannot be switched; otherwise the self columns are ones and, for well-paired names, each pair equals its switch |
| RiskCorrelation.WithColumnsSnoc | src/vivarium_nih_us_cvd/components/risk_correlation.py:135 | appending one more name adds it to the columns if it is new |
| RiskCorrelation.CopyKeepsPairs | src/vivarium_nih_us_cvd/components/risk_correlation.py:143-144 | copying one pair keeps every earlier pair equal to its switched column |
| RiskCorrelation.MissingIn | src/vivarium_nih_us_cvd/components/risk_correlation.py:105-111 | the first column the table lacks, or none when it has them all |
| RiskCorrelation.RowColumns | src/vivarium_nih_us_cvd/components/risk_correlation.py:106-109 | the columns of one matrix row, `first_AND_second` for each second risk |
| RiskCorrelation.MissingPair | src/vivarium_nih_us_cvd/components/risk_correlation.py:105-111 | a missing pair column exactly when some pair column the comprehension reads is absent |
| RiskCorrelation.CovarianceMatrix | src/vivarium_nih_us_cvd/components/risk_correlation.py:105-111 | a KeyError naming an absent column exactly when some pair column is missing; otherwise an n-by-n matrix of the band's pair values |
| RiskCorrelation.CovarianceSymmetric | src/vivarium_nih_us_cvd/components/risk_correlation.py:105-111 | on the updated data the covariance matrix of every band is symmetric with a unit diagonal |
| RiskCorrelation.Band | src/vivarium_nih_us_cvd/components/risk_correlation.py:104 | exactly the simulants whose age lies in the band, lower bound included |
| RiskCorrelation.Propensities | src/vivarium_nih_us_cvd/components/risk_correlation.py:100-120 | after the first k bands exactly the simulants of those bands have propensities |
| RiskCorrelation.LastBandWins | src/vivarium_nih_us_cvd/components/risk_correlation.py:118-120 | a simulant's propensities come from the last band containing its age |
| RiskCorrelation.InitializePropensities | src/vivarium_nih_us_cvd/components/risk_correlation.py:94-122 | the band loop gives every simulant the propensities of its last band, and none outside every band |
| RiskCorrelation.SeedKeyDetermines | src/vivarium_nih_us_cvd/components/risk_correlation.py:113 | the seed key determines the input draw and the random seed |
| RiskCorrelation.PafModifiers | src/vivarium_nih_us_cvd/components/risk_correlation.py:81-88 | one modifier pipeline for each affected entity and measure, and no other |
| RiskCorrelation.PafPipelinesDistinct | src/vivarium_nih_us_cvd/components/risk_correlation.py:83 | different dot-free targets get different PAF pipelines |
| RiskCorrelation.PafPipelineJoined | src/vivarium_nih_us_cvd/components/risk_correlation.py:83 | a PAF pipeline name is its three parts joined by dots |
| Paf.PafOf | src/vivarium_nih_us_cvd/components/paf_observer.py:52 | no fraction exactly for a zero mean; otherwise paf times the mean is the mean minus one |
| Paf.PafOfOne | src/vivarium_nih_us_cvd/components/paf_observer.py:52 | a mean relative risk of 1 gives a fraction of 0 |
| Paf.PafBounds | src/vivarium_nih_us_cvd/components/paf_observer.py:52 | a mean relative risk of at least 1 gives a fraction in [0, 1) |
| Paf.PafIncreasing | src/vivarium_nih_us_cvd/components/paf_observer.py:52 | the fraction strictly increases with a positive mean relative risk |
| Paf.PafInverse | src/vivarium_nih_us_cvd/components/paf_observer.py:52 | the mean relative risk is one over one minus the fraction |
| Paf.Mean | src/vivarium_nih_us_cvd/components/paf_observer.py:51 | no mean exactly for no simulants |
| Paf.CalculatePaf | src/vivarium_nih_us_cvd/components/paf_observer.py:49-54 | a fraction exactly when there are relative risks and their sum is not zero; then the fraction times the mean relative risk is the mean minus 1, i.e. `(mean_rr - 1) / mean_rr` |
| Paf.CalculatePafBounds | src/vivarium_nih_us_cvd/components/paf_observer.py:49-54 | when no relative risk is below 1 the fraction lies in [0, 1) |
| Paf.ObserverName | src/vivarium_nih_us_cvd/components/paf_observer.py:27-29 | the component name is `paf_observer.` followed by the risk and the target |
| Paf.PafObservation | src/vivarium_nih_us_cvd/components/paf_observer.py:39-47 | the observation `calculated_paf_{risk}_on_{target}` over alive simulants, at time-step prepare |
| Paf.ObserverNameJoin | src/vivarium_nih_us_cvd/components/paf_observer.py:27-29 | the component name is its six parts joined by dots |
| Paf.ObserverNameParts | src/vivarium_nih_us_cvd/components/paf_observer.py:27-29 | with dot-free parts the name splits back into the risk and the target |
| Paf.ObserverNameInjective | src/vivarium_nih_us_cvd/components/paf_observer.py:27-29 | two observers with dot-free parts share a name only for the same risk and target |
| RiskCorrelation.SeedKey | src/vivarium_nih_us_cvd/components/risk_correlation.py:113 | the key splits at "_" into the decimal texts of the input draw and the random seed |
| Results.TemplateOf | src/vivarium_nih_us_cvd/constants/results.py:114 | a template exactly for a kind of the template map, and then that kind's template |
| Results.Years | src/vivarium_nih_us_cvd/constants/results.py:64 | twenty years, 2021 to 2040 |
| Results.FilteredFieldMap | src/vivarium_nih_us_cvd/constants/results.py:123-127 | exactly the fields of the map whose placeholder the template mentions |
| Results.FilteredFieldMapInOrder | src/vivarium_nih_us_cvd/constants/results.py:123-127 | for a map without repeated entries, the mentioned fields keep the map's order |
| Results.ExpandLength | src/vivarium_nih_us_cvd/constants/results.py:128-130 | the expansion has one entry per first value and tail |
| Results.ExpandMember | src/vivarium_nih_us_cvd/constants/results.py:128-130 | each entry is a first value before a tail |
| Results.ExpandComplete | src/vivarium_nih_us_cvd/constants/results.py:128-130 | every first value before every tail is an entry |
| Results.ProductLength | src/vivarium_nih_us_cvd/constants/results.py:128-130 | there are as many combinations as the product of the group sizes |
| Results.ProductMember | src/vivarium_nih_us_cvd/constants/results.py:128-130 | each combination takes its i-th value from the i-th group |
| Results.ProductComplete | src/vivarium_nih_us_cvd/constants/results.py:128-130 | every choice of one value per group is a combination |
| Results.FilteredBinds | src/vivarium_nih_us_cvd/constants/results.py:131-134 | every placeholder the template mentions is bound by a combination of the filtered fields |
| Results.ColumnsOf | src/vivarium_nih_us_cvd/constants/results.py:121-135 | one column per combination of the mentioned fields' values |
| Results.ColumnsComplete | src/vivarium_nih_us_cvd/constants/results.py:131-134 | every choice of one value per mentioned field gives a column of the template |
| Results.ColumnsSound | src/vivarium_nih_us_cvd/constants/results.py:131-134 | every column is the template formatted with one value per mentioned field |
| Results.TemplateColumns | src/vivarium_nih_us_cvd/constants/results.py:131-134 | the formatting loop gives the template's columns in product order |
| Results.KindsColumns | src/vivarium_nih_us_cvd/constants/results.py:117-119 | the loop over the kinds gives every kind's columns, in template order |
| Results.TemplatesKnown | src/vivarium_nih_us_cvd/constants/results.py:32-58 | every placeholder of every column template names a field of the field map |
| Results.ResultColumns | src/vivarium_nih_us_cvd/constants/results.py:113-135 | a ValueError for an unknown kind; a known kind's template columns; for "all" the standard columns followed by every kind's columns |
| Results.DistinctKinds | src/vivarium_nih_us_cvd/constants/results.py:49-58 | the template kinds are distinct, so each kind finds its own template |
| Results.KeyLeTotalPreorder | src/vivarium_nih_us_cvd/constants/results.py:161 | the order on keys is a total preorder |
| Results.LowerNames | src/vivarium_nih_us_cvd/constants/results.py:156 | each field name lower-cased, in order |
| Results.TemplateRows | src/vivarium_nih_us_cvd/constants/results.py:152-160 | one row per combination of the mentioned fields' values, in product order: the formatted column as key, each lower-cased field name with its value, and the kind as measure |
| Results.SortRowsKeeps | src/vivarium_nih_us_cvd/constants/results.py:161 | sorting keeps the number of rows, their measure and their set of keys |
| Results.ResultsMap | src/vivarium_nih_us_cvd/constants/results.py:139-161 | a ValueError exactly for a kind without a template, "all" included; otherwise the combination rows sorted by key, every key a column and every column a key, each row's field columns holding the values that format its key, measure the kind |
| Results.ThrowawayColumns | src/vivarium_nih_us_cvd/constants/results.py:29 | one event-count column per model state, in order |
| Results.ThrowawayStrokeColumns | src/vivarium_nih_us_cvd/constants/results.py:29 | with the stroke model the throwaway columns are its three states' event counts |
| ProcessResults.RowsOf | src/vivarium_nih_us_cvd/results_processing/process_results.py:123 | exactly the rows of the draw whose seed survived |
| ProcessResults.FilterOutIncomplete | src/vivarium_nih_us_cvd/results_processing/process_results.py:110-125 | a ValueError exactly for a keyspace without draws, which leaves `pd.concat` nothing to join; otherwise the loop over the keyspace draws gives the complete rows, draw by draw |
| ProcessResults.CompleteSeedsOf | src/vivarium_nih_us_cvd/results_processing/process_results.py:116-122 | the keyspace seeds narrowed to those present under every keyspace scenario |
| ProcessResults.DrawRows | src/vivarium_nih_us_cvd/results_processing/process_results.py:117-123 | the draw's rows whose seed survived, in data order |
| ProcessResults.CompleteSound | src/vivarium_nih_us_cvd/results_processing/process_results.py:110-125 | a kept row comes from the data, with a keyspace draw and seed produced under every keyspace scenario |
| ProcessResults.CompleteKeeps | src/vivarium_nih_us_cvd/results_processing/process_results.py:110-125 | a row of a keyspace draw whose seed is complete for it is kept |
| ProcessResults.MissingScenarioDrops | src/vivarium_nih_us_cvd/results_processing/process_results.py:118-123 | a seed missing under any keyspace scenario of its draw removes that draw's rows with it |
| ProcessResults.KeysOf | src/vivarium_nih_us_cvd/results_processing/process_results.py:135 | the distinct group keys of the data |
| ProcessResults.GroupRows | src/vivarium_nih_us_cvd/results_processing/process_results.py:135 | one summed row per key, of the full width |
| ProcessResults.SumLeTotalPreorder | src/vivarium_nih_us_cvd/results_processing/process_results.py:135 | the group-key order is a total preorder |
| ProcessResults.AggregateOverSeed | src/vivarium_nih_us_cvd/results_processing/process_results.py:128-142 | one row per group, sorted by key, a permutation of the group sums |
| ProcessResults.AggregateRows | src/vivarium_nih_us_cvd/results_processing/process_results.py:128-142 | a row is in the result exactly when it is some group's row of sums |
| ProcessResults.GroupRowsMember | src/vivarium_nih_us_cvd/results_processing/process_results.py:135 | a summed row is exactly the sums of one key's rows |
| ProcessResults.SumOverSnoc | src/vivarium_nih_us_cvd/results_processing/process_results.py:135 | a new row adds its value to the sum over the keys once, when its key is among them |
| ProcessResults.SumOverKeys | src/vivarium_nih_us_cvd/results_processing/process_results.py:135 | summing group by group gives the column's total |
| ProcessResults.GroupRowsSum | src/vivarium_nih_us_cvd/results_processing/process_results.py:135 | the column sum of the grouped rows is the sum over the keys |
| ProcessResults.AggregateConservesTotals | src/vivarium_nih_us_cvd/results_processing/process_results.py:128-142 | aggregating over seeds keeps every column's grand total |
| ProcessResults.CellLeTotal | src/vivarium_nih_us_cvd/results_processing/process_results.py:157 | any two cells compare |
| ProcessResults.CellLeTransitive | src/vivarium_nih_us_cvd/results_processing/process_results.py:157 | cell order chains |
| ProcessResults.CellLeAntisymmetric | src/vivarium_nih_us_cvd/results_processing/process_results.py:157 | two cells each at most the other are equal |
| ProcessResults.RowLeTotal | src/vivarium_nih_us_cvd/results_processing/process_results.py:157 | any two rows compare on the sort columns |
| ProcessResults.RowLeTransitive | src/vivarium_nih_us_cvd/results_processing/process_results.py:157 | row order chains |
| ProcessResults.RowLeTotalPreorder | src/vivarium_nih_us_cvd/results_processing/process_results.py:157 | sorting by the sort columns is well defined |
| ProcessResults.SortColumns | src/vivarium_nih_us_cvd/results_processing/process_results.py:155 | exactly the sort columns the table has, without repeats, in the fixed sort order |
| ProcessResults.KeepIn | src/vivarium_nih_us_cvd/results_processing/process_results.py:155 | exactly the values of the order that the table has, without repeats, in that order |
| ProcessResults.OtherColumns | src/vivarium_nih_us_cvd/results_processing/process_results.py:156 | exactly the columns that are neither sort columns nor the value, in table order |
| ProcessResults.SortData | src/vivarium_nih_us_cvd/results_processing/process_results.py:154-158 | a KeyError exactly without a value column; otherwise the sort columns present in the fixed order, then the other columns in table order, then value, with no repeats, and the rows a permutation sorted by the sort columns |
| ProcessResults.ValueNotSortColumn | src/vivarium_nih_us_cvd/results_processing/process_results.py:14-22 | "value" is not a sort column |
| ProcessResults.DropLastYearEventCounts | src/vivarium_nih_us_cvd/results_processing/process_results.py:180 | exactly the columns other than the 2041 event counts |
| ProcessResults.DropKeepsOrder | src/vivarium_nih_us_cvd/results_processing/process_results.py:180 | the kept columns keep their relative order |
| ProcessResults.DropPosition | src/vivarium_nih_us_cvd/results_processing/process_results.py:180 | each kept column comes from a position of the original columns |
| ProcessResults.DropPositions | src/vivarium_nih_us_cvd/results_processing/process_results.py:180 | two kept columns come from positions in the same order |
| Results.Format | src/vivarium_nih_us_cvd/constants/results.py:133 | the formatted text starts with the first segment's literal text or the value bound to its placeholder |
| Results.Product | src/vivarium_nih_us_cvd/constants/results.py:128-130 | every combination has one value per group |
| Results.CombinationRows | src/vivarium_nih_us_cvd/constants/results.py:149-160 | one row per column, keyed by the column, measure the kind |
| Results.CombinationRowsSound | src/vivarium_nih_us_cvd/constants/results.py:152-157 | each row pairs the lower-cased field names with one value per field, the values that format its key |
| ProcessResults.CompleteSeeds | src/vivarium_nih_us_cvd/results_processing/process_results.py:116-122 | the complete seeds are keyspace seeds present under every keyspace scenario |
| ProcessResults.Complete | src/vivarium_nih_us_cvd/results_processing/process_results.py:114-124 | every kept row is a row of the data with one of the draws |
| Loader.GetSourceKey | src/vivarium_nih_us_cvd/data/loader.py:56-58 | the source of a source/target pair, the key itself otherwise |
| Loader.FloorAll | src/vivarium_nih_us_cvd/data/loader.py:219 | each value lifted to the minimum when below it, kept otherwise |
| Loader.EnforceMinimum | src/vivarium_nih_us_cvd/data/loader.py:215-220 | the in-place masked write leaves the floored data |
| Loader.FloorAllProperties | src/vivarium_nih_us_cvd/data/loader.py:219 | every value ends at least the minimum, values already there are kept, and flooring twice is flooring once |
| Loader.LoadCategoricalPaf | src/vivarium_nih_us_cvd/data/loader.py:232-261 | a ValueError exactly for a key other than the known PAF key; a NotImplementedError exactly for a distribution neither dichotomous nor polytomous; otherwise one fraction per group from its sum of exposure times relative risk |
| Loader.SumExpRrAtLeast | src/vivarium_nih_us_cvd/data/loader.py:253-259 | with non-negative exposures and relative risks of at least 1, the weighted sum is at least the exposure total |
| Loader.SumExpRrOfOnes | src/vivarium_nih_us_cvd/data/loader.py:253-259 | with every relative risk 1 the weighted sum is the exposure total |
| Loader.CategoricalPafBounds | src/vivarium_nih_us_cvd/data/loader.py:252-260 | with exposures forming a distribution and no protective category the PAF lies in [0, 1), and is 0 when every relative risk is 1 |
| Loader.Relabel | src/vivarium_nih_us_cvd/data/loader.py:677-680 | the copy takes the name as affected entity, "transition_rate" as measure exactly for a transition name, and keeps its cells |
| Loader.RowsFor | src/vivarium_nih_us_cvd/data/loader.py:675 | exactly the rows of the entity |
| Loader.RelabelAll | src/vivarium_nih_us_cvd/data/loader.py:677-681 | every row relabelled with the name, in order |
| Loader.ModifyRrAffectedEntity | src/vivarium_nih_us_cvd/data/loader.py:661-683 | a ValueError exactly when no entity of the map has a name, which leaves `pd.concat` nothing to join; otherwise the nested loops give the fan-out of the data over the map |
| Loader.EntityCopies | src/vivarium_nih_us_cvd/data/loader.py:676-681 | the inner loop gives one relabelled block per name |
| Loader.CopiesForMember | src/vivarium_nih_us_cvd/data/loader.py:676-681 | a copy is exactly a row of the entity relabelled with one of the names |
| Loader.FanOutMember | src/vivarium_nih_us_cvd/data/loader.py:661-683 | every output row is a mapped entity's row relabelled with one of its names, every such relabelling is output, and rows of unmapped entities are dropped |
| Loader.MatchRrToCauseName | src/vivarium_nih_us_cvd/data/loader.py:686-730 | data of other measures passes unchanged; relative-risk, PAF and mediation data are fanned out with the calculated-PAF map or the GBD cause map |
| Loader.StrokeEntityKinds | src/vivarium_nih_us_cvd/data/loader.py:666-668 | the acute stroke names a state, the chronic-to-acute entity a transition |
| Loader.StrokeRrFanOut | src/vivarium_nih_us_cvd/data/loader.py:715-718 | a GBD ischemic stroke relative risk becomes an acute stroke row with its measure and a chronic-to-acute transition-rate row |
| Loader.CopiesForPair | src/vivarium_nih_us_cvd/data/loader.py:676-681 | two names give the rows under the first name, then under the second |
| Loader.SplitPart | src/vivarium_nih_us_cvd/data/loader.py:1030 | an IndexError exactly when there are too few pieces, otherwise the k-th piece |
| Loader.AgeRangeOf | src/vivarium_nih_us_cvd/data/loader.py:1031-1035 | an age group `a_to_b` reads as "a,b+1" |
| Loader.AgeRangeOldest | src/vivarium_nih_us_cvd/data/loader.py:1032-1033 | the open-ended age group reads as "95,125" |
| Loader.AgeAndSexSteps | src/vivarium_nih_us_cvd/data/loader.py:1029-1039 | the three readings compose into the function's result |
| Loader.AgeAndSexOfColumn | src/vivarium_nih_us_cvd/data/loader.py:1029-1039 | a generated PAF column of age group `a_to_b` and a sex reads back as "a,b+1,sex" |
| Loader.AgeAndSexOfOldestColumn | src/vivarium_nih_us_cvd/data/loader.py:1029-1039 | the open-ended column reads back as "95,125,sex" |
| Loader.NoAgeGroupIsIndexError | src/vivarium_nih_us_cvd/data/loader.py:1030 | a column without the age-group marker is an IndexError |
| Loader.CheckPafEntity | src/vivarium_nih_us_cvd/data/loader.py:1043-1053 | the entity is accepted exactly when it is one of the four risks with calculated PAFs, and a ValueError otherwise |
| Loader.GetAgeAndSexFromPafOutputCols | src/vivarium_nih_us_cvd/data/loader.py:1029-1039 | only an IndexError or a ValueError escapes, and a column without the age-group marker is an IndexError |
| Loader.AgeRange | src/vivarium_nih_us_cvd/data/loader.py:1031-1036 | only a ValueError escapes, and the open-ended group reads "95,125" |
| GetDataFunctions.TransientSusceptibleIncidenceRate | src/vivarium_nih_us_cvd/components/causes/get_data_functions.py:8-18 | the exit rate out of susceptible is the sum of the three incidences, so with non-negative incidences it bounds each of them |
| GetDataFunctions.AcuteMiAfterSusceptibleProportion | src/vivarium_nih_us_cvd/components/causes/get_data_functions.py:21-33 | no value exactly when the exit rate is 0; otherwise the share times the exit rate is the acute-MI incidence |
| GetDataFunctions.HfIhdAfterSusceptibleProportion | src/vivarium_nih_us_cvd/components/causes/get_data_functions.py:36-48 | no value exactly when the exit rate is 0; otherwise the share times the exit rate is the HF-from-IHD incidence |
| GetDataFunctions.HfResidualAfterSusceptibleProportion | src/vivarium_nih_us_cvd/components/causes/get_data_functions.py:51-64 | no value exactly when the exit rate is 0; otherwise the share times the exit rate is the residual-HF incidence |
| GetDataFunctions.TransientPostMiTransitionRate | src/vivarium_nih_us_cvd/components/causes/get_data_functions.py:67-74 | the exit rate out of post-MI is acute-MI plus HF-from-IHD incidence, at most the susceptible exit rate for non-negative incidences |
| GetDataFunctions.AcuteMiAfterPostMiProportion | src/vivarium_nih_us_cvd/components/causes/get_data_functions.py:77-84 | no value exactly when the post-MI exit rate is 0; otherwise the share times it is the acute-MI incidence |
| GetDataFunctions.HfIhdOutOfPostMiProportion | src/vivarium_nih_us_cvd/components/causes/get_data_functions.py:87-94 | no value exactly when the post-MI exit rate is 0; otherwise the share times it is the HF-from-IHD incidence |
| GetDataFunctions.SharesSumToOne | src/vivarium_nih_us_cvd/components/causes/get_data_functions.py:21-64 | shares of one nonzero total add up to 1 |
| GetDataFunctions.SusceptibleProportionsSumToOne | src/vivarium_nih_us_cvd/components/causes/get_data_functions.py:21-64 | with a nonzero exit rate the three susceptible proportions exist and sum to 1 |
| GetDataFunctions.ShareBounds | src/vivarium_nih_us_cvd/components/causes/get_data_functions.py:21-94 | a share of a positive total made of non-negative parts lies in [0, 1] |
| GetDataFunctions.SusceptibleProportionBounds | src/vivarium_nih_us_cvd/components/causes/get_data_functions.py:21-64 | each susceptible proportion lies in [0, 1] for non-negative incidences with a positive sum |
| GetDataFunctions.PostMiProportionsSumToOne | src/vivarium_nih_us_cvd/components/causes/get_data_functions.py:77-94 | with a nonzero post-MI exit rate the two proportions exist and sum to 1 |
| GetDataFunctions.PostMiProportionBounds | src/vivarium_nih_us_cvd/components/causes/get_data_functions.py:77-94 | each post-MI proportion lies in [0, 1] for non-negative incidences with a positive sum |
| GetDataFunctions.SusceptibleSplitMatchesMultiExit | src/vivarium_nih_us_cvd/components/causes/get_data_functions.py:8-64 | the explicit susceptible split equals the composite exit rate and exit probabilities a multi-exit state would compute from the three incidences |
| GetDataFunctions.PostMiSplitMatchesMultiExit | src/vivarium_nih_us_cvd/components/causes/get_data_functions.py:67-94 | the same agreement for the two post-MI exits |
| Transition.ChooseRate | src/vivarium_nih_us_cvd/components/causes/transition.py:115-129 | an error "No valid data functions supplied." exactly when no rate measure has a data function; otherwise incidence before remission before transition rate, with the standard pipeline name |
| Transition.TwoFields | src/vivarium_nih_us_cvd/components/causes/transition.py:117-127 | a dot-free state id and measure are the two fields of their pipeline name |
| Transition.PipelineNameInjective | src/vivarium_nih_us_cvd/components/causes/transition.py:117-127 | with dot-free ids a pipeline name determines its output state and measure |
| Transition.TablesOk | src/vivarium_nih_us_cvd/components/causes/transition.py:113-136 | the tables are built exactly when every output has a rate, and the only error is the missing rate |
| Transition.TablesNamesKnown | src/vivarium_nih_us_cvd/components/causes/transition.py:131-135 | every output's pipeline is a key of both the tables and the pipeline-to-state map |
| Transition.TablesEntries | src/vivarium_nih_us_cvd/components/causes/transition.py:134-135 | every entry of the pipeline map is the pipeline of the output it names |
| Transition.TablesInverse | src/vivarium_nih_us_cvd/components/causes/transition.py:113-136 | with dot-free ids each output's pipeline maps back to that output and holds that output's rate data |
| Transition.PipelineNames | src/vivarium_nih_us_cvd/components/causes/transition.py:113-136 | one pipeline name per output, in order |
| Transition.RegisterInverse | src/vivarium_nih_us_cvd/components/causes/transition.py:146-154 | registering a prefix of the pipelines maps exactly those outputs, each to its own pipeline |
| Transition.RegisteredPipelines | src/vivarium_nih_us_cvd/components/causes/transition.py:84-90 | with dot-free ids the registered pipelines are exactly the outputs, each with its own pipeline |
| Transition.PafPipelines | src/vivarium_nih_us_cvd/components/causes/transition.py:173-183 | one PAF pipeline per rate pipeline, named `{pipeline}.paf` |
| Transition.CompositeRateTransition.constructor | src/vivarium_nih_us_cvd/components/causes/transition.py:19-29 | the transition starts with no sub-transition sources and nothing built |
| Transition.CompositeRateTransition.AddTransition | src/vivarium_nih_us_cvd/components/causes/transition.py:76-82 | the output's data functions are recorded, replacing earlier ones, and nothing else changes |
| Transition.CompositeRateTransition.CreateLookupTables | src/vivarium_nih_us_cvd/components/causes/transition.py:99-136 | the loop builds the tables and the pipeline map of the specification, or stops with its error |
| Transition.CompositeRateTransition.Setup | src/vivarium_nih_us_cvd/components/causes/transition.py:39-60 | fails exactly when the tables fail; otherwise the registered rate pipelines and their PAF pipelines are those of the specification and the sources are untouched |
| Transition.CompositeRateTransition.RegisterTransitionPipelines | src/vivarium_nih_us_cvd/components/causes/transition.py:138-154 | once the tables are built, the method gives the output-to-pipeline map of the specification function, registered in table order |
| Transition.CompositeRateTransition.GetRateToState | src/vivarium_nih_us_cvd/components/causes/transition.py:84-86 | for a registered output, exactly the pipeline registered for it; a KeyError for any other state |
| Transition.TablesStep | src/vivarium_nih_us_cvd/components/causes/transition.py:131-135 | a further output with a rate adds its table and its pipeline-map entry |
| Transition.TablesFailAt | src/vivarium_nih_us_cvd/components/causes/transition.py:128-129 | an output without a rate after good ones fails the whole table with the ValueError |
| Transition.SubRate | src/vivarium_nih_us_cvd/components/causes/transition.py:162-169 | 0 for a simulant not alive; otherwise at most the base rate for a joint PAF in [0, 1], and the base rate when the PAF is 0 |
| Transition.SurvivalBounds | src/vivarium_nih_us_cvd/components/causes/transition.py:178-180 | the product of `1 - p` over fractions in [0, 1] lies in [0, 1] |
| Transition.UnionPafBounds | src/vivarium_nih_us_cvd/components/causes/transition.py:178-180 | fractions in [0, 1] give a joint fraction in [0, 1] |
| Transition.UnionPafOfZeroSource | src/vivarium_nih_us_cvd/components/causes/transition.py:178 | the PAF pipeline's own 0 does not change the joint fraction |
| Transition.NoModifierBaseRate | src/vivarium_nih_us_cvd/components/causes/transition.py:162-169 | with no PAF modifier a living simulant's sub-rate is its base rate |
| Transition.CompositeRateBounds | src/vivarium_nih_us_cvd/components/causes/transition.py:62-70 | with a sub-rate the composite exit rate exists, and it bounds each non-negative sub-rate |
| Transition.CompositeRateOfDead | src/vivarium_nih_us_cvd/components/causes/transition.py:62-70 | with at least one sub-rate, a simulant not alive has a composite exit rate of 0 |
| State.TransientState.constructor | src/vivarium_nih_us_cvd/components/causes/state.py:25 | a transient state starts with no model and no exits |
| State.TransientState.SetModel | src/vivarium_nih_us_cvd/components/causes/state.py:29-31 | the model name is set and the exits are untouched |
| State.MultiTransitionState.constructor | src/vivarium_nih_us_cvd/components/causes/state.py:19-40 | the transient state is `transient_{state_id}`, a fresh composite transition links the two, and it is the state's one transition |
| State.MultiTransitionState.SetModel | src/vivarium_nih_us_cvd/components/causes/state.py:29-31 | the model name goes to the state and its transient state, and no transition changes |
| State.MultiTransitionState.AddTransition | src/vivarium_nih_us_cvd/components/causes/state.py:57-92 | a rate exit registers its data functions and appends one exit from the transient state to the output, returning the shared composite transition; any other kind is a ValueError with nothing changed |
| State.MultiTransitionState.GetTransitionNames | src/vivarium_nih_us_cvd/components/causes/state.py:50-55 | the loop yields the transition names of the specification function |
| State.MultiExits | src/vivarium_nih_us_cvd/components/causes/state.py:57-92 | the state's exits as a disease graph sees them: one rate exit per exit of the transient state, to the same output |
| State.CollectFailFrom | src/vivarium_nih_us_cvd/components/causes/state.py:52-54 | the first exit whose name does not unpack fails the whole list |
| State.EdgeResults | src/vivarium_nih_us_cvd/components/causes/state.py:52-54 | one unpacking result per exit, in order |
| State.EdgeNameOfClean | src/vivarium_nih_us_cvd/components/causes/state.py:52-54 | with clean state ids an exit to `out` reads back as `{state_id}_to_{out}` |
| State.EdgeNameParts | src/vivarium_nih_us_cvd/components/causes/state.py:53 | an exit's name has exactly five dot-separated fields, the last the end state |
| State.TransitionNamesOfClean | src/vivarium_nih_us_cvd/components/causes/state.py:50-55 | with clean state ids every exit yields its `{state_id}_to_{end}`, in order |
| State.CollectAllOk | src/vivarium_nih_us_cvd/components/causes/state.py:51-55 | when every exit unpacks, the names are collected in order |
| State.GetProbability | src/vivarium_nih_us_cvd/components/causes/state.py:72-82 | no probability exactly when the total rate is 0; otherwise the probability times the total is the rate to the output |
| State.ExitProbabilities | src/vivarium_nih_us_cvd/components/causes/state.py:72-82 | one probability per exit, each the rate over the composite rate |
| State.ProbabilitiesSumToOne | src/vivarium_nih_us_cvd/components/causes/state.py:72-82 | since the total is the sum of the exit rates, the exit probabilities sum to 1 |
| State.ProbabilityBounds | src/vivarium_nih_us_cvd/components/causes/state.py:72-82 | non-negative exit rates with a positive total give probabilities in [0, 1] |
| Transition.UnionPaf | src/vivarium_nih_us_cvd/components/causes/transition.py:178-180 | one fraction is its own joint fraction, and all-zero fractions give 0 |
| Transition.SurvivalOfZeros | src/vivarium_nih_us_cvd/components/causes/transition.py:178-180 | the survival product of zero fractions is 1 |
| Transition.CompositeRate | src/vivarium_nih_us_cvd/components/causes/transition.py:62-70 | a ValueError ("No objects to concatenate") exactly when there are no sub-rates, as `pd.concat` of an empty list raises; one sub-rate is the composite rate |
| Disease.Ids | src/vivarium_nih_us_cvd/components/causes/disease.py:42-44 | the model's state ids, in the order it lists its states |
| Disease.ViewsAt | src/vivarium_nih_us_cvd/components/causes/disease.py:162-172 | each state of the model is the graph view of the object at the same position |
| Disease.IschemicStroke | src/vivarium_nih_us_cvd/components/causes/disease.py:11-44 | the built model is the stroke graph: susceptible, acute and chronic stroke, all keeping their simulants, wired as in the source |
| Disease.WireStroke | src/vivarium_nih_us_cvd/components/causes/disease.py:33-40 | incidence into acute stroke, the 28-day dwell time into chronic, and the chronic-to-acute transition rate |
| Disease.StrokeGraphMatchesConstants | src/vivarium_nih_us_cvd/components/causes/disease.py:11-44 | the stroke model's states and edges are the model constants' state and transition lists, the graph is closed, and acute stroke lasts 28 days |
| Disease.AddSusceptibleExits | src/vivarium_nih_us_cvd/components/causes/disease.py:99-124 | the susceptible state's three incidence exits go through its composite transition |
| Disease.AddPostMiExits | src/vivarium_nih_us_cvd/components/causes/disease.py:144-160 | the post-MI state's two transition-rate exits go through its composite transition |
| Disease.AddLibraryExits | src/vivarium_nih_us_cvd/components/causes/disease.py:127-141 | HF from IHD to acute MI with HF by rate, and the two acute states' dwell-time exits |
| Disease.NewIhdSusceptible | src/vivarium_nih_us_cvd/components/causes/disease.py:48-51 | a fresh multi-transition susceptible state with its three exits |
| Disease.NewIhdPostMi | src/vivarium_nih_us_cvd/components/causes/disease.py:61-64 | a fresh multi-transition post-MI state with its two exits |
| Disease.NewIhdSingleExitStates | src/vivarium_nih_us_cvd/components/causes/disease.py:54-96 | the four plain disease states, fresh and wired |
| Disease.IschemicHeartDiseaseAndHeartFailure | src/vivarium_nih_us_cvd/components/causes/disease.py:47-172 | every built state is the heart-disease graph's state at its position, the multi-transition states valid |
| Disease.IhdStates | src/vivarium_nih_us_cvd/components/causes/disease.py:162-172 | six states in the listed order, all keeping their simulants, every exit inside the model |
| Disease.IhdMultiStates | src/vivarium_nih_us_cvd/components/causes/disease.py:48-64 | exactly susceptible and post MI have more than one exit: three and two |
| Disease.IhdExitPairs | src/vivarium_nih_us_cvd/components/causes/disease.py:98-160 | the model's edges, state by state |
| Disease.IhdDwellAndTerminalStates | src/vivarium_nih_us_cvd/components/causes/disease.py:54-96 | both acute states are left after 28 days, to post MI and to HF from IHD; HF from IHD leaves by rate; residual HF is never left |
| Disease.IhdMultiExitData | src/vivarium_nih_us_cvd/components/causes/disease.py:99-160 | with distinct names each exit of a multi-transition state carries its own incidence or transition-rate data |
| LegacyDisease.IschemicStroke | src/vivarium_nih_us_cvd/components/disease.py:14-50 | the built model is the legacy stroke graph |
| LegacyDisease.WireStroke | src/vivarium_nih_us_cvd/components/disease.py:27-46 | each stroke state is allowed to keep simulants and given its one exit |
| LegacyDisease.LegacyStrokeMatchesConstants | src/vivarium_nih_us_cvd/components/disease.py:14-50 | the same states and edges as the model constants, a closed graph, acute stroke lasting 28 days |
| LegacyDisease.WireSusceptible | src/vivarium_nih_us_cvd/components/disease.py:103-183 | susceptible into its transient state by the summed incidence, and the three proportion exits out of it |
| LegacyDisease.WireAcute | src/vivarium_nih_us_cvd/components/disease.py:185-202 | HF from IHD to acute MI with HF by rate, and the two acute states' exits |
| LegacyDisease.WirePostMi | src/vivarium_nih_us_cvd/components/disease.py:205-250 | post MI into its transient state by the summed rate, and the two proportion exits out of it |
| LegacyDisease.NewSusceptibleHalf | src/vivarium_nih_us_cvd/components/disease.py:54-183 | fresh susceptible and transient states, wired |
| LegacyDisease.NewAcuteAndFailureStates | src/vivarium_nih_us_cvd/components/disease.py:56-202 | fresh acute and heart-failure states, wired |
| LegacyDisease.NewPostMiHalf | src/vivarium_nih_us_cvd/components/disease.py:61-250 | fresh post-MI and transient states, wired |
| LegacyDisease.IschemicHeartDiseaseAndHeartFailure | src/vivarium_nih_us_cvd/components/disease.py:53-264 | the built model is the eight-state legacy heart-disease graph |
| LegacyDisease.ViewsOfEight | src/vivarium_nih_us_cvd/components/disease.py:252-264 | the eight listed states' views, in order |
| LegacyDisease.LegacyIhdStates | src/vivarium_nih_us_cvd/components/disease.py:94-100 | eight states, exactly two transient; the transient states and residual HF are exactly the states without self-transitions; the graph is closed |
| LegacyDisease.LegacyIhdSingleEntries | src/vivarium_nih_us_cvd/components/disease.py:103-220 | susceptible and post MI each leave only to their transient state, by the summed rate |
| LegacyDisease.TransientProportionsSumToOne | src/vivarium_nih_us_cvd/components/disease.py:105-250 | on a row with nonzero totals the proportions on each transient state's exits sum to 1 |
| CausesParser.Keys | src/vivarium_nih_us_cvd/plugins/causes_parser.py:89-92 | the keys of an ordered mapping, in order |
| CausesParser.Sources | src/vivarium_nih_us_cvd/plugins/causes_parser.py:94-96 | the source state of each transition, in order |
| CausesParser.SourceCountFront | src/vivarium_nih_us_cvd/plugins/causes_parser.py:94-96 | counting the transitions that leave a state, taken from the front |
| CausesParser.SeveralSourcesIff | src/vivarium_nih_us_cvd/plugins/causes_parser.py:98-104 | a count above 1 exactly when two different transitions leave the state, and 0 exactly when none does |
| CausesParser.UnknownSource | src/vivarium_nih_us_cvd/plugins/causes_parser.py:96 | no value exactly when every transition source is a state of the cause; otherwise a source that is not one |
| CausesParser.CountTransitions | src/vivarium_nih_us_cvd/plugins/causes_parser.py:89-96 | the counting loop gives every state the number of transitions leaving it, or a KeyError at the first unknown source |
| CausesParser.MarkCause | src/vivarium_nih_us_cvd/plugins/causes_parser.py:98-104 | each state's `is_multi_transition` becomes whether its count exceeds 1, overriding the user's value, and nothing else changes |
| CausesParser.UnknownSourceFrom | src/vivarium_nih_us_cvd/plugins/causes_parser.py:94-96 | the first unknown source over several causes is the first cause's own, else the one after it |
| CausesParser.MarkMultiTransitionStates | src/vivarium_nih_us_cvd/plugins/causes_parser.py:75-104 | a KeyError at the first unknown source over all causes, otherwise every cause marked |
| CausesParser.ResolveState | src/vivarium_nih_us_cvd/plugins/causes_parser.py:130-138 | every setting the configuration gives keeps its value, the others take the defaults: cause type "cause", not multi-transition, not transient, self-transitions allowed, no side effect or cleanup |
| CausesParser.ResolveTransition | src/vivarium_nih_us_cvd/plugins/causes_parser.py:140-141 | `triggered` defaults to NOT_TRIGGERED and the rest of the transition is kept |
| CausesParser.ResolveCause | src/vivarium_nih_us_cvd/plugins/causes_parser.py:121-145 | the default layer keeps the state and transition names and resolves each one |
| CausesParser.AddDefaultConfigLayer | src/vivarium_nih_us_cvd/plugins/causes_parser.py:107-145 | every cause resolved under its own name, in order |
| CausesParser.MarkedThenDefaulted | src/vivarium_nih_us_cvd/plugins/causes_parser.py:58-59 | after marking and defaults a state's multi-transition setting is its count above 1, whatever the user wrote |
| CausesParser.GetDataGetter | src/vivarium_nih_us_cvd/plugins/causes_parser.py:289-327 | a float is a constant, a duration string a duration, a target string a data load; a string with "::" must split into exactly two pieces (a ValueError otherwise), and is then the module function only when the import succeeds, else the import's error; any other string a ValueError. A module function returned always names an importable module attribute |
| CausesParser.ImportFunction | src/vivarium_nih_us_cvd/plugins/causes_parser.py:317-319 | `getattr(import_module(module), function)`: an empty module name is a ValueError, a relative one a TypeError, a missing module a ModuleNotFoundError, a missing attribute an AttributeError; the function exactly when the import system finds it |
| CausesParser.MethodGetterRoundTrip | src/vivarium_nih_us_cvd/plugins/causes_parser.py:317-319 | a colon-free module and function joined by "::" (and not a duration) resolve exactly as importing that module's function does: that function when it imports, the import's error otherwise |
| CausesParser.TargetGetterRoundTrip | src/vivarium_nih_us_cvd/plugins/causes_parser.py:321-323 | a colon-free three-field `type.name.measure` string is loaded under that key |
| CausesParser.TargetStringShape | src/vivarium_nih_us_cvd/plugins/causes_parser.py:321-323 | three dot-free, colon-free fields joined by dots make a target string |
| CausesParser.GetDataGetters | src/vivarium_nih_us_cvd/plugins/causes_parser.py:219-222 | the getters of a mapping: all parse exactly when every entry does, and the keys are the mapping's names |
| CausesParser.GettersPerEntry | src/vivarium_nih_us_cvd/plugins/causes_parser.py:219-222 | with distinct names each name maps to the getter parsed from its own entry |
| CausesParser.GettersCons | src/vivarium_nih_us_cvd/plugins/causes_parser.py:219-222 | a mapping whose getters all parse is its first getter over those of the rest |
| CausesParser.DataOf | src/vivarium_nih_us_cvd/plugins/causes_parser.py:217-222 | no data functions configured is the empty mapping; otherwise their getters |
| CausesParser.StateKindOf | src/vivarium_nih_us_cvd/plugins/causes_parser.py:224-235 | the state class, first match wins: transient, multi-transition susceptible, multi-transition disease, susceptible, recovered, disease |
| CausesParser.GetState | src/vivarium_nih_us_cvd/plugins/causes_parser.py:185-238 | fails exactly when a data getter fails, with that getter's ValueError, TypeError, ModuleNotFoundError or AttributeError; otherwise a state of the chosen class, id and options, with no exits |
| CausesParser.MultiExitAgreesWithState | src/vivarium_nih_us_cvd/plugins/causes_parser.py:272-275 | a rate exit added on values is the exit the multi-transition state object records |
| CausesParser.AddTransition | src/vivarium_nih_us_cvd/plugins/causes_parser.py:240-287 | an unknown trigger is a KeyError, then a getter that does not parse or import its error, then an unknown data type a ValueError; otherwise the source gains exactly one exit of that kind to the sink |
| CausesParser.ResolvedSources | src/vivarium_nih_us_cvd/plugins/causes_parser.py:140-141 | defaults leave each transition's source as configured |
| CausesParser.StatesFrom | src/vivarium_nih_us_cvd/plugins/causes_parser.py:169-172 | the built-state dictionary holds the previous keys and every state name, all without exits |
| CausesParser.StatesFromEntries | src/vivarium_nih_us_cvd/plugins/causes_parser.py:169-172 | with distinct names each name holds the state built from its own configuration |
| CausesParser.StatesFromKeeps | src/vivarium_nih_us_cvd/plugins/causes_parser.py:169-172 | a key no later state configures keeps its earlier value |
| CausesParser.Wire | src/vivarium_nih_us_cvd/plugins/causes_parser.py:174-179 | the transitions are added in order and no state is added or removed |
| CausesParser.WireEffect | src/vivarium_nih_us_cvd/plugins/causes_parser.py:174-179 | wiring changes only exits: each state gains one exit per transition configured from it, in order |
| CausesParser.WireStepExits | src/vivarium_nih_us_cvd/plugins/causes_parser.py:174-179 | one transition keeps every state's reference and every exit leading to a state |
| CausesParser.BuildCause | src/vivarium_nih_us_cvd/plugins/causes_parser.py:168-181 | one model named after the cause, one state per configured state |
| CausesParser.BuildCauseModel | src/vivarium_nih_us_cvd/plugins/causes_parser.py:168-181 | the two loops build the model of the specification function |
| CausesParser.BuiltModelIsClosed | src/vivarium_nih_us_cvd/plugins/causes_parser.py:168-181 | every exit of a built model leads to one of its states |
| CausesParser.KindFollowsCount | src/vivarium_nih_us_cvd/plugins/causes_parser.py:224-229 | a marked state that is not transient is of a multi-transition class exactly when more than one transition leaves it |
| CausesParser.ResolvedKeyed | src/vivarium_nih_us_cvd/plugins/causes_parser.py:58-59 | marking and defaulting keep the state names |
| CausesParser.MultiIffSeveralExits | src/vivarium_nih_us_cvd/plugins/causes_parser.py:56-60 | in a model built from a marked, defaulted cause a non-transient state is a multi-transition state exactly when it has more than one exit |
| CausesParser.BuildFrom | src/vivarium_nih_us_cvd/plugins/causes_parser.py:166-183 | the models of all causes in order, each named after its cause; the first failure stops the build |
| CausesParser.GetCauseModelComponents | src/vivarium_nih_us_cvd/plugins/causes_parser.py:151-183 | the loop builds the models of the specification function |
| CausesParser.NamedAll | src/vivarium_nih_us_cvd/plugins/causes_parser.py:67 | one standard component per name, in order |
| CausesParser.CauseModels | src/vivarium_nih_us_cvd/plugins/causes_parser.py:60 | each disease model as a component, in order |
| CausesParser.Prepared | src/vivarium_nih_us_cvd/plugins/causes_parser.py:58-59 | the causes marked and defaulted, keeping their names and order |
| CausesParser.CauseModelsOf | src/vivarium_nih_us_cvd/plugins/causes_parser.py:58-60 | a KeyError for an unknown source, otherwise one model per cause named after it |
| CausesParser.GetComponents | src/vivarium_nih_us_cvd/plugins/causes_parser.py:32-68 | the method returns the components of the specification function |
| CausesParser.ComponentsLayout | src/vivarium_nih_us_cvd/plugins/causes_parser.py:56-68 | the cause models first, then the other components |
| CausesParser.ComponentsOrder | src/vivarium_nih_us_cvd/plugins/causes_parser.py:56-68 | cause models first, one per cause and named after it, then the other components in order; without causes, only the other components |
| CausesParser.TreeModels | src/vivarium_nih_us_cvd/plugins/causes_parser.py:56-68 | a tree with causes builds one model per cause, named after it, before the other components |
| CausesComponent.CausesConfiguration | src/vivarium_nih_us_cvd/components/causes/causes.py:63-69 | a KeyError exactly for an unknown source; otherwise the marked, defaulted specification |
| CausesComponent.GetCausesConfiguration | src/vivarium_nih_us_cvd/components/causes/causes.py:63-69 | the method gives the configuration of the specification function |
| CausesComponent.GetDiseaseModels | src/vivarium_nih_us_cvd/components/causes/causes.py:40-61 | the method gives one disease model per cause, built as the specification function builds them |
| CausesComponent.SameModelsAsParser | src/vivarium_nih_us_cvd/components/causes/causes.py:40-61 | the component builds exactly the models the configuration parser builds from a tree holding the same causes |
| LegacyCauses.ResolveLegacyState | src/vivarium_nih_us_cvd/components/causes.py:84-100 | settings given keep their value; defaults are cause type "cause", self-transitions allowed, no side effect or cleanup |
| LegacyCauses.LegacyGetDataGetter | src/vivarium_nih_us_cvd/components/causes.py:147-163 | a float is a constant, a duration string a duration, a target string a data load, anything else a ValueError; never a module function |
| LegacyCauses.LegacyGetterAgrees | src/vivarium_nih_us_cvd/components/causes.py:147-163 | without "::" the older parser reads a getter exactly as the newer one |
| LegacyCauses.LegacyGetters | src/vivarium_nih_us_cvd/components/causes.py:54-61 | the getters of a mapping, failing exactly when an entry fails, with a ValueError |
| LegacyCauses.LegacyGetState | src/vivarium_nih_us_cvd/components/causes.py:119-144 | "susceptible" and "recovered" become those states of the cause, any other name a disease state; self-transitions follow the setting |
| LegacyCauses.LegacyAddTransition | src/vivarium_nih_us_cvd/components/causes.py:53-67 | a bad getter fails first, then an unknown source or sink is a KeyError; otherwise the source gains one exit |
| LegacyCauses.LegacyStatesFrom | src/vivarium_nih_us_cvd/components/causes.py:47-51 | the built-state dictionary holds the previous keys and every state name |
| LegacyCauses.LegacyWire | src/vivarium_nih_us_cvd/components/causes.py:53-67 | the transitions are added in order and no state is added or removed |
| LegacyCauses.LegacyBuildCause | src/vivarium_nih_us_cvd/components/causes.py:47-69 | one model named after the cause, one state per configured state |
| LegacyCauses.LegacyBuildFrom | src/vivarium_nih_us_cvd/components/causes.py:47-71 | the models of all causes in order |
| LegacyCauses.GetDiseaseModels | src/vivarium_nih_us_cvd/components/causes.py:39-71 | the loops build the models of the specification function |
| LegacyCauses.LegacyWireEffect | src/vivarium_nih_us_cvd/components/causes.py:53-67 | each state gains one exit per transition configured from it, and nothing else of it changes |
| LegacyCauses.LegacyStatesAreSingleExitKinds | src/vivarium_nih_us_cvd/components/causes.py:136-139 | every state built is a susceptible, recovered or plain disease state |

## Left out

- Randomness: vivarium's `get_draw`, `choice`, `filter_for_probability` and `filter_for_rate` draw from a seeded stream. The draws are inputs here. A draw on a stream with no additional key is modelled under the key "". The probability that `filter_for_rate` derives from a rate is also an input.
- Library numerics: `stats.norm` `cdf`/`ppf`, `rate_to_probability`, `probability_to_rate` and `np.random.multivariate_normal` are inputs or parameters. So are the `np.exp` terms of the coverage covariates, which may be any positive reals.
- Vivarium machinery: pipelines, value producers, lookup-table interpolation and `ConfigTree` layering are foreign library code. The model keeps only what goes into them and what comes out: pipeline names, table keys, and configuration values resolved layer by layer. `register_simulants` and population views become the returned rows.
- Floating point: all real arithmetic is exact. `np.linspace` is exact, and so is pandas' NaN or infinity on a division by zero, which is `None` here.
- Missing constants: `data_values.py` lacks `COLUMNS`, the SBP, LDL-C, FPG and BMI thresholds, the medication-level tables, the follow-up window and the intervention effect tables and `VISIT_TYPES` (`Results.MissingNames.visitTypes`). `models.py` lacks the IHD model names. All of these are parameters, under ordering preconditions such as LOW < HIGH.
- Module files: `constants/data_keys.py`, `metadata.py` and `paths.py` are not part of this model. Data keys are plain strings, and `SourceTarget` is a pair.
- Library conventions assumed by the disease models:
  - susceptible and recovered state ids are `susceptible_to_{cause}` and `recovered_from_{cause}`;
  - the older `add_transition(output, source_data_type, get_data_functions)` adds a plain transition for no data type and a rate or proportion transition for those types, and raises ValueError for anything else;
  - a getter mapping of `None` is the empty mapping;
  - `TargetString` accepts exactly three dot-separated fields;
  - whether `pd.Timedelta` parses a string is a parameter.
- Import system: whether `import_module` finds a module and `getattr` finds its function is a parameter of the causes parser (`CausesParser.Environment.importAttribute`). Errors raised while an imported module's own code runs are not modelled.
- Data extraction in `loader.py`: GBD pulls, `vivarium_inputs` transforms, file reads and the `get_data` registry are I/O. Only the pure helpers are modelled.
- `Treatment.on_initialize_simulants`: only the medication coverage and discontinuation columns and the initial FPG test date are modelled. Three further steps are not:
  - the lifestyle adherence, outreach, polypill and lifestyle columns, which come straight from draws and pipelines;
  - the SBP and LDL-C multiplier columns, whose multiplier constants and column names `data_values.py` lacks;
  - the SBP and LDL-C ramps applied at initialisation to simulants in an acute state. The ramps themselves are modelled (`Ramps.ApplySbpTreatmentRamp`, `Ramps.ApplyLdlcTreatmentRamp`), but only as the time step applies them, not composed into initialisation.
- `process_results.py`: `pivot_data`, `apply_results_map` and `get_measure_data` reshape tables with pandas and are not modelled. From `get_transition_count_measure_data`, only the dropped 2041 event-count columns are modelled.
- Not modelled at all:
  - `healthcare_visits.py`, an unfinished earlier draft of the visit component;
  - `observers.py`, which only reports results;
  - `interventions.py`, a thin library override;
  - the artifact-checking script.
- Medication.PopulationTable.InitializeMedicationCoverage: the source writes the two medication columns in five masked assignments: no treatment, the chosen level for the medicated, then level 1 for the medicated non-adherent. The model computes each row's final levels in one step. The resulting table is the same; the intermediate column states are not modelled.
- HealthcareUtilization.InitializeFollowups: computes the documented initial follow-up, the corrected half of the second Finding. A simulant on medication without an acute history or an emergency gets a follow-up date here, where the code as written leaves NaT. `HealthcareUtilization.InitialFollowupSkipsMedicated` states the as-written result.
- HealthcareUtilization.InitializedRow: states the corrected follow-up of one row, for the same reason; the as-written row differs for a medicated simulant without an acute history or an emergency.
- HealthcareUtilization.InitializeVisitColumns: writes the corrected follow-up, so it is not the as-written result for those simulants.
- HealthcareUtilization.OnInitializeSimulants: inherits the corrected follow-up of `InitializeVisitColumns`.
- Medication.PopulationTable.OnTimeStepCleanup: in a polypill scenario it enrols through the scenario's own `affect_sbp_*` switches, the corrected half of the first Finding. The code as written raises AttributeError at that point in every polypill scenario; `Enrollment.EnrollInPolypillAsWritten` states that failure.
- Medication.RunStepVisitors: the same corrected polypill enrolment as `OnTimeStepCleanup`.
- Medication.StepVisitors: the specification of `RunStepVisitors`; its polypill enrolment reads the scenario's own `affect_sbp_*` switches where the code as written raises AttributeError.
- Medication.TimeStepCleaned: the specification of `OnTimeStepCleanup`; it uses `StepVisitors` and so the same corrected polypill enrolment.
- Strings.Lower: lowers only the ASCII letters A to Z, where Python's `str.lower()` lowers every Unicode cased letter. Every string it is applied to here is an ASCII constant or name.
- Risks: a series is a sequence in index order. Index alignment between series of different indices is not modelled; every modelled operation works on one index.

## Findings

| source | as written | input that shows it | evidently intended | confidence | as-written member | corrected member |
|---|---|---|---|---|---|---|
| src/vivarium_nih_us_cvd/components/treatment.py:1204 | `enroll_in_polypill` reads `scenario.polypill_affects_sbp_adherence` and `scenario.polypill_affects_sbp_medication`, but `InterventionScenario` (constants/scenarios.py:8-21) defines `affect_sbp_adherence` and `affect_sbp_medication` | any call, in any scenario: the first switch read raises AttributeError before anything is returned | read the scenario's own switches `affect_sbp_adherence` and `affect_sbp_medication` | not executed | Enrollment.EnrollInPolypillAsWritten | Enrollment.EnrollInPolypillCorrected |
| src/vivarium_nih_us_cvd/components/healthcare_utilization.py:147-154 | the follow-up dates are written into `on_medication.union(acute_history)` from a series indexed by `acute_history` alone; pandas aligns on the index, so these simulants get NaT | a simulant on SBP medication, not in chronic stroke or post MI, and not in an acute state | every simulant on medication or with an acute history gets a follow-up, as the method's docstring says; the corrected member keeps the window the code passes for these simulants, from the event time to `FOLLOWUP_MAX - FOLLOWUP_MIN` days after it, and emergencies keep their own `FOLLOWUP_MIN` to `FOLLOWUP_MAX` window | not executed | HealthcareUtilization.InitialFollowupSkipsMedicated | HealthcareUtilization.InitialFollowupWindows |
