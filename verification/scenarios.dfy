/** The intervention scenarios and their name lookup (constants/scenarios.py). */
module Scenarios {
  import opened Wrappers

  /** A scenario: its name and four switches that default to off. */
  datatype InterventionScenario = InterventionScenario(
    name: string,
    isOutreachScenario: bool := false,
    isPolypillScenario: bool := false,
    affectSbpAdherence: bool := false,
    affectSbpMedication: bool := false)

  const BASELINE := InterventionScenario("baseline")
  const OUTREACH_50 := InterventionScenario("outreach_50", isOutreachScenario := true)
  const OUTREACH_100 := InterventionScenario("outreach_100", isOutreachScenario := true)
  const POLYPILL_50 := InterventionScenario("polypill_50", isPolypillScenario := true,
    affectSbpAdherence := true, affectSbpMedication := true)
  const POLYPILL_100 := InterventionScenario("polypill_100", isPolypillScenario := true,
    affectSbpAdherence := true, affectSbpMedication := true)
  const POLYPILL_ADHERENCE_ONLY_50 := InterventionScenario("polypill_adherence_only_50",
    isPolypillScenario := true, affectSbpAdherence := true)
  const POLYPILL_ADHERENCE_ONLY_100 := InterventionScenario("polypill_adherence_only_100",
    isPolypillScenario := true, affectSbpAdherence := true)
  const POLYPILL_MEDICATION_ONLY_50 := InterventionScenario("polypill_medication_only_50",
    isPolypillScenario := true, affectSbpMedication := true)
  const POLYPILL_MEDICATION_ONLY_100 := InterventionScenario("polypill_medication_only_100",
    isPolypillScenario := true, affectSbpMedication := true)

  /**
   * `getattr(scenario, name)` for the boolean switches: the four field names of the tuple
   * resolve to their values, and any other name raises an AttributeError.
   */
  function Attribute(scenario: InterventionScenario, name: string): (r: Result<bool>)
    ensures r.Err? <==> name !in {"is_outreach_scenario", "is_polypill_scenario", "affect_sbp_adherence", "affect_sbp_medication"}
    ensures r.Err? ==> r.error == AttributeError(name)
    ensures name == "affect_sbp_adherence" ==> r == Ok(scenario.affectSbpAdherence)
    ensures name == "affect_sbp_medication" ==> r == Ok(scenario.affectSbpMedication)
  {
    if name == "is_outreach_scenario" then Ok(scenario.isOutreachScenario)
    else if name == "is_polypill_scenario" then Ok(scenario.isPolypillScenario)
    else if name == "affect_sbp_adherence" then Ok(scenario.affectSbpAdherence)
    else if name == "affect_sbp_medication" then Ok(scenario.affectSbpMedication)
    else Err(AttributeError(name))
  }

  /** The fields of the scenarios tuple, in declaration order. */
  const INTERVENTION_SCENARIOS: seq<InterventionScenario> := [
    BASELINE, OUTREACH_50, OUTREACH_100, POLYPILL_50, POLYPILL_100,
    POLYPILL_ADHERENCE_ONLY_50, POLYPILL_ADHERENCE_ONLY_100,
    POLYPILL_MEDICATION_ONLY_50, POLYPILL_MEDICATION_ONLY_100
  ]

  /** `INTERVENTION_SCENARIOS[item]`: the first scenario with that name, or `KeyError(item)`. */
  function GetItem(scenarios: seq<InterventionScenario>, item: string): (r: Result<InterventionScenario>)
    ensures r.Ok? ==> exists k :: (0 <= k < |scenarios| && scenarios[k] == r.value && r.value.name == item
      && forall j :: 0 <= j < k ==> scenarios[j].name != item)
    ensures r.Err? <==> forall k :: 0 <= k < |scenarios| ==> scenarios[k].name != item
    ensures r.Err? ==> r.error == KeyError(item)
  {
    if scenarios == [] then Err(KeyError(item))
    else if scenarios[0].name == item then Ok(scenarios[0])
    else
      var r := GetItem(scenarios[1..], item);
      assert r.Ok? ==> exists k :: (1 <= k < |scenarios| && scenarios[k] == r.value
        && forall j :: 0 <= j < k ==> scenarios[j].name != item) by {
        if r.Ok? {
          var k :| 0 <= k < |scenarios| - 1 && scenarios[1..][k] == r.value && r.value.name == item
            && forall j :: 0 <= j < k ==> scenarios[1..][j].name != item;
          assert scenarios[k + 1] == r.value;
          assert forall j :: 1 <= j < k + 1 ==> scenarios[j].name == scenarios[1..][j - 1].name;
        }
      }
      r
  }

  predicate DistinctNames(scenarios: seq<InterventionScenario>)
  {
    forall i, j :: 0 <= i < j < |scenarios| ==> scenarios[i].name != scenarios[j].name
  }

  /** With distinct names, looking up a scenario's own name returns that scenario. */
  lemma GetItemOwnName(scenarios: seq<InterventionScenario>, k: nat)
    requires DistinctNames(scenarios) && k < |scenarios|
    ensures GetItem(scenarios, scenarios[k].name) == Ok(scenarios[k])
  {
    var r := GetItem(scenarios, scenarios[k].name);
    if r.Ok? {
      var m :| 0 <= m < |scenarios| && scenarios[m] == r.value && r.value.name == scenarios[k].name
        && forall j :: 0 <= j < m ==> scenarios[j].name != scenarios[k].name;
      assert m == k;
    }
  }

  /** The nine scenario names are distinct. */
  lemma ScenarioNamesDistinct()
    ensures |INTERVENTION_SCENARIOS| == 9 && DistinctNames(INTERVENTION_SCENARIOS)
  {
  }

  /** Every scenario is found by its own name. */
  lemma ScenarioLookup(s: InterventionScenario)
    requires s in INTERVENTION_SCENARIOS
    ensures GetItem(INTERVENTION_SCENARIOS, s.name) == Ok(s)
  {
    ScenarioNamesDistinct();
    var k :| 0 <= k < |INTERVENTION_SCENARIOS| && INTERVENTION_SCENARIOS[k] == s;
    GetItemOwnName(INTERVENTION_SCENARIOS, k);
  }

  /**
   * The switches are consistent: outreach and polypill never combine, a scenario affects
   * adherence or medication exactly when it is a polypill scenario, and only the baseline
   * has every switch off.
   */
  lemma ScenarioSwitches(s: InterventionScenario)
    requires s in INTERVENTION_SCENARIOS
    ensures !(s.isOutreachScenario && s.isPolypillScenario)
    ensures s.isPolypillScenario <==> s.affectSbpAdherence || s.affectSbpMedication
    ensures s.isOutreachScenario || s.isPolypillScenario || s == BASELINE
  {
  }
}
