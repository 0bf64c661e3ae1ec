/**
 * The older disease models of components/disease.py. Instead of multi-transition states, the
 * heart-disease model routes its multi-exit states through explicit transient states, whose
 * exits are proportions computed by functions local to the builder (the same arithmetic as
 * components/causes/get_data_functions.py).
 */
module LegacyDisease {
  import opened Wrappers
  import opened Library
  import opened Models
  import opened Disease
  import GetDataFunctions

  /** Options of a state built without `allow_self_transition`; the mutator sets it later. */
  function Built(causeType: string, data: DataFunctions): StateOptions
  {
    StateOptions(causeType, false, false, false, data)
  }

  /** The builder's local data functions, by name. */
  const BUILDER := "vivarium_nih_us_cvd.components.disease"
  function Local(measure: string, name: string): DataFunctions { map[measure := Method(BUILDER, name)] }

  // ---------------------------------------------------------------------------------
  // Ischemic stroke
  // ---------------------------------------------------------------------------------

  /** As the newer stroke model, except that acute -> chronic is a plain transition. */
  function LegacyStrokeGraph(): Graph
  {
    Graph(ISCHEMIC_STROKE_MODEL_NAME, [
      StateSpec(STROKE_SUSCEPTIBLE, Built("cause", map[]), true,
        [Exit(STROKE_ACUTE, RateExit, Loading("incidence_rate", "ISCHEMIC_STROKE.INCIDENCE_RATE_ACUTE"), NotTriggered)]),
      StateSpec(STROKE_ACUTE, Built("sequela", map["dwell_time" := ACUTE_DWELL]), true,
        [Exit(STROKE_CHRONIC, PlainExit, map[], NotTriggered)]),
      StateSpec(STROKE_CHRONIC, Built("sequela", map[]), true,
        [Exit(STROKE_ACUTE, RateExit, Loading("transition_rate", "ISCHEMIC_STROKE.INCIDENCE_RATE_ACUTE"), NotTriggered)])
    ])
  }

  /** `IschemicStroke`: self-transitions are allowed by the mutator, state by state. */
  method IschemicStroke() returns (name: string, states: seq<DiseaseNode>)
    ensures fresh(set n | n in states)
    ensures Graph(name, Views(states)) == LegacyStrokeGraph()
  {
    ghost var g := LegacyStrokeGraph().states;
    var susceptible := new DiseaseNode(STROKE_SUSCEPTIBLE, Built("cause", map[]));
    var acute := new DiseaseNode(STROKE_ACUTE, Built("sequela", map["dwell_time" := ACUTE_DWELL]));
    var chronic := new DiseaseNode(STROKE_CHRONIC, Built("sequela", map[]));
    WireStroke(susceptible, acute, chronic);

    name := ISCHEMIC_STROKE_MODEL_NAME;
    states := [susceptible, acute, chronic];
    ViewsAt(states);
    assert Views(states) == [g[0], g[1], g[2]];
  }

  /** The three stroke states, each allowed to keep simulants and given its one exit. */
  method WireStroke(susceptible: DiseaseNode, acute: DiseaseNode, chronic: DiseaseNode)
    requires susceptible.View() == LegacyStrokeGraph().states[0].(selfTransition := false, exits := [])
    requires acute.View() == LegacyStrokeGraph().states[1].(selfTransition := false, exits := [])
    requires chronic.View() == LegacyStrokeGraph().states[2].(selfTransition := false, exits := [])
    requires susceptible != acute && susceptible != chronic && acute != chronic
    modifies susceptible, acute, chronic
    ensures susceptible.View() == LegacyStrokeGraph().states[0]
    ensures acute.View() == LegacyStrokeGraph().states[1]
    ensures chronic.View() == LegacyStrokeGraph().states[2]
  {
    susceptible.AllowSelfTransitions();
    var r := susceptible.AddTransition(acute.stateRef, Some("rate"), Loading("incidence_rate", "ISCHEMIC_STROKE.INCIDENCE_RATE_ACUTE"));
    acute.AllowSelfTransitions();
    r := acute.AddTransition(chronic.stateRef, None, map[]);
    chronic.AllowSelfTransitions();
    r := chronic.AddTransition(acute.stateRef, Some("rate"), Loading("transition_rate", "ISCHEMIC_STROKE.INCIDENCE_RATE_ACUTE"));
  }

  /** Same states and edges as the name constants, acute lasts 28 days, the graph is closed. */
  lemma LegacyStrokeMatchesConstants()
    ensures Ids(LegacyStrokeGraph().states) == ISCHEMIC_STROKE_MODEL_STATES
    ensures ExitPairs(LegacyStrokeGraph().states) == ISCHEMIC_STROKE_TRANSITION_PAIRS
    ensures Closed(LegacyStrokeGraph().states) && AllSelfTransitions(LegacyStrokeGraph().states)
    ensures DwellDays(LegacyStrokeGraph().states[1]) == Some(28.0)
  {
    var g := LegacyStrokeGraph().states;
    assert g[1..][1..][1..] == [];
    assert ExitPairs(g[1..][1..][1..]) == [];
  }

  // ---------------------------------------------------------------------------------
  // Ischemic heart disease and heart failure
  // ---------------------------------------------------------------------------------

  const TRANSIENT_SUSCEPTIBLE := StateRef(Transient, "transient_susceptible_state")
  const TRANSIENT_POST_MI := StateRef(Transient, "transient_post_mi_state")

  function LSusceptible(n: IhdNames): StateRef { StateRef(Susceptible, SusceptibleId(n.model)) }
  function LPostMi(n: IhdNames): StateRef { StateRef(Disease, n.postMi) }

  /** The eight states in the order the model lists them. */
  function LegacyIhdGraph(n: IhdNames): Graph
  {
    Graph(n.model, [
      StateSpec(LSusceptible(n), Built("cause", map[]), true,
        [Exit(TRANSIENT_SUSCEPTIBLE, RateExit, Local("incidence_rate", "transient_susceptible_incidence_rate"), NotTriggered)]),
      StateSpec(TRANSIENT_SUSCEPTIBLE, Built("cause", map[]), false, [
        Exit(IhdAcuteMi(n), ProportionExit, Local("proportion", "acute_mi_after_susceptible_proportion"), NotTriggered),
        Exit(IhdHfIhd(n), ProportionExit, Local("proportion", "hf_ihd_after_susceptible_proportion"), NotTriggered),
        Exit(IhdHfResidual(n), ProportionExit, Local("proportion", "hf_residual_after_susceptible_proportion"), NotTriggered)]),
      StateSpec(TRANSIENT_POST_MI, Built("cause", map[]), false, [
        Exit(IhdAcuteMi(n), ProportionExit, Local("proportion", "acute_mi_after_post_mi_proportion"), NotTriggered),
        Exit(IhdHfIhd(n), ProportionExit, Local("proportion", "hf_ihd_out_of_post_mi_proportion"), NotTriggered)]),
      StateSpec(IhdAcuteMi(n), Built("cause", map["dwell_time" := ACUTE_DWELL]), true,
        [Exit(LPostMi(n), PlainExit, map[], NotTriggered)]),
      StateSpec(LPostMi(n), Built("cause", map[]), true,
        [Exit(TRANSIENT_POST_MI, RateExit, Local("transition_rate", "transient_post_mi_transition_rate"), NotTriggered)]),
      StateSpec(IhdHfIhd(n), Built("cause", HF_EMR), true,
        [Exit(IhdAcuteMiHf(n), RateExit, Loading("transition_rate", "IHD_AND_HF.INCIDENCE_ACUTE_MI"), NotTriggered)]),
      StateSpec(IhdAcuteMiHf(n), Built("cause", ACUTE_MI_HF_DATA), true,
        [Exit(IhdHfIhd(n), PlainExit, map[], NotTriggered)]),
      StateSpec(IhdHfResidual(n), Built("cause", HF_EMR), false, [])
    ])
  }

  /** The first-event half: susceptible into the transient state and its three proportion exits. */
  method WireSusceptible(n: IhdNames, susceptible: DiseaseNode, transient: DiseaseNode)
    requires susceptible.View() == LegacyIhdGraph(n).states[0].(selfTransition := false, exits := [])
    requires transient.View() == LegacyIhdGraph(n).states[1].(exits := [])
    requires susceptible != transient
    modifies susceptible, transient
    ensures susceptible.View() == LegacyIhdGraph(n).states[0]
    ensures transient.View() == LegacyIhdGraph(n).states[1]
  {
    susceptible.AllowSelfTransitions();
    var r := susceptible.AddTransition(TRANSIENT_SUSCEPTIBLE, Some("rate"), Local("incidence_rate", "transient_susceptible_incidence_rate"));
    r := transient.AddTransition(IhdAcuteMi(n), Some("proportion"), Local("proportion", "acute_mi_after_susceptible_proportion"));
    r := transient.AddTransition(IhdHfIhd(n), Some("proportion"), Local("proportion", "hf_ihd_after_susceptible_proportion"));
    r := transient.AddTransition(IhdHfResidual(n), Some("proportion"), Local("proportion", "hf_residual_after_susceptible_proportion"));
  }

  /** Heart failure from IHD to acute MI with heart failure, and the two acute states' exits. */
  method WireAcute(n: IhdNames, acuteMi: DiseaseNode, hfIhd: DiseaseNode, acuteMiHf: DiseaseNode)
    requires acuteMi.View() == LegacyIhdGraph(n).states[3].(selfTransition := false, exits := [])
    requires hfIhd.View() == LegacyIhdGraph(n).states[5].(selfTransition := false, exits := [])
    requires acuteMiHf.View() == LegacyIhdGraph(n).states[6].(selfTransition := false, exits := [])
    requires acuteMi != hfIhd && acuteMi != acuteMiHf && hfIhd != acuteMiHf
    modifies acuteMi, hfIhd, acuteMiHf
    ensures acuteMi.View() == LegacyIhdGraph(n).states[3]
    ensures hfIhd.View() == LegacyIhdGraph(n).states[5]
    ensures acuteMiHf.View() == LegacyIhdGraph(n).states[6]
  {
    hfIhd.AllowSelfTransitions();
    var r := hfIhd.AddTransition(acuteMiHf.stateRef, Some("rate"), Loading("transition_rate", "IHD_AND_HF.INCIDENCE_ACUTE_MI"));
    acuteMi.AllowSelfTransitions();
    r := acuteMi.AddTransition(LPostMi(n), None, map[]);
    acuteMiHf.AllowSelfTransitions();
    r := acuteMiHf.AddTransition(hfIhd.stateRef, None, map[]);
  }

  /** The recurrence half: post MI into its transient state and the two proportion exits. */
  method WirePostMi(n: IhdNames, postMi: DiseaseNode, transient: DiseaseNode)
    requires postMi.View() == LegacyIhdGraph(n).states[4].(selfTransition := false, exits := [])
    requires transient.View() == LegacyIhdGraph(n).states[2].(exits := [])
    requires postMi != transient
    modifies postMi, transient
    ensures postMi.View() == LegacyIhdGraph(n).states[4]
    ensures transient.View() == LegacyIhdGraph(n).states[2]
  {
    postMi.AllowSelfTransitions();
    var r := postMi.AddTransition(TRANSIENT_POST_MI, Some("rate"), Local("transition_rate", "transient_post_mi_transition_rate"));
    r := transient.AddTransition(IhdAcuteMi(n), Some("proportion"), Local("proportion", "acute_mi_after_post_mi_proportion"));
    r := transient.AddTransition(IhdHfIhd(n), Some("proportion"), Local("proportion", "hf_ihd_out_of_post_mi_proportion"));
  }

  /** The susceptible state and its transient state, wired. */
  method NewSusceptibleHalf(n: IhdNames) returns (susceptible: DiseaseNode, transient: DiseaseNode)
    ensures fresh(susceptible) && fresh(transient)
    ensures susceptible.View() == LegacyIhdGraph(n).states[0] && transient.View() == LegacyIhdGraph(n).states[1]
  {
    susceptible := new DiseaseNode(LSusceptible(n), Built("cause", map[]));
    transient := new DiseaseNode(TRANSIENT_SUSCEPTIBLE, Built("cause", map[]));
    WireSusceptible(n, susceptible, transient);
  }

  /** The acute and heart-failure states, wired. */
  method NewAcuteAndFailureStates(n: IhdNames) returns (acuteMi: DiseaseNode, hfIhd: DiseaseNode, acuteMiHf: DiseaseNode, hfResidual: DiseaseNode)
    ensures fresh(acuteMi) && fresh(hfIhd) && fresh(acuteMiHf) && fresh(hfResidual)
    ensures acuteMi.View() == LegacyIhdGraph(n).states[3] && hfIhd.View() == LegacyIhdGraph(n).states[5]
    ensures acuteMiHf.View() == LegacyIhdGraph(n).states[6] && hfResidual.View() == LegacyIhdGraph(n).states[7]
  {
    acuteMi := new DiseaseNode(IhdAcuteMi(n), Built("cause", map["dwell_time" := ACUTE_DWELL]));
    hfIhd := new DiseaseNode(IhdHfIhd(n), Built("cause", HF_EMR));
    hfResidual := new DiseaseNode(IhdHfResidual(n), Built("cause", HF_EMR));
    acuteMiHf := new DiseaseNode(IhdAcuteMiHf(n), Built("cause", ACUTE_MI_HF_DATA));
    WireAcute(n, acuteMi, hfIhd, acuteMiHf);
  }

  /** The post-MI state and its transient state, wired. */
  method NewPostMiHalf(n: IhdNames) returns (postMi: DiseaseNode, transient: DiseaseNode)
    ensures fresh(postMi) && fresh(transient)
    ensures postMi.View() == LegacyIhdGraph(n).states[4] && transient.View() == LegacyIhdGraph(n).states[2]
  {
    postMi := new DiseaseNode(LPostMi(n), Built("cause", map[]));
    transient := new DiseaseNode(TRANSIENT_POST_MI, Built("cause", map[]));
    WirePostMi(n, postMi, transient);
  }

  /** `IschemicHeartDiseaseAndHeartFailure`, the eight-state version. */
  method IschemicHeartDiseaseAndHeartFailure(n: IhdNames) returns (name: string, states: seq<DiseaseNode>)
    ensures fresh(set s | s in states)
    ensures Graph(name, Views(states)) == LegacyIhdGraph(n)
  {
    ghost var g := LegacyIhdGraph(n).states;
    var susceptible, transientSusceptible := NewSusceptibleHalf(n);
    var acuteMi, hfIhd, acuteMiHf, hfResidual := NewAcuteAndFailureStates(n);
    var postMi, transientPostMi := NewPostMiHalf(n);

    name := n.model;
    states := [susceptible, transientSusceptible, transientPostMi, acuteMi, postMi, hfIhd, acuteMiHf, hfResidual];
    ViewsOfEight(states);
    assert susceptible.View() == g[0] && transientSusceptible.View() == g[1] && transientPostMi.View() == g[2];
    assert acuteMi.View() == g[3] && postMi.View() == g[4] && hfIhd.View() == g[5];
    assert acuteMiHf.View() == g[6] && hfResidual.View() == g[7];
  }

  lemma ViewsOfEight(ns: seq<DiseaseNode>)
    requires |ns| == 8
    ensures Views(ns) == [ns[0].View(), ns[1].View(), ns[2].View(), ns[3].View(),
                          ns[4].View(), ns[5].View(), ns[6].View(), ns[7].View()]
  {
    ViewsAt(ns);
  }

  /**
   * Eight states, two of them transient; the transient states and residual heart failure are
   * the states never given self-transitions; every exit stays inside the model.
   */
  lemma LegacyIhdStates(n: IhdNames)
    ensures |LegacyIhdGraph(n).states| == 8
    ensures forall i :: 0 <= i < 8 ==> (LegacyIhdGraph(n).states[i].ref.kind == Transient <==> i in {1, 2})
    ensures forall i :: 0 <= i < 8 ==> (!LegacyIhdGraph(n).states[i].selfTransition <==> i in {1, 2, 7})
    ensures Closed(LegacyIhdGraph(n).states)
  {
    var g := LegacyIhdGraph(n).states;
    var ids := Ids(g);
    forall i, j | 0 <= i < |g| && 0 <= j < |g[i].exits|
      ensures g[i].exits[j].output.stateId in ids
    {
      assert ids[1] == TRANSIENT_SUSCEPTIBLE.stateId && ids[2] == TRANSIENT_POST_MI.stateId;
      assert ids[3] == n.acuteMi && ids[4] == n.postMi && ids[5] == n.hfIhd;
      assert ids[6] == n.acuteMiHf && ids[7] == n.hfResidual;
      if i == 1 {
        assert g[1].exits[j].output.stateId == ids[[3, 5, 7][j]];
      } else if i == 2 {
        assert g[2].exits[j].output.stateId == ids[[3, 5][j]];
      }
    }
  }

  /** Susceptible leaves only to the transient state, by the summed incidence; so does post MI. */
  lemma LegacyIhdSingleEntries(n: IhdNames)
    ensures LegacyIhdGraph(n).states[0].exits ==
      [Exit(TRANSIENT_SUSCEPTIBLE, RateExit, Local("incidence_rate", "transient_susceptible_incidence_rate"), NotTriggered)]
    ensures LegacyIhdGraph(n).states[4].exits ==
      [Exit(TRANSIENT_POST_MI, RateExit, Local("transition_rate", "transient_post_mi_transition_rate"), NotTriggered)]
  {
  }

  // ---------------------------------------------------------------------------------
  // The local data functions, one demographic row at a time
  // ---------------------------------------------------------------------------------

  /** The value of the builder's local function `name` on one row; the same arithmetic as the shared functions. */
  function LocalValue(name: string, i: GetDataFunctions.Incidences): Option<real>
  {
    if name == "transient_susceptible_incidence_rate" then Some(GetDataFunctions.TransientSusceptibleIncidenceRate(i))
    else if name == "acute_mi_after_susceptible_proportion" then GetDataFunctions.AcuteMiAfterSusceptibleProportion(i)
    else if name == "hf_ihd_after_susceptible_proportion" then GetDataFunctions.HfIhdAfterSusceptibleProportion(i)
    else if name == "hf_residual_after_susceptible_proportion" then GetDataFunctions.HfResidualAfterSusceptibleProportion(i)
    else if name == "transient_post_mi_transition_rate" then Some(GetDataFunctions.TransientPostMiTransitionRate(i))
    else if name == "acute_mi_after_post_mi_proportion" then GetDataFunctions.AcuteMiAfterPostMiProportion(i)
    else if name == "hf_ihd_out_of_post_mi_proportion" then GetDataFunctions.HfIhdOutOfPostMiProportion(i)
    else None
  }

  /** The proportions of a state's exits on one row, summed; missing values count as 0. */
  function ProportionSum(exits: seq<Exit>, i: GetDataFunctions.Incidences): real
  {
    if exits == [] then 0.0
    else
      var e := exits[|exits| - 1];
      var p := if "proportion" in e.data && e.data["proportion"].Method? then LocalValue(e.data["proportion"].name, i) else None;
      ProportionSum(exits[..|exits| - 1], i) + (if p.Some? then p.value else 0.0)
  }

  /**
   * On a row with a nonzero total, the proportions on the exits of each transient state sum
   * to 1, so a simulant entering a transient state always leaves it.
   */
  lemma TransientProportionsSumToOne(n: IhdNames, i: GetDataFunctions.Incidences)
    requires GetDataFunctions.TransientSusceptibleIncidenceRate(i) != 0.0
    requires GetDataFunctions.TransientPostMiTransitionRate(i) != 0.0
    ensures ProportionSum(LegacyIhdGraph(n).states[1].exits, i) == 1.0
    ensures ProportionSum(LegacyIhdGraph(n).states[2].exits, i) == 1.0
  {
    var g := LegacyIhdGraph(n).states;
    GetDataFunctions.SusceptibleProportionsSumToOne(i);
    GetDataFunctions.PostMiProportionsSumToOne(i);
    var e1 := g[1].exits;
    assert e1[..|e1| - 1] == e1[..2] && e1[..2][..1] == e1[..1] && e1[..1][..0] == [];
    assert ProportionSum(e1[..1], i) == GetDataFunctions.AcuteMiAfterSusceptibleProportion(i).value;
    assert ProportionSum(e1[..2], i) == GetDataFunctions.AcuteMiAfterSusceptibleProportion(i).value
      + GetDataFunctions.HfIhdAfterSusceptibleProportion(i).value;
    var e2 := g[2].exits;
    assert e2[..|e2| - 1] == e2[..1] && e2[..1][..0] == [];
    assert ProportionSum(e2[..1], i) == GetDataFunctions.AcuteMiAfterPostMiProportion(i).value;
  }
}
