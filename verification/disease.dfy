/**
 * The two disease models of components/causes/disease.py, built as the source builds them:
 * states first, then transitions added to them one by one. Each builder's result is tied to a
 * graph value, and the properties of the graph are lemmas about that value.
 */
module Disease {
  import opened Wrappers
  import opened Library
  import opened Models
  import opened Transition
  import opened State

  /** Acute states last 28 days before their dwell-time exit is taken. */
  const ACUTE_DWELL: Getter := Duration(28.0)

  /** A state built with `allow_self_transition=True`, the given cause type and data functions. */
  function SelfTransitioning(causeType: string, data: DataFunctions): StateOptions
  {
    StateOptions(causeType, true, false, false, data)
  }

  /** The states and transitions of a disease model, in the order the model lists its states. */
  datatype Graph = Graph(name: string, states: seq<StateSpec>)

  // ---------------------------------------------------------------------------------
  // Graph vocabulary
  // ---------------------------------------------------------------------------------

  function Ids(states: seq<StateSpec>): (r: seq<string>)
    ensures |r| == |states| && forall i :: 0 <= i < |states| ==> r[i] == states[i].ref.stateId
  {
    seq(|states|, i requires 0 <= i < |states| => states[i].ref.stateId)
  }

  /** Every exit as a (from, to) pair of state ids, state by state. */
  function ExitPairs(states: seq<StateSpec>): seq<(string, string)>
  {
    if states == [] then []
    else
      var s := states[0];
      seq(|s.exits|, i requires 0 <= i < |s.exits| => (s.ref.stateId, s.exits[i].output.stateId))
        + ExitPairs(states[1..])
  }

  /** The state's dwell time in days, when its data functions give one. */
  function DwellDays(s: StateSpec): Option<real>
  {
    if "dwell_time" in s.options.data && s.options.data["dwell_time"].Duration?
    then Some(s.options.data["dwell_time"].days) else None
  }

  /** Every exit leads to a state of the model. */
  predicate Closed(states: seq<StateSpec>)
  {
    forall i, j :: 0 <= i < |states| && 0 <= j < |states[i].exits| ==>
      states[i].exits[j].output.stateId in Ids(states)
  }

  predicate AllSelfTransitions(states: seq<StateSpec>)
  {
    forall i :: 0 <= i < |states| ==> states[i].selfTransition
  }

  predicate IsMulti(s: StateSpec)
  {
    s.ref.kind == MultiTransitionSusceptible || s.ref.kind == MultiTransitionDisease
  }

  /** The views of library states in order. */
  ghost function Views(ns: seq<DiseaseNode>): (r: seq<StateSpec>)
    reads set n | n in ns
    ensures |r| == |ns|
  {
    if ns == [] then [] else [ns[0].View()] + Views(ns[1..])
  }

  /** Each view in `Views(ns)` is the view of the node at the same position. */
  lemma {:induction false} ViewsAt(ns: seq<DiseaseNode>)
    ensures forall k :: 0 <= k < |ns| ==> Views(ns)[k] == ns[k].View()
  {
    if ns != [] {
      ViewsAt(ns[1..]);
      assert forall k :: 1 <= k < |ns| ==> ns[1..][k - 1] == ns[k];
    }
  }

  // ---------------------------------------------------------------------------------
  // Ischemic stroke
  // ---------------------------------------------------------------------------------

  const STROKE_SUSCEPTIBLE := StateRef(Susceptible, SusceptibleId(ISCHEMIC_STROKE_MODEL_NAME))
  const STROKE_ACUTE := StateRef(Disease, ACUTE_ISCHEMIC_STROKE_STATE_NAME)
  const STROKE_CHRONIC := StateRef(Disease, CHRONIC_ISCHEMIC_STROKE_STATE_NAME)

  /** Susceptible -> acute by incidence, acute -> chronic after 28 days, chronic -> acute by rate. */
  function StrokeGraph(): Graph
  {
    var incidence := map["incidence_rate" := Load("ISCHEMIC_STROKE.INCIDENCE_RATE_ACUTE")];
    var recurrence := map["transition_rate" := Load("ISCHEMIC_STROKE.INCIDENCE_RATE_ACUTE")];
    Graph(ISCHEMIC_STROKE_MODEL_NAME, [
      StateSpec(STROKE_SUSCEPTIBLE, SelfTransitioning("cause", map[]), true,
        [Exit(STROKE_ACUTE, RateExit, incidence, NotTriggered)]),
      StateSpec(STROKE_ACUTE, SelfTransitioning("sequela", map["dwell_time" := ACUTE_DWELL]), true,
        [Exit(STROKE_CHRONIC, DwellTimeExit, map[], NotTriggered)]),
      StateSpec(STROKE_CHRONIC, SelfTransitioning("sequela", map[]), true,
        [Exit(STROKE_ACUTE, RateExit, recurrence, NotTriggered)])
    ])
  }

  /** `IschemicStroke`: builds the three states and wires their transitions. */
  method IschemicStroke() returns (name: string, states: seq<DiseaseNode>)
    ensures fresh(set n | n in states)
    ensures Graph(name, Views(states)) == StrokeGraph()
  {
    ghost var g := StrokeGraph().states;
    var susceptible := new DiseaseNode(STROKE_SUSCEPTIBLE, SelfTransitioning("cause", map[]));
    var acute := new DiseaseNode(STROKE_ACUTE, SelfTransitioning("sequela", map["dwell_time" := ACUTE_DWELL]));
    var chronic := new DiseaseNode(STROKE_CHRONIC, SelfTransitioning("sequela", map[]));
    WireStroke(susceptible, acute, chronic);
    name := ISCHEMIC_STROKE_MODEL_NAME;
    states := [susceptible, acute, chronic];
    ViewsAt(states);
    assert Views(states) == [g[0], g[1], g[2]];
  }

  /** The three stroke transitions: incidence, the 28-day dwell time and recurrence. */
  method WireStroke(susceptible: DiseaseNode, acute: DiseaseNode, chronic: DiseaseNode)
    requires susceptible.View() == StrokeGraph().states[0].(exits := [])
    requires acute.View() == StrokeGraph().states[1].(exits := [])
    requires chronic.View() == StrokeGraph().states[2].(exits := [])
    requires susceptible != acute && susceptible != chronic && acute != chronic
    modifies susceptible, acute, chronic
    ensures susceptible.View() == StrokeGraph().states[0]
    ensures acute.View() == StrokeGraph().states[1]
    ensures chronic.View() == StrokeGraph().states[2]
  {
    susceptible.AddRateTransition(acute.stateRef,
      map["incidence_rate" := Load("ISCHEMIC_STROKE.INCIDENCE_RATE_ACUTE")], NotTriggered);
    acute.AddDwellTimeTransition(chronic.stateRef, NotTriggered);
    chronic.AddRateTransition(acute.stateRef,
      map["transition_rate" := Load("ISCHEMIC_STROKE.INCIDENCE_RATE_ACUTE")], NotTriggered);
  }

  /**
   * The stroke graph agrees with the name constants: its states are
   * ISCHEMIC_STROKE_MODEL_STATES and its exits are ISCHEMIC_STROKE_TRANSITION_PAIRS, in order.
   * Acute and chronic form a cycle, acute lasts 28 days, and every state keeps its simulants.
   */
  lemma StrokeGraphMatchesConstants()
    ensures Ids(StrokeGraph().states) == ISCHEMIC_STROKE_MODEL_STATES
    ensures ExitPairs(StrokeGraph().states) == ISCHEMIC_STROKE_TRANSITION_PAIRS
    ensures Closed(StrokeGraph().states) && AllSelfTransitions(StrokeGraph().states)
    ensures DwellDays(StrokeGraph().states[1]) == Some(28.0)
    ensures StrokeGraph().states[1].exits[0].kind == DwellTimeExit
  {
    var g := StrokeGraph().states;
    assert g[1..][1..][1..] == [];
    assert ExitPairs(g[1..][1..][1..]) == [];
  }

  // ---------------------------------------------------------------------------------
  // Ischemic heart disease and heart failure
  // ---------------------------------------------------------------------------------

  /**
   * The model and state names the heart-disease model uses. They are not defined in
   * constants/models.py, so they are parameters here.
   */
  datatype IhdNames = IhdNames(
    model: string, acuteMi: string, postMi: string, hfIhd: string, hfResidual: string, acuteMiHf: string)

  /** The six state ids are pairwise different and none is a transient state's id. */
  ghost predicate DistinctNames(n: IhdNames)
  {
    var ids := [SusceptibleId(n.model), n.acuteMi, n.postMi, n.hfIhd, n.hfResidual, n.acuteMiHf];
    (forall i, j :: 0 <= i < j < |ids| ==> ids[i] != ids[j])
  }

  function IhdSusceptible(n: IhdNames): StateRef { StateRef(MultiTransitionSusceptible, SusceptibleId(n.model)) }
  function IhdAcuteMi(n: IhdNames): StateRef { StateRef(Disease, n.acuteMi) }
  function IhdPostMi(n: IhdNames): StateRef { StateRef(MultiTransitionDisease, n.postMi) }
  function IhdHfIhd(n: IhdNames): StateRef { StateRef(Disease, n.hfIhd) }
  function IhdHfResidual(n: IhdNames): StateRef { StateRef(Disease, n.hfResidual) }
  function IhdAcuteMiHf(n: IhdNames): StateRef { StateRef(Disease, n.acuteMiHf) }

  function Loading(measure: string, key: string): DataFunctions { map[measure := Load(key)] }

  const HF_EMR: DataFunctions := map["excess_mortality_rate" := Load("IHD_AND_HF.EMR_HF")]
  const ACUTE_MI_HF_DATA: DataFunctions := map[
    "dwell_time" := ACUTE_DWELL,
    "disability_weight" := Load("IHD_AND_HF.DISABILITY_WEIGHT_ACUTE_MI"),
    "excess_mortality_rate" := Load("IHD_AND_HF.EMR_ACUTE_MI")]

  /** The conditional exits of a transient state `t` to `outs`, in order. */
  function TransientEdges(t: StateRef, outs: seq<StateRef>): (r: seq<Edge>)
    ensures |r| == |outs|
  {
    seq(|outs|, i requires 0 <= i < |outs| => Edge(t, outs[i], ConditionalExit))
  }

  /** Transient id of a multi-transition state. */
  function TransientOf(r: StateRef): StateRef { StateRef(Transient, "transient_" + r.stateId) }

  function IhdSusceptibleSources(n: IhdNames): map<string, DataFunctions>
  {
    map[][n.acuteMi := Loading("incidence_rate", "IHD_AND_HF.INCIDENCE_ACUTE_MI")]
      [n.hfIhd := Loading("incidence_rate", "IHD_AND_HF.INCIDENCE_HF_IHD")]
      [n.hfResidual := Loading("incidence_rate", "IHD_AND_HF.INCIDENCE_HF_RESIDUAL")]
  }

  function IhdPostMiSources(n: IhdNames): map<string, DataFunctions>
  {
    map[][n.acuteMi := Loading("transition_rate", "IHD_AND_HF.INCIDENCE_ACUTE_MI")]
      [n.hfIhd := Loading("transition_rate", "IHD_AND_HF.INCIDENCE_HF_IHD")]
  }

  /** The heart-disease graph, states in the order the model lists them. */
  function IhdGraph(n: IhdNames): Graph
  {
    var s := IhdSusceptible(n);
    var p := IhdPostMi(n);
    Graph(n.model, [
      StateSpec(s, SelfTransitioning("cause", map[]), true,
        MultiExits(TransientEdges(TransientOf(s), [IhdAcuteMi(n), IhdHfIhd(n), IhdHfResidual(n)]), IhdSusceptibleSources(n))),
      StateSpec(IhdAcuteMi(n), SelfTransitioning("cause", map["dwell_time" := ACUTE_DWELL]), true,
        [Exit(p, DwellTimeExit, map[], NotTriggered)]),
      StateSpec(p, SelfTransitioning("cause", map[]), true,
        MultiExits(TransientEdges(TransientOf(p), [IhdAcuteMi(n), IhdHfIhd(n)]), IhdPostMiSources(n))),
      StateSpec(IhdHfIhd(n), SelfTransitioning("cause", HF_EMR), true,
        [Exit(IhdAcuteMiHf(n), RateExit, Loading("transition_rate", "IHD_AND_HF.INCIDENCE_ACUTE_MI"), NotTriggered)]),
      StateSpec(IhdAcuteMiHf(n), SelfTransitioning("cause", ACUTE_MI_HF_DATA), true,
        [Exit(IhdHfIhd(n), DwellTimeExit, map[], NotTriggered)]),
      StateSpec(IhdHfResidual(n), SelfTransitioning("cause", HF_EMR), true, [])
    ])
  }

  /** The three rate exits of the susceptible state, added through its composite transition. */
  method AddSusceptibleExits(n: IhdNames, susceptible: MultiTransitionState)
    requires susceptible.Valid() && susceptible.stateRef == IhdSusceptible(n)
    requires susceptible.options == SelfTransitioning("cause", map[])
    requires susceptible.transient.stateRef == TransientOf(IhdSusceptible(n))
    requires susceptible.transient.transitions == [] && susceptible.rateTransition.sources == map[]
    modifies susceptible.rateTransition, susceptible.transient
    ensures susceptible.Valid() && susceptible.View() == IhdGraph(n).states[0]
  {
    var r := susceptible.AddTransition(IhdAcuteMi(n), Some("rate"), Loading("incidence_rate", "IHD_AND_HF.INCIDENCE_ACUTE_MI"));
    r := susceptible.AddTransition(IhdHfIhd(n), Some("rate"), Loading("incidence_rate", "IHD_AND_HF.INCIDENCE_HF_IHD"));
    r := susceptible.AddTransition(IhdHfResidual(n), Some("rate"), Loading("incidence_rate", "IHD_AND_HF.INCIDENCE_HF_RESIDUAL"));
    assert susceptible.transient.transitions ==
      TransientEdges(TransientOf(IhdSusceptible(n)), [IhdAcuteMi(n), IhdHfIhd(n), IhdHfResidual(n)]);
  }

  /** The two rate exits of the post-MI state, added through its composite transition. */
  method AddPostMiExits(n: IhdNames, postMi: MultiTransitionState)
    requires postMi.Valid() && postMi.stateRef == IhdPostMi(n)
    requires postMi.options == SelfTransitioning("cause", map[])
    requires postMi.transient.stateRef == TransientOf(IhdPostMi(n))
    requires postMi.transient.transitions == [] && postMi.rateTransition.sources == map[]
    modifies postMi.rateTransition, postMi.transient
    ensures postMi.Valid() && postMi.View() == IhdGraph(n).states[2]
  {
    var r := postMi.AddTransition(IhdAcuteMi(n), Some("rate"), Loading("transition_rate", "IHD_AND_HF.INCIDENCE_ACUTE_MI"));
    r := postMi.AddTransition(IhdHfIhd(n), Some("rate"), Loading("transition_rate", "IHD_AND_HF.INCIDENCE_HF_IHD"));
    assert postMi.transient.transitions == TransientEdges(TransientOf(IhdPostMi(n)), [IhdAcuteMi(n), IhdHfIhd(n)]);
  }

  /** The rate exit of HF-from-IHD and the two dwell-time exits out of the acute states. */
  method AddLibraryExits(n: IhdNames, acuteMi: DiseaseNode, hfIhd: DiseaseNode, acuteMiHf: DiseaseNode)
    requires acuteMi.View() == IhdGraph(n).states[1].(exits := [])
    requires hfIhd.View() == IhdGraph(n).states[3].(exits := [])
    requires acuteMiHf.View() == IhdGraph(n).states[4].(exits := [])
    requires acuteMi != hfIhd && acuteMi != acuteMiHf && hfIhd != acuteMiHf
    modifies acuteMi, hfIhd, acuteMiHf
    ensures acuteMi.View() == IhdGraph(n).states[1]
    ensures hfIhd.View() == IhdGraph(n).states[3]
    ensures acuteMiHf.View() == IhdGraph(n).states[4]
  {
    hfIhd.AddRateTransition(acuteMiHf.stateRef, Loading("transition_rate", "IHD_AND_HF.INCIDENCE_ACUTE_MI"), NotTriggered);
    acuteMi.AddDwellTimeTransition(IhdPostMi(n), NotTriggered);
    acuteMiHf.AddDwellTimeTransition(hfIhd.stateRef, NotTriggered);
  }

  /** The susceptible state with its three rate exits. */
  method NewIhdSusceptible(n: IhdNames) returns (susceptible: MultiTransitionState)
    ensures fresh(susceptible) && susceptible.Valid() && susceptible.View() == IhdGraph(n).states[0]
  {
    susceptible := new MultiTransitionState(IhdSusceptible(n), SelfTransitioning("cause", map[]));
    AddSusceptibleExits(n, susceptible);
  }

  /** The post-MI state with its two rate exits. */
  method NewIhdPostMi(n: IhdNames) returns (postMi: MultiTransitionState)
    ensures fresh(postMi) && postMi.Valid() && postMi.View() == IhdGraph(n).states[2]
  {
    postMi := new MultiTransitionState(IhdPostMi(n), SelfTransitioning("cause", map[]));
    AddPostMiExits(n, postMi);
  }

  /** The four states with at most one exit, wired. */
  method NewIhdSingleExitStates(n: IhdNames) returns (acuteMi: DiseaseNode, hfIhd: DiseaseNode, acuteMiHf: DiseaseNode, hfResidual: DiseaseNode)
    ensures fresh(acuteMi) && fresh(hfIhd) && fresh(acuteMiHf) && fresh(hfResidual)
    ensures acuteMi.View() == IhdGraph(n).states[1] && hfIhd.View() == IhdGraph(n).states[3]
    ensures acuteMiHf.View() == IhdGraph(n).states[4] && hfResidual.View() == IhdGraph(n).states[5]
  {
    acuteMi := new DiseaseNode(IhdAcuteMi(n), SelfTransitioning("cause", map["dwell_time" := ACUTE_DWELL]));
    hfIhd := new DiseaseNode(IhdHfIhd(n), SelfTransitioning("cause", HF_EMR));
    hfResidual := new DiseaseNode(IhdHfResidual(n), SelfTransitioning("cause", HF_EMR));
    acuteMiHf := new DiseaseNode(IhdAcuteMiHf(n), SelfTransitioning("cause", ACUTE_MI_HF_DATA));
    AddLibraryExits(n, acuteMi, hfIhd, acuteMiHf);
  }

  /**
   * `IschemicHeartDiseaseAndHeartFailure`: susceptible and post-MI are multi-transition
   * states, whose rate exits go through their composite transitions; the rest are library
   * states.
   */
  method IschemicHeartDiseaseAndHeartFailure(n: IhdNames)
    returns (name: string, susceptible: MultiTransitionState, acuteMi: DiseaseNode, postMi: MultiTransitionState,
             hfIhd: DiseaseNode, acuteMiHf: DiseaseNode, hfResidual: DiseaseNode)
    ensures susceptible.Valid() && postMi.Valid()
    ensures name == IhdGraph(n).name
    ensures susceptible.View() == IhdGraph(n).states[0] && acuteMi.View() == IhdGraph(n).states[1]
    ensures postMi.View() == IhdGraph(n).states[2] && hfIhd.View() == IhdGraph(n).states[3]
    ensures acuteMiHf.View() == IhdGraph(n).states[4] && hfResidual.View() == IhdGraph(n).states[5]
  {
    susceptible := NewIhdSusceptible(n);
    acuteMi, hfIhd, acuteMiHf, hfResidual := NewIhdSingleExitStates(n);
    postMi := NewIhdPostMi(n);
    name := n.model;
  }

  /** The model lists six states, each keeping its simulants, and every exit stays inside. */
  lemma IhdStates(n: IhdNames)
    ensures Ids(IhdGraph(n).states) == [SusceptibleId(n.model), n.acuteMi, n.postMi, n.hfIhd, n.acuteMiHf, n.hfResidual]
    ensures AllSelfTransitions(IhdGraph(n).states) && Closed(IhdGraph(n).states)
  {
    var g := IhdGraph(n).states;
    var ids := Ids(g);
    assert ids == [SusceptibleId(n.model), n.acuteMi, n.postMi, n.hfIhd, n.acuteMiHf, n.hfResidual];
    forall i, j | 0 <= i < |g| && 0 <= j < |g[i].exits|
      ensures g[i].exits[j].output.stateId in ids
    {
      if i == 0 {
        assert g[0].exits[j].output in [IhdAcuteMi(n), IhdHfIhd(n), IhdHfResidual(n)];
      } else if i == 2 {
        assert g[2].exits[j].output in [IhdAcuteMi(n), IhdHfIhd(n)];
      }
    }
  }

  /**
   * Exactly the two multi-transition states have more than one exit: susceptible has three
   * and post-MI two; every other state has at most one.
   */
  lemma IhdMultiStates(n: IhdNames)
    ensures forall i :: 0 <= i < |IhdGraph(n).states| ==>
      (|IhdGraph(n).states[i].exits| > 1 <==> IsMulti(IhdGraph(n).states[i]))
    ensures |IhdGraph(n).states[0].exits| == 3 && |IhdGraph(n).states[2].exits| == 2
  {
  }

  /** The edges, state by state: susceptible to the three first-event states, and the rest. */
  lemma IhdExitPairs(n: IhdNames)
    ensures ExitPairs(IhdGraph(n).states) == [
      (SusceptibleId(n.model), n.acuteMi), (SusceptibleId(n.model), n.hfIhd), (SusceptibleId(n.model), n.hfResidual),
      (n.acuteMi, n.postMi),
      (n.postMi, n.acuteMi), (n.postMi, n.hfIhd),
      (n.hfIhd, n.acuteMiHf),
      (n.acuteMiHf, n.hfIhd)]
  {
    var g := IhdGraph(n).states;
    assert g[1..][1..][1..][1..][1..][1..] == [];
    assert ExitPairs(g[1..][1..][1..][1..][1..]) == [];
    assert ExitPairs(g[1..][1..][1..][1..]) == [(n.acuteMiHf, n.hfIhd)];
    assert ExitPairs(g[1..][1..][1..]) == [(n.hfIhd, n.acuteMiHf), (n.acuteMiHf, n.hfIhd)];
    assert ExitPairs(g[1..][1..]) == [(n.postMi, n.acuteMi), (n.postMi, n.hfIhd), (n.hfIhd, n.acuteMiHf), (n.acuteMiHf, n.hfIhd)];
    assert ExitPairs(g[1..]) == [(n.acuteMi, n.postMi)] + ExitPairs(g[1..][1..]);
  }

  /**
   * The acute states are left after 28 days, acute MI to post MI and acute MI with heart
   * failure to heart failure from IHD; heart failure from IHD leaves only by rate, to acute MI
   * with heart failure; residual heart failure has no exit.
   */
  lemma IhdDwellAndTerminalStates(n: IhdNames)
    ensures DwellDays(IhdGraph(n).states[1]) == Some(28.0) && DwellDays(IhdGraph(n).states[4]) == Some(28.0)
    ensures IhdGraph(n).states[1].exits == [Exit(IhdPostMi(n), DwellTimeExit, map[], NotTriggered)]
    ensures IhdGraph(n).states[4].exits == [Exit(IhdHfIhd(n), DwellTimeExit, map[], NotTriggered)]
    ensures |IhdGraph(n).states[3].exits| == 1 && IhdGraph(n).states[3].exits[0].kind == RateExit
    ensures IhdGraph(n).states[3].exits[0].output == IhdAcuteMiHf(n)
    ensures IhdGraph(n).states[5].exits == []
  {
  }

  /**
   * With distinct names, each rate exit of the multi-transition states carries its own data:
   * incidence of the target out of susceptible, and transition rates out of post MI.
   */
  lemma IhdMultiExitData(n: IhdNames)
    requires DistinctNames(n)
    ensures IhdGraph(n).states[0].exits == [
      Exit(IhdAcuteMi(n), RateExit, Loading("incidence_rate", "IHD_AND_HF.INCIDENCE_ACUTE_MI"), NotTriggered),
      Exit(IhdHfIhd(n), RateExit, Loading("incidence_rate", "IHD_AND_HF.INCIDENCE_HF_IHD"), NotTriggered),
      Exit(IhdHfResidual(n), RateExit, Loading("incidence_rate", "IHD_AND_HF.INCIDENCE_HF_RESIDUAL"), NotTriggered)]
    ensures IhdGraph(n).states[2].exits == [
      Exit(IhdAcuteMi(n), RateExit, Loading("transition_rate", "IHD_AND_HF.INCIDENCE_ACUTE_MI"), NotTriggered),
      Exit(IhdHfIhd(n), RateExit, Loading("transition_rate", "IHD_AND_HF.INCIDENCE_HF_IHD"), NotTriggered)]
  {
    var ids := [SusceptibleId(n.model), n.acuteMi, n.postMi, n.hfIhd, n.hfResidual, n.acuteMiHf];
    assert ids[1] != ids[3] && ids[1] != ids[4] && ids[3] != ids[4];
  }
}
