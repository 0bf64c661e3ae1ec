/**
 * The older `Causes` component of components/causes.py. It has no multi-transition marking:
 * every state is a susceptible, recovered or plain disease state, self-transitions are
 * switched on after construction by the `allow_self_transitions` key, transitions use the
 * older `add_transition(sink, source_data_type, get_data_functions)`, and data getters have
 * no `module::function` form.
 */
module LegacyCauses {
  import opened Wrappers
  import opened Strings
  import opened Library
  import opened CausesParser
  import Disease

  /** The component's name. */
  const NAME := "causes"

  /** A state's configuration; this component reads the key `allow_self_transitions`. */
  datatype LegacyStateConfig = LegacyStateConfig(
    causeType: Option<string>,
    allowSelfTransitions: Option<bool>,
    sideEffect: Option<bool>,
    cleanupFunction: Option<bool>,
    getDataFunctions: Option<GetterConfig>)

  datatype LegacyCauseConfig = LegacyCauseConfig(
    states: seq<(string, LegacyStateConfig)>, transitions: seq<(string, TransitionConfig)>)

  datatype LegacyStateSettings = LegacyStateSettings(
    causeType: string, allowSelfTransitions: bool, sideEffect: bool, cleanupFunction: bool,
    getDataFunctions: Option<GetterConfig>)

  /** The default layer: cause type "cause", self-transitions allowed, no side effect or cleanup. */
  function ResolveLegacyState(s: LegacyStateConfig): (r: LegacyStateSettings)
    ensures r.causeType == (if s.causeType.Some? then s.causeType.value else "cause")
    ensures r.allowSelfTransitions == (s.allowSelfTransitions.None? || s.allowSelfTransitions.value)
    ensures r.sideEffect == (s.sideEffect.Some? && s.sideEffect.value)
    ensures r.cleanupFunction == (s.cleanupFunction.Some? && s.cleanupFunction.value)
    ensures r.getDataFunctions == s.getDataFunctions
  {
    LegacyStateSettings(
      if s.causeType.Some? then s.causeType.value else "cause",
      if s.allowSelfTransitions.Some? then s.allowSelfTransitions.value else true,
      if s.sideEffect.Some? then s.sideEffect.value else false,
      if s.cleanupFunction.Some? then s.cleanupFunction.value else false,
      s.getDataFunctions)
  }

  /** `get_data_getter`: a float, a duration, a target string, else a ValueError. */
  function LegacyGetDataGetter(name: string, getter: GetterValue, env: Environment): (r: Result<Getter>)
    ensures r.Err? ==> r.error.ValueError?
    ensures r.Ok? ==> !r.value.Method?
    ensures getter.FloatValue? ==> r == Ok(Constant(getter.x))
    ensures getter.Text? && env.timedelta(getter.s).Some? ==> r == Ok(Duration(env.timedelta(getter.s).value))
    ensures getter.Text? && env.timedelta(getter.s).None? ==>
      (r.Ok? <==> IsTargetString(getter.s)) && (r.Ok? ==> r.value == Load(getter.s))
  {
    match getter
    case FloatValue(x) => Ok(Constant(x))
    case Text(s) =>
      if env.timedelta(s).Some? then Ok(Duration(env.timedelta(s).value))
      else if IsTargetString(s) then Ok(Load(s))
      else Err(ValueError("Invalid data getter '" + s + "' for '" + name + "'."))
  }

  /** Without "::" in a string, the older parser classifies a getter exactly as the newer one. */
  lemma LegacyGetterAgrees(name: string, getter: GetterValue, env: Environment)
    requires getter.Text? ==> !Contains(getter.s, "::")
    ensures LegacyGetDataGetter(name, getter, env) == GetDataGetter(name, getter, env)
  {
  }

  /** The getters of a mapping, the first failing entry's error raised. */
  function LegacyGetters(entries: Option<GetterConfig>, env: Environment): (r: Result<DataFunctions>)
    ensures entries.None? ==> r == Ok(map[])
    ensures entries.Some? ==> (r.Ok? <==> forall i :: 0 <= i < |entries.value| ==>
      LegacyGetDataGetter(entries.value[i].0, entries.value[i].1, env).Ok?)
    ensures r.Err? ==> r.error.ValueError?
    decreases if entries.Some? then |entries.value| else 0
  {
    if entries.None? || entries.value == [] then Ok(map[])
    else
      var e := entries.value;
      var g :- LegacyGetDataGetter(e[0].0, e[0].1, env);
      var rest :- LegacyGetters(Some(e[1..]), env);
      Ok(map[e[0].0 := g] + rest)
  }

  /**
   * `get_state`: "susceptible" and "recovered" become those states of the cause, any other
   * name a disease state of that name; self-transitions are switched on afterwards exactly
   * when the configuration allows them.
   */
  function LegacyGetState(stateName: string, s: LegacyStateSettings, causeName: string,
                          env: Environment): (r: Result<StateSpec>)
    ensures r.Ok? <==> LegacyGetters(s.getDataFunctions, env).Ok?
    ensures r.Ok? ==> r.value.ref.kind in {Susceptible, Recovered, Disease} && r.value.exits == []
    ensures r.Ok? ==> (r.value.ref.kind == Susceptible <==> stateName == "susceptible")
    ensures r.Ok? ==> (r.value.ref.kind == Recovered <==> stateName == "recovered")
    ensures r.Ok? && stateName == "susceptible" ==> r.value.ref.stateId == SusceptibleId(causeName)
    ensures r.Ok? && stateName == "recovered" ==> r.value.ref.stateId == RecoveredId(causeName)
    ensures r.Ok? && stateName != "susceptible" && stateName != "recovered" ==> r.value.ref.stateId == stateName
    ensures r.Ok? ==> r.value.selfTransition == s.allowSelfTransitions && !r.value.options.allowSelfTransition
    ensures r.Ok? ==> (r.value.options.causeType, r.value.options.sideEffect, r.value.options.cleanupFunction)
                      == (s.causeType, s.sideEffect, s.cleanupFunction)
  {
    var data :- LegacyGetters(s.getDataFunctions, env);
    var options := StateOptions(s.causeType, false, s.sideEffect, s.cleanupFunction, data);
    var ref :=
      if stateName == "susceptible" then StateRef(Susceptible, SusceptibleId(causeName))
      else if stateName == "recovered" then StateRef(Recovered, RecoveredId(causeName))
      else StateRef(Disease, stateName);
    Ok(StateSpec(ref, options, s.allowSelfTransitions, []))
  }

  /**
   * One transition of `get_disease_models`: the getters are parsed first, then the source
   * and sink looked up (KeyError), then the older `add_transition` appends a rate or a
   * proportion exit; any other data type is a ValueError.
   */
  function LegacyAddTransition(m: map<string, StateSpec>, t: TransitionConfig, env: Environment)
    : (r: Result<map<string, StateSpec>>)
    ensures LegacyGetters(t.getDataFunctions, env).Err? ==> r == Err(LegacyGetters(t.getDataFunctions, env).error)
    ensures LegacyGetters(t.getDataFunctions, env).Ok? && t.source !in m ==> r == Err(KeyError(t.source))
    ensures r.Ok? <==> (LegacyGetters(t.getDataFunctions, env).Ok? && t.source in m && t.sink in m &&
                        t.dataType in {"rate", "proportion"})
    ensures r.Ok? ==> r.value == m[t.source := m[t.source].(exits := m[t.source].exits + [
      Exit(m[t.sink].ref, if t.dataType == "rate" then RateExit else ProportionExit,
           LegacyGetters(t.getDataFunctions, env).value, NotTriggered)])]
  {
    var data :- LegacyGetters(t.getDataFunctions, env);
    if t.source !in m then Err(KeyError(t.source))
    else if t.sink !in m then Err(KeyError(t.sink))
    else if t.dataType == "rate" || t.dataType == "proportion" then
      var kind := if t.dataType == "rate" then RateExit else ProportionExit;
      var s := m[t.source];
      Ok(m[t.source := s.(exits := s.exits + [Exit(m[t.sink].ref, kind, data, NotTriggered)])])
    else Err(ValueError("Unrecognized data type " + t.dataType))
  }

  function LegacyStatesFrom(acc: map<string, StateSpec>, states: seq<(string, LegacyStateConfig)>, causeName: string,
                            env: Environment): (r: Result<map<string, StateSpec>>)
    decreases |states|
    ensures r.Ok? ==> r.value.Keys == acc.Keys + KeySet(states)
  {
    if states == [] then Ok(acc)
    else
      var st :- LegacyGetState(states[0].0, ResolveLegacyState(states[0].1), causeName, env);
      assert KeySet(states) == {states[0].0} + KeySet(states[1..]) by {
        assert Keys(states) == [states[0].0] + Keys(states[1..]);
      }
      LegacyStatesFrom(acc[states[0].0 := st], states[1..], causeName, env)
  }

  function LegacyWire(m: map<string, StateSpec>, ts: seq<(string, TransitionConfig)>, env: Environment)
    : (r: Result<map<string, StateSpec>>)
    decreases |ts|
    ensures r.Ok? ==> r.value.Keys == m.Keys
  {
    if ts == [] then Ok(m)
    else
      var m1 :- LegacyAddTransition(m, ts[0].1, env);
      LegacyWire(m1, ts[1..], env)
  }

  /** One cause's model under the older component, states in configuration order. */
  function LegacyBuildCause(causeName: string, c: LegacyCauseConfig, env: Environment)
    : (r: Result<Disease.Graph>)
    ensures r.Ok? ==> r.value.name == causeName && |r.value.states| == |c.states|
  {
    var m :- LegacyStatesFrom(map[], c.states, causeName, env);
    var wired :- LegacyWire(m, c.transitions, env);
    assert forall i :: 0 <= i < |c.states| ==> c.states[i].0 in KeySet(c.states);
    Ok(Disease.Graph(causeName, seq(|c.states|, i requires 0 <= i < |c.states| => wired[c.states[i].0])))
  }

  function LegacyBuildFrom(acc: seq<Disease.Graph>, causes: seq<(string, LegacyCauseConfig)>,
                           env: Environment): (r: Result<seq<Disease.Graph>>)
    decreases |causes|
    ensures r.Ok? ==> |r.value| == |acc| + |causes|
  {
    if causes == [] then Ok(acc)
    else
      var g :- LegacyBuildCause(causes[0].0, causes[0].1, env);
      LegacyBuildFrom(acc + [g], causes[1..], env)
  }

  /** `get_disease_models`: defaults first, then for each cause its states and then its transitions. */
  method GetDiseaseModels(causes: seq<(string, LegacyCauseConfig)>, env: Environment)
    returns (r: Result<seq<Disease.Graph>>)
    ensures r == LegacyBuildFrom([], causes, env)
  {
    var models: seq<Disease.Graph> := [];
    for k := 0 to |causes|
      invariant LegacyBuildFrom([], causes, env) == LegacyBuildFrom(models, causes[k..], env)
    {
      assert causes[k..][1..] == causes[k + 1..];
      var c := causes[k].1;
      var states: map<string, StateSpec> := map[];
      for j := 0 to |c.states|
        invariant LegacyStatesFrom(map[], c.states, causes[k].0, env) ==
          LegacyStatesFrom(states, c.states[j..], causes[k].0, env)
      {
        assert c.states[j..][1..] == c.states[j + 1..];
        var st := LegacyGetState(c.states[j].0, ResolveLegacyState(c.states[j].1), causes[k].0, env);
        if st.Err? {
          return Err(st.error);
        }
        states := states[c.states[j].0 := st.value];
      }
      assert c.states[|c.states|..] == [];
      ghost var built := states;
      for j := 0 to |c.transitions|
        invariant LegacyWire(built, c.transitions, env) == LegacyWire(states, c.transitions[j..], env)
      {
        assert c.transitions[j..][1..] == c.transitions[j + 1..];
        var next := LegacyAddTransition(states, c.transitions[j].1, env);
        if next.Err? {
          return Err(next.error);
        }
        states := next.value;
      }
      assert c.transitions[|c.transitions|..] == [];
      assert forall i :: 0 <= i < |c.states| ==> c.states[i].0 in KeySet(c.states);
      models := models + [Disease.Graph(causes[k].0, seq(|c.states|, i requires 0 <= i < |c.states| => states[c.states[i].0]))];
    }
    assert causes[|causes|..] == [];
    r := Ok(models);
  }

  /**
   * In a model of the older component, each state has one exit per transition configured
   * from it; no state is ever a multi-transition state, whatever its number of exits.
   */
  lemma {:induction false} LegacyWireEffect(m: map<string, StateSpec>, ts: seq<(string, TransitionConfig)>,
                                            env: Environment)
    requires LegacyWire(m, ts, env).Ok?
    ensures forall k :: k in m ==> LegacyWire(m, ts, env).value[k].(exits := m[k].exits) == m[k]
    ensures forall k :: k in m ==>
      |LegacyWire(m, ts, env).value[k].exits| == |m[k].exits| + SourceCount(Sources(ts), k)
    decreases |ts|
  {
    if ts != [] {
      var m1 := LegacyAddTransition(m, ts[0].1, env).value;
      LegacyWireEffect(m1, ts[1..], env);
      assert Sources(ts)[1..] == Sources(ts[1..]);
      forall k | k in m
        ensures |LegacyWire(m, ts, env).value[k].exits| == |m[k].exits| + SourceCount(Sources(ts), k)
      {
        SourceCountFront(Sources(ts), k);
      }
    }
  }

  /** Every state the older component builds is a susceptible, recovered or plain disease state. */
  lemma {:induction false} LegacyStatesAreSingleExitKinds(acc: map<string, StateSpec>, states: seq<(string, LegacyStateConfig)>,
                                                           causeName: string, env: Environment)
    requires LegacyStatesFrom(acc, states, causeName, env).Ok?
    requires forall k :: k in acc ==> acc[k].ref.kind in {Susceptible, Recovered, Disease}
    ensures forall k :: k in LegacyStatesFrom(acc, states, causeName, env).value ==>
      LegacyStatesFrom(acc, states, causeName, env).value[k].ref.kind in {Susceptible, Recovered, Disease}
    decreases |states|
  {
    if states != [] {
      var st := LegacyGetState(states[0].0, ResolveLegacyState(states[0].1), causeName, env).value;
      LegacyStatesAreSingleExitKinds(acc[states[0].0 := st], states[1..], causeName, env);
    }
  }
}
