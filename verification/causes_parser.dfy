/**
 * The configuration parser of plugins/causes_parser.py: a `causes` configuration (per cause, an
 * ordered mapping of states and one of transitions) is marked, given defaults and turned into
 * one disease model per cause. Configuration trees are values here: each step takes the tree
 * and returns the updated one. Built states are their `StateSpec` values.
 */
module CausesParser {
  import opened Wrappers
  import opened Strings
  import opened Library
  import State
  import Disease

  // ---------------------------------------------------------------------------------
  // Configuration values
  // ---------------------------------------------------------------------------------

  /** A data getter as written in the configuration: a float or a string. */
  datatype GetterValue = FloatValue(x: real) | Text(s: string)

  /** `get_data_functions`: measure name to getter, in order. */
  type GetterConfig = seq<(string, GetterValue)>

  /** A state's configuration as given; an absent key is `None`. */
  datatype StateConfig = StateConfig(
    causeType: Option<string>,
    isMultiTransition: Option<bool>,
    transient: Option<bool>,
    allowSelfTransition: Option<bool>,
    sideEffect: Option<bool>,
    cleanupFunction: Option<bool>,
    getDataFunctions: Option<GetterConfig>)

  datatype TransitionConfig = TransitionConfig(
    source: string, sink: string, dataType: string, triggered: Option<string>,
    getDataFunctions: Option<GetterConfig>)

  datatype CauseConfig = CauseConfig(
    states: seq<(string, StateConfig)>, transitions: seq<(string, TransitionConfig)>)

  /** The `causes` key: cause name to cause configuration, in order. */
  type CausesConfig = seq<(string, CauseConfig)>

  /** A state's configuration once every key has a value. */
  datatype StateSettings = StateSettings(
    causeType: string,
    isMultiTransition: bool,
    transient: bool,
    allowSelfTransition: bool,
    sideEffect: bool,
    cleanupFunction: bool,
    getDataFunctions: Option<GetterConfig>)

  datatype TransitionSettings = TransitionSettings(
    source: string, sink: string, dataType: string, triggered: string,
    getDataFunctions: Option<GetterConfig>)

  datatype CauseSettings = CauseSettings(
    states: seq<(string, StateSettings)>, transitions: seq<(string, TransitionSettings)>)

  type CausesSettings = seq<(string, CauseSettings)>

  /** The keys of an ordered mapping. */
  function Keys<T>(entries: seq<(string, T)>): (r: seq<string>)
    ensures |r| == |entries| && forall i :: 0 <= i < |entries| ==> r[i] == entries[i].0
  {
    seq(|entries|, i requires 0 <= i < |entries| => entries[i].0)
  }

  function KeySet<T>(entries: seq<(string, T)>): set<string>
  {
    set n | n in Keys(entries)
  }

  /** A mapping's keys are pairwise different, as a dictionary's are. */
  predicate Keyed<T>(entries: seq<(string, T)>)
  {
    forall i, j :: 0 <= i < j < |entries| ==> entries[i].0 != entries[j].0
  }

  // ---------------------------------------------------------------------------------
  // mark_multi_transition_states
  // ---------------------------------------------------------------------------------

  /** The source state of each transition, in order. */
  function Sources(ts: seq<(string, TransitionConfig)>): (r: seq<string>)
    ensures |r| == |ts| && forall i :: 0 <= i < |ts| ==> r[i] == ts[i].1.source
  {
    seq(|ts|, i requires 0 <= i < |ts| => ts[i].1.source)
  }

  /** How many of the transitions leave `s`. */
  function SourceCount(sources: seq<string>, s: string): nat
  {
    if sources == [] then 0
    else SourceCount(sources[..|sources| - 1], s) + (if sources[|sources| - 1] == s then 1 else 0)
  }

  /** The same count, taken from the front. */
  lemma {:induction false} SourceCountFront(sources: seq<string>, s: string)
    requires sources != []
    ensures SourceCount(sources, s) == (if sources[0] == s then 1 else 0) + SourceCount(sources[1..], s)
  {
    if |sources| > 1 {
      var init := sources[..|sources| - 1];
      SourceCountFront(init, s);
      assert init[1..] == sources[1..][..|sources[1..]| - 1];
    } else {
      assert sources[..0] == [] && sources[1..] == [];
    }
  }

  /**
   * A count above 1 means two different transitions leave `s`, and conversely; a state no
   * transition leaves has count 0.
   */
  lemma {:induction false} SeveralSourcesIff(sources: seq<string>, s: string)
    ensures SourceCount(sources, s) > 1 <==>
      exists i, j :: 0 <= i < j < |sources| && sources[i] == s && sources[j] == s
    ensures SourceCount(sources, s) == 0 <==> s !in sources
  {
    if sources != [] {
      var init := sources[..|sources| - 1];
      var last := |sources| - 1;
      SeveralSourcesIff(init, s);
      if SourceCount(init, s) > 1 {
        var i, j :| 0 <= i < j < |init| && init[i] == s && init[j] == s;
        assert sources[i] == s && sources[j] == s;
      }
      if SourceCount(sources, s) > 1 && SourceCount(init, s) <= 1 {
        assert sources[last] == s && SourceCount(init, s) == 1;
        assert s in init;
        var i :| 0 <= i < |init| && init[i] == s;
        assert sources[i] == s && i < last;
      }
      if exists i, j :: 0 <= i < j < |sources| && sources[i] == s && sources[j] == s {
        var i, j :| 0 <= i < j < |sources| && sources[i] == s && sources[j] == s;
        if j < last {
          assert init[i] == s && init[j] == s;
        } else {
          assert init[i] == s;
        }
      }
      assert s in sources <==> s in init || sources[last] == s by {
        FrontAndLast(sources);
      }
    }
  }

  /** The first transition source that is not one of the states, if any. */
  function UnknownSource(states: set<string>, sources: seq<string>): (r: Option<string>)
    ensures r.None? <==> forall i :: 0 <= i < |sources| ==> sources[i] in states
    ensures r.Some? ==> r.value !in states && r.value in sources
  {
    if sources == [] then None
    else if sources[0] !in states then Some(sources[0])
    else UnknownSource(states, sources[1..])
  }

  /**
   * The counting loop for one cause: every state starts at 0 and each transition adds 1 to
   * its source; a source that is not a state is a KeyError.
   */
  method CountTransitions(c: CauseConfig) returns (r: Result<map<string, nat>>)
    ensures var names := KeySet(c.states);
      match UnknownSource(names, Sources(c.transitions))
      case Some(bad) => r == Err(KeyError(bad))
      case None => (r.Ok? && r.value.Keys == names &&
        forall s :: s in names ==> r.value[s] == SourceCount(Sources(c.transitions), s))
  {
    var names := KeySet(c.states);
    var srcs := Sources(c.transitions);
    var counts := map s | s in names :: 0;
    for k := 0 to |srcs|
      invariant counts.Keys == names
      invariant UnknownSource(names, srcs) == UnknownSource(names, srcs[k..])
      invariant forall s :: s in names ==> counts[s] == SourceCount(srcs[..k], s)
    {
      PrefixOfPrefix(srcs, k, k + 1);
      assert srcs[k..][1..] == srcs[k + 1..];
      if srcs[k] !in counts {
        return Err(KeyError(srcs[k]));
      }
      counts := counts[srcs[k] := counts[srcs[k]] + 1];
    }
    assert srcs[..|srcs|] == srcs;
    assert srcs[|srcs|..] == [];
    r := Ok(counts);
  }

  /** The cause with each state's `is_multi_transition` set from its count; user values are overridden. */
  function MarkCause(c: CauseConfig): (r: CauseConfig)
    ensures r.transitions == c.transitions && Keys(r.states) == Keys(c.states)
    ensures forall i :: 0 <= i < |c.states| ==>
      r.states[i].1 == c.states[i].1.(isMultiTransition := Some(SourceCount(Sources(c.transitions), c.states[i].0) > 1))
  {
    var srcs := Sources(c.transitions);
    var states := seq(|c.states|, i requires 0 <= i < |c.states| =>
      (c.states[i].0, c.states[i].1.(isMultiTransition := Some(SourceCount(srcs, c.states[i].0) > 1))));
    CauseConfig(states, c.transitions)
  }

  /** The first unknown transition source over all causes, in cause order. */
  function UnknownSourceOfAll(causes: CausesConfig): Option<string>
  {
    if causes == [] then None
    else match UnknownSource(KeySet(causes[0].1.states), Sources(causes[0].1.transitions))
      case Some(bad) => Some(bad)
      case None => UnknownSourceOfAll(causes[1..])
  }

  /** The first unknown source from cause `k` on: cause `k`'s own, else the one after it. */
  lemma UnknownSourceFrom(causes: CausesConfig, k: nat)
    requires k < |causes|
    ensures UnknownSourceOfAll(causes[k..]) ==
      match UnknownSource(KeySet(causes[k].1.states), Sources(causes[k].1.transitions))
      case Some(bad) => Some(bad)
      case None => UnknownSourceOfAll(causes[k + 1..])
  {
    assert causes[k..][1..] == causes[k + 1..];
  }

  /**
   * `mark_multi_transition_states`: all counts are taken first (a KeyError leaves the
   * configuration unmarked), then every state of every cause is marked.
   */
  method MarkMultiTransitionStates(causes: CausesConfig) returns (r: Result<CausesConfig>)
    ensures UnknownSourceOfAll(causes).Some? ==> r == Err(KeyError(UnknownSourceOfAll(causes).value))
    ensures UnknownSourceOfAll(causes).None? ==>
      r.Ok? && |r.value| == |causes| &&
      forall i :: 0 <= i < |causes| ==> r.value[i] == (causes[i].0, MarkCause(causes[i].1))
  {
    var marked: CausesConfig := [];
    for k := 0 to |causes|
      invariant |marked| == k
      invariant forall i :: 0 <= i < k ==> marked[i] == (causes[i].0, MarkCause(causes[i].1))
      invariant UnknownSourceOfAll(causes) == UnknownSourceOfAll(causes[k..])
    {
      UnknownSourceFrom(causes, k);
      var counts := CountTransitions(causes[k].1);
      if counts.Err? {
        return Err(counts.error);
      }
      marked := marked + [(causes[k].0, MarkCause(causes[k].1))];
    }
    assert causes[|causes|..] == [];
    r := Ok(marked);
  }

  // ---------------------------------------------------------------------------------
  // add_default_config_layer
  // ---------------------------------------------------------------------------------

  /**
   * A state's settings: every key the configuration sets keeps its value; the defaults are
   * cause type "cause", not multi-transition, not transient, self-transitions allowed, and
   * no side effect or cleanup function.
   */
  function ResolveState(s: StateConfig): (r: StateSettings)
    ensures r.causeType == (if s.causeType.Some? then s.causeType.value else "cause")
    ensures r.isMultiTransition == (s.isMultiTransition.Some? && s.isMultiTransition.value)
    ensures r.transient == (s.transient.Some? && s.transient.value)
    ensures r.allowSelfTransition == (s.allowSelfTransition.None? || s.allowSelfTransition.value)
    ensures r.sideEffect == (s.sideEffect.Some? && s.sideEffect.value)
    ensures r.cleanupFunction == (s.cleanupFunction.Some? && s.cleanupFunction.value)
    ensures r.getDataFunctions == s.getDataFunctions
  {
    StateSettings(
      if s.causeType.Some? then s.causeType.value else "cause",
      if s.isMultiTransition.Some? then s.isMultiTransition.value else false,
      if s.transient.Some? then s.transient.value else false,
      if s.allowSelfTransition.Some? then s.allowSelfTransition.value else true,
      if s.sideEffect.Some? then s.sideEffect.value else false,
      if s.cleanupFunction.Some? then s.cleanupFunction.value else false,
      s.getDataFunctions)
  }

  /** A transition's settings: `triggered` defaults to "NOT_TRIGGERED". */
  function ResolveTransition(t: TransitionConfig): (r: TransitionSettings)
    ensures r.triggered == (if t.triggered.Some? then t.triggered.value else "NOT_TRIGGERED")
    ensures (r.source, r.sink, r.dataType, r.getDataFunctions) == (t.source, t.sink, t.dataType, t.getDataFunctions)
  {
    TransitionSettings(t.source, t.sink, t.dataType,
      if t.triggered.Some? then t.triggered.value else "NOT_TRIGGERED", t.getDataFunctions)
  }

  function ResolveCause(c: CauseConfig): (r: CauseSettings)
    ensures Keys(r.states) == Keys(c.states) && Keys(r.transitions) == Keys(c.transitions)
    ensures forall i :: 0 <= i < |c.states| ==> r.states[i].1 == ResolveState(c.states[i].1)
    ensures forall i :: 0 <= i < |c.transitions| ==> r.transitions[i].1 == ResolveTransition(c.transitions[i].1)
  {
    CauseSettings(
      seq(|c.states|, i requires 0 <= i < |c.states| => (c.states[i].0, ResolveState(c.states[i].1))),
      seq(|c.transitions|, i requires 0 <= i < |c.transitions| =>
        (c.transitions[i].0, ResolveTransition(c.transitions[i].1))))
  }

  /** `add_default_config_layer`: the default layer sits under every cause's own values. */
  method AddDefaultConfigLayer(causes: CausesConfig) returns (r: CausesSettings)
    ensures |r| == |causes|
    ensures forall i :: 0 <= i < |causes| ==> r[i] == (causes[i].0, ResolveCause(causes[i].1))
  {
    r := [];
    for k := 0 to |causes|
      invariant |r| == k
      invariant forall i :: 0 <= i < k ==> r[i] == (causes[i].0, ResolveCause(causes[i].1))
    {
      r := r + [(causes[k].0, ResolveCause(causes[k].1))];
    }
  }

  /** Once marked, a state's multi-transition setting is its count, whatever the user wrote. */
  lemma MarkedThenDefaulted(c: CauseConfig, i: nat)
    requires i < |c.states|
    ensures ResolveCause(MarkCause(c)).states[i].1.isMultiTransition ==
      (SourceCount(Sources(c.transitions), c.states[i].0) > 1)
    ensures ResolveCause(MarkCause(c)).states[i].1 ==
      ResolveState(c.states[i].1).(isMultiTransition := SourceCount(Sources(c.transitions), c.states[i].0) > 1)
  {
  }

  // ---------------------------------------------------------------------------------
  // get_data_getter
  // ---------------------------------------------------------------------------------

  /** `TargetString`: exactly three dot-separated fields, `type.name.measure`. */
  predicate IsTargetString(s: string)
  {
    |Split(s, ".")| == 3
  }

  /**
   * What the import system gives for `getattr(import_module(module), name)` once the module
   * name is well formed: the function, no such module, or no such attribute of the module.
   */
  datatype ImportOutcome = Found | ModuleMissing | AttributeMissing

  /**
   * The parser's environment: `pd.Timedelta` on a string (a duration in days, or None where it
   * raises ValueError) and the import system.
   */
  datatype Environment = Environment(timedelta: string -> Option<real>, importAttribute: (string, string) -> ImportOutcome)

  /** The exceptions `get_data_getter` can raise. */
  predicate GetterError(e: Exception)
  {
    e.ValueError? || e.TypeError? || e.ModuleNotFoundError? || e.AttributeError?
  }

  /**
   * `getattr(import_module(moduleName), function_)`: an empty module name is a ValueError and a
   * relative one (a leading ".") a TypeError, as no package is passed; otherwise the import
   * system finds the module and its attribute, or raises ModuleNotFoundError or AttributeError.
   */
  function ImportFunction(moduleName: string, function_: string, env: Environment): (r: Result<Getter>)
    ensures r.Ok? <==> moduleName != "" && moduleName[0] != '.' && env.importAttribute(moduleName, function_) == Found
    ensures r.Ok? ==> r.value == Method(moduleName, function_)
    ensures r.Err? ==> GetterError(r.error)
    ensures moduleName == "" ==> r == Err(ValueError("Empty module name"))
    ensures moduleName != "" && moduleName[0] == '.' ==> r.Err? && r.error.TypeError?
    ensures moduleName != "" && moduleName[0] != '.' && env.importAttribute(moduleName, function_) == ModuleMissing ==>
      r == Err(ModuleNotFoundError("No module named '" + moduleName + "'"))
    ensures moduleName != "" && moduleName[0] != '.' && env.importAttribute(moduleName, function_) == AttributeMissing ==>
      r == Err(AttributeError(function_))
  {
    if moduleName == "" then Err(ValueError("Empty module name"))
    else if moduleName[0] == '.' then
      Err(TypeError("the 'package' argument is required to perform a relative import for '" + moduleName + "'"))
    else
      match env.importAttribute(moduleName, function_)
      case Found => Ok(Method(moduleName, function_))
      case ModuleMissing => Err(ModuleNotFoundError("No module named '" + moduleName + "'"))
      case AttributeMissing => Err(AttributeError(function_))
  }

  /**
   * `get_data_getter`, tried in order: a float is a constant; a string `pd.Timedelta` accepts
   * (`env.timedelta`, in days) is a duration; a string holding "::" names `module::function`,
   * must split into exactly two pieces and is imported; a target string is loaded from the
   * artifact; anything else is a ValueError.
   */
  function GetDataGetter(name: string, getter: GetterValue, env: Environment): (r: Result<Getter>)
    ensures r.Err? ==> GetterError(r.error)
    ensures getter.FloatValue? ==> r == Ok(Constant(getter.x))
    ensures getter.Text? && env.timedelta(getter.s).Some? ==> r == Ok(Duration(env.timedelta(getter.s).value))
    ensures r.Ok? && r.value.Method? ==>
      getter.Text? && env.timedelta(getter.s).None? && getter.s == r.value.moduleName + "::" + r.value.name &&
      env.importAttribute(r.value.moduleName, r.value.name) == Found
    ensures getter.Text? && env.timedelta(getter.s).None? && Contains(getter.s, "::") ==>
      var parts := Split(getter.s, "::");
      (|parts| == 2 ==> r == ImportFunction(parts[0], parts[1], env)) &&
      (|parts| != 2 ==> r.Err? && r.error.ValueError?)
    ensures getter.Text? && env.timedelta(getter.s).None? && !Contains(getter.s, "::") ==>
      (r.Ok? <==> IsTargetString(getter.s)) && (r.Ok? ==> r.value == Load(getter.s))
  {
    match getter
    case FloatValue(x) => Ok(Constant(x))
    case Text(s) =>
      if env.timedelta(s).Some? then Ok(Duration(env.timedelta(s).value))
      else if Contains(s, "::") then
        var parts := Split(s, "::");
        if |parts| != 2 then Err(ValueError("wrong number of values to unpack"))
        else
          JoinSplit(s, "::");
          ImportFunction(parts[0], parts[1], env)
      else if IsTargetString(s) then Ok(Load(s))
      else Err(ValueError("Invalid data getter '" + s + "' for '" + name + "'."))
  }

  /**
   * A colon-free module path and function name joined by "::" parse back to that pair, which
   * is then imported: a function exactly when the module name is non-empty and absolute and the
   * import system finds the function.
   */
  lemma MethodGetterRoundTrip(name: string, moduleName: string, function_: string, env: Environment)
    requires Lacks(moduleName, ':') && Lacks(function_, ':')
    requires env.timedelta(moduleName + "::" + function_).None?
    ensures GetDataGetter(name, Text(moduleName + "::" + function_), env) == ImportFunction(moduleName, function_, env)
  {
    var s := moduleName + "::" + function_;
    assert "::"[..0] == [];
    SplitJoin([moduleName, function_], "::", 0);
    assert Join([moduleName, function_], "::") == s;
    assert MatchAt(s, "::", |moduleName|);
  }

  /** A colon-free `type.name.measure` string with dot-free fields is loaded under that key. */
  lemma TargetGetterRoundTrip(name: string, kind: string, entity: string, measure: string, env: Environment)
    requires Lacks(kind, '.') && Lacks(entity, '.') && Lacks(measure, '.')
    requires Lacks(kind, ':') && Lacks(entity, ':') && Lacks(measure, ':')
    requires env.timedelta(kind + "." + entity + "." + measure).None?
    ensures GetDataGetter(name, Text(kind + "." + entity + "." + measure), env) ==
      Ok(Load(kind + "." + entity + "." + measure))
  {
    TargetStringShape(kind, entity, measure);
  }

  /** Three dot-free, colon-free fields joined by dots make a target string without "::". */
  lemma TargetStringShape(kind: string, entity: string, measure: string)
    requires Lacks(kind, '.') && Lacks(entity, '.') && Lacks(measure, '.')
    requires Lacks(kind, ':') && Lacks(entity, ':') && Lacks(measure, ':')
    ensures IsTargetString(kind + "." + entity + "." + measure)
    ensures !Contains(kind + "." + entity + "." + measure, "::")
  {
    var s := kind + "." + entity + "." + measure;
    assert "."[..0] == [];
    SplitJoin([kind, entity, measure], ".", 0);
    ThreeFieldJoin(kind, entity, measure);
    TargetStringColonFree(kind, entity, measure);
    SplitWithout(s, "::", ':');
  }

  lemma ThreeFieldJoin(kind: string, entity: string, measure: string)
    ensures Join([kind, entity, measure], ".") == kind + "." + entity + "." + measure
  {
    assert [kind, entity, measure][1..] == [entity, measure] && [entity, measure][1..] == [measure];
    assert Join([entity, measure], ".") == entity + "." + measure;
  }

  lemma TargetStringColonFree(kind: string, entity: string, measure: string)
    requires Lacks(kind, ':') && Lacks(entity, ':') && Lacks(measure, ':')
    ensures Lacks(kind + "." + entity + "." + measure, ':')
  {
  }

  /** The getters of a `get_data_functions` mapping; the first failing entry's error is raised. */
  function GetDataGetters(entries: GetterConfig, env: Environment): (r: Result<DataFunctions>)
    ensures r.Ok? <==> forall i :: 0 <= i < |entries| ==> GetDataGetter(entries[i].0, entries[i].1, env).Ok?
    ensures r.Err? ==> GetterError(r.error)
    ensures r.Ok? ==> r.value.Keys == KeySet(entries)
  {
    if entries == [] then Ok(map[])
    else
      var g :- GetDataGetter(entries[0].0, entries[0].1, env);
      var rest :- GetDataGetters(entries[1..], env);
      assert KeySet(entries) == {entries[0].0} + KeySet(entries[1..]) by {
        assert Keys(entries) == [entries[0].0] + Keys(entries[1..]);
      }
      Ok(map[entries[0].0 := g] + rest)
  }

  /** With distinct measure names, each measure maps to the getter parsed from its own entry. */
  lemma {:induction false} GettersPerEntry(entries: GetterConfig, env: Environment, i: nat)
    requires Keyed(entries) && i < |entries| && GetDataGetters(entries, env).Ok?
    ensures GetDataGetters(entries, env).value[entries[i].0] ==
      GetDataGetter(entries[i].0, entries[i].1, env).value
  {
    var g, rest := GettersCons(entries, env);
    if i == 0 {
      assert entries[0].0 !in rest.Keys;
    } else {
      GettersPerEntry(entries[1..], env, i - 1);
      assert entries[1..][i - 1] == entries[i];
    }
  }

  /** A mapping whose getters all parse: its first getter over the getters of the rest. */
  lemma GettersCons(entries: GetterConfig, env: Environment) returns (g: Getter, rest: DataFunctions)
    requires |entries| > 0 && GetDataGetters(entries, env).Ok?
    ensures GetDataGetter(entries[0].0, entries[0].1, env) == Ok(g)
    ensures GetDataGetters(entries[1..], env) == Ok(rest)
    ensures rest.Keys == KeySet(entries[1..])
    ensures GetDataGetters(entries, env).value == map[entries[0].0 := g] + rest
  {
    forall j | 0 <= j < |entries[1..]|
      ensures GetDataGetter(entries[1..][j].0, entries[1..][j].1, env).Ok?
    {
      assert entries[1..][j] == entries[j + 1];
    }
    g := GetDataGetter(entries[0].0, entries[0].1, env).value;
    rest := GetDataGetters(entries[1..], env).value;
  }

  /** The data functions a configuration gives; none given is the empty mapping. */
  function DataOf(entries: Option<GetterConfig>, env: Environment): (r: Result<DataFunctions>)
    ensures entries.None? ==> r == Ok(map[])
    ensures entries.Some? ==> r == GetDataGetters(entries.value, env)
  {
    if entries.Some? then GetDataGetters(entries.value, env) else Ok(map[])
  }

  // ---------------------------------------------------------------------------------
  // get_state
  // ---------------------------------------------------------------------------------

  /**
   * The state class, first match wins: transient; multi-transition "susceptible"; any other
   * multi-transition state; "susceptible"; "recovered"; otherwise a disease state.
   */
  function StateKindOf(stateName: string, s: StateSettings): (k: StateKind)
    ensures k == Transient <==> s.transient
    ensures k == MultiTransitionSusceptible <==> !s.transient && s.isMultiTransition && stateName == "susceptible"
    ensures k == MultiTransitionDisease <==> !s.transient && s.isMultiTransition && stateName != "susceptible"
    ensures k == Susceptible <==> !s.transient && !s.isMultiTransition && stateName == "susceptible"
    ensures k == Recovered <==> !s.transient && !s.isMultiTransition && stateName == "recovered"
    ensures k == Disease <==>
      !s.transient && !s.isMultiTransition && stateName != "susceptible" && stateName != "recovered"
  {
    if s.transient then Transient
    else if s.isMultiTransition && stateName == "susceptible" then MultiTransitionSusceptible
    else if s.isMultiTransition then MultiTransitionDisease
    else if stateName == "susceptible" then Susceptible
    else if stateName == "recovered" then Recovered
    else Disease
  }

  /** The id a state class derives from the id it is given: susceptible and recovered states are named after it. */
  function LibraryStateId(kind: StateKind, given: string): string
  {
    match kind
    case Susceptible | MultiTransitionSusceptible => SusceptibleId(given)
    case Recovered => RecoveredId(given)
    case _ => given
  }

  /**
   * `get_state`: "susceptible" and "recovered" are given the cause's name, other states their
   * own; the data getters are parsed first, so a bad getter raises before any state exists.
   */
  function GetState(stateName: string, s: StateSettings, causeName: string, env: Environment): (r: Result<StateSpec>)
    ensures r.Ok? <==> DataOf(s.getDataFunctions, env).Ok?
    ensures r.Err? ==> GetterError(r.error)
    ensures r.Ok? ==> r.value.ref.kind == StateKindOf(stateName, s) && r.value.exits == []
    ensures r.Ok? ==> r.value.ref.stateId == LibraryStateId(r.value.ref.kind,
      if stateName == "susceptible" || stateName == "recovered" then causeName else stateName)
    ensures r.Ok? ==> r.value.selfTransition == s.allowSelfTransition
    ensures r.Ok? ==> (r.value.options ==
      StateOptions(s.causeType, s.allowSelfTransition, s.sideEffect, s.cleanupFunction, DataOf(s.getDataFunctions, env).value))
  {
    var given := if stateName == "susceptible" || stateName == "recovered" then causeName else stateName;
    var data :- DataOf(s.getDataFunctions, env);
    var kind := StateKindOf(stateName, s);
    Ok(StateSpec(StateRef(kind, LibraryStateId(kind, given)),
      StateOptions(s.causeType, s.allowSelfTransition, s.sideEffect, s.cleanupFunction, data),
      s.allowSelfTransition, []))
  }

  // ---------------------------------------------------------------------------------
  // add_transition
  // ---------------------------------------------------------------------------------

  predicate IsMultiKind(k: StateKind)
  {
    k == MultiTransitionSusceptible || k == MultiTransitionDisease
  }

  /** Every exit to `stateId` now carries `data`: the composite transition keeps one entry per output. */
  function Refresh(exits: seq<Exit>, stateId: string, data: DataFunctions): (r: seq<Exit>)
    ensures |r| == |exits|
    ensures forall i :: 0 <= i < |exits| ==>
      r[i] == if exits[i].output.stateId == stateId then exits[i].(data := data) else exits[i]
  {
    seq(|exits|, i requires 0 <= i < |exits| =>
      if exits[i].output.stateId == stateId then exits[i].(data := data) else exits[i])
  }

  /**
   * A multi-transition state's exits recorded on values agree with the state object: adding
   * a rate exit to `MultiTransitionState` (a new conditional edge, the output's data replaced)
   * shows as the refreshed exits plus one rate exit at the end.
   */
  lemma MultiExitAgreesWithState(edges: seq<State.Edge>, sources: map<string, DataFunctions>,
                                 t: StateRef, o: StateRef, data: DataFunctions)
    ensures State.MultiExits(edges + [State.Edge(t, o, State.ConditionalExit)], sources[o.stateId := data]) ==
      Refresh(State.MultiExits(edges, sources), o.stateId, data) + [Exit(o, RateExit, data, NotTriggered)]
  {
  }

  /**
   * `add_transition` on state values. The trigger name is looked up first (KeyError), then
   * the getters (see `GetterError`), then `data_type` picks the adder: "rate", "proportion" or
   * "dwell_time" (which takes no getters); any other type is a ValueError. A
   * multi-transition state takes only rate exits, and drops the trigger.
   */
  function AddTransition(source: StateSpec, sink: StateRef, t: TransitionSettings, env: Environment): (r: Result<StateSpec>)
    ensures TriggerOf(t.triggered).Err? ==> r == Err(KeyError(t.triggered))
    ensures r.Ok? <==>
      TriggerOf(t.triggered).Ok? && DataOf(t.getDataFunctions, env).Ok? &&
      (t.dataType == "rate" || (!IsMultiKind(source.ref.kind) && t.dataType in {"proportion", "dwell_time"}))
    ensures r.Ok? ==> r.value.(exits := source.exits) == source && |r.value.exits| == |source.exits| + 1
    ensures r.Ok? ==> r.value.exits[|source.exits|].output == sink
    ensures r.Ok? ==> (r.value.exits[|source.exits|].kind ==
      if t.dataType == "rate" then RateExit else if t.dataType == "proportion" then ProportionExit else DwellTimeExit)
    ensures r.Ok? && !IsMultiKind(source.ref.kind) ==> r.value.exits[..|source.exits|] == source.exits
    ensures r.Ok? && !IsMultiKind(source.ref.kind) ==> r.value.exits[|source.exits|].triggered == TriggerOf(t.triggered).value
  {
    var triggered :- TriggerOf(t.triggered);
    var data :- DataOf(t.getDataFunctions, env);
    if t.dataType == "rate" then
      if IsMultiKind(source.ref.kind) then
        Ok(source.(exits := Refresh(source.exits, sink.stateId, data) + [Exit(sink, RateExit, data, NotTriggered)]))
      else Ok(source.(exits := source.exits + [Exit(sink, RateExit, data, triggered)]))
    else if t.dataType == "proportion" then
      if IsMultiKind(source.ref.kind) then Err(ValueError("Only rate transitions are supported."))
      else Ok(source.(exits := source.exits + [Exit(sink, ProportionExit, data, triggered)]))
    else if t.dataType == "dwell_time" then
      if IsMultiKind(source.ref.kind) then Err(ValueError("Only rate transitions are supported."))
      else Ok(source.(exits := source.exits + [Exit(sink, DwellTimeExit, map[], triggered)]))
    else Err(ValueError("Invalid transition data type '" + t.dataType + "'"))
  }

  // ---------------------------------------------------------------------------------
  // get_cause_model_components
  // ---------------------------------------------------------------------------------

  /** The source of each transition setting, in order. */
  function SettingSources(ts: seq<(string, TransitionSettings)>): (r: seq<string>)
    ensures |r| == |ts| && forall i :: 0 <= i < |ts| ==> r[i] == ts[i].1.source
  {
    seq(|ts|, i requires 0 <= i < |ts| => ts[i].1.source)
  }

  /** Defaults leave every transition's source as the configuration wrote it. */
  lemma ResolvedSources(c: CauseConfig)
    ensures SettingSources(ResolveCause(c).transitions) == Sources(c.transitions)
  {
  }

  /** The dictionary of built states: each state in order, later keys overwriting earlier ones. */
  function StatesFrom(acc: map<string, StateSpec>, states: seq<(string, StateSettings)>, causeName: string,
                      env: Environment): (r: Result<map<string, StateSpec>>)
    decreases |states|
    ensures r.Ok? ==> r.value.Keys == acc.Keys + KeySet(states)
    ensures r.Ok? && (forall k :: k in acc ==> acc[k].exits == []) ==> forall k :: k in r.value ==> r.value[k].exits == []
  {
    if states == [] then Ok(acc)
    else
      var st :- GetState(states[0].0, states[0].1, causeName, env);
      assert KeySet(states) == {states[0].0} + KeySet(states[1..]) by {
        assert Keys(states) == [states[0].0] + Keys(states[1..]);
      }
      StatesFrom(acc[states[0].0 := st], states[1..], causeName, env)
  }

  /** A name that is not the first of a keyed mapping is among the keys of its tail, and the first is not. */
  lemma KeyedTail<T>(entries: seq<(string, T)>)
    requires Keyed(entries) && entries != []
    ensures Keyed(entries[1..]) && entries[0].0 !in KeySet(entries[1..])
    ensures KeySet(entries) == {entries[0].0} + KeySet(entries[1..])
  {
    assert Keys(entries) == [entries[0].0] + Keys(entries[1..]);
  }

  /** With distinct state names, each name holds the state built from its own configuration. */
  lemma {:induction false} StatesFromEntries(acc: map<string, StateSpec>, states: seq<(string, StateSettings)>,
                                             causeName: string, env: Environment, i: nat)
    requires Keyed(states) && i < |states| && StatesFrom(acc, states, causeName, env).Ok?
    ensures GetState(states[i].0, states[i].1, causeName, env) ==
      Ok(StatesFrom(acc, states, causeName, env).value[states[i].0])
    decreases |states|
  {
    var st := GetState(states[0].0, states[0].1, causeName, env);
    var acc1 := acc[states[0].0 := st.value];
    var r := StatesFrom(acc, states, causeName, env);
    var r1 := StatesFrom(acc1, states[1..], causeName, env);
    assert r == r1;
    KeyedTail(states);
    if i == 0 {
      StatesFromKeeps(acc1, states[1..], causeName, env, states[0].0);
    } else {
      StatesFromEntries(acc1, states[1..], causeName, env, i - 1);
      assert states[1..][i - 1] == states[i];
    }
  }

  /** Keys that no later state configures keep their earlier value. */
  lemma {:induction false} StatesFromKeeps(acc: map<string, StateSpec>, states: seq<(string, StateSettings)>,
                                           causeName: string, env: Environment, k: string)
    requires k in acc && k !in KeySet(states) && StatesFrom(acc, states, causeName, env).Ok?
    ensures StatesFrom(acc, states, causeName, env).value[k] == acc[k]
    decreases |states|
  {
    if states != [] {
      var st := GetState(states[0].0, states[0].1, causeName, env);
      var acc1 := acc[states[0].0 := st.value];
      assert Keys(states) == [states[0].0] + Keys(states[1..]);
      assert k != states[0].0 && k !in KeySet(states[1..]);
      StatesFromKeeps(acc1, states[1..], causeName, env, k);
    }
  }

  /** The transitions added in order; a source or sink that is not a state is a KeyError. */
  function Wire(m: map<string, StateSpec>, ts: seq<(string, TransitionSettings)>,
                env: Environment): (r: Result<map<string, StateSpec>>)
    ensures r.Ok? ==> r.value.Keys == m.Keys
  {
    if ts == [] then Ok(m)
    else
      var t := ts[0].1;
      if t.source !in m then Err(KeyError(t.source))
      else if t.sink !in m then Err(KeyError(t.sink))
      else
        var s :- AddTransition(m[t.source], m[t.sink].ref, t, env);
        Wire(m[t.source := s], ts[1..], env)
  }

  /** The states' references and options, as a set of references. */
  function Refs(m: map<string, StateSpec>): set<StateRef>
  {
    set k | k in m :: m[k].ref
  }

  /** Every exit of every state leads to one of the states. */
  predicate ExitsWithin(m: map<string, StateSpec>)
  {
    forall k, j :: k in m && 0 <= j < |m[k].exits| ==> m[k].exits[j].output in Refs(m)
  }

  /**
   * Wiring changes only exits: each state keeps its reference, options and self-transition,
   * gains one exit per transition it is the source of, and every exit added leads to a state.
   */
  lemma {:induction false} WireEffect(m: map<string, StateSpec>, ts: seq<(string, TransitionSettings)>,
                                      env: Environment)
    requires Wire(m, ts, env).Ok?
    ensures forall k :: k in m ==> Wire(m, ts, env).value[k].(exits := m[k].exits) == m[k]
    ensures forall k :: k in m ==>
      |Wire(m, ts, env).value[k].exits| == |m[k].exits| + SourceCount(SettingSources(ts), k)
    ensures ExitsWithin(m) ==> ExitsWithin(Wire(m, ts, env).value)
  {
    if ts != [] {
      var t := ts[0].1;
      var s := AddTransition(m[t.source], m[t.sink].ref, t, env).value;
      var m1 := m[t.source := s];
      WireEffect(m1, ts[1..], env);
      assert SettingSources(ts)[1..] == SettingSources(ts[1..]);
      forall k | k in m
        ensures |Wire(m, ts, env).value[k].exits| == |m[k].exits| + SourceCount(SettingSources(ts), k)
      {
        SourceCountFront(SettingSources(ts), k);
      }
      WireStepExits(m, t, env);
    }
  }

  /** Adding one transition keeps the references, and keeps every exit leading to a state. */
  lemma WireStepExits(m: map<string, StateSpec>, t: TransitionSettings, env: Environment)
    requires t.source in m && t.sink in m && AddTransition(m[t.source], m[t.sink].ref, t, env).Ok?
    ensures var m1 := m[t.source := AddTransition(m[t.source], m[t.sink].ref, t, env).value];
      Refs(m1) == Refs(m) && (ExitsWithin(m) ==> ExitsWithin(m1))
  {
    var s := AddTransition(m[t.source], m[t.sink].ref, t, env).value;
    var m1 := m[t.source := s];
    assert Refs(m1) == Refs(m) by {
      assert forall k :: k in m ==> m1[k].ref == m[k].ref;
    }
    if ExitsWithin(m) {
      forall k, j | k in m1 && 0 <= j < |m1[k].exits|
        ensures m1[k].exits[j].output in Refs(m1)
      {
        if k == t.source && j < |m[k].exits| {
          if IsMultiKind(m[k].ref.kind) && t.dataType == "rate" {
            assert m1[k].exits[j].output == m[k].exits[j].output;
          } else {
            assert m1[k].exits[..|m[k].exits|] == m[k].exits;
            assert m1[k].exits[j] == m1[k].exits[..|m[k].exits|][j];
          }
        } else if k == t.source {
          assert m1[k].exits[j].output == m[t.sink].ref;
        }
      }
    }
  }

  /**
   * One cause's disease model: its states are built, the transitions wired, and the model
   * lists the states in the order the configuration gives them.
   */
  function BuildCause(causeName: string, c: CauseSettings, env: Environment): (r: Result<Disease.Graph>)
    ensures r.Ok? ==> r.value.name == causeName && |r.value.states| == |c.states|
  {
    var m :- StatesFrom(map[], c.states, causeName, env);
    var wired :- Wire(m, c.transitions, env);
    assert forall i :: 0 <= i < |c.states| ==> c.states[i].0 in KeySet(c.states);
    Ok(Disease.Graph(causeName, seq(|c.states|, i requires 0 <= i < |c.states| => wired[c.states[i].0])))
  }

  /** `get_cause_model_components` for one cause: the two loops of the source. */
  method BuildCauseModel(causeName: string, c: CauseSettings, env: Environment)
    returns (r: Result<Disease.Graph>)
    ensures r == BuildCause(causeName, c, env)
  {
    var states: map<string, StateSpec> := map[];
    for k := 0 to |c.states|
      invariant StatesFrom(map[], c.states, causeName, env) == StatesFrom(states, c.states[k..], causeName, env)
    {
      assert c.states[k..][1..] == c.states[k + 1..];
      var st := GetState(c.states[k].0, c.states[k].1, causeName, env);
      if st.Err? {
        return Err(st.error);
      }
      states := states[c.states[k].0 := st.value];
    }
    assert c.states[|c.states|..] == [];
    ghost var built := states;
    for k := 0 to |c.transitions|
      invariant Wire(built, c.transitions, env) == Wire(states, c.transitions[k..], env)
    {
      assert c.transitions[k..][1..] == c.transitions[k + 1..];
      var t := c.transitions[k].1;
      if t.source !in states {
        return Err(KeyError(t.source));
      }
      if t.sink !in states {
        return Err(KeyError(t.sink));
      }
      var s := AddTransition(states[t.source], states[t.sink].ref, t, env);
      if s.Err? {
        return Err(s.error);
      }
      states := states[t.source := s.value];
    }
    assert c.transitions[|c.transitions|..] == [];
    assert forall i :: 0 <= i < |c.states| ==> c.states[i].0 in KeySet(c.states);
    r := Ok(Disease.Graph(causeName, seq(|c.states|, i requires 0 <= i < |c.states| => states[c.states[i].0])));
  }

  /** Every exit of a built model leads to one of its states. */
  lemma BuiltModelIsClosed(causeName: string, c: CauseSettings, env: Environment)
    requires BuildCause(causeName, c, env).Ok?
    ensures Disease.Closed(BuildCause(causeName, c, env).value.states)
  {
    var m := StatesFrom(map[], c.states, causeName, env).value;
    var wired := Wire(m, c.transitions, env).value;
    var g := BuildCause(causeName, c, env).value.states;
    WireEffect(m, c.transitions, env);
    forall i, j | 0 <= i < |g| && 0 <= j < |g[i].exits|
      ensures g[i].exits[j].output.stateId in Disease.Ids(g)
    {
      var o := g[i].exits[j].output;
      assert g[i] == wired[c.states[i].0];
      assert o in Refs(wired);
      var k :| k in wired && wired[k].ref == o;
      assert k in KeySet(c.states);
      var q :| 0 <= q < |Keys(c.states)| && Keys(c.states)[q] == k;
      assert Disease.Ids(g)[q] == o.stateId;
    }
  }

  /** The state kind picked for a marked state follows its count, unless it is transient. */
  lemma KindFollowsCount(stateName: string, s: StateSettings, count: nat)
    requires !s.transient && s.isMultiTransition == (count > 1)
    ensures IsMultiKind(StateKindOf(stateName, s)) <==> count > 1
  {
  }

  /** Marking and defaulting keep the state names, so a keyed cause stays keyed. */
  lemma ResolvedKeyed(c: CauseConfig, i: nat)
    requires Keyed(c.states) && i < |c.states|
    ensures var rc := ResolveCause(MarkCause(c));
      Keyed(rc.states) && |rc.states| == |c.states| && rc.states[i].0 == c.states[i].0
  {
    var rc := ResolveCause(MarkCause(c));
    assert Keys(rc.states) == Keys(c.states);
    forall p, q | 0 <= p < q < |rc.states| ensures rc.states[p].0 != rc.states[q].0 {
      assert Keys(rc.states)[p] == Keys(c.states)[p] && Keys(rc.states)[q] == Keys(c.states)[q];
    }
    assert Keys(rc.states)[i] == Keys(c.states)[i];
  }

  /**
   * The point of marking: in a model built from a marked, defaulted cause, a state that is
   * not transient is a multi-transition state exactly when more than one exit leaves it,
   * and it has one exit per transition configured from it.
   */
  lemma MultiIffSeveralExits(causeName: string, c: CauseConfig, env: Environment, i: nat)
    requires Keyed(c.states) && i < |c.states|
    requires BuildCause(causeName, ResolveCause(MarkCause(c)), env).Ok?
    requires !ResolveState(c.states[i].1).transient
    ensures var s := BuildCause(causeName, ResolveCause(MarkCause(c)), env).value.states[i];
      |s.exits| == SourceCount(Sources(c.transitions), c.states[i].0) &&
      (IsMultiKind(s.ref.kind) <==> |s.exits| > 1)
  {
    var rc := ResolveCause(MarkCause(c));
    var name := c.states[i].0;
    ResolvedKeyed(c, i);
    var m := StatesFrom(map[], rc.states, causeName, env).value;
    StatesFromEntries(map[], rc.states, causeName, env, i);
    var built := GetState(name, rc.states[i].1, causeName, env).value;
    assert m[name] == built;
    WireEffect(m, rc.transitions, env);
    ResolvedSources(MarkCause(c));
    MarkedThenDefaulted(c, i);
    KindFollowsCount(name, rc.states[i].1, SourceCount(Sources(c.transitions), name));
  }

  /** The models of all causes in order; the first cause that fails stops the build. */
  function BuildFrom(acc: seq<Disease.Graph>, causes: CausesSettings, env: Environment): (r: Result<seq<Disease.Graph>>)
    ensures r.Ok? ==> |r.value| == |acc| + |causes| && r.value[..|acc|] == acc
    ensures r.Ok? ==> forall i :: 0 <= i < |causes| ==> r.value[|acc| + i].name == causes[i].0
    decreases |causes|
  {
    if causes == [] then Ok(acc)
    else
      var g :- BuildCause(causes[0].0, causes[0].1, env);
      var r := BuildFrom(acc + [g], causes[1..], env);
      if r.Ok? then
        BuildFromStep(acc, g, causes, r.value);
        r
      else r
  }

  /** The names after one more built cause. */
  lemma BuildFromStep(acc: seq<Disease.Graph>, g: Disease.Graph, causes: CausesSettings, out: seq<Disease.Graph>)
    requires causes != [] && g.name == causes[0].0
    requires |out| == |acc| + 1 + |causes[1..]| && out[..|acc| + 1] == acc + [g]
    requires forall i :: 0 <= i < |causes[1..]| ==> out[|acc| + 1 + i].name == causes[1..][i].0
    ensures |out| == |acc| + |causes| && out[..|acc|] == acc
    ensures forall i :: 0 <= i < |causes| ==> out[|acc| + i].name == causes[i].0
  {
    assert out[..|acc|] == out[..|acc| + 1][..|acc|];
    assert out[|acc|] == out[..|acc| + 1][|acc|];
    forall i | 0 <= i < |causes|
      ensures out[|acc| + i].name == causes[i].0
    {
      if i > 0 {
        assert causes[1..][i - 1] == causes[i];
        assert out[|acc| + 1 + (i - 1)].name == causes[1..][i - 1].0;
      }
    }
  }

  /** `get_cause_model_components`: one disease model per cause, in cause order. */
  method GetCauseModelComponents(causes: CausesSettings, env: Environment)
    returns (r: Result<seq<Disease.Graph>>)
    ensures r == BuildFrom([], causes, env)
  {
    var models: seq<Disease.Graph> := [];
    for k := 0 to |causes|
      invariant BuildFrom([], causes, env) == BuildFrom(models, causes[k..], env)
    {
      assert causes[k..][1..] == causes[k + 1..];
      var g := BuildCauseModel(causes[k].0, causes[k].1, env);
      if g.Err? {
        return Err(g.error);
      }
      models := models + [g.value];
    }
    assert causes[|causes|..] == [];
    r := Ok(models);
  }

  // ---------------------------------------------------------------------------------
  // get_components
  // ---------------------------------------------------------------------------------

  /** A component configuration: a plain list of component names, or a tree that may hold `causes`. */
  datatype ComponentConfig =
    | ComponentList(names: seq<string>)
    | ComponentTree(causes: Option<CausesConfig>, others: seq<string>)

  /** A parsed component: a disease model, or a component the standard parser builds by name. */
  datatype Component = CauseModel(model: Disease.Graph) | Named(name: string)

  function NamedAll(names: seq<string>): (r: seq<Component>)
    ensures |r| == |names| && forall i :: 0 <= i < |names| ==> r[i] == Named(names[i])
  {
    seq(|names|, i requires 0 <= i < |names| => Named(names[i]))
  }

  function CauseModels(models: seq<Disease.Graph>): (r: seq<Component>)
    ensures |r| == |models| && forall i :: 0 <= i < |models| ==> r[i] == CauseModel(models[i])
  {
    seq(|models|, i requires 0 <= i < |models| => CauseModel(models[i]))
  }

  /** The causes marked, then given their defaults. */
  function Prepared(causes: CausesConfig): (r: CausesSettings)
    ensures |r| == |causes| && forall i :: 0 <= i < |causes| ==> r[i].0 == causes[i].0
  {
    seq(|causes|, i requires 0 <= i < |causes| => (causes[i].0, ResolveCause(MarkCause(causes[i].1))))
  }

  /**
   * The components a configuration yields: without a `causes` key, those of the standard
   * parser; with one, the disease models first, then the rest of the tree.
   */
  function Components(config: ComponentConfig, env: Environment): Result<seq<Component>>
  {
    match config
    case ComponentList(names) => Ok(NamedAll(names))
    case ComponentTree(None, others) => Ok(NamedAll(others))
    case ComponentTree(Some(causes), others) =>
      var models :- CauseModelsOf(causes, env);
      Ok(CauseModels(models) + NamedAll(others))
  }

  /** The disease models of the causes: a KeyError for an unknown source, else one model per cause, named after it. */
  function CauseModelsOf(causes: CausesConfig, env: Environment): (r: Result<seq<Disease.Graph>>)
    ensures r.Ok? ==> |r.value| == |causes| && forall i :: 0 <= i < |causes| ==> r.value[i].name == causes[i].0
  {
    if UnknownSourceOfAll(causes).Some? then Err(KeyError(UnknownSourceOfAll(causes).value))
    else
      var prepared := Prepared(causes);
      var built := BuildFrom([], prepared, env);
      if built.Ok? then
        assert forall i :: 0 <= i < |causes| ==> built.value[0 + i].name == prepared[i].0;
        built
      else built
  }

  /** `get_components`: mark, add defaults, build the cause models, then the other components. */
  method GetComponents(config: ComponentConfig, env: Environment) returns (r: Result<seq<Component>>)
    ensures r == Components(config, env)
  {
    if config.ComponentTree? && config.causes.Some? {
      var causes := config.causes.value;
      var marked := MarkMultiTransitionStates(causes);
      if marked.Err? {
        return Err(marked.error);
      }
      var settings := AddDefaultConfigLayer(marked.value);
      assert settings == Prepared(causes);
      var models := GetCauseModelComponents(settings, env);
      if models.Err? {
        return Err(models.error);
      }
      r := Ok(CauseModels(models.value) + NamedAll(config.others));
    } else if config.ComponentTree? {
      r := Ok(NamedAll(config.others));
    } else {
      r := Ok(NamedAll(config.names));
    }
  }

  /** Cause models named after the causes, followed by the other components by name. */
  lemma ComponentsLayout(causes: CausesConfig, models: seq<Disease.Graph>, others: seq<string>)
    requires |models| == |causes| && forall i :: 0 <= i < |causes| ==> models[i].name == causes[i].0
    ensures var cs := CauseModels(models) + NamedAll(others);
      |cs| == |causes| + |others| &&
      (forall i :: 0 <= i < |causes| ==> cs[i].CauseModel? && cs[i].model.name == causes[i].0) &&
      (forall i :: 0 <= i < |others| ==> cs[|causes| + i] == Named(others[i]))
  {
    var named := NamedAll(others);
    var cs := CauseModels(models) + named;
    forall i | 0 <= i < |others|
      ensures cs[|causes| + i] == Named(others[i])
    {
      assert cs[|causes| + i] == named[i];
    }
  }

  /**
   * Cause models come first, one per cause and named after it, then the other components in
   * order; a configuration without causes is left to the standard parser.
   */
  lemma ComponentsOrder(causes: CausesConfig, others: seq<string>, env: Environment)
    requires Components(ComponentTree(Some(causes), others), env).Ok?
    ensures var cs := Components(ComponentTree(Some(causes), others), env).value;
      |cs| == |causes| + |others| &&
      (forall i :: 0 <= i < |causes| ==> cs[i].CauseModel? && cs[i].model.name == causes[i].0) &&
      (forall i :: 0 <= i < |others| ==> cs[|causes| + i] == Named(others[i]))
  {
    var models := TreeModels(causes, others, env);
    ComponentsLayout(causes, models, others);
  }

  /** The cause models a tree with causes builds, one per cause and named after it. */
  lemma TreeModels(causes: CausesConfig, others: seq<string>, env: Environment)
    returns (models: seq<Disease.Graph>)
    requires Components(ComponentTree(Some(causes), others), env).Ok?
    ensures Components(ComponentTree(Some(causes), others), env) == Ok(CauseModels(models) + NamedAll(others))
    ensures |models| == |causes| && forall i :: 0 <= i < |causes| ==> models[i].name == causes[i].0
  {
    models := CauseModelsOf(causes, env).value;
  }
}
