/**
 * The `Causes` component of components/causes/causes.py: the same marking, defaults, state
 * classes, transition dispatch and getter parsing as the configuration parser, applied to the
 * cause-model specification the package ships. Its helpers are the parser's; only the
 * configuration it starts from and its entry points differ.
 */
module CausesComponent {
  import opened Wrappers
  import opened CausesParser
  import Disease

  /** The specification marked, then given defaults, then frozen; a KeyError on an unknown source. */
  function CausesConfiguration(spec: CausesConfig): (r: Result<CausesSettings>)
    ensures r.Err? <==> UnknownSourceOfAll(spec).Some?
    ensures r.Ok? ==> r.value == Prepared(spec)
    ensures r.Ok? ==> forall i, j :: 0 <= i < |spec| && 0 <= j < |spec[i].1.states| ==>
      r.value[i].1.states[j].1.isMultiTransition ==
        (SourceCount(Sources(spec[i].1.transitions), spec[i].1.states[j].0) > 1)
  {
    if UnknownSourceOfAll(spec).Some? then Err(KeyError(UnknownSourceOfAll(spec).value))
    else
      assert forall i, j :: 0 <= i < |spec| && 0 <= j < |spec[i].1.states| ==>
        Prepared(spec)[i].1.states[j].1 == ResolveCause(MarkCause(spec[i].1)).states[j].1;
      Ok(Prepared(spec))
  }

  /** `get_causes_configuration`: mark, then add the default layer; freezing does not change the values. */
  method GetCausesConfiguration(spec: CausesConfig) returns (r: Result<CausesSettings>)
    ensures r == CausesConfiguration(spec)
  {
    var marked := MarkMultiTransitionStates(spec);
    if marked.Err? {
      return Err(marked.error);
    }
    var settings := AddDefaultConfigLayer(marked.value);
    assert settings == Prepared(spec);
    r := Ok(settings);
  }

  /** The disease models of every cause of the specification, in order. */
  function DiseaseModels(spec: CausesConfig, env: Environment): Result<seq<Disease.Graph>>
  {
    var settings :- CausesConfiguration(spec);
    BuildFrom([], settings, env)
  }

  /** `get_disease_models`: one model per cause, built as the parser builds them. */
  method GetDiseaseModels(spec: CausesConfig, env: Environment) returns (r: Result<seq<Disease.Graph>>)
    ensures r == DiseaseModels(spec, env)
  {
    var settings := GetCausesConfiguration(spec);
    if settings.Err? {
      return Err(settings.error);
    }
    r := GetCauseModelComponents(settings.value, env);
  }

  /**
   * The component builds exactly the disease models that the configuration parser builds
   * from a component tree holding the same `causes` and nothing else, and fails exactly when
   * it does.
   */
  lemma SameModelsAsParser(spec: CausesConfig, env: Environment)
    ensures DiseaseModels(spec, env).Ok? <==> Components(ComponentTree(Some(spec), []), env).Ok?
    ensures DiseaseModels(spec, env).Ok? ==>
      Components(ComponentTree(Some(spec), []), env).value == CauseModels(DiseaseModels(spec, env).value)
  {
    assert NamedAll([]) == [];
  }
}
