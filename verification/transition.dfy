/**
 * `CompositeRateTransition` (components/causes/transition.py): the one rate transition out
 * of a state with several rate exits. It records a set of data functions per output state,
 * builds one rate pipeline per output (chosen incidence, then remission, then transition
 * rate), and its exit rate is the sum of the sub-rates. Per simulant, a sub-rate is the
 * base rate scaled by one minus the joint PAF for the living, and zero for the dead.
 */
module Transition {
  import opened Wrappers
  import opened Strings
  import opened Sorting
  import opened Paf
  import opened Library

  /** What a lookup table is built from: the getter and the state ids it is called with. */
  datatype RateData = RateData(getter: Getter, args: seq<string>)

  /** The rate chosen for one output state: its measure, pipeline name and rate data. */
  datatype Choice = Choice(measure: string, pipeline: string, data: RateData)

  /** The measures a sub-transition may supply, in order of precedence. */
  const RATE_MEASURES: seq<string> := ["incidence_rate", "remission_rate", "transition_rate"]

  /** The standard transitions' pipeline names: `{out}.{measure}`, or `{in}_to_{out}.transition_rate`. */
  function PipelineName(inputId: string, output: string, measure: string): string
  {
    if measure == "transition_rate" then inputId + "_to_" + output + "." + measure
    else output + "." + measure
  }

  /**
   * The rate of one output state: the first measure of `RATE_MEASURES` that has a data
   * function, or "No valid data functions supplied." when none has. A transition rate is
   * loaded for the pair of states, the others for the output state alone.
   */
  function ChooseRate(inputId: string, output: string, fns: DataFunctions): (r: Result<Choice>)
    ensures r.Err? <==> forall m :: m in RATE_MEASURES ==> m !in fns
    ensures r.Err? ==> r.error == ValueError("No valid data functions supplied.")
    ensures r.Ok? ==> r.value.measure in RATE_MEASURES && r.value.measure in fns
    ensures r.Ok? && r.value.measure != "incidence_rate" ==> "incidence_rate" !in fns
    ensures r.Ok? && r.value.measure == "transition_rate" ==> "remission_rate" !in fns
    ensures r.Ok? ==> r.value.pipeline == PipelineName(inputId, output, r.value.measure)
    ensures r.Ok? ==> r.value.data.getter == fns[r.value.measure]
    ensures r.Ok? ==> r.value.data.args == (if r.value.measure == "transition_rate" then [inputId, output] else [output])
  {
    if "incidence_rate" in fns then
      Ok(Choice("incidence_rate", PipelineName(inputId, output, "incidence_rate"), RateData(fns["incidence_rate"], [output])))
    else if "remission_rate" in fns then
      Ok(Choice("remission_rate", PipelineName(inputId, output, "remission_rate"), RateData(fns["remission_rate"], [output])))
    else if "transition_rate" in fns then
      Ok(Choice("transition_rate", PipelineName(inputId, output, "transition_rate"), RateData(fns["transition_rate"], [inputId, output])))
    else
      Err(ValueError("No valid data functions supplied."))
  }

  /** `x` and `m` are the two dot-separated fields of `x + "." + m` when neither has a dot. */
  lemma TwoFields(x: string, m: string)
    requires Dotless(x) && Dotless(m)
    ensures Split(x + "." + m, ".") == [x, m]
  {
    assert "."[..0] == [];
    assert Join([x, m], ".") == x + "." + m;
    SplitJoin([x, m], ".", 0);
  }

  /**
   * With dot-free state ids and one input state, a pipeline name determines its output
   * state and measure.
   */
  lemma PipelineNameInjective(inputId: string, o1: string, m1: string, o2: string, m2: string)
    requires Dotless(inputId) && Dotless(o1) && Dotless(o2)
    requires m1 in RATE_MEASURES && m2 in RATE_MEASURES
    requires PipelineName(inputId, o1, m1) == PipelineName(inputId, o2, m2)
    ensures o1 == o2 && m1 == m2
  {
    var x1 := PipelineFields(inputId, o1, m1);
    var x2 := PipelineFields(inputId, o2, m2);
    assert [x1, m1] == [x2, m2];
    if m1 == "transition_rate" {
      assert x1[|inputId| + 4..] == o1;
      assert x2[|inputId| + 4..] == o2;
    }
  }

  /** The two dot-separated fields of a pipeline name: the state part and the measure. */
  lemma PipelineFields(inputId: string, o: string, m: string) returns (x: string)
    requires Dotless(inputId) && Dotless(o) && m in RATE_MEASURES
    ensures x == if m == "transition_rate" then inputId + "_to_" + o else o
    ensures Split(PipelineName(inputId, o, m), ".") == [x, m]
  {
    x := if m == "transition_rate" then inputId + "_to_" + o else o;
    if m == "transition_rate" {
      assert Dotless("_to_");
      LacksConcat(inputId, "_to_", '.');
      LacksConcat(inputId + "_to_", o, '.');
    }
    assert Dotless(m);
    TwoFields(x, m);
  }

  /** The lookup tables and the pipeline-to-output map built for some output states. */
  datatype Lookup = Lookup(tables: map<string, RateData>, stateMap: map<string, string>)

  /** `_create_lookup_tables` over the outputs in order: the first output without a rate fails. */
  function Tables(inputId: string, outs: seq<string>, sources: map<string, DataFunctions>): Result<Lookup>
    requires forall o :: o in outs ==> o in sources
  {
    if outs == [] then Ok(Lookup(map[], map[]))
    else
      match Tables(inputId, outs[..|outs| - 1], sources)
      case Err(e) => Err(e)
      case Ok(l) =>
        var o := outs[|outs| - 1];
        match ChooseRate(inputId, o, sources[o])
        case Err(e) => Err(e)
        case Ok(c) => Ok(Lookup(l.tables[c.pipeline := c.data], l.stateMap[c.pipeline := o]))
  }

  /** The tables are built exactly when every output has a rate; the only error is the missing rate. */
  lemma {:induction false} TablesOk(inputId: string, outs: seq<string>, sources: map<string, DataFunctions>)
    requires forall o :: o in outs ==> o in sources
    ensures Tables(inputId, outs, sources).Ok? <==> forall o :: o in outs ==> ChooseRate(inputId, o, sources[o]).Ok?
    ensures Tables(inputId, outs, sources).Err? ==>
      Tables(inputId, outs, sources).error == ValueError("No valid data functions supplied.")
  {
    if outs != [] {
      var init := outs[..|outs| - 1];
      FrontAndLast(outs);
      TablesOk(inputId, init, sources);
    }
  }

  /** Every output's pipeline is a key of the built map, whatever the names. */
  lemma {:induction false} TablesNamesKnown(inputId: string, outs: seq<string>, sources: map<string, DataFunctions>)
    requires forall o :: o in outs ==> o in sources
    requires Tables(inputId, outs, sources).Ok?
    ensures forall o :: o in outs ==> ChooseRate(inputId, o, sources[o]).Ok?
    ensures forall p :: p in PipelineNames(inputId, outs, sources) ==> p in Tables(inputId, outs, sources).value.stateMap
    ensures Tables(inputId, outs, sources).value.tables.Keys == Tables(inputId, outs, sources).value.stateMap.Keys
  {
    TablesOk(inputId, outs, sources);
    if outs != [] {
      var init := outs[..|outs| - 1];
      FrontAndLast(outs);
      TablesNamesKnown(inputId, init, sources);
      var names := PipelineNames(inputId, outs, sources);
      assert PipelineNames(inputId, init, sources) == names[..|init|];
    }
  }

  /** Dot-free state ids: every pipeline name can be traced back to one output state. */
  ghost predicate DotlessIds(inputId: string, outs: seq<string>)
  {
    Dotless(inputId) && forall o :: o in outs ==> Dotless(o)
  }

  /** The pipeline of an output that has a rate. */
  function Pipe(inputId: string, o: string, sources: map<string, DataFunctions>): string
    requires o in sources && ChooseRate(inputId, o, sources[o]).Ok?
  {
    ChooseRate(inputId, o, sources[o]).value.pipeline
  }

  /** Every entry of the built map is the pipeline of the output it names. */
  lemma {:induction false} TablesEntries(inputId: string, outs: seq<string>, sources: map<string, DataFunctions>)
    requires forall o :: o in outs ==> o in sources && ChooseRate(inputId, o, sources[o]).Ok?
    requires Tables(inputId, outs, sources).Ok?
    ensures var l := Tables(inputId, outs, sources).value;
      forall p :: p in l.stateMap ==> l.stateMap[p] in outs && Pipe(inputId, l.stateMap[p], sources) == p
  {
    if outs != [] {
      var init := outs[..|outs| - 1];
      FrontAndLast(outs);
      TablesEntries(inputId, init, sources);
    }
  }

  /**
   * With dot-free ids, each output's pipeline maps back to that output, with that output's
   * rate data.
   */
  lemma {:induction false} TablesInverse(inputId: string, outs: seq<string>, sources: map<string, DataFunctions>)
    requires forall o :: o in outs ==> o in sources && ChooseRate(inputId, o, sources[o]).Ok?
    requires DotlessIds(inputId, outs)
    requires Tables(inputId, outs, sources).Ok?
    ensures var l := Tables(inputId, outs, sources).value;
      forall o :: o in outs ==> (
        Pipe(inputId, o, sources) in l.stateMap && l.stateMap[Pipe(inputId, o, sources)] == o &&
        Pipe(inputId, o, sources) in l.tables &&
        l.tables[Pipe(inputId, o, sources)] == ChooseRate(inputId, o, sources[o]).value.data)
  {
    if outs != [] {
      var init := outs[..|outs| - 1];
      var last := outs[|outs| - 1];
      FrontAndLast(outs);
      TablesInverse(inputId, init, sources);
      var c := ChooseRate(inputId, last, sources[last]).value;
      forall o | o in init && Pipe(inputId, o, sources) == c.pipeline
        ensures o == last
      {
        var c' := ChooseRate(inputId, o, sources[o]).value;
        PipelineNameInjective(inputId, o, c'.measure, last, c.measure);
      }
    }
  }

  /** The pipeline names of the outputs, in order. */
  function PipelineNames(inputId: string, outs: seq<string>, sources: map<string, DataFunctions>): (r: seq<string>)
    requires forall o :: o in outs ==> o in sources && ChooseRate(inputId, o, sources[o]).Ok?
    ensures |r| == |outs|
    ensures forall k :: 0 <= k < |outs| ==> r[k] == ChooseRate(inputId, outs[k], sources[outs[k]]).value.pipeline
  {
    seq(|outs|, k requires 0 <= k < |outs| => ChooseRate(inputId, outs[k], sources[outs[k]]).value.pipeline)
  }

  /**
   * `_register_transition_pipelines`: output state to pipeline name, for each pipeline in
   * table order (a later pipeline of the same output wins, as in a dictionary).
   */
  function Register(names: seq<string>, stateMap: map<string, string>): map<string, string>
    requires forall p :: p in names ==> p in stateMap
  {
    if names == [] then map[]
    else
      var p := names[|names| - 1];
      Register(names[..|names| - 1], stateMap)[stateMap[p] := p]
  }

  /** Registered pipelines: exactly the outputs, each with its own pipeline. */
  lemma {:induction false} RegisterInverse(inputId: string, outs: seq<string>, sources: map<string, DataFunctions>,
                                            stateMap: map<string, string>, k: nat)
    requires forall o :: o in outs ==> o in sources && ChooseRate(inputId, o, sources[o]).Ok?
    requires forall o :: o in outs ==> (
      var p := ChooseRate(inputId, o, sources[o]).value.pipeline;
      p in stateMap && stateMap[p] == o)
    requires k <= |outs|
    ensures var reg := Register(PipelineNames(inputId, outs, sources)[..k], stateMap);
      (forall o :: o in reg <==> o in outs[..k]) &&
      (forall o :: o in reg ==> reg[o] == ChooseRate(inputId, o, sources[o]).value.pipeline)
  {
    if k > 0 {
      RegisterInverse(inputId, outs, sources, stateMap, k - 1);
      var names := PipelineNames(inputId, outs, sources);
      PrefixOfPrefix(names, k - 1, k);
      PrefixGrows(outs, k - 1);
    }
  }

  /** The registered pipeline of each output, once the tables are built. */
  function TransitionPipelinesOf(inputId: string, outs: seq<string>, sources: map<string, DataFunctions>): map<string, string>
    requires forall o :: o in outs ==> o in sources
    requires Tables(inputId, outs, sources).Ok?
  {
    TablesNamesKnown(inputId, outs, sources);
    Register(PipelineNames(inputId, outs, sources), Tables(inputId, outs, sources).value.stateMap)
  }

  /**
   * With dot-free ids, the registered pipelines are exactly the outputs, each with its own
   * pipeline: `get_rate_to_state` finds every output's rate and no other.
   */
  lemma RegisteredPipelines(inputId: string, outs: seq<string>, sources: map<string, DataFunctions>)
    requires forall o :: o in outs ==> o in sources
    requires DotlessIds(inputId, outs)
    requires Tables(inputId, outs, sources).Ok?
    ensures forall o :: o in outs ==> ChooseRate(inputId, o, sources[o]).Ok?
    ensures var reg := TransitionPipelinesOf(inputId, outs, sources);
      (forall o :: o in reg <==> o in outs) &&
      (forall o :: o in reg ==> reg[o] == Pipe(inputId, o, sources))
  {
    TablesOk(inputId, outs, sources);
    TablesNamesKnown(inputId, outs, sources);
    TablesInverse(inputId, outs, sources);
    var l := Tables(inputId, outs, sources).value;
    RegisterInverse(inputId, outs, sources, l.stateMap, |outs|);
    assert PipelineNames(inputId, outs, sources)[..|outs|] == PipelineNames(inputId, outs, sources);
    assert outs[..|outs|] == outs;
  }

  /** The PAF pipeline of every rate pipeline, `{pipeline}.paf`. */
  function PafPipelines(tables: map<string, RateData>): (r: map<string, string>)
    ensures r.Keys == tables.Keys
    ensures forall p :: p in r ==> r[p] == p + ".paf"
  {
    map p | p in tables :: p + ".paf"
  }

  class CompositeRateTransition {
    const inputStateId: string
    const outputStateId: string
    /** `_sub_transition_sources`, with `order` its key insertion order. */
    var sources: map<string, DataFunctions>
    var order: seq<string>
    var lookupTables: map<string, RateData>
    var pipelineStateMap: map<string, string>
    /** Output state to rate pipeline name. */
    var transitionPipelines: map<string, string>
    /** Rate pipeline to PAF pipeline name. */
    var transitionPafs: map<string, string>
    /** The name of the composite exit-rate pipeline, once set up. */
    var exitRateName: string

    /** The order lists every output state once. */
    ghost predicate Valid()
      reads this`order, this`sources
    {
      Distinct(order) && forall o :: o in sources <==> o in order
    }

    constructor(input: string, output: string)
      ensures inputStateId == input && outputStateId == output
      ensures sources == map[] && order == [] && Valid()
      ensures lookupTables == map[] && pipelineStateMap == map[]
      ensures transitionPipelines == map[] && transitionPafs == map[] && exitRateName == ""
    {
      inputStateId := input;
      outputStateId := output;
      sources := map[];
      order := [];
      lookupTables := map[];
      pipelineStateMap := map[];
      transitionPipelines := map[];
      transitionPafs := map[];
      exitRateName := "";
    }

    /** `add_transition`: records the output's data functions, replacing any earlier ones. */
    method AddTransition(output: string, fns: DataFunctions)
      requires Valid()
      modifies this
      ensures Valid()
      ensures sources == old(sources)[output := fns]
      ensures order == if output in old(sources) then old(order) else old(order) + [output]
      ensures lookupTables == old(lookupTables) && pipelineStateMap == old(pipelineStateMap)
      ensures transitionPipelines == old(transitionPipelines) && transitionPafs == old(transitionPafs)
      ensures exitRateName == old(exitRateName)
    {
      if output !in sources {
        order := order + [output];
      }
      sources := sources[output := fns];
    }

    /**
     * `_create_lookup_tables`: one table per output in order, filling the pipeline map as it
     * goes; the first output without a rate stops it with the error.
     */
    method CreateLookupTables() returns (r: Result<map<string, RateData>>)
      requires Valid()
      modifies this`pipelineStateMap
      ensures r.Ok? <==> Tables(inputStateId, order, sources).Ok?
      ensures Tables(inputStateId, order, sources).Ok? ==>
        r == Ok(Tables(inputStateId, order, sources).value.tables) &&
        pipelineStateMap == old(pipelineStateMap) + Tables(inputStateId, order, sources).value.stateMap
      ensures Tables(inputStateId, order, sources).Err? ==>
        r == Err(ValueError("No valid data functions supplied.")) &&
        exists k :: (0 <= k < |order| && Tables(inputStateId, order[..k], sources).Ok? &&
          ChooseRate(inputStateId, order[k], sources[order[k]]).Err? &&
          pipelineStateMap == old(pipelineStateMap) + Tables(inputStateId, order[..k], sources).value.stateMap)
    {
      var tables: map<string, RateData> := map[];
      var k := 0;
      // `built` is the lookup of the outputs handled so far
      ghost var built := Lookup(map[], map[]);
      while k < |order|
        invariant 0 <= k <= |order|
        invariant Tables(inputStateId, order[..k], sources) == Ok(built)
        invariant tables == built.tables
        invariant pipelineStateMap == old(pipelineStateMap) + built.stateMap
      {
        var o := order[k];
        var choice := ChooseRate(inputStateId, o, sources[o]);
        if choice.Err? {
          TablesFailAt(inputStateId, order, sources, k);
          assert 0 <= k < |order| && Tables(inputStateId, order[..k], sources).Ok? &&
            ChooseRate(inputStateId, order[k], sources[order[k]]).Err? &&
            pipelineStateMap == old(pipelineStateMap) + Tables(inputStateId, order[..k], sources).value.stateMap;
          r := Err(choice.error);
          return;
        }
        TablesStep(inputStateId, order, sources, k);
        tables := tables[choice.value.pipeline := choice.value.data];
        UnionUpdate(old(pipelineStateMap), built.stateMap, choice.value.pipeline, o);
        pipelineStateMap := pipelineStateMap[choice.value.pipeline := o];
        built := Lookup(built.tables[choice.value.pipeline := choice.value.data], built.stateMap[choice.value.pipeline := o]);
        k := k + 1;
      }
      assert order[..k] == order;
      r := Ok(tables);
    }

    /**
     * `setup`, as far as this transition's own state goes: a fresh pipeline map, the lookup
     * tables, the rate pipeline of each output, the PAF pipeline of each rate pipeline and
     * the composite exit-rate pipeline `{in}.composite_exit_rate`.
     */
    method Setup() returns (r: Result<()>)
      requires Valid()
      modifies this`pipelineStateMap, this`lookupTables, this`transitionPipelines
      modifies this`transitionPafs, this`exitRateName
      ensures Valid() && sources == old(sources) && order == old(order)
      ensures r.Ok? <==> Tables(inputStateId, order, sources).Ok?
      ensures r.Err? ==> r.error == ValueError("No valid data functions supplied.")
      ensures r.Ok? ==> (
        lookupTables == Tables(inputStateId, order, sources).value.tables &&
        pipelineStateMap == Tables(inputStateId, order, sources).value.stateMap &&
        transitionPafs == PafPipelines(lookupTables) &&
        exitRateName == inputStateId + ".composite_exit_rate")
      ensures r.Ok? ==> transitionPipelines == TransitionPipelinesOf(inputStateId, order, sources)
    {
      ghost var ord, src := order, sources;
      ghost var built := Tables(inputStateId, ord, src);
      pipelineStateMap := map[];
      var tables := CreateLookupTables();
      assert order == ord && sources == src;
      if tables.Err? {
        assert built.Err?;
        return Err(tables.error);
      }
      var pipelines := RegisterTransitionPipelines();
      assert pipelines == TransitionPipelinesOf(inputStateId, ord, src);
      assert built.Ok? && tables.value == built.value.tables;
      EmptyUnion(built.value.stateMap);
      assert pipelineStateMap == built.value.stateMap;
      lookupTables := tables.value;
      transitionPafs := PafPipelines(lookupTables);
      exitRateName := inputStateId + ".composite_exit_rate";
      transitionPipelines := pipelines;
      assert order == ord && sources == src;
      r := Ok(());
    }

    /**
     * `_register_transition_pipelines`: once the tables are built, the output state to rate
     * pipeline map, one entry per pipeline in table order.
     */
    method RegisterTransitionPipelines() returns (r: map<string, string>)
      requires Valid() && Tables(inputStateId, order, sources).Ok?
      ensures r == TransitionPipelinesOf(inputStateId, order, sources)
    {
      r := TransitionPipelinesOf(inputStateId, order, sources);
    }

    /** `get_rate_to_state`: the pipeline registered for the output; a KeyError for any other state. */
    function GetRateToState(output: string): (r: Result<string>)
      reads this
      ensures r.Ok? <==> output in transitionPipelines
      ensures r.Err? ==> r.error == KeyError(output)
      ensures r.Ok? ==> r.value == transitionPipelines[output]
    {
      if output in transitionPipelines then Ok(transitionPipelines[output]) else Err(KeyError(output))
    }
  }

  lemma EmptyUnion<K, V>(m: map<K, V>)
    ensures map[] + m == m
  {
  }

  lemma UnionUpdate<K, V>(m1: map<K, V>, m2: map<K, V>, k: K, v: V)
    ensures (m1 + m2)[k := v] == m1 + m2[k := v]
  {
  }

  /** A further output with a rate adds its table and its pipeline's entry. */
  lemma TablesStep(inputId: string, outs: seq<string>, sources: map<string, DataFunctions>, k: nat)
    requires forall o :: o in outs ==> o in sources
    requires k < |outs| && Tables(inputId, outs[..k], sources).Ok?
    requires ChooseRate(inputId, outs[k], sources[outs[k]]).Ok?
    ensures var l := Tables(inputId, outs[..k], sources).value;
      var c := ChooseRate(inputId, outs[k], sources[outs[k]]).value;
      Tables(inputId, outs[..k + 1], sources) == Ok(Lookup(l.tables[c.pipeline := c.data], l.stateMap[c.pipeline := outs[k]]))
  {
    PrefixOfPrefix(outs, k, k + 1);
  }

  /** An output without a rate at position `k`, after `k` good ones, fails the whole table. */
  lemma TablesFailAt(inputId: string, outs: seq<string>, sources: map<string, DataFunctions>, k: nat)
    requires forall o :: o in outs ==> o in sources
    requires k < |outs| && Tables(inputId, outs[..k], sources).Ok?
    requires ChooseRate(inputId, outs[k], sources[outs[k]]).Err?
    ensures Tables(inputId, outs, sources).Err?
    ensures ChooseRate(inputId, outs[k], sources[outs[k]]).error == ValueError("No valid data functions supplied.")
  {
    TablesOk(inputId, outs, sources);
  }

  // ---------------------------------------------------------------------------------
  // Rates, per simulant
  // ---------------------------------------------------------------------------------

  /**
   * The source of one rate pipeline for one simulant: zero when not alive, otherwise the
   * base rate times one minus the joint PAF.
   */
  function SubRate(alive: bool, base: real, jointPaf: real): (r: real)
    ensures !alive ==> r == 0.0
    ensures alive && base >= 0.0 && 0.0 <= jointPaf <= 1.0 ==> 0.0 <= r <= base
    ensures alive && jointPaf == 0.0 ==> r == base
  {
    if alive then base * (1.0 - jointPaf) else 0.0
  }

  /** The product of `1 - p` over the fractions. */
  function Survival(pafs: seq<real>): real
  {
    if pafs == [] then 1.0 else Survival(pafs[..|pafs| - 1]) * (1.0 - pafs[|pafs| - 1])
  }

  /**
   * The union post-processor of a PAF pipeline: the joint fraction of independent
   * fractions, `1 - prod(1 - p)`. The pipeline's own source contributes a 0.
   */
  function UnionPaf(pafs: seq<real>): (r: real)
    ensures |pafs| == 1 ==> r == pafs[0]
    ensures (forall i :: 0 <= i < |pafs| ==> pafs[i] == 0.0) ==> r == 0.0
  {
    assert |pafs| == 1 ==> Survival(pafs) == Survival([]) * (1.0 - pafs[0]) by {
      if |pafs| == 1 {
        assert pafs[..0] == [];
      }
    }
    if forall i :: 0 <= i < |pafs| ==> pafs[i] == 0.0 then
      SurvivalOfZeros(pafs);
      1.0 - Survival(pafs)
    else 1.0 - Survival(pafs)
  }

  /** No fraction at all leaves everyone: the survival product of zeros is 1. */
  lemma {:induction false} SurvivalOfZeros(pafs: seq<real>)
    requires forall i :: 0 <= i < |pafs| ==> pafs[i] == 0.0
    ensures Survival(pafs) == 1.0
  {
    if pafs != [] {
      SurvivalOfZeros(pafs[..|pafs| - 1]);
    }
  }

  lemma {:induction false} SurvivalBounds(pafs: seq<real>)
    requires forall i :: 0 <= i < |pafs| ==> 0.0 <= pafs[i] <= 1.0
    ensures 0.0 <= Survival(pafs) <= 1.0
  {
    if pafs != [] {
      SurvivalBounds(pafs[..|pafs| - 1]);
      var s := Survival(pafs[..|pafs| - 1]);
      var q := 1.0 - pafs[|pafs| - 1];
      assert 0.0 <= s * q <= s * 1.0;
    }
  }

  /** Fractions in [0, 1] give a joint fraction in [0, 1]. */
  lemma UnionPafBounds(pafs: seq<real>)
    requires forall i :: 0 <= i < |pafs| ==> 0.0 <= pafs[i] <= 1.0
    ensures 0.0 <= UnionPaf(pafs) <= 1.0
  {
    SurvivalBounds(pafs);
  }

  /** The PAF source's 0 changes nothing: the joint fraction of `[0] + modifiers` is that of the modifiers. */
  lemma {:induction false} UnionPafOfZeroSource(modifiers: seq<real>)
    ensures UnionPaf([0.0] + modifiers) == UnionPaf(modifiers)
  {
    SurvivalOfZeroSource(modifiers);
  }

  lemma {:induction false} SurvivalOfZeroSource(modifiers: seq<real>)
    ensures Survival([0.0] + modifiers) == Survival(modifiers)
  {
    if modifiers != [] {
      var init := modifiers[..|modifiers| - 1];
      assert ([0.0] + modifiers)[..|modifiers|] == [0.0] + init;
      SurvivalOfZeroSource(init);
    }
  }

  /** With no PAF modifier, a living simulant's sub-rate is its base rate. */
  lemma NoModifierBaseRate(base: real)
    ensures SubRate(true, base, UnionPaf([0.0])) == base
  {
    assert Survival([0.0]) == Survival([]) * (1.0 - 0.0);
  }

  /**
   * `compute_transition_rate`: the composite exit rate of a simulant is the sum of its
   * sub-rates. The sub-rates are concatenated first, so with no sub-rate there is nothing
   * to concatenate and the call is a ValueError.
   */
  function CompositeRate(subRates: seq<real>): (r: Result<real>)
    ensures r.Err? <==> subRates == []
    ensures r.Err? ==> r.error == ValueError("No objects to concatenate")
    ensures |subRates| == 1 ==> r == Ok(subRates[0])
  {
    assert |subRates| == 1 ==> Sum(subRates) == subRates[0] by {
      if |subRates| == 1 {
        assert subRates[..0] == [];
        assert Sum(subRates) == Sum(subRates[..0]) + subRates[0];
      }
    }
    if subRates == [] then Err(ValueError("No objects to concatenate")) else Ok(Sum(subRates))
  }

  /** With non-negative sub-rates the composite rate exists and bounds each of them. */
  lemma {:induction false} CompositeRateBounds(subRates: seq<real>, i: nat)
    requires forall j :: 0 <= j < |subRates| ==> subRates[j] >= 0.0
    requires i < |subRates|
    ensures CompositeRate(subRates).Ok? && 0.0 <= subRates[i] <= CompositeRate(subRates).value
  {
    SumBounds(subRates, i);
  }

  lemma {:induction false} SumBounds(subRates: seq<real>, i: nat)
    requires forall j :: 0 <= j < |subRates| ==> subRates[j] >= 0.0
    requires i < |subRates|
    ensures 0.0 <= subRates[i] <= Sum(subRates)
  {
    var init := subRates[..|subRates| - 1];
    SumNonNegative(init);
    if i < |subRates| - 1 {
      SumBounds(init, i);
    }
  }

  lemma {:induction false} SumNonNegative(s: seq<real>)
    requires forall j :: 0 <= j < |s| ==> s[j] >= 0.0
    ensures Sum(s) >= 0.0
  {
    if s != [] {
      SumNonNegative(s[..|s| - 1]);
    }
  }

  /** A dead simulant's composite exit rate is 0. */
  lemma {:induction false} CompositeRateOfDead(bases: seq<real>, pafs: seq<real>)
    requires |bases| == |pafs|
    ensures bases != [] ==> CompositeRate(seq(|bases|, i requires 0 <= i < |bases| => SubRate(false, bases[i], pafs[i]))) == Ok(0.0)
  {
    SumOfDead(bases, pafs);
  }

  lemma {:induction false} SumOfDead(bases: seq<real>, pafs: seq<real>)
    requires |bases| == |pafs|
    ensures Sum(seq(|bases|, i requires 0 <= i < |bases| => SubRate(false, bases[i], pafs[i]))) == 0.0
  {
    var rates := seq(|bases|, i requires 0 <= i < |bases| => SubRate(false, bases[i], pafs[i]));
    if bases != [] {
      var n := |bases| - 1;
      SumOfDead(bases[..n], pafs[..n]);
      assert rates[..n] == seq(n, i requires 0 <= i < n => SubRate(false, bases[..n][i], pafs[..n][i]));
    }
  }
}
