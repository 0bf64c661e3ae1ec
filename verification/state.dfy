/**
 * `MultiTransitionState` (components/causes/state.py): a disease state with several rate
 * exits. It owns a transient state and one composite rate transition into it; each rate
 * exit is registered with the composite transition and becomes a transition out of the
 * transient state, taken with probability rate-to-that-state over total exit rate.
 */
module State {
  import opened Wrappers
  import opened Strings
  import opened Paf
  import opened Models
  import opened Transition
  import opened Library

  /** The composite exit into the transient state, or a conditional exit out of it. */
  datatype EdgeKind = CompositeExit | ConditionalExit

  datatype Edge = Edge(input: StateRef, output: StateRef, kind: EdgeKind)

  /** The library's transition name, `transition.{input name}.{output name}`. */
  function EdgeName(e: Edge): string
  {
    "transition." + StateName(e.input) + "." + StateName(e.output)
  }

  /** The transient state a multi-transition state passes through. */
  class TransientState {
    const stateRef: StateRef
    var modelName: Option<string>
    var transitions: seq<Edge>

    constructor(r: StateRef)
      ensures stateRef == r && modelName == None && transitions == []
    {
      stateRef := r;
      modelName := None;
      transitions := [];
    }

    method SetModel(name: string)
      modifies this
      ensures modelName == Some(name) && transitions == old(transitions)
    {
      modelName := Some(name);
    }
  }

  class MultiTransitionState {
    const stateRef: StateRef
    const options: StateOptions
    var modelName: Option<string>
    var transitionSet: seq<Edge>
    const transient: TransientState
    const rateTransition: CompositeRateTransition

    /**
     * The transient state is `transient_{state_id}`, the composite transition goes from this
     * state to it, and the transient state's exits are exactly the composite transition's
     * outputs, each a conditional exit.
     */
    ghost predicate Valid()
      reads this, transient, rateTransition
    {
      && transient.stateRef.stateId == "transient_" + stateRef.stateId
      && rateTransition.inputStateId == stateRef.stateId
      && rateTransition.outputStateId == transient.stateRef.stateId
      && rateTransition.Valid()
      && transitionSet == [Edge(stateRef, transient.stateRef, CompositeExit)]
      && (forall e :: e in transient.transitions ==> e.input == transient.stateRef && e.kind == ConditionalExit)
      && (set e | e in transient.transitions :: e.output.stateId) == rateTransition.sources.Keys
    }

    /**
     * `__init__` and `get_rate_transition`: the transient state `transient_{state_id}` and a
     * composite rate transition from this state to it, appended to the transition set.
     */
    constructor(r: StateRef, opts: StateOptions)
      ensures Valid() && fresh(transient) && fresh(rateTransition)
      ensures stateRef == r && options == opts && modelName == None
      ensures transient.stateRef == StateRef(Transient, "transient_" + r.stateId)
      ensures transient.transitions == [] && rateTransition.sources == map[]
    {
      stateRef := r;
      options := opts;
      modelName := None;
      var t := new TransientState(StateRef(Transient, "transient_" + r.stateId));
      transient := t;
      rateTransition := new CompositeRateTransition(r.stateId, "transient_" + r.stateId);
      transitionSet := [Edge(r, t.stateRef, CompositeExit)];
    }

    /**
     * The state as a disease graph records it: its exits are the transient state's exits,
     * each a rate exit with the data functions registered for its output.
     */
    ghost function View(): StateSpec
      reads this, transient, rateTransition
    {
      StateSpec(stateRef, options, options.allowSelfTransition, MultiExits(transient.transitions, rateTransition.sources))
    }

    /** `set_model`: the model name goes to this state and to its transient state. */
    method SetModel(name: string)
      requires Valid()
      modifies this, transient
      ensures Valid()
      ensures modelName == Some(name) && transient.modelName == Some(name)
      ensures transitionSet == old(transitionSet) && transient.transitions == old(transient.transitions)
    {
      modelName := Some(name);
      transient.SetModel(name);
    }

    /**
     * `add_transition`: only a rate exit is accepted. It registers the output's data
     * functions with the composite transition and appends one conditional exit from the
     * transient state to the output; the shared composite transition is returned.
     */
    method AddTransition(output: StateRef, sourceDataType: Option<string>, fns: DataFunctions)
      returns (r: Result<CompositeRateTransition>)
      requires Valid()
      modifies rateTransition, transient
      ensures Valid()
      ensures sourceDataType == Some("rate") ==> (
        r == Ok(rateTransition) &&
        rateTransition.sources == old(rateTransition.sources)[output.stateId := fns] &&
        transient.transitions == old(transient.transitions) + [Edge(transient.stateRef, output, ConditionalExit)] &&
        transient.modelName == old(transient.modelName))
      ensures sourceDataType != Some("rate") ==> (
        r == Err(ValueError("Only rate transitions are supported.")) &&
        unchanged(rateTransition) && unchanged(transient))
    {
      if sourceDataType == Some("rate") {
        rateTransition.AddTransition(output.stateId, fns);
        var e := Edge(transient.stateRef, output, ConditionalExit);
        transient.transitions := transient.transitions + [e];
        assert (set e' | e' in transient.transitions :: e'.output.stateId)
            == (set e' | e' in old(transient.transitions) :: e'.output.stateId) + {output.stateId};
        r := Ok(rateTransition);
      } else {
        r := Err(ValueError("Only rate transitions are supported."));
      }
    }

    /**
     * `get_transition_names`: for each exit of the transient state, the fifth dot-separated
     * field of its name is the end state, giving `{state_id}_TO_{end}`.
     */
    method GetTransitionNames() returns (r: Result<seq<TransitionString>>)
      ensures r == TransitionNames(stateRef.stateId, transient.transitions)
    {
      var edges := transient.transitions;
      ghost var rs := EdgeResults(stateRef.stateId, edges);
      var names: seq<TransitionString> := [];
      var k := 0;
      while k < |edges|
        invariant 0 <= k <= |edges|
        invariant Collect(rs[..k]) == Ok(names)
      {
        PrefixOfPrefix(rs, k, k + 1);
        var parts := Split(EdgeName(edges[k]), ".");
        if |parts| != 5 {
          CollectFailFrom(rs, k, |rs|);
          assert rs[..|rs|] == rs;
          return Err(ValueError("wrong number of values to unpack"));
        }
        var name := NewTransitionString(stateRef.stateId + "_TO_" + parts[4]);
        if name.Err? {
          CollectFailFrom(rs, k, |rs|);
          assert rs[..|rs|] == rs;
          return Err(name.error);
        }
        names := names + [name.value];
        k := k + 1;
      }
      assert rs[..k] == rs;
      r := Ok(names);
    }
  }

  /** The exits of the transient state as rate exits carrying the data registered for each output. */
  function MultiExits(edges: seq<Edge>, sources: map<string, DataFunctions>): (r: seq<Exit>)
    ensures |r| == |edges|
    ensures forall i :: 0 <= i < |edges| ==> r[i].output == edges[i].output && r[i].kind == RateExit
  {
    seq(|edges|, i requires 0 <= i < |edges| =>
      var o := edges[i].output.stateId;
      Exit(edges[i].output, RateExit, if o in sources then sources[o] else map[], NotTriggered))
  }

  /** The transition string of one exit: unpacking five fields, then the "_TO_" split. */
  function EdgeTransitionName(stateId: string, e: Edge): Result<TransitionString>
  {
    var parts := Split(EdgeName(e), ".");
    if |parts| != 5 then Err(ValueError("wrong number of values to unpack"))
    else NewTransitionString(stateId + "_TO_" + parts[4])
  }

  /** The values of the results in order, or the error of the first that failed. */
  function Collect<T>(rs: seq<Result<T>>): Result<seq<T>>
  {
    if rs == [] then Ok([])
    else
      match Collect(rs[..|rs| - 1])
      case Err(e) => Err(e)
      case Ok(vs) =>
        match rs[|rs| - 1]
        case Err(e) => Err(e)
        case Ok(v) => Ok(vs + [v])
  }

  /** A failure at `k`, after `k` successes, is the result of every longer prefix. */
  lemma {:induction false} CollectFailFrom<T>(rs: seq<Result<T>>, k: nat, n: nat)
    requires k < n <= |rs| && Collect(rs[..k]).Ok? && rs[k].Err?
    ensures Collect(rs[..n]) == Err(rs[k].error)
  {
    var prefix := rs[..n];
    assert prefix[..n - 1] == rs[..n - 1];
    if n - 1 > k {
      CollectFailFrom(rs, k, n - 1);
    } else {
      assert prefix[n - 1] == rs[k];
    }
  }

  /** The transition strings of the exits in order; the first exit that fails fails them all. */
  function TransitionNames(stateId: string, edges: seq<Edge>): Result<seq<TransitionString>>
  {
    Collect(EdgeResults(stateId, edges))
  }

  function EdgeResults(stateId: string, edges: seq<Edge>): (r: seq<Result<TransitionString>>)
    ensures |r| == |edges| && forall i :: 0 <= i < |edges| ==> r[i] == EdgeTransitionName(stateId, edges[i])
  {
    seq(|edges|, i requires 0 <= i < |edges| => EdgeTransitionName(stateId, edges[i]))
  }

  /** Dot-free parts, and lower-case ids (so each joins with "_TO_" into one clean split). */
  ghost predicate CleanRef(s: StateRef)
  {
    Dotless(KindPrefix(s.kind)) && Dotless(s.stateId) && NoUpper(s.stateId)
  }

  /** With clean states, an exit to `out` reads back as `{state_id}_to_{out}` from `state_id` to `out`. */
  lemma EdgeNameOfClean(stateId: string, e: Edge)
    requires NoUpper(stateId) && CleanRef(e.input) && CleanRef(e.output)
    ensures EdgeTransitionName(stateId, e) ==
      Ok(TransitionString(stateId + "_to_" + e.output.stateId, stateId, e.output.stateId))
  {
    var parts := EdgeNameParts(e);
    assert "."[..0] == [];
    assert Dotless("transition");
    SplitJoin(parts, ".", 0);
    assert Split(EdgeName(e), ".") == parts;
    TransitionOfStates(stateId, e.output.stateId);
  }

  /** The five dot-separated fields of an exit's pipeline name. */
  lemma EdgeNameParts(e: Edge) returns (parts: seq<string>)
    ensures parts == ["transition", KindPrefix(e.input.kind), e.input.stateId, KindPrefix(e.output.kind), e.output.stateId]
    ensures Join(parts, ".") == EdgeName(e)
  {
    var p, q := KindPrefix(e.input.kind), KindPrefix(e.output.kind);
    parts := ["transition", p, e.input.stateId, q, e.output.stateId];
    JoinFive("transition", p, e.input.stateId, q, e.output.stateId);
    TransitionPrefix(p + "." + e.input.stateId, q + "." + e.output.stateId);
  }

  /** Five fields joined with dots. */
  lemma JoinFive(a: string, b: string, c: string, d: string, e: string)
    ensures Join([a, b, c, d, e], ".") == a + "." + ((b + "." + c) + "." + (d + "." + e))
  {
    var parts := [a, b, c, d, e];
    assert parts[1..][1..][1..][1..] == [e];
    assert Join(parts[3..], ".") == d + "." + e;
    assert Join(parts[2..], ".") == c + "." + (d + "." + e);
    assert Join(parts[1..], ".") == b + "." + (c + "." + (d + "." + e));
  }

  lemma TransitionPrefix(a: string, b: string)
    ensures "transition" + "." + (a + "." + b) == "transition." + a + "." + b
  {
    assert "transition" + "." == "transition.";
  }

  /** With clean states, every exit of the transient state yields its `{state_id}_to_{end}`. */
  lemma {:induction false} TransitionNamesOfClean(stateId: string, edges: seq<Edge>)
    requires NoUpper(stateId)
    requires forall e :: e in edges ==> CleanRef(e.input) && CleanRef(e.output)
    ensures TransitionNames(stateId, edges).Ok?
    ensures |TransitionNames(stateId, edges).value| == |edges|
    ensures forall i :: 0 <= i < |edges| ==> (TransitionNames(stateId, edges).value[i] ==
      TransitionString(stateId + "_to_" + edges[i].output.stateId, stateId, edges[i].output.stateId))
  {
    var rs := EdgeResults(stateId, edges);
    forall i | 0 <= i < |edges|
      ensures rs[i] == Ok(TransitionString(stateId + "_to_" + edges[i].output.stateId, stateId, edges[i].output.stateId))
    {
      EdgeNameOfClean(stateId, edges[i]);
    }
    CollectAllOk(rs);
  }

  /** When every result succeeds, the values are collected in order. */
  lemma {:induction false} CollectAllOk<T>(rs: seq<Result<T>>)
    requires forall i :: 0 <= i < |rs| ==> rs[i].Ok?
    ensures Collect(rs).Ok? && |Collect(rs).value| == |rs|
    ensures forall i :: 0 <= i < |rs| ==> Collect(rs).value[i] == rs[i].value
  {
    if rs != [] {
      CollectAllOk(rs[..|rs| - 1]);
    }
  }

  // ---------------------------------------------------------------------------------
  // Conditional exit probabilities, per simulant
  // ---------------------------------------------------------------------------------

  /**
   * `get_probability`: the rate to the output over the total exit rate; no probability when
   * the total is 0 (the division gives no number there).
   */
  function GetProbability(rateToState: real, total: real): (r: Option<real>)
    ensures r.None? <==> total == 0.0
    ensures r.Some? ==> r.value * total == rateToState
  {
    if total == 0.0 then None else Some(rateToState / total)
  }

  /** The probability of each exit when the exit rates are `rates`. */
  function ExitProbabilities(rates: seq<real>): (r: seq<real>)
    requires CompositeRate(rates).Ok? && CompositeRate(rates).value != 0.0
    ensures |r| == |rates|
    ensures forall i :: 0 <= i < |rates| ==> Some(r[i]) == GetProbability(rates[i], CompositeRate(rates).value)
  {
    var total := CompositeRate(rates).value;
    seq(|rates|, i requires 0 <= i < |rates| => rates[i] / total)
  }

  lemma {:induction false} SumScaled(s: seq<real>, t: real)
    requires t != 0.0
    ensures Sum(seq(|s|, i requires 0 <= i < |s| => s[i] / t)) == Sum(s) / t
  {
    if s != [] {
      var n := |s| - 1;
      SumScaled(s[..n], t);
      var scaled := seq(|s|, i requires 0 <= i < |s| => s[i] / t);
      assert scaled[..n] == seq(n, i requires 0 <= i < n => s[..n][i] / t);
      DivAdd(Sum(s[..n]), s[n], t);
    }
  }

  lemma DivAdd(a: real, b: real, t: real)
    requires t != 0.0
    ensures a / t + b / t == (a + b) / t
  {
  }

  /** As the total is the sum of the exit rates, the exit probabilities sum to 1. */
  lemma ProbabilitiesSumToOne(rates: seq<real>)
    requires CompositeRate(rates).Ok? && CompositeRate(rates).value != 0.0
    ensures Sum(ExitProbabilities(rates)) == 1.0
  {
    var t := CompositeRate(rates).value;
    assert t == Sum(rates);
    SumScaled(rates, t);
    assert ExitProbabilities(rates) == seq(|rates|, i requires 0 <= i < |rates| => rates[i] / t);
    assert Sum(rates) / t == 1.0;
  }

  /** Non-negative exit rates with a positive total give probabilities in [0, 1]. */
  lemma ProbabilityBounds(rates: seq<real>, i: nat)
    requires forall j :: 0 <= j < |rates| ==> rates[j] >= 0.0
    requires CompositeRate(rates).Ok? && CompositeRate(rates).value > 0.0 && i < |rates|
    ensures 0.0 <= ExitProbabilities(rates)[i] <= 1.0
  {
    CompositeRateBounds(rates, i);
    var t := CompositeRate(rates).value;
    assert ExitProbabilities(rates)[i] == rates[i] / t;
    assert rates[i] / t <= t / t;
  }
}
