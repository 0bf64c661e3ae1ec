/**
 * Disease-model name constants and the `TransitionString` value type
 * (constants/models.py).
 */
module Models {
  import opened Wrappers
  import opened Strings

  /**
   * A `str` subclass: the string itself is the lower-cased input, and `from_state` and
   * `to_state` are the two halves of the ORIGINAL input around its only "_TO_".
   */
  datatype TransitionString = TransitionString(value: string, fromState: string, toState: string)

  const TO_SEPARATOR := "_TO_"

  /** `TransitionString(value)`: tuple-unpacking `value.split('_TO_')` fails unless there are exactly two parts. */
  function NewTransitionString(value: string): (r: Result<TransitionString>)
    ensures r.Ok? <==> |Split(value, TO_SEPARATOR)| == 2
    ensures r.Ok? ==> r.value.value == Lower(value)
    ensures r.Ok? ==> r.value.fromState + TO_SEPARATOR + r.value.toState == value
    ensures r.Ok? ==> !Contains(r.value.fromState, TO_SEPARATOR) && !Contains(r.value.toState, TO_SEPARATOR)
    ensures r.Err? ==> r.error.ValueError?
  {
    var parts := Split(value, TO_SEPARATOR);
    if |parts| == 2 then
      JoinSplit(value, TO_SEPARATOR);
      Ok(TransitionString(Lower(value), parts[0], parts[1]))
    else
      Err(ValueError("expected exactly one '_TO_' in a transition string"))
  }

  predicate NoUpper(s: string)
  {
    forall i :: 0 <= i < |s| ==> !IsUpper(s[i])
  }

  /** Lower-casing works character by character, so it distributes over concatenation. */
  lemma LowerConcat(x: string, y: string)
    ensures Lower(x + y) == Lower(x) + Lower(y)
  {
    assert forall i :: 0 <= i < |x + y| ==> Lower(x + y)[i] == (Lower(x) + Lower(y))[i];
  }

  /** The separator lower-cases to "_to_". */
  lemma LowerSeparator()
    ensures Lower(TO_SEPARATOR) == "_to_"
  {
    assert LowerChar('T') == 't' && LowerChar('O') == 'o' && LowerChar('_') == '_';
  }

  /** Lower-case names joined by "_TO_" split back into exactly those names. */
  lemma SplitOfStates(from: string, to: string)
    requires NoUpper(from) && NoUpper(to)
    ensures Split(from + TO_SEPARATOR + to, TO_SEPARATOR) == [from, to]
  {
    assert TO_SEPARATOR[1] == 'T' && TO_SEPARATOR[..1] == "_";
    assert Lacks(from, 'T') && Lacks(to, 'T');
    SplitAfter(from, TO_SEPARATOR, to, 1);
    SplitWithout(to, TO_SEPARATOR, 'T');
  }

  /**
   * Two lower-case state names joined by "_TO_" build a transition string whose halves
   * are exactly those names and whose value is the join with "_to_".
   */
  lemma TransitionOfStates(from: string, to: string)
    requires NoUpper(from) && NoUpper(to)
    ensures NewTransitionString(from + TO_SEPARATOR + to)
         == Ok(TransitionString(from + "_to_" + to, from, to))
  {
    SplitOfStates(from, to);
    LowerConcat(from + TO_SEPARATOR, to);
    LowerConcat(from, TO_SEPARATOR);
    LowerOfLower(from);
    LowerOfLower(to);
    LowerSeparator();
  }

  /** The f-string values `f"{from}_TO_{to}"` of a sequence of state pairs. */
  function TransitionValues(pairs: seq<(string, string)>): (r: seq<string>)
    ensures |r| == |pairs|
  {
    seq(|pairs|, i requires 0 <= i < |pairs| => pairs[i].0 + TO_SEPARATOR + pairs[i].1)
  }

  /** The transition strings expected from a sequence of state pairs. */
  function ExpectedTransitions(pairs: seq<(string, string)>): (r: seq<TransitionString>)
    ensures |r| == |pairs|
  {
    seq(|pairs|, i requires 0 <= i < |pairs| => TransitionString(pairs[i].0 + "_to_" + pairs[i].1, pairs[i].0, pairs[i].1))
  }

  /** The disease models known to the state-machine map: its states and its transitions. */
  datatype StateMachine = StateMachine(states: seq<string>, transitions: seq<TransitionString>)

  const ISCHEMIC_STROKE_MODEL_NAME := "ischemic_stroke"
  const ISCHEMIC_STROKE_SUSCEPTIBLE_STATE_NAME := "susceptible_to_" + ISCHEMIC_STROKE_MODEL_NAME
  const ACUTE_ISCHEMIC_STROKE_STATE_NAME := "acute_ischemic_stroke"
  const CHRONIC_ISCHEMIC_STROKE_STATE_NAME := "chronic_ischemic_stroke"

  const ISCHEMIC_STROKE_MODEL_STATES: seq<string> :=
    [ISCHEMIC_STROKE_SUSCEPTIBLE_STATE_NAME, ACUTE_ISCHEMIC_STROKE_STATE_NAME, CHRONIC_ISCHEMIC_STROKE_STATE_NAME]

  /** The three stroke transitions, as the (from, to) pairs their f-strings join. */
  const ISCHEMIC_STROKE_TRANSITION_PAIRS: seq<(string, string)> := [
    (ISCHEMIC_STROKE_SUSCEPTIBLE_STATE_NAME, ACUTE_ISCHEMIC_STROKE_STATE_NAME),
    (ACUTE_ISCHEMIC_STROKE_STATE_NAME, CHRONIC_ISCHEMIC_STROKE_STATE_NAME),
    (CHRONIC_ISCHEMIC_STROKE_STATE_NAME, ACUTE_ISCHEMIC_STROKE_STATE_NAME)
  ]

  /** Builds every transition string of a tuple, failing on the first malformed one. */
  function NewTransitionStrings(values: seq<string>): (r: Result<seq<TransitionString>>)
    ensures r.Ok? <==> forall i :: 0 <= i < |values| ==> NewTransitionString(values[i]).Ok?
    ensures r.Ok? ==> (|r.value| == |values|
      && forall i :: 0 <= i < |values| ==> r.value[i] == NewTransitionString(values[i]).value)
  {
    if values == [] then Ok([])
    else
      match NewTransitionString(values[0])
      case Err(e) => Err(e)
      case Ok(t) =>
        match NewTransitionStrings(values[1..])
        case Err(e) => Err(e)
        case Ok(ts) => Ok([t] + ts)
  }

  /** `STATES`: the states of every model of the map, in map order. */
  function AllStates(machines: seq<(string, StateMachine)>): (r: seq<string>)
    ensures forall s :: s in r <==> exists i :: 0 <= i < |machines| && s in machines[i].1.states
  {
    if machines == [] then [] else machines[0].1.states + AllStates(machines[1..])
  }

  /** `TRANSITIONS`: the transitions of every model of the map, in map order. */
  function AllTransitions(machines: seq<(string, StateMachine)>): (r: seq<TransitionString>)
    ensures forall t :: t in r <==> exists i :: 0 <= i < |machines| && t in machines[i].1.transitions
  {
    if machines == [] then [] else machines[0].1.transitions + AllTransitions(machines[1..])
  }

  /** The stroke state names contain no upper-case letter. */
  lemma StrokeNamesLowerCase()
    ensures NoUpper(ISCHEMIC_STROKE_SUSCEPTIBLE_STATE_NAME)
    ensures NoUpper(ACUTE_ISCHEMIC_STROKE_STATE_NAME)
    ensures NoUpper(CHRONIC_ISCHEMIC_STROKE_STATE_NAME)
  {
  }

  /** Pairs of lower-case state names always build, into exactly the expected transition strings. */
  lemma TransitionsOfPairs(pairs: seq<(string, string)>)
    requires forall i :: 0 <= i < |pairs| ==> NoUpper(pairs[i].0) && NoUpper(pairs[i].1)
    ensures NewTransitionStrings(TransitionValues(pairs)) == Ok(ExpectedTransitions(pairs))
  {
    forall i | 0 <= i < |pairs|
      ensures NewTransitionString(TransitionValues(pairs)[i]) == Ok(ExpectedTransitions(pairs)[i])
    {
      TransitionOfStates(pairs[i].0, pairs[i].1);
    }
    var r := NewTransitionStrings(TransitionValues(pairs));
    assert r.Ok?;
    assert forall i :: 0 <= i < |pairs| ==> r.value[i] == ExpectedTransitions(pairs)[i];
    assert r.value == ExpectedTransitions(pairs);
  }

  const ISCHEMIC_STROKE_MODEL_TRANSITIONS: seq<TransitionString> := ExpectedTransitions(ISCHEMIC_STROKE_TRANSITION_PAIRS)

  /** Building the stroke transition strings succeeds and yields exactly the tuple above. */
  lemma StrokeTransitionStrings()
    ensures NewTransitionStrings(TransitionValues(ISCHEMIC_STROKE_TRANSITION_PAIRS)) == Ok(ISCHEMIC_STROKE_MODEL_TRANSITIONS)
  {
    StrokeNamesLowerCase();
    TransitionsOfPairs(ISCHEMIC_STROKE_TRANSITION_PAIRS);
  }

  const STATE_MACHINE_MAP: seq<(string, StateMachine)> :=
    [(ISCHEMIC_STROKE_MODEL_NAME, StateMachine(ISCHEMIC_STROKE_MODEL_STATES, ISCHEMIC_STROKE_MODEL_TRANSITIONS))]

  /**
   * `STATES` and `TRANSITIONS` are the stroke states and transitions, and every transition
   * joins two stroke states.
   */
  lemma StrokeStateMachine()
    ensures AllStates(STATE_MACHINE_MAP) == ISCHEMIC_STROKE_MODEL_STATES
    ensures AllTransitions(STATE_MACHINE_MAP) == ISCHEMIC_STROKE_MODEL_TRANSITIONS
    ensures forall t :: t in AllTransitions(STATE_MACHINE_MAP) ==>
      t.fromState in AllStates(STATE_MACHINE_MAP) && t.toState in AllStates(STATE_MACHINE_MAP)
  {
    assert AllStates(STATE_MACHINE_MAP[1..]) == [];
    assert AllTransitions(STATE_MACHINE_MAP[1..]) == [];
  }
}
