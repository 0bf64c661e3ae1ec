/**
 * The disease-model library the repository builds on (vivarium_public_health's disease states
 * and the data-getter callables handed to them), reduced to what the repository's own code
 * relies on: a state's id and kind, its construction options, and the transitions added to it.
 * The library itself is not part of this model; the conventions assumed here are listed in
 * the README.
 */
module Library {
  import opened Wrappers

  /** A data-getter callable, described by what it returns. */
  datatype Getter =
    | Constant(value: real)                 // returns a fixed number
    | Duration(days: real)                  // returns a fixed time span
    | Method(moduleName: string, name: string)  // a function looked up in a module
    | Load(key: string)                     // loads the artifact entry with this key

  /** `get_data_functions`: measure name to getter. */
  type DataFunctions = map<string, Getter>

  /** The classes of disease state; the multi-transition ones are the repository's own. */
  datatype StateKind =
    | Susceptible | Recovered | Disease | Transient | MultiTransitionSusceptible | MultiTransitionDisease

  /** The prefix of a state's name, `{prefix}.{state_id}`. */
  function KindPrefix(k: StateKind): string
  {
    match k
    case Susceptible => "susceptible_state"
    case Recovered => "recovered_state"
    case Disease => "disease_state"
    case Transient => "transient_disease_state"
    case MultiTransitionSusceptible => "multi_transition_susceptible_state"
    case MultiTransitionDisease => "multi_transition_disease_state"
  }

  /** A state as a transition refers to it. */
  datatype StateRef = StateRef(kind: StateKind, stateId: string)

  /** The state's name, `{kind}.{state_id}`. */
  function StateName(s: StateRef): string
  {
    KindPrefix(s.kind) + "." + s.stateId
  }

  /** Susceptible and recovered states are named after their cause. */
  function SusceptibleId(cause: string): string { "susceptible_to_" + cause }
  function RecoveredId(cause: string): string { "recovered_from_" + cause }

  /** The keyword arguments a state is built with. */
  datatype StateOptions = StateOptions(
    causeType: string,
    allowSelfTransition: bool,
    sideEffect: bool,
    cleanupFunction: bool,
    data: DataFunctions)

  /** `Trigger`: whether a transition starts inactive, active, or is not triggered at all. */
  datatype Trigger = NotTriggered | StartInactive | StartActive

  /** `Trigger[name]`: lookup by member name; an unknown name is a KeyError. */
  function TriggerOf(name: string): (r: Result<Trigger>)
    ensures r.Err? <==> name !in {"NOT_TRIGGERED", "START_INACTIVE", "START_ACTIVE"}
    ensures r.Err? ==> r.error == KeyError(name)
    ensures r == Ok(NotTriggered) <==> name == "NOT_TRIGGERED"
  {
    if name == "NOT_TRIGGERED" then Ok(NotTriggered)
    else if name == "START_INACTIVE" then Ok(StartInactive)
    else if name == "START_ACTIVE" then Ok(StartActive)
    else Err(KeyError(name))
  }

  /** How an exit's probability is obtained. */
  datatype ExitKind = RateExit | ProportionExit | DwellTimeExit | PlainExit

  /** One transition out of a state: where it goes, how, with what data and trigger. */
  datatype Exit = Exit(output: StateRef, kind: ExitKind, data: DataFunctions, triggered: Trigger)

  /** A state as the model records it once the transitions are added. */
  datatype StateSpec = StateSpec(ref: StateRef, options: StateOptions, selfTransition: bool, exits: seq<Exit>)

  /** A library disease state: options fixed at construction, transitions appended in place. */
  class DiseaseNode {
    const stateRef: StateRef
    const options: StateOptions
    var selfTransition: bool
    var exits: seq<Exit>
    var modelName: Option<string>

    constructor(r: StateRef, opts: StateOptions)
      ensures stateRef == r && options == opts
      ensures selfTransition == opts.allowSelfTransition && exits == [] && modelName == None
    {
      stateRef := r;
      options := opts;
      selfTransition := opts.allowSelfTransition;
      exits := [];
      modelName := None;
    }

    ghost function View(): StateSpec
      reads this
    {
      StateSpec(stateRef, options, selfTransition, exits)
    }

    /** `allow_self_transitions`: the state may keep simulants; no exit is added. */
    method AllowSelfTransitions()
      modifies this
      ensures selfTransition && exits == old(exits) && modelName == old(modelName)
    {
      selfTransition := true;
    }

    /** `add_rate_transition`. */
    method AddRateTransition(output: StateRef, data: DataFunctions, triggered: Trigger)
      modifies this
      ensures exits == old(exits) + [Exit(output, RateExit, data, triggered)]
      ensures selfTransition == old(selfTransition) && modelName == old(modelName)
    {
      exits := exits + [Exit(output, RateExit, data, triggered)];
    }

    /** `add_proportion_transition`. */
    method AddProportionTransition(output: StateRef, data: DataFunctions, triggered: Trigger)
      modifies this
      ensures exits == old(exits) + [Exit(output, ProportionExit, data, triggered)]
      ensures selfTransition == old(selfTransition) && modelName == old(modelName)
    {
      exits := exits + [Exit(output, ProportionExit, data, triggered)];
    }

    /** `add_dwell_time_transition`: taken once the state's dwell time has passed. */
    method AddDwellTimeTransition(output: StateRef, triggered: Trigger)
      modifies this
      ensures exits == old(exits) + [Exit(output, DwellTimeExit, map[], triggered)]
      ensures selfTransition == old(selfTransition) && modelName == old(modelName)
    {
      exits := exits + [Exit(output, DwellTimeExit, map[], triggered)];
    }

    /**
     * The older `add_transition(output, source_data_type, get_data_functions)`: no data type
     * gives a plain transition, "rate" and "proportion" their kinds, anything else a ValueError
     * with the state unchanged.
     */
    method AddTransition(output: StateRef, sourceDataType: Option<string>, data: DataFunctions)
      returns (r: Result<ExitKind>)
      modifies this
      ensures r.Ok? <==> sourceDataType in {None, Some("rate"), Some("proportion")}
      ensures r.Ok? ==> exits == old(exits) + [Exit(output, r.value, data, NotTriggered)]
      ensures r.Ok? ==> (r.value == RateExit <==> sourceDataType == Some("rate"))
      ensures r.Ok? ==> (r.value == ProportionExit <==> sourceDataType == Some("proportion"))
      ensures r.Ok? ==> (r.value == PlainExit <==> sourceDataType == None)
      ensures r.Err? ==> r.error.ValueError? && exits == old(exits)
      ensures selfTransition == old(selfTransition) && modelName == old(modelName)
    {
      var kind;
      match sourceDataType {
        case None => kind := PlainExit;
        case Some(t) =>
          if t == "rate" {
            kind := RateExit;
          } else if t == "proportion" {
            kind := ProportionExit;
          } else {
            return Err(ValueError("Unrecognized data type " + t));
          }
      }
      exits := exits + [Exit(output, kind, data, NotTriggered)];
      r := Ok(kind);
    }
  }
}
