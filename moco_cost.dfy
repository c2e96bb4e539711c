/**
 * A term of the cost functional: a weight that scales both the integrand and
 * the endpoint value that the concrete cost computes, and the binding to the
 * model the cost was initialized on.
 */
module Costs {

  import opened Wrappers
  import opened MocoTypes

  /** Which concrete cost this is. `BaseCost` keeps the base class's hooks,
      which leave the value at its starting 0; `FinalTime` is the final-time
      cost; `Custom` stands for a user-defined subclass, given by what its two
      hooks compute. */
  datatype CostKind =
    | BaseCost
    | FinalTime
    | Custom(integrand: State -> real, endpoint: State -> real)

  /** The value the kind's integrand hook leaves in a variable that starts at 0. */
  function IntegrandImpl(kind: CostKind, s: State): real
  {
    match kind
    case BaseCost => 0.0
    case FinalTime => 0.0
    case Custom(f, _) => f(s)
  }

  /** The value the kind's endpoint hook leaves in a variable that starts at 0. */
  function EndpointImpl(kind: CostKind, finalState: State): real
  {
    match kind
    case BaseCost => 0.0
    case FinalTime => finalState.time
    case Custom(_, g) => g(finalState)
  }

  class MocoCost {
    var name: string
    /** The cost value is multiplied by this weight (default 1). */
    var weight: real
    const kind: CostKind
    /** The model bound by the latest initializeOnModel, if any. */
    var model: Option<Model>

    /** A cost with the default name "cost" and weight 1, bound to no model. */
    constructor (kind: CostKind)
      ensures this.kind == kind && name == "cost" && weight == 1.0 && model == None
    {
      this.kind := kind;
      name := "cost";
      weight := 1.0;
      model := None;
    }

    constructor Named(name: string, kind: CostKind)
      ensures this.kind == kind && this.name == name && weight == 1.0 && model == None
    {
      this.kind := kind;
      this.name := name;
      weight := 1.0;
      model := None;
    }

    constructor NamedWeighted(name: string, weight: real, kind: CostKind)
      ensures this.kind == kind && this.name == name && this.weight == weight && model == None
    {
      this.kind := kind;
      this.name := name;
      this.weight := weight;
      model := None;
    }

    /** The integral cost at one instant, weight included. */
    function CalcIntegralCost(s: State): (r: real)
      reads this
      ensures weight == 0.0 ==> r == 0.0
      ensures kind.BaseCost? || kind.FinalTime? ==> r == 0.0
      ensures kind.Custom? ==> r == weight * kind.integrand(s)
    {
      weight * IntegrandImpl(kind, s)
    }

    /** The endpoint cost at the final state, weight included. */
    function CalcEndpointCost(finalState: State): (r: real)
      reads this
      ensures weight == 0.0 ==> r == 0.0
      ensures kind.BaseCost? ==> r == 0.0
      ensures kind.FinalTime? ==> r == weight * finalState.time
      ensures kind.Custom? ==> r == weight * kind.endpoint(finalState)
    {
      weight * EndpointImpl(kind, finalState)
    }

    /** The bound model; fails until initializeOnModel has been called. */
    function GetModel(): (r: Result<Model, string>)
      reads this
      ensures r.Failure? <==> model.None?
      ensures model.Some? ==> r == Success(model.value)
    {
      match model
      case None => Failure("Model is not available until the start of initializing.")
      case Some(m) => Success(m)
    }

    /** Bind this cost to `m`. The kind's own initialization hook has nothing
        to cache for the kinds modelled here. */
    method InitializeOnModel(m: Model)
      modifies this`model
      ensures model == Some(m)
      ensures GetModel() == Success(m)
    {
      model := Some(m);
    }
  }
}
