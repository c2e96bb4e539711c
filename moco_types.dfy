/**
 * Value types shared by the problem declaration, the costs and the goals:
 * bounds, variable infos, parameters, and the abstractions of the dynamics
 * model and of a realized state.
 */
module MocoTypes {

  import opened Wrappers

  /** A bound end or a distance: a finite number, or one of the two
      infinities (`SimTK::Infinity` and its negation). */
  datatype Extended = NegInf | Finite(x: real) | PosInf

  /** The order of the extended reals: -inf below every number, +inf above. */
  predicate AtMost(a: Extended, b: Extended)
  {
    match (a, b)
    case (NegInf, _) => true
    case (_, PosInf) => true
    case (Finite(x), Finite(y)) => x <= y
    case _ => false
  }

  /** `AtMost` is a total order, and it agrees with `<=` on finite ends. */
  lemma AtMostTotalOrder(a: Extended, b: Extended, c: Extended)
    ensures AtMost(a, a)
    ensures AtMost(a, b) || AtMost(b, a)
    ensures AtMost(a, b) && AtMost(b, a) ==> a == b
    ensures AtMost(a, b) && AtMost(b, c) ==> AtMost(a, c)
    ensures a.Finite? && b.Finite? ==> (AtMost(a, b) <==> a.x <= b.x)
  {
  }

  /** A bounds value as constructed: either the "unspecified" sentinel
      (default-constructed `{}`), or an interval whose lower end does not
      exceed its upper end. Either end may be infinite. */
  datatype BoundsValue = Unspecified | Range(lower: Extended, upper: Extended)

  /** Bounds that construction accepted: an interval with lower > upper is
      rejected when it is built, so no such value reaches a setter. */
  type MocoBounds = b: BoundsValue | b.Unspecified? || AtMost(b.lower, b.upper)
    witness Unspecified

  /** Bounds pinned to a single value. */
  function Fixed(v: real): MocoBounds
  {
    Range(Finite(v), Finite(v))
  }

  /** Finite bounds from `lower` to `upper`, which must be ordered. */
  function Between(lower: real, upper: real): MocoBounds
    requires lower <= upper
  {
    Range(Finite(lower), Finite(upper))
  }

  /** Build bounds from a lower and an upper end; fails when lower > upper. */
  function MakeBounds(lower: Extended, upper: Extended): (r: Result<MocoBounds, string>)
    ensures r.Success? <==> AtMost(lower, upper)
    ensures r.Success? ==> r.value.Range? && r.value.lower == lower && r.value.upper == upper
  {
    if AtMost(lower, upper) then Success(Range(lower, upper))
    else Failure("lower bound exceeds upper bound")
  }

  /** Explicit information about one state or control variable. */
  datatype VariableInfo = VariableInfo(
    name: string,
    bounds: MocoBounds,
    initialBounds: MocoBounds,
    finalBounds: MocoBounds)

  /** A parameter: a named model property optimised as a time-invariant
      decision variable. */
  datatype Parameter = Parameter(
    name: string,
    componentPath: string,
    propertyName: string,
    bounds: MocoBounds)

  /** The dynamics model, reduced to what this core reads from it: the map
      from each control's name to its position in the model's control
      vector. Building that map is the model's business. */
  datatype Model = Model(controlIndices: map<string, nat>)

  /** A realized state: its time and the model's control vector. */
  datatype State = State(time: real, controls: seq<real>)

  /** Position of the first occurrence of `name` in `names`, searching from `from`. */
  function FirstIndexOf(names: seq<string>, name: string, from: nat): (r: Option<nat>)
    requires from <= |names|
    decreases |names| - from
    ensures r.Some? ==> from <= r.value < |names| && names[r.value] == name
    ensures r.Some? ==> forall j :: from <= j < r.value ==> names[j] != name
    ensures r.None? <==> forall j :: from <= j < |names| ==> names[j] != name
  {
    if from == |names| then None
    else if names[from] == name then Some(from)
    else FirstIndexOf(names, name, from + 1)
  }

  /** The first occurrence is determined by the names alone. */
  lemma {:induction false} FirstIndexOfIs(names: seq<string>, name: string, from: nat, k: nat)
    requires from <= k < |names| && names[k] == name
    requires forall j :: from <= j < k ==> names[j] != name
    ensures FirstIndexOf(names, name, from) == Some(k)
    decreases k - from
  {
    if from < k {
      FirstIndexOfIs(names, name, from + 1, k);
    }
  }
}
