/**
 * The control-tracking goal: at initialization it matches the columns of a
 * reference table against the model's controls and records, for every
 * tracked column, the control's index, its weight, the reference column's
 * interpolant and its name; its integrand is the weighted sum of squared
 * differences between the tracked controls and their references.
 *
 * An interpolant is represented by the position of the reference column it
 * was fit to; evaluating the interpolants at the state's time is done by the
 * caller, which passes the value of every reference column at that time.
 */
module ControlTracking {

  import opened Wrappers
  import opened MocoTypes

  /** One entry of the goal's weight set. */
  datatype ControlWeight = ControlWeight(name: string, weight: real)

  /** Why initialization was rejected. */
  datatype InitError =
    | RedundantLabels
    | UnrecognizedWeight(name: string)
    | UnrecognizedReference(name: string)

  /** What initialization records for one tracked reference column. */
  datatype Tracked = Tracked(index: nat, weight: real, column: nat, name: string)

  /** The entries initialization appends to the goal's lists, and the error
      that stopped it, if any. */
  datatype InitResult = InitResult(appended: seq<Tracked>, error: Option<InitError>)

  /** Some column label occurs twice. */
  predicate HasRedundantLabels(labels: seq<string>)
  {
    exists i, j | 0 <= i < j < |labels| :: labels[i] == labels[j]
  }

  function WeightNames(weights: seq<ControlWeight>): (r: seq<string>)
    ensures |r| == |weights| && forall i :: 0 <= i < |weights| ==> r[i] == weights[i].name
  {
    seq(|weights|, i requires 0 <= i < |weights| => weights[i].name)
  }

  /** The weight stored for `name` in the weight set, if the set contains it. */
  function FindWeight(weights: seq<ControlWeight>, name: string): Option<real>
  {
    match FirstIndexOf(WeightNames(weights), name, 0)
    case Some(k) => Some(weights[k].weight)
    case None => None
  }

  /** The weight a tracked control gets: the weight set's entry, else 1. */
  function WeightFor(weights: seq<ControlWeight>, name: string): (w: real)
    ensures (forall k :: 0 <= k < |weights| ==> weights[k].name != name) ==> w == 1.0
    ensures (exists k :: 0 <= k < |weights| && weights[k].name == name) ==>
      exists k :: 0 <= k < |weights| && weights[k].name == name && weights[k].weight == w
  {
    match FindWeight(weights, name)
    case Some(v) => v
    case None => 1.0
  }

  /** Position of the first weight-set entry, from `from` on, that names no control. */
  function FirstUnknownWeight(weights: seq<ControlWeight>, controls: map<string, nat>, from: nat): (r: Option<nat>)
    requires from <= |weights|
    decreases |weights| - from
    ensures r.Some? ==> from <= r.value < |weights| && weights[r.value].name !in controls
    ensures r.Some? ==> forall j :: from <= j < r.value ==> weights[j].name in controls
    ensures r.None? <==> forall j :: from <= j < |weights| ==> weights[j].name in controls
  {
    if from == |weights| then None
    else if weights[from].name !in controls then Some(from)
    else FirstUnknownWeight(weights, controls, from + 1)
  }

  /** Position of the first reference label, from `from` on, that is no control. */
  function FirstUnmatched(labels: seq<string>, controls: map<string, nat>, from: nat): (r: Option<nat>)
    requires from <= |labels|
    decreases |labels| - from
    ensures r.Some? ==> from <= r.value < |labels| && labels[r.value] !in controls
    ensures r.Some? ==> forall j :: from <= j < r.value ==> labels[j] in controls
    ensures r.None? <==> forall j :: from <= j < |labels| ==> labels[j] in controls
  {
    if from == |labels| then None
    else if labels[from] !in controls then Some(from)
    else FirstUnmatched(labels, controls, from + 1)
  }

  /** The entries recorded for the first `n` reference columns: one per
      column whose label is a control, in column order, each with the
      control's index and its weight. */
  function Track(labels: seq<string>, controls: map<string, nat>, weights: seq<ControlWeight>, n: nat): (r: seq<Tracked>)
    requires n <= |labels|
    ensures |r| <= n
  {
    if n == 0 then []
    else
      var prev := Track(labels, controls, weights, n - 1);
      var name := labels[n - 1];
      if name in controls then prev + [Tracked(controls[name], WeightFor(weights, name), n - 1, name)]
      else prev
  }

  /** One step of `Track`: column `i` is appended exactly when its label is a control. */
  lemma TrackStep(labels: seq<string>, controls: map<string, nat>, weights: seq<ControlWeight>, i: nat)
    requires i < |labels|
    ensures labels[i] !in controls ==> Track(labels, controls, weights, i + 1) == Track(labels, controls, weights, i)
    ensures labels[i] in controls ==>
      Track(labels, controls, weights, i + 1) ==
      Track(labels, controls, weights, i) + [Tracked(controls[labels[i]], WeightFor(weights, labels[i]), i, labels[i])]
  {
  }

  /** Each entry of `ts` is a control-labelled column among the first `n`,
      with that control's index and weight, and the columns increase. */
  ghost predicate TracksControls(labels: seq<string>, controls: map<string, nat>,
                                 weights: seq<ControlWeight>, n: nat, ts: seq<Tracked>)
    requires n <= |labels|
  {
    && (forall i :: 0 <= i < |ts| ==>
          && ts[i].column < n
          && ts[i].name == labels[ts[i].column]
          && ts[i].name in controls
          && ts[i].index == controls[ts[i].name]
          && ts[i].weight == WeightFor(weights, ts[i].name))
    && (forall i, j :: 0 <= i < j < |ts| ==> ts[i].column < ts[j].column)
  }

  lemma {:induction false} TrackSound(labels: seq<string>, controls: map<string, nat>,
                                      weights: seq<ControlWeight>, n: nat)
    requires n <= |labels|
    ensures TracksControls(labels, controls, weights, n, Track(labels, controls, weights, n))
  {
    if n > 0 {
      TrackSound(labels, controls, weights, n - 1);
    }
  }

  /** Every column among the first `n` whose label is a control is tracked. */
  lemma {:induction false} TrackComplete(labels: seq<string>, controls: map<string, nat>,
                                         weights: seq<ControlWeight>, n: nat, j: nat)
    requires j < n <= |labels| && labels[j] in controls
    ensures exists i :: 0 <= i < |Track(labels, controls, weights, n)| &&
                        Track(labels, controls, weights, n)[i].column == j
  {
    var r := Track(labels, controls, weights, n);
    if j == n - 1 {
      assert r[|r| - 1].column == j;
    } else {
      TrackComplete(labels, controls, weights, n - 1, j);
      var prev := Track(labels, controls, weights, n - 1);
      var i :| 0 <= i < |prev| && prev[i].column == j;
      assert r[i] == prev[i];
    }
  }

  /** When every one of the first `n` labels is a control, entry `i` is column `i`. */
  lemma {:induction false} TrackAllMatched(labels: seq<string>, controls: map<string, nat>,
                                           weights: seq<ControlWeight>, n: nat)
    requires n <= |labels|
    requires forall j :: 0 <= j < n ==> labels[j] in controls
    ensures |Track(labels, controls, weights, n)| == n
    ensures forall i :: 0 <= i < n ==> Track(labels, controls, weights, n)[i].column == i
  {
    if n > 0 {
      TrackAllMatched(labels, controls, weights, n - 1);
    }
  }

  /** What initialization does, error paths included: duplicate reference
      labels are rejected first, then weight-set names that are not controls;
      then the reference columns are walked in order, skipping (or, unless
      unused references are allowed, stopping at) a label that is not a
      control. Entries recorded before a stop stay recorded. */
  function Initialize(labels: seq<string>, controls: map<string, nat>,
                      weights: seq<ControlWeight>, allowUnused: bool): InitResult
  {
    if HasRedundantLabels(labels) then InitResult([], Some(RedundantLabels))
    else match FirstUnknownWeight(weights, controls, 0)
      case Some(k) => InitResult([], Some(UnrecognizedWeight(weights[k].name)))
      case None =>
        match (if allowUnused then None else FirstUnmatched(labels, controls, 0))
        case Some(k) => InitResult(Track(labels, controls, weights, k), Some(UnrecognizedReference(labels[k])))
        case None => InitResult(Track(labels, controls, weights, |labels|), None)
  }

  /** The error conditions of initialization, in both directions. */
  lemma InitializeErrors(labels: seq<string>, controls: map<string, nat>,
                         weights: seq<ControlWeight>, allowUnused: bool)
    ensures Initialize(labels, controls, weights, allowUnused).error == Some(RedundantLabels)
            <==> HasRedundantLabels(labels)
    ensures Initialize(labels, controls, weights, allowUnused).error.Some? &&
            Initialize(labels, controls, weights, allowUnused).error.value.UnrecognizedWeight?
            <==> !HasRedundantLabels(labels) && exists k :: 0 <= k < |weights| && weights[k].name !in controls
    ensures Initialize(labels, controls, weights, allowUnused).error.Some? &&
            Initialize(labels, controls, weights, allowUnused).error.value.UnrecognizedReference?
            <==> && !HasRedundantLabels(labels)
                 && (forall k :: 0 <= k < |weights| ==> weights[k].name in controls)
                 && !allowUnused
                 && exists j :: 0 <= j < |labels| && labels[j] !in controls
    ensures Initialize(labels, controls, weights, allowUnused).error.Some? &&
            !Initialize(labels, controls, weights, allowUnused).error.value.RedundantLabels? ==>
            Initialize(labels, controls, weights, allowUnused).error.value.name !in controls
    ensures Initialize(labels, controls, weights, allowUnused).error.Some? &&
            Initialize(labels, controls, weights, allowUnused).error.value.UnrecognizedWeight? ==>
            exists k :: 0 <= k < |weights| &&
              weights[k].name == Initialize(labels, controls, weights, allowUnused).error.value.name &&
              forall j :: 0 <= j < k ==> weights[j].name in controls
    ensures Initialize(labels, controls, weights, allowUnused).error.Some? &&
            !Initialize(labels, controls, weights, allowUnused).error.value.UnrecognizedReference? ==>
            Initialize(labels, controls, weights, allowUnused).appended == []
  {
  }

  /** After a successful initialization the recorded entries are exactly the
      reference columns whose labels are controls, in reference order, each
      with its control index and weight; when unused references are not
      allowed, that is every column. */
  lemma InitializeTracksControls(labels: seq<string>, controls: map<string, nat>,
                                 weights: seq<ControlWeight>, allowUnused: bool, ts: seq<Tracked>)
    requires Initialize(labels, controls, weights, allowUnused) == InitResult(ts, None)
    ensures TracksControls(labels, controls, weights, |labels|, ts)
    ensures forall j :: 0 <= j < |labels| && labels[j] in controls ==>
              exists i :: 0 <= i < |ts| && ts[i].column == j
    ensures !allowUnused ==> |ts| == |labels| && forall i :: 0 <= i < |ts| ==> ts[i].column == i
  {
    TrackSound(labels, controls, weights, |labels|);
    forall j | 0 <= j < |labels| && labels[j] in controls
      ensures exists i :: 0 <= i < |ts| && ts[i].column == j
    {
      TrackComplete(labels, controls, weights, |labels|, j);
    }
    if !allowUnused {
      TrackAllMatched(labels, controls, weights, |labels|);
    }
  }

  /** On an unrecognized reference, the entries already recorded are those
      of the columns before it, every one of which is a control. */
  lemma InitializeStopsAtUnmatched(labels: seq<string>, controls: map<string, nat>,
                                   weights: seq<ControlWeight>, allowUnused: bool,
                                   ts: seq<Tracked>, name: string)
    requires Initialize(labels, controls, weights, allowUnused) == InitResult(ts, Some(UnrecognizedReference(name)))
    ensures exists k :: 0 <= k < |labels| && labels[k] == name && |ts| == k
              && (forall j :: 0 <= j < k ==> labels[j] in controls)
              && forall i :: 0 <= i < k ==> ts[i].column == i
  {
    var k := FirstUnmatched(labels, controls, 0).value;
    TrackAllMatched(labels, controls, weights, k);
  }

  function Indices(ts: seq<Tracked>): (r: seq<nat>)
    ensures |r| == |ts| && forall i :: 0 <= i < |ts| ==> r[i] == ts[i].index
  {
    seq(|ts|, i requires 0 <= i < |ts| => ts[i].index)
  }

  function Weights(ts: seq<Tracked>): (r: seq<real>)
    ensures |r| == |ts| && forall i :: 0 <= i < |ts| ==> r[i] == ts[i].weight
  {
    seq(|ts|, i requires 0 <= i < |ts| => ts[i].weight)
  }

  function Columns(ts: seq<Tracked>): (r: seq<nat>)
    ensures |r| == |ts| && forall i :: 0 <= i < |ts| ==> r[i] == ts[i].column
  {
    seq(|ts|, i requires 0 <= i < |ts| => ts[i].column)
  }

  function Names(ts: seq<Tracked>): (r: seq<string>)
    ensures |r| == |ts| && forall i :: 0 <= i < |ts| ==> r[i] == ts[i].name
  {
    seq(|ts|, i requires 0 <= i < |ts| => ts[i].name)
  }

  lemma ProjectionsAppend(ts: seq<Tracked>, t: Tracked)
    ensures Indices(ts + [t]) == Indices(ts) + [t.index]
    ensures Weights(ts + [t]) == Weights(ts) + [t.weight]
    ensures Columns(ts + [t]) == Columns(ts) + [t.column]
    ensures Names(ts + [t]) == Names(ts) + [t.name]
  {
  }

  /** Every tracked control index and reference column can be read. */
  predicate Evaluable(indices: seq<nat>, columns: seq<nat>, controls: seq<real>, referenceAt: seq<real>)
  {
    && |indices| == |columns|
    && (forall i :: 0 <= i < |indices| ==> indices[i] < |controls|)
    && (forall i :: 0 <= i < |columns| ==> columns[i] < |referenceAt|)
  }

  /** Sum over the first `n` tracked entries of weight times squared error. */
  function IntegrandUpTo(indices: seq<nat>, weights: seq<real>, columns: seq<nat>,
                         controls: seq<real>, referenceAt: seq<real>, n: nat): real
    requires Evaluable(indices, columns, controls, referenceAt)
    requires n <= |indices| && n <= |weights|
  {
    if n == 0 then 0.0
    else
      var e := controls[indices[n - 1]] - referenceAt[columns[n - 1]];
      IntegrandUpTo(indices, weights, columns, controls, referenceAt, n - 1) + weights[n - 1] * (e * e)
  }

  /** With nonnegative weights the integrand is nonnegative. */
  lemma {:induction false} IntegrandNonnegative(indices: seq<nat>, weights: seq<real>, columns: seq<nat>,
                                                controls: seq<real>, referenceAt: seq<real>, n: nat)
    requires Evaluable(indices, columns, controls, referenceAt)
    requires n <= |indices| && n <= |weights|
    requires forall i :: 0 <= i < n ==> weights[i] >= 0.0
    ensures IntegrandUpTo(indices, weights, columns, controls, referenceAt, n) >= 0.0
  {
    if n > 0 {
      IntegrandNonnegative(indices, weights, columns, controls, referenceAt, n - 1);
      var e := controls[indices[n - 1]] - referenceAt[columns[n - 1]];
      assert e * e >= 0.0;
      assert weights[n - 1] * (e * e) >= 0.0;
    }
  }

  /** When every tracked control equals its reference, the integrand is zero. */
  lemma {:induction false} IntegrandZeroOnReference(indices: seq<nat>, weights: seq<real>, columns: seq<nat>,
                                                    controls: seq<real>, referenceAt: seq<real>, n: nat)
    requires Evaluable(indices, columns, controls, referenceAt)
    requires n <= |indices| && n <= |weights|
    requires forall i :: 0 <= i < n ==> controls[indices[i]] == referenceAt[columns[i]]
    ensures IntegrandUpTo(indices, weights, columns, controls, referenceAt, n) == 0.0
  {
    if n > 0 {
      IntegrandZeroOnReference(indices, weights, columns, controls, referenceAt, n - 1);
      var e := controls[indices[n - 1]] - referenceAt[columns[n - 1]];
      assert e == 0.0;
      assert weights[n - 1] * (e * e) == 0.0;
    }
  }

  class MocoControlTrackingGoal {
    var name: string
    /** The weight set: per-control weights; a control without an entry gets 1. */
    var controlWeights: seq<ControlWeight>
    var allowUnusedReferences: bool

    // Filled by initialization, one entry per tracked reference column.
    var controlIndices: seq<nat>
    var trackedWeights: seq<real>
    var refSplines: seq<nat>
    var controlNames: seq<string>

    var numIntegrals: nat
    var numOutputs: nat

    /** The four per-column lists run in parallel. */
    ghost predicate Valid()
      reads this
    {
      |controlIndices| == |trackedWeights| == |refSplines| == |controlNames|
    }

    constructor (name: string, controlWeights: seq<ControlWeight>, allowUnusedReferences: bool)
      ensures Valid()
      ensures this.name == name && this.controlWeights == controlWeights
      ensures this.allowUnusedReferences == allowUnusedReferences
      ensures controlIndices == [] && trackedWeights == [] && refSplines == [] && controlNames == []
      ensures numIntegrals == 0 && numOutputs == 0
    {
      this.name := name;
      this.controlWeights := controlWeights;
      this.allowUnusedReferences := allowUnusedReferences;
      controlIndices, trackedWeights, refSplines, controlNames := [], [], [], [];
      numIntegrals, numOutputs := 0, 0;
    }

    /** Initialize against `model`, whose reference table has the column
        labels `referenceLabels`. The lists are appended to, never cleared. */
    method InitializeOnModel(model: Model, referenceLabels: seq<string>) returns (error: Option<InitError>)
      requires Valid()
      modifies this`controlIndices, this`trackedWeights, this`refSplines, this`controlNames
      modifies this`numIntegrals, this`numOutputs
      ensures Valid()
      ensures var r := Initialize(referenceLabels, model.controlIndices, controlWeights, allowUnusedReferences);
        && error == r.error
        && controlIndices == old(controlIndices) + Indices(r.appended)
        && trackedWeights == old(trackedWeights) + Weights(r.appended)
        && refSplines == old(refSplines) + Columns(r.appended)
        && controlNames == old(controlNames) + Names(r.appended)
      ensures error.None? ==> numIntegrals == 1 && numOutputs == 1
      ensures error.Some? ==> numIntegrals == old(numIntegrals) && numOutputs == old(numOutputs)
    {
      var controls := model.controlIndices;
      if HasRedundantLabels(referenceLabels) {
        return Some(RedundantLabels);
      }

      var w := 0;
      while w < |controlWeights|
        invariant 0 <= w <= |controlWeights|
        invariant FirstUnknownWeight(controlWeights, controls, 0) == FirstUnknownWeight(controlWeights, controls, w)
      {
        if controlWeights[w].name !in controls {
          return Some(UnrecognizedWeight(controlWeights[w].name));
        }
        w := w + 1;
      }

      error := AppendTracked(controls, referenceLabels);
      if error.None? {
        numIntegrals, numOutputs := 1, 1;
      }
    }

    /** The reference loop of initialization: record every reference column
        whose label is a control, skipping or stopping at the others. */
    method AppendTracked(controls: map<string, nat>, referenceLabels: seq<string>)
      returns (error: Option<InitError>)
      requires Valid()
      modifies this`controlIndices, this`trackedWeights, this`refSplines, this`controlNames
      ensures Valid()
      ensures var m := if allowUnusedReferences then None else FirstUnmatched(referenceLabels, controls, 0);
        var ts := Track(referenceLabels, controls, controlWeights, if m.Some? then m.value else |referenceLabels|);
        && error == (if m.Some? then Some(UnrecognizedReference(referenceLabels[m.value])) else None)
        && controlIndices == old(controlIndices) + Indices(ts)
        && trackedWeights == old(trackedWeights) + Weights(ts)
        && refSplines == old(refSplines) + Columns(ts)
        && controlNames == old(controlNames) + Names(ts)
    {
      var i := 0;
      while i < |referenceLabels|
        invariant 0 <= i <= |referenceLabels|
        invariant !allowUnusedReferences ==>
          FirstUnmatched(referenceLabels, controls, 0) == FirstUnmatched(referenceLabels, controls, i)
        invariant var ts := Track(referenceLabels, controls, controlWeights, i);
          && controlIndices == old(controlIndices) + Indices(ts)
          && trackedWeights == old(trackedWeights) + Weights(ts)
          && refSplines == old(refSplines) + Columns(ts)
          && controlNames == old(controlNames) + Names(ts)
      {
        var refName := referenceLabels[i];
        TrackStep(referenceLabels, controls, controlWeights, i);
        if refName !in controls {
          if allowUnusedReferences {
            i := i + 1;
            continue;
          }
          return Some(UnrecognizedReference(refName));
        }
        var refWeight := WeightFor(controlWeights, refName);
        ProjectionsAppend(Track(referenceLabels, controls, controlWeights, i),
                          Tracked(controls[refName], refWeight, i, refName));
        controlIndices := controlIndices + [controls[refName]];
        trackedWeights := trackedWeights + [refWeight];
        refSplines := refSplines + [i];
        controlNames := controlNames + [refName];
        i := i + 1;
      }
      error := None;
    }

    /** The integrand at `state`, given the value of every reference column
        at the state's time. */
    method CalcIntegrand(state: State, referenceAt: seq<real>) returns (integrand: real)
      requires Valid()
      requires Evaluable(controlIndices, refSplines, state.controls, referenceAt)
      ensures integrand == IntegrandUpTo(controlIndices, trackedWeights, refSplines,
                                         state.controls, referenceAt, |refSplines|)
      ensures (forall i :: 0 <= i < |trackedWeights| ==> trackedWeights[i] >= 0.0) ==> integrand >= 0.0
      ensures (forall i :: 0 <= i < |refSplines| ==>
                 state.controls[controlIndices[i]] == referenceAt[refSplines[i]]) ==> integrand == 0.0
    {
      integrand := 0.0;
      var iref := 0;
      while iref < |refSplines|
        invariant 0 <= iref <= |refSplines|
        invariant integrand == IntegrandUpTo(controlIndices, trackedWeights, refSplines,
                                             state.controls, referenceAt, iref)
      {
        var modelValue := state.controls[controlIndices[iref]];
        var refValue := referenceAt[refSplines[iref]];
        integrand := integrand + trackedWeights[iref] * ((modelValue - refValue) * (modelValue - refValue));
        iref := iref + 1;
      }
      if forall i :: 0 <= i < |trackedWeights| ==> trackedWeights[i] >= 0.0 {
        IntegrandNonnegative(controlIndices, trackedWeights, refSplines, state.controls, referenceAt, |refSplines|);
      }
      if forall i :: 0 <= i < |refSplines| ==> state.controls[controlIndices[i]] == referenceAt[refSplines[i]] {
        IntegrandZeroOnReference(controlIndices, trackedWeights, refSplines, state.controls, referenceAt, |refSplines|);
      }
    }
  }
}
