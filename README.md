# Moco problem declaration, cost contract and control tracking — a Dafny model

This project models the declaration layer of OpenSim Moco's optimal-control
problems and the evaluation contract of its cost terms:

- **`MocoPhase` / `MocoProblem`** (`moco_problem.dfy`, module `Problem`): a
  phase holds a model, initial/final time bounds, default speed bounds,
  explicit state and control infos, and ordered lists of parameters, costs and
  path constraints. It also holds the bounds applied to every kinematic
  constraint and to every Lagrange multiplier. Setters overwrite. A state or
  control info for a name already present replaces that entry; otherwise it is
  appended, so there is at most one info per name. `add*` appends exactly one
  element and returns it. Every setter says, through `Snapshot()`, that no
  other field of the phase changes. A problem has exactly one phase. Its
  convenience methods may modify only that phase, and they forward to it.
  A non-scalar actuator's control is named `actuName + "_" + index`. The
  model proves this name injective in the index.
- **`MocoCost`** (`moco_cost.dfy`, module `Costs`): the integral and endpoint
  costs are the weight times the value the concrete cost's hook leaves in a
  variable that starts at 0. The base hooks leave it at 0. `MocoFinalTimeCost`
  sets the endpoint value to the final time. A user-defined cost is a pair of
  hook functions. The weight defaults to 1. `getModel` fails until
  `initializeOnModel` binds a model, and returns that model afterwards.
- **`MocoFrameDistanceConstraint`** (`moco_frame_distance_constraint.dfy`,
  module `FrameDistance`): both `addFramePair` overloads append one
  `(frame1, frame2, min, max)` pair and keep the earlier pairs as they were.
- **`MocoControlTrackingGoal`** (`moco_control_tracking_goal.dfy`, module
  `ControlTracking`): initialization rejects duplicate reference labels first.
  It then rejects weight-set names that are not controls. Then it walks the
  reference columns in order. A column that is not a control is skipped when
  unused references are allowed; otherwise initialization stops there with an
  error. Every matched column appends its control index, its weight (the
  weight-set entry, else 1), its interpolant and its name to four parallel
  lists. Success declares 1 integral and 1 output. The pure function
  `Initialize` states this outcome exactly, including the entries already
  appended when initialization stops. The method `InitializeOnModel` is
  proved against it. The lists are appended to and never cleared, as in the
  source, so initializing one goal twice would record every entry twice.
  The source expects one initialization per goal instance.
  The integrand `Σ wᵢ·(control[idxᵢ] − refᵢ)²` is computed by a loop proved
  equal to the recursive sum `IntegrandUpTo`. That sum is nonnegative under
  nonnegative weights, and zero when every tracked control equals its
  reference.

Shared value types live in `moco_types.dfy` (module `MocoTypes`). `MocoBounds`
is a subset type, either unspecified or an interval with lower ≤ upper.
`VariableInfo` and `Parameter` are datatypes. `Model` is reduced to its
control-name→index map. `State` is a time and a control vector.
`wrappers.dfy` holds `Option` and `Result`.

Abstractions of collaborators:
- The dynamics model is `Model(controlIndices)`. Building that map (the
  model's system control index map) happens outside the core and is an input.
- A realized state is `State(time, controls)`.
- A reference interpolant is represented by the position of the reference
  column it was fit to. Its value at the state's time is an input vector
  `referenceAt`, indexed by column.
- Reals stand for doubles; rounding is not modelled. Bound ends and
  distances may also be -inf or +inf.

## Model

| member | source | states |
|---|---|---|
| `MocoTypes.MakeBounds` | Moco/Moco/MocoProblem.h:82-84 | bounds from a lower and an upper end, either of which may be infinite, are built exactly when lower ≤ upper in the extended order, and then hold those two ends |
| `MocoTypes.AtMostTotalOrder` | Moco/Moco/MocoFrameDistanceConstraint.h:61-62 | the order on bound ends and distances, with -inf below and +inf above every number, is a total order and agrees with ≤ on finite values |
| `Problem.FindInfo` | Moco/Moco/MocoProblem.h:248-257 | looking up an explicit info succeeds exactly when an info with that name was set, and returns an entry of the list with that name |
| `Problem.UpsertShape` | Moco/Moco/MocoProblem.h:104-105 | setting an info for a name already present replaces the first such entry in place; for a new name the info is appended at the end |
| `Problem.UpsertLastWriteWins` | Moco/Moco/MocoProblem.h:104-108 | after setting an info, names stay unique, the name yields the info just given, and every other name yields what it yielded before |
| `Problem.ParseIntToString` | Moco/Moco/MocoProblem.h:117-120 | the decimal text of the control index starts with '-' exactly for negative indices, and reads back to the index |
| `Problem.ControlNameInjective` | Moco/Moco/MocoProblem.h:114-124 | the indexed control name is the actuator name, "_", then the decimal index; two indices of one actuator give equal names only when they are equal |
| `Problem.MocoPhase.constructor` | Moco/Moco/MocoProblem.h:276-301 | a new phase has default speed bounds [-50, 50], multiplier bounds [-1000, 1000], kinematic-constraint bounds fixed at 0, unspecified time bounds and empty lists |
| `Problem.MocoPhase.SetModel` | Moco/Moco/MocoProblem.h:48-57 | the phase's model becomes the given one, which is returned; nothing else changes |
| `Problem.MocoPhase.SetTimeBounds` | Moco/Moco/MocoProblem.h:58-64 | both time bounds are overwritten; nothing else changes |
| `Problem.MocoPhase.SetStateInfo` | Moco/Moco/MocoProblem.h:65-108 | the state infos become the old list with this info replacing the one with its name or appended; the name now yields this info; names stay unique; nothing else changes |
| `Problem.MocoPhase.SetControlInfo` | Moco/Moco/MocoProblem.h:109-113 | the same as for state infos, on the control infos |
| `Problem.MocoPhase.SetControlInfoForIndex` | Moco/Moco/MocoProblem.h:114-124 | records a control info named `actuName_index` (by replacement or append); nothing else changes |
| `Problem.MocoPhase.SetKinematicConstraintBounds` | Moco/Moco/MocoProblem.h:125-130 | only the kinematic-constraint bounds change, to the given bounds |
| `Problem.MocoPhase.SetMultiplierBounds` | Moco/Moco/MocoProblem.h:131-135 | only the multiplier bounds change, to the given bounds |
| `Problem.MocoPhase.AddParameter` | Moco/Moco/MocoProblem.h:159-169 | the parameter list grows by exactly the given parameter at its end, which is returned; nothing else changes |
| `Problem.MocoPhase.AddCost` | Moco/Moco/MocoProblem.h:191-203 | the cost list grows by exactly the given cost at its end, which is returned; earlier costs and all other fields are unchanged |
| `Problem.MocoPhase.AddPathConstraint` | Moco/Moco/MocoProblem.h:226-238 | the path-constraint list grows by exactly the given constraint at its end, which is returned; nothing else changes |
| `Problem.MocoPhase.GetStateInfo` | Moco/Moco/MocoProblem.h:248-252 | succeeds exactly when a state info with that name was set, and returns that list entry |
| `Problem.MocoPhase.GetControlInfo` | Moco/Moco/MocoProblem.h:253-257 | succeeds exactly when a control info with that name was set, and returns that list entry |
| `Problem.MocoPhase.GetParameter` | Moco/Moco/MocoProblem.h:259 | succeeds exactly when a parameter has that name, and returns the first parameter of the list with that name |
| `Problem.MocoPhase.GetCost` | Moco/Moco/MocoProblem.h:262 | succeeds exactly when a cost has that name, and returns the first cost of the list with that name |
| `Problem.MocoPhase.GetPathConstraint` | Moco/Moco/MocoProblem.h:265-267 | succeeds exactly when a path constraint has that name, and returns the first constraint of the list with that name |
| `Problem.FindCost` | Moco/Moco/MocoProblem.h:262 | name lookup over a cost list: succeeds exactly when some cost has the name, returning the first one that has it |
| `Problem.FindPathConstraint` | Moco/Moco/MocoProblem.h:267 | name lookup over a path-constraint list: succeeds exactly when some constraint has the name, returning the first one that has it |
| `Problem.MocoProblem.constructor` | Moco/Moco/MocoProblem.h:426-428 | a new problem has exactly one phase, a fresh phase with the defaults above |
| `Problem.MocoProblem.GetPhase` | Moco/Moco/MocoProblem.h:399-406 | the phase at an index exists exactly for index 0, and is the problem's only phase |
| `Problem.MocoProblem.SetModel` | Moco/Moco/MocoProblem.h:339-344 | sets the model of phase 0 only, as the phase method does |
| `Problem.MocoProblem.SetTimeBounds` | Moco/Moco/MocoProblem.h:345-346 | overwrites the time bounds of phase 0 only |
| `Problem.MocoProblem.SetStateInfo` | Moco/Moco/MocoProblem.h:347-349 | records the state info in phase 0 only |
| `Problem.MocoProblem.SetControlInfo` | Moco/Moco/MocoProblem.h:350-352 | records the control info in phase 0 only |
| `Problem.MocoProblem.SetControlInfoForIndex` | Moco/Moco/MocoProblem.h:353-356 | records the indexed control info in phase 0 only |
| `Problem.MocoProblem.SetKinematicConstraintBounds` | Moco/Moco/MocoProblem.h:357-358 | sets the kinematic-constraint bounds of phase 0 only |
| `Problem.MocoProblem.SetMultiplierBounds` | Moco/Moco/MocoProblem.h:359-360 | sets the multiplier bounds of phase 0 only |
| `Problem.MocoProblem.AddParameter` | Moco/Moco/MocoProblem.h:361-372 | appends the parameter to phase 0 only and returns it |
| `Problem.MocoProblem.AddCost` | Moco/Moco/MocoProblem.h:373-384 | appends the cost to phase 0 only and returns it |
| `Problem.MocoProblem.AddPathConstraint` | Moco/Moco/MocoProblem.h:385-396 | appends the path constraint to phase 0 only and returns it |
| `Costs.MocoCost.constructor` | Moco/Moco/MocoCost.h:44-47 | a default cost has weight 1, the name "cost", and no bound model |
| `Costs.MocoCost.Named` | Moco/Moco/MocoCost.h:49 | a named cost has weight 1 and no bound model |
| `Costs.MocoCost.NamedWeighted` | Moco/Moco/MocoCost.h:51 | a cost built with a name and a weight stores both, with no bound model |
| `Costs.MocoCost.CalcIntegralCost` | Moco/Moco/MocoCost.h:53-58 | the integral cost is the weight times the hook's integrand; it is 0 for weight 0, for the base hooks and for the final-time cost |
| `Costs.MocoCost.CalcEndpointCost` | Moco/Moco/MocoCost.h:59-65 | the endpoint cost is the weight times the hook's value; 0 for weight 0 and for the base hook; the weight times the final time for the final-time cost |
| `Costs.MocoCost.GetModel` | Moco/Moco/MocoCost.h:93-98 | fails exactly when no model has been bound; otherwise returns the bound model |
| `Costs.MocoCost.InitializeOnModel` | Moco/Moco/MocoCost.h:66-70 | binds the given model, after which getModel returns it; only the binding changes |
| `FrameDistance.MocoFrameDistanceConstraint.constructor` | Moco/Moco/MocoFrameDistanceConstraint.h:80 | a new constraint has no frame pairs (and the default path-constraint name) |
| `FrameDistance.MocoFrameDistanceConstraint.AddFramePair` | Moco/Moco/MocoFrameDistanceConstraint.h:82-84 | the pair list grows by one with the given pair last; earlier pairs keep their order and contents |
| `FrameDistance.MocoFrameDistanceConstraint.AddFramePairOf` | Moco/Moco/MocoFrameDistanceConstraint.h:85-90 | equals appending the pair built from the two paths and the minimum and maximum distance, which may be infinite (an unbounded maximum) |
| `ControlTracking.WeightFor` | Moco/Moco/MocoGoal/MocoControlTrackingGoal.cpp:66-70 | a control's weight is 1 when the weight set has no entry for it, and otherwise the weight of an entry with its name |
| `ControlTracking.FirstUnknownWeight` | Moco/Moco/MocoGoal/MocoControlTrackingGoal.cpp:43-50 | finds the first weight-set entry, in set order, whose name is not a control (every earlier entry names a control), and reports none exactly when every weight name is a control |
| `ControlTracking.FirstUnmatched` | Moco/Moco/MocoGoal/MocoControlTrackingGoal.cpp:55-63 | finds the first reference label that is not a control (all before it are controls), and reports none exactly when all are |
| `ControlTracking.Track` | Moco/Moco/MocoGoal/MocoControlTrackingGoal.cpp:55-73 | the first n reference columns yield at most n recorded entries |
| `ControlTracking.TrackSound` | Moco/Moco/MocoGoal/MocoControlTrackingGoal.cpp:65-72 | every recorded entry is a control-labelled column, with the control's map index and its weight, and entries follow reference order |
| `ControlTracking.TrackComplete` | Moco/Moco/MocoGoal/MocoControlTrackingGoal.cpp:55-73 | every reference column whose label is a control is recorded |
| `ControlTracking.TrackAllMatched` | Moco/Moco/MocoGoal/MocoControlTrackingGoal.cpp:55-73 | when every label is a control, entry i is column i, so there are as many entries as labels |
| `ControlTracking.InitializeErrors` | Moco/Moco/MocoGoal/MocoControlTrackingGoal.cpp:27-63 | initialization fails on duplicate labels exactly when there are duplicates; it fails on a weight name exactly when one is not a control; it fails on a reference exactly when one is not a control and unused references are not allowed; the errors name non-controls, a weight error names the first non-control entry of the weight set, and only a reference error leaves entries appended |
| `ControlTracking.InitializeTracksControls` | Moco/Moco/MocoGoal/MocoControlTrackingGoal.cpp:55-73 | after success the recorded entries are exactly the control-labelled columns in reference order, with map indices and weights; without unused references allowed, that is every column |
| `ControlTracking.InitializeStopsAtUnmatched` | Moco/Moco/MocoGoal/MocoControlTrackingGoal.cpp:57-63 | an unrecognized reference error names the first non-control label, and the entries already appended are exactly the columns before it |
| `ControlTracking.MocoControlTrackingGoal.InitializeOnModel` | Moco/Moco/MocoGoal/MocoControlTrackingGoal.cpp:27-76 | the error returned and the entries appended to each of the four parallel lists are exactly those of `Initialize`; success declares 1 integral and 1 output; the lists stay parallel |
| `ControlTracking.MocoControlTrackingGoal.AppendTracked` | Moco/Moco/MocoGoal/MocoControlTrackingGoal.cpp:55-73 | the reference loop appends the recorded entries of the columns it walks, stopping at the first non-control unless unused references are allowed |
| `ControlTracking.MocoControlTrackingGoal.CalcIntegrand` | Moco/Moco/MocoGoal/MocoControlTrackingGoal.cpp:78-93 | the integrand is the weighted sum of squared control-minus-reference errors over the tracked entries; it is nonnegative under nonnegative weights, and 0 when every tracked control equals its reference |
| `ControlTracking.IntegrandNonnegative` | Moco/Moco/MocoGoal/MocoControlTrackingGoal.cpp:88-92 | with nonnegative weights the weighted squared-error sum is nonnegative |
| `ControlTracking.IntegrandZeroOnReference` | Moco/Moco/MocoGoal/MocoControlTrackingGoal.cpp:88-92 | when every tracked control equals its reference value the sum is 0, whatever the weights |

## Left out

- `MocoProblemRep`, `createRep` and `createRepHeap`: only declared in `MocoProblem.h`. The resolution they perform is not part of this model. That covers default bounds taken from the model, name validation, goal initialization order and the evaluation API.
- The dynamics model, realize stages and `getControls`: represented by `Model(controlIndices)` and `State(time, controls)`. `createSystemControlIndexMap` is not part of this model; its result is the model's map.
- Reference data processing (`TimeSeriesTable`, `get_reference().process()`) and GCV spline fitting and evaluation: foreign numerics and I/O. The goal receives the column labels, and the value of each column at the state's time.
- `checkRedundantLabels`: only its outcome, rejection of duplicate labels, is modelled.
- `MocoFrameDistanceConstraint::initializeOnModelImpl` and `calcPathConstraintErrorsImpl`: their implementation is not part of this model, and it involves frame geometry.
- `printDescription` and `printDescriptionImpl`: stream output.
- Property macros, serialization and type registration.
- Floating point: `double` is modelled as `real`, and rounding in `pow` and in the products is ignored. Bound ends and frame distances are extended reals (a number, -inf or +inf); NaN is not represented, so its rejection or propagation is not modelled.
- The templated `add*<T>(args...)` overloads: the caller constructs the object first and passes it to the modelled `add*`.
- `setModelCopy`: identical to `SetModel`, because `Model` is a value here.
- `getModel`, `updModel`, `getTimeInitialBounds` and `getTimeFinalBounds` of the phase: plain reads of the phase's fields.
- `updCost`, `updPathConstraint` and `updPhase`: costs, path constraints and phases are references, so `GetCost`, `GetPathConstraint` and `GetPhase` already return the objects the caller may edit. `updParameter` is not modelled: parameters are values, so editing a stored parameter in place is not captured.
- The path-constraint list holds `MocoFrameDistanceConstraint` objects only. The general `MocoPathConstraint` base is not part of this model.
- The body of `MocoBounds`, `getStateInfo`, `getControlInfo`, `getParameter`, `getCost` and the info setters is in `MocoProblem.cpp` and `MocoBounds.cpp`. Those files are not part of this model. The model uses the behaviour the header documents: a replacing setter, and lookups that fail on an unknown name. A bounds value with lower > upper cannot be constructed.
- Uniqueness of parameter, cost and path-constraint names: the header asks for it, but nothing checks it at insertion, so the model does not enforce it either.
- `Costs.MocoCost.CalcEndpointCost`: the rule that an endpoint hook must not read actuator controls is documented for implementers only, and the model does not enforce it. A user-defined cost's own `initializeOnModelImpl` hook is not modelled.
- `MocoGoal`, the base class of the tracking goal, is not part of this model. That covers its weight, its model binding and how it combines integrals. `MocoControlTrackingGoal.h`, where the goal's constructor and member lists are declared, is not part of this model either: the model's constructor keeps the given weight set and unused-references flag and starts with empty lists and integral and output counts of 0.
