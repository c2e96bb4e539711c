/**
 * The problem declaration: a phase collects time bounds, explicit state and
 * control infos, parameters, costs and path constraints; a problem holds
 * exactly one phase and forwards its convenience setters to it. Declaring
 * never consults the model for defaults.
 */
module Problem {

  import opened Wrappers
  import opened MocoTypes
  import opened Costs
  import opened FrameDistance

  // ---------------------------------------------------------------------------
  // Variable infos, kept in insertion order with at most one entry per name.
  // ---------------------------------------------------------------------------

  function InfoNames(infos: seq<VariableInfo>): (r: seq<string>)
    ensures |r| == |infos| && forall i :: 0 <= i < |infos| ==> r[i] == infos[i].name
  {
    seq(|infos|, i requires 0 <= i < |infos| => infos[i].name)
  }

  ghost predicate UniqueNames(infos: seq<VariableInfo>)
  {
    forall i, j :: 0 <= i < j < |infos| ==> infos[i].name != infos[j].name
  }

  /** The explicit info named `name`; fails when none was set. */
  function FindInfo(infos: seq<VariableInfo>, name: string): (r: Result<VariableInfo, string>)
    ensures r.Success? <==> exists i :: 0 <= i < |infos| && infos[i].name == name
    ensures r.Success? ==> r.value.name == name && r.value in infos
  {
    match FirstIndexOf(InfoNames(infos), name, 0)
    case Some(k) => Success(infos[k])
    case None => Failure("No info provided for variable '" + name + "'.")
  }

  /** Record `info`: replace the entry with the same name where there is one,
      else append it. */
  function Upsert(infos: seq<VariableInfo>, info: VariableInfo): seq<VariableInfo>
  {
    match FirstIndexOf(InfoNames(infos), info.name, 0)
    case Some(k) => infos[k := info]
    case None => infos + [info]
  }

  /** Setting an info for a name already present replaces that entry in
      place; for a new name it is appended at the end. */
  lemma UpsertShape(infos: seq<VariableInfo>, info: VariableInfo)
    ensures forall k :: 0 <= k < |infos| && infos[k].name == info.name &&
                        (forall j :: 0 <= j < k ==> infos[j].name != info.name) ==>
              Upsert(infos, info) == infos[k := info]
    ensures (forall k :: 0 <= k < |infos| ==> infos[k].name != info.name) ==>
              Upsert(infos, info) == infos + [info]
  {
  }

  /** Last write wins: after an upsert there is still at most one info per
      name, the upserted name yields the info just given, and every other
      name yields what it did before. */
  lemma UpsertLastWriteWins(infos: seq<VariableInfo>, info: VariableInfo)
    requires UniqueNames(infos)
    ensures UniqueNames(Upsert(infos, info))
    ensures FindInfo(Upsert(infos, info), info.name) == Success(info)
    ensures forall other :: other != info.name ==>
              FindInfo(Upsert(infos, info), other) == FindInfo(infos, other)
  {
    var r := Upsert(infos, info);
    var m := FirstIndexOf(InfoNames(infos), info.name, 0);
    var at := if m.Some? then m.value else |infos|;
    if m.Some? {
      assert r == infos[m.value := info];
    } else {
      assert r == infos + [info];
    }
    assert |r| >= |infos| && r[at] == info;
    assert forall j :: 0 <= j < |r| && j != at ==> r[j] == infos[j] && r[j].name != info.name;
    assert UniqueNames(r);
    FirstIndexOfIs(InfoNames(r), info.name, 0, at);
    forall other | other != info.name
      ensures FindInfo(r, other) == FindInfo(infos, other)
    {
      var p := FirstIndexOf(InfoNames(infos), other, 0);
      if p.Some? {
        FirstIndexOfIs(InfoNames(r), other, 0, p.value);
      } else {
        assert forall j :: 0 <= j < |r| ==> r[j].name != other;
      }
    }
  }

  // ---------------------------------------------------------------------------
  // Control names for non-scalar actuators: the actuator name, "_", and the
  // control index in decimal.
  // ---------------------------------------------------------------------------

  predicate IsDigits(s: string)
  {
    forall i :: 0 <= i < |s| ==> '0' <= s[i] <= '9'
  }

  function DigitChar(d: nat): char
    requires d < 10
  {
    (48 + d) as char
  }

  /** Decimal digits of `n`, most significant first, without leading zeros. */
  function NatToString(n: nat): (s: string)
    ensures |s| >= 1 && IsDigits(s)
  {
    if n < 10 then [DigitChar(n)] else NatToString(n / 10) + [DigitChar(n % 10)]
  }

  /** The decimal text of `i`, with a leading '-' when it is negative. */
  function IntToString(i: int): string
  {
    if i < 0 then "-" + NatToString(-i) else NatToString(i)
  }

  function ParseNat(s: string): nat
    requires IsDigits(s)
  {
    if |s| == 0 then 0 else ParseNat(s[..|s| - 1]) * 10 + (s[|s| - 1] as int - 48)
  }

  function ParseInt(s: string): int
    requires |s| >= 1
    requires s[0] == '-' ==> IsDigits(s[1..])
    requires s[0] != '-' ==> IsDigits(s)
  {
    if s[0] == '-' then -(ParseNat(s[1..]) as int) else ParseNat(s)
  }

  lemma {:induction false} ParseNatToString(n: nat)
    ensures ParseNat(NatToString(n)) == n
  {
    if n >= 10 {
      var s := NatToString(n);
      ParseNatToString(n / 10);
      assert s[..|s| - 1] == NatToString(n / 10);
    }
  }

  /** Reading back the decimal text of an integer gives the integer. */
  lemma ParseIntToString(i: int)
    ensures |IntToString(i)| >= 1
    ensures IntToString(i)[0] == '-' <==> i < 0
    ensures ParseInt(IntToString(i)) == i
  {
    if i < 0 {
      ParseNatToString(-i);
      assert IntToString(i)[1..] == NatToString(-i);
    } else {
      ParseNatToString(i);
    }
  }

  /** The name given to control `controlIndex` of actuator `actuName`. */
  function ControlName(actuName: string, controlIndex: int): string
  {
    actuName + "_" + IntToString(controlIndex)
  }

  /** The control name starts with the actuator name and an underscore, the
      rest is the decimal index, and two indices of one actuator never share
      a name. */
  lemma ControlNameInjective(actuName: string, i: int, j: int)
    ensures ControlName(actuName, i)[..|actuName| + 1] == actuName + "_"
    ensures ControlName(actuName, i)[|actuName| + 1..] == IntToString(i)
    ensures ControlName(actuName, i) == ControlName(actuName, j) <==> i == j
  {
    var a, b := ControlName(actuName, i), ControlName(actuName, j);
    assert a[|actuName| + 1..] == IntToString(i);
    assert b[|actuName| + 1..] == IntToString(j);
    if a == b {
      ParseIntToString(i);
      ParseIntToString(j);
    }
  }

  // ---------------------------------------------------------------------------
  // Phase
  // ---------------------------------------------------------------------------

  function ParameterNames(ps: seq<Parameter>): (r: seq<string>)
    ensures |r| == |ps| && forall i :: 0 <= i < |ps| ==> r[i] == ps[i].name
  {
    seq(|ps|, i requires 0 <= i < |ps| => ps[i].name)
  }

  /** Every field of a phase, for stating what a setter leaves unchanged. */
  datatype PhaseData = PhaseData(
    model: Model,
    timeInitialBounds: MocoBounds,
    timeFinalBounds: MocoBounds,
    defaultSpeedBounds: MocoBounds,
    stateInfos: seq<VariableInfo>,
    controlInfos: seq<VariableInfo>,
    parameters: seq<Parameter>,
    costs: seq<MocoCost>,
    pathConstraints: seq<MocoFrameDistanceConstraint>,
    kinematicConstraintBounds: MocoBounds,
    multiplierBounds: MocoBounds)

  /** A new phase: speed bounds [-50, 50], kinematic constraints held at
      zero, multipliers within [-1000, 1000], nothing else set. */
  function DefaultPhase(): PhaseData
  {
    PhaseData(Model(map[]), Unspecified, Unspecified, Between(-50.0, 50.0),
              [], [], [], [], [], Fixed(0.0), Between(-1000.0, 1000.0))
  }

  class MocoPhase {
    var model: Model
    var timeInitialBounds: MocoBounds
    var timeFinalBounds: MocoBounds
    var defaultSpeedBounds: MocoBounds
    var stateInfos: seq<VariableInfo>
    var controlInfos: seq<VariableInfo>
    var parameters: seq<Parameter>
    var costs: seq<MocoCost>
    var pathConstraints: seq<MocoFrameDistanceConstraint>
    var kinematicConstraintBounds: MocoBounds
    var multiplierBounds: MocoBounds

    ghost function Snapshot(): PhaseData
      reads this
    {
      PhaseData(model, timeInitialBounds, timeFinalBounds, defaultSpeedBounds,
                stateInfos, controlInfos, parameters, costs, pathConstraints,
                kinematicConstraintBounds, multiplierBounds)
    }

    /** At most one explicit info per state name and per control name. */
    ghost predicate Valid()
      reads this
    {
      UniqueNames(stateInfos) && UniqueNames(controlInfos)
    }

    constructor ()
      ensures Valid()
      ensures Snapshot() == DefaultPhase()
      ensures defaultSpeedBounds == Range(Finite(-50.0), Finite(50.0))
      ensures multiplierBounds == Range(Finite(-1000.0), Finite(1000.0))
      ensures kinematicConstraintBounds == Range(Finite(0.0), Finite(0.0))
    {
      model := Model(map[]);
      timeInitialBounds, timeFinalBounds := Unspecified, Unspecified;
      defaultSpeedBounds := Between(-50.0, 50.0);
      stateInfos, controlInfos := [], [];
      parameters, costs, pathConstraints := [], [], [];
      kinematicConstraintBounds := Fixed(0.0);
      multiplierBounds := Between(-1000.0, 1000.0);
    }

    /** Replace the phase's model; returns the model now stored. */
    method SetModel(m: Model) returns (stored: Model)
      requires Valid()
      modifies this
      ensures Valid()
      ensures stored == m
      ensures Snapshot() == old(Snapshot()).(model := m)
    {
      model := m;
      stored := model;
    }

    /** Overwrite both time bounds. */
    method SetTimeBounds(initial: MocoBounds, final: MocoBounds)
      requires Valid()
      modifies this
      ensures Valid()
      ensures Snapshot() == old(Snapshot()).(timeInitialBounds := initial, timeFinalBounds := final)
    {
      timeInitialBounds, timeFinalBounds := initial, final;
    }

    /** Record the info of state `name`, replacing any earlier one. */
    method SetStateInfo(name: string, bounds: MocoBounds, initial: MocoBounds, final: MocoBounds)
      requires Valid()
      modifies this
      ensures Valid()
      ensures Snapshot() == old(Snapshot()).(
        stateInfos := Upsert(old(stateInfos), VariableInfo(name, bounds, initial, final)))
      ensures FindInfo(stateInfos, name) == Success(VariableInfo(name, bounds, initial, final))
    {
      var info := VariableInfo(name, bounds, initial, final);
      UpsertLastWriteWins(stateInfos, info);
      stateInfos := Upsert(stateInfos, info);
    }

    /** Record the info of control `name`, replacing any earlier one. */
    method SetControlInfo(name: string, bounds: MocoBounds, initial: MocoBounds, final: MocoBounds)
      requires Valid()
      modifies this
      ensures Valid()
      ensures Snapshot() == old(Snapshot()).(
        controlInfos := Upsert(old(controlInfos), VariableInfo(name, bounds, initial, final)))
      ensures FindInfo(controlInfos, name) == Success(VariableInfo(name, bounds, initial, final))
    {
      var info := VariableInfo(name, bounds, initial, final);
      UpsertLastWriteWins(controlInfos, info);
      controlInfos := Upsert(controlInfos, info);
    }

    /** Record the info of control `controlIndex` of a non-scalar actuator,
        under the name `actuName_controlIndex`. */
    method SetControlInfoForIndex(actuName: string, controlIndex: int,
                                  bounds: MocoBounds, initial: MocoBounds, final: MocoBounds)
      requires Valid()
      modifies this
      ensures Valid()
      ensures Snapshot() == old(Snapshot()).(
        controlInfos := Upsert(old(controlInfos),
                               VariableInfo(ControlName(actuName, controlIndex), bounds, initial, final)))
    {
      SetControlInfo(ControlName(actuName, controlIndex), bounds, initial, final);
    }

    method SetKinematicConstraintBounds(bounds: MocoBounds)
      requires Valid()
      modifies this
      ensures Valid()
      ensures Snapshot() == old(Snapshot()).(kinematicConstraintBounds := bounds)
    {
      kinematicConstraintBounds := bounds;
    }

    method SetMultiplierBounds(bounds: MocoBounds)
      requires Valid()
      modifies this
      ensures Valid()
      ensures Snapshot() == old(Snapshot()).(multiplierBounds := bounds)
    {
      multiplierBounds := bounds;
    }

    /** Append a parameter; returns the appended element. */
    method AddParameter(param: Parameter) returns (added: Parameter)
      requires Valid()
      modifies this
      ensures Valid()
      ensures added == param
      ensures Snapshot() == old(Snapshot()).(parameters := old(parameters) + [param])
    {
      parameters := parameters + [param];
      added := parameters[|parameters| - 1];
    }

    /** Take `cost` into the phase, appending it; returns the appended element. */
    method AddCost(cost: MocoCost) returns (added: MocoCost)
      requires Valid()
      modifies this
      ensures Valid()
      ensures added == cost
      ensures Snapshot() == old(Snapshot()).(costs := old(costs) + [cost])
    {
      costs := costs + [cost];
      added := costs[|costs| - 1];
    }

    /** Take `pc` into the phase, appending it; returns the appended element. */
    method AddPathConstraint(pc: MocoFrameDistanceConstraint) returns (added: MocoFrameDistanceConstraint)
      requires Valid()
      modifies this
      ensures Valid()
      ensures added == pc
      ensures Snapshot() == old(Snapshot()).(pathConstraints := old(pathConstraints) + [pc])
    {
      pathConstraints := pathConstraints + [pc];
      added := pathConstraints[|pathConstraints| - 1];
    }

    /** The explicit info of state `name`; model-derived defaults are not
        part of the phase. */
    function GetStateInfo(name: string): (r: Result<VariableInfo, string>)
      reads this
      ensures r.Success? <==> exists i :: 0 <= i < |stateInfos| && stateInfos[i].name == name
      ensures r.Success? ==> r.value.name == name && r.value in stateInfos
    {
      FindInfo(stateInfos, name)
    }

    /** The explicit info of control `name`. */
    function GetControlInfo(name: string): (r: Result<VariableInfo, string>)
      reads this
      ensures r.Success? <==> exists i :: 0 <= i < |controlInfos| && controlInfos[i].name == name
      ensures r.Success? ==> r.value.name == name && r.value in controlInfos
    {
      FindInfo(controlInfos, name)
    }

    /** The first parameter named `name`. */
    function GetParameter(name: string): (r: Result<Parameter, string>)
      reads this
      ensures r.Success? <==> exists i :: 0 <= i < |parameters| && parameters[i].name == name
      ensures r.Success? ==> r.value.name == name && r.value in parameters
      ensures r.Success? ==>
        exists i :: 0 <= i < |parameters| && parameters[i] == r.value &&
          (forall j :: 0 <= j < i ==> parameters[j].name != name)
    {
      match FirstIndexOf(ParameterNames(parameters), name, 0)
      case Some(k) => Success(parameters[k])
      case None => Failure("No parameter with name '" + name + "' found.")
    }

    /** The first cost named `name`. */
    function GetCost(name: string): (r: Result<MocoCost, string>)
      reads this, costs
      ensures r.Success? <==> exists i :: 0 <= i < |costs| && costs[i].name == name
      ensures r.Success? ==> r.value.name == name && r.value in costs
      ensures r.Success? ==>
        exists i :: 0 <= i < |costs| && costs[i] == r.value &&
          (forall j :: 0 <= j < i ==> costs[j].name != name)
    {
      FindCost(costs, name)
    }

    /** The first path constraint named `name`. */
    function GetPathConstraint(name: string): (r: Result<MocoFrameDistanceConstraint, string>)
      reads this, pathConstraints
      ensures r.Success? <==> exists i :: 0 <= i < |pathConstraints| && pathConstraints[i].name == name
      ensures r.Success? ==> r.value.name == name && r.value in pathConstraints
      ensures r.Success? ==>
        exists i :: 0 <= i < |pathConstraints| && pathConstraints[i] == r.value &&
          (forall j :: 0 <= j < i ==> pathConstraints[j].name != name)
    {
      FindPathConstraint(pathConstraints, name)
    }
  }

  function FindCost(cs: seq<MocoCost>, name: string): (r: Result<MocoCost, string>)
    reads cs
    ensures r.Success? <==> exists i :: 0 <= i < |cs| && cs[i].name == name
    ensures r.Success? ==> r.value.name == name && r.value in cs
    ensures r.Success? ==>
      exists i :: 0 <= i < |cs| && cs[i] == r.value &&
        (forall j :: 0 <= j < i ==> cs[j].name != name)
  {
    if cs == [] then Failure("No cost with name '" + name + "' found.")
    else if cs[0].name == name then Success(cs[0])
    else
      var rest := FindCost(cs[1..], name);
      assert forall i :: 1 <= i < |cs| ==> cs[i] == cs[1..][i - 1];
      if rest.Success? then
        var i :| 0 <= i < |cs[1..]| && cs[1..][i] == rest.value &&
          forall j :: 0 <= j < i ==> cs[1..][j].name != name;
        assert cs[i + 1] == rest.value && forall j :: 0 <= j < i + 1 ==> cs[j].name != name;
        rest
      else rest
  }

  function FindPathConstraint(pcs: seq<MocoFrameDistanceConstraint>, name: string)
    : (r: Result<MocoFrameDistanceConstraint, string>)
    reads pcs
    ensures r.Success? <==> exists i :: 0 <= i < |pcs| && pcs[i].name == name
    ensures r.Success? ==> r.value.name == name && r.value in pcs
    ensures r.Success? ==>
      exists i :: 0 <= i < |pcs| && pcs[i] == r.value &&
        (forall j :: 0 <= j < i ==> pcs[j].name != name)
  {
    if pcs == [] then Failure("No path constraint with name '" + name + "' found.")
    else if pcs[0].name == name then Success(pcs[0])
    else
      var rest := FindPathConstraint(pcs[1..], name);
      assert forall i :: 1 <= i < |pcs| ==> pcs[i] == pcs[1..][i - 1];
      if rest.Success? then
        var i :| 0 <= i < |pcs[1..]| && pcs[1..][i] == rest.value &&
          forall j :: 0 <= j < i ==> pcs[1..][j].name != name;
        assert pcs[i + 1] == rest.value && forall j :: 0 <= j < i + 1 ==> pcs[j].name != name;
        rest
      else rest
  }

  // ---------------------------------------------------------------------------
  // Problem: exactly one phase; every convenience method edits phase 0.
  // ---------------------------------------------------------------------------

  class MocoProblem {
    var phases: seq<MocoPhase>

    ghost predicate Valid()
      reads this, phases
    {
      |phases| == 1 && phases[0].Valid()
    }

    constructor ()
      ensures Valid() && fresh(phases[0])
      ensures phases[0].Snapshot() == DefaultPhase()
    {
      var phase := new MocoPhase();
      phases := [phase];
    }

    /** The phase at `index`; only index 0 exists. */
    function GetPhase(index: int): (r: Result<MocoPhase, string>)
      requires Valid()
      reads this, phases
      ensures r.Success? <==> index == 0
      ensures r.Success? ==> r.value == phases[0]
    {
      if index == 0 then Success(phases[0]) else Failure("Phase index out of range.")
    }

    method SetModel(m: Model) returns (stored: Model)
      requires Valid()
      modifies phases[0]
      ensures Valid()
      ensures stored == m
      ensures phases[0].Snapshot() == old(phases[0].Snapshot()).(model := m)
    {
      stored := phases[0].SetModel(m);
    }

    method SetTimeBounds(initial: MocoBounds, final: MocoBounds)
      requires Valid()
      modifies phases[0]
      ensures Valid()
      ensures phases[0].Snapshot() ==
              old(phases[0].Snapshot()).(timeInitialBounds := initial, timeFinalBounds := final)
    {
      phases[0].SetTimeBounds(initial, final);
    }

    method SetStateInfo(name: string, bounds: MocoBounds, initial: MocoBounds, final: MocoBounds)
      requires Valid()
      modifies phases[0]
      ensures Valid()
      ensures phases[0].Snapshot() == old(phases[0].Snapshot()).(
        stateInfos := Upsert(old(phases[0].stateInfos), VariableInfo(name, bounds, initial, final)))
    {
      phases[0].SetStateInfo(name, bounds, initial, final);
    }

    method SetControlInfo(name: string, bounds: MocoBounds, initial: MocoBounds, final: MocoBounds)
      requires Valid()
      modifies phases[0]
      ensures Valid()
      ensures phases[0].Snapshot() == old(phases[0].Snapshot()).(
        controlInfos := Upsert(old(phases[0].controlInfos), VariableInfo(name, bounds, initial, final)))
    {
      phases[0].SetControlInfo(name, bounds, initial, final);
    }

    method SetControlInfoForIndex(actuName: string, controlIndex: int,
                                  bounds: MocoBounds, initial: MocoBounds, final: MocoBounds)
      requires Valid()
      modifies phases[0]
      ensures Valid()
      ensures phases[0].Snapshot() == old(phases[0].Snapshot()).(
        controlInfos := Upsert(old(phases[0].controlInfos),
                               VariableInfo(ControlName(actuName, controlIndex), bounds, initial, final)))
    {
      phases[0].SetControlInfoForIndex(actuName, controlIndex, bounds, initial, final);
    }

    method SetKinematicConstraintBounds(bounds: MocoBounds)
      requires Valid()
      modifies phases[0]
      ensures Valid()
      ensures phases[0].Snapshot() == old(phases[0].Snapshot()).(kinematicConstraintBounds := bounds)
    {
      phases[0].SetKinematicConstraintBounds(bounds);
    }

    method SetMultiplierBounds(bounds: MocoBounds)
      requires Valid()
      modifies phases[0]
      ensures Valid()
      ensures phases[0].Snapshot() == old(phases[0].Snapshot()).(multiplierBounds := bounds)
    {
      phases[0].SetMultiplierBounds(bounds);
    }

    method AddParameter(param: Parameter) returns (added: Parameter)
      requires Valid()
      modifies phases[0]
      ensures Valid()
      ensures added == param
      ensures phases[0].Snapshot() ==
              old(phases[0].Snapshot()).(parameters := old(phases[0].parameters) + [param])
    {
      added := phases[0].AddParameter(param);
    }

    method AddCost(cost: MocoCost) returns (added: MocoCost)
      requires Valid()
      modifies phases[0]
      ensures Valid()
      ensures added == cost
      ensures phases[0].Snapshot() == old(phases[0].Snapshot()).(costs := old(phases[0].costs) + [cost])
    {
      added := phases[0].AddCost(cost);
    }

    method AddPathConstraint(pc: MocoFrameDistanceConstraint) returns (added: MocoFrameDistanceConstraint)
      requires Valid()
      modifies phases[0]
      ensures Valid()
      ensures added == pc
      ensures phases[0].Snapshot() ==
              old(phases[0].Snapshot()).(pathConstraints := old(phases[0].pathConstraints) + [pc])
    {
      added := phases[0].AddPathConstraint(pc);
    }
  }
}
