// The compute proxy (atomify-lammps/CPcompute.cpp): a QML-side description of
// a LAMMPS compute, registered with the simulator by identifier, that receives
// the compute's latest values.

/** The notifications a CPCompute emits; ValueChanged(k, _) is firstValueChanged … fourthValueChanged for k = 0 … 3. */
datatype ComputeEvent =
  | IdentifierChanged(identifier: string)
  | CommandChanged(command: string)
  | SimulatorChanged(simulator: AtomifySimulator?)
  | DependenciesChanged(dependencies: seq<string>)
  | IsVectorChanged(isVector: bool)
  | ValuesChanged(values: seq<real>)
  | ValueChanged(slot: nat, value: real)

/** The notifications setValues emits for the new values `v`: the list, then one per slot up to four. */
function ValueNotifications(v: seq<real>): (n: seq<ComputeEvent>)
  requires |v| > 0
  ensures |n| == (if |v| < 4 then |v| else 4) + 1
  ensures n[0] == ValuesChanged(v)
  ensures forall k :: 1 <= k < |n| ==> n[k] == ValueChanged(k - 1, v[k - 1])
{
  [ValuesChanged(v), ValueChanged(0, v[0])]
  + (if |v| > 1 then [ValueChanged(1, v[1])] else [])
  + (if |v| > 2 then [ValueChanged(2, v[2])] else [])
  + (if |v| > 3 then [ValueChanged(3, v[3])] else [])
}

class CPCompute {
  var identifier: string
  var command: string
  var simulator: AtomifySimulator?
  var dependencies: seq<string>
  var isVector: bool
  var values: seq<real>
  var time: real
  var events: seq<ComputeEvent>

  // CPcompute.h is not part of this model; the initial values are Qt's
  // defaults for the field types.
  constructor ()
    ensures identifier == "" && simulator == null && values == [] && events == []
  {
    identifier := "";
    command := "";
    simulator := null;
    dependencies := [];
    isVector := false;
    values := [];
    time := 0.0;
    events := [];
  }

  method SetIdentifier(identifier: string)
    modifies this`identifier, this`events
    ensures this.identifier == identifier
    ensures events == old(events) + (if old(this.identifier) == identifier then [] else [IdentifierChanged(identifier)])
  {
    if this.identifier == identifier {
      return;
    }
    this.identifier := identifier;
    events := events + [IdentifierChanged(identifier)];
  }

  method SetCommand(command: string)
    modifies this`command, this`events
    ensures this.command == command
    ensures events == old(events) + (if old(this.command) == command then [] else [CommandChanged(command)])
  {
    if this.command == command {
      return;
    }
    this.command := command;
    events := events + [CommandChanged(command)];
  }

  /**
   * A new simulator is stored and the compute is registered in its map under
   * the current identifier; the same simulator again changes nothing. A new
   * simulator must not be null: the source calls into it unconditionally.
   */
  method SetSimulator(simulator: AtomifySimulator?)
    requires simulator != this.simulator ==> simulator != null
    modifies this`simulator, this`events, (if simulator == null then {} else {simulator})`computes
    ensures this.simulator == simulator
    ensures old(this.simulator) == simulator ==> events == old(events) && (simulator != null ==> unchanged(simulator))
    ensures old(this.simulator) != simulator ==>
              && simulator.computes == old(simulator.computes)[identifier := this]
              && events == old(events) + [SimulatorChanged(simulator)]
  {
    if this.simulator == simulator {
      return;
    }
    this.simulator := simulator;
    simulator.AddCompute(this);
    events := events + [SimulatorChanged(simulator)];
  }

  method SetDependencies(dependencies: seq<string>)
    modifies this`dependencies, this`events
    ensures this.dependencies == dependencies
    ensures events == old(events) + (if old(this.dependencies) == dependencies then [] else [DependenciesChanged(dependencies)])
  {
    if this.dependencies == dependencies {
      return;
    }
    this.dependencies := dependencies;
    events := events + [DependenciesChanged(dependencies)];
  }

  method SetIsVector(isVector: bool)
    modifies this`isVector, this`events
    ensures this.isVector == isVector
    ensures events == old(events) + (if old(this.isVector) == isVector then [] else [IsVectorChanged(isVector)])
  {
    if this.isVector == isVector {
      return;
    }
    this.isVector := isVector;
    events := events + [IsVectorChanged(isVector)];
  }

  /**
   * New values from LAMMPS, stamped with the simulator's time. The source
   * reads the first value unconditionally and calls into the simulator, so
   * both must be there.
   */
  method SetValues(v: seq<real>)
    requires simulator != null && |v| > 0
    modifies this`time, this`values, this`events
    ensures time == simulator.simulationTime
    ensures values == v
    ensures events == old(events) + ValueNotifications(v)
  {
    time := simulator.simulationTime;
    values := v;
    events := events + [ValuesChanged(values), ValueChanged(0, values[0])];
    if |v| > 1 { events := events + [ValueChanged(1, values[1])]; }
    if |v| > 2 { events := events + [ValueChanged(2, values[2])]; }
    if |v| > 3 { events := events + [ValueChanged(3, values[3])]; }
  }

  /** Slot 0 of the values, as the last setValues announced it. */
  function FirstValue(): (r: real)
    reads this
    requires |values| > 0
    ensures ValueNotifications(values)[1] == ValueChanged(0, r)
  {
    values[0]
  }

  /** Slot 1 of the values, as the last setValues announced it. */
  function SecondValue(): (r: real)
    reads this
    requires |values| > 1
    ensures ValueNotifications(values)[2] == ValueChanged(1, r)
  {
    values[1]
  }

  /** Slot 2 of the values, as the last setValues announced it. */
  function ThirdValue(): (r: real)
    reads this
    requires |values| > 2
    ensures ValueNotifications(values)[3] == ValueChanged(2, r)
  {
    values[2]
  }

  /** Slot 3 of the values, as the last setValues announced it. */
  function FourthValue(): (r: real)
    reads this
    requires |values| > 3
    ensures ValueNotifications(values)[4] == ValueChanged(3, r)
  {
    values[3]
  }
}

/**
 * Each value notification of setValues announces exactly what the matching
 * accessor returns afterwards, and a slot is announced iff its accessor may
 * be called.
 */
lemma NotificationsMatchAccessors(c: CPCompute)
  requires |c.values| > 0
  ensures var n := ValueNotifications(c.values);
          && n[1] == ValueChanged(0, c.FirstValue())
          && (|n| > 2 <==> |c.values| > 1)
          && (|c.values| > 1 ==> n[2] == ValueChanged(1, c.SecondValue()))
          && (|n| > 3 <==> |c.values| > 2)
          && (|c.values| > 2 ==> n[3] == ValueChanged(2, c.ThirdValue()))
          && (|n| > 4 <==> |c.values| > 3)
          && (|c.values| > 3 ==> n[4] == ValueChanged(3, c.FourthValue()))
          && |n| <= 5
{
}
