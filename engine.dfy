// The collaborators the worker-side synchronisation talks to: the LAMMPS
// instance, the LAMMPS controller that owns it, the script handler and the
// controller's current exception. Their own code is not part of this model;
// each appears only as the state the core reads and as a log of the calls
// the core makes into it.

datatype Option<T> = None | Some(value: T)

/** A QVector3D: an atom position, the half-extents of the box, the system size. */
datatype Vec3 = Vec3(x: real, y: real, z: real)

function Sub(a: Vec3, b: Vec3): Vec3
{
  Vec3(a.x - b.x, a.y - b.y, a.z - b.z)
}

/** CommandInfo::Type; the kinds the core does not name are kept opaque. */
datatype CommandType = SingleCommand | SkipLammpsTick | OtherType(name: string)

datatype CommandInfo = CommandInfo(kind: CommandType)

/** A command and its classification, as ScriptHandler::nextCommand hands it out. */
datatype CommandObject = CommandObject(text: string, info: CommandInfo)

/** The LAMMPS commands the thermostat control writes, kept structured instead of formatted. */
datatype LammpsCommand =
  | Unfix(fixId: string)          // "unfix <id>"
  | FixNveAll                     // "fix nve all nve"
  | FixNvtAll(temperature: real)  // "fix nvt all nvt temp T T 1.0"

/** One call made into the script handler. */
datatype HandlerCall =
  | AddCommandsToTop(commands: seq<LammpsCommand>, info: CommandInfo)
  | AddCommandToTop(command: LammpsCommand, info: CommandInfo)
  | SetAtomStyle(style: AtomStyle)
  | NextCommand
  | ParseEditorCommand(text: string)

/** One call made into the LAMMPS controller that has an effect the model does not follow. */
datatype ControllerCall = Reset | DisableAllEnsembleFixes | Tick

/**
 * One entry of the controller's call log: a call into the controller itself
 * or into its script handler. Both kinds go to the same log, so their
 * relative order is kept.
 */
datatype Call = ToController(controllerCall: ControllerCall) | ToHandler(handlerCall: HandlerCall)

/**
 * The script handler. Its queue and parser are not part of this model; it
 * appears only as an object identity, and the calls made into it are
 * entries of the owning controller's log.
 */
class ScriptHandler {
  constructor ()
  {
  }
}

/** The controller's current exception: where LAMMPS failed, why, and whether the UI was told. */
datatype LammpsException = LammpsException(file: string, error: string, isReported: bool)

/**
 * What synchronizeRenderer reads from the LAMMPS instance: the atom count,
 * the per-atom type (1-based) and position arrays, the box half-extents
 * (domain->prd_half) and the periodic remapping (domain->remap).
 */
datatype LammpsState = LammpsState(
  natoms: nat,
  atomType: seq<int>,
  x: seq<Vec3>,
  prdHalf: Vec3,
  remap: Vec3 -> Vec3)

/** Every atom the renderer visits has a type and a position, and types start at 1. */
ghost predicate WellFormedAtoms(st: LammpsState)
{
  && |st.atomType| >= st.natoms
  && |st.x| >= st.natoms
  && forall i :: 0 <= i < st.natoms ==> st.atomType[i] >= 1
}

/** The engine-derived values synchronizeSimulator copies from the controller into the simulator. */
datatype EngineValues = EngineValues(
  simulationTime: real,
  numberOfAtoms: int,
  numberOfAtomTypes: int,
  systemSize: Vec3,
  timePerTimestep: real,
  scriptHandler: ScriptHandler?)

/**
 * The LAMMPS controller. Its getters are modelled as fields; the engine
 * scalars are whatever the engine last reported. lammpscontroller.cpp is not
 * part of this model, so each call into the controller's own operations
 * promises only its log entry and may change any of its fields.
 */
class LammpsController {
  const scriptHandler: ScriptHandler
  var currentException: LammpsException
  var lammps: Option<LammpsState>      // lammps(), None when there is no instance
  var nvtFix: FixNH?                   // findFixByType<FixNVT>()
  var dataDirty: bool
  var crashed: bool
  var paused: bool
  var simulationSpeed: int
  var computes: map<string, CPCompute>
  var simulatorControls: seq<NVT>
  var nextCommandObject: CommandObject // state.nextCommandObject
  var simulationTime: real
  var numberOfAtoms: int
  var numberOfAtomTypes: int
  var systemSize: Vec3
  var timePerTimestep: real
  var calls: seq<Call>

  // The controller's own constructor is not part of this model: the initial
  // values below only make the object well defined.
  constructor ()
    ensures fresh(scriptHandler)
    ensures lammps == None && nvtFix == null && !crashed && calls == []
  {
    scriptHandler := new ScriptHandler();
    currentException := LammpsException("", "", false);
    lammps := None;
    nvtFix := null;
    dataDirty := false;
    crashed := false;
    paused := false;
    simulationSpeed := 1;
    computes := map[];
    simulatorControls := [];
    nextCommandObject := CommandObject("", CommandInfo(SkipLammpsTick));
    simulationTime := 0.0;
    numberOfAtoms := 0;
    numberOfAtomTypes := 0;
    systemSize := Vec3(0.0, 0.0, 0.0);
    timePerTimestep := 0.0;
    calls := [];
  }

  /** The values the controller reports for the simulator to mirror. */
  function Engine(): EngineValues
    reads this`simulationTime, this`numberOfAtoms, this`numberOfAtomTypes, this`systemSize, this`timePerTimestep
  {
    EngineValues(simulationTime, numberOfAtoms, numberOfAtomTypes, systemSize, timePerTimestep, scriptHandler)
  }

  method Reset()
    modifies this
    ensures calls == old(calls) + [ToController(ControllerCall.Reset)]
  {
    calls := calls + [ToController(ControllerCall.Reset)];
  }

  method DisableAllEnsembleFixes()
    modifies this
    ensures calls == old(calls) + [ToController(ControllerCall.DisableAllEnsembleFixes)]
  {
    calls := calls + [ToController(ControllerCall.DisableAllEnsembleFixes)];
  }

  method Tick()
    modifies this
    ensures calls == old(calls) + [ToController(ControllerCall.Tick)]
  {
    calls := calls + [ToController(ControllerCall.Tick)];
  }

  /** A call into the script handler, which changes nothing the model follows. */
  method CallHandler(c: HandlerCall)
    modifies this`calls
    ensures calls == old(calls) + [ToHandler(c)]
  {
    calls := calls + [ToHandler(c)];
  }
}
