// The worker side of the simulator (atomify-lammps/mysimulator.cpp): the
// per-tick handoff between the UI-facing AtomifySimulator and the LAMMPS
// controller, the extraction of visible atoms into the sphere buffers, the
// tick throttle and the simulator's change-only setters.

// ---------------------------------------------------------------------------
// Qt values the core uses

/** QColor; a default-constructed one is invalid. */
datatype Color = InvalidColor | Rgba(r: real, g: real, b: real, a: real)

/**
 * QVector::resize: the first min(|s|, n) elements are kept and new slots
 * hold the default value `filler`.
 */
function Resize<T>(s: seq<T>, n: nat, filler: T): (r: seq<T>)
  ensures |r| == n
  ensures forall k :: 0 <= k < n && k < |s| ==> r[k] == s[k]
  ensures forall k :: |s| <= k < n ==> r[k] == filler
{
  if n <= |s| then s[..n] else s + seq(n - |s|, _ => filler)
}

/** QChar::isSpace: the characters QString::trimmed removes. */
predicate IsSpace(c: char)
{
  || c == ' '
  || ('\t' <= c <= '\r')
  || c == '\U{85}' || c == '\U{A0}' || c == '\U{1680}'
  || ('\U{2000}' <= c <= '\U{200A}')
  || c == '\U{2028}' || c == '\U{2029}' || c == '\U{202F}' || c == '\U{205F}' || c == '\U{3000}'
}

ghost predicate AllSpace(s: string)
{
  forall k :: 0 <= k < |s| ==> IsSpace(s[k])
}

/** `s` without its leading whitespace. */
function TrimStart(s: string): string
{
  if s != [] && IsSpace(s[0]) then TrimStart(s[1..]) else s
}

/** `s` without its trailing whitespace. */
function TrimEnd(s: string): string
{
  if s != [] && IsSpace(s[|s| - 1]) then TrimEnd(s[..|s| - 1]) else s
}

/** TrimStart cuts a whitespace prefix, and no more of it than there is. */
lemma {:induction false} TrimStartCutsSpace(s: string)
  ensures var r := TrimStart(s);
          && |r| <= |s| && r == s[|s| - |r|..]
          && AllSpace(s[..|s| - |r|])
          && (r != [] ==> !IsSpace(r[0]))
{
  if s != [] && IsSpace(s[0]) {
    TrimStartCutsSpace(s[1..]);
    var r := TrimStart(s);
    assert s[..|s| - |r|] == [s[0]] + s[1..][..|s| - 1 - |r|];
  }
}

/** TrimEnd cuts a whitespace suffix, and no more of it than there is. */
lemma {:induction false} TrimEndCutsSpace(s: string)
  ensures var r := TrimEnd(s);
          && |r| <= |s| && r == s[..|r|]
          && AllSpace(s[|r|..])
          && (r != [] ==> !IsSpace(r[|r| - 1]))
{
  if s != [] && IsSpace(s[|s| - 1]) {
    TrimEndCutsSpace(s[..|s| - 1]);
    var r := TrimEnd(s);
    assert s[|r|..] == s[..|s| - 1][|r|..] + [s[|s| - 1]];
  }
}

/** QString::trimmed: `s` without the whitespace at either end. */
function Trimmed(s: string): (r: string)
  ensures |r| <= |s|
  ensures r != [] ==> !IsSpace(r[0]) && !IsSpace(r[|r| - 1])
{
  TrimStartCutsSpace(s);
  TrimEndCutsSpace(TrimStart(s));
  TrimEnd(TrimStart(s))
}

/**
 * What trimming promises: the result is a slice of `s` that neither starts
 * nor ends with whitespace, and only whitespace is cut on either side.
 */
lemma TrimmedIsCore(s: string)
  ensures var r := Trimmed(s);
          && (r != [] ==> !IsSpace(r[0]) && !IsSpace(r[|r| - 1]))
          && exists lead :: 0 <= lead <= |s| - |r| && r == s[lead..lead + |r|]
                            && AllSpace(s[..lead]) && AllSpace(s[lead + |r|..])
{
  var t := TrimStart(s);
  var r := TrimEnd(t);
  TrimStartCutsSpace(s);
  TrimEndCutsSpace(t);
  var lead := |s| - |t|;
  assert t == s[lead..];
  assert r == t[..|r|];
  assert r == s[lead..lead + |r|];
  assert AllSpace(s[..lead]);
  assert s[lead + |r|..] == t[|r|..];
  assert AllSpace(s[lead + |r|..]);
}

/** Trimming an already trimmed string changes nothing. */
lemma TrimmedIsIdempotent(s: string)
  ensures Trimmed(Trimmed(s)) == Trimmed(s)
{
}

// ---------------------------------------------------------------------------
// The atom style and the sphere buffers

/** One entry of an AtomStyle's data list; only its visibility matters here. */
datatype AtomStyleData = AtomStyleData(visible: bool)

/**
 * An atom style: the per-type style list, its dirty flag and the last
 * minimum size requested of it. atomstyle.cpp is not part of this model, so
 * its setters are plain stores.
 */
class AtomStyle {
  var data: seq<AtomStyleData>
  var dirty: bool
  var minimumSize: int

  constructor (data: seq<AtomStyleData>)
    ensures this.data == data && !dirty
  {
    this.data := data;
    dirty := false;
    minimumSize := 0;
  }
}

/** The Spheres renderable: the buffers synchronizeRenderer fills. */
class Spheres {
  var positions: seq<Vec3>
  var scales: seq<real>
  var colors: seq<Color>
  var dirty: bool

  constructor ()
    ensures positions == [] && scales == [] && colors == [] && !dirty
  {
    positions := [];
    scales := [];
    colors := [];
    dirty := false;
  }
}

// ---------------------------------------------------------------------------
// Render extraction

/** An atom of this (1-based) type is drawn: the type has a style entry and that entry is visible. */
predicate Shown(atomType: int, styles: seq<AtomStyleData>)
  requires atomType >= 1
{
  atomType - 1 < |styles| && styles[atomType - 1].visible
}

/** The indices of the atoms among the first `n` that are drawn, in increasing order. */
function KeptIndices(types: seq<int>, styles: seq<AtomStyleData>, n: nat): (r: seq<nat>)
  requires n <= |types|
  requires forall i :: 0 <= i < n ==> types[i] >= 1
  ensures |r| <= n
  ensures forall k :: 0 <= k < |r| ==> r[k] < n
{
  if n == 0 then []
  else KeptIndices(types, styles, n - 1) + (if Shown(types[n - 1], styles) then [n - 1] else [])
}

/** The kept indices are exactly the drawn atoms among the first `n`, in increasing order. */
lemma {:induction false} KeptIndicesAreShown(types: seq<int>, styles: seq<AtomStyleData>, n: nat)
  requires n <= |types|
  requires forall i :: 0 <= i < n ==> types[i] >= 1
  ensures var r := KeptIndices(types, styles, n);
          && (forall k :: 0 <= k < |r| ==> Shown(types[r[k]], styles))
          && (forall k, l :: 0 <= k < l < |r| ==> r[k] < r[l])
          && (forall i :: 0 <= i < n ==> (Shown(types[i], styles) <==> i in r))
{
  if n > 0 {
    KeptIndicesAreShown(types, styles, n - 1);
  }
}

/** Every atom of a styled, visible type is kept, so every atom is. */
lemma {:induction false} AllShownKeepsAll(types: seq<int>, styles: seq<AtomStyleData>, n: nat)
  requires n <= |types|
  requires forall i :: 0 <= i < n ==> types[i] >= 1 && Shown(types[i], styles)
  ensures |KeptIndices(types, styles, n)| == n
  ensures forall k :: 0 <= k < n ==> KeptIndices(types, styles, n)[k] == k
{
  if n > 0 {
    AllShownKeepsAll(types, styles, n - 1);
  }
}

/** No atom of a hidden or unstyled type is kept, so nothing is when none is shown. */
lemma {:induction false} NoneShownKeepsNone(types: seq<int>, styles: seq<AtomStyleData>, n: nat)
  requires n <= |types|
  requires forall i :: 0 <= i < n ==> types[i] >= 1 && !Shown(types[i], styles)
  ensures KeptIndices(types, styles, n) == []
{
  if n > 0 {
    NoneShownKeepsNone(types, styles, n - 1);
  }
}

/** Scenario: styles [visible, hidden] and types [1, 1, 2, 2, 1] keep atoms 0, 1 and 4. */
lemma VisibilityScenario()
  ensures KeptIndices([1, 1, 2, 2, 1], [AtomStyleData(true), AtomStyleData(false)], 5) == [0, 1, 4]
{
}

/** Where atom `i` is drawn: its remapped position moved by minus the box half-extent. */
function Placed(st: LammpsState, i: nat): Vec3
  requires i < |st.x|
{
  Sub(st.remap(st.x[i]), st.prdHalf)
}

/**
 * The loop of MyWorker::synchronizeRenderer over the first st.natoms atoms:
 * each drawn atom is written, placed and typed, into the next free slot of
 * buffers already resized to st.natoms.
 */
method CollectVisible(st: LammpsState, styles: seq<AtomStyleData>, positions0: seq<Vec3>, types0: seq<int>)
  returns (positions: seq<Vec3>, types: seq<int>, numVisibleAtoms: nat)
  requires WellFormedAtoms(st)
  requires |positions0| == st.natoms && |types0| == st.natoms
  ensures var kept := KeptIndices(st.atomType, styles, st.natoms);
          && numVisibleAtoms == |kept|
          && |positions| == st.natoms && |types| == st.natoms
          && (forall k :: 0 <= k < numVisibleAtoms ==> positions[k] == Placed(st, kept[k]))
          && (forall k :: 0 <= k < numVisibleAtoms ==> types[k] == st.atomType[kept[k]])
{
  positions, types, numVisibleAtoms := positions0, types0, 0;
  ghost var kept: seq<nat> := [];
  var i := 0;
  while i < st.natoms
    invariant 0 <= i <= st.natoms
    invariant kept == KeptIndices(st.atomType, styles, i)
    invariant numVisibleAtoms == |kept|
    invariant |positions| == st.natoms && |types| == st.natoms
    invariant forall k :: 0 <= k < numVisibleAtoms ==> positions[k] == Placed(st, kept[k])
    invariant forall k :: 0 <= k < numVisibleAtoms ==> types[k] == st.atomType[kept[k]]
  {
    var atomType := st.atomType[i];
    ghost var keptBefore := kept;
    var addAtom := true;
    if atomType - 1 < |styles| {
      if !styles[atomType - 1].visible {
        addAtom := false;
      }
    } else {
      addAtom := false;
    }
    assert addAtom == Shown(atomType, styles);
    assert KeptIndices(st.atomType, styles, i + 1) == kept + (if addAtom then [i] else []);
    if addAtom {
      var position := st.remap(st.x[i]);
      positions := positions[numVisibleAtoms := Sub(position, st.prdHalf)];
      types := types[numVisibleAtoms := atomType];
      kept := kept + [i];
      assert forall k :: 0 <= k < numVisibleAtoms ==> kept[k] == keptBefore[k];
      numVisibleAtoms := numVisibleAtoms + 1;
    }
    i := i + 1;
  }
}

// ---------------------------------------------------------------------------
// The tick throttle

const TickBudgetMs: int := 16

/** How long MyWorker::work sleeps after a tick that took `elapsed` ms. */
function ThrottleDelay(elapsed: int): (delay: int)
  ensures delay >= 0
  ensures delay > 0 <==> elapsed < TickBudgetMs
  ensures delay > 0 ==> elapsed + delay == TickBudgetMs
{
  var delta := TickBudgetMs - elapsed;
  if delta > 0 then delta else 0
}

/** Scenarios: a 5 ms tick is followed by an 11 ms sleep, a 20 ms tick by none. */
lemma ThrottleScenarios()
  ensures ThrottleDelay(5) == 11 && ThrottleDelay(20) == 0
{
}

// ---------------------------------------------------------------------------
// The UI-facing simulator

datatype SimulatorEvent =
  | SimulationSpeedChanged(speed: int)
  | PausedChanged(paused: bool)
  | SimulationTimeChanged(time: real)
  | AtomStyleChanged(style: AtomStyle?)
  | NumberOfAtomsChanged(count: int)
  | NumberOfAtomTypesChanged(count: int)
  | SystemSizeChanged(size: Vec3)
  | TimePerTimestepChanged(dt: real)
  | LammpsErrorChanged(error: string)
  | LammpsErrorMessageChanged(message: string)
  | ScriptHandlerChanged(handler: ScriptHandler?)
  | WillResetChanged(willReset: bool)

/** The two notifications that tell the UI about a reset or a crash; no setter emits them. */
datatype SimulatorSignal = LammpsDidReset | ErrorInLammpsScript

/** The notification of a change-only setter: one event when the value changed, none otherwise. */
function Note(changed: bool, e: SimulatorEvent): seq<SimulatorEvent>
{
  if changed then [e] else []
}

/**
 * The notifications of the first half of the pull phase: one for the time
 * and for each count that differs from what the simulator held, in the
 * order the setters are called.
 */
function CountNotes(before: EngineValues, after: EngineValues): seq<SimulatorEvent>
{
  Note(before.simulationTime != after.simulationTime, SimulationTimeChanged(after.simulationTime))
  + Note(before.numberOfAtoms != after.numberOfAtoms, NumberOfAtomsChanged(after.numberOfAtoms))
  + Note(before.numberOfAtomTypes != after.numberOfAtomTypes, NumberOfAtomTypesChanged(after.numberOfAtomTypes))
}

/** The same for the second half: the system size, the timestep and the script handler. */
function GeometryNotes(before: EngineValues, after: EngineValues): seq<SimulatorEvent>
{
  Note(before.systemSize != after.systemSize, SystemSizeChanged(after.systemSize))
  + Note(before.timePerTimestep != after.timePerTimestep, TimePerTimestepChanged(after.timePerTimestep))
  + Note(before.scriptHandler != after.scriptHandler, ScriptHandlerChanged(after.scriptHandler))
}

/**
 * The notifications of a crash report: the trimmed file and message of the
 * exception, each only when it differs from what the simulator held.
 */
function CrashNotes(reported: bool, error: string, message: string, exception: LammpsException): seq<SimulatorEvent>
{
  Note(reported && error != Trimmed(exception.file), LammpsErrorChanged(Trimmed(exception.file)))
  + Note(reported && message != Trimmed(exception.error), LammpsErrorMessageChanged(Trimmed(exception.error)))
}

class AtomifySimulator {
  var computes: map<string, CPCompute>
  var paused: bool
  var simulationSpeed: int
  var simulationTime: real
  var atomStyle: AtomStyle?
  var numberOfAtoms: int
  var numberOfAtomTypes: int
  var systemSize: Vec3
  var timePerTimestep: real
  var lammpsError: string
  var lammpsErrorMessage: string
  var scriptHandler: ScriptHandler?
  var willReset: bool
  var controls: seq<NVT>              // findChildren<SimulatorControl*>()
  var events: seq<SimulatorEvent>      // property notifications
  var signals: seq<SimulatorSignal>    // lammpsDidReset and errorInLammpsScript

  // mysimulator.h is not part of this model; the initial values are Qt's
  // defaults for the field types.
  constructor ()
    ensures computes == map[] && atomStyle == null && scriptHandler == null && !willReset && events == [] && signals == []
  {
    computes := map[];
    paused := false;
    simulationSpeed := 1;
    simulationTime := 0.0;
    atomStyle := null;
    numberOfAtoms := 0;
    numberOfAtomTypes := 0;
    systemSize := Vec3(0.0, 0.0, 0.0);
    timePerTimestep := 0.0;
    lammpsError := "";
    lammpsErrorMessage := "";
    scriptHandler := null;
    willReset := false;
    controls := [];
    events := [];
    signals := [];
  }

  /** The engine-derived values as the simulator holds them. */
  function Engine(): EngineValues
    reads this`simulationTime, this`numberOfAtoms, this`numberOfAtomTypes, this`systemSize, this`timePerTimestep,
          this`scriptHandler
  {
    EngineValues(simulationTime, numberOfAtoms, numberOfAtomTypes, systemSize, timePerTimestep, scriptHandler)
  }

  method SetComputes(computes: map<string, CPCompute>)
    modifies this`computes
    ensures this.computes == computes
  {
    this.computes := computes;
  }

  /** Registers `compute` under its identifier, replacing any compute registered under it. */
  method AddCompute(compute: CPCompute)
    modifies this`computes
    ensures computes == old(computes)[compute.identifier := compute]
    ensures compute.identifier in computes && computes[compute.identifier] == compute
    ensures forall key :: key in old(computes) && key != compute.identifier ==> key in computes && computes[key] == old(computes)[key]
  {
    computes := computes[compute.identifier := compute];
  }

  method SetSimulationSpeed(arg: int)
    modifies this`simulationSpeed, this`events
    ensures simulationSpeed == arg
    ensures events == old(events) + Note(old(simulationSpeed) != arg, SimulationSpeedChanged(arg))
  {
    if simulationSpeed == arg {
      return;
    }
    simulationSpeed := arg;
    events := events + [SimulationSpeedChanged(arg)];
  }

  method SetPaused(paused: bool)
    modifies this`paused, this`events
    ensures this.paused == paused
    ensures events == old(events) + Note(old(this.paused) != paused, PausedChanged(paused))
  {
    if this.paused == paused {
      return;
    }
    this.paused := paused;
    events := events + [PausedChanged(paused)];
  }

  method SetSimulationTime(simulationTime: real)
    modifies this`simulationTime, this`events
    ensures this.simulationTime == simulationTime
    ensures events == old(events) + Note(old(this.simulationTime) != simulationTime, SimulationTimeChanged(simulationTime))
  {
    if this.simulationTime == simulationTime {
      return;
    }
    this.simulationTime := simulationTime;
    events := events + [SimulationTimeChanged(simulationTime)];
  }

  method SetAtomStyle(atomStyle: AtomStyle?)
    modifies this`atomStyle, this`events
    ensures this.atomStyle == atomStyle
    ensures events == old(events) + Note(old(this.atomStyle) != atomStyle, AtomStyleChanged(atomStyle))
  {
    if this.atomStyle == atomStyle {
      return;
    }
    this.atomStyle := atomStyle;
    events := events + [AtomStyleChanged(atomStyle)];
  }

  method SetNumberOfAtoms(numberOfAtoms: int)
    modifies this`numberOfAtoms, this`events
    ensures this.numberOfAtoms == numberOfAtoms
    ensures events == old(events) + Note(old(this.numberOfAtoms) != numberOfAtoms, NumberOfAtomsChanged(numberOfAtoms))
  {
    if this.numberOfAtoms == numberOfAtoms {
      return;
    }
    this.numberOfAtoms := numberOfAtoms;
    events := events + [NumberOfAtomsChanged(numberOfAtoms)];
  }

  /** A new count of atom types is also the minimum size of the atom style, when there is one. */
  method SetNumberOfAtomTypes(numberOfAtomTypes: int)
    modifies this`numberOfAtomTypes, this`events, atomStyle
    ensures this.numberOfAtomTypes == numberOfAtomTypes
    ensures old(this.numberOfAtomTypes) == numberOfAtomTypes ==>
              events == old(events) && (atomStyle != null ==> unchanged(atomStyle))
    ensures old(this.numberOfAtomTypes) != numberOfAtomTypes ==>
              && events == old(events) + [NumberOfAtomTypesChanged(numberOfAtomTypes)]
              && (atomStyle != null ==> atomStyle.minimumSize == numberOfAtomTypes
                                        && atomStyle.data == old(atomStyle.data)
                                        && atomStyle.dirty == old(atomStyle.dirty))
  {
    if this.numberOfAtomTypes == numberOfAtomTypes {
      return;
    }
    this.numberOfAtomTypes := numberOfAtomTypes;
    if atomStyle != null {
      atomStyle.minimumSize := numberOfAtomTypes;
    }
    events := events + [NumberOfAtomTypesChanged(numberOfAtomTypes)];
  }

  method SetSystemSize(systemSize: Vec3)
    modifies this`systemSize, this`events
    ensures this.systemSize == systemSize
    ensures events == old(events) + Note(old(this.systemSize) != systemSize, SystemSizeChanged(systemSize))
  {
    if this.systemSize == systemSize {
      return;
    }
    this.systemSize := systemSize;
    events := events + [SystemSizeChanged(systemSize)];
  }

  method SetTimePerTimestep(timePerTimestep: real)
    modifies this`timePerTimestep, this`events
    ensures this.timePerTimestep == timePerTimestep
    ensures events == old(events) + Note(old(this.timePerTimestep) != timePerTimestep, TimePerTimestepChanged(timePerTimestep))
  {
    if this.timePerTimestep == timePerTimestep {
      return;
    }
    this.timePerTimestep := timePerTimestep;
    events := events + [TimePerTimestepChanged(timePerTimestep)];
  }

  method SetLammpsError(lammpsError: string)
    modifies this`lammpsError, this`events
    ensures this.lammpsError == lammpsError
    ensures events == old(events) + Note(old(this.lammpsError) != lammpsError, LammpsErrorChanged(lammpsError))
  {
    if this.lammpsError == lammpsError {
      return;
    }
    this.lammpsError := lammpsError;
    events := events + [LammpsErrorChanged(lammpsError)];
  }

  method SetLammpsErrorMessage(lammpsErrorMessage: string)
    modifies this`lammpsErrorMessage, this`events
    ensures this.lammpsErrorMessage == lammpsErrorMessage
    ensures events == old(events) + Note(old(this.lammpsErrorMessage) != lammpsErrorMessage, LammpsErrorMessageChanged(lammpsErrorMessage))
  {
    if this.lammpsErrorMessage == lammpsErrorMessage {
      return;
    }
    this.lammpsErrorMessage := lammpsErrorMessage;
    events := events + [LammpsErrorMessageChanged(lammpsErrorMessage)];
  }

  method SetScriptHandler(scriptHandler: ScriptHandler?)
    modifies this`scriptHandler, this`events
    ensures this.scriptHandler == scriptHandler
    ensures events == old(events) + Note(old(this.scriptHandler) != scriptHandler, ScriptHandlerChanged(scriptHandler))
  {
    if this.scriptHandler == scriptHandler {
      return;
    }
    this.scriptHandler := scriptHandler;
    events := events + [ScriptHandlerChanged(scriptHandler)];
  }

  method SetWillReset(willReset: bool)
    modifies this`willReset, this`events
    ensures this.willReset == willReset
    ensures events == old(events) + Note(old(this.willReset) != willReset, WillResetChanged(willReset))
  {
    if this.willReset == willReset {
      return;
    }
    this.willReset := willReset;
    events := events + [WillResetChanged(willReset)];
  }
}

// ---------------------------------------------------------------------------
// The worker

/** The log entry of the reset handoff, when the simulator asked for a reset. */
function ResetCalls(willReset: bool): seq<Call>
{
  if willReset then [ToController(ControllerCall.Reset)] else []
}

/** The log entry that hands the simulator's atom style to the script handler, when there is one. */
function StyleCalls(style: AtomStyle?): seq<Call>
{
  if style == null then [] else [ToHandler(SetAtomStyle(style))]
}

/** The script-handler calls of the command phase: the next command, then its parse when it is an editor command. */
function CommandCalls(text: string, isEditor: bool): seq<Call>
{
  [ToHandler(NextCommand)] + (if isEditor then [ToHandler(ParseEditorCommand(text))] else [])
}

class MyWorker {
  const controller: LammpsController
  const atomStyle: AtomStyle
  var atomTypes: seq<int>
  var willPause: bool

  // mysimulator.h is not part of this model; the worker starts with an empty
  // style list and no pending pause.
  constructor ()
    ensures fresh(controller) && fresh(controller.scriptHandler) && fresh(atomStyle)
    ensures atomTypes == [] && !willPause
  {
    controller := new LammpsController();
    atomStyle := new AtomStyle([]);
    atomTypes := [];
    willPause := false;
  }

  method SetWillPause(willPause: bool)
    modifies this`willPause
    ensures this.willPause == willPause
  {
    this.willPause := willPause;
  }

  /**
   * The values a tick copies between the simulator and the controller agree:
   * the UI's computes, speed and controls, and the engine values. (The pause
   * flag is copied too, but the command phase may set it afterwards.)
   */
  predicate Mirrored(sim: AtomifySimulator)
    reads sim`computes, sim`simulationSpeed, sim`controls, sim`simulationTime, sim`numberOfAtoms,
          sim`numberOfAtomTypes, sim`systemSize, sim`timePerTimestep, sim`scriptHandler,
          controller`computes, controller`simulationSpeed, controller`simulatorControls, controller`simulationTime,
          controller`numberOfAtoms, controller`numberOfAtomTypes, controller`systemSize, controller`timePerTimestep
  {
    && controller.computes == sim.computes
    && controller.simulationSpeed == sim.simulationSpeed
    && controller.simulatorControls == sim.controls
    && sim.Engine() == controller.Engine()
  }

  /**
   * MyWorker::synchronizeSimulator, one tick of the handoff between the UI
   * object `sim` and the controller. `next` is what ScriptHandler::nextCommand
   * hands out this tick and `isEditorCommand` is ScriptParser::isEditorCommand;
   * both belong to code outside this model. `reported` says whether the tick
   * ended in a crash report. The phases are the helper methods below.
   */
  method SynchronizeSimulator(sim: AtomifySimulator, next: CommandObject, isEditorCommand: string -> bool)
    returns (ghost reported: bool)
    requires sim.atomStyle != atomStyle
    modifies this`willPause, sim, sim.atomStyle, atomStyle, controller
    // the reset comes first, and every call of the tick is logged after it in call order
    ensures !sim.willReset
    ensures controller.calls == old(controller.calls) + ResetCalls(old(sim.willReset)) + StyleCalls(sim.atomStyle)
              + (if reported then [] else CommandCalls(next.text, isEditorCommand(next.text)))
    ensures sim.signals == old(sim.signals)
              + (if old(sim.willReset) then [LammpsDidReset] else [])
              + (if reported then [ErrorInLammpsScript] else [])
    // one property notification for each field a setter changed, in call order
    ensures sim.events == old(sim.events) + Note(old(sim.willReset), WillResetChanged(false))
              + CountNotes(old(sim.Engine()), controller.Engine())
              + GeometryNotes(old(sim.Engine()), controller.Engine())
              + CrashNotes(reported, old(sim.lammpsError), old(sim.lammpsErrorMessage), controller.currentException)
              + Note(!reported && old(willPause) && !old(sim.paused), PausedChanged(true))
    // atom styles edited in the UI reach the worker once
    ensures sim.atomStyle == old(sim.atomStyle)
    ensures old(sim.atomStyle) != null && old(sim.atomStyle.dirty) ==>
              atomStyle.data == old(sim.atomStyle.data) && atomStyle.dirty && !sim.atomStyle.dirty
    ensures !(old(sim.atomStyle) != null && old(sim.atomStyle.dirty)) ==>
              atomStyle.data == old(atomStyle.data) && atomStyle.dirty == old(atomStyle.dirty)
    ensures atomStyle.minimumSize == old(atomStyle.minimumSize)
    ensures sim.atomStyle != null ==> !sim.atomStyle.dirty
    ensures sim.atomStyle != null ==> sim.atomStyle.data == old(sim.atomStyle.data)
    ensures sim.atomStyle != null ==>
              sim.atomStyle.minimumSize == if old(sim.numberOfAtomTypes) != controller.numberOfAtomTypes
                                           then controller.numberOfAtomTypes else old(sim.atomStyle.minimumSize)
    // UI values pushed to the controller, engine values pulled into the UI
    ensures Mirrored(sim)
    ensures sim.computes == old(sim.computes) && sim.simulationSpeed == old(sim.simulationSpeed) && sim.controls == old(sim.controls)
    // a crash is reported once: a crashed controller's exception ends the tick marked reported
    ensures reported ==> controller.crashed
    ensures controller.crashed ==> controller.currentException.isReported
    // without a reset, the crash and the exception are the ones the tick started with
    ensures !old(sim.willReset) ==>
              && reported == (controller.crashed && !old(controller.currentException.isReported))
              && controller.currentException == old(controller.currentException).(isReported :=
                                                  old(controller.currentException.isReported) || controller.crashed)
              && unchanged(controller`lammps, controller`nvtFix, controller`dataDirty, controller`crashed,
                           controller`simulationTime, controller`numberOfAtoms, controller`numberOfAtomTypes,
                           controller`systemSize, controller`timePerTimestep)
    ensures reported ==>
              && sim.lammpsError == Trimmed(controller.currentException.file)
              && sim.lammpsErrorMessage == Trimmed(controller.currentException.error)
              && willPause == old(willPause)
              && controller.paused == old(sim.paused) && sim.paused == old(sim.paused)
    ensures reported && !old(sim.willReset) ==> controller.nextCommandObject == old(controller.nextCommandObject)
    ensures !reported ==>
              && sim.lammpsError == old(sim.lammpsError) && sim.lammpsErrorMessage == old(sim.lammpsErrorMessage)
              && !willPause
              && controller.paused == (old(sim.paused) || old(willPause))
              && sim.paused == (old(sim.paused) || old(willPause))
              && controller.nextCommandObject == (if isEditorCommand(next.text)
                                                  then CommandObject("", CommandInfo(SkipLammpsTick)) else next)
  {
    ExchangeValues(sim);
    reported := FinishTick(sim, next, isEditorCommand);
  }

  /**
   * Two ticks with no reset requested: a crash is reported by the first tick
   * at most, so errorInLammpsScript is signalled at most once.
   */
  method CrashReportedOnce(sim: AtomifySimulator, first: CommandObject, second: CommandObject,
                           isEditorCommand: string -> bool)
    requires sim.atomStyle != atomStyle && !sim.willReset
    modifies this`willPause, sim, sim.atomStyle, atomStyle, controller
    ensures sim.signals == old(sim.signals)
              + (if old(controller.crashed) && !old(controller.currentException.isReported) then [ErrorInLammpsScript] else [])
    ensures controller.crashed == old(controller.crashed)
    ensures controller.crashed ==> controller.currentException.isReported
  {
    ghost var r1 := SynchronizeSimulator(sim, first, isEditorCommand);
    ghost var r2 := SynchronizeSimulator(sim, second, isEditorCommand);
  }

  /** Lines 38-68: the reset handoff, the atom style, and the values exchanged between UI and engine. */
  method ExchangeValues(sim: AtomifySimulator)
    requires sim.atomStyle != atomStyle
    modifies sim`willReset, sim`events, sim`signals, sim`simulationTime, sim`numberOfAtoms, sim`numberOfAtomTypes,
             sim`systemSize, sim`timePerTimestep, sim`scriptHandler, sim.atomStyle, atomStyle, controller
    ensures !sim.willReset
    ensures controller.calls == old(controller.calls) + ResetCalls(old(sim.willReset)) + StyleCalls(sim.atomStyle)
    ensures sim.signals == old(sim.signals) + (if old(sim.willReset) then [LammpsDidReset] else [])
    ensures old(sim.atomStyle) != null && old(sim.atomStyle.dirty) ==>
              atomStyle.data == old(sim.atomStyle.data) && atomStyle.dirty && !sim.atomStyle.dirty
    ensures !(old(sim.atomStyle) != null && old(sim.atomStyle.dirty)) ==>
              atomStyle.data == old(atomStyle.data) && atomStyle.dirty == old(atomStyle.dirty)
    ensures atomStyle.minimumSize == old(atomStyle.minimumSize)
    ensures sim.atomStyle != null ==> !sim.atomStyle.dirty
    ensures sim.atomStyle != null ==> sim.atomStyle.data == old(sim.atomStyle.data)
    ensures sim.atomStyle != null ==>
              sim.atomStyle.minimumSize == if old(sim.numberOfAtomTypes) != controller.numberOfAtomTypes
                                           then controller.numberOfAtomTypes else old(sim.atomStyle.minimumSize)
    ensures sim.events == old(sim.events) + Note(old(sim.willReset), WillResetChanged(false))
              + CountNotes(old(sim.Engine()), controller.Engine())
              + GeometryNotes(old(sim.Engine()), controller.Engine())
    ensures unchanged(this`willPause, sim`paused, sim`lammpsError, sim`lammpsErrorMessage, sim`atomStyle)
    ensures !old(sim.willReset) ==>
              unchanged(controller`nextCommandObject, controller`currentException, controller`lammps, controller`nvtFix,
                        controller`dataDirty, controller`crashed, controller`simulationTime, controller`numberOfAtoms,
                        controller`numberOfAtomTypes, controller`systemSize, controller`timePerTimestep)
    ensures Mirrored(sim) && controller.paused == sim.paused
  {
    ResetAndTakeStyle(sim);
    PushAndPull(sim);
  }

  /** Lines 38-53: the reset handoff, then the atom style. */
  method ResetAndTakeStyle(sim: AtomifySimulator)
    requires sim.atomStyle != atomStyle
    modifies sim`willReset, sim`events, sim`signals, sim.atomStyle, atomStyle, controller
    ensures !sim.willReset
    ensures controller.calls == old(controller.calls) + ResetCalls(old(sim.willReset)) + StyleCalls(sim.atomStyle)
    ensures sim.signals == old(sim.signals) + (if old(sim.willReset) then [LammpsDidReset] else [])
    ensures sim.events == old(sim.events) + Note(old(sim.willReset), WillResetChanged(false))
    ensures sim.atomStyle != null && old(sim.atomStyle.dirty) ==>
              && atomStyle.data == old(sim.atomStyle.data) && atomStyle.dirty && atomStyle.minimumSize == old(atomStyle.minimumSize)
              && !sim.atomStyle.dirty && sim.atomStyle.data == old(sim.atomStyle.data)
              && sim.atomStyle.minimumSize == old(sim.atomStyle.minimumSize)
    ensures !(sim.atomStyle != null && old(sim.atomStyle.dirty)) ==>
              unchanged(atomStyle) && (sim.atomStyle != null ==> unchanged(sim.atomStyle))
    ensures !old(sim.willReset) ==>
              unchanged(controller`nextCommandObject, controller`currentException, controller`lammps, controller`nvtFix,
                        controller`dataDirty, controller`crashed, controller`simulationTime, controller`numberOfAtoms,
                        controller`numberOfAtomTypes, controller`systemSize, controller`timePerTimestep)
  {
    HandOffReset(sim);
    TakeAtomStyle(sim);
  }

  /** Lines 55-68: UI values pushed to the controller, then engine values pulled into the UI. */
  method PushAndPull(sim: AtomifySimulator)
    modifies sim`simulationTime, sim`numberOfAtoms, sim`numberOfAtomTypes, sim`systemSize,
             sim`timePerTimestep, sim`scriptHandler, sim`events, sim.atomStyle,
             controller`computes, controller`paused, controller`simulationSpeed, controller`simulatorControls
    ensures controller.computes == sim.computes && controller.paused == sim.paused
    ensures controller.simulationSpeed == sim.simulationSpeed && controller.simulatorControls == sim.controls
    ensures sim.simulationTime == controller.simulationTime && sim.numberOfAtoms == controller.numberOfAtoms
    ensures sim.numberOfAtomTypes == controller.numberOfAtomTypes && sim.systemSize == controller.systemSize
    ensures sim.timePerTimestep == controller.timePerTimestep && sim.scriptHandler == controller.scriptHandler
    ensures sim.atomStyle != null ==>
              && sim.atomStyle.data == old(sim.atomStyle.data) && sim.atomStyle.dirty == old(sim.atomStyle.dirty)
              && sim.atomStyle.minimumSize == if old(sim.numberOfAtomTypes) != controller.numberOfAtomTypes
                                              then controller.numberOfAtomTypes else old(sim.atomStyle.minimumSize)
    ensures sim.events == old(sim.events) + CountNotes(old(sim.Engine()), controller.Engine())
              + GeometryNotes(old(sim.Engine()), controller.Engine())
  {
    PushUiValues(sim);
    PullEngineValues(sim);
  }

  /**
   * Lines 70-97: an unreported crash is reported and ends the tick;
   * otherwise the deferred pause and the next command are applied.
   */
  method FinishTick(sim: AtomifySimulator, next: CommandObject, isEditorCommand: string -> bool)
    returns (reported: bool)
    modifies this`willPause, sim`lammpsError, sim`lammpsErrorMessage, sim`events, sim`signals, sim`paused,
             controller`paused, controller`nextCommandObject, controller`calls, controller`currentException
    ensures unchanged(sim`computes, sim`simulationSpeed, sim`controls, sim`simulationTime, sim`numberOfAtoms,
                      sim`numberOfAtomTypes, sim`systemSize, sim`timePerTimestep, sim`scriptHandler, sim`willReset,
                      sim`atomStyle, atomStyle)
    ensures unchanged(controller`computes, controller`simulationSpeed, controller`simulatorControls, controller`crashed,
                      controller`lammps, controller`nvtFix, controller`dataDirty, controller`simulationTime,
                      controller`numberOfAtoms, controller`numberOfAtomTypes, controller`systemSize, controller`timePerTimestep)
    ensures sim.atomStyle != null ==> unchanged(sim.atomStyle)
    ensures reported == (controller.crashed && !old(controller.currentException.isReported))
    ensures controller.currentException == old(controller.currentException).(isReported :=
                                             old(controller.currentException.isReported) || controller.crashed)
    ensures controller.calls == old(controller.calls)
              + (if reported then [] else CommandCalls(next.text, isEditorCommand(next.text)))
    ensures sim.signals == old(sim.signals) + (if reported then [ErrorInLammpsScript] else [])
    ensures sim.events == old(sim.events)
              + CrashNotes(reported, old(sim.lammpsError), old(sim.lammpsErrorMessage), controller.currentException)
              + Note(!reported && old(willPause) && !old(sim.paused), PausedChanged(true))
    ensures reported ==>
              && sim.lammpsError == Trimmed(controller.currentException.file)
              && sim.lammpsErrorMessage == Trimmed(controller.currentException.error)
              && willPause == old(willPause)
              && controller.paused == old(controller.paused) && sim.paused == old(sim.paused)
              && controller.nextCommandObject == old(controller.nextCommandObject)
    ensures !reported ==>
              && sim.lammpsError == old(sim.lammpsError) && sim.lammpsErrorMessage == old(sim.lammpsErrorMessage)
              && !willPause
              && controller.paused == (old(controller.paused) || old(willPause))
              && sim.paused == (old(sim.paused) || old(willPause))
              && controller.nextCommandObject == (if isEditorCommand(next.text)
                                                  then CommandObject("", CommandInfo(SkipLammpsTick)) else next)
  {
    reported := ReportCrash(sim);
    if reported {
      return;
    }
    ApplyPauseAndNextCommand(sim, next, isEditorCommand);
  }

  /** Lines 38-42: a requested reset resets the controller, clears the request and tells the UI. */
  method HandOffReset(sim: AtomifySimulator)
    modifies sim`willReset, sim`events, sim`signals, controller
    ensures !sim.willReset
    ensures controller.calls == old(controller.calls) + ResetCalls(old(sim.willReset))
    ensures sim.events == old(sim.events) + Note(old(sim.willReset), WillResetChanged(false))
    ensures sim.signals == old(sim.signals) + (if old(sim.willReset) then [LammpsDidReset] else [])
    ensures !old(sim.willReset) ==> unchanged(controller)
    ensures unchanged(this`willPause, sim`paused, sim`lammpsError, sim`lammpsErrorMessage, sim`atomStyle)
  {
    if sim.willReset {
      controller.Reset();
      sim.SetWillReset(false);
      sim.signals := sim.signals + [LammpsDidReset];
    }
  }

  method TakeAtomStyle(sim: AtomifySimulator)
    requires sim.atomStyle != atomStyle
    modifies sim.atomStyle, atomStyle, controller`calls
    ensures controller.calls == old(controller.calls) + StyleCalls(sim.atomStyle)
    ensures sim.atomStyle != null && old(sim.atomStyle.dirty) ==>
              && atomStyle.data == old(sim.atomStyle.data) && atomStyle.dirty && atomStyle.minimumSize == old(atomStyle.minimumSize)
              && !sim.atomStyle.dirty && sim.atomStyle.data == old(sim.atomStyle.data)
              && sim.atomStyle.minimumSize == old(sim.atomStyle.minimumSize)
    ensures !(sim.atomStyle != null && old(sim.atomStyle.dirty)) ==>
              unchanged(atomStyle) && (sim.atomStyle != null ==> unchanged(sim.atomStyle))
    ensures unchanged(this`willPause, sim`paused, sim`lammpsError, sim`lammpsErrorMessage, sim`atomStyle,
                      controller`nextCommandObject, controller`currentException)
  {
    var style := sim.atomStyle;
    if style != null {
      controller.CallHandler(SetAtomStyle(style));
      if style.dirty {
        atomStyle.data := style.data;
        atomStyle.dirty := style.dirty;
        style.dirty := false;
      }
    }
  }

  method PushUiValues(sim: AtomifySimulator)
    modifies controller`computes, controller`paused, controller`simulationSpeed, controller`simulatorControls
    ensures unchanged(this`willPause, sim`paused, sim`lammpsError, sim`lammpsErrorMessage, sim`atomStyle,
                      controller`nextCommandObject, controller`currentException)
    ensures controller.computes == sim.computes && controller.paused == sim.paused
    ensures controller.simulationSpeed == sim.simulationSpeed && controller.simulatorControls == sim.controls
  {
    controller.computes := sim.computes;
    controller.paused := sim.paused;
    controller.simulationSpeed := sim.simulationSpeed;
    controller.simulatorControls := sim.controls;
  }

  method PullEngineValues(sim: AtomifySimulator)
    modifies sim`simulationTime, sim`numberOfAtoms, sim`numberOfAtomTypes, sim`systemSize,
             sim`timePerTimestep, sim`scriptHandler, sim`events, sim.atomStyle
    ensures sim.simulationTime == controller.simulationTime && sim.numberOfAtoms == controller.numberOfAtoms
    ensures sim.numberOfAtomTypes == controller.numberOfAtomTypes && sim.systemSize == controller.systemSize
    ensures sim.timePerTimestep == controller.timePerTimestep && sim.scriptHandler == controller.scriptHandler
    ensures sim.atomStyle != null ==>
              && sim.atomStyle.data == old(sim.atomStyle.data) && sim.atomStyle.dirty == old(sim.atomStyle.dirty)
              && sim.atomStyle.minimumSize == if old(sim.numberOfAtomTypes) != controller.numberOfAtomTypes
                                              then controller.numberOfAtomTypes else old(sim.atomStyle.minimumSize)
    ensures sim.events == old(sim.events) + CountNotes(old(sim.Engine()), controller.Engine())
              + GeometryNotes(old(sim.Engine()), controller.Engine())
    ensures unchanged(this`willPause, sim`paused, sim`lammpsError, sim`lammpsErrorMessage, sim`atomStyle,
                      controller`nextCommandObject, controller`currentException)
  {
    PullCounts(sim);
    PullGeometry(sim);
  }

  method PullCounts(sim: AtomifySimulator)
    modifies sim`simulationTime, sim`numberOfAtoms, sim`numberOfAtomTypes, sim`events, sim.atomStyle
    ensures sim.simulationTime == controller.simulationTime && sim.numberOfAtoms == controller.numberOfAtoms
    ensures sim.numberOfAtomTypes == controller.numberOfAtomTypes
    ensures sim.atomStyle != null ==>
              && sim.atomStyle.data == old(sim.atomStyle.data) && sim.atomStyle.dirty == old(sim.atomStyle.dirty)
              && sim.atomStyle.minimumSize == if old(sim.numberOfAtomTypes) != controller.numberOfAtomTypes
                                              then controller.numberOfAtomTypes else old(sim.atomStyle.minimumSize)
    ensures sim.events == old(sim.events) + CountNotes(old(sim.Engine()), controller.Engine())
  {
    sim.SetSimulationTime(controller.simulationTime);
    sim.SetNumberOfAtoms(controller.numberOfAtoms);
    sim.SetNumberOfAtomTypes(controller.numberOfAtomTypes);
  }

  method PullGeometry(sim: AtomifySimulator)
    modifies sim`systemSize, sim`timePerTimestep, sim`scriptHandler, sim`events
    ensures sim.systemSize == controller.systemSize
    ensures sim.timePerTimestep == controller.timePerTimestep && sim.scriptHandler == controller.scriptHandler
    ensures sim.events == old(sim.events) + GeometryNotes(old(sim.Engine()), controller.Engine())
  {
    sim.SetSystemSize(controller.systemSize);
    sim.SetTimePerTimestep(controller.timePerTimestep);
    sim.SetScriptHandler(controller.scriptHandler);
  }

  method ReportCrash(sim: AtomifySimulator) returns (reported: bool)
    modifies sim`lammpsError, sim`lammpsErrorMessage, sim`events, sim`signals, controller`currentException
    ensures reported == (controller.crashed && !old(controller.currentException.isReported))
    ensures controller.currentException == old(controller.currentException).(isReported :=
                                             old(controller.currentException.isReported) || controller.crashed)
    ensures reported ==> sim.lammpsError == Trimmed(controller.currentException.file)
                         && sim.lammpsErrorMessage == Trimmed(controller.currentException.error)
    ensures !reported ==> sim.lammpsError == old(sim.lammpsError) && sim.lammpsErrorMessage == old(sim.lammpsErrorMessage)
    ensures sim.events == old(sim.events)
              + CrashNotes(reported, old(sim.lammpsError), old(sim.lammpsErrorMessage), controller.currentException)
    ensures sim.signals == old(sim.signals) + (if reported then [ErrorInLammpsScript] else [])
  {
    var exception := controller.currentException;
    reported := controller.crashed && !exception.isReported;
    if reported {
      var file := Trimmed(exception.file);
      var error := Trimmed(exception.error);
      sim.SetLammpsError(file);
      sim.SetLammpsErrorMessage(error);
      controller.currentException := exception.(isReported := true);
      sim.signals := sim.signals + [ErrorInLammpsScript];
    }
  }

  method ApplyPauseAndNextCommand(sim: AtomifySimulator, next: CommandObject, isEditorCommand: string -> bool)
    modifies this`willPause, controller`paused, controller`nextCommandObject, controller`calls, sim`paused, sim`events
    ensures !willPause
    ensures controller.paused == (old(controller.paused) || old(willPause))
    ensures sim.paused == (old(sim.paused) || old(willPause))
    ensures sim.events == old(sim.events) + Note(old(willPause) && !old(sim.paused), PausedChanged(true))
    ensures controller.nextCommandObject == if isEditorCommand(next.text)
                                            then CommandObject("", CommandInfo(SkipLammpsTick)) else next
    ensures controller.calls == old(controller.calls) + CommandCalls(next.text, isEditorCommand(next.text))
  {
    if willPause {
      controller.paused := true;
      sim.SetPaused(true);
      willPause := false;
    }

    controller.CallHandler(NextCommand);
    if isEditorCommand(next.text) {
      controller.CallHandler(ParseEditorCommand(next.text));
      controller.nextCommandObject := CommandObject("", CommandInfo(SkipLammpsTick));
    } else {
      controller.nextCommandObject := next;
    }
  }

  /**
   * MyWorker::synchronizeRenderer: with a LAMMPS instance, both dirty flags
   * are cleared and, when the renderable is a Spheres, its buffers and the
   * worker's type list are rebuilt to hold exactly the drawn atoms, in index
   * order. The colours and scales are then filled by the atom style
   * (setColorsAndScales), whose values are not part of this model: `colors`
   * and `scales` are any buffers of the drawn-atom count. Without an
   * instance nothing changes.
   */
  method SynchronizeRenderer(spheres: Spheres?)
    requires controller.lammps.Some? ==> WellFormedAtoms(controller.lammps.value)
    modifies this`atomTypes, controller`dataDirty, atomStyle`dirty, spheres
    ensures controller.lammps.None? ==>
              && atomTypes == old(atomTypes) && controller.dataDirty == old(controller.dataDirty)
              && atomStyle.dirty == old(atomStyle.dirty) && (spheres != null ==> unchanged(spheres))
    ensures controller.lammps.Some? ==> !controller.dataDirty && !atomStyle.dirty
    ensures controller.lammps.Some? && spheres == null ==> atomTypes == old(atomTypes)
    ensures controller.lammps.Some? && spheres != null ==>
              var st := controller.lammps.value;
              var kept := KeptIndices(st.atomType, atomStyle.data, st.natoms);
              && |spheres.positions| == |kept| && |atomTypes| == |kept|
              && (forall k :: 0 <= k < |kept| ==> spheres.positions[k] == Placed(st, kept[k]))
              && (forall k :: 0 <= k < |kept| ==> atomTypes[k] == st.atomType[kept[k]])
              && |spheres.colors| == |kept| && |spheres.scales| == |kept|
              && spheres.dirty
  {
    if controller.lammps.None? {
      return;
    }
    var st := controller.lammps.value;
    controller.dataDirty := false;
    atomStyle.dirty := false;

    if spheres != null {
      RebuildSpheres(st, spheres);
    }
  }

  /** Lines 108-148: the sphere buffers and the type list rebuilt to hold exactly the drawn atoms. */
  method RebuildSpheres(st: LammpsState, spheres: Spheres)
    requires WellFormedAtoms(st)
    modifies this`atomTypes, spheres
    ensures var kept := KeptIndices(st.atomType, atomStyle.data, st.natoms);
            && |spheres.positions| == |kept| && |atomTypes| == |kept|
            && (forall k :: 0 <= k < |kept| ==> spheres.positions[k] == Placed(st, kept[k]))
            && (forall k :: 0 <= k < |kept| ==> atomTypes[k] == st.atomType[kept[k]])
            && |spheres.colors| == |kept| && |spheres.scales| == |kept|
            && spheres.dirty
  {
    var n := st.natoms;
    // the buffers, held by reference in the source, are filled as locals and stored back
    var positions := Resize(spheres.positions, n, Vec3(0.0, 0.0, 0.0));
    var types := Resize(atomTypes, n, 0);
    var numVisibleAtoms;
    positions, types, numVisibleAtoms := CollectVisible(st, atomStyle.data, positions, types);
    spheres.positions := Resize(positions, numVisibleAtoms, Vec3(0.0, 0.0, 0.0));
    atomTypes := Resize(types, numVisibleAtoms, 0);
    // setColorsAndScales writes the colours and scales of the drawn atoms
    assert |seq(numVisibleAtoms, _ => InvalidColor)| == numVisibleAtoms;
    var colors: seq<Color> :| |colors| == numVisibleAtoms;
    assert |seq(numVisibleAtoms, _ => 0.0)| == numVisibleAtoms;
    var scales: seq<real> :| |scales| == numVisibleAtoms;
    spheres.colors := colors;
    spheres.scales := scales;
    spheres.dirty := true;
  }

  /** MyWorker::work: one controller tick, then the throttle's sleep for a tick that took `elapsed` ms. */
  method Work(elapsed: int) returns (sleepMs: nat)
    modifies controller
    ensures controller.calls == old(controller.calls) + [ToController(Tick)]
    ensures sleepMs == ThrottleDelay(elapsed)
  {
    controller.Tick();
    sleepMs := ThrottleDelay(elapsed);
  }
}
