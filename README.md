# Atomify worker-side synchronisation, modelled in Dafny

This project models the worker side of atomify-lammps. That is the code
that, once per loop iteration, hands state between the UI-facing
`AtomifySimulator` object and the `LAMMPSController` that owns the LAMMPS
engine. It also extracts the drawn atoms into the sphere buffers, throttles
the loop, and keeps the thermostat control and the compute proxies in step
with the engine.

The model is imperative, like the source. Objects whose fields the source
updates are classes with `modifies` frames:

- the NVT control, the fix it edits and the compute proxy;
- the simulator, the worker, the atom styles and the sphere buffers;
- the controller and its script handler. The controller's current exception
  is a datatype value held in one of its fields.

Qt signals are modelled as an appended log on the emitting object. Calls into
code outside the model (the controller's reset, disabling ensemble fixes, the
controller tick, the script handler's queue) are entries of one ordered call
log on the controller, so the order of controller and handler calls is kept.
A call to the controller's `reset`, `disableAllEnsembleFixes` or `tick` may
change any of its fields. Its plain setters are modelled as stores of one
field.
Each method's contract states the new state it leaves and the calls and
notifications it produced.

Files:

- `engine.dfy`: the collaborators: the LAMMPS state the renderer reads, the
  controller with its call log, the script handler and the current exception.
- `nvt.dfy`: `FixNHHack::setTargets`, `NVT::setTargetTemperature` and
  `NVT::synchronizeLammps`. The reconciliation step is specified once, as the
  function `Reconcile`, and the method is proved to perform exactly that step.
- `cpcompute.dfy`: the `CPCompute` setters, registration with the simulator,
  `setValues` and the four value accessors.
- `mysimulator.dfy`:
  - `QString::trimmed` and `QVector::resize`;
  - the visibility filter of `MyWorker::synchronizeRenderer`, with
    `KeptIndices` as its specification;
  - the throttle of `MyWorker::work`;
  - the change-only setters of `AtomifySimulator`;
  - `MyWorker::synchronizeSimulator`, proved phase by phase.

The model follows the code as written:

- The renderer rebuilds the buffers on every call with an engine present. The
  "skip when nothing changed" check is commented out at
  atomify-lammps/mysimulator.cpp:105. Both dirty flags are cleared
  unconditionally.
- The renderer itself has no crash check. Only `synchronizeSimulator` returns
  early on an unreported crash.
- A thermostat that has no fix and is dirty but disabled takes the "disable"
  branch. It ends disabled, and it notifies only if it was enabled before.
- A dirty, enabled thermostat whose fix's `t_target` already equals the UI
  target does not call `setTargets` (atomify-lammps/nvt.cpp:55-56). So
  `t_start` and `t_stop` keep their values, and the three fix temperatures
  need not agree afterwards.
- A reconciliation may do neither a push nor a pull: a dirty, enabled control
  whose target equals the fix's, or the removal branch. It never does both.

## Model

| member | source | states |
|---|---|---|
| FixNH.SetTargets | atomify-lammps/nvt.cpp:8-13 | the fix's target, start and stop temperatures all become the given value, and `View()`, which is `FixNHHack::target()` with the fix's id, then reads back the value |
| Reconcile | atomify-lammps/nvt.cpp:37-81 | one synchronisation step as a value. The flag is always cleared. A push happens iff a fix exists, the control is dirty and enabled, and the targets differ; it writes the UI target. The UI target changes only by a pull from the fix on a clean control. There is never both a push and a pull. The enabled rules depend on fix presence. Calls are made exactly in the removal and creation branches, with their exact contents: removal queues the unfix pair; creation first disables all ensemble fixes, then queues the fix nvt. There is one notification per changed field |
| ReconcileSettles | atomify-lammps/nvt.cpp:37-81 | a second step with no edit and no engine change (other than the first step's push) makes no call, pushes nothing and stays clean. If the first step made no call, the second emits nothing and changes nothing |
| DisabledControlRemovesFix | atomify-lammps/nvt.cpp:47-53 | scenario: a dirty, disabled control with a fix queues exactly `unfix <id>`, `fix nve all nve` as one SingleCommand call, and leaves the fix alone |
| NVT.SetTargetTemperature | atomify-lammps/nvt.cpp:26-34 | the target becomes t. A different t marks the control dirty and notifies once. An equal t changes neither the flag nor the log |
| NVT.SynchronizeLammps | atomify-lammps/nvt.cpp:37-81 | the control's new state, its notifications and the ordered controller and script handler calls are exactly those of `Reconcile` on the old state and the fix. A push writes all three fix temperatures. Without a push the fix is unchanged. Only the creation branch, through disableAllEnsembleFixes, may change the controller beyond its log |
| ValueNotifications | atomify-lammps/CPcompute.cpp:113-117 | setValues emits min(\|v\|, 4) + 1 notifications: the value list first, then slot k carrying v[k] |
| CPCompute.FirstValue | atomify-lammps/CPcompute.cpp:40-43 | slot 0 of the values, the one the setValues notification for slot 0 announced; callable only when there is a value |
| CPCompute.SecondValue | atomify-lammps/CPcompute.cpp:45-48 | slot 1 of the values, the one the setValues notification for slot 1 announced; callable only when there are two |
| CPCompute.ThirdValue | atomify-lammps/CPcompute.cpp:50-53 | slot 2 of the values, the one the setValues notification for slot 2 announced; callable only when there are three |
| CPCompute.FourthValue | atomify-lammps/CPcompute.cpp:55-58 | slot 3 of the values, the one the setValues notification for slot 3 announced; callable only when there are four |
| NotificationsMatchAccessors | atomify-lammps/CPcompute.cpp:40-58 | each slot notification carries what the matching accessor returns. A slot is announced iff that accessor's precondition holds |
| CPCompute.SetIdentifier | atomify-lammps/CPcompute.cpp:70-77 | the field takes the value. A notification is emitted iff it differed |
| CPCompute.SetCommand | atomify-lammps/CPcompute.cpp:79-86 | the field takes the value. A notification is emitted iff it differed |
| CPCompute.SetSimulator | atomify-lammps/CPcompute.cpp:88-96 | a new simulator is stored and the compute is registered in its map under its identifier, overwriting that key. Only the simulator's map changes. The same simulator again changes nothing. A new simulator must be non-null |
| CPCompute.SetDependencies | atomify-lammps/CPcompute.cpp:98-105 | the field takes the value. A notification is emitted iff it differed |
| CPCompute.SetValues | atomify-lammps/CPcompute.cpp:107-118 | the values become exactly v and the time becomes the simulator's simulation time. The notifications are `ValueNotifications(v)` |
| CPCompute.SetIsVector | atomify-lammps/CPcompute.cpp:120-127 | the field takes the value. A notification is emitted iff it differed |
| AtomifySimulator.SetComputes | atomify-lammps/mysimulator.cpp:182-185 | the map is replaced |
| AtomifySimulator.AddCompute | atomify-lammps/mysimulator.cpp:187-190 | the compute is stored under its identifier. Every other key keeps its entry |
| AtomifySimulator.SetSimulationSpeed | atomify-lammps/mysimulator.cpp:252-259 | the field takes the value. A notification is emitted iff it differed |
| AtomifySimulator.SetPaused | atomify-lammps/mysimulator.cpp:261-268 | the field takes the value. A notification is emitted iff it differed |
| AtomifySimulator.SetSimulationTime | atomify-lammps/mysimulator.cpp:270-277 | the field takes the value. A notification is emitted iff it differed |
| AtomifySimulator.SetAtomStyle | atomify-lammps/mysimulator.cpp:279-286 | the field takes the value. A notification is emitted iff it differed |
| AtomifySimulator.SetNumberOfAtoms | atomify-lammps/mysimulator.cpp:288-295 | the field takes the value. A notification is emitted iff it differed |
| AtomifySimulator.SetNumberOfAtomTypes | atomify-lammps/mysimulator.cpp:297-305 | the field takes the value. On a change it notifies and sets the atom style's minimum size (when there is a style), and nothing else of the style changes. An equal value changes nothing |
| AtomifySimulator.SetSystemSize | atomify-lammps/mysimulator.cpp:307-314 | the field takes the value. A notification is emitted iff it differed |
| AtomifySimulator.SetTimePerTimestep | atomify-lammps/mysimulator.cpp:316-323 | the field takes the value. A notification is emitted iff it differed |
| AtomifySimulator.SetLammpsError | atomify-lammps/mysimulator.cpp:325-332 | the field takes the value. A notification is emitted iff it differed |
| AtomifySimulator.SetLammpsErrorMessage | atomify-lammps/mysimulator.cpp:334-341 | the field takes the value. A notification is emitted iff it differed |
| AtomifySimulator.SetScriptHandler | atomify-lammps/mysimulator.cpp:343-350 | the field takes the value. A notification is emitted iff it differed |
| AtomifySimulator.SetWillReset | atomify-lammps/mysimulator.cpp:352-359 | the field takes the value. A notification is emitted iff it differed |
| MyWorker.SetWillPause | atomify-lammps/mysimulator.cpp:167-170 | the deferred pause flag takes the value |
| Trimmed | atomify-lammps/mysimulator.cpp:72-73 | the trimmed error text is no longer than the original and neither starts nor ends with whitespace |
| TrimStartCutsSpace | atomify-lammps/mysimulator.cpp:72-73 | trimming the front removes a whitespace prefix, and leaves a result that is empty or starts with non-space |
| TrimEndCutsSpace | atomify-lammps/mysimulator.cpp:72-73 | trimming the back removes a whitespace suffix, and leaves a result that is empty or ends with non-space |
| TrimmedIsCore | atomify-lammps/mysimulator.cpp:72-73 | the trimmed error text is a slice of the original. It neither starts nor ends with whitespace, and only whitespace is cut on either side |
| TrimmedIsIdempotent | atomify-lammps/mysimulator.cpp:72-73 | trimming twice is trimming once |
| MyWorker.SynchronizeSimulator | atomify-lammps/mysimulator.cpp:34-98 | one worker tick. A pending reset resets the controller before any other call of the tick, clears the request and signals once; the one call log lists reset, setAtomStyle, nextCommand and parseEditorCommand in that order. A dirty UI atom style is copied to the worker and marked clean, and every UI style ends the tick clean, so it is copied once; the worker style's minimum size is kept. UI values reach the controller and engine values reach the simulator (`Mirrored`). The property notifications are listed in call order. A crash is reported once: a reported tick implies a crash, and a crashed controller ends the tick with its exception marked reported. Without a reset, a report happens iff the controller crashed with an unreported exception, and the exception changes only in that flag. A report sets the trimmed error fields and is signalled, and skips the pause and command handling. Otherwise the deferred pause is applied and cleared, and an editor command is handed to the parser and replaced by an empty SkipLammpsTick command. Any other command is forwarded unchanged |
| MyWorker.CrashReportedOnce | atomify-lammps/mysimulator.cpp:70-78 | over two ticks without a reset request, errorInLammpsScript is signalled at most once: exactly when the controller had crashed with an unreported exception. The crash stays and ends reported |
| MyWorker.ExchangeValues | atomify-lammps/mysimulator.cpp:38-68 | the reset handoff, the atom style handoff and both value copies, with their ordered calls and notifications. The UI style ends clean and the worker style's minimum size is kept. Without a reset the crash, exception and command state of the controller is untouched |
| MyWorker.ResetAndTakeStyle | atomify-lammps/mysimulator.cpp:38-53 | the reset handoff followed by the atom style handoff, with the reset logged first |
| MyWorker.PushAndPull | atomify-lammps/mysimulator.cpp:55-68 | the UI values pushed to the controller and the engine values pulled into the simulator, with their notifications |
| MyWorker.HandOffReset | atomify-lammps/mysimulator.cpp:38-42 | a pending reset calls the controller's reset, clears `willReset` with its notification, and signals lammpsDidReset. Otherwise neither the simulator nor the controller changes |
| MyWorker.TakeAtomStyle | atomify-lammps/mysimulator.cpp:44-53 | a UI atom style is handed to the script handler. If it is dirty, its data and flag go to the worker's style and it becomes clean. Otherwise both styles are unchanged |
| MyWorker.PushUiValues | atomify-lammps/mysimulator.cpp:56-60 | the controller takes the simulator's computes, paused flag, speed and controls |
| MyWorker.PullEngineValues | atomify-lammps/mysimulator.cpp:63-68 | the simulator takes the controller's six engine values. There is one notification per value that differed, in call order. The style's minimum size follows a changed type count |
| MyWorker.PullCounts | atomify-lammps/mysimulator.cpp:63-65 | the first three engine values, with their notifications and the minimum-size rule |
| MyWorker.PullGeometry | atomify-lammps/mysimulator.cpp:66-68 | the last three engine values, with their notifications |
| MyWorker.FinishTick | atomify-lammps/mysimulator.cpp:70-97 | either the crash report, which ends the tick with pause and command state unchanged, or the deferred pause and the next command. Engine-derived and UI-derived values are untouched |
| MyWorker.ReportCrash | atomify-lammps/mysimulator.cpp:70-78 | a report happens iff the controller crashed and the exception is unreported. Afterwards the exception is reported whenever the controller has crashed, so the next tick does not report again; its file and message are unchanged. A report writes the trimmed file and message, with their notifications, and signals errorInLammpsScript |
| MyWorker.ApplyPauseAndNextCommand | atomify-lammps/mysimulator.cpp:80-97 | a deferred pause pauses controller and simulator and is cleared. The next command is fetched. An editor command is parsed and replaced by ("", SkipLammpsTick); any other is stored as is |
| Resize | atomify-lammps/mysimulator.cpp:113-116 | QVector::resize keeps the first min(\|s\|, n) elements and fills new slots with the default |
| KeptIndices | atomify-lammps/mysimulator.cpp:120-142 | at most n atom indices, all below n; that they are strictly increasing and exactly the drawn atoms is proved by `KeptIndicesAreShown` |
| KeptIndicesAreShown | atomify-lammps/mysimulator.cpp:124-128 | an atom among the first n is kept iff its type has a style entry and that entry is visible. The indices are strictly increasing |
| AllShownKeepsAll | atomify-lammps/mysimulator.cpp:120-142 | when every type is styled and visible, every atom is kept, in order |
| NoneShownKeepsNone | atomify-lammps/mysimulator.cpp:120-142 | when no atom's type is styled and visible, nothing is kept |
| VisibilityScenario | atomify-lammps/mysimulator.cpp:120-142 | scenario: styles [visible, hidden] and types [1, 1, 2, 2, 1] keep atoms 0, 1 and 4 |
| CollectVisible | atomify-lammps/mysimulator.cpp:120-142 | the loop writes the k-th kept atom's remapped, centred position and its type into slot k. The count of written slots is the number of kept atoms |
| MyWorker.SynchronizeRenderer | atomify-lammps/mysimulator.cpp:100-150 | without an engine nothing changes. With one, both dirty flags are cleared. With spheres, the positions, colors, scales and type list all have the length of the kept atoms; positions and types are those of the kept atoms in index order, and the spheres are marked dirty |
| MyWorker.RebuildSpheres | atomify-lammps/mysimulator.cpp:108-148 | the buffers and the type list hold exactly the kept atoms: positions and types in index order, colours and scales of the same length, and the spheres are marked dirty |
| ThrottleDelay | atomify-lammps/mysimulator.cpp:155-159 | the sleep is positive iff the tick took less than 16 ms, and then the tick plus the sleep is 16 ms. Otherwise it is 0 |
| ThrottleScenarios | atomify-lammps/mysimulator.cpp:155-159 | scenario: a 5 ms tick sleeps 11 ms, a 20 ms tick does not sleep |
| MyWorker.Work | atomify-lammps/mysimulator.cpp:152-161 | one controller tick, then the sleep `ThrottleDelay` gives for the elapsed time |

## Left out

- LAMMPS itself is not modelled. Lookup of the fix nvt, the atom arrays, `domain->remap` and `prd_half` are inputs: a nullable fix reference and a `LammpsState` value whose remapping is an arbitrary function.
- LammpsController.Reset, LammpsController.DisableAllEnsembleFixes, LammpsController.Tick: lammpscontroller.cpp is not part of this model, so each promises only its log entry and may change every field of the controller (its script handler stays the same object). Callers therefore state the crash and engine facts after a reset in terms of the post-reset state.
- The script handler and parser are not modelled. `addCommand(s)ToTop`, `setAtomStyle`, `nextCommand` and `parseEditorCommand` are recorded as calls. The command `nextCommand` returns and the `isEditorCommand` classification are parameters of `MyWorker.SynchronizeSimulator`. No queue ordering is assumed.
- Qt signals are logs on the emitting object, separate from the controller's call log. `lammpsDidReset` and `errorInLammpsScript` go to a log separate from the property notifications, so the model does not state their order relative to those notifications.
- `MyWorker.SynchronizeSimulator`: the source reads the script handler from the simulator's field at line 86. The model uses the controller's handler, which line 68 has just copied into that field.
- `MyWorker.SynchronizeSimulator`: the UI atom style is required to be a different object from the worker's own style. The worker's style is a member object, so the source cannot alias them.
- MyWorker.RebuildSpheres: `AtomStyle::setColorsAndScales` (atomify-lammps/mysimulator.cpp:147) and the rest of atomstyle.cpp are not part of this model. The colour and scale contents it writes are chosen arbitrarily. Only their length, the drawn-atom count, is stated. This assumes the call does not resize the buffers or change the worker's style.
- MyWorker.SynchronizeRenderer: inherits that gap from `MyWorker.RebuildSpheres`. The colour and scale contents are arbitrary, and only their length is stated.
- The `AtomStyleData` objects are values, so changes made through shared pointers between the UI style and the worker's copy are not modelled.
- Only the NVT control is modelled among the simulator's controls. Other `SimulatorControl` kinds and `findChildren` are not modelled.
- The `"fix nvt all nvt temp %1 %1 1.0"` and `"unfix %1"` strings are structured commands carrying the temperature or fix id. Number formatting is not modelled.
- Temperatures, times and coordinates are reals. Floating-point rounding and `float` scales are not modelled.
- The atom count is a `nat`, so the unsigned comparison of the renderer loop is not modelled. Atom types are required to be at least 1, since type 0 would index out of range.
- `QElapsedTimer` and `QThread::msleep` are not modelled: `MyWorker.Work` takes the elapsed time and returns the sleep duration.
- Concurrency between the worker and the UI thread is not modelled. Calls are sequential.
- The `qobject_cast`, `dynamic_cast` and `reinterpret_cast` steps are not modelled: the simulator and spheres are typed, and a found fix is always a `FixNH`.
- The constructors and header defaults (nvt.h, mysimulator.h, CPcompute.h) are not part of this model. The constructors take or set plain initial values.
- The getters and `CPCompute::time`/`values` are not modelled as functions: they are read as fields. `FirstValue` … `FourthValue` are functions whose preconditions match `QList::at`, and `NotificationsMatchAccessors` states their meaning.
- MyWorker.SynchronizeSimulator: after a reset the controller's crash flag and exception are whatever the reset left, so in that case the contract states only that a report implies a crash and that a crashed controller's exception ends the tick reported. Whether that report was due depends on the state the reset left, which is not tied to the state before it.
- MyWorker.ApplyPauseAndNextCommand: `parseEditorCommand` (line 93) receives the simulator. It is recorded as a call and assumed not to change the simulator or the controller.
- AtomifySimulator.SetNumberOfAtomTypes: `AtomStyle::setMinimumSize` (line 303) is modelled as a plain store that keeps the style's data and dirty flag.
- The `qDebug` logging at atomify-lammps/mysimulator.cpp:71 and 91 is output only and is not modelled.
- MyWorker.PushUiValues, MyWorker.ApplyPauseAndNextCommand, MyWorker.SynchronizeRenderer: the controller setters `setComputes`, `setPaused`, `setSimulationSpeed` (atomify-lammps/mysimulator.cpp:56-58, 81) and `setDataDirty` (106) are in lammpscontroller.cpp, which is not part of this model. Each is assumed to be a plain store of its one field.
- MyWorker.ReportCrash: the `QString(std::string::c_str())` conversion at atomify-lammps/mysimulator.cpp:72-73 decodes the exception's byte strings. It is not modelled: `LammpsException.file` and `error` are already decoded strings.
- NVT.SetTargetTemperature: `SimulatorControl::setDirty` (atomify-lammps/nvt.cpp:32) is in simulatorcontrol.cpp, which is not part of this model. It is assumed to be a plain store of the flag that emits nothing, so the only notification is targetTemperatureChanged.
- MyWorker.TakeAtomStyle, MyWorker.SynchronizeRenderer: `AtomStyle::setData` and `AtomStyle::setDirty` (atomify-lammps/mysimulator.cpp:49-51, 107) and `Spheres::setDirty` (148) are not part of this model. They are assumed to be plain stores that emit nothing.
- MyWorker.ReportCrash: `currentException()` (atomify-lammps/mysimulator.cpp:70, 74) is assumed to return a reference to the controller's own exception, so that `setIsReported(true)` sticks. `MyWorker.SynchronizeSimulator` and `MyWorker.CrashReportedOnce` rely on the same assumption for a crash being reported only once. If it returned a copy, every tick would report the crash again.
