// The NVT thermostat control (atomify-lammps/nvt.cpp): a UI-editable target
// temperature reconciled with the LAMMPS fix nvt through a dirty flag.

/** The three temperature fields of a FixNH that FixNHHack reaches (t_target, t_start, t_stop). */
class FixNH {
  const id: string
  var tTarget: real
  var tStart: real
  var tStop: real

  constructor (id: string, tTarget: real, tStart: real, tStop: real)
    ensures this.id == id && this.tTarget == tTarget && this.tStart == tStart && this.tStop == tStop
  {
    this.id := id;
    this.tTarget := tTarget;
    this.tStart := tStart;
    this.tStop := tStop;
  }

  /** FixNHHack::setTargets: one value for the target, start and stop temperatures. */
  method SetTargets(value: real)
    modifies this
    ensures tTarget == value && tStart == value && tStop == value
    ensures View() == FixView(id, value)
  {
    tTarget := value;
    tStart := value;
    tStop := value;
  }

  /** What NVT::synchronizeLammps reads from the fix: its id and FixNHHack::target(). */
  function View(): FixView
    reads this
  {
    FixView(id, tTarget)
  }
}

datatype FixView = FixView(id: string, target: real)

/** The notifications an NVT control emits. */
datatype NvtEvent = TargetTemperatureChanged(temperature: real) | EnabledChanged(enabled: bool)

/** The fields of an NVT control that synchronisation reads and writes. */
datatype ControlState = ControlState(targetTemperature: real, enabled: bool, dirty: bool)

/**
 * The effect of one synchronisation: the control's new state, the value
 * written into the fix (if any), the calls made into the controller and its
 * script handler, in order, and the notifications emitted.
 */
datatype Reconciliation = Reconciliation(
  after: ControlState,
  pushed: Option<real>,
  calls: seq<Call>,
  events: seq<NvtEvent>)

/** The notification a change of target temperature calls for, if any. */
function TargetNotification(before: ControlState, after: ControlState): seq<NvtEvent>
{
  if before.targetTemperature == after.targetTemperature then [] else [TargetTemperatureChanged(after.targetTemperature)]
}

/** The notification a change of the enabled flag calls for, if any. */
function EnabledNotification(before: ControlState, after: ControlState): seq<NvtEvent>
{
  if before.enabled == after.enabled then [] else [EnabledChanged(after.enabled)]
}

/**
 * One NVT::synchronizeLammps step as a value: the control state `s` and the
 * fix found by type (None when there is none).
 */
function Reconcile(s: ControlState, fix: Option<FixView>): (r: Reconciliation)
  // every path leaves the flag clear
  ensures !r.after.dirty
  // a push writes the UI target into the fix, and only on a dirty, enabled control with a fix whose target differs
  ensures r.pushed.Some? <==> fix.Some? && s.dirty && s.enabled && fix.value.target != s.targetTemperature
  ensures r.pushed.Some? ==> r.pushed.value == s.targetTemperature
  // the UI target changes only by a pull, from a fix, on a clean control
  ensures r.after.targetTemperature != s.targetTemperature ==> fix.Some? && !s.dirty && r.after.targetTemperature == fix.value.target
  ensures fix.Some? && !s.dirty ==> r.after.targetTemperature == fix.value.target
  // never both a push and a change of the UI target
  ensures r.pushed.Some? ==> r.after.targetTemperature == s.targetTemperature
  // a fix that exists and was not edited marks the control enabled; no fix and no pending enabled edit disables it
  ensures fix.Some? ==> r.after.enabled == (s.enabled || !s.dirty)
  ensures fix.None? ==> r.after.enabled == (s.dirty && s.enabled)
  // commands: removal of a disabled thermostat, or creation of a missing enabled one, and nothing else
  // (creation first disables every other ensemble fix, then queues the fix nvt)
  ensures fix.Some? && s.dirty && !s.enabled ==>
            r.calls == [ToHandler(AddCommandsToTop([Unfix(fix.value.id), FixNveAll], CommandInfo(SingleCommand)))]
  ensures fix.None? && s.dirty && s.enabled ==>
            r.calls == [ToController(DisableAllEnsembleFixes),
                        ToHandler(AddCommandToTop(FixNvtAll(s.targetTemperature), CommandInfo(SingleCommand)))]
  ensures r.calls != [] <==> s.dirty && (fix.Some? <==> !s.enabled)
  // a notification exactly for each field that changed
  ensures r.events == TargetNotification(s, r.after) + EnabledNotification(s, r.after)
{
  match fix
  case Some(f) =>
    if s.dirty then
      if !s.enabled then
        Reconciliation(s.(dirty := false), None,
                       [ToHandler(AddCommandsToTop([Unfix(f.id), FixNveAll], CommandInfo(SingleCommand)))], [])
      else
        Reconciliation(s.(dirty := false),
                       if s.targetTemperature != f.target then Some(s.targetTemperature) else None,
                       [], [])
    else
      Reconciliation(ControlState(f.target, true, false), None, [],
                     (if s.targetTemperature != f.target then [TargetTemperatureChanged(f.target)] else [])
                     + (if !s.enabled then [EnabledChanged(true)] else []))
  case None =>
    if s.dirty && s.enabled then
      Reconciliation(s.(dirty := false), None,
                     [ToController(DisableAllEnsembleFixes),
                      ToHandler(AddCommandToTop(FixNvtAll(s.targetTemperature), CommandInfo(SingleCommand)))], [])
    else
      Reconciliation(ControlState(s.targetTemperature, false, false), None, [],
                     if s.enabled then [EnabledChanged(false)] else [])
}

/** The fix as a synchronisation step sees it after applying a step's push. */
function AfterPush(fix: Option<FixView>, pushed: Option<real>): Option<FixView>
{
  match fix
  case None => None
  case Some(f) => Some(if pushed.Some? then f.(target := pushed.value) else f)
}

/**
 * Synchronising twice with no edit in between and no change on the engine
 * side besides the first step's own push: the second step calls and pushes
 * nothing. When the first step called nothing either, the second also
 * emits nothing and leaves the control as the first left it.
 */
lemma ReconcileSettles(s: ControlState, fix: Option<FixView>)
  ensures var r1 := Reconcile(s, fix);
          var r2 := Reconcile(r1.after, AfterPush(fix, r1.pushed));
          && r2.calls == [] && r2.pushed == None && !r2.after.dirty
          && (r1.calls == [] ==> r2.events == [] && r2.after == r1.after)
{
}

/** The thermostat control. */
class NVT {
  var targetTemperature: real
  var enabled: bool
  var dirty: bool
  var events: seq<NvtEvent>

  // The initial field values come from nvt.h and simulatorcontrol.h, which
  // are not part of this model; the constructor takes them as parameters.
  constructor (targetTemperature: real, enabled: bool, dirty: bool)
    ensures State() == ControlState(targetTemperature, enabled, dirty) && events == []
  {
    this.targetTemperature := targetTemperature;
    this.enabled := enabled;
    this.dirty := dirty;
    events := [];
  }

  function State(): ControlState
    reads this
  {
    ControlState(targetTemperature, enabled, dirty)
  }

  /** A UI edit: a new target marks the control dirty and notifies; an equal one changes nothing. */
  method SetTargetTemperature(t: real)
    modifies this`targetTemperature, this`dirty, this`events
    ensures targetTemperature == t
    ensures old(targetTemperature) == t ==> dirty == old(dirty) && events == old(events)
    ensures old(targetTemperature) != t ==> dirty && events == old(events) + [TargetTemperatureChanged(t)]
  {
    if targetTemperature == t {
      return;
    }
    targetTemperature := t;
    dirty := true;
    events := events + [TargetTemperatureChanged(t)];
  }

  /**
   * NVT::synchronizeLammps: one reconciliation with the fix nvt the
   * controller finds, exactly as Reconcile describes it.
   */
  method SynchronizeLammps(controller: LammpsController)
    modifies this, controller, controller.nvtFix
    ensures var fix := old(controller.nvtFix);
            var r := Reconcile(old(State()), if fix == null then None else Some(old(fix.View())));
            && State() == r.after
            && events == old(events) + r.events
            && controller.calls == old(controller.calls) + r.calls
            && (fix != null && r.pushed.Some? ==>
                  var t := r.pushed.value;
                  fix.tTarget == t && fix.tStart == t && fix.tStop == t)
    ensures var fix := old(controller.nvtFix);
            fix != null && !(old(dirty) && old(enabled) && old(fix.tTarget) != old(targetTemperature)) ==> unchanged(fix)
    // only disabling the ensemble fixes, which creation asks for, touches the controller beyond its log
    ensures !(old(controller.nvtFix) == null && old(dirty) && old(enabled)) ==>
              unchanged(controller`currentException, controller`lammps, controller`nvtFix, controller`dataDirty,
                        controller`crashed, controller`paused, controller`simulationSpeed, controller`computes,
                        controller`simulatorControls, controller`nextCommandObject, controller`simulationTime,
                        controller`numberOfAtoms, controller`numberOfAtomTypes, controller`systemSize,
                        controller`timePerTimestep)
  {
    var fix := controller.nvtFix;
    if fix != null {
      if dirty {
        dirty := false;
        if !enabled {
          controller.CallHandler(AddCommandsToTop([Unfix(fix.id), FixNveAll], CommandInfo(SingleCommand)));
          return;
        }
        if targetTemperature != fix.tTarget {
          fix.SetTargets(targetTemperature);
        }
      } else {
        if targetTemperature != fix.tTarget {
          targetTemperature := fix.tTarget;
          events := events + [TargetTemperatureChanged(targetTemperature)];
        }
        if !enabled {
          enabled := true;
          events := events + [EnabledChanged(enabled)];
        }
      }
    } else {
      if dirty && enabled {
        controller.DisableAllEnsembleFixes();
        controller.CallHandler(AddCommandToTop(FixNvtAll(targetTemperature), CommandInfo(SingleCommand)));
      } else if enabled {
        enabled := false;
        events := events + [EnabledChanged(enabled)];
      }
    }
    dirty := false;
  }
}

/** Scenario: a dirty, disabled control with a live fix queues the removal pair and leaves the fix alone. */
lemma DisabledControlRemovesFix(t: real, fixTarget: real)
  ensures var r := Reconcile(ControlState(t, false, true), Some(FixView("nvt", fixTarget)));
          && r.calls == [ToHandler(AddCommandsToTop([Unfix("nvt"), FixNveAll], CommandInfo(SingleCommand)))]
          && r.pushed == None && !r.after.enabled && r.after.targetTemperature == t
{
}
