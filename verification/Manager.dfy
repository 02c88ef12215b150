/**
 * The manager: a worker thread and serialized commands share the state machine and the calibration sequencer
 * under one mutex, and talk to a STRICT controller manager outside it. Each critical section is one function of
 * the shared state and one method of the class.
 */
module Manager {
  import opened Types
  import SS = SystemState
  import Cal = Calibration

  datatype Controller = Compliance | Correction

  function Other(x: Controller): Controller { if x.Compliance? then Correction else Compliance }

  datatype Mode = IdleMode | DirectMode | ComplianceMode | CalibrationMode

  datatype Shared = Shared(core: SS.Core, sequencer: Cal.Seq, teardownDone: bool, mode: Mode, profile: nat,
                           active: Option<Controller>)
  const NEW_SHARED := Shared(SS.NEW_CORE, Cal.NEW_SEQ, true, IdleMode, 0, None)

  // ----- A STRICT switch, filtered by what runs -----

  /** STRICT refuses to start a running controller and to stop one that does not run. */
  predicate StrictAccepts(running: set<Controller>, start: Option<Controller>, stop: Option<Controller>) {
    && (start.Some? ==> start.value !in running)
    && (stop.Some? ==> stop.value in running)
  }

  function Switched(running: set<Controller>, start: Option<Controller>, stop: Option<Controller>): set<Controller> {
    var left := if stop.Some? then running - {stop.value} else running;
    if start.Some? then left + {start.value} else left
  }

  function FilterStart(running: set<Controller>, start: Option<Controller>): Option<Controller> {
    if start.Some? && start.value in running then None else start
  }

  function FilterStop(running: set<Controller>, stop: Option<Controller>): Option<Controller> {
    if stop.Some? && stop.value !in running then None else stop
  }

  // ----- Critical sections of the worker -----

  datatype Finish = Finish(success: bool, fit: Cal.Fit)

  predicate TornDown(s: Cal.Seq) { s.phase.Done? || s.phase.Failed? }

  /** The locked part of a worker tick: the goal to send, and the calibration to finish, if any. */
  function TickOf(c: Cal.Config, s: Shared, h: SS.Health, now: real): (Shared, Option<Cal.Pose>, Option<Finish>)
    requires Cal.Sane(c, s.sequencer)
  {
    var lost := if Cal.Active(s.sequencer) && !h.sriStreaming then Cal.FailOf(s.sequencer, Cal.StreamLost)
                else s.sequencer;
    var (sequencer, goal) := Cal.TickOf(c, lost, now);
    var s := s.(core := SS.Do(s.core, SS.Update(h)), sequencer := sequencer);
    if TornDown(sequencer) && !s.teardownDone
    then (s.(teardownDone := true), goal, Some(Finish(sequencer.phase.Done? && sequencer.fit.ok, sequencer.fit)))
    else (s, goal, None)
  }

  function TeardownOf(s: Shared): Shared {
    s.(core := SS.Do(s.core, SS.CalibrationFinished), active := None, mode := IdleMode)
  }

  // ----- Critical sections of the commands -----

  function StartedOf(s: Shared, h: SS.Health, mode: Mode, profile: nat, target: Controller): (Shared, bool) {
    var ok := SS.StartAccepted(s.core, h);
    var s := s.(core := SS.Do(s.core, SS.Start(h)));
    if ok then (s.(mode := mode, profile := profile, active := Some(target)), true) else (s, false)
  }

  function StoppedOf(s: Shared): (Shared, bool) {
    var ok := SS.StopAccepted(s.core);
    var s := s.(core := SS.Do(s.core, SS.Stop));
    if ok then (s.(mode := IdleMode, active := None), true) else (s, false)
  }

  function CalibrationRequestedOf(s: Shared, h: SS.Health): (Shared, bool) {
    (s.(core := SS.Do(s.core, SS.Calibrate(h))), SS.CalibrationAccepted(s.core, h))
  }

  function CalibrationRolledBackOf(s: Shared): Shared { s.(core := SS.Do(s.core, SS.CalibrationFinished)) }

  function CalibrationStartedOf(c: Cal.Config, s: Shared): (Shared, bool) {
    if !Cal.StartAccepted(c, s.sequencer) then (CalibrationRolledBackOf(s), false)
    else (s.(sequencer := Cal.StartOf(c, s.sequencer), teardownDone := false, mode := CalibrationMode,
             active := Some(Correction)), true)
  }

  // ----- The class -----

  /** The STRICT controller manager and its listing; either service may fail. */
  class ControllerManager {
    var running: set<Controller>

    constructor ()
      ensures running == {}
    {
      running := {};
    }

    /** `available` is false where the service call fails. */
    method Switch(start: Option<Controller>, stop: Option<Controller>, available: bool) returns (ok: bool)
      modifies this
      ensures ok == (available && StrictAccepts(old(running), start, stop))
      ensures running == if ok then Switched(old(running), start, stop) else old(running)
    {
      ok := available && (start.None? || start.value !in running) && (stop.None? || stop.value in running);
      if ok {
        if stop.Some? { running := running - {stop.value}; }
        if start.Some? { running := running + {start.value}; }
      }
    }
  }

  class ManagerRuntime {
    const core: SS.SystemStateCore
    const sequencer: Cal.CalibrationSequencer
    var teardownDone: bool
    var mode: Mode
    var profile: nat
    var active: Option<Controller>

    ghost function View(): Shared
      reads this, core, sequencer
    {
      Shared(core.View(), sequencer.View(), teardownDone, mode, profile, active)
    }

    constructor (cfg: Cal.Config)
      ensures View() == NEW_SHARED && sequencer.cfg == cfg && fresh(core) && fresh(sequencer)
    {
      core := new SS.SystemStateCore();
      sequencer := new Cal.CalibrationSequencer(cfg);
      teardownDone, mode, profile, active := true, IdleMode, 0, None;
    }

    method Tick(h: SS.Health, now: real) returns (goal: Option<Cal.Pose>, finished: Option<Finish>)
      requires Cal.Sane(sequencer.cfg, sequencer.View())
      modifies this, core, sequencer
      ensures (View(), goal, finished) == TickOf(sequencer.cfg, old(View()), h, now)
    {
      var _ := core.Update(h);
      if sequencer.IsActive() && !h.sriStreaming {
        sequencer.Fail(Cal.StreamLost);
      }
      goal := sequencer.Tick(now);
      finished := None;
      if (sequencer.phase.Done? || sequencer.phase.Failed?) && !teardownDone {
        teardownDone := true;
        finished := Some(Finish(sequencer.phase.Done? && sequencer.fit.ok, sequencer.fit));
      }
    }

    method Teardown()
      modifies this, core
      ensures View() == TeardownOf(old(View()))
    {
      core.CalibrationFinished();
      active := None;
      mode := IdleMode;
    }

    method Started(h: SS.Health, mode: Mode, profile: nat, target: Controller) returns (ok: bool)
      modifies this, core
      ensures (View(), ok) == StartedOf(old(View()), h, mode, profile, target)
    {
      ok := core.RequestStart(h);
      if ok {
        this.mode := mode;
        this.profile := profile;
        active := Some(target);
      }
    }

    method Stopped() returns (ok: bool)
      modifies this, core
      ensures (View(), ok) == StoppedOf(old(View()))
    {
      ok := core.RequestStop();
      if ok {
        mode := IdleMode;
        active := None;
      }
    }

    method CalibrationRequested(h: SS.Health) returns (ok: bool)
      modifies this, core
      ensures (View(), ok) == CalibrationRequestedOf(old(View()), h)
    {
      ok := core.RequestCalibration(h);
    }

    method CalibrationStarted() returns (ok: bool)
      modifies this, core, sequencer
      ensures (View(), ok) == CalibrationStartedOf(sequencer.cfg, old(View()))
    {
      ok := sequencer.Start();
      if !ok {
        core.CalibrationFinished();
        return;
      }
      teardownDone := false;
      mode := CalibrationMode;
      active := Some(Correction);
    }

    method CancelCalibration()
      modifies this, sequencer
      ensures View() == old(View()).(sequencer := Cal.FailOf(old(View()).sequencer, Cal.Cancelled))
    {
      sequencer.Fail(Cal.Cancelled);
    }

    /** `listed` is None where the query fails; without a query hook the request goes out unfiltered. */
    method SwitchFiltered(manager: ControllerManager, hasQuery: bool, listed: Option<set<Controller>>,
                          start: Option<Controller>, stop: Option<Controller>, available: bool) returns (ok: bool)
      modifies manager
      ensures hasQuery && listed.None? ==> !ok && manager.running == old(manager.running)
      ensures var s := if hasQuery && listed.Some? then FilterStart(listed.value, start) else start;
              var t := if hasQuery && listed.Some? then FilterStop(listed.value, stop) else stop;
              !hasQuery || listed.Some? ==>
                if hasQuery && s.None? && t.None? then ok && manager.running == old(manager.running)
                else
                  && ok == (available && StrictAccepts(old(manager.running), s, t))
                  && manager.running == if ok then Switched(old(manager.running), s, t) else old(manager.running)
    {
      var s, t := start, stop;
      if hasQuery {
        if listed.None? { return false; }
        var runs := listed.value;
        if s.Some? && s.value in runs { s := None; }
        if t.Some? && t.value !in runs { t := None; }
        if s.None? && t.None? { return true; }
      }
      ok := manager.Switch(s, t, available);
    }
  }
}
