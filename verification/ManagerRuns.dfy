/**
 * Every interleaving of the manager's worker (whose teardown takes no command lock) with its serialized commands,
 * with sensor and motion callbacks, and with the gap between listing the running controllers and switching them.
 * Every service call may fail. Motion results may arrive at any time.
 */
module ManagerRuns {
  import opened Types
  import opened Manager
  import SS = SystemState
  import Cal = Calibration

  /** `hasQuery`: the listing hook is set. */
  datatype Config = Config(cal: Cal.Config, hasQuery: bool)

  /** What follows a switch. */
  datatype Then =
    | ThenStart(mode: Mode, profile: nat, target: Controller)
    | ThenRollback
    | ThenStop
    | ThenCalibrate
    | ThenTeardown

  /** Where a thread is between two critical sections or service calls. */
  datatype Pc =
    | Rest
    | Apply(finish: Finish, run: nat)
    | Query(start: Option<Controller>, stop: Option<Controller>, next: Then)
    | Switch(start: Option<Controller>, stop: Option<Controller>, next: Then)
    | Decide(ok: bool, next: Then)

  datatype Applied = Applied(run: nat, fit: Cal.Fit)

  /** History: `run` counts accepted starts of the sequencer, `ended` holds the fit of each run that became DONE. */
  datatype Sys = Sys(sh: Shared, running: set<Controller>, command: Pc, worker: Pc,
                     run: nat, ended: map<nat, Cal.Fit>, applied: seq<Applied>)
  const INIT := Sys(NEW_SHARED, {}, Rest, Rest, 0, map[], [])

  datatype Thread = CommandThread | WorkerThread

  datatype Event =
    | WorkerTick(h: SS.Health, now: real)
    | WorkerApplies
    | Queried(who: Thread, answered: bool)
    | SwitchCalled(who: Thread, available: bool)
    | Decided(who: Thread, h: SS.Health)
    | StartServo(mode: Mode, profile: nat)
    | StopServo
    | ResetFault
    | BeginCalibration(h: SS.Health)
    | CancelCalibration
    | MotionResult(success: bool, now: real)
    | FeedWrench(w: Wrench)

  function PcOf(s: Sys, who: Thread): Pc { if who.CommandThread? then s.command else s.worker }

  function At(s: Sys, who: Thread, pc: Pc): Sys {
    if who.CommandThread? then s.(command := pc) else s.(worker := pc)
  }

  predicate Can(s: Sys, e: Event) {
    match e
    case WorkerTick(_, _) => s.worker.Rest?
    case WorkerApplies => s.worker.Apply?
    case Queried(who, _) => PcOf(s, who).Query?
    case SwitchCalled(who, _) => PcOf(s, who).Switch?
    case Decided(who, _) => PcOf(s, who).Decide?
    case StartServo(mode, _) => s.command.Rest? && s.sh.core.state.Ready? && (mode.DirectMode? || mode.ComplianceMode?)
    case StopServo => s.command.Rest? && SS.StopAccepted(s.sh.core)
    case ResetFault => s.command.Rest?
    case BeginCalibration(_) => s.command.Rest?
    case CancelCalibration => true
    case MotionResult(_, _) => true
    case FeedWrench(_) => true
  }

  /** Records the fit when the sequencer becomes DONE. */
  function Sequenced(s: Sys, q: Cal.Seq): Sys {
    s.(sh := s.sh.(sequencer := q),
       ended := if q.phase.Done? && !s.sh.sequencer.phase.Done? then s.ended[s.run := q.fit] else s.ended)
  }

  function Target(mode: Mode): Controller { if mode.ComplianceMode? then Compliance else Correction }

  function DecideOf(c: Config, s: Sys, who: Thread, h: SS.Health): Sys
    requires PcOf(s, who).Decide?
  {
    var pc, rest := PcOf(s, who), At(s, who, Rest);
    match pc.next
    case ThenStart(mode, profile, target) =>
      if !pc.ok then rest
      else
        var (sh, accepted) := StartedOf(s.sh, h, mode, profile, target);
        if accepted then rest.(sh := sh) else At(s, who, Query(None, Some(target), ThenRollback)).(sh := sh)
    case ThenRollback => rest
    case ThenStop => rest.(sh := StoppedOf(s.sh).0)
    case ThenCalibrate =>
      if !pc.ok then rest.(sh := CalibrationRolledBackOf(s.sh))
      else
        var (sh, started) := CalibrationStartedOf(c.cal, s.sh);
        rest.(sh := sh, run := if started then s.run + 1 else s.run)
    case ThenTeardown => rest.(sh := TeardownOf(s.sh))
  }

  function Do(c: Config, s: Sys, e: Event): Sys
    requires Can(s, e) && Cal.Sane(c.cal, s.sh.sequencer)
  {
    match e
    case WorkerTick(h, now) =>
      var (sh, _, finish) := TickOf(c.cal, s.sh, h, now);
      s.(sh := sh, worker := if finish.Some? then Apply(finish.value, s.run) else Rest)
    case WorkerApplies =>
      s.(worker := Query(None, Some(Correction), ThenTeardown),
         applied := if s.worker.finish.success then s.applied + [Applied(s.worker.run, s.worker.finish.fit)]
           else s.applied)
    case Queried(who, answered) =>
      var pc := PcOf(s, who);
      if !c.hasQuery then At(s, who, Switch(pc.start, pc.stop, pc.next))
      else if !answered then At(s, who, Decide(false, pc.next))
      else
        var start, stop := FilterStart(s.running, pc.start), FilterStop(s.running, pc.stop);
        At(s, who, if start.None? && stop.None? then Decide(true, pc.next) else Switch(start, stop, pc.next))
    case SwitchCalled(who, available) =>
      var pc := PcOf(s, who);
      var ok := available && StrictAccepts(s.running, pc.start, pc.stop);
      At(s, who, Decide(ok, pc.next)).(running := if ok then Switched(s.running, pc.start, pc.stop) else s.running)
    case Decided(who, h) => DecideOf(c, s, who, h)
    case StartServo(mode, profile) =>
      s.(command := Query(Some(Target(mode)), Some(Other(Target(mode))), ThenStart(mode, profile, Target(mode))))
    case StopServo => s.(command := Query(None, s.sh.active, ThenStop))
    case ResetFault => s.(sh := s.sh.(core := SS.Do(s.sh.core, SS.Reset)))
    case BeginCalibration(h) =>
      var (sh, accepted) := CalibrationRequestedOf(s.sh, h);
      s.(sh := sh, command := if accepted then Query(Some(Correction), Some(Compliance), ThenCalibrate) else Rest)
    case CancelCalibration => Sequenced(s, Cal.FailOf(s.sh.sequencer, Cal.Cancelled))
    case MotionResult(success, now) => Sequenced(s, Cal.ResultOf(s.sh.sequencer, success, now))
    case FeedWrench(w) => Sequenced(s, Cal.WrenchOf(c.cal, s.sh.sequencer, w))
  }

  // ----- Invariants -----

  predicate NotBoth(running: set<Controller>) { !(Compliance in running && Correction in running) }

  /** A switch that starts one controller either stops the other in the same request, or the other does not run. */
  ghost predicate ControllerInv(s: Sys) {
    && NotBoth(s.running)
    && (s.command.Query? && s.command.start.Some? ==> s.command.stop == Some(Other(s.command.start.value)))
    && (s.command.Switch? && s.command.start.Some? ==>
          if s.command.stop.Some? then s.command.stop == Some(Other(s.command.start.value))
          else Other(s.command.start.value) !in s.running)
    && (s.worker.Query? ==> s.worker.start.None? && s.worker.next.ThenTeardown?)
    && (s.worker.Switch? ==> s.worker.start.None? && s.worker.next.ThenTeardown?)
    && (s.worker.Decide? ==> s.worker.next.ThenTeardown?)
  }

  ghost predicate EndedOk(ended: map<nat, Cal.Fit>, run: nat, fit: Cal.Fit) {
    run in ended && ended[run] == fit && fit.ok
  }

  ghost predicate PayloadInv(c: Config, s: Sys) {
    var q := s.sh.sequencer;
    && Cal.Sane(c.cal, q) && (q.phase.Returning? || q.phase.Done? ==> q.fit.ok)
    && (q.phase.Done? ==> EndedOk(s.ended, s.run, q.fit))
    && (forall i :: 0 <= i < |s.applied| ==>
          s.applied[i].run <= s.run && EndedOk(s.ended, s.applied[i].run, s.applied[i].fit))
    && (forall i, j :: 0 <= i < j < |s.applied| ==> s.applied[i].run < s.applied[j].run)
    && (!s.sh.teardownDone ==> forall i :: 0 <= i < |s.applied| ==> s.applied[i].run < s.run)
    && (s.worker.Apply? ==>
          && s.worker.run <= s.run && (!s.sh.teardownDone ==> s.worker.run < s.run)
          && (s.worker.finish.success ==> EndedOk(s.ended, s.worker.run, s.worker.finish.fit))
          && forall i :: 0 <= i < |s.applied| ==> s.applied[i].run < s.worker.run)
    && (forall r :: r in s.ended ==> r <= s.run)
    && (s.run in s.ended ==> !Cal.Active(q))
  }

  lemma ControllerStep(c: Config, s: Sys, e: Event)
    requires Can(s, e) && Cal.Sane(c.cal, s.sh.sequencer) && ControllerInv(s)
    ensures ControllerInv(Do(c, s, e))
  {
  }

  /** Callbacks move the sequencer only. */
  lemma SequencerStep(c: Config, s: Sys, q: Cal.Seq)
    requires PayloadInv(c, s) && Cal.Sane(c.cal, q)
    requires Cal.Active(q) ==> Cal.Active(s.sh.sequencer)
    requires q.phase.Returning? || q.phase.Done? ==> q.fit.ok
    requires q.phase.Done? && s.sh.sequencer.phase.Done? ==> q.fit == s.sh.sequencer.fit
    requires q.phase.Done? && !s.sh.sequencer.phase.Done? ==> Cal.Active(s.sh.sequencer)
    requires s.sh.sequencer.phase.Done? ==> q.phase.Done?
    ensures PayloadInv(c, Sequenced(s, q))
  {
    var t := Sequenced(s, q);
    if t.ended != s.ended {
      assert s.run !in s.ended;
      assert forall r :: r in s.ended ==> t.ended[r] == s.ended[r];
    }
  }

  lemma WorkerStep(c: Config, s: Sys, e: Event)
    requires Can(s, e) && PayloadInv(c, s) && (e.WorkerTick? || e.WorkerApplies?)
    ensures PayloadInv(c, Do(c, s, e))
  {
    hide SS.Do, EndedOk;
    var t := Do(c, s, e);
    if e.WorkerApplies? && s.worker.finish.success {
      assert t.applied[..|s.applied|] == s.applied;
    } else {
      assert t.applied == s.applied;
    }
  }

  lemma DecideStep(c: Config, s: Sys, e: Event)
    requires Can(s, e) && PayloadInv(c, s) && ControllerInv(s) && e.Decided?
    ensures PayloadInv(c, Do(c, s, e))
  {
    hide SS.Do, EndedOk;
    assert Do(c, s, e).applied == s.applied;
  }

  lemma OtherStep(c: Config, s: Sys, e: Event)
    requires Can(s, e) && PayloadInv(c, s) && ControllerInv(s)
    requires e.Queried? || e.SwitchCalled? || e.StartServo? || e.StopServo? || e.ResetFault? || e.BeginCalibration?
    ensures PayloadInv(c, Do(c, s, e))
  {
    hide SS.Do, EndedOk, FilterStart, FilterStop, StrictAccepts, Switched;
    assert Do(c, s, e).applied == s.applied;
  }

  lemma PayloadStep(c: Config, s: Sys, e: Event)
    requires Can(s, e) && PayloadInv(c, s) && ControllerInv(s)
    ensures PayloadInv(c, Do(c, s, e))
  {
    match e {
      case WorkerTick(_, _) => WorkerStep(c, s, e);
      case WorkerApplies => WorkerStep(c, s, e);
      case Decided(_, _) => DecideStep(c, s, e);
      case CancelCalibration => SequencerStep(c, s, Cal.FailOf(s.sh.sequencer, Cal.Cancelled));
      case MotionResult(success, now) => SequencerStep(c, s, Cal.ResultOf(s.sh.sequencer, success, now));
      case FeedWrench(w) => SequencerStep(c, s, Cal.WrenchOf(c.cal, s.sh.sequencer, w));
      case _ => OtherStep(c, s, e);
    }
  }

  predicate CanAll(c: Config, s: Sys, es: seq<Event>)
    decreases |es|
  {
    es == [] || (Cal.Sane(c.cal, s.sh.sequencer) && Can(s, es[0]) && CanAll(c, Do(c, s, es[0]), es[1..]))
  }

  function Run(c: Config, s: Sys, es: seq<Event>): Sys
    requires CanAll(c, s, es)
    decreases |es|
  {
    if es == [] then s else Run(c, Do(c, s, es[0]), es[1..])
  }

  lemma {:induction false} RunKeeps(c: Config, s: Sys, es: seq<Event>)
    requires CanAll(c, s, es) && ControllerInv(s) && PayloadInv(c, s)
    ensures ControllerInv(Run(c, s, es)) && PayloadInv(c, Run(c, s, es))
    decreases |es|
  {
    if es != [] {
      ControllerStep(c, s, es[0]);
      PayloadStep(c, s, es[0]);
      RunKeeps(c, Do(c, s, es[0]), es[1..]);
    }
  }

  lemma {:induction false} CanOneMore(c: Config, s: Sys, es: seq<Event>, e: Event)
    requires CanAll(c, s, es) && Cal.Sane(c.cal, Run(c, s, es).sh.sequencer) && Can(Run(c, s, es), e)
    ensures CanAll(c, s, es + [e])
    decreases |es|
  {
    hide Do;
    if es == [] {
      assert [e][1..] == [];
    } else {
      assert (es + [e])[1..] == es[1..] + [e];
      CanOneMore(c, Do(c, s, es[0]), es[1..], e);
    }
  }

  /** In no run does a call make the sequencer read past its poses: every next step is possible. */
  lemma EveryStepIsDefined(c: Config, es: seq<Event>, e: Event)
    requires CanAll(c, INIT, es) && Can(Run(c, INIT, es), e)
    ensures CanAll(c, INIT, es + [e])
  {
    RunKeeps(c, INIT, es);
    CanOneMore(c, INIT, es, e);
  }

  /** At most one of the two controllers ever runs. */
  lemma AtMostOneController(c: Config, es: seq<Event>)
    requires CanAll(c, INIT, es)
    ensures NotBoth(Run(c, INIT, es).running)
  {
    RunKeeps(c, INIT, es);
  }

  /** The payload is applied at most once per accepted sequencer start, and only the ok fit of a run that ended DONE. */
  lemma PayloadAppliedOncePerRun(c: Config, es: seq<Event>)
    requires CanAll(c, INIT, es)
    ensures var s := Run(c, INIT, es);
            && (forall i :: 0 <= i < |s.applied| ==>
                  s.applied[i].run <= s.run && EndedOk(s.ended, s.applied[i].run, s.applied[i].fit))
            && (forall i, j :: 0 <= i < j < |s.applied| ==> s.applied[i].run < s.applied[j].run)
  {
    RunKeeps(c, INIT, es);
  }

  // ----- What a start and a stop do when every call succeeds -----

  function StartEvents(s: Sys, mode: Mode, profile: nat, h: SS.Health): seq<Event> {
    var ask := [StartServo(mode, profile), Queried(CommandThread, true)];
    var switch := [SwitchCalled(CommandThread, true)];
    if Target(mode) in s.running && Other(Target(mode)) !in s.running then ask + [Decided(CommandThread, h)]
    else ask + switch + [Decided(CommandThread, h)]
  }

  /** The states a start goes through: asked, listed, switched if needed, decided. */
  lemma StartPath(c: Config, s: Sys, es: seq<Event>, u: Sys, v: Sys, w: Sys)
    requires 3 <= |es| <= 4 && Cal.Sane(c.cal, s.sh.sequencer) && Can(s, es[0]) && u == Do(c, s, es[0])
    requires Cal.Sane(c.cal, u.sh.sequencer) && Can(u, es[1]) && v == Do(c, u, es[1]) && Cal.Sane(c.cal, v.sh.sequencer)
    requires if |es| == 3 then w == v else Can(v, es[2]) && w == Do(c, v, es[2])
    requires Cal.Sane(c.cal, w.sh.sequencer) && Can(w, es[|es| - 1])
    ensures CanAll(c, s, es) && Run(c, s, es) == Do(c, w, es[|es| - 1])
  {
    hide Do, Can;
    var last := es[|es| - 1];
    assert [last][1..] == [];
    assert CanAll(c, w, [last]) && Run(c, w, [last]) == Do(c, w, last);
    if |es| == 3 {
      assert es[1..][1..] == [last];
    } else {
      assert es[1..][1..] == [es[2], last] && es[1..][1..][1..] == [last];
      assert CanAll(c, v, [es[2], last]) && Run(c, v, [es[2], last]) == Do(c, w, last);
    }
    assert CanAll(c, u, es[1..]) && Run(c, u, es[1..]) == Do(c, w, last);
  }

  lemma OneController(running: set<Controller>, x: Controller)
    requires x in running && Other(x) !in running
    ensures running == {x}
  {
    forall y | y in running ensures y == x { assert y == x || y == Other(x); }
  }

  /**
   * From READY, with the listing and the switch answered, a start that the core accepts leaves exactly the mode's
   * controller running, and the manager knows it.
   */
  lemma StartServoStarts(c: Config, s: Sys, mode: Mode, profile: nat, h: SS.Health)
    requires c.hasQuery && ControllerInv(s) && Cal.Sane(c.cal, s.sh.sequencer)
    requires Can(s, StartServo(mode, profile)) && SS.StartAccepted(s.sh.core, h)
    ensures var es := StartEvents(s, mode, profile, h);
            && CanAll(c, s, es)
            && var t := Run(c, s, es);
               && t.running == {Target(mode)} && t.sh.active == Some(Target(mode)) && t.sh.mode == mode
                  && t.sh.profile == profile
               && t.sh.core.servo && t.command.Rest? && t.worker == s.worker && t.sh.sequencer == s.sh.sequencer
  {
    hide Run, CanAll, Cal.Sane;
    var es := StartEvents(s, mode, profile, h);
    var u := Do(c, s, es[0]);
    var v := Do(c, u, es[1]);
    var w := if |es| == 3 then v else Do(c, v, es[2]);
    StartPath(c, s, es, u, v, w);
    OneController(w.running, Target(mode));
  }
}
