/**
 * Does the controller of the requested mode run while the servo flag is set? Not always: a calibration that outlived a
 * fault is torn down late, over a servo started in the meantime.
 */
module ManagerServo {
  import opened Types
  import opened Manager
  import opened ManagerRuns
  import SS = SystemState
  import Cal = Calibration

  /** No command and no teardown is under way. */
  predicate Settled(s: Sys) { s.command.Rest? && s.worker.Rest? }

  /** Exactly the controller of the mode runs, and the manager knows it. */
  predicate ModeRuns(s: Sys) {
    && (s.sh.mode.DirectMode? || s.sh.mode.ComplianceMode?)
    && s.running == {Target(s.sh.mode)} && s.sh.active == Some(Target(s.sh.mode))
  }

  // ----- With the worker alone: exactly as long as no teardown is outstanding -----

  predicate IsCommand(e: Event) {
    e.StartServo? || e.StopServo? || e.ResetFault? || e.BeginCalibration?
  }

  /** Worker steps and callbacks only. */
  predicate Unattended(es: seq<Event>) { forall i :: 0 <= i < |es| ==> !IsCommand(es[i]) }

  /** However the worker and the callbacks go on, the mode's controller runs whenever the servo flag is set. */
  ghost predicate StaysOn(c: Config, s: Sys) {
    forall es :: Unattended(es) && CanAll(c, s, es) ==>
      var t := Run(c, s, es); Settled(t) && t.sh.core.servo ==> ModeRuns(t)
  }

  lemma AloneStep(c: Config, s: Sys, e: Event)
    requires Can(s, e) && Cal.Sane(c.cal, s.sh.sequencer) && !IsCommand(e) && Settled(s) && s.sh.teardownDone
             && ModeRuns(s)
    ensures var t := Do(c, s, e); Settled(t) && t.sh.teardownDone && ModeRuns(t)
  {
    hide SS.Do, Cal.FailOf, Cal.TickOf, Cal.ResultOf, Cal.WrenchOf;
  }

  lemma {:induction false} AloneRun(c: Config, s: Sys, es: seq<Event>)
    requires CanAll(c, s, es) && Unattended(es) && Settled(s) && s.sh.teardownDone && ModeRuns(s)
    ensures ModeRuns(Run(c, s, es))
    decreases |es|
  {
    hide Do, Can, ModeRuns, Settled;
    if es != [] {
      assert !IsCommand(es[0]);
      AloneStep(c, s, es[0]);
      AloneRun(c, Do(c, s, es[0]), es[1..]);
    }
  }

  lemma RunFirst(c: Config, s: Sys, e: Event, es: seq<Event>)
    requires Cal.Sane(c.cal, s.sh.sequencer) && Can(s, e) && CanAll(c, Do(c, s, e), es)
    ensures CanAll(c, s, [e] + es) && Run(c, s, [e] + es) == Run(c, Do(c, s, e), es)
  {
    hide Do, Can;
    assert ([e] + es)[1..] == es;
  }

  /** A calibration waits for its teardown. */
  predicate Outstanding(s: Sys) { !s.sh.teardownDone && (Cal.Active(s.sh.sequencer) || TornDown(s.sh.sequencer)) }

  /** The worker is inside a teardown. */
  predicate TearsDown(s: Sys) { s.worker.Apply? || Phase(s.worker, ThenTeardown) }

  /** What the worker does next in a teardown whose listing or switch fails. */
  function WorkerNext(c: Config, s: Sys): Event {
    match s.worker
    case Apply(_, _) => WorkerApplies
    case Query(_, _, _) => Queried(WorkerThread, !c.hasQuery)
    case Switch(_, _, _) => SwitchCalled(WorkerThread, false)
    case _ => Decided(WorkerThread, SS.HEALTHY)
  }

  function StepsLeft(pc: Pc): nat {
    match pc
    case Apply(_, _) => 4
    case Query(_, _, _) => 3
    case Switch(_, _, _) => 2
    case Decide(_, _) => 1
    case Rest => 0
  }

  lemma TeardownStep(c: Config, s: Sys)
    requires TearsDown(s) && s.command.Rest? && s.sh.core.servo && Cal.Sane(c.cal, s.sh.sequencer)
    ensures Can(s, WorkerNext(c, s))
    ensures var t := Do(c, s, WorkerNext(c, s));
            && t.command.Rest? && t.sh.core.servo && Cal.Sane(c.cal, t.sh.sequencer)
            && StepsLeft(t.worker) < StepsLeft(s.worker)
            && if t.worker.Rest? then t.sh.active.None? else TearsDown(t)
  {
    hide Cal.Sane;
  }

  /** Wherever the worker is in a teardown, the rest of it can leave the servo flag set and no controller known. */
  lemma {:induction false} WorkerFinishes(c: Config, s: Sys) returns (es: seq<Event>)
    requires TearsDown(s) && s.command.Rest? && s.sh.core.servo && Cal.Sane(c.cal, s.sh.sequencer)
    ensures Unattended(es) && CanAll(c, s, es)
    ensures var t := Run(c, s, es); Settled(t) && t.sh.core.servo && t.sh.active.None?
    decreases StepsLeft(s.worker)
  {
    hide Run, CanAll, Cal.Sane, Do, Can, TearsDown;
    var e := WorkerNext(c, s);
    TeardownStep(c, s);
    var t := Do(c, s, e);
    if t.worker.Rest? {
      es := [];
      NothingMore(c, t);
    } else {
      es := WorkerFinishes(c, t);
    }
    RunFirst(c, s, e, es);
    es := [e] + es;
  }

  lemma NothingMore(c: Config, s: Sys)
    ensures CanAll(c, s, []) && Run(c, s, []) == s
  {
  }

  /** The calibration is cancelled, and the worker tears it down in good health. */
  lemma TeardownSteps(c: Config, s: Sys) returns (es: seq<Event>)
    requires Settled(s) && Cal.Sane(c.cal, s.sh.sequencer) && Outstanding(s) && s.sh.core.servo
    ensures Unattended(es) && CanAll(c, s, es)
    ensures var t := Run(c, s, es); Settled(t) && t.sh.core.servo && t.sh.active.None?
  {
    hide Run, CanAll, Cal.Sane, Do, Settled;
    var tick := WorkerTick(SS.HEALTHY, 0.0);
    assert Can(s, CancelCalibration) && !IsCommand(CancelCalibration) && !IsCommand(tick);
    Ticked(c, s);
    var cancelled := Do(c, s, CancelCalibration);
    es := WorkerFinishes(c, Do(c, cancelled, tick));
    RunFirst(c, cancelled, tick, es);
    es := [tick] + es;
    RunFirst(c, s, CancelCalibration, es);
    es := [CancelCalibration] + es;
  }

  /** After a cancel and a tick with good health, the worker has a teardown to do and the servo flag is still set. */
  lemma Ticked(c: Config, s: Sys)
    requires Settled(s) && Cal.Sane(c.cal, s.sh.sequencer) && Outstanding(s) && s.sh.core.servo
    ensures var u := Do(c, s, CancelCalibration); Cal.Sane(c.cal, u.sh.sequencer) && Can(u, WorkerTick(SS.HEALTHY, 0.0))
    ensures var t := Do(c, Do(c, s, CancelCalibration), WorkerTick(SS.HEALTHY, 0.0));
            && t.worker.Apply? && t.command.Rest? && t.sh.core.servo && Cal.Sane(c.cal, t.sh.sequencer)
  {
  }

  lemma {:induction false} WaitsForTeardown(c: Config, s: Sys, es: seq<Event>)
    requires CanAll(c, s, es) && (!s.sh.teardownDone ==> Outstanding(s))
    ensures !Run(c, s, es).sh.teardownDone ==> Outstanding(Run(c, s, es))
    decreases |es|
  {
    hide Do, Can;
    if es != [] {
      WaitsStep(c, s, es[0]);
      WaitsForTeardown(c, Do(c, s, es[0]), es[1..]);
    }
  }

  lemma WaitsStep(c: Config, s: Sys, e: Event)
    requires Can(s, e) && Cal.Sane(c.cal, s.sh.sequencer) && (!s.sh.teardownDone ==> Outstanding(s))
    ensures !Do(c, s, e).sh.teardownDone ==> Outstanding(Do(c, s, e))
  {
    hide SS.Do, FilterStart, FilterStop, StrictAccepts, Switched, Cal.TickOf, Cal.ResultOf, Cal.WrenchOf, Cal.FailOf;
    match e {
      case WorkerTick(_, now) =>
        CallbacksKeep(c, s.sh.sequencer, now, ZERO);
        StaysOutstanding(c, s.sh.sequencer, now);
        StaysOutstanding(c, Cal.FailOf(s.sh.sequencer, Cal.StreamLost), now);
      case CancelCalibration => CallbacksKeep(c, s.sh.sequencer, 0.0, ZERO);
      case MotionResult(_, now) => CallbacksKeep(c, s.sh.sequencer, now, ZERO);
      case FeedWrench(w) => CallbacksKeep(c, s.sh.sequencer, 0.0, w);
      case _ =>
    }
  }

  predicate Runs(q: Cal.Seq) { Cal.Active(q) || TornDown(q) }

  lemma StaysOutstanding(c: Config, q: Cal.Seq, now: real)
    requires Cal.Sane(c.cal, q)
    ensures Runs(q) ==> Runs(Cal.TickOf(c.cal, q, now).0)
  {
  }

  lemma CallbacksKeep(c: Config, q: Cal.Seq, now: real, w: Wrench)
    requires Cal.Sane(c.cal, q)
    ensures Cal.Sane(c.cal, Cal.FailOf(q, Cal.StreamLost))
    ensures Runs(q) ==>
              && Runs(Cal.FailOf(q, Cal.StreamLost)) && Runs(Cal.FailOf(q, Cal.Cancelled))
              && Runs(Cal.WrenchOf(c.cal, q, w))
              && Runs(Cal.ResultOf(q, true, now)) && Runs(Cal.ResultOf(q, false, now))
  {
  }

  /**
   * In every run: a servo of the mode's controller that from now on only the worker and callbacks act on stays what it
   * is exactly when no calibration waits for its teardown and the worker is not inside one.
   */
  lemma ServoStaysOnIff(c: Config, before: seq<Event>, s: Sys)
    requires CanAll(c, INIT, before) && s == Run(c, INIT, before)
    requires s.command.Rest? && s.sh.core.servo && ModeRuns(s)
    ensures StaysOn(c, s) <==> s.sh.teardownDone && s.worker.Rest?
  {
    hide Run, CanAll, Do, ModeRuns, Cal.Sane, TearsDown;
    SaneAfter(c, before);
    if !s.worker.Rest? {
      WorkerOnlyTearsDown(c, before);
      var es := WorkerFinishes(c, s);
      assert !ModeRuns(Run(c, s, es)) by { NoActive(Run(c, s, es)); }
      assert !StaysOn(c, s);
    } else if s.sh.teardownDone {
      forall es | Unattended(es) && CanAll(c, s, es)
        ensures var t := Run(c, s, es); Settled(t) && t.sh.core.servo ==> ModeRuns(t)
      {
        AloneRun(c, s, es);
      }
    } else {
      WaitsForTeardown(c, INIT, before);
      var es := TeardownSteps(c, s);
      assert !ModeRuns(Run(c, s, es)) by { NoActive(Run(c, s, es)); }
      assert !StaysOn(c, s);
    }
  }

  lemma SaneAfter(c: Config, es: seq<Event>)
    requires CanAll(c, INIT, es)
    ensures Cal.Sane(c.cal, Run(c, INIT, es).sh.sequencer)
  {
    hide ControllerInv, Run, CanAll;
    InitIsFine(c);
    RunKeeps(c, INIT, es);
  }

  lemma WorkerOnlyTearsDown(c: Config, es: seq<Event>)
    requires CanAll(c, INIT, es) && !Run(c, INIT, es).worker.Rest?
    ensures TearsDown(Run(c, INIT, es))
  {
    hide Run, CanAll, PayloadInv;
    InitIsFine(c);
    RunKeeps(c, INIT, es);
  }

  lemma InitIsFine(c: Config)
    ensures ControllerInv(INIT) && PayloadInv(c, INIT)
  {
  }

  lemma NoActive(s: Sys)
    requires s.sh.active.None?
    ensures !ModeRuns(s)
  {
  }

  // ----- The late teardown, from the start -----

  /** Any configuration with a pose and a sample count; the listing hook is set. */
  predicate Usual(c: Config) { c.hasQuery && c.cal.poses != [] && c.cal.samplesPerPose > 0 }

  ghost predicate Reached(c: Config, s: Sys) { exists es :: CanAll(c, INIT, es) && Run(c, INIT, es) == s }

  lemma Reach(c: Config, s: Sys, e: Event) returns (t: Sys)
    requires Reached(c, s) && Can(s, e) && Cal.Sane(c.cal, s.sh.sequencer)
    ensures t == Do(c, s, e) && Reached(c, t)
  {
    hide Do, Can;
    t := Do(c, s, e);
    var es :| CanAll(c, INIT, es) && Run(c, INIT, es) == s;
    CanOneMore(c, INIT, es, e);
    RunOneMore(c, INIT, es, e);
  }

  lemma {:induction false} RunOneMore(c: Config, s: Sys, es: seq<Event>, e: Event)
    requires CanAll(c, s, es + [e]) && CanAll(c, s, es)
    requires Can(Run(c, s, es), e) && Cal.Sane(c.cal, Run(c, s, es).sh.sequencer)
    ensures Run(c, s, es + [e]) == Do(c, Run(c, s, es), e)
    decreases |es|
  {
    hide Do, Can;
    if es == [] {
      assert [e][1..] == [];
    } else {
      assert (es + [e])[1..] == es[1..] + [e];
      RunOneMore(c, Do(c, s, es[0]), es[1..], e);
    }
  }

  lemma InitIsReached(c: Config)
    ensures Reached(c, INIT)
  {
    assert CanAll(c, INIT, []) && Run(c, INIT, []) == INIT;
  }

  const FAULTY := SS.HEALTHY.(ekiFault := true)

  /** A calibration runs; the correction controller with it. */
  lemma Calibrating(c: Config) returns (s: Sys)
    requires Usual(c)
    ensures Reached(c, s) && Settled(s) && s.running == {Correction}
            && s.sh.sequencer == Cal.StartOf(c.cal, Cal.NEW_SEQ)
    ensures s.sh.core == SS.Core(SS.Ready, false, true) && !s.sh.teardownDone
  {
    hide Reached;
    s := INIT;
    InitIsReached(c);
    s := Reach(c, s, WorkerTick(SS.HEALTHY, 0.0));
    assert s == INIT.(sh := NEW_SHARED.(core := SS.Core(SS.Ready, false, false)));
    s := Reach(c, s, BeginCalibration(SS.HEALTHY));
    s := Reach(c, s, Queried(CommandThread, true));
    assert s.command == Switch(Some(Correction), None, ThenCalibrate) && s.running == {};
    s := Reach(c, s, SwitchCalled(CommandThread, true));
    assert s.command == Decide(true, ThenCalibrate) && s.running == {Correction};
    s := Reach(c, s, Decided(CommandThread, SS.HEALTHY));
  }

  /** A controller fault comes and is reset; the sequencer goes on all the while. */
  lemma ReadyAgain(c: Config) returns (s: Sys)
    requires Usual(c)
    ensures Reached(c, s) && Settled(s) && s.running == {Correction} && s.sh.core == SS.Core(SS.Ready, false, false)
    ensures !s.sh.teardownDone && s.sh.sequencer.phase.Moving? && Cal.Sane(c.cal, s.sh.sequencer)
  {
    hide Reached;
    s := Calibrating(c);
    s := Reach(c, s, WorkerTick(FAULTY, 0.0));
    assert s.sh.core == SS.Core(SS.Fault, false, false) && s.sh.sequencer.phase.Moving?;
    s := Reach(c, s, ResetFault);
    s := Reach(c, s, WorkerTick(SS.HEALTHY, 0.0));
  }

  /** A servo is started; its controller runs already. */
  lemma ServoOn(c: Config) returns (s: Sys)
    requires Usual(c)
    ensures Reached(c, s) && Settled(s) && ModeRuns(s) && s.sh.mode.DirectMode?
            && s.sh.core == SS.Core(SS.Ready, true, false)
    ensures !s.sh.teardownDone && s.sh.sequencer.phase.Moving? && Cal.Sane(c.cal, s.sh.sequencer)
  {
    hide Reached;
    s := ReadyAgain(c);
    s := Reach(c, s, StartServo(DirectMode, 0));
    s := Reach(c, s, Queried(CommandThread, true));
    s := Reach(c, s, Decided(CommandThread, SS.HEALTHY));
  }

  /**
   * The run: a calibration, a fault, a reset, a servo. Then the calibration's move fails, and its teardown stops the
   * servo's controller: the servo flag is set, the state is SERVOING, and nothing runs.
   */
  lemma LateTeardown(c: Config) returns (s: Sys)
    requires Usual(c)
    ensures Reached(c, s) && Settled(s) && s.sh.core == SS.Core(SS.Servoing, true, false) && s.running == {}
            && s.sh.active.None?
  {
    hide Reached;
    s := ServoOn(c);
    s := Reach(c, s, MotionResult(false, 1.0));
    assert s.sh.sequencer.phase.Failed? && s.sh.core == SS.Core(SS.Ready, true, false) && s.running == {Correction};
    s := Reach(c, s, WorkerTick(SS.HEALTHY, 1.0));
    assert s.worker.Apply? && !s.worker.finish.success && s.sh.core == SS.Core(SS.Servoing, true, false);
    s := Reach(c, s, WorkerApplies);
    s := Reach(c, s, Queried(WorkerThread, true));
    assert s.worker == Switch(None, Some(Correction), ThenTeardown) && s.running == {Correction};
    s := Reach(c, s, SwitchCalled(WorkerThread, true));
    s := Reach(c, s, Decided(WorkerThread, SS.HEALTHY));
  }

  /** The calibration's move has failed, the worker is about to tear it down, and a servo is started now. */
  lemma ServoInTeardown(c: Config) returns (s: Sys)
    requires Usual(c)
    ensures Reached(c, s) && s.command.Rest? && s.worker.Apply? && !s.worker.finish.success && s.sh.teardownDone
    ensures ModeRuns(s) && s.sh.mode.DirectMode? && s.sh.core == SS.Core(SS.Ready, true, false)
    ensures Cal.Sane(c.cal, s.sh.sequencer) && s.sh.sequencer.phase.Failed?
  {
    hide Reached;
    s := ReadyAgain(c);
    s := Reach(c, s, MotionResult(false, 1.0));
    assert s.sh.sequencer.phase.Failed? && s.sh.core == SS.Core(SS.Ready, false, false) && s.running == {Correction};
    s := Reach(c, s, WorkerTick(SS.HEALTHY, 1.0));
    assert s.worker.Apply? && !s.worker.finish.success && s.sh.core == SS.Core(SS.Ready, false, false);
    s := Reach(c, s, StartServo(DirectMode, 0));
    s := Reach(c, s, Queried(CommandThread, true));
    s := Reach(c, s, Decided(CommandThread, SS.HEALTHY));
  }

  /** The same end when the servo is started inside the teardown: no calibration waits any more, and nothing runs. */
  lemma TeardownUnderServo(c: Config) returns (s: Sys)
    requires Usual(c)
    ensures Reached(c, s) && Settled(s) && s.sh.core == SS.Core(SS.Servoing, true, false) && s.running == {}
            && s.sh.active.None?
  {
    hide Reached;
    s := ServoInTeardown(c);
    s := Reach(c, s, WorkerApplies);
    s := Reach(c, s, Queried(WorkerThread, true));
    assert s.worker == Switch(None, Some(Correction), ThenTeardown) && s.running == {Correction};
    s := Reach(c, s, SwitchCalled(WorkerThread, true));
    s := Reach(c, s, Decided(WorkerThread, SS.HEALTHY));
    assert s.sh.core == SS.Core(SS.Ready, true, false) && s.running == {};
    s := Reach(c, s, WorkerTick(SS.HEALTHY, 2.0));
  }

  // ----- Careful commands: the mode's controller runs -----

  /**
   * A start or a calibration is asked for only while the mode is not that of a calibration, and no servo is requested.
   */
  predicate Careful(s: Sys, e: Event) {
    (e.StartServo? || e.BeginCalibration?) ==> !s.sh.core.servo && !s.sh.mode.CalibrationMode?
  }

  predicate AllCareful(c: Config, s: Sys, es: seq<Event>)
    requires CanAll(c, s, es)
    decreases |es|
  {
    es == [] || (Careful(s, es[0]) && AllCareful(c, Do(c, s, es[0]), es[1..]))
  }

  /** A calibration runs, or waits for its teardown, or is torn down. */
  predicate Busy(s: Sys) { !s.sh.teardownDone || !s.worker.Rest? }

  predicate Phase(pc: Pc, next: Then) { (pc.Query? || pc.Switch? || pc.Decide?) && pc.next == next }

  predicate Starting(pc: Pc) { (pc.Query? || pc.Switch? || pc.Decide?) && pc.next.ThenStart? }

  /** A start on its way: which controller it is about, and that the other one will not run when it decides. */
  predicate StartInv(s: Sys)
    requires Starting(s.command)
  {
    && !s.sh.core.servo && !s.sh.core.calibrating && !s.sh.mode.CalibrationMode?
    && var n := s.command.next;
       && (n.mode.DirectMode? || n.mode.ComplianceMode?) && n.target == Target(n.mode)
       && match s.command
          case Query(start, stop, _) => start == Some(n.target) && stop == Some(Other(n.target))
          case Switch(start, stop, _) =>
            && (start.None? ==> n.target in s.running) && (start.Some? ==> start.value == n.target)
            && (stop.None? ==> Other(n.target) !in s.running) && (stop.Some? ==> stop.value == Other(n.target))
          case Decide(ok, _) => ok ==> s.running == {n.target}
          case _ => true
  }

  ghost predicate CommandInv(s: Sys) {
    var core := s.sh.core;
    match s.command
    case Rest => !s.sh.mode.CalibrationMode? && !core.calibrating && (core.servo ==> ModeRuns(s))
    case Apply(_, _) => false
    case _ =>
      match s.command.next
      case ThenStart(_, _, _) => StartInv(s)
      case ThenRollback => !core.servo && !core.calibrating && !s.sh.mode.CalibrationMode?
      case ThenStop => !core.calibrating && !s.sh.mode.CalibrationMode? && (core.servo ==> SS.StopAccepted(core))
      case ThenCalibrate => !core.servo && !SS.StopAccepted(core) && !s.sh.mode.CalibrationMode?
      case ThenTeardown => false
  }

  ghost predicate CarefulInv(s: Sys) {
    if Busy(s)
    then
      && s.command.Rest? && s.sh.mode.CalibrationMode? && !s.sh.core.servo && !SS.StopAccepted(s.sh.core)
      && (s.worker.Rest? || (s.sh.teardownDone && TearsDown(s)))
    else CommandInv(s)
  }

  lemma TickKeeps(c: Config, s: Sys, e: Event)
    requires Can(s, e) && Cal.Sane(c.cal, s.sh.sequencer) && CarefulInv(s) && e.WorkerTick?
    ensures CarefulInv(Do(c, s, e))
  {
    hide Cal.TickOf, Cal.FailOf;
  }

  lemma WorkerKeeps(c: Config, s: Sys, e: Event)
    requires Can(s, e) && Cal.Sane(c.cal, s.sh.sequencer) && CarefulInv(s)
    requires e.WorkerApplies? || (e.Queried? && e.who.WorkerThread?) || (e.SwitchCalled? && e.who.WorkerThread?)
             || (e.Decided? && e.who.WorkerThread?)
    ensures CarefulInv(Do(c, s, e))
  {
  }

  lemma CallbackKeeps(c: Config, s: Sys, e: Event)
    requires Can(s, e) && Cal.Sane(c.cal, s.sh.sequencer) && CarefulInv(s)
    requires e.CancelCalibration? || e.MotionResult? || e.FeedWrench? || e.ResetFault?
    ensures CarefulInv(Do(c, s, e))
  {
    hide Cal.FailOf, Cal.ResultOf, Cal.WrenchOf, Switched, FilterStart, FilterStop, StrictAccepts;
  }

  lemma IssueKeeps(c: Config, s: Sys, e: Event)
    requires Can(s, e) && Cal.Sane(c.cal, s.sh.sequencer) && CarefulInv(s) && Careful(s, e)
    requires e.StartServo? || e.StopServo? || e.BeginCalibration?
    ensures CarefulInv(Do(c, s, e))
  {
  }

  lemma SwitchKeeps(c: Config, s: Sys, e: Event)
    requires Can(s, e) && Cal.Sane(c.cal, s.sh.sequencer) && CarefulInv(s)
    requires (e.Queried? || e.SwitchCalled?) && e.who.CommandThread?
    ensures CarefulInv(Do(c, s, e))
  {
    if Starting(s.command) {
      var x := s.command.next.target;
      assert forall y: Controller :: y in Do(c, s, e).running ==> y == x || y == Other(x);
    }
  }

  lemma DecideKeeps(c: Config, s: Sys, e: Event)
    requires Can(s, e) && Cal.Sane(c.cal, s.sh.sequencer) && CarefulInv(s) && e.Decided? && e.who.CommandThread?
    ensures CarefulInv(Do(c, s, e))
  {
  }

  lemma {:induction false} CarefulRunKeeps(c: Config, s: Sys, es: seq<Event>)
    requires CanAll(c, s, es) && AllCareful(c, s, es) && CarefulInv(s)
    ensures CarefulInv(Run(c, s, es))
    decreases |es|
  {
    hide Do, Can, CarefulInv, Careful, Cal.Sane;
    if es != [] {
      var e := es[0];
      match e {
        case WorkerTick(_, _) => TickKeeps(c, s, e);
        case WorkerApplies => WorkerKeeps(c, s, e);
        case Queried(who, _) => if who.CommandThread? { SwitchKeeps(c, s, e); } else { WorkerKeeps(c, s, e); }
        case SwitchCalled(who, _) => if who.CommandThread? { SwitchKeeps(c, s, e); } else { WorkerKeeps(c, s, e); }
        case Decided(who, _) => if who.CommandThread? { DecideKeeps(c, s, e); } else { WorkerKeeps(c, s, e); }
        case StartServo(_, _) => IssueKeeps(c, s, e);
        case StopServo => IssueKeeps(c, s, e);
        case BeginCalibration(_) => IssueKeeps(c, s, e);
        case _ => CallbackKeeps(c, s, e);
      }
      CarefulRunKeeps(c, Do(c, s, e), es[1..]);
    }
  }

  /**
   * If every start and every calibration is asked for outside the calibration mode and without a servo, then in every
   * run, whenever nothing is under way, the servo flag means that exactly the mode's controller runs.
   */
  lemma CarefulServoRuns(c: Config, es: seq<Event>)
    requires CanAll(c, INIT, es) && AllCareful(c, INIT, es)
    ensures var s := Run(c, INIT, es); Settled(s) && s.sh.core.servo ==> ModeRuns(s)
  {
    hide CanAll, AllCareful, Run, ModeRuns;
    CarefulRunKeeps(c, INIT, es);
  }
}
