/**
 * Calibration inside the manager: its sequencer goes through a calibration run, so that everything proved about those
 * holds of it; and what a calibration, a stop and a teardown do when every service call succeeds.
 */
module ManagerCalibration {
  import opened Types
  import opened Manager
  import opened ManagerRuns
  import SS = SystemState
  import Cal = Calibration
  import CR = CalibrationRuns
  import ManagerServo

  // ----- The manager's sequencer goes through a calibration run -----

  predicate Starts(s: Sys, e: Event)
    requires Can(s, e)
  {
    e.Decided? && PcOf(s, e.who).ok && PcOf(s, e.who).next.ThenCalibrate?
  }

  /** What an event of the manager is to the sequencer; a tick without sensor stream reports its loss first. */
  function Seen(s: Sys, e: Event): seq<CR.Event>
    requires Can(s, e)
  {
    match e
    case WorkerTick(h, now) => (if h.sriStreaming then [] else [CR.LoseStream]) + [CR.Tick(now)]
    case CancelCalibration => [CR.Cancel]
    case MotionResult(success, now) => [CR.Result(success, now)]
    case FeedWrench(w) => [CR.Measured(w)]
    case Decided(_, _) => if Starts(s, e) then [CR.Start] else []
    case _ => []
  }

  function Projected(c: Config, s: Sys, es: seq<Event>): seq<CR.Event>
    requires CanAll(c, s, es)
    decreases |es|
  {
    if es == [] then [] else Seen(s, es[0]) + Projected(c, Do(c, s, es[0]), es[1..])
  }

  /** The goals handed to the motion client since the last accepted start of the sequencer. */
  function GoalsAfter(c: Config, s: Sys, e: Event, goals: seq<Cal.Pose>): seq<Cal.Pose>
    requires Can(s, e) && Cal.Sane(c.cal, s.sh.sequencer)
  {
    match e
    case WorkerTick(h, now) =>
      var goal := TickOf(c.cal, s.sh, h, now).1; if goal.Some? then goals + [goal.value] else goals
    case Decided(_, _) => if Starts(s, e) && Cal.StartAccepted(c.cal, s.sh.sequencer) then [] else goals
    case _ => goals
  }

  function Goals(c: Config, s: Sys, es: seq<Event>, before: seq<Cal.Pose>): seq<Cal.Pose>
    requires CanAll(c, s, es)
    decreases |es|
  {
    if es == [] then before else Goals(c, Do(c, s, es[0]), es[1..], GoalsAfter(c, s, es[0], before))
  }

  /** The calibration run is where the manager's sequencer is, and has emitted the manager's goals. */
  ghost predicate Agrees(c: Config, s: Sys, cs: seq<CR.Event>, goals: seq<Cal.Pose>) {
    var r := CR.After(c.cal, cs, |cs|); r.s == s.sh.sequencer && r.emitted == goals
  }

  lemma AfterOne(c: Cal.Config, cs: seq<CR.Event>, e: CR.Event)
    ensures CR.After(c, cs + [e], |cs| + 1) == CR.Do(c, CR.After(c, cs, |cs|), e)
  {
    hide CR.Do;
    CR.AfterPrefix(c, cs, [e], |cs|);
  }

  lemma SeenStep(c: Config, s: Sys, e: Event, cs: seq<CR.Event>, goals: seq<Cal.Pose>)
    requires Can(s, e) && Cal.Sane(c.cal, s.sh.sequencer) && Agrees(c, s, cs, goals)
    ensures Agrees(c, Do(c, s, e), cs + Seen(s, e), GoalsAfter(c, s, e, goals))
  {
    hide CR.After, SS.Do, FilterStart, FilterStop, StrictAccepts, Switched, Cal.ResultOf, Cal.StartOf;
    var seen := Seen(s, e);
    if seen == [] {
      assert cs + seen == cs;
    } else if |seen| == 1 {
      AfterOne(c.cal, cs, seen[0]);
      assert cs + seen == cs + [seen[0]];
    } else {
      AfterOne(c.cal, cs, CR.LoseStream);
      AfterOne(c.cal, cs + [CR.LoseStream], seen[1]);
      assert cs + seen == cs + [CR.LoseStream] + [seen[1]];
    }
  }

  lemma {:induction false} ProjectedAgrees(c: Config, s: Sys, es: seq<Event>, cs: seq<CR.Event>, goals: seq<Cal.Pose>)
    requires CanAll(c, s, es) && Agrees(c, s, cs, goals)
    ensures Agrees(c, Run(c, s, es), cs + Projected(c, s, es), Goals(c, s, es, goals))
    decreases |es|
  {
    hide Do, Can, Agrees, Seen, GoalsAfter;
    if es == [] {
      assert cs + [] == cs;
    } else {
      SeenStep(c, s, es[0], cs, goals);
      var seen, u := Seen(s, es[0]), Do(c, s, es[0]);
      ProjectedAgrees(c, u, es[1..], cs + seen, GoalsAfter(c, s, es[0], goals));
      assert cs + (seen + Projected(c, u, es[1..])) == (cs + seen) + Projected(c, u, es[1..]);
    }
  }

  /**
   * In every run of the manager, whatever the interleaving, its sequencer goes through the calibration run that these
   * events make up, and hands that run's goals to the motion client.
   */
  lemma ManagerRunsCalibration(c: Config, es: seq<Event>)
    requires CanAll(c, INIT, es)
    ensures var cs := Projected(c, INIT, es); var r := CR.After(c.cal, cs, |cs|);
            r.s == Run(c, INIT, es).sh.sequencer && r.emitted == Goals(c, INIT, es, [])
  {
    ProjectedAgrees(c, INIT, es, [], []);
    assert [] + Projected(c, INIT, es) == Projected(c, INIT, es);
  }

  /** So the manager keeps the calibration's plan, if no motion result overtakes the return goal. */
  lemma ManagerKeepsPlan(c: Config, es: seq<Event>)
    requires CanAll(c, INIT, es)
    requires forall i: nat :: !CR.OvertakesReturnAt(c.cal, Projected(c, INIT, es), i)
    ensures var goals, q := Goals(c, INIT, es, []), Run(c, INIT, es).sh.sequencer;
            && |goals| <= |c.cal.poses| + 1 && goals == CR.Plan(c.cal)[..|goals|]
            && (q.phase.Done? ==> goals == CR.Plan(c.cal) && q.fit == c.cal.solve(q.samples) && q.fit.ok
                                  && |q.samples| == |c.cal.poses|)
  {
    hide Run, Goals, Projected, CanAll;
    ManagerRunsCalibration(c, es);
    var cs := Projected(c, INIT, es);
    CR.PlanKeptIff(c.cal, cs);
    assert CR.KeepsPlan(c.cal, CR.After(c.cal, cs, |cs|));
  }

  // ----- What a calibration, a stop and a teardown do when every call succeeds -----

  lemma RunOne(c: Config, s: Sys, e: Event)
    requires Cal.Sane(c.cal, s.sh.sequencer) && Can(s, e)
    ensures CanAll(c, s, [e]) && Run(c, s, [e]) == Do(c, s, e)
  {
    hide Do, Can;
    assert [e][1..] == [];
  }

  /** From READY, a calibration that is accepted leaves exactly the correction controller running. */
  lemma CalibrationStarts(c: Config, s: Sys, h: SS.Health) returns (es: seq<Event>)
    requires c.hasQuery && ControllerInv(s) && Cal.Sane(c.cal, s.sh.sequencer) && s.command.Rest?
    requires SS.CalibrationAccepted(s.sh.core, h) && Cal.StartAccepted(c.cal, s.sh.sequencer)
    ensures CanAll(c, s, es)
    ensures var t := Run(c, s, es);
            && t.running == {Correction} && t.sh.active == Some(Correction) && t.sh.mode == CalibrationMode
            && t.sh.core.calibrating && t.sh.core.state == s.sh.core.state && !t.sh.teardownDone && t.run == s.run + 1
            && t.sh.sequencer.phase.Moving? && t.sh.sequencer.idx == 0 && t.sh.sequencer.goalPending
            && t.command.Rest? && t.worker == s.worker
  {
    hide Run, CanAll, Cal.Sane, Cal.StartOf, SS.CalibrationAccepted;
    var switch := !(Correction in s.running && Compliance !in s.running);
    es := [BeginCalibration(h), Queried(CommandThread, true)]
          + (if switch then [SwitchCalled(CommandThread, true)] else []) + [Decided(CommandThread, h)];
    var u := Do(c, s, es[0]);
    var v := Do(c, u, es[1]);
    var w := if switch then Do(c, v, es[2]) else v;
    assert u.sh == s.sh.(core := s.sh.core.(calibrating := true));
    assert u.command == Query(Some(Correction), Some(Compliance), ThenCalibrate);
    assert w.command == Decide(true, ThenCalibrate) && w.sh == u.sh;
    OneController(w.running, Correction);
    CalibrationDecided(c, w, h);
    hide Do;
    StartPath(c, s, es, u, v, w);
  }

  lemma CalibrationDecided(c: Config, s: Sys, h: SS.Health)
    requires Cal.Sane(c.cal, s.sh.sequencer) && s.command == Decide(true, ThenCalibrate)
    requires Cal.StartAccepted(c.cal, s.sh.sequencer)
    ensures var q := Cal.StartOf(c.cal, s.sh.sequencer);
            && Do(c, s, Decided(CommandThread, h)) ==
                 s.(command := Rest, run := s.run + 1,
                    sh := s.sh.(sequencer := q, teardownDone := false, mode := CalibrationMode,
                                active := Some(Correction)))
            && q.phase.Moving? && q.idx == 0 && q.goalPending
  {
  }

  /** A stop that is accepted takes the active controller down, and leaves the manager idle. */
  lemma StopServoStops(c: Config, s: Sys, x: Controller, h: SS.Health) returns (es: seq<Event>)
    requires c.hasQuery && ControllerInv(s) && Cal.Sane(c.cal, s.sh.sequencer)
    requires Can(s, StopServo) && s.sh.active == Some(x)
    ensures CanAll(c, s, es)
    ensures var t := Run(c, s, es);
            && t.running == s.running - {x} && t.sh.active.None? && t.sh.mode == IdleMode && !t.sh.core.servo
            && t.sh.core.state == s.sh.core.state && t.command.Rest? && t.worker == s.worker
            && t.sh.sequencer == s.sh.sequencer
  {
    hide Run, CanAll, Cal.Sane;
    var switch := x in s.running;
    es := [StopServo, Queried(CommandThread, true)] + (if switch then [SwitchCalled(CommandThread, true)] else [])
          + [Decided(CommandThread, h)];
    var u := Do(c, s, es[0]);
    var v := Do(c, u, es[1]);
    var w := if switch then Do(c, v, es[2]) else v;
    StartPath(c, s, es, u, v, w);
    assert !switch ==> s.running - {x} == s.running;
  }

  /**
   * A finished calibration is torn down at the next tick: a DONE one with an ok fit has its payload applied, no other
   * has; the correction controller is taken down, and the manager is idle.
   */
  lemma TeardownFinishes(c: Config, s: Sys, h: SS.Health, now: real) returns (es: seq<Event>)
    requires c.hasQuery && Cal.Sane(c.cal, s.sh.sequencer) && s.worker.Rest?
    requires TornDown(s.sh.sequencer) && !s.sh.teardownDone && !s.sh.sequencer.goalPending
    ensures CanAll(c, s, es)
    ensures var t, q := Run(c, s, es), s.sh.sequencer;
            && t.applied == s.applied + (if q.phase.Done? && q.fit.ok then [Applied(s.run, q.fit)] else [])
            && t.running == s.running - {Correction} && t.sh.active.None? && t.sh.mode == IdleMode
            && !t.sh.core.calibrating && t.sh.teardownDone && t.worker.Rest? && t.command == s.command
            && t.sh.sequencer == q
  {
    hide Run, CanAll, SS.UpdateOf;
    var switch := Correction in s.running;
    var tick, query := WorkerTick(h, now), Queried(WorkerThread, true);
    var call, decide := SwitchCalled(WorkerThread, true), Decided(WorkerThread, h);
    var a := Do(c, s, tick);
    var b := Do(c, a, WorkerApplies);
    var d := Do(c, b, query);
    var f := if switch then Do(c, d, call) else d;
    var t := Do(c, f, decide);
    assert !switch ==> s.running - {Correction} == s.running;
    hide Do, Can, Cal.Sane;
    RunOne(c, f, decide);
    es := [decide];
    if switch {
      ManagerServo.RunFirst(c, d, call, es);
      es := [call] + es;
    }
    ManagerServo.RunFirst(c, b, query, es);
    es := [query] + es;
    ManagerServo.RunFirst(c, a, WorkerApplies, es);
    es := [WorkerApplies] + es;
    ManagerServo.RunFirst(c, s, tick, es);
    es := [tick] + es;
  }

  /** What is started does not run yet, and what is stopped runs. */
  predicate Fits(running: set<Controller>, start: Option<Controller>, stop: Option<Controller>) {
    (start.Some? ==> start.value !in running) && (stop.Some? ==> stop.value in running)
  }

  /**
   * STRICT refuses a request as a whole if it starts what runs or stops what does not; without the listing hook such a
   * request goes out as it is, and fails.
   */
  lemma UnfilteredIsRefused(c: Config, s: Sys, who: Thread)
    requires !c.hasQuery && Cal.Sane(c.cal, s.sh.sequencer) && Can(s, Queried(who, true))
    ensures var pc, t := PcOf(s, who), Do(c, s, Queried(who, true));
            && Can(t, SwitchCalled(who, true))
            && var u := Do(c, t, SwitchCalled(who, true));
               var fits := Fits(s.running, pc.start, pc.stop);
               PcOf(u, who) == Decide(fits, pc.next) && (!fits ==> u.running == s.running)
  {
  }
}
