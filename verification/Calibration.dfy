/** The calibration sequencer: poses one after another, a mean per pose, a fit, and a return move. */
module Calibration {
  import opened Types

  datatype Pose = Pose(a: real, b: real, c: real)

  /** One averaged wrench at a goal orientation. */
  datatype Sample = Sample(pose: Pose, mean: Wrench)

  datatype Fit = Fit(ok: bool, payload: Payload)
  const NO_FIT := Fit(false, Payload(0.0, 0.0, 0.0, 0.0, ZERO))

  /** `solve` is the payload estimator. */
  datatype Config = Config(poses: seq<Pose>, returnPose: Pose, settleTime: real, samplesPerPose: int,
                           solve: seq<Sample> -> Fit)

  datatype Phase = Idle | Moving | Settling | Sampling | Returning | Done | Failed
  datatype Failure = NoFailure | MoveFailed | SolveFailed | StreamLost | Cancelled

  datatype Seq = Seq(phase: Phase, failure: Failure, idx: nat, goalPending: bool, settleStart: real, count: nat,
                     accum: Wrench, returnOk: bool, samples: seq<Sample>, fit: Fit)
  const NEW_SEQ := Seq(Idle, NoFailure, 0, false, 0.0, 0, ZERO, true, [], NO_FIT)

  predicate Active(s: Seq) { s.phase.Moving? || s.phase.Settling? || s.phase.Sampling? || s.phase.Returning? }

  /** What the sequencer relies on between calls. */
  predicate Sane(c: Config, s: Seq) {
    && (Active(s) ==> c.samplesPerPose > 0)
    && (Active(s) || s.goalPending ==> s.idx < |c.poses|)
  }

  function FailOf(s: Seq, f: Failure): Seq {
    if Active(s) then s.(phase := Failed, failure := f, goalPending := false) else s
  }

  predicate StartAccepted(c: Config, s: Seq) { !Active(s) && c.poses != [] && c.samplesPerPose > 0 }

  function StartOf(c: Config, s: Seq): Seq {
    if !StartAccepted(c, s) then s
    else s.(samples := [], fit := NO_FIT, failure := NoFailure, idx := 0, count := 0, accum := ZERO, returnOk := true,
            phase := Moving, goalPending := true)
  }

  function SettleOf(c: Config, s: Seq, now: real): Seq {
    if s.phase.Settling? && now - s.settleStart >= c.settleTime
    then s.(phase := Sampling, count := 0, accum := ZERO) else s
  }

  function TickOf(c: Config, s: Seq, now: real): (Seq, Option<Pose>)
    requires Sane(c, s)
  {
    var s := SettleOf(c, s, now);
    if s.goalPending
    then (s.(goalPending := false), Some(if s.phase.Returning? then c.returnPose else c.poses[s.idx]))
    else (s, None)
  }

  function ResultOf(s: Seq, success: bool, now: real): Seq {
    if s.phase.Moving? then
      if success then s.(phase := Settling, settleStart := now) else FailOf(s, MoveFailed)
    else if s.phase.Returning? then s.(returnOk := success, phase := Done)
    else s
  }

  function WrenchOf(c: Config, s: Seq, w: Wrench): Seq
    requires Sane(c, s)
  {
    if !s.phase.Sampling? then s
    else
      var s := s.(accum := Add(s.accum, w), count := s.count + 1);
      if s.count < c.samplesPerPose then s
      else
        var s := s.(samples := s.samples + [Sample(c.poses[s.idx], Over(s.accum, c.samplesPerPose))]);
        if s.idx + 1 < |c.poses| then s.(idx := s.idx + 1, phase := Moving, goalPending := true)
        else
          var s := s.(fit := c.solve(s.samples));
          if !s.fit.ok then FailOf(s, SolveFailed) else s.(phase := Returning, goalPending := true)
  }

  class CalibrationSequencer {
    const cfg: Config
    var phase: Phase
    var failure: Failure
    var idx: nat
    var goalPending: bool
    var settleStart: real
    var sampleCount: nat
    var accum: Wrench
    var returnOk: bool
    var estimator: seq<Sample>
    var fit: Fit

    ghost function View(): Seq
      reads this
    {
      Seq(phase, failure, idx, goalPending, settleStart, sampleCount, accum, returnOk, estimator, fit)
    }

    constructor (cfg: Config)
      ensures View() == NEW_SEQ && this.cfg == cfg
    {
      this.cfg := cfg;
      phase, failure, idx, goalPending, settleStart := Idle, NoFailure, 0, false, 0.0;
      sampleCount, accum, returnOk, estimator, fit := 0, ZERO, true, [], NO_FIT;
    }

    predicate IsActive()
      reads this
    {
      phase.Moving? || phase.Settling? || phase.Sampling? || phase.Returning?
    }

    method Fail(f: Failure)
      modifies this
      ensures View() == FailOf(old(View()), f)
    {
      if !IsActive() { return; }
      phase := Failed;
      failure := f;
      goalPending := false;
    }

    method Start() returns (started: bool)
      modifies this
      ensures View() == StartOf(cfg, old(View())) && started == StartAccepted(cfg, old(View()))
    {
      if IsActive() { return false; }
      if cfg.poses == [] || cfg.samplesPerPose <= 0 { return false; }
      estimator := [];
      fit := NO_FIT;
      failure := NoFailure;
      idx := 0;
      sampleCount := 0;
      accum := ZERO;
      returnOk := true;
      phase := Moving;
      goalPending := true;
      return true;
    }

    method Tick(now: real) returns (goal: Option<Pose>)
      requires Sane(cfg, View())
      modifies this
      ensures (View(), goal) == TickOf(cfg, old(View()), now)
    {
      if phase.Settling? && now - settleStart >= cfg.settleTime {
        phase := Sampling;
        sampleCount := 0;
        accum := ZERO;
      }
      goal := None;
      if goalPending {
        goal := Some(if phase.Returning? then cfg.returnPose else cfg.poses[idx]);
        goalPending := false;
      }
    }

    method OnMotionResult(success: bool, now: real)
      modifies this
      ensures View() == ResultOf(old(View()), success, now)
    {
      if phase.Moving? {
        if !success {
          Fail(MoveFailed);
          return;
        }
        phase := Settling;
        settleStart := now;
      } else if phase.Returning? {
        returnOk := success;
        phase := Done;
      }
    }

    method OnWrench(w: Wrench)
      requires Sane(cfg, View())
      modifies this
      ensures View() == WrenchOf(cfg, old(View()), w)
    {
      if !phase.Sampling? { return; }
      accum := Add(accum, w);
      sampleCount := sampleCount + 1;
      if sampleCount < cfg.samplesPerPose { return; }
      var mean := Over(accum, cfg.samplesPerPose);
      estimator := estimator + [Sample(cfg.poses[idx], mean)];
      if idx + 1 < |cfg.poses| {
        idx := idx + 1;
        phase := Moving;
        goalPending := true;
        return;
      }
      fit := cfg.solve(estimator);
      if !fit.ok {
        Fail(SolveFailed);
        return;
      }
      phase := Returning;
      goalPending := true;
    }
  }
}
