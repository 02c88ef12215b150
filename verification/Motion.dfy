/** Goal-seeking orientation corrections, their safety limit, and the direct correction controller. */
module Motion {
  import opened RealMath
  import opened Types

  // ----- Angle wrap -----

  function Fmod(x: real, y: real): real
    requires y > 0.0
  {
    x - Trunc(x / y) as real * y
  }

  function WrapDeg(deg: real): real {
    var d := Fmod(deg + 180.0, 360.0);
    (if d < 0.0 then d + 360.0 else d) - 180.0
  }

  function Turns(k: int): real { 360.0 * k as real }

  /** The wrapped angle is the only one in [-180, 180) that differs by whole turns. */
  lemma WrapMeans(d: real)
    ensures -180.0 <= WrapDeg(d) < 180.0
    ensures exists k: int :: d - WrapDeg(d) == Turns(k)
  {
    var q := (d + 180.0) / 360.0;
    var t := Trunc(q);
    var k := if d + 180.0 - t as real * 360.0 < 0.0 then t - 1 else t;
    assert d - WrapDeg(d) == Turns(k);
  }

  lemma WrapIs(d: real, w: real, k: int)
    requires -180.0 <= w < 180.0 && d - w == Turns(k)
    ensures WrapDeg(d) == w
  {
    WrapMeans(d);
    var j: int :| d - WrapDeg(d) == Turns(j);
    assert 360.0 * (k as real - j as real) == WrapDeg(d) - w;
    assert k == j;
  }

  // ----- The motion core -----

  datatype Goal = Goal(a: real, b: real, c: real, maxSpeed: real, gain: real, tol: real, hold: real, timeout: real)
  datatype Status = Inactive | Running | Converged | TimedOut
  datatype Angles = Angles(a: real, b: real, c: real)
  const NO_TURN := Angles(0.0, 0.0, 0.0)

  datatype Motion = Motion(goal: Goal, status: Status, elapsed: real, held: real)

  function SetGoalOf(g: Goal): Motion { Motion(g, Running, 0.0, 0.0) }

  function Shape(g: Goal, e: real, dt: real): real { Clamp(g.gain * e, g.maxSpeed) * dt }

  function ErrorOf(g: Goal, s: Angles): Angles {
    Angles(WrapDeg(g.a - s.a), WrapDeg(g.b - s.b), WrapDeg(g.c - s.c))
  }

  predicate InTolerance(g: Goal, e: Angles) { Abs(e.a) < g.tol && Abs(e.b) < g.tol && Abs(e.c) < g.tol }

  function UpdateOf(m: Motion, s: Angles, dt: real): (Motion, Angles) {
    if m.status != Running then (m, NO_TURN)
    else
      var m := m.(elapsed := m.elapsed + dt);
      if m.elapsed > m.goal.timeout then (m.(status := TimedOut), NO_TURN)
      else
        var e := ErrorOf(m.goal, s);
        var m := m.(held := if InTolerance(m.goal, e) then m.held + dt else 0.0);
        if InTolerance(m.goal, e) && m.held >= m.goal.hold then (m.(status := Converged), NO_TURN)
        else (m, Angles(Shape(m.goal, e.a, dt), Shape(m.goal, e.b, dt), Shape(m.goal, e.c, dt)))
  }

  class OrientationMotionCore {
    var goal: Goal
    var status: Status
    var elapsed: real
    var held: real

    ghost function View(): Motion
      reads this
    {
      Motion(goal, status, elapsed, held)
    }

    constructor (g: Goal)
      ensures View() == Motion(g, Inactive, 0.0, 0.0)
    {
      goal, status, elapsed, held := g, Inactive, 0.0, 0.0;
    }

    method SetGoal(g: Goal)
      modifies this
      ensures View() == SetGoalOf(g)
    {
      goal := g;
      status := Running;
      elapsed := 0.0;
      held := 0.0;
    }

    method Cancel()
      modifies this
      ensures View() == old(View()).(status := Inactive)
    {
      status := Inactive;
    }

    method Update(s: Angles, dt: real) returns (out: Angles)
      modifies this
      ensures (View(), out) == UpdateOf(old(View()), s, dt)
    {
      out := NO_TURN;
      if status != Running { return; }
      elapsed := elapsed + dt;
      if elapsed > goal.timeout {
        status := TimedOut;
        return;
      }
      var e := ErrorOf(goal, s);
      if InTolerance(goal, e) {
        held := held + dt;
        if held >= goal.hold {
          status := Converged;
          return;
        }
      } else {
        held := 0.0;
      }
      out := Angles(Shape(goal, e.a, dt), Shape(goal, e.b, dt), Shape(goal, e.c, dt));
    }
  }

  // ----- The safety limiter -----

  datatype Correction = Correction(x: real, y: real, z: real, turn: Angles)
  const NO_CORRECTION := Correction(0.0, 0.0, 0.0, NO_TURN)

  datatype Safety = Safety(maxTrans: real, maxRot: real, forceCeiling: real, torqueCeiling: real)
  datatype Limited = Limited(correction: Correction, hardCutoff: bool, saturated: bool)

  /** A norm above a ceiling, stated on the square of the norm. */
  predicate Exceeds(square: real, ceiling: real) { ceiling < 0.0 || square > ceiling * ceiling }

  function LimitOf(r: Correction, w: Wrench, p: Safety): Limited {
    if Exceeds(ForceSquare(w), p.forceCeiling) || Exceeds(TorqueSquare(w), p.torqueCeiling)
    then Limited(NO_CORRECTION, true, false)
    else
      var c := Correction(Clamp(r.x, p.maxTrans), Clamp(r.y, p.maxTrans), Clamp(r.z, p.maxTrans),
                          Angles(Clamp(r.turn.a, p.maxRot), Clamp(r.turn.b, p.maxRot), Clamp(r.turn.c, p.maxRot)));
      Limited(c, false, c != r)
  }

  /** The per-cycle limits. */
  predicate WithinLimits(c: Correction, p: Safety) {
    && Abs(c.x) <= p.maxTrans && Abs(c.y) <= p.maxTrans && Abs(c.z) <= p.maxTrans
    && Abs(c.turn.a) <= p.maxRot && Abs(c.turn.b) <= p.maxRot && Abs(c.turn.c) <= p.maxRot
  }

  // ----- The direct correction controller -----

  datatype Stream = Stream(correction: Correction, stamp: real, valid: bool)
  const NO_STREAM := Stream(NO_CORRECTION, 0.0, false)

  datatype DirectParams = DirectParams(streamTimeout: real, safety: Safety)
  datatype Direct = Direct(motion: Motion, stream: Stream)
  datatype DirectOut = DirectOut(correction: Correction, goalActive: bool, streamStale: bool, saturated: bool)

  function DirectUpdateOf(p: DirectParams, d: Direct, s: Angles, now: real, dt: real): (Direct, DirectOut) {
    var running := d.motion.status == Running;
    var (motion, turn) := UpdateOf(d.motion, s, dt);
    var live := d.stream.valid && now - d.stream.stamp <= p.streamTimeout;
    var raw := if running then Correction(0.0, 0.0, 0.0, turn) else if live then d.stream.correction else NO_CORRECTION;
    var r := LimitOf(raw, ZERO, p.safety);
    (d.(motion := motion), DirectOut(r.correction, running, !running && !live, r.saturated))
  }

  class DirectCorrectionCore {
    const params: DirectParams
    const motion: OrientationMotionCore
    var stream: Stream

    ghost function View(): Direct
      reads this, motion
    {
      Direct(motion.View(), stream)
    }

    constructor (params: DirectParams, g: Goal)
      ensures View() == Direct(Motion(g, Inactive, 0.0, 0.0), NO_STREAM) && this.params == params && fresh(motion)
    {
      this.params := params;
      motion := new OrientationMotionCore(g);
      stream := NO_STREAM;
    }

    method Reset()
      modifies this, motion
      ensures View() == Direct(old(motion.View()).(status := Inactive), NO_STREAM)
    {
      stream := NO_STREAM;
      motion.Cancel();
    }

    method StartGoal(g: Goal)
      modifies motion
      ensures View() == old(View()).(motion := SetGoalOf(g))
    {
      motion.SetGoal(g);
    }

    method Update(s: Angles, now: real, dt: real) returns (out: DirectOut)
      modifies motion
      ensures (View(), out) == DirectUpdateOf(params, old(View()), s, now, dt)
    {
      var raw, goalActive, streamStale := NO_CORRECTION, false, false;
      if motion.status == Running {
        var turn := motion.Update(s, dt);
        raw := Correction(0.0, 0.0, 0.0, turn);
        goalActive := true;
      } else if stream.valid && now - stream.stamp <= params.streamTimeout {
        raw := stream.correction;
      } else {
        streamStale := true;
      }
      var r := LimitOf(raw, ZERO, params.safety);
      out := DirectOut(r.correction, goalActive, streamStale, r.saturated);
    }
  }
}
