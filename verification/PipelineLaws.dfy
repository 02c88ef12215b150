/**
 * The stages around the admittance law: a fresh start, stops, the tare, the limiter, and the embedded motion goal, each
 * as the whole control cycle shows it.
 */
module PipelineLaws {
  import opened RealMath
  import opened Types
  import opened Geometry
  import opened PayloadModel
  import opened Motion
  import opened Compliance
  import opened ComplianceLaws
  import opened AdmittanceLaws
  import opened FrameLaws
  import opened YieldLaws

  // ----- A start remembers nothing -----

  function Started(lib: Library, p: Params, c: Core, start: Abc, tool: Abc, mount: Abc): Core {
    ActivateOf(lib, p, ConfigureOf(p, c), start, tool, mount)
  }

  /**
   * Configured and activated, the controller is the same whatever it did before, but for the values of a motion goal
   * that is cancelled. It ramps exactly with the adaptive deadband; otherwise the fixed deadbands hold at once.
   */
  lemma StartForgets(lib: Library, p: Params, c: Core, c': Core, start: Abc, tool: Abc, mount: Abc)
    ensures var a, b := Started(lib, p, c, start, tool, mount), Started(lib, p, c', start, tool, mount);
            && a == b.(motion := a.motion) && a.motion.status == Inactive && b.motion.status == Inactive
            && a.payload == p.payload && a.prev == STILL && !a.armed && a.ref == start
            && (a.ramp.active <==> p.adaptive)
            && (!p.adaptive ==> a.forceDeadband == p.fixedForceDeadband && a.torqueDeadband == p.fixedTorqueDeadband)
            && forall w :: Passes(a.filter, p.cutoff, w)
  {
    hide TcpFromSensor;
  }

  /** A change of profile forgets everything but the frame, the reference, and the values of a goal that it cancels. */
  lemma ConfigureForgets(lib: Library, p: Params, c: Core, c': Core)
    ensures var a, b := ConfigureOf(p, c), ConfigureOf(p, c');
            && a == b.(frame := c.frame, ref := c.ref, motion := c.motion.(status := Inactive))
            && !a.armed && !a.ramp.active && a.prev == STILL
  {
  }

  /** An activation alone: the filter starts again with the next sample, the law at rest, and no tare is armed. */
  lemma ActivationStartsAgain(lib: Library, p: Params, c: Core, start: Abc, tool: Abc, mount: Abc)
    ensures var a := ActivateOf(lib, p, c, start, tool, mount);
            && (forall w :: Passes(a.filter, p.cutoff, w)) && a.prev == STILL && !a.armed && a.ref == start
            && a.motion.status == Inactive && a.payload == c.payload
  {
    hide TcpFromSensor;
  }

  // ----- Stops -----

  /** The wrench of this cycle is missing or too old. */
  predicate Stale(p: Params, i: Input) { !i.valid || i.age > p.wrenchTimeout }

  /** A norm above its ceiling; a negative ceiling is always exceeded. */
  predicate Above(lib: Library, w: Wrench, p: Safety) {
    ForceNorm(lib, w) > p.forceCeiling || TorqueNorm(lib, w) > p.torqueCeiling
  }

  lemma RootExceeds(root: real, square: real, ceiling: real)
    requires root >= 0.0 && root * root == square
    ensures Exceeds(square, ceiling) <==> root > ceiling
  {
    if ceiling >= 0.0 {
      if root > ceiling { Bigger(ceiling, root); }
      if root <= ceiling { SquareAtMost(root, ceiling); }
    }
  }

  lemma Bigger(a: real, b: real)
    requires 0.0 <= a < b
    ensures a * a < b * b
  {
    assert b * b - a * a == (b - a) * (b + a);
    ProductPositive(b - a, b + a);
  }

  lemma AboveIff(lib: Library, w: Wrench, p: Safety)
    requires Sound(lib)
    ensures Above(lib, w, p) <==> OverCeiling(w, p)
  {
    hide Exceeds, ForceSquare, TorqueSquare;
    ForceSquareIs(w);
    NormIs(lib, Force(w), ForceSquare(w));
    NormIs(lib, Torque(w), TorqueSquare(w));
    RootExceeds(ForceNorm(lib, w), ForceSquare(w), p.forceCeiling);
    RootExceeds(TorqueNorm(lib, w), TorqueSquare(w), p.torqueCeiling);
  }

  /**
   * A cycle times out exactly without a current wrench; otherwise it is cut off exactly when the compensated wrench is
   * above a ceiling. Either way nothing is put out. A cycle that stopped for one of these reasons while it complied
   * leaves the law at rest.
   */
  lemma StopsIff(lib: Library, p: Params, c: Core, i: Input, dt: real)
    requires Sound(lib) && Limits(p) && dt >= 0.0 && Slow(c.prev, p.law)
    ensures var (d, o) := PipelineOf(lib, p, c, i, dt);
            && (o.timedOut <==> Stale(p, i))
            && (!o.timedOut ==> (o.hardCutoff <==> Above(lib, o.compensated, p.safety)))
            && (o.timedOut || o.hardCutoff ==> o.correction == NO_CORRECTION && !o.saturated)
            && (o.timedOut || (o.hardCutoff && !o.rampActive) ==> d.prev == STILL)
            && (o.rampActive <==> !Stale(p, i) && c.ramp.active)
  {
    hide Rotated, Mul, CompensateOf, FilterOf, AngularDistance, ForceNorm, TorqueNorm, RampUpdateOf, ToolToBase;
    hide VelocitiesOf, UpdateOf, OverCeiling, Sound, Slow, Times6, SensorToTool, LawOf, Sum, Exceeds, WithinLimits;
    var (d, o) := PipelineOf(lib, p, c, i, dt);
    CycleIsSafe(lib, p, c, i, dt);
    AboveIff(lib, o.compensated, p.safety);
  }

  /** From rest, a cycle of the law moves no axis faster than its acceleration limit allows in that time. */
  lemma RestartsSlowly(w: Wrench, l: Law, dt: real)
    requires l.translation.maxSpeed >= 0.0 && l.rotation.maxSpeed >= 0.0 && dt >= 0.0
    ensures var v := VelocitiesOf(STILL, w, l, dt);
            && (l.translation.maxAccel > 0.0 ==> Cube(Shift(v), l.translation.maxAccel * dt))
            && (l.rotation.maxAccel > 0.0 ==> Cube(Turn(v), l.rotation.maxAccel * dt))
  {
    ShiftRestarts(w, l, dt, l.translation.maxAccel * dt);
    TurnRestarts(w, l, dt, l.rotation.maxAccel * dt);
    hide VelocitiesOf, Cube;
  }

  lemma ShiftRestarts(w: Wrench, l: Law, dt: real, step: real)
    requires l.translation.maxSpeed >= 0.0 && dt >= 0.0 && step == l.translation.maxAccel * dt
    ensures l.translation.maxAccel > 0.0 ==> Cube(Shift(VelocitiesOf(STILL, w, l, dt)), step)
  {
    hide AxisVelocity, Small;
    AxisRestarts(w.fx, l.translation, l.scale, dt, step);
    AxisRestarts(w.fy, l.translation, l.scale, dt, step);
    AxisRestarts(w.fz, l.translation, l.scale, dt, step);
  }

  lemma TurnRestarts(w: Wrench, l: Law, dt: real, step: real)
    requires l.rotation.maxSpeed >= 0.0 && dt >= 0.0 && step == l.rotation.maxAccel * dt
    ensures l.rotation.maxAccel > 0.0 ==> Cube(Turn(VelocitiesOf(STILL, w, l, dt)), step)
  {
    hide AxisVelocity, Small;
    AxisRestarts(w.tz, l.rotation, l.scale, dt, step);
    AxisRestarts(w.ty, l.rotation, l.scale, dt, step);
    AxisRestarts(w.tx, l.rotation, l.scale, dt, step);
  }

  lemma AxisRestarts(f: real, g: AxisGroup, scale: real, dt: real, step: real)
    requires g.maxSpeed >= 0.0 && dt >= 0.0 && step == g.maxAccel * dt
    ensures g.maxAccel > 0.0 ==> Small(AxisVelocity(f, g, scale, dt, 0.0), step)
  {
    hide AxisVelocity;
    AxisKeepsLimits(f, g, scale, dt, 0.0);
  }

  // ----- The limiter -----

  /** The nearest value within a limit. */
  predicate Nearest(r: real, x: real, limit: real) {
    if x > limit then r == limit else if x < -limit then r == -limit else r == x
  }

  /** Above a ceiling nothing; otherwise every component at its nearest within the limits, and told if one changes. */
  lemma LimiterMeans(lib: Library, r: Correction, w: Wrench, p: Safety)
    requires Sound(lib) && p.maxTrans >= 0.0 && p.maxRot >= 0.0
    ensures var l := LimitOf(r, w, p); var c := l.correction;
            && (l.hardCutoff <==> Above(lib, w, p))
            && (l.hardCutoff ==> c == NO_CORRECTION && !l.saturated)
            && (!l.hardCutoff ==>
                  && Nearest(c.x, r.x, p.maxTrans) && Nearest(c.y, r.y, p.maxTrans) && Nearest(c.z, r.z, p.maxTrans)
                  && Nearest(c.turn.a, r.turn.a, p.maxRot) && Nearest(c.turn.b, r.turn.b, p.maxRot)
                  && Nearest(c.turn.c, r.turn.c, p.maxRot) && (l.saturated <==> c != r))
  {
    AboveIff(lib, w, p);
    hide Exceeds, ForceSquare, TorqueSquare, Above, Sound;
  }

  // ----- The tare -----

  /** What the controller feels before it tares. */
  function Felt(lib: Library, p: Params, c: Core, i: Input, dt: real): Wrench
    requires dt >= 0.0
  {
    SensedOf(lib, p, c, i, dt).2
  }

  /**
   * A cycle tares exactly when taring is enabled, the ramp is over, the tool has been away or is, it is back within the
   * tolerance of the reference, and what is felt is below both deadbands.
   */
  lemma TaresIff(lib: Library, p: Params, c: Core, i: Input, dt: real)
    requires dt >= 0.0
    ensures var (d, o) := PipelineOf(lib, p, c, i, dt); var w := Felt(lib, p, c, i, dt);
            o.tared <==>
              && !Stale(p, i) && !c.ramp.active && p.retare.enabled && (c.armed || Away(lib, p, c.ref, i.pose))
              && AngularDistance(lib, Rotated(lib, c.ref), Rotated(lib, i.pose)) <= p.retare.tolerance
              && ForceNorm(lib, w) < c.forceDeadband && TorqueNorm(lib, w) < c.torqueDeadband
  {
    hide Rotated, Mul, CompensateOf, FilterOf, AngularDistance, ForceNorm, TorqueNorm, RampUpdateOf, ToolToBase;
    hide VelocitiesOf, LimitOf, UpdateOf;
  }

  /** A tare lasts: the same wrench at the same pose, filtered again to itself, is felt as nothing from then on. */
  lemma TareLasts(lib: Library, p: Params, c: Core, i: Input, j: Input, dt: real, dt': real)
    requires dt >= 0.0 && dt' >= 0.0 && PipelineOf(lib, p, c, i, dt).1.tared && j.pose == i.pose
    requires j.raw == FilterOf(c.filter, p.cutoff, i.raw, dt).1
    ensures var d := PipelineOf(lib, p, c, i, dt).0; Felt(lib, p, d, j, dt') == ZERO
  {
    hide Rotated, Mul, CompensateOf, FilterOf, AngularDistance, ForceNorm, TorqueNorm, RampUpdateOf, ToolToBase;
    hide VelocitiesOf, LimitOf, UpdateOf, Passes;
    var (c1, filtered, w) := SensedOf(lib, p, c, i, dt);
    AbsorbedIsZero(c1.payload, filtered, Mul(Rotated(lib, i.pose), c1.frame));
    FilterHolds(c.filter, p.cutoff, i.raw, dt);
    PassesOn(c1.filter, p.cutoff, filtered, dt');
  }

  /** The filter passes on what it put out itself. */
  lemma FilterHolds(f: Filter, cutoff: real, w: Wrench, dt: real)
    requires dt >= 0.0
    ensures var (g, out) := FilterOf(f, cutoff, w, dt); Passes(g, cutoff, out)
  {
    hide Blend;
  }

  // ----- The embedded motion goal -----

  /**
   * An output that is neither cut off nor saturated is the law's correction in the base frame plus, in its turn, that
   * of the motion goal, which goes on by one update.
   */
  lemma GoalIsAdded(lib: Library, p: Params, c: Core, pose: Abc, w: Wrench, tared: bool, dt: real)
    ensures var (d, o) := ComplyOf(lib, p, c, pose, w, tared, dt); var base := BaseStep(lib, p, c, pose, w, dt);
            var (m, turn) := UpdateOf(c.motion, Angles(pose.a, pose.b, pose.c), dt);
            && d.motion == m
            && (!o.hardCutoff && !o.saturated ==>
                  && o.correction.x == base.x && o.correction.y == base.y && o.correction.z == base.z
                  && o.correction.turn.a == base.a + turn.a && o.correction.turn.b == base.b + turn.b
                  && o.correction.turn.c == base.c + turn.c)
  {
    hide Rotated, ToolToBase, VelocitiesOf, Times6, SensorToTool, UpdateOf, Exceeds, Clamp;
  }

  /** Toward the goal by the short way, in proportion to the error up to a speed. */
  predicate Steers(turn: real, error: real, g: Goal, dt: real) {
    && (error >= 0.0 ==> turn == Min(g.gain * error, g.maxSpeed) * dt)
    && (error <= 0.0 ==> turn == -(Min(g.gain * -error, g.maxSpeed) * dt))
  }

  lemma ShapeSteers(g: Goal, e: real, dt: real)
    requires g.gain >= 0.0 && g.maxSpeed >= 0.0
    ensures Steers(Shape(g, e, dt), e, g, dt)
  {
    if e >= 0.0 {
      NotNegative(g.gain, e);
    }
    if e <= 0.0 {
      NotNegative(g.gain, -e);
      assert g.gain * -e == -(g.gain * e);
      var v := Min(g.gain * -e, g.maxSpeed);
      assert Clamp(g.gain * e, g.maxSpeed) == -v;
      assert -v * dt == -(v * dt);
    }
  }

  /** A goal turns the robot only while it keeps running, and then every axis toward the goal. */
  lemma TurnsWhileRunning(m: Motion, s: Angles, dt: real)
    requires m.goal.gain >= 0.0 && m.goal.maxSpeed >= 0.0
    ensures var (t, turn) := UpdateOf(m, s, dt); var g := m.goal;
            && t.goal == g && (t.status != Running ==> turn == NO_TURN)
            && (t.status == Running ==>
                  && m.status == Running && Steers(turn.a, WrapDeg(g.a - s.a), g, dt)
                  && Steers(turn.b, WrapDeg(g.b - s.b), g, dt) && Steers(turn.c, WrapDeg(g.c - s.c), g, dt))
            && (m.status != Running ==> t == m)
  {
    hide Shape, WrapDeg, Steers, Abs;
    ShapeSteers(m.goal, WrapDeg(m.goal.a - s.a), dt);
    ShapeSteers(m.goal, WrapDeg(m.goal.b - s.b), dt);
    ShapeSteers(m.goal, WrapDeg(m.goal.c - s.c), dt);
  }
}
