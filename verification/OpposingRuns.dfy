/**
 * Where the force compliance output moves against the force: a saturated output, and a run of the shipped drag profile
 * in which the acceleration limit is still taking back the velocity of an earlier push.
 */
module OpposingRuns {
  import opened RealMath
  import opened Types
  import opened Geometry
  import opened PayloadModel
  import opened Motion
  import opened Compliance
  import opened ComplianceLaws
  import opened AdmittanceLaws
  import opened YieldLaws

  // ----- A saturated output that works against the force -----

  /** A pose of A = -asin(9/41), B = asin(9/41), C = 0: about -12.68, 12.68 and 0 degrees. */
  predicate Tilted(lib: Library, pose: Abc) {
    var a, b, c := DegToRad(pose.a), DegToRad(pose.b), DegToRad(pose.c);
    && lib.sin(a) == -9.0 / 41.0 && lib.cos(a) == 40.0 / 41.0 && lib.sin(b) == 9.0 / 41.0 && lib.cos(b) == 40.0 / 41.0
    && lib.sin(c) == 0.0 && lib.cos(c) == 1.0
  }

  const TURNED := Mat(Vec(1600.0 / 1681.0, 9.0 / 41.0, 360.0 / 1681.0),
                      Vec(-360.0 / 1681.0, 40.0 / 41.0, -81.0 / 1681.0),
                      Vec(-9.0 / 41.0, 0.0, 40.0 / 41.0))

  lemma IdentityLast(m: Mat)
    ensures Mul(m, IDENTITY) == m
  {
  }

  lemma YawAndPitch(sa: real, ca: real, sb: real, cb: real)
    ensures Mul(Rz(sa, ca), Ry(sb, cb)) == Mat(Vec(ca * cb, -sa, ca * sb), Vec(sa * cb, ca, sa * sb), Vec(-sb, 0.0, cb))
  {
    hide Apply, Transpose;
    PitchRow(ca, -sa, 0.0, sb, cb);
    PitchRow(sa, ca, 0.0, sb, cb);
    PitchRow(0.0, 0.0, 1.0, sb, cb);
    assert 0.0 * sb == 0.0 == 0.0 * cb;
  }

  lemma PitchRow(x: real, y: real, z: real, sb: real, cb: real)
    ensures Apply(Transpose(Ry(sb, cb)), Vec(x, y, z)) == Vec(x * cb - z * sb, y, x * sb + z * cb)
  {
  }

  lemma WithoutRoll(sa: real, ca: real, sb: real, cb: real)
    ensures Mul(Mul(Rz(sa, ca), Ry(sb, cb)), Rx(0.0, 1.0)) ==
              Mat(Vec(ca * cb, -sa, ca * sb), Vec(sa * cb, ca, sa * sb), Vec(-sb, 0.0, cb))
  {
    hide Mul;
    assert Rx(0.0, 1.0) == IDENTITY;
    YawAndPitch(sa, ca, sb, cb);
    IdentityLast(Mul(Rz(sa, ca), Ry(sb, cb)));
  }

  lemma TiltedIsTurned(lib: Library, pose: Abc)
    requires Tilted(lib, pose)
    ensures Rotated(lib, pose) == TURNED
  {
    WithoutRoll(-9.0 / 41.0, 40.0 / 41.0, 9.0 / 41.0, 40.0 / 41.0);
    hide Mul;
  }

  const TURNED_STEP := Six(1600.0 / 1681.0, -360.0 / 1681.0, -9.0 / 41.0, 0.0, 0.0, 0.0)

  const GROUP := AxisGroup(1000.0, 0.0, 100.0, 0.0)
  const SAFETY := Safety(0.1, 0.1, 100.0, 100.0)
  const PARAMS := Params(0.0, Law(GROUP, GROUP, 1.0), 2.9, 2.9, false, 0.0, 0.0, 0.0, Retare(false, 0.0, 0.0), SAFETY,
                         Payload(0.0, 0.0, 0.0, 0.0, ZERO), 1.0)
  const IDLE := Motion(Goal(0.0, 0.0, 0.0, 0.0, 0.0, 0.0, 0.0, 0.0), Inactive, 0.0, 0.0)
  const CORE := Core(Filter(false, ZERO), Payload(0.0, 0.0, 0.0, 0.0, ZERO), IDENTITY, STILL, NO_RAMP, IDLE,
                     Abc(0.0, 0.0, 0.0), false, 2.9, 2.9)
  /** One axis just above the deadband, two at it. */
  const WRENCH := Wrench(3.0, 2.9, 2.9, 0.0, 0.0, 0.0)

  lemma SensorIsTool(w: Wrench)
    ensures SensorToTool(IDENTITY, w) == w
  {
  }

  lemma ToolStepOfWrench()
    ensures VelocitiesOf(STILL, WRENCH, LawOf(PARAMS, CORE), 0.01) == Six(100.0, 0.0, 0.0, 0.0, 0.0, 0.0)
    ensures RegularLaw(LawOf(PARAMS, CORE)) && Recoverable6(STILL, WRENCH, LawOf(PARAMS, CORE), 0.01)
  {
    var l := LawOf(PARAMS, CORE);
    assert Deadzone(3.0, 2.9) == 0.1 && Deadzone(2.9, 2.9) == 0.0 == Deadzone(0.0, 2.9);
    assert l.translation == l.rotation == AxisGroup(1000.0, 2.9, 100.0, 0.0);
  }

  lemma StepAlongX(m: Mat)
    ensures ToolToBase(Six(1.0, 0.0, 0.0, 0.0, 0.0, 0.0), m) == Six(m.r0.x, m.r1.x, m.r2.x, 0.0, 0.0, 0.0)
  {
  }

  lemma StepIs()
    ensures Times6(Six(100.0, 0.0, 0.0, 0.0, 0.0, 0.0), 0.01) == Six(1.0, 0.0, 0.0, 0.0, 0.0, 0.0)
  {
  }

  lemma BaseOfStep()
    ensures ToolToBase(Times6(Six(100.0, 0.0, 0.0, 0.0, 0.0, 0.0), 0.01), TURNED) == TURNED_STEP
  {
    hide ToolToBase, Times6;
    StepIs();
    StepAlongX(TURNED);
  }

  lemma BelowCeilings()
    ensures !Exceeds(ForceSquare(WRENCH), 100.0) && !Exceeds(TorqueSquare(WRENCH), 100.0)
  {
    hide ForceSquare, TorqueSquare;
    assert ForceSquare(WRENCH) == 25.82 && TorqueSquare(WRENCH) == 0.0 by { SquaresOfWrench(); }
    assert 100.0 * 100.0 == 10000.0;
  }

  lemma SquaresOfWrench()
    ensures ForceSquare(WRENCH) == 25.82 && TorqueSquare(WRENCH) == 0.0
  {
  }

  lemma ClampedStep()
    ensures var l := LimitOf(Sum(Six(1600.0 / 1681.0, -360.0 / 1681.0, -9.0 / 41.0, 0.0, 0.0, 0.0), NO_TURN), WRENCH,
            SAFETY);
            l == Limited(Correction(0.1, -0.1, -0.1, NO_TURN), false, true)
  {
    hide Exceeds, ForceSquare, TorqueSquare;
    BelowCeilings();
  }

  lemma WorksAgainst()
    ensures Dot(Vec(0.1, -0.1, -0.1), Apply(TURNED, Force(WRENCH))) < 0.0
  {
  }

  /** Everything that `YieldsToWrench` asks for but an unsaturated output, and the output does not yield. */
  ghost predicate SaturatedAgainst(lib: Library, p: Params, c: Core, pose: Abc, w: Wrench, dt: real) {
    && Sound(lib) && c.motion.status != Running && dt >= 0.0 && RegularLaw(LawOf(p, c)) && Slow(c.prev, p.law)
    && Recoverable6(c.prev, SensorToTool(c.frame, w), LawOf(p, c), dt)
    && var o := ComplyOf(lib, p, c, pose, w, false, dt).1; o.saturated && !Yields(lib, c, pose, w, o.correction)
  }

  lemma SaturatedOutput(lib: Library, pose: Abc)
    requires Tilted(lib, pose)
    ensures var o := ComplyOf(lib, PARAMS, CORE, pose, WRENCH, false, 0.01).1;
            o.correction == Correction(0.1, -0.1, -0.1, NO_TURN) && o.saturated
  {
    hide Rotated, SensorToTool, VelocitiesOf, LawOf, ToolToBase, Times6, Sum, LimitOf, Mul, Tilted, Recoverable6;
    hide RegularLaw;
    TiltedIsTurned(lib, pose);
    SensorIsTool(WRENCH);
    ToolStepOfWrench();
    BaseOfStep();
    ClampedStep();
  }

  lemma NoShiftYields(lib: Library, pose: Abc, out: Correction)
    requires Tilted(lib, pose) && out == Correction(0.1, -0.1, -0.1, NO_TURN)
    ensures !ShiftYields(lib, CORE, pose, WRENCH, out)
  {
    TiltedIsTurned(lib, pose);
    IdentityLast(TURNED);
    WorksAgainst();
    hide Rotated, Mul, Dot, Apply;
  }

  lemma StillIsWithinCaps()
    ensures Slow(STILL, PARAMS.law)
  {
  }

  /** The limiter clamps each base axis for itself, and so can turn a yielding correction against the force. */
  lemma SaturatedOutputCanOppose(lib: Library, pose: Abc)
    requires Sound(lib) && Tilted(lib, pose)
    ensures SaturatedAgainst(lib, PARAMS, CORE, pose, WRENCH, 0.01)
  {
    hide SensorToTool, LawOf, Recoverable6, RegularLaw, Sound, Slow, ShiftYields, TurnYields, ComplyOf, Tilted;
    hide VelocitiesOf;
    SensorIsTool(WRENCH);
    ToolStepOfWrench();
    StillIsWithinCaps();
    SaturatedOutput(lib, pose);
    NoShiftYields(lib, pose, ComplyOf(lib, PARAMS, CORE, pose, WRENCH, false, 0.01).1.correction);
  }

  // ----- The shipped profiles -----

  const SHIPPED := Safety(0.5, 0.05, 500.0, 50.0)
  const EMPTY := Payload(0.0, 0.0, 0.0, 0.0, ZERO)
  const DRAG := Params(5.0, Law(AxisGroup(0.4, 0.0, 30.0, 200.0), AxisGroup(0.8, 0.0, 10.0, 100.0), 1.0), 30.0, 4.0,
                       true, 2.0, 5.0, 1.0, Retare(true, 1.0, 2.0), SHIPPED, EMPTY, 0.012)
  const PRECISION := Params(10.0, Law(AxisGroup(0.1, 0.0, 10.0, 100.0), AxisGroup(0.2, 0.0, 2.0, 50.0), 1.0), 30.0, 4.0,
                            false, 2.0, 5.0, 1.0, Retare(false, 1.0, 2.0), SHIPPED, EMPTY, 0.012)
  /** The period of the RSI cycle, in seconds. */
  const PERIOD := 0.004

  /** With the shipped limits, no shift is ever clamped; a turn can be, in the drag profile only. */
  lemma ShippedFits()
    ensures ShiftFits(DRAG, PERIOD) && !TurnFits(DRAG, PERIOD)
    ensures ShiftFits(PRECISION, PERIOD) && TurnFits(PRECISION, PERIOD)
  {
  }

  // ----- A push, reversed -----

  /** A force of f along u, in the sensor frame. */
  function Along(u: Vec, f: real): Wrench { Wrench(f * u.x, f * u.y, f * u.z, 0.0, 0.0, 0.0) }

  function Feel(pose: Abc, w: Wrench): Cycle { Cycle(Input(pose, w, 0.0, true), PERIOD) }

  lemma NothingToCompensate(w: Wrench, m: Mat)
    ensures CompensateOf(EMPTY, w, m) == w
  {
    assert Apply(Transpose(m), Vec(0.0, 0.0, 0.0)) == Vec(0.0, 0.0, 0.0);
  }

  /** The weight of a new sample at the drag profile's cutoff. */
  const ALPHA := PERIOD / (PERIOD + 1.0 / (2.0 * PI * 5.0))

  lemma AlphaIs()
    ensures 0.1 <= ALPHA <= 0.12
  {
  }

  lemma Filters(u: Vec, g: real, f: real, h: real)
    requires h == Blend(g, f, ALPHA)
    ensures FilterOf(Filter(true, Along(u, g)), 5.0, Along(u, f), PERIOD) == (Filter(true, Along(u, h)), Along(u, h))
  {
    hide Blend;
    var s, w := Along(u, g), Along(u, f);
    BlendAlong(g, f, ALPHA, u.x, s.fx, w.fx);
    BlendAlong(g, f, ALPHA, u.y, s.fy, w.fy);
    BlendAlong(g, f, ALPHA, u.z, s.fz, w.fz);
    BlendAlong(g, f, ALPHA, 0.0, 0.0, 0.0);
    hide Along;
    FilterIs(s, w, Along(u, h));
  }

  lemma FilterIs(s: Wrench, w: Wrench, t: Wrench)
    requires t.fx == Blend(s.fx, w.fx, ALPHA) && t.fy == Blend(s.fy, w.fy, ALPHA) && t.fz == Blend(s.fz, w.fz, ALPHA)
    requires t.tx == Blend(s.tx, w.tx, ALPHA) && t.ty == Blend(s.ty, w.ty, ALPHA) && t.tz == Blend(s.tz, w.tz, ALPHA)
    ensures FilterOf(Filter(true, s), 5.0, w, PERIOD) == (Filter(true, t), t)
  {
    hide Blend;
  }

  lemma BlendAlong(g: real, f: real, k: real, x: real, gx: real, fx: real)
    requires gx == g * x && fx == f * x
    ensures Blend(gx, fx, k) == Blend(g, f, k) * x
  {
    assert k * (fx - gx) == k * (f - g) * x;
  }

  /** While the ramp hears nothing: the state after n cycles of it. */
  function Quiet(a: Core, n: nat): Core {
    a.(filter := if n == 0 then a.filter else Filter(true, ZERO),
       ramp := Ramp(n < 500, 2.0 - n as real * PERIOD, 5.0, 1.0, 0.0, 0.0, if n < 500 then 0.0 else 5.0,
                    if n < 500 then 0.0 else 1.0),
       forceDeadband := if n < 500 then a.forceDeadband else 5.0,
       torqueDeadband := if n < 500 then a.torqueDeadband else 1.0)
  }

  function Activated(lib: Library, c: Core, start: Abc, tool: Abc, mount: Abc): Core {
    ActivateOf(lib, DRAG, ConfigureOf(DRAG, c), start, tool, mount)
  }

  lemma QuietCycle(lib: Library, a: Core, n: nat, pose: Abc)
    requires Sound(lib) && n < 500 && a.payload == EMPTY && !a.filter.initialized
    ensures PipelineOf(lib, DRAG, Quiet(a, n), Feel(pose, ZERO).input, PERIOD).0 == Quiet(a, n + 1)
  {
    hide Rotated, Mul, CompensateOf, FilterOf, ForceNorm, TorqueNorm, LimitOf, Sound;
    NothingToCompensate(ZERO, Mul(Rotated(lib, pose), a.frame));
    NormOfNothing(lib);
    assert FilterOf(Quiet(a, n).filter, 5.0, ZERO, PERIOD) == (Filter(true, ZERO), ZERO) by {
      FiltersNothing(a.filter);
    }
    assert (n + 1) as real * PERIOD == n as real * PERIOD + PERIOD;
    assert 2.0 - (n + 1) as real * PERIOD > 0.0 <==> n + 1 < 500;
  }

  lemma FiltersNothing(f: Filter)
    requires !f.initialized
    ensures FilterOf(f, 5.0, ZERO, PERIOD) == (Filter(true, ZERO), ZERO)
    ensures FilterOf(Filter(true, ZERO), 5.0, ZERO, PERIOD) == (Filter(true, ZERO), ZERO)
  {
  }

  function Silence(pose: Abc, n: nat): seq<Cycle> { seq(n, _ => Feel(pose, ZERO)) }

  lemma {:induction false} QuietRamp(lib: Library, a: Core, n: nat, pose: Abc)
    requires Sound(lib) && n <= 500 && a.payload == EMPTY && !a.filter.initialized && Quiet(a, 0) == a
    ensures RunOf(lib, DRAG, a, Silence(pose, n)).0 == Quiet(a, n)
  {
    hide PipelineOf, Quiet, Sound;
    if n > 0 {
      QuietRamp(lib, a, n - 1, pose);
      assert Silence(pose, n)[..n - 1] == Silence(pose, n - 1);
      QuietCycle(lib, a, n - 1, pose);
    }
  }

  /** The robot after the ramp, with a filtered force of g along u and moving at v along the tool's x axis. */
  ghost predicate Dragged(c: Core, u: Vec, g: real, v: real) {
    && c.filter == Filter(true, Along(u, g)) && c.payload == EMPTY && c.prev == Six(v, 0.0, 0.0, 0.0, 0.0, 0.0)
    && !c.ramp.active && c.forceDeadband == 5.0 && c.torqueDeadband == 1.0 && c.motion.status != Running
    && AlongX(c.frame, u)
  }

  /** The direction u in the sensor frame is the tool's x axis. */
  ghost predicate AlongX(frame: Mat, u: Vec) { Square(u) == 1.0 && Apply(frame, u) == Vec(1.0, 0.0, 0.0) }

  lemma SquareAlong(u: Vec, f: real)
    requires Square(u) == 1.0
    ensures ForceSquare(Along(u, f)) == f * f && TorqueSquare(Along(u, f)) == 0.0
  {
    assert f * f * Square(u) == f * f;
  }

  lemma NormAlong(lib: Library, u: Vec, f: real)
    requires Sound(lib) && Square(u) == 1.0 && Abs(f) >= 5.0
    ensures ForceNorm(lib, Along(u, f)) >= 5.0
  {
    hide ForceSquare, TorqueSquare, Along, Square;
    SquareAlong(u, f);
    RootAtLeast(lib.sqrt(f * f), f);
  }

  lemma RootAtLeast(r: real, f: real)
    requires r >= 0.0 && r * r == f * f && Abs(f) >= 5.0
    ensures r >= 5.0
  {
    if r < 5.0 {
      SquareAtMost(r, 5.0);
      var h := Abs(f);
      NotNegative(h - 5.0, h + 5.0);
      assert h * h == f * f;
      assert r * r == 25.0;
      NotNegative(5.0 - r, 5.0 + r);
      ZeroFactor(5.0 + r, 5.0 - r);
    }
  }

  /** No tare: the force is outside the deadband. */
  lemma DoesNotTare(lib: Library, c: Core, u: Vec, h: real, pose: Abc, filtered: Wrench)
    requires Sound(lib) && Square(u) == 1.0 && Abs(h) >= 5.0 && c.forceDeadband == 5.0
    ensures var (d, w, tared) := TareOf(lib, DRAG, c, pose, filtered, Along(u, h));
            d == c.(armed := d.armed) && w == Along(u, h) && !tared
  {
    hide AngularDistance, Rotated, Mul, CompensateOf, ForceNorm, TorqueNorm, Along, Sound, Square;
    NormAlong(lib, u, h);
  }

  const PUSHED := AxisGroup(0.4, 5.0, 30.0, 200.0)

  function Speed(f: real, v: real): real { AxisVelocity(f, PUSHED, 1.0, PERIOD, v) }

  lemma ToolForce(frame: Mat, u: Vec, h: real)
    requires AlongX(frame, u)
    ensures SensorToTool(frame, Along(u, h)) == Wrench(h, 0.0, 0.0, 0.0, 0.0, 0.0)
  {
    ApplyScale(frame, h, u);
    assert Force(Along(u, h)) == Scale(h, u);
    assert Apply(frame, Vec(0.0, 0.0, 0.0)) == Vec(0.0, 0.0, 0.0) by { AppliedToNothing(frame); }
    hide Apply;
  }

  lemma AppliedToNothing(m: Mat)
    ensures Apply(m, Vec(0.0, 0.0, 0.0)) == Vec(0.0, 0.0, 0.0)
  {
  }

  lemma ToolVelocity(c: Core, u: Vec, g: real, v: real, h: real)
    requires Dragged(c, u, g, v)
    ensures VelocitiesOf(c.prev, SensorToTool(c.frame, Along(u, h)), LawOf(DRAG, c), PERIOD) ==
              Six(Speed(h, v), 0.0, 0.0, 0.0, 0.0, 0.0)
  {
    hide AxisVelocity, SensorToTool, Along;
    ToolForce(c.frame, u, h);
    AxisStaysStill(0.0, PUSHED, 1.0, PERIOD);
    AxisStaysStill(0.0, AxisGroup(0.8, 1.0, 10.0, 100.0), 1.0, PERIOD);
  }

  lemma BelowShippedCeilings(u: Vec, h: real)
    requires Square(u) == 1.0 && Abs(h) <= 500.0
    ensures !Exceeds(ForceSquare(Along(u, h)), 500.0) && !Exceeds(TorqueSquare(Along(u, h)), 50.0)
  {
    hide ForceSquare, TorqueSquare, Along, Square;
    SquareAlong(u, h);
    SquareAtMost(h, 500.0);
  }

  /** In the base frame: a shift within the limits, and no turn. */
  lemma DragStep(lib: Library, s: real, pose: Abc)
    requires Sound(lib) && Abs(s) <= 30.0
    ensures var base := ToolToBase(Times6(Six(s, 0.0, 0.0, 0.0, 0.0, 0.0), PERIOD), Rotated(lib, pose));
            Cube(Shift(base), 0.5) && Turn(base) == Vec(0.0, 0.0, 0.0)
  {
    hide Rotated, Sound, ToolToBase, Cube;
    var v := Six(s, 0.0, 0.0, 0.0, 0.0, 0.0);
    ShippedFits();
    StepFits(lib, DRAG, v, pose, PERIOD);
    ToBase(Times6(v, PERIOD), Rotated(lib, pose));
    AppliedToNothing(Rotated(lib, pose));
  }

  lemma DragWork(s: real, h: real)
    ensures var t := Wrench(h, 0.0, 0.0, 0.0, 0.0, 0.0);
            Dot(Shift(Times6(Six(s, 0.0, 0.0, 0.0, 0.0, 0.0), PERIOD)), Force(t)) == s * PERIOD * h
  {
  }

  lemma SpeedIsCapped(h: real, v: real)
    requires Abs(v) <= 30.0
    ensures Abs(Speed(h, v)) <= 30.0
  {
    hide AxisVelocity;
    AxisKeepsLimits(h, PUSHED, 1.0, PERIOD, v);
  }

  lemma DragLimit(base: Six, w: Wrench)
    requires Cube(Shift(base), 0.5) && Turn(base) == Vec(0.0, 0.0, 0.0)
    requires !Exceeds(ForceSquare(w), 500.0) && !Exceeds(TorqueSquare(w), 50.0)
    ensures var l := LimitOf(Sum(base, NO_TURN), w, SHIPPED);
            !l.hardCutoff && !l.saturated && ShiftOut(l.correction) == Shift(base)
  {
    hide Exceeds, ForceSquare, TorqueSquare;
    SumOfStill(base);
    LimiterKeeps(Sum(base, NO_TURN), w, SHIPPED);
  }

  /** One complying cycle: neither saturated nor cut off, and the work of its shift is the tool's. */
  lemma DragComplies(lib: Library, c: Core, u: Vec, g: real, v: real, h: real, pose: Abc, s: real)
    requires Sound(lib) && Dragged(c, u, g, v) && Abs(h) <= 500.0 && Abs(v) <= 30.0 && s == Speed(h, v)
    ensures var (d, o) := ComplyOf(lib, DRAG, c, pose, Along(u, h), false, PERIOD);
            && d == c.(prev := Six(s, 0.0, 0.0, 0.0, 0.0, 0.0))
            && !Idle(o) && !o.saturated && !o.hardCutoff && o.compensated == Along(u, h)
            && Dot(ShiftOut(o.correction), Apply(BaseFromSensor(lib, c, pose), Force(o.compensated))) == s * PERIOD * h
  {
    hide Rotated, SensorToTool, VelocitiesOf, LawOf, ToolToBase, Times6, Sum, LimitOf, Mul, Along, Apply, Dot, Sound;
    hide Cube, Square, AlongX, Speed, BaseFromSensor, Exceeds, ForceSquare, TorqueSquare, Shift, Turn, ShiftOut;
    var base := BaseStep(lib, DRAG, c, pose, Along(u, h), PERIOD);
    SpeedIsCapped(h, v);
    ToolVelocity(c, u, g, v, h);
    DragStep(lib, s, pose);
    assert Square(u) == 1.0 && SensorToTool(c.frame, Along(u, h)) == Wrench(h, 0.0, 0.0, 0.0, 0.0, 0.0) by {
      DragForce(c, u, g, v, h);
    }
    BelowShippedCeilings(u, h);
    DragLimit(base, Along(u, h));
    BaseWork(lib, DRAG, c, pose, Along(u, h), PERIOD);
    DragWork(s, h);
  }

  lemma DragForce(c: Core, u: Vec, g: real, v: real, h: real)
    requires Dragged(c, u, g, v)
    ensures Square(u) == 1.0 && SensorToTool(c.frame, Along(u, h)) == Wrench(h, 0.0, 0.0, 0.0, 0.0, 0.0)
  {
    hide Square, SensorToTool, Along, Apply;
    ToolForce(c.frame, u, h);
  }

  /** One cycle of the whole pipeline under a force of f along u. */
  lemma DragCycle(lib: Library, c: Core, u: Vec, g: real, v: real, f: real, h: real, pose: Abc, s: real)
    requires Sound(lib) && Dragged(c, u, g, v) && h == Blend(g, f, ALPHA) && 5.0 <= Abs(h) <= 500.0 && Abs(v) <= 30.0
    requires s == Speed(h, v)
    ensures var (d, o) := PipelineOf(lib, DRAG, c, Feel(pose, Along(u, f)).input, PERIOD);
            && Dragged(d, u, h, s) && d.frame == c.frame
            && !Idle(o) && !o.saturated && !o.hardCutoff && o.compensated == Along(u, h)
            && Dot(ShiftOut(o.correction), Apply(BaseFromSensor(lib, c, pose), Force(o.compensated))) == s * PERIOD * h
  {
    hide Rotated, Mul, CompensateOf, FilterOf, TareOf, ComplyOf, Along, Apply, Dot, Sound, Speed, AlongX, Square, Blend;
    var m := Mul(Rotated(lib, pose), c.frame);
    Filters(u, g, f, h);
    NothingToCompensate(Along(u, h), m);
    var c1 := c.(filter := Filter(true, Along(u, h)));
    assert Square(u) == 1.0 by { DragForce(c, u, g, v, h); }
    DoesNotTare(lib, c1, u, h, pose, Along(u, h));
    var c2 := TareOf(lib, DRAG, c1, pose, Along(u, h), Along(u, h)).0;
    assert Dragged(c2, u, h, v);
    DragComplies(lib, c2, u, h, v, h, pose, s);
    SameBase(lib, c, c2, pose);
  }

  lemma SameBase(lib: Library, b: Core, c: Core, pose: Abc)
    requires b.frame == c.frame
    ensures BaseFromSensor(lib, b, pose) == BaseFromSensor(lib, c, pose)
  {
    hide Mul, Rotated;
  }

  const X := Vec(1.0, 0.0, 0.0)
  const Y := Vec(0.0, 1.0, 0.0)
  const Z := Vec(0.0, 0.0, 1.0)

  lemma FirstRow(m: Mat)
    requires Rotation(m)
    ensures AlongX(m, m.r0)
  {
    hide Dot, Transpose, Rotation;
    var t := Transpose(m);
    RowOf(m);
    TransposeIsRotation(m);
    RotationKeepsDot(t, X, X);
    RotationKeepsDot(t, Y, X);
    RotationKeepsDot(t, Z, X);
    DotFirst(X);
    DotFirst(Y);
    DotFirst(Z);
    assert Apply(m, m.r0) == Vec(Dot(m.r0, m.r0), Dot(m.r1, m.r0), Dot(m.r2, m.r0));
  }

  lemma DotFirst(v: Vec)
    ensures Dot(v, X) == v.x
  {
  }

  lemma RowOf(m: Mat)
    ensures Apply(Transpose(m), X) == m.r0 && Apply(Transpose(m), Y) == m.r1 && Apply(Transpose(m), Z) == m.r2
  {
  }

  /** The filtered force and the speed: two cycles of 100 N, then one of -300 N. */
  lemma PushAndPull(h1: real, h2: real, h3: real)
    requires h1 == Blend(0.0, 100.0, ALPHA) && h2 == Blend(h1, 100.0, ALPHA) && h3 == Blend(h2, -300.0, ALPHA)
    ensures 10.0 <= h1 <= 12.0 && 18.0 <= h2 <= 23.0 && -21.0 <= h3 <= -9.0
    ensures Speed(h1, 0.0) == 0.8 && Speed(h2, 0.8) == 1.6 && Speed(h3, 1.6) == 0.8
  {
    AlphaIs();
    BlendWithin(0.0, 100.0, ALPHA, 0.1, 0.12);
    BlendWithin(h1, 100.0, ALPHA, 0.1, 0.12);
    BlendWithin(h2, -300.0, ALPHA, 0.1, 0.12);
    hide Blend;
    SpeedsAre(h1, h2, h3);
  }

  lemma BlendWithin(g: real, f: real, k: real, a: real, b: real)
    requires a <= k <= b
    ensures var d, h := f - g, Blend(g, f, k);
            if d >= 0.0 then g + a * d <= h <= g + b * d else g + b * d <= h <= g + a * d
  {
    var d := f - g;
    if d >= 0.0 {
      ScaleMonotone(a, k, d);
      ScaleMonotone(k, b, d);
    } else {
      ScaleMonotone(a, k, -d);
      ScaleMonotone(k, b, -d);
    }
  }

  lemma SpeedsAre(h1: real, h2: real, h3: real)
    requires 10.0 <= h1 <= 12.0 && 18.0 <= h2 <= 23.0 && -21.0 <= h3 <= -9.0
    ensures Speed(h1, 0.0) == 0.8 && Speed(h2, 0.8) == 1.6 && Speed(h3, 1.6) == 0.8
  {
  }

  lemma RunOneMore(lib: Library, p: Params, c: Core, cycles: seq<Cycle>, x: Cycle)
    requires Timely(cycles) && x.dt >= 0.0
    ensures Timely(cycles + [x])
    ensures var (before, outs) := RunOf(lib, p, c, cycles); var (d, o) := PipelineOf(lib, p, before, x.input, x.dt);
            RunOf(lib, p, c, cycles + [x]) == (d, outs + [o])
  {
    hide PipelineOf;
    assert (cycles + [x])[..|cycles|] == cycles;
  }

  /** After a quiet ramp the robot stands still, and no force is felt. */
  lemma RampEnds(lib: Library, a: Core, pose: Abc, u: Vec)
    requires Sound(lib) && a.payload == EMPTY && !a.filter.initialized && Quiet(a, 0) == a && a.prev == STILL
    requires a.motion.status != Running && AlongX(a.frame, u)
    ensures var d := RunOf(lib, DRAG, a, Silence(pose, 500)).0; Dragged(d, u, 0.0, 0.0) && d.frame == a.frame
  {
    hide RunOf, AlongX, Sound;
    QuietRamp(lib, a, 500, pose);
    assert Along(u, 0.0) == ZERO;
  }

  /** The last output of the run moves against the force, and neither the limiter nor the cutoff is the reason. */
  ghost predicate EndsAgainst(lib: Library, a: Core, cycles: seq<Cycle>)
    requires Timely(cycles)
  {
    var n, outs := |cycles| - 1, RunOf(lib, DRAG, a, cycles).1;
    && cycles != [] && !Idle(outs[n]) && !outs[n].saturated && !outs[n].hardCutoff
    && !ShiftYields(lib, a, cycles[n].input.pose, outs[n].compensated, outs[n].correction)
  }

  /** A quiet ramp, two cycles of a push of 100 N, one of a pull of 300 N, all at one pose. */
  function PushThenPull(pose: Abc, u: Vec): seq<Cycle> {
    Silence(pose, 500) + [Feel(pose, Along(u, 100.0))] + [Feel(pose, Along(u, 100.0))] + [Feel(pose, Along(u, -300.0))]
  }

  lemma ActivatedIsQuiet(lib: Library, c: Core, start: Abc, tool: Abc, mount: Abc)
    requires Sound(lib)
    ensures var a := Activated(lib, c, start, tool, mount);
            && a.payload == EMPTY && !a.filter.initialized && Quiet(a, 0) == a && a.prev == STILL
            && a.motion.status != Running && AlongX(a.frame, a.frame.r0)
  {
    hide TcpFromSensor, AlongX;
    TcpFromSensorIsRotation(lib, tool, mount);
    FirstRow(TcpFromSensor(lib, tool, mount));
  }

  /** From the end of the ramp: the last of the three cycles works against the force. */
  lemma EndsAgainstForce(lib: Library, a: Core, pose: Abc, u: Vec)
    requires Sound(lib) && a.payload == EMPTY && !a.filter.initialized && Quiet(a, 0) == a && a.prev == STILL
    requires a.motion.status != Running && AlongX(a.frame, u)
    ensures Timely(PushThenPull(pose, u)) && EndsAgainst(lib, a, PushThenPull(pose, u))
  {
    hide PipelineOf, RunOf, Dragged, Along, Sound, AlongX, Blend, Speed, Quiet, Dot, Apply, BaseFromSensor, Idle;
    var push, pull := Feel(pose, Along(u, 100.0)), Feel(pose, Along(u, -300.0));
    var h1 := Blend(0.0, 100.0, ALPHA);
    var h2 := Blend(h1, 100.0, ALPHA);
    var h3 := Blend(h2, -300.0, ALPHA);
    PushAndPull(h1, h2, h3);
    RampEnds(lib, a, pose, u);
    var ramp := Silence(pose, 500);
    RunOneMore(lib, DRAG, a, ramp, push);
    RunOneMore(lib, DRAG, a, ramp + [push], push);
    RunOneMore(lib, DRAG, a, ramp + [push] + [push], pull);
    var c0 := RunOf(lib, DRAG, a, ramp).0;
    var c1 := RunOf(lib, DRAG, a, ramp + [push]).0;
    var c2 := RunOf(lib, DRAG, a, ramp + [push] + [push]).0;
    DragCycle(lib, c0, u, 0.0, 0.0, 100.0, h1, pose, 0.8);
    DragCycle(lib, c1, u, h1, 0.8, 100.0, h2, pose, 1.6);
    DragCycle(lib, c2, u, h2, 1.6, -300.0, h3, pose, 0.8);
    SameBase(lib, a, c2, pose);
  }

  /**
   * The shipped drag profile, from its activation at any pose and with any tool: after a quiet ramp, a push and then a
   * stronger pull, the output is neither saturated nor cut off, and its shift works against the force.
   */
  lemma RateLimitedOutputCanOppose(lib: Library, c: Core, start: Abc, tool: Abc, mount: Abc)
    requires Sound(lib)
    ensures var a := Activated(lib, c, start, tool, mount); var cycles := PushThenPull(start, a.frame.r0);
            Timely(cycles) && EndsAgainst(lib, a, cycles)
  {
    hide Activated, PushThenPull, EndsAgainst, AlongX, Quiet, Sound;
    var a := Activated(lib, c, start, tool, mount);
    ActivatedIsQuiet(lib, c, start, tool, mount);
    EndsAgainstForce(lib, a, start, a.frame.r0);
  }
}
