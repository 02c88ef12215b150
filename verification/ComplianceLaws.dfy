/** The force compliance controller puts out nothing until some force or torque leaves the learned deadband. */
module ComplianceLaws {
  import opened RealMath
  import opened Types
  import opened Geometry
  import opened PayloadModel
  import opened Motion
  import opened Compliance

  /** Inputs of one control cycle; the measured period is not negative. */
  datatype Cycle = Cycle(input: Input, dt: real)

  ghost predicate Timely(cycles: seq<Cycle>) { forall k :: 0 <= k < |cycles| ==> cycles[k].dt >= 0.0 }

  predicate Limits(p: Params) {
    p.law.translation.maxSpeed >= 0.0 && p.law.rotation.maxSpeed >= 0.0 && p.safety.maxTrans >= 0.0
      && p.safety.maxRot >= 0.0
  }

  /** The final state and one output per cycle. */
  function RunOf(lib: Library, p: Params, c: Core, cycles: seq<Cycle>): (r: (Core, seq<Output>))
    requires Timely(cycles)
    ensures |r.1| == |cycles|
  {
    if cycles == [] then (c, [])
    else
      var last := cycles[|cycles| - 1];
      var (before, outs) := RunOf(lib, p, c, cycles[..|cycles| - 1]);
      var (after, out) := PipelineOf(lib, p, before, last.input, last.dt);
      (after, outs + [out])
  }

  // ----- What the ramp learns -----

  function LoudestForce(lib: Library, outs: seq<Output>): real {
    if outs == [] then 0.0
    else
      var (rest, last) := (LoudestForce(lib, outs[..|outs| - 1]), outs[|outs| - 1]);
      if last.rampActive then Max(rest, ForceNorm(lib, last.compensated)) else rest
  }

  function LoudestTorque(lib: Library, outs: seq<Output>): real {
    if outs == [] then 0.0
    else
      var (rest, last) := (LoudestTorque(lib, outs[..|outs| - 1]), outs[|outs| - 1]);
      if last.rampActive then Max(rest, TorqueNorm(lib, last.compensated)) else rest
  }

  predicate Idle(o: Output) { o.rampActive || o.timedOut }

  ghost predicate Learned(lib: Library, p: Params, c: Core, outs: seq<Output>) {
    && c.ramp.forceMargin == p.rampForceMargin && c.ramp.torqueMargin == p.rampTorqueMargin
    && (c.ramp.active ==> (forall k :: 0 <= k < |outs| ==> Idle(outs[k])) && c.ramp.maxForce == LoudestForce(lib, outs)
                          && c.ramp.maxTorque == LoudestTorque(lib, outs))
    && (!c.ramp.active ==> c.forceDeadband == LoudestForce(lib, outs) + p.rampForceMargin
                           && c.torqueDeadband == LoudestTorque(lib, outs) + p.rampTorqueMargin)
  }

  /** A cycle either times out, ramps, or complies; only ramping moves the ramp and the deadbands. */
  lemma CycleKinds(lib: Library, p: Params, c: Core, i: Input, dt: real)
    requires dt >= 0.0
    ensures var (d, o) := PipelineOf(lib, p, c, i, dt);
            && d.frame == c.frame
            && (o.rampActive ==> c.ramp.active && !o.timedOut && d.ramp == RampUpdateOf(lib, c.ramp, o.compensated, dt)
                                 && (!d.ramp.active ==>
                                       && d.forceDeadband == d.ramp.forceDeadband
                                       && d.torqueDeadband == d.ramp.torqueDeadband))
            && (!o.rampActive ==>
                  && d.ramp == c.ramp
                  && d.forceDeadband == c.forceDeadband && d.torqueDeadband == c.torqueDeadband)
            && (!Idle(o) ==> !c.ramp.active)
  {
    hide Rotated, Mul, CompensateOf, FilterOf, AngularDistance, ForceNorm, TorqueNorm, RampUpdateOf, ToolToBase;
    hide VelocitiesOf, LimitOf, UpdateOf;
  }

  lemma RampLearnsStep(lib: Library, p: Params, c: Core, outs: seq<Output>, i: Input, dt: real)
    requires dt >= 0.0 && Learned(lib, p, c, outs)
    ensures var (d, o) := PipelineOf(lib, p, c, i, dt); Learned(lib, p, d, outs + [o])
  {
    hide PipelineOf, ForceNorm, TorqueNorm;
    CycleKinds(lib, p, c, i, dt);
    var (d, o) := PipelineOf(lib, p, c, i, dt);
    assert (outs + [o])[..|outs|] == outs;
  }

  /**
   * After the ramp, the deadbands are the loudest norms heard during it plus the margins; before, nothing is put out.
   */
  lemma {:induction false} RampLearns(lib: Library, p: Params, c: Core, start: Abc, tool: Abc, mount: Abc,
                                      cycles: seq<Cycle>)
    requires Timely(cycles) && p.adaptive
    ensures var (d, outs) := RunOf(lib, p, ActivateOf(lib, p, c, start, tool, mount), cycles); Learned(lib, p, d, outs)
  {
    hide PipelineOf, TcpFromSensor;
    if cycles != [] {
      var n := |cycles| - 1;
      RampLearns(lib, p, c, start, tool, mount, cycles[..n]);
      var (before, outs) := RunOf(lib, p, ActivateOf(lib, p, c, start, tool, mount), cycles[..n]);
      RampLearnsStep(lib, p, before, outs, cycles[n].input, cycles[n].dt);
    }
  }

  // ----- Nothing moves inside the deadband -----

  lemma NormIs(lib: Library, v: Vec, square: real)
    requires Sound(lib) && Square(v) == square
    ensures lib.sqrt(square) >= 0.0 && lib.sqrt(square) * lib.sqrt(square) == Square(v)
  {
    SquareIsPositive(v);
  }

  lemma SquareIsPositive(v: Vec)
    ensures Square(v) >= 0.0
  {
  }

  /** A rotation keeps the norm, so no axis of the turned vector leaves a deadband that holds the norm. */
  lemma AxesWithin(lib: Library, m: Mat, v: Vec, deadband: real)
    requires Sound(lib) && Rotation(m) && lib.sqrt(Square(v)) <= deadband
    ensures var t := Apply(m, v); Abs(t.x) <= deadband && Abs(t.y) <= deadband && Abs(t.z) <= deadband
  {
    hide Apply, Square;
    NormIs(lib, Apply(m, v), Square(v));
    ComponentBound(Apply(m, v), lib.sqrt(Square(v)));
  }

  lemma AxisStaysStill(f: real, g: AxisGroup, scale: real, dt: real)
    requires Abs(f) <= g.deadband && g.maxSpeed >= 0.0 && dt >= 0.0
    ensures AxisVelocity(f, g, scale, dt, 0.0) == 0.0
  {
    if g.maxAccel > 0.0 { assert g.maxAccel * dt >= 0.0; }
  }

  lemma VelocitiesStayStill(w: Wrench, l: Law, dt: real)
    requires l.translation.maxSpeed >= 0.0 && l.rotation.maxSpeed >= 0.0 && dt >= 0.0
    requires Abs(w.fx) <= l.translation.deadband && Abs(w.fy) <= l.translation.deadband
             && Abs(w.fz) <= l.translation.deadband
    requires Abs(w.tx) <= l.rotation.deadband && Abs(w.ty) <= l.rotation.deadband && Abs(w.tz) <= l.rotation.deadband
    ensures VelocitiesOf(STILL, w, l, dt) == STILL
  {
    hide AxisVelocity;
    AxisStaysStill(w.fx, l.translation, l.scale, dt);
    AxisStaysStill(w.fy, l.translation, l.scale, dt);
    AxisStaysStill(w.fz, l.translation, l.scale, dt);
    AxisStaysStill(w.tx, l.rotation, l.scale, dt);
    AxisStaysStill(w.ty, l.rotation, l.scale, dt);
    AxisStaysStill(w.tz, l.rotation, l.scale, dt);
  }

  lemma StillInBase(dt: real, m: Mat)
    ensures ToolToBase(Times6(STILL, dt), m) == STILL
  {
  }

  predicate Within(lib: Library, w: Wrench, force: real, torque: real) {
    ForceNorm(lib, w) <= force && TorqueNorm(lib, w) <= torque
  }

  ghost predicate AtRest(c: Core) { c.prev == STILL && c.motion.status != Running && Rotation(c.frame) }

  lemma ToolWrenchWithin(lib: Library, m: Mat, w: Wrench, force: real, torque: real)
    requires Sound(lib) && Rotation(m) && Within(lib, w, force, torque)
    ensures var t := SensorToTool(m, w);
            && Abs(t.fx) <= force && Abs(t.fy) <= force && Abs(t.fz) <= force
            && Abs(t.tx) <= torque && Abs(t.ty) <= torque && Abs(t.tz) <= torque
  {
    hide Apply, Rotation, Sound;
    ForceSquareIs(w);
    AxesWithin(lib, m, Force(w), force);
    AxesWithin(lib, m, Torque(w), torque);
  }

  lemma SumNothing()
    ensures Sum(STILL, NO_TURN) == NO_CORRECTION
  {
  }

  lemma ClampNothing(limit: real)
    requires limit >= 0.0
    ensures Clamp(0.0, limit) == 0.0
  {
  }

  lemma LimitsNothing(w: Wrench, p: Safety)
    requires p.maxTrans >= 0.0 && p.maxRot >= 0.0
    ensures LimitOf(NO_CORRECTION, w, p).correction == NO_CORRECTION
  {
    hide Exceeds, ForceSquare, TorqueSquare, Clamp;
    ClampNothing(p.maxTrans);
    ClampNothing(p.maxRot);
  }

  lemma NormOfNothing(lib: Library)
    requires Sound(lib)
    ensures ForceNorm(lib, ZERO) == 0.0 == TorqueNorm(lib, ZERO)
  {
    hide Sound, ForceSquare, TorqueSquare;
    NothingSquared();
    RootOfZero(lib, lib.sqrt(0.0));
  }

  lemma NothingSquared()
    ensures ForceSquare(ZERO) == 0.0 == TorqueSquare(ZERO)
  {
  }

  lemma RootOfZero(lib: Library, r: real)
    requires Sound(lib) && r == lib.sqrt(0.0)
    ensures r == 0.0
  {
    if r != 0.0 { ZeroFactor(r, r); }
  }

  lemma ComplyStaysStill(lib: Library, p: Params, c: Core, pose: Abc, w: Wrench, tared: bool, dt: real)
    requires Sound(lib) && Limits(p) && dt >= 0.0 && AtRest(c) && Within(lib, w, c.forceDeadband, c.torqueDeadband)
    ensures var (d, o) := ComplyOf(lib, p, c, pose, w, tared, dt); AtRest(d) && o.correction == NO_CORRECTION
  {
    hide Rotated, ToolToBase, VelocitiesOf, Times6, SensorToTool, LimitOf, Sum, Rotation, Sound;
    ToolWrenchWithin(lib, c.frame, w, c.forceDeadband, c.torqueDeadband);
    VelocitiesStayStill(SensorToTool(c.frame, w), LawOf(p, c), dt);
    StillInBase(dt, Rotated(lib, pose));
    SumNothing();
    LimitsNothing(w, p.safety);
  }

  lemma ForceSquareIs(w: Wrench)
    ensures Square(Force(w)) == ForceSquare(w) && Square(Torque(w)) == TorqueSquare(w)
  {
  }

  lemma CycleStaysStill(lib: Library, p: Params, c: Core, i: Input, dt: real)
    requires Sound(lib) && Limits(p) && dt >= 0.0 && AtRest(c)
    requires var (d, o) := PipelineOf(lib, p, c, i, dt);
             Idle(o) || Within(lib, o.compensated, c.forceDeadband, c.torqueDeadband)
    ensures var (d, o) := PipelineOf(lib, p, c, i, dt); AtRest(d) && o.correction == NO_CORRECTION
  {
    hide Rotated, Mul, CompensateOf, FilterOf, AngularDistance, ForceNorm, TorqueNorm, RampUpdateOf, ComplyOf, Rotation;
    if i.valid && i.age <= p.wrenchTimeout {
      var (c1, filtered, w) := SensedOf(lib, p, c, i, dt);
      if !c1.ramp.active {
        var (c2, r, tared) := TareOf(lib, p, c1, i.pose, filtered, w);
        ComplyReports(lib, p, c2, i.pose, r, tared, dt);
        ComplyStaysStill(lib, p, c2, i.pose, r, tared, dt);
      }
    }
  }

  lemma ComplyReports(lib: Library, p: Params, c: Core, pose: Abc, w: Wrench, tared: bool, dt: real)
    ensures var (d, o) := ComplyOf(lib, p, c, pose, w, tared, dt); o.compensated == w && !Idle(o)
  {
    hide Rotated, ToolToBase, VelocitiesOf, Times6, SensorToTool, UpdateOf, LimitOf;
  }

  /** Every complying cycle of the run stayed within these deadbands. */
  ghost predicate QuietRun(lib: Library, outs: seq<Output>, force: real, torque: real) {
    forall k :: 0 <= k < |outs| && !Idle(outs[k]) ==> Within(lib, outs[k].compensated, force, torque)
  }

  ghost predicate NothingOut(outs: seq<Output>) { forall k :: 0 <= k < |outs| ==> outs[k].correction == NO_CORRECTION }

  lemma ActivatedAtRest(lib: Library, p: Params, c: Core, start: Abc, tool: Abc, mount: Abc)
    requires Sound(lib)
    ensures AtRest(ActivateOf(lib, p, c, start, tool, mount))
  {
    hide TcpFromSensor, Rotation;
    TcpFromSensorIsRotation(lib, tool, mount);
  }

  /** While the ramp is over its deadbands are final; while it is not, no cycle complies. */
  lemma LoudestSoFar(lib: Library, p: Params, c: Core, outs: seq<Output>, i: Input, dt: real)
    requires dt >= 0.0 && Learned(lib, p, c, outs)
    requires var (d, o) := PipelineOf(lib, p, c, i, dt);
             QuietRun(lib, outs + [o], LoudestForce(lib, outs + [o]) + p.rampForceMargin,
               LoudestTorque(lib, outs + [o]) + p.rampTorqueMargin)
    ensures QuietRun(lib, outs, LoudestForce(lib, outs) + p.rampForceMargin,
            LoudestTorque(lib, outs) + p.rampTorqueMargin)
    ensures var (d, o) := PipelineOf(lib, p, c, i, dt);
            Idle(o) || Within(lib, o.compensated, c.forceDeadband, c.torqueDeadband)
  {
    hide PipelineOf, Within;
    CycleKinds(lib, p, c, i, dt);
    var (d, o) := PipelineOf(lib, p, c, i, dt);
    var all := outs + [o];
    assert all[..|outs|] == outs && all[|outs|] == o;
    assert forall k :: 0 <= k < |outs| ==> all[k] == outs[k];
    if o.rampActive { assert c.ramp.active; }
  }

  /**
   * After an activation that starts the ramp, and with no motion goal, every correction is zero for as long as no
   * compensated force or torque exceeds the loudest one heard during the ramp plus its margin.
   */
  lemma {:induction false} NothingOutWithinDeadband(lib: Library, p: Params, c: Core, start: Abc, tool: Abc,
                                                    mount: Abc, cycles: seq<Cycle>)
    requires Sound(lib) && Limits(p) && p.adaptive && Timely(cycles)
    requires var (d, outs) := RunOf(lib, p, ActivateOf(lib, p, c, start, tool, mount), cycles);
             QuietRun(lib, outs, LoudestForce(lib, outs) + p.rampForceMargin,
               LoudestTorque(lib, outs) + p.rampTorqueMargin)
    ensures var (d, outs) := RunOf(lib, p, ActivateOf(lib, p, c, start, tool, mount), cycles);
            NothingOut(outs) && AtRest(d)
  {
    hide PipelineOf, ActivateOf, AtRest, QuietRun, Learned, LoudestForce, LoudestTorque, Limits;
    var a := ActivateOf(lib, p, c, start, tool, mount);
    if cycles == [] {
      ActivatedAtRest(lib, p, c, start, tool, mount);
    } else {
      var n := |cycles| - 1;
      var (before, outs) := RunOf(lib, p, a, cycles[..n]);
      RampLearns(lib, p, c, start, tool, mount, cycles[..n]);
      LoudestSoFar(lib, p, before, outs, cycles[n].input, cycles[n].dt);
      NothingOutWithinDeadband(lib, p, c, start, tool, mount, cycles[..n]);
      CycleStaysStill(lib, p, before, cycles[n].input, cycles[n].dt);
    }
  }

  // ----- Every output is within the limits -----

  predicate Slow(prev: Six, l: Law) {
    && Abs(prev.x) <= l.translation.maxSpeed && Abs(prev.y) <= l.translation.maxSpeed
       && Abs(prev.z) <= l.translation.maxSpeed
    && Abs(prev.a) <= l.rotation.maxSpeed && Abs(prev.b) <= l.rotation.maxSpeed && Abs(prev.c) <= l.rotation.maxSpeed
  }

  /** An axis keeps its speed cap, and with an acceleration limit moves by at most that much from its last velocity. */
  lemma AxisKeepsLimits(f: real, g: AxisGroup, scale: real, dt: real, previous: real)
    requires g.maxSpeed >= 0.0 && dt >= 0.0 && Abs(previous) <= g.maxSpeed
    ensures var v := AxisVelocity(f, g, scale, dt, previous);
            Abs(v) <= g.maxSpeed && (g.maxAccel > 0.0 ==> Abs(v - previous) <= g.maxAccel * dt)
  {
    if g.maxAccel > 0.0 { assert g.maxAccel * dt >= 0.0; }
  }

  lemma VelocitiesKeepLimits(prev: Six, w: Wrench, l: Law, dt: real)
    requires l.translation.maxSpeed >= 0.0 && l.rotation.maxSpeed >= 0.0 && dt >= 0.0 && Slow(prev, l)
    ensures Slow(VelocitiesOf(prev, w, l, dt), l)
  {
    hide AxisVelocity;
    AxisKeepsLimits(w.fx, l.translation, l.scale, dt, prev.x);
    AxisKeepsLimits(w.fy, l.translation, l.scale, dt, prev.y);
    AxisKeepsLimits(w.fz, l.translation, l.scale, dt, prev.z);
    AxisKeepsLimits(w.tz, l.rotation, l.scale, dt, prev.a);
    AxisKeepsLimits(w.ty, l.rotation, l.scale, dt, prev.b);
    AxisKeepsLimits(w.tx, l.rotation, l.scale, dt, prev.c);
  }

  predicate OverCeiling(w: Wrench, p: Safety) {
    Exceeds(ForceSquare(w), p.forceCeiling) || Exceeds(TorqueSquare(w), p.torqueCeiling)
  }

  predicate Safe(o: Output, p: Safety) {
    && WithinLimits(o.correction, p)
    && (!o.timedOut ==> (o.hardCutoff <==> OverCeiling(o.compensated, p)))
    && (o.timedOut || o.rampActive || o.hardCutoff ==> o.correction == NO_CORRECTION)
  }

  lemma LimitIsSafe(r: Correction, w: Wrench, p: Safety)
    requires p.maxTrans >= 0.0 && p.maxRot >= 0.0
    ensures var l := LimitOf(r, w, p);
            WithinLimits(l.correction, p) && (l.hardCutoff <==> OverCeiling(w, p))
              && (l.hardCutoff ==> l.correction == NO_CORRECTION)
  {
    hide Exceeds, ForceSquare, TorqueSquare;
  }

  lemma CycleIsSafe(lib: Library, p: Params, c: Core, i: Input, dt: real)
    requires Limits(p) && dt >= 0.0 && Slow(c.prev, p.law)
    ensures var (d, o) := PipelineOf(lib, p, c, i, dt); Safe(o, p.safety) && Slow(d.prev, p.law)
  {
    hide Rotated, Mul, CompensateOf, FilterOf, AngularDistance, ForceNorm, TorqueNorm, RampUpdateOf, ComplyOf, LimitOf;
    hide OverCeiling, VelocitiesOf;
    if i.valid && i.age <= p.wrenchTimeout {
      var (c1, filtered, w) := SensedOf(lib, p, c, i, dt);
      if c1.ramp.active {
        LimitIsSafe(NO_CORRECTION, w, p.safety);
      } else {
        var (c2, r, tared) := TareOf(lib, p, c1, i.pose, filtered, w);
        ComplyIsSafe(lib, p, c2, i.pose, r, tared, dt);
      }
    }
  }

  lemma ComplyIsSafe(lib: Library, p: Params, c: Core, pose: Abc, w: Wrench, tared: bool, dt: real)
    requires Limits(p) && dt >= 0.0 && Slow(c.prev, p.law)
    ensures var (d, o) := ComplyOf(lib, p, c, pose, w, tared, dt); Safe(o, p.safety) && Slow(d.prev, p.law)
  {
    hide Rotated, ToolToBase, VelocitiesOf, Times6, SensorToTool, UpdateOf, LimitOf, Sum, OverCeiling, WithinLimits;
    var l := LawOf(p, c);
    VelocitiesKeepLimits(c.prev, SensorToTool(c.frame, w), l, dt);
    var base := ToolToBase(Times6(VelocitiesOf(c.prev, SensorToTool(c.frame, w), l, dt), dt), Rotated(lib, pose));
    var (motion, turn) := UpdateOf(c.motion, Angles(pose.a, pose.b, pose.c), dt);
    LimitIsSafe(Sum(base, turn), w, p.safety);
  }

  /** In every run, compliance plus motion stays within the per-cycle limits, and above a ceiling nothing is put out. */
  lemma {:induction false} EveryOutputIsSafe(lib: Library, p: Params, c: Core, start: Abc, tool: Abc, mount: Abc,
                                             cycles: seq<Cycle>)
    requires Limits(p) && Timely(cycles)
    ensures var (d, outs) := RunOf(lib, p, ActivateOf(lib, p, c, start, tool, mount), cycles);
            Slow(d.prev, p.law) && forall k :: 0 <= k < |outs| ==> Safe(outs[k], p.safety)
  {
    hide PipelineOf, TcpFromSensor, Safe;
    if cycles != [] {
      var n := |cycles| - 1;
      EveryOutputIsSafe(lib, p, c, start, tool, mount, cycles[..n]);
      var (before, outs) := RunOf(lib, p, ActivateOf(lib, p, c, start, tool, mount), cycles[..n]);
      CycleIsSafe(lib, p, before, cycles[n].input, cycles[n].dt);
    }
  }

  // ----- The sensor is zeroed at most once per return to the reference -----

  /** In this cycle the tool was clearly away from the reference orientation. */
  predicate Away(lib: Library, p: Params, ref: Abc, pose: Abc) {
    AngularDistance(lib, Rotated(lib, ref), Rotated(lib, pose)) > p.retare.tolerance * p.retare.rearmFactor
  }

  /** The tool has been away in a cycle before cycle k, and no zeroing happened from there up to k. */
  ghost predicate AwaySince(away: Abc -> bool, cycles: seq<Cycle>, outs: seq<Output>, k: nat)
    requires k <= |cycles| == |outs|
  {
    exists m :: 0 <= m < k && AwayAt(away, cycles, m) && NoTare(outs, m, k)
  }

  predicate AwayAt(away: Abc -> bool, cycles: seq<Cycle>, m: nat)
    requires m < |cycles|
  {
    away(cycles[m].input.pose)
  }

  ghost predicate NoTare(outs: seq<Output>, from: nat, to: nat)
    requires to <= |outs|
  {
    forall k :: from <= k < to ==> !outs[k].tared
  }

  ghost predicate TellsAway(away: Abc -> bool, lib: Library, p: Params, ref: Abc) {
    forall pose :: away(pose) <==> Away(lib, p, ref, pose)
  }

  lemma TareStep(lib: Library, p: Params, c: Core, i: Input, dt: real)
    requires dt >= 0.0
    ensures var (d, o) := PipelineOf(lib, p, c, i, dt);
            && d.ref == c.ref
            && (o.tared ==> !d.armed && (c.armed || Away(lib, p, c.ref, i.pose)))
            && (d.armed ==> c.armed || Away(lib, p, c.ref, i.pose))
            && (o.tared ==> o.compensated == ZERO)
  {
    hide Rotated, Mul, CompensateOf, FilterOf, AngularDistance, ForceNorm, TorqueNorm, RampUpdateOf, ToolToBase;
    hide VelocitiesOf, LimitOf, UpdateOf;
    var (c1, filtered, w) := SensedOf(lib, p, c, i, dt);
    AbsorbedIsZero(c1.payload, filtered, Mul(Rotated(lib, i.pose), c1.frame));
  }

  lemma AwayGrows(away: Abc -> bool, cycles: seq<Cycle>, outs: seq<Output>, c: Cycle, o: Output, k: nat)
    requires k <= |cycles| == |outs| && AwaySince(away, cycles, outs, k)
    ensures AwaySince(away, cycles + [c], outs + [o], k)
    ensures k == |cycles| && !o.tared ==> AwaySince(away, cycles + [c], outs + [o], k + 1)
  {
    var m :| 0 <= m < k && AwayAt(away, cycles, m) && NoTare(outs, m, k);
    assert AwayAt(away, cycles + [c], m) && NoTare(outs + [o], m, k);
    if k == |cycles| && !o.tared { assert NoTare(outs + [o], m, k + 1); }
  }

  lemma AwayNow(away: Abc -> bool, cycles: seq<Cycle>, outs: seq<Output>, c: Cycle, o: Output)
    requires |cycles| == |outs| && away(c.input.pose) && !o.tared
    ensures AwaySince(away, cycles + [c], outs + [o], |cycles| + 1)
  {
    assert AwayAt(away, cycles + [c], |cycles|) && NoTare(outs + [o], |cycles|, |cycles| + 1);
  }

  lemma {:induction false} ArmedMeans(lib: Library, p: Params, a: Core, away: Abc -> bool, cycles: seq<Cycle>, d: Core,
                                      outs: seq<Output>)
    requires Timely(cycles) && TellsAway(away, lib, p, a.ref) && !a.armed && (d, outs) == RunOf(lib, p, a, cycles)
    ensures d.ref == a.ref && (d.armed ==> AwaySince(away, cycles, outs, |cycles|))
  {
    hide PipelineOf, Away, AwaySince;
    if cycles != [] {
      var n := |cycles| - 1;
      var (before, start) := RunOf(lib, p, a, cycles[..n]);
      ArmedMeans(lib, p, a, away, cycles[..n], before, start);
      TareStep(lib, p, before, cycles[n].input, cycles[n].dt);
      assert cycles[..n] + [cycles[n]] == cycles && start + [outs[n]] == outs;
      if d.armed {
        if before.armed { AwayGrows(away, cycles[..n], start, cycles[n], outs[n], n); }
        else { AwayNow(away, cycles[..n], start, cycles[n], outs[n]); }
      }
    }
  }

  /**
   * The residual is absorbed only after a cycle away from the reference, with no other absorption in between: at most
   * once per return. A cycle that is itself away counts (possible only when the re-arm factor is below 1).
   */
  lemma {:induction false} TareNeedsLeaving(lib: Library, p: Params, c: Core, start: Abc, tool: Abc, mount: Abc,
                                            away: Abc -> bool,
                                            cycles: seq<Cycle>, k: nat)
    requires Timely(cycles) && k < |cycles| && TellsAway(away, lib, p, start)
    ensures var outs := RunOf(lib, p, ActivateOf(lib, p, c, start, tool, mount), cycles).1;
            outs[k].tared ==> away(cycles[k].input.pose) || AwaySince(away, cycles, outs, k)
  {
    hide PipelineOf, TcpFromSensor, Away, AwaySince;
    var n := |cycles| - 1;
    var a := ActivateOf(lib, p, c, start, tool, mount);
    var (before, outs) := RunOf(lib, p, a, cycles[..n]);
    var (d, o) := PipelineOf(lib, p, before, cycles[n].input, cycles[n].dt);
    assert cycles[..n] + [cycles[n]] == cycles;
    ArmedMeans(lib, p, a, away, cycles[..n], before, outs);
    TareStep(lib, p, before, cycles[n].input, cycles[n].dt);
    if k < n { TareNeedsLeaving(lib, p, c, start, tool, mount, away, cycles[..n], k); }
    if AwaySince(away, cycles[..n], outs, k) { AwayGrows(away, cycles[..n], outs, cycles[n], o, k); }
  }
}
