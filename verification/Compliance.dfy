/** The force compliance controller: deadband ramp, admittance law, and the realtime pipeline around them. */
module Compliance {
  import opened RealMath
  import opened Types
  import opened Geometry
  import opened PayloadModel
  import opened Motion

  function ForceNorm(lib: Library, w: Wrench): real { lib.sqrt(ForceSquare(w)) }
  function TorqueNorm(lib: Library, w: Wrench): real { lib.sqrt(TorqueSquare(w)) }

  // ----- The adaptive deadband -----

  datatype Ramp = Ramp(active: bool, remaining: real, forceMargin: real, torqueMargin: real, maxForce: real,
                       maxTorque: real, forceDeadband: real, torqueDeadband: real)
  const NO_RAMP := Ramp(false, 0.0, 0.0, 0.0, 0.0, 0.0, 0.0, 0.0)

  function RampStartOf(r: Ramp, window: real, forceMargin: real, torqueMargin: real): Ramp {
    Ramp(true, window, forceMargin, torqueMargin, 0.0, 0.0, r.forceDeadband, r.torqueDeadband)
  }

  function RampUpdateOf(lib: Library, r: Ramp, w: Wrench, dt: real): Ramp {
    if !r.active then r
    else
      var r := r.(maxForce := Max(r.maxForce, ForceNorm(lib, w)), maxTorque := Max(r.maxTorque, TorqueNorm(lib, w)),
                  remaining := r.remaining - dt);
      if r.remaining > 0.0 then r
      else r.(active := false, forceDeadband := r.maxForce + r.forceMargin,
        torqueDeadband := r.maxTorque + r.torqueMargin)
  }

  class AdaptiveDeadband {
    const lib: Library
    var active: bool
    var remaining: real
    var forceMargin: real
    var torqueMargin: real
    var maxForce: real
    var maxTorque: real
    var forceDeadband: real
    var torqueDeadband: real

    ghost function View(): Ramp
      reads this
    {
      Ramp(active, remaining, forceMargin, torqueMargin, maxForce, maxTorque, forceDeadband, torqueDeadband)
    }

    constructor (lib: Library)
      ensures View() == NO_RAMP && this.lib == lib
    {
      this.lib := lib;
      active, remaining, forceMargin, torqueMargin := false, 0.0, 0.0, 0.0;
      maxForce, maxTorque, forceDeadband, torqueDeadband := 0.0, 0.0, 0.0, 0.0;
    }

    method Start(window: real, forceMargin: real, torqueMargin: real)
      modifies this
      ensures View() == RampStartOf(old(View()), window, forceMargin, torqueMargin)
    {
      active := true;
      remaining := window;
      this.forceMargin := forceMargin;
      this.torqueMargin := torqueMargin;
      maxForce := 0.0;
      maxTorque := 0.0;
    }

    method Update(w: Wrench, dt: real) returns (ramping: bool)
      modifies this
      ensures View() == RampUpdateOf(lib, old(View()), w, dt) && ramping == View().active
    {
      if !active { return false; }
      maxForce := Max(maxForce, ForceNorm(lib, w));
      maxTorque := Max(maxTorque, TorqueNorm(lib, w));
      remaining := remaining - dt;
      if remaining <= 0.0 {
        active := false;
        forceDeadband := maxForce + forceMargin;
        torqueDeadband := maxTorque + torqueMargin;
      }
      return active;
    }
  }

  // ----- The admittance law -----

  datatype AxisGroup = AxisGroup(gain: real, deadband: real, maxSpeed: real, maxAccel: real)
  datatype Law = Law(translation: AxisGroup, rotation: AxisGroup, scale: real)

  function Deadzone(f: real, deadband: real): real {
    if Abs(f) <= deadband then 0.0 else if f > 0.0 then f - deadband else f + deadband
  }

  function AxisVelocity(f: real, g: AxisGroup, scale: real, dt: real, previous: real): real {
    var v := Clamp(g.gain * Deadzone(f, g.deadband) * scale, g.maxSpeed);
    if g.maxAccel > 0.0 then
      var dv := g.maxAccel * dt;
      Max(previous - dv, Min(previous + dv, v))
    else v
  }

  /** The rate limiter's memory, and corrections: x, y, z, a, b, c. */
  datatype Six = Six(x: real, y: real, z: real, a: real, b: real, c: real)
  const STILL := Six(0.0, 0.0, 0.0, 0.0, 0.0, 0.0)

  /** fx drives x, fy y, fz z, tz a, ty b, tx c. */
  function VelocitiesOf(prev: Six, w: Wrench, l: Law, dt: real): Six {
    Six(AxisVelocity(w.fx, l.translation, l.scale, dt, prev.x), AxisVelocity(w.fy, l.translation, l.scale, dt, prev.y),
        AxisVelocity(w.fz, l.translation, l.scale, dt, prev.z), AxisVelocity(w.tz, l.rotation, l.scale, dt, prev.a),
        AxisVelocity(w.ty, l.rotation, l.scale, dt, prev.b), AxisVelocity(w.tx, l.rotation, l.scale, dt, prev.c))
  }

  function Times6(v: Six, dt: real): Six { Six(v.x * dt, v.y * dt, v.z * dt, v.a * dt, v.b * dt, v.c * dt) }

  class ComplianceLaw {
    var prev: Six

    constructor ()
      ensures prev == STILL
    {
      prev := STILL;
    }

    method Reset()
      modifies this
      ensures prev == STILL
    {
      prev := STILL;
    }

    /** One axis: deadzone, gain, speed cap, then the acceleration limit against the previous velocity. */
    static method Axis(f: real, g: AxisGroup, scale: real, dt: real, previous: real) returns (v: real)
      ensures v == AxisVelocity(f, g, scale, dt, previous)
    {
      v := Clamp(g.gain * Deadzone(f, g.deadband) * scale, g.maxSpeed);
      if g.maxAccel > 0.0 {
        var dv := g.maxAccel * dt;
        v := Max(previous - dv, Min(previous + dv, v));
      }
    }

    method Compute(w: Wrench, l: Law, dt: real) returns (c: Six)
      modifies this
      ensures prev == VelocitiesOf(old(prev), w, l, dt) && c == Times6(prev, dt)
    {
      var x := Axis(w.fx, l.translation, l.scale, dt, prev.x);
      var y := Axis(w.fy, l.translation, l.scale, dt, prev.y);
      var z := Axis(w.fz, l.translation, l.scale, dt, prev.z);
      var a := Axis(w.tz, l.rotation, l.scale, dt, prev.a);
      var b := Axis(w.ty, l.rotation, l.scale, dt, prev.b);
      var d := Axis(w.tx, l.rotation, l.scale, dt, prev.c);
      prev := Six(x, y, z, a, b, d);
      c := Times6(prev, dt);
    }
  }

  /** Angles turn as a rotation vector (c, b, a). */
  function ToolToBase(c: Six, baseFromTcp: Mat): Six {
    var p := Apply(baseFromTcp, Vec(c.x, c.y, c.z));
    var w := Apply(baseFromTcp, Vec(c.c, c.b, c.a));
    Six(p.x, p.y, p.z, w.z, w.y, w.x)
  }

  // ----- The pipeline -----

  datatype Retare = Retare(enabled: bool, tolerance: real, rearmFactor: real)

  datatype Params = Params(cutoff: real, law: Law, fixedForceDeadband: real, fixedTorqueDeadband: real, adaptive: bool,
                           rampWindow: real, rampForceMargin: real, rampTorqueMargin: real, retare: Retare,
                           safety: Safety, payload: Payload, wrenchTimeout: real)

  datatype Core = Core(filter: Filter, payload: Payload, frame: Mat, prev: Six, ramp: Ramp, motion: Motion, ref: Abc,
                       armed: bool, forceDeadband: real, torqueDeadband: real)

  datatype Input = Input(pose: Abc, raw: Wrench, age: real, valid: bool)

  datatype Output = Output(correction: Correction, rampActive: bool, timedOut: bool, hardCutoff: bool, saturated: bool,
                           tared: bool, compensated: Wrench)
  const NO_OUTPUT := Output(NO_CORRECTION, false, false, false, false, false, ZERO)

  function ConfigureOf(p: Params, c: Core): Core {
    c.(filter := Filter(false, ZERO), payload := p.payload, prev := STILL, motion := c.motion.(status := Inactive),
       ramp := NO_RAMP, armed := false, forceDeadband := p.fixedForceDeadband, torqueDeadband := p.fixedTorqueDeadband)
  }

  function ActivateOf(lib: Library, p: Params, c: Core, start: Abc, tool: Abc, mount: Abc): Core {
    c.(frame := TcpFromSensor(lib, tool, mount), filter := c.filter.(initialized := false), prev := STILL,
       motion := c.motion.(status := Inactive), ref := start, armed := false,
       forceDeadband := p.fixedForceDeadband, torqueDeadband := p.fixedTorqueDeadband,
       ramp := if p.adaptive then RampStartOf(c.ramp, p.rampWindow, p.rampForceMargin, p.rampTorqueMargin) else c.ramp)
  }

  function Rotated(lib: Library, pose: Abc): Mat { KukaAbc(lib, pose.a, pose.b, pose.c) }

  /** Filtered and compensated. */
  function SensedOf(lib: Library, p: Params, c: Core, i: Input, dt: real): (Core, Wrench, Wrench)
    requires dt >= 0.0
  {
    var (filter, filtered) := FilterOf(c.filter, p.cutoff, i.raw, dt);
    (c.(filter := filter), filtered, CompensateOf(c.payload, filtered, Mul(Rotated(lib, i.pose), c.frame)))
  }

  /** During the ramp: learn, and put out nothing. */
  function RampingOf(lib: Library, p: Params, c: Core, w: Wrench, dt: real): (Core, Output) {
    var ramp := RampUpdateOf(lib, c.ramp, w, dt);
    var c := c.(ramp := ramp);
    var c := if ramp.active then c else c.(forceDeadband := ramp.forceDeadband, torqueDeadband := ramp.torqueDeadband);
    (c, NO_OUTPUT.(rampActive := true, compensated := w, hardCutoff := LimitOf(NO_CORRECTION, w, p.safety).hardCutoff))
  }

  /** Back at the reference orientation, with a residual inside the deadbands. */
  predicate ShouldTare(lib: Library, p: Retare, ref: Abc, pose: Abc, w: Wrench, forceDeadband: real,
                       torqueDeadband: real) {
    && p.enabled
    && AngularDistance(lib, Rotated(lib, ref), Rotated(lib, pose)) <= p.tolerance
    && ForceNorm(lib, w) < forceDeadband && TorqueNorm(lib, w) < torqueDeadband
  }

  /** Re-armed away from the reference; fires at most once per return. */
  function TareOf(lib: Library, p: Params, c: Core, pose: Abc, filtered: Wrench, w: Wrench): (Core, Wrench, bool) {
    var distance := AngularDistance(lib, Rotated(lib, c.ref), Rotated(lib, pose));
    var away := distance > p.retare.tolerance * p.retare.rearmFactor;
    var c := c.(armed := c.armed || away);
    if c.armed && ShouldTare(lib, p.retare, c.ref, pose, w, c.forceDeadband, c.torqueDeadband) then
      var c := c.(payload := c.payload.(bias := Add(c.payload.bias, w)), armed := false);
      (c, CompensateOf(c.payload, filtered, Mul(Rotated(lib, pose), c.frame)), true)
    else (c, w, false)
  }

  function LawOf(p: Params, c: Core): Law {
    p.law.(translation := p.law.translation.(deadband := c.forceDeadband),
      rotation := p.law.rotation.(deadband := c.torqueDeadband))
  }

  function Sum(c: Six, turn: Angles): Correction {
    Correction(c.x + 0.0, c.y + 0.0, c.z + 0.0, Angles(c.a + turn.a, c.b + turn.b, c.c + turn.c))
  }

  /** Admittance in the tool frame, back to base, plus the embedded motion, then the limiter. */
  function ComplyOf(lib: Library, p: Params, c: Core, pose: Abc, w: Wrench, tared: bool, dt: real): (Core, Output) {
    var prev := VelocitiesOf(c.prev, SensorToTool(c.frame, w), LawOf(p, c), dt);
    var base := ToolToBase(Times6(prev, dt), Rotated(lib, pose));
    var (motion, turn) := UpdateOf(c.motion, Angles(pose.a, pose.b, pose.c), dt);
    var r := LimitOf(Sum(base, turn), w, p.safety);
    (c.(prev := if r.hardCutoff then STILL else prev, motion := motion),
     Output(r.correction, false, false, r.hardCutoff, r.saturated, tared, w))
  }

  function PipelineOf(lib: Library, p: Params, c: Core, i: Input, dt: real): (Core, Output)
    requires dt >= 0.0
  {
    if !i.valid || i.age > p.wrenchTimeout then (c.(prev := STILL), NO_OUTPUT.(timedOut := true))
    else
      var (c, filtered, w) := SensedOf(lib, p, c, i, dt);
      if c.ramp.active then RampingOf(lib, p, c, w, dt)
      else
        var (c, w, tared) := TareOf(lib, p, c, i.pose, filtered, w);
        ComplyOf(lib, p, c, i.pose, w, tared, dt)
  }

  class ForceTorqueFilter {
    const cutoff: real
    var filter: Filter

    constructor (cutoff: real)
      ensures filter == Filter(false, ZERO) && this.cutoff == cutoff
    {
      this.cutoff, filter := cutoff, Filter(false, ZERO);
    }

    method Reset()
      modifies this
      ensures filter == old(filter).(initialized := false)
    {
      filter := filter.(initialized := false);
    }

    method Apply(w: Wrench, dt: real) returns (r: Wrench)
      requires dt >= 0.0
      modifies this
      ensures (filter, r) == FilterOf(old(filter), cutoff, w, dt)
    {
      if cutoff <= 0.0 { return w; }
      if !filter.initialized {
        filter := Filter(true, w);
        return w;
      }
      var rc := 1.0 / (2.0 * PI * cutoff);
      var alpha := dt / (dt + rc);
      var s := filter.state;
      r := Wrench(Blend(s.fx, w.fx, alpha), Blend(s.fy, w.fy, alpha), Blend(s.fz, w.fz, alpha),
                  Blend(s.tx, w.tx, alpha), Blend(s.ty, w.ty, alpha), Blend(s.tz, w.tz, alpha));
      filter := filter.(state := r);
    }
  }

  class ForceComplianceCore {
    const lib: Library
    var params: Params
    var filter: ForceTorqueFilter
    const compensator: ToolGravityCompensator
    const frame: FrameResolver
    const law: ComplianceLaw
    var ramp: AdaptiveDeadband
    const motion: OrientationMotionCore
    var ref: Abc
    var armed: bool
    var forceDeadband: real
    var torqueDeadband: real

    ghost function Parts(): set<object>
      reads this
    {
      {filter, compensator, frame, law, ramp, motion}
    }

    ghost predicate Valid()
      reads this, Parts()
    {
      compensator.lib == lib && frame.lib == lib && ramp.lib == lib && filter.cutoff == params.cutoff
    }

    ghost function View(): Core
      reads this, Parts()
    {
      Core(filter.filter, compensator.params, frame.tcpFromSensor, law.prev, ramp.View(), motion.View(), ref, armed,
           forceDeadband, torqueDeadband)
    }

    constructor (lib: Library, p: Params, g: Goal)
      ensures Valid() && this.lib == lib && params == p && fresh(Parts())
      ensures View() == Core(Filter(false, ZERO), p.payload, IDENTITY, STILL, NO_RAMP, Motion(g, Inactive, 0.0, 0.0),
                             Abc(0.0, 0.0, 0.0), false, 0.0, 0.0)
    {
      this.lib, params := lib, p;
      filter := new ForceTorqueFilter(p.cutoff);
      compensator := new ToolGravityCompensator(lib, p.payload);
      frame := new FrameResolver(lib);
      law := new ComplianceLaw();
      ramp := new AdaptiveDeadband(lib);
      motion := new OrientationMotionCore(g);
      ref, armed, forceDeadband, torqueDeadband := Abc(0.0, 0.0, 0.0), false, 0.0, 0.0;
    }

    method Configure(p: Params)
      requires Valid()
      modifies this, Parts()
      ensures Valid() && params == p && View() == ConfigureOf(p, old(View()))
      ensures fresh(Parts() - old(Parts()))
    {
      params := p;
      filter := new ForceTorqueFilter(p.cutoff);
      compensator.SetParams(p.payload);
      law.Reset();
      motion.Cancel();
      ramp := new AdaptiveDeadband(lib);
      armed := false;
      forceDeadband := p.fixedForceDeadband;
      torqueDeadband := p.fixedTorqueDeadband;
    }

    method Activate(start: Abc, tool: Abc, mount: Abc)
      requires Valid()
      modifies this, Parts()
      ensures Valid() && params == old(params) && Parts() == old(Parts())
      ensures View() == ActivateOf(lib, params, old(View()), start, tool, mount)
    {
      hide TcpFromSensor;
      frame.Configure(tool, mount);
      filter.Reset();
      law.Reset();
      motion.Cancel();
      ref := start;
      armed := false;
      forceDeadband := params.fixedForceDeadband;
      torqueDeadband := params.fixedTorqueDeadband;
      if params.adaptive {
        ramp.Start(params.rampWindow, params.rampForceMargin, params.rampTorqueMargin);
      }
    }

    /** One cycle of the startup ramp. */
    method Learn(w: Wrench, dt: real) returns (out: Output)
      requires Valid()
      modifies this`forceDeadband, this`torqueDeadband, ramp
      ensures Valid() && (View(), out) == RampingOf(lib, params, old(View()), w, dt)
    {
      var ramping := ramp.Update(w, dt);
      if !ramping {
        forceDeadband := ramp.forceDeadband;
        torqueDeadband := ramp.torqueDeadband;
      }
      var guard := LimitOf(NO_CORRECTION, w, params.safety);
      out := NO_OUTPUT.(rampActive := true, compensated := w, hardCutoff := guard.hardCutoff);
    }

    method Tare(pose: Abc, filtered: Wrench, w: Wrench) returns (r: Wrench, tared: bool)
      requires Valid()
      modifies this`armed, compensator
      ensures Valid() && (View(), r, tared) == TareOf(lib, params, old(View()), pose, filtered, w)
    {
      hide AngularDistance, Rotated, Mul, ForceNorm, TorqueNorm;
      r, tared := w, false;
      var distance := AngularDistance(lib, Rotated(lib, ref), Rotated(lib, pose));
      if distance > params.retare.tolerance * params.retare.rearmFactor { armed := true; }
      if armed && ShouldTare(lib, params.retare, ref, pose, w, forceDeadband, torqueDeadband) {
        compensator.AbsorbResidual(w);
        armed := false;
        tared := true;
        r := compensator.Compensate(filtered, Mul(Rotated(lib, pose), frame.tcpFromSensor));
      }
    }

    method Comply(pose: Abc, w: Wrench, tared: bool, dt: real) returns (out: Output)
      requires Valid()
      modifies law, motion
      ensures Valid() && (View(), out) == ComplyOf(lib, params, old(View()), pose, w, tared, dt)
    {
      hide Rotated, SensorToTool, ToolToBase, VelocitiesOf, Times6, UpdateOf, LimitOf;
      var l := params.law.(translation := params.law.translation.(deadband := forceDeadband),
                           rotation := params.law.rotation.(deadband := torqueDeadband));
      var c := law.Compute(frame.WrenchSensorToTool(w), l, dt);
      var base := ToolToBase(c, Rotated(lib, pose));
      var turn := motion.Update(Angles(pose.a, pose.b, pose.c), dt);
      var r := LimitOf(Sum(base, turn), w, params.safety);
      out := Output(r.correction, false, false, r.hardCutoff, r.saturated, tared, w);
      if r.hardCutoff { law.Reset(); }
    }

    method Update(i: Input, dt: real) returns (out: Output)
      requires Valid() && dt >= 0.0
      modifies this, Parts()
      ensures Valid() && params == old(params) && Parts() == old(Parts())
      ensures (View(), out) == PipelineOf(lib, params, old(View()), i, dt)
    {
      hide Rotated, Mul, CompensateOf, FilterOf, RampingOf, TareOf, ComplyOf;
      if !i.valid || i.age > params.wrenchTimeout {
        law.Reset();
        return NO_OUTPUT.(timedOut := true);
      }
      var filtered := filter.Apply(i.raw, dt);
      var w := compensator.Compensate(filtered, Mul(Rotated(lib, i.pose), frame.tcpFromSensor));
      if ramp.active {
        out := Learn(w, dt);
        return;
      }
      var r, tared := Tare(i.pose, filtered, w);
      out := Comply(i.pose, r, tared, dt);
    }
  }
}
