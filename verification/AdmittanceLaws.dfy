/**
 * What the admittance law, the filter and the frames do to a wrench: when the robot yields to it, and for how long an
 * acceleration limit or for which wrench the output limiter may still move it the other way.
 */
module AdmittanceLaws {
  import opened RealMath
  import opened Types
  import opened Geometry
  import opened PayloadModel
  import opened Motion
  import opened Compliance
  import opened ComplianceLaws

  function Sum3(u: Vec, v: Vec): Vec { Vec(u.x + v.x, u.y + v.y, u.z + v.z) }
  function Scale(k: real, v: Vec): Vec { Vec(k * v.x, k * v.y, k * v.z) }

  // ----- Rotations keep the inner product -----

  lemma SquareOfSum(u: Vec, v: Vec)
    ensures Square(Sum3(u, v)) == Square(u) + 2.0 * Dot(u, v) + Square(v)
  {
  }

  lemma ApplySum(m: Mat, u: Vec, v: Vec)
    ensures Apply(m, Sum3(u, v)) == Sum3(Apply(m, u), Apply(m, v))
  {
  }

  lemma RotationKeepsDot(m: Mat, u: Vec, v: Vec)
    requires Rotation(m)
    ensures Dot(Apply(m, u), Apply(m, v)) == Dot(u, v)
  {
    hide Apply, Dot, Square, Sum3;
    SquareOfSum(u, v);
    SquareOfSum(Apply(m, u), Apply(m, v));
    ApplySum(m, u, v);
    assert Square(Apply(m, Sum3(u, v))) == Square(Sum3(u, v));
  }

  lemma ApplyScale(m: Mat, k: real, v: Vec)
    ensures Apply(m, Scale(k, v)) == Scale(k, Apply(m, v))
  {
    DotScale(m.r0, k, v);
    DotScale(m.r1, k, v);
    DotScale(m.r2, k, v);
  }

  lemma DotScale(r: Vec, k: real, v: Vec)
    ensures Dot(r, Scale(k, v)) == k * Dot(r, v)
  {
  }

  lemma NotNegative(x: real, y: real)
    requires x >= 0.0 && y >= 0.0
    ensures x * y >= 0.0
  {
  }

  // ----- One axis: exactly when it moves against its force -----

  /** Gain, deadband and cap as every profile has them; the acceleration limit is arbitrary. */
  predicate Regular(g: AxisGroup) { g.gain >= 0.0 && g.deadband >= 0.0 && g.maxSpeed >= 0.0 }

  /** How fast v moves against f; negative when it moves with f. */
  function Against(v: real, f: real): real { if f > 0.0 then -v else if f < 0.0 then v else 0.0 }

  predicate Opposes(v: real, f: real) { Against(v, f) > 0.0 }

  /** What the axis would do without acceleration limit. */
  function Target(f: real, g: AxisGroup, scale: real): real {
    Clamp(g.gain * Deadzone(f, g.deadband) * scale, g.maxSpeed)
  }

  lemma DeadzoneKeepsSign(f: real, deadband: real)
    requires deadband >= 0.0
    ensures var z := Deadzone(f, deadband); (f >= 0.0 ==> 0.0 <= z <= f) && (f <= 0.0 ==> f <= z <= 0.0)
  {
  }

  lemma TargetYields(f: real, g: AxisGroup, scale: real)
    requires Regular(g) && scale >= 0.0
    ensures var v := Target(f, g, scale); Abs(v) <= g.maxSpeed && (f >= 0.0 ==> v >= 0.0) && (f <= 0.0 ==> v <= 0.0)
  {
    hide Deadzone;
    var z := Deadzone(f, g.deadband);
    DeadzoneKeepsSign(f, g.deadband);
    if f >= 0.0 {
      NotNegative(g.gain, z);
      NotNegative(g.gain * z, scale);
    }
    if f <= 0.0 {
      NotNegative(g.gain, -z);
      NotNegative(g.gain * -z, scale);
      assert g.gain * z * scale == -(g.gain * -z * scale);
    }
  }

  /** The speed that a force calls for: gain and scale times what exceeds the deadband, on its side, up to the cap. */
  lemma TargetMeans(f: real, g: AxisGroup, scale: real)
    requires Regular(g) && scale >= 0.0
    ensures var v := Target(f, g, scale);
            && (Abs(f) <= g.deadband ==> v == 0.0)
            && (f > g.deadband ==> v == Min(g.maxSpeed, g.gain * (f - g.deadband) * scale))
            && (f < -g.deadband ==> v == -Min(g.maxSpeed, g.gain * (-f - g.deadband) * scale))
  {
    if f > g.deadband {
      NotNegative(g.gain, f - g.deadband);
      NotNegative(g.gain * (f - g.deadband), scale);
    }
    if f < -g.deadband {
      var x := -f - g.deadband;
      NotNegative(g.gain, x);
      NotNegative(g.gain * x, scale);
      assert g.gain * -x * scale == -(g.gain * x * scale);
    }
  }

  lemma VelocityIs(f: real, g: AxisGroup, scale: real, dt: real, previous: real)
    ensures AxisVelocity(f, g, scale, dt, previous) ==
              if g.maxAccel > 0.0
                then Max(previous - g.maxAccel * dt, Min(previous + g.maxAccel * dt, Target(f, g, scale)))
              else Target(f, g, scale)
  {
  }

  /** An axis moves against its force exactly when its last velocity did so by more than the limiter can take back. */
  lemma AxisOpposesIff(f: real, g: AxisGroup, scale: real, dt: real, previous: real)
    requires Regular(g) && scale >= 0.0 && dt >= 0.0
    ensures Opposes(AxisVelocity(f, g, scale, dt, previous), f)
            <==> g.maxAccel > 0.0 && Against(previous, f) > g.maxAccel * dt
  {
    hide AxisVelocity, Target;
    VelocityIs(f, g, scale, dt, previous);
    TargetYields(f, g, scale);
    if g.maxAccel > 0.0 { NotNegative(g.maxAccel, dt); }
  }

  /** ... and what it moves against the force shrinks by the limit in every cycle. */
  lemma AgainstShrinks(f: real, g: AxisGroup, scale: real, dt: real, previous: real)
    requires Regular(g) && scale >= 0.0 && dt >= 0.0
    ensures var a := Against(AxisVelocity(f, g, scale, dt, previous), f);
            a <= if g.maxAccel > 0.0 then Max(0.0, Against(previous, f) - g.maxAccel * dt) else 0.0
  {
    hide AxisVelocity, Target;
    VelocityIs(f, g, scale, dt, previous);
    TargetYields(f, g, scale);
    if g.maxAccel > 0.0 { NotNegative(g.maxAccel, dt); }
  }

  predicate SameSign(x: real, y: real) { (x > 0.0 <==> y > 0.0) && (x < 0.0 <==> y < 0.0) }

  /** One cycle of an axis. */
  datatype Push = Push(f: real, dt: real)

  function Time(pushes: seq<Push>): real {
    if pushes == [] then 0.0 else Time(pushes[..|pushes| - 1]) + pushes[|pushes| - 1].dt
  }

  function VelocityAfter(pushes: seq<Push>, g: AxisGroup, scale: real, v0: real): real {
    if pushes == [] then v0
    else
      var last := pushes[|pushes| - 1];
      AxisVelocity(last.f, g, scale, last.dt, VelocityAfter(pushes[..|pushes| - 1], g, scale, v0))
  }

  /** What the acceleration limit can change over these cycles. */
  function Reach(pushes: seq<Push>, maxAccel: real): real {
    if pushes == [] then 0.0 else Reach(pushes[..|pushes| - 1], maxAccel) + maxAccel * pushes[|pushes| - 1].dt
  }

  lemma {:induction false} ReachIs(pushes: seq<Push>, maxAccel: real)
    ensures Reach(pushes, maxAccel) == maxAccel * Time(pushes)
    decreases |pushes|
  {
    if pushes != [] {
      var front, last := pushes[..|pushes| - 1], pushes[|pushes| - 1];
      ReachIs(front, maxAccel);
      Distribute(maxAccel, Time(front), last.dt);
    }
  }

  lemma Distribute(a: real, x: real, y: real)
    ensures a * (x + y) == a * x + a * y
  {
  }

  /** Under a force of constant sign: at most what was there, less what the limit can change in the time gone by. */
  lemma {:induction false} AgainstAfter(pushes: seq<Push>, g: AxisGroup, scale: real, v0: real, sign: real)
    requires Regular(g) && scale >= 0.0 && g.maxAccel > 0.0 && Abs(v0) <= g.maxSpeed
    requires forall k :: 0 <= k < |pushes| ==> pushes[k].dt >= 0.0 && SameSign(pushes[k].f, sign)
    ensures Against(VelocityAfter(pushes, g, scale, v0), sign) <= Max(0.0, g.maxSpeed - Reach(pushes, g.maxAccel))
    decreases |pushes|
  {
    hide AxisVelocity, Against;
    if pushes != [] {
      var front, last := pushes[..|pushes| - 1], pushes[|pushes| - 1];
      AgainstAfter(front, g, scale, v0, sign);
      var v := VelocityAfter(front, g, scale, v0);
      AgainstShrinks(last.f, g, scale, last.dt, v);
      AgainstSign(v, last.f, sign);
      AgainstSign(VelocityAfter(pushes, g, scale, v0), last.f, sign);
      NotNegative(g.maxAccel, last.dt);
    } else {
      AgainstAtMost(v0, sign);
    }
  }

  lemma AgainstSign(v: real, f: real, sign: real)
    requires SameSign(f, sign)
    ensures Against(v, f) == Against(v, sign)
  {
  }

  lemma AgainstAtMost(v: real, f: real)
    ensures Against(v, f) <= Abs(v)
  {
  }

  /**
   * An axis stops moving against a force of constant sign once the limiter had the time to take back its whole speed.
   */
  lemma OppositionEnds(pushes: seq<Push>, g: AxisGroup, scale: real, v0: real, sign: real)
    requires Regular(g) && scale >= 0.0 && g.maxAccel > 0.0 && Abs(v0) <= g.maxSpeed
    requires forall k :: 0 <= k < |pushes| ==> pushes[k].dt >= 0.0 && SameSign(pushes[k].f, sign)
    requires g.maxAccel * Time(pushes) >= g.maxSpeed
    ensures !Opposes(VelocityAfter(pushes, g, scale, v0), sign)
  {
    hide VelocityAfter, Against;
    ReachIs(pushes, g.maxAccel);
    AgainstAfter(pushes, g, scale, v0, sign);
  }

  /** With a constant period: after ceil(maxSpeed / (maxAccel * dt)) cycles. */
  lemma OppositionEndsAfter(pushes: seq<Push>, g: AxisGroup, scale: real, v0: real, sign: real, dt: real)
    requires Regular(g) && scale >= 0.0 && g.maxAccel > 0.0 && Abs(v0) <= g.maxSpeed && dt > 0.0
    requires forall k :: 0 <= k < |pushes| ==> pushes[k].dt == dt && SameSign(pushes[k].f, sign)
    requires g.maxAccel * dt > 0.0 && |pushes| >= Ceil(g.maxSpeed / (g.maxAccel * dt))
    ensures !Opposes(VelocityAfter(pushes, g, scale, v0), sign)
  {
    hide VelocityAfter;
    var step, n := g.maxAccel * dt, |pushes|;
    CeilCovers(g.maxSpeed, step, n);
    TimeIs(pushes, dt);
    TimesIsProduct(n, dt);
    TimesIsProduct(n, step);
    var m := n as real;
    assert m * step == g.maxAccel * (m * dt);
    OppositionEnds(pushes, g, scale, v0, sign);
  }

  lemma {:induction false} TimeIs(pushes: seq<Push>, dt: real)
    requires forall k :: 0 <= k < |pushes| ==> pushes[k].dt == dt
    ensures Time(pushes) == Times(|pushes|, dt)
  {
    if pushes != [] { TimeIs(pushes[..|pushes| - 1], dt); }
  }

  /** Under a constant force the velocity comes closer to its target by what the limit can change. */
  lemma {:induction false} Approaches(pushes: seq<Push>, g: AxisGroup, scale: real, v0: real, f: real, t: real)
    requires Regular(g) && scale >= 0.0 && g.maxAccel > 0.0 && t == Target(f, g, scale)
    requires forall k :: 0 <= k < |pushes| ==> pushes[k].dt >= 0.0 && pushes[k].f == f
    ensures Abs(VelocityAfter(pushes, g, scale, v0) - t) <= Max(0.0, Abs(v0 - t) - Reach(pushes, g.maxAccel))
    decreases |pushes|
  {
    hide AxisVelocity, Target;
    if pushes != [] {
      var front, last := pushes[..|pushes| - 1], pushes[|pushes| - 1];
      Approaches(front, g, scale, v0, f, t);
      var v := VelocityAfter(front, g, scale, v0);
      VelocityIs(f, g, scale, last.dt, v);
      NotNegative(g.maxAccel, last.dt);
      Closer(v, t, g.maxAccel * last.dt);
    }
  }

  lemma Closer(v: real, t: real, step: real)
    requires step >= 0.0
    ensures Abs(Max(v - step, Min(v + step, t)) - t) <= Max(0.0, Abs(v - t) - step)
  {
  }

  /** So it is at its target after the time that the acceleration limit needs for the difference. */
  lemma AxisSettles(pushes: seq<Push>, g: AxisGroup, scale: real, v0: real, f: real)
    requires Regular(g) && scale >= 0.0 && g.maxAccel > 0.0
    requires forall k :: 0 <= k < |pushes| ==> pushes[k].dt >= 0.0 && pushes[k].f == f
    requires g.maxAccel * Time(pushes) >= Abs(v0 - Target(f, g, scale))
    ensures VelocityAfter(pushes, g, scale, v0) == Target(f, g, scale)
  {
    hide Target, VelocityAfter;
    ReachIs(pushes, g.maxAccel);
    Approaches(pushes, g, scale, v0, f, Target(f, g, scale));
  }

  // ----- Gravity does not depend on turns about the vertical -----

  /** A turn about the base's vertical, the A angle, leaves the third row alone: it comes last in the A/B/C rotation. */
  lemma ThirdRowIgnoresA(lib: Library, a: real, a': real, b: real, c: real)
    ensures KukaAbc(lib, a, b, c).r2 == KukaAbc(lib, a', b, c).r2
  {
    var (ra, rb, rc) := (DegToRad(a), DegToRad(b), DegToRad(c));
    ThirdRow(lib.sin(ra), lib.cos(ra), Ry(lib.sin(rb), lib.cos(rb)), Rx(lib.sin(rc), lib.cos(rc)));
    var ra' := DegToRad(a');
    ThirdRow(lib.sin(ra'), lib.cos(ra'), Ry(lib.sin(rb), lib.cos(rb)), Rx(lib.sin(rc), lib.cos(rc)));
  }

  lemma ThirdRow(s: real, c: real, y: Mat, x: Mat)
    ensures Mul(Mul(Rz(s, c), y), x).r2 == Apply(Transpose(x), y.r2)
  {
    assert Apply(Transpose(y), Vec(0.0, 0.0, 1.0)) == y.r2;
  }

  /** So compensation at one inclination is the same for every A. */
  lemma VerticalTurnKeepsCompensation(lib: Library, p: Payload, raw: Wrench, a: real, a': real, b: real, c: real)
    ensures CompensateOf(p, raw, KukaAbc(lib, a, b, c)) == CompensateOf(p, raw, KukaAbc(lib, a', b, c))
  {
    hide KukaAbc;
    ThirdRowIgnoresA(lib, a, a', b, c);
    WeightAlongThirdRow(KukaAbc(lib, a, b, c), -p.gravity);
    WeightAlongThirdRow(KukaAbc(lib, a', b, c), -p.gravity);
  }

  lemma WeightAlongThirdRow(m: Mat, g: real)
    ensures Apply(Transpose(m), Vec(0.0, 0.0, g)) == Vec(m.r2.x * g, m.r2.y * g, m.r2.z * g)
  {
  }

  // ----- The angular distance -----

  lemma TraceOfTranspose(m: Mat, n: Mat)
    ensures var (r, s) := (Mul(Transpose(m), n), Mul(Transpose(n), m));
            r.r0.x + r.r1.y + r.r2.z == s.r0.x + s.r1.y + s.r2.z
  {
  }

  /** The distance does not depend on which orientation is the reference. */
  lemma DistanceIsSymmetric(lib: Library, m: Mat, n: Mat)
    ensures AngularDistance(lib, m, n) == AngularDistance(lib, n, m)
  {
    hide Mul, Transpose;
    TraceOfTranspose(m, n);
  }

  // ----- The low-pass filter -----

  lemma PartOf(alpha: real, e: real)
    requires 0.0 <= alpha <= 1.0 && e >= 0.0
    ensures 0.0 <= alpha * e <= e
  {
    ScaleMonotone(alpha, 1.0, e);
    NotNegative(alpha, e);
  }

  lemma BlendBetween(previous: real, input: real, alpha: real)
    requires 0.0 <= alpha <= 1.0
    ensures var y := Blend(previous, input, alpha);
            if previous <= input then previous <= y <= input else input <= y <= previous
  {
    var d := input - previous;
    var e := if d >= 0.0 then d else -d;
    var step := alpha * e;
    assert 0.0 <= step <= e by { PartOf(alpha, e); }
    assert Blend(previous, input, alpha) == (if d >= 0.0 then previous + step else previous - step);
  }

  predicate Between(a: real, y: real, b: real) { if a <= b then a <= y <= b else b <= y <= a }

  /** A running filter moves every axis from its state toward the input and never past it. */
  lemma FilterMovesToward(f: Filter, cutoff: real, w: Wrench, dt: real)
    requires dt >= 0.0 && f.initialized
    ensures var (g, r) := FilterOf(f, cutoff, w, dt); var s := f.state;
            && Between(s.fx, r.fx, w.fx) && Between(s.fy, r.fy, w.fy) && Between(s.fz, r.fz, w.fz)
            && Between(s.tx, r.tx, w.tx) && Between(s.ty, r.ty, w.ty) && Between(s.tz, r.tz, w.tz)
            && (cutoff > 0.0 ==> g == Filter(true, r))
  {
    hide Blend;
    if cutoff > 0.0 {
      var k := Weight(cutoff, dt);
      BlendBetween(f.state.fx, w.fx, k);
      BlendBetween(f.state.fy, w.fy, k);
      BlendBetween(f.state.fz, w.fz, k);
      BlendBetween(f.state.tx, w.tx, k);
      BlendBetween(f.state.ty, w.ty, k);
      BlendBetween(f.state.tz, w.tz, k);
    }
  }

  /** The weight of the new sample. */
  function Weight(cutoff: real, dt: real): (k: real)
    requires cutoff > 0.0 && dt >= 0.0
    ensures 0.0 <= k <= 1.0
  {
    var rc := 1.0 / (2.0 * PI * cutoff);
    Fraction(dt, rc);
    dt / (dt + rc)
  }

  lemma Fraction(x: real, y: real)
    requires x >= 0.0 && y > 0.0
    ensures 0.0 <= x / (x + y) <= 1.0
  {
    var q := x / (x + y);
    assert q * (x + y) == x;
  }
}
