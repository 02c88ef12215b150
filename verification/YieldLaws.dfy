/**
 * When the force compliance controller's output yields to the wrench: every output without a motion goal that the
 * limiter cannot touch or did not touch, once the acceleration limit had the time to take back an old velocity.
 */
module YieldLaws {
  import opened RealMath
  import opened Types
  import opened Geometry
  import opened PayloadModel
  import opened Motion
  import opened Compliance
  import opened ComplianceLaws
  import opened AdmittanceLaws

  // ----- The work of one output -----

  /** The translation of a correction, and its turn as a rotation vector about the axes x, y, z. */
  function Shift(c: Six): Vec { Vec(c.x, c.y, c.z) }
  function Turn(c: Six): Vec { Vec(c.c, c.b, c.a) }
  function ShiftOut(c: Correction): Vec { Vec(c.x, c.y, c.z) }
  function TurnOut(c: Correction): Vec { Vec(c.turn.c, c.turn.b, c.turn.a) }

  /** The sensor's wrench as seen from the base. */
  function BaseFromSensor(lib: Library, c: Core, pose: Abc): Mat { Mul(Rotated(lib, pose), c.frame) }

  /** The tool-frame correction of the law in one cycle. */
  function ToolStep(p: Params, c: Core, w: Wrench, dt: real): Six {
    Times6(VelocitiesOf(c.prev, SensorToTool(c.frame, w), LawOf(p, c), dt), dt)
  }

  /** The shift does not work against the force, nor the turn against the torque, as seen from the base. */
  ghost predicate ShiftYields(lib: Library, c: Core, pose: Abc, w: Wrench, out: Correction) {
    Dot(ShiftOut(out), Apply(BaseFromSensor(lib, c, pose), Force(w))) >= 0.0
  }

  ghost predicate TurnYields(lib: Library, c: Core, pose: Abc, w: Wrench, out: Correction) {
    Dot(TurnOut(out), Apply(BaseFromSensor(lib, c, pose), Torque(w))) >= 0.0
  }

  ghost predicate Yields(lib: Library, c: Core, pose: Abc, w: Wrench, out: Correction) {
    ShiftYields(lib, c, pose, w, out) && TurnYields(lib, c, pose, w, out)
  }

  /** The law's correction in the base frame, before the limiter. */
  function BaseStep(lib: Library, p: Params, c: Core, pose: Abc, w: Wrench, dt: real): Six {
    ToolToBase(ToolStep(p, c, w, dt), Rotated(lib, pose))
  }

  lemma SumOfStill(c: Six)
    ensures ShiftOut(Sum(c, NO_TURN)) == Shift(c) && TurnOut(Sum(c, NO_TURN)) == Turn(c)
  {
  }

  lemma ToBase(v: Six, m: Mat)
    ensures Shift(ToolToBase(v, m)) == Apply(m, Shift(v)) && Turn(ToolToBase(v, m)) == Apply(m, Turn(v))
  {
    hide Apply;
  }

  /** The correction does the same work in the base frame as in the tool frame. */
  lemma BaseWork(lib: Library, p: Params, c: Core, pose: Abc, w: Wrench, dt: real)
    requires Sound(lib)
    ensures var base, m := BaseStep(lib, p, c, pose, w, dt), BaseFromSensor(lib, c, pose);
            var v, t := ToolStep(p, c, w, dt), SensorToTool(c.frame, w);
            && Dot(Shift(base), Apply(m, Force(w))) == Dot(Shift(v), Force(t))
            && Dot(Turn(base), Apply(m, Torque(w))) == Dot(Turn(v), Torque(t))
  {
    hide Apply, Dot, Mul, Rotated, VelocitiesOf, Times6, ToolToBase, Rotation, Sound;
    var v, r := ToolStep(p, c, w, dt), Rotated(lib, pose);
    ToBase(v, r);
    RotatedIs(lib, pose);
    RotationKeepsDot(r, Shift(v), Apply(c.frame, Force(w)));
    RotationKeepsDot(r, Turn(v), Apply(c.frame, Torque(w)));
    ApplyMul(r, c.frame, Force(w));
    ApplyMul(r, c.frame, Torque(w));
  }

  lemma RotatedIs(lib: Library, pose: Abc)
    requires Sound(lib)
    ensures Rotation(Rotated(lib, pose))
  {
    hide Rotation, Sound, KukaAbc;
    KukaIsRotation(lib, pose.a, pose.b, pose.c);
  }

  // ----- What the limiter leaves alone -----

  /** No component of a vector turned by some rotation exceeds the limit, if its components are at most speed * dt. */
  predicate Fits(speed: real, dt: real, limit: real) {
    limit >= 0.0 && 3.0 * (speed * dt) * (speed * dt) <= limit * limit
  }

  predicate ShiftFits(p: Params, dt: real) { Fits(p.law.translation.maxSpeed, dt, p.safety.maxTrans) }
  predicate TurnFits(p: Params, dt: real) { Fits(p.law.rotation.maxSpeed, dt, p.safety.maxRot) }

  predicate Small(x: real, side: real) { -side <= x <= side }
  predicate Cube(v: Vec, side: real) { Small(v.x, side) && Small(v.y, side) && Small(v.z, side) }

  lemma SquareAtMost(x: real, s: real)
    requires Small(x, s)
    ensures x * x <= s * s
  {
    NotNegative(s - x, s + x);
    assert (s - x) * (s + x) == s * s - x * x;
  }

  lemma RootAtMost(x: real, limit: real)
    requires x * x <= limit * limit && limit >= 0.0
    ensures Small(x, limit)
  {
    BoundOne(x, limit * limit - x * x, limit);
  }

  lemma ComponentsAtMost(v: Vec, limit: real)
    requires Square(v) <= limit * limit && limit >= 0.0
    ensures Cube(v, limit)
  {
    assert v.x * v.x >= 0.0 && v.y * v.y >= 0.0 && v.z * v.z >= 0.0;
    RootAtMost(v.x, limit);
    RootAtMost(v.y, limit);
    RootAtMost(v.z, limit);
  }

  lemma CubeSquare(v: Vec, side: real)
    requires Cube(v, side)
    ensures Square(v) <= 3.0 * side * side
  {
    SquareAtMost(v.x, side);
    SquareAtMost(v.y, side);
    SquareAtMost(v.z, side);
  }

  lemma TurnedCube(m: Mat, v: Vec, side: real, limit: real)
    requires Rotation(m) && Cube(v, side) && limit >= 0.0 && 3.0 * side * side <= limit * limit
    ensures Cube(Apply(m, v), limit)
  {
    hide Apply, Square;
    CubeSquare(v, side);
    ComponentsAtMost(Apply(m, v), limit);
  }

  lemma AxisAtMost(v: real, speed: real, dt: real, step: real, side: real)
    requires Small(v, speed) && dt >= 0.0 && step == v * dt && side == speed * dt
    ensures Small(step, side)
  {
    ScaleMonotone(v, speed, dt);
    ScaleMonotone(-speed, v, dt);
  }

  function Sized(v: Vec, k: real): Vec { Vec(v.x * k, v.y * k, v.z * k) }

  lemma ScaledCube(v: Vec, speed: real, dt: real, side: real)
    requires Cube(v, speed) && dt >= 0.0 && side == speed * dt
    ensures Cube(Sized(v, dt), side)
  {
    var u := Sized(v, dt);
    AxisAtMost(v.x, speed, dt, u.x, side);
    AxisAtMost(v.y, speed, dt, u.y, side);
    AxisAtMost(v.z, speed, dt, u.z, side);
  }

  lemma SlowCubes(v: Six, l: Law)
    requires Slow(v, l)
    ensures Cube(Shift(v), l.translation.maxSpeed) && Cube(Turn(v), l.rotation.maxSpeed)
  {
  }

  lemma StepSizes(v: Six, dt: real)
    ensures Shift(Times6(v, dt)) == Sized(Shift(v), dt) && Turn(Times6(v, dt)) == Sized(Turn(v), dt)
  {
  }

  lemma SlowStep(v: Six, l: Law, dt: real, shift: real, turn: real)
    requires Slow(v, l) && dt >= 0.0 && shift == l.translation.maxSpeed * dt && turn == l.rotation.maxSpeed * dt
    ensures Cube(Shift(Times6(v, dt)), shift) && Cube(Turn(Times6(v, dt)), turn)
  {
    hide *;
    SlowCubes(v, l);
    StepSizes(v, dt);
    ScaledCube(Shift(v), l.translation.maxSpeed, dt, shift);
    ScaledCube(Turn(v), l.rotation.maxSpeed, dt, turn);
  }

  /** At every pose, a step of velocities within their caps stays within the limits that it fits. */
  lemma StepFits(lib: Library, p: Params, v: Six, pose: Abc, dt: real)
    requires Sound(lib) && dt >= 0.0 && Slow(v, p.law)
    ensures var base := ToolToBase(Times6(v, dt), Rotated(lib, pose));
            && (ShiftFits(p, dt) ==> Cube(Shift(base), p.safety.maxTrans))
            && (TurnFits(p, dt) ==> Cube(Turn(base), p.safety.maxRot))
  {
    hide Apply, Rotated, Times6, ToolToBase, Rotation, Sound, Slow, Cube;
    var u, r := Times6(v, dt), Rotated(lib, pose);
    var shift, turn := p.law.translation.maxSpeed * dt, p.law.rotation.maxSpeed * dt;
    SlowStep(v, p.law, dt, shift, turn);
    RotatedIs(lib, pose);
    ToBase(u, r);
    if ShiftFits(p, dt) { TurnedCube(r, Shift(u), shift, p.safety.maxTrans); }
    if TurnFits(p, dt) { TurnedCube(r, Turn(u), turn, p.safety.maxRot); }
  }

  /** The limiter passes on a shift and a turn within its limits; it passes on everything it does not report. */
  lemma LimiterKeeps(r: Correction, w: Wrench, p: Safety)
    requires !LimitOf(r, w, p).hardCutoff
    ensures var l := LimitOf(r, w, p);
            && (Cube(ShiftOut(r), p.maxTrans) || !l.saturated ==> ShiftOut(l.correction) == ShiftOut(r))
            && (Cube(TurnOut(r), p.maxRot) || !l.saturated ==> TurnOut(l.correction) == TurnOut(r))
            && (Cube(ShiftOut(r), p.maxTrans) && Cube(TurnOut(r), p.maxRot) ==> !l.saturated)
  {
    hide Exceeds;
  }

  /**
   * Some pose has a third row of equal magnitudes, as one with sines of 1 / sqrt(3) for B and 1 / sqrt(2) for C has.
   */
  predicate Diagonal(lib: Library, pose: Abc) {
    var b, c := DegToRad(pose.b), DegToRad(pose.c);
    3.0 * lib.sin(b) * lib.sin(b) == 1.0 && 2.0 * lib.sin(c) * lib.sin(c) == 1.0
  }

  ghost predicate AlwaysFits(lib: Library, speed: real, dt: real, limit: real) {
    forall pose: Abc, v: Vec :: Cube(v, speed) ==> Cube(Apply(Rotated(lib, pose), Sized(v, dt)), limit)
  }

  lemma ThirdRowOf(sa: real, ca: real, sb: real, cb: real, sc: real, cc: real)
    ensures Mul(Mul(Rz(sa, ca), Ry(sb, cb)), Rx(sc, cc)).r2 == Vec(-sb, cb * sc, cb * cc)
  {
    ThirdRow(sa, ca, Ry(sb, cb), Rx(sc, cc));
  }

  lemma DiagonalRow(lib: Library, pose: Abc)
    requires Sound(lib) && Diagonal(lib, pose)
    ensures ThirdOfUnit(Rotated(lib, pose).r2)
  {
    hide Mul, Rz, Ry, Rx, ThirdOfUnit, DegToRad;
    var a, b, c := DegToRad(pose.a), DegToRad(pose.b), DegToRad(pose.c);
    var sb, cb, sc, cc := lib.sin(b), lib.cos(b), lib.sin(c), lib.cos(c);
    ThirdRowOf(lib.sin(a), lib.cos(a), sb, cb, sc, cc);
    DiagonalIs(sb, cb, sc, cc);
  }

  /** Three components of equal magnitude and length 1 in all. */
  predicate ThirdOfUnit(r: Vec) { 3.0 * r.x * r.x == 1.0 && 3.0 * r.y * r.y == 1.0 && 3.0 * r.z * r.z == 1.0 }

  lemma DiagonalIs(sb: real, cb: real, sc: real, cc: real)
    requires sb * sb + cb * cb == 1.0 && sc * sc + cc * cc == 1.0
    requires 3.0 * sb * sb == 1.0 && 2.0 * sc * sc == 1.0
    ensures ThirdOfUnit(Vec(-sb, cb * sc, cb * cc))
  {
    ProductSquare(cb, sc);
    ProductSquare(cb, cc);
  }

  lemma ProductSquare(x: real, y: real)
    requires 3.0 * x * x == 2.0 && 2.0 * y * y == 1.0
    ensures 3.0 * (x * y) * (x * y) == 1.0
  {
    assert (x * y) * (x * y) == (x * x) * (y * y);
  }

  lemma SquareRootIsOne(x: real, y: real)
    requires 3.0 * x * x == 1.0 && 3.0 * y * y == 1.0
    ensures Abs(x) == Abs(y)
  {
    assert (x - y) * (x + y) == 0.0;
    if x != y { assert x + y == 0.0 by { ZeroFactor(x - y, x + y); } }
  }


  /** The corner of the cube that the row points to. */
  function Corner(r: Vec, speed: real): Vec {
    Vec(if r.x >= 0.0 then speed else -speed, if r.y >= 0.0 then speed else -speed,
        if r.z >= 0.0 then speed else -speed)
  }

  lemma CornerReach(r: Vec, speed: real, dt: real)
    requires ThirdOfUnit(r)
    ensures var d := Dot(r, Sized(Corner(r, speed), dt)); d * d == 3.0 * (speed * dt) * (speed * dt)
  {
    SquareRootIsOne(r.x, r.y);
    SquareRootIsOne(r.x, r.z);
    var h, s := Abs(r.x), speed * dt;
    AlongCorner(r.x, h, speed, dt);
    AlongCorner(r.y, h, speed, dt);
    AlongCorner(r.z, h, speed, dt);
    assert Dot(r, Sized(Corner(r, speed), dt)) == 3.0 * (h * s);
    assert h * h == r.x * r.x;
    assert 9.0 * (h * s) * (h * s) == 3.0 * (3.0 * (h * h)) * (s * s);
  }

  lemma AlongCorner(x: real, h: real, speed: real, dt: real)
    requires Abs(x) == h
    ensures x * ((if x >= 0.0 then speed else -speed) * dt) == h * (speed * dt)
  {
  }

  /**
   * No pose and no velocities within a cap make the limiter clamp, exactly when the diagonal of the cube of one
   * period's steps fits the limit. The library has a pose that turns the diagonal onto an axis.
   */
  lemma NeverClampsIff(lib: Library, speed: real, dt: real, limit: real, diagonal: Abc)
    requires Sound(lib) && Diagonal(lib, diagonal) && speed >= 0.0 && dt >= 0.0 && limit >= 0.0
    ensures AlwaysFits(lib, speed, dt, limit) <==> Fits(speed, dt, limit)
  {
    hide Apply, Rotated, Rotation, Sound, Diagonal;
    if Fits(speed, dt, limit) {
      forall pose: Abc, v: Vec | Cube(v, speed) ensures Cube(Apply(Rotated(lib, pose), Sized(v, dt)), limit) {
        var side := speed * dt;
        ScaledCube(v, speed, dt, side);
        RotatedIs(lib, pose);
        TurnedCube(Rotated(lib, pose), Sized(v, dt), side, limit);
      }
    }
    if AlwaysFits(lib, speed, dt, limit) {
      var r := Rotated(lib, diagonal);
      var v := Corner(r.r2, speed);
      DiagonalRow(lib, diagonal);
      CornerReach(r.r2, speed, dt);
      assert Cube(v, speed) && Cube(Apply(r, Sized(v, dt)), limit);
      ThirdComponent(r, Sized(v, dt));
      SquareAtMost(Apply(r, Sized(v, dt)).z, limit);
    }
  }

  lemma ThirdComponent(m: Mat, v: Vec)
    ensures Apply(m, v).z == Dot(m.r2, v)
  {
  }

  // ----- No axis moves against its force: the output yields -----

  /** No axis of v moves against r by more than these speeds: fx drives x, fy y, fz z, tz a, ty b, tx c. */
  predicate AgainstAtMost6(v: Six, r: Wrench, shift: real, turn: real) {
    && Against(v.x, r.fx) <= shift && Against(v.y, r.fy) <= shift && Against(v.z, r.fz) <= shift
    && Against(v.a, r.tz) <= turn && Against(v.b, r.ty) <= turn && Against(v.c, r.tx) <= turn
  }

  lemma AxisWork(v: real, f: real, dt: real)
    requires Against(v, f) <= 0.0 && dt >= 0.0
    ensures v * dt * f >= 0.0
  {
    if f > 0.0 {
      NotNegative(v, dt);
      NotNegative(v * dt, f);
    } else if f < 0.0 {
      NotNegative(-v, dt);
      NotNegative(-v * dt, -f);
      assert v * dt * f == (-v * dt) * (-f);
    }
  }

  lemma ToolYields(v: Six, t: Wrench, dt: real)
    requires AgainstAtMost6(v, t, 0.0, 0.0) && dt >= 0.0
    ensures Dot(Shift(Times6(v, dt)), Force(t)) >= 0.0 && Dot(Turn(Times6(v, dt)), Torque(t)) >= 0.0
  {
    hide Against;
    AxisWork(v.x, t.fx, dt);
    AxisWork(v.y, t.fy, dt);
    AxisWork(v.z, t.fz, dt);
    AxisWork(v.a, t.tz, dt);
    AxisWork(v.b, t.ty, dt);
    AxisWork(v.c, t.tx, dt);
  }

  /** What an output does where no axis of the law moves against its force or exceeds its cap. */
  ghost predicate OutputOk(lib: Library, p: Params, c: Core, pose: Abc, w: Wrench, dt: real, o: Output) {
    && (!o.saturated ==> Yields(lib, c, pose, w, o.correction))
    && (ShiftFits(p, dt) ==> ShiftYields(lib, c, pose, w, o.correction))
    && (TurnFits(p, dt) ==> TurnYields(lib, c, pose, w, o.correction))
    && (ShiftFits(p, dt) && TurnFits(p, dt) ==> !o.saturated)
  }

  lemma OutputYields(lib: Library, p: Params, c: Core, pose: Abc, w: Wrench, tared: bool, dt: real)
    requires Sound(lib) && c.motion.status != Running && dt >= 0.0
    requires var t := SensorToTool(c.frame, w); AgainstAtMost6(VelocitiesOf(c.prev, t, LawOf(p, c), dt), t, 0.0, 0.0)
    ensures var o := ComplyOf(lib, p, c, pose, w, tared, dt).1;
            && (!o.saturated ==> Yields(lib, c, pose, w, o.correction))
            && (Slow(VelocitiesOf(c.prev, SensorToTool(c.frame, w), LawOf(p, c), dt), p.law) ==>
                  OutputOk(lib, p, c, pose, w, dt, o))
  {
    hide VelocitiesOf, Apply, Dot, BaseFromSensor, Rotated, Times6, AgainstAtMost6, SensorToTool, ToolToBase, Sum;
    hide Exceeds, Cube, Sound, Slow, ShiftFits, TurnFits, LimitOf;
    var o, t := ComplyOf(lib, p, c, pose, w, tared, dt).1, SensorToTool(c.frame, w);
    var v := VelocitiesOf(c.prev, t, LawOf(p, c), dt);
    var base := BaseStep(lib, p, c, pose, w, dt);
    ToolYields(v, t, dt);
    if Slow(v, p.law) { StepFits(lib, p, v, pose, dt); }
    SumOfStill(base);
    BaseWork(lib, p, c, pose, w, dt);
    if o.hardCutoff {
      CutoffIs(Sum(base, NO_TURN), w, p.safety);
      ZeroDot(Apply(BaseFromSensor(lib, c, pose), Force(w)));
      ZeroDot(Apply(BaseFromSensor(lib, c, pose), Torque(w)));
    } else {
      LimiterKeeps(Sum(base, NO_TURN), w, p.safety);
    }
  }

  lemma CutoffIs(r: Correction, w: Wrench, p: Safety)
    requires LimitOf(r, w, p).hardCutoff
    ensures LimitOf(r, w, p) == Limited(NO_CORRECTION, true, false)
  {
    hide Exceeds;
  }

  lemma ZeroDot(v: Vec)
    ensures Dot(Vec(0.0, 0.0, 0.0), v) == 0.0
  {
  }

  predicate RegularLaw(l: Law) { Regular(l.translation) && Regular(l.rotation) && l.scale >= 0.0 }

  /** What the acceleration limit leaves in one cycle of a speed against the force. */
  function Left(speed: real, g: AxisGroup, dt: real): real {
    if g.maxAccel > 0.0 then Max(0.0, speed - g.maxAccel * dt) else 0.0
  }

  lemma AxisShrinks(f: real, sign: real, g: AxisGroup, scale: real, dt: real, previous: real, speed: real)
    requires Regular(g) && scale >= 0.0 && dt >= 0.0 && SameSign(f, sign) && Against(previous, sign) <= speed
    ensures Against(AxisVelocity(f, g, scale, dt, previous), sign) <= Left(speed, g, dt)
  {
    hide AxisVelocity, Against;
    AgainstShrinks(f, g, scale, dt, previous);
    AgainstSign(previous, f, sign);
    AgainstSign(AxisVelocity(f, g, scale, dt, previous), f, sign);
  }

  predicate SameSigns(t: Wrench, r: Wrench) {
    && SameSign(t.fx, r.fx) && SameSign(t.fy, r.fy) && SameSign(t.fz, r.fz)
    && SameSign(t.tx, r.tx) && SameSign(t.ty, r.ty) && SameSign(t.tz, r.tz)
  }

  lemma VelocitiesShrink(prev: Six, t: Wrench, r: Wrench, l: Law, dt: real, shift: real, turn: real)
    requires RegularLaw(l) && dt >= 0.0 && SameSigns(t, r) && AgainstAtMost6(prev, r, shift, turn)
    ensures AgainstAtMost6(VelocitiesOf(prev, t, l, dt), r, Left(shift, l.translation, dt), Left(turn, l.rotation, dt))
  {
    hide AxisVelocity, Against, Left, SameSign, Regular;
    AxisShrinks(t.fx, r.fx, l.translation, l.scale, dt, prev.x, shift);
    AxisShrinks(t.fy, r.fy, l.translation, l.scale, dt, prev.y, shift);
    AxisShrinks(t.fz, r.fz, l.translation, l.scale, dt, prev.z, shift);
    AxisShrinks(t.tz, r.tz, l.rotation, l.scale, dt, prev.a, turn);
    AxisShrinks(t.ty, r.ty, l.rotation, l.scale, dt, prev.b, turn);
    AxisShrinks(t.tx, r.tx, l.rotation, l.scale, dt, prev.c, turn);
  }

  /** The acceleration limit can take back, in one cycle, whatever v does against f. */
  predicate Recoverable(v: real, f: real, g: AxisGroup, dt: real) {
    g.maxAccel <= 0.0 || Against(v, f) <= g.maxAccel * dt
  }

  predicate Recoverable6(v: Six, t: Wrench, l: Law, dt: real) {
    && Recoverable(v.x, t.fx, l.translation, dt) && Recoverable(v.y, t.fy, l.translation, dt)
    && Recoverable(v.z, t.fz, l.translation, dt) && Recoverable(v.a, t.tz, l.rotation, dt)
    && Recoverable(v.b, t.ty, l.rotation, dt) && Recoverable(v.c, t.tx, l.rotation, dt)
  }

  lemma AxisRecovers(f: real, g: AxisGroup, scale: real, dt: real, previous: real)
    requires Regular(g) && scale >= 0.0 && dt >= 0.0
    ensures Against(AxisVelocity(f, g, scale, dt, previous), f) <= 0.0 <==> Recoverable(previous, f, g, dt)
  {
    hide AxisVelocity, Against;
    AxisOpposesIff(f, g, scale, dt, previous);
  }

  /** No axis moves against its force after this cycle, exactly when the limit can take back what each did before it. */
  lemma VelocitiesYieldIff(prev: Six, t: Wrench, l: Law, dt: real)
    requires RegularLaw(l) && dt >= 0.0
    ensures AgainstAtMost6(VelocitiesOf(prev, t, l, dt), t, 0.0, 0.0) <==> Recoverable6(prev, t, l, dt)
  {
    hide AxisVelocity, Against, Recoverable, Regular;
    AxisRecovers(t.fx, l.translation, l.scale, dt, prev.x);
    AxisRecovers(t.fy, l.translation, l.scale, dt, prev.y);
    AxisRecovers(t.fz, l.translation, l.scale, dt, prev.z);
    AxisRecovers(t.tz, l.rotation, l.scale, dt, prev.a);
    AxisRecovers(t.ty, l.rotation, l.scale, dt, prev.b);
    AxisRecovers(t.tx, l.rotation, l.scale, dt, prev.c);
  }

  lemma LawStaysSlow(p: Params, c: Core, t: Wrench, dt: real)
    requires RegularLaw(LawOf(p, c)) && dt >= 0.0 && Slow(c.prev, p.law)
    ensures Slow(VelocitiesOf(c.prev, t, LawOf(p, c), dt), p.law)
  {
    hide VelocitiesOf;
    VelocitiesKeepLimits(c.prev, t, LawOf(p, c), dt);
  }

  /**
   * For every acceleration limit: an output without a running goal yields to the wrench if the limit can take back what
   * every axis did against its force before this cycle, and the output is not saturated; its shift and its turn each
   * yield, saturated or not, where the speed cap fits the limit of one cycle.
   */
  lemma YieldsToWrench(lib: Library, p: Params, c: Core, pose: Abc, w: Wrench, tared: bool, dt: real)
    requires Sound(lib) && c.motion.status != Running && dt >= 0.0 && RegularLaw(LawOf(p, c))
    requires Recoverable6(c.prev, SensorToTool(c.frame, w), LawOf(p, c), dt)
    ensures var o := ComplyOf(lib, p, c, pose, w, tared, dt).1;
            && (!o.saturated ==> Yields(lib, c, pose, w, o.correction))
            && (Slow(c.prev, p.law) ==>
                  && (ShiftFits(p, dt) ==> ShiftYields(lib, c, pose, w, o.correction))
                  && (TurnFits(p, dt) ==> TurnYields(lib, c, pose, w, o.correction))
                  && (ShiftFits(p, dt) && TurnFits(p, dt) ==> !o.saturated))
  {
    hide ComplyOf, VelocitiesOf, SensorToTool, Sound, ShiftYields, TurnYields, Recoverable6, AgainstAtMost6, Fits;
    hide LawOf, Slow, RegularLaw;
    VelocitiesYieldIff(c.prev, SensorToTool(c.frame, w), LawOf(p, c), dt);
    if Slow(c.prev, p.law) { LawStaysSlow(p, c, SensorToTool(c.frame, w), dt); }
    OutputYields(lib, p, c, pose, w, tared, dt);
  }

  // ----- Runs of the whole pipeline -----

  /**
   * A cycle that complies does so on the tared state, which differs from the state before only in payload and arming.
   */
  lemma CompliesOn(lib: Library, p: Params, c: Core, i: Input, dt: real) returns (b: Core)
    requires dt >= 0.0 && !Idle(PipelineOf(lib, p, c, i, dt).1)
    ensures var (d, o) := PipelineOf(lib, p, c, i, dt);
            (d, o) == ComplyOf(lib, p, b, i.pose, o.compensated, o.tared, dt)
    ensures b.prev == c.prev && b.frame == c.frame && b.motion == c.motion
            && b.forceDeadband == c.forceDeadband && b.torqueDeadband == c.torqueDeadband
  {
    hide Rotated, Mul, CompensateOf, FilterOf, AngularDistance, ForceNorm, TorqueNorm, RampUpdateOf, ToolToBase;
    hide VelocitiesOf;
    hide LimitOf, UpdateOf;
    var (c1, filtered, w) := SensedOf(lib, p, c, i, dt);
    b := TareOf(lib, p, c1, i.pose, filtered, w).0;
  }

  /** Pushes without force: only their periods matter. */
  function Periods(cycles: seq<Cycle>): seq<Push> {
    seq(|cycles|, k requires 0 <= k < |cycles| => Push(0.0, cycles[k].dt))
  }

  /** How fast an axis may still move against a force that kept its sign over these cycles. */
  function LeftAfter(cycles: seq<Cycle>, g: AxisGroup): real {
    if cycles == [] then g.maxSpeed else Left(LeftAfter(cycles[..|cycles| - 1], g), g, cycles[|cycles| - 1].dt)
  }

  lemma {:induction false} LeftIs(cycles: seq<Cycle>, g: AxisGroup)
    requires Timely(cycles) && g.maxAccel > 0.0 && g.maxSpeed >= 0.0
    ensures LeftAfter(cycles, g) <= Max(0.0, g.maxSpeed - Reach(Periods(cycles), g.maxAccel))
    decreases |cycles|
  {
    if cycles != [] {
      var front, last := cycles[..|cycles| - 1], cycles[|cycles| - 1];
      LeftIs(front, g);
      assert Periods(cycles)[..|cycles| - 1] == Periods(front);
      NotNegative(g.maxAccel, last.dt);
    }
  }

  /** The acceleration limit had the time to take back the whole speed of the group. */
  predicate LongEnough(cycles: seq<Cycle>, g: AxisGroup) {
    g.maxAccel > 0.0 ==> g.maxAccel * Time(Periods(cycles)) >= g.maxSpeed
  }

  lemma NothingLeftAfter(cycles: seq<Cycle>, g: AxisGroup)
    requires Timely(cycles) && cycles != [] && g.maxSpeed >= 0.0 && LongEnough(cycles, g)
    ensures LeftAfter(cycles, g) <= 0.0
  {
    hide Time, Reach;
    if g.maxAccel > 0.0 {
      LeftIs(cycles, g);
      ReachIs(Periods(cycles), g.maxAccel);
    }
  }

  /** Gains and caps are not negative. */
  predicate RegularParams(p: Params) {
    && p.law.translation.gain >= 0.0 && p.law.rotation.gain >= 0.0 && p.law.scale >= 0.0
    && p.law.translation.maxSpeed >= 0.0 && p.law.rotation.maxSpeed >= 0.0
  }

  /** Before these cycles: no goal, velocities within their caps, deadbands not negative. */
  predicate Ready(p: Params, c: Core) {
    c.motion.status != Running && Slow(c.prev, p.law) && c.forceDeadband >= 0.0 && c.torqueDeadband >= 0.0
  }

  /** Every cycle complied, and each axis of the wrench in the tool frame kept the sign it has in r. */
  ghost predicate Steady(frame: Mat, outs: seq<Output>, r: Wrench) {
    forall k :: 0 <= k < |outs| ==> !Idle(outs[k]) && SameSigns(SensorToTool(frame, outs[k].compensated), r)
  }

  /** The state in the run: what may still move against the wrench. */
  ghost predicate Slowing(p: Params, c: Core, a: Core, cycles: seq<Cycle>, r: Wrench) {
    && a.motion.status != Running && a.frame == c.frame
    && a.forceDeadband == c.forceDeadband && a.torqueDeadband == c.torqueDeadband
    && AgainstAtMost6(a.prev, r, LeftAfter(cycles, p.law.translation), LeftAfter(cycles, p.law.rotation))
    && Slow(a.prev, p.law)
  }

  lemma SlowIs(p: Params, c: Core, r: Wrench)
    requires Slow(c.prev, p.law)
    ensures AgainstAtMost6(c.prev, r, p.law.translation.maxSpeed, p.law.rotation.maxSpeed)
  {
    hide Against;
    AgainstAtMost(c.prev.x, r.fx);
    AgainstAtMost(c.prev.y, r.fy);
    AgainstAtMost(c.prev.z, r.fz);
    AgainstAtMost(c.prev.a, r.tz);
    AgainstAtMost(c.prev.b, r.ty);
    AgainstAtMost(c.prev.c, r.tx);
  }

  lemma ComplyStaysSlow(lib: Library, p: Params, b: Core, pose: Abc, w: Wrench, tared: bool, dt: real)
    requires RegularParams(p) && dt >= 0.0 && Slow(b.prev, p.law)
    ensures Slow(ComplyOf(lib, p, b, pose, w, tared, dt).0.prev, p.law)
    ensures Slow(VelocitiesOf(b.prev, SensorToTool(b.frame, w), LawOf(p, b), dt), p.law)
  {
    hide Rotated, ToolToBase, Times6, SensorToTool, LimitOf, Sum, VelocitiesOf, UpdateOf;
    VelocitiesKeepLimits(b.prev, SensorToTool(b.frame, w), LawOf(p, b), dt);
  }

  /** One complying cycle: the velocities of the law slow down, and a cutoff stops them. */
  lemma ComplySlows(lib: Library, p: Params, b: Core, pose: Abc, w: Wrench, tared: bool, dt: real, r: Wrench,
                    shift: real, turn: real)
    requires RegularParams(p) && b.forceDeadband >= 0.0 && b.torqueDeadband >= 0.0 && dt >= 0.0
             && b.motion.status != Running
    requires SameSigns(SensorToTool(b.frame, w), r) && AgainstAtMost6(b.prev, r, shift, turn)
    ensures var d := ComplyOf(lib, p, b, pose, w, tared, dt).0; var l := p.law;
            && d.motion == b.motion && d.frame == b.frame
            && d.forceDeadband == b.forceDeadband && d.torqueDeadband == b.torqueDeadband
            && AgainstAtMost6(d.prev, r, Left(shift, l.translation, dt), Left(turn, l.rotation, dt))
            && AgainstAtMost6(VelocitiesOf(b.prev, SensorToTool(b.frame, w), LawOf(p, b), dt), r,
                              Left(shift, l.translation, dt), Left(turn, l.rotation, dt))
  {
    hide Rotated, ToolToBase, Times6, SensorToTool, LimitOf, Sum, VelocitiesOf, SameSigns, AgainstAtMost6, Left;
    var l := LawOf(p, b);
    VelocitiesShrink(b.prev, SensorToTool(b.frame, w), r, l, dt, shift, turn);
    LeftOfGroup(shift, p.law.translation, b.forceDeadband, dt);
    LeftOfGroup(turn, p.law.rotation, b.torqueDeadband, dt);
    StillIsSlow(r, Left(shift, p.law.translation, dt), Left(turn, p.law.rotation, dt));
  }

  lemma LeftOfGroup(speed: real, g: AxisGroup, deadband: real, dt: real)
    ensures Left(speed, g.(deadband := deadband), dt) == Left(speed, g, dt) >= 0.0
  {
  }

  lemma StillIsSlow(r: Wrench, shift: real, turn: real)
    requires shift >= 0.0 && turn >= 0.0
    ensures AgainstAtMost6(STILL, r, shift, turn)
  {
  }

  lemma {:induction false} RunSlows(lib: Library, p: Params, c: Core, cycles: seq<Cycle>, r: Wrench, a: Core,
                                    outs: seq<Output>)
    requires Timely(cycles) && RegularParams(p) && Ready(p, c) && (a, outs) == RunOf(lib, p, c, cycles)
    requires Steady(c.frame, outs, r)
    ensures Slowing(p, c, a, cycles, r)
    decreases |cycles|
  {
    hide PipelineOf, SensorToTool, SameSigns, AgainstAtMost6, Slow, ComplyOf, Left;
    if cycles == [] {
      SlowIs(p, c, r);
    } else {
      var n := |cycles| - 1;
      var (before, start) := RunOf(lib, p, c, cycles[..n]);
      assert start == outs[..n] && forall k :: 0 <= k < n ==> start[k] == outs[k];
      RunSlows(lib, p, c, cycles[..n], r, before, start);
      var i, dt, o := cycles[n].input, cycles[n].dt, outs[n];
      var b := CompliesOn(lib, p, before, i, dt);
      ComplyStaysSlow(lib, p, b, i.pose, o.compensated, o.tared, dt);
      ComplySlows(lib, p, b, i.pose, o.compensated, o.tared, dt, r,
                  LeftAfter(cycles[..n], p.law.translation), LeftAfter(cycles[..n], p.law.rotation));
    }
  }

  /**
   * In every run of the pipeline without a goal: once each axis of the wrench in the tool frame has kept its sign for
   * as long as the acceleration limits need to take back the speed caps, every unsaturated output yields to the
   * wrench, and shift and turn yield without exception where the speed caps fit the limits of one cycle.
   */
  lemma SteadyRunYields(lib: Library, p: Params, c: Core, cycles: seq<Cycle>, r: Wrench, outs: seq<Output>)
    requires Sound(lib) && RegularParams(p) && Ready(p, c)
    requires cycles != [] && Timely(cycles) && outs == RunOf(lib, p, c, cycles).1
    requires Steady(c.frame, outs, r) && LongEnough(cycles, p.law.translation) && LongEnough(cycles, p.law.rotation)
    ensures var n := |cycles| - 1; OutputOk(lib, p, c, cycles[n].input.pose, outs[n].compensated, cycles[n].dt, outs[n])
  {
    hide PipelineOf, SensorToTool, AgainstAtMost6, ComplyOf, VelocitiesOf, Left, Against, Sound, LongEnough, LeftAfter;
    hide Slow, OutputOk;
    var n := |cycles| - 1;
    var (before, start) := RunOf(lib, p, c, cycles[..n]);
    assert start == outs[..n] && forall k :: 0 <= k < n ==> start[k] == outs[k];
    RunSlows(lib, p, c, cycles[..n], r, before, start);
    var i, dt, o := cycles[n].input, cycles[n].dt, outs[n];
    var b := CompliesOn(lib, p, before, i, dt);
    var shift, turn := LeftAfter(cycles[..n], p.law.translation), LeftAfter(cycles[..n], p.law.rotation);
    ComplyStaysSlow(lib, p, b, i.pose, o.compensated, o.tared, dt);
    ComplySlows(lib, p, b, i.pose, o.compensated, o.tared, dt, r, shift, turn);
    LeftOneMore(cycles, p.law.translation);
    LeftOneMore(cycles, p.law.rotation);
    NothingLeftAfter(cycles, p.law.translation);
    NothingLeftAfter(cycles, p.law.rotation);
    var t := SensorToTool(b.frame, o.compensated);
    SignsCarryOver(VelocitiesOf(b.prev, t, LawOf(p, b), dt), t, r, Left(shift, p.law.translation, dt),
      Left(turn, p.law.rotation, dt));
    OutputYields(lib, p, b, i.pose, o.compensated, o.tared, dt);
    SameYields(lib, p, b, c, i.pose, o.compensated, dt, o);
  }

  lemma LeftOneMore(cycles: seq<Cycle>, g: AxisGroup)
    requires cycles != []
    ensures LeftAfter(cycles, g) == Left(LeftAfter(cycles[..|cycles| - 1], g), g, cycles[|cycles| - 1].dt)
  {
  }

  lemma SignsCarryOver(v: Six, t: Wrench, r: Wrench, shift: real, turn: real)
    requires SameSigns(t, r) && AgainstAtMost6(v, r, shift, turn) && shift <= 0.0 && turn <= 0.0
    ensures AgainstAtMost6(v, t, 0.0, 0.0)
  {
  }

  lemma SameYields(lib: Library, p: Params, b: Core, c: Core, pose: Abc, w: Wrench, dt: real, o: Output)
    requires b.frame == c.frame
    ensures OutputOk(lib, p, b, pose, w, dt, o) <==> OutputOk(lib, p, c, pose, w, dt, o)
  {
    hide Apply, Dot, Mul, Rotated, ShiftFits, TurnFits;
  }

  // ----- Inside caps and limits the robot yields in proportion -----

  /** Neither the speed cap nor the acceleration limit changes this axis in this cycle. */
  predicate Free(f: real, g: AxisGroup, scale: real, dt: real, previous: real) {
    var v := g.gain * Deadzone(f, g.deadband) * scale;
    Abs(v) <= g.maxSpeed && (g.maxAccel > 0.0 ==> Abs(v - previous) <= g.maxAccel * dt)
  }

  predicate Free6(t: Wrench, l: Law, dt: real, prev: Six) {
    && Free(t.fx, l.translation, l.scale, dt, prev.x) && Free(t.fy, l.translation, l.scale, dt, prev.y)
    && Free(t.fz, l.translation, l.scale, dt, prev.z) && Free(t.tz, l.rotation, l.scale, dt, prev.a)
    && Free(t.ty, l.rotation, l.scale, dt, prev.b) && Free(t.tx, l.rotation, l.scale, dt, prev.c)
  }

  /** What exceeds the deadband, axis by axis. */
  function Excess(v: Vec, deadband: real): Vec {
    Vec(Deadzone(v.x, deadband), Deadzone(v.y, deadband), Deadzone(v.z, deadband))
  }

  lemma AxisProportional(f: real, g: AxisGroup, scale: real, dt: real, previous: real, k: real)
    requires Free(f, g, scale, dt, previous) && k == g.gain * scale * dt
    ensures AxisVelocity(f, g, scale, dt, previous) * dt == k * Deadzone(f, g.deadband)
  {
    hide Deadzone, AxisVelocity, Free;
    var z := Deadzone(f, g.deadband);
    var x := g.gain * z * scale;
    FreeVelocity(f, g, scale, dt, previous, x);
    Reorder(g.gain, z, scale, dt, x, k);
  }

  lemma FreeVelocity(f: real, g: AxisGroup, scale: real, dt: real, previous: real, x: real)
    requires Free(f, g, scale, dt, previous) && x == g.gain * Deadzone(f, g.deadband) * scale
    ensures AxisVelocity(f, g, scale, dt, previous) == x
  {
    hide Deadzone;
  }

  lemma Reorder(gain: real, f: real, scale: real, dt: real, x: real, k: real)
    requires x == gain * f * scale && k == gain * scale * dt
    ensures x * dt == k * f
  {
    assert x == gain * scale * f;
    var q := gain * scale;
    assert q * f * dt == q * dt * f;
  }

  lemma ToolProportional(prev: Six, t: Wrench, l: Law, dt: real, shift: real, turn: real)
    requires Free6(t, l, dt, prev) && shift == l.translation.gain * l.scale * dt
             && turn == l.rotation.gain * l.scale * dt
    ensures var c := Times6(VelocitiesOf(prev, t, l, dt), dt);
            && Shift(c) == Scale(shift, Excess(Force(t), l.translation.deadband))
            && Turn(c) == Scale(turn, Excess(Torque(t), l.rotation.deadband))
  {
    hide AxisVelocity, Free, Deadzone;
    AxisProportional(t.fx, l.translation, l.scale, dt, prev.x, shift);
    AxisProportional(t.fy, l.translation, l.scale, dt, prev.y, shift);
    AxisProportional(t.fz, l.translation, l.scale, dt, prev.z, shift);
    AxisProportional(t.tz, l.rotation, l.scale, dt, prev.a, turn);
    AxisProportional(t.ty, l.rotation, l.scale, dt, prev.b, turn);
    AxisProportional(t.tx, l.rotation, l.scale, dt, prev.c, turn);
  }

  lemma ExcessOverNothing(v: Vec)
    ensures Excess(v, 0.0) == v
  {
  }

  /**
   * Where no cap or limit is active, the correction in base coordinates is gain, scale and period times what the wrench
   * in the tool frame exceeds its deadbands by, turned to the base; without deadband, times the wrench in the base.
   */
  lemma YieldsInProportion(prev: Six, w: Wrench, l: Law, dt: real, frame: Mat, baseFromTcp: Mat)
    requires Free6(SensorToTool(frame, w), l, dt, prev)
    ensures var c := ToolToBase(Times6(VelocitiesOf(prev, SensorToTool(frame, w), l, dt), dt), baseFromTcp);
            var t, m := SensorToTool(frame, w), Mul(baseFromTcp, frame);
            var shift, turn := l.translation.gain * l.scale * dt, l.rotation.gain * l.scale * dt;
            && Shift(c) == Scale(shift, Apply(baseFromTcp, Excess(Force(t), l.translation.deadband)))
            && Turn(c) == Scale(turn, Apply(baseFromTcp, Excess(Torque(t), l.rotation.deadband)))
            && (l.translation.deadband == 0.0 ==> Shift(c) == Scale(shift, Apply(m, Force(w))))
            && (l.rotation.deadband == 0.0 ==> Turn(c) == Scale(turn, Apply(m, Torque(w))))
  {
    hide Apply, Mul, VelocitiesOf, Times6, Scale, Free6, ToolToBase, Excess;
    var t := SensorToTool(frame, w);
    var shift, turn := l.translation.gain * l.scale * dt, l.rotation.gain * l.scale * dt;
    ToolProportional(prev, t, l, dt, shift, turn);
    ToBase(Times6(VelocitiesOf(prev, t, l, dt), dt), baseFromTcp);
    ApplyScale(baseFromTcp, shift, Excess(Force(t), l.translation.deadband));
    ApplyScale(baseFromTcp, turn, Excess(Torque(t), l.rotation.deadband));
    ExcessOverNothing(Force(t));
    ExcessOverNothing(Torque(t));
    ApplyMul(baseFromTcp, frame, Force(w));
    ApplyMul(baseFromTcp, frame, Torque(w));
  }
}
