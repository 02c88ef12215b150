/**
 * What the A/B/C angles mean: turns about the fixed axes, written out in sines and cosines. From that, the frames of
 * tool and mount, the weight that compensation takes away, and the distance of two orientations.
 */
module FrameLaws {
  import opened RealMath
  import opened Types
  import opened Geometry
  import opened PayloadModel
  import opened Motion
  import opened Compliance
  import opened ComplianceLaws
  import opened AdmittanceLaws

  // ----- A/B/C are turns about the fixed axes -----

  function SinDeg(lib: Library, d: real): real { lib.sin(d * PI / 180.0) }
  function CosDeg(lib: Library, d: real): real { lib.cos(d * PI / 180.0) }

  /** Turns by an angle with sine s and cosine c, counterclockwise as seen from the tip of the axis. */
  function AboutX(s: real, c: real, v: Vec): Vec { Vec(v.x, c * v.y - s * v.z, s * v.y + c * v.z) }
  function AboutY(s: real, c: real, v: Vec): Vec { Vec(c * v.x + s * v.z, v.y, c * v.z - s * v.x) }
  function AboutZ(s: real, c: real, v: Vec): Vec { Vec(c * v.x - s * v.y, s * v.x + c * v.y, v.z) }

  /** About x by C, then about the fixed y by B, then about the fixed z by A. */
  function Turned(lib: Library, p: Abc, v: Vec): Vec {
    AboutZ(SinDeg(lib, p.a), CosDeg(lib, p.a),
           AboutY(SinDeg(lib, p.b), CosDeg(lib, p.b), AboutX(SinDeg(lib, p.c), CosDeg(lib, p.c), v)))
  }

  /** The same turns back, in the opposite order. */
  function TurnedBack(lib: Library, p: Abc, v: Vec): Vec {
    AboutX(-SinDeg(lib, p.c), CosDeg(lib, p.c),
           AboutY(-SinDeg(lib, p.b), CosDeg(lib, p.b), AboutZ(-SinDeg(lib, p.a), CosDeg(lib, p.a), v)))
  }

  lemma ElementaryTurns(s: real, c: real, v: Vec)
    ensures Apply(Rx(s, c), v) == AboutX(s, c, v) && Apply(Ry(s, c), v) == AboutY(s, c, v)
            && Apply(Rz(s, c), v) == AboutZ(s, c, v)
  {
    hide *;
    RxTurns(s, c, v);
    RyTurns(s, c, v);
    RzTurns(s, c, v);
  }

  lemma RxTurns(s: real, c: real, v: Vec)
    ensures Apply(Rx(s, c), v) == AboutX(s, c, v)
  {
  }

  lemma RyTurns(s: real, c: real, v: Vec)
    ensures Apply(Ry(s, c), v) == AboutY(s, c, v)
  {
    assert -s * v.x == -(s * v.x);
  }

  lemma RzTurns(s: real, c: real, v: Vec)
    ensures Apply(Rz(s, c), v) == AboutZ(s, c, v)
  {
    assert -s * v.y == -(s * v.y);
  }

  lemma ElementaryBack(s: real, c: real)
    ensures Transpose(Rx(s, c)) == Rx(-s, c) && Transpose(Ry(s, c)) == Ry(-s, c) && Transpose(Rz(s, c)) == Rz(-s, c)
  {
  }

  /** The A/B/C matrix turns every vector about x by C, then about the fixed y by B, then about the fixed z by A. */
  lemma AbcTurns(lib: Library, p: Abc, v: Vec)
    ensures Apply(KukaAbc(lib, p.a, p.b, p.c), v) == Turned(lib, p, v)
  {
    hide Apply, Mul, Rx, Ry, Rz, AboutX, AboutY, AboutZ;
    var sa, ca, sb, cb := SinDeg(lib, p.a), CosDeg(lib, p.a), SinDeg(lib, p.b), CosDeg(lib, p.b);
    var sc, cc := SinDeg(lib, p.c), CosDeg(lib, p.c);
    ApplyMul(Mul(Rz(sa, ca), Ry(sb, cb)), Rx(sc, cc), v);
    ElementaryTurns(sc, cc, v);
    var u := AboutX(sc, cc, v);
    ApplyMul(Rz(sa, ca), Ry(sb, cb), u);
    ElementaryTurns(sb, cb, u);
    ElementaryTurns(sa, ca, AboutY(sb, cb, u));
  }

  /** ... and its transpose turns back. */
  lemma AbcTurnsBack(lib: Library, p: Abc, v: Vec)
    ensures Apply(Transpose(KukaAbc(lib, p.a, p.b, p.c)), v) == TurnedBack(lib, p, v)
  {
    hide Apply, Mul, Rx, Ry, Rz, AboutX, AboutY, AboutZ, Transpose;
    var sa, ca, sb, cb := SinDeg(lib, p.a), CosDeg(lib, p.a), SinDeg(lib, p.b), CosDeg(lib, p.b);
    var sc, cc := SinDeg(lib, p.c), CosDeg(lib, p.c);
    var zy := Mul(Rz(sa, ca), Ry(sb, cb));
    TransposeMul(zy, Rx(sc, cc));
    TransposeMul(Rz(sa, ca), Ry(sb, cb));
    ElementaryBack(sa, ca);
    ElementaryBack(sb, cb);
    ElementaryBack(sc, cc);
    ApplyMul(Rx(-sc, cc), Mul(Ry(-sb, cb), Rz(-sa, ca)), v);
    ApplyMul(Ry(-sb, cb), Rz(-sa, ca), v);
    ElementaryTurns(-sa, ca, v);
    var u := AboutZ(-sa, ca, v);
    ElementaryTurns(-sb, cb, u);
    ElementaryTurns(-sc, cc, AboutY(-sb, cb, u));
  }

  /** The nine entries. */
  lemma AbcEntries(lib: Library, p: Abc)
    ensures var m := KukaAbc(lib, p.a, p.b, p.c);
            var sa, ca, sb, cb := SinDeg(lib, p.a), CosDeg(lib, p.a), SinDeg(lib, p.b), CosDeg(lib, p.b);
            var sc, cc := SinDeg(lib, p.c), CosDeg(lib, p.c);
            && m.r0 == Vec(ca * cb, ca * (sb * sc) - sa * cc, ca * (sb * cc) + sa * sc)
            && m.r1 == Vec(sa * cb, sa * (sb * sc) + ca * cc, sa * (sb * cc) - ca * sc)
            && m.r2 == Vec(-sb, cb * sc, cb * cc)
  {
    var m := KukaAbc(lib, p.a, p.b, p.c);
    hide KukaAbc, Apply;
    Columns(m);
    AbcTurns(lib, p, Vec(1.0, 0.0, 0.0));
    AbcTurns(lib, p, Vec(0.0, 1.0, 0.0));
    AbcTurns(lib, p, Vec(0.0, 0.0, 1.0));
    hide SinDeg, CosDeg;
  }

  lemma Columns(m: Mat)
    ensures Apply(m, Vec(1.0, 0.0, 0.0)) == Vec(m.r0.x, m.r1.x, m.r2.x)
    ensures Apply(m, Vec(0.0, 1.0, 0.0)) == Vec(m.r0.y, m.r1.y, m.r2.y)
    ensures Apply(m, Vec(0.0, 0.0, 1.0)) == Vec(m.r0.z, m.r1.z, m.r2.z)
  {
  }

  // ----- Tool and mount -----

  /** From the sensor to the tool: out of the mount's orientation, and back by the tool's. */
  lemma TcpFromSensorTurns(lib: Library, tool: Abc, mount: Abc, v: Vec)
    ensures Apply(TcpFromSensor(lib, tool, mount), v) == TurnedBack(lib, tool, Turned(lib, mount, v))
  {
    hide Apply, Mul, KukaAbc, Transpose, Turned, TurnedBack;
    ApplyMul(Transpose(KukaAbc(lib, tool.a, tool.b, tool.c)), KukaAbc(lib, mount.a, mount.b, mount.c), v);
    AbcTurns(lib, mount, v);
    AbcTurnsBack(lib, tool, Turned(lib, mount, v));
  }

  lemma SensorFromTcpTurns(lib: Library, tool: Abc, mount: Abc, v: Vec)
    ensures Apply(Transpose(TcpFromSensor(lib, tool, mount)), v) == TurnedBack(lib, mount, Turned(lib, tool, v))
  {
    hide Apply, Mul, KukaAbc, Transpose, Turned, TurnedBack;
    var k, m := KukaAbc(lib, tool.a, tool.b, tool.c), KukaAbc(lib, mount.a, mount.b, mount.c);
    TransposeMul(Transpose(k), m);
    TransposeTwice(k);
    ApplyMul(Transpose(m), k, v);
    AbcTurns(lib, tool, v);
    AbcTurnsBack(lib, mount, Turned(lib, tool, v));
  }

  lemma TransposeTwice(m: Mat)
    ensures Transpose(Transpose(m)) == m
  {
  }

  // ----- A tool that hangs still weighs nothing -----

  /** A weight of g, down in the base frame, as the tool feels it at these angles. */
  function WeightInTool(lib: Library, g: real, p: Abc): Vec {
    var sb, cb, sc, cc := SinDeg(lib, p.b), CosDeg(lib, p.b), SinDeg(lib, p.c), CosDeg(lib, p.c);
    Vec(g * sb, -(g * cb * sc), -(g * cb * cc))
  }

  lemma WeightTurnsBack(lib: Library, g: real, p: Abc)
    ensures TurnedBack(lib, p, Vec(0.0, 0.0, -g)) == WeightInTool(lib, g, p)
  {
    var sa, ca, sb, cb := SinDeg(lib, p.a), CosDeg(lib, p.a), SinDeg(lib, p.b), CosDeg(lib, p.b);
    hide SinDeg, CosDeg;
    assert AboutZ(-sa, ca, Vec(0.0, 0.0, -g)) == Vec(0.0, 0.0, -g);
    assert AboutY(-sb, cb, Vec(0.0, 0.0, -g)) == Vec(g * sb, 0.0, -(g * cb));
  }

  /** What the sensor of a still tool measures: bias, weight, and the weight's moment about the sensor. */
  function Hanging(p: Payload, weight: Vec): Wrench {
    Wrench(p.bias.fx + weight.x, p.bias.fy + weight.y, p.bias.fz + weight.z,
           p.bias.tx + (p.comY * weight.z - p.comZ * weight.y), p.bias.ty + (p.comZ * weight.x - p.comX * weight.z),
           p.bias.tz + (p.comX * weight.y - p.comY * weight.x))
  }

  lemma WeightIsTaken(p: Payload, m: Mat, weight: Vec)
    requires Apply(Transpose(m), Vec(0.0, 0.0, -p.gravity)) == weight
    ensures CompensateOf(p, Hanging(p, weight), m) == ZERO
  {
    hide Apply, Transpose;
  }

  /** With a sensor in line with the tool: at every A/B/C, a still tool compensates to zero. */
  lemma StillToolIsWeightless(lib: Library, p: Payload, pose: Abc)
    ensures var raw := Hanging(p, WeightInTool(lib, p.gravity, pose));
            CompensateOf(p, raw, KukaAbc(lib, pose.a, pose.b, pose.c)) == ZERO
  {
    hide Apply, Transpose, KukaAbc, TurnedBack, WeightInTool, Hanging, CompensateOf;
    AbcTurnsBack(lib, pose, Vec(0.0, 0.0, -p.gravity));
    WeightTurnsBack(lib, p.gravity, pose);
    WeightIsTaken(p, KukaAbc(lib, pose.a, pose.b, pose.c), WeightInTool(lib, p.gravity, pose));
  }

  /** The weight as the sensor feels it: in the tool's frame, through the tool's angles, and back by the mount's. */
  function WeightInSensor(lib: Library, g: real, pose: Abc, tool: Abc, mount: Abc): Vec {
    TurnedBack(lib, mount, Turned(lib, tool, WeightInTool(lib, g, pose)))
  }

  lemma SensorWeight(lib: Library, g: real, pose: Abc, tool: Abc, mount: Abc)
    ensures Apply(Transpose(Mul(Rotated(lib, pose), TcpFromSensor(lib, tool, mount))), Vec(0.0, 0.0, -g)) ==
              WeightInSensor(lib, g, pose, tool, mount)
  {
    hide Apply, Mul, KukaAbc, Transpose, TurnedBack, Turned, TcpFromSensor, WeightInTool;
    var r, f := Rotated(lib, pose), TcpFromSensor(lib, tool, mount);
    TransposeMul(r, f);
    ApplyMul(Transpose(f), Transpose(r), Vec(0.0, 0.0, -g));
    AbcTurnsBack(lib, pose, Vec(0.0, 0.0, -g));
    WeightTurnsBack(lib, g, pose);
    SensorFromTcpTurns(lib, tool, mount, WeightInTool(lib, g, pose));
  }

  /** The filter hands this wrench on: it is off, or starts with it, or has settled on it. */
  predicate Passes(f: Filter, cutoff: real, w: Wrench) { cutoff <= 0.0 || !f.initialized || f.state == w }

  lemma PassesOn(f: Filter, cutoff: real, w: Wrench, dt: real)
    requires Passes(f, cutoff, w) && dt >= 0.0
    ensures var (g, out) := FilterOf(f, cutoff, w, dt); out == w && Passes(g, cutoff, w)
  {
    if cutoff > 0.0 && f.initialized {
      var k := dt / (dt + 1.0 / (2.0 * PI * cutoff));
      SettledBlend(w.fx, k);
      SettledBlend(w.fy, k);
      SettledBlend(w.fz, k);
      SettledBlend(w.tx, k);
      SettledBlend(w.ty, k);
      SettledBlend(w.tz, k);
    }
    hide Blend;
  }

  lemma SettledBlend(x: real, k: real)
    ensures Blend(x, x, k) == x
  {
  }

  /** The controller at rest, set up for this tool and mount, with its ramp behind it. */
  ghost predicate Waiting(lib: Library, p: Params, c: Core, tool: Abc, mount: Abc) {
    && c.frame == TcpFromSensor(lib, tool, mount) && c.prev == STILL && c.motion.status != Running && !c.ramp.active
    && c.forceDeadband >= 0.0 && c.torqueDeadband >= 0.0
  }

  /**
   * A still tool is left alone: whatever its payload, its angles and the mount of the sensor, its own weight
   * compensates to zero, and the controller puts out nothing and stays at rest.
   */
  lemma StillToolIsLeftAlone(lib: Library, p: Params, c: Core, i: Input, tool: Abc, mount: Abc, dt: real)
    requires Sound(lib) && Limits(p) && dt >= 0.0 && Waiting(lib, p, c, tool, mount) && i.valid
             && i.age <= p.wrenchTimeout
    requires i.raw == Hanging(c.payload, WeightInSensor(lib, c.payload.gravity, i.pose, tool, mount))
    requires Passes(c.filter, p.cutoff, i.raw)
    ensures var (d, o) := PipelineOf(lib, p, c, i, dt);
            && o.compensated == ZERO && o.correction == NO_CORRECTION
            && d.prev == STILL && Passes(d.filter, p.cutoff, i.raw)
  {
    hide Rotated, Mul, CompensateOf, FilterOf, TareOf, ComplyOf, Passes, WeightInSensor, Hanging, Sound, Rotation,
      TcpFromSensor, Limits, ForceNorm, TorqueNorm;
    var m := Mul(Rotated(lib, i.pose), c.frame);
    PassesOn(c.filter, p.cutoff, i.raw, dt);
    SensorWeight(lib, c.payload.gravity, i.pose, tool, mount);
    WeightIsTaken(c.payload, m, WeightInSensor(lib, c.payload.gravity, i.pose, tool, mount));
    TcpFromSensorIsRotation(lib, tool, mount);
    var c1 := c.(filter := FilterOf(c.filter, p.cutoff, i.raw, dt).0);
    TareOfNothing(lib, p, c1, i.pose, i.raw);
    var (c2, w, tared) := TareOf(lib, p, c1, i.pose, i.raw, ZERO);
    ComplyReports(lib, p, c2, i.pose, w, tared, dt);
    NothingIsWithin(lib, c2.forceDeadband, c2.torqueDeadband);
    ComplyStaysStill(lib, p, c2, i.pose, w, tared, dt);
    ComplyKeepsFilter(lib, p, c2, i.pose, w, tared, dt);
  }

  lemma ComplyKeepsFilter(lib: Library, p: Params, c: Core, pose: Abc, w: Wrench, tared: bool, dt: real)
    ensures ComplyOf(lib, p, c, pose, w, tared, dt).0.filter == c.filter
  {
    hide Rotated, ToolToBase, VelocitiesOf, Times6, SensorToTool, UpdateOf, LimitOf;
  }

  /** Absorbing a residual of zero changes nothing. */
  lemma TareOfNothing(lib: Library, p: Params, c: Core, pose: Abc, raw: Wrench)
    requires CompensateOf(c.payload, raw, Mul(Rotated(lib, pose), c.frame)) == ZERO
    ensures var (d, w, tared) := TareOf(lib, p, c, pose, raw, ZERO); w == ZERO && d == c.(armed := d.armed)
  {
    hide AngularDistance, Rotated, Mul, CompensateOf, ForceNorm, TorqueNorm;
    assert Add(c.payload.bias, ZERO) == c.payload.bias;
  }

  lemma NothingIsWithin(lib: Library, force: real, torque: real)
    requires Sound(lib) && force >= 0.0 && torque >= 0.0
    ensures Within(lib, ZERO, force, torque)
  {
    hide Sound, ForceNorm, TorqueNorm;
    NormOfNothing(lib);
  }

  // ----- The distance of two orientations -----

  function Trace(m: Mat): real { m.r0.x + m.r1.y + m.r2.z }

  /** The trace of the relative rotation is the sum of the rows' inner products. */
  lemma TraceIsRows(m: Mat, n: Mat)
    ensures Trace(Mul(Transpose(m), n)) == Dot(m.r0, n.r0) + Dot(m.r1, n.r1) + Dot(m.r2, n.r2)
  {
  }

  /** What is left of the rows without the A turn. */
  function Tilt(sb: real, cb: real, sc: real, cc: real): (Vec, Vec) {
    (Vec(cb, sb * sc, sb * cc), Vec(0.0, cc, -sc))
  }

  lemma TiltRows(sb: real, cb: real, sc: real, cc: real)
    requires sb * sb + cb * cb == 1.0 && sc * sc + cc * cc == 1.0
    ensures var (u, v) := Tilt(sb, cb, sc, cc); Dot(u, u) == 1.0 && Dot(v, v) == 1.0 && Dot(u, v) == 0.0
  {
    assert (sb * sc) * (sb * sc) + (sb * cc) * (sb * cc) == (sb * sb) * (sc * sc + cc * cc);
    assert (sb * sc) * cc == (sb * cc) * sc;
  }

  /** A row turned about z, and its partner. */
  function Mix(p: real, u: Vec, q: real, v: Vec): Vec { Plus(Scale(p, u), Scale(q, v)) }

  lemma MixDots(p: real, q: real, p': real, q': real, u: Vec, v: Vec, x: real)
    requires x == p * p' + q * q'
    requires Dot(u, u) == 1.0 && Dot(v, v) == 1.0 && Dot(u, v) == 0.0
    ensures Dot(Mix(p, u, q, v), Mix(p', u, q', v)) == x
  {
    hide Dot, Plus, Scale;
    DotOfMix(p, q, u, v, Mix(p', u, q', v));
    DotOfMix(p', q', u, v, u);
    DotOfMix(p', q', u, v, v);
    DotSymmetric(u, Mix(p', u, q', v));
    DotSymmetric(v, Mix(p', u, q', v));
    DotSymmetric(v, u);
  }

  lemma DotOfMix(p: real, q: real, u: Vec, v: Vec, w: Vec)
    ensures Dot(Mix(p, u, q, v), w) == p * Dot(u, w) + q * Dot(v, w)
  {
    hide Dot;
    DotPlus(Scale(p, u), Scale(q, v), w);
    DotSymmetric(Scale(p, u), w);
    DotSymmetric(Scale(q, v), w);
    DotScale(w, p, u);
    DotScale(w, q, v);
    DotSymmetric(u, w);
    DotSymmetric(v, w);
  }

  lemma DotPlus(u: Vec, v: Vec, w: Vec)
    ensures Dot(Plus(u, v), w) == Dot(u, w) + Dot(v, w)
  {
  }

  lemma DotSymmetric(u: Vec, v: Vec)
    ensures Dot(u, v) == Dot(v, u)
  {
  }

  /** The matrix by its tilt: the A turn mixes the first two rows. */
  lemma RowsOfAbc(lib: Library, p: Abc)
    ensures var m := KukaAbc(lib, p.a, p.b, p.c); var sa, ca := SinDeg(lib, p.a), CosDeg(lib, p.a);
            var (u, v) := Tilt(SinDeg(lib, p.b), CosDeg(lib, p.b), SinDeg(lib, p.c), CosDeg(lib, p.c));
            m.r0 == Mix(ca, u, -sa, v) && m.r1 == Mix(sa, u, ca, v)
  {
    hide KukaAbc, SinDeg, CosDeg;
    AbcEntries(lib, p);
  }

  /** The cosine of the difference of the A angles, by the addition theorem. */
  function CosOfDifference(lib: Library, a: real, a': real): real {
    CosDeg(lib, a) * CosDeg(lib, a') + SinDeg(lib, a) * SinDeg(lib, a')
  }

  lemma CosineAtMostOne(s: real, c: real, s': real, c': real, x: real)
    requires s * s + c * c == 1.0 && s' * s' + c' * c' == 1.0 && x == c * c' + s * s'
    ensures -1.0 <= x <= 1.0 && x == c * c' + -s * -s' && x == s * s' + c * c'
  {
    var y := c * s' - s * c';
    assert x * x + y * y == (s * s + c * c) * (s' * s' + c' * c');
    assert y * y >= 0.0;
    BoundOne(x, y * y, 1.0);
  }

  /** Two orientations that differ in A only are as far apart as their A angles, whatever the tilt. */
  lemma DistanceOfTurn(lib: Library, a: real, a': real, b: real, c: real)
    requires Sound(lib)
    ensures AngularDistance(lib, KukaAbc(lib, a, b, c), KukaAbc(lib, a', b, c)) ==
              lib.acos(CosOfDifference(lib, a, a')) * 180.0 / PI
  {
    hide KukaAbc, Mul, Transpose, Dot, Mix, Tilt, SinDeg, CosDeg;
    var m, n := KukaAbc(lib, a, b, c), KukaAbc(lib, a', b, c);
    var p, p' := Abc(a, b, c), Abc(a', b, c);
    var sa, ca, sa', ca' := SinDeg(lib, a), CosDeg(lib, a), SinDeg(lib, a'), CosDeg(lib, a');
    var sb, cb, sc, cc := SinDeg(lib, b), CosDeg(lib, b), SinDeg(lib, c), CosDeg(lib, c);
    Pythagoras(lib, a);
    Pythagoras(lib, a');
    Pythagoras(lib, b);
    Pythagoras(lib, c);
    var (u, v) := Tilt(sb, cb, sc, cc);
    TiltRows(sb, cb, sc, cc);
    RowsOfAbc(lib, p);
    RowsOfAbc(lib, p');
    ThirdRowIgnoresA(lib, a, a', b, c);
    ThirdRowIsUnit(lib, p);
    var x := CosOfDifference(lib, a, a');
    CosineAtMostOne(sa, ca, sa', ca', x);
    MixDots(ca, -sa, ca', -sa', u, v, x);
    MixDots(sa, ca, sa', ca', u, v, x);
    TraceIsRows(m, n);
    TraceGives(Mul(Transpose(m), n), x);
  }

  lemma ThirdRowIsUnit(lib: Library, p: Abc)
    requires Sound(lib)
    ensures var r := KukaAbc(lib, p.a, p.b, p.c).r2; Dot(r, r) == 1.0
  {
    var m := KukaAbc(lib, p.a, p.b, p.c);
    KukaIsRotation(lib, p.a, p.b, p.c);
    hide KukaAbc, Sound;
    var z := Vec(0.0, 0.0, 1.0);
    assert Square(Apply(Transpose(m), z)) == Square(z);
    assert Apply(Transpose(m), z) == m.r2;
  }

  lemma TraceGives(r: Mat, cosine: real)
    requires Trace(r) == 2.0 * cosine + 1.0 && -1.0 <= cosine <= 1.0
    ensures Max(-1.0, Min(1.0, (r.r0.x + r.r1.y + r.r2.z - 1.0) / 2.0)) == cosine
  {
  }

  lemma Pythagoras(lib: Library, d: real)
    requires Sound(lib)
    ensures SinDeg(lib, d) * SinDeg(lib, d) + CosDeg(lib, d) * CosDeg(lib, d) == 1.0
  {
  }
}
