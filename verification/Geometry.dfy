/** Vectors, matrices, and the KUKA A/B/C rotation. */
module Geometry {
  import opened RealMath
  import opened Types

  datatype Vec = Vec(x: real, y: real, z: real)
  /** A matrix by its rows. */
  datatype Mat = Mat(r0: Vec, r1: Vec, r2: Vec)

  const IDENTITY := Mat(Vec(1.0, 0.0, 0.0), Vec(0.0, 1.0, 0.0), Vec(0.0, 0.0, 1.0))

  function Dot(a: Vec, b: Vec): real { a.x * b.x + a.y * b.y + a.z * b.z }

  function Cross(a: Vec, b: Vec): Vec {
    Vec(a.y * b.z - a.z * b.y, a.z * b.x - a.x * b.z, a.x * b.y - a.y * b.x)
  }

  function Square(v: Vec): real { Dot(v, v) }

  function Apply(m: Mat, v: Vec): Vec { Vec(Dot(m.r0, v), Dot(m.r1, v), Dot(m.r2, v)) }

  function Transpose(m: Mat): Mat {
    Mat(Vec(m.r0.x, m.r1.x, m.r2.x), Vec(m.r0.y, m.r1.y, m.r2.y), Vec(m.r0.z, m.r1.z, m.r2.z))
  }

  function Mul(a: Mat, b: Mat): Mat {
    var t := Transpose(b);
    Mat(Apply(t, a.r0), Apply(t, a.r1), Apply(t, a.r2))
  }

  /** Elementary rotations, from the sine and cosine of their angle. */
  function Rz(s: real, c: real): Mat { Mat(Vec(c, -s, 0.0), Vec(s, c, 0.0), Vec(0.0, 0.0, 1.0)) }
  function Ry(s: real, c: real): Mat { Mat(Vec(c, 0.0, s), Vec(0.0, 1.0, 0.0), Vec(-s, 0.0, c)) }
  function Rx(s: real, c: real): Mat { Mat(Vec(1.0, 0.0, 0.0), Vec(0.0, c, -s), Vec(0.0, s, c)) }

  function DegToRad(d: real): real { d * PI / 180.0 }

  /** R = Rz(A) * Ry(B) * Rx(C), angles in degrees. */
  function KukaAbc(lib: Library, a: real, b: real, c: real): Mat {
    var (ra, rb, rc) := (DegToRad(a), DegToRad(b), DegToRad(c));
    Mul(Mul(Rz(lib.sin(ra), lib.cos(ra)), Ry(lib.sin(rb), lib.cos(rb))), Rx(lib.sin(rc), lib.cos(rc)))
  }

  function AngularDistance(lib: Library, m: Mat, n: Mat): real {
    var r := Mul(Transpose(m), n);
    var cosine := (r.r0.x + r.r1.y + r.r2.z - 1.0) / 2.0;
    lib.acos(Max(-1.0, Min(1.0, cosine))) * 180.0 / PI
  }

  // ----- Rotations preserve lengths -----

  ghost predicate Isometry(m: Mat) { forall v :: Square(Apply(m, v)) == Square(v) }

  ghost predicate Rotation(m: Mat) { Isometry(m) && Isometry(Transpose(m)) }

  lemma ApplyMul(a: Mat, b: Mat, v: Vec)
    ensures Apply(Mul(a, b), v) == Apply(a, Apply(b, v))
  {
    DotMul(a.r0, b, v);
    DotMul(a.r1, b, v);
    DotMul(a.r2, b, v);
  }

  lemma DotMul(r: Vec, b: Mat, v: Vec)
    ensures Dot(Apply(Transpose(b), r), v) == Dot(r, Apply(b, v))
  {
  }

  lemma TransposeMul(a: Mat, b: Mat)
    ensures Transpose(Mul(a, b)) == Mul(Transpose(b), Transpose(a))
  {
  }

  lemma MulIsRotation(a: Mat, b: Mat)
    requires Rotation(a) && Rotation(b)
    ensures Rotation(Mul(a, b))
  {
    TransposeMul(a, b);
    forall v ensures Square(Apply(Mul(a, b), v)) == Square(v) && Square(Apply(Transpose(Mul(a, b)), v)) == Square(v) {
      ApplyMul(a, b, v);
      ApplyMul(Transpose(b), Transpose(a), v);
    }
  }

  lemma TransposeIsRotation(a: Mat)
    requires Rotation(a)
    ensures Rotation(Transpose(a))
  {
    assert Transpose(Transpose(a)) == a;
  }

  /** A plane rotation preserves the length of its plane. */
  lemma PlaneRotation(s: real, c: real, x: real, y: real)
    requires s * s + c * c == 1.0
    ensures (c * x - s * y) * (c * x - s * y) + (s * x + c * y) * (s * x + c * y) == x * x + y * y
  {
    var n := x * x + y * y;
    assert (c * x - s * y) * (c * x - s * y) + (s * x + c * y) * (s * x + c * y) == (s * s + c * c) * n;
  }

  lemma ElementaryRotations(s: real, c: real)
    requires s * s + c * c == 1.0
    ensures Rotation(Rz(s, c)) && Rotation(Ry(s, c)) && Rotation(Rx(s, c))
  {
    assert (-s) * (-s) == s * s;
    forall v: Vec
      ensures Square(Apply(Rz(s, c), v)) == Square(v) == Square(Apply(Transpose(Rz(s, c)), v))
      ensures Square(Apply(Ry(s, c), v)) == Square(v) == Square(Apply(Transpose(Ry(s, c)), v))
      ensures Square(Apply(Rx(s, c), v)) == Square(v) == Square(Apply(Transpose(Rx(s, c)), v))
    {
      ElementaryAt(s, c, v);
      ElementaryAt(-s, c, v);
      assert Transpose(Rz(s, c)) == Rz(-s, c) && Transpose(Ry(s, c)) == Ry(-s, c) && Transpose(Rx(s, c)) == Rx(-s, c);
    }
  }

  lemma ElementaryAt(s: real, c: real, v: Vec)
    requires s * s + c * c == 1.0
    ensures Square(Apply(Rz(s, c), v)) == Square(v)
    ensures Square(Apply(Ry(s, c), v)) == Square(v)
    ensures Square(Apply(Rx(s, c), v)) == Square(v)
  {
    RzAt(s, c, v);
    RyAt(s, c, v);
    RxAt(s, c, v);
  }

  lemma RzAt(s: real, c: real, v: Vec)
    requires s * s + c * c == 1.0
    ensures Square(Apply(Rz(s, c), v)) == Square(v)
  {
    PlaneRotation(s, c, v.x, v.y);
    assert Apply(Rz(s, c), v) == Vec(c * v.x - s * v.y, s * v.x + c * v.y, v.z);
  }

  lemma RyAt(s: real, c: real, v: Vec)
    requires s * s + c * c == 1.0
    ensures Square(Apply(Ry(s, c), v)) == Square(v)
  {
    PlaneRotation(s, c, v.z, v.x);
    assert Apply(Ry(s, c), v) == Vec(s * v.z + c * v.x, v.y, c * v.z - s * v.x);
  }

  lemma RxAt(s: real, c: real, v: Vec)
    requires s * s + c * c == 1.0
    ensures Square(Apply(Rx(s, c), v)) == Square(v)
  {
    PlaneRotation(s, c, v.y, v.z);
    assert Apply(Rx(s, c), v) == Vec(v.x, c * v.y - s * v.z, s * v.y + c * v.z);
  }

  lemma KukaIsRotation(lib: Library, a: real, b: real, c: real)
    requires Sound(lib)
    ensures Rotation(KukaAbc(lib, a, b, c))
  {
    var (ra, rb, rc) := (DegToRad(a), DegToRad(b), DegToRad(c));
    var (x, y, z) := (Rz(lib.sin(ra), lib.cos(ra)), Ry(lib.sin(rb), lib.cos(rb)), Rx(lib.sin(rc), lib.cos(rc)));
    ElementaryRotations(lib.sin(ra), lib.cos(ra));
    ElementaryRotations(lib.sin(rb), lib.cos(rb));
    ElementaryRotations(lib.sin(rc), lib.cos(rc));
    MulIsRotation(x, y);
    MulIsRotation(Mul(x, y), z);
  }

  /** No component exceeds the length. */
  lemma ComponentBound(v: Vec, n: real)
    requires n >= 0.0 && n * n == Square(v)
    ensures Abs(v.x) <= n && Abs(v.y) <= n && Abs(v.z) <= n
  {
    BoundOne(v.x, v.y * v.y + v.z * v.z, n);
    BoundOne(v.y, v.x * v.x + v.z * v.z, n);
    BoundOne(v.z, v.x * v.x + v.y * v.y, n);
  }

  lemma BoundOne(x: real, rest: real, n: real)
    requires n >= 0.0 && rest >= 0.0 && n * n == x * x + rest
    ensures Abs(x) <= n
  {
    if x > n { ProductPositive(x - n, x + n); }
    if -x > n { ProductPositive(-x - n, n - x); }
  }

  lemma ProductPositive(a: real, b: real)
    requires a > 0.0 && b > 0.0
    ensures a * b > 0.0
  {
  }

  // ----- The frame resolver -----

  function Force(w: Wrench): Vec { Vec(w.fx, w.fy, w.fz) }
  function Torque(w: Wrench): Vec { Vec(w.tx, w.ty, w.tz) }
  function WrenchOf(f: Vec, t: Vec): Wrench { Wrench(f.x, f.y, f.z, t.x, t.y, t.z) }

  datatype Abc = Abc(a: real, b: real, c: real)

  function TcpFromSensor(lib: Library, tool: Abc, mount: Abc): Mat {
    Mul(Transpose(KukaAbc(lib, tool.a, tool.b, tool.c)), KukaAbc(lib, mount.a, mount.b, mount.c))
  }

  function SensorToTool(m: Mat, w: Wrench): Wrench { WrenchOf(Apply(m, Force(w)), Apply(m, Torque(w))) }

  class FrameResolver {
    const lib: Library
    var tcpFromSensor: Mat

    constructor (lib: Library)
      ensures tcpFromSensor == IDENTITY && this.lib == lib
    {
      this.lib := lib;
      tcpFromSensor := IDENTITY;
    }

    method Configure(tool: Abc, mount: Abc)
      modifies this
      ensures tcpFromSensor == TcpFromSensor(lib, tool, mount)
    {
      hide KukaAbc, Mul, Transpose;
      var flangeToTool := KukaAbc(lib, tool.a, tool.b, tool.c);
      var mounted := KukaAbc(lib, mount.a, mount.b, mount.c);
      tcpFromSensor := Mul(Transpose(flangeToTool), mounted);
    }

    function WrenchSensorToTool(w: Wrench): Wrench
      reads this
    {
      SensorToTool(tcpFromSensor, w)
    }
  }

  lemma TcpFromSensorIsRotation(lib: Library, tool: Abc, mount: Abc)
    requires Sound(lib)
    ensures Rotation(TcpFromSensor(lib, tool, mount))
  {
    KukaIsRotation(lib, tool.a, tool.b, tool.c);
    KukaIsRotation(lib, mount.a, mount.b, mount.c);
    TransposeIsRotation(KukaAbc(lib, tool.a, tool.b, tool.c));
    MulIsRotation(Transpose(KukaAbc(lib, tool.a, tool.b, tool.c)), KukaAbc(lib, mount.a, mount.b, mount.c));
  }
}
