/** Gravity compensation, and the equations from which the payload is estimated. */
module PayloadModel {
  import opened RealMath
  import opened Types
  import opened Geometry

  function Minus(a: Vec, b: Vec): Vec { Vec(a.x - b.x, a.y - b.y, a.z - b.z) }
  function Plus(a: Vec, b: Vec): Vec { Vec(a.x + b.x, a.y + b.y, a.z + b.z) }
  function CentreOfMass(p: Payload): Vec { Vec(p.comX, p.comY, p.comZ) }
  const NO_VEC := Vec(0.0, 0.0, 0.0)

  // ----- Compensation -----

  /** Subtracts bias, weight and the weight's moment; baseFromSensor is the sensor-to-base rotation. */
  function CompensateOf(p: Payload, raw: Wrench, baseFromSensor: Mat): Wrench {
    var weight := Apply(Transpose(baseFromSensor), Vec(0.0, 0.0, -p.gravity));
    var moment := Cross(CentreOfMass(p), weight);
    Sub(Sub(raw, p.bias), WrenchOf(weight, moment))
  }

  class ToolGravityCompensator {
    const lib: Library
    var params: Payload

    constructor (lib: Library, p: Payload)
      ensures params == p && this.lib == lib
    {
      this.lib, params := lib, p;
    }

    method SetParams(p: Payload)
      modifies this
      ensures params == p
    {
      params := p;
    }

    function Compensate(raw: Wrench, baseFromSensor: Mat): (w: Wrench)
      reads this
      ensures w == CompensateOf(params, raw, baseFromSensor)
    {
      var weight := Apply(Transpose(baseFromSensor), Vec(0.0, 0.0, -params.gravity));
      var moment := Cross(CentreOfMass(params), weight);
      Wrench(raw.fx - params.bias.fx - weight.x, raw.fy - params.bias.fy - weight.y, raw.fz - params.bias.fz - weight.z,
             raw.tx - params.bias.tx - moment.x, raw.ty - params.bias.ty - moment.y, raw.tz - params.bias.tz - moment.z)
    }

    /** The sensor is aligned with the frame given by the robot's A/B/C angles. */
    function CompensateAngles(raw: Wrench, a: real, b: real, c: real): Wrench
      reads this
    {
      Compensate(raw, KukaAbc(lib, a, b, c))
    }

    method AbsorbResidual(residual: Wrench)
      modifies this
      ensures params == old(params).(bias := Add(old(params).bias, residual))
    {
      params := params.(bias := Add(params.bias, residual));
    }
  }

  /** A wrench compensates to zero once its own residual is absorbed into the bias. */
  lemma AbsorbedIsZero(p: Payload, raw: Wrench, m: Mat)
    ensures CompensateOf(p.(bias := Add(p.bias, CompensateOf(p, raw, m))), raw, m) == ZERO
  {
  }

  // ----- The estimator's equations -----

  datatype Sample = Sample(a: real, b: real, c: real, w: Wrench)

  function Component(v: Vec, j: int): real { if j == 0 then v.x else if j == 1 then v.y else v.z }

  /** Row j of a sample in the force fit, over the unknowns G, F0x, F0y, F0z; `third` is R's third row. */
  function ForceEntry(third: Vec, j: int, k: int): real {
    if k == 0 then -Component(third, j) else if k == j + 1 then 1.0 else 0.0
  }

  function Skew(f: Vec, j: int): Vec {
    if j == 0 then Vec(0.0, -f.z, f.y) else if j == 1 then Vec(f.z, 0.0, -f.x) else Vec(-f.y, f.x, 0.0)
  }

  /** Row j of a sample in the torque fit, over the centre of mass and the torque bias. */
  function TorqueEntry(f: Vec, j: int, k: int): real {
    if k < 3 then -Component(Skew(f, j), k) else if k == j + 3 then 1.0 else 0.0
  }

  function Third(rotation: (real, real, real) -> Mat, s: Sample): Vec { rotation(s.a, s.b, s.c).r2 }

  function Unbiased(s: Sample, bias: Wrench): Vec { Minus(Force(s.w), Force(bias)) }

  /** The linear system of the force fit; `rotation` is the A/B/C rotation. */
  method ForceSystem(rotation: (real, real, real) -> Mat, samples: seq<Sample>)
    returns (af: array2<real>, bf: array<real>)
    ensures af.Length0 == 3 * |samples| == bf.Length && af.Length1 == 4
    ensures forall r, k ::
              0 <= r < af.Length0 && 0 <= k < 4 ==>
                af[r, k] == ForceEntry(Third(rotation, samples[r / 3]), r % 3, k)
    ensures forall r :: 0 <= r < bf.Length ==> bf[r] == Component(Force(samples[r / 3].w), r % 3)
  {
    hide ForceEntry, Component, Third;
    af, bf := new real[3 * |samples|, 4], new real[3 * |samples|];
    for i := 0 to |samples|
      invariant forall r, k ::
                  0 <= r < 3 * i && 0 <= k < 4 ==>
                    af[r, k] == ForceEntry(Third(rotation, samples[r / 3]), r % 3, k)
      invariant forall r :: 0 <= r < 3 * i ==> bf[r] == Component(Force(samples[r / 3].w), r % 3)
    {
      var third := Third(rotation, samples[i]);
      forall r, k | 3 * i <= r < 3 * i + 3 && 0 <= k < 4 {
        af[r, k] := ForceEntry(third, r - 3 * i, k);
      }
      forall r | 3 * i <= r < 3 * i + 3 {
        bf[r] := Component(Force(samples[i].w), r - 3 * i);
      }
    }
  }

  /** The linear system of the torque fit, with the force bias of the force fit. */
  method TorqueSystem(samples: seq<Sample>, bias: Wrench) returns (at: array2<real>, bt: array<real>)
    ensures at.Length0 == 3 * |samples| == bt.Length && at.Length1 == 6
    ensures forall r, k ::
              0 <= r < at.Length0 && 0 <= k < 6 ==>
                at[r, k] == TorqueEntry(Unbiased(samples[r / 3], bias), r % 3, k)
    ensures forall r :: 0 <= r < bt.Length ==> bt[r] == Component(Torque(samples[r / 3].w), r % 3)
  {
    hide TorqueEntry, Component, Unbiased;
    at, bt := new real[3 * |samples|, 6], new real[3 * |samples|];
    for i := 0 to |samples|
      invariant forall r, k ::
                  0 <= r < 3 * i && 0 <= k < 6 ==>
                    at[r, k] == TorqueEntry(Unbiased(samples[r / 3], bias), r % 3, k)
      invariant forall r :: 0 <= r < 3 * i ==> bt[r] == Component(Torque(samples[r / 3].w), r % 3)
    {
      var f := Unbiased(samples[i], bias);
      forall r, k | 3 * i <= r < 3 * i + 3 && 0 <= k < 6 {
        at[r, k] := TorqueEntry(f, r - 3 * i, k);
      }
      forall r | 3 * i <= r < 3 * i + 3 {
        bt[r] := Component(Torque(samples[i].w), r - 3 * i);
      }
    }
  }

  // ----- The residuals of the fit are what compensation leaves -----

  /** Right-hand side minus row times unknowns, for row j of a sample at orientation m. */
  function ForceResidual(m: Mat, s: Sample, p: Payload, j: int): real {
    Component(Force(s.w), j)
    - (ForceEntry(m.r2, j, 0) * p.gravity + ForceEntry(m.r2, j, 1) * p.bias.fx
       + ForceEntry(m.r2, j, 2) * p.bias.fy + ForceEntry(m.r2, j, 3) * p.bias.fz)
  }

  function TorqueResidual(s: Sample, p: Payload, j: int): real {
    var f := Unbiased(s, p.bias);
    Component(Torque(s.w), j)
    - (TorqueEntry(f, j, 0) * p.comX + TorqueEntry(f, j, 1) * p.comY + TorqueEntry(f, j, 2) * p.comZ
       + TorqueEntry(f, j, 3) * p.bias.tx + TorqueEntry(f, j, 4) * p.bias.ty + TorqueEntry(f, j, 5) * p.bias.tz)
  }

  function ForceResiduals(m: Mat, s: Sample, p: Payload): Vec {
    Vec(ForceResidual(m, s, p, 0), ForceResidual(m, s, p, 1), ForceResidual(m, s, p, 2))
  }

  function TorqueResiduals(s: Sample, p: Payload): Vec {
    Vec(TorqueResidual(s, p, 0), TorqueResidual(s, p, 1), TorqueResidual(s, p, 2))
  }

  /** At every orientation, compensation leaves exactly the force residual of the fit. */
  lemma ForceLeftIsResidual(m: Mat, s: Sample, p: Payload)
    ensures Force(CompensateOf(p, s.w, m)) == ForceResiduals(m, s, p)
  {
  }

  /** ... and the torque residual plus the moment of the force residual about the centre of mass. */
  lemma TorqueLeftIsResidual(m: Mat, s: Sample, p: Payload)
    ensures Torque(CompensateOf(p, s.w, m)) ==
              Plus(TorqueResiduals(s, p), Cross(CentreOfMass(p), ForceResiduals(m, s, p)))
  {
    var weight := Apply(Transpose(m), Vec(0.0, 0.0, -p.gravity));
    ForceLeftIsResidual(m, s, p);
    ResidualIsUnbiasedMinusWeight(m, s, p);
    CrossMinus(CentreOfMass(p), Unbiased(s, p.bias), weight);
    SkewIsCross(s, p);
  }

  lemma ResidualIsUnbiasedMinusWeight(m: Mat, s: Sample, p: Payload)
    ensures ForceResiduals(m, s, p) == Minus(Unbiased(s, p.bias), Apply(Transpose(m), Vec(0.0, 0.0, -p.gravity)))
  {
  }

  lemma CrossMinus(a: Vec, f: Vec, g: Vec)
    ensures Cross(a, Minus(f, g)) == Minus(Cross(a, f), Cross(a, g))
  {
  }

  lemma SkewIsCross(s: Sample, p: Payload)
    ensures TorqueResiduals(s, p)
            == Minus(Minus(Torque(s.w), Torque(p.bias)), Cross(CentreOfMass(p), Unbiased(s, p.bias)))
  {
  }

  /** So the overload for angles leaves the residuals of a sample at these angles. */
  lemma AnglesLeaveResiduals(t: ToolGravityCompensator, s: Sample)
    ensures var w, m := t.CompensateAngles(s.w, s.a, s.b, s.c), KukaAbc(t.lib, s.a, s.b, s.c);
            && Force(w) == ForceResiduals(m, s, t.params)
            && Torque(w)
               == Plus(TorqueResiduals(s, t.params), Cross(CentreOfMass(t.params), ForceResiduals(m, s, t.params)))
  {
    hide KukaAbc, CompensateOf, ForceResiduals, TorqueResiduals, Cross, Plus;
    ForceLeftIsResidual(KukaAbc(t.lib, s.a, s.b, s.c), s, t.params);
    TorqueLeftIsResidual(KukaAbc(t.lib, s.a, s.b, s.c), s, t.params);
  }

  /** The fit is exact on a sample exactly when compensation gives zero there. */
  lemma ExactFitIff(m: Mat, s: Sample, p: Payload)
    ensures CompensateOf(p, s.w, m) == ZERO <==> ForceResiduals(m, s, p) == NO_VEC && TorqueResiduals(s, p) == NO_VEC
  {
    ForceLeftIsResidual(m, s, p);
    TorqueLeftIsResidual(m, s, p);
    CrossZero(CentreOfMass(p));
    var w, c, f, t := CompensateOf(p, s.w, m), CentreOfMass(p), ForceResiduals(m, s, p), TorqueResiduals(s, p);
    assert w == WrenchOf(Force(w), Torque(w));
    assert f == NO_VEC ==> Torque(w) == Plus(t, NO_VEC) == t;
  }

  lemma CrossZero(a: Vec)
    ensures Cross(a, NO_VEC) == NO_VEC
  {
  }
}
