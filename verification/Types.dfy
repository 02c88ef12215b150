/** Value types shared by the sensor driver, the manager and the controllers. */
module Types {

  datatype Option<+T> = None | Some(value: T)

  /** Forces and torques of one sample. */
  datatype Wrench = Wrench(fx: real, fy: real, fz: real, tx: real, ty: real, tz: real)
  const ZERO := Wrench(0.0, 0.0, 0.0, 0.0, 0.0, 0.0)

  function Add(a: Wrench, b: Wrench): Wrench {
    Wrench(a.fx + b.fx, a.fy + b.fy, a.fz + b.fz, a.tx + b.tx, a.ty + b.ty, a.tz + b.tz)
  }

  function Sub(a: Wrench, b: Wrench): Wrench {
    Wrench(a.fx - b.fx, a.fy - b.fy, a.fz - b.fz, a.tx - b.tx, a.ty - b.ty, a.tz - b.tz)
  }

  function Over(a: Wrench, n: int): Wrench
    requires n != 0
  {
    var d := n as real;
    Wrench(a.fx / d, a.fy / d, a.fz / d, a.tx / d, a.ty / d, a.tz / d)
  }

  function Total(ws: seq<Wrench>): Wrench {
    if ws == [] then ZERO else Add(Total(ws[..|ws| - 1]), ws[|ws| - 1])
  }

  function ForceSquare(w: Wrench): real { w.fx * w.fx + w.fy * w.fy + w.fz * w.fz }
  function TorqueSquare(w: Wrench): real { w.tx * w.tx + w.ty * w.ty + w.tz * w.tz }

  /** Payload weight, centre of mass in the sensor frame, and sensor bias. */
  datatype Payload = Payload(gravity: real, comX: real, comY: real, comZ: real, bias: Wrench)

  /** First-order low-pass; a cutoff of at most 0 passes through. */
  datatype Filter = Filter(initialized: bool, state: Wrench)

  const PI := 3.141592653589793

  function Blend(previous: real, input: real, alpha: real): real { previous + alpha * (input - previous) }

  /** The original divides by dt plus a positive time constant; dt is not negative in any caller. */
  function FilterOf(f: Filter, cutoff: real, w: Wrench, dt: real): (Filter, Wrench)
    requires dt >= 0.0
  {
    if cutoff <= 0.0 then (f, w)
    else if !f.initialized then (Filter(true, w), w)
    else
      var rc := 1.0 / (2.0 * PI * cutoff);
      var k := dt / (dt + rc);
      var s := f.state;
      var t := Wrench(Blend(s.fx, w.fx, k), Blend(s.fy, w.fy, k), Blend(s.fz, w.fz, k),
                      Blend(s.tx, w.tx, k), Blend(s.ty, w.ty, k), Blend(s.tz, w.tz, k));
      (Filter(true, t), t)
  }
}
