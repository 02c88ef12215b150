/**
 * The closed orientation loop: the motion core, the safety limiter, and a robot that turns by the limited
 * correction in every cycle.
 */
module MotionLaws {
  import opened RealMath
  import opened Types
  import opened Motion

  /** What the loop needs of its parameters. */
  predicate Proper(g: Goal, p: DirectParams, dt: real) {
    && dt > 0.0 && g.gain > 0.0 && g.tol > 0.0 && g.maxSpeed > 0.0 && g.gain * dt <= 1.0
    && p.safety.maxRot > 0.0 && p.safety.forceCeiling >= 0.0 && p.safety.torqueCeiling >= 0.0
  }

  /** The least progress of one axis in one cycle outside its tolerance. */
  function Delta(g: Goal, p: DirectParams, dt: real): real { Min(Pace(g, dt), p.safety.maxRot) }

  /** The same without the safety limit. */
  function Pace(g: Goal, dt: real): real { Min(g.gain * g.tol * dt, g.maxSpeed * dt) }

  function AxisTurn(g: Goal, p: DirectParams, e: real, dt: real): real { Clamp(Shape(g, e, dt), p.safety.maxRot) }

  // ----- One axis, one cycle -----

  /** For a positive error: the turn stays within the error, and outside the tolerance it is at least Delta. */
  lemma TurnForward(g: Goal, p: DirectParams, e: real, dt: real)
    requires Proper(g, p, dt) && e >= 0.0
    ensures 0.0 <= AxisTurn(g, p, e, dt) <= e
    ensures e >= g.tol ==> AxisTurn(g, p, e, dt) >= Delta(g, p, dt)
  {
    ForwardSpeed(g, e, dt);
    ClampForward(Shape(g, e, dt), Pace(g, dt), p.safety.maxRot, e);
  }

  /** The same without the safety limit. */
  lemma ForwardSpeed(g: Goal, e: real, dt: real)
    requires g.gain > 0.0 && dt > 0.0 && g.maxSpeed > 0.0 && g.gain * dt <= 1.0 && e >= 0.0
    ensures 0.0 <= Shape(g, e, dt) <= e
    ensures e >= g.tol ==> Shape(g, e, dt) >= Pace(g, dt)
  {
    var ge, x := g.gain * e, Shape(g, e, dt);
    var v := Clamp(ge, g.maxSpeed);
    assert x == v * dt;
    hide Shape, Clamp, Min, Pace;
    Product(g.gain, e);
    ClampIsMin(ge, g.maxSpeed);
    StepWithin(g.gain, e, dt, v, ge, x);
    if e >= g.tol { PaceIsLeast(g, e, dt, v, ge, x); }
  }

  lemma ClampIsMin(x: real, lim: real)
    requires x >= 0.0 && lim > 0.0
    ensures Clamp(x, lim) == Min(lim, x) && 0.0 <= Clamp(x, lim) <= x
  {
  }

  /** A step at a speed of at most gain times the error stays within the error. */
  lemma StepWithin(gain: real, e: real, dt: real, v: real, ge: real, x: real)
    requires gain * dt <= 1.0 && dt > 0.0 && e >= 0.0 && 0.0 <= v <= ge && ge == gain * e && x == v * dt
    ensures 0.0 <= x <= e
  {
    Product(v, dt);
    ScaleMonotone(v, ge, dt);
    ScaleMonotone(gain * dt, 1.0, e);
    assert ge * dt == (gain * dt) * e;
  }

  lemma PaceIsLeast(g: Goal, e: real, dt: real, v: real, ge: real, x: real)
    requires g.gain > 0.0 && dt > 0.0 && e >= g.tol && ge == g.gain * e && v == Min(g.maxSpeed, ge) && x == v * dt
    ensures x >= Pace(g, dt)
  {
    var gt, top := g.gain * g.tol, g.maxSpeed;
    ScaleMonotone(g.tol, e, g.gain);
    ScaleMonotone(gt, ge, dt);
    assert Pace(g, dt) == Min(gt * dt, top * dt);
    hide Pace;
    LeastOf(gt, ge, top, dt, v, x);
  }

  lemma LeastOf(gt: real, ge: real, top: real, dt: real, v: real, x: real)
    requires gt * dt <= ge * dt && v == Min(top, ge) && x == v * dt
    ensures x >= Min(gt * dt, top * dt)
  {
  }

  lemma ClampForward(x: real, a: real, lim: real, e: real)
    requires 0.0 <= x <= e && lim > 0.0
    ensures 0.0 <= Clamp(x, lim) <= e && (x >= a ==> Clamp(x, lim) >= Min(a, lim))
  {
  }

  lemma Product(x: real, y: real)
    requires x >= 0.0 && y >= 0.0
    ensures x * y >= 0.0
  {
  }

  lemma TurnIsOdd(g: Goal, p: DirectParams, e: real, dt: real)
    requires g.maxSpeed >= 0.0 && p.safety.maxRot >= 0.0
    ensures AxisTurn(g, p, -e, dt) == -AxisTurn(g, p, e, dt)
  {
    assert g.gain * -e == -(g.gain * e);
    var v := Clamp(g.gain * e, g.maxSpeed);
    assert Clamp(-(g.gain * e), g.maxSpeed) == -v;
    assert -v * dt == -(v * dt);
  }

  /** The wrapped error keeps its sign, never grows, and shrinks by Delta outside the tolerance. */
  lemma AxisStep(g: Goal, p: DirectParams, target: real, at: real, dt: real)
    requires Proper(g, p, dt)
    ensures var e := WrapDeg(target - at); var e' := WrapDeg(target - (at + AxisTurn(g, p, e, dt)));
            && (e >= 0.0 ==> 0.0 <= e' <= e) && (e <= 0.0 ==> e <= e' <= 0.0)
            && (Abs(e) >= g.tol ==> Abs(e') <= Abs(e) - Delta(g, p, dt))
  {
    var e := WrapDeg(target - at);
    WrapMeans(target - at);
    var k: int :| target - at - e == Turns(k);
    if e >= 0.0 { TurnForward(g, p, e, dt); } else {
      TurnForward(g, p, -e, dt);
      TurnIsOdd(g, p, e, dt);
    }
    var turn := AxisTurn(g, p, e, dt);
    WrapIs(target - (at + turn), e - turn, k);
  }

  // ----- The loop -----

  datatype Loop = Loop(direct: Direct, pose: Angles)

  /** One cycle at the time `now`. */
  function Cycle(p: DirectParams, l: Loop, now: real, dt: real): Loop {
    var (d, out) := DirectUpdateOf(p, l.direct, l.pose, now, dt);
    var t := out.correction.turn;
    Loop(d, Angles(l.pose.a + t.a, l.pose.b + t.b, l.pose.c + t.c))
  }

  function Cycles(p: DirectParams, l: Loop, clock: nat -> real, dt: real, n: nat): Loop {
    if n == 0 then l else Cycle(p, Cycles(p, l, clock, dt, n - 1), clock(n - 1), dt)
  }

  /** After n cycles an axis is in tolerance, or n * Delta closer than half a turn. */
  predicate Near(g: Goal, p: DirectParams, dt: real, e: real, n: nat) {
    Abs(e) < g.tol || Abs(e) <= 180.0 - Times(n, Delta(g, p, dt))
  }

  ghost predicate LoopInv(g: Goal, p: DirectParams, dt: real, l: Loop, n: nat, settled: nat) {
    var m, e := l.direct.motion, ErrorOf(g, l.pose);
    && m.goal == g && (m.status == Running || m.status == Converged)
    && (m.status == Running ==>
          && m.elapsed == Times(n, dt)
          && Near(g, p, dt, e.a, n) && Near(g, p, dt, e.b, n) && Near(g, p, dt, e.c, n)
          && (n > settled ==> m.held >= Times(n - settled, dt) && m.held < g.hold)
          && m.held >= 0.0)
  }

  lemma NearStep(g: Goal, p: DirectParams, target: real, at: real, dt: real, n: nat)
    requires Proper(g, p, dt) && Near(g, p, dt, WrapDeg(target - at), n)
    ensures Near(g, p, dt, WrapDeg(target - (at + AxisTurn(g, p, WrapDeg(target - at), dt))), n + 1)
  {
    AxisStep(g, p, target, at, dt);
  }

  lemma DeltaPositive(g: Goal, p: DirectParams, dt: real)
    requires Proper(g, p, dt)
    ensures Delta(g, p, dt) > 0.0
  {
    assert g.gain * g.tol > 0.0;
    assert g.gain * g.tol * dt > 0.0 && g.maxSpeed * dt > 0.0;
  }

  /** Past the settling time every axis is in tolerance. */
  lemma SettledIsInTolerance(g: Goal, p: DirectParams, dt: real, e: real, n: nat, settled: nat)
    requires Proper(g, p, dt) && Near(g, p, dt, e, n) && n >= settled && Times(settled, Delta(g, p, dt)) >= 180.0
    ensures Abs(e) < g.tol
  {
    DeltaPositive(g, p, dt);
    TimesMonotone(settled, n, Delta(g, p, dt));
  }

  /** While the goal keeps running, a cycle turns every axis by its limited correction. */
  lemma CycleTurns(g: Goal, p: DirectParams, dt: real, l: Loop, now: real)
    requires Proper(g, p, dt) && l.direct.motion.goal == g && l.direct.motion.status == Running
    ensures var e := ErrorOf(g, l.pose);
            Cycle(p, l, now, dt).direct.motion.status == Running ==>
            Cycle(p, l, now, dt).pose == Angles(l.pose.a + AxisTurn(g, p, e.a, dt), l.pose.b + AxisTurn(g, p, e.b, dt),
                                                l.pose.c + AxisTurn(g, p, e.c, dt))
  {
    hide Exceeds, ForceSquare, TorqueSquare, ErrorOf, InTolerance;
    NoWrench(p.safety.forceCeiling);
    NoWrench(p.safety.torqueCeiling);
  }

  /** The motion core's clocks over one update, when everything is in tolerance from `settled` on. */
  lemma ClockStep(g: Goal, m: Motion, s: Angles, dt: real, n: nat, settled: nat)
    requires dt > 0.0 && m.goal == g && m.status == Running && m.elapsed == Times(n, dt)
             && Times(n + 1, dt) <= g.timeout
    requires m.held >= 0.0 && (n > settled ==> m.held >= Times(n - settled, dt))
    requires n >= settled ==> InTolerance(g, ErrorOf(g, s))
    ensures var t := UpdateOf(m, s, dt).0;
            && t.goal == g && (t.status == Running || t.status == Converged)
            && (t.status == Running ==>
                  && t.elapsed == Times(n + 1, dt) && t.held >= 0.0
                  && (n + 1 > settled ==> t.held >= Times(n + 1 - settled, dt) && t.held < g.hold))
  {
    hide ErrorOf, InTolerance, Shape;
  }

  lemma LoopStep(g: Goal, p: DirectParams, dt: real, l: Loop, n: nat, settled: nat, now: real)
    requires Proper(g, p, dt) && LoopInv(g, p, dt, l, n, settled)
    requires Times(n + 1, dt) <= g.timeout && Times(settled, Delta(g, p, dt)) >= 180.0
    ensures LoopInv(g, p, dt, Cycle(p, l, now, dt), n + 1, settled)
  {
    hide UpdateOf, Near, WrapDeg, Delta, LimitOf, AxisTurn, Times;
    if l.direct.motion.status == Running {
      var e := ErrorOf(g, l.pose);
      CycleTurns(g, p, dt, l, now);
      NearStep(g, p, g.a, l.pose.a, dt, n);
      NearStep(g, p, g.b, l.pose.b, dt, n);
      NearStep(g, p, g.c, l.pose.c, dt, n);
      if n >= settled {
        SettledIsInTolerance(g, p, dt, e.a, n, settled);
        SettledIsInTolerance(g, p, dt, e.b, n, settled);
        SettledIsInTolerance(g, p, dt, e.c, n, settled);
      }
      ClockStep(g, l.direct.motion, l.pose, dt, n, settled);
      assert Cycle(p, l, now, dt).direct.motion == UpdateOf(l.direct.motion, l.pose, dt).0;
    } else {
      assert Cycle(p, l, now, dt).direct.motion == l.direct.motion by { IdleCycle(p, l, now, dt); }
    }
  }

  lemma IdleCycle(p: DirectParams, l: Loop, now: real, dt: real)
    requires l.direct.motion.status != Running
    ensures Cycle(p, l, now, dt).direct.motion == l.direct.motion
  {
    hide LimitOf;
  }

  lemma {:induction false} LoopRun(g: Goal, p: DirectParams, dt: real, l: Loop, clock: nat -> real, n: nat,
                                   settled: nat)
    requires Proper(g, p, dt) && l.direct.motion == SetGoalOf(g)
    requires Times(n, dt) <= g.timeout && Times(settled, Delta(g, p, dt)) >= 180.0
    ensures LoopInv(g, p, dt, Cycles(p, l, clock, dt, n), n, settled)
  {
    if n == 0 {
      WrapMeans(g.a - l.pose.a);
      WrapMeans(g.b - l.pose.b);
      WrapMeans(g.c - l.pose.c);
    } else {
      LoopRun(g, p, dt, l, clock, n - 1, settled);
      LoopStep(g, p, dt, Cycles(p, l, clock, dt, n - 1), n - 1, settled, clock(n - 1));
    }
  }

  /** The cycles that suffice: half a turn in steps of Delta, then the hold time, at least once. */
  function Enough(g: Goal, p: DirectParams, dt: real): nat
    requires Proper(g, p, dt)
  {
    DeltaPositive(g, p, dt);
    var travel := Ceil(180.0 / Delta(g, p, dt));
    var hold := Ceil(g.hold / dt);
    (if travel < 0 then 0 else travel) + (if hold < 1 then 1 else hold)
  }

  /** From any pose the goal is CONVERGED after `Enough` cycles, when the timeout allows that many. */
  lemma Converges(g: Goal, p: DirectParams, dt: real, l: Loop, clock: nat -> real)
    requires Proper(g, p, dt) && l.direct.motion == SetGoalOf(g)
    requires Enough(g, p, dt) as real * dt <= g.timeout
    ensures Cycles(p, l, clock, dt, Enough(g, p, dt)).direct.motion.status == Converged
  {
    DeltaPositive(g, p, dt);
    var delta, n := Delta(g, p, dt), Enough(g, p, dt);
    var travel := Ceil(180.0 / delta);
    var settled: nat := if travel < 0 then 0 else travel;
    CeilCovers(180.0, delta, settled);
    TimesIsProduct(n, dt);
    LoopRun(g, p, dt, l, clock, n, settled);
    CeilCovers(g.hold, dt, n - settled);
  }

  // ----- Whatever the robot does -----

  function Updates(m: Motion, states: seq<Angles>, dt: real): Motion {
    if states == [] then m else UpdateOf(Updates(m, states[..|states| - 1], dt), states[|states| - 1], dt).0
  }

  lemma {:induction false} ElapsedCounts(g: Goal, states: seq<Angles>, dt: real)
    ensures var m := Updates(SetGoalOf(g), states, dt);
            && m.goal == g && m.status != Inactive
            && (m.status == Running ==> m.elapsed == Times(|states|, dt) && (states != [] ==> m.elapsed <= g.timeout))
    decreases |states|
  {
    if states != [] { ElapsedCounts(g, states[..|states| - 1], dt); }
  }

  /** On any sequence of poses a goal leaves RUNNING within floor(timeout / dt) + 1 updates, and at least by one. */
  lemma LeavesRunning(g: Goal, states: seq<Angles>, dt: real)
    requires dt > 0.0 && |states| >= 1 && |states| >= (g.timeout / dt).Floor + 1
    ensures var s := Updates(SetGoalOf(g), states, dt).status; s == Converged || s == TimedOut
  {
    ElapsedCounts(g, states, dt);
    if Updates(SetGoalOf(g), states, dt).status == Running {
      FloorBounds(g.timeout, dt, |states|);
      assert false;
    }
  }

  // ----- Exactly when a goal is converged, and when it has timed out -----

  function Span(n: nat, dt: real): real { n as real * dt }

  /** All three axes are less than the tolerance away from the goal, the short way round. */
  predicate AtGoal(g: Goal, s: Angles) {
    Abs(WrapDeg(g.a - s.a)) < g.tol && Abs(WrapDeg(g.b - s.b)) < g.tol && Abs(WrapDeg(g.c - s.c)) < g.tol
  }

  /** The last k of the first n poses, at least one, are at the goal, and they last for the hold time. */
  ghost predicate Held(g: Goal, states: seq<Angles>, dt: real, n: nat, k: nat) {
    1 <= k <= n <= |states| && Span(k, dt) >= g.hold && forall i :: n - k <= i < n ==> AtGoal(g, states[i])
  }

  /** With the n-th pose, in time, the goal has been held. */
  ghost predicate Achieved(g: Goal, states: seq<Angles>, dt: real, n: nat) {
    Span(n, dt) <= g.timeout && exists k: nat :: Held(g, states, dt, n, k)
  }

  /** How many poses at the end are at the goal. */
  function InRow(g: Goal, states: seq<Angles>): (k: nat)
    ensures k <= |states| && forall i :: |states| - k <= i < |states| ==> AtGoal(g, states[i])
    ensures k < |states| ==> !AtGoal(g, states[|states| - 1 - k])
  {
    if states == [] || !AtGoal(g, states[|states| - 1]) then 0 else InRow(g, states[..|states| - 1]) + 1
  }

  lemma MoreIsLonger(k: nat, r: nat, dt: real)
    requires k <= r && dt > 0.0
    ensures Span(k, dt) <= Span(r, dt)
  {
    ScaleMonotone(k as real, r as real, dt);
  }

  lemma HeldIff(g: Goal, states: seq<Angles>, dt: real)
    requires dt > 0.0
    ensures (exists k: nat :: Held(g, states, dt, |states|, k))
            <==> InRow(g, states) >= 1 && Span(InRow(g, states), dt) >= g.hold
  {
    hide AtGoal, Span;
    var r, n := InRow(g, states), |states|;
    if k: nat :| Held(g, states, dt, n, k) {
      assert k <= r;
      MoreIsLonger(k, r, dt);
    }
    if r >= 1 && Span(r, dt) >= g.hold { assert Held(g, states, dt, n, r); }
  }

  lemma AchievedPrefix(g: Goal, states: seq<Angles>, dt: real, n: nat)
    requires states != [] && n < |states|
    ensures Achieved(g, states[..|states| - 1], dt, n) <==> Achieved(g, states, dt, n)
  {
    var front := states[..|states| - 1];
    if k: nat :| Held(g, front, dt, n, k) { assert Held(g, states, dt, n, k); }
    if k: nat :| Held(g, states, dt, n, k) { assert Held(g, front, dt, n, k); }
  }

  /** The clocks of a running goal, and that nothing has ended it so far. */
  ghost predicate Going(g: Goal, states: seq<Angles>, dt: real) {
    var m, n := Updates(SetGoalOf(g), states, dt), |states|;
    && m.goal == g && m.elapsed == Span(n, dt) && m.held == Span(InRow(g, states), dt)
    && (n > 0 ==> Span(n, dt) <= g.timeout)
  }

  ghost predicate StatusInv(g: Goal, states: seq<Angles>, dt: real) {
    match Updates(SetGoalOf(g), states, dt).status
    case Running => Going(g, states, dt) && forall n: nat :: !Achieved(g, states, dt, n)
    case Converged => exists n: nat :: Achieved(g, states, dt, n)
    case TimedOut =>
      states != [] && Span(|states|, dt) > g.timeout && forall n: nat :: !Achieved(g, states, dt, n)
    case Inactive => false
  }

  lemma OneMoreUpdate(n: nat, dt: real)
    ensures Span(n + 1, dt) == Span(n, dt) + dt
  {
    assert (n + 1) as real == n as real + 1.0;
  }

  /** One update of a running goal. */
  lemma GoingOn(g: Goal, states: seq<Angles>, dt: real)
    requires dt > 0.0 && states != [] && var front := states[..|states| - 1];
             Updates(SetGoalOf(g), front, dt).status == Running && Going(g, front, dt)
    ensures var m, n := Updates(SetGoalOf(g), states, dt), |states|;
            if Span(n, dt) > g.timeout then m.status == TimedOut
            else if exists k: nat :: Held(g, states, dt, n, k) then m.status == Converged
            else m.status == Running && Going(g, states, dt)
  {
    hide AtGoal, UpdateOf, Held, Span;
    var n := |states|;
    var front, last := states[..n - 1], states[n - 1];
    HeldIff(g, states, dt);
    OneMoreUpdate(n - 1, dt);
    OneMoreUpdate(InRow(g, front), dt);
    OneUpdate(g, Updates(SetGoalOf(g), front, dt), last, dt);
    assert InRow(g, states) == if AtGoal(g, last) then InRow(g, front) + 1 else 0;
    assert Span(0, dt) == 0.0 by { JustBegun(g, dt); }
  }

  lemma OneUpdate(g: Goal, m: Motion, s: Angles, dt: real)
    requires m.status == Running && m.goal == g
    ensures var t := UpdateOf(m, s, dt).0;
            if m.elapsed + dt > g.timeout then t.status == TimedOut
            else if AtGoal(g, s) && m.held + dt >= g.hold then t.status == Converged
            else t == Motion(g, Running, m.elapsed + dt, if AtGoal(g, s) then m.held + dt else 0.0)
  {
    hide WrapDeg, Abs, Shape;
  }

  lemma {:induction false} StatusHolds(g: Goal, states: seq<Angles>, dt: real)
    requires dt > 0.0
    ensures StatusInv(g, states, dt)
    decreases |states|
  {
    hide Achieved, Going, InRow, Span;
    if states == [] {
      forall n: nat ensures !Achieved(g, states, dt, n) { NothingAchieved(g, dt, n); }
      assert Going(g, states, dt) by { JustBegun(g, dt); }
    } else {
      var front, n := states[..|states| - 1], |states|;
      StatusHolds(g, front, dt);
      forall m: nat | m < n ensures Achieved(g, front, dt, m) <==> Achieved(g, states, dt, m) {
        AchievedPrefix(g, states, dt, m);
      }
      forall m: nat | m > n - 1 ensures !Achieved(g, front, dt, m) { AchievedIsReached(g, front, dt, m); }
      forall m: nat | m > n ensures !Achieved(g, states, dt, m) { AchievedIsReached(g, states, dt, m); }
      AchievedNow(g, states, dt);
      OneMoreUpdate(n - 1, dt);
      if Updates(SetGoalOf(g), front, dt).status == Running { GoingOn(g, states, dt); }
    }
  }

  lemma AchievedNow(g: Goal, states: seq<Angles>, dt: real)
    ensures var n := |states|;
            Achieved(g, states, dt, n) <==> Span(n, dt) <= g.timeout && exists k: nat :: Held(g, states, dt, n, k)
  {
  }

  lemma AchievedIsReached(g: Goal, states: seq<Angles>, dt: real, n: nat)
    requires n > |states|
    ensures !Achieved(g, states, dt, n)
  {
  }

  lemma NothingAchieved(g: Goal, dt: real, n: nat)
    ensures !Achieved(g, [], dt, n)
  {
  }

  lemma JustBegun(g: Goal, dt: real)
    ensures Going(g, [], dt) && Span(0, dt) == 0.0
  {
  }

  /**
   * On any sequence of poses: a goal is CONVERGED exactly when, at some update within the timeout, all three axes had
   * been less than the tolerance away from it in as many updates in a row as the hold time takes, and in at least one;
   * it has TIMED OUT exactly when that has not happened and the time is over.
   */
  lemma ConvergedIff(g: Goal, states: seq<Angles>, dt: real)
    requires dt > 0.0
    ensures var status := Updates(SetGoalOf(g), states, dt).status;
            && (status == Converged <==> exists n: nat :: Achieved(g, states, dt, n))
            && (status == TimedOut <==>
                  states != [] && Span(|states|, dt) > g.timeout && forall n: nat :: !Achieved(g, states, dt, n))
  {
    hide Achieved, Span;
    StatusHolds(g, states, dt);
    if Updates(SetGoalOf(g), states, dt).status == Running { assert Going(g, states, dt); }
  }

  // ----- Who commands the direct controller -----

  lemma ClampMeans(v: real, lim: real)
    requires lim >= 0.0
    ensures Abs(Clamp(v, lim)) <= lim && (Clamp(v, lim) == v <==> Abs(v) <= lim) && Clamp(0.0, lim) == 0.0
  {
  }

  /** Without a wrench the limiter only clamps. */
  lemma LimitMeans(raw: Correction, p: Safety)
    requires p.maxTrans >= 0.0 && p.maxRot >= 0.0 && p.forceCeiling >= 0.0 && p.torqueCeiling >= 0.0
    ensures var l := LimitOf(raw, ZERO, p); var r := l.correction;
            && !l.hardCutoff && WithinLimits(r, p) && (r == raw <==> WithinLimits(raw, p))
               && (l.saturated <==> r != raw)
            && (raw.x == raw.y == raw.z == 0.0 ==> r.x == r.y == r.z == 0.0)
            && (raw == NO_CORRECTION ==> r == NO_CORRECTION)
  {
    hide Clamp, Abs;
    NoWrench(p.forceCeiling);
    NoWrench(p.torqueCeiling);
    ClampMeans(raw.x, p.maxTrans);
    ClampMeans(raw.y, p.maxTrans);
    ClampMeans(raw.z, p.maxTrans);
    ClampMeans(raw.turn.a, p.maxRot);
    ClampMeans(raw.turn.b, p.maxRot);
    ClampMeans(raw.turn.c, p.maxRot);
  }

  lemma NoWrench(ceiling: real)
    requires ceiling >= 0.0
    ensures !Exceeds(ForceSquare(ZERO), ceiling) && !Exceeds(TorqueSquare(ZERO), ceiling)
  {
    hide ForceSquare, TorqueSquare;
    ZeroSquares();
    Product(ceiling, ceiling);
  }

  lemma ZeroSquares()
    ensures ForceSquare(ZERO) == 0.0 && TorqueSquare(ZERO) == 0.0
  {
  }

  /**
   * A running goal takes precedence and never translates; otherwise a stream command is passed on, clamped, until it
   * is older than the timeout; otherwise nothing moves and the stream is reported stale. Ceilings of at least zero
   * never cut this controller off, because it hands the limiter no wrench.
   */
  lemma DirectPrecedence(p: DirectParams, d: Direct, s: Angles, now: real, dt: real)
    requires p.safety.maxTrans >= 0.0 && p.safety.maxRot >= 0.0 && p.safety.forceCeiling >= 0.0
             && p.safety.torqueCeiling >= 0.0
    ensures var (t, out) := DirectUpdateOf(p, d, s, now, dt); var c, r := d.stream.correction, out.correction;
            && t.stream == d.stream && WithinLimits(r, p.safety)
            && (out.goalActive <==> d.motion.status == Running)
            && (out.goalActive ==> r.x == r.y == r.z == 0.0)
            && (out.streamStale <==> !out.goalActive && (!d.stream.valid || now - d.stream.stamp > p.streamTimeout))
            && (out.streamStale ==> r == NO_CORRECTION)
            && (!out.goalActive && !out.streamStale ==>
                  (r == c <==> WithinLimits(c, p.safety)) && (out.saturated <==> r != c))
  {
    hide UpdateOf, LimitOf, WithinLimits;
    var turn := UpdateOf(d.motion, s, dt).1;
    LimitMeans(Correction(0.0, 0.0, 0.0, turn), p.safety);
    LimitMeans(d.stream.correction, p.safety);
    LimitMeans(NO_CORRECTION, p.safety);
  }
}
