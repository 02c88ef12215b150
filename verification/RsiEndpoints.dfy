/** The two ends of the RSI cycle: the robot hardware interface and the KRC. */
module RsiEndpoints {
  import opened RealMath
  import opened RsiMonitor

  const AXES := 6

  /** A command value as the controllers leave it: NaN and infinities are possible. */
  datatype Num = Finite(v: real) | NonFinite

  // ----- The command limiter -----

  datatype Limits = Limits(trans: real, rot: real)

  function LimitOf(l: Limits, i: nat): real { if i < 3 then l.trans else l.rot }

  function ClampOf(n: Num, lim: real): real {
    match n
    case NonFinite => 0.0
    case Finite(v) => RealMath.Clamp(v, lim)
  }

  lemma ClampBound(n: Num, lim: real)
    ensures Abs(ClampOf(n, lim)) <= Abs(lim)
    ensures lim >= 0.0 && n.Finite? && Abs(n.v) <= lim ==> ClampOf(n, lim) == n.v
  {
  }

  function Clamped(cmd: seq<Num>, l: Limits): seq<Num> {
    seq(|cmd|, i requires 0 <= i < |cmd| => Finite(ClampOf(cmd[i], LimitOf(l, i))))
  }

  class CommandLimiter {
    constructor () {}

    method ClampAxis(corr: array<Num>, i: nat, lim: real) returns (modified: bool)
      requires i < corr.Length
      modifies corr
      ensures corr[i] == Finite(ClampOf(old(corr[i]), lim))
      ensures forall k :: 0 <= k < corr.Length && k != i ==> corr[k] == old(corr[k])
      ensures modified == (corr[i] != old(corr[i]))
    {
      if corr[i].NonFinite? {
        corr[i] := Finite(0.0);
        return true;
      }
      var c := RealMath.Clamp(corr[i].v, lim);
      if c != corr[i].v {
        corr[i] := Finite(c);
        return true;
      }
      return false;
    }

    method Clamp(corr: array<Num>, limits: Limits) returns (modified: bool)
      requires corr.Length == AXES
      modifies corr
      ensures corr[..] == Clamped(old(corr[..]), limits)
      ensures modified <==> corr[..] != old(corr[..])
    {
      modified := false;
      ghost var before := corr[..];
      for i := 0 to 3
        invariant forall k :: 0 <= k < AXES ==> corr[k] == if k < i then Clamped(before, limits)[k] else before[k]
        invariant modified <==> exists k :: 0 <= k < i && corr[k] != before[k]
      {
        var m := ClampAxis(corr, i, limits.trans);
        modified := modified || m;
      }
      for i := 3 to 6
        invariant forall k :: 0 <= k < AXES ==> corr[k] == if k < i then Clamped(before, limits)[k] else before[k]
        invariant modified <==> exists k :: 0 <= k < i && corr[k] != before[k]
      {
        var m := ClampAxis(corr, i, limits.rot);
        modified := modified || m;
      }
    }
  }

  // ----- The wire: four decimals, ties to even -----

  function RoundEven(x: real): int {
    var f := x.Floor;
    var d := x - f as real;
    if d < 0.5 then f else if d > 0.5 then f + 1 else if f % 2 == 0 then f else f + 1
  }

  function Round4(x: real): real { RoundEven(x * 10000.0) as real / 10000.0 }

  lemma RoundOdd(x: real)
    ensures RoundEven(-x) == -RoundEven(x)
  {
    var f := x.Floor;
    if x == f as real {
      assert (-x).Floor == -f;
    } else {
      assert (-x).Floor == -f - 1;
    }
  }

  lemma RoundMonotone(x: real, y: real)
    requires x <= y
    ensures RoundEven(x) <= RoundEven(y)
  {
  }

  /** What is sent never exceeds the rounded limit. */
  lemma WireBound(x: real, lim: real)
    requires Abs(x) <= lim
    ensures Abs(Round4(x)) <= Round4(lim)
  {
    RoundMonotone(x * 10000.0, lim * 10000.0);
    RoundMonotone(-lim * 10000.0, x * 10000.0);
    RoundOdd(lim * 10000.0);
  }

  /** Half a unit of the fourth decimal. */
  const HALF := 0.00005

  lemma RoundNear(x: real)
    ensures Abs(Round4(x) - x) <= HALF
  {
    var y := x * 10000.0;
    var n := RoundEven(y) as real;
    assert -0.5 <= n - y <= 0.5;
    assert Round4(x) == n / 10000.0 && x == y / 10000.0;
  }

  // ----- Messages -----

  /** A state frame of the KRC, a correction frame of the robot interface; values as they are on the wire. */
  datatype Rob = Rob(pose: seq<real>, ipoc: nat)
  datatype Sen = Sen(corr: seq<real>, stop: int, watchdog: nat, ipoc: nat)

  /** What one read yields: nothing within the timeout, something unparsable, or a frame. */
  datatype Rx = Silence | Unparsable | Received(frame: Rob)

  // ----- The robot hardware interface -----

  datatype Hw = Hw(mon: Stats, cartPos: seq<real>, cmd: seq<Num>, lastIpoc: nat, watchdog: nat, saturation: nat,
                   clearRequested: bool)
  datatype HwConfig = HwConfig(threshold: nat, limits: Limits)

  const ZEROS: seq<real> := [0.0, 0.0, 0.0, 0.0, 0.0, 0.0]
  const NO_COMMAND: seq<Num> := [Finite(0.0), Finite(0.0), Finite(0.0), Finite(0.0), Finite(0.0), Finite(0.0)]
  const NEW_HW := Hw(NEW_STATS, ZEROS, NO_COMMAND, 0, 0, 0, false)

  function ReadOf(c: HwConfig, h: Hw, rx: Rx): Hw {
    var mon := if h.clearRequested then EventOf(h.mon, c.threshold, ClearFault) else h.mon;
    var h := h.(clearRequested := false);
    match rx
    case Silence => h.(mon := EventOf(mon, c.threshold, Timeout))
    case Unparsable => h.(mon := EventOf(mon, c.threshold, BadFrame))
    case Received(f) => h.(mon := EventOf(mon, c.threshold, Frame(f.ipoc)), lastIpoc := f.ipoc, cartPos := f.pose)
  }

  function Wire(cmd: seq<Num>, l: Limits): (w: seq<real>)
    ensures |w| == |cmd|
  {
    seq(|cmd|, i requires 0 <= i < |cmd| => Round4(ClampOf(cmd[i], LimitOf(l, i))))
  }

  function WriteOf(c: HwConfig, h: Hw): (Hw, seq<Sen>) {
    if !h.mon.connected then (h, [])
    else
      var h' := h.(watchdog := h.watchdog + 1, cmd := NO_COMMAND,
                   saturation := if !h.mon.fault && Clamped(h.cmd, c.limits) != h.cmd then h.saturation + 1
                                 else h.saturation);
      (h', [if h.mon.fault then Sen(ZEROS, 1, h'.watchdog, h.lastIpoc)
            else Sen(Wire(h.cmd, c.limits), 0, h'.watchdog, h.lastIpoc)])
  }

  class KukaRsiRobotHW {
    const limits: Limits
    const monitor: RsiSessionMonitor
    const limiter: CommandLimiter
    const cartPos: array<real>
    const cartCmd: array<Num>
    var lastIpoc: nat
    var watchdog: nat
    var saturationCount: nat
    var faultClearRequested: bool

    ghost predicate Valid() {
      cartPos.Length == AXES && cartCmd.Length == AXES
    }

    ghost function View(): Hw
      reads this, monitor, cartPos, cartCmd
    {
      Hw(monitor.View(), cartPos[..], cartCmd[..], lastIpoc, watchdog, saturationCount, faultClearRequested)
    }

    ghost function Config(): HwConfig { HwConfig(monitor.threshold, limits) }

    constructor (threshold: nat, limits: Limits)
      ensures Valid() && View() == NEW_HW && Config() == HwConfig(threshold, limits)
      ensures fresh(monitor) && fresh(cartPos) && fresh(cartCmd)
    {
      this.limits := limits;
      monitor := new RsiSessionMonitor(threshold);
      limiter := new CommandLimiter();
      cartPos := new real[AXES](_ => 0.0);
      cartCmd := new Num[AXES](_ => Finite(0.0));
      lastIpoc, watchdog, saturationCount, faultClearRequested := 0, 0, 0, false;
      new;
      assert cartPos[..] == ZEROS && cartCmd[..] == NO_COMMAND;
    }

    method Read(rx: Rx)
      requires Valid() && (rx.Received? ==> |rx.frame.pose| == AXES)
      modifies this, monitor, cartPos
      ensures View() == ReadOf(Config(), old(View()), rx)
    {
      var clear := faultClearRequested;
      faultClearRequested := false;
      if clear { monitor.ClearFault(); }
      match rx {
        case Silence =>
          monitor.OnTimeout();
        case Unparsable =>
          monitor.OnBadFrame();
        case Received(frame) =>
          monitor.OnFrame(frame.ipoc);
          lastIpoc := frame.ipoc;
          for i := 0 to AXES
            modifies cartPos
            invariant cartPos[..i] == frame.pose[..i]
          {
            cartPos[i] := frame.pose[i];
          }
          assert cartPos[..] == frame.pose;
      }
    }

    /** The frames handed to the transport: none before the first state frame, then one. */
    method Write() returns (sent: seq<Sen>)
      requires Valid()
      modifies this, cartCmd
      ensures (View(), sent) == WriteOf(Config(), old(View()))
    {
      if !monitor.connected { return []; }
      watchdog := watchdog + 1;
      var corr, stop := ZEROS, 0;
      ghost var cmd := cartCmd[..];
      if monitor.fault {
        stop := 1;
      } else {
        var modified := limiter.Clamp(cartCmd, limits);
        if modified { saturationCount := saturationCount + 1; }
        assert forall i :: 0 <= i < AXES ==> cartCmd[..][i] == Clamped(cmd, limits)[i];
        corr := seq(AXES, i requires 0 <= i < AXES && cartCmd[i].Finite? reads cartCmd => Round4(cartCmd[i].v));
        assert corr == Wire(cmd, limits);
      }
      for i := 0 to AXES
        modifies cartCmd
        invariant forall k :: 0 <= k < i ==> cartCmd[k] == Finite(0.0)
      {
        cartCmd[i] := Finite(0.0);
      }
      assert cartCmd[..] == NO_COMMAND;
      return [Sen(corr, stop, watchdog, lastIpoc)];
    }
  }

  // ----- What a write tells the robot -----

  /**
   * x on the wire stands for the command n under a limit: itself to half a unit of the last decimal, or the limit on
   * the command's side, or zero for what is no number.
   */
  predicate Tells(x: real, n: Num, lim: real) {
    match n
    case NonFinite => x == 0.0
    case Finite(v) =>
      && (Abs(v) <= lim ==> Abs(x - v) <= HALF)
      && (lim >= 0.0 && v > lim ==> x == Round4(lim) && Abs(x - lim) <= HALF)
      && (lim >= 0.0 && v < -lim ==> x == -Round4(lim) && Abs(x + lim) <= HALF)
  }

  predicate InRange(n: Num, lim: real) { n.Finite? && Abs(n.v) <= lim }

  lemma WireTells(n: Num, lim: real)
    ensures Tells(Round4(ClampOf(n, lim)), n, lim)
    ensures lim >= 0.0 ==> (Finite(ClampOf(n, lim)) == n <==> InRange(n, lim))
  {
    RoundNear(ClampOf(n, lim));
    RoundNear(lim);
    RoundOdd(lim * 10000.0);
    RoundOfZero();
    hide RoundEven;
  }

  lemma RoundOfZero()
    ensures Round4(0.0) == 0.0
  {
    assert RoundEven(0.0) == 0;
  }

  /** The limit of an axis: three translations, then three rotations. */
  function AxisLimit(l: Limits, i: nat): real { if i <= 2 then l.trans else l.rot }

  ghost predicate TellsAll(corr: seq<real>, cmd: seq<Num>, l: Limits) {
    |corr| == |cmd| && forall i :: 0 <= i < |cmd| ==> Tells(corr[i], cmd[i], AxisLimit(l, i))
  }

  ghost predicate AllZero(corr: seq<real>) { forall i :: 0 <= i < |corr| ==> corr[i] == 0.0 }

  lemma WireTellsAll(cmd: seq<Num>, l: Limits)
    ensures TellsAll(Wire(cmd, l), cmd, l)
  {
    forall i | 0 <= i < |cmd| ensures Tells(Wire(cmd, l)[i], cmd[i], AxisLimit(l, i)) {
      WireTells(cmd[i], AxisLimit(l, i));
    }
  }

  /**
   * Nothing before the first state frame; after it one frame that echoes the last IPOC with the next watchdog value: a
   * stop and six zeros under a fault, otherwise every axis of the command as `Tells` says. The command is consumed, and
   * a write that limited something is counted.
   */
  lemma WriteTells(c: HwConfig, h: Hw)
    requires |h.cmd| == AXES
    ensures var (t, sent) := WriteOf(c, h);
            if !h.mon.connected then sent == [] && t == h
            else
              && |sent| == 1 && sent[0].ipoc == h.lastIpoc && sent[0].watchdog == t.watchdog == h.watchdog + 1
              && (h.mon.fault ==> sent[0].stop == 1 && |sent[0].corr| == AXES && AllZero(sent[0].corr))
              && (!h.mon.fault ==> sent[0].stop == 0 && TellsAll(sent[0].corr, h.cmd, c.limits))
              && |t.cmd| == AXES && (forall n :: n in t.cmd ==> n == Finite(0.0))
              && (c.limits.trans >= 0.0 && c.limits.rot >= 0.0 ==>
                    t.saturation == h.saturation + if h.mon.fault || AllInRange(h.cmd, c.limits) then 0 else 1)
              && t.mon == h.mon && t.cartPos == h.cartPos && t.lastIpoc == h.lastIpoc
                 && t.clearRequested == h.clearRequested
  {
    WireTellsAll(h.cmd, c.limits);
    if c.limits.trans >= 0.0 && c.limits.rot >= 0.0 { ClampedIff(h.cmd, c.limits); }
    hide Wire, TellsAll, Clamped, AllInRange;
  }

  ghost predicate AllInRange(cmd: seq<Num>, l: Limits) {
    forall i :: 0 <= i < |cmd| ==> InRange(cmd[i], AxisLimit(l, i))
  }

  lemma ClampedIff(cmd: seq<Num>, l: Limits)
    requires l.trans >= 0.0 && l.rot >= 0.0
    ensures Clamped(cmd, l) == cmd <==> AllInRange(cmd, l)
  {
    forall i | 0 <= i < |cmd| ensures Clamped(cmd, l)[i] == cmd[i] <==> InRange(cmd[i], AxisLimit(l, i)) {
      WireTells(cmd[i], AxisLimit(l, i));
    }
    if AllInRange(cmd, l) { assert Clamped(cmd, l) == cmd; }
  }

  /**
   * A fault clear that was asked for comes before what the read finds: a frame leaves no fault and no misses, a miss on
   * a connected link is the first again.
   */
  lemma ReadClearsFirst(c: HwConfig, h: Hw, rx: Rx)
    requires h.clearRequested
    ensures var t := ReadOf(c, h, rx);
            && !t.clearRequested
            && (rx.Received? ==> !t.mon.fault && t.mon.consecutive == 0)
            && (!rx.Received? && h.mon.connected ==> t.mon.consecutive == 1 && (t.mon.fault <==> c.threshold <= 1))
            && (!rx.Received? && !h.mon.connected ==> t.mon.consecutive == 0 && !t.mon.fault)
  {
  }
}
