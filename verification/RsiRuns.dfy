/**
 * The closed RSI loop over a network that may lose, duplicate, delay and reorder frames but never forges one:
 * both ends read any frame that was ever sent, as often as the network likes. Controllers may leave any command,
 * and the robot side may answer one state frame many times.
 */
module RsiRuns {
  import opened RealMath
  import opened RsiMonitor
  import opened RsiEndpoints
  import opened RsiKrc

  datatype Config = Config(hw: HwConfig, krc: KrcConfig)

  predicate Proper(c: Config) { |c.krc.pose| == AXES && c.krc.ipocStep > 0 }

  /** A correction that the KRC integrated. */
  datatype Integrated = Integrated(ipoc: nat, corr: seq<real>)

  datatype Sys = Sys(hw: Hw, krc: Krc, toPc: set<Rob>, toKrc: set<Sen>, log: seq<Integrated>)

  datatype Event =
    | KrcSends
    | KrcReceives(sen: Sen)
    | KrcGarbage
    | KrcTimesOut
    | HwReads(rx: Rx)
    | HwWrites
    | Command(cmd: seq<Num>)
    | RequestFaultClear
    | FaultCleared

  function Init(c: Config): Sys { Sys(NEW_HW, InitialKrc(c.krc), {}, {}, []) }

  predicate Can(s: Sys, e: Event) {
    match e
    case KrcReceives(sen) => sen in s.toKrc && |sen.corr| == |s.krc.pose|
    case HwReads(rx) => rx.Received? ==> rx.frame in s.toPc
    case Command(cmd) => |cmd| == AXES
    case _ => true
  }

  function Do(c: Config, s: Sys, e: Event): Sys
    requires Can(s, e)
  {
    match e
    case KrcSends => var (krc, rob) := SendOf(c.krc, s.krc); s.(krc := krc, toPc := s.toPc + {rob})
    case KrcReceives(sen) =>
      s.(krc := ApplyOf(s.krc, Reply(sen)),
         log := if Fresh(s.krc, Reply(sen)) then s.log + [Integrated(sen.ipoc, sen.corr)] else s.log)
    case KrcGarbage => s.(krc := ApplyOf(s.krc, Garbage))
    case KrcTimesOut => s.(krc := s.krc.(replyTimeouts := s.krc.replyTimeouts + 1))
    case HwReads(rx) => s.(hw := ReadOf(c.hw, s.hw, rx))
    case HwWrites => var (hw, sent) := WriteOf(c.hw, s.hw); s.(hw := hw, toKrc := s.toKrc + set m | m in sent)
    case Command(cmd) => s.(hw := s.hw.(cmd := cmd))
    case RequestFaultClear => s.(hw := s.hw.(clearRequested := true))
    case FaultCleared => s.(hw := s.hw.(mon := EventOf(s.hw.mon, c.hw.threshold, ClearFault)))
  }

  predicate CanAll(c: Config, s: Sys, es: seq<Event>)
    decreases |es|
  {
    es == [] || (Can(s, es[0]) && CanAll(c, Do(c, s, es[0]), es[1..]))
  }

  function Run(c: Config, s: Sys, es: seq<Event>): Sys
    requires CanAll(c, s, es)
    decreases |es|
  {
    if es == [] then s else Run(c, Do(c, s, es[0]), es[1..])
  }

  // ----- Invariants -----

  ghost predicate IpocInv(c: Config, s: Sys) {
    var k := s.krc;
    && k.nextIpoc == c.krc.ipocStart + k.framesSent * c.krc.ipocStep
    && (k.awaiting ==> k.awaited < k.nextIpoc && forall i :: 0 <= i < |s.log| ==> s.log[i].ipoc < k.awaited)
    && (forall i :: 0 <= i < |s.log| ==> s.log[i].ipoc < k.nextIpoc)
    && (forall i, j :: 0 <= i < j < |s.log| ==> s.log[i].ipoc < s.log[j].ipoc)
    && (forall f :: f in s.toPc ==> f.ipoc < k.nextIpoc)
    && (s.hw.mon.connected ==> s.hw.lastIpoc < k.nextIpoc)
    && (forall m :: m in s.toKrc ==> m.ipoc < k.nextIpoc)
    && |s.log| + (if k.awaiting then 1 else 0) <= k.framesSent
    && k.replies == |s.log| + k.echoErrors
  }

  /** The largest step of axis i that can be on the wire. */
  function StepBound(c: Config, i: nat): real { Round4(Abs(LimitOf(c.hw.limits, i))) }

  ghost predicate WithinBounds(c: Config, corr: seq<real>) {
    |corr| == AXES && forall i :: 0 <= i < AXES ==> Abs(corr[i]) <= StepBound(c, i)
  }

  ghost predicate MotionInv(c: Config, s: Sys) {
    && |s.krc.pose| == AXES == |c.krc.pose| && |s.hw.cmd| == AXES
    && (forall m :: m in s.toKrc ==> WithinBounds(c, m.corr))
    && (forall i :: 0 <= i < |s.log| ==> WithinBounds(c, s.log[i].corr))
    && (forall i :: 0 <= i < AXES ==> s.krc.pose[i] == c.krc.pose[i] + Travel(s.log, i))
  }

  /** What the integrated corrections add up to on one axis. */
  function Travel(log: seq<Integrated>, axis: nat): real {
    if log == [] then 0.0
    else Travel(log[..|log| - 1], axis) + if axis < |log[|log| - 1].corr| then log[|log| - 1].corr[axis] else 0.0
  }

  lemma IpocStep(c: Config, s: Sys, e: Event)
    requires Proper(c) && Can(s, e) && IpocInv(c, s)
    ensures IpocInv(c, Do(c, s, e))
  {
    var t := Do(c, s, e);
    if e.KrcReceives? && Fresh(s.krc, Reply(e.sen)) {
      assert t.log == s.log + [Integrated(e.sen.ipoc, e.sen.corr)];
    }
  }

  lemma WireWithinBounds(c: Config, cmd: seq<Num>)
    requires |cmd| == AXES
    ensures WithinBounds(c, Wire(cmd, c.hw.limits)) && WithinBounds(c, ZEROS)
  {
    forall i | 0 <= i < AXES
      ensures Abs(Wire(cmd, c.hw.limits)[i]) <= StepBound(c, i) && Abs(ZEROS[i]) <= StepBound(c, i)
    {
      var lim := LimitOf(c.hw.limits, i);
      ClampBound(cmd[i], lim);
      WireBound(ClampOf(cmd[i], lim), Abs(lim));
    }
  }

  lemma MotionStep(c: Config, s: Sys, e: Event)
    requires Can(s, e) && MotionInv(c, s)
    ensures MotionInv(c, Do(c, s, e))
  {
    var t := Do(c, s, e);
    if e.HwWrites? {
      WireWithinBounds(c, s.hw.cmd);
    }
    if e.KrcReceives? && Fresh(s.krc, Reply(e.sen)) {
      assert t.log == s.log + [Integrated(e.sen.ipoc, e.sen.corr)] && t.log[..|s.log|] == s.log;
    }
  }

  lemma {:induction false} RunKeeps(c: Config, s: Sys, es: seq<Event>)
    requires Proper(c) && CanAll(c, s, es) && IpocInv(c, s) && MotionInv(c, s)
    ensures IpocInv(c, Run(c, s, es)) && MotionInv(c, Run(c, s, es))
    decreases |es|
  {
    if es != [] {
      IpocStep(c, s, es[0]);
      MotionStep(c, s, es[0]);
      RunKeeps(c, Do(c, s, es[0]), es[1..]);
    }
  }

  lemma {:induction false} TravelBound(log: seq<Integrated>, axis: nat, b: real)
    requires forall i :: 0 <= i < |log| ==> axis < |log[i].corr| && Abs(log[i].corr[axis]) <= b
    ensures Abs(Travel(log, axis)) <= Times(|log|, b)
    decreases |log|
  {
    if log != [] { TravelBound(log[..|log| - 1], axis, b); }
  }

  lemma BoundsMean(c: Config, log: seq<Integrated>, i: nat)
    requires i < AXES && forall k :: 0 <= k < |log| ==> WithinBounds(c, log[k].corr)
    ensures forall k :: 0 <= k < |log| ==> i < |log[k].corr| && Abs(log[k].corr[i]) <= StepBound(c, i)
  {
    hide StepBound;
  }

  lemma PoseBound(c: Config, s: Sys, i: nat)
    requires MotionInv(c, s) && |s.log| <= s.krc.framesSent && i < AXES
    ensures Abs(s.krc.pose[i] - c.krc.pose[i]) <= s.krc.framesSent as real * StepBound(c, i)
  {
    hide StepBound, WithinBounds, Travel, Abs;
    BoundsMean(c, s.log, i);
    StepBoundNonnegative(c, i);
    TravelWithin(s.log, s.krc.framesSent, i, StepBound(c, i));
    assert s.krc.pose[i] - c.krc.pose[i] == Travel(s.log, i);
  }

  lemma StepBoundNonnegative(c: Config, i: nat)
    requires i < AXES
    ensures StepBound(c, i) >= 0.0
  {
    WireWithinBounds(c, NO_COMMAND);
    assert Abs(ZEROS[i]) <= StepBound(c, i);
  }

  lemma TravelWithin(log: seq<Integrated>, frames: nat, axis: nat, b: real)
    requires forall i :: 0 <= i < |log| ==> axis < |log[i].corr| && Abs(log[i].corr[axis]) <= b
    requires |log| <= frames && b >= 0.0
    ensures Abs(Travel(log, axis)) <= frames as real * b
  {
    TravelBound(log, axis, b);
    TimesMonotone(|log|, frames, b);
    TimesIsProduct(frames, b);
  }

  // ----- What every run guarantees -----

  /**
   * Each state frame has its correction integrated at most once; every reply is either integrated or an echo
   * error; no axis moves by more than its rounded limit per frame sent, whatever the controllers command.
   */
  lemma IntegrationIsAccounted(c: Config, es: seq<Event>)
    requires Proper(c) && CanAll(c, Init(c), es)
    ensures var s := Run(c, Init(c), es);
            && (forall i, j :: 0 <= i < j < |s.log| ==> s.log[i].ipoc < s.log[j].ipoc)
            && s.krc.replies == |s.log| + s.krc.echoErrors && |s.log| <= s.krc.framesSent
            && |s.krc.pose| == AXES
            && forall i :: 0 <= i < AXES ==>
                 Abs(s.krc.pose[i] - c.krc.pose[i]) <= s.krc.framesSent as real * StepBound(c, i)
  {
    hide StepBound, WithinBounds;
    assert c.krc.pose == Init(c).krc.pose;
    RunKeeps(c, Init(c), es);
    var s := Run(c, Init(c), es);
    forall i | 0 <= i < AXES
      ensures Abs(s.krc.pose[i] - c.krc.pose[i]) <= s.krc.framesSent as real * StepBound(c, i)
    {
      PoseBound(c, s, i);
    }
  }

  /** The bound per frame is the configured limit itself, for every command, exactly when four decimals hold it. */
  lemma WireKeepsLimitIff(lim: real)
    requires lim >= 0.0
    ensures (forall n: Num :: Abs(Round4(ClampOf(n, lim))) <= lim) <==> Round4(lim) <= lim
  {
    if Round4(lim) <= lim {
      forall n: Num ensures Abs(Round4(ClampOf(n, lim))) <= lim {
        ClampBound(n, lim);
        WireBound(ClampOf(n, lim), lim);
      }
    } else {
      assert ClampOf(Finite(lim), lim) == lim;
    }
  }

  /** A limit of 3/16384 (a binary fraction) that a command of the same value exceeds on the wire. */
  lemma WireCanExceedLimit()
    ensures exists lim: real, n: Num :: lim >= 0.0 && Abs(Round4(ClampOf(n, lim))) > lim
  {
    var lim := 3.0 / 16384.0;
    assert ClampOf(Finite(lim), lim) == lim;
    assert RoundEven(lim * 10000.0) == 2;
    assert Abs(Round4(ClampOf(Finite(lim), lim))) > lim;
  }

  // ----- The pose that the robot interface reports -----

  lemma RoundedNear(p: seq<real>)
    ensures forall i :: 0 <= i < |p| ==> Abs(Rounded(p)[i] - p[i]) <= HALF
  {
    forall i | 0 <= i < |p| ensures Abs(Rounded(p)[i] - p[i]) <= HALF { RoundNear(p[i]); }
  }

  /** The frame's pose, to half a unit of the last decimal: the start, and every correction for an earlier frame. */
  ghost predicate ShowsPose(c: Config, log: seq<Integrated>, f: Rob) {
    |f.pose| == AXES == |c.krc.pose| && exists n: nat :: ShowsPoseAt(c, log, f, n)
  }

  ghost predicate ShowsPoseAt(c: Config, log: seq<Integrated>, f: Rob, n: nat)
    requires |f.pose| == AXES == |c.krc.pose|
  {
    && n <= |log| && (forall i :: 0 <= i < n ==> log[i].ipoc < f.ipoc)
    && (forall i :: n <= i < |log| ==> log[i].ipoc >= f.ipoc)
    && forall a :: 0 <= a < AXES ==> Abs(f.pose[a] - (c.krc.pose[a] + Travel(log[..n], a))) <= HALF
  }

  ghost predicate PoseInv(c: Config, s: Sys) {
    && (forall f :: f in s.toPc ==> ShowsPose(c, s.log, f) && (s.krc.awaiting ==> f.ipoc <= s.krc.awaited))
    && (s.hw.mon.connected ==> Rob(s.hw.cartPos, s.hw.lastIpoc) in s.toPc)
  }

  lemma ShowsPoseStays(c: Config, log: seq<Integrated>, x: Integrated, f: Rob)
    requires ShowsPose(c, log, f) && f.ipoc <= x.ipoc
    ensures ShowsPose(c, log + [x], f)
  {
    hide Abs, Travel;
    var n: nat :| ShowsPoseAt(c, log, f, n);
    assert (log + [x])[..n] == log[..n];
    assert ShowsPoseAt(c, log + [x], f, n);
  }

  lemma NewFrameShowsPose(c: Config, s: Sys)
    requires IpocInv(c, s) && MotionInv(c, s)
    ensures ShowsPose(c, s.log, SendOf(c.krc, s.krc).1)
  {
    hide Abs, Travel, Round4;
    var f := SendOf(c.krc, s.krc).1;
    RoundedNear(s.krc.pose);
    assert s.log[..|s.log|] == s.log;
    assert ShowsPoseAt(c, s.log, f, |s.log|);
  }

  lemma PoseStep(c: Config, s: Sys, e: Event)
    requires Proper(c) && Can(s, e) && IpocInv(c, s) && MotionInv(c, s) && PoseInv(c, s)
    ensures PoseInv(c, Do(c, s, e))
  {
    hide ShowsPose, Wire, Rounded, Clamped;
    var t := Do(c, s, e);
    if e.KrcSends? {
      NewFrameShowsPose(c, s);
    } else if e.KrcReceives? && Fresh(s.krc, Reply(e.sen)) {
      var x := Integrated(e.sen.ipoc, e.sen.corr);
      forall f | f in t.toPc ensures ShowsPose(c, t.log, f) { ShowsPoseStays(c, s.log, x, f); }
    } else {
      assert t.log == s.log && t.toPc == s.toPc;
    }
  }

  lemma {:induction false} PoseRun(c: Config, s: Sys, es: seq<Event>)
    requires Proper(c) && CanAll(c, s, es) && IpocInv(c, s) && MotionInv(c, s) && PoseInv(c, s)
    ensures PoseInv(c, Run(c, s, es))
    decreases |es|
  {
    hide IpocInv, MotionInv, PoseInv, Do, Can;
    if es != [] {
      IpocStep(c, s, es[0]);
      MotionStep(c, s, es[0]);
      PoseStep(c, s, es[0]);
      PoseRun(c, Do(c, s, es[0]), es[1..]);
    }
  }

  /**
   * In every run the pose that the robot interface reports is the KRC's of the moment that the frame with its IPOC was
   * sent: the start, and every correction integrated for an earlier frame.
   */
  lemma ReportedPoseIsTrue(c: Config, es: seq<Event>)
    requires Proper(c) && CanAll(c, Init(c), es)
    ensures var s := Run(c, Init(c), es);
            s.hw.mon.connected ==> ShowsPose(c, s.log, Rob(s.hw.cartPos, s.hw.lastIpoc))
  {
    hide ShowsPose, Run;
    InitialPose(c);
    PoseRun(c, Init(c), es);
  }

  lemma InitialPose(c: Config)
    requires Proper(c)
    ensures IpocInv(c, Init(c)) && MotionInv(c, Init(c)) && PoseInv(c, Init(c))
  {
  }

  // ----- The supervision of the link, and the KRC's counters -----

  /** What the monitor sees of an event of the run: a clear that was asked for comes before what the read finds. */
  function Supervised(s: Sys, e: Event): seq<RsiMonitor.Event> {
    match e
    case HwReads(rx) =>
      (if s.hw.clearRequested then [ClearFault] else [])
      + [match rx case Silence => Timeout case Unparsable => BadFrame case Received(f) => Frame(f.ipoc)]
    case FaultCleared => [ClearFault]
    case _ => []
  }

  function History(c: Config, s: Sys, es: seq<Event>): seq<RsiMonitor.Event>
    requires CanAll(c, s, es)
    decreases |es|
  {
    if es == [] then [] else Supervised(s, es[0]) + History(c, Do(c, s, es[0]), es[1..])
  }

  function Garbled(es: seq<Event>): nat {
    if es == [] then 0 else Garbled(es[1..]) + if es[0].KrcGarbage? then 1 else 0
  }

  function Waited(es: seq<Event>): nat {
    if es == [] then 0 else Waited(es[1..]) + if es[0].KrcTimesOut? then 1 else 0
  }

  lemma StatsSnoc(threshold: nat, h: seq<RsiMonitor.Event>, e: RsiMonitor.Event)
    ensures StatsOf(threshold, h + [e]) == EventOf(StatsOf(threshold, h), threshold, e)
  {
    assert (h + [e])[..|h|] == h;
  }

  lemma SupervisedStep(c: Config, s: Sys, e: Event, h: seq<RsiMonitor.Event>)
    requires Can(s, e) && s.hw.mon == StatsOf(c.hw.threshold, h)
    ensures Do(c, s, e).hw.mon == StatsOf(c.hw.threshold, h + Supervised(s, e))
  {
    hide StatsOf, EventOf;
    var es := Supervised(s, e);
    if es == [] {
      assert h + es == h;
    } else if |es| == 1 {
      StatsSnoc(c.hw.threshold, h, es[0]);
      assert h + es == h + [es[0]];
    } else {
      StatsSnoc(c.hw.threshold, h, es[0]);
      StatsSnoc(c.hw.threshold, h + [es[0]], es[1]);
      assert h + es == h + [es[0]] + [es[1]];
    }
  }

  lemma {:induction false} SupervisedRun(c: Config, s: Sys, es: seq<Event>, h: seq<RsiMonitor.Event>)
    requires CanAll(c, s, es) && s.hw.mon == StatsOf(c.hw.threshold, h)
    ensures Run(c, s, es).hw.mon == StatsOf(c.hw.threshold, h + History(c, s, es))
    decreases |es|
  {
    hide Do, Can, StatsOf, Supervised;
    if es == [] {
      assert h + [] == h;
    } else {
      SupervisedStep(c, s, es[0], h);
      SupervisedRun(c, Do(c, s, es[0]), es[1..], h + Supervised(s, es[0]));
      assert h + Supervised(s, es[0]) + History(c, Do(c, s, es[0]), es[1..]) == h + History(c, s, es);
    }
  }

  /**
   * In every run, what the robot interface reports about the link is what the monitor makes of the reads, with a clear
   * that was asked for before the read that serves it. So a fault stands exactly when enough misses came in a row.
   */
  lemma LinkIsSupervised(c: Config, es: seq<Event>)
    requires CanAll(c, Init(c), es)
    ensures var s, h := Run(c, Init(c), es), History(c, Init(c), es);
            && s.hw.mon == StatsOf(c.hw.threshold, h)
            && (c.hw.threshold >= 1 ==> (s.hw.mon.fault <==> exists i: nat :: MissRun(h, c.hw.threshold, i)))
  {
    hide Run, StatsOf, MissRun;
    assert Init(c).hw.mon == StatsOf(c.hw.threshold, []) by { NothingSeen(c.hw.threshold); }
    SupervisedRun(c, Init(c), es, []);
    var h := History(c, Init(c), es);
    assert [] + h == h;
    if c.hw.threshold >= 1 { FaultIff(c.hw.threshold, h); }
  }

  lemma NothingSeen(threshold: nat)
    ensures StatsOf(threshold, []) == NEW_STATS
  {
  }

  /** In every run the KRC counts what it could not parse, and the windows in which nothing came. */
  lemma {:induction false} KrcCounts(c: Config, s: Sys, es: seq<Event>)
    requires CanAll(c, s, es)
    ensures var t := Run(c, s, es);
            && t.krc.parseErrors == s.krc.parseErrors + Garbled(es)
            && t.krc.replyTimeouts == s.krc.replyTimeouts + Waited(es)
    decreases |es|
  {
    hide Moved, Rounded, WriteOf, ReadOf;
    if es != [] { KrcCounts(c, Do(c, s, es[0]), es[1..]); }
  }

  // ----- After a fault -----

  predicate Nonzero(corr: seq<real>) { exists i :: 0 <= i < |corr| && corr[i] != 0.0 }

  /** The fault stays latched in every state of the run. */
  predicate FaultedThroughout(c: Config, s: Sys, es: seq<Event>)
    requires CanAll(c, s, es)
    decreases |es|
  {
    s.hw.mon.fault && (es == [] || FaultedThroughout(c, Do(c, s, es[0]), es[1..]))
  }

  /** The run from s0 to s: at most one nonzero integration, and it answers the frame awaited in s0. */
  ghost predicate SinceFault(s0: Sys, s: Sys) {
    && |s0.log| <= |s.log| && s.log[..|s0.log|] == s0.log
    && s0.krc.nextIpoc <= s.krc.nextIpoc
    && (forall m :: m in s.toKrc && Nonzero(m.corr) ==> m.ipoc < s0.krc.nextIpoc)
    && (s.krc.awaiting && s.krc.awaited < s0.krc.nextIpoc ==>
          s0.krc.awaiting && s.krc.awaited == s0.krc.awaited && |s.log| == |s0.log|)
    && (forall i :: |s0.log| <= i < |s.log| && Nonzero(s.log[i].corr) ==>
          i == |s0.log| && s0.krc.awaiting && s.log[i].ipoc == s0.krc.awaited)
  }

  lemma SinceFaultStep(c: Config, s0: Sys, s: Sys, e: Event)
    requires Proper(c) && Can(s, e) && s.hw.mon.fault && SinceFault(s0, s)
    ensures SinceFault(s0, Do(c, s, e))
  {
    var t := Do(c, s, e);
    if e.KrcReceives? && Fresh(s.krc, Reply(e.sen)) {
      assert t.log == s.log + [Integrated(e.sen.ipoc, e.sen.corr)];
      assert t.log[..|s0.log|] == s0.log;
    }
    if e.HwWrites? {
      assert !Nonzero(ZEROS);
    }
  }

  lemma {:induction false} SinceFaultRun(c: Config, s0: Sys, s: Sys, es: seq<Event>)
    requires Proper(c) && CanAll(c, s, es) && FaultedThroughout(c, s, es) && SinceFault(s0, s)
    ensures SinceFault(s0, Run(c, s, es))
    decreases |es|
  {
    if es != [] {
      SinceFaultStep(c, s0, s, es[0]);
      SinceFaultRun(c, s0, Do(c, s, es[0]), es[1..]);
    }
  }

  /**
   * From the moment the robot side latches its fault, and until the fault is cleared, the KRC integrates at most
   * one further nonzero correction: a reply to the frame it was awaiting at that moment.
   */
  lemma FaultStopsMotion(c: Config, before: seq<Event>, after: seq<Event>)
    requires Proper(c) && CanAll(c, Init(c), before)
    requires CanAll(c, Run(c, Init(c), before), after) && FaultedThroughout(c, Run(c, Init(c), before), after)
    ensures var s0 := Run(c, Init(c), before); var s := Run(c, s0, after);
            && |s0.log| <= |s.log| && s.log[..|s0.log|] == s0.log
            && forall i :: |s0.log| <= i < |s.log| && Nonzero(s.log[i].corr) ==>
                 i == |s0.log| && s0.krc.awaiting && s.log[i].ipoc == s0.krc.awaited
  {
    RunKeeps(c, Init(c), before);
    var s0 := Run(c, Init(c), before);
    assert SinceFault(s0, s0);
    SinceFaultRun(c, s0, s0, after);
  }

  // ----- A cycle without losses -----

  /**
   * What the robot side answers to a state frame: the command, or zeros and a stop under a fault that is not being
   * cleared.
   */
  function Answer(c: Config, s: Sys, cmd: seq<Num>): Sen
    requires |cmd| == AXES
  {
    var fault := s.hw.mon.fault && !s.hw.clearRequested;
    Sen(if fault then ZEROS else Wire(cmd, c.hw.limits), if fault then 1 else 0, s.hw.watchdog + 1, s.krc.nextIpoc)
  }

  function Exchange(c: Config, s: Sys, cmd: seq<Num>): seq<Event>
    requires |cmd| == AXES
  {
    [KrcSends, HwReads(Received(SendOf(c.krc, s.krc).1)), Command(cmd), HwWrites, KrcReceives(Answer(c, s, cmd))]
  }

  lemma RunFirst(c: Config, s: Sys, e: Event, es: seq<Event>, t: Sys)
    requires Can(s, e) && CanAll(c, Do(c, s, e), es) && Run(c, Do(c, s, e), es) == t
    ensures CanAll(c, s, [e] + es) && Run(c, s, [e] + es) == t
  {
    hide Do, Can;
    assert ([e] + es)[1..] == es;
  }

  lemma RunFive(c: Config, s: Sys, es: seq<Event>, s1: Sys, s2: Sys, s3: Sys, s4: Sys, s5: Sys)
    requires |es| == 5 && Can(s, es[0]) && s1 == Do(c, s, es[0]) && Can(s1, es[1]) && s2 == Do(c, s1, es[1])
    requires Can(s2, es[2]) && s3 == Do(c, s2, es[2]) && Can(s3, es[3]) && s4 == Do(c, s3, es[3])
    requires Can(s4, es[4]) && s5 == Do(c, s4, es[4])
    ensures CanAll(c, s, es) && Run(c, s, es) == s5
  {
    hide Do, Can, CanAll, Run;
    assert CanAll(c, s5, []) && Run(c, s5, []) == s5 by { RunNothing(c, s5); }
    RunFirst(c, s4, es[4], [], s5);
    RunFirst(c, s3, es[3], [es[4]] + [], s5);
    RunFirst(c, s2, es[2], [es[3]] + ([es[4]] + []), s5);
    RunFirst(c, s1, es[1], [es[2]] + ([es[3]] + ([es[4]] + [])), s5);
    RunFirst(c, s, es[0], [es[1]] + ([es[2]] + ([es[3]] + ([es[4]] + []))), s5);
    assert es == [es[0]] + ([es[1]] + ([es[2]] + ([es[3]] + ([es[4]] + []))));
  }

  lemma RunNothing(c: Config, s: Sys)
    ensures CanAll(c, s, []) && Run(c, s, []) == s
  {
  }

  /**
   * Whatever happened before, when one state frame and its answer get through, the robot interface knows the pose the
   * KRC had, and every axis moves by what the command says: itself to half a unit of the last decimal, the limit on its
   * side, or nothing if it is no number or a fault stands.
   */
  lemma LosslessCycleMoves(c: Config, s: Sys, cmd: seq<Num>)
    requires |cmd| == AXES == |s.krc.pose|
    ensures var es, r, fault := Exchange(c, s, cmd), Answer(c, s, cmd), s.hw.mon.fault && !s.hw.clearRequested;
            && CanAll(c, s, es)
            && var t := Run(c, s, es);
               && t.log == s.log + [Integrated(s.krc.nextIpoc, r.corr)] && t.krc.pose == Moved(s.krc.pose, r.corr)
               && |t.krc.pose| == AXES
               && (forall i :: 0 <= i < AXES ==>
                     var d := t.krc.pose[i] - s.krc.pose[i];
                     if fault then d == 0.0 else Tells(d, cmd[i], AxisLimit(c.hw.limits, i)))
               && t.krc.lastStop == (if fault then 1 else 0) && t.krc.lastWatchdog == s.hw.watchdog + 1
               && t.hw.cmd == NO_COMMAND && !t.hw.clearRequested && t.krc.echoErrors == s.krc.echoErrors
               && |t.hw.cartPos| == AXES && forall i :: 0 <= i < AXES ==> Abs(t.hw.cartPos[i] - s.krc.pose[i]) <= HALF
  {
    hide Wire, Rounded, Tells, Abs;
    var r := Answer(c, s, cmd);
    WireTellsAll(cmd, c.hw.limits);
    RoundedNear(s.krc.pose);
    var es := Exchange(c, s, cmd);
    var s1 := Do(c, s, es[0]);
    var s2 := Do(c, s1, es[1]);
    var s3 := Do(c, s2, es[2]);
    var s4 := Do(c, s3, es[3]);
    assert Answer(c, s, cmd) in s4.toKrc by { assert WriteOf(c.hw, s3.hw).1[0] == Answer(c, s, cmd); }
    RunFive(c, s, es, s1, s2, s3, s4, Do(c, s4, es[4]));
  }
}
