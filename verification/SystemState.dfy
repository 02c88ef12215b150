/** The manager's system state machine. */
module SystemState {

  datatype SysState = Offline | Connected | Ready | Servoing | Calibrating | Degraded | Fault

  datatype Health = Health(ekiLink: bool, ekiTcp: bool, ekiHeartbeat: bool, ekiRsiActive: bool, ekiReady: bool,
                           ekiFault: bool, rsiFresh: bool, rsiConnected: bool, rsiFault: bool, sriStreaming: bool,
                           toolSynced: bool, controllersLoaded: bool)

  datatype Core = Core(state: SysState, servo: bool, calibrating: bool)
  const NEW_CORE := Core(Offline, false, false)

  /** While the RSI stream proves the program alive, a TCP link is enough (rule R1). */
  predicate EkiLinkLayered(h: Health) {
    h.ekiLink || (h.rsiFresh && h.rsiConnected && h.ekiTcp)
  }

  /** A latched fault of a finished RSI session, maskable only when idle (rule R2). */
  predicate FaultIsResidue(c: Core, h: Health) {
    !c.servo && !c.calibrating && h.ekiHeartbeat && !h.ekiRsiActive
  }

  predicate ReadyConditions(h: Health) {
    EkiLinkLayered(h) && h.ekiReady && h.sriStreaming && h.toolSynced && h.controllersLoaded
  }

  predicate FullConditions(h: Health) {
    ReadyConditions(h) && h.rsiFresh && h.rsiConnected
  }

  function UpdateOf(c: Core, h: Health): Core {
    if h.ekiFault || (h.rsiFault && !FaultIsResidue(c, h)) then Core(Fault, false, false)
    else if c.state == Fault then c
    else if c.calibrating then
      if EkiLinkLayered(h) && h.rsiFresh && h.rsiConnected && h.sriStreaming then c.(state := Calibrating)
      else c.(state := Fault, calibrating := false)
    else if c.servo then c.(state := if FullConditions(h) then Servoing else Degraded)
    else if !EkiLinkLayered(h) then c.(state := Offline)
    else if ReadyConditions(h) then c.(state := Ready)
    else c.(state := Connected)
  }

  predicate StartAccepted(c: Core, h: Health) { c.state == Ready && h.rsiFresh && ReadyConditions(h) }
  predicate StopAccepted(c: Core) { c.state == Servoing || c.state == Degraded }
  predicate CalibrationAccepted(c: Core, h: Health) {
    c.state == Ready && h.rsiFresh && h.rsiConnected && h.sriStreaming
  }
  predicate ResetAccepted(c: Core) { c.state == Fault }

  datatype Event = Update(h: Health) | Start(h: Health) | Stop | Calibrate(h: Health) | CalibrationFinished | Reset

  predicate Accepted(c: Core, e: Event) {
    match e
    case Start(h) => StartAccepted(c, h)
    case Stop => StopAccepted(c)
    case Calibrate(h) => CalibrationAccepted(c, h)
    case Reset => ResetAccepted(c)
    case Update(_) => true
    case CalibrationFinished => true
  }

  function Do(c: Core, e: Event): Core {
    if !Accepted(c, e) then c
    else match e
      case Update(h) => UpdateOf(c, h)
      case Start(_) => c.(servo := true)
      case Stop => c.(servo := false)
      case Calibrate(_) => c.(calibrating := true)
      case CalibrationFinished => c.(calibrating := false)
      case Reset => c.(state := Offline)
  }

  class SystemStateCore {
    var state: SysState
    var servoRequested: bool
    var calibrating: bool

    ghost function View(): Core
      reads this
    {
      Core(state, servoRequested, calibrating)
    }

    constructor ()
      ensures View() == NEW_CORE
    {
      state, servoRequested, calibrating := Offline, false, false;
    }

    method Update(h: Health) returns (r: SysState)
      modifies this
      ensures View() == Do(old(View()), Event.Update(h)) && r == state
    {
      var liveRsiFault := h.rsiFault && !FaultIsResidue(Core(state, servoRequested, calibrating), h);
      if h.ekiFault || liveRsiFault {
        state := Fault;
        servoRequested := false;
        calibrating := false;
        return state;
      }
      if state == Fault { return state; }
      if calibrating {
        var linkOk := EkiLinkLayered(h) && h.rsiFresh && h.rsiConnected && h.sriStreaming;
        state := if linkOk then Calibrating else Fault;
        if state == Fault { calibrating := false; }
        return state;
      }
      if servoRequested {
        state := if FullConditions(h) then Servoing else Degraded;
        return state;
      }
      if !EkiLinkLayered(h) {
        state := Offline;
      } else if ReadyConditions(h) {
        state := Ready;
      } else {
        state := Connected;
      }
      return state;
    }

    method RequestStart(h: Health) returns (accepted: bool)
      modifies this
      ensures View() == Do(old(View()), Start(h)) && accepted == Accepted(old(View()), Start(h))
    {
      if state != Ready || !h.rsiFresh || !ReadyConditions(h) { return false; }
      servoRequested := true;
      return true;
    }

    method RequestStop() returns (accepted: bool)
      modifies this
      ensures View() == Do(old(View()), Stop) && accepted == Accepted(old(View()), Stop)
    {
      if state != Servoing && state != Degraded { return false; }
      servoRequested := false;
      return true;
    }

    method RequestCalibration(h: Health) returns (accepted: bool)
      modifies this
      ensures View() == Do(old(View()), Calibrate(h)) && accepted == Accepted(old(View()), Calibrate(h))
    {
      if state != Ready || !h.rsiFresh || !h.rsiConnected || !h.sriStreaming { return false; }
      calibrating := true;
      return true;
    }

    method CalibrationFinished()
      modifies this
      ensures View() == Do(old(View()), Event.CalibrationFinished)
    {
      calibrating := false;
    }

    method RequestReset() returns (accepted: bool)
      modifies this
      ensures View() == Do(old(View()), Reset) && accepted == Accepted(old(View()), Reset)
    {
      if state != Fault { return false; }
      state := Offline;
      return true;
    }
  }

  // ----- Runs -----

  /** The core after the first n events. */
  function After(es: seq<Event>, n: nat): Core
    requires n <= |es|
  {
    if n == 0 then NEW_CORE else Do(After(es, n - 1), es[n - 1])
  }

  predicate AcceptedAt(es: seq<Event>, i: nat)
    requires i < |es|
  {
    Accepted(After(es, i), es[i])
  }

  predicate Both(c: Core) { c.servo && c.calibrating }

  predicate BothAt(es: seq<Event>, n: nat) { n <= |es| && Both(After(es, n)) }

  /** An accepted start and an accepted calibration, at i and j, with no update (or end of calibration) between. */
  ghost predicate Overlap(es: seq<Event>, i: nat, j: nat) {
    && i < j < |es| && AcceptedAt(es, i) && AcceptedAt(es, j)
    && ((es[i].Start? && es[j].Calibrate?) || (es[i].Calibrate? && es[j].Start?))
    && forall k :: i < k < j ==> !es[k].Update? && (es[i].Calibrate? ==> !es[k].CalibrationFinished?)
  }

  /** A request made in READY since the last update, still standing. */
  ghost predicate Standing(es: seq<Event>, n: nat, i: nat) {
    && i < n <= |es| && AcceptedAt(es, i)
    && forall k :: i < k < n ==> !es[k].Update? && (es[i].Calibrate? ==> !es[k].CalibrationFinished?)
  }

  /** While no update ran with both flags set: READY with a flag set means a standing request. */
  ghost predicate FlagInv(es: seq<Event>, n: nat)
    requires n <= |es|
  {
    var c := After(es, n);
    && !Both(c)
    && (c.state == Fault || c.state == Offline || c.state == Connected ==> !c.servo && !c.calibrating)
    && (c.state == Ready && c.servo ==> exists i: nat :: Standing(es, n, i) && es[i].Start?)
    && (c.state == Ready && c.calibrating ==> exists i: nat :: Standing(es, n, i) && es[i].Calibrate?)
    && (c.state == Calibrating ==> !c.servo)
    && (c.state == Servoing || c.state == Degraded ==> !c.calibrating)
  }

  lemma FlagStep(es: seq<Event>, n: nat)
    requires n < |es| && FlagInv(es, n)
    ensures FlagInv(es, n + 1) || (Both(After(es, n + 1)) && exists i: nat :: Overlap(es, i, n))
  {
    var c, e := After(es, n), es[n];
    if c.servo && c.state == Ready && !e.Update? {
      var i: nat :| Standing(es, n, i) && es[i].Start?;
      if e.Calibrate? && Accepted(c, e) { assert Overlap(es, i, n); } else { assert Standing(es, n + 1, i); }
    }
    if c.calibrating && c.state == Ready && !e.Update? && !e.CalibrationFinished? {
      var i: nat :| Standing(es, n, i) && es[i].Calibrate?;
      if e.Start? && Accepted(c, e) { assert Overlap(es, i, n); } else { assert Standing(es, n + 1, i); }
    }
    if (e.Start? || e.Calibrate?) && Accepted(c, e) { assert Standing(es, n + 1, n); }
  }

  lemma {:induction false} FlagsUntilBoth(es: seq<Event>, n: nat)
    requires n <= |es| && forall i: nat, j: nat :: !Overlap(es, i, j)
    ensures FlagInv(es, n)
  {
    if n > 0 {
      FlagsUntilBoth(es, n - 1);
      FlagStep(es, n - 1);
    }
  }

  /** A standing request keeps its flag and READY. */
  lemma {:induction false} RequestStands(es: seq<Event>, i: nat, n: nat)
    requires Standing(es, n, i) && (es[i].Start? || es[i].Calibrate?)
    ensures var c := After(es, n); c.state == Ready && (if es[i].Start? then c.servo else c.calibrating)
    decreases n
  {
    if i < n - 1 {
      assert Standing(es, n - 1, i);
      RequestStands(es, i, n - 1);
    }
  }

  /** Both flags are set at some point of a run exactly when two requests overlap without an update between. */
  lemma BothFlagsIff(es: seq<Event>)
    ensures (exists n: nat :: BothAt(es, n)) <==> exists i: nat, j: nat :: Overlap(es, i, j)
  {
    if i: nat, j: nat :| Overlap(es, i, j) {
      assert Standing(es, j, i);
      RequestStands(es, i, j);
      assert BothAt(es, j + 1);
    } else {
      forall n: nat ensures !BothAt(es, n) {
        if n <= |es| { FlagsUntilBoth(es, n); }
      }
    }
  }

  /**
   * FAULT, once entered, holds until an accepted reset, and no flag is set in it; both are clear unless requests
   * overlapped.
   */
  lemma {:induction false} FaultLatches(es: seq<Event>, i: nat, n: nat)
    requires i <= n <= |es| && After(es, i).state == Fault && forall k :: i <= k < n ==> !es[k].Reset?
    ensures After(es, n).state == Fault && !After(es, n).calibrating && (After(es, n).servo ==> After(es, i).servo)
    ensures (forall i: nat, j: nat :: !Overlap(es, i, j)) ==> After(es, n) == Core(Fault, false, false)
    decreases n
  {
    if i == n {
      FaultIsNotCalibrating(es, n);
      if forall i: nat, j: nat :: !Overlap(es, i, j) { FlagsUntilBoth(es, n); }
    } else {
      FaultLatches(es, i, n - 1);
    }
  }

  ghost predicate ResetBetween(es: seq<Event>, i: nat, n: nat, r: nat)
    requires n <= |es|
  {
    i <= r < n && es[r].Reset? && AcceptedAt(es, r)
  }

  ghost predicate RestartBetween(es: seq<Event>, i: nat, n: nat, r: nat, s: nat)
    requires n <= |es|
  {
    ResetBetween(es, i, n, r) && r < s < n && es[s].Start? && AcceptedAt(es, s)
  }

  /** From a FAULT with the servo flag clear, the flag needs an accepted reset and then an accepted start. */
  lemma {:induction false} RestartNeeded(es: seq<Event>, i: nat, n: nat)
    requires i <= n <= |es| && After(es, i).state == Fault && !After(es, i).servo
    ensures After(es, n).state == Fault || exists r: nat :: ResetBetween(es, i, n, r)
    ensures (!After(es, n).servo && !After(es, n).state.Servoing? && !After(es, n).state.Degraded?)
            || exists r: nat, s: nat :: RestartBetween(es, i, n, r, s)
    decreases n
  {
    if i < n {
      var m := n - 1;
      RestartNeeded(es, i, m);
      if r: nat :| ResetBetween(es, i, m, r) {
        assert ResetBetween(es, i, n, r);
        if es[m].Start? && AcceptedAt(es, m) { assert RestartBetween(es, i, n, r, m); }
      }
      if es[m].Reset? && AcceptedAt(es, m) { assert ResetBetween(es, i, n, m); }
      if r: nat, s: nat :| RestartBetween(es, i, m, r, s) { assert RestartBetween(es, i, n, r, s); }
    }
  }

  lemma {:induction false} AfterPrefix(es: seq<Event>, more: seq<Event>, n: nat)
    requires n <= |es|
    ensures After(es + more, n) == After(es, n)
  {
    if n > 0 { AfterPrefix(es, more, n - 1); }
  }

  /** Every way to go on from the end of `es` that servoes takes a reset and, after that, a start. */
  ghost predicate RestartEnforced(es: seq<Event>) {
    forall more: seq<Event> ::
      After(es + more, |es + more|).state == Servoing ==>
        exists r: nat, s: nat :: RestartBetween(es + more, |es|, |es + more|, r, s)
  }

  /** In FAULT, SERVOING again takes a reset and then a start, exactly when the fault cleared the servo flag. */
  lemma ServoingNeedsRestartIff(es: seq<Event>)
    requires After(es, |es|).state == Fault
    ensures RestartEnforced(es) <==> !After(es, |es|).servo
  {
    var n := |es|;
    if After(es, n).servo {
      var more := [Reset, Update(HEALTHY)];
      AfterPrefix(es, more, n);
      FaultIsNotCalibrating(es, n);
      assert After(es + more, n + 1) == Core(Offline, true, false);
      assert After(es + more, n + 2).state == Servoing;
      var all := es + more;
      assert |all| == n + 2 && forall k :: n <= k < |all| ==> !all[k].Start?;
    } else {
      forall more: seq<Event> | After(es + more, |es + more|).state == Servoing
        ensures exists r: nat, s: nat :: RestartBetween(es + more, n, |es + more|, r, s)
      {
        AfterPrefix(es, more, n);
        RestartNeeded(es + more, n, |es + more|);
      }
    }
  }

  lemma {:induction false} FaultIsNotCalibrating(es: seq<Event>, n: nat)
    requires n <= |es| && After(es, n).state == Fault
    ensures !After(es, n).calibrating
  {
    if n > 0 && After(es, n - 1).state == Fault { FaultIsNotCalibrating(es, n - 1); }
  }

  /** An update that loses the calibration's links while the servo flag is set as well, with no reported fault. */
  predicate LostWithBoth(es: seq<Event>, n: nat) {
    && n < |es| && es[n].Update? && Both(After(es, n)) && After(es, n).state != Fault
    && var h := es[n].h;
       !h.ekiFault && !h.rsiFault && !(EkiLinkLayered(h) && h.rsiFresh && h.rsiConnected && h.sriStreaming)
  }

  predicate FaultWithServo(es: seq<Event>, n: nat) { n <= |es| && After(es, n).state == Fault && After(es, n).servo }

  /** A FAULT leaves the servo flag set exactly when it came from losing a calibration with both flags set. */
  lemma FaultWithServoIff(es: seq<Event>)
    ensures (exists n: nat :: FaultWithServo(es, n)) <==> exists n: nat :: LostWithBoth(es, n)
  {
    if n: nat :| FaultWithServo(es, n) { ServoCameFromBoth(es, n); }
    if n: nat :| LostWithBoth(es, n) { assert FaultWithServo(es, n + 1); }
  }

  lemma {:induction false} ServoCameFromBoth(es: seq<Event>, n: nat)
    requires FaultWithServo(es, n)
    ensures exists m: nat :: LostWithBoth(es, m)
  {
    if n > 0 {
      if FaultWithServo(es, n - 1) { ServoCameFromBoth(es, n - 1); } else { assert LostWithBoth(es, n - 1); }
    }
  }

  // ----- Which faults are masked -----

  /** An accepted start at i that no accepted stop and no reported fault has ended before n. */
  ghost predicate Servo(es: seq<Event>, n: nat, i: nat)
    requires n <= |es|
  {
    && i < n && es[i].Start? && AcceptedAt(es, i)
    && forall k :: i < k < n ==> !Reports(es[k]) && !(es[k].Stop? && AcceptedAt(es, k))
  }

  /** An accepted calibration at i that nothing has ended before n: no end, no reported fault, no lost link. */
  ghost predicate Calibration(es: seq<Event>, n: nat, i: nat)
    requires n <= |es|
  {
    && i < n && es[i].Calibrate? && AcceptedAt(es, i)
    && forall k :: i < k < n ==> !Reports(es[k]) && !es[k].CalibrationFinished? && !LosesLink(es[k])
  }

  predicate Reports(e: Event) { e.Update? && (e.h.ekiFault || e.h.rsiFault) }

  predicate LosesLink(e: Event) {
    e.Update? && !(EkiLinkLayered(e.h) && e.h.rsiFresh && e.h.rsiConnected && e.h.sriStreaming)
  }

  lemma {:induction false} ServoMeans(es: seq<Event>, n: nat)
    requires n <= |es|
    ensures After(es, n).servo <==> exists i: nat :: Servo(es, n, i)
  {
    if n > 0 {
      var m := n - 1;
      ServoMeans(es, m);
      if i: nat :| Servo(es, m, i) && After(es, n).servo { assert Servo(es, n, i); }
      if es[m].Start? && AcceptedAt(es, m) { assert Servo(es, n, m); }
      if i: nat :| Servo(es, n, i) && i < m { assert Servo(es, m, i); }
    }
  }

  lemma {:induction false} CalibrationMeans(es: seq<Event>, n: nat)
    requires n <= |es|
    ensures After(es, n).calibrating <==> exists i: nat :: Calibration(es, n, i)
  {
    if n > 0 {
      var m := n - 1;
      CalibrationMeans(es, m);
      if After(es, m).state == Fault { FaultIsNotCalibrating(es, m); }
      if i: nat :| Calibration(es, m, i) && After(es, n).calibrating { assert Calibration(es, n, i); }
      if es[m].Calibrate? && AcceptedAt(es, m) { assert Calibration(es, n, m); }
      if i: nat :| Calibration(es, n, i) && i < m { assert Calibration(es, m, i); }
    }
  }

  /**
   * In every run, an update that reports an RSI fault goes without a FAULT exactly when the controller reports none,
   * the heartbeat shows an inactive RSI context, and neither a servo nor a calibration is under way: started,
   * accepted, and not ended since.
   */
  lemma FaultMaskedIff(es: seq<Event>, n: nat)
    requires n < |es| && es[n].Update? && es[n].h.rsiFault && After(es, n).state != Fault
    ensures var h := es[n].h;
            After(es, n + 1).state != Fault <==>
              && !h.ekiFault && h.ekiHeartbeat && !h.ekiRsiActive
              && (forall i: nat :: !Servo(es, n, i)) && (forall i: nat :: !Calibration(es, n, i))
  {
    ServoMeans(es, n);
    CalibrationMeans(es, n);
  }

  // ----- The state after an update, from the health report and the requests so far -----

  /** The management link answers, or its TCP connection stands while the RSI stream runs. */
  predicate Linked(h: Health) { h.ekiLink || (h.ekiTcp && Streaming(h)) }

  predicate Streaming(h: Health) { h.rsiFresh && h.rsiConnected }

  predicate Prepared(h: Health) {
    && (h.ekiLink || (h.ekiTcp && h.rsiFresh && h.rsiConnected))
    && h.ekiReady && h.sriStreaming && h.toolSynced && h.controllersLoaded
  }

  ghost predicate ServoAsked(es: seq<Event>, n: nat)
    requires n <= |es|
  {
    exists i: nat :: Servo(es, n, i)
  }

  ghost predicate CalibrationAsked(es: seq<Event>, n: nat)
    requires n <= |es|
  {
    exists i: nat :: Calibration(es, n, i)
  }

  /** A fault is reported that nothing excuses, or a calibration has lost a link or the sensor. */
  ghost predicate Faulty(es: seq<Event>, n: nat, h: Health)
    requires n <= |es|
  {
    || h.ekiFault
    || (h.rsiFault && (ServoAsked(es, n) || CalibrationAsked(es, n) || !h.ekiHeartbeat || h.ekiRsiActive))
    || (CalibrationAsked(es, n) && !(Linked(h) && Streaming(h) && h.sriStreaming))
  }

  /**
   * In every run, the state after an update outside FAULT follows from the health report and from which requests stand:
   * FAULT when faulty; else CALIBRATING while a calibration stands; else SERVOING while a servo stands and everything
   * needed is there, DEGRADED while it stands and something is missing; else OFFLINE without a link, READY with
   * everything a start needs, and CONNECTED between the two.
   */
  lemma StateAfterUpdate(es: seq<Event>, n: nat)
    requires n < |es| && es[n].Update? && After(es, n).state != Fault
    ensures var h, s := es[n].h, After(es, n + 1).state;
            if Faulty(es, n, h) then s == Fault
            else if CalibrationAsked(es, n) then s == Calibrating
            else if ServoAsked(es, n) then s == if Prepared(h) && Streaming(h) then Servoing else Degraded
            else s == if !Linked(h) then Offline else if Prepared(h) then Ready else Connected
  {
    ServoMeans(es, n);
    CalibrationMeans(es, n);
  }

  /**
   * In every run, a request is accepted exactly in its states: a start in READY, prepared and with a fresh RSI topic; a
   * calibration in READY with the RSI stream and the sensor; a stop in SERVOING and DEGRADED; a reset in FAULT.
   */
  lemma AcceptedIff(es: seq<Event>, i: nat)
    requires i < |es|
    ensures var e, s := es[i], After(es, i).state;
            match e
            case Start(h) => AcceptedAt(es, i) <==> s == Ready && Prepared(h) && h.rsiFresh
            case Calibrate(h) => AcceptedAt(es, i) <==> s == Ready && Streaming(h) && h.sriStreaming
            case Stop => AcceptedAt(es, i) <==> s == Servoing || s == Degraded
            case Reset => AcceptedAt(es, i) <==> s == Fault
            case _ => true
  {
  }

  const HEALTHY := Health(true, true, true, false, true, false, true, true, false, true, true, true)

  /** With overlapping requests, a fault does not demand an explicit restart: the servo flag survives it. */
  lemma OverlapSurvivesFault()
    ensures exists es: seq<Event>, i: nat, n: nat ::
              && i <= n <= |es| && After(es, i).state == Fault && After(es, n).state == Servoing
              && forall k :: i <= k < n ==> !es[k].Start?
  {
    var lost := HEALTHY.(sriStreaming := false);
    var es := [Update(HEALTHY), Start(HEALTHY), Calibrate(HEALTHY), Update(lost), Reset, Update(HEALTHY)];
    assert After(es, 1) == Core(Ready, false, false);
    assert After(es, 3) == Core(Ready, true, true);
    assert After(es, 4) == Core(Fault, true, false);
    assert After(es, 6) == Core(Servoing, true, false);
  }
}
