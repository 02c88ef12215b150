/** Messages of the EKI management channel, the request bookkeeping, and the KRC's behaviour table. */
module EkiSession {

  import opened Types

  datatype Action = QueryState | StartRsi | StopRsi | SetMode | ResetFault | GetTool | SetToolBase

  datatype Frame6 = Frame6(x: real, y: real, z: real, a: real, b: real, c: real)
  const ZERO_FRAME := Frame6(0.0, 0.0, 0.0, 0.0, 0.0, 0.0)

  const ERR_OK := 0
  const ERR_NOT_READY := 1
  const ERR_FAULTED := 2
  /** The bridge's own code; the codes of the KRC are not negative. */
  const ERR_NOT_CONNECTED := -1

  datatype Command = Command(id: nat, action: Action, value: int, tool: Frame6, base: Frame6)

  /** ackSeq 0 marks a heartbeat. */
  datatype StateFrame = StateFrame(ackSeq: nat, ackOk: bool, ackCode: int, ready: bool, rsiActive: bool,
                                   fault: bool, mode: int, tool: Frame6)
  const NO_STATE := StateFrame(0, false, 0, false, false, false, 0, ZERO_FRAME)

  datatype Outcome = NoOutcome | Accepted | Rejected | TimedOut

  // ----- Session bookkeeping -----

  datatype Session = Session(pending: bool, pendingSeq: nat, pendingSince: real, lastState: StateFrame,
                             lastStateAt: real, states: nat, badFrames: nat, timeouts: nat)
  const NEW_SESSION := Session(false, 0, 0.0, NO_STATE, -1.0, 0, 0, 0)

  function ResetOf(s: Session): (Session, Outcome) {
    var r := s.(pending := false, lastStateAt := -1.0, lastState := NO_STATE);
    if s.pending then (r.(timeouts := s.timeouts + 1), TimedOut) else (r, NoOutcome)
  }

  function BeginOf(s: Session, id: nat, now: real): (Session, bool) {
    if s.pending then (s, false) else (s.(pending := true, pendingSeq := id, pendingSince := now), true)
  }

  function StateOf(s: Session, f: StateFrame, now: real): (Session, Outcome) {
    var r := s.(states := s.states + 1, lastState := f, lastStateAt := now);
    if s.pending && f.ackSeq == s.pendingSeq && f.ackSeq != 0
    then (r.(pending := false), if f.ackOk then Accepted else Rejected)
    else (r, NoOutcome)
  }

  function TickOf(s: Session, now: real, responseTimeout: real): (Session, Outcome) {
    if s.pending && now - s.pendingSince > responseTimeout
    then (s.(pending := false, timeouts := s.timeouts + 1), TimedOut)
    else (s, NoOutcome)
  }

  class EkiSessionCore {
    const responseTimeout: real
    var pending: bool
    var pendingSeq: nat
    var pendingSince: real
    var lastState: StateFrame
    var lastStateAt: real
    var states: nat
    var badFrames: nat
    var timeouts: nat

    ghost function View(): Session
      reads this
    {
      Session(pending, pendingSeq, pendingSince, lastState, lastStateAt, states, badFrames, timeouts)
    }

    constructor (responseTimeout: real)
      ensures View() == NEW_SESSION && this.responseTimeout == responseTimeout
    {
      this.responseTimeout := responseTimeout;
      pending, pendingSeq, pendingSince := false, 0, 0.0;
      lastState, lastStateAt := NO_STATE, -1.0;
      states, badFrames, timeouts := 0, 0, 0;
    }

    method Reset() returns (outcome: Outcome)
      modifies this
      ensures (View(), outcome) == ResetOf(old(View()))
    {
      var hadPending := pending;
      pending := false;
      lastStateAt := -1.0;
      lastState := NO_STATE;
      if hadPending {
        timeouts := timeouts + 1;
        return TimedOut;
      }
      return NoOutcome;
    }

    method BeginCommand(id: nat, now: real) returns (begun: bool)
      modifies this
      ensures (View(), begun) == BeginOf(old(View()), id, now)
    {
      if pending { return false; }
      pending := true;
      pendingSeq := id;
      pendingSince := now;
      return true;
    }

    method OnState(frame: StateFrame, now: real) returns (outcome: Outcome)
      modifies this
      ensures (View(), outcome) == StateOf(old(View()), frame, now)
    {
      states := states + 1;
      lastState := frame;
      lastStateAt := now;
      if pending && frame.ackSeq == pendingSeq && frame.ackSeq != 0 {
        pending := false;
        return if frame.ackOk then Accepted else Rejected;
      }
      return NoOutcome;
    }

    method OnBadFrame()
      modifies this
      ensures View() == old(View()).(badFrames := old(badFrames) + 1)
    {
      badFrames := badFrames + 1;
    }

    method Tick(now: real) returns (outcome: Outcome)
      modifies this
      ensures (View(), outcome) == TickOf(old(View()), now, responseTimeout)
    {
      if pending && now - pendingSince > responseTimeout {
        pending := false;
        timeouts := timeouts + 1;
        return TimedOut;
      }
      return NoOutcome;
    }
  }

  // ----- The KRC's behaviour table -----

  datatype Krc = Krc(ready: bool, rsiActive: bool, fault: bool, mode: int, tool: Frame6, respondNext: bool,
                     commands: nat)

  /** The part of the KRC that a command can change. */
  function TableOf(k: Krc): (bool, bool, bool, int, Frame6) {
    (k.ready, k.rsiActive, k.fault, k.mode, k.tool)
  }

  function StateFrameOf(k: Krc, ackSeq: nat, ok: bool, code: int): StateFrame {
    StateFrame(ackSeq, ok, code, k.ready, k.rsiActive, k.fault, k.mode, k.tool)
  }

  function HandleOf(k: Krc, cmd: Command): (r: (Krc, Option<StateFrame>))
    ensures r.1.Some? ==> r.1.value.ackSeq == cmd.id && r.1.value.ackCode >= 0
    ensures r.1.Some? && !r.1.value.ackOk ==> TableOf(r.0) == TableOf(k) && r.1.value.ackCode != ERR_OK
    ensures r.1.None? ==> TableOf(r.0) == TableOf(k)
  {
    var k := k.(commands := k.commands + 1);
    if !k.respondNext then (k.(respondNext := true), None)
    else
      var (k', code) :=
        match cmd.action
        case StartRsi =>
          if k.fault then (k, ERR_FAULTED) else if !k.ready then (k, ERR_NOT_READY)
          else (k.(rsiActive := true), ERR_OK)
        case StopRsi => (k.(rsiActive := false), ERR_OK)
        case SetMode => if k.fault then (k, ERR_FAULTED) else (k.(mode := cmd.value), ERR_OK)
        case ResetFault => (k.(fault := false), ERR_OK)
        case SetToolBase => if k.rsiActive then (k, ERR_NOT_READY) else (k.(tool := cmd.tool), ERR_OK)
        case GetTool => (k, ERR_OK)
        case QueryState => (k, ERR_OK);
      (k', Some(StateFrameOf(k', cmd.id, code == ERR_OK, code)))
  }

  class EkiMockServer {
    var ready: bool
    var rsiActive: bool
    var fault: bool
    var mode: int
    var tool: Frame6
    var respondNext: bool
    var commands: nat

    ghost function View(): Krc
      reads this
    {
      Krc(ready, rsiActive, fault, mode, tool, respondNext, commands)
    }

    /** The reply is None where the original returns without sending. */
    method HandleCommand(cmd: Command) returns (reply: Option<StateFrame>)
      modifies this
      ensures (View(), reply) == HandleOf(old(View()), cmd)
    {
      commands := commands + 1;
      if !respondNext {
        respondNext := true;
        return None;
      }
      var ok, code := true, ERR_OK;
      match cmd.action {
        case StartRsi =>
          if fault {
            ok, code := false, ERR_FAULTED;
          } else if !ready {
            ok, code := false, ERR_NOT_READY;
          } else {
            rsiActive := true;
          }
        case StopRsi =>
          rsiActive := false;
        case SetMode =>
          if fault {
            ok, code := false, ERR_FAULTED;
          } else {
            mode := cmd.value;
          }
        case ResetFault =>
          fault := false;
        case SetToolBase =>
          if rsiActive {
            ok, code := false, ERR_NOT_READY;
          } else {
            tool := cmd.tool;
          }
        case GetTool =>
        case QueryState =>
      }
      return Some(StateFrame(cmd.id, ok, code, ready, rsiActive, fault, mode, tool));
    }
  }
}
