/**
 * The EKI bridge: one caller of `execute` at a time and one io thread share the state below under one mutex.
 * Every critical section is one function of that state, and one method of the class.
 */
module EkiBridge {
  import opened Types
  import opened EkiSession

  datatype ExecResult = ExecResult(outcome: Outcome, errorCode: int, state: StateFrame)

  datatype Shared = Shared(session: Session, connected: bool, wasConnectedOnce: bool, reconnects: nat,
                           connectRequested: bool, nextSeq: nat, reqActive: bool, req: Command,
                           resultReady: bool, result: ExecResult)

  const NO_COMMAND := Command(0, QueryState, 0, ZERO_FRAME, ZERO_FRAME)
  const NO_RESULT := ExecResult(NoOutcome, 0, NO_STATE)
  const NEW_SHARED := Shared(NEW_SESSION, false, false, 0, false, 1, false, NO_COMMAND, false, NO_RESULT)
  /** What `execute` returns when the io thread never answered. */
  const GAVE_UP := ExecResult(TimedOut, ERR_NOT_CONNECTED, NO_STATE)

  predicate Open(s: Shared) { s.reqActive && !s.resultReady }

  function ResolveOf(s: Shared, outcome: Outcome, code: int): Shared {
    s.(result := ExecResult(outcome, code, s.session.lastState), resultReady := true)
  }

  function ResolveIf(s: Shared, cond: bool, outcome: Outcome, code: int): Shared {
    if cond && Open(s) then ResolveOf(s, outcome, code) else s
  }

  function PostOf(s: Shared, action: Action, value: int, tool: Frame6, base: Frame6): Shared {
    s.(req := Command(s.nextSeq, action, value, tool, base), nextSeq := s.nextSeq + 1,
       reqActive := true, resultReady := false)
  }

  function FinishOf(s: Shared): (Shared, ExecResult) {
    (s.(reqActive := false), if s.resultReady then s.result else GAVE_UP)
  }

  function DisconnectedOf(s: Shared, autoReconnect: bool): (Shared, bool) {
    var want := autoReconnect || s.connectRequested;
    (ResolveIf(s.(connected := false), !want, Rejected, ERR_NOT_CONNECTED), want)
  }

  function ConnectedOf(s: Shared): Shared {
    s.(session := ResetOf(s.session).0, connected := true, connectRequested := false,
       reconnects := if s.wasConnectedOnce then s.reconnects + 1 else s.reconnects, wasConnectedOnce := true)
  }

  function ConnectFailedOf(s: Shared): Shared {
    ResolveIf(s, true, Rejected, ERR_NOT_CONNECTED)
  }

  function ServiceOf(s: Shared, now: real): (Shared, bool) {
    if Open(s) && !s.session.pending then (s.(session := BeginOf(s.session, s.req.id, now).0), true)
    else (s, false)
  }

  function SendFailedOf(s: Shared): Shared {
    ResolveIf(s.(connected := false, session := ResetOf(s.session).0), true, Rejected, ERR_NOT_CONNECTED)
  }

  function LinkLostOf(s: Shared): Shared {
    var (session, outcome) := ResetOf(s.session);
    ResolveIf(s.(connected := false, session := session), outcome != NoOutcome, TimedOut, ERR_NOT_CONNECTED)
  }

  /** One reassembled document; None is a document that does not parse. */
  function DocumentOf(s: Shared, doc: Option<StateFrame>, now: real): Shared {
    match doc
    case None => s.(session := s.session.(badFrames := s.session.badFrames + 1))
    case Some(f) =>
      var (session, outcome) := StateOf(s.session, f, now);
      ResolveIf(s.(session := session), outcome != NoOutcome, outcome, if outcome == Rejected then f.ackCode else 0)
  }

  function DocumentsOf(s: Shared, docs: seq<Option<StateFrame>>, now: real): Shared
    decreases |docs|
  {
    if docs == [] then s else DocumentOf(DocumentsOf(s, docs[..|docs| - 1], now), docs[|docs| - 1], now)
  }

  function TickSection(s: Shared, now: real, responseTimeout: real): Shared {
    var (session, outcome) := TickOf(s.session, now, responseTimeout);
    ResolveIf(s.(session := session), outcome == TimedOut, outcome, 0)
  }

  function ReceivedOf(s: Shared, docs: seq<Option<StateFrame>>, now: real, responseTimeout: real): Shared {
    TickSection(DocumentsOf(s, docs, now), now, responseTimeout)
  }

  class EkiBridgeRuntime {
    const autoReconnect: bool
    const session: EkiSessionCore
    var connected: bool
    var wasConnectedOnce: bool
    var reconnects: nat
    var connectRequested: bool
    var nextSeq: nat
    var reqActive: bool
    var reqCmd: Command
    var resultReady: bool
    var result: ExecResult

    ghost function View(): Shared
      reads this, session
    {
      Shared(session.View(), connected, wasConnectedOnce, reconnects, connectRequested, nextSeq, reqActive,
             reqCmd, resultReady, result)
    }

    constructor (autoReconnect: bool, responseTimeout: real)
      ensures View() == NEW_SHARED && fresh(session) && session.responseTimeout == responseTimeout
      ensures this.autoReconnect == autoReconnect
    {
      this.autoReconnect := autoReconnect;
      session := new EkiSessionCore(responseTimeout);
      connected, wasConnectedOnce, reconnects, connectRequested := false, false, 0, false;
      nextSeq, reqActive, reqCmd := 1, false, NO_COMMAND;
      resultReady, result := false, NO_RESULT;
    }

    method ResolveLocked(outcome: Outcome, errorCode: int)
      modifies this
      ensures View() == ResolveOf(old(View()), outcome, errorCode)
    {
      result := ExecResult(outcome, errorCode, session.lastState);
      resultReady := true;
    }

    /** `execute` up to its wait. */
    method Post(action: Action, value: int, tool: Frame6, base: Frame6)
      modifies this
      ensures View() == PostOf(old(View()), action, value, tool, base)
    {
      reqCmd := Command(nextSeq, action, value, tool, base);
      nextSeq := nextSeq + 1;
      reqActive := true;
      resultReady := false;
    }

    /** `execute` from its wait on: woken by a result, or by the deadline. */
    method Finish() returns (r: ExecResult)
      modifies this
      ensures (View(), r) == FinishOf(old(View()))
    {
      reqActive := false;
      if !resultReady {
        return ExecResult(TimedOut, ERR_NOT_CONNECTED, NO_STATE);
      }
      return result;
    }

    method Disconnected() returns (wantConnect: bool)
      modifies this
      ensures (View(), wantConnect) == DisconnectedOf(old(View()), autoReconnect)
    {
      connected := false;
      wantConnect := autoReconnect || connectRequested;
      if !wantConnect && reqActive && !resultReady {
        ResolveLocked(Rejected, ERR_NOT_CONNECTED);
      }
    }

    method Connected()
      modifies this, session
      ensures View() == ConnectedOf(old(View()))
    {
      var _ := session.Reset();
      connected := true;
      connectRequested := false;
      if wasConnectedOnce {
        reconnects := reconnects + 1;
      }
      wasConnectedOnce := true;
    }

    method ConnectFailed()
      modifies this
      ensures View() == ConnectFailedOf(old(View()))
    {
      if reqActive && !resultReady {
        ResolveLocked(Rejected, ERR_NOT_CONNECTED);
      }
    }

    /** The command to serialize and send, if one is begun. */
    method Service(now: real) returns (cmd: Option<Command>)
      modifies this, session
      ensures var (s, begun) := ServiceOf(old(View()), now);
              View() == s && cmd == if begun then Some(s.req) else None
    {
      if reqActive && !resultReady && !session.pending {
        var begun := session.BeginCommand(reqCmd.id, now);
        if begun { return Some(reqCmd); }
      }
      return None;
    }

    method SendFailed()
      modifies this, session
      ensures View() == SendFailedOf(old(View()))
    {
      connected := false;
      var _ := session.Reset();
      if reqActive && !resultReady {
        ResolveLocked(Rejected, ERR_NOT_CONNECTED);
      }
    }

    method LinkLost()
      modifies this, session
      ensures View() == LinkLostOf(old(View()))
    {
      connected := false;
      var outcome := session.Reset();
      if outcome != NoOutcome && reqActive && !resultReady {
        ResolveLocked(TimedOut, ERR_NOT_CONNECTED);
      }
    }

    method OnDocument(doc: Option<StateFrame>, now: real)
      modifies this, session
      ensures View() == DocumentOf(old(View()), doc, now)
    {
      if doc.None? {
        session.OnBadFrame();
        return;
      }
      var outcome := session.OnState(doc.value, now);
      if outcome != NoOutcome && reqActive && !resultReady {
        ResolveLocked(outcome, if outcome == Rejected then doc.value.ackCode else 0);
      }
    }

    /** The documents are those the splitter hands to its sink. */
    method Received(docs: seq<Option<StateFrame>>, now: real)
      modifies this, session
      ensures View() == ReceivedOf(old(View()), docs, now, session.responseTimeout)
    {
      for i := 0 to |docs|
        invariant View() == DocumentsOf(old(View()), docs[..i], now)
      {
        OnDocument(docs[i], now);
        assert docs[..i + 1][..i] == docs[..i];
      }
      assert docs[..|docs|] == docs;
      var outcome := session.Tick(now);
      if outcome == TimedOut && reqActive && !resultReady {
        ResolveLocked(outcome, 0);
      }
    }
  }
}
