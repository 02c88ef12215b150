/**
 * Every interleaving of the EKI bridge's caller, its io thread and the KRC within one lifetime of the io
 * thread. The caller may give up at any time. Commands in flight may be lost or reordered and arrive at most
 * once; replies in flight may also be duplicated. Nothing is forged.
 */
module EkiRuns {
  import opened Types
  import opened EkiSession
  import opened EkiBridge

  datatype Config = Config(autoReconnect: bool, responseTimeout: real)

  /** Where the io thread is between two critical sections. */
  datatype Pc = Top | Connecting | Sending(cmd: Command) | SendFailed | Receiving | LinkDown

  datatype Handled = Handled(cmd: Command, reply: Option<StateFrame>, before: Krc, after: Krc)

  /** `about` is the command whose reply or deadline produced the outcome; None for a lost or absent link. */
  datatype Resolved = Resolved(id: nat, outcome: Outcome, code: int, state: StateFrame, about: Option<nat>, alone: bool)

  datatype Returned = Returned(id: nat, outcome: Outcome, code: int, state: StateFrame, alone: bool)

  /**
   * From `alone` on the fields are history. `alone`: no command was pending on a live link at the last post; `orders`:
   * what was posted under each number; `sent` and `broken`: the numbers whose sending succeeded and failed.
   */
  datatype Sys = Sys(sh: Shared, up: bool, pc: Pc, cmds: set<Command>, acks: set<StateFrame>, krc: Krc,
                     alone: bool, begun: seq<nat>, handled: seq<Handled>, resolved: seq<Resolved>,
                     returned: seq<Returned>, orders: map<nat, Command>, sent: set<nat>, broken: set<nat>)

  datatype Event =
    | Post(action: Action, value: int, tool: Frame6, base: Frame6)
    | Finish
    | RequestConnect(wanted: bool)
    | Disconnected
    | Connected
    | ConnectFailed
    | Service(now: real, serialized: bool)
    | Sent
    | SendBreaks(delivered: bool)
    | SendFails
    | LinkBreaks
    | LinkLost
    | Received(docs: seq<Option<StateFrame>>, now: real)
    | Handle(cmd: Command)
    | Lose(cmd: Command)
    | Heartbeat
    | KrcChanges(krc: Krc)

  function Init(krc: Krc): Sys {
    Sys(NEW_SHARED, false, Top, {}, {}, krc, true, [], [], [], [], map[], {}, {})
  }

  predicate Can(s: Sys, e: Event) {
    match e
    case Post(_, _, _, _) => !s.sh.reqActive
    case Finish => s.sh.reqActive
    case Disconnected => s.pc.Top? && !s.up
    case Connected => s.pc.Connecting?
    case ConnectFailed => s.pc.Connecting?
    case Service(_, _) => s.pc.Top? && s.up
    case Sent => s.pc.Sending?
    case SendBreaks(_) => s.pc.Sending?
    case SendFails => s.pc.SendFailed?
    case LinkBreaks => s.pc.Receiving?
    case LinkLost => s.pc.LinkDown?
    case Received(docs, _) => s.pc.Receiving? && forall d :: d in docs && d.Some? ==> d.value in s.acks
    case Handle(cmd) => cmd in s.cmds
    case Lose(cmd) => cmd in s.cmds
    case RequestConnect(_) => true
    case Heartbeat => true
    case KrcChanges(_) => true
  }

  /** The io thread leaves a critical section with shared state `sh`. */
  function Section(s: Sys, sh: Shared, about: Option<nat>): Sys {
    s.(sh := sh,
       resolved := if Open(s.sh) && !Open(sh)
                   then s.resolved + [Resolved(s.sh.req.id, sh.result.outcome, sh.result.errorCode, sh.result.state,
                                               about, s.alone)]
                   else s.resolved)
  }

  function Do(c: Config, s: Sys, e: Event): Sys
    requires Can(s, e)
  {
    match e
    case Post(action, value, tool, base) =>
      s.(sh := PostOf(s.sh, action, value, tool, base), alone := !(s.sh.session.pending && s.up),
          orders := s.orders[s.sh.nextSeq := Command(s.sh.nextSeq, action, value, tool, base)])
    case Finish =>
      var (sh, r) := FinishOf(s.sh);
      s.(sh := sh, returned := s.returned + [Returned(s.sh.req.id, r.outcome, r.errorCode, r.state, s.alone)])
    case RequestConnect(wanted) => s.(sh := s.sh.(connectRequested := wanted))
    case Disconnected =>
      var (sh, want) := DisconnectedOf(s.sh, c.autoReconnect);
      Section(s, sh, None).(pc := if want then Connecting else Top)
    case Connected => Section(s, ConnectedOf(s.sh), None).(up := true, pc := Top)
    case ConnectFailed => Section(s, ConnectFailedOf(s.sh), None).(pc := Top)
    case Service(now, serialized) =>
      var (sh, begun) := ServiceOf(s.sh, now);
      Section(s, sh, None).(pc := if begun && serialized then Sending(sh.req) else Receiving,
                            begun := if begun then s.begun + [sh.req.id] else s.begun)
    case Sent => s.(cmds := s.cmds + {s.pc.cmd}, pc := Receiving, sent := s.sent + {s.pc.cmd.id})
    case SendBreaks(delivered) =>
      s.(cmds := if delivered then s.cmds + {s.pc.cmd} else s.cmds, pc := SendFailed, up := false,
          broken := s.broken + {s.pc.cmd.id})
    case SendFails => Section(s, SendFailedOf(s.sh), None).(pc := Top)
    case LinkBreaks => s.(pc := LinkDown, up := false)
    case LinkLost => Section(s, LinkLostOf(s.sh), None).(pc := Top)
    case Received(docs, now) =>
      Section(s, ReceivedOf(s.sh, docs, now, c.responseTimeout), Some(s.sh.session.pendingSeq)).(pc := Top)
    case Handle(cmd) =>
      var (krc, reply) := HandleOf(s.krc, cmd);
      s.(krc := krc, cmds := s.cmds - {cmd}, handled := s.handled + [Handled(cmd, reply, s.krc, krc)],
         acks := if reply.Some? then s.acks + {reply.value} else s.acks)
    case Lose(cmd) => s.(cmds := s.cmds - {cmd})
    case Heartbeat => s.(acks := s.acks + {StateFrameOf(s.krc, 0, true, ERR_OK)})
    case KrcChanges(krc) => s.(krc := krc)
  }

  /** Outside the mutex: the network and the KRC. */
  predicate Outside(e: Event) {
    e.Sent? || e.SendBreaks? || e.LinkBreaks? || e.Handle? || e.Lose? || e.Heartbeat? || e.KrcChanges?
  }

  lemma OutsideKeeps(c: Config, s: Sys, e: Event)
    requires Can(s, e) && Outside(e)
    ensures var t := Do(c, s, e);
            && t.sh == s.sh && t.resolved == s.resolved && t.returned == s.returned && t.begun == s.begun
            && t.alone == s.alone
  {
    hide HandleOf, StateFrameOf;
  }

  predicate CanAll(c: Config, s: Sys, es: seq<Event>)
    decreases |es|
  {
    es == [] || (Can(s, es[0]) && CanAll(c, Do(c, s, es[0]), es[1..]))
  }

  function Run(c: Config, s: Sys, es: seq<Event>): Sys
    requires CanAll(c, s, es)
    decreases |es|
  {
    if es == [] then s else Run(c, Do(c, s, es[0]), es[1..])
  }

  // ----- The invariant -----

  ghost predicate Distinct(ids: seq<nat>) {
    forall i, j :: 0 <= i < j < |ids| ==> ids[i] != ids[j]
  }

  /**
   * A command can be pending only on a link that is up, or whose loss is about to be processed; without a link none is
   * reported, and no state is known.
   */
  ghost predicate LinkInv(s: Sys) {
    && (s.sh.session.pending ==> s.sh.connected && (s.up || s.pc.SendFailed? || s.pc.LinkDown?))
    && (s.up ==> s.sh.connected)
    && (s.pc.Sending? || s.pc.Receiving? ==> s.up)
    && (s.pc.Connecting? || s.pc.SendFailed? || s.pc.LinkDown? ==> !s.up)
    && (s.pc.Connecting? || (s.pc.Top? && !s.up) ==> !s.sh.connected && s.sh.session.lastState == NO_STATE)
  }

  ghost predicate BeginInv(s: Sys) {
    var ss := s.sh.session;
    && 1 <= s.sh.nextSeq && (s.sh.reqActive ==> 1 <= s.sh.req.id < s.sh.nextSeq)
    && Distinct(s.begun) && (forall id :: id in s.begun ==> 1 <= id < s.sh.nextSeq)
    && (ss.pending ==> ss.pendingSeq in s.begun)
    && (Open(s.sh) && s.sh.req.id in s.begun ==> ss.pending && ss.pendingSeq == s.sh.req.id)
    && (s.sh.reqActive && s.alone && ss.pending && s.up ==> ss.pendingSeq == s.sh.req.id)
  }

  ghost predicate SendInv(s: Sys) {
    && (forall i, j :: 0 <= i < j < |s.handled| ==> s.handled[i].cmd.id != s.handled[j].cmd.id)
    && (forall h :: h in s.handled ==> h.cmd.id in s.begun)
    && (forall c :: c in s.cmds ==> c.id in s.begun && forall h :: h in s.handled ==> h.cmd.id != c.id)
    && (forall c, d :: c in s.cmds && d in s.cmds && c.id == d.id ==> c == d)
    && (s.pc.Sending? ==>
          && s.pc.cmd.id in s.begun
          && (forall h :: h in s.handled ==> h.cmd.id != s.pc.cmd.id)
          && (forall c :: c in s.cmds ==> c.id != s.pc.cmd.id))
  }

  /** The KRC handled command `id` and answered it with this frame. */
  ghost predicate Answered(s: Sys, id: nat, f: StateFrame) {
    exists h :: h in s.handled && h.cmd.id == id && h.reply == Some(f)
  }

  /** The frame shows the KRC as it is: ready, active, faulted, in which mode, with which tool. */
  predicate Shows(f: StateFrame, k: Krc) {
    f.ready == k.ready && f.rsiActive == k.rsiActive && f.fault == k.fault && f.mode == k.mode && f.tool == k.tool
  }

  ghost predicate KrcInv(s: Sys) {
    && (forall h :: h in s.handled && h.reply.Some? && !h.reply.value.ackOk ==> TableOf(h.before) == TableOf(h.after))
    && (forall h :: h in s.handled && h.reply.Some? ==> h.reply.value.ackCode >= 0)
    && (forall h :: h in s.handled && h.reply.Some? ==> Shows(h.reply.value, h.after))
    && (forall f :: f in s.acks && f.ackSeq != 0 ==> Answered(s, f.ackSeq, f))
  }

  ghost predicate Justified(s: Sys, r: Resolved) {
    match r.about
    case None => r.outcome != Accepted && r.code == ERR_NOT_CONNECTED && r.state == NO_STATE
    case Some(q) =>
      && q in s.begun && (r.alone ==> q == r.id) && r.outcome != NoOutcome
      && (r.outcome == TimedOut ==> r.code == ERR_OK)
      && (r.outcome == Accepted ==> r.state.ackOk && r.code == ERR_OK && Answered(s, q, r.state))
      && (r.outcome == Rejected ==> !r.state.ackOk && r.code == r.state.ackCode && Answered(s, q, r.state))
  }

  ghost predicate ResolveInv(s: Sys) {
    && (forall i, j :: 0 <= i < j < |s.resolved| ==> s.resolved[i].id != s.resolved[j].id)
    && (forall r :: r in s.resolved ==> r.id < s.sh.nextSeq && Justified(s, r))
    && (Open(s.sh) ==> forall r :: r in s.resolved ==> r.id != s.sh.req.id)
    && (s.sh.reqActive && s.sh.resultReady ==>
          exists r :: r in s.resolved && Matches(r, s.sh.req.id, s.sh.result, s.alone))
    && (forall t :: t in s.returned ==>
          (t.outcome == TimedOut && t.code == ERR_NOT_CONNECTED && t.state == NO_STATE)
          || exists r :: r in s.resolved && Matches(r, t.id, ExecResult(t.outcome, t.code, t.state), t.alone))
  }

  predicate Matches(r: Resolved, id: nat, x: ExecResult, alone: bool) {
    r.id == id && r.outcome == x.outcome && r.code == x.errorCode && r.state == x.state && r.alone == alone
  }

  ghost predicate Inv(s: Sys) {
    LinkInv(s) && BeginInv(s) && SendInv(s) && KrcInv(s) && ResolveInv(s)
  }

  // ----- One receive section -----

  /** How a batch of documents leaves the session and the request slot. */
  ghost predicate BatchOf(s: Shared, t: Shared, acks: set<StateFrame>) {
    && t.connected == s.connected && t.req == s.req && t.reqActive == s.reqActive && t.nextSeq == s.nextSeq
    && t.session.pendingSeq == s.session.pendingSeq && (t.session.pending ==> s.session.pending)
    && (s.resultReady ==> t.resultReady && t.result == s.result)
    && (Open(s) && Open(t) ==> t.session.pending == s.session.pending)
    && (Open(s) && !Open(t) ==>
          && s.session.pending
          && ((t.result.outcome == TimedOut && t.result.errorCode == ERR_OK) ||
              exists f :: f in acks && f.ackSeq == s.session.pendingSeq && f.ackSeq != 0
                          && t.result.outcome == (if f.ackOk then Accepted else Rejected)
                          && t.result.errorCode == (if f.ackOk then ERR_OK else f.ackCode) && t.result.state == f))
  }

  lemma {:induction false} Documents(s: Shared, docs: seq<Option<StateFrame>>, now: real, acks: set<StateFrame>)
    requires forall d :: d in docs && d.Some? ==> d.value in acks
    ensures BatchOf(s, DocumentsOf(s, docs, now), acks)
    decreases |docs|
  {
    if docs != [] {
      Documents(s, docs[..|docs| - 1], now, acks);
      var t, d := DocumentsOf(s, docs[..|docs| - 1], now), docs[|docs| - 1];
      if d.Some? { assert d in docs; }
    }
  }

  lemma Batch(s: Shared, docs: seq<Option<StateFrame>>, now: real, timeout: real, acks: set<StateFrame>)
    requires forall d :: d in docs && d.Some? ==> d.value in acks
    ensures BatchOf(s, ReceivedOf(s, docs, now, timeout), acks)
  {
    Documents(s, docs, now, acks);
  }

  // ----- Every step keeps the invariant -----

  lemma LinkStep(c: Config, s: Sys, e: Event)
    requires Can(s, e) && LinkInv(s)
    ensures LinkInv(Do(c, s, e))
  {
    if e.Received? { Batch(s.sh, e.docs, e.now, c.responseTimeout, s.acks); }
  }

  lemma BeginStep(c: Config, s: Sys, e: Event)
    requires Can(s, e) && LinkInv(s) && BeginInv(s)
    ensures BeginInv(Do(c, s, e))
  {
    hide HandleOf, StateFrameOf, ReceivedOf;
    if e.Received? { Batch(s.sh, e.docs, e.now, c.responseTimeout, s.acks); }
    if e.Service? { ServiceStep(c, s, e); } else { assert Do(c, s, e).begun == s.begun; }
  }

  lemma ServiceStep(c: Config, s: Sys, e: Event)
    requires e.Service? && Can(s, e) && LinkInv(s) && BeginInv(s)
    ensures BeginInv(Do(c, s, e))
  {
    var t := Do(c, s, e);
    if t.begun != s.begun { assert t.begun == s.begun + [s.sh.req.id] && s.sh.req.id !in s.begun; }
  }

  lemma SendStep(c: Config, s: Sys, e: Event)
    requires Can(s, e) && BeginInv(s) && SendInv(s)
    ensures SendInv(Do(c, s, e))
  {
    hide HandleOf, StateFrameOf, ReceivedOf, Distinct, PostOf, FinishOf, DisconnectedOf, ConnectedOf, ConnectFailedOf;
    hide SendFailedOf, LinkLostOf, BeginInv, Open;
    if e.Handle? {
      HandleStep(c, s, e);
    } else if e.Service? {
      DispatchStep(c, s, e);
    } else if Outside(e) {
      OutsideSends(c, s, e);
    } else {
      var t := Do(c, s, e);
      assert t.handled == s.handled && t.begun == s.begun;
    }
  }

  lemma OutsideSends(c: Config, s: Sys, e: Event)
    requires Outside(e) && !e.Handle? && Can(s, e) && SendInv(s)
    ensures SendInv(Do(c, s, e))
  {
    hide StateFrameOf, Distinct;
    var t := Do(c, s, e);
    assert t.handled == s.handled && t.begun == s.begun;
  }

  lemma DispatchStep(c: Config, s: Sys, e: Event)
    requires e.Service? && Can(s, e) && BeginInv(s) && SendInv(s)
    ensures SendInv(Do(c, s, e))
  {
    var t := Do(c, s, e);
    assert t.handled == s.handled && t.cmds == s.cmds && forall id :: id in s.begun ==> id in t.begun;
    if t.pc.Sending? { assert t.begun == s.begun + [t.pc.cmd.id] && t.pc.cmd.id !in s.begun; }
  }

  lemma HandleStep(c: Config, s: Sys, e: Event)
    requires e.Handle? && Can(s, e) && SendInv(s)
    ensures SendInv(Do(c, s, e))
  {
    var t := Do(c, s, e);
    var h := t.handled[|s.handled|];
    assert t.handled == s.handled + [h] && forall g :: g in t.handled ==> g in s.handled || g == h;
    assert forall d :: d in t.cmds ==> d in s.cmds;
  }

  lemma KrcStep(c: Config, s: Sys, e: Event)
    requires Can(s, e) && KrcInv(s)
    ensures KrcInv(Do(c, s, e))
  {
    var t := Do(c, s, e);
    if e.Handle? {
      var h := t.handled[|s.handled|];
      assert h in t.handled && t.handled == s.handled + [h];
      forall f | f in t.acks && f.ackSeq != 0 ensures Answered(t, f.ackSeq, f) {
        if f in s.acks { AnsweredStays(c, s, e, f.ackSeq, f); }
      }
    } else {
      forall f | f in t.acks && f.ackSeq != 0 ensures Answered(t, f.ackSeq, f) {
        assert f in s.acks;
      }
    }
  }

  lemma AnsweredStays(c: Config, s: Sys, e: Event, id: nat, f: StateFrame)
    requires Can(s, e) && Answered(s, id, f)
    ensures Answered(Do(c, s, e), id, f)
  {
    var h :| h in s.handled && h.cmd.id == id && h.reply == Some(f);
    assert h in Do(c, s, e).handled;
  }

  lemma JustifiedStays(c: Config, s: Sys, e: Event, r: Resolved)
    requires Can(s, e) && Justified(s, r)
    ensures Justified(Do(c, s, e), r)
  {
    if r.about.Some? {
      var t, q := Do(c, s, e), r.about.value;
      assert forall id :: id in s.begun ==> id in t.begun;
      if r.outcome == Accepted || r.outcome == Rejected { AnsweredStays(c, s, e, q, r.state); }
    }
  }

  /** The verdict that a receive section hands to the caller is the KRC's, or a deadline. */
  lemma ReceiveJustified(c: Config, s: Sys, e: Event)
    requires e.Received? && Can(s, e) && LinkInv(s) && BeginInv(s) && KrcInv(s)
    requires Open(s.sh) && !Open(Do(c, s, e).sh)
    ensures var t := Do(c, s, e); t.resolved != [] && Justified(t, t.resolved[|t.resolved| - 1])
  {
    Batch(s.sh, e.docs, e.now, c.responseTimeout, s.acks);
    var t := Do(c, s, e);
    var r := t.resolved[|t.resolved| - 1];
    if r.outcome != TimedOut {
      var f :| f in s.acks && f.ackSeq == s.sh.session.pendingSeq && f.ackSeq != 0
               && r.outcome == (if f.ackOk then Accepted else Rejected)
               && r.code == (if f.ackOk then ERR_OK else f.ackCode) && r.state == f;
      assert Answered(s, f.ackSeq, f);
      AnsweredStays(c, s, e, f.ackSeq, f);
    }
  }

  /** Whatever section resolves the open request, its verdict is justified. */
  lemma SectionJustified(c: Config, s: Sys, e: Event)
    requires Can(s, e) && Inv(s) && Open(s.sh) && !Open(Do(c, s, e).sh) && !e.Finish?
    ensures var t := Do(c, s, e);
            && |t.resolved| == |s.resolved| + 1 && t.resolved[..|s.resolved|] == s.resolved
               && Justified(t, t.resolved[|s.resolved|])
            && Matches(t.resolved[|s.resolved|], t.sh.req.id, t.sh.result, t.alone)
            && t.sh.req == s.sh.req && t.sh.reqActive && t.sh.resultReady && t.sh.nextSeq == s.sh.nextSeq
               && t.returned == s.returned
  {
    hide SendInv, ResolveInv;
    if Outside(e) {
      OutsideKeeps(c, s, e);
    } else if e.Received? {
      Batch(s.sh, e.docs, e.now, c.responseTimeout, s.acks);
      ReceiveJustified(c, s, e);
    }
  }

  lemma ResolveStep(c: Config, s: Sys, e: Event)
    requires Can(s, e) && Inv(s)
    ensures ResolveInv(Do(c, s, e))
  {
    hide Justified, Do, ResolveInv, LinkInv, BeginInv, SendInv, KrcInv;
    var t := Do(c, s, e);
    forall r | r in s.resolved ensures Justified(t, r) { JustifiedStays(c, s, e, r) by { ResolvedIsJustified(s, r); } }
    if e.Finish? {
      FinishStep(c, s, e);
    } else if Open(s.sh) && !Open(t.sh) {
      SectionJustified(c, s, e);
      assert t.resolved == s.resolved + [t.resolved[|s.resolved|]];
      Resolving(s, t) by { OpenIsPosted(s); }
    } else {
      QuietStep(c, s, e);
    }
  }

  lemma ResolvedIsJustified(s: Sys, r: Resolved)
    requires ResolveInv(s) && r in s.resolved
    ensures Justified(s, r)
  {
  }

  lemma OpenIsPosted(s: Sys)
    requires BeginInv(s) && s.sh.reqActive
    ensures s.sh.req.id < s.sh.nextSeq
  {
  }

  lemma FinishStep(c: Config, s: Sys, e: Event)
    requires Can(s, e) && e.Finish? && ResolveInv(s) && forall r :: r in s.resolved ==> Justified(Do(c, s, e), r)
    ensures ResolveInv(Do(c, s, e))
  {
    hide Justified;
    var t := Do(c, s, e);
    assert forall q :: q in t.returned ==> q in s.returned || q == t.returned[|s.returned|];
  }

  /** A section that resolves nothing. */
  lemma QuietStep(c: Config, s: Sys, e: Event)
    requires Can(s, e) && Inv(s) && !e.Finish? && !(Open(s.sh) && !Open(Do(c, s, e).sh))
    requires forall r :: r in s.resolved ==> Justified(Do(c, s, e), r)
    ensures ResolveInv(Do(c, s, e))
  {
    hide Justified, ResolveInv, SendInv, KrcInv, HandleOf, ReceivedOf;
    if e.Received? { Batch(s.sh, e.docs, e.now, c.responseTimeout, s.acks); }
    Unresolving(s, Do(c, s, e));
  }

  lemma Unresolving(s: Sys, t: Sys)
    requires ResolveInv(s) && t.resolved == s.resolved && t.returned == s.returned
    requires forall r :: r in t.resolved ==> Justified(t, r)
    requires t.sh.nextSeq >= s.sh.nextSeq
    requires Open(t.sh) ==> t.sh.req.id >= s.sh.nextSeq || (Open(s.sh) && t.sh.req.id == s.sh.req.id)
    requires t.sh.reqActive && t.sh.resultReady ==>
               s.sh.reqActive && s.sh.resultReady && t.sh.req == s.sh.req && t.sh.result == s.sh.result
                 && t.alone == s.alone
    ensures ResolveInv(t)
  {
  }

  /** A section that resolves the open request. */
  lemma Resolving(s: Sys, t: Sys)
    requires ResolveInv(s) && Open(s.sh) && t.sh.reqActive && t.sh.resultReady && t.sh.req == s.sh.req
    requires t.sh.nextSeq == s.sh.nextSeq && s.sh.req.id < s.sh.nextSeq && t.returned == s.returned
    requires |t.resolved| == |s.resolved| + 1 && t.resolved[..|s.resolved|] == s.resolved
    requires forall r :: r in t.resolved ==> Justified(t, r)
    requires Matches(t.resolved[|s.resolved|], t.sh.req.id, t.sh.result, t.alone)
    ensures ResolveInv(t)
  {
    var r := t.resolved[|s.resolved|];
    assert t.resolved == s.resolved + [r];
    assert forall q :: q in t.resolved <==> q in s.resolved || q == r;
  }

  lemma {:induction false} RunKeeps(c: Config, s: Sys, es: seq<Event>)
    requires CanAll(c, s, es) && Inv(s)
    ensures Inv(Run(c, s, es))
    decreases |es|
  {
    hide Do, LinkInv, BeginInv, SendInv, KrcInv, ResolveInv;
    if es != [] {
      var e := es[0];
      LinkStep(c, s, e);
      BeginStep(c, s, e);
      SendStep(c, s, e);
      KrcStep(c, s, e);
      ResolveStep(c, s, e);
      RunKeeps(c, Do(c, s, e), es[1..]);
    }
  }

  lemma {:induction false} RunSnoc(c: Config, s: Sys, es: seq<Event>, e: Event)
    requires CanAll(c, s, es) && Can(Run(c, s, es), e)
    ensures CanAll(c, s, es + [e]) && Run(c, s, es + [e]) == Do(c, Run(c, s, es), e)
    decreases |es|
  {
    if es == [] {
      assert [e][1..] == [];
    } else {
      RunSnoc(c, Do(c, s, es[0]), es[1..], e);
      assert (es + [e])[1..] == es[1..] + [e];
    }
  }

  // ----- What every run guarantees -----

  /**
   * No command is pending while the bridge is disconnected; every command is begun at most once, handled by
   * the KRC at most once, and only if it was begun; every request is resolved at most once.
   */
  lemma AtMostOnce(c: Config, krc: Krc, es: seq<Event>)
    requires CanAll(c, Init(krc), es)
    ensures var s := Run(c, Init(krc), es);
            && (!s.sh.connected ==> !s.sh.session.pending)
            && (s.pc.Connecting? ==> !s.sh.session.pending)
            && Distinct(s.begun)
            && (forall i, j :: 0 <= i < j < |s.handled| ==> s.handled[i].cmd.id != s.handled[j].cmd.id)
            && (forall h :: h in s.handled ==> h.cmd.id in s.begun)
            && (forall i, j :: 0 <= i < j < |s.resolved| ==> s.resolved[i].id != s.resolved[j].id)
  {
    RunKeeps(c, Init(krc), es);
  }

  /** The KRC handled command `id`, exactly once, with this answer, which shows its state after it. */
  ghost predicate HandledOnce(s: Sys, id: nat, ok: bool, f: StateFrame) {
    exists i :: 0 <= i < |s.handled| && Verdict(s.handled[i], id, ok, f)
                && forall j :: 0 <= j < |s.handled| && s.handled[j].cmd.id == id ==> j == i
  }

  predicate Verdict(h: Handled, id: nat, ok: bool, f: StateFrame) {
    && h.cmd.id == id && h.reply == Some(f) && f.ackOk == ok && Shows(f, h.after)
    && (!ok ==> TableOf(h.before) == TableOf(h.after))
  }

  /** What the caller was told, state included, is what the KRC did with its command. */
  ghost predicate ToldTruth(s: Sys, t: Returned) {
    && (t.outcome == Accepted ==> HandledOnce(s, t.id, true, t.state) && t.code == ERR_OK)
    && (t.outcome == Rejected && t.code != ERR_NOT_CONNECTED ==>
          HandledOnce(s, t.id, false, t.state) && t.code == t.state.ackCode)
    && (t.code == ERR_NOT_CONNECTED ==> t.outcome != Accepted && t.state == NO_STATE)
  }

  lemma AloneToldTruth(s: Sys, t: Returned)
    requires Inv(s) && t in s.returned && t.alone
    ensures ToldTruth(s, t)
  {
    hide HandledOnce, LinkInv, BeginInv;
    if t.outcome == Accepted || (t.outcome == Rejected && t.code != ERR_NOT_CONNECTED) {
      var r :| r in s.resolved && Matches(r, t.id, ExecResult(t.outcome, t.code, t.state), t.alone);
      assert Justified(s, r);
      AnswerIsUnique(s, t.id, t.outcome == Accepted, t.state);
    }
    if t.code == ERR_NOT_CONNECTED { NotConnectedHasNoState(s, t); }
  }

  /** ... if nothing was pending on a live link when it was posted. */
  lemma OutcomeIsTrue(c: Config, krc: Krc, es: seq<Event>)
    requires CanAll(c, Init(krc), es)
    ensures var s := Run(c, Init(krc), es); forall t :: t in s.returned && t.alone ==> ToldTruth(s, t)
  {
    hide ToldTruth, Inv;
    InitIsFine(krc);
    RunKeeps(c, Init(krc), es);
    var s := Run(c, Init(krc), es);
    forall t | t in s.returned && t.alone ensures ToldTruth(s, t) { AloneToldTruth(s, t); }
  }

  lemma InitIsFine(krc: Krc)
    ensures Inv(Init(krc))
  {
  }

  lemma AnswerIsUnique(s: Sys, id: nat, ok: bool, f: StateFrame)
    requires SendInv(s) && KrcInv(s) && Answered(s, id, f) && f.ackOk == ok
    ensures HandledOnce(s, id, ok, f)
  {
    var h :| h in s.handled && h.cmd.id == id && h.reply == Some(f);
    var i :| 0 <= i < |s.handled| && s.handled[i] == h;
    assert Verdict(s.handled[i], id, ok, f);
  }

  /** The bridge's own code comes from the link, never from the KRC, and with no state. */
  lemma NotConnectedHasNoState(s: Sys, t: Returned)
    requires KrcInv(s) && ResolveInv(s) && t in s.returned && t.code == ERR_NOT_CONNECTED
    ensures t.outcome != Accepted && t.state == NO_STATE
  {
    if !(t.outcome == TimedOut && t.state == NO_STATE) {
      var r :| r in s.resolved && Matches(r, t.id, ExecResult(t.outcome, t.code, t.state), t.alone);
      assert Justified(s, r);
    }
  }

  // ----- Whose outcome it is -----

  /** No outcome of request `id` came from another command. */
  ghost predicate OwnOnly(s: Sys, id: nat) {
    forall r :: r in s.resolved && r.id == id ==> r.about == None || r.about == Some(id)
  }

  ghost predicate PostedAlone(s: Sys, id: nat) {
    && id < s.sh.nextSeq && (s.sh.reqActive && s.sh.req.id == id ==> s.alone)
    && forall r :: r in s.resolved && r.id == id ==> r.alone
  }

  lemma {:induction false} AloneKept(c: Config, s: Sys, es: seq<Event>, id: nat)
    requires CanAll(c, s, es) && PostedAlone(s, id)
    ensures PostedAlone(Run(c, s, es), id)
    decreases |es|
  {
    hide Do, Can, PostedAlone;
    if es != [] {
      AloneStep(c, s, es[0], id);
      AloneKept(c, Do(c, s, es[0]), es[1..], id);
    }
  }

  lemma AloneStep(c: Config, s: Sys, e: Event, id: nat)
    requires Can(s, e) && PostedAlone(s, id)
    ensures PostedAlone(Do(c, s, e), id)
  {
    hide HandleOf, StateFrameOf;
    if e.Received? { Batch(s.sh, e.docs, e.now, c.responseTimeout, s.acks); }
  }

  /** From a live link with another command pending, its deadline answers the request just posted. */
  lemma ForeignOutcome(c: Config, s: Sys, post: Event) returns (es: seq<Event>)
    requires Inv(s) && post.Post? && Can(s, post) && s.sh.session.pending && s.up
    ensures CanAll(c, Do(c, s, post), es) && !OwnOnly(Run(c, Do(c, s, post), es), s.sh.nextSeq)
  {
    var t := Do(c, s, post);
    var last := Received([], t.sh.session.pendingSince + c.responseTimeout + 1.0);
    if s.pc.Receiving? {
      es := [last];
      DeadlineAnswers(c, t, last);
    } else {
      var first := if s.pc.Top? then Service(0.0, true) else Sent;
      var u := Do(c, t, first);
      es := [first, last];
      assert es[1..] == [last];
      DeadlineAnswers(c, u, last);
      assert Run(c, t, es) == Run(c, u, [last]);
    }
  }

  lemma DeadlineAnswers(c: Config, s: Sys, last: Event)
    requires s.pc.Receiving? && last == Received([], s.sh.session.pendingSince + c.responseTimeout + 1.0)
    requires Open(s.sh) && s.sh.session.pending && s.sh.session.pendingSeq != s.sh.req.id
    ensures CanAll(c, s, [last]) && !OwnOnly(Run(c, s, [last]), s.sh.req.id)
  {
    var t := Do(c, s, last);
    assert DocumentsOf(s.sh, [], last.now) == s.sh;
    var r := Resolved(s.sh.req.id, TimedOut, 0, s.sh.session.lastState, Some(s.sh.session.pendingSeq), s.alone);
    assert t.resolved == s.resolved + [r];
    assert [last][1..] == [];
    assert Run(c, s, [last]) == t;
    assert r in t.resolved;
  }

  /**
   * Whatever happens after a post, its outcome comes from its own command or from the link, exactly when no
   * other command was pending on a live link at the post.
   */
  lemma OwnOutcomeIff(c: Config, s: Sys, post: Event)
    requires Inv(s) && post.Post? && Can(s, post)
    ensures (forall es :: CanAll(c, Do(c, s, post), es) ==> OwnOnly(Run(c, Do(c, s, post), es), s.sh.nextSeq))
            <==> !(s.sh.session.pending && s.up)
  {
    var t, id := Do(c, s, post), s.sh.nextSeq;
    if s.sh.session.pending && s.up {
      var es := ForeignOutcome(c, s, post);
    } else {
      LinkStep(c, s, post);
      BeginStep(c, s, post);
      SendStep(c, s, post);
      KrcStep(c, s, post);
      ResolveStep(c, s, post);
      forall es | CanAll(c, t, es) ensures OwnOnly(Run(c, t, es), id) {
        AloneKept(c, t, es, id);
        RunKeeps(c, t, es);
        assert forall r :: r in Run(c, t, es).resolved ==> Justified(Run(c, t, es), r);
      }
    }
  }

  // ----- A command without losses -----

  lemma OneDocument(s: Shared, f: StateFrame, now: real)
    ensures DocumentsOf(s, [Some(f)], now) == DocumentOf(s, Some(f), now)
  {
    assert [Some(f)][..0] == [];
    assert DocumentsOf(s, [], now) == s;
  }

  function Ordered(s: Sys, post: Event): Command
    requires post.Post?
  {
    Command(s.sh.nextSeq, post.action, post.value, post.tool, post.base)
  }

  /** What the caller of a handled command is told: the reply, or a deadline when the KRC does not answer. */
  function VerdictOf(reply: Option<StateFrame>, last: StateFrame): ExecResult {
    match reply
    case None => ExecResult(TimedOut, 0, last)
    case Some(f) => if f.ackOk then ExecResult(Accepted, 0, f) else ExecResult(Rejected, f.ackCode, f)
  }

  function Told(id: nat, x: ExecResult, alone: bool): Returned { Returned(id, x.outcome, x.errorCode, x.state, alone) }

  /** Posted on an idle live link, begun, sent, and on its way. */
  lemma Dispatch(c: Config, s: Sys, post: Event, t0: real) returns (t: Sys, es: seq<Event>)
    requires post.Post? && s.pc.Top? && s.up && !s.sh.session.pending && !s.sh.reqActive
    ensures es == [post, Service(t0, true), Sent] && CanAll(c, s, es) && t == Run(c, s, es)
    ensures Ordered(s, post) in t.cmds && t.pc.Receiving? && t.sh.reqActive && !t.sh.resultReady
            && t.sh.req == Ordered(s, post)
    ensures t.sh.session.pending && t.sh.session.pendingSeq == s.sh.nextSeq && t.sh.session.pendingSince == t0
    ensures t.sh.session.lastState == s.sh.session.lastState
    ensures t.krc == s.krc && t.returned == s.returned && t.begun == s.begun + [s.sh.nextSeq] && t.handled == s.handled
            && t.alone
  {
    es := [post, Service(t0, true), Sent];
    var u := Do(c, s, post);
    var v := Do(c, u, Service(t0, true));
    t := Do(c, v, Sent);
    assert es[1..] == [Service(t0, true), Sent] && es[1..][1..] == [Sent] && [Sent][1..] == [];
    assert CanAll(c, v, [Sent]) && Run(c, v, [Sent]) == t;
    assert CanAll(c, u, es[1..]) && Run(c, u, es[1..]) == t;
  }

  lemma AnswerResolves(s: Shared, reply: Option<StateFrame>, t1: real, timeout: real)
    requires Open(s) && s.session.pending && s.session.pendingSeq == s.req.id >= 1
             && t1 - s.session.pendingSince > timeout
    requires reply.Some? ==> reply.value.ackSeq == s.req.id
    ensures var t := ReceivedOf(s, if reply.Some? then [reply] else [], t1, timeout);
            && t.reqActive && t.resultReady && t.req == s.req && !t.session.pending
            && t.result == VerdictOf(reply, s.session.lastState)
  {
    if reply.Some? { OneDocument(s, reply.value, t1); }
  }

  /** The KRC handles it, its answer (or the deadline) arrives, and the caller wakes up. */
  lemma Answer(c: Config, s: Sys, cmd: Command, t1: real) returns (t: Sys, es: seq<Event>)
    requires cmd in s.cmds && cmd.id >= 1 && s.pc.Receiving? && s.sh.reqActive && !s.sh.resultReady && s.sh.req == cmd
    requires s.sh.session.pending && s.sh.session.pendingSeq == cmd.id
             && t1 - s.sh.session.pendingSince > c.responseTimeout
    ensures var reply := HandleOf(s.krc, cmd).1;
            && es == [Handle(cmd), Received(if reply.Some? then [reply] else [], t1), Finish] && CanAll(c, s, es)
               && t == Run(c, s, es)
            && t.krc == HandleOf(s.krc, cmd).0 && !t.sh.session.pending && t.begun == s.begun
            && t.returned == s.returned + [Told(cmd.id, VerdictOf(reply, s.sh.session.lastState), s.alone)]
            && t.handled == s.handled + [Handled(cmd, reply, s.krc, t.krc)]
  {
    hide HandleOf, ReceivedOf, VerdictOf;
    var (krc, reply) := HandleOf(s.krc, cmd);
    var docs := if reply.Some? then [reply] else [];
    es := [Handle(cmd), Received(docs, t1), Finish];
    var u := Do(c, s, es[0]);
    AnswerResolves(u.sh, reply, t1, c.responseTimeout);
    var v := Do(c, u, es[1]);
    t := Do(c, v, Finish);
    assert es[1..] == [es[1], Finish] && es[1..][1..] == [Finish] && [Finish][1..] == [];
    assert CanAll(c, v, [Finish]) && Run(c, v, [Finish]) == t;
    assert CanAll(c, u, es[1..]) && Run(c, u, es[1..]) == t;
  }

  lemma {:induction false} RunConcat(c: Config, s: Sys, xs: seq<Event>, ys: seq<Event>)
    requires CanAll(c, s, xs) && CanAll(c, Run(c, s, xs), ys)
    ensures CanAll(c, s, xs + ys) && Run(c, s, xs + ys) == Run(c, Run(c, s, xs), ys)
    decreases |xs|
  {
    hide Do, Can;
    if xs == [] {
      assert xs + ys == ys;
    } else {
      assert (xs + ys)[1..] == xs[1..] + ys;
      RunConcat(c, Do(c, s, xs[0]), xs[1..], ys);
    }
  }

  /**
   * From every reachable state with an idle live link, a posted command can go all the way: it is handled by the KRC
   * once, and the caller is told the KRC's verdict, or a timeout if the KRC does not answer.
   */
  lemma CommandGoesThrough(c: Config, s: Sys, post: Event, t0: real, t1: real) returns (es: seq<Event>)
    requires Inv(s) && post.Post? && s.pc.Top? && s.up && !s.sh.session.pending && !s.sh.reqActive
             && t1 - t0 > c.responseTimeout
    ensures CanAll(c, s, es)
    ensures var t, cmd := Run(c, s, es), Ordered(s, post); var (krc, reply) := HandleOf(s.krc, cmd);
            && t.krc == krc && !t.sh.session.pending && t.begun == s.begun + [cmd.id]
            && t.handled == s.handled + [Handled(cmd, reply, s.krc, krc)]
            && t.returned == s.returned + [Told(cmd.id, VerdictOf(reply, s.sh.session.lastState), true)]
  {
    hide Do, Can, HandleOf, Run, CanAll;
    var u, first := Dispatch(c, s, post, t0);
    var t, last := Answer(c, u, Ordered(s, post), t1);
    RunConcat(c, s, first, last);
    es := first + last;
  }
}
