/**
 * What an answer of `execute` means, over every interleaving: an ACCEPTED command was carried out as it was posted and
 * the returned state shows it; a refusal has a reason that the returned state shows; and what an outcome of the link
 * says about the sending of the command. When the bridge tries to connect.
 */
module EkiAnswers {
  import opened Types
  import opened EkiSession
  import opened EkiBridge
  import opened EkiRuns

  // ----- What the KRC does with a command -----

  /** Carried out: exactly what the command asks for has changed. */
  predicate CarriedOut(cmd: Command, k: Krc, after: Krc) {
    match cmd.action
    case StartRsi => k.ready && !k.fault && TableOf(after) == (k.ready, true, k.fault, k.mode, k.tool)
    case StopRsi => TableOf(after) == (k.ready, false, k.fault, k.mode, k.tool)
    case SetMode => !k.fault && TableOf(after) == (k.ready, k.rsiActive, k.fault, cmd.value, k.tool)
    case ResetFault => TableOf(after) == (k.ready, k.rsiActive, false, k.mode, k.tool)
    case SetToolBase => !k.rsiActive && TableOf(after) == (k.ready, k.rsiActive, k.fault, k.mode, cmd.tool)
    case QueryState => TableOf(after) == TableOf(k)
    case GetTool => TableOf(after) == TableOf(k)
  }

  /** The reason of a refusal, as the state shows it. */
  predicate Reason(cmd: Command, code: int, f: StateFrame) {
    match cmd.action
    case StartRsi => if f.fault then code == ERR_FAULTED else code == ERR_NOT_READY && !f.ready
    case SetMode => code == ERR_FAULTED && f.fault
    case SetToolBase => code == ERR_NOT_READY && f.rsiActive
    case _ => false
  }

  predicate Done(h: Handled) {
    && (h.reply.None? <==> !h.before.respondNext) && h.after.respondNext
    && h.after.commands == h.before.commands + 1
    && (h.reply.None? ==> TableOf(h.after) == TableOf(h.before))
    && (h.reply.Some? ==>
          var f := h.reply.value;
          && f.ackSeq == h.cmd.id && Shows(f, h.after)
          && (f.ackOk ==> CarriedOut(h.cmd, h.before, h.after))
          && (!f.ackOk ==> Reason(h.cmd, f.ackCode, f) && TableOf(h.after) == TableOf(h.before)))
  }

  lemma HandleDoes(k: Krc, cmd: Command)
    ensures var (after, reply) := HandleOf(k, cmd); Done(Handled(cmd, reply, k, after))
  {
  }

  // ----- The command that is handled is the one that was posted -----

  predicate IsOrder(s: Sys, cmd: Command) { cmd.id in s.orders && s.orders[cmd.id] == cmd }

  ghost predicate OrderInv(s: Sys) {
    && (forall id :: id in s.orders ==> id < s.sh.nextSeq)
    && (s.sh.reqActive ==> IsOrder(s, s.sh.req))
    && (s.pc.Sending? ==> IsOrder(s, s.pc.cmd))
    && (forall cmd :: cmd in s.cmds ==> IsOrder(s, cmd))
    && (forall h :: h in s.handled ==> IsOrder(s, h.cmd) && Done(h))
    && (forall t :: t in s.returned ==> t.id in s.orders)
  }

  lemma OrderStep(c: Config, s: Sys, e: Event)
    requires Can(s, e) && OrderInv(s)
    ensures OrderInv(Do(c, s, e))
  {
    hide HandleOf, ReceivedOf, Done, StateFrameOf, TableOf, ConnectedOf, LinkLostOf, SendFailedOf, DisconnectedOf;
    hide ConnectFailedOf;
    var t := Do(c, s, e);
    if e.Handle? {
      OrderHandled(c, s, e);
    } else if Outside(e) {
      OrderOutside(c, s, e);
    } else {
      assert t.handled == s.handled && t.cmds == s.cmds;
      SectionsKeep(c, s, e);
    }
  }

  lemma OrderOutside(c: Config, s: Sys, e: Event)
    requires Outside(e) && !e.Handle? && Can(s, e) && OrderInv(s)
    ensures OrderInv(Do(c, s, e))
  {
    hide Done, StateFrameOf;
    assert Do(c, s, e).handled == s.handled;
  }

  lemma OrderHandled(c: Config, s: Sys, e: Event)
    requires e.Handle? && Can(s, e) && OrderInv(s)
    ensures OrderInv(Do(c, s, e))
  {
    hide HandleOf, Done, StateFrameOf, TableOf;
    var t := Do(c, s, e);
    HandleDoes(s.krc, e.cmd);
    assert forall h :: h in t.handled ==> h in s.handled || h == t.handled[|s.handled|];
  }

  /** Only a post gives out a number. */
  lemma SectionsKeep(c: Config, s: Sys, e: Event)
    requires Can(s, e)
    ensures var a, b := s.sh, Do(c, s, e).sh;
            e.Post? || (b.nextSeq == a.nextSeq && b.req == a.req && (b.reqActive ==> a.reqActive))
  {
    hide HandleOf, StateFrameOf, ReceivedOf;
    if Outside(e) {
      OutsideKeeps(c, s, e);
    } else if e.Received? { Batch(s.sh, e.docs, e.now, c.responseTimeout, s.acks); }
  }

  // ----- What an outcome of the link says -----

  ghost predicate LinkVerdict(s: Sys, r: Resolved) {
    r.about.None? ==>
      && (r.outcome == Rejected ==> r.id !in s.sent && (r.id in s.begun ==> r.id in s.broken))
      && (r.outcome == TimedOut ==> r.id !in s.broken)
  }

  ghost predicate SendingInv(s: Sys) {
    var ss := s.sh.session;
    && (forall id :: id in s.sent ==> id in s.begun && id !in s.broken)
    && (forall id :: id in s.broken ==> id in s.begun)
    && (s.pc.Sending? ==>
          var id := s.pc.cmd.id;
          && ss.pending && ss.pendingSeq == id && id in s.begun && id !in s.sent && id !in s.broken
          && forall r :: r in s.resolved ==> r.id != id)
    && (s.pc.SendFailed? ==> ss.pending && ss.pendingSeq in s.broken)
    && (ss.pending && !s.pc.SendFailed? ==> ss.pendingSeq !in s.broken)
    && (forall r :: r in s.resolved ==> LinkVerdict(s, r))
  }

  lemma SendingStep(c: Config, s: Sys, e: Event)
    requires Can(s, e) && Inv(s) && SendingInv(s)
    ensures SendingInv(Do(c, s, e))
  {
    hide HandleOf, ReceivedOf, StateFrameOf, TableOf, SendInv, KrcInv, Distinct, Justified, LinkVerdict, Do, LinkInv;
    hide BeginInv, ResolveInv, SendingInv;
    var t := Do(c, s, e);
    if Open(s.sh) && !Open(t.sh) && !e.Finish? {
      SectionJustified(c, s, e);
      ResolvingSends(c, s, e);
    } else {
      QuietSends(c, s, e);
    }
  }

  /** A verdict of the link stays right: no resolved request is begun, sent or broken any more. */
  lemma VerdictsStay(c: Config, s: Sys, e: Event)
    requires Can(s, e) && Inv(s) && SendingInv(s)
    ensures forall x :: x in s.resolved ==> LinkVerdict(Do(c, s, e), x)
  {
    hide HandleOf, ReceivedOf, StateFrameOf, TableOf, SendInv, KrcInv, LinkInv, Justified, ConnectedOf, SendFailedOf;
    hide LinkLostOf, DisconnectedOf, ConnectFailedOf;
    if Outside(e) { OutsideKeeps(c, s, e); }
    forall x | x in s.resolved ensures LinkVerdict(Do(c, s, e), x) { assert LinkVerdict(s, x); }
  }

  /** A section that resolves a request. */
  lemma ResolvingSends(c: Config, s: Sys, e: Event)
    requires Can(s, e) && Inv(s) && SendingInv(s) && Open(s.sh) && !Open(Do(c, s, e).sh) && !e.Finish?
    requires var t := Do(c, s, e); |t.resolved| == |s.resolved| + 1 && t.resolved[..|s.resolved|] == s.resolved
    ensures SendingInv(Do(c, s, e))
  {
    hide HandleOf, ReceivedOf, StateFrameOf, TableOf, SendInv, KrcInv, Distinct, Justified;
    var t := Do(c, s, e);
    if e.Received? { Batch(s.sh, e.docs, e.now, c.responseTimeout, s.acks); }
    var r := t.resolved[|s.resolved|];
    assert t.resolved == s.resolved + [r] && r.id == s.sh.req.id;
    assert LinkVerdict(t, r);
    hide LinkVerdict;
    VerdictsStay(c, s, e);
  }

  lemma QuietSends(c: Config, s: Sys, e: Event)
    requires Can(s, e) && Inv(s) && SendingInv(s) && (e.Finish? || !(Open(s.sh) && !Open(Do(c, s, e).sh)))
    ensures SendingInv(Do(c, s, e))
  {
    hide Do, Can, LinkInv, BeginInv, SendInv, KrcInv, ResolveInv, SendingInv, LinkVerdict, Open;
    VerdictsStay(c, s, e);
    if Outside(e) {
      OutsideKeeps(c, s, e);
      OutsideSending(c, s, e);
    } else if e.Service? {
      ServiceSends(c, s, e);
    } else {
      SectionSends(c, s, e);
    }
  }

  lemma ServiceSends(c: Config, s: Sys, e: Event)
    requires e.Service? && Can(s, e) && BeginInv(s) && ResolveInv(s) && SendingInv(s)
    requires forall x :: x in s.resolved ==> LinkVerdict(Do(c, s, e), x)
    ensures SendingInv(Do(c, s, e))
  {
    hide LinkVerdict, Justified, Distinct;
    var t := Do(c, s, e);
    assert t.resolved == s.resolved && t.sent == s.sent && t.broken == s.broken;
  }

  lemma SectionSends(c: Config, s: Sys, e: Event)
    requires !Outside(e) && !e.Service? && Can(s, e) && SendingInv(s)
    requires e.Finish? || !(Open(s.sh) && !Open(Do(c, s, e).sh))
    requires forall x :: x in s.resolved ==> LinkVerdict(Do(c, s, e), x)
    ensures SendingInv(Do(c, s, e))
  {
    SectionFrame(c, s, e);
    FrameSends(s, Do(c, s, e));
    hide Do, Can;
  }

  /** What a section that begins and resolves nothing leaves alone: what is being sent, and what is pending or ends. */
  ghost predicate Framed(s: Sys, t: Sys) {
    && t.resolved == s.resolved && t.sent == s.sent && t.broken == s.broken && t.begun == s.begun
    && (t.sh.session.pending ==>
          s.sh.session.pending && t.sh.session.pendingSeq == s.sh.session.pendingSeq
          && (t.pc.SendFailed? <==> s.pc.SendFailed?))
    && (t.pc.Sending? || t.pc.SendFailed? ==> t.pc == s.pc && t.sh.session == s.sh.session)
  }

  lemma SectionFrame(c: Config, s: Sys, e: Event)
    requires !Outside(e) && !e.Service? && Can(s, e) && (e.Finish? || !(Open(s.sh) && !Open(Do(c, s, e).sh)))
    ensures Framed(s, Do(c, s, e))
  {
    hide HandleOf, ReceivedOf, StateFrameOf;
    if e.Received? { Batch(s.sh, e.docs, e.now, c.responseTimeout, s.acks); }
  }

  lemma FrameSends(s: Sys, t: Sys)
    requires Framed(s, t) && SendingInv(s) && forall x :: x in s.resolved ==> LinkVerdict(t, x)
    ensures SendingInv(t)
  {
    hide LinkVerdict;
  }

  lemma OutsideSending(c: Config, s: Sys, e: Event)
    requires Outside(e) && Can(s, e) && Do(c, s, e).resolved == s.resolved && Do(c, s, e).sh == s.sh
    requires SendingInv(s) && Do(c, s, e).begun == s.begun
    requires forall x :: x in s.resolved ==> LinkVerdict(Do(c, s, e), x)
    ensures SendingInv(Do(c, s, e))
  {
    hide HandleOf, StateFrameOf, LinkVerdict;
  }

  lemma {:induction false} RunAnswers(c: Config, s: Sys, es: seq<Event>)
    requires CanAll(c, s, es) && Inv(s) && OrderInv(s) && SendingInv(s)
    ensures var t := Run(c, s, es); Inv(t) && OrderInv(t) && SendingInv(t)
    decreases |es|
  {
    hide Do, LinkInv, BeginInv, SendInv, KrcInv, ResolveInv, OrderInv, SendingInv;
    if es != [] {
      var e := es[0];
      LinkStep(c, s, e);
      BeginStep(c, s, e);
      SendStep(c, s, e);
      KrcStep(c, s, e);
      ResolveStep(c, s, e);
      OrderStep(c, s, e);
      SendingStep(c, s, e);
      RunAnswers(c, Do(c, s, e), es[1..]);
    }
  }

  lemma InitAnswers(krc: Krc)
    ensures Inv(Init(krc)) && OrderInv(Init(krc)) && SendingInv(Init(krc))
  {
  }

  /** The KRC handled this command, once, and answered with this frame; what it did is what the frame says. */
  ghost predicate Answers(s: Sys, cmd: Command, f: StateFrame) {
    exists i :: 0 <= i < |s.handled| && s.handled[i].cmd == cmd && s.handled[i].reply == Some(f) && Done(s.handled[i])
                && forall j :: 0 <= j < |s.handled| && s.handled[j].cmd.id == cmd.id ==> j == i
  }

  /** The state shows what the command asked for. */
  predicate ShowsDone(cmd: Command, f: StateFrame) {
    match cmd.action
    case StartRsi => f.rsiActive && f.ready && !f.fault
    case StopRsi => !f.rsiActive
    case SetMode => f.mode == cmd.value && !f.fault
    case ResetFault => !f.fault
    case SetToolBase => f.tool == cmd.tool && !f.rsiActive
    case _ => true
  }

  ghost predicate Truthful(s: Sys, t: Returned) {
    && t.id in s.orders
    && var cmd := s.orders[t.id];
       && (t.outcome == Accepted ==> t.state.ackOk && Answers(s, cmd, t.state) && ShowsDone(cmd, t.state))
       && (t.outcome == Rejected && t.code != ERR_NOT_CONNECTED ==>
             !t.state.ackOk && Answers(s, cmd, t.state) && Reason(cmd, t.code, t.state))
  }

  lemma AnsweredAsPosted(s: Sys, t: Returned, ok: bool)
    requires OrderInv(s) && t.id in s.orders && HandledOnce(s, t.id, ok, t.state)
    ensures var cmd := s.orders[t.id];
            && t.state.ackOk == ok && Answers(s, cmd, t.state)
            && if ok then ShowsDone(cmd, t.state) else Reason(cmd, t.state.ackCode, t.state)
  {
    var i :| 0 <= i < |s.handled| && Verdict(s.handled[i], t.id, ok, t.state)
             && forall j :: 0 <= j < |s.handled| && s.handled[j].cmd.id == t.id ==> j == i;
    assert s.handled[i] in s.handled && Done(s.handled[i]);
    DoneShows(s.handled[i], t.state);
    hide Done, ShowsDone, Reason;
  }

  lemma DoneShows(h: Handled, f: StateFrame)
    requires Done(h) && h.reply == Some(f)
    ensures if f.ackOk then ShowsDone(h.cmd, f) else Reason(h.cmd, f.ackCode, f)
  {
  }

  /**
   * In every run, for a request posted with nothing pending on a live link: ACCEPTED means that the KRC carried out
   * exactly the posted command, once, and the returned state is its reply and shows it; a refusal by the KRC has its
   * reason, which the returned state shows as well.
   */
  lemma AnswersAreTruthful(c: Config, krc: Krc, es: seq<Event>)
    requires CanAll(c, Init(krc), es)
    ensures var s := Run(c, Init(krc), es); forall t :: t in s.returned && t.alone ==> Truthful(s, t)
  {
    hide ToldTruth, Inv, OrderInv, SendingInv, Truthful, Run;
    InitAnswers(krc);
    RunAnswers(c, Init(krc), es);
    OutcomeIsTrue(c, krc, es);
    var s := Run(c, Init(krc), es);
    forall t | t in s.returned && t.alone ensures Truthful(s, t) { ToldIsTruthful(s, t); }
  }

  lemma ToldIsTruthful(s: Sys, t: Returned)
    requires OrderInv(s) && t in s.returned && ToldTruth(s, t)
    ensures Truthful(s, t)
  {
    hide HandledOnce, Answers, ShowsDone, Reason, Done;
    if t.outcome == Accepted { AnsweredAsPosted(s, t, true); }
    if t.outcome == Rejected && t.code != ERR_NOT_CONNECTED { AnsweredAsPosted(s, t, false); }
  }

  /** What the caller is told when the link, not the KRC, refused. */
  ghost predicate LinkTold(s: Sys, t: Returned) {
    t.outcome == Rejected && t.code == ERR_NOT_CONNECTED ==>
      && t.state == NO_STATE && t.id !in s.sent
      && (forall h :: h in s.handled && h.cmd.id == t.id ==> t.id in s.broken)
  }

  lemma LinkToldStep(s: Sys, t: Returned)
    requires KrcInv(s) && SendInv(s) && ResolveInv(s) && SendingInv(s) && t in s.returned
    ensures LinkTold(s, t)
  {
    if t.outcome == Rejected && t.code == ERR_NOT_CONNECTED {
      var r :| r in s.resolved && Matches(r, t.id, ExecResult(t.outcome, t.code, t.state), t.alone);
      assert Justified(s, r) && LinkVerdict(s, r);
    }
  }

  /**
   * In every run, a caller that is told REJECTED for want of a link gets no state, and its command was not sent: the
   * KRC can have handled it only if its sending failed half way.
   */
  lemma RejectedWasNotSent(c: Config, krc: Krc, es: seq<Event>)
    requires CanAll(c, Init(krc), es)
    ensures var s := Run(c, Init(krc), es); forall t :: t in s.returned ==> LinkTold(s, t)
  {
    hide LinkInv, BeginInv, SendInv, KrcInv, ResolveInv, OrderInv, SendingInv, LinkTold, Run;
    InitAnswers(krc);
    RunAnswers(c, Init(krc), es);
    var s := Run(c, Init(krc), es);
    forall t | t in s.returned ensures LinkTold(s, t) { LinkToldStep(s, t); }
  }

  // ----- When the bridge connects -----

  /** The last of the connection requests and the connections made is a request to connect. */
  predicate Asked(es: seq<Event>, before: bool)
    decreases |es|
  {
    if es == [] then before
    else
      Asked(es[1..], match es[0] case RequestConnect(wanted) => wanted case Connected => false case _ => before)
  }

  function Connections(es: seq<Event>): nat {
    if es == [] then 0 else Connections(es[1..]) + if es[0].Connected? then 1 else 0
  }

  lemma {:induction false} DocumentsKeepLink(s: Shared, docs: seq<Option<StateFrame>>, now: real)
    ensures var t := DocumentsOf(s, docs, now);
            && t.connectRequested == s.connectRequested && t.wasConnectedOnce == s.wasConnectedOnce
            && t.reconnects == s.reconnects
    decreases |docs|
  {
    if docs != [] { DocumentsKeepLink(s, docs[..|docs| - 1], now); }
  }

  lemma LinkHistoryStep(c: Config, s: Sys, e: Event)
    requires Can(s, e)
    ensures var a, b := s.sh, Do(c, s, e).sh;
            && b.connectRequested == Asked([e], a.connectRequested)
            && b.wasConnectedOnce == (a.wasConnectedOnce || e.Connected?)
            && b.reconnects == a.reconnects + if e.Connected? && a.wasConnectedOnce then 1 else 0
  {
    hide HandleOf, StateFrameOf;
    assert [e][1..] == [];
    if e.Received? { DocumentsKeepLink(s.sh, e.docs, e.now); }
  }

  lemma {:induction false} LinkHistory(c: Config, s: Sys, es: seq<Event>)
    requires CanAll(c, s, es)
    ensures var a, b := s.sh, Run(c, s, es).sh; var n := Connections(es);
            && b.connectRequested == Asked(es, a.connectRequested)
            && b.wasConnectedOnce == (a.wasConnectedOnce || n > 0)
            && b.reconnects == a.reconnects + if a.wasConnectedOnce || n == 0 then n else n - 1
    decreases |es|
  {
    hide Do, Can;
    if es != [] {
      LinkHistoryStep(c, s, es[0]);
      assert [es[0]][1..] == [];
      LinkHistory(c, Do(c, s, es[0]), es[1..]);
    }
  }

  /**
   * In every run, a disconnected bridge tries to connect exactly when it reconnects by itself or a connection has been
   * asked for since the last one was made; it counts every connection but the first as a reconnection.
   */
  lemma ConnectsIff(c: Config, krc: Krc, es: seq<Event>)
    requires CanAll(c, Init(krc), es)
    ensures var s := Run(c, Init(krc), es);
            && (Can(s, Disconnected) ==>
                  (Do(c, s, Disconnected).pc.Connecting? <==> c.autoReconnect || Asked(es, false)))
            && s.sh.reconnects == if Connections(es) == 0 then 0 else Connections(es) - 1
  {
    LinkHistory(c, Init(krc), es);
  }

  /** A request that finds no link and no wish for one, or whose connection attempt fails, is rejected at once. */
  lemma UnreachableIsRejected(c: Config, s: Sys, post: Event) returns (es: seq<Event>)
    requires LinkInv(s) && post.Post? && Can(s, post) && Can(s, Disconnected)
    ensures 3 <= |es| <= 4 && es[..2] == [post, Disconnected] && es[|es| - 1] == Finish && CanAll(c, s, es)
    ensures (|es| == 4 <==> c.autoReconnect || s.sh.connectRequested) && (|es| == 4 ==> es[2] == ConnectFailed)
    ensures var t := Run(c, s, es);
            t.returned == s.returned + [Told(s.sh.nextSeq, ExecResult(Rejected, ERR_NOT_CONNECTED, NO_STATE), true)]
  {
    var want := c.autoReconnect || s.sh.connectRequested;
    es := [post, Disconnected] + (if want then [ConnectFailed] else []) + [Finish];
    var u := Do(c, s, post);
    var v := Do(c, u, Disconnected);
    var w := if want then Do(c, v, ConnectFailed) else v;
    var t := Do(c, w, Finish);
    assert [Finish][1..] == [];
    assert CanAll(c, w, [Finish]) && Run(c, w, [Finish]) == t;
    assert es[1..][1..] == (if want then [ConnectFailed, Finish] else [Finish]);
    assert want ==> [ConnectFailed, Finish][1..] == [Finish];
    assert CanAll(c, v, es[1..][1..]) && Run(c, v, es[1..][1..]) == t;
    assert CanAll(c, u, es[1..]) && Run(c, u, es[1..]) == t;
  }
}
