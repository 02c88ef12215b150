/**
 * The same interleavings with clocks: `execute` gives up at its own deadline, and while a command is pending the io
 * thread comes round at least once per period. What the extra second of that deadline buys, and what it does not.
 */
module EkiTime {
  import opened RealMath
  import opened Types
  import opened EkiSession
  import opened EkiBridge
  import opened EkiRuns

  /** Time now, of the latest post, and of the io thread's latest begin or deadline check. */
  datatype Clocked = Clocked(s: Sys, now: real, posted: real, turned: real)

  datatype Timed = Timed(e: Event, at: real)

  /** How long `execute` waits: the response timeout, cut to milliseconds, plus a second. */
  function Patience(c: Config): real { (Trunc(c.responseTimeout * 1000.0) + 1000) as real / 1000.0 }

  predicate OnTime(e: Event, at: real) {
    match e
    case Service(now, _) => now == at
    case Received(_, now) => now == at
    case _ => true
  }

  predicate Possible(c: Config, period: real, t: Clocked, x: Timed) {
    && Can(t.s, x.e) && OnTime(x.e, x.at) && x.at >= t.now
    && (x.e.Finish? && !t.s.sh.resultReady ==> x.at >= t.posted + Patience(c))
    && (t.s.sh.session.pending ==> x.at <= t.turned + period)
  }

  predicate Begins(s: Sys, x: Timed) { x.e.Service? && Can(s, x.e) && Open(s.sh) && !s.sh.session.pending }

  function Next(c: Config, t: Clocked, x: Timed): Clocked
    requires Can(t.s, x.e)
  {
    Clocked(Do(c, t.s, x.e), x.at, if x.e.Post? then x.at else t.posted,
            if x.e.Received? || Begins(t.s, x) then x.at else t.turned)
  }

  function Start(krc: Krc): Clocked { Clocked(Init(krc), 0.0, 0.0, 0.0) }

  predicate PossibleAll(c: Config, period: real, t: Clocked, xs: seq<Timed>)
    decreases |xs|
  {
    xs == [] || (Possible(c, period, t, xs[0]) && PossibleAll(c, period, Next(c, t, xs[0]), xs[1..]))
  }

  function RunTimed(c: Config, period: real, t: Clocked, xs: seq<Timed>): Clocked
    requires PossibleAll(c, period, t, xs)
    decreases |xs|
  {
    if xs == [] then t else RunTimed(c, period, Next(c, t, xs[0]), xs[1..])
  }

  // ----- A command that outlives its request was begun late -----

  /** The deadline check has been made since the pending command's deadline, or the deadline is still ahead. */
  predicate Checked(c: Config, t: Clocked) {
    t.s.sh.session.pending ==> t.turned - t.s.sh.session.pendingSince <= c.responseTimeout
  }

  /** Begun so early after its post that its deadline, and the check of it, come before `execute` gives up. */
  predicate Early(c: Config, period: real, posted: real, begun: real) {
    begun + c.responseTimeout + period < posted + Patience(c)
  }

  /** A command still pending when `execute` gives up was begun late: within its last second, less one loop period. */
  lemma GivingUpLate(c: Config, period: real, t: Clocked, x: Timed)
    requires Checked(c, t) && x.e.Finish? && !t.s.sh.resultReady && Possible(c, period, t, x)
    ensures t.s.sh.session.pending ==> !Early(c, period, t.posted, t.s.sh.session.pendingSince)
  {
  }

  lemma {:induction false} DocumentsKeep(s: Shared, docs: seq<Option<StateFrame>>, now: real)
    ensures var t := DocumentsOf(s, docs, now);
            && t.session.pendingSince == s.session.pendingSince && t.session.pendingSeq == s.session.pendingSeq
            && t.req == s.req && (t.session.pending ==> s.session.pending)
            && (s.session.pending && Open(s) && !Open(t) ==> !t.session.pending)
            && (Open(t) ==> Open(s))
    decreases |docs|
  {
    if docs != [] { DocumentsKeep(s, docs[..|docs| - 1], now); }
  }

  lemma ReceivedKeeps(s: Shared, docs: seq<Option<StateFrame>>, now: real, timeout: real)
    ensures var t := ReceivedOf(s, docs, now, timeout);
            && t.session.pendingSince == s.session.pendingSince && t.session.pendingSeq == s.session.pendingSeq
            && t.req == s.req && (t.session.pending ==> s.session.pending && now - s.session.pendingSince <= timeout)
            && (s.session.pending && Open(s) && !Open(t) ==> !t.session.pending)
  {
    DocumentsKeep(s, docs, now);
  }

  lemma CheckedStep(c: Config, period: real, t: Clocked, x: Timed)
    requires c.responseTimeout >= 0.0 && Checked(c, t) && Possible(c, period, t, x)
    ensures Checked(c, Next(c, t, x))
  {
    hide HandleOf, StateFrameOf, ReceivedOf, Patience, Do;
    if x.e.Received? {
      ReceivedKeeps(t.s.sh, x.e.docs, x.at, c.responseTimeout);
      assert Do(c, t.s, x.e).sh == ReceivedOf(t.s.sh, x.e.docs, x.at, c.responseTimeout) by {
        ReceivedDoes(c, t.s, x.e);
      }
    } else {
      OthersKeep(c, t.s, x.e);
    }
  }

  lemma ReceivedDoes(c: Config, s: Sys, e: Event)
    requires e.Received? && Can(s, e)
    ensures Do(c, s, e).sh == ReceivedOf(s.sh, e.docs, e.now, c.responseTimeout)
  {
    hide ReceivedOf;
  }

  /** What is pending was pending, or is begun now. */
  lemma OthersKeep(c: Config, s: Sys, e: Event)
    requires Can(s, e) && !e.Received?
    ensures var r, t := s.sh.session, Do(c, s, e).sh.session;
            t.pending ==> if e.Service? && Open(s.sh) && !r.pending then t.pendingSince == e.now
                          else r.pending && t.pendingSince == r.pendingSince
  {
    hide HandleOf, StateFrameOf;
    match e {
      case Service(now, _) =>
      case Disconnected => assert Do(c, s, e).sh.session == s.sh.session;
      case ConnectFailed => assert Do(c, s, e).sh.session == s.sh.session;
      case Connected => assert !Do(c, s, e).sh.session.pending;
      case SendFails => assert !Do(c, s, e).sh.session.pending;
      case LinkLost => assert !Do(c, s, e).sh.session.pending;
      case _ =>
    }
  }

  // ----- Prompt runs: every outcome is the request's own -----

  /** Every command of the run is begun early. */
  predicate AllEarly(c: Config, period: real, t: Clocked, xs: seq<Timed>)
    requires PossibleAll(c, period, t, xs)
    decreases |xs|
  {
    xs == [] || ((Begins(t.s, xs[0]) ==> Early(c, period, t.posted, xs[0].at))
      && AllEarly(c, period, Next(c, t, xs[0]), xs[1..]))
  }

  /** Only the open request's own command is ever pending, and it was begun early. */
  predicate OwnPending(c: Config, period: real, t: Clocked) {
    var sh := t.s.sh;
    sh.session.pending ==>
      Open(sh) && sh.session.pendingSeq == sh.req.id && Early(c, period, t.posted, sh.session.pendingSince)
  }

  ghost predicate AllAlone(s: Sys) {
    s.alone && (forall r :: r in s.resolved ==> r.alone) && forall t :: t in s.returned ==> t.alone
  }

  lemma OwnPendingStep(c: Config, period: real, t: Clocked, x: Timed)
    requires Checked(c, t) && OwnPending(c, period, t) && LinkInv(t.s) && Possible(c, period, t, x)
    requires Begins(t.s, x) ==> Early(c, period, t.posted, x.at)
    ensures OwnPending(c, period, Next(c, t, x))
  {
    hide HandleOf, StateFrameOf, ReceivedOf, Early, Patience;
    if Outside(x.e) {
      OutsideKeeps(c, t.s, x.e);
    } else if x.e.Received? {
      ReceivedKeeps(t.s.sh, x.e.docs, x.at, c.responseTimeout);
    } else if x.e.Finish? && !t.s.sh.resultReady {
      GivingUpLate(c, period, t, x);
    }
  }

  lemma AloneStepTimed(c: Config, period: real, t: Clocked, x: Timed)
    requires OwnPending(c, period, t) && AllAlone(t.s) && Possible(c, period, t, x)
    ensures AllAlone(Next(c, t, x).s)
  {
    hide HandleOf, StateFrameOf, ReceivedOf, Early;
    if Outside(x.e) { OutsideKeeps(c, t.s, x.e); }
  }

  lemma {:induction false} PromptRunKeeps(c: Config, period: real, t: Clocked, xs: seq<Timed>)
    requires c.responseTimeout >= 0.0 && PossibleAll(c, period, t, xs) && AllEarly(c, period, t, xs)
    requires Inv(t.s) && Checked(c, t) && OwnPending(c, period, t) && AllAlone(t.s)
    ensures var u := RunTimed(c, period, t, xs).s; Inv(u) && AllAlone(u)
    decreases |xs|
  {
    hide Possible, Begins, Early, Checked, OwnPending, AllAlone, Do, LinkInv, BeginInv, SendInv, KrcInv, ResolveInv;
    if xs != [] {
      var x := xs[0];
      assert Can(t.s, x.e) by { ImpliesCan(c, period, t, x); }
      StepKeeps(c, t.s, x.e);
      CheckedStep(c, period, t, x);
      OwnPendingStep(c, period, t, x);
      AloneStepTimed(c, period, t, x);
      PromptRunKeeps(c, period, Next(c, t, x), xs[1..]);
    }
  }

  lemma ImpliesCan(c: Config, period: real, t: Clocked, x: Timed)
    requires Possible(c, period, t, x)
    ensures Can(t.s, x.e)
  {
  }

  lemma StepKeeps(c: Config, s: Sys, e: Event)
    requires Can(s, e) && Inv(s)
    ensures Inv(Do(c, s, e))
  {
    hide Do, LinkInv, BeginInv, SendInv, KrcInv, ResolveInv;
    LinkStep(c, s, e);
    BeginStep(c, s, e);
    SendStep(c, s, e);
    KrcStep(c, s, e);
    ResolveStep(c, s, e);
  }

  /**
   * If every command is begun less than the response timeout and one loop period before its `execute` gives up, which
   * is almost a second after its post, then every outcome of a run comes from the request's own command or from the
   * link, and every caller is told what the KRC did.
   */
  lemma PromptRunsAreOwn(c: Config, period: real, krc: Krc, xs: seq<Timed>)
    requires c.responseTimeout >= 0.0 && PossibleAll(c, period, Start(krc), xs) && AllEarly(c, period, Start(krc), xs)
    ensures var s := RunTimed(c, period, Start(krc), xs).s;
            && (forall r :: r in s.resolved ==> r.about == None || r.about == Some(r.id))
            && forall t :: t in s.returned ==> ToldTruth(s, t)
  {
    hide PossibleAll, AllEarly, RunTimed, ToldTruth, LinkInv, BeginInv, SendInv, KrcInv;
    InitIsFine(krc);
    PromptRunKeeps(c, period, Start(krc), xs);
    var s := RunTimed(c, period, Start(krc), xs).s;
    forall t | t in s.returned ensures ToldTruth(s, t) { AloneToldTruth(s, t); }
  }

  /** The second that `execute` adds is a second less the cut to milliseconds. */
  lemma PatienceIs(c: Config)
    requires c.responseTimeout >= 0.0
    ensures c.responseTimeout + 0.999 < Patience(c) <= c.responseTimeout + 1.0
  {
    var x := c.responseTimeout * 1000.0;
    assert Trunc(x) as real <= x < Trunc(x) as real + 1.0;
  }

  // ----- A late begin: a caller is told ACCEPTED about a request that the KRC never saw -----

  ghost predicate Reached(c: Config, period: real, krc: Krc, t: Clocked) {
    exists xs :: PossibleAll(c, period, Start(krc), xs) && RunTimed(c, period, Start(krc), xs) == t
  }

  lemma {:induction false} OneMore(c: Config, period: real, t: Clocked, xs: seq<Timed>, x: Timed)
    requires PossibleAll(c, period, t, xs) && Possible(c, period, RunTimed(c, period, t, xs), x)
    ensures PossibleAll(c, period, t, xs + [x])
    ensures RunTimed(c, period, t, xs + [x]) == Next(c, RunTimed(c, period, t, xs), x)
    decreases |xs|
  {
    hide Possible, Next;
    if xs == [] {
      assert [x][1..] == [];
    } else {
      assert (xs + [x])[1..] == xs[1..] + [x];
      ImpliesCan(c, period, t, xs[0]);
      OneMore(c, period, Next(c, t, xs[0]), xs[1..], x);
    }
  }

  lemma Reach(c: Config, period: real, krc: Krc, t: Clocked, x: Timed) returns (u: Clocked)
    requires Reached(c, period, krc, t) && Possible(c, period, t, x)
    ensures u == Next(c, t, x) && Reached(c, period, krc, u)
  {
    hide Possible, Next;
    u := Next(c, t, x) by { ImpliesCan(c, period, t, x); }
    var xs :| PossibleAll(c, period, Start(krc), xs) && RunTimed(c, period, Start(krc), xs) == t;
    OneMore(c, period, Start(krc), xs, x);
  }

  /** The defaults: two seconds for a response, a second of back-off and a second for a connection attempt. */
  const CONFIG := Config(true, 2.0)
  /** Twice the receive timeout. */
  const PERIOD := 0.1
  const KRC := Krc(true, false, false, 0, ZERO_FRAME, true, 0)
  const QUERY := Post(QueryState, 0, ZERO_FRAME, ZERO_FRAME)
  const FIRST := Command(1, QueryState, 0, ZERO_FRAME, ZERO_FRAME)
  const ACK := StateFrameOf(KRC, 1, true, ERR_OK)

  /** The first command is on its way, begun two seconds after its post; the io thread waits for bytes. */
  predicate OnItsWay(t: Clocked, at: real) {
    && t.s.krc == KRC && t.s.handled == [] && t.s.returned == [] && t.s.cmds == {FIRST} && t.s.acks == {}
       && t.s.pc == Receiving
    && t.s.up && t.s.sh.nextSeq == 2 && t.now == at == t.turned && t.posted == 0.0
    && t.s.sh.session.pending && t.s.sh.session.pendingSeq == 1 && t.s.sh.session.pendingSince == 2.0
  }

  /** Connected two seconds after the post. */
  predicate Waiting(t: Clocked) {
    && t.s.krc == KRC && t.s.handled == [] && t.s.returned == [] && t.s.cmds == {} && t.s.acks == {} && t.s.pc == Top
    && t.s.up && t.s.sh.nextSeq == 2 && t.now == 2.0 && t.posted == 0.0
    && !t.s.sh.session.pending && Open(t.s.sh) && t.s.sh.req == FIRST
  }

  /** Posted just after a failed connection attempt: a second of back-off and a second to connect go by. */
  lemma ConnectedLate() returns (t: Clocked)
    ensures Reached(CONFIG, PERIOD, KRC, t) && Waiting(t)
  {
    hide Reached;
    t := Start(KRC);
    assert Reached(CONFIG, PERIOD, KRC, t) by { StartIsReached(); }
    t := Reach(CONFIG, PERIOD, KRC, t, Timed(Disconnected, 0.0));
    t := Reach(CONFIG, PERIOD, KRC, t, Timed(ConnectFailed, 0.0));
    t := Reach(CONFIG, PERIOD, KRC, t, Timed(QUERY, 0.0));
    assert Open(t.s.sh) && t.s.sh.req == FIRST && !t.s.sh.session.pending && t.s.pc == Top && !t.s.up;
    t := Reach(CONFIG, PERIOD, KRC, t, Timed(Disconnected, 1.0));
    t := Reach(CONFIG, PERIOD, KRC, t, Timed(Connected, 2.0));
  }

  lemma BegunLate() returns (t: Clocked)
    ensures Reached(CONFIG, PERIOD, KRC, t) && OnItsWay(t, 2.0) && Open(t.s.sh) && t.s.sh.req == FIRST
  {
    hide Reached;
    t := ConnectedLate();
    t := Reach(CONFIG, PERIOD, KRC, t, Timed(Service(2.0, true), 2.0));
    assert t.s.pc == Sending(FIRST) && t.turned == 2.0;
    t := Reach(CONFIG, PERIOD, KRC, t, Timed(Sent, 2.0));
  }

  lemma StartIsReached()
    ensures Reached(CONFIG, PERIOD, KRC, Start(KRC))
  {
    assert PossibleAll(CONFIG, PERIOD, Start(KRC), []) && RunTimed(CONFIG, PERIOD, Start(KRC), []) == Start(KRC);
  }

  /** A loop turn in which nothing arrives. */
  lemma EmptyTurn(t: Clocked, at: real) returns (u: Clocked)
    requires Reached(CONFIG, PERIOD, KRC, t) && OnItsWay(t, t.now) && t.now <= at <= t.now + 0.05 && at <= 4.0
    ensures Reached(CONFIG, PERIOD, KRC, u) && OnItsWay(u, at) && u.s.sh == t.s.sh
  {
    hide Reached;
    NoDocuments(t.s.sh, at);
    u := Reach(CONFIG, PERIOD, KRC, t, Timed(Received([], at), at));
    u := Reach(CONFIG, PERIOD, KRC, u, Timed(Service(at, true), at));
  }

  lemma NoDocuments(s: Shared, now: real)
    ensures DocumentsOf(s, [], now) == s
  {
  }

  /** Twenty turns later `execute` gives up, and the next request is posted. */
  lemma SecondPosted() returns (t: Clocked)
    ensures Reached(CONFIG, PERIOD, KRC, t)
            && OnItsWay(t.(s := t.s.(returned := [], sh := t.s.sh.(nextSeq := 2)), posted := 0.0), 3.0)
    ensures |t.s.returned| == 1 && t.s.returned[0].id == 1 && Open(t.s.sh) && t.s.sh.req.id == 2
  {
    hide Reached;
    t := BegunLate();
    for k := 0 to 20
      invariant Reached(CONFIG, PERIOD, KRC, t) && OnItsWay(t, 2.0 + k as real * 0.05) && Open(t.s.sh)
                && t.s.sh.req == FIRST
    {
      t := EmptyTurn(t, 2.0 + (k + 1) as real * 0.05);
    }
    t := Reach(CONFIG, PERIOD, KRC, t, Timed(Finish, 3.0));
    t := Reach(CONFIG, PERIOD, KRC, t, Timed(QUERY, 3.0));
  }

  /** The first command is handled, and its reply resolves the second request. */
  lemma FirstReplied() returns (t: Clocked)
    ensures Reached(CONFIG, PERIOD, KRC, t) && t.now == 3.05 && Can(t.s, Finish) && t.s.sh.resultReady
    ensures t.s.sh.result.outcome == Accepted && t.s.sh.req.id == 2 && !t.s.sh.session.pending
    ensures |t.s.returned| == 1 && |t.s.handled| == 1 && t.s.handled[0].cmd.id == 1
  {
    hide Reached;
    t := SecondPosted();
    t := Reach(CONFIG, PERIOD, KRC, t, Timed(Handle(FIRST), 3.0));
    assert t.s.acks == {ACK} && |t.s.handled| == 1 && t.s.handled[0].cmd.id == 1;
    OneDocument(t.s.sh, ACK, 3.05);
    t := Reach(CONFIG, PERIOD, KRC, t, Timed(Received([Some(ACK)], 3.05), 3.05));
  }

  /**
   * With the default times: a request waits out the back-off, is begun, and given up a second later; its reply, well
   * within its own deadline, then answers the next request, which the KRC has not even received.
   */
  lemma OutcomeCanBeForeign()
    ensures exists t :: Reached(CONFIG, PERIOD, KRC, t) &&
              exists r ::
                r in t.s.returned && r.outcome == Accepted && forall h :: h in t.s.handled ==> h.cmd.id != r.id
  {
    hide Reached, OnItsWay;
    var t := FirstReplied();
    t := Reach(CONFIG, PERIOD, KRC, t, Timed(Finish, 3.05));
    assert t.s.returned[1].id == 2 && t.s.returned[1].outcome == Accepted;
    assert t.s.returned[1] in t.s.returned;
  }
}
