/** What the bridge reports about its session: the last state and its time, and counters that add up over every run. */
module EkiStatistics {
  import opened Types
  import opened EkiSession
  import opened EkiBridge
  import opened EkiRuns

  /** The documents that parse, in order. */
  function Parsed(docs: seq<Option<StateFrame>>): seq<StateFrame> {
    if docs == [] then []
    else Parsed(docs[..|docs| - 1]) + match docs[|docs| - 1] case None => [] case Some(f) => [f]
  }

  /** A state and when it came; none is known at first, and every new or lost link forgets it. */
  datatype Known = Known(state: StateFrame, at: real)
  const NOTHING := Known(NO_STATE, -1.0)

  function KnownAfter(e: Event, before: Known): Known {
    match e
    case Received(docs, now) => if Parsed(docs) == [] then before else Known(Parsed(docs)[|Parsed(docs)| - 1], now)
    case Connected => NOTHING
    case SendFails => NOTHING
    case LinkLost => NOTHING
    case _ => before
  }

  function LastKnown(es: seq<Event>): Known {
    if es == [] then NOTHING else KnownAfter(es[|es| - 1], LastKnown(es[..|es| - 1]))
  }

  function Good(es: seq<Event>): nat {
    if es == [] then 0
    else Good(es[..|es| - 1]) + if es[|es| - 1].Received? then |Parsed(es[|es| - 1].docs)| else 0
  }

  function Documents(es: seq<Event>): nat {
    if es == [] then 0
    else Documents(es[..|es| - 1]) + if es[|es| - 1].Received? then |es[|es| - 1].docs| else 0
  }

  lemma {:induction false} Batched(s: Shared, docs: seq<Option<StateFrame>>, now: real)
    ensures var a, b, ps := s.session, DocumentsOf(s, docs, now).session, Parsed(docs);
            && b.states == a.states + |ps| && b.badFrames + |ps| == a.badFrames + |docs|
            && (b.lastState, b.lastStateAt) == (if ps == [] then (a.lastState, a.lastStateAt) else (ps[|ps| - 1], now))
            && b.timeouts == a.timeouts
    decreases |docs|
  {
    if docs != [] { Batched(s, docs[..|docs| - 1], now); }
  }

  ghost predicate Reports(s: Session, es: seq<Event>) {
    && Known(s.lastState, s.lastStateAt) == LastKnown(es)
    && s.states == Good(es) && s.states + s.badFrames == Documents(es)
  }

  lemma ReportStep(c: Config, s: Sys, es: seq<Event>, e: Event)
    requires Can(s, e) && Reports(s.sh.session, es)
    ensures Reports(Do(c, s, e).sh.session, es + [e])
  {
    hide Parsed, LastKnown, Good, Documents, Do, Can;
    if e.Received? { ReadReports(c, s, e); } else { OtherReports(c, s, e); }
    OneMoreEvent(es, e);
  }

  lemma ReadReports(c: Config, s: Sys, e: Event)
    requires Can(s, e) && e.Received?
    ensures var a, b, ps := s.sh.session, Do(c, s, e).sh.session, Parsed(e.docs);
            && b.states == a.states + |ps| && b.badFrames + |ps| == a.badFrames + |e.docs|
            && Known(b.lastState, b.lastStateAt) == KnownAfter(e, Known(a.lastState, a.lastStateAt))
  {
    hide Parsed, DocumentsOf;
    Batched(s.sh, e.docs, e.now);
  }

  /** What a section without documents does to the last state and the counters of documents. */
  lemma OtherReports(c: Config, s: Sys, e: Event)
    requires Can(s, e) && !e.Received?
    ensures var a, b := s.sh.session, Do(c, s, e).sh.session;
            && b.states == a.states && b.badFrames == a.badFrames
            && Known(b.lastState, b.lastStateAt) == KnownAfter(e, Known(a.lastState, a.lastStateAt))
  {
    hide Do, Can;
    if e.Service? || e.Connected? || e.SendFails? || e.LinkLost? {
      SessionSections(c, s, e);
    } else {
      assert KnownAfter(e, Known(s.sh.session.lastState, s.sh.session.lastStateAt)) ==
             Known(s.sh.session.lastState, s.sh.session.lastStateAt);
      hide KnownAfter;
      SessionStays(c, s, e);
    }
  }

  lemma SessionStays(c: Config, s: Sys, e: Event)
    requires Can(s, e) && !e.Received? && !e.Service? && !e.Connected? && !e.SendFails? && !e.LinkLost?
    ensures Do(c, s, e).sh.session == s.sh.session
  {
    if Outside(e) {
      OutsideKeeps(c, s, e);
    } else {
      hide HandleOf, StateFrameOf, ReceivedOf, ConnectedOf, LinkLostOf, SendFailedOf, ServiceOf, Open;
      assert Do(c, s, e).sh.session == s.sh.session;
    }
    hide Do;
  }

  lemma SessionSections(c: Config, s: Sys, e: Event)
    requires Can(s, e) && (e.Service? || e.Connected? || e.SendFails? || e.LinkLost?)
    ensures var a, b := s.sh.session, Do(c, s, e).sh.session;
            && b.states == a.states && b.badFrames == a.badFrames
            && if e.Service? then b.lastState == a.lastState && b.lastStateAt == a.lastStateAt
               else b.lastState == NO_STATE && b.lastStateAt == -1.0
  {
    hide HandleOf, StateFrameOf, ReceivedOf;
  }

  lemma OneMoreEvent(es: seq<Event>, e: Event)
    ensures LastKnown(es + [e]) == KnownAfter(e, LastKnown(es))
    ensures Good(es + [e]) == Good(es) + if e.Received? then |Parsed(e.docs)| else 0
    ensures Documents(es + [e]) == Documents(es) + if e.Received? then |e.docs| else 0
  {
    assert (es + [e])[..|es|] == es;
  }

  lemma {:induction false} ReportRun(c: Config, s: Sys, before: seq<Event>, es: seq<Event>)
    requires CanAll(c, s, es) && Reports(s.sh.session, before)
    ensures Reports(Run(c, s, es).sh.session, before + es)
    decreases |es|
  {
    hide Do, Can, Reports;
    if es == [] {
      assert before + es == before;
    } else {
      ReportStep(c, s, before, es[0]);
      ReportRun(c, Do(c, s, es[0]), before + [es[0]], es[1..]);
      assert before + [es[0]] + es[1..] == before + es;
    }
  }

  /**
   * In every run the session knows the last state document since the link was made, and when it came; its counters of
   * good and bad documents make up every document received.
   */
  lemma ReportsAreTrue(c: Config, krc: Krc, es: seq<Event>)
    requires CanAll(c, Init(krc), es)
    ensures Reports(Run(c, Init(krc), es).sh.session, es)
  {
    ReportRun(c, Init(krc), [], es);
    assert [] + es == es;
  }

  // ----- How a pending command ends -----

  predicate Acknowledges(f: StateFrame, id: nat) { f.ackSeq == id && id != 0 }

  ghost predicate SomeAcknowledges(docs: seq<Option<StateFrame>>, id: nat) {
    exists d :: d in docs && d.Some? && Acknowledges(d.value, id)
  }

  lemma {:induction false} BatchEnds(s: Shared, docs: seq<Option<StateFrame>>, now: real)
    requires s.session.pending
    ensures var a, b := s.session, DocumentsOf(s, docs, now).session;
            b.pendingSeq == a.pendingSeq && (b.pending <==> !SomeAcknowledges(docs, a.pendingSeq))
              && (b.pending ==> b.pendingSince == a.pendingSince)
    decreases |docs|
  {
    if docs != [] {
      var front, d := docs[..|docs| - 1], docs[|docs| - 1];
      BatchEnds(s, front, now);
      assert forall x :: x in docs <==> x in front || x == d;
    }
  }

  /** An acknowledgement of the pending command is among these documents. */
  ghost predicate Acknowledged(s: Sys, e: Event) {
    e.Received? && SomeAcknowledges(e.docs, s.sh.session.pendingSeq)
  }

  /** The link is given up, or the deadline is over when the documents of a read have been looked at. */
  predicate Expired(c: Config, s: Sys, e: Event) {
    || e.Connected? || e.SendFails? || e.LinkLost?
    || (e.Received? && e.now - s.sh.session.pendingSince > c.responseTimeout)
  }

  /**
   * In every step, a pending command ends exactly when it is acknowledged or has expired, and it is counted as a
   * timeout exactly when it has expired without an acknowledgement.
   */
  lemma PendingEndsIff(c: Config, s: Sys, e: Event)
    requires Can(s, e) && s.sh.session.pending
    ensures var a, b := s.sh.session, Do(c, s, e).sh.session;
            && (b.pending <==> !Acknowledged(s, e) && !Expired(c, s, e))
            && b.timeouts == a.timeouts + if Expired(c, s, e) && !Acknowledged(s, e) then 1 else 0
  {
    hide HandleOf, StateFrameOf;
    if e.Received? {
      BatchEnds(s.sh, e.docs, e.now);
      Batched(s.sh, e.docs, e.now);
    }
  }

  /** Without a pending command no timeout is counted. */
  lemma NothingToTimeOut(c: Config, s: Sys, e: Event)
    requires Can(s, e) && !s.sh.session.pending
    ensures Do(c, s, e).sh.session.timeouts == s.sh.session.timeouts
  {
    hide HandleOf, StateFrameOf;
    if e.Received? {
      Batched(s.sh, e.docs, e.now);
      NothingPending(s.sh, e.docs, e.now);
    }
  }

  lemma {:induction false} NothingPending(s: Shared, docs: seq<Option<StateFrame>>, now: real)
    requires !s.session.pending
    ensures !DocumentsOf(s, docs, now).session.pending
    decreases |docs|
  {
    if docs != [] { NothingPending(s, docs[..|docs| - 1], now); }
  }
}
