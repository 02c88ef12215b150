/** Sequence gaps count exactly the breaks in the numbering, and a tare is what it claims to be. */
module SriSessionLaws {
  import opened SriFrame
  import opened Types
  import opened SriSession
  import SriLaws

  // ----- Sequence gaps -----

  predicate Follows(pn: nat, last: nat) { pn == (last + 1) % 0x1_0000 }

  /** The adjacent pairs of samples whose package numbers do not follow each other. */
  function Breaks(raw: seq<Sample>): nat {
    if |raw| < 2 then 0
    else Breaks(raw[..|raw| - 1]) + if Follows(raw[|raw| - 1].pn, raw[|raw| - 2].pn) then 0 else 1
  }

  lemma {:induction false} GapsAreBreaks(c: Config, s: Session, raw: seq<Sample>, wrench: Sample -> Wrench,
                                         cutoff: real)
    requires Sane(c, s) && c.rate > 0.0 && !s.havePn
    ensures var t := SamplesOf(c, s, raw, wrench, cutoff).0;
            && t.gaps == s.gaps + Breaks(raw) && t.samples == s.samples + |raw|
            && (t.havePn <==> raw != []) && (raw != [] ==> t.lastPn == raw[|raw| - 1].pn)
    decreases |raw|
  {
    if raw != [] { GapsAreBreaks(c, s, raw[..|raw| - 1], wrench, cutoff); }
  }

  /** Frame i carries package number (first + i) mod 2^16: nothing was lost between encoder and decoder. */
  predicate Lossless(gs: seq<SriLaws.Segment>, first: nat) {
    forall i :: 0 <= i < |gs| ==> gs[i].pn == (first + i) % 0x1_0000
  }

  lemma {:induction false} LosslessHasNoBreaks(gs: seq<SriLaws.Segment>, first: nat)
    requires Lossless(gs, first)
    ensures Breaks(SriLaws.Samples(gs)) == 0
    decreases |gs|
  {
    if |gs| >= 2 {
      LosslessHasNoBreaks(gs[..|gs| - 1], first);
      assert SriLaws.Samples(gs)[..|gs| - 1] == SriLaws.Samples(gs[..|gs| - 1]);
      Successor(first + |gs| - 2);
    }
  }

  lemma Successor(n: nat)
    ensures (n + 1) % 0x1_0000 == (n % 0x1_0000 + 1) % 0x1_0000
  {
  }

  /** A lossless stream, cut anywhere, keeps the gap counter of a new connection, also across the wrap. */
  lemma LosslessStreamHasNoGaps(a: Assembler, gs: seq<SriLaws.Segment>, first: nat, tail: seq<byte>,
                                chunks: seq<seq<byte>>,
                                c: Config, s: Session, wrench: Sample -> Wrench, cutoff: real)
    requires WellFormed(a) && a.state == Sync1 && SriLaws.AllProper(gs) && Lossless(gs, first) && SriLaws.NoSync(tail)
    requires SriLaws.Flatten(chunks) == SriLaws.Stream(gs) + tail
    requires Sane(c, s) && c.rate > 0.0 && !s.havePn
    ensures SamplesOf(c, s, SriLaws.RunAll(a, chunks).1, wrench, cutoff).0.gaps == s.gaps
  {
    SriLaws.RoundTrip(a, gs, tail, chunks);
    LosslessHasNoBreaks(gs, first);
    GapsAreBreaks(c, s, SriLaws.Samples(gs), wrench, cutoff);
  }

  // ----- The tare, with one requester -----

  datatype Raw = Raw(connection: nat, w: Wrench)

  function Wrenches(raw: seq<Raw>): seq<Wrench> { seq(|raw|, i requires 0 <= i < |raw| => raw[i].w) }

  datatype Event = Sampled(pn: nat, w: Wrench, cutoff: real) | Reconnected | Requested | Polled | Deadline

  /** What `requestZero` returned, and the bias at that moment. */
  datatype Answer = Answer(ok: bool, mark: nat, bias: Wrench)

  /** `raw` is every sample so far; `mark` is how many there were at the last request. */
  datatype Tare = Tare(s: Session, connection: nat, raw: seq<Raw>, waiting: bool, mark: nat, answers: seq<Answer>)
  const NEW_TARE := Tare(NEW_SESSION, 0, [], false, 0, [])

  predicate Can(t: Tare, e: Event) {
    match e
    case Sampled(_, _, _) => true
    case Reconnected => true
    case Requested => !t.waiting
    case Polled => t.waiting
    case Deadline => t.waiting
  }

  function AnswerOf(t: Tare, ok: bool): Tare {
    t.(waiting := false, answers := t.answers + [Answer(ok, t.mark, t.s.bias)])
  }

  /** The critical sections of the receiver and of `requestZero`. */
  function Do(c: Config, t: Tare, e: Event): (r: Tare)
    requires Can(t, e) && Sane(c, t.s) && c.rate > 0.0
    ensures Sane(c, r.s)
  {
    match e
    case Sampled(pn, w, cutoff) =>
      t.(s := SampleOf(c, t.s, pn, w, cutoff).0, raw := t.raw + [Raw(t.connection, w)])
    case Reconnected => t.(s := ResetOf(t.s), connection := t.connection + 1)
    case Requested => t.(s := StartZeroOf(c, t.s), waiting := true, mark := |t.raw|)
    case Polled => if t.s.remaining > 0 then t else AnswerOf(t, t.s.lastZeroOk)
    case Deadline =>
      if t.s.remaining > 0 then AnswerOf(t, false).(s := CancelZeroOf(t.s)) else AnswerOf(t, t.s.lastZeroOk)
  }

  predicate CanAll(c: Config, t: Tare, es: seq<Event>)
    requires Sane(c, t.s) && c.rate > 0.0
    decreases |es|
  {
    es == [] || (Can(t, es[0]) && CanAll(c, Do(c, t, es[0]), es[1..]))
  }

  function Run(c: Config, t: Tare, es: seq<Event>): Tare
    requires Sane(c, t.s) && c.rate > 0.0 && CanAll(c, t, es)
    decreases |es|
  {
    if es == [] then t else Run(c, Do(c, t, es[0]), es[1..])
  }

  /**
   * The bias is the mean of the n samples from position i on; they came over one connection, and it is within the
   * limit.
   */
  ghost predicate Captured(c: Config, raw: seq<Raw>, i: nat, bias: Wrench) {
    && c.zeroCount > 0 && i + c.zeroCount <= |raw|
    && (forall k :: i <= k < i + c.zeroCount ==> raw[k].connection == raw[i].connection)
    && bias == Over(Total(Wrenches(raw[i..i + c.zeroCount])), c.zeroCount)
    && !OverLimit(bias, c.biasLimit)
  }

  ghost predicate Inv(c: Config, t: Tare) {
    && t.mark <= |t.raw|
    && (t.s.bias == ZERO || exists i: nat :: Captured(c, t.raw, i, t.s.bias))
    && (t.s.remaining > 0 ==>
          && t.waiting && |t.raw| == t.mark + c.zeroCount - t.s.remaining
          && (forall k :: t.mark <= k < |t.raw| ==> t.raw[k].connection == t.connection)
          && t.s.accum == Total(Wrenches(t.raw[t.mark..])))
    && (c.zeroCount <= 0 ==> !t.s.lastZeroOk)
    && (t.waiting && t.s.remaining <= 0 && t.s.lastZeroOk ==> Captured(c, t.raw, t.mark, t.s.bias))
    && (forall a :: a in t.answers && a.ok ==> Captured(c, t.raw, a.mark, a.bias))
  }

  lemma CapturedGrows(c: Config, raw: seq<Raw>, r: Raw, i: nat, bias: Wrench)
    requires Captured(c, raw, i, bias)
    ensures Captured(c, raw + [r], i, bias)
  {
    assert (raw + [r])[i..i + c.zeroCount] == raw[i..i + c.zeroCount];
  }

  /** One more sample of the capture in progress adds to its sum. */
  lemma SumGrows(raw: seq<Raw>, r: Raw, mark: nat)
    requires mark <= |raw|
    ensures Total(Wrenches((raw + [r])[mark..])) == Add(Total(Wrenches(raw[mark..])), r.w)
  {
    hide Add;
    var ws := Wrenches(raw[mark..]);
    assert (raw + [r])[mark..] == raw[mark..] + [r];
    assert Wrenches((raw + [r])[mark..]) == ws + [r.w] && (ws + [r.w])[..|ws|] == ws;
  }

  /**
   * The last sample of a capture: accepted, it is the mean of the samples since the request; rejected, nothing changes.
   */
  lemma CaptureEnds(c: Config, s: Session, pn: nat, w: Wrench, cutoff: real, raw: seq<Raw>, mark: nat)
    requires Sane(c, s) && c.rate > 0.0 && s.remaining == 1 && mark + c.zeroCount == |raw|
    requires forall k :: mark <= k < |raw| ==> raw[k].connection == raw[mark].connection
    requires Add(s.accum, w) == Total(Wrenches(raw[mark..]))
    ensures var u := SampleOf(c, s, pn, w, cutoff).0;
            u.remaining == 0 && if u.lastZeroOk then Captured(c, raw, mark, u.bias) else u.bias == s.bias
  {
    hide Add, Over, OverLimit, FilterOf, Total, Wrenches;
    assert raw[mark..mark + c.zeroCount] == raw[mark..];
  }

  lemma SampleStep(c: Config, t: Tare, e: Event)
    requires Sane(c, t.s) && c.rate > 0.0 && e.Sampled? && Inv(c, t)
    ensures Inv(c, Do(c, t, e))
  {
    hide Captured, Add, Over, OverLimit, FilterOf, Total, Wrenches;
    var r, u := Raw(t.connection, e.w), Do(c, t, e);
    assert u.raw == t.raw + [r];
    forall a | a in t.answers && a.ok ensures Captured(c, u.raw, a.mark, a.bias) {
      CapturedGrows(c, t.raw, r, a.mark, a.bias);
    }
    if t.s.bias != ZERO {
      var i: nat :| Captured(c, t.raw, i, t.s.bias);
      CapturedGrows(c, t.raw, r, i, t.s.bias);
    }
    if t.s.remaining > 0 {
      SumGrows(t.raw, r, t.mark);
      if t.s.remaining == 1 { CaptureEnds(c, t.s, e.pn, e.w, e.cutoff, u.raw, t.mark); }
    } else if t.waiting && t.s.lastZeroOk {
      CapturedGrows(c, t.raw, r, t.mark, t.s.bias);
    }
  }

  lemma {:induction false} RunKeeps(c: Config, t: Tare, es: seq<Event>)
    requires Sane(c, t.s) && c.rate > 0.0 && CanAll(c, t, es) && Inv(c, t)
    ensures Inv(c, Run(c, t, es))
    decreases |es|
  {
    if es != [] {
      hide Captured, SampleOf;
      if es[0].Sampled? { SampleStep(c, t, es[0]); }
      if es[0].Requested? { assert t.raw[|t.raw|..] == []; }
      RunKeeps(c, Do(c, t, es[0]), es[1..]);
    }
  }

  /**
   * At all times the bias is zero or the mean of exactly zeroCount consecutive samples of one connection,
   * within the limit; `requestZero` answers true only if those samples directly followed its own request, and
   * the bias is then their mean.
   */
  lemma TareIsHonest(c: Config, es: seq<Event>)
    requires c.rate > 0.0 && CanAll(c, NEW_TARE, es)
    ensures var t := Run(c, NEW_TARE, es);
            && (t.s.bias == ZERO || exists i: nat :: Captured(c, t.raw, i, t.s.bias))
            && forall a :: a in t.answers && a.ok ==> Captured(c, t.raw, a.mark, a.bias)
  {
    RunKeeps(c, NEW_TARE, es);
  }

  // ----- A tare without losses -----

  function Values(es: seq<Event>): seq<Wrench>
    requires forall e :: e in es ==> e.Sampled?
  {
    seq(|es|, i requires 0 <= i < |es| => assert es[i] in es; es[i].w)
  }

  /** Whether the mean of these wrenches is taken over, and the bias that results. */
  ghost predicate TakenOver(c: Config, before: Wrench, ws: seq<Wrench>, ok: bool, bias: Wrench)
    requires c.zeroCount != 0
  {
    var mean := Over(Total(ws), c.zeroCount);
    (ok <==> !OverLimit(mean, c.biasLimit)) && bias == if ok then mean else before
  }

  lemma TotalSnoc(ws: seq<Wrench>, w: Wrench)
    ensures Total(ws + [w]) == Add(Total(ws), w)
  {
    hide Add;
    assert (ws + [w])[..|ws|] == ws;
  }

  /** One sample of a running capture that already summed up `done`. */
  lemma CaptureOne(c: Config, t: Tare, e: Event, done: seq<Wrench>)
    requires c.rate > 0.0 && c.zeroCount > 0 && e.Sampled? && t.s.remaining > 0 && t.s.accum == Total(done)
    ensures var u := Do(c, t, e);
            && u.s.remaining == t.s.remaining - 1 && u.waiting == t.waiting && u.mark == t.mark
               && u.answers == t.answers
            && (u.s.remaining > 0 ==> u.s.accum == Total(done + [e.w]) && u.s.bias == t.s.bias)
            && (u.s.remaining == 0 ==> TakenOver(c, t.s.bias, done + [e.w], u.s.lastZeroOk, u.s.bias))
  {
    hide Add, Over, OverLimit, FilterOf, Total;
    TotalSnoc(done, e.w);
  }

  lemma {:induction false} CaptureRun(c: Config, t: Tare, es: seq<Event>, done: seq<Wrench>)
    requires c.rate > 0.0 && c.zeroCount > 0 && forall e :: e in es ==> e.Sampled?
    requires t.s.remaining == |es| > 0 && t.s.accum == Total(done)
    ensures CanAll(c, t, es)
    ensures var u := Run(c, t, es);
            && u.s.remaining == 0 && u.waiting == t.waiting && u.mark == t.mark && u.answers == t.answers
            && TakenOver(c, t.s.bias, done + Values(es), u.s.lastZeroOk, u.s.bias)
    decreases |es|
  {
    hide Do, TakenOver;
    var u := Do(c, t, es[0]);
    CaptureOne(c, t, es[0], done);
    if |es| == 1 {
      assert es[1..] == [] && done + Values(es) == done + [es[0].w];
      assert Can(t, es[0]) && CanAll(c, u, []) && Run(c, t, es) == u;
    } else {
      CaptureRun(c, u, es[1..], done + [es[0].w]);
      assert (done + [es[0].w]) + Values(es[1..]) == done + Values(es);
      assert Can(t, es[0]) && CanAll(c, t, es) && Run(c, t, es) == Run(c, u, es[1..]);
    }
  }

  /**
   * A request that is followed by zeroCount samples and a poll is answered true exactly when the mean of these samples
   * is within the limit; then the bias is that mean, otherwise it stays.
   */
  lemma TareAnswersIff(c: Config, t: Tare, es: seq<Event>) returns (u: Tare)
    requires c.rate > 0.0 && Sane(c, t.s) && !t.waiting && |es| == c.zeroCount > 0 && forall e :: e in es ==> e.Sampled?
    ensures Can(t, Requested) && CanAll(c, Do(c, t, Requested), es)
    ensures var v := Run(c, Do(c, t, Requested), es);
            && Can(v, Polled) && u == Do(c, v, Polled) && !u.waiting
            && |u.answers| == |t.answers| + 1 && var a := u.answers[|t.answers|];
               a.bias == u.s.bias && a.mark == |t.raw| && TakenOver(c, t.s.bias, Values(es), a.ok, a.bias)
  {
    hide TakenOver, SampleOf, Total;
    var r := Do(c, t, Requested);
    assert Total([]) == ZERO by { TotalOfNone(); }
    CaptureRun(c, r, es, []);
    assert [] + Values(es) == Values(es);
    u := Do(c, Run(c, r, es), Polled);
  }

  lemma TotalOfNone()
    ensures Total([]) == ZERO
  {
  }

  // ----- Gaps over several connections -----

  /** The samples of one connection after another, each on a session that was reset. */
  function Connections(c: Config, s: Session, raws: seq<seq<Sample>>, wrench: Sample -> Wrench,
                       cutoff: real): (t: Session)
    requires Sane(c, s) && c.rate > 0.0
    ensures Sane(c, t)
    decreases |raws|
  {
    if raws == [] then s
    else
      SamplesOf(c, ResetOf(Connections(c, s, raws[..|raws| - 1], wrench, cutoff)), raws[|raws| - 1], wrench, cutoff).0
  }

  function AllBreaks(raws: seq<seq<Sample>>): nat {
    if raws == [] then 0 else AllBreaks(raws[..|raws| - 1]) + Breaks(raws[|raws| - 1])
  }

  function AllSamples(raws: seq<seq<Sample>>): nat {
    if raws == [] then 0 else AllSamples(raws[..|raws| - 1]) + |raws[|raws| - 1]|
  }

  /** Over all connections the gaps are the breaks within each: what is lost between two connections is no gap. */
  lemma {:induction false} GapsOverConnections(c: Config, s: Session, raws: seq<seq<Sample>>,
                                               wrench: Sample -> Wrench, cutoff: real)
    requires Sane(c, s) && c.rate > 0.0
    ensures var t := Connections(c, s, raws, wrench, cutoff);
            t.gaps == s.gaps + AllBreaks(raws) && t.samples == s.samples + AllSamples(raws)
    decreases |raws|
  {
    if raws != [] {
      var n := |raws| - 1;
      GapsOverConnections(c, s, raws[..n], wrench, cutoff);
      GapsAreBreaks(c, ResetOf(Connections(c, s, raws[..n], wrench, cutoff)), raws[n], wrench, cutoff);
    }
  }
}
