/** What the sensor driver publishes: the raw wrench without the bias in force, low-passed if a cutoff is set. */
module SriOutputLaws {
  import opened SriFrame
  import opened Types
  import opened SriSession
  import opened SriSessionLaws

  // ----- Without the filter -----

  /** The published wrench and the bias in force make up the raw one. */
  predicate Unbiased(out: Wrench, bias: Wrench, raw: Wrench) { Add(out, bias) == raw }

  lemma OneUnbiased(c: Config, s: Session, pn: nat, w: Wrench, cutoff: real)
    requires Sane(c, s) && c.rate > 0.0 && (cutoff <= 0.0 || !CaptureOf(c, CountOf(s, pn), w).filter.initialized)
    ensures var (t, out) := SampleOf(c, s, pn, w, cutoff); Unbiased(out, t.bias, w)
  {
    hide CaptureOf, CountOf;
  }

  lemma {:induction false} SamplesPrefix(c: Config, s: Session, raw: seq<Sample>, wrench: Sample -> Wrench,
                                         cutoff: real, n: nat)
    requires Sane(c, s) && c.rate > 0.0 && n <= |raw|
    ensures |SamplesOf(c, s, raw, wrench, cutoff).1| == |raw|
    ensures SamplesOf(c, s, raw, wrench, cutoff).1[..n] == SamplesOf(c, s, raw[..n], wrench, cutoff).1
    decreases |raw|
  {
    hide SampleOf;
    if raw != [] {
      var m := |raw| - 1;
      if n < |raw| {
        SamplesPrefix(c, s, raw[..m], wrench, cutoff, n);
        assert raw[..m][..n] == raw[..n];
      } else {
        SamplesPrefix(c, s, raw[..m], wrench, cutoff, m);
        assert raw[..n] == raw;
      }
    }
  }

  /**
   * With the filter off, every published wrench and the bias in force after its sample make up the raw wrench, in order
   * and one for each sample, tares included.
   */
  lemma PublishedIsUnbiased(c: Config, s: Session, raw: seq<Sample>, wrench: Sample -> Wrench, cutoff: real)
    requires Sane(c, s) && c.rate > 0.0 && cutoff <= 0.0
    ensures var out := SamplesOf(c, s, raw, wrench, cutoff).1;
            && |out| == |raw|
            && forall i :: 0 <= i < |raw| ==>
                 Unbiased(out[i], SamplesOf(c, s, raw[..i + 1], wrench, cutoff).0.bias, wrench(raw[i]))
  {
    hide SampleOf, Unbiased;
    var out := SamplesOf(c, s, raw, wrench, cutoff).1;
    SamplesPrefix(c, s, raw, wrench, cutoff, |raw|);
    forall i | 0 <= i < |raw|
      ensures Unbiased(out[i], SamplesOf(c, s, raw[..i + 1], wrench, cutoff).0.bias, wrench(raw[i]))
    {
      SamplesPrefix(c, s, raw, wrench, cutoff, i + 1);
      var (before, ws) := SamplesOf(c, s, raw[..i], wrench, cutoff);
      SamplesNext(c, s, raw, i, wrench, cutoff, before, ws);
      OneUnbiased(c, before, raw[i].pn, wrench(raw[i]), cutoff);
    }
  }

  // ----- After a tare -----

  function Repeated(n: int, w: Wrench): Wrench {
    var k := n as real;
    Wrench(k * w.fx, k * w.fy, k * w.fz, k * w.tx, k * w.ty, k * w.tz)
  }

  lemma MeanTimes(w: Wrench, n: int)
    requires n != 0
    ensures Repeated(n, Over(w, n)) == w
  {
  }

  lemma OneMoreTime(n: nat, w: Wrench)
    ensures Repeated(n + 1, w) == Add(Repeated(n, w), w)
  {
    var k := n as real;
    assert (n + 1) as real == k + 1.0;
  }

  /** Published without filter and with a bias that stays. */
  lemma {:induction false} TotalPublished(ws: seq<Wrench>, out: seq<Wrench>, bias: Wrench)
    requires |out| == |ws| && forall i :: 0 <= i < |ws| ==> Unbiased(out[i], bias, ws[i])
    ensures Add(Total(out), Repeated(|ws|, bias)) == Total(ws)
    decreases |ws|
  {
    if ws != [] {
      var n := |ws| - 1;
      TotalPublished(ws[..n], out[..n], bias);
      OneMoreTime(n, bias);
    }
  }

  /** No capture runs: the bias stays. */
  lemma {:induction false} BiasStays(c: Config, s: Session, raw: seq<Sample>, wrench: Sample -> Wrench, cutoff: real)
    requires Sane(c, s) && c.rate > 0.0 && s.remaining <= 0
    ensures var t := SamplesOf(c, s, raw, wrench, cutoff).0; t.bias == s.bias && t.remaining <= 0
    decreases |raw|
  {
    if raw != [] { BiasStays(c, s, raw[..|raw| - 1], wrench, cutoff); }
  }

  function Loads(raw: seq<Sample>, wrench: Sample -> Wrench): seq<Wrench> {
    seq(|raw|, i requires 0 <= i < |raw| => wrench(raw[i]))
  }

  /**
   * After an accepted tare the captured load reads as nothing: the same samples again, without the filter, are
   * published with a total of zero.
   */
  lemma TaredLoadIsZero(c: Config, s: Session, raw: seq<Sample>, wrench: Sample -> Wrench, cutoff: real)
    requires Sane(c, s) && c.rate > 0.0 && cutoff <= 0.0 && s.remaining <= 0 && |raw| == c.zeroCount > 0
    requires s.bias == Over(Total(Loads(raw, wrench)), c.zeroCount)
    ensures Total(SamplesOf(c, s, raw, wrench, cutoff).1) == ZERO
  {
    hide SamplesOf, Repeated, Unbiased;
    var out, ws := SamplesOf(c, s, raw, wrench, cutoff).1, Loads(raw, wrench);
    PublishedIsUnbiased(c, s, raw, wrench, cutoff);
    forall i | 0 <= i < |raw| ensures Unbiased(out[i], s.bias, ws[i]) {
      BiasStays(c, s, raw[..i + 1], wrench, cutoff);
    }
    TotalPublished(ws, out, s.bias);
    MeanTimes(Total(ws), c.zeroCount);
  }

  // ----- A tare from its request on -----

  /** A capture in progress after n of its samples. */
  predicate Capturing(c: Config, s: Session, ws: seq<Wrench>, bias: Wrench) {
    s.remaining == c.zeroCount - |ws| && s.accum == Total(ws) && s.bias == bias
  }

  lemma CaptureNext(c: Config, s: Session, ws: seq<Wrench>, bias: Wrench, pn: nat, w: Wrench, cutoff: real)
    requires Sane(c, s) && c.rate > 0.0 && Capturing(c, s, ws, bias) && |ws| < c.zeroCount
    ensures var (t, out) := SampleOf(c, s, pn, w, cutoff); var mean := Over(Total(ws + [w]), c.zeroCount);
            if |ws| + 1 < c.zeroCount then Capturing(c, t, ws + [w], bias)
            else
              && t.remaining == 0 && (t.lastZeroOk <==> !OverLimit(mean, c.biasLimit))
              && t.zeroRejects == s.zeroRejects + (if t.lastZeroOk then 0 else 1)
              && t.bias == (if t.lastZeroOk then mean else bias) && (t.lastZeroOk ==> Unbiased(out, mean, w))
  {
    hide Total, Over, OverLimit;
    TotalSnoc(ws, w);
    var u := CaptureOf(c, CountOf(s, pn), w);
    if |ws| + 1 == c.zeroCount && u.lastZeroOk { OneUnbiased(c, s, pn, w, cutoff); }
    hide Add, Sub, FilterOf;
  }

  lemma {:induction false} CaptureSamples(c: Config, s: Session, raw: seq<Sample>, wrench: Sample -> Wrench,
                                          cutoff: real, n: nat)
    requires Sane(c, s) && c.rate > 0.0 && Capturing(c, s, [], s.bias) && n < |raw| == c.zeroCount
    ensures Capturing(c, SamplesOf(c, s, raw[..n], wrench, cutoff).0, Loads(raw[..n], wrench), s.bias)
  {
    hide SampleOf, Total, Capturing;
    if n == 0 {
      assert raw[..0] == [] && Loads(raw[..0], wrench) == [];
    } else {
      var m := n - 1;
      CaptureSamples(c, s, raw, wrench, cutoff, m);
      var (before, out) := SamplesOf(c, s, raw[..m], wrench, cutoff);
      CaptureNext(c, before, Loads(raw[..m], wrench), s.bias, raw[m].pn, wrench(raw[m]), cutoff);
      SamplesNext(c, s, raw, m, wrench, cutoff, before, out);
      assert Loads(raw[..n], wrench) == Loads(raw[..m], wrench) + [wrench(raw[m])];
    }
  }

  lemma NothingTotal()
    ensures Total([]) == ZERO
  {
  }

  /** The force is within the limit; a limit that is not positive bears every force. */
  predicate Bearable(w: Wrench, limit: real) {
    limit <= 0.0 || w.fx * w.fx + w.fy * w.fy + w.fz * w.fz <= limit * limit
  }

  lemma BearableIs(w: Wrench, limit: real)
    ensures Bearable(w, limit) <==> !OverLimit(w, limit)
  {
  }

  /**
   * A tare, whatever the filter: accepted, it publishes its last sample without the captured mean, and the captured
   * load fed again without the filter totals zero; refused, it is counted and the bias stays. It is accepted exactly
   * when the mean is within the limit.
   */
  lemma TareTakesLoadAway(c: Config, s: Session, raw: seq<Sample>, wrench: Sample -> Wrench, cutoff: real)
    requires Sane(c, s) && c.rate > 0.0 && |raw| == c.zeroCount > 0
    ensures var (t, out) := SamplesOf(c, StartZeroOf(c, s), raw, wrench, cutoff); var last := |raw| - 1;
            var mean := Over(Total(Loads(raw, wrench)), c.zeroCount);
            && t.remaining == 0 && |out| == |raw| && (t.lastZeroOk <==> Bearable(mean, c.biasLimit))
            && (t.lastZeroOk ==>
                  && t.bias == mean && Unbiased(out[last], mean, wrench(raw[last]))
                  && Total(SamplesOf(c, t, raw, wrench, 0.0).1) == ZERO)
            && (!t.lastZeroOk ==> t.bias == s.bias && t.zeroRejects == SamplesOf(c, StartZeroOf(c, s), raw[..last],
                                                                                  wrench, cutoff).0.zeroRejects + 1)
  {
    hide SampleOf, Total, Unbiased, OverLimit, Over, Bearable;
    BearableIs(Over(Total(Loads(raw, wrench)), c.zeroCount), c.biasLimit);
    var a, last := StartZeroOf(c, s), |raw| - 1;
    NothingTotal();
    CaptureSamples(c, a, raw, wrench, cutoff, last);
    var (before, out) := SamplesOf(c, a, raw[..last], wrench, cutoff);
    CaptureNext(c, before, Loads(raw[..last], wrench), s.bias, raw[last].pn, wrench(raw[last]), cutoff);
    SamplesNext(c, a, raw, last, wrench, cutoff, before, out);
    SamplesPrefix(c, a, raw, wrench, cutoff, last);
    assert raw[..|raw|] == raw;
    assert Loads(raw, wrench) == Loads(raw[..last], wrench) + [wrench(raw[last])];
    var t := SamplesOf(c, a, raw, wrench, cutoff).0;
    if t.lastZeroOk { TaredLoadIsZero(c, t, raw, wrench, 0.0); }
  }

  /** The first sample of a new connection is published as it is, without the bias, whatever the filter. */
  lemma FirstIsUnfiltered(c: Config, s: Session, pn: nat, w: Wrench, cutoff: real)
    requires Sane(c, s) && c.rate > 0.0
    ensures var (t, out) := SampleOf(c, ResetOf(s), pn, w, cutoff); t.bias == s.bias && Unbiased(out, s.bias, w)
  {
    OneUnbiased(c, ResetOf(s), pn, w, cutoff);
  }

  // ----- With the filter -----

  /** One axis of a first-order low-pass with time constant rc, sampled with period dt: rc * dy/dt == x - y. */
  predicate Lags(y: real, x: real, out: real, dt: real, rc: real) { rc * (out - y) == dt * (x - out) }

  lemma BlendIsLowPass(y: real, x: real, dt: real, rc: real)
    requires dt >= 0.0 && rc > 0.0
    ensures Lags(y, x, Blend(y, x, dt / (dt + rc)), dt, rc)
  {
    var k := dt / (dt + rc);
    assert k * (dt + rc) == dt;
    var d := x - y;
    assert k * d * (dt + rc) == dt * d;
  }

  predicate LowPassed(y: Wrench, x: Wrench, out: Wrench, dt: real, rc: real) {
    && Lags(y.fx, x.fx, out.fx, dt, rc) && Lags(y.fy, x.fy, out.fy, dt, rc) && Lags(y.fz, x.fz, out.fz, dt, rc)
    && Lags(y.tx, x.tx, out.tx, dt, rc) && Lags(y.ty, x.ty, out.ty, dt, rc) && Lags(y.tz, x.tz, out.tz, dt, rc)
  }

  /** A running filter is a first-order low-pass with the time constant of its cutoff, and keeps what it puts out. */
  lemma FilterIsLowPass(f: Filter, cutoff: real, w: Wrench, dt: real)
    requires dt >= 0.0 && cutoff > 0.0 && f.initialized
    ensures var (g, out) := FilterOf(f, cutoff, w, dt);
            2.0 * PI * cutoff > 0.0 && g == Filter(true, out)
              && LowPassed(f.state, w, out, dt, 1.0 / (2.0 * PI * cutoff))
  {
    hide Blend, Lags;
    var rc := 1.0 / (2.0 * PI * cutoff);
    BlendIsLowPass(f.state.fx, w.fx, dt, rc);
    BlendIsLowPass(f.state.fy, w.fy, dt, rc);
    BlendIsLowPass(f.state.fz, w.fz, dt, rc);
    BlendIsLowPass(f.state.tx, w.tx, dt, rc);
    BlendIsLowPass(f.state.ty, w.ty, dt, rc);
    BlendIsLowPass(f.state.tz, w.tz, dt, rc);
  }

  /** With the filter running and no capture ending, the unbiased wrench is published low-passed at the sample rate. */
  lemma PublishedIsLowPassed(c: Config, s: Session, pn: nat, w: Wrench, cutoff: real)
    requires Sane(c, s) && c.rate > 0.0 && cutoff > 0.0 && s.filter.initialized && s.remaining != 1
    ensures var (t, out) := SampleOf(c, s, pn, w, cutoff);
            && t.bias == s.bias && t.filter == Filter(true, out) && 2.0 * PI * cutoff > 0.0
            && LowPassed(s.filter.state, Sub(w, s.bias), out, 1.0 / c.rate, 1.0 / (2.0 * PI * cutoff))
  {
    hide FilterOf, LowPassed, Sub;
    FilterIsLowPass(s.filter, cutoff, Sub(w, s.bias), 1.0 / c.rate);
  }
}
