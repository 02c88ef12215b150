/** One sensor connection after another: sequence gaps, the tare (zero) capture, and its requester. */
module SriSession {
  import opened SriFrame
  import opened Types

  /** `bias_limit_n > 0 && forceNorm > bias_limit_n`, on squares. */
  predicate OverLimit(w: Wrench, limit: real) {
    limit > 0.0 && ForceSquare(w) > limit * limit
  }

  /** The tare capture averages `zeroCount` samples; `rate` is the nominal sample rate. */
  datatype Config = Config(rate: real, zeroCount: int, biasLimit: real)

  datatype Session = Session(bias: Wrench, accum: Wrench, remaining: int, lastZeroOk: bool, zeroRejects: nat,
                             havePn: bool, lastPn: nat, samples: nat, gaps: nat, filter: Filter)
  const NEW_SESSION := Session(ZERO, ZERO, 0, false, 0, false, 0, 0, 0, Filter(false, ZERO))

  function StartZeroOf(c: Config, s: Session): Session { s.(remaining := c.zeroCount, accum := ZERO) }

  function CancelZeroOf(s: Session): Session { s.(remaining := 0) }

  function ResetOf(s: Session): Session {
    s.(filter := s.filter.(initialized := false), havePn := false, remaining := 0, lastZeroOk := false)
  }

  /** A capture runs only with a positive sample count. */
  predicate Sane(c: Config, s: Session) { s.remaining > 0 ==> c.zeroCount > 0 }

  function FinishZeroOf(c: Config, s: Session): Session
    requires c.zeroCount != 0
  {
    var mean := Over(s.accum, c.zeroCount);
    if OverLimit(mean, c.biasLimit) then s.(zeroRejects := s.zeroRejects + 1, lastZeroOk := false)
    else s.(bias := mean, filter := s.filter.(initialized := false), lastZeroOk := true)
  }

  function CountOf(s: Session, pn: nat): Session {
    s.(gaps := if s.havePn && pn != (s.lastPn + 1) % 0x1_0000 then s.gaps + 1 else s.gaps,
       lastPn := pn, havePn := true, samples := s.samples + 1)
  }

  function CaptureOf(c: Config, s: Session, w: Wrench): (r: Session)
    requires Sane(c, s)
    ensures Sane(c, r)
  {
    if s.remaining <= 0 then s
    else
      var s' := s.(accum := Add(s.accum, w), remaining := s.remaining - 1);
      if s'.remaining == 0 then FinishZeroOf(c, s') else s'
  }

  /** One raw sample: counted, captured while a tare is active, then unbiased and filtered. */
  function SampleOf(c: Config, s: Session, pn: nat, w: Wrench, cutoff: real): (r: (Session, Wrench))
    requires Sane(c, s) && c.rate > 0.0
    ensures Sane(c, r.0)
  {
    var s := CaptureOf(c, CountOf(s, pn), w);
    var (filter, out) := FilterOf(s.filter, cutoff, Sub(w, s.bias), 1.0 / c.rate);
    (s.(filter := filter), out)
  }

  function SamplesOf(c: Config, s: Session, raw: seq<Sample>, wrench: Sample -> Wrench,
                     cutoff: real): (r: (Session, seq<Wrench>))
    requires Sane(c, s) && c.rate > 0.0
    ensures Sane(c, r.0)
    decreases |raw|
  {
    if raw == [] then (s, [])
    else
      var (s', out) := SamplesOf(c, s, raw[..|raw| - 1], wrench, cutoff);
      var (s'', w) := SampleOf(c, s', raw[|raw| - 1].pn, wrench(raw[|raw| - 1]), cutoff);
      (s'', out + [w])
  }

  lemma SamplesNext(c: Config, s: Session, raw: seq<Sample>, i: nat, wrench: Sample -> Wrench, cutoff: real,
                    before: Session, ws: seq<Wrench>)
    requires Sane(c, s) && c.rate > 0.0 && i < |raw| && SamplesOf(c, s, raw[..i], wrench, cutoff) == (before, ws)
    ensures var (after, w) := SampleOf(c, before, raw[i].pn, wrench(raw[i]), cutoff);
            SamplesOf(c, s, raw[..i + 1], wrench, cutoff) == (after, ws + [w])
  {
    assert raw[..i + 1][..i] == raw[..i];
  }

  class SriStreamSession {
    const cfg: Config
    const assembler: SriFrameAssembler
    const wrench: Sample -> Wrench
    var cutoff: real
    var filter: Filter
    var bias: Wrench
    var zeroAccum: Wrench
    var zeroRemaining: int
    var lastZeroOk: bool
    var zeroRejects: nat
    var haveLastPn: bool
    var lastPn: nat
    var samples: nat
    var gaps: nat

    ghost predicate Valid()
      reads this, assembler, assembler.payload
    {
      assembler.Valid() && Sane(cfg, View()) && cfg.rate > 0.0
    }

    ghost function View(): Session
      reads this
    {
      Session(bias, zeroAccum, zeroRemaining, lastZeroOk, zeroRejects, haveLastPn, lastPn, samples, gaps, filter)
    }

    /** `wrench` reads the six floats of a sample. */
    constructor (cfg: Config, wrench: Sample -> Wrench, cutoff: real)
      requires cfg.rate > 0.0
      ensures Valid() && View() == NEW_SESSION && fresh(assembler) && fresh(assembler.payload)
      ensures assembler.View() == NEW_ASSEMBLER && this.cfg == cfg && this.wrench == wrench && this.cutoff == cutoff
    {
      this.cfg, this.wrench, this.cutoff := cfg, wrench, cutoff;
      assembler := new SriFrameAssembler();
      filter, bias, zeroAccum, zeroRemaining := Filter(false, ZERO), ZERO, ZERO, 0;
      lastZeroOk, zeroRejects, haveLastPn, lastPn, samples, gaps := false, 0, false, 0, 0, 0;
    }

    method Reset()
      requires Valid()
      modifies this, assembler
      ensures Valid() && View() == ResetOf(old(View()))
      ensures assembler.View() == old(assembler.View()).(state := Sync1, declared := 0, payload := [])
    {
      assembler.Reset();
      filter := filter.(initialized := false);
      haveLastPn := false;
      zeroRemaining := 0;
      lastZeroOk := false;
    }

    method StartZero()
      modifies this
      ensures View() == StartZeroOf(cfg, old(View())) && cutoff == old(cutoff)
    {
      zeroRemaining := cfg.zeroCount;
      zeroAccum := ZERO;
    }

    method CancelZero()
      modifies this
      ensures View() == CancelZeroOf(old(View())) && cutoff == old(cutoff)
    {
      zeroRemaining := 0;
    }

    method FinishZeroCapture()
      requires cfg.zeroCount != 0
      modifies this
      ensures View() == FinishZeroOf(cfg, old(View())) && cutoff == old(cutoff)
    {
      var mean := Over(zeroAccum, cfg.zeroCount);
      if OverLimit(mean, cfg.biasLimit) {
        zeroRejects := zeroRejects + 1;
        lastZeroOk := false;
        return;
      }
      bias := mean;
      filter := filter.(initialized := false);
      lastZeroOk := true;
    }

    method Feed(data: seq<byte>, out: array<Wrench>, maxOut: nat) returns (written: nat)
      requires Valid() && maxOut <= out.Length
      modifies this, assembler, assembler.payload, out
      ensures Valid() && cutoff == old(cutoff)
      ensures var (a, s) := FeedOf(old(assembler.View()), data, 80);
              var (v, ws) := SamplesOf(cfg, old(View()), s, wrench, cutoff);
              && assembler.View() == a && View() == v
              && written == (if |ws| <= maxOut then |ws| else maxOut) && out[..written] == ws[..written]
    {
      var raw := new Sample[80](_ => Sample(0, []));
      var n := assembler.Feed(data, raw, 80);
      written := OnSamples(raw, n, out, maxOut);
    }

    /** The loop of `feed` over the decoded samples. */
    method OnSamples(raw: array<Sample>, n: nat, out: array<Wrench>, maxOut: nat) returns (written: nat)
      requires Valid() && n <= raw.Length && maxOut <= out.Length
      modifies this, out
      ensures Valid() && cutoff == old(cutoff)
      ensures var (v, ws) := SamplesOf(cfg, old(View()), old(raw[..n]), wrench, cutoff);
              View() == v && written == (if |ws| <= maxOut then |ws| else maxOut) && out[..written] == ws[..written]
    {
      hide SampleOf;
      ghost var start, s := View(), raw[..n];
      ghost var ws: seq<Wrench> := [];
      written := 0;
      for i := 0 to n
        invariant Valid() && cutoff == old(cutoff) && raw[..n] == s
        invariant SamplesOf(cfg, start, s[..i], wrench, cutoff) == (View(), ws)
        invariant |ws| == i && written == (if i <= maxOut then i else maxOut) && out[..written] == ws[..written]
      {
        SamplesNext(cfg, start, s, i, wrench, cutoff, View(), ws);
        var filtered := OnSample(raw[i]);
        ws := ws + [filtered];
        if written < maxOut {
          out[written] := filtered;
          written := written + 1;
        }
      }
      assert s[..n] == s;
    }

    /** The loop body of `feed`, up to the filtered wrench. */
    method OnSample(sample: Sample) returns (filtered: Wrench)
      requires Valid()
      modifies this
      ensures Valid() && (View(), filtered) == SampleOf(cfg, old(View()), sample.pn, wrench(sample), cutoff)
              && cutoff == old(cutoff)
    {
      var w := wrench(sample);
      if haveLastPn {
        var expected := (lastPn + 1) % 0x1_0000;
        if sample.pn != expected { gaps := gaps + 1; }
      }
      lastPn := sample.pn;
      haveLastPn := true;
      samples := samples + 1;
      if zeroRemaining > 0 {
        zeroAccum := Add(zeroAccum, w);
        zeroRemaining := zeroRemaining - 1;
        if zeroRemaining == 0 { FinishZeroCapture(); }
      }
      var (f, out) := FilterOf(filter, cutoff, Sub(w, bias), 1.0 / cfg.rate);
      filter := f;
      return out;
    }
  }
}
