/** Round trip, resynchronisation and byte accounting of the SRI sensor stream. */
module SriLaws {
  import opened SriFrame

  // ----- Composition -----

  lemma {:induction false} RunConcat(a: Assembler, x: seq<byte>, y: seq<byte>)
    requires WellFormed(a)
    ensures var (b, s) := Run(a, x); var (c, t) := Run(b, y); Run(a, x + y) == (c, s + t)
    decreases |y|
  {
    var (b, s) := Run(a, x);
    if y == [] {
      assert x + y == x && s + [] == s;
    } else {
      var y0, l := y[..|y| - 1], y[|y| - 1];
      RunConcat(a, x, y0);
      assert (x + y)[..|x + y| - 1] == x + y0;
      var (c, t) := Run(b, y0);
      var (d, u) := Step(c, l);
      assert (s + t) + u == s + (t + u);
    }
  }

  lemma RunOne(a: Assembler, b: byte)
    requires WellFormed(a)
    ensures Run(a, [b]) == Step(a, b)
  {
    assert [b][..0] == [];
    assert Run(a, []) == (a, []);
    assert [] + Step(a, b).1 == Step(a, b).1;
  }

  /** The first byte, then the rest. */
  lemma RunCons(a: Assembler, bytes: seq<byte>)
    requires WellFormed(a) && bytes != []
    ensures var (b, s) := Step(a, bytes[0]); var (c, t) := Run(b, bytes[1..]); Run(a, bytes) == (c, s + t)
  {
    RunOne(a, bytes[0]);
    RunConcat(a, bytes[..1], bytes[1..]);
    assert bytes[..1] == [bytes[0]] && bytes[..1] + bytes[1..] == bytes;
  }

  function Flatten(chunks: seq<seq<byte>>): seq<byte> {
    if chunks == [] then [] else chunks[0] + Flatten(chunks[1..])
  }

  function RunAll(a: Assembler, chunks: seq<seq<byte>>): (r: (Assembler, seq<Sample>))
    requires WellFormed(a)
    ensures WellFormed(r.0)
    decreases |chunks|
  {
    if chunks == [] then (a, [])
    else
      var (b, s) := Run(a, chunks[0]);
      var (c, t) := RunAll(b, chunks[1..]);
      (c, s + t)
  }

  /** How the stream is cut into calls does not matter. */
  lemma {:induction false} CuttingIsInvisible(a: Assembler, chunks: seq<seq<byte>>)
    requires WellFormed(a)
    ensures RunAll(a, chunks) == Run(a, Flatten(chunks))
    decreases |chunks|
  {
    if chunks != [] {
      CuttingIsInvisible(Run(a, chunks[0]).0, chunks[1..]);
      RunConcat(a, chunks[0], Flatten(chunks[1..]));
    }
  }

  // ----- Byte accounting -----

  function InFlight(a: Assembler): nat {
    match a.state
    case Sync1 => 0
    case Sync2 => 1
    case LenHigh => 2
    case LenLow => 3
    case Payload => 4 + |a.payload|
  }

  function Accounted(a: Assembler): nat {
    a.stats.skipped + 4 * a.stats.badLength + FRAME_LEN * (a.stats.frames + a.stats.badChecksum) + InFlight(a)
  }

  /** Every byte is skipped, part of a counted frame or header, or in flight; a sample is a counted frame. */
  lemma {:induction false} EveryByteIsAccounted(a: Assembler, bytes: seq<byte>)
    requires WellFormed(a)
    ensures var (b, s) := Run(a, bytes);
            && Accounted(b) == Accounted(a) + |bytes|
            && InFlight(b) <= 30
            && b.stats.frames == a.stats.frames + |s|
            && b.stats.badChecksum >= a.stats.badChecksum && b.stats.badLength >= a.stats.badLength
            && b.stats.skipped >= a.stats.skipped
    decreases |bytes|
  {
    if bytes != [] {
      EveryByteIsAccounted(a, bytes[..|bytes| - 1]);
      StepIsAccounted(Run(a, bytes[..|bytes| - 1]).0, bytes[|bytes| - 1]);
    }
  }

  lemma StepIsAccounted(a: Assembler, b: byte)
    requires WellFormed(a)
    ensures var (c, s) := Step(a, b);
            && Accounted(c) == Accounted(a) + 1
            && c.stats.frames == a.stats.frames + |s|
            && c.stats.badChecksum >= a.stats.badChecksum && c.stats.badLength >= a.stats.badLength
            && c.stats.skipped >= a.stats.skipped
  {
  }

  /** A read of the driver fits its buffers: at most 67 frames, so 80 slots never drop one. */
  lemma ReadFits(a: Assembler, bytes: seq<byte>)
    requires WellFormed(a) && |bytes| <= 2048
    ensures |Run(a, bytes).1| <= 67
    ensures FeedOf(a, bytes, 80) == Run(a, bytes)
  {
    EveryByteIsAccounted(a, bytes);
    EveryByteIsAccounted(a, []);
    FeedMeaning(a, bytes, 80);
  }

  datatype DriverEvent = Read(bytes: seq<byte>) | Reconnect

  function Resync(a: Assembler): Assembler {
    a.(state := Sync1, declared := 0, payload := [])
  }

  /** The assembler over the reads and reconnections of one driver run. */
  function Drive(a: Assembler, es: seq<DriverEvent>): (r: Assembler)
    requires WellFormed(a)
    ensures WellFormed(r)
    decreases |es|
  {
    if es == [] then a
    else Drive(match es[0] case Read(bytes) => FeedOf(a, bytes, 80).0 case Reconnect => Resync(a), es[1..])
  }

  lemma {:induction false} DriverNeverDrops(a: Assembler, es: seq<DriverEvent>)
    requires WellFormed(a) && forall e :: e in es && e.Read? ==> |e.bytes| <= 2048
    ensures Drive(a, es).stats.dropped == a.stats.dropped
    decreases |es|
  {
    if es != [] {
      var e := es[0];
      if e.Read? { ReadFits(a, e.bytes); }
      DriverNeverDrops(match e case Read(bytes) => FeedOf(a, bytes, 80).0 case Reconnect => Resync(a), es[1..]);
    }
  }

  // ----- Noise and frames -----

  predicate NoSync(noise: seq<byte>) {
    forall i :: 0 <= i < |noise| - 1 ==> !(noise[i] == SYNC_1 && noise[i + 1] == SYNC_2)
  }

  /** The assembler hunts for a header; in Sync2 it holds one candidate byte. */
  predicate Hunting(a: Assembler) { a.state.Sync1? || a.state.Sync2? }

  function Held(a: Assembler): seq<byte>
  { if a.state.Sync2? then [SYNC_1] else [] }

  /** Same counters, up to skipped bytes. */
  predicate OnlySkipped(a: Assembler, b: Assembler) {
    b.stats == a.stats.(skipped := b.stats.skipped)
  }

  lemma {:induction false} RunNoise(a: Assembler, noise: seq<byte>)
    requires WellFormed(a) && Hunting(a) && NoSync(Held(a) + noise)
    ensures var (b, s) := Run(a, noise);
            && Hunting(b) && s == [] && OnlySkipped(a, b)
            && (b.state.Sync2? <==> Held(a) + noise != [] && (Held(a) + noise)[|Held(a) + noise| - 1] == SYNC_1)
    decreases |noise|
  {
    if noise != [] {
      var all, n0 := Held(a) + noise, noise[..|noise| - 1];
      assert all[..|all| - 1] == Held(a) + n0;
      assert forall i :: 0 <= i < |Held(a) + n0| ==> (Held(a) + n0)[i] == all[i];
      RunNoise(a, n0);
      assert all[|all| - 1] == noise[|noise| - 1];
      if Held(a) + n0 != [] { assert (Held(a) + n0)[|Held(a) + n0| - 1] == all[|all| - 2]; }
    }
  }

  function Checksum(data: seq<byte>): byte { Sum(data) % 256 }

  function Header(): seq<byte> { [SYNC_1, SYNC_2, 0x00, 0x1B] }

  function PayloadBytes(pn: nat, data: seq<byte>): (p: seq<byte>)
    requires pn < 0x1_0000
    ensures |data| == DATA_LEN ==> |p| == PAYLOAD_LEN
  {
    [pn / 256, pn % 256] + data + [Checksum(data)]
  }

  /** The encoder of the sensor: header, package number, data, checksum. */
  function Encode(pn: nat, data: seq<byte>): (f: seq<byte>)
    requires pn < 0x1_0000
    ensures |data| == DATA_LEN ==> |f| == FRAME_LEN
  {
    Header() + PayloadBytes(pn, data)
  }

  /** The wire format, byte by byte: sync, length, big-endian package number, data, and the data's sum modulo 256. */
  lemma FrameBytes(pn: nat, data: seq<byte>)
    requires pn < 0x1_0000 && |data| == 24
    ensures var f := Encode(pn, data);
            && |f| == 31 && f[0] == 170 && f[1] == 85 && f[2] == 0 && f[3] == 27
            && f[4] as int * 256 + f[5] as int == pn && f[6..30] == data && f[30] as int == Sum(data) % 256
  {
  }

  lemma {:induction false} SumIsTotal(s: seq<byte>, b: byte)
    ensures Sum([]) == 0 && Sum(s + [b]) == Sum(s) + b as int
  {
    assert (s + [b])[..|s|] == s;
  }

  lemma RunHeader(a: Assembler)
    requires WellFormed(a) && Hunting(a)
    ensures var (b, s) := Run(a, Header());
            b.state == Payload && b.payload == [] && s == [] && OnlySkipped(a, b)
  {
    var h := Header();
    RunCons(a, h);
    RunCons(Step(a, h[0]).0, h[1..]);
    var b := Step(Step(a, h[0]).0, h[1]).0;
    RunCons(b, h[1..][1..]);
    assert h[1..][1..] == [0x00, 0x1B] && h[1..][1..][1..] == [0x1B];
    RunOne(Step(b, 0x00).0, 0x1B);
  }

  lemma {:induction false} RunPayload(a: Assembler, p: seq<byte>)
    requires a.state == Payload && |a.payload| + |p| < PAYLOAD_LEN
    ensures Run(a, p) == (a.(payload := a.payload + p), [])
    decreases |p|
  {
    if p == [] {
      assert a.payload + p == a.payload;
    } else {
      RunPayload(a, p[..|p| - 1]);
      var b := a.(payload := a.payload + p[..|p| - 1]);
      assert Step(b, p[|p| - 1]) == (b.(payload := b.payload + [p[|p| - 1]]), []);
      assert a.payload + p == b.payload + [p[|p| - 1]];
      assert Run(a, p).0 == b.(payload := a.payload + p);
      assert Run(a, p).1 == [];
    }
  }

  lemma CompleteDropsPayload(a: Assembler, q: seq<byte>, p: seq<byte>)
    requires |p| == PAYLOAD_LEN
    ensures Complete(a.(payload := q), p) == Complete(a, p)
  {
    hide Sum, PackageNumber;
  }

  /** The byte that fills the payload. */
  lemma LastByte(a: Assembler, p: seq<byte>)
    requires a.state == Payload && |p| == PAYLOAD_LEN && a.payload == p[..PAYLOAD_LEN - 1]
    ensures Step(a, p[PAYLOAD_LEN - 1]) == Complete(a, p)
  {
    hide Complete;
    assert a.payload + [p[PAYLOAD_LEN - 1]] == p;
  }

  /** A payload of any 27 bytes. */
  lemma RunWholePayload(a: Assembler, p: seq<byte>)
    requires a.state == Payload && a.payload == [] && |p| == PAYLOAD_LEN
    ensures Run(a, p) == Complete(a, p)
  {
    hide Step, Complete;
    var front, last := p[..PAYLOAD_LEN - 1], p[PAYLOAD_LEN - 1];
    RunPayload(a, front);
    assert a.payload + front == front;
    var c := a.(payload := front);
    LastByte(c, p);
    CompleteDropsPayload(a, front, p);
    assert p[..|p| - 1] == front && [] + Complete(a, p).1 == Complete(a, p).1;
  }

  /** A header followed by any 27 bytes. */
  lemma RunFrame(a: Assembler, p: seq<byte>)
    requires WellFormed(a) && Hunting(a) && |p| == PAYLOAD_LEN
    ensures exists b ::
              WellFormed(b) && b.state == Payload && OnlySkipped(a, b) && Run(a, Header() + p) == Complete(b, p)
  {
    hide Step, Complete, Run;
    RunConcat(a, Header(), p);
    RunHeader(a);
    var b := Run(a, Header()).0;
    RunWholePayload(b, p);
    assert [] + Complete(b, p).1 == Complete(b, p).1;
  }

  /** The encoder's payload passes the checksum and carries its package number and data. */
  lemma CompleteEncoded(a: Assembler, pn: nat, data: seq<byte>)
    requires pn < 0x1_0000 && |data| == DATA_LEN
    ensures Complete(a, PayloadBytes(pn, data)) ==
              (a.(state := Sync1, payload := [], stats := a.stats.(frames := a.stats.frames + 1)), [Sample(pn, data)])
  {
    hide Sum;
    assert PayloadBytes(pn, data)[2..2 + DATA_LEN] == data;
  }

  lemma RunEncoded(a: Assembler, pn: nat, data: seq<byte>)
    requires WellFormed(a) && Hunting(a) && pn < 0x1_0000 && |data| == DATA_LEN
    ensures var (b, s) := Run(a, Encode(pn, data));
            && b.state == Sync1 && s == [Sample(pn, data)]
            && b.stats == a.stats.(skipped := b.stats.skipped, frames := a.stats.frames + 1)
  {
    hide Run, Complete, Step, PayloadBytes, Header;
    var p := PayloadBytes(pn, data);
    RunFrame(a, p);
    var b :| WellFormed(b) && b.state == Payload && OnlySkipped(a, b) && Run(a, Header() + p) == Complete(b, p);
    CompleteEncoded(b, pn, data);
  }

  // ----- Round trip -----

  datatype Segment = Segment(noise: seq<byte>, pn: nat, data: seq<byte>)

  predicate Proper(g: Segment) {
    NoSync(g.noise) && g.pn < 0x1_0000 && |g.data| == DATA_LEN
  }

  predicate AllProper(gs: seq<Segment>) {
    forall i :: 0 <= i < |gs| ==> Proper(gs[i])
  }

  function Wire(g: Segment): seq<byte>
    requires Proper(g)
  {
    g.noise + Encode(g.pn, g.data)
  }

  function Stream(gs: seq<Segment>): seq<byte>
    requires AllProper(gs)
  {
    if gs == [] then [] else Stream(gs[..|gs| - 1]) + Wire(gs[|gs| - 1])
  }

  function Samples(gs: seq<Segment>): seq<Sample> {
    seq(|gs|, i requires 0 <= i < |gs| => Sample(gs[i].pn, gs[i].data))
  }

  lemma {:induction false} StreamDecodes(a: Assembler, gs: seq<Segment>)
    requires WellFormed(a) && a.state == Sync1 && AllProper(gs)
    ensures var (b, s) := Run(a, Stream(gs));
            && b.state == Sync1 && s == Samples(gs)
            && b.stats == a.stats.(skipped := b.stats.skipped, frames := a.stats.frames + |gs|)
    decreases |gs|
  {
    hide Step, Wire, NoSync;
    if gs != [] {
      var gs0, g := gs[..|gs| - 1], gs[|gs| - 1];
      StreamDecodes(a, gs0);
      var b := Run(a, Stream(gs0)).0;
      RunConcat(a, Stream(gs0), Wire(g));
      assert Held(b) + g.noise == g.noise;
      RunWire(b, g);
      assert Samples(gs) == Samples(gs0) + [Sample(g.pn, g.data)];
    }
  }

  lemma RunWire(a: Assembler, g: Segment)
    requires WellFormed(a) && Hunting(a) && Proper(g) && NoSync(Held(a) + g.noise)
    ensures var (b, s) := Run(a, Wire(g));
            && b.state == Sync1 && s == [Sample(g.pn, g.data)]
            && b.stats == a.stats.(skipped := b.stats.skipped, frames := a.stats.frames + 1)
  {
    RunConcat(a, g.noise, Encode(g.pn, g.data));
    RunNoise(a, g.noise);
    RunEncoded(Run(a, g.noise).0, g.pn, g.data);
  }

  /** Frames in noise, cut into calls anywhere, decode to exactly what was encoded, in order. */
  lemma RoundTrip(a: Assembler, gs: seq<Segment>, tail: seq<byte>, chunks: seq<seq<byte>>)
    requires WellFormed(a) && a.state == Sync1 && AllProper(gs) && NoSync(tail)
    requires Flatten(chunks) == Stream(gs) + tail
    ensures var (b, s) := RunAll(a, chunks);
            && s == Samples(gs) && b.stats.frames == a.stats.frames + |gs|
            && b.stats.badChecksum == a.stats.badChecksum && b.stats.badLength == a.stats.badLength
  {
    hide Step, Encode;
    CuttingIsInvisible(a, chunks);
    RunConcat(a, Stream(gs), tail);
    StreamDecodes(a, gs);
    var b := Run(a, Stream(gs)).0;
    assert Held(b) + tail == tail;
    RunNoise(b, tail);
    assert Samples(gs) + [] == Samples(gs);
  }

  // ----- Corruption -----

  lemma {:induction false} SumUpdate(s: seq<byte>, i: nat, x: byte)
    requires i < |s|
    ensures Sum(s[i := x]) == Sum(s) - (s[i] as int) + (x as int)
    decreases |s|
  {
    var n := |s| - 1;
    if i == n {
      assert s[i := x][..n] == s[..n];
    } else {
      SumUpdate(s[..n], i, x);
      assert s[i := x][..n] == s[..n][i := x];
    }
  }

  /** A changed data or checksum byte breaks the checksum. */
  lemma BadSum(pn: nat, data: seq<byte>, k: nat, x: byte)
    requires pn < 0x1_0000 && |data| == DATA_LEN && 6 <= k < FRAME_LEN && x != Encode(pn, data)[k]
    ensures var p := PayloadBytes(pn, data)[k - 4 := x];
            Encode(pn, data)[k := x] == Header() + p && Sum(p[2..2 + DATA_LEN]) % 256 != p[PAYLOAD_LEN - 1]
  {
    hide Sum;
    var p := PayloadBytes(pn, data)[k - 4 := x];
    if k < 30 {
      assert p[2..2 + DATA_LEN] == data[k - 6 := x];
      SumUpdate(data, k - 6, x);
    } else {
      assert p[2..2 + DATA_LEN] == data;
    }
  }

  /** ... so it is always noticed, and costs exactly that frame. */
  lemma RunBadBody(a: Assembler, pn: nat, data: seq<byte>, k: nat, x: byte)
    requires WellFormed(a) && Hunting(a) && pn < 0x1_0000 && |data| == DATA_LEN
    requires 6 <= k < FRAME_LEN && x != Encode(pn, data)[k]
    ensures var (b, s) := Run(a, Encode(pn, data)[k := x]);
            && b.state == Sync1 && s == []
            && b.stats == a.stats.(skipped := b.stats.skipped, badChecksum := a.stats.badChecksum + 1)
  {
    hide Run, Step, Sum, Encode, PayloadBytes, Header;
    BadSum(pn, data, k, x);
    RunFrame(a, PayloadBytes(pn, data)[k - 4 := x]);
  }

  lemma RunTwo(a: Assembler, h0: byte, h1: byte)
    requires WellFormed(a) && Step(a, h0).1 == [] && Step(Step(a, h0).0, h1).1 == []
    ensures Run(a, [h0, h1]) == (Step(Step(a, h0).0, h1).0, [])
  {
    hide Run, Step;
    RunOne(a, h0);
    RunOne(Step(a, h0).0, h1);
    RunConcat(a, [h0], [h1]);
    var none: seq<Sample> := [];
    assert [h0] + [h1] == [h0, h1] && none + none == none;
  }

  /** Four bytes that never reach a payload. */
  lemma RunFour(a: Assembler, h0: byte, h1: byte, h2: byte, h3: byte)
    requires WellFormed(a) && Step(a, h0).1 == [] && Step(Step(a, h0).0, h1).1 == []
    requires var c := Step(Step(a, h0).0, h1).0; Step(c, h2).1 == [] && Step(Step(c, h2).0, h3).1 == []
    ensures Run(a, [h0, h1, h2, h3]) == (Step(Step(Step(Step(a, h0).0, h1).0, h2).0, h3).0, [])
  {
    hide Run, Step;
    var c := Step(Step(a, h0).0, h1).0;
    RunTwo(a, h0, h1);
    RunTwo(c, h2, h3);
    RunConcat(a, [h0, h1], [h2, h3]);
    var none: seq<Sample> := [];
    assert [h0, h1] + [h2, h3] == [h0, h1, h2, h3] && none + none == none;
  }

  /** A changed header byte leads back to the hunt after four bytes. */
  lemma HeaderSteps(a: Assembler, k: nat, x: byte)
    requires WellFormed(a) && Hunting(a) && k < 4 && x != Header()[k]
    ensures var (b, s) := Run(a, Header()[k := x]);
            && b.state == Sync1 && s == [] && WellFormed(b)
            && b.stats.frames == a.stats.frames && b.stats.badChecksum == a.stats.badChecksum
  {
    var h := Header()[k := x];
    assert h == [h[0], h[1], h[2], h[3]];
    var b := Step(a, h[0]).0;
    var c := Step(b, h[1]).0;
    var d := Step(c, h[2]).0;
    assert !b.state.Payload? && !c.state.Payload? && !d.state.Payload?;
    RunFour(a, h[0], h[1], h[2], h[3]);
  }

  lemma {:induction false} StreamCons(gs: seq<Segment>)
    requires AllProper(gs) && gs != []
    ensures Stream(gs) == Wire(gs[0]) + Stream(gs[1..])
    decreases |gs|
  {
    var n := |gs| - 1;
    if n == 0 {
      assert gs[..0] == [] && gs[1..] == [];
      assert Stream(gs) == [] + Wire(gs[0]) && Wire(gs[0]) + [] == Wire(gs[0]) == [] + Wire(gs[0]);
    } else {
      StreamCons(gs[..n]);
      assert gs[..n][1..] == gs[1..][..n - 1] && gs[1..][n - 1] == gs[n];
      var x, y, z := Wire(gs[0]), Stream(gs[1..][..n - 1]), Wire(gs[n]);
      assert (x + y) + z == x + (y + z);
    }
  }

  /** One frame of a stream with a changed data or checksum byte: counted, and every other frame decodes. */
  lemma BodyCorruptionLosesOneFrame(a: Assembler, gs: seq<Segment>, g: Segment, k: nat, x: byte, hs: seq<Segment>)
    requires WellFormed(a) && a.state == Sync1 && AllProper(gs) && Proper(g) && AllProper(hs)
    requires 6 <= k < FRAME_LEN && x != Encode(g.pn, g.data)[k]
    ensures var (b, s) := Run(a, Stream(gs) + ((g.noise + Encode(g.pn, g.data)[k := x]) + Stream(hs)));
            && s == Samples(gs) + Samples(hs)
            && b.stats.badChecksum == a.stats.badChecksum + 1 && b.stats.badLength == a.stats.badLength
  {
    var f := Encode(g.pn, g.data)[k := x];
    StreamDecodes(a, gs);
    var b := Run(a, Stream(gs)).0;
    RunConcat(a, Stream(gs), (g.noise + f) + Stream(hs));
    RunConcat(b, g.noise + f, Stream(hs));
    RunConcat(b, g.noise, f);
    assert Held(b) + g.noise == g.noise;
    RunNoise(b, g.noise);
    RunBadBody(Run(b, g.noise).0, g.pn, g.data, k, x);
    StreamDecodes(Run(b, g.noise + f).0, hs);
    assert [] + Samples(hs) == Samples(hs);
  }

  /** The package number is not covered by the checksum: changing it goes unnoticed. */
  lemma PackageNumberIsUnprotected(pn: nat, data: seq<byte>, k: nat, x: byte)
    requires pn < 0x1_0000 && |data| == DATA_LEN && 4 <= k < 6 && x != Encode(pn, data)[k]
    ensures exists q :: q < 0x1_0000 && q != pn && Encode(pn, data)[k := x] == Encode(q, data)
  {
    var q := if k == 4 then PackageNumber(x, pn % 256) else PackageNumber(pn / 256, x);
    assert Encode(pn, data)[k := x] == Encode(q, data);
  }

  // ----- The bound of 67 is reached -----

  lemma {:induction false} StreamLength(gs: seq<Segment>)
    requires AllProper(gs) && forall i :: 0 <= i < |gs| ==> gs[i].noise == []
    ensures |Stream(gs)| == FRAME_LEN * |gs|
    decreases |gs|
  {
    if gs != [] { StreamLength(gs[..|gs| - 1]); }
  }

  lemma ReadCanComplete67()
    ensures exists a, bytes :: WellFormed(a) && |bytes| == 2048 && |Run(a, bytes).1| == 67
  {
    hide Run, Wire;
    var gs := seq(67, _ => Segment([], 0, seq(DATA_LEN, _ => 0 as byte)));
    StreamLength(gs);
    StreamDecodes(NEW_ASSEMBLER, gs);
    var s := Stream(gs);
    assert s[..29] + s[29..] == s;
    RunConcat(NEW_ASSEMBLER, s[..29], s[29..]);
    EveryByteIsAccounted(NEW_ASSEMBLER, s[..29]);
  }

  // ----- The encoder -----

  class SriMockServer {
    /** The bytes of the six floats of `wrench_`. */
    var wrench: seq<byte>
    var pn: nat

    ghost predicate Valid()
      reads this
    {
      |wrench| == DATA_LEN && pn < 0x1_0000
    }

    constructor ()
      ensures Valid() && pn == 0
    {
      wrench, pn := seq(DATA_LEN, _ => 0 as byte), 0;
    }

    method BuildFrame(buf: array<byte>, corruptChecksum: bool)
      requires Valid() && buf.Length >= FRAME_LEN
      modifies this`pn, buf
      ensures Valid() && pn == (old(pn) + 1) % 0x1_0000
      ensures !corruptChecksum ==> buf[..FRAME_LEN] == Encode(pn, wrench)
      ensures corruptChecksum ==> buf[..FRAME_LEN] == Encode(pn, wrench)[30 := 255 - Checksum(wrench)]
      ensures buf[FRAME_LEN..] == old(buf[..])[FRAME_LEN..]
    {
      buf[0] := 0xAA;
      buf[1] := 0x55;
      buf[2] := 0x00;
      buf[3] := 0x1B;
      pn := (pn + 1) % 0x1_0000;
      buf[4] := pn / 256;
      buf[5] := pn % 256;
      for k := 0 to DATA_LEN
        invariant pn == (old(pn) + 1) % 0x1_0000
        invariant buf[..6] == Header() + [pn / 256, pn % 256] && buf[6..6 + k] == wrench[..k]
        invariant buf[FRAME_LEN..] == old(buf[..])[FRAME_LEN..]
      {
        buf[6 + k] := wrench[k];
      }
      var sum: nat := 0;
      for k := 6 to 30
        invariant sum == Sum(buf[6..k])
        modifies {}
      {
        sum := sum + (buf[k] as nat);
        assert buf[6..k + 1][..k - 6] == buf[6..k];
      }
      assert buf[6..30] == wrench;
      buf[30] := sum % 256;
      assert buf[..FRAME_LEN] == Encode(pn, wrench);
      if corruptChecksum {
        ghost var f := buf[..FRAME_LEN];
        buf[30] := 255 - buf[30];
        assert buf[..FRAME_LEN] == f[30 := buf[30]];
      }
    }
  }
}
