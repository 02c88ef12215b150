/** A frame with a corrupted header: how much of the stream it costs, exactly. */
module SriResync {
  import opened SriFrame
  import opened SriLaws

  // ----- Bytes that the hunt passes over -----

  /** Where the first sync pair begins; the length if there is none. */
  function SyncAt(z: seq<byte>): (j: nat)
    ensures j <= |z| && (j < |z| ==> j + 2 <= |z| && z[j] == SYNC_1 && z[j + 1] == SYNC_2)
    ensures forall i :: 0 <= i < j && i + 1 < |z| ==> !(z[i] == SYNC_1 && z[i + 1] == SYNC_2)
  {
    if |z| < 2 then |z|
    else if z[0] == SYNC_1 && z[1] == SYNC_2 then 0
    else
      var j := SyncAt(z[1..]);
      assert forall i :: 0 < i < |z| ==> z[i] == z[1..][i - 1];
      j + 1
  }

  function Declared(high: byte, low: byte): nat { (high as nat) * 256 + (low as nat) }

  predicate ChecksumHolds(p: seq<byte>)
    requires |p| == PAYLOAD_LEN
  {
    Sum(p[2..2 + DATA_LEN]) % 256 == p[PAYLOAD_LEN - 1]
  }

  /**
   * Every sync pair that the hunt meets in these bytes is followed, within them, by a wrong length, or by a whole
   * payload with a wrong checksum; the hunt goes on behind the length or the payload.
   */
  predicate Harmless(z: seq<byte>)
    decreases |z|
  {
    var j := SyncAt(z);
    j == |z|
    || (j + 4 <= |z|
        && if Declared(z[j + 2], z[j + 3]) != PAYLOAD_LEN then Harmless(z[j + 4..])
           else j + FRAME_LEN <= |z| && !ChecksumHolds(z[j + 4..j + FRAME_LEN]) && Harmless(z[j + FRAME_LEN..]))
  }

  /** A sync pair, from the hunt. */
  lemma RunSync(a: Assembler)
    requires WellFormed(a) && Hunting(a)
    ensures var (b, s) := Run(a, [SYNC_1, SYNC_2]); b.state == LenHigh && WellFormed(b) && s == []
  {
    hide Run;
    RunTwo(a, SYNC_1, SYNC_2);
  }

  /** A length, after a sync pair. */
  lemma RunLength(a: Assembler, high: byte, low: byte)
    requires WellFormed(a) && a.state == LenHigh
    ensures var (b, s) := Run(a, [high, low]);
            && s == [] && b.payload == []
            && b.state == if Declared(high, low) == PAYLOAD_LEN then Payload else Sync1
  {
    hide Run;
    RunTwo(a, high, low);
  }

  /** Up to and including the first sync pair. */
  lemma RunToSync(a: Assembler, z: seq<byte>, j: nat)
    requires WellFormed(a) && a.state == Sync1 && j == SyncAt(z) < |z|
    ensures var (b, s) := Run(a, z[..j + 2]); b.state == LenHigh && WellFormed(b) && s == []
  {
    hide Run;
    var noise := z[..j];
    assert Held(a) + noise == noise;
    RunNoise(a, noise);
    var b := Run(a, noise).0;
    RunSync(b);
    RunConcat(a, noise, [SYNC_1, SYNC_2]);
    assert noise + [SYNC_1, SYNC_2] == z[..j + 2];
  }

  /** Nothing comes out, and the assembler is back in the hunt. */
  predicate Passes(a: Assembler, z: seq<byte>)
    requires WellFormed(a)
  {
    Hunting(Run(a, z).0) && Run(a, z).1 == []
  }

  lemma PassesConcat(a: Assembler, x: seq<byte>, y: seq<byte>)
    requires WellFormed(a)
    ensures var (b, s) := Run(a, x); Passes(a, x + y) <==> s == [] && Passes(b, y)
  {
    hide Run, Hunting;
    RunConcat(a, x, y);
    var (b, s) := Run(a, x);
    Both(s, Run(b, y).1);
  }

  lemma Both(s: seq<Sample>, t: seq<Sample>)
    ensures s + t == [] <==> s == [] && t == []
  {
    assert |s + t| == |s| + |t|;
  }

  lemma PassesInParts(a: Assembler, z: seq<byte>, k: nat)
    requires WellFormed(a) && k <= |z|
    ensures var (b, s) := Run(a, z[..k]); Passes(a, z) <==> s == [] && Passes(b, z[k..])
  {
    hide Run, Passes;
    assert z[..k] + z[k..] == z;
    PassesConcat(a, z[..k], z[k..]);
  }

  /** Exactly the harmless bytes leave the assembler in the hunt with nothing delivered. */
  lemma {:induction false} HarmlessMeans(a: Assembler, z: seq<byte>)
    requires WellFormed(a) && a.state == Sync1
    ensures Harmless(z) <==> Passes(a, z)
    decreases |z|, 2
  {
    hide Run, Passes, ChecksumHolds, Harmless;
    var j := SyncAt(z);
    if j == |z| {
      assert Held(a) + z == z;
      RunNoise(a, z);
      assert Passes(a, z) by { PassesIs(a, z); }
      assert Harmless(z) by { NoSyncIsHarmless(z); }
    } else {
      RunToSync(a, z, j);
      PassesInParts(a, z, j + 2);
      AfterSync(Run(a, z[..j + 2]).0, z, j);
    }
  }

  lemma PassesIs(a: Assembler, z: seq<byte>)
    requires WellFormed(a)
    ensures Passes(a, z) <==> Hunting(Run(a, z).0) && Run(a, z).1 == []
  {
  }

  lemma NoSyncIsHarmless(z: seq<byte>)
    requires SyncAt(z) == |z|
    ensures Harmless(z)
  {
  }

  lemma {:induction false} AfterSync(a: Assembler, z: seq<byte>, j: nat)
    requires WellFormed(a) && a.state == LenHigh && j == SyncAt(z) < |z|
    ensures Harmless(z) <==> Passes(a, z[j + 2..])
    decreases |z|, 1
  {
    hide Run, Passes, ChecksumHolds;
    var rest := z[j + 2..];
    if |rest| < 2 {
      ShortLength(a, rest);
    } else {
      var high, low := z[j + 2], z[j + 3];
      assert rest[..2] == [high, low] && rest[2..] == z[j + 4..];
      RunLength(a, high, low);
      PassesInParts(a, rest, 2);
      var b := Run(a, [high, low]).0;
      if Declared(high, low) != PAYLOAD_LEN {
        HarmlessMeans(b, z[j + 4..]);
      } else {
        AfterLength(b, z, j);
      }
    }
  }

  lemma ShortLength(a: Assembler, rest: seq<byte>)
    requires WellFormed(a) && a.state == LenHigh && |rest| < 2
    ensures !Passes(a, rest)
  {
    if rest == [] {
      assert Run(a, rest) == (a, []);
    } else {
      assert rest == [rest[0]];
      RunOne(a, rest[0]);
    }
  }

  lemma {:induction false} AfterLength(a: Assembler, z: seq<byte>, j: nat)
    requires WellFormed(a) && a.state == Payload && a.payload == [] && j == SyncAt(z) && j + 4 <= |z|
    requires Declared(z[j + 2], z[j + 3]) == PAYLOAD_LEN
    ensures Harmless(z) <==> Passes(a, z[j + 4..])
    decreases |z|, 0
  {
    hide Run, Passes, ChecksumHolds;
    var rest := z[j + 4..];
    if |rest| < PAYLOAD_LEN {
      RunPayload(a, rest);
      assert !Passes(a, rest) by { PassesIs(a, rest); }
    } else {
      var p := z[j + 4..j + FRAME_LEN];
      assert rest[..PAYLOAD_LEN] == p && rest[PAYLOAD_LEN..] == z[j + FRAME_LEN..];
      RunWholePayload(a, p);
      PassesInParts(a, rest, PAYLOAD_LEN);
      CompleteChecks(a, p);
      if !ChecksumHolds(p) { HarmlessMeans(Run(a, p).0, z[j + FRAME_LEN..]); }
    }
  }

  lemma CompleteChecks(a: Assembler, p: seq<byte>)
    requires WellFormed(a) && |p| == PAYLOAD_LEN
    ensures var (b, s) := Complete(a, p); WellFormed(b) && b.state == Sync1 && (s == [] <==> !ChecksumHolds(p))
  {
    hide Sum;
  }

  // ----- The next frame -----

  /** Fewer bytes than a frame deliver nothing from the hunt's start. */
  lemma FewBytes(a: Assembler, bytes: seq<byte>)
    requires WellFormed(a) && a.state == Sync1 && |bytes| < FRAME_LEN
    ensures Run(a, bytes).1 == []
  {
    EveryByteIsAccounted(a, bytes);
  }

  const ZERO_DATA: seq<byte> := seq(DATA_LEN, _ => 0)

  /** A frame whose first bytes are taken for a length is lost. */
  lemma TakenForLength(a: Assembler, pn: nat, data: seq<byte>)
    requires WellFormed(a) && (a.state == LenHigh || a.state == LenLow) && pn < 0x1_0000 && |data| == DATA_LEN
    requires a.state == LenLow ==> a.declared % 256 == 0
    ensures Run(a, Encode(pn, data)).1 == []
  {
    hide Run;
    var f := Encode(pn, data);
    var k := if a.state == LenHigh then 2 else 1;
    assert f[0] == SYNC_1 && f[1] == SYNC_2 && f[..2] == [SYNC_1, SYNC_2] && f[..1] == [SYNC_1];
    if a.state == LenHigh { RunLength(a, SYNC_1, SYNC_2); } else { RunOne(a, SYNC_1); }
    var b := Run(a, f[..k]).0;
    assert b.state == Sync1 && Run(a, f[..k]).1 == [];
    FewBytes(b, f[k..]);
    RunConcat(a, f[..k], f[k..]);
    assert f[..k] + f[k..] == f;
  }

  /** A frame whose first bytes complete a payload: what comes out, if anything, holds its sync byte or fails. */
  lemma TakenForPayload(a: Assembler)
    requires WellFormed(a) && a.state == Payload
    ensures Run(a, Encode(0, ZERO_DATA)).1 != [Sample(0, ZERO_DATA)]
  {
    hide Run, Encode;
    var f, k := Encode(0, ZERO_DATA), PAYLOAD_LEN - |a.payload|;
    var p := a.payload + f[..k];
    RunRestOfPayload(a, f[..k]);
    var b := Run(a, f[..k]).0;
    FewBytes(b, f[k..]);
    RunConcat(a, f[..k], f[k..]);
    assert f[..k] + f[k..] == f;
    var s := Run(a, f[..k]).1;
    assert s + [] == s;
    assert p[|a.payload|] == SYNC_1 by { assert f[0] == SYNC_1 by { FirstByte(); } }
    NotZero(a, p, |a.payload|);
  }

  lemma FirstByte()
    ensures Encode(0, ZERO_DATA)[0] == SYNC_1
  {
  }

  lemma RunRestOfPayload(a: Assembler, rest: seq<byte>)
    requires WellFormed(a) && a.state == Payload && |a.payload| + |rest| == PAYLOAD_LEN
    ensures Run(a, rest) == Complete(a, a.payload + rest) && Run(a, rest).0.state == Sync1
  {
    hide Step, Complete;
    var n := |rest| - 1;
    var front, last := rest[..n], rest[n];
    RunPayload(a, front);
    var c, p := a.(payload := a.payload + front), a.payload + rest;
    assert p[PAYLOAD_LEN - 1] == last && p[..PAYLOAD_LEN - 1] == c.payload;
    LastByte(c, p);
    CompleteDropsPayload(a, c.payload, p);
    CompleteChecks(a, p);
    assert [] + Complete(a, p).1 == Complete(a, p).1;
  }

  /** A payload with a sync byte in it is not that of the zero frame. */
  lemma NotZero(a: Assembler, p: seq<byte>, i: nat)
    requires |p| == PAYLOAD_LEN && i < PAYLOAD_LEN && p[i] == SYNC_1
    ensures Complete(a, p).1 != [Sample(0, ZERO_DATA)]
  {
    hide Sum;
    var data := p[2..2 + DATA_LEN];
    if 2 <= i < 26 {
      assert data[i - 2] == SYNC_1 && ZERO_DATA[i - 2] == 0;
    } else if i == 26 && data == ZERO_DATA {
      ZeroSum();
    }
  }

  lemma ZeroSum()
    ensures Sum(ZERO_DATA) == 0
  {
    AllZero(DATA_LEN);
  }

  lemma {:induction false} AllZero(n: nat)
    ensures Sum(seq(n, _ => 0 as byte)) == 0
  {
    var z := seq(n, _ => 0 as byte);
    if n > 0 {
      AllZero(n - 1);
      assert z[..n - 1] == seq(n - 1, _ => 0 as byte);
    }
  }

  /** The next encoded frame comes out, and nothing else. */
  ghost predicate OnlyNext(a: Assembler, z: seq<byte>, pn: nat, data: seq<byte>)
    requires WellFormed(a) && pn < 0x1_0000 && |data| == DATA_LEN
  {
    Run(a, z + Encode(pn, data)).1 == [Sample(pn, data)]
  }

  lemma HarmlessKeepsNext(a: Assembler, z: seq<byte>, pn: nat, data: seq<byte>)
    requires WellFormed(a) && a.state == Sync1 && pn < 0x1_0000 && |data| == DATA_LEN && Harmless(z)
    ensures OnlyNext(a, z, pn, data)
  {
    hide Run, Encode, Harmless;
    HarmlessMeans(a, z);
    RunConcat(a, z, Encode(pn, data));
    RunEncoded(Run(a, z).0, pn, data);
    assert [] + [Sample(pn, data)] == [Sample(pn, data)];
  }

  /** A frame that other bytes do harm to. */
  lemma HarmIsDone(a: Assembler, z: seq<byte>) returns (pn: nat)
    requires WellFormed(a) && a.state == Sync1 && !Harmless(z)
    ensures pn < 0x1_0000 && !OnlyNext(a, z, pn, ZERO_DATA)
  {
    hide Run, Encode, Harmless;
    HarmlessMeans(a, z);
    var (b, s) := Run(a, z);
    if s != [] {
      pn := if s[0].pn == 0 then 1 else 0;
      RunConcat(a, z, Encode(pn, ZERO_DATA));
      assert (s + Run(b, Encode(pn, ZERO_DATA)).1)[0] == s[0];
    } else {
      pn := 0;
      RunConcat(a, z, Encode(0, ZERO_DATA));
      assert [] + Run(b, Encode(0, ZERO_DATA)).1 == Run(b, Encode(0, ZERO_DATA)).1;
      if b.state == Payload {
        TakenForPayload(b);
      } else {
        HighByteOnly(a, z);
        TakenForLength(b, 0, ZERO_DATA);
      }
    }
  }

  /** Before the low byte of a length, only the high byte is declared. */
  lemma {:induction false} HighByteOnly(a: Assembler, z: seq<byte>)
    requires WellFormed(a) && a.state == Sync1
    ensures var b := Run(a, z).0; b.state == LenLow ==> b.declared % 256 == 0
    decreases |z|
  {
    if z != [] { HighByteOnly(a, z[..|z| - 1]); }
  }

  /** The next frame survives these bytes, whatever it is, exactly when they are harmless. */
  lemma NextFrameSurvivesIff(a: Assembler, z: seq<byte>)
    requires WellFormed(a) && a.state == Sync1
    ensures (forall pn: nat, data: seq<byte> :: pn < 0x1_0000 && |data| == DATA_LEN ==> OnlyNext(a, z, pn, data))
            <==> Harmless(z)
  {
    hide Run, Encode, Harmless, OnlyNext;
    if Harmless(z) {
      forall pn: nat, data: seq<byte> | pn < 0x1_0000 && |data| == DATA_LEN ensures OnlyNext(a, z, pn, data) {
        HarmlessKeepsNext(a, z, pn, data);
      }
    } else {
      var pn := HarmIsDone(a, z);
    }
  }

  // ----- One corrupted header in a stream -----

  /** The stream in which byte k of g's header is x. */
  function Corrupted(gs: seq<Segment>, g: Segment, k: nat, x: byte, hs: seq<Segment>): seq<byte>
    requires AllProper(gs) && Proper(g) && AllProper(hs) && k < |Header()|
  {
    Stream(gs) + ((g.noise + Encode(g.pn, g.data)[k := x]) + Stream(hs))
  }

  /** What the hunt sees behind the corrupted header, up to the next frame. */
  function Remains(g: Segment, noise: seq<byte>): seq<byte>
    requires g.pn < 0x1_0000
  {
    PayloadBytes(g.pn, g.data) + noise
  }

  lemma Regroup(s: seq<byte>, n: seq<byte>, h: seq<byte>, p: seq<byte>, k: nat, x: byte, later: seq<byte>)
    requires k < |h|
    ensures s + ((n + (h + p)[k := x]) + later) == (s + (n + h[k := x])) + (p + later)
  {
    assert (h + p)[k := x] == h[k := x] + p;
  }

  /** Up to the corrupted header, all frames decode, and the hunt starts anew behind it. */
  lemma RunToPayload(a: Assembler, gs: seq<Segment>, g: Segment, k: nat, x: byte) returns (b: Assembler)
    requires WellFormed(a) && a.state == Sync1 && AllProper(gs) && Proper(g) && k < |Header()| && x != Header()[k]
    ensures WellFormed(b) && b.state == Sync1 && Run(a, Stream(gs) + (g.noise + Header()[k := x])) == (b, Samples(gs))
  {
    hide Run, Encode, Step;
    var h := Header()[k := x];
    StreamDecodes(a, gs);
    var c := Run(a, Stream(gs)).0;
    assert Held(c) + g.noise == g.noise;
    RunNoise(c, g.noise);
    HeaderSteps(Run(c, g.noise).0, k, x);
    RunConcat(c, g.noise, h);
    RunConcat(a, Stream(gs), g.noise + h);
    b := Run(a, Stream(gs) + (g.noise + h)).0;
    assert Samples(gs) + [] == Samples(gs) && [] + Run(c, g.noise).1 == [];
  }

  /** What decodes is what decoded before, and what the remains and the following frames give. */
  lemma RunCorrupted(a: Assembler, gs: seq<Segment>, g: Segment, k: nat, x: byte, hs: seq<Segment>)
    returns (b: Assembler)
    requires WellFormed(a) && a.state == Sync1 && AllProper(gs) && Proper(g) && AllProper(hs)
    requires k < |Header()| && x != Header()[k]
    ensures WellFormed(b) && b.state == Sync1
    ensures Run(a, Corrupted(gs, g, k, x, hs)).1 == Samples(gs) + Run(b, PayloadBytes(g.pn, g.data) + Stream(hs)).1
  {
    hide Run, Stream, Samples, PayloadBytes, Header;
    b := RunToPayload(a, gs, g, k, x);
    var p := PayloadBytes(g.pn, g.data);
    Regroup(Stream(gs), g.noise, Header(), p, k, x, Stream(hs));
    RunConcat(a, Stream(gs) + (g.noise + Header()[k := x]), p + Stream(hs));
  }

  /** After the last frame there is nothing to lose. */
  lemma LastHeaderLosesOneFrame(a: Assembler, gs: seq<Segment>, g: Segment, k: nat, x: byte)
    requires WellFormed(a) && a.state == Sync1 && AllProper(gs) && Proper(g) && k < |Header()| && x != Header()[k]
    ensures Run(a, Corrupted(gs, g, k, x, [])).1 == Samples(gs)
  {
    hide Run, PayloadBytes, Corrupted;
    var b := RunCorrupted(a, gs, g, k, x, []);
    var p := PayloadBytes(g.pn, g.data);
    assert p + Stream([]) == p;
    FewBytes(b, p);
    assert Samples(gs) + [] == Samples(gs);
  }

  /** The frames behind the next one decode in any case in which the next one does. */
  lemma RunRemains(b: Assembler, g: Segment, hs: seq<Segment>)
    requires WellFormed(b) && b.state == Sync1 && Proper(g) && AllProper(hs) && hs != []
             && Harmless(Remains(g, hs[0].noise))
    ensures Run(b, PayloadBytes(g.pn, g.data) + Stream(hs)).1 == Samples(hs)
  {
    hide Run, Encode, Harmless, PayloadBytes, NoSync, Hunting;
    var p, n, e, later := PayloadBytes(g.pn, g.data), hs[0].noise, Encode(hs[0].pn, hs[0].data), Stream(hs[1..]);
    HarmlessMeans(b, p + n);
    var c := Run(b, p + n).0;
    RunConcat(b, p + n, e + later);
    RunEncoded(c, hs[0].pn, hs[0].data);
    RunConcat(c, e, later);
    StreamDecodes(Run(c, e).0, hs[1..]);
    StreamCons(hs);
    assert p + ((n + e) + later) == (p + n) + (e + later);
    assert [] + ([Sample(hs[0].pn, hs[0].data)] + Samples(hs[1..])) == Samples(hs);
  }

  lemma StreamOfOne(h: Segment)
    requires Proper(h)
    ensures AllProper([h]) && Stream([h]) == h.noise + Encode(h.pn, h.data) && Samples([h]) == [Sample(h.pn, h.data)]
  {
    assert [h][..0] == [] && [] + Wire(h) == Wire(h);
  }

  /** Every frame but g decodes, whatever follows that noise. */
  ghost predicate LosesOnlyThat(a: Assembler, gs: seq<Segment>, g: Segment, k: nat, x: byte, noise: seq<byte>)
    requires WellFormed(a) && AllProper(gs) && Proper(g) && k < |Header()|
  {
    forall hs: seq<Segment> :: AllProper(hs) && hs != [] && hs[0].noise == noise ==>
      Run(a, Corrupted(gs, g, k, x, hs)).1 == Samples(gs) + Samples(hs)
  }

  /**
   * One changed header byte costs only its own frame, whatever frames follow, exactly when the frame's payload and the
   * noise up to the next frame are harmless: no sync pair in them is taken for a header whose length, or whose payload
   * with the right checksum or cut short by the next frame, misleads the assembler.
   */
  lemma HeaderCorruptionLosesOneFrameIff(a: Assembler, gs: seq<Segment>, g: Segment, k: nat, x: byte, noise: seq<byte>)
    requires WellFormed(a) && a.state == Sync1 && AllProper(gs) && Proper(g) && NoSync(noise)
    requires k < |Header()| && x != Header()[k]
    ensures LosesOnlyThat(a, gs, g, k, x, noise) <==> Harmless(Remains(g, noise))
  {
    hide Run, Harmless, Corrupted, NoSync, Stream, Samples, Remains;
    if Harmless(Remains(g, noise)) {
      forall hs: seq<Segment> | AllProper(hs) && hs != [] && hs[0].noise == noise
        ensures Run(a, Corrupted(gs, g, k, x, hs)).1 == Samples(gs) + Samples(hs)
      {
        var b := RunCorrupted(a, gs, g, k, x, hs);
        RunRemains(b, g, hs);
      }
    } else {
      var h := NextIsHarmed(a, gs, g, k, x, noise);
      assert !LosesOnlyThat(a, gs, g, k, x, noise) by { assert [h][0].noise == noise && AllProper([h]); }
    }
  }

  lemma NextIsHarmed(a: Assembler, gs: seq<Segment>, g: Segment, k: nat, x: byte, noise: seq<byte>) returns (h: Segment)
    requires WellFormed(a) && a.state == Sync1 && AllProper(gs) && Proper(g) && NoSync(noise)
    requires k < |Header()| && x != Header()[k] && !Harmless(Remains(g, noise))
    ensures h.noise == noise && AllProper([h]) && Run(a, Corrupted(gs, g, k, x, [h])).1 != Samples(gs) + Samples([h])
  {
    hide Run, Harmless, Corrupted, NoSync, Stream, Samples, Encode, PayloadBytes;
    var c := RunToPayload(a, gs, g, k, x);
    var pn := HarmIsDone(c, Remains(g, noise));
    h := Segment(noise, pn, ZERO_DATA);
    StreamOfOne(h);
    var p, e := PayloadBytes(g.pn, g.data), Encode(pn, ZERO_DATA);
    Regroup(Stream(gs), g.noise, Header(), p, k, x, Stream([h]));
    RunConcat(a, Stream(gs) + (g.noise + Header()[k := x]), p + Stream([h]));
    assert p + (noise + e) == (p + noise) + e;
    assert Corrupted(gs, g, k, x, [h]) == (Stream(gs) + (g.noise + Header()[k := x])) + (p + Stream([h])) by {
      CorruptedIs(gs, g, k, x, [h]);
    }
    SameFront(Samples(gs), Run(c, Remains(g, noise) + e).1, Samples([h]));
  }

  lemma CorruptedIs(gs: seq<Segment>, g: Segment, k: nat, x: byte, hs: seq<Segment>)
    requires AllProper(gs) && Proper(g) && AllProper(hs) && k < |Header()|
    ensures Corrupted(gs, g, k, x, hs)
         == (Stream(gs) + (g.noise + Header()[k := x])) + (PayloadBytes(g.pn, g.data) + Stream(hs))
  {
    hide Stream;
    Regroup(Stream(gs), g.noise, Header(), PayloadBytes(g.pn, g.data), k, x, Stream(hs));
  }

  lemma SameFront(front: seq<Sample>, s: seq<Sample>, t: seq<Sample>)
    requires s != t
    ensures front + s != front + t
  {
    assert (front + s)[|front|..] == s && (front + t)[|front|..] == t;
  }

  // ----- A payload without a sync pair that costs two frames -----

  const UNLUCKY := Segment([], 0, [SYNC_1] + seq(DATA_LEN - 1, _ => 0))
  const NEXT := Segment([SYNC_2], 0, ZERO_DATA)

  lemma UnluckyPayload()
    ensures Proper(UNLUCKY) && AllProper([NEXT]) && var p := PayloadBytes(UNLUCKY.pn, UNLUCKY.data);
            NoSync(p) && |p| == PAYLOAD_LEN && p[PAYLOAD_LEN - 1] == SYNC_1
  {
    var d, z := UNLUCKY.data, seq(DATA_LEN, _ => 0 as byte);
    assert d == z[0 := SYNC_1];
    AllZero(DATA_LEN);
    SumUpdate(z, 0, SYNC_1);
  }

  /**
   * The hunt takes the checksum byte and the noise byte behind it for a sync pair, and the next frame for its length.
   */
  lemma UnluckyRemains(a: Assembler)
    requires WellFormed(a) && a.state == Sync1
    ensures Run(a, PayloadBytes(UNLUCKY.pn, UNLUCKY.data) + Stream([NEXT])).1 == []
  {
    hide Run, Encode, PayloadBytes, NoSync;
    var p, e := PayloadBytes(UNLUCKY.pn, UNLUCKY.data), Encode(NEXT.pn, NEXT.data);
    UnluckyPayload();
    assert Held(a) + p == p;
    RunNoise(a, p);
    var b := Run(a, p).0;
    RunOne(b, SYNC_2);
    var c := Run(b, [SYNC_2]).0;
    TakenForLength(c, NEXT.pn, NEXT.data);
    StreamOfOne(NEXT);
    RunConcat(b, [SYNC_2], e);
    RunConcat(a, p, [SYNC_2] + e);
    var none: seq<Sample> := [];
    assert none + (none + none) == none;
  }

  /**
   * A changed header byte of a frame whose payload holds no sync pair can cost the next frame as well: nothing at all
   * decodes of these two frames.
   */
  lemma HeaderCorruptionCanLoseTwo(a: Assembler, k: nat, x: byte)
    requires WellFormed(a) && a.state == Sync1 && k < |Header()| && x != Header()[k]
    ensures Proper(UNLUCKY) && AllProper([NEXT]) && NoSync(PayloadBytes(UNLUCKY.pn, UNLUCKY.data))
    ensures Run(a, Corrupted([], UNLUCKY, k, x, [NEXT])).1 == []
  {
    hide Run, Encode, PayloadBytes, NoSync, Corrupted;
    UnluckyPayload();
    var b := RunCorrupted(a, [], UNLUCKY, k, x, [NEXT]);
    UnluckyRemains(b);
  }
}
