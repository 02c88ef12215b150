/** The binary frames of the SRI force/torque sensor: decoder and encoder. */
module SriFrame {

  type byte = x: int | 0 <= x < 256

  const SYNC_1: byte := 0xAA
  const SYNC_2: byte := 0x55
  const DATA_LEN := 24
  const PAYLOAD_LEN := 27
  const FRAME_LEN := 31

  /** The six floats of a sample stay as their 24 bytes. */
  datatype Sample = Sample(pn: nat, data: seq<byte>)

  datatype State = Sync1 | Sync2 | LenHigh | LenLow | Payload

  datatype Stats = Stats(frames: nat, badChecksum: nat, badLength: nat, dropped: nat, skipped: nat)
  const NO_STATS := Stats(0, 0, 0, 0, 0)

  /** `payload` is the part received so far, empty outside the payload. */
  datatype Assembler = Assembler(state: State, declared: nat, payload: seq<byte>, stats: Stats)
  const NEW_ASSEMBLER := Assembler(Sync1, 0, [], NO_STATS)

  predicate WellFormed(a: Assembler) {
    if a.state.Payload? then |a.payload| < PAYLOAD_LEN else a.payload == []
  }

  function Sum(s: seq<byte>): nat {
    if s == [] then 0 else Sum(s[..|s| - 1]) + (s[|s| - 1] as nat)
  }

  /** The first two payload bytes, big-endian. */
  function PackageNumber(high: byte, low: byte): (pn: nat)
    ensures pn < 0x1_0000 && pn / 256 == high && pn % 256 == low
  {
    (high as nat) * 256 + (low as nat)
  }

  function Skip(a: Assembler, n: nat, state: State): Assembler {
    a.(stats := a.stats.(skipped := a.stats.skipped + n), state := state)
  }

  /** A complete payload: package number, data, checksum of the data. */
  function Complete(a: Assembler, p: seq<byte>): (Assembler, seq<Sample>)
    requires |p| == PAYLOAD_LEN
  {
    var idle := a.(state := Sync1, payload := []);
    if Sum(p[2..2 + DATA_LEN]) % 256 != p[PAYLOAD_LEN - 1]
    then (idle.(stats := a.stats.(badChecksum := a.stats.badChecksum + 1)), [])
    else (idle.(stats := a.stats.(frames := a.stats.frames + 1)),
      [Sample(PackageNumber(p[0], p[1]), p[2..2 + DATA_LEN])])
  }

  function Step(a: Assembler, b: byte): (r: (Assembler, seq<Sample>))
    requires WellFormed(a)
    ensures WellFormed(r.0) && r.0.stats.dropped == a.stats.dropped && |r.1| <= 1
  {
    match a.state
    case Sync1 => (if b == SYNC_1 then a.(state := Sync2) else Skip(a, 1, Sync1), [])
    case Sync2 =>
      (if b == SYNC_2 then a.(state := LenHigh)
       else if b == SYNC_1 then Skip(a, 1, Sync2)
       else Skip(a, 2, Sync1), [])
    case LenHigh => (a.(declared := b * 256, state := LenLow), [])
    case LenLow =>
      var a := a.(declared := a.declared + b);
      (if a.declared != PAYLOAD_LEN
       then a.(state := Sync1, stats := a.stats.(badLength := a.stats.badLength + 1))
       else a.(state := Payload), [])
    case Payload =>
      var p := a.payload + [b];
      if |p| == PAYLOAD_LEN then Complete(a, p) else (a.(payload := p), [])
  }

  /** All valid samples of a byte sequence, whether or not the caller has room for them. */
  function Run(a: Assembler, bytes: seq<byte>): (r: (Assembler, seq<Sample>))
    requires WellFormed(a)
    ensures WellFormed(r.0) && r.0.stats.dropped == a.stats.dropped
    decreases |bytes|
  {
    if bytes == [] then (a, [])
    else
      var (a1, s1) := Run(a, bytes[..|bytes| - 1]);
      var (a2, s2) := Step(a1, bytes[|bytes| - 1]);
      (a2, s1 + s2)
  }

  /** One call with room for `room` samples. */
  function FeedOf(a: Assembler, bytes: seq<byte>, room: nat): (r: (Assembler, seq<Sample>))
    requires WellFormed(a)
    ensures WellFormed(r.0) && |r.1| <= room
    decreases |bytes|
  {
    if bytes == [] then (a, [])
    else
      var (a1, s1) := FeedOf(a, bytes[..|bytes| - 1], room);
      var (a2, s2) := Step(a1, bytes[|bytes| - 1]);
      if s2 != [] && |s1| >= room then (a2.(stats := a2.stats.(dropped := a2.stats.dropped + 1)), s1)
      else assert |s2| <= 1; (a2, s1 + s2)
  }

  class SriFrameAssembler {
    var state: State
    var declaredLen: nat
    const payload: array<byte>
    var payloadFill: nat
    var frames: nat
    var badChecksum: nat
    var badLength: nat
    var dropped: nat
    var skippedBytes: nat

    ghost predicate Valid()
      reads this, payload
    {
      payload.Length == PAYLOAD_LEN && (state.Payload? ==> payloadFill < PAYLOAD_LEN)
    }

    ghost function View(): Assembler
      requires Valid()
      reads this, payload
    {
      Assembler(state, declaredLen, if state.Payload? then payload[..payloadFill] else [],
                Stats(frames, badChecksum, badLength, dropped, skippedBytes))
    }

    constructor ()
      ensures Valid() && View() == NEW_ASSEMBLER && fresh(payload)
    {
      state, declaredLen, payloadFill := Sync1, 0, 0;
      payload := new byte[PAYLOAD_LEN];
      frames, badChecksum, badLength, dropped, skippedBytes := 0, 0, 0, 0, 0;
    }

    method Reset()
      requires Valid()
      modifies this
      ensures Valid() && View() == old(View()).(state := Sync1, declared := 0, payload := [])
    {
      state := Sync1;
      declaredLen := 0;
      payloadFill := 0;
    }

    method Feed(data: seq<byte>, out: array<Sample>, maxOut: nat) returns (written: nat)
      requires Valid() && maxOut <= out.Length
      modifies this, payload, out
      ensures Valid()
      ensures written <= maxOut && (View(), out[..written]) == FeedOf(old(View()), data, maxOut)
      ensures out[written..] == old(out[..])[written..]
    {
      hide Step;
      written := 0;
      ghost var start := View();
      for i := 0 to |data|
        invariant Valid() && written <= maxOut
        invariant FeedOf(start, data[..i], maxOut) == (View(), out[..written])
        invariant out[written..] == old(out[..])[written..]
      {
        ghost var sofar, before := out[..written], View();
        var sample := OnByte(data[i]);
        ghost var after := View();
        assert out[..written] == sofar;
        FeedNext(start, data, i, maxOut, before, sofar, after, sample);
        if |sample| > 0 {
          if written >= maxOut {
            dropped := dropped + 1;
          } else {
            out[written] := sample[0];
            written := written + 1;
            assert out[..written] == sofar + sample && View() == after;
          }
        }
      }
      assert data[..|data|] == data;
    }

    /** The `switch` of `feed`; a valid frame is returned as a one-element sequence. */
    method OnByte(b: byte) returns (sample: seq<Sample>)
      requires Valid()
      modifies this, payload
      ensures Valid() && (View(), sample) == Step(old(View()), b)
    {
      sample := [];
      match state {
        case Sync1 =>
          if b == SYNC_1 {
            state := Sync2;
          } else {
            skippedBytes := skippedBytes + 1;
          }
        case Sync2 =>
          if b == SYNC_2 {
            state := LenHigh;
          } else if b == SYNC_1 {
            skippedBytes := skippedBytes + 1;
          } else {
            skippedBytes := skippedBytes + 2;
            state := Sync1;
          }
        case LenHigh =>
          declaredLen := b * 256;
          state := LenLow;
        case LenLow =>
          declaredLen := declaredLen + b;
          if declaredLen != PAYLOAD_LEN {
            badLength := badLength + 1;
            state := Sync1;
          } else {
            payloadFill := 0;
            state := Payload;
          }
        case Payload =>
          sample := OnPayload(b);
      }
    }

    method OnPayload(b: byte) returns (sample: seq<Sample>)
      requires Valid() && state.Payload?
      modifies this, payload
      ensures Valid() && (View(), sample) == Step(old(View()), b)
    {
      sample := [];
      ghost var p := payload[..payloadFill] + [b];
      payload[payloadFill] := b;
      payloadFill := payloadFill + 1;
      assert payload[..payloadFill] == p;
      if payloadFill == PAYLOAD_LEN {
        state := Sync1;
        var sum: nat := 0;
        for k := 2 to 2 + DATA_LEN
          invariant sum == Sum(payload[2..k])
        {
          sum := sum + (payload[k] as nat);
          assert payload[2..k + 1][..k - 2] == payload[2..k];
        }
        if sum % 256 != payload[PAYLOAD_LEN - 1] {
          badChecksum := badChecksum + 1;
          return;
        }
        frames := frames + 1;
        sample := [Sample(PackageNumber(payload[0], payload[1]), payload[2..2 + DATA_LEN])];
      }
    }
  }

  lemma FeedNext(a: Assembler, data: seq<byte>, i: nat, room: nat, before: Assembler, sofar: seq<Sample>,
                 after: Assembler, sample: seq<Sample>)
    requires WellFormed(a) && i < |data|
    requires FeedOf(a, data[..i], room) == (before, sofar) && Step(before, data[i]) == (after, sample)
    ensures FeedOf(a, data[..i + 1], room)
         == if sample == [] then (after, sofar)
            else if |sofar| >= room then (after.(stats := after.stats.(dropped := after.stats.dropped + 1)), sofar)
            else (after, sofar + sample)
  {
    assert data[..i + 1][..i] == data[..i];
    assert sofar + [] == sofar;
  }

  /** A call delivers the first `room` valid samples and counts the others as dropped. */
  lemma {:induction false} FeedMeaning(a: Assembler, bytes: seq<byte>, room: nat)
    requires WellFormed(a)
    ensures var (x, all) := Run(a, bytes); var (v, out) := FeedOf(a, bytes, room);
            && out == (if |all| <= room then all else all[..room])
            && v == x.(stats := x.stats.(dropped := a.stats.dropped + |all| - |out|))
    decreases |bytes|
  {
    if bytes != [] {
      var bs, b := bytes[..|bytes| - 1], bytes[|bytes| - 1];
      FeedMeaning(a, bs, room);
      var (x, all) := Run(a, bs);
      var (v, out) := FeedOf(a, bs, room);
      StepDropped(x, b, v.stats.dropped);
    }
  }

  /** The number of dropped samples does not influence anything else. */
  lemma StepDropped(a: Assembler, b: byte, n: nat)
    requires WellFormed(a)
    ensures var (x, s) := Step(a, b);
            Step(a.(stats := a.stats.(dropped := n)), b) == (x.(stats := x.stats.(dropped := n)), s)
  {
  }
}
