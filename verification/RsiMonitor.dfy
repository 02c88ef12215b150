/** Supervision of the RSI link: IPOC continuity, runs of misses, and a latched fault. */
module RsiMonitor {

  datatype Stats = Stats(connected: bool, fault: bool, lastIpoc: nat, totalTimeouts: nat, consecutive: nat,
                         badFrames: nat, ipocJumps: nat)
  const NEW_STATS := Stats(false, false, 0, 0, 0, 0, 0)

  datatype Event = Frame(ipoc: nat) | Timeout | BadFrame | ClearFault

  function MissOf(s: Stats, threshold: nat): Stats {
    var s := s.(consecutive := s.consecutive + 1);
    if s.consecutive >= threshold then s.(fault := true) else s
  }

  function EventOf(s: Stats, threshold: nat, e: Event): Stats {
    match e
    case Frame(ipoc) =>
      s.(ipocJumps := if s.connected && ipoc <= s.lastIpoc then s.ipocJumps + 1 else s.ipocJumps,
         lastIpoc := ipoc, connected := true, consecutive := 0)
    case Timeout => if s.connected then MissOf(s.(totalTimeouts := s.totalTimeouts + 1), threshold) else s
    case BadFrame => if s.connected then MissOf(s.(badFrames := s.badFrames + 1), threshold) else s
    case ClearFault => s.(fault := false, consecutive := 0)
  }

  function StatsOf(threshold: nat, h: seq<Event>): Stats {
    if h == [] then NEW_STATS else EventOf(StatsOf(threshold, h[..|h| - 1]), threshold, h[|h| - 1])
  }

  class RsiSessionMonitor {
    const threshold: nat
    var connected: bool
    var fault: bool
    var lastIpoc: nat
    var totalTimeouts: nat
    var consecutiveTimeouts: nat
    var badFrames: nat
    var ipocJumps: nat

    ghost function View(): Stats
      reads this
    {
      Stats(connected, fault, lastIpoc, totalTimeouts, consecutiveTimeouts, badFrames, ipocJumps)
    }

    constructor (threshold: nat)
      ensures View() == NEW_STATS && this.threshold == threshold
    {
      this.threshold := threshold;
      connected, fault, lastIpoc, totalTimeouts := false, false, 0, 0;
      consecutiveTimeouts, badFrames, ipocJumps := 0, 0, 0;
    }

    method OnFrame(ipoc: nat)
      modifies this
      ensures View() == EventOf(old(View()), threshold, Frame(ipoc))
    {
      if connected && ipoc <= lastIpoc {
        ipocJumps := ipocJumps + 1;
      }
      lastIpoc := ipoc;
      connected := true;
      consecutiveTimeouts := 0;
    }

    method OnTimeout()
      modifies this
      ensures View() == EventOf(old(View()), threshold, Timeout)
    {
      if !connected { return; }
      totalTimeouts := totalTimeouts + 1;
      CountMiss();
    }

    method OnBadFrame()
      modifies this
      ensures View() == EventOf(old(View()), threshold, BadFrame)
    {
      if !connected { return; }
      badFrames := badFrames + 1;
      CountMiss();
    }

    method CountMiss()
      modifies this
      ensures View() == MissOf(old(View()), threshold)
    {
      consecutiveTimeouts := consecutiveTimeouts + 1;
      if consecutiveTimeouts >= threshold {
        fault := true;
      }
    }

    method ClearFault()
      modifies this
      ensures View() == EventOf(old(View()), threshold, Event.ClearFault)
    {
      fault := false;
      consecutiveTimeouts := 0;
    }
  }

  // ----- What the fault flag and the jump counter say about the history -----

  predicate IsMiss(e: Event) { e.Timeout? || e.BadFrame? }

  /** Some frame came before position i. */
  ghost predicate ConnectedAt(h: seq<Event>, i: nat)
    requires i <= |h|
  {
    exists k :: 0 <= k < i && h[k].Frame?
  }

  /** n misses in a row, all after the first frame, end at position i. */
  ghost predicate MissesAt(h: seq<Event>, n: nat, i: nat) {
    n <= i <= |h| && ConnectedAt(h, i - n) && forall k :: i - n <= k < i ==> IsMiss(h[k])
  }

  /** Such a run of n misses, with no clear after it. */
  ghost predicate MissRun(h: seq<Event>, n: nat, i: nat) {
    MissesAt(h, n, i) && forall k :: i <= k < |h| ==> !h[k].ClearFault?
  }

  function LastFrame(h: seq<Event>): int {
    if h == [] then -1 else if h[|h| - 1].Frame? then h[|h| - 1].ipoc else LastFrame(h[..|h| - 1])
  }

  /** The frames whose IPOC does not exceed that of the frame before. */
  function Jumps(h: seq<Event>): nat {
    if h == [] then 0
    else Jumps(h[..|h| - 1]) + if h[|h| - 1].Frame? && h[|h| - 1].ipoc <= LastFrame(h[..|h| - 1]) then 1 else 0
  }

  lemma {:induction false} ConnectedMeans(threshold: nat, h: seq<Event>)
    ensures StatsOf(threshold, h).connected <==> ConnectedAt(h, |h|)
    ensures !StatsOf(threshold, h).connected ==> StatsOf(threshold, h).consecutive == 0
    decreases |h|
  {
    if h != [] {
      var g, e := h[..|h| - 1], h[|h| - 1];
      ConnectedMeans(threshold, g);
      if k :| 0 <= k < |g| && g[k].Frame? { assert h[k].Frame?; }
      if k :| 0 <= k < |h| && h[k].Frame? { assert k < |g| ==> g[k].Frame?; }
    }
  }

  /** `ipocJumps` counts the adjacent pairs of frames whose IPOC does not increase. */
  lemma {:induction false} JumpsCounted(threshold: nat, h: seq<Event>)
    ensures var s := StatsOf(threshold, h);
            && s.ipocJumps == Jumps(h) && (s.connected <==> LastFrame(h) >= 0)
               && (s.connected ==> s.lastIpoc == LastFrame(h))
    decreases |h|
  {
    if h != [] { JumpsCounted(threshold, h[..|h| - 1]); }
  }

  lemma MissesShrink(h: seq<Event>, n: nat, i: nat, m: nat)
    requires i <= m <= |h|
    ensures MissesAt(h[..m], n, i) <==> MissesAt(h, n, i)
  {
    if n <= i {
      assert forall k :: 0 <= k < i ==> h[..m][k] == h[k];
      if k :| 0 <= k < i - n && h[k].Frame? { assert h[..m][k].Frame?; }
      if k :| 0 <= k < i - n && h[..m][k].Frame? { assert h[k].Frame?; }
    }
  }

  /** The counter holds the misses in a row at the end of the history. */
  lemma {:induction false} ConsecutiveCounted(threshold: nat, h: seq<Event>, n: nat)
    requires n >= 1
    ensures StatsOf(threshold, h).consecutive >= n <==> MissesAt(h, n, |h|)
    decreases |h|
  {
    if h != [] {
      var m, e := |h| - 1, h[|h| - 1];
      var g := h[..m];
      ConnectedMeans(threshold, g);
      if IsMiss(e) {
        if n == 1 {
          if k :| 0 <= k < m && g[k].Frame? { assert h[k].Frame?; }
          if k :| 0 <= k < m && h[k].Frame? { assert g[k].Frame?; }
        } else {
          ConsecutiveCounted(threshold, g, n - 1);
          MissesShrink(h, n - 1, m, m);
          if MissesAt(h, n - 1, m) {
            var k :| 0 <= k < m - (n - 1) && h[k].Frame?;
            assert g[k].Frame?;
          }
        }
      }
    }
  }

  /**
   * The fault flag is set exactly when, since the last clear, `threshold` misses came in a row after the first
   * frame. (A threshold of 0 behaves like 1.)
   */
  lemma {:induction false} FaultIff(threshold: nat, h: seq<Event>)
    requires threshold >= 1
    ensures StatsOf(threshold, h).fault <==> exists i: nat :: MissRun(h, threshold, i)
    decreases |h|
  {
    if h != [] {
      var m, e := |h| - 1, h[|h| - 1];
      var g := h[..m];
      FaultIff(threshold, g);
      ConnectedMeans(threshold, g);
      ConsecutiveCounted(threshold, h, threshold);
      if i: nat :| MissRun(g, threshold, i) && !e.ClearFault? {
        MissesShrink(h, threshold, i, m);
        assert MissRun(h, threshold, i);
      }
      if StatsOf(threshold, h).consecutive >= threshold && IsMiss(e) { assert MissRun(h, threshold, |h|); }
      if i: nat :| MissRun(h, threshold, i) && i < |h| {
        MissesShrink(h, threshold, i, m);
        assert MissRun(g, threshold, i);
      }
    }
  }

  lemma {:induction false} ThresholdZeroIsOne(h: seq<Event>)
    ensures StatsOf(0, h) == StatsOf(1, h)
    decreases |h|
  {
    if h != [] { ThresholdZeroIsOne(h[..|h| - 1]); }
  }

  /** The events of this kind after the first frame. */
  function Counted(h: seq<Event>, kind: Event -> bool): nat {
    if h == [] then 0
    else Counted(h[..|h| - 1], kind) + if LastFrame(h[..|h| - 1]) >= 0 && kind(h[|h| - 1]) then 1 else 0
  }

  /** Timeouts and bad frames are counted from the first frame on, each in its own counter. */
  lemma {:induction false} MissesCounted(threshold: nat, h: seq<Event>)
    ensures var s := StatsOf(threshold, h);
            && s.totalTimeouts == Counted(h, (e: Event) => e.Timeout?)
            && s.badFrames == Counted(h, (e: Event) => e.BadFrame?)
    decreases |h|
  {
    if h != [] {
      MissesCounted(threshold, h[..|h| - 1]);
      JumpsCounted(threshold, h[..|h| - 1]);
    }
  }
}
