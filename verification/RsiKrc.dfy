/** The KRC's side of the RSI cycle: state frames out, corrections integrated into the pose. */
module RsiKrc {
  import opened RsiEndpoints

  datatype KrcConfig = KrcConfig(pose: seq<real>, ipocStart: nat, ipocStep: nat)

  datatype Krc = Krc(pose: seq<real>, nextIpoc: nat, awaited: nat, awaiting: bool, framesSent: nat, replies: nat,
                     replyTimeouts: nat, echoErrors: nat, parseErrors: nat, lastStop: int, lastWatchdog: nat)

  function InitialKrc(c: KrcConfig): Krc { Krc(c.pose, c.ipocStart, 0, false, 0, 0, 0, 0, 0, 0, 0) }

  /** Something that arrived on the reply socket. */
  datatype Datagram = Garbage | Reply(sen: Sen)

  function Rounded(p: seq<real>): (r: seq<real>)
    ensures |r| == |p|
  { seq(|p|, i requires 0 <= i < |p| => Round4(p[i])) }

  function SendOf(c: KrcConfig, k: Krc): (Krc, Rob) {
    (k.(awaited := k.nextIpoc, awaiting := true, nextIpoc := k.nextIpoc + c.ipocStep, framesSent := k.framesSent + 1),
     Rob(Rounded(k.pose), k.nextIpoc))
  }

  predicate Fresh(k: Krc, d: Datagram) { d.Reply? && k.awaiting && d.sen.ipoc == k.awaited }

  function Moved(p: seq<real>, corr: seq<real>): (r: seq<real>)
    requires |p| == |corr|
    ensures |r| == |p|
  { seq(|p|, i requires 0 <= i < |p| => p[i] + corr[i]) }

  function ApplyOf(k: Krc, d: Datagram): Krc
    requires d.Reply? ==> |d.sen.corr| == |k.pose|
  {
    match d
    case Garbage => k.(parseErrors := k.parseErrors + 1)
    case Reply(sen) =>
      var k := k.(replies := k.replies + 1);
      if !k.awaiting || sen.ipoc != k.awaited then k.(echoErrors := k.echoErrors + 1)
      else k.(awaiting := false, pose := Moved(k.pose, sen.corr), lastStop := sen.stop, lastWatchdog := sen.watchdog)
  }

  /** Replies that are not fresh only count: everything else stays. */
  function ApplyAll(k: Krc, ds: seq<Datagram>): (r: Krc)
    requires forall d :: d in ds && d.Reply? ==> |d.sen.corr| == |k.pose|
    ensures |r.pose| == |k.pose|
    decreases |ds|
  {
    if ds == [] then k
    else
      var k' := ApplyAll(k, ds[..|ds| - 1]);
      assert ds[|ds| - 1] in ds;
      ApplyOf(k', ds[|ds| - 1])
  }

  class RsiMockCore {
    const cfg: KrcConfig
    var pose: seq<real>
    var nextIpoc: nat
    var awaitedIpoc: nat
    var awaiting: bool
    var framesSent: nat
    var repliesReceived: nat
    var replyTimeouts: nat
    var ipocEchoErrors: nat
    var parseErrors: nat
    var lastStop: int
    var lastWatchdog: nat

    ghost function View(): Krc
      reads this
    {
      Krc(pose, nextIpoc, awaitedIpoc, awaiting, framesSent, repliesReceived, replyTimeouts, ipocEchoErrors,
          parseErrors, lastStop, lastWatchdog)
    }

    constructor (cfg: KrcConfig)
      ensures View() == InitialKrc(cfg) && this.cfg == cfg
    {
      this.cfg := cfg;
      pose, nextIpoc, awaitedIpoc, awaiting := cfg.pose, cfg.ipocStart, 0, false;
      framesSent, repliesReceived, replyTimeouts, ipocEchoErrors, parseErrors := 0, 0, 0, 0, 0;
      lastStop, lastWatchdog := 0, 0;
    }

    method BuildStateFrame() returns (frame: Rob)
      modifies this
      ensures (View(), frame) == SendOf(cfg, old(View()))
    {
      frame := Rob(Rounded(pose), nextIpoc);
      awaitedIpoc := nextIpoc;
      awaiting := true;
      nextIpoc := nextIpoc + cfg.ipocStep;
      framesSent := framesSent + 1;
    }

    method ApplyReply(d: Datagram) returns (applied: bool)
      requires d.Reply? ==> |d.sen.corr| == |pose|
      modifies this
      ensures View() == ApplyOf(old(View()), d) && applied == Fresh(old(View()), d)
    {
      if d.Garbage? {
        parseErrors := parseErrors + 1;
        return false;
      }
      repliesReceived := repliesReceived + 1;
      if !awaiting || d.sen.ipoc != awaitedIpoc {
        ipocEchoErrors := ipocEchoErrors + 1;
        return false;
      }
      awaiting := false;
      pose := Moved(pose, d.sen.corr);
      lastStop := d.sen.stop;
      lastWatchdog := d.sen.watchdog;
      return true;
    }

    method NoteReplyTimeout()
      modifies this
      ensures View() == old(View()).(replyTimeouts := old(replyTimeouts) + 1)
    {
      replyTimeouts := replyTimeouts + 1;
    }
  }

  /**
   * One reply window: `arriving` is what reaches the socket before the deadline, in order. The window ends with
   * the first fresh reply; without one it drains everything, and counts a timeout only if nothing came at all.
   */
  method ReceiveReplyWindow(core: RsiMockCore, arriving: seq<Datagram>) returns (applied: bool, taken: nat)
    requires forall d :: d in arriving && d.Reply? ==> |d.sen.corr| == |core.pose|
    modifies core
    ensures taken <= |arriving|
    ensures forall i :: 0 <= i < taken - 1 ==> !Fresh(old(core.View()), arriving[i])
    ensures applied ==> taken > 0 && Fresh(old(core.View()), arriving[taken - 1])
    ensures !applied ==> taken == |arriving| && (forall d :: d in arriving ==> !Fresh(old(core.View()), d))
    ensures core.View() == if arriving == [] then old(core.View()).(replyTimeouts := old(core.replyTimeouts) + 1)
                           else ApplyAll(old(core.View()), arriving[..taken])
  {
    var gotReply := false;
    taken, applied := 0, false;
    ghost var start := core.View();
    while taken < |arriving|
      invariant taken <= |arriving| && gotReply == (taken > 0)
      invariant forall i :: 0 <= i < taken ==> !Fresh(start, arriving[i])
      invariant core.View() == ApplyAll(start, arriving[..taken])
      invariant core.awaiting == start.awaiting && core.awaitedIpoc == start.awaited && |core.pose| == |start.pose|
    {
      gotReply := true;
      assert arriving[..taken + 1][..taken] == arriving[..taken] && arriving[taken] in arriving;
      var ok := core.ApplyReply(arriving[taken]);
      taken := taken + 1;
      if ok { return true, taken; }
    }
    assert arriving[..taken] == arriving;
    if !gotReply { core.NoteReplyTimeout(); }
  }
}
