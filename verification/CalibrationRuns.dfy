/**
 * Every run of the calibration sequencer, with motion results at any time: exactly when it keeps its plan, and exactly
 * when it samples where it was told to go.
 */
module CalibrationRuns {
  import opened Types
  import opened Calibration

  // ----- Runs: motion results may arrive at any time, successful or not, any number of times -----

  /**
   * The wrenches averaged at one pose, when the robot was reported to have arrived, how many goals had been emitted by
   * then, and when sampling began.
   */
  datatype Block = Block(arrived: real, goals: nat, sampledFrom: real, ws: seq<Wrench>)

  /**
   * Since the last accepted start: the goals emitted, how many there were at the latest arrival and when that was, the
   * blocks.
   */
  datatype Run = Run(s: Seq, emitted: seq<Pose>, arrivedAfter: nat, arrivedAt: real, blocks: seq<Block>, current: Block)
  const NEW_RUN := Run(NEW_SEQ, [], 0, 0.0, [], Block(0.0, 0, 0.0, []))

  datatype Event =
    | Start
    | Cancel
    | LoseStream
    | Tick(now: real)
    | Result(success: bool, now: real)
    | Measured(w: Wrench)

  /** No call reads past the poses, whatever arrives when. */
  function Do(c: Config, r: Run, e: Event): (t: Run)
    requires Sane(c, r.s)
    ensures Sane(c, t.s)
  {
    match e
    case Start => if StartAccepted(c, r.s) then NEW_RUN.(s := StartOf(c, r.s)) else r
    case Cancel => r.(s := FailOf(r.s, Cancelled))
    case LoseStream => r.(s := FailOf(r.s, StreamLost))
    case Tick(now) =>
      var (s, goal) := TickOf(c, r.s, now);
      var t := if r.s.phase.Settling? && s.phase.Sampling?
               then r.(current := Block(r.arrivedAt, r.arrivedAfter, now, [])) else r;
      t.(s := s, emitted := if goal.Some? then r.emitted + [goal.value] else r.emitted)
    case Result(success, now) =>
      r.(s := ResultOf(r.s, success, now),
         arrivedAfter := if r.s.phase.Moving? || r.s.phase.Returning? then |r.emitted| else r.arrivedAfter,
         arrivedAt := if r.s.phase.Moving? then now else r.arrivedAt)
    case Measured(w) =>
      var s := WrenchOf(c, r.s, w);
      if !r.s.phase.Sampling? then r
      else
        var b := r.current.(ws := r.current.ws + [w]);
        r.(s := s, current := b, blocks := if |s.samples| > |r.s.samples| then r.blocks + [b] else r.blocks)
  }

  /** The run after the first n events. */
  function After(c: Config, es: seq<Event>, n: nat): (r: Run)
    requires n <= |es|
    ensures Sane(c, r.s)
  {
    if n == 0 then NEW_RUN else Do(c, After(c, es, n - 1), es[n - 1])
  }

  lemma {:induction false} AfterPrefix(c: Config, es: seq<Event>, more: seq<Event>, n: nat)
    requires n <= |es|
    ensures After(c, es + more, n) == After(c, es, n)
  {
    if n > 0 { AfterPrefix(c, es, more, n - 1); }
  }

  // ----- What a run promises -----

  /** The goals of a complete run, in order. */
  function Plan(c: Config): seq<Pose> { c.poses + [c.returnPose] }

  ghost predicate BlockOk(c: Config, b: Block) {
    |b.ws| == c.samplesPerPose && b.sampledFrom - b.arrived >= c.settleTime
  }

  ghost predicate SamplesOk(c: Config, r: Run, n: nat) {
    && c.samplesPerPose > 0 && n <= |c.poses| && |r.s.samples| == n == |r.blocks|
    && forall i :: 0 <= i < n ==>
         BlockOk(c, r.blocks[i]) && r.s.samples[i] == Sample(c.poses[i], Over(Total(r.blocks[i].ws), c.samplesPerPose))
  }

  /**
   * The goals emitted since the last start are a prefix of the poses followed by the return pose, each once; every
   * finished pose contributed the mean of exactly samplesPerPose wrenches taken after settling; DONE means all goals,
   * all samples, and an ok fit of exactly these samples.
   */
  ghost predicate KeepsPlan(c: Config, r: Run) {
    && |r.emitted| <= |c.poses| + 1 && r.emitted == Plan(c)[..|r.emitted|]
    && (Active(r.s) ==> SamplesOk(c, r, |r.s.samples|))
    && (r.s.phase.Done? ==>
          SamplesOk(c, r, |c.poses|) && r.emitted == Plan(c) && r.s.fit == c.solve(r.s.samples) && r.s.fit.ok)
  }

  /**
   * Each arrival was reported after its own goal, and before the next one: at a pose, and for DONE at the return pose.
   */
  ghost predicate ArrivesAtGoals(c: Config, r: Run) {
    && (forall i :: 0 <= i < |r.blocks| ==> r.blocks[i].goals == i + 1)
    && (r.s.phase.Settling? ==> r.arrivedAfter == r.s.idx + 1)
    && (r.s.phase.Sampling? ==> r.current.goals == r.s.idx + 1)
    && (r.s.phase.Done? ==> r.arrivedAfter == |c.poses| + 1)
  }

  /** A result that comes while the return goal waits for its emission. */
  predicate OvertakesReturn(r: Run, e: Event) { e.Result? && r.s.phase.Returning? && r.s.goalPending }

  /** A result that is taken for the answer to a goal that waits for its emission. */
  predicate Overtakes(r: Run, e: Event) {
    e.Result? && r.s.goalPending && (r.s.phase.Returning? || (r.s.phase.Moving? && e.success))
  }

  predicate OvertakesReturnAt(c: Config, es: seq<Event>, i: nat) { i < |es| && OvertakesReturn(After(c, es, i), es[i]) }

  predicate OvertakesAt(c: Config, es: seq<Event>, i: nat) { i < |es| && Overtakes(After(c, es, i), es[i]) }

  // ----- Every event but a bad result keeps it -----

  ghost predicate Inv(c: Config, r: Run) {
    var s, p, waiting := r.s, |c.poses|, if r.s.goalPending then 0 else 1;
    && |r.emitted| <= p + 1 && r.emitted == Plan(c)[..|r.emitted|]
    && match s.phase
       case Idle => !s.goalPending && r.emitted == [] && r.blocks == []
       case Moving => SamplesOk(c, r, s.idx) && |r.emitted| == s.idx + waiting
       case Settling => SamplesOk(c, r, s.idx) && |r.emitted| == s.idx + waiting && s.settleStart == r.arrivedAt
       case Sampling =>
         && SamplesOk(c, r, s.idx) && |r.emitted| == s.idx + 1 && !s.goalPending
         && s.count == |r.current.ws| < c.samplesPerPose && s.accum == Total(r.current.ws)
         && r.current.sampledFrom - r.current.arrived >= c.settleTime
       case Returning =>
         && SamplesOk(c, r, p) && s.fit == c.solve(s.samples) && s.fit.ok && s.idx == p - 1
            && |r.emitted| == p + waiting
       case Done => SamplesOk(c, r, p) && s.fit == c.solve(s.samples) && s.fit.ok && |r.emitted| == p + 1
         && !s.goalPending
       case Failed => !s.goalPending
  }

  /** The same, with every arrival after its own goal. */
  ghost predicate ArrivalInv(c: Config, r: Run) {
    && Inv(c, r) && ArrivesAtGoals(c, r) && (r.s.phase.Settling? ==> !r.s.goalPending)
    && (r.s.phase.Settling? || r.s.phase.Sampling? || r.s.phase.Moving? ==> |r.blocks| == r.s.idx)
  }

  lemma MeasuredStep(c: Config, r: Run, w: Wrench)
    requires Sane(c, r.s) && Inv(c, r) && r.s.phase.Sampling?
    ensures Inv(c, Do(c, r, Measured(w)))
  {
    hide Add, Over, BlockOk;
    var t, ws := Do(c, r, Measured(w)), r.current.ws + [w];
    assert ws[..|ws| - 1] == r.current.ws;
    if |t.s.samples| > |r.s.samples| {
      assert t.s.samples == r.s.samples + [t.s.samples[r.s.idx]];
      assert t.blocks == r.blocks + [t.blocks[r.s.idx]];
      assert BlockOk(c, t.blocks[r.s.idx]) by { BlockIsOk(c, r, w); }
    }
  }

  lemma BlockIsOk(c: Config, r: Run, w: Wrench)
    requires Sane(c, r.s) && Inv(c, r) && r.s.phase.Sampling? && |r.current.ws| + 1 == c.samplesPerPose
    ensures BlockOk(c, r.current.(ws := r.current.ws + [w]))
  {
  }

  lemma TickStep(c: Config, r: Run, now: real)
    requires Sane(c, r.s) && Inv(c, r)
    ensures Inv(c, Do(c, r, Tick(now)))
  {
    hide SamplesOk;
    var t := Do(c, r, Tick(now));
    assert SamplesOk(c, t, |t.s.samples|) <==> SamplesOk(c, r, |r.s.samples|) by { SamplesKept(c, r, t); }
    SamplesKept(c, r, t);
  }

  lemma SamplesKept(c: Config, r: Run, t: Run)
    requires t.s.samples == r.s.samples && t.blocks == r.blocks
    ensures forall n: nat :: SamplesOk(c, t, n) <==> SamplesOk(c, r, n)
  {
  }

  lemma Step(c: Config, r: Run, e: Event)
    requires Sane(c, r.s) && Inv(c, r) && !OvertakesReturn(r, e)
    ensures Inv(c, Do(c, r, e))
  {
    hide SamplesOk;
    if e.Measured? && r.s.phase.Sampling? {
      MeasuredStep(c, r, e.w);
    } else if e.Tick? {
      TickStep(c, r, e.now);
    } else if e.Start? && StartAccepted(c, r.s) {
      StartStep(c, r);
    } else {
      SamplesKept(c, r, Do(c, r, e));
    }
  }

  lemma StartStep(c: Config, r: Run)
    requires Sane(c, r.s) && StartAccepted(c, r.s)
    ensures Inv(c, Do(c, r, Start))
  {
  }

  lemma ArrivalStep(c: Config, r: Run, e: Event)
    requires Sane(c, r.s) && ArrivalInv(c, r) && !Overtakes(r, e)
    ensures ArrivalInv(c, Do(c, r, e))
  {
    Step(c, r, e);
    hide Inv, Plan;
    NumbersStep(c, r, e);
  }

  lemma NumbersStep(c: Config, r: Run, e: Event)
    requires Sane(c, r.s) && ArrivalInv(c, r) && !Overtakes(r, e)
    ensures var t := Do(c, r, e);
            && ArrivesAtGoals(c, t) && (t.s.phase.Settling? ==> !t.s.goalPending)
            && (t.s.phase.Settling? || t.s.phase.Sampling? || t.s.phase.Moving? ==> |t.blocks| == t.s.idx)
  {
    hide Plan, Add, Over, Total, BlockOk;
  }

  // ----- Exactly when a run keeps its promises -----

  lemma {:induction false} PlanUntil(c: Config, es: seq<Event>, n: nat)
    requires n <= |es| && forall i: nat :: i < n ==> !OvertakesReturnAt(c, es, i)
    ensures Inv(c, After(c, es, n))
  {
    hide Inv, Do;
    if n == 0 {
      NothingYet(c);
    } else {
      PlanUntil(c, es, n - 1);
      assert !OvertakesReturnAt(c, es, n - 1);
      Step(c, After(c, es, n - 1), es[n - 1]);
    }
  }

  lemma NothingYet(c: Config)
    ensures ArrivalInv(c, NEW_RUN)
  {
  }

  lemma InvKeepsPlan(c: Config, r: Run)
    requires Sane(c, r.s) && Inv(c, r)
    ensures KeepsPlan(c, r)
  {
    hide SamplesOk;
    assert r.s.phase.Done? ==> Plan(c)[..|c.poses| + 1] == Plan(c);
    assert forall n: nat :: SamplesOk(c, r, n) ==> n == |r.s.samples| by { SamplesCount(c, r); }
  }

  lemma SamplesCount(c: Config, r: Run)
    ensures forall n: nat :: SamplesOk(c, r, n) ==> n == |r.s.samples|
  {
  }

  /** DONE without the return goal. */
  lemma {:induction false} OvertakingBreaksPlan(c: Config, es: seq<Event>, i: nat)
    requires OvertakesReturnAt(c, es, i)
    ensures exists n: nat :: n <= |es| && !KeepsPlan(c, After(c, es, n))
  {
    hide After;
    if j: nat :| j < i && OvertakesReturnAt(c, es, j) {
      OvertakingBreaksPlan(c, es, j);
    } else {
      PlanUntil(c, es, i);
      var m := i + 1;
      assert After(c, es, m) == Do(c, After(c, es, i), es[i]) by { OneMore(c, es, i); }
      assert !KeepsPlan(c, After(c, es, m)) by { assert |Plan(c)| == |c.poses| + 1; }
    }
  }

  lemma OneMore(c: Config, es: seq<Event>, i: nat)
    requires i < |es|
    ensures After(c, es, i + 1) == Do(c, After(c, es, i), es[i])
  {
  }

  /**
   * Whatever motion results arrive when, a run keeps its plan throughout exactly when no result arrives while the
   * sequencer is RETURNING and the return goal still waits for its emission.
   */
  lemma PlanKeptIff(c: Config, es: seq<Event>)
    ensures (forall n: nat :: n <= |es| ==> KeepsPlan(c, After(c, es, n)))
            <==> forall i: nat :: !OvertakesReturnAt(c, es, i)
  {
    if i: nat :| OvertakesReturnAt(c, es, i) {
      OvertakingBreaksPlan(c, es, i);
    } else {
      forall n: nat | n <= |es| ensures KeepsPlan(c, After(c, es, n)) {
        PlanUntil(c, es, n);
        InvKeepsPlan(c, After(c, es, n));
      }
    }
  }

  lemma {:induction false} ArrivalsUntil(c: Config, es: seq<Event>, n: nat)
    requires n <= |es| && forall i: nat :: i < n ==> !OvertakesAt(c, es, i)
    ensures ArrivalInv(c, After(c, es, n))
  {
    hide ArrivalInv, Do;
    if n == 0 {
      NothingYet(c);
    } else {
      ArrivalsUntil(c, es, n - 1);
      assert !OvertakesAt(c, es, n - 1);
      ArrivalStep(c, After(c, es, n - 1), es[n - 1]);
    }
  }

  lemma {:induction false} OvertakingBreaksArrivals(c: Config, es: seq<Event>, i: nat)
    requires OvertakesAt(c, es, i)
    ensures exists n: nat :: n <= |es| && !ArrivesAtGoals(c, After(c, es, n))
  {
    hide After;
    if j: nat :| j < i && OvertakesAt(c, es, j) {
      OvertakingBreaksArrivals(c, es, j);
    } else {
      ArrivalsUntil(c, es, i);
      var m := i + 1;
      assert After(c, es, m) == Do(c, After(c, es, i), es[i]) by { OneMore(c, es, i); }
      assert !ArrivesAtGoals(c, After(c, es, m));
    }
  }

  /**
   * A run keeps its plan and samples every pose after an arrival that was reported after the pose's own goal (and is
   * DONE after such an arrival at the return pose), exactly when no result is taken for the answer to a goal that
   * still waits for its emission.
   */
  lemma ArrivalsAnswerGoalsIff(c: Config, es: seq<Event>)
    ensures (forall n: nat :: n <= |es| ==> KeepsPlan(c, After(c, es, n)) && ArrivesAtGoals(c, After(c, es, n)))
            <==> forall i: nat :: !OvertakesAt(c, es, i)
  {
    if i: nat :| OvertakesAt(c, es, i) {
      OvertakingBreaksArrivals(c, es, i);
    } else {
      forall n: nat | n <= |es| ensures KeepsPlan(c, After(c, es, n)) && ArrivesAtGoals(c, After(c, es, n)) {
        ArrivalsUntil(c, es, n);
        InvKeepsPlan(c, After(c, es, n));
      }
    }
  }

  // ----- Results that answer the latest goal, at most once -----

  predicate EmitsAt(c: Config, es: seq<Event>, j: nat) {
    j < |es| && es[j].Tick? && |After(c, es, j + 1).emitted| > |After(c, es, j).emitted|
  }

  /** Nothing but the emission at j precedes i in the way of starts and results. */
  ghost predicate Unanswered(c: Config, es: seq<Event>, j: nat, i: nat)
    requires i <= |es|
  {
    j < i && EmitsAt(c, es, j) && forall k :: j < k < i ==> !es[k].Result? && !es[k].Start?
  }

  /** Every result comes after the emission of a goal, with no other result and no start between them. */
  ghost predicate ResultsAnswer(c: Config, es: seq<Event>) {
    forall i: nat :: i < |es| && es[i].Result? ==> exists j: nat :: Unanswered(c, es, j, i)
  }

  /** The goal is out, and no other waits. */
  predicate GoalOut(s: Seq) { !s.goalPending && (s.phase.Moving? || s.phase.Returning? || s.phase.Failed?) }

  lemma EmissionLeavesGoalOut(c: Config, r: Run, now: real)
    requires Sane(c, r.s) && ArrivalInv(c, r) && |Do(c, r, Tick(now)).emitted| > |r.emitted|
    ensures GoalOut(Do(c, r, Tick(now)).s)
  {
    hide ArrivesAtGoals, Plan, SamplesOk;
  }

  lemma GoalStaysOut(c: Config, r: Run, e: Event)
    requires Sane(c, r.s) && GoalOut(r.s) && !e.Result? && !e.Start?
    ensures GoalOut(Do(c, r, e).s)
  {
  }

  lemma {:induction false} GoalIsOut(c: Config, es: seq<Event>, j: nat, n: nat)
    requires j < n <= |es| && Unanswered(c, es, j, n) && ArrivalInv(c, After(c, es, j))
    ensures GoalOut(After(c, es, n).s)
  {
    hide ArrivalInv, Do, GoalOut;
    var m := n - 1;
    if m == j {
      EmissionLeavesGoalOut(c, After(c, es, j), es[j].now);
    } else {
      assert Unanswered(c, es, j, m);
      GoalIsOut(c, es, j, m);
      GoalStaysOut(c, After(c, es, m), es[m]);
    }
  }

  lemma UnansweredIsBefore(c: Config, es: seq<Event>, j: nat, i: nat)
    requires i <= |es| && Unanswered(c, es, j, i)
    ensures j < i
  {
  }

  lemma NothingToOvertake(r: Run, e: Event)
    requires GoalOut(r.s)
    ensures !Overtakes(r, e)
  {
  }

  /** Such results never overtake their goals, so all of the above holds. */
  lemma {:induction false} AnswersDoNotOvertake(c: Config, es: seq<Event>, n: nat)
    requires n <= |es| && ResultsAnswer(c, es)
    ensures forall i: nat :: i < n ==> !OvertakesAt(c, es, i)
  {
    hide GoalOut, ArrivalInv, After, Unanswered;
    if n > 0 {
      var i := n - 1;
      AnswersDoNotOvertake(c, es, i);
      if es[i].Result? {
        var j: nat :| Unanswered(c, es, j, i);
        assert j < i by { UnansweredIsBefore(c, es, j, i); }
        ArrivalsUntil(c, es, j);
        GoalIsOut(c, es, j, i);
        NothingToOvertake(After(c, es, i), es[i]);
      }
    }
  }

  /** If each motion result answers the latest emitted goal at most once, every promise is kept throughout the run. */
  lemma CalibrationIsComplete(c: Config, es: seq<Event>)
    requires ResultsAnswer(c, es)
    ensures forall n: nat :: n <= |es| ==> KeepsPlan(c, After(c, es, n)) && ArrivesAtGoals(c, After(c, es, n))
  {
    AnswersDoNotOvertake(c, es, |es|);
    assert forall i: nat :: !OvertakesAt(c, es, i);
    ArrivalsAnswerGoalsIff(c, es);
  }

  // ----- Failure, and the way to DONE -----

  lemma {:induction false} FailedHasNoGoal(c: Config, es: seq<Event>, n: nat)
    requires n <= |es| && After(c, es, n).s.phase.Failed?
    ensures !After(c, es, n).s.goalPending
  {
    if n > 0 && After(c, es, n - 1).s.phase.Failed? { FailedHasNoGoal(c, es, n - 1); }
  }

  lemma QuietStep(c: Config, r: Run, e: Event)
    requires Sane(c, r.s) && r.s.phase.Failed? && !r.s.goalPending && !e.Start?
    ensures Do(c, r, e).s.phase.Failed? && Do(c, r, e).emitted == r.emitted
  {
  }

  /** After a failure no goal is emitted until the next start, whatever results arrive. */
  lemma {:induction false} FailedIsQuiet(c: Config, es: seq<Event>, i: nat, n: nat)
    requires i <= n <= |es| && After(c, es, i).s.phase.Failed? && forall k :: i <= k < n ==> !es[k].Start?
    ensures After(c, es, n).s.phase.Failed? && After(c, es, n).emitted == After(c, es, i).emitted
    decreases n
  {
    hide Do;
    if i < n {
      FailedIsQuiet(c, es, i, n - 1);
      FailedHasNoGoal(c, es, n - 1);
      QuietStep(c, After(c, es, n - 1), es[n - 1]);
    }
  }

  /** What brings an active sequencer forward. */
  function Forward(c: Config, r: Run): Event {
    if r.s.goalPending then Tick(0.0)
    else if r.s.phase.Settling? then Tick(r.s.settleStart + c.settleTime)
    else if r.s.phase.Sampling? then Measured(ZERO)
    else Result(true, 0.0)
  }

  function PosesLeft(c: Config, s: Seq): int { if s.phase.Returning? then 0 else |c.poses| - s.idx }

  function PhasesLeft(s: Seq): nat {
    match s.phase
    case Moving => if s.goalPending then 5 else 4
    case Settling => if s.goalPending then 3 else 2
    case Returning => if s.goalPending then 1 else 0
    case _ => 1
  }

  function SamplesLeft(c: Config, s: Seq): int { if s.phase.Sampling? then c.samplesPerPose - s.count else 0 }

  /** The solver accepts as many samples as there are poses. */
  ghost predicate Solvable(c: Config) { forall ss :: |ss| == |c.poses| ==> c.solve(ss).ok }

  /** One step forward: done, or strictly closer. */
  lemma StepsForward(c: Config, r: Run)
    requires Sane(c, r.s) && Inv(c, r) && Active(r.s) && Solvable(c)
    ensures !Overtakes(r, Forward(c, r)) && (Forward(c, r).Result? ==> !r.s.goalPending)
    ensures var s, t := r.s, Do(c, r, Forward(c, r)).s;
            || t.phase.Done?
            || (Active(t) && 0 <= PosesLeft(c, t) <= PosesLeft(c, s) && 0 <= SamplesLeft(c, t)
                && (PosesLeft(c, t) == PosesLeft(c, s) ==>
                      PhasesLeft(t) < PhasesLeft(s)
                      || (PhasesLeft(t) == PhasesLeft(s) && SamplesLeft(c, t) < SamplesLeft(c, s))))
  {
    hide Plan, Add, Over, Total, BlockOk;
  }

  /** No dead end: every active run that kept its plan can go on to DONE and keep it, if the solver accepts. */
  lemma {:induction false} CanAlwaysFinish(c: Config, es: seq<Event>) returns (all: seq<Event>)
    requires Active(After(c, es, |es|).s) && Solvable(c)
    requires forall i: nat :: !OvertakesReturnAt(c, es, i)
    ensures es <= all && After(c, all, |all|).s.phase.Done? && forall i: nat :: !OvertakesReturnAt(c, all, i)
    decreases PosesLeft(c, After(c, es, |es|).s), PhasesLeft(After(c, es, |es|).s), SamplesLeft(c, After(c, es, |es|).s)
  {
    hide Inv, Do;
    var r := After(c, es, |es|);
    var e := Forward(c, r);
    PlanUntil(c, es, |es|);
    StepsForward(c, r);
    all := es + [e];
    Extended(c, es, e);
    if !After(c, all, |all|).s.phase.Done? { all := CanAlwaysFinish(c, all); }
  }

  lemma Extended(c: Config, es: seq<Event>, e: Event)
    requires !OvertakesReturn(After(c, es, |es|), e) && forall i: nat :: !OvertakesReturnAt(c, es, i)
    ensures After(c, es + [e], |es| + 1) == Do(c, After(c, es, |es|), e)
    ensures forall i: nat :: !OvertakesReturnAt(c, es + [e], i)
  {
    hide Do;
    AfterPrefix(c, es, [e], |es|);
    forall i: nat ensures !OvertakesReturnAt(c, es + [e], i) {
      if i < |es| {
        AfterPrefix(c, es, [e], i);
        assert !OvertakesReturnAt(c, es, i);
      }
    }
  }

  // ----- What the sequencer reports about its end -----

  /** A start keeps nothing of what was before, but the time of the last settling. */
  lemma StartForgets(c: Config, s: Seq)
    requires StartAccepted(c, s)
    ensures StartOf(c, s) == NEW_SEQ.(phase := Moving, goalPending := true, settleStart := s.settleStart)
  {
  }

  /** In every run, a start takes effect exactly when the sequencer is not active and there is something to do. */
  lemma StartIff(c: Config, es: seq<Event>, i: nat)
    requires i < |es| && es[i].Start?
    ensures var r, t := After(c, es, i), After(c, es, i + 1);
            if Active(r.s) || c.poses == [] || c.samplesPerPose <= 0 then t == r
            else t.s.phase.Moving? && t.s.idx == 0 && t.s.goalPending && t.emitted == [] && t.s.samples == []
  {
    OneMore(c, es, i);
  }

  /** Why the event ended the run. */
  function Cause(r: Run, e: Event): Failure {
    match e
    case Cancel => Cancelled
    case LoseStream => StreamLost
    case Result(_, _) => MoveFailed
    case Measured(_) => SolveFailed
    case _ => NoFailure
  }

  /** The event at i failed the run, and what is reported is its cause. */
  predicate FailedAt(c: Config, es: seq<Event>, n: nat, i: nat) {
    && i < n <= |es| && Active(After(c, es, i).s) && After(c, es, i + 1).s.phase.Failed?
    && After(c, es, n).s.failure == Cause(After(c, es, i), es[i])
    && (es[i].Result? ==> After(c, es, i).s.phase.Moving? && !es[i].success)
    && (es[i].Measured? ==> !After(c, es, n).s.fit.ok)
  }

  /** The result at i ended the return move, and what is reported is whether it succeeded. */
  predicate ReturnedAt(c: Config, es: seq<Event>, n: nat, i: nat) {
    && i < n <= |es| && After(c, es, i).s.phase.Returning? && es[i].Result?
    && After(c, es, n).s.returnOk == es[i].success
  }

  ghost predicate ReportInv(c: Config, es: seq<Event>, n: nat)
    requires n <= |es|
  {
    var s := After(c, es, n).s;
    && (s.failure == NoFailure <==> !s.phase.Failed?) && (!s.phase.Done? ==> s.returnOk)
    && (s.phase.Moving? || s.phase.Settling? || s.phase.Sampling? ==> s.fit == NO_FIT)
    && (s.phase.Failed? ==> exists i: nat :: FailedAt(c, es, n, i))
    && (s.phase.Done? ==> exists i: nat :: ReturnedAt(c, es, n, i))
  }

  lemma ReportStep(c: Config, es: seq<Event>, n: nat)
    requires n < |es| && ReportInv(c, es, n)
    ensures ReportInv(c, es, n + 1)
  {
    hide After, Total, Add, Over;
    var r, e := After(c, es, n), es[n];
    OneMore(c, es, n);
    var t := After(c, es, n + 1);
    if r.s.phase.Failed? && t.s.phase.Failed? {
      var i: nat :| FailedAt(c, es, n, i);
      assert FailedAt(c, es, n + 1, i);
    } else if t.s.phase.Failed? {
      assert FailedAt(c, es, n + 1, n);
    }
    if r.s.phase.Done? && t.s.phase.Done? {
      var i: nat :| ReturnedAt(c, es, n, i);
      assert ReturnedAt(c, es, n + 1, i);
    } else if t.s.phase.Done? {
      assert ReturnedAt(c, es, n + 1, n);
    }
  }

  /**
   * In every run, whatever results arrive when: a FAILED sequencer reports the cause of its failure, a DONE one whether
   * the return move succeeded, and no other reports a failure or a fit.
   */
  lemma {:induction false} EndIsReported(c: Config, es: seq<Event>, n: nat)
    requires n <= |es|
    ensures ReportInv(c, es, n)
  {
    hide ReportInv, Do;
    if n == 0 {
      assert ReportInv(c, es, 0) by { NothingReported(c, es); }
    } else {
      EndIsReported(c, es, n - 1);
      ReportStep(c, es, n - 1);
    }
  }

  lemma NothingReported(c: Config, es: seq<Event>)
    ensures ReportInv(c, es, 0)
  {
  }

  // ----- Runs that break their promises -----

  /** The return goal waits for its emission. */
  predicate ReturnWaits(r: Run) { r.s.phase.Returning? && r.s.goalPending }

  lemma ActiveStep(c: Config, r: Run, e: Event)
    requires Sane(c, r.s) && (Active(r.s) ==> Inv(c, r))
    ensures Active(Do(c, r, e).s) ==> Inv(c, Do(c, r, e))
  {
    hide Inv;
    if Active(r.s) && !OvertakesReturn(r, e) {
      Step(c, r, e);
    } else if e.Start? && StartAccepted(c, r.s) {
      StartStep(c, r);
    }
  }

  /** Whatever results came before, an active sequencer has kept its plan since its start. */
  lemma {:induction false} ActiveKeepsPlan(c: Config, es: seq<Event>, n: nat)
    requires n <= |es|
    ensures var r := After(c, es, n); Active(r.s) ==> Inv(c, r)
  {
    hide Inv, Do;
    if n > 0 {
      ActiveKeepsPlan(c, es, n - 1);
      ActiveStep(c, After(c, es, n - 1), es[n - 1]);
    }
  }

  /** A result of either kind makes it DONE, and the next tick emits the last pose once more. */
  lemma LosesReturn(c: Config, r: Run, success: bool, now: real, later: real)
    requires Sane(c, r.s) && Inv(c, r) && ReturnWaits(r)
    ensures c.poses != []
    ensures var d := Do(c, r, Result(success, now)); var t := Do(c, d, Tick(later));
            && d.s.phase.Done? && d.s.fit.ok && d.emitted == c.poses
            && t.s.phase.Done? && t.emitted == c.poses + [c.poses[|c.poses| - 1]]
  {
    hide SamplesOk;
    assert Plan(c)[..|c.poses|] == c.poses;
  }

  lemma AfterTwo(c: Config, es: seq<Event>, e: Event, f: Event)
    ensures After(c, es + [e], |es| + 1) == Do(c, After(c, es, |es|), e)
    ensures After(c, es + [e, f], |es| + 2) == Do(c, Do(c, After(c, es, |es|), e), f)
  {
    hide Do;
    AfterPrefix(c, es, [e], |es|);
    AfterPrefix(c, es, [e, f], |es|);
    assert After(c, es + [e, f], |es| + 1) == Do(c, After(c, es, |es|), e);
  }

  /**
   * In every run: a result of either kind that finds the return goal waiting makes the sequencer DONE with the goals
   * of the poses only, and the next tick sends the robot to the last pose once more instead of home.
   */
  lemma OvertakenReturnIsLost(c: Config, es: seq<Event>, success: bool, now: real, later: real)
    requires ReturnWaits(After(c, es, |es|))
    ensures c.poses != []
    ensures var d := After(c, es + [Result(success, now)], |es| + 1);
            d.s.phase.Done? && d.s.fit.ok && d.emitted == c.poses
    ensures var t := After(c, es + [Result(success, now), Tick(later)], |es| + 2);
            t.s.phase.Done? && t.emitted == c.poses + [c.poses[|c.poses| - 1]]
  {
    hide Inv, Do, After;
    ActiveKeepsPlan(c, es, |es|);
    LosesReturn(c, After(c, es, |es|), success, now, later);
    AfterTwo(c, es, Result(success, now), Tick(later));
  }

  /** From every active run that has not come to its return goal yet, one that has. */
  lemma {:induction false} ComesToReturn(c: Config, es: seq<Event>) returns (all: seq<Event>)
    requires Active(After(c, es, |es|).s) && Solvable(c)
    requires var s := After(c, es, |es|).s; s.phase.Returning? ==> s.goalPending
    ensures es <= all && ReturnWaits(After(c, all, |all|))
    decreases PosesLeft(c, After(c, es, |es|).s), PhasesLeft(After(c, es, |es|).s), SamplesLeft(c, After(c, es, |es|).s)
  {
    hide Inv, Do, Forward;
    var r := After(c, es, |es|);
    all := es;
    if !ReturnWaits(r) {
      var e := Forward(c, r);
      ActiveKeepsPlan(c, es, |es|);
      StepsForward(c, r);
      StillComesToReturn(c, r);
      AfterPrefix(c, es, [e], |es|);
      assert After(c, es + [e], |es| + 1) == Do(c, r, e);
      all := ComesToReturn(c, es + [e]);
    }
  }

  lemma StillComesToReturn(c: Config, r: Run)
    requires Sane(c, r.s) && Inv(c, r) && Active(r.s) && !r.s.phase.Returning? && Solvable(c)
    ensures var s := Do(c, r, Forward(c, r)).s; Active(s) && (s.phase.Returning? ==> s.goalPending)
  {
    hide Plan, Add, Over, Total, BlockOk;
  }

  lemma Overtaken(c: Config, begun: seq<Event>) returns (es: seq<Event>)
    requires ReturnWaits(After(c, begun, |begun|))
    ensures c.poses != [] && OvertakesReturnAt(c, es, |begun|)
    ensures var r := After(c, es, |es|); r.s.phase.Done? && r.emitted == c.poses + [c.poses[|c.poses| - 1]]
  {
    hide Do, After;
    var result, tick := Result(true, 0.0), Tick(0.0);
    es := begun + [result, tick];
    OvertakenReturnIsLost(c, begun, true, 0.0, 0.0);
    AfterPrefix(c, begun, [result, tick], |begun|);
  }

  /** Every plan with a solver that accepts it has a run in which the return goal is overtaken. */
  lemma OvertakingResult(c: Config) returns (es: seq<Event>)
    requires c.poses != [] && c.samplesPerPose > 0 && Solvable(c)
    ensures var r := After(c, es, |es|); r.s.phase.Done? && r.emitted == c.poses + [c.poses[|c.poses| - 1]]
    ensures exists i: nat :: OvertakesReturnAt(c, es, i)
  {
    hide Solvable, Do, After, ReturnWaits, OvertakesReturnAt;
    Started(c);
    var begun := ComesToReturn(c, [Start]);
    es := Overtaken(c, begun);
  }

  lemma Started(c: Config)
    requires c.poses != [] && c.samplesPerPose > 0
    ensures After(c, [Start], |[Start]|).s.phase.Moving?
  {
    assert After(c, [Start], 1) == Do(c, NEW_RUN, Start);
  }

  /** The configuration that the repository ships; the estimator accepts no fewer than four samples. */
  const POSES := [Pose(0.0, 0.0, 0.0), Pose(0.0, 45.0, 0.0), Pose(0.0, -45.0, 0.0), Pose(0.0, 0.0, 45.0),
                  Pose(0.0, 0.0, -45.0), Pose(45.0, 30.0, 0.0), Pose(-45.0, 0.0, 30.0), Pose(30.0, -30.0, 30.0)]
  const CONFIG := Config(POSES, Pose(0.0, 0.0, 0.0), 1.0, 100, ss => Fit(|ss| >= 4, NO_FIT.payload))

  /** DONE without having been home, and on its way to the eighth pose again. */
  lemma ShippedPlanOvertaken()
    ensures exists es: seq<Event> ::
              var r := After(CONFIG, es, |es|); r.s.phase.Done? && r.emitted == POSES + [Pose(30.0, -30.0, 30.0)]
  {
    hide After;
    var es := OvertakingResult(CONFIG);
  }
}
