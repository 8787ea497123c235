/**
 Every fair run finishes. Whatever the threads do and in whatever order, if each of them that
 can move eventually does, a live send posts all of its chunks, unless a post is refused or a
 wake from the gap of a cancel takes its slot away.
 */
module SendFairness {
  import opened Base
  import opened Pool
  import opened PoolSteps
  import opened TaskQueue
  import opened Send
  import opened SendInvariant
  import opened SendSteps
  import opened SendTheorems
  import opened SendProgress
  import Shutdown

  // ----- endless runs -----

  /** A run that goes on for ever: step i leads from state i to state i + 1. */
  ghost predicate Endless(states: nat -> System, steps: nat -> Step) {
    && states(0) == Start()
    && forall i: nat {:trigger steps(i)} :: Can(states(i), steps(i)) && states(i + 1) == Do(states(i), steps(i))
  }

  /** A step of worker `w` of its own accord. */
  predicate MovesWorker(a: Step, w: nat) {
    match a
    case Write(v, _) => v == w
    case Mark(v) => v == w
    case Turn(b) => Shutdown.ActsAs(b, w) && !b.Rouse?
    case Other(b) => b == RunTask(w)
    case _ => false
  }

  predicate Awake(s: System, w: nat) {
    w < |s.pool.workers| && !s.pool.workers[w].pc.Asleep? && !s.pool.workers[w].pc.Gone?
  }

  ghost predicate Eventually(steps: nat -> Step, i: nat, p: Step -> bool) {
    exists j: nat :: i <= j && p(steps(j))
  }

  /**
   Completions of accepted writes arrive, the poller goes on with what it has in hand, getting
   the mutex it waits for, and so does every worker that is not asleep.
   */
  ghost predicate Fair(states: nat -> System, steps: nat -> Step) {
    && (forall i: nat, r: Req {:trigger AtWrite(states(i), r)} ::
          AtWrite(states(i), r) ==> Eventually(steps, i, (a: Step) => a == Deliver(r)))
    && (forall i: nat {:trigger states(i)} ::
          && (states(i).poller.Got? ==> Eventually(steps, i, (a: Step) => a.Lookup?))
          && (states(i).poller.Holding? ==> Eventually(steps, i, (a: Step) => a.Set?)))
    && (forall i: nat, w: nat {:trigger Awake(states(i), w)} ::
          Awake(states(i), w) ==> Eventually(steps, i, (a: Step) => MovesWorker(a, w)))
  }

  function Prefix(steps: nat -> Step, n: nat): (run: seq<Step>)
    ensures |run| == n
  {
    seq(n, i requires 0 <= i < n => steps(i))
  }

  lemma {:induction false} PrefixReached(states: nat -> System, steps: nat -> Step, n: nat)
    requires Endless(states, steps)
    ensures Reached(Prefix(steps, n), states(n))
  {
    hide Can, Do;
    if n > 0 {
      PrefixReached(states, steps, n - 1);
      assert Can(states(n - 1), steps(n - 1)) && states(n - 1 + 1) == Do(states(n - 1), steps(n - 1));
      ExtendRun(Prefix(steps, n - 1), states(n - 1), steps(n - 1));
      assert Prefix(steps, n) == Prefix(steps, n - 1) + [steps(n - 1)];
    }
  }

  /** The send has come to its end: everything posted, a post refused, or its slot lost. */
  predicate Ended(s: System, r: Req) {
    Registered(s, r) && (|s.sends[r].posted| == s.sends[r].n || s.sends[r].failed || s.sends[r].robbed)
  }

  /** Closer than the measure `m`, or at the end. */
  predicate Past(s: System, r: Req, m: int) {
    Ended(s, r) || (Live(s, r) && r in s.sends && TokenMeasure(s, r) < m)
  }

  /** As far as the measure `m`, with its tasks on worker `w`. */
  predicate Holds(s: System, r: Req, m: int, w: nat) {
    && Live(s, r) && r in s.sends && TokenMeasure(s, r) == m
    && r in s.pool.jobs && s.pool.jobs[r].worker == w
  }

  lemma StepOn(run: seq<Step>, s: System, a: Step, r: Req, m: int, w: nat)
    requires Reached(run, s) && Can(s, a) && Holds(s, r, m, w)
    ensures Past(Do(s, a), r, m) || Holds(Do(s, a), r, m, w)
    ensures MovesToken(s, a, r) ==> Past(Do(s, a), r, m)
  {
    hide SystemOk, Reached, Do, Can, TokenMeasure, MovesToken, Returned, CallerOk, TokenCount;
    ReachedOk(run, s);
    LiveFacts(s, r);
    LiveIsRegistered(s, r);
    HomeStays(s, a, r);
    MeasureFalls(s, a, r);
    ExtendRun(run, s, a);
    PostsInOrder(run + [a], Do(s, a), r);
  }

  /** The step a run takes at `i`. */
  lemma StepAt(states: nat -> System, steps: nat -> Step, i: nat, r: Req, m: int, w: nat)
    requires Endless(states, steps) && Holds(states(i), r, m, w)
    ensures Reached(Prefix(steps, i), states(i))
    ensures Can(states(i), steps(i)) && states(i + 1) == Do(states(i), steps(i))
    ensures Past(states(i + 1), r, m) || Holds(states(i + 1), r, m, w)
    ensures MovesToken(states(i), steps(i), r) ==> Past(states(i + 1), r, m)
  {
    hide Holds, Past, Can, Do, Reached, MovesToken;
    PrefixReached(states, steps, i);
    StepOn(Prefix(steps, i), states(i), steps(i), r, m, w);
  }

  ghost predicate GetsOn(states: nat -> System, i: nat, r: Req, m: int) {
    exists k: nat :: i < k && Past(states(k), r, m)
  }

  /** From one state to a later one a send gets on or stays where it is. */
  lemma {:induction false} KeptOrPast(states: nat -> System, steps: nat -> Step, i: nat, j: nat,
                                      r: Req, m: int, w: nat)
    requires Endless(states, steps) && Holds(states(i), r, m, w) && i <= j
    ensures Holds(states(j), r, m, w) || GetsOn(states, i, r, m)
    decreases j - i
  {
    hide Holds, Past, Can, Do, Reached, Endless, MovesToken;
    if i < j {
      KeptOrPast(states, steps, i, j - 1, r, m, w);
      if Holds(states(j - 1), r, m, w) {
        StepAt(states, steps, j - 1, r, m, w);
        assert j - 1 + 1 == j;
      }
    }
  }

  /** A step that moves the token if it finds the send where it was gets it on. */
  lemma TakenGetsOn(states: nat -> System, steps: nat -> Step, i: nat, j: nat, r: Req, m: int, w: nat)
    requires Endless(states, steps) && Holds(states(i), r, m, w) && i <= j
    requires Holds(states(j), r, m, w) ==> MovesToken(states(j), steps(j), r)
    ensures GetsOn(states, i, r, m)
  {
    hide Holds, Past, Can, Do, Reached, MovesToken, Endless;
    KeptOrPast(states, steps, i, j, r, m, w);
    if Holds(states(j), r, m, w) {
      StepAt(states, steps, j, r, m, w);
      assert i < j + 1 && Past(states(j + 1), r, m);
    }
  }

  // ----- the poller's part -----

  /** The measure tells the place of the token. */
  lemma RankOf(s: System, t: System, r: Req, m: int, w: nat)
    requires Holds(s, r, m, w) && Holds(t, r, m, w)
    ensures TokenRank(t, r) == TokenRank(s, r)
  {
    hide TokenRank;
    RankBound(s, r);
    RankBound(t, r);
  }

  lemma PlaceOfRank(s: System, r: Req)
    ensures TokenRank(s, r) == 4 ==> AtWrite(s, r)
    ensures TokenRank(s, r) == 3 ==> AtPoller(s, r)
    ensures TokenRank(s, r) == 2 ==> AtWake(s, r)
    ensures TokenRank(s, r) == 1 ==> AtSlot(s, r)
    ensures TokenRank(s, r) == 0 ==> !AtSlot(s, r)
  {
    hide AtWrite, AtPoller, AtWake, AtSlot;
  }

  lemma PollerMoves(s: System, a: Step, r: Req)
    ensures a == Deliver(r) ==> MovesToken(s, a, r)
    ensures a.Lookup? && AtPoller(s, r) ==> MovesToken(s, a, r)
    ensures a.Set? && AtWake(s, r) ==> MovesToken(s, a, r)
  {
  }

  lemma PollerGetsOn(states: nat -> System, steps: nat -> Step, i: nat, r: Req, m: int, w: nat)
    requires Endless(states, steps) && Fair(states, steps) && Holds(states(i), r, m, w)
    requires TokenRank(states(i), r) >= 2
    ensures GetsOn(states, i, r, m)
  {
    hide Holds, Past, MovesToken, TokenRank, Endless, GetsOn, Fair;
    PlaceOfRank(states(i), r);
    RankBound(states(i), r);
    var j := PollerTurn(states, steps, i, r);
    if Holds(states(j), r, m, w) {
      RankOf(states(i), states(j), r, m, w);
      PlaceOfRank(states(j), r);
      PollerMoves(states(j), steps(j), r);
    }
    TakenGetsOn(states, steps, i, j, r, m, w);
  }

  lemma PollerTurn(states: nat -> System, steps: nat -> Step, i: nat, r: Req) returns (j: nat)
    requires Fair(states, steps) && 2 <= TokenRank(states(i), r)
    ensures i <= j
    ensures TokenRank(states(i), r) == 4 ==> steps(j) == Deliver(r)
    ensures TokenRank(states(i), r) == 3 ==> steps(j).Lookup?
    ensures TokenRank(states(i), r) == 2 ==> steps(j).Set?
  {
    hide TokenRank;
    PlaceOfRank(states(i), r);
    RankBound(states(i), r);
    if TokenRank(states(i), r) == 4 {
      var p := (a: Step) => a == Deliver(r);
      assert Eventually(steps, i, p);
      j :| i <= j && p(steps(j));
    } else if TokenRank(states(i), r) == 3 {
      var p := (a: Step) => a.Lookup?;
      assert Eventually(steps, i, p);
      j :| i <= j && p(steps(j));
    } else {
      var p := (a: Step) => a.Set?;
      assert Eventually(steps, i, p);
      j :| i <= j && p(steps(j));
    }
  }

  // ----- the worker's part -----

  lemma HomeAwake(run: seq<Step>, s: System, r: Req, m: int, w: nat)
    requires Reached(run, s) && Holds(s, r, m, w) && TokenRank(s, r) <= 1
    ensures Awake(s, w)
  {
    hide SystemOk, Reached, Live, TokenRank, TokenMeasure;
    ReachedOk(run, s);
    NoWorkerExited(run, s);
    AwakeUnless(s, r);
  }

  lemma WorkerTurn(states: nat -> System, steps: nat -> Step, i: nat, w: nat) returns (j: nat)
    requires Fair(states, steps) && Awake(states(i), w)
    ensures i <= j && MovesWorker(steps(j), w)
  {
    hide MovesWorker, Awake;
    var p := (a: Step) => MovesWorker(a, w);
    assert Eventually(steps, i, p);
    j :| i <= j && p(steps(j));
  }

  /** A worker with a popped task of a send in hand posts next. */
  lemma PoppedWrites(s: System, a: Step, r: Req, w: nat)
    requires Can(s, a) && MovesWorker(a, w) && AtWorker(s, r) && r in s.sends && s.pool.jobs[r].worker == w
    ensures MovesToken(s, a, r)
  {
  }

  lemma WorkerGetsOn(states: nat -> System, steps: nat -> Step, i: nat, r: Req, m: int, w: nat)
    requires Endless(states, steps) && Fair(states, steps) && Holds(states(i), r, m, w)
    requires TokenRank(states(i), r) == 0
    ensures GetsOn(states, i, r, m)
  {
    hide Holds, Past, MovesToken, TokenRank, Endless, GetsOn, Fair, MovesWorker, Awake, Can, Do, Reached;
    PrefixReached(states, steps, i);
    HomeAwake(Prefix(steps, i), states(i), r, m, w);
    var j := WorkerTurn(states, steps, i, w);
    if Holds(states(j), r, m, w) {
      RankOf(states(i), states(j), r, m, w);
      StepAt(states, steps, j, r, m, w);
      InHand(Prefix(steps, j), states(j), r, m, w);
      PoppedWrites(states(j), steps(j), r, w);
    }
    TakenGetsOn(states, steps, i, j, r, m, w);
  }

  lemma InHand(run: seq<Step>, s: System, r: Req, m: int, w: nat)
    requires Reached(run, s) && Holds(s, r, m, w) && TokenRank(s, r) == 0
    ensures AtWorker(s, r) && r in s.sends && r in s.pool.jobs && s.pool.jobs[r].worker == w
  {
    hide SystemOk, Reached, Live, TokenRank, TokenCount, AtWorker, AtSlot, TokenMeasure;
    ReachedOk(run, s);
    LiveFacts(s, r);
    LiveIsRegistered(s, r);
    LowRankIsHome(s, r);
    PlaceOfRank(s, r);
  }

  // ----- the slot is served -----

  /** What a worker of its own accord does next is determined, but for the outcome of a post. */
  lemma OwnStep(s: System, a: Step, w: nat)
    requires Can(s, a) && MovesWorker(a, w) && |s.wrote| == |s.pool.workers|
    ensures Awake(s, w) && (a == NextStep(s, w) || a == Write(w, false))
  {
  }

  lemma RefusalLowers(s: System, w: nat)
    requires Can(s, Write(w, false)) && |s.wrote| == |s.pool.workers|
    ensures RankAt(Do(s, Write(w, false)), w) < RankAt(s, w)
  {
  }

  /** A step of someone else leaves a worker that is not asleep at its place. */
  lemma OthersKeepPc(p: State, b: Action, w: nat)
    requires Enabled(p, b) && w < |p.workers| && !p.workers[w].pc.Asleep? && !Shutdown.ActsAs(b, w)
    requires !Closed(p)
    ensures |Apply(p, b).workers| == |p.workers| && Apply(p, b).workers[w].pc == p.workers[w].pc
  {
    Shutdown.StepShapes(p, b);
    if Shutdown.Target(p, b) == Some(w) {
      TargetKeepsPc(p, b, w);
    }
    hide Apply, Enabled;
  }

  lemma TargetKeepsPc(p: State, b: Action, w: nat)
    requires Enabled(p, b) && w < |p.workers| && !p.workers[w].pc.Asleep?
    requires b.Attach? || b.WakeSet? || b.CancelQueue? || b.SignalNext?
    requires Shutdown.Target(p, b) == Some(w)
    ensures |Apply(p, b).workers| == |p.workers| && Apply(p, b).workers[w].pc == p.workers[w].pc
  {
    if b.CancelQueue? {
      CancelQueueWorkers(p, b.req, w);
    }
    hide Mine, Others, Clear, Retired, ApplyCancelQueue, Unfreed;
  }

  lemma NotActing(s: System, a: Step, w: nat)
    requires Can(s, a) && !MovesWorker(a, w) && Awake(s, w) && PoolAction(s, a).Some?
    ensures !Shutdown.ActsAs(PoolAction(s, a).value, w)
  {
  }

  lemma WroteKept(s: System, a: Step, w: nat)
    requires Can(s, a) && !MovesWorker(a, w) && w < |s.wrote|
    ensures |Do(s, a).wrote| == |s.wrote| && Do(s, a).wrote[w] == s.wrote[w]
  {
    hide Apply, Enabled;
  }

  lemma OthersKeepRank(s: System, a: Step, w: nat)
    requires Can(s, a) && !MovesWorker(a, w) && Awake(s, w) && !Closed(s.pool) && w < |s.wrote|
    requires s.pool.workers[w].pending != 0
    requires w < |Do(s, a).pool.workers| && Do(s, a).pool.workers[w].pending != 0
    ensures RankAt(Do(s, a), w) == RankAt(s, w)
  {
    hide Can, Do, MovesWorker, Apply, Enabled;
    FollowsPool(s, a);
    WroteKept(s, a, w);
    if PoolAction(s, a).Some? {
      NotActing(s, a, w);
      OthersKeepPc(s.pool, PoolAction(s, a).value, w);
    }
  }

  lemma InSlot(run: seq<Step>, s: System, r: Req, m: int, w: nat)
    requires Reached(run, s) && Holds(s, r, m, w) && TokenRank(s, r) == 1
    ensures w < |s.pool.workers| == |s.wrote| && s.pool.workers[w].pending == r != 0 && !Closed(s.pool)
    ensures Awake(s, w) && SystemOk(s)
  {
    hide SystemOk, Reached, Live, TokenRank, TokenCount, TokenMeasure;
    ReachedOk(run, s);
    SystemFacts(s);
    HomeAwake(run, s, r, m, w);
    LiveFacts(s, r);
    LiveIsRegistered(s, r);
    SendFacts(s, r);
    PlaceOfRank(s, r);
  }

  /** While the slot names the send, its worker gets no further from serving it, and closer by each step of its own. */
  lemma SlotStep(run: seq<Step>, s: System, a: Step, r: Req, m: int, w: nat)
    requires Reached(run, s) && Can(s, a) && Holds(s, r, m, w) && TokenRank(s, r) == 1
    requires Holds(Do(s, a), r, m, w)
    ensures TokenRank(Do(s, a), r) == 1 && RankAt(Do(s, a), w) <= RankAt(s, w)
    ensures MovesWorker(a, w) ==> RankAt(Do(s, a), w) < RankAt(s, w)
  {
    hide Holds, TokenRank, Do, Can, Reached, RankAt, MovesWorker, SystemOk, Awake, NextStep;
    InSlot(run, s, r, m, w);
    RankOf(s, Do(s, a), r, m, w);
    ExtendRun(run, s, a);
    InSlot(run + [a], Do(s, a), r, m, w);
    if MovesWorker(a, w) {
      OwnStep(s, a, w);
      if a == NextStep(s, w) {
        AwakeIs(s, w);
        WorkerLowers(s, w);
      } else {
        RefusalLowers(s, w);
      }
    } else {
      OthersKeepRank(s, a, w);
    }
  }

  lemma AwakeIs(s: System, w: nat)
    requires Awake(s, w)
    ensures w < |s.pool.workers| && !s.pool.workers[w].pc.Asleep? && !s.pool.workers[w].pc.Gone?
  {
  }

  /** From one state to a later one the worker gets closer, or stays as close, or the send gets on. */
  lemma {:induction false} SlotKept(states: nat -> System, steps: nat -> Step, i: nat, j: nat,
                                    r: Req, m: int, w: nat)
    requires Endless(states, steps) && Holds(states(i), r, m, w) && TokenRank(states(i), r) == 1 && i <= j
    ensures GetsOn(states, i, r, m)
            || (Holds(states(j), r, m, w) && TokenRank(states(j), r) == 1
                && RankAt(states(j), w) <= RankAt(states(i), w))
    decreases j - i
  {
    hide Holds, Past, Can, Do, Reached, Endless, MovesToken, TokenRank, RankAt, MovesWorker;
    if i < j {
      SlotKept(states, steps, i, j - 1, r, m, w);
      if !GetsOn(states, i, r, m) {
        StepAt(states, steps, j - 1, r, m, w);
        assert j - 1 + 1 == j;
        if Holds(states(j), r, m, w) {
          SlotStep(Prefix(steps, j - 1), states(j - 1), steps(j - 1), r, m, w);
        }
      }
    }
  }

  lemma GetsOnAt(states: nat -> System, i: nat, k: nat, r: Req, m: int)
    requires i < k && Past(states(k), r, m)
    ensures GetsOn(states, i, r, m)
  {
  }

  lemma GetsOnLater(states: nat -> System, i: nat, j: nat, r: Req, m: int)
    requires i <= j && GetsOn(states, j, r, m)
    ensures GetsOn(states, i, r, m)
  {
    var k: nat :| j < k && Past(states(k), r, m);
    GetsOnAt(states, i, k, r, m);
  }

  lemma {:induction false} SlotGetsOn(states: nat -> System, steps: nat -> Step, i: nat, r: Req, m: int, w: nat)
    requires Endless(states, steps) && Fair(states, steps) && Holds(states(i), r, m, w)
    requires TokenRank(states(i), r) == 1
    ensures GetsOn(states, i, r, m)
    decreases RankAt(states(i), w)
  {
    hide Holds, Past, MovesToken, TokenRank, Endless, Fair, MovesWorker, Awake, Can, Do, Reached, RankAt, GetsOn;
    PrefixReached(states, steps, i);
    HomeAwake(Prefix(steps, i), states(i), r, m, w);
    var j := WorkerTurn(states, steps, i, w);
    SlotKept(states, steps, i, j, r, m, w);
    if !GetsOn(states, i, r, m) {
      StepAt(states, steps, j, r, m, w);
      if Holds(states(j + 1), r, m, w) {
        SlotStep(Prefix(steps, j), states(j), steps(j), r, m, w);
        SlotGetsOn(states, steps, j + 1, r, m, w);
        GetsOnLater(states, i, j + 1, r, m);
      } else {
        GetsOnAt(states, i, j + 1, r, m);
      }
    }
  }

  // ----- every fair run finishes -----

  lemma AlwaysGetsOn(states: nat -> System, steps: nat -> Step, i: nat, r: Req, m: int, w: nat)
    requires Endless(states, steps) && Fair(states, steps) && Holds(states(i), r, m, w)
    ensures GetsOn(states, i, r, m)
  {
    hide Holds, TokenRank, Endless, Fair, GetsOn;
    RankBound(states(i), r);
    if TokenRank(states(i), r) >= 2 {
      PollerGetsOn(states, steps, i, r, m, w);
    } else if TokenRank(states(i), r) == 1 {
      SlotGetsOn(states, steps, i, r, m, w);
    } else {
      WorkerGetsOn(states, steps, i, r, m, w);
    }
  }

  /**
   In every fair run, whatever any number of requests, callers, waiters and cancels do in
   between, a live send comes to its end: all of its chunks are posted, or a post is refused,
   or a wake from the gap of a cancel takes its slot away.
   */
  lemma {:induction false} FairRunsFinish(states: nat -> System, steps: nat -> Step, i: nat, r: Req)
    requires Endless(states, steps) && Fair(states, steps) && Live(states(i), r)
    ensures exists j: nat :: i <= j && Ended(states(j), r)
    decreases TokenMeasure(states(i), r)
  {
    hide TokenMeasure, Endless, Fair, Reached, Live;
    PrefixReached(states, steps, i);
    LiveAt(Prefix(steps, i), states(i), r);
    var m, w := TokenMeasure(states(i), r), states(i).pool.jobs[r].worker;
    AlwaysGetsOn(states, steps, i, r, m, w);
    var k: nat :| i < k && Past(states(k), r, m);
    if !Ended(states(k), r) {
      PrefixReached(states, steps, k);
      LiveAt(Prefix(steps, k), states(k), r);
      FairRunsFinish(states, steps, k, r);
      var j: nat :| k <= j && Ended(states(j), r);
      assert i <= j && Ended(states(j), r);
    }
  }

  lemma LiveAt(run: seq<Step>, s: System, r: Req)
    requires Reached(run, s) && Live(s, r)
    ensures r in s.sends && r in s.pool.jobs && TokenMeasure(s, r) >= 0
  {
    hide SystemOk, Reached;
    ReachedOk(run, s);
    LiveFacts(s, r);
  }
}
