/** What the chunked send guarantees in every run, whatever the interleaving of many requests. */
module SendTheorems {
  import opened Base
  import opened TaskQueue
  import opened TaskSync
  import opened Pool
  import opened PoolInvariant
  import opened PoolViews
  import opened PoolSteps
  import opened PoolTheorems
  import opened Send
  import opened SendInvariant
  import opened SendViews
  import opened SendSteps

  ghost predicate Reached(run: seq<Step>, s: System) {
    History(run) == Some(s)
  }

  lemma {:induction false} ReachedOk(run: seq<Step>, s: System)
    requires Reached(run, s)
    ensures SystemOk(s)
  {
    if run == [] {
      StartOk();
    } else {
      hide SystemOk, Do, Can;
      var t := History(run[..|run| - 1]).value;
      ReachedOk(run[..|run| - 1], t);
      SendStepOk(t, run[|run| - 1]);
    }
  }

  // ----- refinement of the pool -----

  /** The pool actions a run of the protocol performs. */
  function PoolRun(run: seq<Step>): seq<Action>
    requires History(run).Some?
  {
    if run == [] then []
    else
      var front, a := run[..|run| - 1], run[|run| - 1];
      match PoolAction(History(front).value, a)
      case None => PoolRun(front)
      case Some(b) => PoolRun(front) + [b]
  }

  /** Every run of the protocol is a run of the pool, so all that holds of the pool holds here. */
  lemma {:induction false} RefinesPool(run: seq<Step>, s: System)
    requires Reached(run, s)
    ensures After(PoolRun(run)) == Some(s.pool)
  {
    if run != [] {
      var front, a := run[..|run| - 1], run[|run| - 1];
      var t := History(front).value;
      hide Do, Can, Apply, Enabled;
      RefinesPool(front, t);
      FollowsPool(t, a);
      if PoolAction(t, a).Some? {
        var b := PoolAction(t, a).value;
        assert (PoolRun(front) + [b])[..|PoolRun(front)|] == PoolRun(front);
      }
    }
  }

  // ----- order and pacing -----

  /**
   Chunks go out exactly once each, in order from chunk 0: what has been posted is always
   an initial stretch of the chunks, a proper one if some post was refused.
   */
  lemma PostsInOrder(run: seq<Step>, s: System, r: Req)
    requires Reached(run, s) && r in s.sends
    ensures |s.sends[r].posted| <= s.sends[r].n
    ensures forall i :: 0 <= i < |s.sends[r].posted| ==> s.sends[r].posted[i] == i
    ensures s.sends[r].failed ==> |s.sends[r].posted| < s.sends[r].n
  {
    hide SystemOk, Reached, Inv, RequestOk;
    ReachedOk(run, s);
    if Registered(s, r) {
      SendFacts(s, r);
      PostedBound(r, SendViewOf(s, r));
    } else {
      DormantFacts(s, r);
    }
  }

  lemma PostedBound(r: Req, x: SendView)
    requires SendOk(r, x) && Fates(r, x.v)
    ensures |x.t.posted| <= x.t.n && InOrder(x.t.posted) && (x.t.failed ==> |x.t.posted| < x.t.n)
    ensures x.t.n >= 2
  {
    QueuedStretch(r, x.v);
  }

  lemma DormantFacts(s: System, r: Req)
    requires SystemOk(s) && r in s.sends && !Registered(s, r)
    ensures s.sends[r].posted == [] && s.sends[r].out == 0 && !s.sends[r].failed
    ensures s.sends[r].waiter.Away? ==> s.caller == Registering(r)
  {
    hide Inv, Unused, CallerOk, PollerOk, WritesOk;
    assert Dormant(s, r);
  }

  /** Where the right to post the next chunk of a request may sit. */
  predicate AtWrite(s: System, r: Req) {
    r in s.sends && s.sends[r].out > 0
  }

  predicate AtPoller(s: System, r: Req) {
    s.poller == Got(r)
  }

  predicate AtWake(s: System, r: Req) {
    s.poller.Holding? && s.poller.req == r
  }

  predicate AtSlot(s: System, r: Req) {
    r in s.pool.jobs && s.pool.jobs[r].worker < |s.pool.workers| && s.pool.workers[s.pool.jobs[r].worker].pending == r
  }

  predicate AtWorker(s: System, r: Req) {
    && r in s.pool.jobs && PcAt(s.pool, s.pool.jobs[r].worker).Popped?
    && s.pool.workers[s.pool.jobs[r].worker].pc.task.req == r
    && s.pool.jobs[r].worker < |s.wrote| && s.wrote[s.pool.jobs[r].worker].None?
  }

  function One(b: bool): nat {
    if b then 1 else 0
  }

  function TokenCount(s: System, r: Req): nat {
    (if r in s.sends then s.sends[r].out else 0)
    + One(AtPoller(s, r)) + One(AtWake(s, r)) + One(AtSlot(s, r)) + One(AtWorker(s, r))
  }

  lemma FlightsAreHeld(s: System, r: Req, w: nat)
    requires PollerOk(s) && r in s.sends && Owns(s.pool, r, w)
    ensures s.pool.wakes[(r, w)] == One(AtWake(s, r))
  {
  }

  lemma TokensCounted(s: System, r: Req)
    requires SystemOk(s) && Registered(s, r)
    ensures r in s.pool.jobs && s.pool.jobs[r].worker < |s.pool.workers| == |s.wrote|
    ensures TokenCount(s, r) == Tokens(SendViewOf(s, r))
  {
    SendFacts(s, r);
    SystemFacts(s);
    SystemRest(s);
    FlightsAreHeld(s, r, s.pool.jobs[r].worker);
    SendIdNotZero(r, SendViewOf(s, r));
    hide SystemOk, Inv, SendOk, Homes, RequestOk, Fates, CallerOk, PollerOk, WritesOk;
  }

  /**
   Self-clocking: a send never has two writes, completions, wakes or woken tasks under way
   together. While chunks are left and no post was refused it has exactly one, unless it was
   robbed of it: then it has none, and never will.
   */
  lemma ExactlyOneToken(run: seq<Step>, s: System, r: Req)
    requires Reached(run, s) && Registered(s, r)
    ensures TokenCount(s, r) <= 1 && s.sends[r].out <= 1
    ensures Returned(s, r) && !s.sends[r].failed && |s.sends[r].posted| < s.sends[r].n ==>
              (TokenCount(s, r) == 1 <==> !s.sends[r].robbed)
    ensures !Returned(s, r) || s.sends[r].failed ==> TokenCount(s, r) == 0
    ensures s.sends[r].robbed ==> !s.sends[r].failed && |s.sends[r].posted| < s.sends[r].n
  {
    hide SystemOk, Reached, Inv, RequestOk, Fates;
    ReachedOk(run, s);
    SendFacts(s, r);
    TokensCounted(s, r);
  }

  /** A wake looked up outside the gap of a cancel only ever overwrites what no send needs any more. */
  lemma OverwritesNothing(run: seq<Step>, s: System, r: Req, w: nat, gap: bool)
    requires Reached(run, s) && s.poller == Holding(r, w, gap)
    ensures w < |s.pool.workers| && s.pool.wakes == multiset{(r, w)}
    ensures var x := s.pool.workers[w];
            || gap || x.pending == 0 || x.pending == r || x.pending !in s.sends
            || forall t :: t in x.queue ==> t.req != x.pending
  {
    hide SystemOk, Reached, CallerOk, WritesOk, Mine;
    ReachedOk(run, s);
    SystemRest(s);
    NoneOfMine(s.pool.workers[w].queue, s.pool.workers[w].pending);
  }

  /**
   When a send is robbed: exactly when a held wake for another request is set into a slot that
   names the send while tasks of it wait on that worker; and this wake was looked up in the
   gap of a cancel of its own request.
   */
  lemma RobbedIff(run: seq<Step>, s: System, a: Step, r: Req)
    requires Reached(run, s) && Can(s, a) && Registered(s, r) && !s.sends[r].robbed
    requires !(a.Call? && a.req == r) && !(a.Forget? && a.req == r)
    ensures r in Do(s, a).sends
    ensures Do(s, a).sends[r].robbed <==> a.Set? && Robs(s) && s.pool.workers[s.poller.w].pending == r
    ensures Do(s, a).sends[r].robbed ==> s.poller.Holding? && s.poller.gap
  {
    hide SystemOk, Reached, Do, Can, Robs, PollerOk, CallerOk, WritesOk;
    ReachedOk(run, s);
    SystemRest(s);
    RobbedStep(s, a, r);
    if a.Set? && Robs(s) {
      SetNeedsHold(s);
      if !s.poller.gap {
        SpareMeansNoRob(s);
      }
    }
  }

  lemma SetNeedsHold(s: System)
    requires Robs(s)
    ensures s.poller.Holding?
  {
    hide Mine;
  }

  lemma RobbedStep(s: System, a: Step, r: Req)
    requires Can(s, a) && Registered(s, r) && !s.sends[r].robbed
    requires !(a.Call? && a.req == r) && !(a.Forget? && a.req == r)
    ensures r in Do(s, a).sends
    ensures Do(s, a).sends[r].robbed <==> a.Set? && Robs(s) && s.pool.workers[s.poller.w].pending == r
  {
    hide Apply, Enabled, Mine;
  }

  /** A completion of a send never falls into the gap of that send's own cancel. */
  lemma OwnLookupMissesGap(run: seq<Step>, s: System)
    requires Reached(run, s) && s.poller.Got? && s.poller.req in s.sends
    ensures s.poller.req !in s.pool.removed
  {
    hide SystemOk, Reached, Inv, RequestOk, CallerOk, WritesOk;
    ReachedOk(run, s);
    SystemRest(s);
    SystemFacts(s);
    var r := s.poller.req;
    SendFacts(s, r);
    NotCancelling(r, SendViewOf(s, r));
    RemovedIsOwed(s.pool, r);
  }

  lemma NotCancelling(r: Req, x: SendView)
    requires SendOk(r, x) && Fates(r, x.v) && x.got
    ensures x.v.owedToCancel == 0
  {
    VerdictOf(r, x);
  }

  lemma RemovedIsOwed(p: State, r: Req)
    requires Inv(p) && r in p.jobs && p.jobs[r].worker < |p.workers|
    ensures r in p.removed ==> ViewOf(p, r).owedToCancel > 0
  {
    InvHomes(p);
    hide Inv;
  }

  /** What a robbed send looks like: its flag down, its waiter asleep, nothing in its worker's hands. */
  lemma RobbedFacts(r: Req, x: SendView)
    requires SendOk(r, x) && Fates(r, x.v) && x.t.robbed
    ensures !x.calling && !x.t.sync.done && x.t.waiter.Away? && Tokens(x) == 0 && |x.t.posted| < x.t.n
  {
    VerdictOf(r, x);
  }

  /**
   A robbed send stalls for good: whatever anyone does, it posts nothing any more, its
   completion flag stays down and its waiter keeps waiting.
   */
  lemma RobbedForGood(run: seq<Step>, s: System, a: Step, r: Req)
    requires Reached(run, s) && Can(s, a) && Registered(s, r) && s.sends[r].robbed
    ensures Registered(Do(s, a), r) && Do(s, a).sends[r].robbed && Do(s, a).sends[r].posted == s.sends[r].posted
    ensures |s.sends[r].posted| < s.sends[r].n == Do(s, a).sends[r].n
    ensures !Do(s, a).sends[r].sync.done && Do(s, a).sends[r].waiter.Away?
  {
    hide SystemOk, Reached, Do, Can, Inv, RequestOk, SendOk, Tokens, Returned, Fates;
    ReachedOk(run, s);
    SendFacts(s, r);
    RobbedFacts(r, SendViewOf(s, r));
    SendStepOk(s, a);
    if a.Write? {
      IdleTakesNoWrite(s, a, r);
    }
    RobbedStays(s, a, r);
    SendFacts(Do(s, a), r);
    RobbedFacts(r, SendViewOf(Do(s, a), r));
  }

  lemma IdleTakesNoWrite(s: System, a: Step, r: Req)
    requires SystemOk(s) && Can(s, a) && a.Write? && Registered(s, r) && r in s.pool.jobs
    requires s.pool.jobs[r].worker < |s.pool.workers| == |s.wrote| && Tokens(SendViewOf(s, r)) == 0
    ensures a.w < |s.pool.workers| && PcAt(s.pool, a.w).Popped? && s.pool.workers[a.w].pc.task.req != r
  {
    hide SystemOk, Enabled;
    TurnIsRegistered(s, a.w);
  }

  lemma RobbedStays(s: System, a: Step, r: Req)
    requires Can(s, a) && Registered(s, r) && s.sends[r].robbed && !LetGo(s.sends[r]) && Returned(s, r)
    requires a.Write? ==> PcAt(s.pool, a.w).Popped? && s.pool.workers[a.w].pc.task.req != r
    ensures Registered(Do(s, a), r) && Do(s, a).sends[r].robbed
    ensures Do(s, a).sends[r].posted == s.sends[r].posted && Do(s, a).sends[r].n == s.sends[r].n
  {
    hide Apply, Enabled, Mine;
  }

  /** No lookup of the run hit the context of a request in the gap of its cancel. */
  predicate GapFree(run: seq<Step>)
    requires History(run).Some?
  {
    run == [] ||
    var front, a := run[..|run| - 1], run[|run| - 1];
    && GapFree(front)
    && var s := History(front).value;
       (a.Lookup? && s.poller.Got? && s.poller.req in s.pool.ctxs ==> s.poller.req !in s.pool.removed)
  }

  /** The condition a poller can look at before each lookup: as long as it holds, nobody is robbed. */
  lemma {:induction false} NobodyRobbed(run: seq<Step>, s: System)
    requires Reached(run, s) && GapFree(run)
    ensures s.poller.Holding? ==> !s.poller.gap
    ensures forall r :: r in s.sends ==> !s.sends[r].robbed
  {
    if run != [] {
      var front, a := run[..|run| - 1], run[|run| - 1];
      var t := History(front).value;
      NobodyRobbed(front, t);
      hide SystemOk, Do, Can;
      ReachedOk(front, t);
      NoGapStep(t, a);
      forall r | r in s.sends ensures !s.sends[r].robbed {
        NoRobStep(t, a, r);
      }
    }
  }

  lemma NoGapStep(s: System, a: Step)
    requires Can(s, a) && (s.poller.Holding? ==> !s.poller.gap)
    requires a.Lookup? && s.poller.Got? && s.poller.req in s.pool.ctxs ==> s.poller.req !in s.pool.removed
    ensures Do(s, a).poller.Holding? ==> !Do(s, a).poller.gap
  {
    hide Apply, Enabled;
  }

  lemma NoRobStep(s: System, a: Step, r: Req)
    requires Can(s, a) && SystemOk(s) && (s.poller.Holding? ==> !s.poller.gap) && r in Do(s, a).sends
    requires r in s.sends ==> !s.sends[r].robbed
    ensures !Do(s, a).sends[r].robbed
  {
    hide SystemOk, PollerOk, CallerOk, WritesOk, Do, Can, Robs;
    SystemRest(s);
    if Do(s, a).sends[r].robbed {
      RobberIsSet(s, a, r);
      SpareMeansNoRob(s);
    }
  }

  lemma SpareMeansNoRob(s: System)
    requires PollerOk(s) && s.poller.Holding? && !s.poller.gap
    ensures !Robs(s)
  {
    hide Mine, Owns;
  }

  lemma RobberIsSet(s: System, a: Step, r: Req)
    requires Can(s, a) && r in Do(s, a).sends && Do(s, a).sends[r].robbed && !(r in s.sends && s.sends[r].robbed)
    ensures a.Set? && s.poller.Holding? && Robs(s)
  {
    hide Apply, Enabled, Mine, Robs;
  }

  // ----- lifetime -----

  /** Nothing in any queue and no function in progress refers to request `r`. */
  ghost predicate Unreferenced(s: System, r: Req) {
    forall w :: 0 <= w < |s.pool.workers| ==>
      && (forall t :: t in s.pool.workers[w].queue ==> t.req != r)
      && (s.pool.workers[w].pc.Popped? ==> s.pool.workers[w].pc.task.req != r)
  }

  /**
   When the waiter frees handle, arguments and chunks, on the success path and on the
   fail-then-cancel path, no queued or running task refers to them, and none ever does later.
   */
  lemma FreedUnreferenced(run: seq<Step>, s: System, r: Req)
    requires Reached(run, s) && r in s.sends && (s.sends[r].waiter.Ready? || s.sends[r].waiter.Gone?)
    ensures !s.strayAccess && Unreferenced(s, r)
  {
    hide SystemOk, Reached, Inv, Unreferenced;
    ReachedOk(run, s);
    SystemRest(s);
    if Registered(s, r) {
      PastCancelUnreferenced(s, r);
    } else {
      DormantUnreferenced(s, r);
    }
  }

  lemma PastCancelUnreferenced(s: System, r: Req)
    requires SystemOk(s) && Registered(s, r) && PastCancel(s.sends[r].waiter)
    ensures Unreferenced(s, r)
  {
    hide SystemOk, Inv, Mine;
    SendFacts(s, r);
    SystemFacts(s);
    var home := s.pool.jobs[r].worker;
    assert Mine(s.pool.workers[home].queue, r) == [] && !StageOf(s.pool.workers[home].pc, r).Popped?;
    forall w | 0 <= w < |s.pool.workers|
      ensures forall t :: t in s.pool.workers[w].queue ==> t.req != r
      ensures s.pool.workers[w].pc.Popped? ==> s.pool.workers[w].pc.task.req != r
    {
      if w != home {
        NowhereElse(s.pool, r, w);
      }
      NoneOfMine(s.pool.workers[w].queue, r);
    }
  }

  lemma NoneOfMine(q: seq<Task>, r: Req)
    ensures Mine(q, r) == [] ==> forall t :: t in q ==> t.req != r
  {
    NotQueuedThere(q, r);
  }

  lemma DormantUnreferenced(s: System, r: Req)
    requires SystemOk(s) && r in s.sends && !Registered(s, r)
    ensures Unreferenced(s, r)
  {
    hide Inv, CallerOk, PollerOk, WritesOk, SendOk;
    assert Dormant(s, r) && Unused(s.pool, r);
    forall w | 0 <= w < |s.pool.workers|
      ensures forall t :: t in s.pool.workers[w].queue ==> t.req != r
      ensures s.pool.workers[w].pc.Popped? ==> s.pool.workers[w].pc.task.req != r
    {
      assert UnusedAt(s.pool.workers[w], r);
    }
  }

  /** A task's function only ever runs for a request whose resources are still there. */
  lemma RunsOnlyWhileAlive(run: seq<Step>, s: System, w: nat, ok: bool)
    requires Reached(run, s) && (Can(s, Write(w, ok)) || Can(s, Mark(w)))
    ensures !PastCancel(s.sends[s.pool.workers[w].pc.task.req].waiter)
  {
    hide SystemOk, Reached, Inv, Enabled;
    ReachedOk(run, s);
    SystemFacts(s);
    TurnIsRegistered(s, w);
    var r := s.pool.workers[w].pc.task.req;
    SendFacts(s, r);
    StageIsPc(s.pool, r, w);
  }

  // ----- verdict -----

  /** The send reports success exactly when every chunk was posted. */
  lemma VerdictIsExact(run: seq<Step>, s: System, r: Req)
    requires Reached(run, s) && r in s.sends
    requires s.sends[r].waiter.Ready? || s.sends[r].waiter.Gone?
    ensures s.sends[r].waiter.ok <==> |s.sends[r].posted| == s.sends[r].n
    ensures s.sends[r].waiter.ok ==>
              Registered(s, r) && r in s.pool.jobs && s.pool.jobs[r].ran == s.pool.jobs[r].tasks
              && (forall i :: 0 <= i < |s.sends[r].marks| ==> s.sends[r].marks[i])
              && |s.sends[r].marks| == s.sends[r].n - 1
  {
    hide SystemOk, Reached, Inv, RequestOk;
    ReachedOk(run, s);
    if Registered(s, r) {
      SendFacts(s, r);
      SuccessFacts(r, SendViewOf(s, r));
      JobOfView(s.pool, r);
    } else {
      DormantFacts(s, r);
      DormantVerdict(s, r);
    }
  }

  lemma DormantVerdict(s: System, r: Req)
    requires SystemOk(s) && r in s.sends && !Registered(s, r)
    ensures s.sends[r].waiter == Waiter.Gone(false) || s.sends[r].waiter.Away?
    ensures s.sends[r].n > 0
  {
    hide Inv, Unused, CallerOk, PollerOk, WritesOk, SendOk;
    assert Dormant(s, r);
  }

  lemma SuccessFacts(r: Req, x: SendView)
    requires SendOk(r, x) && Fates(r, x.v) && PastCancel(x.t.waiter) && !x.t.waiter.Unsubtracted?
    ensures x.t.waiter.ok <==> |x.t.posted| == x.t.n
    ensures x.t.waiter.ok ==> x.v.job.ran == x.v.job.tasks && AllTrue(x.t.marks) && |x.t.marks| == x.t.n - 1
  {
    VerdictOf(r, x);
    PostedBound(r, x);
    AllTrueCounts(x.t.marks);
    QueuedStretch(r, x.v);
    if x.t.waiter.ok {
      assert x.v.job.tasks == x.v.job.ran + (Hand(x.v.stage) + x.v.queued + x.v.job.dropped + x.v.job.cancelled);
    }
  }

  /** The counter of the handle stays within its bound. */
  lemma CompletedBounded(run: seq<Step>, s: System, r: Req)
    requires Reached(run, s) && Registered(s, r)
    ensures s.sends[r].sync.completed <= s.sends[r].sync.total == s.sends[r].n - 1
    ensures s.sends[r].sync.completed == Successes(s.sends[r].marks)
  {
    hide SystemOk, Reached, Inv, RequestOk;
    ReachedOk(run, s);
    SendFacts(s, r);
    VerdictOf(r, SendViewOf(s, r));
  }

  /** Once set, the completion flag stays set until the id is used again. */
  lemma DoneSticks(s: System, a: Step, r: Req)
    requires Can(s, a) && r in s.sends && s.sends[r].sync.done && !(a.Call? && a.req == r) && !(a.Forget? && a.req == r)
    ensures r in Do(s, a).sends && Do(s, a).sends[r].sync.done
  {
    hide Apply, Enabled;
  }

  /** Unless the send was robbed, its waiter never waits for nothing: a chunk or a mark is on its way. */
  lemma WaitIsFed(run: seq<Step>, s: System, r: Req)
    requires Reached(run, s) && Registered(s, r) && Returned(s, r) && !s.sends[r].sync.done
    ensures || s.sends[r].robbed
            || (TokenCount(s, r) == 1 && |s.sends[r].posted| < s.sends[r].n)
            || (exists w ::
                  0 <= w < |s.wrote| && s.wrote[w].Some? && Can(s, Mark(w)) && s.pool.workers[w].pc.task.req == r)
  {
    hide SystemOk, Reached, Inv, RequestOk;
    ReachedOk(run, s);
    SendFacts(s, r);
    TokensCounted(s, r);
    var x, w := SendViewOf(s, r), s.pool.jobs[r].worker;
    NotDoneFacts(r, x);
    if x.wrote.Some? {
      assert s.wrote[w].Some? && Can(s, Mark(w)) && s.pool.workers[w].pc.task.req == r;
    }
  }

  lemma NotDoneFacts(r: Req, x: SendView)
    requires SendOk(r, x) && Fates(r, x.v) && !x.calling && !x.t.sync.done
    ensures x.wrote.Some? || (|x.t.posted| < x.t.n && (Tokens(x) == 1 || x.t.robbed))
    ensures x.wrote.Some? ==> x.v.stage.Popped?
  {
    VerdictOf(r, x);
    AllTrueCounts(x.t.marks);
    PostedBound(r, x);
  }
}
