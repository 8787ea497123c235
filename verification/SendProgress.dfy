/**
 The send protocol never gets stuck: the number of chunks left and the place of the token
 make a measure that no step raises and every move of the token lowers, and from every
 reachable state there is a continuation in which all chunks of a send go out.
 */
module SendProgress {
  import opened Base
  import opened TaskQueue
  import opened TaskSync
  import opened BatchSubmit
  import opened Pool
  import opened PoolInvariant
  import opened PoolViews
  import opened PoolSteps
  import opened Send
  import opened SendInvariant
  import opened SendViews
  import opened SendSteps
  import opened SendTheorems
  import Shutdown

  /** The send call has returned, no post was refused, chunks are left, and nobody took the token away. */
  predicate Live(s: System, r: Req) {
    Registered(s, r) && Returned(s, r) && !s.sends[r].failed && !s.sends[r].robbed && |s.sends[r].posted| < s.sends[r].n
  }

  function TokenRank(s: System, r: Req): nat {
    if AtWrite(s, r) then 4
    else if AtPoller(s, r) then 3
    else if AtWake(s, r) then 2
    else if AtSlot(s, r) then 1
    else 0
  }

  /** Token moves left before the last chunk is posted. */
  function TokenMeasure(s: System, r: Req): int
    requires r in s.sends
  {
    5 * (s.sends[r].n - |s.sends[r].posted|) + TokenRank(s, r)
  }

  /** The steps that pass the token of `r` on. */
  predicate MovesToken(s: System, a: Step, r: Req) {
    match a
    case Deliver(q) => q == r
    case Lookup => AtPoller(s, r)
    case Set => AtWake(s, r)
    case Turn(b) => b.LoopTop? && AtSlot(s, r) && b.w == s.pool.jobs[r].worker
    case Write(w, ok) => AtWorker(s, r) && w == s.pool.jobs[r].worker
    case _ => false
  }

  // ----- what one step does to the places of the token -----

  /** What an action does to slots and homes: a slot names a request only after a wake for it. */
  ghost predicate SlotShape(p: State, b: Action, r: Req, w: nat, p': State) {
    && r in p.jobs && r in p'.jobs && p'.jobs[r].worker == p.jobs[r].worker && |p'.workers| == |p.workers|
    && (w < |p.workers| && p'.workers[w].pending == r ==> p.workers[w].pending == r || b == WakeSet(r, w))
    && (b == LoopTop(w) ==> w < |p.workers| && p'.workers[w].pending != r)
  }

  lemma AttachSlots(p: State, r: Req, w: nat)
    requires Enabled(p, Attach) && r != 0 && r in p.jobs && p.sub.req != r
    ensures SlotShape(p, Attach, r, w, Apply(p, Attach))
  {
    var p' := ApplyAttach(p);
    assert Apply(p, Attach) == p';
    hide Apply, Enabled, Clear, Retired, Unfreed;
  }

  lemma CountSlots(p: State, r: Req, w: nat)
    requires Enabled(p, CountCtx) && r != 0 && r in p.jobs
    ensures SlotShape(p, CountCtx, r, w, Apply(p, CountCtx))
  {
    CountKeeps(p);
    hide ApplyCount;
  }

  lemma CountKeeps(p: State)
    requires p.sub.Resolved?
    ensures var p' := ApplyCount(p);
            && p'.workers == p.workers
            && forall r :: r in p.jobs ==> r in p'.jobs && p'.jobs[r].worker == p.jobs[r].worker
  {
    CountedKeeps(p, p.sub.req);
    hide WithJob;
  }

  lemma CountedKeeps(p: State, q: Req)
    ensures var p' := WithJob(p.(sub := NoSubmit), q, (j: Job) => j.(counted := true));
            && p'.workers == p.workers
            && forall r :: r in p.jobs ==> r in p'.jobs && p'.jobs[r].worker == p.jobs[r].worker
  {
  }

  lemma SelectionSlots(p: State, b: Action, r: Req, w: nat)
    requires Enabled(p, b) && r != 0 && r in p.jobs
    requires b.Submit? || b.ScanNext? || b.BuildNext? || b.BuildFail? || b.LookupCtx?
    ensures SlotShape(p, b, r, w, Apply(p, b))
  {
    assert Apply(p, b).workers == p.workers && Apply(p, b).jobs == p.jobs by {
      hide Takes, Weigh, LoadOf, MutexFree, FreeAll, Unfreed;
    }
    hide Apply, Enabled;
  }

  lemma WakeSlots(p: State, b: Action, r: Req, w: nat)
    requires Enabled(p, b) && r != 0 && r in p.jobs
    requires b.WakeFind? || b.WakeSet? || b.CancelFind? || b.CancelCount?
    ensures SlotShape(p, b, r, w, Apply(p, b))
  {
  }

  lemma CancelSlots(p: State, b: Action, r: Req, w: nat)
    requires Enabled(p, b) && r != 0 && r in p.jobs && b.CancelQueue?
    ensures SlotShape(p, b, r, w, Apply(p, b))
  {
    CancelQueueWorkers(p, b.req, b.w);
    assert r in Apply(p, b).jobs && Apply(p, b).jobs[r].worker == p.jobs[r].worker by {
      hide Mine, Others, FreeAll, Unlocked;
    }
    hide ApplyCancelQueue, Others;
  }

  lemma LoopSlots(p: State, b: Action, r: Req, w: nat)
    requires Enabled(p, b) && r != 0 && r in p.jobs && b.LoopTop?
    ensures SlotShape(p, b, r, w, Apply(p, b))
  {
    LoopTopEffect(p, b.w, r);
    hide ApplyLoopTop;
  }

  lemma LoopTopEffect(p: State, w: nat, r: Req)
    requires PcAt(p, w).Check? && r in p.jobs
    ensures var p' := ApplyLoopTop(p, w);
            && r in p'.jobs && p'.jobs[r].worker == p.jobs[r].worker
            && |p'.workers| == |p.workers| && p'.workers == p.workers[w := p'.workers[w]] && p'.workers[w].pending == 0
  {
    LoopTopWorkers(p, w);
    LoopTopHomes(p, w, r);
    hide ApplyLoopTop;
  }

  lemma LoopTopHomes(p: State, w: nat, r: Req)
    requires PcAt(p, w).Check? && r in p.jobs
    ensures r in ApplyLoopTop(p, w).jobs && ApplyLoopTop(p, w).jobs[r].worker == p.jobs[r].worker
  {
    hide DropFirst, FirstOf, Destroying, InTurn, WithJob;
    var x := p.workers[w];
    if x.pending != 0 && FirstOf(x.queue, x.pending).Some? {
      var t := FirstOf(x.queue, x.pending).value;
      UnlinkedKeeps(SetWorker(p, w, Worker(Popped(t), Busy, 0, DropFirst(x.queue, x.pending))), t.req, t.arg, r);
    }
  }

  lemma UnlinkedKeeps(p: State, q: Req, i: nat, r: Req)
    requires r in p.jobs
    ensures var p' := WithJob(p, q, (j: Job) => j.(freed := FreeNode(j.freed, i)));
            r in p'.jobs && p'.jobs[r].worker == p.jobs[r].worker
  {
    hide FreeNode;
  }

  lemma WaitingSlots(p: State, b: Action, r: Req, w: nat)
    requires Enabled(p, b) && r != 0 && r in p.jobs && (b.Wait? || b.Rouse? || b.Relock?)
    ensures SlotShape(p, b, r, w, Apply(p, b))
  {
  }

  lemma TurnSlots(p: State, b: Action, r: Req, w: nat)
    requires Enabled(p, b) && r != 0 && r in p.jobs && (b.FindCtx? || b.Uncount?)
    ensures SlotShape(p, b, r, w, Apply(p, b))
  {
  }

  lemma RunSlots(p: State, at: nat, r: Req, w: nat)
    requires Enabled(p, RunTask(at)) && r != 0 && r in p.jobs
    ensures SlotShape(p, RunTask(at), r, w, Apply(p, RunTask(at)))
  {
    RunEffect(p, at);
    hide ApplyRun;
  }

  lemma RunEffect(p: State, at: nat)
    requires PcAt(p, at).Popped?
    ensures var p' := ApplyRun(p, at);
            && p'.workers == p.workers[at := p.workers[at].(pc := Ran(p.workers[at].pc.task))]
            && p'.cancels == p.cancels
            && forall r :: r in p.jobs ==> r in p'.jobs && p'.jobs[r].worker == p.jobs[r].worker
  {
    hide FreeWrapper;
  }

  lemma LateTurnSlots(p: State, b: Action, r: Req, w: nat)
    requires Enabled(p, b) && r != 0 && r in p.jobs && (b.Callback? || b.DropCtx?)
    ensures SlotShape(p, b, r, w, Apply(p, b))
  {
  }

  lemma FreeSlots(p: State, at: nat, r: Req, w: nat)
    requires Enabled(p, FreeTask(at)) && r != 0 && r in p.jobs
    ensures SlotShape(p, FreeTask(at), r, w, Apply(p, FreeTask(at)))
  {
    FreedKeeps(p, at);
    hide WithBatchOf;
  }

  lemma FreedKeeps(p: State, at: nat)
    requires PcAt(p, at).Settled?
    ensures var p' := ApplyFreeTask(p, at);
            && p'.workers == p.workers[at := p.workers[at].(pc := Check, state := Idle)]
            && forall r :: r in p.jobs ==> r in p'.jobs && p'.jobs[r].worker == p.jobs[r].worker
  {
    hide FreeTaskCell, BatchOf, FirstId;
  }

  lemma DestroyerSlots(p: State, b: Action, r: Req, w: nat)
    requires Enabled(p, b) && r != 0 && r in p.jobs
    requires b.SetFlag? || b.SignalNext? || b.Join? || b.DropQueue? || b.Finish?
    ensures SlotShape(p, b, r, w, Apply(p, b))
  {
    hide FreeAll, Mine;
  }

  lemma SlotSource(p: State, b: Action, r: Req, w: nat)
    requires Enabled(p, b) && r != 0 && r in p.jobs && !(b.Attach? && p.sub.req == r)
    ensures SlotShape(p, b, r, w, Apply(p, b))
  {
    hide Apply, Enabled, SlotShape;
    if b.Submit? || b.ScanNext? || b.BuildNext? || b.BuildFail? || b.LookupCtx? {
      SelectionSlots(p, b, r, w);
    } else if b.Attach? {
      AttachSlots(p, r, w);
    } else if b.CountCtx? {
      CountSlots(p, r, w);
    } else if b.WakeFind? || b.WakeSet? || b.CancelFind? || b.CancelCount? {
      WakeSlots(p, b, r, w);
    } else if b.CancelQueue? {
      CancelSlots(p, b, r, w);
    } else if b.LoopTop? {
      LoopSlots(p, b, r, w);
    } else if b.Wait? || b.Rouse? || b.Relock? {
      WaitingSlots(p, b, r, w);
    } else if b.SetFlag? || b.SignalNext? || b.Join? || b.DropQueue? || b.Finish? {
      DestroyerSlots(p, b, r, w);
    } else if b.RunTask? {
      RunSlots(p, b.w, r, w);
    } else if b.FreeTask? {
      FreeSlots(p, b.w, r, w);
    } else if b.Callback? || b.DropCtx? {
      LateTurnSlots(p, b, r, w);
    } else {
      TurnSlots(p, b, r, w);
    }
  }

  /** The token appears at a place only by moving there from the place before. */
  ghost predicate Follows(s: System, s': System, a: Step, r: Req) {
    && Registered(s, r) && Registered(s', r) && s'.sends[r].n == s.sends[r].n
    && |s.sends[r].posted| <= |s'.sends[r].posted|
    && (|s'.sends[r].posted| == |s.sends[r].posted| ==> s'.sends[r].out <= s.sends[r].out)
    && (s'.sends[r].failed ==> s.sends[r].failed || (a.Write? && !a.ok))
    && (AtPoller(s', r) ==> AtPoller(s, r) || a == Deliver(r))
    && (AtWake(s', r) ==> AtWake(s, r) || AtPoller(s, r))
    && (AtSlot(s', r) ==> AtSlot(s, r) || AtWake(s, r))
  }

  lemma SlotFollows(s: System, a: Step, r: Req)
    requires Can(s, a) && r in s.pool.jobs && r != 0
    requires a == Register(Attach) || a == Other(Attach) ==> s.pool.sub.req != r
    ensures AtSlot(Do(s, a), r) ==> AtSlot(s, r) || AtWake(s, r)
  {
    var w := s.pool.jobs[r].worker;
    NoAttach(s, a);
    FollowsPool(s, a);
    if PoolAction(s, a).Some? {
      var b := PoolAction(s, a).value;
      hide Do, Apply, Enabled;
      SlotSource(s.pool, b, r, w);
      WakesAreSets(s, a, r);
    }
  }

  lemma SlotMoves(s: System, a: Step, r: Req)
    requires Can(s, a) && r in s.pool.jobs && r != 0
    ensures a.Turn? && MovesToken(s, a, r) ==> AtSlot(s, r) && !AtSlot(Do(s, a), r)
  {
    if a.Turn? && MovesToken(s, a, r) {
      SlotSource(s.pool, a.a, r, s.pool.jobs[r].worker);
      hide Apply, Enabled;
    }
  }

  lemma NoAttach(s: System, a: Step)
    requires Can(s, a)
    ensures PoolAction(s, a) == Some(Attach) ==> a == Register(Attach) || a == Other(Attach)
  {
    hide Enabled;
  }

  lemma WakesAreSets(s: System, a: Step, r: Req)
    requires Can(s, a)
    ensures PoolAction(s, a).Some? && PoolAction(s, a).value.WakeSet? && PoolAction(s, a).value.req == r ==>
              AtWake(s, r)
  {
    hide Enabled;
  }

  /** The id is called again, or the send is forgotten. */
  predicate Ends(a: Step, r: Req) {
    (a.Call? && a.req == r) || (a.Forget? && a.req == r)
  }

  lemma PostFollows(s: System, a: Step, r: Req)
    requires Can(s, a) && Registered(s, r) && Returned(s, r) && !Ends(a, r)
    ensures var s' := Do(s, a);
            && Registered(s', r) && s'.sends[r].n == s.sends[r].n && Returned(s', r)
            && |s.sends[r].posted| <= |s'.sends[r].posted|
            && (|s'.sends[r].posted| == |s.sends[r].posted| ==> s'.sends[r].out <= s.sends[r].out)
            && (s'.sends[r].failed ==> s.sends[r].failed || (a.Write? && !a.ok))
  {
    hide Apply, Enabled;
  }

  lemma PollerFollows(s: System, a: Step, r: Req)
    requires Can(s, a) && r in s.sends
    ensures var s' := Do(s, a);
            && (AtPoller(s', r) ==> AtPoller(s, r) || a == Deliver(r))
            && (AtWake(s', r) ==> AtWake(s, r) || AtPoller(s, r))
  {
    hide Apply, Enabled;
  }

  lemma StepFollows(s: System, a: Step, r: Req)
    requires Can(s, a) && CallerOk(s) && Registered(s, r) && Returned(s, r) && r in s.pool.jobs && r != 0
    requires !Ends(a, r)
    ensures Follows(s, Do(s, a), a, r) && Returned(Do(s, a), r)
  {
    AttachIsForCaller(s, a);
    hide CallerOk, Do, Can, AtSlot, AtPoller, AtWake;
    SlotFollows(s, a, r);
    PostFollows(s, a, r);
    PollerFollows(s, a, r);
  }

  lemma AttachIsForCaller(s: System, a: Step)
    requires CallerOk(s) && Can(s, a)
    ensures a == Register(Attach) ==> s.caller.Registering? && s.pool.sub.req == s.caller.req
    ensures a == Other(Attach) ==> s.pool.sub.req !in s.sends
  {
    hide Enabled;
  }

  // ----- the measure -----

  /** After a move the token is no longer where it was. */
  predicate Left(s: System, s': System, a: Step, r: Req) {
    Registered(s, r) && Registered(s', r) && MovesToken(s, a, r) ==>
      && (a.Deliver? ==> AtWrite(s, r) && s'.sends[r].out == 0)
      && (a.Lookup? ==> AtPoller(s, r) && !AtPoller(s', r))
      && (a.Set? ==> AtWake(s, r) && !AtWake(s', r))
      && (a.Turn? ==> AtSlot(s, r) && !AtSlot(s', r))
      && (a.Write? && !s'.sends[r].failed ==> |s'.sends[r].posted| == |s.sends[r].posted| + 1)
  }

  lemma LiveFacts(s: System, r: Req)
    requires SystemOk(s) && Live(s, r)
    ensures CallerOk(s) && r in s.pool.jobs && r != 0 && TokenCount(s, r) == 1
    ensures !LetGo(s.sends[r])
  {
    hide SystemOk, Inv, RequestOk;
    SystemRest(s);
    SendFacts(s, r);
    TokensCounted(s, r);
    VerdictOf(r, SendViewOf(s, r));
    hide Fates, CallerOk;
  }

  lemma LiveIsNotCalled(s: System, a: Step, r: Req)
    requires Can(s, a) && r in s.sends && !LetGo(s.sends[r])
    ensures !Ends(a, r)
  {
    hide Enabled;
  }

  /**
   No step of anyone raises the measure of a live request, and passing its token on lowers
   it; the only ways out are a refused post and a wake that takes the slot away.
   */
  lemma MeasureFalls(s: System, a: Step, r: Req)
    requires SystemOk(s) && Can(s, a) && Live(s, r)
    ensures Registered(Do(s, a), r) && Returned(Do(s, a), r) && (Do(s, a).sends[r].failed ==> a.Write? && !a.ok)
    ensures Do(s, a).sends[r].robbed ==> a.Set? && Robs(s) && AtSlot(s, r)
    ensures !Do(s, a).sends[r].failed && !Do(s, a).sends[r].robbed ==>
              TokenMeasure(Do(s, a), r) <= TokenMeasure(s, r) - if MovesToken(s, a, r) then 1 else 0
    ensures |s.sends[r].posted| <= |Do(s, a).sends[r].posted|
  {
    var s' := Do(s, a);
    LiveFacts(s, r);
    hide SystemOk, CallerOk, Do, Can, Follows, Left, Live, TokenCount, TokenMeasure, Returned;
    LiveIsRegistered(s, r);
    LiveIsNotCalled(s, a, r);
    StepFollows(s, a, r);
    SendStepOk(s, a);
    MoveLeaves(s, a, r);
    if Live(s', r) {
      LiveFacts(s', r);
    }
    MeasureOfMove(s, s', a, r);
    RobbedAtSlot(s, a, r);
  }

  /** A wake takes the slot away only from a send whose token is in it. */
  lemma RobbedAtSlot(s: System, a: Step, r: Req)
    requires SystemOk(s) && Can(s, a) && Live(s, r) && !Ends(a, r)
    ensures r in Do(s, a).sends && (Do(s, a).sends[r].robbed ==> a.Set? && Robs(s) && AtSlot(s, r))
  {
    hide SystemOk, Do, Can, Robs, Returned, AtSlot, Inv;
    RobbedStep(s, a, r);
    SystemFacts(s);
    if Robs(s) {
      RobbedIsHome(s);
    }
  }

  lemma RobbedIsHome(s: System)
    requires Inv(s.pool) && Robs(s)
    ensures s.poller.Holding? && s.poller.w < |s.pool.workers| && AtSlot(s, s.pool.workers[s.poller.w].pending)
  {
    hide Inv, Mine;
    InvHomes(s.pool);
    var x := s.pool.workers[s.poller.w];
    NoneOfMine(x.queue, x.pending);
    SomeMine(x.queue, x.pending);
  }

  lemma SomeMine(q: seq<Task>, r: Req)
    requires Mine(q, r) != []
    ensures exists t :: t in q && t.req == r
  {
    if forall t :: t in q ==> t.req != r {
      NotQueuedThere(q, r);
    }
  }

  /**
   Progress over runs: whatever any thread does next, a live request keeps what it has
   posted and comes no further from its last chunk, and strictly closer whenever its token
   is passed on. A refused post and the loss of its slot to a wake looked up in the gap of a
   cancel are the only ways to stop being live without finishing.
   */
  lemma OnlyAdvances(run: seq<Step>, s: System, a: Step, s': System, r: Req)
    requires Reached(run, s) && Can(s, a) && Live(s, r) && s' == Do(s, a)
    ensures Registered(s', r) && s.sends[r].posted <= s'.sends[r].posted
    ensures s'.sends[r].failed ==> a.Write? && !a.ok
    ensures s'.sends[r].robbed ==> a.Set? && s.poller.Holding? && s.poller.gap && s.poller.req != r
    ensures !s'.sends[r].failed && !s'.sends[r].robbed ==>
              TokenMeasure(s', r) <= TokenMeasure(s, r) - if MovesToken(s, a, r) then 1 else 0
  {
    hide SystemOk, Reached, Can, Do, Live, TokenMeasure, MovesToken, Returned;
    ReachedOk(run, s);
    LiveIsRegistered(s, r);
    LiveFacts(s, r);
    LiveIsNotCalled(s, a, r);
    RobbedIff(run, s, a, r);
    ExtendRun(run, s, a);
    MeasureFalls(s, a, r);
    PostsInOrder(run, s, r);
    PostsInOrder(run + [a], s', r);
  }

  /**
   When a live send loses its token: exactly when a held wake for another request is set into
   a slot that names the send while tasks of it are queued there; and that wake was looked up
   in the gap of a cancel of its own request.
   */
  lemma TokenLostIff(run: seq<Step>, s: System, a: Step, r: Req)
    requires Reached(run, s) && Can(s, a) && Live(s, r)
    ensures var s' := Do(s, a);
            && Registered(s', r)
            && (!s'.sends[r].failed && |s'.sends[r].posted| < s'.sends[r].n ==>
                  (TokenCount(s', r) == 0 <==> a.Set? && Robs(s) && s.pool.workers[s.poller.w].pending == r))
    ensures a.Set? && Robs(s) && s.pool.workers[s.poller.w].pending == r ==>
              s.poller.Holding? && s.poller.gap && TokenCount(Do(s, a), r) == 0
  {
    hide SystemOk, Reached, Do, Can, TokenCount, TokenMeasure, MovesToken, Returned, Robs, CallerOk;
    ReachedOk(run, s);
    LiveIsRegistered(s, r);
    LiveFacts(s, r);
    LiveIsNotCalled(s, a, r);
    RobbedIff(run, s, a, r);
    MeasureFalls(s, a, r);
    ExtendRun(run, s, a);
    ExactlyOneToken(run + [a], Do(s, a), r);
  }

  // ----- whole continuations -----

  /** The moves of the token of `r` in a continuation. */
  function TokenMoves(s: System, steps: seq<Step>, r: Req): nat
    requires Later(s, steps).Some?
    decreases |steps|
  {
    if steps == [] then 0
    else (if MovesToken(s, steps[0], r) then 1 else 0) + TokenMoves(Do(s, steps[0]), steps[1..], r)
  }

  ghost predicate LiveThroughout(s: System, steps: seq<Step>, r: Req)
    requires Later(s, steps).Some?
    decreases |steps|
  {
    Live(s, r) && (steps != [] ==> LiveThroughout(Do(s, steps[0]), steps[1..], r))
  }

  /**
   In every continuation, whoever runs: while a send stays live, its token moves at most as
   often as the measure says, which is 5 times the chunks left, and 4.
   */
  lemma {:induction false} TokenMovesBounded(run: seq<Step>, s: System, steps: seq<Step>, t: System, r: Req)
    requires Reached(run, s) && Later(s, steps) == Some(t) && LiveThroughout(s, steps, r)
    ensures r in s.sends && r in t.sends && Live(t, r)
    ensures TokenMoves(s, steps, r) + TokenMeasure(t, r) <= TokenMeasure(s, r)
    ensures TokenMoves(s, steps, r) <= 5 * (s.sends[r].n - |s.sends[r].posted|) + 4
    decreases |steps|
  {
    hide SystemOk, Reached, Do, Can, MovesToken, Returned, TokenRank;
    if steps != [] {
      var s' := Do(s, steps[0]);
      assert Live(s', r);
      OnlyAdvances(run, s, steps[0], s', r);
      ExtendRun(run, s, steps[0]);
      TokenMovesBounded(run + [steps[0]], s', steps[1..], t, r);
    }
    RankBound(s, r);
  }

  lemma RankBound(s: System, r: Req)
    ensures TokenRank(s, r) <= 4
  {
    hide AtWrite, AtPoller, AtWake, AtSlot;
  }

  lemma LiveIsRegistered(s: System, r: Req)
    requires Live(s, r)
    ensures Registered(s, r) && Returned(s, r) && !s.sends[r].robbed
  {
  }

  lemma MeasureOfMove(s: System, s': System, a: Step, r: Req)
    requires Live(s, r) && Follows(s, s', a, r) && Returned(s', r) && Left(s, s', a, r)
    requires TokenCount(s, r) == 1 && (Live(s', r) ==> TokenCount(s', r) == 1)
    ensures Registered(s', r) && (s'.sends[r].failed ==> a.Write? && !a.ok)
    ensures |s.sends[r].posted| <= |s'.sends[r].posted|
    ensures !s'.sends[r].failed ==>
              TokenMeasure(s', r) <= TokenMeasure(s, r) - if MovesToken(s, a, r) then 1 else 0
  {
    hide AtSlot, AtPoller, AtWake, AtWorker, Returned;
  }

  lemma MoveLeaves(s: System, a: Step, r: Req)
    requires Can(s, a) && Registered(s, r) && r in s.pool.jobs && r != 0 && TokenCount(s, r) == 1
    ensures Left(s, Do(s, a), a, r)
  {
    SlotMoves(s, a, r);
    hide Apply, Enabled, AtSlot, SlotShape;
  }

  // ----- someone can always move -----

  /** How far a worker is from giving its mutex back. */
  function WorkerRank(x: Worker, wrote: Option<bool>): nat {
    (match x.pc
     case Asleep => 0
     case Gone => 0
     case Doze => 1
     case Check => 2
     case Roused => 3
     case Settled(_) => 3
     case Called(_) => 4
     case Zeroed(_, _) => 5
     case Looked(_, _) => 6
     case Ran(_) => 7
     case Popped(_) => if wrote.Some? then 8 else 9)
    + if x.pending != 0 then 10 else 0
  }

  function RankAt(s: System, w: nat): nat {
    if w < |s.pool.workers| && w < |s.wrote| then WorkerRank(s.pool.workers[w], s.wrote[w]) else 0
  }

  /** The next step of a worker; a post, if it makes one, is accepted. */
  function NextStep(s: System, w: nat): Step {
    if PcAt(s.pool, w).Popped? then
      if s.pool.workers[w].pc.task.req !in s.sends then Other(RunTask(w))
      else if w < |s.wrote| && s.wrote[w].None? then Write(w, true)
      else Mark(w)
    else Turn(Shutdown.NextOf(PcAt(s.pool, w), w))
  }

  ghost predicate Lowers(p: State, b: Action, w: nat) {
    && Enabled(p, b) && Silent(b) && w < |p.workers| == |Apply(p, b).workers|
    && forall o :: WorkerRank(Apply(p, b).workers[w], o) < WorkerRank(p.workers[w], o)
  }

  lemma LoopLowers(p: State, w: nat)
    requires PcAt(p, w).Check? && !Destroying(p)
    ensures Lowers(p, LoopTop(w), w)
  {
    hide DropFirst, FirstOf, FreeNode;
  }

  lemma WaitingLowers(p: State, w: nat, b: Action)
    requires (PcAt(p, w).Doze? && b == Wait(w)) || (PcAt(p, w).Roused? && b == Relock(w))
    ensures Lowers(p, b, w)
  {
  }

  lemma TurnLowers(p: State, w: nat, b: Action)
    requires (PcAt(p, w).Ran? && b == FindCtx(w)) || (PcAt(p, w).Looked? && b == Uncount(w))
    requires PcAt(p, w).Looked? ==> p.workers[w].pc.live && p.workers[w].pc.task.req in p.ctxs
    ensures Lowers(p, b, w)
  {
  }

  lemma LateTurnLowers(p: State, w: nat, b: Action)
    requires (PcAt(p, w).Zeroed? && b == Callback(w)) || (PcAt(p, w).Called? && b == DropCtx(w))
    ensures Lowers(p, b, w)
  {
  }

  lemma FreeLowers(p: State, w: nat)
    requires PcAt(p, w).Settled?
    ensures Lowers(p, FreeTask(w), w)
  {
    FreedKeeps(p, w);
    hide WithBatchOf;
  }

  lemma PoolWorkerLowers(p: State, w: nat)
    requires w < |p.workers| && !Destroying(p)
    requires !p.workers[w].pc.Asleep? && !p.workers[w].pc.Gone? && !p.workers[w].pc.Popped?
    requires p.workers[w].pc.Looked? ==> p.workers[w].pc.live && p.workers[w].pc.task.req in p.ctxs
    ensures Lowers(p, Shutdown.NextOf(p.workers[w].pc, w), w)
  {
    var pc, b := p.workers[w].pc, Shutdown.NextOf(p.workers[w].pc, w);
    hide Lowers;
    if pc.Check? {
      LoopLowers(p, w);
    } else if pc.Doze? || pc.Roused? {
      WaitingLowers(p, w, b);
    } else if pc.Ran? || pc.Looked? {
      TurnLowers(p, w, b);
    } else if pc.Settled? {
      FreeLowers(p, w);
    } else {
      LateTurnLowers(p, w, b);
    }
  }

  lemma LookedIsLive(p: State, w: nat)
    requires Inv(p) && w < |p.workers| && p.workers[w].pc.Looked?
    ensures p.workers[w].pc.live && p.workers[w].pc.task.req in p.ctxs
  {
    hide Inv, RequestOk;
    TurnFacts(p, w);
    UncountKeeps(p.workers[w].pc.task.req, ViewOf(p, p.workers[w].pc.task.req));
  }

  lemma NotDestroying(s: System)
    requires SystemOk(s)
    ensures !Destroying(s.pool) && |s.wrote| == |s.pool.workers|
  {
    hide Inv, Transfers;
  }

  /** A worker that is awake can take its next step, and gets closer to giving its mutex back. */
  lemma WorkerLowers(s: System, w: nat)
    requires SystemOk(s) && w < |s.pool.workers| && !s.pool.workers[w].pc.Asleep? && !s.pool.workers[w].pc.Gone?
    ensures var a := NextStep(s, w);
            && Can(s, a) && Do(s, a).poller == s.poller && Do(s, a).caller == s.caller
            && RankAt(Do(s, a), w) < RankAt(s, w)
  {
    hide SystemOk, Inv;
    SystemFacts(s);
    NotDestroying(s);
    if s.pool.workers[w].pc.Popped? {
      if s.pool.workers[w].pc.task.req in s.sends {
        PopStepLowers(s, w);
      } else {
        OtherRunLowers(s, w);
      }
    } else {
      if s.pool.workers[w].pc.Looked? {
        LookedIsLive(s.pool, w);
      }
      hide Apply, Enabled;
      PoolWorkerLowers(s.pool, w);
    }
  }

  lemma PopStepLowers(s: System, w: nat)
    requires PcAt(s.pool, w).Popped? && |s.wrote| == |s.pool.workers| && s.pool.workers[w].pc.task.req in s.sends
    ensures var a := NextStep(s, w);
            && Can(s, a) && Do(s, a).poller == s.poller && Do(s, a).caller == s.caller
            && RankAt(Do(s, a), w) < RankAt(s, w)
  {
    hide FreeWrapper;
  }

  lemma OtherRunLowers(s: System, w: nat)
    requires PcAt(s.pool, w).Popped? && |s.wrote| == |s.pool.workers| && s.pool.workers[w].pc.task.req !in s.sends
    ensures var a := NextStep(s, w);
            && Can(s, a) && Do(s, a).poller == s.poller && Do(s, a).caller == s.caller
            && RankAt(Do(s, a), w) < RankAt(s, w)
  {
    hide FreeWrapper;
  }

  // ----- a schedule that posts everything -----

  function PollerRank(p: Poller): nat {
    match p
    case Polling => 0
    case Holding(_, _, _) => 1
    case Got(_) => 2
  }

  /** The worker whose mutex the token of `r` waits for. */
  function Focus(s: System, r: Req): nat {
    if s.poller.Holding? && (TokenRank(s, r) == 4 || TokenRank(s, r) == 2) then s.poller.w
    else if r in s.pool.jobs then s.pool.jobs[r].worker
    else 0
  }

  /** A step that brings the next post of `r` closer. */
  function Next(s: System, r: Req): Step {
    if AtWrite(s, r) && s.poller.Polling? then Deliver(r)
    else if s.poller.Got? && (AtWrite(s, r) || AtPoller(s, r)) then Lookup
    else if s.poller.Holding? && (AtWrite(s, r) || AtWake(s, r)) && Unlocked(s.pool, s.poller.w) then Set
    else NextStep(s, Focus(s, r))
  }

  ghost predicate Closer(s: System, s': System, r: Req) {
    && r in s.sends && r in s'.sends
    && (|| TokenMeasure(s', r) < TokenMeasure(s, r)
        || (TokenMeasure(s', r) == TokenMeasure(s, r) && PollerRank(s'.poller) < PollerRank(s.poller))
        || (TokenMeasure(s', r) == TokenMeasure(s, r) && PollerRank(s'.poller) == PollerRank(s.poller)
            && RankAt(s', Focus(s', r)) < RankAt(s, Focus(s, r))))
  }

  lemma SameMeasureSamePlace(s: System, s': System, r: Req)
    requires r in s.sends && r in s'.sends && s'.sends[r].n == s.sends[r].n
    requires |s.sends[r].posted| <= |s'.sends[r].posted| && TokenMeasure(s', r) == TokenMeasure(s, r)
    ensures TokenRank(s', r) == TokenRank(s, r)
  {
  }

  lemma LowRankIsHome(s: System, r: Req)
    requires TokenCount(s, r) == 1 && TokenRank(s, r) <= 1 && Registered(s, r)
    ensures AtSlot(s, r) || AtWorker(s, r)
  {
    hide AtSlot, AtWorker;
  }

  lemma HomeIsAwake(s: System, r: Req)
    requires AtSlot(s, r) || AtWorker(s, r)
    requires r != 0 && r in s.pool.jobs && s.pool.jobs[r].worker < |s.pool.workers|
    requires WorkerOk(s.pool.workers[s.pool.jobs[r].worker])
    ensures !s.pool.workers[s.pool.jobs[r].worker].pc.Asleep?
  {
  }

  lemma HeldWorkerExists(s: System)
    requires PollerOk(s)
    ensures s.poller.Holding? ==> s.poller.w < |s.pool.workers|
  {
  }

  lemma AwakeUnless(s: System, r: Req)
    requires SystemOk(s) && Live(s, r)
    ensures Focus(s, r) < |s.pool.workers|
    ensures TokenRank(s, r) <= 1 ==>
              r in s.pool.jobs && Focus(s, r) == s.pool.jobs[r].worker && !s.pool.workers[Focus(s, r)].pc.Asleep?
  {
    hide SystemOk, SendOk, RequestOk, Fates, CallerOk, WritesOk, PollerOk, Live, TokenRank, TokenCount, WorkerOk;
    SystemRest(s);
    LiveFacts(s, r);
    LiveIsRegistered(s, r);
    SendFacts(s, r);
    WorkerFacts(s, s.pool.jobs[r].worker);
    HeldWorkerExists(s);
    if TokenRank(s, r) <= 1 {
      LowRankIsHome(s, r);
      HomeIsAwake(s, r);
    }
  }

  lemma WorkerFacts(s: System, w: nat)
    requires SystemOk(s) && w < |s.pool.workers|
    ensures WorkerOk(s.pool.workers[w])
  {
    SystemFacts(s);
    hide SystemOk, Homes, Exclusive, SubmitterOk, DestroyerOk, Requests;
  }

  lemma HomeStays(s: System, a: Step, r: Req)
    requires Can(s, a) && CallerOk(s) && Registered(s, r) && Returned(s, r) && r in s.pool.jobs && r != 0
    ensures r in Do(s, a).pool.jobs && Do(s, a).pool.jobs[r].worker == s.pool.jobs[r].worker
  {
    AttachIsForCaller(s, a);
    NoAttach(s, a);
    FollowsPool(s, a);
    if PoolAction(s, a).Some? {
      hide Do, Can, Apply, Enabled, CallerOk;
      SlotSource(s.pool, PoolAction(s, a).value, r, 0);
    }
  }

  /** Step `a` is possible, refuses no post of `r`, leaves it its token and brings its next post closer. */
  ghost predicate Approaches(s: System, a: Step, r: Req) {
    && Can(s, a) && r in Do(s, a).sends && !Do(s, a).sends[r].failed && !Do(s, a).sends[r].robbed
    && Closer(s, Do(s, a), r)
  }

  lemma MoveApproaches(s: System, a: Step, r: Req)
    requires Live(s, r) && Can(s, a) && MovesToken(s, a, r) && !(a.Write? && !a.ok) && !a.Set? && SystemOk(s)
    ensures Approaches(s, a, r)
  {
    hide SystemOk, Live, TokenMeasure, Do, Can, Returned, MovesToken;
    LiveIsRegistered(s, r);
    MeasureFalls(s, a, r);
  }

  lemma PollerApproaches(s: System, a: Step, r: Req)
    requires Live(s, r) && (a.Lookup? || a.Set?) && Can(s, a) && SystemOk(s) && !AtSlot(s, r)
    ensures Approaches(s, a, r)
  {
    hide SystemOk, Live, TokenMeasure, Do, Can, Returned, MovesToken, AtSlot, Robs, PollerRank;
    PollerMovesOn(s, a);
    LiveIsRegistered(s, r);
    MeasureFalls(s, a, r);
  }

  lemma NotInSlot(s: System, r: Req)
    requires TokenCount(s, r) == 1 && (AtWrite(s, r) || AtPoller(s, r) || AtWake(s, r))
    ensures !AtSlot(s, r)
  {
    hide AtSlot;
  }

  lemma PollerMovesOn(s: System, a: Step)
    requires (a.Lookup? || a.Set?) && Can(s, a)
    ensures PollerRank(Do(s, a).poller) < PollerRank(s.poller)
  {
    hide Apply, Enabled;
  }

  lemma WorkerApproaches(s: System, r: Req, w: nat)
    requires Live(s, r) && w == Focus(s, r) < |s.pool.workers|
    requires !s.pool.workers[w].pc.Asleep? && !s.pool.workers[w].pc.Gone? && SystemOk(s)
    ensures Approaches(s, NextStep(s, w), r)
  {
    var a := NextStep(s, w);
    hide SystemOk, Live, TokenMeasure, TokenRank, Returned, CallerOk, Do, Can, NextStep, RankAt, TokenCount;
    LiveFacts(s, r);
    LiveIsRegistered(s, r);
    StepOfWorker(s, w);
    WorkerLowers(s, w);
    MeasureFalls(s, a, r);
    HomeStays(s, a, r);
    LiveIsNotCalled(s, a, r);
    if TokenMeasure(Do(s, a), r) == TokenMeasure(s, r) {
      StepFollows(s, a, r);
      SameMeasureSamePlace(s, Do(s, a), r);
    }
  }

  lemma StepOfWorker(s: System, w: nat)
    ensures !NextStep(s, w).Call? && !NextStep(s, w).Forget? && !NextStep(s, w).Set?
            && (NextStep(s, w).Write? ==> NextStep(s, w).ok)
  {
  }

  lemma HeldCanBeSet(s: System)
    requires PollerOk(s) && s.poller.Holding? && Unlocked(s.pool, s.poller.w)
    ensures Can(s, Set)
  {
  }

  lemma DeliverCan(s: System, r: Req)
    requires AtWrite(s, r) && s.poller.Polling?
    ensures Can(s, Deliver(r)) && MovesToken(s, Deliver(r), r)
  {
  }

  lemma LookupCan(s: System)
    requires s.poller.Got? && !Closed(s.pool)
    ensures Can(s, Lookup)
  {
  }

  lemma DeliverApproaches(s: System, r: Req)
    requires Live(s, r) && SystemOk(s) && AtWrite(s, r) && s.poller.Polling?
    ensures Approaches(s, Deliver(r), r)
  {
    hide SystemOk, Live, Do, Can, Approaches, AtWrite, MovesToken;
    DeliverCan(s, r);
    MoveApproaches(s, Deliver(r), r);
  }

  lemma LookupApproaches(s: System, r: Req)
    requires Live(s, r) && SystemOk(s) && s.poller.Got? && (AtWrite(s, r) || AtPoller(s, r))
    ensures Approaches(s, Lookup, r)
  {
    hide SystemOk, Live, Do, Can, Approaches, AtWrite, AtPoller, AtSlot, TokenCount, Inv, CallerOk;
    SystemFacts(s);
    LookupCan(s);
    LiveFacts(s, r);
    NotInSlot(s, r);
    PollerApproaches(s, Lookup, r);
  }

  lemma SetApproaches(s: System, r: Req)
    requires Live(s, r) && SystemOk(s) && s.poller.Holding? && Unlocked(s.pool, s.poller.w)
    requires AtWrite(s, r) || AtWake(s, r)
    ensures Approaches(s, Set, r)
  {
    hide SystemOk, Live, Do, Can, Approaches, AtWrite, AtWake, AtSlot, TokenCount, CallerOk, WritesOk, PollerOk;
    SystemRest(s);
    HeldCanBeSet(s);
    LiveFacts(s, r);
    NotInSlot(s, r);
    PollerApproaches(s, Set, r);
  }

  /** The next step is possible and brings the next post closer. */
  lemma NextApproaches(s: System, r: Req)
    requires Live(s, r) && SystemOk(s)
    requires forall w :: 0 <= w < |s.pool.workers| ==> !s.pool.workers[w].pc.Gone?
    ensures Approaches(s, Next(s, r), r)
  {
    hide SystemOk, Live, Approaches, NextStep, AtWrite, AtPoller, AtWake, Focus, Unlocked;
    if AtWrite(s, r) && s.poller.Polling? {
      DeliverApproaches(s, r);
    } else if s.poller.Got? && (AtWrite(s, r) || AtPoller(s, r)) {
      LookupApproaches(s, r);
    } else if s.poller.Holding? && (AtWrite(s, r) || AtWake(s, r)) && Unlocked(s.pool, s.poller.w) {
      SetApproaches(s, r);
    } else {
      FocusIsAwake(s, r);
      WorkerApproaches(s, r, Focus(s, r));
    }
  }

  /** The worker the token waits for can move, or the poller can. */
  lemma FocusIsAwake(s: System, r: Req)
    requires Live(s, r) && SystemOk(s)
    requires !(AtWrite(s, r) && s.poller.Polling?) && !(s.poller.Got? && (AtWrite(s, r) || AtPoller(s, r)))
    requires !(s.poller.Holding? && (AtWrite(s, r) || AtWake(s, r)) && Unlocked(s.pool, s.poller.w))
    ensures Focus(s, r) < |s.pool.workers| && !s.pool.workers[Focus(s, r)].pc.Asleep?
  {
    hide SystemOk, Live, AtSlot, AtWorker, TokenCount;
    AwakeUnless(s, r);
  }

  lemma ExtendRun(run: seq<Step>, s: System, a: Step)
    requires Reached(run, s) && Can(s, a)
    ensures Reached(run + [a], Do(s, a))
  {
    hide Can, Do;
    assert (run + [a])[..|run + [a]| - 1] == run;
  }

  lemma NoWorkerExited(run: seq<Step>, s: System)
    requires Reached(run, s)
    ensures forall w :: 0 <= w < |s.pool.workers| ==> !s.pool.workers[w].pc.Gone?
  {
    hide SystemOk, History;
    ReachedOk(run, s);
    NotDestroying(s);
    RefinesPool(run, s);
    forall w | 0 <= w < |s.pool.workers| ensures !s.pool.workers[w].pc.Gone? {
      Shutdown.NoEarlyExit(PoolRun(run), s.pool, w);
    }
  }

  /** Steps of the poller and the workers only. */
  predicate Backstage(a: Step) {
    a.Deliver? || a.Lookup? || a.Set? || a.Write? || a.Mark? || a.Turn? || (a.Other? && a.a.RunTask?)
  }

  /**
   Steps of the poller and the workers after which all chunks of `r` are posted, in order; if
   there was something to post, the last completion has not been polled yet.
   */
  ghost predicate Finishes(s: System, more: seq<Step>, t: System, r: Req) {
    && Later(s, more) == Some(t) && (forall i :: 0 <= i < |more| ==> Backstage(more[i]))
    && r in s.sends && Registered(t, r) && Returned(t, r) && !t.sends[r].failed
    && t.sends[r].n == s.sends[r].n && t.sends[r].posted == seq(s.sends[r].n, i => i)
    && t.sends[r].waiter == s.sends[r].waiter
    && (|s.sends[r].posted| == s.sends[r].n ==> more == [])
    && (|s.sends[r].posted| < s.sends[r].n ==> t.sends[r].out == 1)
  }

  lemma NextIsBackstage(s: System, r: Req)
    ensures Backstage(Next(s, r))
  {
    hide AtWrite, AtPoller, AtWake, Focus, Unlocked, PcAt;
    WorkerIsBackstage(s, Focus(s, r));
    hide NextStep;
  }

  lemma WorkerIsBackstage(s: System, w: nat)
    ensures Backstage(NextStep(s, w))
  {
  }

  /**
   No reachable state is stuck: as long as no post of a send was refused and nobody took its
   token, some continuation by the poller and the workers alone posts all of its chunks.
   */
  lemma {:induction false} CanAlwaysFinish(run: seq<Step>, s: System, r: Req)
    requires Registered(s, r) && Returned(s, r) && !s.sends[r].failed && !s.sends[r].robbed && Reached(run, s)
    ensures exists more: seq<Step>, t: System :: Reached(run + more, t) && Finishes(s, more, t, r)
    decreases TokenMeasure(s, r), PollerRank(s.poller), RankAt(s, Focus(s, r))
  {
    hide SystemOk, Reached, Do, Can, Returned, Next, TokenMeasure, Focus, RankAt, PollerRank, Live, Backstage;
    PostsInOrder(run, s, r);
    ReachedOk(run, s);
    MeasureBound(s, r);
    if |s.sends[r].posted| == s.sends[r].n {
      assert run + [] == run;
      assert Finishes(s, [], s, r);
    } else {
      NoWorkerExited(run, s);
      NextApproaches(s, r);
      StillLive(s, Next(s, r), r);
      var a := Next(s, r);
      var s' := Do(s, a);
      ExtendRun(run, s, a);
      CanAlwaysFinish(run + [a], s', r);
      var more, t :| Reached((run + [a]) + more, t) && Finishes(s', more, t, r);
      assert (run + [a]) + more == run + ([a] + more);
      NextIsBackstage(s, r);
      NewPostFlies(run, s, a, r);
      BackstageKeepsWaiter(s, a, r);
      FinishesSooner(s, a, more, t, r);
    }
  }

  /** One step more in front. */
  lemma FinishesSooner(s: System, a: Step, more: seq<Step>, t: System, r: Req)
    requires Can(s, a) && Backstage(a) && Finishes(Do(s, a), more, t, r) && r in s.sends
    requires Do(s, a).sends[r].n == s.sends[r].n && |s.sends[r].posted| < s.sends[r].n
    requires |Do(s, a).sends[r].posted| == s.sends[r].n ==> Do(s, a).sends[r].out == 1
    requires |Do(s, a).sends[r].posted| <= s.sends[r].n && Do(s, a).sends[r].waiter == s.sends[r].waiter
    ensures Finishes(s, [a] + more, t, r)
  {
    hide Can, Do, Registered, Returned, Backstage;
    assert ([a] + more)[0] == a && ([a] + more)[1..] == more;
  }

  lemma BackstageKeepsWaiter(s: System, a: Step, r: Req)
    requires Can(s, a) && Backstage(a) && r in s.sends
    ensures r in Do(s, a).sends && Do(s, a).sends[r].waiter == s.sends[r].waiter
  {
    hide Apply, Enabled;
  }

  /** What a step does to the writes of a send: nothing, a completion polled, or a write more. */
  lemma WritesMove(s: System, a: Step, r: Req)
    requires Can(s, a) && r in s.sends && !Ends(a, r)
    ensures r in Do(s, a).sends
    ensures var t, t' := s.sends[r], Do(s, a).sends[r];
            || (t'.posted == t.posted && t'.out == t.out && a != Deliver(r))
            || (t'.posted == t.posted && t.out > 0 && t'.out == t.out - 1 && a == Deliver(r))
            || (|t'.posted| == |t.posted| + 1 && t'.posted[..|t.posted|] == t.posted && t'.out == t.out + 1
                && a != Deliver(r))
  {
    hide Apply, Enabled, Mine, Over, LetGo, Traceless, Silent, Submitting, Marked, Failed;
  }

  lemma NewPostFlies(run: seq<Step>, s: System, a: Step, r: Req)
    requires Reached(run, s) && Can(s, a) && Live(s, r)
    ensures r in s.sends && Registered(Do(s, a), r)
    ensures |Do(s, a).sends[r].posted| == s.sends[r].n ==> Do(s, a).sends[r].out == 1
    ensures |Do(s, a).sends[r].posted| <= s.sends[r].n && Do(s, a).sends[r].n == s.sends[r].n
  {
    hide SystemOk, Reached, Do, Can, Returned, CallerOk, TokenCount;
    ReachedOk(run, s);
    LiveFacts(s, r);
    LiveIsNotCalled(s, a, r);
    WritesMove(s, a, r);
    StepFollows(s, a, r);
    ExtendRun(run, s, a);
    PostsInOrder(run + [a], Do(s, a), r);
    ExactlyOneToken(run + [a], Do(s, a), r);
  }

  lemma MeasureBound(s: System, r: Req)
    requires Registered(s, r) && Returned(s, r) && !s.sends[r].failed && !s.sends[r].robbed
    ensures |s.sends[r].posted| <= s.sends[r].n ==> TokenMeasure(s, r) >= 0
    ensures |s.sends[r].posted| < s.sends[r].n ==> Live(s, r)
  {
  }

  lemma StillLive(s: System, a: Step, r: Req)
    requires Live(s, r) && Approaches(s, a, r) && SystemOk(s)
    ensures Can(s, a) && Registered(Do(s, a), r) && Returned(Do(s, a), r)
    ensures !Do(s, a).sends[r].failed && !Do(s, a).sends[r].robbed
    ensures r in s.sends && Do(s, a).sends[r].n == s.sends[r].n && Closer(s, Do(s, a), r)
  {
    LiveFacts(s, r);
    hide SystemOk, Do, Can, Closer, CallerOk, TokenCount, Returned, Live;
    LiveIsRegistered(s, r);
    LiveIsNotCalled(s, a, r);
    StepFollows(s, a, r);
  }
}
