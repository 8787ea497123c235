/** What the pool guarantees in every run, whatever the interleaving. */
module PoolTheorems {
  import opened Base
  import opened TaskQueue
  import opened BatchSubmit
  import opened Pool
  import opened PoolInvariant
  import opened PoolViews
  import opened PoolSteps

  ghost predicate Reaches(run: seq<Action>, s: State) {
    After(run) == Some(s)
  }

  lemma {:induction false} ReachableOk(run: seq<Action>, s: State)
    requires Reaches(run, s)
    ensures Inv(s)
  {
    if run == [] {
      InitOk();
    } else {
      hide Inv;
      var t := After(run[..|run| - 1]).value;
      ReachableOk(run[..|run| - 1], t);
      StepOk(t, run[|run| - 1]);
    }
  }

  // ----- conservation -----

  /** Tasks of `r` queued on any worker, or run but not yet subtracted from the count. */
  function Outstanding(ws: seq<Worker>, r: Req): nat {
    if ws == [] then 0
    else |Mine(ws[0].queue, r)| + (if Owed(StageOf(ws[0].pc, r)) then 1 else 0) + Outstanding(ws[1..], r)
  }

  /** Tasks attached whose submission has not charged the context yet. */
  function Uncounted(s: State, r: Req): nat {
    if (s.sub.Attached? || s.sub.Resolved?) && s.sub.req == r then s.sub.n else 0
  }

  function CountOf(s: State, r: Req): int {
    if r in s.ctxs then s.ctxs[r].count else 0
  }

  function Unsubtracted(s: State, r: Req): nat {
    if r in s.removed then s.removed[r] else 0
  }

  lemma {:induction false} OutstandingAtHome(ws: seq<Worker>, r: Req, home: nat)
    requires home < |ws|
    requires forall w :: 0 <= w < |ws| && w != home ==> Mine(ws[w].queue, r) == [] && !Owed(StageOf(ws[w].pc, r))
    ensures Outstanding(ws, r) == |Mine(ws[home].queue, r)| + (if Owed(StageOf(ws[home].pc, r)) then 1 else 0)
  {
    if home == 0 {
      OutstandingNone(ws[1..], r);
    } else {
      OutstandingAtHome(ws[1..], r, home - 1);
    }
  }

  lemma {:induction false} OutstandingNone(ws: seq<Worker>, r: Req)
    requires forall w :: 0 <= w < |ws| ==> Mine(ws[w].queue, r) == [] && !Owed(StageOf(ws[w].pc, r))
    ensures Outstanding(ws, r) == 0
  {
    if ws != [] {
      OutstandingNone(ws[1..], r);
    }
  }

  lemma NowhereElse(s: State, r: Req, w: nat)
    requires Inv(s) && w < |s.workers| && (r in s.jobs ==> s.jobs[r].worker != w)
    ensures Mine(s.workers[w].queue, r) == [] && !Owed(StageOf(s.workers[w].pc, r))
            && !Late(StageOf(s.workers[w].pc, r))
  {
    hide Workers, Exclusive, SubmitterOk, DestroyerOk, Requests, Archive;
    var q := s.workers[w].queue;
    assert forall i :: 0 <= i < |q| ==> q[i] in q && Owns(s, q[i].req, w);
    NoMatch(q, r);
  }

  lemma CountFacts(s: State, r: Req)
    requires Inv(s) && !Closed(s)
    ensures |s.workers| == WORKERS
    ensures r !in s.jobs ==> Uncounted(s, r) == 0 && r !in s.ctxs && r !in s.removed
    ensures r in s.jobs ==>
              && s.jobs[r].worker < |s.workers| && RequestOk(r, ViewOf(s, r))
              && Uncounted(s, r) == if s.jobs[r].counted then 0 else |s.jobs[r].tasks|
  {
    hide Exclusive, RequestOk, Archive;
  }

  ghost predicate Conserved(s: State, r: Req) {
    CountOf(s, r) + Uncounted(s, r) - Unsubtracted(s, r) == Outstanding(s.workers, r)
  }

  lemma InvConserves(s: State, r: Req)
    requires Inv(s) && !Closed(s)
    ensures Conserved(s, r) && CountOf(s, r) >= 0 && CountOf(s, r) >= Unsubtracted(s, r)
  {
    hide Inv, Outstanding;
    CountFacts(s, r);
    forall w | 0 <= w < |s.workers| && (r in s.jobs ==> s.jobs[r].worker != w)
      ensures Mine(s.workers[w].queue, r) == [] && !Owed(StageOf(s.workers[w].pc, r))
    {
      NowhereElse(s, r, w);
    }
    if r in s.jobs {
      OutstandingAtHome(s.workers, r, s.jobs[r].worker);
      QueuedStretch(r, ViewOf(s, r));
    } else {
      OutstandingNone(s.workers, r);
    }
  }

  /**
   The context count of every request, live or not: count plus tasks attached but not
   counted, minus tasks cancelled but not subtracted, is what is queued or owed anywhere.
   */
  lemma CountConserved(run: seq<Action>, s: State, r: Req)
    requires Reaches(run, s) && !Closed(s)
    ensures CountOf(s, r) + Uncounted(s, r) - Unsubtracted(s, r) == Outstanding(s.workers, r)
    ensures CountOf(s, r) >= 0 && CountOf(s, r) >= Unsubtracted(s, r)
  {
    hide Inv, Outstanding, Reaches, CountOf, Uncounted, Unsubtracted;
    ReachableOk(run, s);
    InvConserves(s, r);
  }

  /**
   No thread ever counts down, charges or unlinks a context that is gone. In particular a cancel
   that unlinked tasks still finds its context, and subtracting them always empties and unlinks
   it. Not covered: wake and cancel read the worker index of the context they found after they
   have let go of the table's mutex; the model reads it with the lookup.
   */
  lemma ContextsAreAlive(run: seq<Action>, s: State)
    requires Reaches(run, s)
    ensures !s.fault
    ensures forall r :: r in s.removed ==> r in s.ctxs && s.ctxs[r].count == s.removed[r]
    ensures forall w :: 0 <= w < |s.workers| && s.workers[w].pc.Looked? ==>
              s.workers[w].pc.live && s.workers[w].pc.task.req in s.ctxs
  {
    ReachableOk(run, s);
    forall r | r in s.removed ensures r in s.ctxs && s.ctxs[r].count == s.removed[r] {
      CancelCountFacts(s, r);
      CancelCountKeeps(r, ViewOf(s, r));
    }
    forall w | 0 <= w < |s.workers| && s.workers[w].pc.Looked?
      ensures s.workers[w].pc.live && s.workers[w].pc.task.req in s.ctxs
    {
      TurnFacts(s, w);
      UncountKeeps(s.workers[w].pc.task.req, ViewOf(s, s.workers[w].pc.task.req));
    }
  }

  /** Between operations a context exists exactly when its request has tasks. */
  lemma ContextIffTasks(run: seq<Action>, s: State, r: Req)
    requires Reaches(run, s) && !Closed(s)
    requires Uncounted(s, r) == 0 && r !in s.removed
    requires forall w :: 0 <= w < |s.workers| ==> !Late(StageOf(s.workers[w].pc, r))
    ensures r in s.ctxs <==> Outstanding(s.workers, r) > 0
  {
    CountConserved(run, s, r);
    ReachableOk(run, s);
    if r in s.ctxs {
      ContextFacts(s, r);
    }
  }

  // ----- one fate per task, in order -----

  ghost predicate DistinctIds(q: seq<Task>) {
    forall i, j :: 0 <= i < j < |q| ==> q[i].id < q[j].id
  }

  /** What is in a worker's hands: unlinked, its function not called yet. */
  function InHand(s: State, r: Req): seq<Task> {
    if r in s.jobs && s.jobs[r].worker < |s.workers| then Hand(StageOf(s.workers[s.jobs[r].worker].pc, r)) else []
  }

  function QueuedOf(s: State, r: Req): seq<Task> {
    if r in s.jobs && s.jobs[r].worker < |s.workers| then Mine(s.workers[s.jobs[r].worker].queue, r) else []
  }

  /**
   Every submitted task has exactly one fate, and the fates come in submission order:
   run, in hand, queued, dropped by destruction, cancelled. Task ids rise along the batch.
   */
  lemma OneFateEach(run: seq<Action>, s: State, r: Req)
    requires Reaches(run, s) && r in s.jobs
    ensures var j := s.jobs[r];
            && j.tasks == j.ran + InHand(s, r) + QueuedOf(s, r) + j.dropped + j.cancelled
            && DistinctIds(j.tasks)
            && (forall i :: 0 <= i < |j.tasks| ==> j.tasks[i].arg == i && j.tasks[i].req == r)
  {
    ReachableOk(run, s);
    RequestFacts(s, r);
  }

  lemma CancelLeavesNothing(s: State, r: Req)
    requires Inv(s) && r in s.jobs
    ensures s.jobs[r].cancelled != [] ==> InHand(s, r) == [] && QueuedOf(s, r) == []
  {
    RequestFacts(s, r);
  }

  /** Tasks of a request run in the order they were submitted, under any wakes and cancels. */
  lemma RunsInOrder(run: seq<Action>, s: State, r: Req)
    requires Reaches(run, s) && r in s.jobs
    ensures s.jobs[r].ran <= s.jobs[r].tasks
    ensures s.jobs[r].cancelled != [] ==> s.jobs[r].tasks == s.jobs[r].ran + s.jobs[r].dropped + s.jobs[r].cancelled
  {
    hide Inv, Reaches, RequestOk;
    OneFateEach(run, s, r);
    ReachableOk(run, s);
    CancelLeavesNothing(s, r);
    var j := s.jobs[r];
    assert j.tasks == j.ran + (InHand(s, r) + QueuedOf(s, r) + j.dropped + j.cancelled);
  }

  /** The worker is in the turn of this very task; its last act will be to free the task. */
  predicate TurnAbout(s: State, t: Task) {
    exists w :: 0 <= w < |s.workers| && InTurn(s.workers[w].pc) && s.workers[w].pc.task == t
  }

  /**
   No allocation of a task is ever freed twice. All three are freed exactly once when the
   task has run and its turn is over, when it was cancelled, and once the pool is destroyed.
   */
  lemma FreedExactlyOnce(run: seq<Action>, s: State, r: Req, i: nat)
    requires Reaches(run, s) && r in s.jobs && i < |s.jobs[r].tasks|
    ensures i < |s.jobs[r].freed|
    ensures var f := s.jobs[r].freed[i]; f.node <= 1 && f.wrapper <= 1 && f.task <= 1
    ensures s.destroyer.Destroyed? ==> s.jobs[r].freed[i] == Freed(1, 1, 1)
    ensures s.jobs[r].tasks[i] in s.jobs[r].cancelled ==> s.jobs[r].freed[i] == Freed(1, 1, 1)
    ensures i < |s.jobs[r].ran| && !TurnAbout(s, s.jobs[r].tasks[i]) ==> s.jobs[r].freed[i] == Freed(1, 1, 1)
  {
    hide Inv, Reaches, RequestOk;
    ReachableOk(run, s);
    RequestFacts(s, r);
    DestroyedFacts(s, r);
    LedgerBounds(r, ViewOf(s, r), i);
    if s.jobs[r].tasks[i] in s.jobs[r].cancelled {
      CancelledBehind(r, ViewOf(s, r), i);
    }
    if i < |s.jobs[r].ran| {
      RanLedger(r, ViewOf(s, r), i);
    }
  }

  lemma RanLedger(r: Req, v: View, i: nat)
    requires RequestOk(r, v) && i < |v.job.ran|
    ensures i < |v.job.tasks| == |v.job.freed|
    ensures !(InTurn(v.stage) && v.stage.task == v.job.tasks[i]) ==> v.job.freed[i] == Freed(1, 1, 1)
  {
    hide Counted, WakeBound, CallbackOnce, BatchTasks, Hand;
    var rest := Hand(v.stage) + v.queued + v.job.dropped + v.job.cancelled;
    assert v.job.tasks == v.job.ran + rest;
    assert v.job.freed[i] == Due(v, i);
  }

  /**
   An earlier use of an id: its tasks ran in order up to a point, the rest was cancelled, the
   callback fired exactly if it was due, and every allocation was freed once, the task of a
   turn still under way excepted.
   */
  lemma EarlierUses(run: seq<Action>, s: State, u: int, i: nat)
    requires Reaches(run, s) && u in s.past && i < |s.past[u].tasks|
    ensures var j := s.past[u];
            && j.tasks == j.ran + j.cancelled && |j.ran| <= j.accepted && DistinctIds(j.tasks)
            && j.fired == (if j.cb && |j.ran| == |j.tasks| then 1 else 0)
            && i < |j.freed|
            && (j.freed[i] == Freed(1, 1, 1) || (TurnAbout(s, j.tasks[i]) && j.freed[i] == Freed(1, 1, 0)))
  {
    hide Inv, Reaches, RequestOk;
    ReachableOk(run, s);
    InvParts(s);
    PastFacts(s, u);
    PastLedger(s.past[u].tasks[0].req, PastView(s, u), i);
  }

  lemma PastFacts(s: State, u: int)
    requires Archive(s) && u in s.past
    ensures s.past[u].worker < |s.workers| && s.past[u].tasks != []
    ensures RequestOk(s.past[u].tasks[0].req, PastView(s, u))
  {
    hide RequestOk;
    assert PastOk(s, u);
  }

  lemma PastLedger(r: Req, v: View, i: nat)
    requires RequestOk(r, v) && i < |v.job.tasks| && v.ctx.None? && v.owedToCancel == 0 && v.queued == []
    requires !v.slot && v.flights == 0 && v.cancelling == 0 && !v.closed && !v.destroyed && v.job.counted
    ensures v.job.tasks == v.job.ran + v.job.cancelled && |v.job.ran| <= v.job.accepted && DistinctIds(v.job.tasks)
    ensures v.job.fired == if v.job.cb && |v.job.ran| == |v.job.tasks| then 1 else 0
    ensures i < |v.job.freed|
    ensures v.job.freed[i] == Freed(1, 1, 1)
            || (InTurn(v.stage) && v.stage.task == v.job.tasks[i] && v.job.freed[i] == Freed(1, 1, 0))
  {
    QueuedStretch(r, v);
    assert Hand(v.stage) == [] && v.job.dropped == [];
    assert v.job.ran + [] + [] + [] + v.job.cancelled == v.job.ran + v.job.cancelled;
    if v.job.ran != [] {
      assert v.job.tasks[|v.job.ran| - 1] == v.job.ran[|v.job.ran| - 1];
    }
  }

  /**
   The whole nodes a failed build had made are freed once each. What the failing allocation
   itself leaves half made is the matter of `BatchSubmit.BuildBatchNodes`.
   */
  lemma {:induction false} ScrappedFreedOnce(run: seq<Action>, s: State, k: nat, i: nat)
    requires Reaches(run, s) && k < |s.scrapped| && i < |s.scrapped[k].tasks|
    ensures i < |s.scrapped[k].freed| && s.scrapped[k].freed[i] == Freed(1, 1, 1)
  {
    if run != [] {
      var front, a := run[..|run| - 1], run[|run| - 1];
      var t := After(front).value;
      ScrapGrows(t, a);
      if k < |t.scrapped| {
        hide Enabled, Apply;
        ScrappedFreedOnce(front, t, k, i);
      } else {
        ReachableOk(front, t);
        BuildFacts(t);
        hide Inv, Enabled, Apply;
        MadeInOrder(t);
        FreeAllStretch(Unfreed(|t.sub.made|), t.sub.made, 0);
      }
    }
  }

  lemma MadeInOrder(s: State)
    requires SubmitterOk(s) && s.sub.Build?
    ensures forall i :: 0 <= i < |s.sub.made| ==> s.sub.made[i].arg == i
  {
    hide Unused, AllCounted;
  }

  lemma ScrapGrows(s: State, a: Action)
    requires Enabled(s, a)
    ensures Apply(s, a).scrapped ==
            if a.BuildFail? then s.scrapped + [Scrap(s.sub.made, FreeAll(Unfreed(|s.sub.made|), s.sub.made))]
            else s.scrapped
    ensures a.BuildFail? ==> s.sub.Build?
  {
    if !a.BuildFail? {
      if a.LoopTop? || a.RunTask? || a.FindCtx? {
        TurnScrapsNothing(s, a);
      } else if a.Uncount? || a.Callback? || a.DropCtx? || a.FreeTask? {
        LateTurnScrapsNothing(s, a);
      } else if a.WakeFind? || a.CancelFind? || a.CancelQueue? || a.CancelCount? || a.DropQueue? {
        LookupScrapsNothing(s, a);
      } else {
        hide Takes, Weigh, LoadOf, Clear, Deaf, Retired, MutexFree;
      }
    }
  }

  lemma TurnScrapsNothing(s: State, a: Action)
    requires Enabled(s, a) && (a.LoopTop? || a.RunTask? || a.FindCtx?)
    ensures Apply(s, a).scrapped == s.scrapped
  {
    hide DropFirst, FirstOf, FreeNode, FreeWrapper;
  }

  lemma LateTurnScrapsNothing(s: State, a: Action)
    requires Enabled(s, a) && (a.Uncount? || a.Callback? || a.DropCtx? || a.FreeTask?)
    ensures Apply(s, a).scrapped == s.scrapped
  {
    hide FreeTaskCell, BatchOf, FirstId;
  }

  lemma LookupScrapsNothing(s: State, a: Action)
    requires Enabled(s, a)
    requires a.WakeFind? || a.CancelFind? || a.CancelQueue? || a.CancelCount? || a.DropQueue?
    ensures Apply(s, a).scrapped == s.scrapped
  {
    hide Mine, Others, FreeAll;
  }

  lemma DestroyedFacts(s: State, r: Req)
    requires Inv(s) && r in s.jobs
    ensures s.jobs[r].worker < |s.workers|
    ensures s.destroyer.Destroyed? ==> ViewOf(s, r).stage.Check? && ViewOf(s, r).queued == []
  {
    hide Workers, Homes, Exclusive, SubmitterOk, RequestOk, Archive;
  }

  lemma LedgerBounds(r: Req, v: View, i: nat)
    requires RequestOk(r, v) && i < |v.job.tasks|
    ensures i < |v.job.freed|
    ensures v.job.freed[i].node <= 1 && v.job.freed[i].wrapper <= 1 && v.job.freed[i].task <= 1
    ensures v.stage.Check? && v.queued == [] ==> v.job.freed[i] == Freed(1, 1, 1)
  {
  }

  lemma CancelledBehind(r: Req, v: View, i: nat)
    requires RequestOk(r, v) && i < |v.job.tasks| && v.job.tasks[i] in v.job.cancelled
    ensures v.job.freed[i] == Freed(1, 1, 1)
  {
    QueuedStretch(r, v);
    var a := v.job.ran + Hand(v.stage) + v.queued + v.job.dropped;
    var k :| 0 <= k < |v.job.cancelled| && v.job.cancelled[k] == v.job.tasks[i];
    assert v.job.tasks == a + v.job.cancelled;
    assert v.job.cancelled[k] == v.job.tasks[|a| + k];
    assert i == |a| + k;
  }

  // ----- wakes -----

  /** The worker that has the tasks of `r` would read a wake for `r` out of its slot. */
  predicate InSlot(s: State, r: Req) {
    && r != 0 && r in s.jobs && s.jobs[r].worker < |s.workers|
    && s.workers[s.jobs[r].worker].pending == r && !s.workers[s.jobs[r].worker].pc.Gone?
  }

  /** No task runs without a wake of its own use of the id, and request 0 never runs. */
  lemma NoRunWithoutWake(run: seq<Action>, s: State, r: Req)
    requires Reaches(run, s) && r in s.jobs
    ensures |s.jobs[r].ran| + (if InSlot(s, r) then 1 else 0) <= s.jobs[r].accepted
    ensures r == 0 ==> s.jobs[r].ran == []
  {
    hide Inv, Reaches, RequestOk;
    ReachableOk(run, s);
    RequestFacts(s, r);
    WakesOfView(r, ViewOf(s, r));
  }

  lemma WakesOfView(r: Req, v: View)
    requires RequestOk(r, v)
    ensures |v.job.ran| + (if v.slot && !v.deaf then 1 else 0) <= v.job.accepted
    ensures r == 0 ==> v.job.ran == []
  {
  }

  /** A filled slot is never slept on. */
  lemma NoLostSignal(run: seq<Action>, s: State, w: nat)
    requires Reaches(run, s) && w < |s.workers| && s.workers[w].pending != 0
    ensures !s.workers[w].pc.Asleep? && !s.workers[w].pc.Doze?
  {
    ReachableOk(run, s);
    assert WorkerOk(s.workers[w]);
  }

  // ----- exclusivity -----

  /** Whoever gets hold of a worker's mutex finds it idle or exited, never busy. */
  lemma FreeMutexMeansNotBusy(run: seq<Action>, s: State, w: nat)
    requires Reaches(run, s) && w < |s.workers| && MutexFree(s.workers[w].pc)
    ensures s.workers[w].state == if s.workers[w].pc.Gone? then Exit else Idle
  {
    ReachableOk(run, s);
    assert WorkerOk(s.workers[w]);
  }

  /** A task of worker `w` that is queued, or in its turn and not just being freed. */
  predicate OnWorker(s: State, w: nat, t: Task) {
    w < |s.workers| && (t in s.workers[w].queue
                        || (InTurn(s.workers[w].pc) && !s.workers[w].pc.Settled? && t == s.workers[w].pc.task))
  }

  /** Requests with queued or running tasks sit on pairwise different workers. */
  lemma OneRequestPerWorker(run: seq<Action>, s: State, w: nat, t: Task, w': nat, t': Task)
    requires Reaches(run, s) && OnWorker(s, w, t) && OnWorker(s, w', t')
    ensures w == w' <==> t.req == t'.req
  {
    hide Inv, Reaches, OnWorker, OneRequest;
    ReachableOk(run, s);
    InvParts(s);
    OnWorkerOwns(s, w, t);
    OnWorkerOwns(s, w', t');
    if w == w' {
      OneRequestThere(s, w, t, t');
    }
  }

  lemma OnWorkerOwns(s: State, w: nat, t: Task)
    requires Homes(s) && OnWorker(s, w, t)
    ensures Owns(s, t.req, w)
  {
  }

  lemma OneRequestThere(s: State, w: nat, t: Task, t': Task)
    requires Exclusive(s) && OnWorker(s, w, t) && OnWorker(s, w, t')
    ensures t.req == t'.req
  {
    assert OneRequest(s.workers[w]);
  }

  /** The selection takes a worker at once if its queue is empty, and otherwise only moves on. */
  lemma SelectionIsFirstEmpty(run: seq<Action>, s: State)
    requires Reaches(run, s) && Enabled(s, ScanNext)
    ensures var c, s' := s.sub, ApplyScan(s);
            && Apply(s, ScanNext) == s' && c.best == NO_WORKER && |s.workers| == WORKERS
            && (c.at >= |s.workers| ==> s'.sub.NoSubmit?)
            && (c.at < |s.workers| && s.workers[c.at].queue == [] && !s.workers[c.at].pc.Gone? ==>
                  s'.sub == Build(c.req, c.n, c.cb, c.at, []))
            && (c.at < |s.workers| && (s.workers[c.at].queue != [] || s.workers[c.at].pc.Gone?) ==>
                  s'.sub == c.(at := c.at + 1))
  {
    hide Inv, Reaches;
    ReachableOk(run, s);
    ScanFacts(s);
    if s.sub.at < |s.workers| {
      assert WorkerOk(s.workers[s.sub.at]);
    }
  }

  // ----- the batch callback -----

  /** It fires at most once, exactly when every task has run, and never if any was cancelled or dropped. */
  lemma BatchCallbackOnce(run: seq<Action>, s: State, r: Req)
    requires Reaches(run, s) && r in s.jobs
    ensures s.jobs[r].fired <= 1
    ensures s.jobs[r].fired == 1 ==> s.jobs[r].cb && s.jobs[r].ran == s.jobs[r].tasks
    ensures s.jobs[r].fired == 1 ==> s.jobs[r].cancelled == [] && s.jobs[r].dropped == []
    ensures s.jobs[r].cb && s.jobs[r].ran == s.jobs[r].tasks && r !in s.ctxs ==> s.jobs[r].fired == 1
  {
    hide Inv, Reaches, RequestOk;
    ReachableOk(run, s);
    RequestFacts(s, r);
    DestroyedFacts(s, r);
    CallbackOfView(r, ViewOf(s, r));
  }

  lemma CallbackOfView(r: Req, v: View)
    requires RequestOk(r, v) && (v.destroyed ==> v.stage.Check?)
    ensures v.job.fired <= 1
    ensures v.job.fired == 1 ==> v.job.cb && v.job.ran == v.job.tasks && v.job.cancelled == [] && v.job.dropped == []
    ensures v.job.cb && v.job.ran == v.job.tasks && v.ctx.None? ==> v.job.fired == 1
  {
    hide Ledger, WakeBound;
    QueuedStretch(r, v);
    if |v.job.ran| == |v.job.tasks| {
      assert v.job.tasks == v.job.ran + (Hand(v.stage) + v.queued + v.job.dropped + v.job.cancelled);
    }
  }
}
