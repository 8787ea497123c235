/**
 When a request id may be used again. What matters is the moment its new batch is attached
 to a worker: if a cancel of the earlier use is about to clean that worker's queue, or a
 wake of the earlier use is about to reach it or sits in its slot, the count of the new
 batch can go wrong; in every other case it cannot.
 */
module IdReuse {
  import opened Base
  import opened TaskQueue
  import opened Pool
  import opened PoolInvariant
  import opened PoolSteps
  import opened PoolTheorems
  import opened Shutdown
  import opened SmallRuns

  // ----- the exact condition -----

  /** No thread has touched a freed context, and every count is what it must be. */
  ghost predicate CountsRight(s: State) {
    !s.fault && (!Closed(s) ==> forall r: Req :: Conserved(s, r))
  }

  /** Attaching the batch in hand leaves all counts right, whatever happens afterwards. */
  ghost predicate AttachIsSafe(s: State)
    requires Attachable(s)
  {
    forall acts, t :: Then(ApplyAttach(s), acts) == Some(t) ==> CountsRight(t)
  }

  lemma {:induction false} ThenKeepsInv(s: State, acts: seq<Action>, t: State)
    requires Inv(s) && Then(s, acts) == Some(t)
    ensures Inv(t)
    decreases |acts|
  {
    if acts != [] {
      hide Inv, Enabled, Apply;
      StepOk(s, acts[0]);
      ThenKeepsInv(Apply(s, acts[0]), acts[1..], t);
    }
  }

  lemma ClearIsSafe(s: State)
    requires Inv(s) && Enabled(s, Attach)
    ensures AttachIsSafe(s)
  {
    assert Attachable(s);
    hide Inv, Enabled, ApplyAttach, Closed, Conserved, Attachable;
    AttachOk(s);
    forall acts, t | Then(ApplyAttach(s), acts) == Some(t) ensures CountsRight(t) {
      ThenKeepsInv(ApplyAttach(s), acts, t);
      NoFault(t);
      if !Closed(t) {
        forall r: Req ensures Conserved(t, r) {
          InvConserves(t, r);
        }
      }
    }
  }

  /** What a state just after an attachment looks like to the request. */
  ghost predicate JustAttached(p: State, r: Req, w: nat) {
    && !Closed(p) && w < |p.workers| && p.sub.Attached? && p.sub.req == r && p.sub.n > 0
    && r !in p.ctxs && r !in p.removed && |Mine(p.workers[w].queue, r)| == p.sub.n
    && forall i :: 0 <= i < |p.workers| && i != w ==>
         Mine(p.workers[i].queue, r) == [] && !Owed(StageOf(p.workers[i].pc, r))
  }

  lemma AttachEffect(s: State)
    requires Attachable(s) && s.workers[s.sub.worker].queue == []
    ensures var p, w := ApplyAttach(s), s.sub.worker;
            && p == s.(workers := s.workers[w := s.workers[w].(queue := s.sub.made)], jobs := p.jobs, past := p.past,
                       sub := Attached(s.sub.req, s.sub.n, s.sub.cb, w))
  {
    assert [] + s.sub.made == s.sub.made;
    hide Retired;
  }

  lemma AttachedNow(s: State)
    requires Inv(s) && Attachable(s)
    ensures var p, r, w := ApplyAttach(s), s.sub.req, s.sub.worker;
            && JustAttached(p, r, w) && p.workers[w] == s.workers[w].(queue := s.sub.made)
            && p.wakes == s.wakes && p.cancels == s.cancels && WorkerOk(s.workers[w])
  {
    hide Inv, Mine, ApplyAttach, WorkerOk, Unused, Closed, Owed, StageOf;
    AttachOpen(s);
    BuiltBatch(s);
    AttachEffect(s);
    var p, r, w := ApplyAttach(s), s.sub.req, s.sub.worker;
    MineOfUniform(s.sub.made, r, r);
    forall i | 0 <= i < |p.workers| && i != w
      ensures Mine(p.workers[i].queue, r) == [] && !Owed(StageOf(p.workers[i].pc, r))
    {
      UnusedThere(s, r, i);
    }
    StillOpen(s, p);
  }

  lemma StillOpen(s: State, p: State)
    requires p.destroyer == s.destroyer && !Closed(s)
    ensures !Closed(p)
  {
  }

  lemma BuiltBatch(s: State)
    requires Inv(s) && Attachable(s)
    ensures (forall t :: t in s.sub.made ==> t.req == s.sub.req) && s.sub.n > 0 && Unused(s, s.sub.req)
    ensures s.workers[s.sub.worker].queue == [] && s.sub.req !in s.ctxs && s.sub.req !in s.removed
  {
    BuildFacts(s);
    hide Inv, AllCounted;
  }

  lemma UnusedThere(s: State, r: Req, i: nat)
    requires Unused(s, r) && i < |s.workers|
    ensures Mine(s.workers[i].queue, r) == [] && !Owed(StageOf(s.workers[i].pc, r))
  {
    assert UnusedAt(s.workers[i], r);
    NothingOf(s.workers[i].queue, r);
  }

  lemma NothingOf(q: seq<Task>, r: Req)
    requires forall t :: t in q ==> t.req != r
    ensures Mine(q, r) == []
  {
    assert forall i :: 0 <= i < |q| ==> q[i] in q;
    NoMatch(q, r);
  }

  lemma AttachOpen(s: State)
    requires Inv(s) && s.sub.Build?
    ensures !Closed(s) && |s.workers| == WORKERS && s.sub.worker < WORKERS && WorkerOk(s.workers[s.sub.worker])
  {
    hide Homes, Exclusive, Requests, Archive;
  }

  /** A cancel of the earlier use takes the new tasks out and then finds no context. */
  lemma StaleCancelFaults(p: State, r: Req, w: nat) returns (acts: seq<Action>, t: State)
    requires JustAttached(p, r, w) && (r, w) in p.cancels && Unlocked(p, w)
    ensures Then(p, acts) == Some(t) && t.fault
  {
    var p1 := Apply(p, CancelQueue(r, w));
    StaleCancelTakes(p, r, w);
    hide Enabled, ApplyCancelQueue, JustAttached;
    assert Then(p, []) == Some(p);
    ThenOne(p, [], p, CancelQueue(r, w));
    acts, t := [] + [CancelQueue(r, w)] + [CancelCount(r)], Apply(p1, CancelCount(r));
    ThenOne(p, [] + [CancelQueue(r, w)], p1, CancelCount(r));
  }

  lemma StaleCancelTakes(p: State, r: Req, w: nat)
    requires JustAttached(p, r, w) && (r, w) in p.cancels && Unlocked(p, w)
    ensures Enabled(p, CancelQueue(r, w))
    ensures var p1 := ApplyCancelQueue(p, r, w); Enabled(p1, CancelCount(r)) && r !in p1.ctxs
  {
    hide Mine, Others, FreeAll;
  }

  /** Only worker `w` and the histories have moved. */
  ghost predicate WorkerOnly(p: State, p': State, w: nat, x: Worker) {
    w < |p.workers| && p' == p.(workers := p.workers[w := x], jobs := p'.jobs)
  }

  /** The worker takes a task of the new batch before the batch is counted, and finds no context. */
  lemma StaleSlotRuns(p: State, r: Req, w: nat) returns (acts: seq<Action>, t: State)
    requires JustAttached(p, r, w) && r != 0 && p.workers[w].pc.Roused? && p.workers[w].pending == r
    ensures Then(p, acts) == Some(t) && !Closed(t) && !Conserved(t, r)
  {
    var x := p.workers[w];
    var p1 := SetPc(p, w, Check);
    assert Then(p, []) == Some(p);
    ThenOne(p, [], p, Relock(w));
    var task, p2 := StaleSlotTakes(p1, r, w);
    ThenOne(p, [] + [Relock(w)], p1, LoopTop(w));
    var p3 := StaleTaskRuns(p2, task, w);
    ThenOne(p, [] + [Relock(w)] + [LoopTop(w)], p2, RunTask(w));
    var p4, p5 := SetPc(p3, w, Looked(task, false)), SetPc(p3, w, Settled(task));
    StaleTaskUncounted(p3, task, w);
    ThenOne(p, [] + [Relock(w)] + [LoopTop(w)] + [RunTask(w)], p3, FindCtx(w));
    ThenOne(p, [] + [Relock(w)] + [LoopTop(w)] + [RunTask(w)] + [FindCtx(w)], p4, Uncount(w));
    acts := [] + [Relock(w)] + [LoopTop(w)] + [RunTask(w)] + [FindCtx(w)] + [Uncount(w)];
    t := p5;
    OutstandingAtHome(t.workers, r, w);
  }

  lemma StaleSlotTakes(p: State, r: Req, w: nat) returns (task: Task, p': State)
    requires PcAt(p, w).Check? && p.workers[w].pending == r != 0 && Mine(p.workers[w].queue, r) != []
    ensures Enabled(p, LoopTop(w)) && p' == Apply(p, LoopTop(w)) && task.req == r
    ensures WorkerOnly(p, p', w, p'.workers[w]) && p'.workers[w].pc == Popped(task)
    ensures |Mine(p'.workers[w].queue, r)| == |Mine(p.workers[w].queue, r)| - 1
  {
    hide Mine, DropFirst, FirstOf, FreeNode;
    PopQueue(p.workers[w].queue, r);
    task, p' := Mine(p.workers[w].queue, r)[0], Apply(p, LoopTop(w));
  }

  lemma StaleTaskRuns(p: State, task: Task, w: nat) returns (p': State)
    requires PcAt(p, w) == Popped(task)
    ensures Enabled(p, RunTask(w)) && p' == Apply(p, RunTask(w))
    ensures WorkerOnly(p, p', w, p.workers[w].(pc := Ran(task)))
  {
    hide FreeWrapper;
    p' := Apply(p, RunTask(w));
  }

  lemma StaleTaskUncounted(p: State, task: Task, w: nat)
    requires PcAt(p, w) == Ran(task) && task.req !in p.ctxs
    ensures Enabled(p, FindCtx(w)) && Apply(p, FindCtx(w)) == SetPc(p, w, Looked(task, false))
    ensures var q := SetPc(p, w, Looked(task, false));
            Enabled(q, Uncount(w)) && Apply(q, Uncount(w)) == SetPc(p, w, Settled(task))
  {
  }

  /** A wake of the earlier use, still on its way, fills the slot. */
  lemma StaleWakeArrives(p: State, r: Req, w: nat)
    requires JustAttached(p, r, w) && (r, w) in p.wakes && Unlocked(p, w) && !p.workers[w].pc.Gone?
    ensures Enabled(p, WakeSet(r, w))
    ensures var p' := Apply(p, WakeSet(r, w));
            JustAttached(p', r, w) && p'.workers[w].pc.Roused? && p'.workers[w].pending == r
  {
    hide Mine;
  }

  /** A worker with a free mutex and a filled slot is on its way back from the wait. */
  lemma SlotIsRoused(x: Worker)
    requires WorkerOk(x) && x.pending != 0 && MutexFree(x.pc) && !x.pc.Gone?
    ensures x.pc.Roused?
  {
  }

  /** One of three leftovers, each of which ruins the counts. */
  lemma LeftoverRuins(p: State, r: Req, w: nat) returns (acts: seq<Action>, t: State)
    requires JustAttached(p, r, w) && Unlocked(p, w) && WorkerOk(p.workers[w])
    requires (r, w) in p.cancels
             || (r != 0 && !p.workers[w].pc.Gone? && ((r, w) in p.wakes || p.workers[w].pending == r))
    ensures Then(p, acts) == Some(t) && !CountsRight(t)
  {
    hide JustAttached, Conserved, Closed, Apply, Enabled;
    if (r, w) in p.cancels {
      acts, t := StaleCancelFaults(p, r, w);
    } else if p.workers[w].pending == r {
      SlotIsRoused(p.workers[w]);
      acts, t := StaleSlotRuns(p, r, w);
    } else {
      StaleWakeArrives(p, r, w);
      var a := WakeSet(r, w);
      var rest, end := StaleSlotRuns(Apply(p, a), r, w);
      assert ([a] + rest)[0] == a && ([a] + rest)[1..] == rest;
      acts, t := [a] + rest, end;
    }
  }

  lemma UnclearIsUnsafe(s: State)
    requires Inv(s) && Attachable(s) && !Clear(s, s.sub.req, s.sub.worker)
    ensures !AttachIsSafe(s)
  {
    var p, r, w := ApplyAttach(s), s.sub.req, s.sub.worker;
    AttachedNow(s);
    hide Inv, ApplyAttach, CountsRight, JustAttached;
    StillUnlocked(s, p, w);
    var acts, t := LeftoverRuins(p, r, w);
  }

  lemma StillUnlocked(s: State, p: State, w: nat)
    requires Unlocked(s, w) && w < |p.workers| && p.workers[w] == s.workers[w].(queue := p.workers[w].queue)
             && WorkerOk(s.workers[w])
    ensures Unlocked(p, w) && WorkerOk(p.workers[w])
  {
  }

  /**
   In every reachable state with a finished batch of any request in hand: attaching it keeps
   all counts right through every continuation exactly if no cancel of an earlier use of the
   id is about to clean the queue of this worker, and, unless no wake can have an effect
   there, no wake of an earlier use is on its way to it or sits in its slot.
   */
  lemma AttachSafeIffClear(run: seq<Action>, s: State)
    requires Reaches(run, s) && Attachable(s)
    ensures AttachIsSafe(s) <==> Clear(s, s.sub.req, s.sub.worker)
  {
    hide Inv, Reaches, AttachIsSafe, Clear;
    ReachableOk(run, s);
    if Clear(s, s.sub.req, s.sub.worker) {
      ClearIsSafe(s);
    } else {
      UnclearIsUnsafe(s);
    }
  }

  // ----- the condition can fail -----

  const R: Req := 5

  lemma WakeLooksUp(x: Worker, j: Job)
    ensures var c, j' := map[R := Ctx(0, 1, false)], j.(accepted := j.accepted + 1);
            var s := With(x, c, multiset{}, multiset{}, map[], NoSubmit, 2, map[R := j]);
            && Enabled(s, WakeFind(R))
            && Apply(s, WakeFind(R)) == With(x, c, multiset{(R, 0)}, multiset{}, map[], NoSubmit, 2, map[R := j'])
  {
    hide Crew;
    var j' := j.(accepted := j.accepted + 1);
    assert map[R := j][R := j'] == map[R := j'];
  }

  /** A wake and a cancel both look the context up. */
  lemma LookedUp(x: Worker, j: Job) returns (acts: seq<Action>)
    ensures Then(With(x, map[R := Ctx(0, 1, false)], multiset{}, multiset{}, map[], NoSubmit, 2, map[R := j]), acts)
            == Some(With(x, map[R := Ctx(0, 1, false)], multiset{(R, 0)}, multiset{(R, 0)}, map[], NoSubmit, 2,
                         map[R := j.(accepted := j.accepted + 1)]))
  {
    hide *;
    var s0 := With(x, map[R := Ctx(0, 1, false)], multiset{}, multiset{}, map[], NoSubmit, 2, map[R := j]);
    WakeLooksUp(x, j);
    CancelLooksUp(x, Ctx(0, 1, false), multiset{(R, 0)}, map[R := j.(accepted := j.accepted + 1)], R);
    Single(s0, WakeFind(R));
    ThenOne(s0, [WakeFind(R)], Apply(s0, WakeFind(R)), CancelFind(R));
    acts := [WakeFind(R)] + [CancelFind(R)];
  }

  lemma CountCancelled(x: Worker, jobs: map<Req, Job>)
    ensures var s := With(x, map[R := Ctx(0, 1, false)], multiset{(R, 0)}, multiset{}, map[R := 1], NoSubmit, 2, jobs);
            && Enabled(s, CancelCount(R))
            && Apply(s, CancelCount(R)) == With(x, map[], multiset{(R, 0)}, multiset{}, map[], NoSubmit, 2, jobs)
  {
    hide Crew;
  }

  lemma Cancelled(t: Task, j: Job) returns (acts: seq<Action>, jobs: map<Req, Job>)
    requires t.req == R
    ensures Then(With(Sleeper([t]), map[R := Ctx(0, 1, false)], multiset{(R, 0)}, multiset{(R, 0)}, map[], NoSubmit,
                      2, map[R := j]), acts)
            == Some(With(Sleeper([]), map[], multiset{(R, 0)}, multiset{}, map[], NoSubmit, 2, jobs))
  {
    hide *;
    var c := map[R := Ctx(0, 1, false)];
    var s0 := With(Sleeper([t]), c, multiset{(R, 0)}, multiset{(R, 0)}, map[], NoSubmit, 2, map[R := j]);
    jobs := map[R := j.(cancelled := [t] + j.cancelled, freed := FreeAll(j.freed, [t]))];
    QueueCancelled(R, t, c, multiset{(R, 0)}, j);
    CountCancelled(Sleeper([]), jobs);
    Single(s0, CancelQueue(R, 0));
    ThenOne(s0, [CancelQueue(R, 0)], Apply(s0, CancelQueue(R, 0)), CancelCount(R));
    acts := [CancelQueue(R, 0)] + [CancelCount(R)];
  }

  /**
   A state in which the condition fails is reachable with one wake: it found the context of
   the first use and is held up while a cancel empties that use and the id is submitted again.
   */
  lemma UnclearIsReachable()
    ensures exists run, s :: Reaches(run, s) && Attachable(s) && !Clear(s, s.sub.req, s.sub.worker)
  {
    hide Then, Enabled, Apply, NewJob, Clear;
    var t := Task(1, R, 0);
    var j := NewJob(t).(counted := true);
    var a1 := FirstSleeps();
    var a2 := BatchBuilt(R, map[], multiset{}, map[], 1, map[]);
    var a3 := AttachedAndCounted(R, map[], map[], 1, map[]);
    var a4 := LookedUp(Sleeper([t]), j);
    var a5, jobs := Cancelled(t, j.(accepted := j.accepted + 1));
    var a6 := BatchBuilt(R, map[], multiset{(R, 0)}, map[], 2, jobs);
    assert map[][R := Ctx(0, 1, false)] == map[R := Ctx(0, 1, false)] && map[][R := j] == map[R := j];
    var s1 := With(Sleeper([]), map[], multiset{}, multiset{}, map[], NoSubmit, 1, map[]);
    var s2 := With(Sleeper([]), map[], multiset{}, multiset{}, map[], Build(R, 1, false, 0, [t]), 2, map[]);
    var s3 := With(Sleeper([t]), map[R := Ctx(0, 1, false)], multiset{}, multiset{}, map[], NoSubmit, 2, map[R := j]);
    var s4 := With(Sleeper([t]), map[R := Ctx(0, 1, false)], multiset{(R, 0)}, multiset{(R, 0)}, map[], NoSubmit, 2,
                   map[R := j.(accepted := j.accepted + 1)]);
    var s5 := With(Sleeper([]), map[], multiset{(R, 0)}, multiset{}, map[], NoSubmit, 2, jobs);
    var end := With(Sleeper([]), map[], multiset{(R, 0)}, multiset{}, map[], Build(R, 1, false, 0, [Task(2, R, 0)]),
                    3, jobs);
    EndIsUnclear(end, jobs);
    hide With, Attachable;
    Chained(Init(), a1, s1, a2, s2);
    Chained(Init(), a1 + a2, s2, a3, s3);
    Chained(Init(), a1 + a2 + a3, s3, a4, s4);
    Chained(Init(), a1 + a2 + a3 + a4, s4, a5, s5);
    Chained(Init(), a1 + a2 + a3 + a4 + a5, s5, a6, end);
    var run := a1 + a2 + a3 + a4 + a5 + a6;
    FromInit(run, end);
  }

  lemma EndIsUnclear(s: State, jobs: map<Req, Job>)
    requires s == With(Sleeper([]), map[], multiset{(R, 0)}, multiset{}, map[],
                       Build(R, 1, false, 0, [Task(2, R, 0)]), 3, jobs)
    ensures Attachable(s) && !Clear(s, s.sub.req, s.sub.worker)
  {
    hide Crew;
  }
}
