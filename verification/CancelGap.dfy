/**
 Between a cancel's work on the queue and its work on the context, the context is live but
 stands for no queued task. A wake that looks the request up in this gap fills the slot of a
 worker that may already work for another request, and that request's wake is lost.
 */
module CancelGap {
  import opened Base
  import opened TaskQueue
  import opened Pool
  import opened PoolInvariant
  import opened PoolSteps
  import opened PoolTheorems
  import opened Shutdown
  import opened SmallRuns

  /** The slot of the worker of `r` names another request, and tasks of that request wait there. */
  predicate SlotInUse(s: State, r: Req) {
    r in s.ctxs && s.ctxs[r].worker < |s.workers| &&
    var x := s.workers[s.ctxs[r].worker];
    x.pending != 0 && x.pending != r && Mine(x.queue, x.pending) != []
  }

  /** Outside the gap whatever else is in the slot of the worker has nothing queued there. */
  lemma OutsideTheGap(s: State, r: Req)
    requires Inv(s) && !Closed(s) && r in s.ctxs && r !in s.removed
    ensures s.ctxs[r].worker < |s.workers| && !SlotInUse(s, r)
  {
    hide Inv, RequestOk, OneRequest, Mine;
    ContextFacts(s, r);
    InvParts(s);
    ContextOfView(r, ViewOf(s, r));
    var x := s.workers[s.ctxs[r].worker];
    assert OneRequest(x);
    SlotOfOther(x, r);
  }

  /** A live context outside the gap stands for a queued task or for one in the worker's turn. */
  lemma ContextOfView(r: Req, v: View)
    requires RequestOk(r, v) && v.ctx.Some? && v.owedToCancel == 0 && !v.closed && !v.destroyed
    ensures v.queued != [] || InTurn(v.stage)
  {
  }

  lemma SlotOfOther(x: Worker, r: Req)
    requires OneRequest(x) && (Mine(x.queue, r) != [] || InTurn(StageOf(x.pc, r)))
    ensures x.pending == r || Mine(x.queue, x.pending) == []
  {
    MineMembers(x.queue, r);
    if Mine(x.queue, r) != [] {
      assert Mine(x.queue, r)[0] in Mine(x.queue, r);
    }
    MineOfUniform(x.queue, r, x.pending);
  }

  /** In every reachable state, a lookup finds the slot in use by another request only in the gap. */
  lemma OnlyInTheGap(run: seq<Action>, s: State, r: Req)
    requires Reaches(run, s) && !Closed(s) && SlotInUse(s, r)
    ensures r in s.removed
  {
    hide Inv, Reaches, SlotInUse;
    ReachableOk(run, s);
    SlotInUseIsLive(s, r);
    if r !in s.removed {
      OutsideTheGap(s, r);
    }
  }

  lemma SlotInUseIsLive(s: State, r: Req)
    requires SlotInUse(s, r)
    ensures r in s.ctxs
  {
  }

  // ----- what is lost -----

  /**
   Tasks of `q` wait on their worker, its slot does not name `q` (0 names nobody), and no
   wake for `q` is on its way there.
   */
  predicate Stranded(s: State, q: Req) {
    q in s.jobs && s.jobs[q].worker < |s.workers| &&
    var w := s.jobs[q].worker;
    Mine(s.workers[w].queue, q) != [] && (q == 0 || s.workers[w].pending != q) && (q, w) !in s.wakes
  }

  /** The poller's handling of one completion of `r`: look up, then fill the slot. */
  function Woken(s: State, r: Req): State
    requires r in s.ctxs && s.ctxs[r].worker < |s.workers|
  {
    ApplyWakeSet(ApplyWakeFind(s, r), r, s.ctxs[r].worker)
  }

  ghost predicate WokenShape(s: State, t: State, r: Req) {
    && r in s.ctxs && s.ctxs[r].worker < |s.workers| && r in s.jobs && s.wakes == multiset{}
    && var w := s.ctxs[r].worker;
    && t.workers == s.workers[w := Signalled(s.workers[w].(pending := r))] && t.wakes == multiset{}
    && t.jobs == s.jobs[r := s.jobs[r].(accepted := s.jobs[r].accepted + 1)]
  }

  lemma WokenEffect(s: State, r: Req)
    requires r in s.ctxs && s.ctxs[r].worker < |s.workers| && !Closed(s) && s.wakes == multiset{}
    requires Unlocked(s, s.ctxs[r].worker) && r in s.jobs
    ensures var w, a := s.ctxs[r].worker, Apply(s, WakeFind(r));
            && Enabled(s, WakeFind(r)) && Enabled(a, WakeSet(r, w)) && Woken(s, r) == Apply(a, WakeSet(r, w))
    ensures WokenShape(s, Woken(s, r), r)
  {
    var w := s.ctxs[r].worker;
    assert multiset{} + multiset{(r, w)} == multiset{(r, w)};
    assert multiset{(r, w)} - multiset{(r, w)} == multiset{};
  }

  lemma StrandedBySlot(s: State, t: State, r: Req, q: Req)
    requires Homes(s) && WokenShape(s, t, r) && !Stranded(s, q) && Stranded(t, q)
    ensures SlotInUse(s, r)
  {
    hide Mine;
    var w := s.jobs[q].worker;
    assert s.workers[w].pending == q && w == s.ctxs[r].worker;
  }

  lemma SlotStrands(s: State, t: State, r: Req)
    requires Homes(s) && WokenShape(s, t, r) && SlotInUse(s, r)
    ensures var q := s.workers[s.ctxs[r].worker].pending; !Stranded(s, q) && Stranded(t, q)
  {
    SlotHitOwns(s, s.ctxs[r].worker);
    hide Mine, Homes;
  }

  /**
   With one poller, which handles one completion at a time: handling a completion of `r`
   strands a request that had its wake exactly if the slot is in use by another request,
   and this happens in the gap of a cancel of `r` only.
   */
  lemma WakeStrandsIff(run: seq<Action>, s: State, r: Req)
    requires Reaches(run, s) && !Closed(s) && s.wakes == multiset{} && r in s.ctxs
    requires Unlocked(s, s.ctxs[r].worker)
    ensures s.ctxs[r].worker < |s.workers|
    ensures (exists q: Req :: !Stranded(s, q) && Stranded(Woken(s, r), q)) <==> SlotInUse(s, r)
    ensures SlotInUse(s, r) ==> r in s.removed
  {
    hide Inv, Reaches, Closed, Woken, Enabled, Apply, WokenShape, Stranded, SlotInUse, Homes;
    ReachableOk(run, s);
    ContextFacts(s, r);
    InvParts(s);
    WokenEffect(s, r);
    var t := Woken(s, r);
    if q: Req :| !Stranded(s, q) && Stranded(t, q) {
      StrandedBySlot(s, t, r, q);
    }
    if SlotInUse(s, r) {
      OnlyInTheGap(run, s, r);
      SlotStrands(s, t, r);
    }
  }

  // ----- the run -----

  const R: Req := 5
  const S: Req := 6

  /** The waiter's cancel of `R` has emptied the queue and not touched the context yet. */
  lemma IntoTheGap() returns (acts: seq<Action>, j: Job)
    ensures Then(Init(), acts)
            == Some(With(Sleeper([]), map[R := Ctx(0, 1, false)], multiset{}, multiset{}, map[R := 1], NoSubmit, 2,
                         map[R := j]))
  {
    hide Then, Enabled, Apply, NewJob, FreeAll;
    var t, c := Task(1, R, 0), map[R := Ctx(0, 1, false)];
    var j0 := NewJob(t).(counted := true);
    var a1 := FirstSleeps();
    var a2 := BatchBuilt(R, map[], multiset{}, map[], 1, map[]);
    var a3 := AttachedAndCounted(R, map[], map[], 1, map[]);
    assert map[][R := Ctx(0, 1, false)] == c && map[][R := j0] == map[R := j0];
    var s1 := With(Sleeper([]), map[], multiset{}, multiset{}, map[], NoSubmit, 1, map[]);
    var s2 := With(Sleeper([]), map[], multiset{}, multiset{}, map[], Build(R, 1, false, 0, [t]), 2, map[]);
    var s3 := With(Sleeper([t]), c, multiset{}, multiset{}, map[], NoSubmit, 2, map[R := j0]);
    CancelLooksUp(Sleeper([t]), Ctx(0, 1, false), multiset{}, map[R := j0], R);
    QueueCancelled(R, t, c, multiset{}, j0);
    j := j0.(cancelled := [t] + j0.cancelled, freed := FreeAll(j0.freed, [t]));
    hide With;
    Chained(Init(), a1, s1, a2, s2);
    Chained(Init(), a1 + a2, s2, a3, s3);
    ThenOne(Init(), a1 + a2 + a3, s3, CancelFind(R));
    ThenOne(Init(), a1 + a2 + a3 + [CancelFind(R)], Apply(s3, CancelFind(R)), CancelQueue(R, 0));
    acts := a1 + a2 + a3 + [CancelFind(R)] + [CancelQueue(R, 0)];
  }

  /** In the gap another request is submitted; it gets the same worker, whose queue is empty. */
  lemma OtherSubmitted(j: Job) returns (acts: seq<Action>)
    ensures var c, t := map[R := Ctx(0, 1, false)], Task(2, S, 0);
            Then(With(Sleeper([]), c, multiset{}, multiset{}, map[R := 1], NoSubmit, 2, map[R := j]), acts)
            == Some(With(Sleeper([t]), c[S := Ctx(0, 1, false)], multiset{}, multiset{}, map[R := 1], NoSubmit, 3,
                         map[R := j][S := NewJob(t).(counted := true)]))
  {
    hide Then, Enabled, Apply, NewJob, With;
    var c := map[R := Ctx(0, 1, false)];
    var a1 := BatchBuilt(S, c, multiset{}, map[R := 1], 2, map[R := j]);
    var a2 := AttachedAndCounted(S, c, map[R := 1], 2, map[R := j]);
    Chained(With(Sleeper([]), c, multiset{}, multiset{}, map[R := 1], NoSubmit, 2, map[R := j]), a1,
         With(Sleeper([]), c, multiset{}, multiset{}, map[R := 1], Build(S, 1, false, 0, [Task(2, S, 0)]), 3,
              map[R := j]), a2,
         With(Sleeper([Task(2, S, 0)]), c[S := Ctx(0, 1, false)], multiset{}, multiset{}, map[R := 1], NoSubmit, 3,
              map[R := j][S := NewJob(Task(2, S, 0)).(counted := true)]));
    acts := a1 + a2;
  }

  /** One request's completion is handled from start to end. */
  lemma Handled(s: State, r: Req) returns (acts: seq<Action>)
    requires !Closed(s) && s.wakes == multiset{} && r in s.ctxs && s.ctxs[r].worker < |s.workers| && r in s.jobs
    requires Unlocked(s, s.ctxs[r].worker)
    ensures Then(s, acts) == Some(Woken(s, r))
  {
    WokenEffect(s, r);
    hide Enabled, Apply, Woken;
    Single(s, WakeFind(r));
    ThenOne(s, [WakeFind(r)], Apply(s, WakeFind(r)), WakeSet(r, s.ctxs[r].worker));
    acts := [WakeFind(r)] + [WakeSet(r, s.ctxs[r].worker)];
  }

  /**
   A run in which the wakes are handled strictly one after the other, and yet a request that
   was woken once for its only task ends up stranded: `S` got its wake, and before the worker
   took it a completion of `R`, looked up in the gap, overwrote it.
   */
  lemma WakeIsLost()
    ensures exists run, s :: Reaches(run, s) && s.wakes == multiset{} && Stranded(s, S)
                             && s.jobs[S].counted && s.jobs[S].accepted == 1 == |s.jobs[S].tasks| && s.jobs[S].ran == []
  {
    hide Then, Enabled, Apply, Reaches, Woken;
    var a1, j := IntoTheGap();
    var a2 := OtherSubmitted(j);
    var s1 := With(Sleeper([]), map[R := Ctx(0, 1, false)], multiset{}, multiset{}, map[R := 1], NoSubmit, 2,
                   map[R := j]);
    var s2 := With(Sleeper([Task(2, S, 0)]), map[R := Ctx(0, 1, false)][S := Ctx(0, 1, false)], multiset{},
                   multiset{}, map[R := 1], NoSubmit, 3, map[R := j][S := NewJob(Task(2, S, 0)).(counted := true)]);
    BothHandled(s2, j);
    var s3 := Woken(s2, S);
    var s4 := Woken(s3, R);
    hide With, NewJob, Stranded, Closed, Unlocked;
    var a3 := Handled(s2, S);
    var a4 := Handled(s3, R);
    Chained(Init(), a1, s1, a2, s2);
    Chained(Init(), a1 + a2, s2, a3, s3);
    Chained(Init(), a1 + a2 + a3, s3, a4, s4);
    FromInit(a1 + a2 + a3 + a4, s4);
  }

  lemma BothHandled(s: State, j: Job)
    requires s == With(Sleeper([Task(2, S, 0)]), map[R := Ctx(0, 1, false)][S := Ctx(0, 1, false)], multiset{},
                       multiset{}, map[R := 1], NoSubmit, 3, map[R := j][S := NewJob(Task(2, S, 0)).(counted := true)])
    ensures !Closed(s) && s.wakes == multiset{} && S in s.ctxs && s.ctxs[S].worker == 0 < |s.workers| && S in s.jobs
            && Unlocked(s, 0)
    ensures var m := Woken(s, S);
            && !Closed(m) && m.wakes == multiset{} && R in m.ctxs && m.ctxs[R].worker == 0 < |m.workers|
            && R in m.jobs && Unlocked(m, 0)
            && var e := Woken(m, R);
            && e.wakes == multiset{} && Stranded(e, S)
            && e.jobs[S].counted && e.jobs[S].accepted == 1 == |e.jobs[S].tasks| && e.jobs[S].ran == []
  {
    hide Crew;
    var m := Woken(s, S);
    assert multiset{} + multiset{(S, 0)} - multiset{(S, 0)} == multiset{};
    assert multiset{} + multiset{(R, 0)} - multiset{(R, 0)} == multiset{};
    assert [Task(2, S, 0)][1..] == [];
  }
}
