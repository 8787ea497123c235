/** Literal runs in which only the first worker does anything, one action after the other. */
module SmallRuns {
  import opened Base
  import opened TaskQueue
  import opened BatchSubmit
  import opened Pool
  import opened PoolTheorems
  import opened Shutdown

  /** One more action at the end of a continuation. */
  lemma {:induction false} ThenOne(s: State, acts: seq<Action>, t: State, a: Action)
    requires Then(s, acts) == Some(t) && Enabled(t, a)
    ensures Then(s, acts + [a]) == Some(Apply(t, a))
    decreases |acts|
  {
    hide Enabled, Apply;
    if acts == [] {
      assert acts + [a] == [a] && [a][1..] == [];
    } else {
      ThenOne(Apply(s, acts[0]), acts[1..], t, a);
      assert (acts + [a])[0] == acts[0] && (acts + [a])[1..] == acts[1..] + [a];
    }
  }

  lemma {:induction false} Chained(s: State, a: seq<Action>, t: State, b: seq<Action>, u: State)
    requires Then(s, a) == Some(t) && Then(t, b) == Some(u)
    ensures Then(s, a + b) == Some(u)
    decreases |a|
  {
    if a == [] {
      assert a + b == b;
    } else {
      assert (a + b)[0] == a[0] && (a + b)[1..] == a[1..] + b;
      Chained(Apply(s, a[0]), a[1..], t, b, u);
    }
  }

  lemma Single(s: State, a: Action)
    requires Enabled(s, a)
    ensures Then(s, [a]) == Some(Apply(s, a))
  {
    assert [a][1..] == [];
  }

  /** The fresh pool's workers, with `x` in place of the first. */
  function Crew(x: Worker): (c: seq<Worker>)
    ensures |c| == WORKERS && c[0] == x
  {
    Init().workers[0 := x]
  }

  /** A pool whose first worker is `x`. */
  function With(x: Worker, ctxs: map<Req, Ctx>, wakes: multiset<(Req, nat)>, cancels: multiset<(Req, nat)>,
                removed: map<Req, nat>, sub: Submitter, nextId: nat, jobs: map<Req, Job>): State
  {
    Init().(workers := Crew(x), ctxs := ctxs, wakes := wakes, cancels := cancels, removed := removed,
            sub := sub, nextId := nextId, jobs := jobs)
  }

  /** A worker waiting for a signal, with the given queue. */
  function Sleeper(queue: seq<Task>): Worker {
    Worker(Asleep, Idle, 0, queue)
  }

  function NewJob(t: Task): Job {
    Job(0, false, false, [t], [], [], [], 0, 0, Unfreed(1))
  }

  /** The first worker goes to sleep. */
  lemma FirstSleeps() returns (acts: seq<Action>)
    ensures Then(Init(), acts) == Some(With(Sleeper([]), map[], multiset{}, multiset{}, map[], NoSubmit, 1, map[]))
  {
    var s0 := Init();
    assert s0.workers[0] == Worker(Check, Idle, 0, []);
    Single(s0, LoopTop(0));
    ThenOne(s0, [LoopTop(0)], SetPc(s0, 0, Doze), Wait(0));
    acts := [LoopTop(0)] + [Wait(0)];
    assert Apply(SetPc(s0, 0, Doze), Wait(0))
           == With(Sleeper([]), map[], multiset{}, multiset{}, map[], NoSubmit, 1, map[]);
  }

  /** A batch of one task is built for the sleeping first worker. */
  lemma BatchBuilt(req: Req, ctxs: map<Req, Ctx>, wakes: multiset<(Req, nat)>, removed: map<Req, nat>, id: nat,
                   jobs: map<Req, Job>)
    returns (acts: seq<Action>)
    requires req !in ctxs
    ensures Then(With(Sleeper([]), ctxs, wakes, multiset{}, removed, NoSubmit, id, jobs), acts)
            == Some(With(Sleeper([]), ctxs, wakes, multiset{}, removed, Build(req, 1, false, 0, [Task(id, req, 0)]),
                         id + 1, jobs))
  {
    var t := Task(id, req, 0);
    var s0 := With(Sleeper([]), ctxs, wakes, multiset{}, removed, NoSubmit, id, jobs);
    var s1 := s0.(sub := Scan(req, 1, false, 0, NO_WORKER, MAX_LOAD));
    var s2 := s0.(sub := Build(req, 1, false, 0, []));
    var s3 := s0.(sub := Build(req, 1, false, 0, [t]), nextId := id + 1);
    Single(s0, Submit(req, 1, false));
    assert Enabled(s1, ScanNext) && Apply(s1, ScanNext) == s2;
    ThenOne(s0, [Submit(req, 1, false)], s1, ScanNext);
    assert [] + [t] == [t];
    assert Enabled(s2, BuildNext) && Apply(s2, BuildNext) == s3;
    ThenOne(s0, [Submit(req, 1, false)] + [ScanNext], s2, BuildNext);
    acts := [Submit(req, 1, false)] + [ScanNext] + [BuildNext];
  }

  /** The first batch of an id is attached and counted. */
  lemma AttachedAndCounted(req: Req, ctxs: map<Req, Ctx>, removed: map<Req, nat>, id: nat, jobs: map<Req, Job>)
    returns (acts: seq<Action>)
    requires req !in ctxs && req !in jobs
    ensures var t := Task(id, req, 0);
            Then(With(Sleeper([]), ctxs, multiset{}, multiset{}, removed, Build(req, 1, false, 0, [t]), id + 1, jobs),
                 acts)
            == Some(With(Sleeper([t]), ctxs[req := Ctx(0, 1, false)], multiset{}, multiset{}, removed, NoSubmit, id + 1,
                         jobs[req := NewJob(t).(counted := true)]))
  {
    var t, c := Task(id, req, 0), ctxs[req := Ctx(0, 1, false)];
    var j := NewJob(t);
    var s0 := With(Sleeper([]), ctxs, multiset{}, multiset{}, removed, Build(req, 1, false, 0, [t]), id + 1, jobs);
    var s1 := With(Sleeper([t]), ctxs, multiset{}, multiset{}, removed, Attached(req, 1, false, 0), id + 1,
                   jobs[req := j]);
    var s2 := s1.(sub := Resolved(req, 1, false, 0, false));
    var s3 := With(Sleeper([t]), c, multiset{}, multiset{}, removed, NoSubmit, id + 1,
                   jobs[req := j.(counted := true)]);
    assert jobs[req := j][req := j.(counted := true)] == jobs[req := j.(counted := true)];
    AttachFirst(t, s0, s1);
    hide Crew;
    Single(s0, Attach);
    assert Enabled(s1, LookupCtx) && Apply(s1, LookupCtx) == s2;
    ThenOne(s0, [Attach], s1, LookupCtx);
    assert Enabled(s2, CountCtx) && Apply(s2, CountCtx) == s3;
    ThenOne(s0, [Attach] + [LookupCtx], s2, CountCtx);
    acts := [Attach] + [LookupCtx] + [CountCtx];
  }

  lemma AttachFirst(t: Task, s0: State, s1: State)
    requires s0.workers == Crew(Sleeper([])) && s0.sub == Build(t.req, 1, false, 0, [t])
             && s0.wakes == s0.cancels == multiset{}
    requires t.req !in s0.jobs
    requires s1 == s0.(workers := Crew(Sleeper([t])), sub := Attached(t.req, 1, false, 0),
                       jobs := s0.jobs[t.req := NewJob(t)])
    ensures Enabled(s0, Attach) && Apply(s0, Attach) == s1
  {
    assert [] + [t] == [t];
    assert Crew(Sleeper([]))[0 := Sleeper([t])] == Crew(Sleeper([t]));
    hide Crew;
  }

  lemma CancelLooksUp(x: Worker, c: Ctx, wakes: multiset<(Req, nat)>, jobs: map<Req, Job>, req: Req)
    requires c.worker == 0
    ensures var s := With(x, map[req := c], wakes, multiset{}, map[], NoSubmit, 2, jobs);
            && Enabled(s, CancelFind(req))
            && Apply(s, CancelFind(req)) == With(x, map[req := c], wakes, multiset{(req, 0)}, map[], NoSubmit, 2, jobs)
  {
    hide Crew;
  }

  lemma QueueCancelled(req: Req, t: Task, c: map<Req, Ctx>, wakes: multiset<(Req, nat)>, j: Job)
    requires t.req == req
    ensures var s := With(Sleeper([t]), c, wakes, multiset{(req, 0)}, map[], NoSubmit, 2, map[req := j]);
            && Enabled(s, CancelQueue(req, 0))
            && Apply(s, CancelQueue(req, 0))
               == With(Sleeper([]), c, wakes, multiset{}, map[req := 1], NoSubmit, 2,
                       map[req := j.(cancelled := [t] + j.cancelled, freed := FreeAll(j.freed, [t]))])
  {
    assert Mine([t], req) == [t] && Others([t], req) == [] by {
      assert [t][1..] == [];
    }
    hide Mine, Others, FreeAll;
    assert Crew(Sleeper([t]))[0 := Sleeper([])] == Crew(Sleeper([]));
    hide Crew;
  }

  lemma FromInit(acts: seq<Action>, s: State)
    requires Then(Init(), acts) == Some(s)
    ensures Reaches(acts, s)
  {
    hide Enabled, Apply;
    ThenReaches([], Init(), acts, s);
    assert [] + acts == acts;
  }

}
