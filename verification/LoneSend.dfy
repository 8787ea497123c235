/**
 One send of two chunks alone on a fresh pool, step by step, up to the point where success has
 been reported, everything is freed and the context is gone, but the last completion has not
 been polled. From there the id is called again.
 */
module LoneSend {
  import opened Base
  import opened TaskQueue
  import opened TaskSync
  import opened BatchSubmit
  import opened Pool
  import opened Send
  import opened SendTheorems
  import opened SendProgress
  import opened SmallRuns
  import opened EarlyCall

  const R: Req := 5

  /** A pool in which nothing is under way, with `x` as its first worker. */
  ghost predicate Rests(p: State, x: Worker, ctxs: map<Req, Ctx>) {
    && p.workers == Crew(x) && p.ctxs == ctxs && p.wakes == multiset{} && p.cancels == multiset{} && p.removed == map[]
    && p.destroyer.Running? && p.sub.NoSubmit?
  }

  /** Nobody is calling, polling or between a post and its mark. */
  ghost predicate Now(s: System, x: Worker, ctxs: map<Req, Ctx>, sends: map<Req, Transfer>) {
    && Rests(s.pool, x, ctxs) && s.sends == sends && s.caller.NoCall? && s.poller.Polling?
    && |s.wrote| == WORKERS && s.wrote[0].None?
  }

  function OneLeft(): map<Req, Ctx> {
    map[R := Ctx(0, 1, false)]
  }

  // ----- the worker's turn -----

  lemma CrewUpdated(x: Worker, y: Worker)
    ensures Crew(x)[0 := y] == Crew(y)
  {
  }

  lemma TurnNow(s: System, b: Action, x: Worker, y: Worker, c: map<Req, Ctx>, d: map<Req, Ctx>,
                m: map<Req, Transfer>)
    requires Now(s, x, c, m) && Silent(b) && Enabled(s.pool, b) && Rests(Apply(s.pool, b), y, d)
    ensures Can(s, Turn(b)) && Now(Do(s, Turn(b)), y, d, m)
  {
    hide Apply, Enabled, Rests;
  }

  lemma Relocks(p: State, q: seq<Task>, c: map<Req, Ctx>)
    requires Rests(p, Worker(Roused, Idle, R, q), c)
    ensures Enabled(p, Relock(0)) && Rests(Apply(p, Relock(0)), Worker(Check, Idle, R, q), c)
  {
    CrewUpdated(Worker(Roused, Idle, R, q), Worker(Check, Idle, R, q));
    hide Crew;
  }

  lemma Pops(p: State, u: Task, c: map<Req, Ctx>)
    requires u.req == R && Rests(p, Worker(Check, Idle, R, [u]), c)
    ensures Enabled(p, LoopTop(0)) && Rests(Apply(p, LoopTop(0)), Worker(Popped(u), Busy, 0, []), c)
  {
    assert Mine([u], R) == [u] && DropFirst([u], R) == [] by {
      assert [u][1..] == [];
    }
    CrewUpdated(Worker(Check, Idle, R, [u]), Worker(Popped(u), Busy, 0, []));
    hide Crew, Mine, DropFirst;
  }

  lemma Finds(p: State, u: Task, c: map<Req, Ctx>)
    requires u.req == R && Rests(p, Worker(Ran(u), Busy, 0, []), c) && R in c
    ensures Enabled(p, FindCtx(0)) && Rests(Apply(p, FindCtx(0)), Worker(Looked(u, true), Busy, 0, []), c)
  {
    CrewUpdated(Worker(Ran(u), Busy, 0, []), Worker(Looked(u, true), Busy, 0, []));
    hide Crew;
  }

  lemma Uncounts(p: State, u: Task)
    requires u.req == R && Rests(p, Worker(Looked(u, true), Busy, 0, []), OneLeft())
    ensures Enabled(p, Uncount(0))
    ensures Rests(Apply(p, Uncount(0)), Worker(Zeroed(u, false), Busy, 0, []), map[R := Ctx(0, 0, false)])
  {
    CrewUpdated(Worker(Looked(u, true), Busy, 0, []), Worker(Zeroed(u, false), Busy, 0, []));
    assert OneLeft()[R := Ctx(0, 0, false)] == map[R := Ctx(0, 0, false)];
    hide Crew;
  }

  lemma CallsBack(p: State, u: Task, c: map<Req, Ctx>)
    requires u.req == R && Rests(p, Worker(Zeroed(u, false), Busy, 0, []), c)
    ensures Enabled(p, Callback(0)) && Rests(Apply(p, Callback(0)), Worker(Called(u), Busy, 0, []), c)
  {
    CrewUpdated(Worker(Zeroed(u, false), Busy, 0, []), Worker(Called(u), Busy, 0, []));
    hide Crew;
  }

  lemma Drops(p: State, u: Task)
    requires u.req == R && Rests(p, Worker(Called(u), Busy, 0, []), map[R := Ctx(0, 0, false)])
    ensures Enabled(p, DropCtx(0)) && Rests(Apply(p, DropCtx(0)), Worker(Settled(u), Busy, 0, []), map[])
  {
    CrewUpdated(Worker(Called(u), Busy, 0, []), Worker(Settled(u), Busy, 0, []));
    assert map[R := Ctx(0, 0, false)] - {R} == map[];
    hide Crew;
  }

  lemma Frees(p: State, u: Task, c: map<Req, Ctx>)
    requires u.req == R && Rests(p, Worker(Settled(u), Busy, 0, []), c)
    ensures Enabled(p, FreeTask(0)) && Rests(Apply(p, FreeTask(0)), Worker(Check, Idle, 0, []), c)
  {
    CrewUpdated(Worker(Settled(u), Busy, 0, []), Worker(Check, Idle, 0, []));
    hide Crew, FreeTaskCell, BatchOf, FirstId;
  }

  lemma Sleeps(p: State, c: map<Req, Ctx>)
    requires Rests(p, Worker(Check, Idle, 0, []), c)
    ensures Enabled(p, LoopTop(0)) && Rests(Apply(p, LoopTop(0)), Worker(Doze, Idle, 0, []), c)
  {
    CrewUpdated(Worker(Check, Idle, 0, []), Worker(Doze, Idle, 0, []));
    hide Crew;
  }

  lemma DozesOff(p: State, c: map<Req, Ctx>)
    requires Rests(p, Worker(Doze, Idle, 0, []), c)
    ensures Enabled(p, Wait(0)) && Rests(Apply(p, Wait(0)), Sleeper([]), c)
  {
    CrewUpdated(Worker(Doze, Idle, 0, []), Sleeper([]));
    hide Crew;
  }

  // ----- the run -----

  lemma Extended(run: seq<Step>, s: System, a: Step) returns (run': seq<Step>, s': System)
    requires Reached(run, s) && Can(s, a)
    ensures Reached(run', s') && s' == Do(s, a)
  {
    ExtendRun(run, s, a);
    run', s' := run + [a], Do(s, a);
  }

  lemma Opened() returns (run: seq<Step>, s: System)
    ensures Reached(run, s) && Now(s, Sleeper([]), map[], map[])
  {
    run, s := [], Start();
    assert Now(s, Worker(Check, Idle, 0, []), map[], map[]) by {
      assert Init().workers[0 := Worker(Check, Idle, 0, [])] == Init().workers;
    }
    hide Can, Do, Apply, Enabled;
    run, s := FallsAsleep(run, s, map[], map[]);
  }

  lemma FallsAsleep(run: seq<Step>, s: System, c: map<Req, Ctx>, m: map<Req, Transfer>)
    returns (run': seq<Step>, s': System)
    requires Reached(run, s) && Now(s, Worker(Check, Idle, 0, []), c, m)
    ensures Reached(run', s') && Now(s', Sleeper([]), c, m)
  {
    hide Can, Do, Apply, Enabled, Reached;
    Sleeps(s.pool, c);
    TurnNow(s, LoopTop(0), Worker(Check, Idle, 0, []), Worker(Doze, Idle, 0, []), c, c, m);
    run', s' := Extended(run, s, Turn(LoopTop(0)));
    DozesOff(s'.pool, c);
    TurnNow(s', Wait(0), Worker(Doze, Idle, 0, []), Sleeper([]), c, c, m);
    run', s' := Extended(run', s', Turn(Wait(0)));
  }

  function TwoChunks(): Transfer {
    Transfer(2, false, [], 0, false, false, [], TaskSync.Fresh(1), Away)
  }

  /** The call, up to the point where chunk 0 is due. */
  lemma Submitted(run: seq<Step>, s: System) returns (run': seq<Step>, s': System, u: Task)
    requires Reached(run, s) && Now(s, Sleeper([]), map[], map[])
    ensures Reached(run', s') && u.req == R && u.arg == 0 && s'.caller == FirstPost(R)
    ensures Now(s'.(caller := NoCall), Sleeper([u]), OneLeft(), map[R := TwoChunks().(registered := true)])
  {
    hide Reached;
    CanCall(s);
    run', s' := Extended(run, s, Call(R, 2));
    hide Can, Do;
    var reg, t := SubmissionGoesThrough(s', R, 1);
    var id :| TakenByFirst(s', t, R, BatchTasks(id, R, 1));
    LaterReached(run', s', reg, t);
    u := Task(id, R, 0);
    Taken(s', t, id);
    run', s' := run' + reg, t;
  }

  lemma CanCall(s: System)
    requires Now(s, Sleeper([]), map[], map[])
    ensures Can(s, Call(R, 2))
    ensures var s' := Do(s, Call(R, 2));
            && s'.caller == Registering(R) && s'.pool.sub == Scan(R, 1, false, 0, NO_WORKER, MAX_LOAD)
            && Now(s'.(caller := NoCall, pool := s'.pool.(sub := NoSubmit)), Sleeper([]), map[], map[R := TwoChunks()])
            && FirstIsFree(s'.pool, R)
  {
    NobodyPending(s.pool);
  }

  lemma NobodyPending(p: State)
    requires p.workers == Crew(Sleeper([]))
    ensures forall w :: 0 <= w < |p.workers| ==> p.workers[w].pending == 0 && !p.workers[w].pc.Popped?
  {
  }

  lemma Taken(s: System, t: System, id: nat)
    requires TakenByFirst(s, t, R, BatchTasks(id, R, 1))
    requires Now(s.(caller := NoCall, pool := s.pool.(sub := NoSubmit)), Sleeper([]), map[], map[R := TwoChunks()])
    ensures t.caller == FirstPost(R)
    ensures Now(t.(caller := NoCall), Sleeper([Task(id, R, 0)]), OneLeft(), map[R := TwoChunks().(registered := true)])
  {
    assert BatchTasks(id, R, 1) == [Task(id, R, 0)];
    assert [] + [Task(id, R, 0)] == [Task(id, R, 0)];
    CrewUpdated(Sleeper([]), Sleeper([Task(id, R, 0)]));
  }

  /** Chunk 0 is posted and its completion wakes the worker. */
  lemma FirstChunk(run: seq<Step>, s: System, u: Task) returns (run': seq<Step>, s': System)
    requires Reached(run, s) && u.req == R && s.caller == FirstPost(R)
    requires Now(s.(caller := NoCall), Sleeper([u]), OneLeft(), map[R := TwoChunks().(registered := true)])
    ensures Reached(run', s')
    ensures Now(s', Worker(Roused, Idle, R, [u]), OneLeft(), map[R := TwoChunks().(registered := true, posted := [0])])
  {
    hide Reached;
    var t := TwoChunks().(registered := true);
    Posts0(s, u, t);
    run', s' := Extended(run, s, First(true));
    t := t.(posted := [0], out := 1);
    Delivers(s', u, t);
    run', s' := Extended(run', s', Deliver(R));
    LooksUp(s', u, t.(out := 0));
    run', s' := Extended(run', s', Lookup);
    FillsSlot(s', u, t.(out := 0));
    run', s' := Extended(run', s', Set);
  }

  lemma Posts0(s: System, u: Task, t: Transfer)
    requires s.caller == FirstPost(R) && t.posted == [] && t.out == 0
    requires Now(s.(caller := NoCall), Sleeper([u]), OneLeft(), map[R := t])
    ensures Can(s, First(true))
    ensures Now(Do(s, First(true)), Sleeper([u]), OneLeft(), map[R := t.(posted := [0], out := 1)])
  {
    assert [] + [0] == [0];
    hide Rests;
  }

  lemma Delivers(s: System, u: Task, t: Transfer)
    requires Now(s, Sleeper([u]), OneLeft(), map[R := t]) && t.out == 1
    ensures Can(s, Deliver(R))
    ensures var s' := Do(s, Deliver(R));
            s'.poller == Got(R) && Now(s'.(poller := Polling), Sleeper([u]), OneLeft(), map[R := t.(out := 0)])
  {
    hide Rests;
  }

  lemma LooksUp(s: System, u: Task, t: Transfer)
    requires s.poller == Got(R) && Now(s.(poller := Polling), Sleeper([u]), OneLeft(), map[R := t])
    ensures Can(s, Lookup)
    ensures var s' := Do(s, Lookup);
            && s'.poller == Holding(R, 0, false) && s'.pool.wakes == multiset{(R, 0)}
            && Now(s'.(poller := Polling, pool := s'.pool.(wakes := multiset{})), Sleeper([u]), OneLeft(), map[R := t])
  {
    assert multiset{} + multiset{(R, 0)} == multiset{(R, 0)};
    hide Crew;
  }

  lemma FillsSlot(s: System, u: Task, t: Transfer)
    requires u.req == R && s.poller == Holding(R, 0, false) && s.pool.wakes == multiset{(R, 0)}
    requires Now(s.(poller := Polling, pool := s.pool.(wakes := multiset{})), Sleeper([u]), OneLeft(), map[R := t])
    ensures Can(s, Set) && Now(Do(s, Set), Worker(Roused, Idle, R, [u]), OneLeft(), map[R := t])
  {
    assert multiset{(R, 0)} - multiset{(R, 0)} == multiset{};
    CrewUpdated(Sleeper([u]), Worker(Roused, Idle, R, [u]));
    hide Crew, Mine;
  }

  /** The worker takes its task, posts chunk 1 and marks it. */
  lemma SecondChunk(run: seq<Step>, s: System, u: Task) returns (run': seq<Step>, s': System)
    requires Reached(run, s) && u.req == R && u.arg == 0
    requires Now(s, Worker(Roused, Idle, R, [u]), OneLeft(), map[R := TwoChunks().(registered := true, posted := [0])])
    ensures Reached(run', s') && Now(s', Worker(Ran(u), Busy, 0, []), OneLeft(), map[R := AllMarked()])
  {
    hide Reached, Apply, Enabled;
    var m := map[R := TwoChunks().(registered := true, posted := [0])];
    Relocks(s.pool, [u], OneLeft());
    TurnNow(s, Relock(0), Worker(Roused, Idle, R, [u]), Worker(Check, Idle, R, [u]), OneLeft(), OneLeft(), m);
    run', s' := Extended(run, s, Turn(Relock(0)));
    Pops(s'.pool, u, OneLeft());
    TurnNow(s', LoopTop(0), Worker(Check, Idle, R, [u]), Worker(Popped(u), Busy, 0, []), OneLeft(), OneLeft(), m);
    run', s' := Extended(run', s', Turn(LoopTop(0)));
    PostsAndMarks(s', u);
    run', s' := Extended(run', s', Write(0, true));
    run', s' := Extended(run', s', Mark(0));
  }

  /** Both chunks posted, the task marked, the last completion not polled. */
  function AllMarked(): Transfer {
    Transfer(2, true, [0, 1], 1, false, false, [true], Sync(true, 1, 1), Away)
  }

  lemma PostsAndMarks(s: System, u: Task)
    requires u.req == R && u.arg == 0
    requires Now(s, Worker(Popped(u), Busy, 0, []), OneLeft(),
                 map[R := TwoChunks().(registered := true, posted := [0])])
    ensures Can(s, Write(0, true)) && Can(Do(s, Write(0, true)), Mark(0))
    ensures Now(Do(Do(s, Write(0, true)), Mark(0)), Worker(Ran(u), Busy, 0, []), OneLeft(), map[R := AllMarked()])
  {
    assert [0] + [0 + 1] == [0, 1] && [] + [true] == [true];
    CrewUpdated(Worker(Popped(u), Busy, 0, []), Worker(Ran(u), Busy, 0, []));
    hide Crew, FreeWrapper;
  }

  /** The worker ends its turn, drops the context and goes back to sleep. */
  lemma TurnEnds(run: seq<Step>, s: System, u: Task, m: map<Req, Transfer>) returns (run': seq<Step>, s': System)
    requires Reached(run, s) && u.req == R && Now(s, Worker(Ran(u), Busy, 0, []), OneLeft(), m)
    ensures Reached(run', s') && Now(s', Sleeper([]), map[], m)
  {
    hide Can, Do, Apply, Enabled, Reached;
    var c, d := OneLeft(), map[R := Ctx(0, 0, false)];
    var x1, x2 := Worker(Ran(u), Busy, 0, []), Worker(Looked(u, true), Busy, 0, []);
    var x3, x4 := Worker(Zeroed(u, false), Busy, 0, []), Worker(Called(u), Busy, 0, []);
    var x5, x6 := Worker(Settled(u), Busy, 0, []), Worker(Check, Idle, 0, []);
    Finds(s.pool, u, c);
    TurnNow(s, FindCtx(0), x1, x2, c, c, m);
    run', s' := Extended(run, s, Turn(FindCtx(0)));
    Uncounts(s'.pool, u);
    TurnNow(s', Uncount(0), x2, x3, c, d, m);
    run', s' := Extended(run', s', Turn(Uncount(0)));
    CallsBack(s'.pool, u, d);
    TurnNow(s', Callback(0), x3, x4, d, d, m);
    run', s' := Extended(run', s', Turn(Callback(0)));
    Drops(s'.pool, u);
    TurnNow(s', DropCtx(0), x4, x5, d, map[], m);
    run', s' := Extended(run', s', Turn(DropCtx(0)));
    Frees(s'.pool, u, map[]);
    TurnNow(s', FreeTask(0), x5, x6, map[], map[], m);
    run', s' := Extended(run', s', Turn(FreeTask(0)));
    run', s' := FallsAsleep(run', s', map[], m);
  }

  /** The waiter reports success and frees everything. */
  lemma Reports(run: seq<Step>, s: System) returns (run': seq<Step>, s': System)
    requires Reached(run, s) && Now(s, Sleeper([]), map[], map[R := AllMarked()])
    ensures Reached(run', s') && Now(s', Sleeper([]), map[], map[R := AllMarked().(waiter := Waiter.Gone(true))])
  {
    hide Reached, Rests;
    run', s' := Extended(run, s, Notice(R));
    run', s' := Extended(run', s', Judge(R));
    run', s' := Extended(run', s', Free(R));
  }

  /**
   The early call happens: a send reports success and is over but for its last completion, its
   id is called again, the pool takes the new batch, and chunk 1 can go out before chunk 0.
   */
  lemma EarlyCallIsReachable()
    ensures exists run, s, reg, t ::
              && Reached(run, s) && s.caller.NoCall? && s.poller.Polling? && R in s.sends && R !in s.pool.ctxs
              && s.sends[R].waiter == Waiter.Gone(true) && s.sends[R].out == 1 == TokenCount(s, R)
              && Enabled(s.pool, Submit(R, 1, false)) && Accepted(CallNow(s, R, 2), reg, t, R)
              && !OrderKept(CallNow(s, R, 2), R)
  {
    var run, s := Opened();
    var u;
    run, s, u := Submitted(run, s);
    run, s := FirstChunk(run, s, u);
    run, s := SecondChunk(run, s, u);
    run, s := TurnEnds(run, s, u, map[R := AllMarked()]);
    run, s := Reports(run, s);
    CanSubmit(s);
    var x := CallNow(s, R, 2);
    var reg, t := SubmissionGoesThrough(x, R, 1);
    hide Reached, OrderKept, Accepted, TokenCount;
    CallKeepsOrderIff(run, s, R, 2, reg, t);
  }

  lemma CanSubmit(s: System)
    requires Now(s, Sleeper([]), map[], map[R := AllMarked().(waiter := Waiter.Gone(true))])
    ensures Enabled(s.pool, Submit(R, 1, false)) && LetGo(s.sends[R]) && TokenCount(s, R) == 1
    ensures var x := CallNow(s, R, 2);
            && x.caller == Registering(R) && R in x.sends && R !in x.pool.ctxs && FirstIsFree(x.pool, R)
            && x.pool.sub == Scan(R, 1, false, 0, NO_WORKER, MAX_LOAD)
  {
    NobodyPending(s.pool);
  }
}
