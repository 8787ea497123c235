/** Every step of the send protocol keeps its invariant. */
module SendSteps {
  import opened Base
  import opened TaskQueue
  import opened TaskSync
  import opened BatchSubmit
  import opened Pool
  import opened PoolInvariant
  import opened PoolViews
  import opened PoolSteps
  import opened CancelGap
  import opened Send
  import opened SendInvariant
  import opened SendViews

  /** The pool action a step of the protocol performs, if it performs one. */
  function PoolAction(s: System, a: Step): Option<Action>
    requires Can(s, a)
  {
    match a
    case Call(r, n) => Some(Submit(r, n - 1, false))
    case Register(b) => Some(b)
    case Lookup => Some(WakeFind(s.poller.req))
    case Set => Some(WakeSet(s.poller.req, s.poller.w))
    case Mark(w) => Some(RunTask(w))
    case Turn(b) => Some(b)
    case CancelLookup(r) => Some(CancelFind(r))
    case CancelUnlink(r) => Some(CancelQueue(r, s.sends[r].waiter.w))
    case CancelSubtract(r) => Some(CancelCount(r))
    case Other(b) => Some(b)
    case _ => None
  }

  /** The protocol only ever moves the pool as the pool itself may move. */
  lemma FollowsPool(s: System, a: Step)
    requires Can(s, a)
    ensures match PoolAction(s, a)
            case None => Do(s, a).pool == s.pool
            case Some(b) => Enabled(s.pool, b) && Do(s, a).pool == Apply(s.pool, b)
  {
    hide Apply;
  }

  // ----- framing -----

  lemma UnusedFrame(p: State, p': State, r: Req, q: Req)
    requires Unused(p, q) && SameBut(p, p', r) && q != r
    requires forall w :: 0 <= w < |p.workers| ==> UnusedBy(p.workers[w], q)
    ensures Unused(p', q)
  {
    forall w | 0 <= w < |p'.workers| ensures UnusedAt(p'.workers[w], q) {
      assert SameWorkerBut(p.workers[w], p'.workers[w], r) && UnusedBy(p.workers[w], q);
      NotQueuedThere(p'.workers[w].queue, q);
    }
  }

  /** The same as UnusedAt, in terms the frame speaks of. */
  predicate UnusedBy(x: Worker, q: Req) {
    Mine(x.queue, q) == [] && (InTurn(StageOf(x.pc, q)) ==> StageOf(x.pc, q).Settled?)
  }

  lemma UnusedAtIsBy(x: Worker, q: Req)
    requires UnusedAt(x, q)
    ensures UnusedBy(x, q)
  {
    assert forall i :: 0 <= i < |x.queue| ==> x.queue[i] in x.queue;
    NoMatch(x.queue, q);
  }

  lemma UnusedKept(p: State, p': State, r: Req, q: Req)
    requires Unused(p, q) && SameBut(p, p', r) && q != r
    ensures Unused(p', q)
  {
    forall w | 0 <= w < |p.workers| ensures UnusedBy(p.workers[w], q) {
      assert UnusedAt(p.workers[w], q);
      UnusedAtIsBy(p.workers[w], q);
    }
    UnusedFrame(p, p', r, q);
  }

  lemma TracelessKept(p: State, p': State, r: Req, q: Req)
    requires Traceless(p, q) && SameBut(p, p', r) && q != r && q != 0
    ensures Traceless(p', q)
  {
    hide Mine, StageOf;
    forall w | 0 <= w < |p'.workers|
      ensures (q, w) !in p'.wakes && (q, w) !in p'.cancels && p'.workers[w].pending != q
    {
      assert p'.wakes[(q, w)] == p.wakes[(q, w)] && p'.cancels[(q, w)] == p.cancels[(q, w)];
      assert SameWorkerBut(p.workers[w], p'.workers[w], r);
      assert Mine(p'.workers[w].queue, q) == Mine(p.workers[w].queue, q);
    }
  }

  /** `s'` differs from `s` only in what concerns request `r`. */
  ghost predicate Apart(s: System, s': System, r: Req) {
    && SameBut(s.pool, s'.pool, r) && |s'.wrote| == |s.wrote|
    && (forall q :: q != r ==> (q in s'.sends <==> q in s.sends) && (q in s.sends ==> s'.sends[q] == s.sends[q]))
    && (forall q :: q != r ==>
          && Returned(s', q) == Returned(s, q) && (s'.caller == Registering(q) <==> s.caller == Registering(q))
          && (s'.poller == Got(q) <==> s.poller == Got(q)))
    && (forall w :: 0 <= w < |s.wrote| && s'.wrote[w] != s.wrote[w] ==>
          w < |s.pool.workers| && !(exists q :: q != r && StageOf(s.pool.workers[w].pc, q).Popped?))
  }

  lemma SendFrameView(s: System, s': System, r: Req, q: Req)
    requires Apart(s, s', r) && q != r
    requires q in s.sends && q in s.pool.jobs && s.pool.jobs[q].worker < |s.pool.workers| == |s.wrote|
    ensures q in s'.pool.jobs && s'.pool.jobs[q].worker < |s'.pool.workers| == |s'.wrote|
    ensures SendViewOf(s', q) == SendViewOf(s, q)
  {
    var w := s.pool.jobs[q].worker;
    assert SameWorkerBut(s.pool.workers[w], s'.pool.workers[w], r);
    assert ViewOf(s'.pool, q) == ViewOf(s.pool, q);
  }

  lemma SendFrame(s: System, s': System, r: Req)
    requires Transfers(s) && Apart(s, s', r)
    requires Registered(s', r) ==>
               && r in s'.pool.jobs && s'.pool.jobs[r].worker < |s'.pool.workers| == |s'.wrote|
               && SendOk(r, SendViewOf(s', r))
    requires r in s'.sends && !s'.sends[r].registered ==> Dormant(s', r)
    ensures Transfers(s')
  {
    hide SendOk, Unused, SameBut, SendViewOf, Traceless;
    forall q | Registered(s', q) && q != r
      ensures q in s'.pool.jobs && s'.pool.jobs[q].worker < |s'.pool.workers| == |s'.wrote|
      ensures SendOk(q, SendViewOf(s', q))
    {
      SendFrameView(s, s', r, q);
    }
    forall q | q in s'.sends && !s'.sends[q].registered && q != r ensures Dormant(s', q) {
      UnusedKept(s.pool, s'.pool, r, q);
      TracelessKept(s.pool, s'.pool, r, q);
    }
  }

  lemma SamePool(p: State, r: Req)
    ensures SameBut(p, p, r)
  {
  }

  /** What a step about a registered request may rely on. */
  lemma SendFacts(s: System, r: Req)
    requires SystemOk(s) && Registered(s, r)
    ensures r in s.pool.jobs && s.pool.jobs[r].worker < |s.pool.workers| == |s.wrote|
    ensures RequestOk(r, ViewOf(s.pool, r)) && Fates(r, ViewOf(s.pool, r))
    ensures SendOk(r, SendViewOf(s, r)) && SendViewOf(s, r).v == ViewOf(s.pool, r)
    ensures SendViewOf(s, r).t == s.sends[r] && !Closed(s.pool)
  {
    hide SendOk, Inv;
    RequestFacts(s.pool, r);
  }

  lemma LocalKeepsRest(s: System, r: Req, t: Transfer)
    requires CallerOk(s) && PollerOk(s) && WritesOk(s) && Registered(s, r) && t.registered && t.n == s.sends[r].n
    ensures CallerOk(Put(s, r, t)) && PollerOk(Put(s, r, t)) && WritesOk(Put(s, r, t))
  {
  }

  lemma LocalApart(s: System, r: Req, t: Transfer)
    ensures Apart(s, Put(s, r, t), r)
  {
    SamePool(s.pool, r);
    hide SameBut;
  }

  /** Steps that touch neither the pool nor the writes, the caller nor the poller. */
  lemma LocalStepOk(s: System, r: Req, t: Transfer)
    requires SystemOk(s) && Registered(s, r) && t.registered && t.n == s.sends[r].n
    requires r in s.pool.jobs && s.pool.jobs[r].worker < |s.pool.workers| == |s.wrote|
    requires SendOk(r, SendViewOf(s, r).(t := t))
    ensures SystemOk(Put(s, r, t))
  {
    var s' := Put(s, r, t);
    assert SendViewOf(s', r) == SendViewOf(s, r).(t := t);
    hide Inv, SendOk, SameBut, Transfers, CallerOk, PollerOk, WritesOk, Apart, SendViewOf;
    LocalKeepsRest(s, r, t);
    LocalApart(s, r, t);
    SendFrame(s, s', r);
  }

  lemma InvHomes(p: State)
    requires Inv(p)
    ensures Homes(p)
  {
  }

  lemma NoticeOk(s: System, r: Req)
    requires SystemOk(s) && Can(s, Notice(r)) && Registered(s, r)
    ensures SystemOk(Do(s, Notice(r)))
  {
    hide SystemOk, SendOk;
    SendFacts(s, r);
    NoticeKeeps(r, SendViewOf(s, r));
    LocalStepOk(s, r, s.sends[r].(waiter := Noticed));
  }

  lemma JudgeOk(s: System, r: Req)
    requires SystemOk(s) && Can(s, Judge(r)) && Registered(s, r)
    ensures SystemOk(Do(s, Judge(r)))
  {
    hide SystemOk, SendOk;
    SendFacts(s, r);
    JudgeKeeps(r, SendViewOf(s, r));
    LocalStepOk(s, r, s.sends[r].(waiter := if Succeeded(s.sends[r].sync) then Ready(true) else ToCancel));
  }

  lemma FreeOk(s: System, r: Req)
    requires SystemOk(s) && Can(s, Free(r)) && Registered(s, r)
    ensures SystemOk(Do(s, Free(r)))
  {
    hide SystemOk, SendOk;
    SendFacts(s, r);
    FreeKeeps(r, SendViewOf(s, r));
    LocalStepOk(s, r, s.sends[r].(waiter := Waiter.Gone(s.sends[r].waiter.ok)));
  }

  /** Only registered requests have a waiter at work. */
  lemma WaitingIsRegistered(s: System, r: Req)
    requires SystemOk(s) && r in s.sends && Returned(s, r) && s.sends[r].waiter != Waiter.Gone(false)
    ensures Registered(s, r)
  {
    hide Inv, SendOk, Unused;
  }

  lemma WaiterReturned(s: System, r: Req)
    requires SystemOk(s) && r in s.sends && !s.sends[r].waiter.Away?
    ensures s.sends[r].waiter == Waiter.Gone(false) || (Registered(s, r) && Returned(s, r))
  {
    hide Inv, Unused;
    if Registered(s, r) {
      assert WaiterOk(SendViewOf(s, r));
    }
  }

  // ----- steps of the pool -----

  /** Queues only shrink, slots only empty, homes stay, and nobody leaves a post half made. */
  ghost predicate Shrinks(s: System, p': State) {
    && p'.sub == s.pool.sub && p'.wakes == s.pool.wakes && |p'.workers| == |s.pool.workers|
    && (forall q :: q in s.pool.jobs ==> q in p'.jobs && p'.jobs[q].worker == s.pool.jobs[q].worker)
    && (forall w :: 0 <= w < |p'.workers| ==> ShrinksAt(s.pool.workers[w], p'.workers[w]))
    && (forall w :: 0 <= w < |p'.workers| && w < |s.wrote| && s.wrote[w].Some? ==>
          p'.workers[w].pc == s.pool.workers[w].pc)
  }

  ghost predicate ShrinksAt(x: Worker, x': Worker) {
    && (x'.pending == x.pending || x'.pending == 0)
    && forall q :: Mine(x.queue, q) == [] ==> Mine(x'.queue, q) == []
  }

  lemma ShrinkKeepsRest(s: System, p': State)
    requires CallerOk(s) && PollerOk(s) && WritesOk(s) && Shrinks(s, p')
    ensures var s' := s.(pool := p'); CallerOk(s') && PollerOk(s') && WritesOk(s')
  {
    hide Mine;
    if s.poller.Holding? {
      assert ShrinksAt(s.pool.workers[s.poller.w], p'.workers[s.poller.w]);
    }
  }

  lemma PoolApart(s: System, s': System, r: Req)
    requires SameBut(s.pool, s'.pool, r) && s' == s.(pool := s'.pool, sends := s'.sends)
    requires forall q :: q != r ==> (q in s'.sends <==> q in s.sends) && (q in s.sends ==> s'.sends[q] == s.sends[q])
    ensures Apart(s, s', r)
  {
    hide SameBut;
  }

  /** A shrinking step of the pool about a registered request, and its effect on the transfer. */
  lemma ShrinkOk(s: System, p': State, r: Req, t: Transfer)
    requires SystemOk(s) && Registered(s, r) && t.registered && t.n == s.sends[r].n
    requires Inv(p') && p'.destroyer.Running? && Shrinks(s, p') && SameBut(s.pool, p', r)
    requires var s' := Put(s.(pool := p'), r, t);
             && r in p'.jobs && p'.jobs[r].worker < |p'.workers| == |s.wrote| && SendOk(r, SendViewOf(s', r))
    ensures SystemOk(Put(s.(pool := p'), r, t))
  {
    var s', m := Put(s.(pool := p'), r, t), s.(pool := p');
    hide Inv, SendOk, SameBut, Transfers, CallerOk, PollerOk, WritesOk, Apart, SendViewOf, Shrinks;
    ShrinkKeepsRest(s, p');
    LocalKeepsRest(m, r, t);
    PoolApart(s, s', r);
    SendFrame(s, s', r);
  }

  /** A shrinking step of the pool about a request that is not a send. */
  lemma ForeignOk(s: System, p': State, r: Req)
    requires SystemOk(s) && r !in s.sends
    requires Inv(p') && p'.destroyer.Running? && Shrinks(s, p') && SameBut(s.pool, p', r)
    ensures SystemOk(s.(pool := p'))
  {
    var s' := s.(pool := p');
    hide Inv, SendOk, SameBut, Transfers, CallerOk, PollerOk, WritesOk, Apart, SendViewOf, Shrinks;
    ShrinkKeepsRest(s, p');
    PoolApart(s, s', r);
    SendFrame(s, s', r);
  }

  /** A shrinking step of the pool that does not show in the view of the send it is about. */
  lemma UnseenOk(s: System, p': State, r: Req)
    requires SystemOk(s) && Registered(s, r)
    requires Inv(p') && p'.destroyer.Running? && Shrinks(s, p') && SameBut(s.pool, p', r)
    requires r in s.pool.jobs && s.pool.jobs[r].worker < |s.pool.workers| == |s.wrote|
    requires Owns(p', r, s.pool.jobs[r].worker) && |p'.workers| == |s.pool.workers|
             && ViewOf(p', r) == ViewOf(s.pool, r)
    ensures SystemOk(s.(pool := p'))
  {
    hide SystemOk, Inv, Shrinks, SameBut, SendOk, RequestOk, Fates;
    SendFacts(s, r);
    ViewChange(s, p', r, s.sends[r]);
    hide SendViewOf, ViewOf;
    assert Put(s.(pool := p'), r, s.sends[r]) == s.(pool := p');
    ShrinkOk(s, p', r, s.sends[r]);
  }

  /** A shrinking step of the pool that leaves the id of a send not attached yet unused. */
  lemma DormantOk(s: System, p': State, r: Req)
    requires SystemOk(s) && r in s.sends && !s.sends[r].registered && Unused(p', r) && Traceless(p', r)
    requires Inv(p') && p'.destroyer.Running? && Shrinks(s, p') && SameBut(s.pool, p', r)
    ensures SystemOk(s.(pool := p'))
  {
    var s' := s.(pool := p');
    hide Inv, SendOk, SameBut, CallerOk, PollerOk, WritesOk, Apart, SendViewOf, Shrinks, Unused, Traceless;
    assert Dormant(s, r);
    ShrinkKeepsRest(s, p');
    PoolApart(s, s', r);
    SendFrame(s, s', r);
  }

  // ----- the worker's turn -----

  /** A turn that is not just ending is about a request at home; if that is a send, it is registered. */
  lemma TurnIsRegistered(s: System, w: nat)
    requires SystemOk(s) && InTurn(PcAt(s.pool, w)) && !s.pool.workers[w].pc.Settled?
    ensures var r := s.pool.workers[w].pc.task.req;
            Owns(s.pool, r, w) && (r in s.sends ==> Registered(s, r))
  {
    var r := s.pool.workers[w].pc.task.req;
    TurnFacts(s.pool, w);
    DormantIsUnused(s, r);
    hide SystemOk;
    assert Unused(s.pool, r) ==> UnusedAt(s.pool.workers[w], r);
  }

  lemma DormantIsUnused(s: System, r: Req)
    requires SystemOk(s)
    ensures r in s.sends && !Registered(s, r) ==> Unused(s.pool, r) && Traceless(s.pool, r) && r != 0
  {
    hide Inv, SendOk, Unused, Traceless, CallerOk, PollerOk, WritesOk;
    assert r in s.sends && !Registered(s, r) ==> Dormant(s, r);
  }

  lemma TurnShrinks(s: System, p': State, w: nat)
    requires TurnStep(s.pool, p', w) && WritesOk(s)
    requires !s.pool.workers[w].pc.Popped? || s.pool.workers[w].pc.task.req !in s.sends
    ensures Shrinks(s, p')
  {
    forall i | 0 <= i < |p'.workers| ensures ShrinksAt(s.pool.workers[i], p'.workers[i]) {
    }
  }

  /** A turn step behind the run of the task, whose view change the protocol cannot see. */
  lemma TurnStepOk(s: System, p': State, w: nat, v': View)
    requires SystemOk(s) && InTurn(PcAt(s.pool, w)) && !s.pool.workers[w].pc.Popped?
    requires Registered(s, s.pool.workers[w].pc.task.req)
    requires TurnStep(s.pool, p', w) && Inv(p') && p'.destroyer.Running?
    requires var r := s.pool.workers[w].pc.task.req;
             && |p'.workers| == |s.pool.workers| && Owns(s.pool, r, w) && Owns(p', r, w) && ViewOf(p', r) == v'
             && !v'.stage.Popped?
             && var v := ViewOf(s.pool, r);
                v' == v.(stage := v'.stage, ctx := v'.ctx, job := v.job.(freed := v'.job.freed, fired := v'.job.fired))
    ensures SystemOk(s.(pool := p'))
  {
    hide SystemOk, SendOk, SendViewOf, ViewOf, Shrinks, SameBut, Inv, TurnStep, WritesOk, CallerOk, PollerOk;
    var r := s.pool.workers[w].pc.task.req;
    SystemRest(s);
    SendFacts(s, r);
    StageIsPc(s.pool, r, w);
    TurnSendView(s, p', r, v');
    TurnKeepsSend(r, SendViewOf(s, r), v');
    TurnShrinks(s, p', w);
    TurnIsLocal(s.pool, p', w);
    assert Put(s.(pool := p'), r, s.sends[r]) == s.(pool := p');
    ShrinkOk(s, p', r, s.sends[r]);
  }

  lemma StageIsPc(p: State, r: Req, w: nat)
    requires InTurn(PcAt(p, w)) && p.workers[w].pc.task.req == r && Owns(p, r, w)
    ensures ViewOf(p, r).stage == p.workers[w].pc
  {
  }

  lemma TurnSendView(s: System, p': State, r: Req, v': View)
    requires r in s.sends && r in s.pool.jobs && s.pool.jobs[r].worker < |s.pool.workers| == |s.wrote|
    requires r in p'.jobs && p'.jobs[r].worker == s.pool.jobs[r].worker && |p'.workers| == |s.pool.workers|
    requires ViewOf(p', r) == v' && !v'.stage.Popped? && !ViewOf(s.pool, r).stage.Popped?
    ensures SendViewOf(s.(pool := p'), r) == SendViewOf(s, r).(v := v')
    ensures SendViewOf(s, r).v == ViewOf(s.pool, r)
  {
  }

  lemma TurnKeepsDestroyer(p: State, p': State, w: nat)
    requires TurnStep(p, p', w)
    ensures p'.destroyer == p.destroyer && |p'.workers| == |p.workers|
  {
  }

  lemma SystemFacts(s: System)
    requires SystemOk(s)
    ensures Inv(s.pool) && s.pool.destroyer.Running? && !Closed(s.pool)
  {
  }

  /** A turn step behind the run of the task, for a send or for another request. */
  lemma TurnMoveOk(s: System, p': State, w: nat, v': View)
    requires SystemOk(s) && InTurn(PcAt(s.pool, w)) && !s.pool.workers[w].pc.Popped? && !s.pool.workers[w].pc.Settled?
    requires TurnStep(s.pool, p', w) && Inv(p')
    requires var r := s.pool.workers[w].pc.task.req;
             && |p'.workers| == |s.pool.workers| && Owns(s.pool, r, w) && Owns(p', r, w) && ViewOf(p', r) == v'
             && !v'.stage.Popped?
             && var v := ViewOf(s.pool, r);
                v' == v.(stage := v'.stage, ctx := v'.ctx, job := v.job.(freed := v'.job.freed, fired := v'.job.fired))
    ensures SystemOk(s.(pool := p'))
  {
    hide SystemOk, Inv, TurnStep, ViewOf, WritesOk, CallerOk, PollerOk, SameBut, Shrinks;
    var r := s.pool.workers[w].pc.task.req;
    SystemFacts(s);
    SystemRest(s);
    TurnIsRegistered(s, w);
    TurnKeepsDestroyer(s.pool, p', w);
    if r in s.sends {
      TurnStepOk(s, p', w, v');
    } else {
      TurnShrinks(s, p', w);
      TurnIsLocal(s.pool, p', w);
      ForeignOk(s, p', r);
    }
  }

  lemma SendFindCtxOk(s: System, w: nat)
    requires PcAt(s.pool, w).Ran? && SystemOk(s)
    ensures SystemOk(s.(pool := ApplyFindCtx(s.pool, w)))
  {
    hide SystemOk, Inv, RequestOk, TurnStep, ApplyFindCtx;
    SystemFacts(s);
    var p, r := s.pool, s.pool.workers[w].pc.task.req;
    TurnFacts(p, w);
    LookKeeps(r, ViewOf(p, r));
    LookStep(p, w);
    FindCtxOk(p, w);
    TurnMoveOk(s, ApplyFindCtx(p, w), w, ViewOf(p, r).(stage := Looked(p.workers[w].pc.task, true)));
  }

  lemma SendUncountOk(s: System, w: nat)
    requires PcAt(s.pool, w).Looked? && SystemOk(s)
    ensures SystemOk(s.(pool := ApplyUncount(s.pool, w)))
  {
    hide SystemOk, Inv, RequestOk, TurnStep, ApplyUncount;
    SystemFacts(s);
    var p, r := s.pool, s.pool.workers[w].pc.task.req;
    TurnFacts(p, w);
    UncountKeeps(r, ViewOf(p, r));
    UncountStep(p, w);
    UncountOk(p, w);
    TurnMoveOk(s, ApplyUncount(p, w), w, UncountView(ViewOf(p, r)));
  }

  lemma SendCallbackOk(s: System, w: nat)
    requires PcAt(s.pool, w).Zeroed? && SystemOk(s)
    ensures SystemOk(s.(pool := ApplyCallback(s.pool, w)))
  {
    hide SystemOk, Inv, RequestOk, TurnStep, ApplyCallback;
    SystemFacts(s);
    var p, r := s.pool, s.pool.workers[w].pc.task.req;
    TurnFacts(p, w);
    CallbackStep(p, w);
    CallbackOk(p, w);
    TurnMoveOk(s, ApplyCallback(p, w), w, CallbackView(ViewOf(p, r)));
  }

  lemma SendDropCtxOk(s: System, w: nat)
    requires PcAt(s.pool, w).Called? && SystemOk(s)
    ensures SystemOk(s.(pool := ApplyDropCtx(s.pool, w)))
  {
    hide SystemOk, Inv, RequestOk, TurnStep, ApplyDropCtx;
    SystemFacts(s);
    var p, r := s.pool, s.pool.workers[w].pc.task.req;
    TurnFacts(p, w);
    UnlinkStep(p, w);
    DropCtxOk(p, w);
    TurnMoveOk(s, ApplyDropCtx(p, w), w, ViewOf(p, r).(ctx := None, stage := Settled(p.workers[w].pc.task)));
  }

  /** The end of a turn, about the latest use of an id or an earlier one. */
  lemma SendFreeTaskOk(s: System, w: nat)
    requires PcAt(s.pool, w).Settled? && SystemOk(s)
    ensures SystemOk(s.(pool := ApplyFreeTask(s.pool, w)))
  {
    hide SystemOk, Inv, RequestOk, ApplyFreeTask, OldTurn, ViewOf;
    SystemFacts(s);
    TurnFacts(s.pool, w);
    FreeTaskOk(s.pool, w);
    if OldTurn(s.pool, w) {
      SendFreeOldOk(s, w);
    } else {
      FreeLatestStep(s.pool, w);
      FreeLatestOk(s, w);
    }
  }

  /** The end of a turn about the latest use of an id, as the pool sees it. */
  ghost predicate LatestFreed(p: State, w: nat)
    requires PcAt(p, w).Settled?
  {
    var p', r := ApplyFreeTask(p, w), p.workers[w].pc.task.req;
    && TurnStep(p, p', w) && Inv(p') && Owns(p, r, w) && p.jobs[r].worker < |p.workers|
    && Owns(p', r, w) && p'.jobs[r].worker < |p'.workers| && ViewOf(p', r) == FreeTaskView(ViewOf(p, r))
  }

  lemma FreeLatestStep(p: State, w: nat)
    requires Inv(p) && PcAt(p, w).Settled? && Owns(p, p.workers[w].pc.task.req, w) && Inv(ApplyFreeTask(p, w))
    ensures LatestFreed(p, w)
  {
    hide Inv, TurnStep, ApplyFreeTask, ViewOf;
    LatestTurn(p, w);
    FreeTaskStep(p, w);
    TurnKeepsDestroyer(p, ApplyFreeTask(p, w), w);
  }

  lemma FreeLatestOk(s: System, w: nat)
    requires PcAt(s.pool, w).Settled? && LatestFreed(s.pool, w) && SystemOk(s)
    ensures SystemOk(s.(pool := ApplyFreeTask(s.pool, w)))
  {
    hide SystemOk, Inv, TurnStep, WritesOk, CallerOk, PollerOk, SameBut, Shrinks, ApplyFreeTask, Unused;
    var p', r := ApplyFreeTask(s.pool, w), s.pool.workers[w].pc.task.req;
    SystemFacts(s);
    SystemRest(s);
    TurnKeepsDestroyer(s.pool, p', w);
    TurnShrinks(s, p', w);
    TurnIsLocal(s.pool, p', w);
    if r !in s.sends {
      ForeignOk(s, p', r);
    } else if Registered(s, r) {
      TurnStepOk(s, p', w, FreeTaskView(ViewOf(s.pool, r)));
    } else {
      DormantIsUnused(s, r);
      TurnEndKeepsUnused(s.pool, p', w);
      DormantOk(s, p', r);
    }
  }

  lemma TurnEndKeepsUnused(p: State, p': State, w: nat)
    requires TurnStep(p, p', w) && p.workers[w].pc.Settled?
    requires Unused(p, p.workers[w].pc.task.req) && Traceless(p, p.workers[w].pc.task.req)
    ensures Unused(p', p.workers[w].pc.task.req) && Traceless(p', p.workers[w].pc.task.req)
  {
    var r := p.workers[w].pc.task.req;
    forall i | 0 <= i < |p'.workers| ensures UnusedAt(p'.workers[i], r) {
      assert UnusedAt(p.workers[i], r);
    }
  }

  lemma OldFreeLocal(p: State, p': State, w: nat)
    requires OldTurn(p, w) && OldFree(p, p', w)
    ensures var r := p.workers[w].pc.task.req;
            && SameBut(p, p', r) && |p'.workers| == |p.workers| && p'.destroyer == p.destroyer
            && p'.jobs == p.jobs && (p.jobs[r].worker < |p.workers| ==> ViewOf(p', r) == ViewOf(p, r))
            && (Unused(p, r) && Traceless(p, r) ==> Unused(p', r) && Traceless(p', r))
  {
    hide FreeTaskCell;
    var r := p.workers[w].pc.task.req;
    forall i | 0 <= i < |p'.workers| && Unused(p, r) ensures UnusedAt(p'.workers[i], r) {
      assert UnusedAt(p.workers[i], r);
    }
  }

  lemma OldFreeShrinks(s: System, p': State, w: nat)
    requires OldFree(s.pool, p', w) && WritesOk(s)
    ensures Shrinks(s, p')
  {
    hide FreeTaskCell;
  }

  lemma SendFreeOldOk(s: System, w: nat)
    requires SystemOk(s) && PcAt(s.pool, w).Settled? && OldTurn(s.pool, w) && Inv(ApplyFreeTask(s.pool, w))
    ensures SystemOk(s.(pool := ApplyFreeTask(s.pool, w)))
  {
    SystemFacts(s);
    InvParts(s.pool);
    OldIsNotLatest(s.pool, w);
    OldFreeShape(s.pool, w);
    var p', r := ApplyFreeTask(s.pool, w), s.pool.workers[w].pc.task.req;
    hide SystemOk, Inv, WritesOk, CallerOk, PollerOk, SameBut, Shrinks, ApplyFreeTask, Unused, Traceless, OldFree,
         ViewOf;
    SystemRest(s);
    OldFreeLocal(s.pool, p', w);
    OldFreeShrinks(s, p', w);
    if r !in s.sends {
      ForeignOk(s, p', r);
    } else if Registered(s, r) {
      SendFacts(s, r);
      UnseenOk(s, p', r);
    } else {
      DormantIsUnused(s, r);
      DormantOk(s, p', r);
    }
  }

  // ----- the top of the loop -----

  lemma ZeroIsNobody(s: System)
    requires SystemOk(s)
    ensures 0 !in s.sends
  {
    hide Inv, Unused;
    assert !Registered(s, 0);
    assert !Dormant(s, 0);
  }

  lemma IdleIsLocal(s: System, w: nat, x': Worker)
    requires w < |s.pool.workers| && !InTurn(s.pool.workers[w].pc) && !InTurn(x'.pc) && WritesOk(s)
    requires x'.queue == s.pool.workers[w].queue && x'.pending == s.pool.workers[w].pending
    requires x'.pc.Gone? == s.pool.workers[w].pc.Gone?
    ensures SameBut(s.pool, SetWorker(s.pool, w, x'), 0) && Shrinks(s, SetWorker(s.pool, w, x'))
  {
  }

  /** A worker moves between waiting positions: nothing of the protocol changes. */
  lemma SendIdleOk(s: System, w: nat, x': Worker)
    requires SystemOk(s) && w < |s.pool.workers| && !InTurn(s.pool.workers[w].pc) && !InTurn(x'.pc)
    requires x'.queue == s.pool.workers[w].queue && x'.pending == s.pool.workers[w].pending
    requires x'.pc.Gone? == s.pool.workers[w].pc.Gone?
    requires Inv(SetWorker(s.pool, w, x'))
    ensures SystemOk(s.(pool := SetWorker(s.pool, w, x')))
  {
    hide SystemOk, Inv, SameBut, CallerOk, PollerOk, WritesOk, Shrinks;
    ZeroIsNobody(s);
    SystemFacts(s);
    SystemRest(s);
    IdleIsLocal(s, w, x');
    ForeignOk(s, SetWorker(s.pool, w, x'), 0);
  }

  lemma ClearSlotLocal(s: System, w: nat)
    requires w < |s.pool.workers| && s.pool.workers[w].pending != 0
    ensures var p', r := SetWorker(s.pool, w, s.pool.workers[w].(pending := 0)), s.pool.workers[w].pending;
            SameBut(s.pool, p', r) && Shrinks(s, p') && |p'.workers| == |s.pool.workers|
  {
  }

  lemma ViewChange(s: System, p': State, r: Req, t: Transfer)
    requires r in s.sends && r in s.pool.jobs && s.pool.jobs[r].worker < |s.pool.workers| == |s.wrote|
    requires r in p'.jobs && p'.jobs[r].worker == s.pool.jobs[r].worker && |p'.workers| == |s.pool.workers|
    ensures var v' := ViewOf(p', r);
            SendViewOf(Put(s.(pool := p'), r, t), r)
            == SendViewOf(s, r).(t := t, v := v', wrote := if v'.stage.Popped? then s.wrote[v'.job.worker] else None)
  {
  }

  lemma ClearSlotSendView(s: System, w: nat)
    requires w < |s.pool.workers| == |s.wrote| && s.pool.workers[w].pending != 0
    requires Owns(s.pool, s.pool.workers[w].pending, w) && s.pool.workers[w].pending in s.sends
    ensures var r, p' := s.pool.workers[w].pending, SetWorker(s.pool, w, s.pool.workers[w].(pending := 0));
            var x := SendViewOf(s, r);
            && x.v.slot && x.v.queued == Mine(s.pool.workers[w].queue, r)
            && r in p'.jobs && p'.jobs[r].worker < |p'.workers| == |s.wrote|
            && SendViewOf(Put(s.(pool := p'), r, s.sends[r]), r) == x.(v := x.v.(slot := false))
  {
  }

  /** A slot whose request has nothing queued is emptied, by the worker or by another wake. */
  lemma SendClearSlotOk(s: System, w: nat)
    requires SystemOk(s) && w < |s.pool.workers| && s.pool.workers[w].pending != 0 && !InTurn(s.pool.workers[w].pc)
    requires s.pool.workers[w].pending in s.sends ==> Mine(s.pool.workers[w].queue, s.pool.workers[w].pending) == []
    ensures SystemOk(s.(pool := SetWorker(s.pool, w, s.pool.workers[w].(pending := 0))))
  {
    hide SystemOk, Inv, SendOk, SameBut, Shrinks, RequestOk, SendViewOf, ViewOf, Fates, Mine, Unused, Traceless;
    var r, p' := s.pool.workers[w].pending, SetWorker(s.pool, w, s.pool.workers[w].(pending := 0));
    SystemFacts(s);
    ClearSlotOk(s.pool, w);
    ClearSlotLocal(s, w);
    if r !in s.sends {
      ForeignOk(s, p', r);
    } else {
      SlotIsRegistered(s, w);
      SendFacts(s, r);
      ClearSlotView(s.pool, w);
      if Owns(s.pool, r, w) {
        ClearSlotSendView(s, w);
        ClearSlotKeeps(r, SendViewOf(s, r));
        assert Put(s.(pool := p'), r, s.sends[r]) == s.(pool := p');
        ShrinkOk(s, p', r, s.sends[r]);
      } else {
        UnseenOk(s, p', r);
      }
    }
  }

  /** An id whose tasks are not attached yet is in no slot. */
  lemma SlotIsRegistered(s: System, w: nat)
    requires SystemOk(s) && w < |s.pool.workers| && s.pool.workers[w].pending in s.sends
    ensures Registered(s, s.pool.workers[w].pending)
  {
    hide SystemOk, Unused;
    DormantIsUnused(s, s.pool.workers[w].pending);
  }

  /** A slot whose request is a send with tasks waiting there is emptied: the send is robbed. */
  lemma RobOk(s: System, w: nat)
    requires SystemOk(s) && w < |s.pool.workers| && s.pool.workers[w].pending != 0 && !InTurn(s.pool.workers[w].pc)
    requires s.pool.workers[w].pending in s.sends && Mine(s.pool.workers[w].queue, s.pool.workers[w].pending) != []
    ensures var q, p' := s.pool.workers[w].pending, SetWorker(s.pool, w, s.pool.workers[w].(pending := 0));
            SystemOk(Put(s.(pool := p'), q, s.sends[q].(robbed := true)))
  {
    hide SystemOk, Inv, SendOk, SameBut, Shrinks, RequestOk, SendViewOf, ViewOf, Fates, Mine, Homes;
    var q, p' := s.pool.workers[w].pending, SetWorker(s.pool, w, s.pool.workers[w].(pending := 0));
    SystemFacts(s);
    SlotIsRegistered(s, w);
    InvParts(s.pool);
    SlotHitOwns(s.pool, w);
    SendFacts(s, q);
    ClearSlotOk(s.pool, w);
    ClearSlotLocal(s, w);
    RobSendView(s, w);
    RobKeeps(q, SendViewOf(s, q));
    ShrinkOk(s, p', q, s.sends[q].(robbed := true));
  }

  lemma RobSendView(s: System, w: nat)
    requires w < |s.pool.workers| == |s.wrote| && s.pool.workers[w].pending != 0
    requires Owns(s.pool, s.pool.workers[w].pending, w) && s.pool.workers[w].pending in s.sends
    ensures var q, p' := s.pool.workers[w].pending, SetWorker(s.pool, w, s.pool.workers[w].(pending := 0));
            var x, t := SendViewOf(s, q), s.sends[q].(robbed := true);
            && x.v.slot && x.v.queued == Mine(s.pool.workers[w].queue, q)
            && q in p'.jobs && p'.jobs[q].worker < |p'.workers| == |s.wrote|
            && SendViewOf(Put(s.(pool := p'), q, t), q) == x.(t := x.t.(robbed := true), v := x.v.(slot := false))
  {
    ClearSlotView(s.pool, w);
    hide ViewOf;
  }

  lemma PopShrinks(s: System, w: nat)
    requires PcAt(s.pool, w).Check? && s.pool.workers[w].pending != 0 && WritesOk(s)
    requires Mine(s.pool.workers[w].queue, s.pool.workers[w].pending) != []
    ensures Shrinks(s, ApplyLoopTop(s.pool, w)) && ApplyLoopTop(s.pool, w).destroyer == s.pool.destroyer
  {
    hide Mine, DropFirst, FirstOf, FreeNode;
    PopQueue(s.pool.workers[w].queue, s.pool.workers[w].pending);
  }

  lemma PopSendView(s: System, w: nat)
    requires PcAt(s.pool, w).Check? && s.pool.workers[w].pending != 0 && |s.wrote| == |s.pool.workers|
             && s.wrote[w].None?
    requires Mine(s.pool.workers[w].queue, s.pool.workers[w].pending) != []
    requires Owns(s.pool, s.pool.workers[w].pending, w) && s.pool.workers[w].pending in s.sends
    ensures var r, p' := s.pool.workers[w].pending, ApplyLoopTop(s.pool, w);
            var x := SendViewOf(s, r);
            && x.v.slot && x.v.queued != [] && x.v.stage.Check?
            && r in p'.jobs && p'.jobs[r].worker < |p'.workers| == |s.wrote|
            && SendViewOf(Put(s.(pool := p'), r, s.sends[r]), r) == x.(v := PopView(x.v), wrote := None)
  {
    hide ApplyLoopTop, WorkerStep, SameBut, Mine;
    PopStep(s.pool, w);
    LoopTopWorkers(s.pool, w);
  }

  lemma LoopTopWorkers(p: State, w: nat)
    requires PcAt(p, w).Check?
    ensures var p' := ApplyLoopTop(p, w);
            && |p'.workers| == |p.workers| && p'.workers == p.workers[w := p'.workers[w]] && p'.workers[w].pending == 0
  {
    hide DropFirst, FirstOf, FreeNode, Destroying, InTurn, WithJob;
    var x := p.workers[w];
    if x.pending != 0 && FirstOf(x.queue, x.pending).Some? {
      var t := FirstOf(x.queue, x.pending).value;
      HistoryOnly(SetWorker(p, w, Worker(Popped(t), Busy, 0, DropFirst(x.queue, x.pending))), t.req,
                          (j: Job) => j.(freed := FreeNode(j.freed, t.arg)));
    }
  }

  lemma HistoryOnly(p: State, r: Req, f: Job -> Job)
    ensures WithJob(p, r, f).workers == p.workers && WithJob(p, r, f).cancels == p.cancels
  {
  }

  lemma SendPopOk(s: System, w: nat)
    requires SystemOk(s) && PcAt(s.pool, w).Check? && s.pool.workers[w].pending != 0
    requires Mine(s.pool.workers[w].queue, s.pool.workers[w].pending) != []
    ensures SystemOk(s.(pool := ApplyLoopTop(s.pool, w)))
  {
    hide SystemOk, Inv, SendOk, SameBut, Shrinks, RequestOk, ApplyLoopTop, SendViewOf, ViewOf, PopView, Fates, Mine,
         Homes, WritesOk, CallerOk, PollerOk;
    var r, p' := s.pool.workers[w].pending, ApplyLoopTop(s.pool, w);
    SystemFacts(s);
    SystemRest(s);
    InvParts(s.pool);
    SlotHitOwns(s.pool, w);
    SlotHitOk(s.pool, w);
    PopStep(s.pool, w);
    PopShrinks(s, w);
    if r in s.sends {
      SlotIsRegistered(s, w);
      SendFacts(s, r);
      NoWriteUnlessPopped(s, w);
      PopSendView(s, w);
      PopKeepsSend(r, SendViewOf(s, r));
      assert Put(s.(pool := p'), r, s.sends[r]) == s.(pool := p');
      ShrinkOk(s, p', r, s.sends[r]);
    } else {
      ForeignOk(s, p', r);
    }
  }

  lemma NoWriteUnlessPopped(s: System, w: nat)
    requires SystemOk(s) && w < |s.pool.workers| && !s.pool.workers[w].pc.Popped?
    ensures w < |s.wrote| && s.wrote[w].None?
  {
    hide Inv, Transfers;
  }

  lemma SendLoopTopOk(s: System, w: nat)
    requires PcAt(s.pool, w).Check? && SystemOk(s)
    ensures SystemOk(s.(pool := ApplyLoopTop(s.pool, w)))
  {
    hide SystemOk, Inv;
    SystemFacts(s);
    LoopFacts(s.pool, w);
    var x := s.pool.workers[w];
    if x.pending == 0 {
      LoopTopOk(s.pool, w);
      SendIdleOk(s, w, x.(pc := Doze));
    } else if Mine(x.queue, x.pending) == [] {
      SendClearSlotOk(s, w);
    } else {
      SendPopOk(s, w);
    }
  }

  lemma SendWaitingOk(s: System, w: nat, a: Action)
    requires SystemOk(s) && Enabled(s.pool, a) && (a == Wait(w) || a == Rouse(w) || a == Relock(w))
    ensures SystemOk(s.(pool := Apply(s.pool, a)))
  {
    hide SystemOk, Inv;
    SystemFacts(s);
    WaitingOk(s.pool, w, a);
    SendIdleOk(s, w, s.pool.workers[w].(pc := if a.Wait? then Asleep else if a.Rouse? then Roused else Check));
  }

  lemma TurnOk(s: System, a: Action)
    requires SystemOk(s) && Can(s, Turn(a))
    ensures SystemOk(Do(s, Turn(a)))
  {
    hide SystemOk, ApplyLoopTop, ApplyFindCtx, ApplyUncount, ApplyCallback, ApplyDropCtx, ApplyFreeTask;
    match a
    case LoopTop(w) => SendLoopTopOk(s, w);
    case Wait(w) => SendWaitingOk(s, w, a);
    case Rouse(w) => SendWaitingOk(s, w, a);
    case Relock(w) => SendWaitingOk(s, w, a);
    case FindCtx(w) => SendFindCtxOk(s, w);
    case Uncount(w) => SendUncountOk(s, w);
    case Callback(w) => SendCallbackOk(s, w);
    case DropCtx(w) => SendDropCtxOk(s, w);
    case FreeTask(w) => SendFreeTaskOk(s, w);
    case _ => assert false;
  }

  // ----- posting -----

  lemma Assemble(s: System, s': System, r: Req)
    requires SystemOk(s) && Inv(s'.pool) && s'.pool.destroyer.Running? && !s'.strayAccess
    requires Apart(s, s', r) && CallerOk(s') && PollerOk(s') && WritesOk(s') && Registered(s', r)
    requires r in s'.pool.jobs && s'.pool.jobs[r].worker < |s'.pool.workers| == |s'.wrote|
             && SendOk(r, SendViewOf(s', r))
    ensures SystemOk(s')
  {
    hide Inv, SendOk, Transfers, CallerOk, PollerOk, WritesOk, Apart, SendViewOf;
    SendFrame(s, s', r);
  }

  /** The same for a step about a request that is no send, or no longer one. */
  lemma AssembleForeign(s: System, s': System, r: Req)
    requires SystemOk(s) && Inv(s'.pool) && s'.pool.destroyer.Running? && !s'.strayAccess
    requires Apart(s, s', r) && CallerOk(s') && PollerOk(s') && WritesOk(s') && r !in s'.sends
    ensures SystemOk(s')
  {
    hide Inv, SendOk, Transfers, CallerOk, PollerOk, WritesOk, Apart, SendViewOf;
    SendFrame(s, s', r);
  }

  lemma SystemRest(s: System)
    requires SystemOk(s)
    ensures CallerOk(s) && PollerOk(s) && WritesOk(s) && !s.strayAccess
  {
    hide Inv, Transfers, CallerOk, PollerOk, WritesOk;
  }

  lemma WriteShape(s: System, w: nat, ok: bool)
    requires Can(s, Write(w, ok)) && CallerOk(s) && PollerOk(s) && WritesOk(s)
    requires var r := s.pool.workers[w].pc.task.req; Owns(s.pool, r, w) && Registered(s, r)
    ensures var s', r := DoWrite(s, w, ok), s.pool.workers[w].pc.task.req;
            Apart(s, s', r) && CallerOk(s') && PollerOk(s') && WritesOk(s') && Registered(s', r)
  {
    hide SameBut, Enabled;
    SamePool(s.pool, s.pool.workers[w].pc.task.req);
  }

  lemma WriteSendView(s: System, w: nat, ok: bool)
    requires Can(s, Write(w, ok)) && |s.wrote| == |s.pool.workers|
    requires var r := s.pool.workers[w].pc.task.req; Owns(s.pool, r, w) && r in s.sends
    ensures var s', r := DoWrite(s, w, ok), s.pool.workers[w].pc.task.req;
            var x := SendViewOf(s, r);
            && x.v.stage == s.pool.workers[w].pc && x.wrote.None? && s'.pool == s.pool && |s'.wrote| == |s.wrote|
            && s'.strayAccess == (s.strayAccess || x.t.waiter.Gone?)
            && SendViewOf(s', r) ==
               x.(wrote := Some(ok),
                  t := if ok then x.t.(posted := x.t.posted + [x.v.stage.task.arg + 1], out := x.t.out + 1)
                       else x.t.(failed := true))
  {
    hide Enabled;
  }

  lemma WriteOk(s: System, w: nat, ok: bool)
    requires SystemOk(s) && Can(s, Write(w, ok))
    ensures SystemOk(DoWrite(s, w, ok))
  {
    hide SystemOk, Inv, SendOk, RequestOk, Fates, SendViewOf, ViewOf, DoWrite, CallerOk, PollerOk, WritesOk, Apart,
         Enabled;
    SystemFacts(s);
    SystemRest(s);
    TurnIsRegistered(s, w);
    var r := s.pool.workers[w].pc.task.req;
    SendFacts(s, r);
    WriteShape(s, w, ok);
    WriteSendView(s, w, ok);
    WriteKeeps(r, SendViewOf(s, r), ok);
    Assemble(s, DoWrite(s, w, ok), r);
  }

  lemma MarkShape(s: System, w: nat)
    requires Can(s, Mark(w)) && CallerOk(s) && PollerOk(s) && WritesOk(s)
    requires var r := s.pool.workers[w].pc.task.req; Owns(s.pool, r, w) && Registered(s, r)
    requires TurnStep(s.pool, ApplyRun(s.pool, w), w)
    ensures var s' := DoMark(s, w);
            && s'.pool == ApplyRun(s.pool, w) && CallerOk(s') && PollerOk(s') && WritesOk(s')
            && Registered(s', s.pool.workers[w].pc.task.req)
  {
    hide ApplyRun, Mine, MutexFree;
    var s', r := DoMark(s, w), s.pool.workers[w].pc.task.req;
    assert s' == s.(pool := ApplyRun(s.pool, w), wrote := s.wrote[w := None], sends := s.sends[r := s'.sends[r]],
                    strayAccess := s'.strayAccess);
    assert s'.sends[r].registered && s'.sends[r].n == s.sends[r].n;
    hide DoMark, Enabled;
    MarkKeepsCaller(s, s', w);
    hide CallerOk;
    MarkKeepsPoller(s, s', w);
    hide PollerOk;
  }

  lemma MarkKeepsCaller(s: System, s': System, w: nat)
    requires TurnStep(s.pool, s'.pool, w) && CallerOk(s) && s'.caller == s.caller
    requires var r := s.pool.workers[w].pc.task.req;
             && Registered(s, r) && Registered(s', r) && s'.sends == s.sends[r := s'.sends[r]]
             && s'.sends[r].n == s.sends[r].n
    ensures CallerOk(s')
  {
  }

  lemma MarkKeepsPoller(s: System, s': System, w: nat)
    requires TurnStep(s.pool, s'.pool, w) && PollerOk(s) && s'.poller == s.poller
    requires var r := s.pool.workers[w].pc.task.req;
             && Registered(s, r) && Registered(s', r) && s'.sends == s.sends[r := s'.sends[r]]
    ensures PollerOk(s')
  {
    hide Mine;
  }

  lemma MarkApart(s: System, w: nat)
    requires Can(s, Mark(w)) && Owns(s.pool, s.pool.workers[w].pc.task.req, w)
    requires TurnStep(s.pool, ApplyRun(s.pool, w), w)
    ensures Apart(s, DoMark(s, w), s.pool.workers[w].pc.task.req)
  {
    hide SameBut, ApplyRun, Mine, MutexFree;
    TurnIsLocal(s.pool, ApplyRun(s.pool, w), w);
  }

  lemma MarkSendView(s: System, w: nat)
    requires Can(s, Mark(w)) && |s.wrote| == |s.pool.workers|
    requires var r := s.pool.workers[w].pc.task.req; Owns(s.pool, r, w) && r in s.sends
    ensures var s', r := DoMark(s, w), s.pool.workers[w].pc.task.req;
            var x := SendViewOf(s, r);
            && x.v.stage == s.pool.workers[w].pc && x.wrote.Some? && x.wrote == s.wrote[w]
            && s'.strayAccess == (s.strayAccess || x.t.waiter.Gone?)
            && r in s'.pool.jobs && s'.pool.jobs[r].worker < |s'.pool.workers| == |s'.wrote|
            && SendViewOf(s', r) ==
               x.(wrote := None, v := RunView(x.v),
                  t := x.t.(marks := x.t.marks + [x.wrote.value], sync := Marked(x.t.sync, x.wrote.value)))
  {
    hide Enabled, ApplyRun, TurnStep, RunView;
    RunStep(s.pool, w);
    RunKeepsCount(s.pool, w);
    assert DoMark(s, w).pool == ApplyRun(s.pool, w);
    RunViewIsNotPopped(ViewOf(s.pool, s.pool.workers[w].pc.task.req));
  }

  lemma RunKeepsCount(p: State, w: nat)
    requires PcAt(p, w).Popped?
    ensures |ApplyRun(p, w).workers| == |p.workers| && ApplyRun(p, w).destroyer == p.destroyer
  {
  }

  lemma RunViewIsNotPopped(v: View)
    requires v.stage.Popped?
    ensures !RunView(v).stage.Popped?
  {
  }

  lemma MarkOk(s: System, w: nat)
    requires SystemOk(s) && Can(s, Mark(w))
    ensures SystemOk(DoMark(s, w))
  {
    hide SystemOk, Inv, SendOk, RequestOk, Fates, SendViewOf, ViewOf, DoMark, CallerOk, PollerOk, WritesOk, Apart,
         ApplyRun, TurnStep, RunView;
    SystemFacts(s);
    SystemRest(s);
    TurnIsRegistered(s, w);
    var r := s.pool.workers[w].pc.task.req;
    SendFacts(s, r);
    RunStep(s.pool, w);
    RunKeepsCount(s.pool, w);
    MarkShape(s, w);
    MarkApart(s, w);
    MarkSendView(s, w);
    MarkKeeps(r, SendViewOf(s, r));
    RunTaskOk(s.pool, w);
    Assemble(s, DoMark(s, w), r);
  }

  lemma FirstShape(s: System, ok: bool)
    requires Can(s, First(ok)) && CallerOk(s) && PollerOk(s) && WritesOk(s)
    ensures var s', r := DoFirst(s, ok), s.caller.req;
            && Registered(s, r) && Apart(s, s', r) && CallerOk(s') && PollerOk(s') && WritesOk(s') && Registered(s', r)
            && s'.pool == s.pool && s'.strayAccess == s.strayAccess && s'.wrote == s.wrote
  {
    hide SameBut, Enabled;
    SamePool(s.pool, s.caller.req);
  }

  lemma FirstSendView(s: System, ok: bool)
    requires Can(s, First(ok)) && |s.wrote| == |s.pool.workers|
    requires var r := s.caller.req; r in s.pool.jobs && s.pool.jobs[r].worker < |s.pool.workers|
    ensures var s', r := DoFirst(s, ok), s.caller.req;
            var x := SendViewOf(s, r);
            && x.calling
            && SendViewOf(s', r) ==
               x.(calling := false,
                  t := if ok then x.t.(posted := x.t.posted + [0], out := x.t.out + 1)
                       else x.t.(failed := true, sync := Failed(x.t.sync)))
  {
    hide Enabled;
  }

  lemma FirstIsCounted(s: System)
    requires SystemOk(s) && s.caller.FirstPost?
    ensures Registered(s, s.caller.req) && s.caller.req in s.pool.jobs && s.pool.jobs[s.caller.req].counted
  {
    hide SendOk, Unused, Workers, Homes, Exclusive, DestroyerOk, Requests;
  }

  lemma FirstOk(s: System, ok: bool)
    requires SystemOk(s) && Can(s, First(ok))
    ensures SystemOk(DoFirst(s, ok))
  {
    hide SystemOk, Inv, RequestOk, Fates, SendViewOf, ViewOf, DoFirst, CallerOk, PollerOk, WritesOk, Apart, Enabled,
         SendOk;
    var r := s.caller.req;
    SystemFacts(s);
    SystemRest(s);
    FirstIsCounted(s);
    SendFacts(s, r);
    FirstShape(s, ok);
    FirstSendView(s, ok);
    CallingIsHealthy(r, SendViewOf(s, r));
    JobOfView(s.pool, r);
    FirstKeeps(r, SendViewOf(s, r), ok);
    Assemble(s, DoFirst(s, ok), r);
  }

  lemma CallingIsHealthy(r: Req, x: SendView)
    requires SendOk(r, x) && x.calling
    ensures !x.t.failed
  {
  }

  lemma JobOfView(p: State, r: Req)
    requires r in p.jobs && p.jobs[r].worker < |p.workers|
    ensures ViewOf(p, r).job == p.jobs[r]
  {
  }

  // ----- completions and wakes -----

  lemma OutIsRegistered(s: System, r: Req)
    requires SystemOk(s) && r in s.sends && s.sends[r].out > 0
    ensures Registered(s, r)
  {
    hide Inv, SendOk, Unused;
    assert !Dormant(s, r);
  }

  lemma DeliverShape(s: System, r: Req)
    requires Can(s, Deliver(r)) && CallerOk(s) && PollerOk(s) && WritesOk(s) && Registered(s, r)
    ensures var s' := Do(s, Deliver(r));
            && Apart(s, s', r) && CallerOk(s') && PollerOk(s') && WritesOk(s') && Registered(s', r)
            && s'.pool == s.pool && s'.strayAccess == s.strayAccess && s'.wrote == s.wrote
  {
    hide SameBut, Enabled;
    SamePool(s.pool, r);
  }

  lemma DeliverSendView(s: System, r: Req)
    requires Can(s, Deliver(r)) && r in s.pool.jobs && s.pool.jobs[r].worker < |s.pool.workers| == |s.wrote|
    ensures var x := SendViewOf(s, r);
            && !x.got && x.t.out > 0
            && SendViewOf(Do(s, Deliver(r)), r) == x.(got := true, t := x.t.(out := x.t.out - 1))
  {
    hide Enabled;
  }

  lemma DeliverOk(s: System, r: Req)
    requires SystemOk(s) && Can(s, Deliver(r))
    ensures SystemOk(Do(s, Deliver(r)))
  {
    OutIsRegistered(s, r);
    hide SystemOk, Inv, RequestOk, Fates, SendViewOf, ViewOf, CallerOk, PollerOk, WritesOk, Apart, Enabled, SendOk;
    SystemFacts(s);
    SystemRest(s);
    SendFacts(s, r);
    DeliverShape(s, r);
    DeliverSendView(s, r);
    DeliverKeeps(r, SendViewOf(s, r));
    Assemble(s, Do(s, Deliver(r)), r);
  }

  lemma ArriveShape(s: System, r: Req)
    requires s.poller.Polling? && r !in s.sends && CallerOk(s) && PollerOk(s) && WritesOk(s)
    ensures var s' := s.(poller := Got(r)); Apart(s, s', r) && CallerOk(s') && PollerOk(s') && WritesOk(s')
  {
    hide SameBut, Mine;
    SamePool(s.pool, r);
  }

  /** A completion of another request reaches the poller. */
  lemma ArriveOk(s: System, r: Req)
    requires s.poller.Polling? && r !in s.sends && SystemOk(s)
    ensures SystemOk(s.(poller := Got(r)))
  {
    hide SystemOk, Inv, CallerOk, PollerOk, WritesOk, Apart;
    SystemFacts(s);
    SystemRest(s);
    ArriveShape(s, r);
    AssembleForeign(s, s.(poller := Got(r)), r);
  }

  /** The view of a send whose completion is being handled. */
  lemma GotFacts(s: System)
    requires SystemOk(s) && s.poller.Got? && s.poller.req in s.sends
    ensures var r := s.poller.req;
            && Registered(s, r) && r in s.pool.jobs && s.pool.jobs[r].worker < |s.pool.workers| == |s.wrote|
            && RequestOk(r, ViewOf(s.pool, r)) && SendOk(r, SendViewOf(s, r)) && SendViewOf(s, r).got
            && SendViewOf(s, r).v == ViewOf(s.pool, r)
  {
    hide Inv, RequestOk, SendOk;
    SystemRest(s);
    SendFacts(s, s.poller.req);
  }

  /** Outside the gap of a cancel the slot the wake is for can be spared. */
  lemma LookedUpSpare(s: System)
    requires SystemOk(s) && s.poller.Got? && s.poller.req in s.pool.ctxs
    ensures var r := s.poller.req;
            var w := s.pool.ctxs[r].worker;
            && w < |s.pool.workers| && Owns(s.pool, r, w) && RequestOk(r, ViewOf(s.pool, r))
            && (r in s.pool.removed || SlotSpare(s, w, r))
  {
    hide SystemOk, Inv, RequestOk, Mine;
    SystemFacts(s);
    ContextFacts(s.pool, s.poller.req);
    if s.poller.req !in s.pool.removed {
      OutsideTheGap(s.pool, s.poller.req);
    }
  }

  lemma LookupHitShape(s: System)
    requires Can(s, Lookup) && CallerOk(s) && PollerOk(s) && WritesOk(s)
    requires var r := s.poller.req;
             && r in s.pool.ctxs && Owns(s.pool, r, s.pool.ctxs[r].worker) && s.pool.ctxs[r].worker < |s.pool.workers|
             && (r in s.pool.removed || SlotSpare(s, s.pool.ctxs[r].worker, r))
    ensures var s' := DoLookup(s);
            && s'.pool == ApplyWakeFind(s.pool, s.poller.req) && s'.sends == s.sends
            && CallerOk(s') && PollerOk(s') && WritesOk(s')
  {
    hide Mine, Enabled;
    var s', r := DoLookup(s), s.poller.req;
    assert s' == s.(pool := s'.pool, poller := s'.poller);
    assert s'.pool == s.pool.(wakes := s'.pool.wakes, jobs := s'.pool.jobs);
    LookupKeepsRest(s, s');
    hide CallerOk, WritesOk;
    assert multiset{} + multiset{(r, s.pool.ctxs[r].worker)} == multiset{(r, s.pool.ctxs[r].worker)};
  }

  lemma LookupKeepsRest(s: System, s': System)
    requires CallerOk(s) && WritesOk(s) && s' == s.(pool := s'.pool, poller := s'.poller)
    requires s'.pool == s.pool.(wakes := s'.pool.wakes, jobs := s'.pool.jobs)
    ensures CallerOk(s') && WritesOk(s')
  {
  }

  lemma LookupHitApart(s: System)
    requires Can(s, Lookup)
    requires var r := s.poller.req;
             r in s.pool.ctxs && Owns(s.pool, r, s.pool.ctxs[r].worker) && s.pool.ctxs[r].worker < |s.pool.workers|
    ensures Apart(s, DoLookup(s), s.poller.req)
  {
    hide SameBut, Mine, Enabled;
    WakeFindStep(s.pool, s.poller.req);
  }

  lemma LookupHitSendView(s: System)
    requires Can(s, Lookup) && |s.wrote| == |s.pool.workers|
    requires var r := s.poller.req;
             && r in s.sends && r in s.pool.ctxs && r in s.pool.jobs
             && s.pool.jobs[r].worker == s.pool.ctxs[r].worker < |s.pool.workers|
    ensures var s', r := DoLookup(s), s.poller.req;
            var x := SendViewOf(s, r);
            && r in s'.pool.jobs && s'.pool.jobs[r].worker < |s'.pool.workers| == |s'.wrote|
            && SendViewOf(s', r) ==
               x.(got := false,
                  v := x.v.(flights := x.v.flights + 1, job := x.v.job.(accepted := x.v.job.accepted + 1)))
  {
    hide SameBut, Enabled;
    WakeFindStep(s.pool, s.poller.req);
  }

  lemma LookupHitRest(s: System)
    requires Can(s, Lookup) && s.poller.req in s.pool.ctxs
    ensures var s' := DoLookup(s); s'.strayAccess == s.strayAccess && s'.pool.destroyer == s.pool.destroyer
  {
    hide Enabled;
  }

  lemma LookupHitOk(s: System)
    requires SystemOk(s) && Can(s, Lookup) && s.poller.req in s.pool.ctxs
    ensures SystemOk(DoLookup(s))
  {
    hide SystemOk, Inv, RequestOk, SendViewOf, ViewOf, CallerOk, PollerOk, WritesOk, Apart, Enabled, SendOk, DoLookup,
         ApplyWakeFind;
    SystemFacts(s);
    SystemRest(s);
    LookedUpSpare(s);
    LookupHitShape(s);
    LookupHitApart(s);
    LookupHitRest(s);
    WakeFindOk(s.pool, s.poller.req);
    if s.poller.req in s.sends {
      GotFacts(s);
      ContextFacts(s.pool, s.poller.req);
      LookupHitSendView(s);
      LookupHitKeeps(s.poller.req, SendViewOf(s, s.poller.req));
      Assemble(s, DoLookup(s), s.poller.req);
    } else {
      AssembleForeign(s, DoLookup(s), s.poller.req);
    }
  }

  lemma LookupMissShape(s: System)
    requires Can(s, Lookup) && CallerOk(s) && PollerOk(s) && WritesOk(s) && s.poller.req !in s.pool.ctxs
    ensures var s', r := DoLookup(s), s.poller.req;
            && s'.pool == s.pool && s'.wrote == s.wrote && s'.strayAccess == s.strayAccess && s'.sends == s.sends
            && Apart(s, s', r) && CallerOk(s') && PollerOk(s') && WritesOk(s')
  {
    hide SameBut, Mine, Enabled;
    SamePool(s.pool, s.poller.req);
  }

  lemma LookupMissSendView(s: System)
    requires Can(s, Lookup) && s.poller.req !in s.pool.ctxs
    requires var r := s.poller.req;
             r in s.sends && r in s.pool.jobs && s.pool.jobs[r].worker < |s.pool.workers| == |s.wrote|
    ensures var s', r := DoLookup(s), s.poller.req;
            SendViewOf(s', r) == SendViewOf(s, r).(got := false) && SendViewOf(s, r).v.ctx.None?
  {
    hide Enabled;
  }

  lemma LookupMissOk(s: System)
    requires SystemOk(s) && Can(s, Lookup) && s.poller.req !in s.pool.ctxs
    ensures SystemOk(DoLookup(s))
  {
    hide SystemOk, Inv, RequestOk, SendViewOf, ViewOf, CallerOk, PollerOk, WritesOk, Apart, Enabled, SendOk, DoLookup;
    SystemFacts(s);
    SystemRest(s);
    LookupMissShape(s);
    if s.poller.req in s.sends {
      GotFacts(s);
      LookupMissSendView(s);
      LookupMissKeeps(s.poller.req, SendViewOf(s, s.poller.req));
      Assemble(s, DoLookup(s), s.poller.req);
    } else {
      AssembleForeign(s, DoLookup(s), s.poller.req);
    }
  }

  /** The pool's part of a held wake, into an empty slot. */
  lemma SetShape(s: System)
    requires Can(s, Set) && CallerOk(s) && PollerOk(s) && WritesOk(s) && s.pool.workers[s.poller.w].pending == 0
    ensures var s', r, w := Do(s, Set), s.poller.req, s.poller.w;
            && s' == s.(pool := ApplyWakeSet(s.pool, r, w), poller := Polling)
            && Apart(s, s', r) && CallerOk(s') && PollerOk(s') && WritesOk(s')
            && s'.pool.destroyer == s.pool.destroyer && |s'.pool.workers| == |s.pool.workers|
  {
    hide SameBut, Mine;
    WakeSetLocal(s.pool, s.poller.req, s.poller.w);
  }

  lemma SetSendView(s: System)
    requires Can(s, Set) && |s.wrote| == |s.pool.workers| && s.pool.workers[s.poller.w].pending == 0
    requires s.poller.req in s.sends && Owns(s.pool, s.poller.req, s.poller.w)
    ensures var r, w := s.poller.req, s.poller.w;
            var s' := s.(pool := ApplyWakeSet(s.pool, r, w), poller := Polling);
            var x := SendViewOf(s, r);
            && r in s'.pool.jobs && s'.pool.jobs[r].worker < |s'.pool.workers| == |s'.wrote|
            && x.v.flights > 0 && !x.v.slot
            && SendViewOf(s', r) == x.(v := x.v.(flights := x.v.flights - 1, slot := r != 0))
  {
    hide SameBut;
    WakeSetStep(s.pool, s.poller.req, s.poller.w);
  }

  lemma SendIdNotZero(r: Req, x: SendView)
    requires SendOk(r, x)
    ensures r != 0
  {
  }

  lemma HoldingFacts(s: System, r: Req, w: nat, gap: bool)
    requires s.poller == Holding(r, w, gap) && Can(s, Set) && SystemOk(s)
    ensures Unlocked(s.pool, w) && (r, w) in s.pool.wakes && (r in s.sends ==> Registered(s, r) && Owns(s.pool, r, w))
  {
    hide SystemOk, Inv, CallerOk, WritesOk, Owns, Mine;
    SystemRest(s);
  }

  lemma SetEmptyOk(s: System)
    requires s.poller.Holding? && Can(s, Set) && s.pool.workers[s.poller.w].pending == 0 && SystemOk(s)
    ensures SystemOk(Do(s, Set))
  {
    hide SystemOk, Inv, RequestOk, SendViewOf, ViewOf, CallerOk, PollerOk, WritesOk, Apart, SendOk, Do, ApplyWakeSet,
         Mine;
    var r, w := s.poller.req, s.poller.w;
    SystemFacts(s);
    SystemRest(s);
    HoldingFacts(s, r, w, s.poller.gap);
    SetShape(s);
    WakeIntoEmptySlotOk(s.pool, r, w);
    if r in s.sends {
      SendFacts(s, r);
      SetSendView(s);
      SendIdNotZero(r, SendViewOf(s, r));
      SetKeeps(r, SendViewOf(s, r));
      Assemble(s, Do(s, Set), r);
    } else {
      AssembleForeign(s, Do(s, Set), r);
    }
  }

  /** A held wake for a send finds its own slot empty: there is only one token. */
  lemma OwnSlotIsFree(s: System, r: Req, w: nat)
    requires SystemOk(s) && Registered(s, r) && Owns(s.pool, r, w) && (r, w) in s.pool.wakes && w < |s.pool.workers|
    ensures s.pool.workers[w].pending != r
  {
    hide SystemOk, Inv, RequestOk, Fates;
    SendFacts(s, r);
    SendIdNotZero(r, SendViewOf(s, r));
    OneFlight(s.pool, r, w);
  }

  lemma OneFlight(p: State, r: Req, w: nat)
    requires Owns(p, r, w) && (r, w) in p.wakes && w < |p.workers|
    ensures ViewOf(p, r).flights >= 1 && (ViewOf(p, r).slot <==> r != 0 && p.workers[w].pending == r)
  {
  }

  /** The system once the slot the held wake is for has been emptied. */
  function SlotEmptied(s: System): System
    requires s.poller.Holding? && s.poller.w < |s.pool.workers|
  {
    var w := s.poller.w;
    var t := s.(pool := SetWorker(s.pool, w, s.pool.workers[w].(pending := 0)));
    if Robs(s) then Put(t, s.pool.workers[w].pending, s.sends[s.pool.workers[w].pending].(robbed := true)) else t
  }

  lemma SlotEmptiedOk(s: System)
    requires s.poller.Holding? && Can(s, Set) && s.pool.workers[s.poller.w].pending != 0 && SystemOk(s)
    ensures SystemOk(SlotEmptied(s))
  {
    hide SystemOk, Inv, Mine, Registered, Owns;
    var r, w := s.poller.req, s.poller.w;
    HoldingFacts(s, r, w, s.poller.gap);
    if r in s.sends {
      OwnSlotIsFree(s, r, w);
    }
    if Robs(s) {
      RobOk(s, w);
    } else {
      SendClearSlotOk(s, w);
    }
  }

  lemma SetInTwo(s: System)
    requires s.poller.Holding? && Can(s, Set) && s.pool.workers[s.poller.w].pending != 0
    ensures var t := SlotEmptied(s);
            t.poller == s.poller && Can(t, Set) && t.pool.workers[s.poller.w].pending == 0 && Do(t, Set) == Do(s, Set)
  {
    hide Mine;
    var w, t := s.poller.w, SlotEmptied(s);
    assert t.pool == SetWorker(s.pool, w, s.pool.workers[w].(pending := 0)) && t.poller == s.poller && !Robs(t);
    assert Apply(t.pool, WakeSet(s.poller.req, w)) == Apply(s.pool, WakeSet(s.poller.req, w));
    hide Apply, Enabled;
  }

  lemma SetOk(s: System)
    requires s.poller.Holding? && Can(s, Set) && SystemOk(s)
    ensures SystemOk(Do(s, Set))
  {
    assert s.poller.w < |s.pool.workers|;
    hide SystemOk, Do, Can, SlotEmptied;
    if s.pool.workers[s.poller.w].pending == 0 {
      SetEmptyOk(s);
    } else {
      SlotEmptiedOk(s);
      SetInTwo(s);
      SetEmptyOk(SlotEmptied(s));
    }
  }

  // ----- the send call -----

  /** Steps of the call before any task is attached: the request stays dormant. */
  lemma AssembleDormant(s: System, s': System, r: Req)
    requires SystemOk(s) && Inv(s'.pool) && s'.pool.destroyer.Running? && !s'.strayAccess
    requires Apart(s, s', r) && CallerOk(s') && PollerOk(s') && WritesOk(s')
    requires r in s'.sends && !s'.sends[r].registered && Dormant(s', r)
    ensures SystemOk(s')
  {
    hide Inv, SendOk, Transfers, CallerOk, PollerOk, WritesOk, Apart, SendViewOf, Dormant;
    SendFrame(s, s', r);
  }

  /** Only the submitter and the id counter of the pool move. */
  lemma SubmitterMoveLocal(p: State, p': State, r: Req)
    requires p' == p.(sub := p'.sub, nextId := p'.nextId, scrapped := p'.scrapped)
    ensures SameBut(p, p', r) && (Unused(p, r) ==> Unused(p', r)) && (Traceless(p, r) ==> Traceless(p', r))
    ensures r in p.jobs && p.jobs[r].worker < |p.workers| ==> ViewOf(p', r) == ViewOf(p, r)
  {
  }

  lemma CallShape(s: System, r: Req, n: nat)
    requires Can(s, Call(r, n)) && CallerOk(s) && PollerOk(s) && WritesOk(s) && Unused(s.pool, r)
    ensures var s' := DoCall(s, r, n);
            && Apart(s, s', r) && CallerOk(s') && PollerOk(s') && WritesOk(s') && Dormant(s', r)
            && s'.pool == s.pool.(sub := s'.pool.sub) && s'.strayAccess == s.strayAccess && !s'.sends[r].registered
  {
    hide SameBut, Mine, Unused;
    SubmitterMoveLocal(s.pool, Apply(s.pool, Submit(r, n - 1, false)), r);
    PollerNotOn(s, r);
  }

  lemma PollerNotOn(s: System, r: Req)
    requires PollerOk(s) && Traceless(s.pool, r)
    ensures s.poller.Holding? ==> s.poller.req != r && s.pool.workers[s.poller.w].pending != r
  {
    if s.poller.Holding? {
      assert (s.poller.req, s.poller.w) in s.pool.wakes;
    }
  }

  lemma CallOk(s: System, r: Req, n: nat)
    requires SystemOk(s) && Can(s, Call(r, n))
    ensures SystemOk(DoCall(s, r, n))
  {
    hide SystemOk, Inv, CallerOk, PollerOk, WritesOk, Apart, DoCall, Dormant, Unused, AllCounted;
    SystemFacts(s);
    SystemRest(s);
    IdleSubmitter(s.pool);
    FreeIsUnused(s.pool, r);
    CallShape(s, r, n);
    SubmitOk(s.pool, r, n - 1, false);
    DoCallPool(s, r, n);
    AssembleDormant(s, DoCall(s, r, n), r);
  }

  lemma DoCallPool(s: System, r: Req, n: nat)
    requires Can(s, Call(r, n))
    ensures DoCall(s, r, n).pool == Apply(s.pool, Submit(r, n - 1, false)) && r in DoCall(s, r, n).sends
    ensures s.pool.sub.NoSubmit? && r !in s.pool.ctxs
  {
  }

  lemma IdleSubmitter(p: State)
    requires Inv(p)
    ensures p.sub.NoSubmit? ==> AllCounted(p)
  {
    hide Workers, Homes, Exclusive, DestroyerOk, Requests, Archive;
  }

  lemma EarlySub(p: State, b: Action)
    requires Enabled(p, b) && (b.ScanNext? || b.BuildNext? || b.BuildFail?)
    requires p.sub.Scan? ==> p.sub.best == NO_WORKER
    ensures var p' := Apply(p, b);
            && p' == p.(sub := p'.sub, nextId := p'.nextId, scrapped := p'.scrapped) && (p.sub.Scan? || p.sub.Build?)
            && (p'.sub.NoSubmit?
                || ((p'.sub.Scan? || p'.sub.Build?)
                    && p'.sub.req == p.sub.req && p'.sub.n == p.sub.n && p'.sub.cb == p.sub.cb))
  {
    hide Takes, Weigh, MutexFree, InTurn, LoadOf, FreeAll;
  }

  /** Scanning and building: nothing is attached yet. */
  lemma EarlyShape(s: System, b: Action)
    requires Can(s, Register(b)) && (b.ScanNext? || b.BuildNext? || b.BuildFail?)
    requires CallerOk(s) && PollerOk(s) && WritesOk(s)
    requires s.pool.sub.Scan? ==> s.pool.sub.best == NO_WORKER
    ensures var s', r := DoRegister(s, b), s.caller.req;
            && r in s.sends && !s.sends[r].registered
            && s'.pool == s.pool.(sub := s'.pool.sub, nextId := s'.pool.nextId, scrapped := s'.pool.scrapped)
            && s'.strayAccess == s.strayAccess
            && Apart(s, s', r) && CallerOk(s') && PollerOk(s') && WritesOk(s')
            && r in s'.sends && !s'.sends[r].registered
            && (s'.sends[r].waiter == Waiter.Gone(false) || (s'.sends[r].waiter.Away? && s'.caller == Registering(r)))
            && s'.sends[r].out == 0 && s'.sends[r].posted == [] && !s'.sends[r].failed && s'.sends[r].n >= 2
            && s'.poller == s.poller
  {
    hide SameBut, Mine, Unused, Enabled, Apply;
    EarlySub(s.pool, b);
    SubmitterMoveLocal(s.pool, Apply(s.pool, b), s.caller.req);
    EarlyRest(s, DoRegister(s, b), s.caller.req);
    hide WritesOk, PollerOk;
  }

  lemma EarlyRest(s: System, s': System, r: Req)
    requires WritesOk(s) && PollerOk(s) && s'.wrote == s.wrote && s'.poller == s.poller
    requires s'.pool == s.pool.(sub := s'.pool.sub, nextId := s'.pool.nextId, scrapped := s'.pool.scrapped)
    requires r in s.sends && r in s'.sends && s'.sends[r].registered == s.sends[r].registered
    requires s'.sends == s.sends[r := s'.sends[r]]
    ensures WritesOk(s') && PollerOk(s')
  {
    hide Mine;
  }

  lemma EarlyFacts(s: System)
    requires SystemOk(s) && s.caller.Registering? && (s.pool.sub.Scan? || s.pool.sub.Build?)
    ensures Unused(s.pool, s.caller.req) && Traceless(s.pool, s.caller.req) && s.caller.req != 0
    ensures s.poller != Got(s.caller.req) && !Closed(s.pool)
    ensures s.pool.sub.Scan? ==> s.pool.sub.best == NO_WORKER
  {
    hide Workers, Homes, Exclusive, DestroyerOk, Requests, SendOk, Unused, Archive, Traceless;
    assert !s.sends[s.caller.req].registered;
    assert Dormant(s, s.caller.req);
  }

  lemma EarlyOk(s: System, b: Action)
    requires SystemOk(s) && Can(s, Register(b)) && (b.ScanNext? || b.BuildNext? || b.BuildFail?)
    ensures SystemOk(DoRegister(s, b))
  {
    var s', r := DoRegister(s, b), s.caller.req;
    assert s'.pool == Apply(s.pool, b);
    hide SystemOk, Inv, CallerOk, PollerOk, WritesOk, Apart, DoRegister, Unused, SameBut, Apply, Traceless;
    SystemFacts(s);
    SystemRest(s);
    EarlyFacts(s);
    EarlyShape(s, b);
    SubmitterMoveLocal(s.pool, s'.pool, r);
    StepOk(s.pool, b);
    AssembleDormant(s, s', r);
  }

  lemma AttachShape(s: System)
    requires Can(s, Register(Attach)) && CallerOk(s) && PollerOk(s) && WritesOk(s)
    requires Traceless(s.pool, s.caller.req) && !InTurn(s.pool.workers[s.pool.sub.worker].pc)
    requires SameBut(s.pool, ApplyAttach(s.pool), s.caller.req)
    requires forall t :: t in s.pool.sub.made ==> t.req == s.caller.req
    requires s.pool.workers[s.pool.sub.worker].queue == []
    ensures var s', r := DoRegister(s, Attach), s.caller.req;
            && s'.pool == ApplyAttach(s.pool) && s'.strayAccess == s.strayAccess
            && |s'.wrote| == |s'.pool.workers| && s'.pool.destroyer == s.pool.destroyer
            && Apart(s, s', r) && CallerOk(s') && PollerOk(s') && WritesOk(s') && Registered(s', r)
  {
    hide SameBut, Mine, Clear, Retired, Traceless;
    var r, w, made := s.caller.req, s.pool.sub.worker, s.pool.sub.made;
    PollerNotOn(s, r);
    assert [] + made == made;
    if s.poller.Holding? && s.poller.w == w {
      MineOfUniform(made, r, s.pool.workers[w].pending);
    }
  }

  lemma AttachSendView(s: System)
    requires Can(s, Register(Attach)) && |s.wrote| == |s.pool.workers| && CallerOk(s) && s.poller != Got(s.caller.req)
    requires Unused(s.pool, s.caller.req) && Traceless(s.pool, s.caller.req)
    requires s.pool.workers[s.pool.sub.worker].queue == [] && !Closed(s.pool)
    requires forall t :: t in s.pool.sub.made ==> t.req == s.pool.sub.req
    requires !s.sends[s.caller.req].registered && !s.pool.sub.cb
    ensures var s', r := DoRegister(s, Attach), s.caller.req;
            && r in s'.sends && r in s'.pool.jobs && s'.pool.jobs[r].worker < |s'.pool.workers| == |s'.wrote|
            && SendViewOf(s', r) ==
               SendView(Transfer(s.sends[r].n, true, [], 0, false, false, [], TaskSync.Fresh(s.sends[r].n - 1), Away),
                        FreshView(s.pool.sub.worker, false, s.pool.sub.made, false, 0,
                                  Deaf(s.pool, r, s.pool.sub.worker)),
                        None, true, false)
  {
    hide SameBut, Mine, Unused, Retired, Clear, Deaf;
    AttachStep(s.pool);
  }

  lemma WritesLength(s: System)
    requires WritesOk(s)
    ensures |s.wrote| == |s.pool.workers|
  {
  }

  lemma BuildOwner(s: System)
    requires SystemOk(s) && s.pool.sub.Build? && s.caller.Registering?
    ensures SubmitterOk(s.pool) && s.pool.sub.req == s.caller.req && s.caller.req in s.sends && !s.pool.sub.cb
            && !s.sends[s.caller.req].registered
    ensures s.pool.sub.n == s.sends[s.caller.req].n - 1 && s.sends[s.caller.req].n >= 2
    ensures forall t :: t in s.pool.sub.made ==> t.req == s.pool.sub.req
    ensures s.pool.workers[s.pool.sub.worker].queue == [] && !InTurn(s.pool.workers[s.pool.sub.worker].pc)
  {
    hide Workers, Homes, Exclusive, DestroyerOk, Requests, Transfers, Archive;
  }

  lemma AttachSendOk(s: System)
    requires SystemOk(s) && Can(s, Register(Attach))
    ensures SystemOk(DoRegister(s, Attach))
  {
    hide SystemOk, Inv, CallerOk, PollerOk, WritesOk, Apart, DoRegister, Unused, SameBut, SendOk, SendViewOf,
         FreshView, ApplyAttach, SubmitterOk, Traceless, Clear, Deaf;
    var r := s.caller.req;
    SystemFacts(s);
    SystemRest(s);
    EarlyFacts(s);
    BuildOwner(s);
    AttachStep(s.pool);
    AttachShape(s);
    WritesLength(s);
    AttachSendView(s);
    FreshSendOk(r, s.pool.sub.worker, s.sends[r].n, s.pool.sub.made, Deaf(s.pool, r, s.pool.sub.worker));
    AttachOk(s.pool);
    Assemble(s, DoRegister(s, Attach), r);
  }

  lemma LookupCtxShape(s: System)
    requires Can(s, Register(LookupCtx)) && CallerOk(s) && PollerOk(s) && WritesOk(s)
    ensures var s', r := DoRegister(s, LookupCtx), s.caller.req;
            && Registered(s, r) && s' == s.(pool := s'.pool) && s'.pool == s.pool.(sub := s'.pool.sub)
            && s'.pool == Apply(s.pool, LookupCtx)
            && Apart(s, s', r) && CallerOk(s') && PollerOk(s') && WritesOk(s')
  {
    hide SameBut, Mine;
    SubmitterMoveLocal(s.pool, Apply(s.pool, LookupCtx), s.caller.req);
  }

  lemma SamePoolView(s: System, s': System, r: Req)
    requires r in s.sends && r in s.pool.jobs && s.pool.jobs[r].worker < |s.pool.workers| == |s.wrote|
    requires s' == s.(pool := s'.pool) && s'.pool == s.pool.(sub := s'.pool.sub)
    ensures SendViewOf(s', r) == SendViewOf(s, r)
  {
    SubmitterMoveLocal(s.pool, s'.pool, r);
    hide ViewOf;
  }

  lemma LookupCtxOk(s: System)
    requires SystemOk(s) && Can(s, Register(LookupCtx))
    ensures SystemOk(DoRegister(s, LookupCtx))
  {
    hide SystemOk, Inv, CallerOk, PollerOk, WritesOk, Apart, DoRegister, SendOk, SendViewOf, Apply, RequestOk, Fates;
    var s', r := DoRegister(s, LookupCtx), s.caller.req;
    SystemFacts(s);
    SystemRest(s);
    LookupCtxShape(s);
    SendFacts(s, r);
    SamePoolView(s, s', r);
    LookupOk(s.pool);
    Assemble(s, s', r);
  }

  lemma CountCtxShape(s: System)
    requires Can(s, Register(CountCtx)) && CallerOk(s) && PollerOk(s) && WritesOk(s)
    requires SameBut(s.pool, ApplyCount(s.pool), s.caller.req) && ApplyCount(s.pool).workers == s.pool.workers
    requires forall q :: q in s.pool.jobs ==>
               q in ApplyCount(s.pool).jobs && ApplyCount(s.pool).jobs[q].worker == s.pool.jobs[q].worker
    requires ApplyCount(s.pool)
             == s.pool.(sub := NoSubmit, ctxs := ApplyCount(s.pool).ctxs, jobs := ApplyCount(s.pool).jobs)
    ensures var s', r := DoRegister(s, CountCtx), s.caller.req;
            && r == s.pool.sub.req && Registered(s, r) && Registered(s', r)
            && s' == s.(pool := ApplyCount(s.pool), caller := FirstPost(r))
            && Apart(s, s', r) && CallerOk(s') && PollerOk(s') && WritesOk(s')
  {
    hide SameBut, Mine, ApplyCount;
  }

  lemma CountShape(p: State)
    requires p.sub.Resolved? && !p.sub.live
    ensures ApplyCount(p) == p.(sub := NoSubmit, ctxs := ApplyCount(p).ctxs, jobs := ApplyCount(p).jobs)
    ensures forall q :: q in p.jobs ==> q in ApplyCount(p).jobs && ApplyCount(p).jobs[q].worker == p.jobs[q].worker
  {
  }

  lemma CountSendView(s: System, p': State, r: Req)
    requires r in s.sends && r in s.pool.jobs && s.pool.jobs[r].worker < |s.pool.workers| == |s.wrote|
    requires s.caller == Registering(r) && r in p'.jobs && p'.jobs[r].worker == s.pool.jobs[r].worker
    requires |p'.workers| == |s.pool.workers| && ViewOf(p', r).stage == ViewOf(s.pool, r).stage
    ensures SendViewOf(s.(pool := p', caller := FirstPost(r)), r) == SendViewOf(s, r).(v := ViewOf(p', r))
    ensures SendViewOf(s, r).calling && SendViewOf(s, r).v == ViewOf(s.pool, r)
  {
  }

  /** The pending batch is the one the caller registers. */
  lemma PendingFacts(p: State)
    requires Inv(p) && p.sub.Resolved?
    ensures !p.sub.live && Owns(p, p.sub.req, p.sub.worker) && p.sub.worker < |p.workers| && p.sub.req !in p.ctxs
    ensures |p.jobs[p.sub.req].tasks| == p.sub.n && p.jobs[p.sub.req].cb == p.sub.cb
  {
    AttachedFacts(p);
  }

  lemma CountCtxSendOk(s: System)
    requires SystemOk(s) && Can(s, Register(CountCtx))
    ensures SystemOk(DoRegister(s, CountCtx))
  {
    hide SystemOk, Inv, CallerOk, PollerOk, WritesOk, Apart, DoRegister, SendOk, SendViewOf, ViewOf, RequestOk, Fates,
         ApplyCount, SameBut;
    var s', r, p' := DoRegister(s, CountCtx), s.caller.req, ApplyCount(s.pool);
    SystemFacts(s);
    SystemRest(s);
    PendingFacts(s.pool);
    CountCtxStep(s.pool);
    CountShape(s.pool);
    CallerIsSubmitter(s);
    CountCtxShape(s);
    SendFacts(s, r);
    CountSendView(s, p', r);
    CountKeepsSend(r, SendViewOf(s, r));
    CountCtxOk(s.pool);
    Assemble(s, s', r);
  }

  lemma CallerIsSubmitter(s: System)
    requires CallerOk(s) && s.caller.Registering?
    ensures s.caller.req == s.pool.sub.req
  {
  }

  // ----- the fail-then-cancel path -----

  /** A shrinking step of the pool that leaves the position of the worker alone. */
  lemma QuietStepOk(s: System, p': State, r: Req, t: Transfer)
    requires SystemOk(s) && Registered(s, r) && t.registered && t.n == s.sends[r].n
    requires Inv(p') && p'.destroyer.Running? && Shrinks(s, p') && SameBut(s.pool, p', r)
    requires r in s.pool.jobs && s.pool.jobs[r].worker < |s.pool.workers| == |s.wrote|
    requires Owns(p', r, s.pool.jobs[r].worker) && |p'.workers| == |s.pool.workers|
    requires ViewOf(p', r).stage == ViewOf(s.pool, r).stage
    requires SendOk(r, SendViewOf(s, r).(t := t, v := ViewOf(p', r)))
    ensures SystemOk(Put(s.(pool := p'), r, t))
  {
    hide SystemOk, Inv, Shrinks, SameBut, SendOk;
    ViewChange(s, p', r, t);
    hide SendViewOf, ViewOf;
    ShrinkOk(s, p', r, t);
  }

  lemma CancelFindShrinks(s: System, r: Req)
    ensures Shrinks(s, ApplyCancelFind(s.pool, r)) && ApplyCancelFind(s.pool, r).destroyer == s.pool.destroyer
    ensures |ApplyCancelFind(s.pool, r).workers| == |s.pool.workers|
  {
  }

  lemma CancelLookupOk(s: System, r: Req)
    requires SystemOk(s) && Can(s, CancelLookup(r)) && Registered(s, r)
    ensures SystemOk(DoCancelLookup(s, r))
  {
    hide SystemOk, Inv, SendOk, SendViewOf, ViewOf, RequestOk, Fates, Shrinks, SameBut, ApplyCancelFind;
    SystemFacts(s);
    SendFacts(s, r);
    CancelLookupKeeps(r, SendViewOf(s, r));
    if r in s.pool.ctxs {
      ContextFacts(s.pool, r);
      CancelFindStep(s.pool, r);
      CancelFindShrinks(s, r);
      CancelFindOk(s.pool, r);
      CtxOfView(s.pool, r);
      QuietStepOk(s, ApplyCancelFind(s.pool, r), r, s.sends[r].(waiter := Found(s.pool.ctxs[r].worker)));
    } else {
      CtxOfView(s.pool, r);
      CancelFindMiss(s.pool, r);
      LocalStepOk(s, r, s.sends[r].(waiter := Ready(false)));
    }
  }

  lemma CtxOfView(p: State, r: Req)
    requires r in p.jobs && p.jobs[r].worker < |p.workers|
    ensures ViewOf(p, r).ctx == if r in p.ctxs then Some(p.ctxs[r]) else None
    ensures ViewOf(p, r).closed == Closed(p) && (ViewOf(p, r).destroyed ==> Closed(p))
  {
  }

  lemma CancelFindMiss(p: State, r: Req)
    requires r !in p.ctxs
    ensures ApplyCancelFind(p, r) == p
  {
  }

  lemma CancelQueueShrinks(s: System, r: Req, w: nat)
    requires w < |s.pool.workers|
    ensures var p' := ApplyCancelQueue(s.pool, r, w);
            Shrinks(s, p') && p'.destroyer == s.pool.destroyer && |p'.workers| == |s.pool.workers|
  {
    hide Mine, Others, ApplyCancelQueue;
    CancelQueueWorkers(s.pool, r, w);
    CancelQueueFacts(s.pool.workers[w].queue, r);
  }

  lemma FoundFacts(s: System, r: Req)
    requires SystemOk(s) && Registered(s, r) && s.sends[r].waiter.Found? && Can(s, CancelUnlink(r))
    ensures (r, s.sends[r].waiter.w) in s.pool.cancels && Unlocked(s.pool, s.sends[r].waiter.w)
  {
    hide SystemOk;
  }

  lemma FoundIsHome(s: System, r: Req, w: nat)
    requires Unlocked(s.pool, w) && r in s.pool.jobs && s.pool.jobs[r].worker < |s.pool.workers| == |s.wrote|
    requires r in s.sends && SendOk(r, SendViewOf(s, r)) && s.sends[r].waiter == Found(w)
    ensures Owns(s.pool, r, w) && w < |s.pool.workers|
  {
    hide Fates, SyncOk, Healthy, Broken;
  }

  lemma CancelUnlinkMissOk(s: System, r: Req, w: nat)
    requires s.pool.cancels[(r, w)] > 0 && Unlocked(s.pool, w) && SystemOk(s) && Registered(s, r)
    requires s.sends[r].waiter == Found(w) && Mine(s.pool.workers[w].queue, r) == []
    ensures SystemOk(Put(s.(pool := ApplyCancelQueue(s.pool, r, w)), r, s.sends[r].(waiter := Ready(false))))
  {
    hide SystemOk, Inv, SendOk, SendViewOf, ViewOf, RequestOk, Fates, Shrinks, SameBut, ApplyCancelQueue, CancelView,
         Mine, Unlocked;
    SystemFacts(s);
    SendFacts(s, r);
    FoundIsHome(s, r, w);
    CancelFacts(s.pool, r, w);
    CancelUnlinkKeeps(r, SendViewOf(s, r));
    CancelQueueShrinks(s, r, w);
    CancelQueueOk(s.pool, r, w);
    CancelMissShape(s.pool, r, w);
    CancelMissLocal(s.pool, ApplyCancelQueue(s.pool, r, w), r, w);
    CancelMissView(s.pool, ApplyCancelQueue(s.pool, r, w), r, w);
    QuietStepOk(s, ApplyCancelQueue(s.pool, r, w), r, s.sends[r].(waiter := Ready(false)));
  }

  lemma CancelUnlinkHitOk(s: System, r: Req, w: nat)
    requires s.pool.cancels[(r, w)] > 0 && Unlocked(s.pool, w) && SystemOk(s) && Registered(s, r)
    requires s.sends[r].waiter == Found(w) && Mine(s.pool.workers[w].queue, r) != []
    ensures SystemOk(Put(s.(pool := ApplyCancelQueue(s.pool, r, w)), r, s.sends[r].(waiter := Unsubtracted)))
  {
    hide SystemOk, Inv, SendOk, SendViewOf, ViewOf, RequestOk, Fates, Shrinks, SameBut, ApplyCancelQueue, CancelView,
         Mine, Unlocked;
    SystemFacts(s);
    SendFacts(s, r);
    FoundIsHome(s, r, w);
    CancelFacts(s.pool, r, w);
    CancelUnlinkKeeps(r, SendViewOf(s, r));
    CancelQueueShrinks(s, r, w);
    CancelQueueOk(s.pool, r, w);
    CancelQueueLocal(s.pool, r, w);
    CancelQueueStep(s.pool, r, w);
    CancelViewStage(ViewOf(s.pool, r));
    QuietStepOk(s, ApplyCancelQueue(s.pool, r, w), r, s.sends[r].(waiter := Unsubtracted));
  }

  lemma CancelUnlinkOk(s: System, r: Req)
    requires SystemOk(s) && Can(s, CancelUnlink(r)) && Registered(s, r)
    ensures SystemOk(DoCancelUnlink(s, r))
  {
    hide SystemOk, ApplyCancelQueue, Mine;
    var w := s.sends[r].waiter.w;
    FoundFacts(s, r);
    if Mine(s.pool.workers[w].queue, r) == [] {
      CancelUnlinkMissOk(s, r, w);
    } else {
      CancelUnlinkHitOk(s, r, w);
    }
  }

  lemma CancelViewStage(v: View)
    requires v.cancelling > 0
    ensures CancelView(v).stage == v.stage
  {
  }

  lemma CancelSubtractOk(s: System, r: Req)
    requires SystemOk(s) && Can(s, CancelSubtract(r)) && Registered(s, r)
    ensures SystemOk(Do(s, CancelSubtract(r)))
  {
    hide SystemOk, Inv, SendOk, SendViewOf, ViewOf, RequestOk, Fates, Shrinks, SameBut, ApplyCancelCount;
    var p' := ApplyCancelCount(s.pool, r);
    SystemFacts(s);
    SendFacts(s, r);
    CancelCountFacts(s.pool, r);
    CtxOfView(s.pool, r);
    CancelCountKeeps(r, ViewOf(s.pool, r));
    CancelCountStep(s.pool, r);
    CancelCountOk(s.pool, r);
    SubtractShrinks(s, p', r);
    CancelSubtractKeeps(r, SendViewOf(s, r));
    QuietStepOk(s, p', r, s.sends[r].(waiter := Ready(false)));
  }

  lemma SubtractShrinks(s: System, p': State, r: Req)
    requires p' == s.pool.(ctxs := s.pool.ctxs - {r}, removed := s.pool.removed - {r})
    ensures Shrinks(s, p')
  {
  }

  // ----- other requests -----

  /** Positions and slots stay, and what a queue gains is of the foreign request. */
  ghost predicate SlotsKept(x: Worker, x': Worker, r: Req) {
    x'.pc == x.pc && x'.pending == x.pending && forall q :: q != r ==> Mine(x'.queue, q) == Mine(x.queue, q)
  }

  /** A step of the submitter for `r`, as the sends see it. */
  ghost predicate SubmitterStep(p: State, p': State, r: Req) {
    && Inv(p') && p'.destroyer == p.destroyer && SameBut(p, p', r) && |p'.workers| == |p.workers|
    && (p'.sub.NoSubmit? || p'.sub.req == r) && p'.wakes == p.wakes
    && (forall w :: 0 <= w < |p'.workers| ==> SlotsKept(p.workers[w], p'.workers[w], r))
  }

  lemma ElsewhereRest(s: System, s': System, r: Req)
    requires CallerOk(s) && PollerOk(s) && WritesOk(s) && r !in s.sends && SubmitterStep(s.pool, s'.pool, r)
    requires s' == s.(pool := s'.pool, caller := if s'.pool.sub.NoSubmit? then NoCall else Elsewhere)
    ensures CallerOk(s') && PollerOk(s') && WritesOk(s')
  {
    hide Mine, SameWorkerBut, Inv;
    if s.poller.Holding? {
      assert SlotsKept(s.pool.workers[s.poller.w], s'.pool.workers[s.poller.w], r);
    }
    forall w | 0 <= w < |s.wrote| && s.wrote[w].Some?
      ensures s'.pool.workers[w].pc.Popped? && s'.pool.workers[w].pc.task.req in s'.sends
    {
      assert SlotsKept(s.pool.workers[w], s'.pool.workers[w], r);
    }
  }

  lemma ElsewhereApart(s: System, s': System, r: Req)
    requires SubmitterStep(s.pool, s'.pool, r) && (s.caller.NoCall? || s.caller.Elsewhere?)
    requires s' == s.(pool := s'.pool, caller := if s'.pool.sub.NoSubmit? then NoCall else Elsewhere)
    ensures Apart(s, s', r) && Inv(s'.pool) && s'.pool.destroyer == s.pool.destroyer
  {
    hide Inv, SameBut, SlotsKept;
  }

  /** A step of a submission of another request touches no send. */
  lemma OtherStepOk(s: System, b: Action, r: Req)
    requires r !in s.sends && Can(s, Other(b)) && (b.Submit? || Submitting(b)) && Enabled(s.pool, b)
    requires SubmitterStep(s.pool, Apply(s.pool, b), r) && SystemOk(s)
    ensures SystemOk(DoOther(s, b))
  {
    ElsewhereStep(s, b);
    hide SystemOk, Inv, Apply, DoOther, Can, Enabled, Submitting, SubmitterStep, CallerOk, PollerOk, WritesOk, Apart;
    SystemFacts(s);
    SystemRest(s);
    ElsewhereRest(s, DoOther(s, b), r);
    ElsewhereApart(s, DoOther(s, b), r);
    AssembleForeign(s, DoOther(s, b), r);
  }

  lemma ElsewhereStep(s: System, b: Action)
    requires Can(s, Other(b)) && (b.Submit? || Submitting(b))
    ensures var p' := Apply(s.pool, b);
            && DoOther(s, b) == s.(pool := p', caller := if p'.sub.NoSubmit? then NoCall else Elsewhere)
            && (s.caller.NoCall? || s.caller.Elsewhere?) && Enabled(s.pool, b)
  {
    hide Apply, Enabled;
  }

  lemma SubmitMove(p: State, r: Req, n: nat, cb: bool)
    requires Enabled(p, Submit(r, n, cb))
    ensures var p' := Apply(p, Submit(r, n, cb));
            p' == p.(sub := p'.sub, nextId := p'.nextId, scrapped := p'.scrapped) && p'.sub.Scan? && p'.sub.req == r
  {
  }

  lemma EarlyMove(p: State, b: Action)
    requires Enabled(p, b) && (b.ScanNext? || b.BuildNext? || b.BuildFail? || b.LookupCtx?)
    requires p.sub.Scan? ==> p.sub.best == NO_WORKER
    ensures var p' := Apply(p, b);
            && p' == p.(sub := p'.sub, nextId := p'.nextId, scrapped := p'.scrapped)
            && (p'.sub.NoSubmit? || p'.sub.req == p.sub.req)
  {
    if !b.LookupCtx? {
      EarlySub(p, b);
    }
  }

  /** Moves of nothing but the submitter. */
  lemma MoveIsStep(p: State, p': State, r: Req)
    requires Inv(p') && p' == p.(sub := p'.sub, nextId := p'.nextId, scrapped := p'.scrapped)
    requires p'.sub.NoSubmit? || p'.sub.req == r
    ensures SubmitterStep(p, p', r)
  {
    hide Inv, SameBut;
    SubmitterMoveLocal(p, p', r);
  }

  lemma AttachIsStep(p: State)
    requires Inv(p) && Enabled(p, Attach)
    ensures SubmitterStep(p, ApplyAttach(p), p.sub.req)
  {
    hide Inv, SameBut, ApplyAttach, SlotsKept, Clear, FreshView, ViewOf;
    BuiltForAttach(p);
    AttachKeepsSlots(p);
    AttachStep(p);
    AttachOk(p);
  }

  lemma BuiltForAttach(p: State)
    requires Inv(p) && p.sub.Build?
    ensures Unused(p, p.sub.req) && p.sub.worker < |p.workers| && p.workers[p.sub.worker].queue == [] && !Closed(p)
    ensures forall t :: t in p.sub.made ==> t.req == p.sub.req
  {
    BuildFacts(p);
    hide Inv, Unused, AllCounted;
  }

  lemma AttachKeepsSlots(p: State)
    requires Attachable(p) && p.workers[p.sub.worker].queue == [] && forall t :: t in p.sub.made ==> t.req == p.sub.req
    ensures var p' := ApplyAttach(p);
            && p'.wakes == p.wakes && p'.destroyer == p.destroyer && p'.sub.Attached? && p'.sub.req == p.sub.req
            && (forall w :: 0 <= w < |p'.workers| ==> SlotsKept(p.workers[w], p'.workers[w], p.sub.req))
  {
    hide Retired;
    var p', w := ApplyAttach(p), p.sub.worker;
    assert p'.workers[w].queue == p.sub.made by {
      assert [] + p.sub.made == p.sub.made;
    }
    forall q | q != p.sub.req ensures Mine(p'.workers[w].queue, q) == Mine(p.workers[w].queue, q) {
      MineOfUniform(p.sub.made, p.sub.req, q);
    }
    hide Mine;
  }

  lemma CountIsStep(p: State)
    requires Inv(p) && Enabled(p, CountCtx)
    ensures SubmitterStep(p, ApplyCount(p), p.sub.req)
  {
    hide Inv, SameBut, ApplyCount, SlotsKept, ViewOf;
    PendingFacts(p);
    CountCtxStep(p);
    CountShape(p);
    CountCtxOk(p);
    SameWorkersKept(p, ApplyCount(p), p.sub.req);
  }

  lemma SameWorkersKept(p: State, p': State, r: Req)
    requires p'.workers == p.workers
    ensures forall w :: 0 <= w < |p'.workers| ==> SlotsKept(p.workers[w], p'.workers[w], r)
  {
  }

  lemma ForeignSubmitter(s: System)
    requires SystemOk(s) && s.caller.Elsewhere?
    ensures !s.pool.sub.NoSubmit? && s.pool.sub.req !in s.sends
    ensures s.pool.sub.Scan? ==> s.pool.sub.best == NO_WORKER
  {
    hide Transfers, PollerOk, WritesOk, Workers, Homes, Exclusive, DestroyerOk, Requests, Archive;
  }

  lemma SubmissionIsStep(p: State, b: Action)
    requires Inv(p) && Enabled(p, b) && Submitting(b) && (p.sub.Scan? ==> p.sub.best == NO_WORKER) && !p.sub.NoSubmit?
    ensures SubmitterStep(p, Apply(p, b), p.sub.req)
  {
    hide Inv, SubmitterStep, Enabled, Apply, ApplyAttach, ApplyCount;
    if b.Attach? {
      AttachIsStep(p);
      ApplyAttachIs(p);
    } else if b.CountCtx? {
      CountIsStep(p);
      ApplyCountIs(p);
    } else {
      EarlyMove(p, b);
      StepOk(p, b);
      MoveIsStep(p, Apply(p, b), p.sub.req);
    }
  }

  lemma ApplyAttachIs(p: State)
    requires Enabled(p, Attach)
    ensures Apply(p, Attach) == ApplyAttach(p)
  {
  }

  lemma ApplyCountIs(p: State)
    requires Enabled(p, CountCtx)
    ensures Apply(p, CountCtx) == ApplyCount(p)
  {
  }

  lemma OtherFacts(s: System, b: Action)
    requires Can(s, Other(b))
    ensures Enabled(s.pool, b)
    ensures b.Submit? ==> b.req !in s.sends
    ensures Submitting(b) ==> s.caller.Elsewhere?
  {
    hide Enabled;
  }

  lemma OtherSubmissionOk(s: System, b: Action)
    requires SystemOk(s) && Can(s, Other(b)) && Submitting(b)
    ensures SystemOk(DoOther(s, b))
  {
    hide SystemOk, Inv, Apply, DoOther, Can, Enabled, SubmitterStep;
    OtherFacts(s, b);
    SystemFacts(s);
    ForeignSubmitter(s);
    SubmissionIsStep(s.pool, b);
    OtherStepOk(s, b, s.pool.sub.req);
  }

  lemma OtherSubmitOk(s: System, r: Req, n: nat, cb: bool)
    requires SystemOk(s) && Can(s, Other(Submit(r, n, cb)))
    ensures SystemOk(DoOther(s, Submit(r, n, cb)))
  {
    var b := Submit(r, n, cb);
    hide SystemOk, Inv, Apply, DoOther, Can, Enabled, SubmitterStep;
    OtherFacts(s, b);
    SystemFacts(s);
    SubmitMove(s.pool, r, n, cb);
    StepOk(s.pool, b);
    MoveIsStep(s.pool, Apply(s.pool, b), r);
    OtherStepOk(s, b, r);
  }

  lemma OtherRunOk(s: System, w: nat)
    requires SystemOk(s) && Can(s, Other(RunTask(w)))
    ensures SystemOk(s.(pool := ApplyRun(s.pool, w)))
  {
    hide SystemOk, Inv, SameBut, ApplyRun, TurnStep, Shrinks, CallerOk, PollerOk, WritesOk;
    var p, r := s.pool, s.pool.workers[w].pc.task.req;
    SystemFacts(s);
    SystemRest(s);
    TurnFacts(p, w);
    RunStep(p, w);
    RunTaskOk(p, w);
    RunKeepsCount(p, w);
    TurnShrinks(s, ApplyRun(p, w), w);
    TurnIsLocal(p, ApplyRun(p, w), w);
    ForeignOk(s, ApplyRun(p, w), r);
  }

  lemma OtherCancelFindOk(s: System, r: Req)
    requires SystemOk(s) && Can(s, Other(CancelFind(r)))
    ensures SystemOk(s.(pool := ApplyCancelFind(s.pool, r)))
  {
    hide SystemOk, Inv, SameBut, ApplyCancelFind, Shrinks;
    SystemFacts(s);
    CancelFindShrinks(s, r);
    CancelFindOk(s.pool, r);
    if r in s.pool.ctxs {
      ContextFacts(s.pool, r);
      CancelFindStep(s.pool, r);
    } else {
      CancelFindMiss(s.pool, r);
      SamePool(s.pool, r);
    }
    ForeignOk(s, ApplyCancelFind(s.pool, r), r);
  }

  lemma OtherCancelQueueOk(s: System, r: Req, w: nat)
    requires SystemOk(s) && Can(s, Other(CancelQueue(r, w)))
    ensures SystemOk(s.(pool := ApplyCancelQueue(s.pool, r, w)))
  {
    hide SystemOk, Inv, SameBut, ApplyCancelQueue, Shrinks, Mine, RequestOk;
    SystemFacts(s);
    CancelFacts(s.pool, r, w);
    CancelQueueShrinks(s, r, w);
    CancelQueueOk(s.pool, r, w);
    if Mine(s.pool.workers[w].queue, r) == [] {
      CancelMissShape(s.pool, r, w);
      CancelMissLocal(s.pool, ApplyCancelQueue(s.pool, r, w), r, w);
    } else {
      CancelQueueLocal(s.pool, r, w);
    }
    ForeignOk(s, ApplyCancelQueue(s.pool, r, w), r);
  }

  lemma OtherCancelCountOk(s: System, r: Req)
    requires SystemOk(s) && Can(s, Other(CancelCount(r)))
    ensures SystemOk(s.(pool := ApplyCancelCount(s.pool, r)))
  {
    hide SystemOk, Inv, SameBut, ApplyCancelCount, Shrinks, RequestOk, ViewOf;
    SystemFacts(s);
    CancelCountFacts(s.pool, r);
    CtxOfView(s.pool, r);
    CancelCountKeeps(r, ViewOf(s.pool, r));
    CancelCountStep(s.pool, r);
    CancelCountOk(s.pool, r);
    SubtractShrinks(s, ApplyCancelCount(s.pool, r), r);
    ForeignOk(s, ApplyCancelCount(s.pool, r), r);
  }

  lemma OtherOk(s: System, b: Action)
    requires SystemOk(s) && Can(s, Other(b))
    ensures SystemOk(DoOther(s, b))
  {
    hide SystemOk, ApplyRun, ApplyCancelFind, ApplyCancelQueue, ApplyCancelCount;
    match b
    case Submit(r, n, cb) => OtherSubmitOk(s, r, n, cb);
    case RunTask(w) => OtherRunOk(s, w);
    case CancelFind(r) => OtherCancelFindOk(s, r);
    case CancelQueue(r, w) => OtherCancelQueueOk(s, r, w);
    case CancelCount(r) => OtherCancelCountOk(s, r);
    case _ => OtherSubmissionOk(s, b);
  }

  /** A send that is over in every respect is forgotten; its id may then serve another request. */
  lemma ForgetOk(s: System, r: Req)
    requires SystemOk(s) && Can(s, Forget(r))
    ensures SystemOk(Do(s, Forget(r)))
  {
    hide SystemOk, Inv, SameBut, Apart, CallerOk, PollerOk, WritesOk, Over;
    SystemFacts(s);
    SystemRest(s);
    OverFacts(s, r);
    ForgetShape(s, r);
    AssembleForeign(s, s.(sends := s.sends - {r}), r);
  }

  lemma ForgetShape(s: System, r: Req)
    requires CallerOk(s) && PollerOk(s) && WritesOk(s) && Returned(s, r) && r in s.sends
    requires forall w :: 0 <= w < |s.wrote| && s.wrote[w].Some? ==> s.pool.workers[w].pc.task.req != r
    ensures var s' := s.(sends := s.sends - {r}); Apart(s, s', r) && CallerOk(s') && PollerOk(s') && WritesOk(s')
  {
    hide SameBut, Mine;
    SamePool(s.pool, r);
  }

  /** Nobody is in the middle of anything for a send that is over. */
  lemma OverFacts(s: System, r: Req)
    requires SystemOk(s) && r in s.sends && Over(s, r)
    ensures Returned(s, r)
    ensures forall w :: 0 <= w < |s.wrote| && s.wrote[w].Some? ==> s.pool.workers[w].pc.task.req != r
  {
    SystemRest(s);
    SystemFacts(s);
    hide SystemOk, Inv, PollerOk;
    if Registered(s, r) {
      SendFacts(s, r);
      LetGoIsBack(r, SendViewOf(s, r));
    } else {
      DormantIsUnused(s, r);
    }
    forall w | 0 <= w < |s.wrote| && s.wrote[w].Some? ensures s.pool.workers[w].pc.task.req != r {
      TurnIsRegistered(s, w);
      if Registered(s, r) {
        NotPoppedAt(s.pool, r, w);
      }
    }
  }

  lemma LetGoIsBack(r: Req, x: SendView)
    requires SendOk(r, x) && Fates(r, x.v) && LetGo(x.t)
    ensures !x.calling && !x.v.stage.Popped? && x.v.cancelling == 0
  {
    VerdictOf(r, x);
  }

  lemma NotPoppedAt(p: State, r: Req, w: nat)
    requires r in p.jobs && p.jobs[r].worker < |p.workers| && !ViewOf(p, r).stage.Popped? && PcAt(p, w).Popped?
    requires Owns(p, p.workers[w].pc.task.req, w)
    ensures p.workers[w].pc.task.req != r
  {
  }

  // ----- every step -----

  lemma RegisterOk(s: System, b: Action)
    requires SystemOk(s) && Can(s, Register(b))
    ensures SystemOk(DoRegister(s, b))
  {
    hide SystemOk, DoRegister;
    match b
    case Attach => AttachSendOk(s);
    case LookupCtx => LookupCtxOk(s);
    case CountCtx => CountCtxSendOk(s);
    case _ => EarlyOk(s, b);
  }

  /** A waiter at work waits for a registered request. */
  lemma WaiterIsRegistered(s: System, r: Req)
    requires SystemOk(s) && r in s.sends && s.sends[r].waiter != Waiter.Gone(false)
    requires Returned(s, r) || !s.sends[r].waiter.Away?
    ensures Registered(s, r)
  {
    hide SystemOk;
    if s.sends[r].waiter.Away? {
      WaitingIsRegistered(s, r);
    } else {
      WaiterReturned(s, r);
    }
  }

  lemma WaiterStepOk(s: System, a: Step, r: Req)
    requires SystemOk(s) && Can(s, a)
    requires a in {Notice(r), Judge(r), CancelLookup(r), CancelUnlink(r), CancelSubtract(r), Free(r)}
    ensures SystemOk(Do(s, a))
  {
    hide SystemOk, DoCancelLookup, DoCancelUnlink, Apply, Enabled;
    WaiterIsRegistered(s, r);
    match a
    case Notice(_) => NoticeOk(s, r);
    case Judge(_) => JudgeOk(s, r);
    case CancelLookup(_) => CancelLookupOk(s, r);
    case CancelUnlink(_) => CancelUnlinkOk(s, r);
    case CancelSubtract(_) => CancelSubtractOk(s, r);
    case Free(_) => FreeOk(s, r);
    case _ => assert false;
  }

  lemma SendStepOk(s: System, a: Step)
    requires SystemOk(s) && Can(s, a)
    ensures SystemOk(Do(s, a))
  {
    hide SystemOk, DoCall, DoRegister, DoFirst, DoLookup, DoSet, DoWrite, DoMark, DoCancelLookup, DoCancelUnlink,
         DoOther, Apply, Enabled, CanOther;
    match a
    case Call(r, n) => CallOk(s, r, n);
    case Register(b) => RegisterOk(s, b);
    case First(ok) => FirstOk(s, ok);
    case Deliver(r) => DeliverOk(s, r);
    case Arrive(r) => ArriveOk(s, r);
    case Lookup => if s.poller.req in s.pool.ctxs { LookupHitOk(s); } else { LookupMissOk(s); }
    case Set => SetOk(s);
    case Write(w, ok) => WriteOk(s, w, ok);
    case Mark(w) => MarkOk(s, w);
    case Turn(b) => TurnOk(s, b);
    case Notice(r) => WaiterStepOk(s, a, r);
    case Judge(r) => WaiterStepOk(s, a, r);
    case CancelLookup(r) => WaiterStepOk(s, a, r);
    case CancelUnlink(r) => WaiterStepOk(s, a, r);
    case CancelSubtract(r) => WaiterStepOk(s, a, r);
    case Free(r) => WaiterStepOk(s, a, r);
    case Other(b) => OtherOk(s, b);
    case Forget(r) => ForgetOk(s, r);
  }
}
