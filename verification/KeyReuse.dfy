/**
 When the id of a send can safely be called again. What a call needs of the pool speaks of every
 wake, cancel and slot; for a send it follows from events its own threads can see: the waiter
 will not cancel any more, the last completion has been polled and its wake consumed, and the
 context is gone. What a call that does not wait for them breaks is shown in `EarlyCall`.
 */
module KeyReuse {
  import opened Base
  import opened TaskQueue
  import opened BatchSubmit
  import opened Pool
  import opened PoolInvariant
  import opened Send
  import opened SendInvariant
  import opened SendSteps
  import opened SendTheorems
  import opened SendProgress

  /** Worker `w` neither has a slot for `r` nor a cancel of `r` on its way. */
  predicate BareOf(p: State, r: Req, w: nat) {
    w < |p.workers| && (r, w) !in p.cancels && p.workers[w].pending != r
  }

  /** What is under way for a registered send is under way at its own worker. */
  ghost predicate TracesHome(s: System) {
    forall r, w {:trigger BareOf(s.pool, r, w)} ::
      Registered(s, r) && r in s.pool.jobs && 0 <= w < |s.pool.workers| && w != s.pool.jobs[r].worker ==>
        BareOf(s.pool, r, w)
  }

  // ----- where cancels come from -----

  predicate Reserved(b: Action) {
    b.CancelFind? || b.CancelQueue?
  }

  lemma SubmissionCancels(p: State, b: Action)
    requires Enabled(p, b) && (b.Submit? || Submitting(b))
    ensures Apply(p, b).cancels == p.cancels
  {
    if b.Attach? {
      AttachKeepsTraces(p);
      hide Apply, Enabled;
    } else if b.CountCtx? {
      CountCancels(p);
      hide Apply, Enabled;
    } else {
      hide Enabled, FreeAll, Unfreed, MutexFree, Takes, Weigh, LoadOf, ApplyAttach, ApplyCount;
    }
  }

  lemma CountCancels(p: State)
    requires Enabled(p, CountCtx)
    ensures Apply(p, CountCtx).cancels == p.cancels
  {
  }

  lemma TurnCancels(p: State, b: Action)
    requires Enabled(p, b) && (b.LoopTop? || b.RunTask?)
    ensures Apply(p, b).cancels == p.cancels
  {
    if b.RunTask? {
      RunEffect(p, b.w);
      hide ApplyRun;
    } else {
      LoopTopCancels(p, b.w);
      hide ApplyLoopTop;
    }
  }

  lemma LoopTopCancels(p: State, w: nat)
    requires PcAt(p, w).Check?
    ensures ApplyLoopTop(p, w).cancels == p.cancels
  {
    hide FreeNode, DropFirst, FirstOf, WithJob;
    var x := p.workers[w];
    if x.pending != 0 && FirstOf(x.queue, x.pending).Some? {
      var t := FirstOf(x.queue, x.pending).value;
      HistoryOnly(SetWorker(p, w, Worker(Popped(t), Busy, 0, DropFirst(x.queue, x.pending))), t.req,
                  (j: Job) => j.(freed := FreeNode(j.freed, t.arg)));
    }
  }

  lemma LateTurnCancels(p: State, b: Action)
    requires Enabled(p, b) && (b.Callback? || b.DropCtx? || b.FreeTask?)
    ensures Apply(p, b).cancels == p.cancels
  {
    hide Enabled, FreeTaskCell, FirstId, BatchOf;
  }

  lemma WorkerCancels(p: State, b: Action)
    requires Enabled(p, b) && (b.Wait? || b.Rouse? || b.Relock? || b.FindCtx? || b.Uncount?)
    ensures Apply(p, b).cancels == p.cancels
  {
    hide Enabled;
  }

  lemma OtherCancels(p: State, b: Action)
    requires Enabled(p, b) && (b.WakeFind? || b.WakeSet? || b.CancelCount?)
    ensures Apply(p, b).cancels == p.cancels
  {
    hide Enabled;
  }

  lemma DestroyerCancels(p: State, b: Action)
    requires Enabled(p, b) && (b.SetFlag? || b.SignalNext? || b.Join? || b.DropQueue? || b.Finish?)
    ensures Apply(p, b).cancels == p.cancels
  {
    hide Enabled, FreeAll, Mine, DropFromJob;
  }

  lemma CancellerCancels(p: State, b: Action, r: Req, w: nat)
    requires Enabled(p, b) && Reserved(b)
    requires (r, w) !in p.cancels && !(b == CancelFind(r) && r in p.ctxs && p.ctxs[r].worker == w)
    ensures (r, w) !in Apply(p, b).cancels
  {
    hide FreeAll, Mine, Others, MutexFree;
  }

  lemma CancelSource(p: State, b: Action, r: Req, w: nat)
    requires Enabled(p, b) && (r, w) !in p.cancels && !(b == CancelFind(r) && r in p.ctxs && p.ctxs[r].worker == w)
    ensures (r, w) !in Apply(p, b).cancels
  {
    hide Enabled, Apply;
    if Reserved(b) {
      CancellerCancels(p, b, r, w);
    } else if b.Submit? || Submitting(b) {
      SubmissionCancels(p, b);
    } else if b.LoopTop? || b.RunTask? {
      TurnCancels(p, b);
    } else if b.Callback? || b.DropCtx? || b.FreeTask? {
      LateTurnCancels(p, b);
    } else if b.WakeFind? || b.WakeSet? || b.CancelCount? {
      OtherCancels(p, b);
    } else if b.SetFlag? || b.SignalNext? || b.Join? || b.DropQueue? || b.Finish? {
      DestroyerCancels(p, b);
    } else {
      WorkerCancels(p, b);
    }
  }

  // ----- the traces of a send stay at its worker -----

  lemma NoSecondAttach(s: System, a: Step, r: Req)
    requires CallerOk(s) && Can(s, a) && Registered(s, r)
    ensures a == Register(Attach) || a == Other(Attach) ==> s.pool.sub.req != r
  {
    hide Clear, Unlocked;
  }

  lemma ContextAtHome(s: System, r: Req)
    requires SystemOk(s) && Registered(s, r) && r in s.pool.ctxs
    ensures r in s.pool.jobs && s.pool.ctxs[r].worker == s.pool.jobs[r].worker
  {
    hide SystemOk, Inv;
    SendFacts(s, r);
    hide Fates, Ledger, WakeBound, CallbackOnce, SendOk;
  }

  lemma HeldAtHome(s: System, r: Req)
    requires PollerOk(s) && AtWake(s, r) && Registered(s, r)
    ensures r in s.pool.jobs && s.poller.w == s.pool.jobs[r].worker
  {
  }

  lemma StaysBare(s: System, a: Step, r: Req, w: nat)
    requires SystemOk(s) && Can(s, a) && Registered(s, r) && BareOf(s.pool, r, w)
    requires r in s.pool.jobs && r != 0 && w != s.pool.jobs[r].worker
    ensures BareOf(Do(s, a).pool, r, w)
  {
    hide SystemOk, Do, Can, Apply, Enabled, CallerOk, PollerOk, WritesOk, AtWake;
    SystemRest(s);
    FollowsPool(s, a);
    if PoolAction(s, a).Some? {
      var b := PoolAction(s, a).value;
      NoSecondAttach(s, a, r);
      NoAttach(s, a);
      SlotSource(s.pool, b, r, w);
      WakesAreSets(s, a, r);
      if b == WakeSet(r, w) {
        HeldAtHome(s, r);
        SetsHeld(s, a, r);
      }
      if r in s.pool.ctxs {
        ContextAtHome(s, r);
      }
      CancelSource(s.pool, b, r, w);
    }
  }

  lemma SetsHeld(s: System, a: Step, r: Req)
    requires Can(s, a) && PoolAction(s, a).Some? && PoolAction(s, a).value.WakeSet?
    ensures s.poller.Holding? && PoolAction(s, a).value.w == s.poller.w
  {
    hide Enabled;
  }

  /** A send is registered only by attaching its tasks. */
  lemma RegisteredByAttach(s: System, a: Step, r: Req)
    requires Can(s, a) && !Registered(s, r) && Registered(Do(s, a), r)
    ensures a == Register(Attach) && r in s.sends
  {
    hide Apply, Enabled;
  }

  lemma AttachLeavesBare(s: System, r: Req, w: nat)
    requires Can(s, Register(Attach)) && Traceless(s.pool, r) && w < |s.pool.workers|
    ensures BareOf(Do(s, Register(Attach)).pool, r, w)
  {
    FollowsPool(s, Register(Attach));
    AttachKeepsTraces(s.pool);
    hide Do, Enabled, Apply;
  }

  lemma AttachKeepsTraces(p: State)
    requires Enabled(p, Attach)
    ensures var p' := Apply(p, Attach);
            && p'.cancels == p.cancels && |p'.workers| == |p.workers|
            && forall w :: 0 <= w < |p.workers| ==> p'.workers[w].pending == p.workers[w].pending
  {
    hide Clear, Retired, Unfreed;
  }

  lemma RegisteredFacts(s: System, r: Req)
    requires SystemOk(s) && Registered(s, r)
    ensures r in s.pool.jobs && r != 0
  {
    hide SystemOk, Fates, RequestOk;
    SendFacts(s, r);
    SendIdNotZero(r, SendViewOf(s, r));
  }

  lemma TracesStep(s: System, a: Step)
    requires SystemOk(s) && TracesHome(s) && Can(s, a) && SystemOk(Do(s, a))
    ensures TracesHome(Do(s, a))
  {
    var s' := Do(s, a);
    hide SystemOk, Do, Can, BareOf, Registered;
    forall r, w | Registered(s', r) && r in s'.pool.jobs && 0 <= w < |s'.pool.workers| && w != s'.pool.jobs[r].worker
      ensures BareOf(s'.pool, r, w)
    {
      TracesStepAt(s, a, r, w);
    }
  }

  lemma SameCount(s: System)
    requires SystemOk(s)
    ensures |s.pool.workers| == WORKERS
  {
    SystemFacts(s);
    hide SystemOk, Homes, Exclusive, SubmitterOk, DestroyerOk, Requests, Archive;
  }

  lemma HomeKept(s: System, a: Step, r: Req)
    requires SystemOk(s) && Can(s, a) && Registered(s, r) && r in s.pool.jobs && r != 0
    ensures var p' := Do(s, a).pool; r in p'.jobs && p'.jobs[r].worker == s.pool.jobs[r].worker
  {
    hide SystemOk, Do, Can, Apply, Enabled, CallerOk, PollerOk, WritesOk;
    SystemRest(s);
    FollowsPool(s, a);
    if PoolAction(s, a).Some? {
      NoSecondAttach(s, a, r);
      NoAttach(s, a);
      SlotSource(s.pool, PoolAction(s, a).value, r, 0);
    }
  }

  lemma TracesStepAt(s: System, a: Step, r: Req, w: nat)
    requires SystemOk(s) && TracesHome(s) && Can(s, a) && SystemOk(Do(s, a))
    requires var s' := Do(s, a);
             Registered(s', r) && r in s'.pool.jobs && w < |s'.pool.workers| && w != s'.pool.jobs[r].worker
    ensures BareOf(Do(s, a).pool, r, w)
  {
    hide SystemOk, Do, Can, BareOf, Registered;
    SameCount(s);
    SameCount(Do(s, a));
    if Registered(s, r) {
      RegisteredFacts(s, r);
      HomeKept(s, a, r);
      StaysBare(s, a, r, w);
    } else {
      RegisteredByAttach(s, a, r);
      DormantIsUnused(s, r);
      AttachLeavesBare(s, r, w);
    }
  }

  lemma {:induction false} TracesStayHome(run: seq<Step>, s: System)
    requires Reached(run, s)
    ensures TracesHome(s)
  {
    if run != [] {
      var front, a := run[..|run| - 1], run[|run| - 1];
      var t := History(front).value;
      hide SystemOk, Do, Can, TracesHome;
      TracesStayHome(front, t);
      ReachedOk(front, t);
      ReachedOk(run, s);
      TracesStep(t, a);
    }
  }

  // ----- the condition -----

  /** Nothing is left of the send but its own handle: no write, completion, wake, slot or task, and no context. */
  predicate Spent(s: System, r: Req) {
    r in s.sends && LetGo(s.sends[r]) && TokenCount(s, r) == 0 && r !in s.pool.ctxs
  }

  /**
   When the id of a send can be called again: nobody is submitting, its waiter will not cancel
   any more, its last completion has been polled and the wake for it consumed, and its context
   is gone. Then nothing of it is left at any worker.
   */
  lemma KeyReusable(run: seq<Step>, s: System, r: Req, n: nat)
    requires Reached(run, s) && s.caller.NoCall? && 2 <= n && Spent(s, r)
    ensures Traceless(s.pool, r) && Can(s, Call(r, n))
  {
    hide SystemOk, Reached, Can, Spent, TracesHome, Registered, Traceless;
    ReachedOk(run, s);
    TracesStayHome(run, s);
    SpentIsTraceless(s, r);
    SpentCanCall(s, r, n);
  }

  lemma SpentCanCall(s: System, r: Req, n: nat)
    requires SystemOk(s) && s.caller.NoCall? && 2 <= n && Spent(s, r) && Traceless(s.pool, r) && r != 0
    ensures Can(s, Call(r, n))
  {
    hide SystemOk, Traceless, AtSlot, AtWorker, AtWake, PollerOk, WritesOk, LetGo;
    SystemRest(s);
    SystemFacts(s);
  }

  lemma SpentIsTraceless(s: System, r: Req)
    requires SystemOk(s) && TracesHome(s) && Spent(s, r)
    ensures Traceless(s.pool, r) && r != 0
  {
    hide SystemOk, Registered, PollerOk, CallerOk, WritesOk, TokenCount;
    if Registered(s, r) {
      SystemRest(s);
      RegisteredFacts(s, r);
      NotWaking(s, r);
      HomeIsBare(s, r);
      forall w | 0 <= w < |s.pool.workers|
        ensures (r, w) !in s.pool.wakes && (r, w) !in s.pool.cancels && s.pool.workers[w].pending != r
      {
        assert BareOf(s.pool, r, w);
      }
    } else {
      DormantIsUnused(s, r);
    }
  }

  lemma NotWaking(s: System, r: Req)
    requires PollerOk(s) && r in s.sends && TokenCount(s, r) == 0
    ensures forall w :: (r, w) !in s.pool.wakes
  {
    hide AtSlot, AtWorker, SlotSpare, Owns;
  }

  lemma HomeIsBare(s: System, r: Req)
    requires SystemOk(s) && Registered(s, r) && Spent(s, r) && r in s.pool.jobs
    ensures BareOf(s.pool, r, s.pool.jobs[r].worker)
  {
    hide SystemOk, Inv, RequestOk, Fates, SendOk;
    SendFacts(s, r);
    LetGoIsBack(r, SendViewOf(s, r));
    NotAtSlot(s, r);
  }

  lemma NotAtSlot(s: System, r: Req)
    requires TokenCount(s, r) == 0 && r in s.pool.jobs && s.pool.jobs[r].worker < |s.pool.workers|
    ensures s.pool.workers[s.pool.jobs[r].worker].pending != r
  {
    hide AtWake, AtWorker;
  }
}
