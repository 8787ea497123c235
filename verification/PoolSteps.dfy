/** Every action keeps the invariant of the pool. */
module PoolSteps {
  import opened Base
  import opened TaskQueue
  import opened BatchSubmit
  import opened Pool
  import opened PoolInvariant
  import opened PoolViews

  /** A step of worker `w` that leaves its queue and slot alone and stays with its task. */
  ghost predicate TurnStep(s: State, s': State, w: nat) {
    && w < |s.workers| && InTurn(s.workers[w].pc)
    && s' == s.(workers := s'.workers, ctxs := s'.ctxs, jobs := s'.jobs)
    && |s'.workers| == |s.workers|
    && (forall i :: 0 <= i < |s.workers| && i != w ==> s'.workers[i] == s.workers[i])
    && var x, x' := s.workers[w], s'.workers[w];
    && x'.queue == x.queue && x'.pending == x.pending
    && (x.pc.Settled? ==> x'.pc.Check?)
    && (if InTurn(x'.pc) then x'.pc.task == x.pc.task && x'.state == x.state else x'.pc.Check? && x'.state == Idle)
    && var r := x.pc.task.req;
    && s'.jobs.Keys == s.jobs.Keys
    && (forall q :: q in s.jobs && q != r ==> s'.jobs[q] == s.jobs[q])
    && (r in s.jobs ==>
          s'.jobs[r] == s.jobs[r].(ran := s'.jobs[r].ran, freed := s'.jobs[r].freed, fired := s'.jobs[r].fired))
    && s'.ctxs.Keys <= s.ctxs.Keys && s.ctxs.Keys <= s'.ctxs.Keys + {r}
    && (forall q :: q in s'.ctxs && q != r ==> s'.ctxs[q] == s.ctxs[q])
  }

  /**
   A step of worker `w` about request `r`: it takes nothing on that it does not own, adds
   nothing to its queue, and leaves every other worker and request as they were.
   */
  ghost predicate WorkerStep(s: State, s': State, w: nat, r: Req) {
    && w < |s.workers| == |s'.workers|
    && s' == s.(workers := s'.workers, ctxs := s'.ctxs, jobs := s'.jobs)
    && (forall i :: 0 <= i < |s.workers| && i != w ==> s'.workers[i] == s.workers[i])
    && var x, x' := s.workers[w], s'.workers[w];
    && WorkerOk(x') && OneRequest(x')
    && |x'.queue| <= |x.queue| && (forall t :: t in x'.queue ==> t in x.queue)
    && (x'.pending == x.pending || x'.pending == 0)
    && (InTurn(x'.pc) ==> Owns(s, x'.pc.task.req, w))
    && (InTurn(x'.pc) && !InTurn(x.pc) ==> x.queue != [] && x'.pc.task in x.queue)
    && PcKept(s.past, x.pc, x'.pc)
    && (InTurn(x'.pc) && InTurn(x.pc) ==> x'.pc.task == x.pc.task && (x.pc.Settled? ==> x'.pc.Settled?))
    && (s.destroyer.Signalling? && w < s.destroyer.done ==> !x'.pc.Doze? && !x'.pc.Asleep?)
    && s'.jobs.Keys == s.jobs.Keys
    && (forall q :: q in s.jobs && q != r ==> s'.jobs[q] == s.jobs[q])
    && (r in s.jobs ==>
          s'.jobs[r] == s.jobs[r].(ran := s'.jobs[r].ran, freed := s'.jobs[r].freed, fired := s'.jobs[r].fired))
    && s'.ctxs.Keys <= s.ctxs.Keys
  }

  lemma WorkerStepKeepsArchive(s: State, s': State, w: nat, r: Req)
    requires Archive(s) && WorkerStep(s, s', w, r)
    ensures Archive(s')
  {
    hide PastOk, OneRequest, WorkerOk, Owns;
    ArchiveKept(s, s');
  }

  lemma WorkerStepKeepsHomes(s: State, s': State, w: nat, r: Req)
    requires Homes(s) && Exclusive(s) && Workers(s) && WorkerStep(s, s', w, r)
    ensures Homes(s') && Exclusive(s') && Workers(s')
  {
    assert forall q, i :: Owns(s, q, i) ==> Owns(s', q, i);
    assert forall i :: i != w && OldTurn(s, i) ==> OldTurn(s', i);
    forall i | 0 <= i < |s'.workers| ensures OneRequest(s'.workers[i]) && WorkerOk(s'.workers[i]) {
      assert OneRequest(s.workers[i]) && WorkerOk(s.workers[i]);
    }
  }

  lemma WorkerStepKeepsSubmitter(s: State, s': State, w: nat, r: Req)
    requires Workers(s) && SubmitterOk(s) && WorkerStep(s, s', w, r) && r in s.jobs
    ensures SubmitterOk(s')
  {
    hide OneRequest;
    assert forall q :: q in s'.jobs ==>
      s'.jobs[q].worker == s.jobs[q].worker && s'.jobs[q].counted == s.jobs[q].counted
      && s'.jobs[q].cb == s.jobs[q].cb && |s'.jobs[q].tasks| == |s.jobs[q].tasks|;
    if s.sub.Scan? || s.sub.Build? {
      forall i | 0 <= i < |s'.workers| ensures UnusedAt(s'.workers[i], s.sub.req) {
        assert UnusedAt(s.workers[i], s.sub.req) && WorkerOk(s.workers[i]);
      }
    }
  }

  lemma WorkerStepKeepsDestroyer(s: State, s': State, w: nat, r: Req)
    requires DestroyerOk(s) && !Closed(s) && WorkerStep(s, s', w, r)
    ensures DestroyerOk(s')
  {
    hide OneRequest;
  }

  /** The invariant follows from the shape of the step and the view of its request. */
  lemma WorkerStepOk(s: State, s': State, w: nat, r: Req)
    requires Inv(s) && !Closed(s) && WorkerStep(s, s', w, r) && SameBut(s, s', r) && r in s.jobs
    requires s'.jobs[r].worker < |s'.workers| && RequestOk(r, ViewOf(s', r))
    ensures Inv(s')
  {
    hide Workers, Homes, Exclusive, SubmitterOk, DestroyerOk, RequestOk, ViewOf, SameBut, WorkerStep, Requests, Archive;
    WorkerStepKeepsArchive(s, s', w, r);
    WorkerStepKeepsHomes(s, s', w, r);
    WorkerStepKeepsSubmitter(s, s', w, r);
    WorkerStepKeepsDestroyer(s, s', w, r);
    Frame(s, s', r);
  }

  lemma TurnIsLocal(s: State, s': State, w: nat)
    requires TurnStep(s, s', w)
    ensures SameBut(s, s', s.workers[w].pc.task.req)
  {
  }

  lemma TurnIsWorkerStep(s: State, s': State, w: nat)
    requires TurnStep(s, s', w) && WorkerOk(s.workers[w]) && OneRequest(s.workers[w])
    requires Owns(s, s.workers[w].pc.task.req, w) && Recent(s.past, s.workers[w].pc)
    ensures WorkerStep(s, s', w, s.workers[w].pc.task.req)
  {
  }

  lemma TurnViews(s: State, s': State, w: nat)
    requires Inv(s) && TurnStep(s, s', w)
    requires var r := s.workers[w].pc.task.req;
             Owns(s', r, w) && w < |s'.workers| && RequestOk(r, ViewOf(s', r))
    ensures Inv(s')
  {
    hide SubmitterOk, DestroyerOk, RequestOk, ViewOf, SameBut, WorkerStep, Requests, Archive;
    var r := s.workers[w].pc.task.req;
    assert Owns(s, r, w);
    TurnFacts(s, w);
    LatestTurn(s, w);
    assert WorkerOk(s.workers[w]) && OneRequest(s.workers[w]);
    TurnIsWorkerStep(s, s', w);
    TurnIsLocal(s, s', w);
    WorkerStepOk(s, s', w, r);
  }

  /** What a step of a turn may rely on: but for its very end, a turn is about the latest use of its id. */
  lemma TurnFacts(s: State, w: nat)
    requires Inv(s) && InTurn(PcAt(s, w))
    ensures w < |s.workers| && !Closed(s)
    ensures var r := s.workers[w].pc.task.req;
            (Owns(s, r, w) && RequestOk(r, ViewOf(s, r))) || OldTurn(s, w)
  {
    hide Archive, Exclusive, SubmitterOk;
  }

  lemma NotArchived(s: State, r: Req)
    requires Archive(s) && r in s.jobs
    ensures FirstId(s.jobs[r]) !in s.past
  {
    forall u | u in s.past ensures u != FirstId(s.jobs[r]) {
      assert PastOk(s, u);
    }
  }

  /** The task of a turn belongs to the latest batch of its id, so not to an archived one. */
  lemma LatestTurn(s: State, w: nat)
    requires Inv(s) && InTurn(PcAt(s, w)) && Owns(s, s.workers[w].pc.task.req, w)
    ensures var t := s.workers[w].pc.task;
            BatchOf(t) == FirstId(s.jobs[t.req]) && BatchOf(t) !in s.past
  {
    var t := s.workers[w].pc.task;
    RequestFacts(s, t.req);
    StageIsLatest(t.req, ViewOf(s, t.req));
    hide Workers, Homes, Exclusive, SubmitterOk, DestroyerOk, Requests, RequestOk;
    NotArchived(s, t.req);
  }

  lemma RunStep(s: State, w: nat)
    requires PcAt(s, w).Popped? && Owns(s, s.workers[w].pc.task.req, w)
    ensures TurnStep(s, ApplyRun(s, w), w)
    ensures var r := s.workers[w].pc.task.req;
            Owns(ApplyRun(s, w), r, w) && ViewOf(ApplyRun(s, w), r) == RunView(ViewOf(s, r))
  {
  }

  lemma RunTaskOk(s: State, w: nat)
    requires Inv(s) && Enabled(s, RunTask(w))
    ensures Inv(Apply(s, RunTask(w)))
  {
    hide Inv, RequestOk, TurnStep, ApplyRun;
    TurnFacts(s, w);
    var r := s.workers[w].pc.task.req;
    RunKeeps(r, ViewOf(s, r));
    RunStep(s, w);
    TurnViews(s, ApplyRun(s, w), w);
  }

  lemma LookStep(s: State, w: nat)
    requires PcAt(s, w).Ran? && Owns(s, s.workers[w].pc.task.req, w)
    requires s.workers[w].pc.task.req in s.ctxs
    ensures TurnStep(s, ApplyFindCtx(s, w), w)
    ensures var r := s.workers[w].pc.task.req;
            && Owns(ApplyFindCtx(s, w), r, w)
            && ViewOf(ApplyFindCtx(s, w), r) == ViewOf(s, r).(stage := Looked(s.workers[w].pc.task, true))
  {
  }

  lemma FindCtxOk(s: State, w: nat)
    requires Inv(s) && Enabled(s, FindCtx(w))
    ensures Inv(Apply(s, FindCtx(w)))
  {
    hide Inv, RequestOk, TurnStep, ApplyFindCtx;
    TurnFacts(s, w);
    var r := s.workers[w].pc.task.req;
    LookKeeps(r, ViewOf(s, r));
    LookStep(s, w);
    TurnViews(s, ApplyFindCtx(s, w), w);
  }

  lemma UncountStep(s: State, w: nat)
    requires PcAt(s, w).Looked? && Owns(s, s.workers[w].pc.task.req, w)
    requires s.workers[w].pc.live && s.workers[w].pc.task.req in s.ctxs
    ensures TurnStep(s, ApplyUncount(s, w), w)
    ensures var r := s.workers[w].pc.task.req;
            Owns(ApplyUncount(s, w), r, w) && ViewOf(ApplyUncount(s, w), r) == UncountView(ViewOf(s, r))
  {
  }

  lemma UncountOk(s: State, w: nat)
    requires Inv(s) && Enabled(s, Uncount(w))
    ensures Inv(Apply(s, Uncount(w)))
  {
    hide Inv, RequestOk, TurnStep, ApplyUncount;
    TurnFacts(s, w);
    var r := s.workers[w].pc.task.req;
    UncountKeeps(r, ViewOf(s, r));
    UncountStep(s, w);
    TurnViews(s, ApplyUncount(s, w), w);
  }

  lemma CallbackStep(s: State, w: nat)
    requires PcAt(s, w).Zeroed? && Owns(s, s.workers[w].pc.task.req, w)
    ensures TurnStep(s, ApplyCallback(s, w), w)
    ensures var r := s.workers[w].pc.task.req;
            Owns(ApplyCallback(s, w), r, w) && ViewOf(ApplyCallback(s, w), r) == CallbackView(ViewOf(s, r))
  {
  }

  lemma CallbackOk(s: State, w: nat)
    requires Inv(s) && Enabled(s, Callback(w))
    ensures Inv(Apply(s, Callback(w)))
  {
    hide Inv, RequestOk, TurnStep, ApplyCallback;
    TurnFacts(s, w);
    var r := s.workers[w].pc.task.req;
    CallbackKeeps(r, ViewOf(s, r));
    CallbackStep(s, w);
    TurnViews(s, ApplyCallback(s, w), w);
  }

  lemma UnlinkStep(s: State, w: nat)
    requires PcAt(s, w).Called? && Owns(s, s.workers[w].pc.task.req, w)
    ensures TurnStep(s, ApplyDropCtx(s, w), w)
    ensures var r := s.workers[w].pc.task.req;
            && Owns(ApplyDropCtx(s, w), r, w)
            && ViewOf(ApplyDropCtx(s, w), r) == ViewOf(s, r).(ctx := None, stage := Settled(s.workers[w].pc.task))
  {
  }

  lemma DropCtxOk(s: State, w: nat)
    requires Inv(s) && Enabled(s, DropCtx(w))
    ensures Inv(Apply(s, DropCtx(w)))
  {
    hide Inv, RequestOk, TurnStep, ApplyDropCtx;
    TurnFacts(s, w);
    var r := s.workers[w].pc.task.req;
    UnlinkKeeps(r, ViewOf(s, r));
    UnlinkStep(s, w);
    TurnViews(s, ApplyDropCtx(s, w), w);
  }

  lemma FreeTaskStep(s: State, w: nat)
    requires PcAt(s, w).Settled? && Owns(s, s.workers[w].pc.task.req, w)
    requires BatchOf(s.workers[w].pc.task) == FirstId(s.jobs[s.workers[w].pc.task.req])
    ensures TurnStep(s, ApplyFreeTask(s, w), w)
    ensures var r := s.workers[w].pc.task.req;
            Owns(ApplyFreeTask(s, w), r, w) && ViewOf(ApplyFreeTask(s, w), r) == FreeTaskView(ViewOf(s, r))
  {
  }

  lemma FreeTaskOk(s: State, w: nat)
    requires Inv(s) && Enabled(s, FreeTask(w))
    ensures Inv(Apply(s, FreeTask(w)))
  {
    hide Inv, RequestOk, TurnStep, ApplyFreeTask, OldTurn;
    TurnFacts(s, w);
    var r := s.workers[w].pc.task.req;
    if OldTurn(s, w) {
      FreeOldTaskOk(s, w);
    } else {
      LatestTurn(s, w);
      FreeTaskKeeps(r, ViewOf(s, r));
      FreeTaskStep(s, w);
      TurnViews(s, ApplyFreeTask(s, w), w);
    }
  }

  /** The end of a turn about an earlier use: only the archive and the worker move. */
  ghost predicate OldFree(s: State, s': State, w: nat) {
    && PcAt(s, w).Settled?
    && s' == SetWorker(s, w, s.workers[w].(pc := Check, state := Idle)).(past := s'.past)
    && var t := s.workers[w].pc.task;
    && BatchOf(t) in s.past
    && s'.past == s.past[BatchOf(t) := s.past[BatchOf(t)].(freed := FreeTaskCell(s.past[BatchOf(t)].freed, t.arg))]
  }

  lemma OldFreeShape(s: State, w: nat)
    requires PcAt(s, w).Settled? && OldTurn(s, w)
    requires FirstId(s.jobs[s.workers[w].pc.task.req]) != BatchOf(s.workers[w].pc.task)
    ensures OldFree(s, ApplyFreeTask(s, w), w)
  {
    hide FreeTaskCell;
  }

  lemma OldIsNotLatest(s: State, w: nat)
    requires Archive(s) && PcAt(s, w).Settled? && OldTurn(s, w)
    ensures FirstId(s.jobs[s.workers[w].pc.task.req]) != BatchOf(s.workers[w].pc.task)
  {
    hide RequestOk;
    assert PastOk(s, BatchOf(s.workers[w].pc.task));
  }

  lemma OldFreeViews(s: State, s': State, w: nat)
    requires Requests(s) && OldTurn(s, w) && OldFree(s, s', w)
    ensures Requests(s')
  {
    hide RequestOk, FreeTaskCell;
    forall r | r in s'.jobs ensures s'.jobs[r].worker < |s'.workers| && RequestOk(r, ViewOf(s', r)) {
      assert ViewOf(s', r) == ViewOf(s, r);
    }
  }

  lemma OldFreeHomes(s: State, s': State, w: nat)
    requires Workers(s) && Homes(s) && Exclusive(s) && OldFree(s, s', w)
    ensures Workers(s') && Homes(s') && Exclusive(s')
  {
    hide FreeTaskCell;
    assert forall q, i :: Owns(s, q, i) ==> Owns(s', q, i);
    assert forall i :: i != w && OldTurn(s, i) ==> OldTurn(s', i);
    forall i | 0 <= i < |s'.workers| ensures OneRequest(s'.workers[i]) && WorkerOk(s'.workers[i]) {
      assert OneRequest(s.workers[i]) && WorkerOk(s.workers[i]);
    }
  }

  lemma OldFreeRest(s: State, s': State, w: nat)
    requires SubmitterOk(s) && DestroyerOk(s) && !Closed(s) && OldFree(s, s', w)
    ensures SubmitterOk(s') && DestroyerOk(s')
  {
    hide FreeTaskCell;
    if s.sub.Scan? || s.sub.Build? {
      forall i | 0 <= i < |s'.workers| ensures UnusedAt(s'.workers[i], s.sub.req) {
        assert UnusedAt(s.workers[i], s.sub.req);
      }
    }
  }

  lemma OldFreeArchive(s: State, s': State, w: nat)
    requires Archive(s) && OldTurn(s, w) && OldFree(s, s', w)
    ensures Archive(s')
  {
    hide RequestOk, FreeTaskCell;
    var a := BatchOf(s.workers[w].pc.task);
    forall u | u in s'.past ensures PastOk(s', u) {
      assert PastOk(s, u);
      if u == a {
        FreeTaskKeeps(s.past[u].tasks[0].req, PastView(s, u));
        assert PastView(s', u) == FreeTaskView(PastView(s, u));
      } else {
        assert PastView(s', u) == PastView(s, u);
      }
    }
  }

  lemma FreeOldTaskOk(s: State, w: nat)
    requires Inv(s) && Enabled(s, FreeTask(w)) && OldTurn(s, w)
    ensures Inv(ApplyFreeTask(s, w))
  {
    hide Workers, Homes, Exclusive, SubmitterOk, DestroyerOk, Requests, Archive, OldTurn, OldFree, ApplyFreeTask;
    var s' := ApplyFreeTask(s, w);
    NotClosed(s, w);
    OldIsNotLatest(s, w);
    OldFreeShape(s, w);
    OldFreeViews(s, s', w);
    OldFreeHomes(s, s', w);
    OldFreeRest(s, s', w);
    OldFreeArchive(s, s', w);
  }

  // ----- the rest of the worker's loop -----

  /** What a worker at the top of its loop may rely on. */
  lemma LoopFacts(s: State, w: nat)
    requires Inv(s) && w < |s.workers| && !Closed(s)
    ensures WorkerOk(s.workers[w]) && OneRequest(s.workers[w])
    ensures s.workers[w].pending != 0 ==> s.workers[w].pending in s.jobs
    ensures forall t :: t in s.workers[w].queue ==> Owns(s, t.req, w)
    ensures forall r :: Owns(s, r, w) ==> RequestOk(r, ViewOf(s, r))
    ensures s.destroyer.Signalling? && w < s.destroyer.done ==> !s.workers[w].pc.Doze? && !s.workers[w].pc.Asleep?
  {
    hide Archive, SubmitterOk, RequestOk;
  }

  /** Worker `w` moves between waiting positions, or out, and nothing else happens. */
  lemma IdleStep(s: State, w: nat, x': Worker)
    requires w < |s.workers| && !InTurn(s.workers[w].pc) && !InTurn(x'.pc)
    requires x'.queue == s.workers[w].queue && x'.pending == s.workers[w].pending
    ensures forall r :: r in s.jobs && s.jobs[r].worker < |s.workers| ==>
              var v := ViewOf(s, r);
              ViewOf(SetWorker(s, w, x'), r) == v.(deaf := if v.job.worker == w then r == 0 || x'.pc.Gone? else v.deaf)
  {
  }

  lemma IdleKeepsHomes(s: State, w: nat, x': Worker)
    requires Workers(s) && Homes(s) && Exclusive(s)
    requires w < |s.workers| && !InTurn(s.workers[w].pc) && !InTurn(x'.pc)
    requires x'.queue == s.workers[w].queue && x'.pending == s.workers[w].pending && WorkerOk(x')
    ensures Workers(SetWorker(s, w, x')) && Homes(SetWorker(s, w, x')) && Exclusive(SetWorker(s, w, x'))
  {
    var s' := SetWorker(s, w, x');
    assert forall q, i :: Owns(s, q, i) ==> Owns(s', q, i);
    assert forall i :: i != w && OldTurn(s, i) ==> OldTurn(s', i);
    forall i | 0 <= i < |s'.workers| ensures OneRequest(s'.workers[i]) && WorkerOk(s'.workers[i]) {
      assert OneRequest(s.workers[i]) && WorkerOk(s.workers[i]);
    }
  }

  lemma IdleKeepsRest(s: State, w: nat, x': Worker)
    requires SubmitterOk(s) && DestroyerOk(s) && !Closed(s)
    requires w < |s.workers| && !InTurn(s.workers[w].pc) && !InTurn(x'.pc)
    requires x'.queue == s.workers[w].queue && x'.pending == s.workers[w].pending
    requires s.destroyer.Signalling? && w < s.destroyer.done ==> !x'.pc.Doze? && !x'.pc.Asleep?
    ensures SubmitterOk(SetWorker(s, w, x')) && DestroyerOk(SetWorker(s, w, x'))
  {
    var s' := SetWorker(s, w, x');
    if s.sub.Scan? || s.sub.Build? {
      forall i | 0 <= i < |s'.workers| ensures UnusedAt(s'.workers[i], s.sub.req) {
        assert UnusedAt(s.workers[i], s.sub.req);
      }
    }
  }

  lemma IdleMoveOk(s: State, w: nat, x': Worker)
    requires Inv(s) && !Closed(s) && w < |s.workers| && !InTurn(s.workers[w].pc) && !InTurn(x'.pc)
    requires x'.queue == s.workers[w].queue && x'.pending == s.workers[w].pending && WorkerOk(x')
    requires s.destroyer.Signalling? && w < s.destroyer.done ==> !x'.pc.Doze? && !x'.pc.Asleep?
    requires s.workers[w].pc.Gone? ==> x'.pc.Gone?
    ensures Inv(SetWorker(s, w, x'))
  {
    hide Workers, Homes, Exclusive, SubmitterOk, DestroyerOk, Requests, Archive;
    IdleKeepsHomes(s, w, x');
    IdleKeepsRest(s, w, x');
    IdleViews(s, w, x');
    IdleKeepsArchive(s, w, x');
  }

  lemma IdleViews(s: State, w: nat, x': Worker)
    requires Requests(s) && w < |s.workers| && !InTurn(s.workers[w].pc) && !InTurn(x'.pc)
    requires x'.queue == s.workers[w].queue && x'.pending == s.workers[w].pending
    requires s.workers[w].pc.Gone? ==> x'.pc.Gone?
    ensures Requests(SetWorker(s, w, x'))
  {
    hide RequestOk;
    var s' := SetWorker(s, w, x');
    IdleStep(s, w, x');
    forall r | r in s'.jobs ensures s'.jobs[r].worker < |s'.workers| && RequestOk(r, ViewOf(s', r)) {
      DeafKeeps(r, ViewOf(s, r), ViewOf(s', r).deaf);
    }
  }

  lemma IdleKeepsArchive(s: State, w: nat, x': Worker)
    requires Archive(s) && w < |s.workers| && !InTurn(s.workers[w].pc) && !InTurn(x'.pc)
    ensures Archive(SetWorker(s, w, x'))
  {
    hide PastOk;
    ArchiveKept(s, SetWorker(s, w, x'));
  }

  lemma NotClosed(s: State, w: nat)
    requires Inv(s) && w < |s.workers| && !s.workers[w].pc.Gone?
    ensures !Closed(s)
  {
  }

  lemma LoopTopOk(s: State, w: nat)
    requires Inv(s) && Enabled(s, LoopTop(w))
    ensures Inv(Apply(s, LoopTop(w)))
  {
    hide Inv;
    NotClosed(s, w);
    LoopFacts(s, w);
    var x := s.workers[w];
    if x.pending == 0 {
      IdleMoveOk(s, w, if Destroying(s) then x.(pc := Gone, state := Exit) else x.(pc := Doze));
    } else if Mine(x.queue, x.pending) == [] {
      ClearSlotOk(s, w);
    } else {
      SlotHitOk(s, w);
    }
  }

  lemma ClearSlotStep(s: State, w: nat)
    requires w < |s.workers| && s.workers[w].pending != 0
    requires s.workers[w].pending in s.jobs && WorkerOk(s.workers[w]) && OneRequest(s.workers[w])
             && !InTurn(s.workers[w].pc)
    requires s.destroyer.Signalling? && w < s.destroyer.done ==> !s.workers[w].pc.Doze? && !s.workers[w].pc.Asleep?
    ensures var s', r := SetWorker(s, w, s.workers[w].(pending := 0)), s.workers[w].pending;
            WorkerStep(s, s', w, r) && SameBut(s, s', r)
  {
  }

  /** Only the worker that has the request's tasks shows the slot in the view of the request. */
  lemma ClearSlotView(s: State, w: nat)
    requires w < |s.workers| && s.workers[w].pending != 0
    requires var r := s.workers[w].pending; r in s.jobs && s.jobs[r].worker < |s.workers|
    ensures var s', r := SetWorker(s, w, s.workers[w].(pending := 0)), s.workers[w].pending;
            ViewOf(s', r) == if s.jobs[r].worker == w then ViewOf(s, r).(slot := false) else ViewOf(s, r)
  {
  }

  /** A slot is emptied: by the worker that takes it, or by the next wake. */
  lemma ClearSlotOk(s: State, w: nat)
    requires Inv(s) && w < |s.workers| && !Closed(s) && s.workers[w].pending != 0 && !InTurn(s.workers[w].pc)
    ensures Inv(SetWorker(s, w, s.workers[w].(pending := 0)))
  {
    hide Inv, RequestOk, ViewOf, WorkerStep, SameBut, WorkerOk, OneRequest;
    LoopFacts(s, w);
    var r := s.workers[w].pending;
    RequestFacts(s, r);
    MissKeeps(r, ViewOf(s, r));
    ClearSlotStep(s, w);
    ClearSlotView(s, w);
    WorkerStepOk(s, SetWorker(s, w, s.workers[w].(pending := 0)), w, r);
  }

  /** Queued tasks are at home. */
  lemma SlotHitOwns(s: State, w: nat)
    requires Homes(s) && w < |s.workers| && Mine(s.workers[w].queue, s.workers[w].pending) != []
    ensures Owns(s, s.workers[w].pending, w)
  {
    var x := s.workers[w];
    MineMembers(x.queue, x.pending);
    assert Mine(x.queue, x.pending)[0] in Mine(x.queue, x.pending);
  }

  lemma PopQueue(q: seq<Task>, r: Req)
    requires Mine(q, r) != []
    ensures FirstOf(q, r) == Some(Mine(q, r)[0]) && Mine(q, r)[0].req == r && Mine(q, r)[0] in q
    ensures Mine(DropFirst(q, r), r) == Mine(q, r)[1..]
    ensures forall x :: x != r ==> Mine(DropFirst(q, r), x) == Mine(q, x)
    ensures |DropFirst(q, r)| <= |q| && forall t :: t in DropFirst(q, r) ==> t in q
  {
    MineMembers(q, r);
    DropFirstSplits(q, r);
    assert Mine(q, r)[0] in Mine(q, r);
    forall x | x != r ensures Mine(DropFirst(q, r), x) == Mine(q, x) {
      DropFirstKeepsOthers(q, r, x);
    }
  }

  lemma PopShape(s: State, w: nat)
    requires PcAt(s, w).Check? && s.workers[w].pending != 0 && Mine(s.workers[w].queue, s.workers[w].pending) != []
    requires Owns(s, s.workers[w].pending, w) && WorkerOk(s.workers[w]) && OneRequest(s.workers[w])
    requires Recent(s.past, Popped(Mine(s.workers[w].queue, s.workers[w].pending)[0]))
    ensures var s', r := ApplyLoopTop(s, w), s.workers[w].pending;
            |s'.workers| == |s.workers| && WorkerStep(s, s', w, r)
  {
    hide Mine, DropFirst, FirstOf;
    PopQueue(s.workers[w].queue, s.workers[w].pending);
  }

  lemma PopStep(s: State, w: nat)
    requires PcAt(s, w).Check? && s.workers[w].pending != 0 && Mine(s.workers[w].queue, s.workers[w].pending) != []
    requires Owns(s, s.workers[w].pending, w)
    ensures var s', r := ApplyLoopTop(s, w), s.workers[w].pending;
            SameBut(s, s', r) && Owns(s', r, w) && ViewOf(s', r) == PopView(ViewOf(s, r))
  {
    hide Mine, DropFirst, FirstOf;
    PopQueue(s.workers[w].queue, s.workers[w].pending);
  }

  lemma InvParts(s: State)
    requires Inv(s)
    ensures Homes(s) && Exclusive(s) && Requests(s) && Archive(s)
  {
    hide Workers, Homes, Exclusive, SubmitterOk, DestroyerOk, Requests, Archive;
  }

  /** The task a pop takes out belongs to the latest batch of its id. */
  lemma PoppedIsLatest(s: State, w: nat)
    requires Requests(s) && Archive(s) && w < |s.workers| && Mine(s.workers[w].queue, s.workers[w].pending) != []
    requires Owns(s, s.workers[w].pending, w)
    ensures Recent(s.past, Popped(Mine(s.workers[w].queue, s.workers[w].pending)[0]))
  {
    hide Mine;
    var r := s.workers[w].pending;
    var v := ViewOf(s, r);
    QueuedStretch(r, v);
    assert v.queued[0] in v.job.tasks;
    assert BatchOf(v.queued[0]) == FirstId(s.jobs[r]);
    hide RequestOk;
    NotArchived(s, r);
  }

  lemma SlotHitOk(s: State, w: nat)
    requires Inv(s) && Enabled(s, LoopTop(w)) && s.workers[w].pending != 0
    requires Mine(s.workers[w].queue, s.workers[w].pending) != []
    ensures Inv(Apply(s, LoopTop(w)))
  {
    hide Inv, RequestOk, WorkerStep, SameBut, WorkerOk, OneRequest, ApplyLoopTop, Homes;
    NotClosed(s, w);
    LoopFacts(s, w);
    InvParts(s);
    SlotHitOwns(s, w);
    var r := s.workers[w].pending;
    PopKeeps(r, ViewOf(s, r));
    PoppedIsLatest(s, w);
    PopShape(s, w);
    PopStep(s, w);
    WorkerStepOk(s, ApplyLoopTop(s, w), w, r);
  }

  lemma WaitingOk(s: State, w: nat, a: Action)
    requires Inv(s) && Enabled(s, a) && (a == Wait(w) || a == Rouse(w) || a == Relock(w))
    ensures Inv(Apply(s, a))
  {
    hide Inv;
    NotClosed(s, w);
    LoopFacts(s, w);
    var x := s.workers[w];
    IdleMoveOk(s, w, x.(pc := if a.Wait? then Asleep else if a.Rouse? then Roused else Check));
  }

  // ----- wakes -----

  /** What a thread that looks a request up may rely on. */
  lemma RequestFacts(s: State, r: Req)
    requires Inv(s) && r in s.jobs
    ensures s.jobs[r].worker < |s.workers| && RequestOk(r, ViewOf(s, r))
  {
  }

  lemma ContextFacts(s: State, r: Req)
    requires Inv(s) && r in s.ctxs
    ensures r in s.jobs && s.jobs[r].worker == s.ctxs[r].worker < |s.workers| && s.jobs[r].counted
    ensures RequestOk(r, ViewOf(s, r)) && ViewOf(s, r).ctx.Some?
  {
  }

  lemma FindKeepsGlobals(s: State, s': State, r: Req)
    requires Workers(s) && Homes(s) && Exclusive(s) && SubmitterOk(s) && DestroyerOk(s) && !Closed(s)
    requires r in s.ctxs && Owns(s, r, s.ctxs[r].worker)
    requires s' == s.(jobs := s'.jobs, wakes := s'.wakes, cancels := s'.cancels)
    requires r in s'.jobs && s'.jobs == s.jobs[r := s.jobs[r].(accepted := s'.jobs[r].accepted)]
    requires forall p :: p in s'.wakes ==> p in s.wakes || p == (r, s.ctxs[r].worker)
    requires forall p :: p in s'.cancels ==> p in s.cancels || p == (r, s.ctxs[r].worker)
    ensures Workers(s') && Homes(s') && Exclusive(s') && SubmitterOk(s') && DestroyerOk(s')
  {
    FindKeepsHomes(s, s', r);
    hide Homes, OneRequest, WorkerOk, UnusedAt;
  }

  lemma FindKeepsHomes(s: State, s': State, r: Req)
    requires Homes(s) && r in s.ctxs && Owns(s, r, s.ctxs[r].worker)
    requires s' == s.(jobs := s'.jobs, wakes := s'.wakes, cancels := s'.cancels)
    requires r in s'.jobs && s'.jobs == s.jobs[r := s.jobs[r].(accepted := s'.jobs[r].accepted)]
    requires forall p :: p in s'.wakes ==> p in s.wakes || p == (r, s.ctxs[r].worker)
    requires forall p :: p in s'.cancels ==> p in s.cancels || p == (r, s.ctxs[r].worker)
    ensures Homes(s')
  {
    assert forall q, i :: Owns(s, q, i) ==> Owns(s', q, i);
    assert forall i :: OldTurn(s, i) ==> OldTurn(s', i);
  }

  lemma FindKeepsArchive(s: State, s': State, r: Req)
    requires Archive(s) && s' == s.(jobs := s'.jobs, wakes := s'.wakes, cancels := s'.cancels)
    requires r in s.jobs && r in s'.jobs && s'.jobs == s.jobs[r := s.jobs[r].(accepted := s'.jobs[r].accepted)]
    ensures Archive(s')
  {
    hide PastOk;
    ArchiveKept(s, s');
  }

  lemma WakeFindStep(s: State, r: Req)
    requires r in s.ctxs && r in s.jobs && s.jobs[r].worker == s.ctxs[r].worker < |s.workers|
    ensures var s' := ApplyWakeFind(s, r);
            var v := ViewOf(s, r);
            && SameBut(s, s', r) && Owns(s', r, s.jobs[r].worker)
            && ViewOf(s', r) == v.(flights := v.flights + 1, job := v.job.(accepted := v.job.accepted + 1))
  {
    hide Mine, StageOf;
  }

  lemma WakeFindOk(s: State, r: Req)
    requires Inv(s) && !Closed(s)
    ensures Inv(ApplyWakeFind(s, r))
  {
    hide Workers, Homes, Exclusive, SubmitterOk, DestroyerOk, RequestOk, SameBut, Requests, ViewOf, Archive;
    if r in s.ctxs {
      ContextFacts(s, r);
      WakeFindKeeps(r, ViewOf(s, r));
      WakeFindStep(s, r);
      FindKeepsGlobals(s, ApplyWakeFind(s, r), r);
      FindKeepsArchive(s, ApplyWakeFind(s, r), r);
      Frame(s, ApplyWakeFind(s, r), r);
    }
  }

  function ApplyWakeSet(s: State, r: Req, w: nat): State
    requires w < |s.workers|
  {
    SetWorker(s, w, Signalled(s.workers[w].(pending := r))).(wakes := s.wakes - multiset{(r, w)})
  }

  lemma WakeSetStep(s: State, r: Req, w: nat)
    requires (r, w) in s.wakes && Owns(s, r, w) && w < |s.workers| && s.workers[w].pending == 0
    ensures var s' := ApplyWakeSet(s, r, w);
            var v := ViewOf(s, r);
            && SameBut(s, s', r) && Owns(s', r, w) && |s'.workers| == |s.workers| && v.flights > 0
            && ViewOf(s', r) == v.(flights := v.flights - 1, slot := r != 0)
  {
    WakeSetLocal(s, r, w);
    hide SameBut, Mine;
  }

  lemma WakeSetLocal(s: State, r: Req, w: nat)
    requires (r, w) in s.wakes && w < |s.workers| && s.workers[w].pending == 0
    ensures SameBut(s, ApplyWakeSet(s, r, w), r)
  {
    hide Mine;
  }

  /** A wake that arrives at a worker the request has left for another changes nothing for it. */
  lemma WakeSetAstray(s: State, r: Req, w: nat)
    requires (r, w) in s.wakes && w < |s.workers| && r in s.jobs && s.jobs[r].worker != w
             && s.jobs[r].worker < |s.workers|
    ensures ViewOf(ApplyWakeSet(s, r, w), r) == ViewOf(s, r)
  {
  }

  lemma WakeSetGlobals(s: State, r: Req, w: nat)
    requires Workers(s) && Homes(s) && Exclusive(s) && !Closed(s)
    requires (r, w) in s.wakes && Unlocked(s, w)
    ensures var s' := ApplyWakeSet(s, r, w); Workers(s') && Homes(s') && Exclusive(s')
  {
    var s' := ApplyWakeSet(s, r, w);
    assert forall q, i :: Owns(s, q, i) ==> Owns(s', q, i);
    assert forall i :: OldTurn(s, i) ==> OldTurn(s', i);
    forall i | 0 <= i < |s'.workers| ensures OneRequest(s'.workers[i]) && WorkerOk(s'.workers[i]) {
      assert OneRequest(s.workers[i]) && WorkerOk(s.workers[i]);
    }
  }

  lemma WakeSetRest(s: State, r: Req, w: nat)
    requires SubmitterOk(s) && DestroyerOk(s) && !Closed(s)
    requires (r, w) in s.wakes && Unlocked(s, w)
    ensures SubmitterOk(ApplyWakeSet(s, r, w)) && DestroyerOk(ApplyWakeSet(s, r, w))
  {
    var s' := ApplyWakeSet(s, r, w);
    if s.sub.Scan? || s.sub.Build? {
      forall i | 0 <= i < |s'.workers| ensures UnusedAt(s'.workers[i], s.sub.req) {
        assert UnusedAt(s.workers[i], s.sub.req);
      }
    }
  }

  lemma WakeSetArchive(s: State, r: Req, w: nat)
    requires Archive(s) && Unlocked(s, w)
    ensures Archive(ApplyWakeSet(s, r, w))
  {
    hide PastOk;
    ArchiveKept(s, ApplyWakeSet(s, r, w));
  }

  lemma WakeSetViews(s: State, r: Req, w: nat)
    requires Requests(s) && (r, w) in s.wakes && w < |s.workers| && s.workers[w].pending == 0
    requires r in s.jobs && s.jobs[r].worker < |s.workers|
    ensures Requests(ApplyWakeSet(s, r, w))
  {
    hide RequestOk, SameBut, ApplyWakeSet, ViewOf;
    WakeSetLocal(s, r, w);
    WakeSetKeepsJobs(s, r, w);
    if Owns(s, r, w) {
      WakeSetStep(s, r, w);
      WakeSetKeeps(r, ViewOf(s, r));
    } else {
      WakeSetAstray(s, r, w);
    }
    Frame(s, ApplyWakeSet(s, r, w), r);
  }

  lemma WakeIntoEmptySlotOk(s: State, r: Req, w: nat)
    requires Inv(s) && (r, w) in s.wakes && Unlocked(s, w) && s.workers[w].pending == 0
    ensures Inv(ApplyWakeSet(s, r, w))
  {
    WakeFacts(s, r, w);
    hide Workers, Homes, Exclusive, SubmitterOk, DestroyerOk, RequestOk, SameBut, Requests, ApplyWakeSet, ViewOf,
         Archive;
    RequestFacts(s, r);
    WakeSetViews(s, r, w);
    WakeSetGlobals(s, r, w);
    WakeSetRest(s, r, w);
    WakeSetArchive(s, r, w);
  }

  lemma WakeSetKeepsJobs(s: State, r: Req, w: nat)
    requires w < |s.workers|
    ensures ApplyWakeSet(s, r, w).jobs == s.jobs && |ApplyWakeSet(s, r, w).workers| == |s.workers|
  {
  }

  lemma WakeFacts(s: State, r: Req, w: nat)
    requires Inv(s) && (r, w) in s.wakes && Unlocked(s, w)
    ensures !Closed(s) && r in s.jobs
  {
    hide Workers, Exclusive, SubmitterOk, Requests, Archive;
  }

  lemma WakeSetOk(s: State, r: Req, w: nat)
    requires Inv(s) && (r, w) in s.wakes && Unlocked(s, w)
    ensures Inv(ApplyWakeSet(s, r, w))
  {
    hide Inv;
    WakeFacts(s, r, w);
    if s.workers[w].pending == 0 {
      WakeIntoEmptySlotOk(s, r, w);
    } else {
      var t := SetWorker(s, w, s.workers[w].(pending := 0));
      ClearSlotOk(s, w);
      WakeIntoEmptySlotOk(t, r, w);
      assert ApplyWakeSet(t, r, w) == ApplyWakeSet(s, r, w);
    }
  }

  // ----- cancels -----

  lemma CancelFindStep(s: State, r: Req)
    requires r in s.ctxs && r in s.jobs && s.jobs[r].worker == s.ctxs[r].worker < |s.workers|
    ensures var s' := ApplyCancelFind(s, r);
            var v := ViewOf(s, r);
            && SameBut(s, s', r) && Owns(s', r, s.jobs[r].worker)
            && ViewOf(s', r) == v.(cancelling := v.cancelling + 1)
  {
  }

  lemma CancelFindOk(s: State, r: Req)
    requires Inv(s) && !Closed(s)
    ensures Inv(ApplyCancelFind(s, r))
  {
    hide Workers, Homes, Exclusive, SubmitterOk, DestroyerOk, RequestOk, SameBut, Requests, ViewOf, Archive;
    if r in s.ctxs {
      ContextFacts(s, r);
      CancelFindKeeps(r, ViewOf(s, r));
      CancelFindStep(s, r);
      FindKeepsGlobals(s, ApplyCancelFind(s, r), r);
      FindKeepsArchive(s, ApplyCancelFind(s, r), r);
      Frame(s, ApplyCancelFind(s, r), r);
    }
  }

  lemma CancelQueueFacts(q: seq<Task>, r: Req)
    ensures Mine(Others(q, r), r) == []
    ensures Mine(q, r) == [] ==> Others(q, r) == q
    ensures forall x :: x != r ==> Mine(Others(q, r), x) == Mine(q, x)
    ensures |Others(q, r)| <= |q| && forall t :: t in Others(q, r) ==> t in q
  {
    forall x ensures Mine(Others(q, r), x) == if x == r then [] else Mine(q, x) {
      OthersSplits(q, r, x);
    }
    OthersSplits(q, r, r);
    if Mine(q, r) == [] {
      MineMembers(q, r);
      assert forall i :: 0 <= i < |q| ==> q[i] in q;
      NoMatch(q, r);
    }
  }

  lemma CancelQueueWorkers(p: State, r: Req, w: nat)
    requires w < |p.workers|
    ensures var p' := ApplyCancelQueue(p, r, w);
            && p'.workers == p.workers[w := p.workers[w].(queue := Others(p.workers[w].queue, r))]
            && p'.destroyer == p.destroyer && p'.sub == p.sub && p'.wakes == p.wakes
            && forall q :: q in p.jobs ==> q in p'.jobs && p'.jobs[q].worker == p.jobs[q].worker
  {
    hide Mine, Others, FreeAll;
  }

  lemma CancelQueueLocal(s: State, r: Req, w: nat)
    requires (r, w) in s.cancels && Owns(s, r, w) && w < |s.workers| && Mine(s.workers[w].queue, r) != []
    ensures SameBut(s, ApplyCancelQueue(s, r, w), r)
  {
    hide Mine, Others, FreeAll;
    CancelQueueFacts(s.workers[w].queue, r);
  }

  lemma CancelQueueStep(s: State, r: Req, w: nat)
    requires (r, w) in s.cancels && Owns(s, r, w) && w < |s.workers| && r !in s.removed
    requires Mine(s.workers[w].queue, r) != []
    ensures var s' := ApplyCancelQueue(s, r, w);
            && Owns(s', r, w) && |s'.workers| == |s.workers| && ViewOf(s, r).cancelling > 0
            && ViewOf(s', r) == CancelView(ViewOf(s, r))
  {
    hide Mine, Others, FreeAll;
    CancelQueueFacts(s.workers[w].queue, r);
  }

  /** A cancel that finds no task of its request on the worker changes no queue. */
  lemma CancelMissShape(s: State, r: Req, w: nat)
    requires w < |s.workers| && Mine(s.workers[w].queue, r) == []
    ensures ApplyCancelQueue(s, r, w) == s.(cancels := s.cancels - multiset{(r, w)})
  {
    hide Mine, Others;
    CancelQueueFacts(s.workers[w].queue, r);
    assert ApplyCancelQueue(s, r, w).workers == s.workers;
  }

  lemma CancelMissLocal(s: State, s': State, r: Req, w: nat)
    requires s' == s.(cancels := s.cancels - multiset{(r, w)})
    ensures SameBut(s, s', r)
  {
  }

  lemma CancelMissView(s: State, s': State, r: Req, w: nat)
    requires (r, w) in s.cancels && s' == s.(cancels := s.cancels - multiset{(r, w)})
    requires r in s.jobs && s.jobs[r].worker < |s.workers|
    ensures var v := ViewOf(s, r);
            if s.jobs[r].worker == w then v.cancelling > 0 && ViewOf(s', r) == v.(cancelling := v.cancelling - 1)
            else ViewOf(s', r) == v
  {
  }

  lemma CancelMissGlobals(s: State, s': State, r: Req, w: nat)
    requires Workers(s) && Homes(s) && Exclusive(s) && SubmitterOk(s) && DestroyerOk(s) && (r, w) in s.cancels
    requires s' == s.(cancels := s.cancels - multiset{(r, w)})
    ensures Workers(s') && Homes(s') && Exclusive(s') && SubmitterOk(s') && DestroyerOk(s')
  {
    assert forall q, i :: Owns(s, q, i) ==> Owns(s', q, i);
    assert forall i :: OldTurn(s, i) ==> OldTurn(s', i);
  }

  /** What the queue loses, the history of the request gains. */
  ghost predicate CancelShape(s: State, s': State, r: Req, w: nat) {
    && w < |s.workers| == |s'.workers| && r in s.jobs
    && s' == s.(workers := s'.workers, cancels := s'.cancels, removed := s'.removed, jobs := s'.jobs)
    && (forall p :: p in s'.cancels ==> p in s.cancels)
    && (forall i :: 0 <= i < |s.workers| && i != w ==> s'.workers[i] == s.workers[i])
    && s'.workers[w] == s.workers[w].(queue := s'.workers[w].queue)
    && |s'.workers[w].queue| <= |s.workers[w].queue|
    && (forall t :: t in s'.workers[w].queue ==> t in s.workers[w].queue)
    && s'.removed.Keys == s.removed.Keys + {r} && s'.removed[r] > 0
    && (forall q :: q in s.removed && q != r ==> s'.removed[q] == s.removed[q])
    && s'.jobs.Keys == s.jobs.Keys && (forall q :: q in s.jobs && q != r ==> s'.jobs[q] == s.jobs[q])
    && s'.jobs[r] == s.jobs[r].(cancelled := s'.jobs[r].cancelled, freed := s'.jobs[r].freed)
  }

  lemma CancelHasShape(s: State, r: Req, w: nat)
    requires (r, w) in s.cancels && Owns(s, r, w) && w < |s.workers| && Mine(s.workers[w].queue, r) != []
    ensures CancelShape(s, ApplyCancelQueue(s, r, w), r, w)
  {
    hide Mine, Others;
    CancelQueueFacts(s.workers[w].queue, r);
  }

  lemma CancelHomes(s: State, s': State, r: Req, w: nat)
    requires Workers(s) && Homes(s) && Exclusive(s) && CancelShape(s, s', r, w)
    ensures Workers(s') && Homes(s') && Exclusive(s')
  {
    CancelWorkers(s, s', r, w);
    hide Workers, Exclusive;
    assert forall q, i :: Owns(s, q, i) ==> Owns(s', q, i);
    assert forall i :: OldTurn(s, i) ==> OldTurn(s', i);
  }

  lemma CancelWorkers(s: State, s': State, r: Req, w: nat)
    requires Workers(s) && Exclusive(s) && CancelShape(s, s', r, w)
    ensures Workers(s') && Exclusive(s')
  {
    forall i | 0 <= i < |s'.workers| ensures OneRequest(s'.workers[i]) && WorkerOk(s'.workers[i]) {
      assert OneRequest(s.workers[i]) && WorkerOk(s.workers[i]);
    }
  }

  lemma CancelSubmitter(s: State, s': State, r: Req, w: nat)
    requires SubmitterOk(s) && DestroyerOk(s) && CancelShape(s, s', r, w) && (r, w) in s.cancels && !Closed(s)
    requires Mine(s.workers[w].queue, r) != []
    ensures SubmitterOk(s') && DestroyerOk(s')
  {
    if s.sub.Scan? || s.sub.Build? {
      MineMembers(s.workers[w].queue, r);
      assert Mine(s.workers[w].queue, r)[0] in Mine(s.workers[w].queue, r) && UnusedAt(s.workers[w], s.sub.req);
      assert s.sub.req != r;
      forall i | 0 <= i < |s'.workers| ensures UnusedAt(s'.workers[i], s.sub.req) {
        assert UnusedAt(s.workers[i], s.sub.req);
      }
    }
  }

  lemma CancelFacts(s: State, r: Req, w: nat)
    requires Inv(s) && (r, w) in s.cancels && Unlocked(s, w)
    ensures !Closed(s) && r in s.jobs && s.jobs[r].worker < |s.workers| && RequestOk(r, ViewOf(s, r))
    ensures Owns(s, r, w) ==> ViewOf(s, r).stage.Check? && ViewOf(s, r).queued == Mine(s.workers[w].queue, r)
    ensures !Owns(s, r, w) ==> Mine(s.workers[w].queue, r) == []
    ensures Mine(s.workers[w].queue, r) != [] ==> r !in s.removed
  {
    hide Inv, RequestOk, Mine, Homes;
    CancelOpen(s, r, w);
    InvParts(s);
    CancelKnown(s, r, w);
    RequestFacts(s, r);
    OwedLeavesNothing(s, r);
    if !Owns(s, r, w) {
      NoForeignTasks(s, r, w);
    }
  }

  lemma CancelKnown(s: State, r: Req, w: nat)
    requires Homes(s) && (r, w) in s.cancels
    ensures r in s.jobs
  {
  }

  lemma CancelOpen(s: State, r: Req, w: nat)
    requires Inv(s) && (r, w) in s.cancels
    ensures !Closed(s)
  {
    hide Workers, Homes, Exclusive, SubmitterOk, Requests, Archive;
  }

  /** While a cancel still owes tasks to the count, none is queued. */
  lemma OwedLeavesNothing(s: State, r: Req)
    requires Inv(s) && !Closed(s) && r in s.jobs && s.jobs[r].worker < |s.workers| && RequestOk(r, ViewOf(s, r))
    ensures r in s.removed ==> ViewOf(s, r).queued == []
  {
    hide Workers, Exclusive, SubmitterOk, DestroyerOk, Requests, Fates, Ledger, Archive;
  }

  lemma CancelMissArchive(s: State, s': State, r: Req, w: nat)
    requires Archive(s) && s' == s.(cancels := s.cancels - multiset{(r, w)})
    ensures Archive(s')
  {
    hide PastOk;
    ArchiveKept(s, s');
  }

  lemma CancelArchive(s: State, s': State, r: Req, w: nat)
    requires Archive(s) && CancelShape(s, s', r, w)
    ensures Archive(s')
  {
    hide PastOk;
    ArchiveKept(s, s');
  }

  lemma CancelQueueOk(s: State, r: Req, w: nat)
    requires Inv(s) && (r, w) in s.cancels && Unlocked(s, w)
    ensures Inv(ApplyCancelQueue(s, r, w))
  {
    hide Workers, Homes, Exclusive, SubmitterOk, DestroyerOk, RequestOk, SameBut, Requests, Archive, ApplyCancelQueue,
         Mine, Others, CancelShape;
    CancelFacts(s, r, w);
    var v, s' := ViewOf(s, r), ApplyCancelQueue(s, r, w);
    if Mine(s.workers[w].queue, r) == [] {
      CancelMissShape(s, r, w);
      CancelMissLocal(s, s', r, w);
      CancelMissView(s, s', r, w);
      if Owns(s, r, w) {
        CancelMissKeeps(r, v);
      }
      CancelMissGlobals(s, s', r, w);
      CancelMissArchive(s, s', r, w);
    } else {
      CancelQueueLocal(s, r, w);
      CancelQueueStep(s, r, w);
      CancelKeeps(r, v);
      CancelHasShape(s, r, w);
      CancelHomes(s, s', r, w);
      CancelSubmitter(s, s', r, w);
      CancelArchive(s, s', r, w);
    }
    Frame(s, s', r);
  }

  lemma CancelCountFacts(s: State, r: Req)
    requires Inv(s) && r in s.removed
    ensures !Closed(s) && r in s.jobs && s.jobs[r].worker < |s.workers|
    ensures RequestOk(r, ViewOf(s, r)) && ViewOf(s, r).owedToCancel == s.removed[r] > 0
  {
    hide Workers, Exclusive, SubmitterOk, RequestOk, Archive;
  }

  lemma CancelCountStep(s: State, r: Req)
    requires r in s.removed && r in s.ctxs && s.ctxs[r].count == s.removed[r]
    requires r in s.jobs && s.jobs[r].worker < |s.workers|
    ensures var s' := ApplyCancelCount(s, r);
            && s' == s.(ctxs := s.ctxs - {r}, removed := s.removed - {r})
            && SameBut(s, s', r) && ViewOf(s', r) == ViewOf(s, r).(ctx := None, owedToCancel := 0)
  {
  }

  lemma CancelCountGlobals(s: State, s': State, r: Req)
    requires Workers(s) && Homes(s) && Exclusive(s) && SubmitterOk(s) && DestroyerOk(s) && !Closed(s)
    requires s' == s.(ctxs := s.ctxs - {r}, removed := s.removed - {r})
    ensures Workers(s') && Homes(s') && Exclusive(s') && SubmitterOk(s') && DestroyerOk(s')
  {
    assert forall q, i :: Owns(s, q, i) ==> Owns(s', q, i);
    assert forall i :: OldTurn(s, i) ==> OldTurn(s', i);
  }

  lemma CancelCountArchive(s: State, s': State, r: Req)
    requires Archive(s) && s' == s.(ctxs := s.ctxs - {r}, removed := s.removed - {r})
    ensures Archive(s')
  {
    hide PastOk;
    ArchiveKept(s, s');
  }

  lemma CancelCountOk(s: State, r: Req)
    requires Inv(s) && r in s.removed
    ensures Inv(ApplyCancelCount(s, r))
  {
    CancelCountFacts(s, r);
    hide Workers, Homes, Exclusive, SubmitterOk, DestroyerOk, RequestOk, SameBut, Requests, Archive, ApplyCancelCount;
    CancelCountKeeps(r, ViewOf(s, r));
    CancelCountStep(s, r);
    CancelCountGlobals(s, ApplyCancelCount(s, r), r);
    CancelCountArchive(s, ApplyCancelCount(s, r), r);
    Frame(s, ApplyCancelCount(s, r), r);
  }

  // ----- submission -----

  lemma SubmitterMoveViews(s: State, s': State)
    requires Requests(s) && s' == s.(sub := s'.sub, nextId := s'.nextId, scrapped := s'.scrapped)
    ensures Requests(s')
  {
    hide RequestOk;
    forall r | r in s'.jobs ensures s'.jobs[r].worker < |s'.workers| && RequestOk(r, ViewOf(s', r)) {
      assert ViewOf(s', r) == ViewOf(s, r);
    }
  }

  lemma SubmitterMoveGlobals(s: State, s': State)
    requires Workers(s) && Homes(s) && Exclusive(s) && DestroyerOk(s) && !Closed(s)
    requires s' == s.(sub := s'.sub, nextId := s'.nextId, scrapped := s'.scrapped)
    ensures Workers(s') && Homes(s') && Exclusive(s') && DestroyerOk(s')
  {
    assert forall q, i :: Owns(s, q, i) ==> Owns(s', q, i);
    assert forall i :: OldTurn(s, i) ==> OldTurn(s', i);
  }

  lemma SubmitterMoveArchive(s: State, s': State)
    requires Archive(s) && s' == s.(sub := s'.sub, nextId := s'.nextId, scrapped := s'.scrapped)
             && IdBound(s) <= IdBound(s')
    ensures Archive(s')
  {
    hide PastOk;
    ArchiveKept(s, s');
  }

  /** Steps that touch nothing but the submitter and the id counter. */
  lemma SubmitterMoveOk(s: State, s': State)
    requires Inv(s) && s' == s.(sub := s'.sub, nextId := s'.nextId, scrapped := s'.scrapped) && SubmitterOk(s')
             && !Closed(s)
    requires IdBound(s) <= IdBound(s')
    ensures Inv(s')
  {
    hide Workers, Homes, Exclusive, SubmitterOk, DestroyerOk, Requests, Archive;
    SubmitterMoveArchive(s, s');
    SubmitterMoveViews(s, s');
    SubmitterMoveGlobals(s, s');
  }

  /** With the context gone and no cancel in the middle, nothing of the request is queued. */
  lemma NothingQueued(s: State, r: Req)
    requires Inv(s) && r !in s.ctxs && r in s.jobs && s.jobs[r].counted && !Closed(s)
    ensures Mine(s.workers[s.jobs[r].worker].queue, r) == [] && r !in s.removed
  {
    hide Exclusive, SubmitterOk, DestroyerOk, Archive;
    assert Balance(ViewOf(s, r));
  }

  /** With its context gone an id has no task left but for the end of a turn. */
  lemma FreeIsUnused(s: State, r: Req)
    requires Inv(s) && r !in s.ctxs && AllCounted(s) && !Closed(s)
    ensures Unused(s, r)
  {
    hide Workers, Exclusive, SubmitterOk, DestroyerOk, RequestOk, Archive;
    if r in s.jobs {
      NothingQueued(s, r);
      RequestFacts(s, r);
      assert ViewOf(s, r).ctx.None? && !ViewOf(s, r).closed && !ViewOf(s, r).destroyed;
      RetireKeeps(r, ViewOf(s, r).(owedToCancel := 0));
    }
    forall w | 0 <= w < |s.workers| ensures UnusedAt(s.workers[w], r) {
      assert forall t :: t in s.workers[w].queue ==> Owns(s, t.req, w);
      NotQueuedThere(s.workers[w].queue, r);
    }
  }

  lemma NotQueuedThere(q: seq<Task>, r: Req)
    ensures Mine(q, r) == [] ==> forall t :: t in q ==> t.req != r
  {
    MineMembers(q, r);
    if Mine(q, r) == [] {
      forall t | t in q ensures t.req != r {
        assert t.req == r ==> t in Mine(q, r);
      }
    }
  }

  lemma SubmitOk(s: State, r: Req, n: nat, cb: bool)
    requires Inv(s) && Enabled(s, Submit(r, n, cb))
    ensures Inv(Apply(s, Submit(r, n, cb)))
  {
    hide Workers, Homes, Exclusive, DestroyerOk, Requests, Archive;
    FreeIsUnused(s, r);
    SubmitterMoveOk(s, Apply(s, Submit(r, n, cb)));
  }

  lemma OpenWhileSubmitting(s: State)
    requires Inv(s) && !s.sub.NoSubmit?
    ensures !Closed(s)
  {
    hide Workers, Homes, Exclusive, SubmitterOk, Requests, Archive;
  }

  lemma ScanFacts(s: State)
    requires Inv(s) && s.sub.Scan?
    ensures |s.workers| == WORKERS && forall w :: 0 <= w < |s.workers| ==> WorkerOk(s.workers[w])
    ensures SubmitterOk(s)
  {
    hide Homes, Exclusive, SubmitterOk, Requests, Archive;
  }

  /** A worker whose mutex is free is never busy, so the load comparison is never used. */
  lemma ScanMove(s: State)
    requires s.sub.Scan? && Enabled(s, ScanNext) && SubmitterOk(s)
    requires s.sub.at < |s.workers| ==> WorkerOk(s.workers[s.sub.at])
    ensures var s' := ApplyScan(s); SubmitterOk(s') && s' == s.(sub := s'.sub) && IdBound(s') == IdBound(s)
    ensures ApplyScan(s).sub.Scan? ==> ApplyScan(s).sub.best == NO_WORKER
  {
    hide UnusedAt;
    var s' := ApplyScan(s);
    assert Unused(s, s.sub.req) && AllCounted(s);
    ScanKeepsUnused(s, s', s.sub.req);
    hide Unused, AllCounted;
  }

  lemma ScanKeepsUnused(s: State, s': State, r: Req)
    requires Unused(s, r) && AllCounted(s) && s' == s.(sub := s'.sub)
    ensures Unused(s', r) && AllCounted(s')
  {
  }

  lemma ScanNextOk(s: State)
    requires Inv(s) && Enabled(s, ScanNext)
    ensures Inv(ApplyScan(s))
    ensures ApplyScan(s).sub.Scan? ==> ApplyScan(s).sub.best == NO_WORKER
  {
    hide Inv, SubmitterOk, WorkerOk, ApplyScan, IdBound;
    ScanFacts(s);
    OpenWhileSubmitting(s);
    ScanMove(s);
    SubmitterMoveOk(s, ApplyScan(s));
  }

  lemma BuildFacts(s: State)
    requires Inv(s) && s.sub.Build?
    ensures SubmitterOk(s) && !Closed(s)
  {
    hide Workers, Homes, Exclusive, Requests, Archive;
  }

  lemma BuildNextOk(s: State)
    requires Inv(s) && Enabled(s, BuildNext)
    ensures Inv(Apply(s, BuildNext))
  {
    hide Inv;
    BuildFacts(s);
    var s' := Apply(s, BuildNext);
    assert AllCounted(s') && Unused(s', s.sub.req);
    SubmitterMoveOk(s, s');
  }

  lemma BuildFailOk(s: State)
    requires Inv(s) && Enabled(s, BuildFail)
    ensures Inv(Apply(s, BuildFail))
  {
    hide Inv;
    BuildFacts(s);
    var s' := Apply(s, BuildFail);
    assert AllCounted(s');
    SubmitterMoveOk(s, s');
  }

  /** A freshly attached batch has no context yet. */
  lemma AttachedFacts(s: State)
    requires Inv(s) && (s.sub.Attached? || s.sub.Resolved?)
    ensures SubmitterOk(s) && !Closed(s)
    ensures s.sub.req in s.jobs && s.jobs[s.sub.req].worker < |s.workers|
    ensures RequestOk(s.sub.req, ViewOf(s, s.sub.req)) && s.sub.req !in s.ctxs
  {
    hide Workers, Homes, Exclusive, Archive;
    assert Untouched(ViewOf(s, s.sub.req));
  }

  lemma LookupOk(s: State)
    requires Inv(s) && Enabled(s, LookupCtx)
    ensures Inv(Apply(s, LookupCtx))
  {
    hide Inv, RequestOk;
    AttachedFacts(s);
    SubmitterMoveOk(s, Apply(s, LookupCtx));
  }

  lemma CountCtxStep(s: State)
    requires s.sub.Resolved? && !s.sub.live && Owns(s, s.sub.req, s.sub.worker) && s.sub.worker < |s.workers|
    requires s.sub.req !in s.ctxs && |s.jobs[s.sub.req].tasks| == s.sub.n && s.jobs[s.sub.req].cb == s.sub.cb
    ensures var s', r := ApplyCount(s), s.sub.req;
            var v := ViewOf(s, r);
            && SameBut(s, s', r) && Owns(s', r, s.sub.worker) && |s'.workers| == |s.workers|
            && ViewOf(s', r) == v.(ctx := Some(Ctx(v.job.worker, |v.job.tasks|, v.job.cb)),
                                   job := v.job.(counted := true))
  {
  }

  lemma CountCtxGlobals(s: State)
    requires Workers(s) && Homes(s) && Exclusive(s) && SubmitterOk(s) && DestroyerOk(s) && !Closed(s)
    requires s.sub.Resolved? && s.sub.req !in s.ctxs
    ensures var s' := ApplyCount(s); Workers(s') && Homes(s') && Exclusive(s') && SubmitterOk(s') && DestroyerOk(s')
  {
    var s' := ApplyCount(s);
    assert forall q, i :: Owns(s, q, i) ==> Owns(s', q, i);
    assert forall i :: OldTurn(s, i) ==> OldTurn(s', i);
  }

  lemma CountCtxShape(s: State)
    requires s.sub.Resolved? && !s.sub.live && s.sub.req in s.jobs
    ensures var s' := ApplyCount(s);
            && s' == s.(sub := NoSubmit, ctxs := s'.ctxs, jobs := s'.jobs, fault := s'.fault)
            && s'.jobs.Keys == s.jobs.Keys && forall r :: r in s.jobs ==> s'.jobs[r].tasks == s.jobs[r].tasks
  {
  }

  lemma CountCtxArchive(s: State)
    requires Archive(s) && s.sub.Resolved? && !s.sub.live && s.sub.req in s.jobs
    ensures Archive(ApplyCount(s))
  {
    hide PastOk, ApplyCount;
    CountCtxShape(s);
    ArchiveKept(s, ApplyCount(s));
  }

  lemma CountCtxOk(s: State)
    requires Inv(s) && Enabled(s, CountCtx)
    ensures Inv(ApplyCount(s))
  {
    AttachedFacts(s);
    var r := s.sub.req;
    assert s.sub.worker < |s.workers| && ViewOf(s, r).job == s.jobs[r] && !ViewOf(s, r).destroyed;
    hide Workers, Homes, Exclusive, DestroyerOk, RequestOk, SameBut, Requests, ApplyCount, ViewOf, Archive;
    CountKeeps(r, ViewOf(s, r));
    CountCtxStep(s);
    CountCtxGlobals(s);
    CountCtxArchive(s);
    Frame(s, ApplyCount(s), r);
  }

  lemma AttachStep(s: State)
    requires Attachable(s) && Clear(s, s.sub.req, s.sub.worker) && !Closed(s)
    requires Unused(s, s.sub.req) && s.workers[s.sub.worker].queue == []
    requires forall t :: t in s.sub.made ==> t.req == s.sub.req
    ensures var s', r, w := ApplyAttach(s), s.sub.req, s.sub.worker;
            && SameBut(s, s', r) && Owns(s', r, w) && |s'.workers| == |s.workers|
            && ViewOf(s', r) == FreshView(w, s.sub.cb, s.sub.made, r != 0 && s.workers[w].pending == r,
                                          s.wakes[(r, w)], Deaf(s, r, w))
  {
    var s', r, w := ApplyAttach(s), s.sub.req, s.sub.worker;
    assert s'.workers[w].queue == s.sub.made;
    assert UnusedAt(s.workers[w], r);
    forall q ensures Mine(s.sub.made, q) == if q == r then s.sub.made else [] {
      MineOfUniform(s.sub.made, r, q);
    }
    hide Mine, Retired;
  }

  lemma AttachWorkers(s: State)
    requires Workers(s) && Exclusive(s) && Attachable(s)
    requires s.workers[s.sub.worker].queue == [] && forall t :: t in s.sub.made ==> t.req == s.sub.req
    ensures Workers(ApplyAttach(s)) && Exclusive(ApplyAttach(s))
  {
    var s' := ApplyAttach(s);
    assert s'.workers[s.sub.worker].queue == s.sub.made;
    forall i | 0 <= i < |s'.workers| ensures OneRequest(s'.workers[i]) && WorkerOk(s'.workers[i]) {
      assert OneRequest(s.workers[i]) && WorkerOk(s.workers[i]);
    }
  }

  /** The turns under way are about the latest use of their id, or about an archived one. */
  ghost predicate TurnsAreLatest(s: State) {
    forall w :: 0 <= w < |s.workers| && InTurn(s.workers[w].pc) && Owns(s, s.workers[w].pc.task.req, w) ==>
      BatchOf(s.workers[w].pc.task) == FirstId(s.jobs[s.workers[w].pc.task.req])
  }

  lemma AttachHomes(s: State)
    requires Homes(s) && TurnsAreLatest(s) && Attachable(s) && Unused(s, s.sub.req)
    requires s.workers[s.sub.worker].queue == [] && forall t :: t in s.sub.made ==> t.req == s.sub.req
    requires s.sub.req in s.jobs ==> FirstId(s.jobs[s.sub.req]) !in s.past
    ensures Homes(ApplyAttach(s))
  {
    var s', r, w := ApplyAttach(s), s.sub.req, s.sub.worker;
    assert s'.workers[w].queue == s.sub.made;
    assert forall q, i :: Owns(s, q, i) && q != r ==> Owns(s', q, i);
    forall i | 0 <= i < |s'.workers| && InTurn(s'.workers[i].pc)
      ensures Owns(s', s'.workers[i].pc.task.req, i) || OldTurn(s', i)
    {
      assert i != w && UnusedAt(s.workers[i], r);
    }
    forall i, t | 0 <= i < |s'.workers| && t in s'.workers[i].queue ensures Owns(s', t.req, i) {
      assert UnusedAt(s.workers[i], r);
    }
  }

  lemma AttachRest(s: State)
    requires SubmitterOk(s) && DestroyerOk(s) && !Closed(s) && Attachable(s)
    ensures SubmitterOk(ApplyAttach(s)) && DestroyerOk(ApplyAttach(s))
  {
    hide Retired;
  }

  /** The view under which the latest use of `r` goes into the archive. */
  ghost function RetiringView(s: State, r: Req): View
    requires r in s.jobs && s.jobs[r].worker < |s.workers|
  {
    var j := s.jobs[r];
    View(j, None, 0, UseStage(s.workers[j.worker].pc, FirstId(j)), [], false, 0, 0, false, false, false)
  }

  ghost predicate Retirable(s: State, r: Req) {
    r in s.jobs ==>
      && s.jobs[r].worker < |s.workers| && s.jobs[r].tasks != [] && s.jobs[r].tasks[0].req == r
      && s.jobs[r].counted && FirstId(s.jobs[r]) !in s.past && RequestOk(r, RetiringView(s, r))
  }

  lemma TurnsLatest(s: State)
    requires Inv(s)
    ensures TurnsAreLatest(s)
  {
    hide Inv;
    forall w | 0 <= w < |s.workers| && InTurn(s.workers[w].pc) && Owns(s, s.workers[w].pc.task.req, w)
      ensures BatchOf(s.workers[w].pc.task) == FirstId(s.jobs[s.workers[w].pc.task.req])
    {
      LatestTurn(s, w);
    }
  }

  /** In the turn of its worker, the latest use of an id is told apart by id and by batch alike. */
  lemma RetiringStage(s: State, r: Req)
    requires Homes(s) && Archive(s) && TurnsAreLatest(s) && r in s.jobs && s.jobs[r].worker < |s.workers|
    ensures UseStage(s.workers[s.jobs[r].worker].pc, FirstId(s.jobs[r])) == StageOf(s.workers[s.jobs[r].worker].pc, r)
    ensures FirstId(s.jobs[r]) !in s.past
  {
    hide RequestOk;
    var w := s.jobs[r].worker;
    NotArchived(s, r);
    if InTurn(s.workers[w].pc) && s.workers[w].pc.task.req != r {
      var t := s.workers[w].pc.task;
      if !Owns(s, t.req, w) {
        assert OldTurn(s, w) && PastOk(s, BatchOf(t));
      }
    }
  }

  lemma RetirableOk(s: State, r: Req)
    requires Inv(s) && Unused(s, r) && AllCounted(s) && !Closed(s)
    ensures Retirable(s, r)
  {
    TurnsLatest(s);
    if r in s.jobs {
      RequestFacts(s, r);
      InvParts(s);
      hide Inv, RequestOk, Homes, Archive, TurnsAreLatest;
      RetiringStage(s, r);
      var v := ViewOf(s, r);
      RetireKeeps(r, v);
      FirstTask(r, v);
    }
  }

  lemma FirstTask(r: Req, v: View)
    requires RequestOk(r, v)
    ensures v.job.tasks != [] && v.job.tasks[0].req == r
  {
  }

  /** Nothing in the archive has the id the batch in hand starts with. */
  lemma AttachArchive(s: State)
    requires Archive(s) && Attachable(s) && s.sub.made != [] && s.sub.made[0].id == IdBound(s)
    requires Retirable(s, s.sub.req)
    ensures Archive(ApplyAttach(s))
  {
    AttachShape(s);
    AttachPast(s);
    hide RequestOk, ApplyAttach, Retired, PastOk, Retirable, Attachable, Unfreed;
  }

  lemma AttachShape(s: State)
    requires Attachable(s)
    ensures var s', r := ApplyAttach(s), s.sub.req;
            && r in s'.jobs && s'.jobs[r].tasks == s.sub.made && IdBound(s') == s.nextId && s'.nextId == s.nextId
            && (forall q :: q != r ==> (q in s'.jobs <==> q in s.jobs) && (q in s.jobs ==> s'.jobs[q] == s.jobs[q]))
            && (forall u :: u in s'.past ==> u in s.past || (r in s.jobs && u == FirstId(s.jobs[r])))
            && (forall u :: u in s.past && (r in s.jobs ==> u != FirstId(s.jobs[r])) ==> s'.past[u] == s.past[u])
            && (r in s.jobs && FirstId(s.jobs[r]) in s'.past ==> s'.past[FirstId(s.jobs[r])] == s.jobs[r])
  {
    hide FirstId, Unlocked, Unfreed;
  }

  lemma AttachPast(s: State)
    requires Archive(s) && Attachable(s) && s.sub.made != [] && s.sub.made[0].id == IdBound(s)
    requires Retirable(s, s.sub.req)
    ensures forall u :: u in ApplyAttach(s).past ==> PastOk(ApplyAttach(s), u)
  {
    hide RequestOk, Unfreed;
    var s', r := ApplyAttach(s), s.sub.req;
    forall u | u in s'.past ensures PastOk(s', u) {
      if u in s.past {
        assert PastOk(s, u);
        assert PastView(s', u) == PastView(s, u);
      } else {
        assert PastView(s', u) == RetiringView(s, r);
      }
    }
  }

  lemma AttachOk(s: State)
    requires Inv(s) && Enabled(s, Attach)
    ensures Inv(ApplyAttach(s))
  {
    hide Workers, Homes, Exclusive, DestroyerOk, RequestOk, SameBut, Requests, ApplyAttach, ViewOf, FreshView, Unused,
         AllCounted, Archive, TurnsAreLatest, Retirable;
    var r, w := s.sub.req, s.sub.worker;
    BuildFacts(s);
    FreshOk(r, w, s.sub.cb, s.nextId - |s.sub.made|, |s.sub.made|, r != 0 && s.workers[w].pending == r,
            s.wakes[(r, w)], Deaf(s, r, w));
    TurnsLatest(s);
    RetirableOk(s, r);
    RetirableId(s, r);
    AttachStep(s);
    AttachWorkers(s);
    AttachHomes(s);
    AttachRest(s);
    AttachArchive(s);
    Frame(s, ApplyAttach(s), r);
  }

  lemma RetirableId(s: State, r: Req)
    requires Retirable(s, r)
    ensures r in s.jobs ==> FirstId(s.jobs[r]) !in s.past
  {
  }

  // ----- destruction -----

  lemma SetFlagOk(s: State)
    requires Inv(s) && s.destroyer.Running?
    ensures Inv(s.(destroyer := Signalling(0)))
  {
    DestroyerMoveOk(s, s.(destroyer := Signalling(0)));
  }

  /** A destroyer that has not joined yet does not touch the requests. */
  lemma DestroyerMoveOk(s: State, s': State)
    requires Inv(s) && s' == s.(destroyer := s'.destroyer) && !Closed(s) && !Closed(s') && DestroyerOk(s')
    ensures Inv(s')
  {
    hide Workers, Homes, Exclusive, SubmitterOk, DestroyerOk, Requests, Archive;
    DestroyerMoveArchive(s, s');
    DestroyerMoveViews(s, s');
    DestroyerMoveGlobals(s, s');
  }

  lemma DestroyerMoveArchive(s: State, s': State)
    requires Archive(s) && s' == s.(destroyer := s'.destroyer, ctxs := s'.ctxs)
    ensures Archive(s')
  {
    hide PastOk;
    ArchiveKept(s, s');
  }

  lemma DestroyerMoveViews(s: State, s': State)
    requires Requests(s) && s' == s.(destroyer := s'.destroyer) && !Closed(s) && !Closed(s')
    ensures Requests(s')
  {
    hide RequestOk;
    forall r | r in s'.jobs ensures s'.jobs[r].worker < |s'.workers| && RequestOk(r, ViewOf(s', r)) {
      assert ViewOf(s', r) == ViewOf(s, r);
    }
  }

  lemma DestroyerMoveGlobals(s: State, s': State)
    requires Workers(s) && Homes(s) && Exclusive(s) && SubmitterOk(s) && s' == s.(destroyer := s'.destroyer)
    ensures Workers(s') && Homes(s') && Exclusive(s') && SubmitterOk(s')
  {
    assert forall q, i :: Owns(s, q, i) ==> Owns(s', q, i);
    assert forall i :: OldTurn(s, i) ==> OldTurn(s', i);
  }

  /** Signalling a worker under its own mutex: it is not asleep afterwards. */
  lemma SignalNextOk(s: State)
    requires Inv(s) && Enabled(s, SignalNext)
    ensures Inv(Apply(s, SignalNext))
  {
    hide Workers, Homes, Exclusive, SubmitterOk, Requests, Archive, RequestOk, DestroyerOk, OneRequest, Inv;
    var w := s.destroyer.done;
    var t := SetWorker(s, w, Signalled(s.workers[w]));
    LoopFacts(s, w);
    IdleMoveOk(s, w, Signalled(s.workers[w]));
    SignalledOk(s);
    DestroyerMoveOk(t, t.(destroyer := Signalling(w + 1)));
  }

  lemma SignalledOk(s: State)
    requires Inv(s) && Enabled(s, SignalNext)
    ensures var w := s.destroyer.done;
            DestroyerOk(SetWorker(s, w, Signalled(s.workers[w])).(destroyer := Signalling(w + 1)))
  {
    hide Homes, Exclusive, SubmitterOk, Requests, Archive;
  }

  lemma JoinViews(s: State)
    requires Requests(s) && AllCounted(s) && !Closed(s)
    ensures Requests(s.(destroyer := Dropping(0)))
  {
    hide RequestOk;
    var s' := s.(destroyer := Dropping(0));
    forall r | r in s'.jobs ensures s'.jobs[r].worker < |s'.workers| && RequestOk(r, ViewOf(s', r)) {
      CloseKeeps(r, ViewOf(s, r));
      assert ViewOf(s', r) == ViewOf(s, r).(closed := true);
    }
  }

  lemma JoinOk(s: State)
    requires Inv(s) && Enabled(s, Join)
    ensures Inv(Apply(s, Join))
  {
    hide Workers, Homes, Exclusive, Requests, Archive;
    DestroyerMoveArchive(s, Apply(s, Join));
    JoinViews(s);
    DestroyerMoveGlobals(s, Apply(s, Join));
  }

  /** A queue has no tasks of a request that lives elsewhere. */
  lemma NoForeignTasks(s: State, r: Req, w: nat)
    requires Homes(s) && w < |s.workers| && r in s.jobs && s.jobs[r].worker != w
    ensures Mine(s.workers[w].queue, r) == []
  {
    var q := s.workers[w].queue;
    assert forall i :: 0 <= i < |q| ==> q[i] in q && Owns(s, q[i].req, w);
    NoMatch(q, r);
  }

  lemma DropElsewhere(j: Job)
    ensures DropFromJob(j, []) == j
  {
  }

  lemma DropQueueView(s: State, r: Req)
    requires Homes(s) && s.destroyer.Dropping? && s.destroyer.done < |s.workers|
    requires r in s.jobs && s.jobs[r].worker < |s.workers|
    ensures var v := ViewOf(s, r);
            ViewOf(ApplyDropQueue(s), r)
            == if v.job.worker == s.destroyer.done then v.(queued := [], job := DropFromJob(v.job, v.queued)) else v
  {
    hide FreeAll, Homes;
    if s.jobs[r].worker != s.destroyer.done {
      NoForeignTasks(s, r, s.destroyer.done);
      DropElsewhere(s.jobs[r]);
    }
  }

  lemma DropQueueViews(s: State)
    requires Requests(s) && Homes(s) && Quiet(s) && AllCounted(s)
    requires s.destroyer.Dropping? && s.destroyer.done < |s.workers|
    ensures Requests(ApplyDropQueue(s))
  {
    hide RequestOk, Homes, FreeAll;
    var s', w := ApplyDropQueue(s), s.destroyer.done;
    forall r | r in s'.jobs ensures s'.jobs[r].worker < |s'.workers| && RequestOk(r, ViewOf(s', r)) {
      DropQueueView(s, r);
      if s.jobs[r].worker == w {
        DropKeeps(r, ViewOf(s, r));
      }
      assert s'.jobs[r].worker == s.jobs[r].worker;
    }
  }

  lemma DropQueueGlobals(s: State)
    requires Workers(s) && Homes(s) && Exclusive(s) && SubmitterOk(s) && DestroyerOk(s)
    requires s.destroyer.Dropping? && s.destroyer.done < |s.workers|
    ensures var s' := ApplyDropQueue(s);
            Workers(s') && Homes(s') && Exclusive(s') && SubmitterOk(s') && DestroyerOk(s')
  {
    hide Mine, FreeAll;
    var s' := ApplyDropQueue(s);
    assert forall q, i :: Owns(s, q, i) ==> Owns(s', q, i);
    assert forall i :: OldTurn(s, i) ==> OldTurn(s', i);
    forall i | 0 <= i < |s'.workers| ensures OneRequest(s'.workers[i]) && WorkerOk(s'.workers[i]) {
      assert OneRequest(s.workers[i]) && WorkerOk(s.workers[i]);
    }
  }

  lemma DropQueueArchive(s: State)
    requires Archive(s) && s.destroyer.Dropping? && s.destroyer.done < |s.workers|
    ensures Archive(ApplyDropQueue(s))
  {
    hide PastOk, Mine, FreeAll;
    ArchiveKept(s, ApplyDropQueue(s));
  }

  lemma DroppingIsQuiet(s: State)
    requires SubmitterOk(s) && DestroyerOk(s) && s.destroyer.Dropping?
    ensures Quiet(s) && AllCounted(s)
  {
    hide Unused, OnlyPending;
  }

  lemma DropQueueOk(s: State)
    requires Inv(s) && Enabled(s, DropQueue)
    ensures Inv(ApplyDropQueue(s))
  {
    hide Workers, Homes, Exclusive, SubmitterOk, DestroyerOk, Requests, ApplyDropQueue, Quiet, AllCounted, Archive;
    DroppingIsQuiet(s);
    DropQueueArchive(s);
    DropQueueViews(s);
    DropQueueGlobals(s);
  }

  lemma FinishViews(s: State)
    requires Requests(s) && AllCounted(s) && s.destroyer.Dropping?
    ensures Requests(s.(destroyer := Destroyed, ctxs := map[]))
  {
    hide RequestOk;
    var s' := s.(destroyer := Destroyed, ctxs := map[]);
    forall r | r in s'.jobs ensures s'.jobs[r].worker < |s'.workers| && RequestOk(r, ViewOf(s', r)) {
      FinishKeeps(r, ViewOf(s, r));
      assert ViewOf(s', r) == ViewOf(s, r).(ctx := None, destroyed := true);
    }
  }

  lemma FinishOk(s: State)
    requires Inv(s) && Enabled(s, Finish)
    ensures Inv(Apply(s, Finish))
  {
    hide Requests, Archive;
    FinishViews(s);
    var s' := Apply(s, Finish);
    DestroyerMoveArchive(s, s');
    assert forall q, i :: Owns(s, q, i) ==> Owns(s', q, i);
    assert forall i :: OldTurn(s, i) ==> OldTurn(s', i);
  }

  // ----- all of them -----

  lemma StepOk(s: State, a: Action)
    requires Inv(s) && Enabled(s, a)
    ensures Inv(Apply(s, a))
  {
    hide Inv;
    match a
    case Submit(r, n, cb) => SubmitOk(s, r, n, cb);
    case ScanNext => ScanNextOk(s);
    case BuildNext => BuildNextOk(s);
    case BuildFail => BuildFailOk(s);
    case Attach => AttachOk(s);
    case LookupCtx => LookupOk(s);
    case CountCtx => CountCtxOk(s);
    case WakeFind(r) => WakeFindOk(s, r);
    case WakeSet(r, w) => WakeSetOk(s, r, w);
    case CancelFind(r) => CancelFindOk(s, r);
    case CancelQueue(r, w) => CancelQueueOk(s, r, w);
    case CancelCount(r) => CancelCountOk(s, r);
    case LoopTop(w) => LoopTopOk(s, w);
    case Wait(w) => WaitingOk(s, w, a);
    case Rouse(w) => WaitingOk(s, w, a);
    case Relock(w) => WaitingOk(s, w, a);
    case RunTask(w) => RunTaskOk(s, w);
    case FindCtx(w) => FindCtxOk(s, w);
    case Uncount(w) => UncountOk(s, w);
    case Callback(w) => CallbackOk(s, w);
    case DropCtx(w) => DropCtxOk(s, w);
    case FreeTask(w) => FreeTaskOk(s, w);
    case SetFlag => SetFlagOk(s);
    case SignalNext => SignalNextOk(s);
    case Join => JoinOk(s);
    case DropQueue => DropQueueOk(s);
    case Finish => FinishOk(s);
  }
}
