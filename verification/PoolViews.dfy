/**
 What each action does to the view of the request it is about, and that the
 per-request invariant survives it.
 */
module PoolViews {
  import opened Base
  import opened TaskQueue
  import opened BatchSubmit
  import opened Pool
  import opened PoolInvariant

  function Bump(c: Freed): Freed {
    Freed(c.node + 1, c.wrapper + 1, c.task + 1)
  }

  /** Freeing a contiguous stretch of the batch frees each of its cells once more. */
  lemma {:induction false} FreeAllStretch(f: seq<Freed>, q: seq<Task>, k: nat)
    requires k + |q| <= |f| && forall i :: 0 <= i < |q| ==> q[i].arg == k + i
    ensures |FreeAll(f, q)| == |f|
    ensures forall i :: 0 <= i < |f| ==> FreeAll(f, q)[i] == if k <= i < k + |q| then Bump(f[i]) else f[i]
    decreases |q|
  {
    if q != [] {
      var g := FreeNode(FreeTaskCell(FreeWrapper(f, q[0].arg), q[0].arg), q[0].arg);
      FreeAllStretch(g, q[1..], k + 1);
    }
  }

  /** The queued tasks are the stretch of the batch behind those that ran. */
  lemma QueuedStretch(r: Req, v: View)
    requires Fates(r, v)
    ensures |v.job.ran| + |Hand(v.stage)| + |v.queued| + |v.job.dropped| + |v.job.cancelled| == |v.job.tasks|
    ensures forall i :: 0 <= i < |v.queued| ==> v.queued[i].arg == |v.job.ran| + |Hand(v.stage)| + i
    ensures v.stage.Popped? ==> v.stage.task.arg == |v.job.ran|
    ensures AfterRun(v.stage) ==> v.stage.task.arg == |v.job.ran| - 1
  {
    var a, b := v.job.ran + Hand(v.stage), v.job.dropped + v.job.cancelled;
    assert v.job.tasks == (a + v.queued) + b;
    forall i | 0 <= i < |v.queued| ensures v.queued[i].arg == |a| + i {
      assert v.queued[i] == v.job.tasks[|a| + i];
    }
    if v.stage.Popped? {
      assert v.stage.task == a[|v.job.ran|] == v.job.tasks[|v.job.ran|];
    }
    if AfterRun(v.stage) {
      assert v.job.ran[|v.job.ran| - 1] == v.job.tasks[|v.job.ran| - 1];
    }
  }

  // ----- the worker's turn -----

  function PopView(v: View): View
    requires v.queued != []
  {
    v.(stage := Popped(v.queued[0]), queued := v.queued[1..], slot := false,
       job := v.job.(freed := FreeNode(v.job.freed, v.queued[0].arg)))
  }

  lemma PopKeeps(r: Req, v: View)
    requires RequestOk(r, v) && v.slot && v.stage.Check? && v.queued != [] && r != 0 && !v.destroyed && !v.deaf
    ensures RequestOk(r, PopView(v))
  {
    QueuedStretch(r, v);
    var v' := PopView(v);
    assert v'.job.ran + Hand(v'.stage) + v'.queued == v.job.ran + Hand(v.stage) + v.queued;
  }

  lemma MissKeeps(r: Req, v: View)
    requires RequestOk(r, v)
    ensures RequestOk(r, v.(slot := false))
  {
    assert forall i :: 0 <= i < |v.job.freed| ==> Due(v.(slot := false), i) == Due(v, i);
  }

  function RunView(v: View): View
    requires v.stage.Popped?
  {
    v.(stage := Ran(v.stage.task),
       job := v.job.(ran := v.job.ran + [v.stage.task], freed := FreeWrapper(v.job.freed, v.stage.task.arg)))
  }

  lemma RunKeeps(r: Req, v: View)
    requires RequestOk(r, v) && v.stage.Popped?
    ensures RequestOk(r, RunView(v))
  {
    QueuedStretch(r, v);
    var v' := RunView(v);
    assert v'.job.ran + Hand(v'.stage) == v.job.ran + Hand(v.stage);
  }

  lemma LookKeeps(r: Req, v: View)
    requires RequestOk(r, v) && v.stage.Ran? && !v.destroyed
    ensures v.ctx.Some? && RequestOk(r, v.(stage := Looked(v.stage.task, true)))
  {
  }

  function UncountView(v: View): View
    requires v.stage.Looked? && v.ctx.Some?
  {
    var c := v.ctx.value.(count := v.ctx.value.count - 1);
    v.(ctx := Some(c), stage := if c.count == 0 then Zeroed(v.stage.task, c.cb) else Settled(v.stage.task))
  }

  lemma UncountKeeps(r: Req, v: View)
    requires RequestOk(r, v) && v.stage.Looked? && !v.destroyed && !v.closed
    ensures v.stage.live && v.ctx.Some? && RequestOk(r, UncountView(v))
  {
    QueuedStretch(r, v);
  }

  function CallbackView(v: View): View
    requires v.stage.Zeroed?
  {
    v.(stage := Called(v.stage.task), job := v.job.(fired := v.job.fired + if v.stage.cb then 1 else 0))
  }

  lemma CallbackKeeps(r: Req, v: View)
    requires RequestOk(r, v) && v.stage.Zeroed? && !v.destroyed && !v.closed
    ensures RequestOk(r, CallbackView(v))
  {
    QueuedStretch(r, v);
  }

  lemma UnlinkKeeps(r: Req, v: View)
    requires RequestOk(r, v) && v.stage.Called? && !v.destroyed && !v.closed
    ensures RequestOk(r, v.(ctx := None, stage := Settled(v.stage.task)))
  {
  }

  function FreeTaskView(v: View): View
    requires v.stage.Settled?
  {
    v.(stage := Check, job := v.job.(freed := FreeTaskCell(v.job.freed, v.stage.task.arg)))
  }

  lemma FreeTaskKeeps(r: Req, v: View)
    requires RequestOk(r, v) && v.stage.Settled?
    ensures RequestOk(r, FreeTaskView(v))
  {
    QueuedStretch(r, v);
  }

  // ----- wakes and cancels -----

  lemma WakeFindKeeps(r: Req, v: View)
    requires RequestOk(r, v) && v.ctx.Some?
    ensures v.ctx.value.worker == v.job.worker
    ensures RequestOk(r, v.(flights := v.flights + 1, job := v.job.(accepted := v.job.accepted + 1)))
  {
    var v' := v.(flights := v.flights + 1, job := v.job.(accepted := v.job.accepted + 1));
    assert forall i :: 0 <= i < |v.job.freed| ==> Due(v', i) == Due(v, i);
  }

  lemma WakeSetKeeps(r: Req, v: View)
    requires RequestOk(r, v) && v.flights > 0
    ensures RequestOk(r, v.(flights := v.flights - 1, slot := r != 0))
  {
    assert forall i :: 0 <= i < |v.job.freed| ==> Due(v.(flights := v.flights - 1, slot := r != 0), i) == Due(v, i);
  }

  lemma CancelFindKeeps(r: Req, v: View)
    requires RequestOk(r, v) && v.ctx.Some?
    ensures v.ctx.value.worker == v.job.worker
    ensures RequestOk(r, v.(cancelling := v.cancelling + 1))
  {
    assert forall i :: 0 <= i < |v.job.freed| ==> Due(v.(cancelling := v.cancelling + 1), i) == Due(v, i);
  }

  lemma CancelMissKeeps(r: Req, v: View)
    requires RequestOk(r, v) && v.cancelling > 0
    ensures RequestOk(r, v.(cancelling := v.cancelling - 1))
  {
    assert forall i :: 0 <= i < |v.job.freed| ==> Due(v.(cancelling := v.cancelling - 1), i) == Due(v, i);
  }

  function CancelView(v: View): View
    requires v.cancelling > 0
  {
    v.(cancelling := v.cancelling - 1, queued := [], owedToCancel := v.owedToCancel + |v.queued|,
       job := v.job.(cancelled := v.queued + v.job.cancelled, freed := FreeAll(v.job.freed, v.queued)))
  }

  lemma CancelKeeps(r: Req, v: View)
    requires RequestOk(r, v) && v.cancelling > 0 && v.queued != [] && v.stage.Check? && !v.closed && !v.destroyed
    ensures v.owedToCancel == 0 && RequestOk(r, CancelView(v))
  {
    QueuedStretch(r, v);
    FreeAllStretch(v.job.freed, v.queued, |v.job.ran|);
    var v' := CancelView(v);
    assert v'.job.cancelled == v.queued && v'.job.dropped == [];
    assert v.job.ran + Hand(v.stage) + v.queued + [] + [] == v'.job.ran + Hand(v'.stage) + [] + [] + v.queued;
  }

  /** What a cancel unlinked is all the count had left: the context always goes. */
  lemma CancelCountKeeps(r: Req, v: View)
    requires RequestOk(r, v) && v.owedToCancel > 0 && !v.closed && !v.destroyed
    ensures v.ctx.Some? && v.ctx.value.count == v.owedToCancel
    ensures RequestOk(r, v.(ctx := None, owedToCancel := 0))
  {
    assert forall i :: 0 <= i < |v.job.freed| ==> Due(v.(ctx := None, owedToCancel := 0), i) == Due(v, i);
  }

  // ----- submission and destruction -----

  /** A batch just attached, with what the slot of its worker and wakes under way for it happen to be. */
  function FreshView(w: nat, cb: bool, made: seq<Task>, slot: bool, flights: nat, deaf: bool): View {
    View(Job(w, cb, false, made, [], [], [], 0, 0, Unfreed(|made|)),
         None, 0, Check, made, slot, flights, 0, false, false, deaf)
  }

  lemma FreshOk(r: Req, w: nat, cb: bool, firstId: nat, n: nat, slot: bool, flights: nat, deaf: bool)
    requires n > 0 && (deaf || (!slot && flights == 0))
    ensures RequestOk(r, FreshView(w, cb, BatchTasks(firstId, r, n), slot, flights, deaf))
  {
    var made := BatchTasks(firstId, r, n);
    assert [] + [] + made + [] + [] == made;
  }

  lemma CountKeeps(r: Req, v: View)
    requires RequestOk(r, v) && !v.job.counted && !v.destroyed
    ensures RequestOk(r, v.(ctx := Some(Ctx(v.job.worker, |v.job.tasks|, v.job.cb)), job := v.job.(counted := true)))
  {
    QueuedStretch(r, v);
    var v' := v.(ctx := Some(Ctx(v.job.worker, |v.job.tasks|, v.job.cb)), job := v.job.(counted := true));
    assert forall i :: 0 <= i < |v.job.freed| ==> Due(v', i) == Due(v, i);
  }

  /** The view of a use that is over, as the archive keeps it. */
  lemma RetireKeeps(r: Req, v: View)
    requires RequestOk(r, v) && v.job.counted && v.ctx.None? && v.owedToCancel == 0 && !v.closed && !v.destroyed
    ensures v.queued == [] && (InTurn(v.stage) ==> v.stage.Settled?)
    ensures RequestOk(r, View(v.job, None, 0, v.stage, [], false, 0, 0, false, false, false))
  {
    var v' := View(v.job, None, 0, v.stage, [], false, 0, 0, false, false, false);
    assert v.queued == [];
    assert forall i :: 0 <= i < |v.job.freed| ==> Due(v', i) == Due(v, i);
  }

  /** The task in a worker's turn belongs to the batch of the view. */
  lemma StageIsLatest(r: Req, v: View)
    requires Fates(r, v) && InTurn(v.stage)
    ensures v.job.tasks != [] && BatchOf(v.stage.task) == FirstId(v.job)
  {
    QueuedStretch(r, v);
    if v.stage.Popped? {
      assert v.stage.task in Hand(v.stage) && v.stage.task in v.job.tasks;
    } else {
      assert v.stage.task in v.job.ran && v.stage.task in v.job.tasks;
    }
  }

  lemma DeafKeeps(r: Req, v: View, deaf: bool)
    requires RequestOk(r, v) && (v.deaf ==> deaf)
    ensures RequestOk(r, v.(deaf := deaf))
  {
    assert forall i :: 0 <= i < |v.job.freed| ==> Due(v.(deaf := deaf), i) == Due(v, i);
  }

  lemma CloseKeeps(r: Req, v: View)
    requires RequestOk(r, v) && v.job.counted
    ensures RequestOk(r, v.(closed := true))
  {
    assert forall i :: 0 <= i < |v.job.freed| ==> Due(v.(closed := true), i) == Due(v, i);
  }

  lemma DropKeeps(r: Req, v: View)
    requires RequestOk(r, v) && v.closed && v.job.counted && v.stage.Check? && v.owedToCancel == 0 && !v.destroyed
    ensures RequestOk(r, v.(queued := [], job := DropFromJob(v.job, v.queued)))
  {
    QueuedStretch(r, v);
    FreeAllStretch(v.job.freed, v.queued, |v.job.ran|);
    var v' := v.(queued := [], job := DropFromJob(v.job, v.queued));
    assert v'.job.ran + Hand(v'.stage) + v'.queued + v'.job.dropped
           == v.job.ran + Hand(v.stage) + v.queued + v.job.dropped;
  }

  lemma FinishKeeps(r: Req, v: View)
    requires RequestOk(r, v) && v.job.counted && v.closed
    ensures RequestOk(r, v.(ctx := None, destroyed := true))
  {
    assert forall i :: 0 <= i < |v.job.freed| ==> Due(v.(ctx := None, destroyed := true), i) == Due(v, i);
  }
}
