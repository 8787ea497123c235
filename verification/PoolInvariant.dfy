/**
 The invariant of the pool. Most of it speaks of one request at a time, through the
 `View` of that request: its history, its context, the step its worker is at, its
 queued tasks, and the wakes and cancels under way for it.
 */
module PoolInvariant {
  import opened Base
  import opened TaskQueue
  import opened BatchSubmit
  import opened Pool

  // ----- one request -----

  datatype View = View(
    job: Job,
    ctx: Option<Ctx>,
    owedToCancel: nat,   // unlinked by a cancel, not subtracted yet
    stage: Pc,           // the worker's step, if it is about this request; else Check
    queued: seq<Task>,
    slot: bool,          // the worker's pending slot names this request
    flights: nat,        // wakes between lookup and slot
    cancelling: nat,     // cancels between lookup and queue
    closed: bool,
    destroyed: bool,
    deaf: bool)          // no wake has an effect any more

  function StageOf(pc: Pc, r: Req): Pc {
    if InTurn(pc) && pc.task.req == r then pc else Check
  }

  ghost function ViewOf(s: State, r: Req): View
    requires r in s.jobs && s.jobs[r].worker < |s.workers|
  {
    var j := s.jobs[r];
    var x := s.workers[j.worker];
    View(j,
         if r in s.ctxs then Some(s.ctxs[r]) else None,
         if r in s.removed then s.removed[r] else 0,
         StageOf(x.pc, r),
         Mine(x.queue, r),
         r != 0 && x.pending == r,
         s.wakes[(r, j.worker)],
         s.cancels[(r, j.worker)],
         Closed(s),
         s.destroyer.Destroyed?,
         r == 0 || x.pc.Gone?)
  }

  /** The task unlinked but not run yet. */
  function Hand(stage: Pc): seq<Task> {
    if stage.Popped? then [stage.task] else []
  }

  /** The worker holds a task the context still counts. */
  predicate Owed(stage: Pc) {
    stage.Popped? || stage.Ran? || stage.Looked?
  }

  /** The count is zero and the context still linked. */
  predicate Late(stage: Pc) {
    stage.Zeroed? || stage.Called?
  }

  predicate AfterRun(stage: Pc) {
    InTurn(stage) && !stage.Popped?
  }

  /** Every task has one fate, and the fates follow the order of submission. */
  ghost predicate Fates(r: Req, v: View) {
    && |v.job.tasks| > 0 && v.job.tasks == BatchTasks(v.job.tasks[0].id, r, |v.job.tasks|)
    && v.job.tasks == v.job.ran + Hand(v.stage) + v.queued + v.job.dropped + v.job.cancelled
    && (AfterRun(v.stage) ==> v.job.ran != [] && v.job.ran[|v.job.ran| - 1] == v.stage.task)
    && (!v.closed ==> v.job.dropped == [])
    && (v.job.cancelled != [] ==> v.queued == [] && v.stage.Check?)
    && (r == 0 ==> v.job.ran == [] && v.stage.Check?)
  }

  /** How often each allocation of the i-th task must have been freed by now. */
  function Due(v: View, i: nat): Freed {
    var n := |v.job.ran|;
    if i < n then Freed(1, 1, if i == n - 1 && AfterRun(v.stage) then 0 else 1)
    else if i == n && v.stage.Popped? then Freed(1, 0, 0)
    else if i < n + |Hand(v.stage)| + |v.queued| then Freed(0, 0, 0)
    else Freed(1, 1, 1)
  }

  ghost predicate Ledger(v: View) {
    && |v.job.freed| == |v.job.tasks|
    && forall i :: 0 <= i < |v.job.freed| ==> v.job.freed[i] == Due(v, i)
  }

  /** A request whose batch is attached but whose context is not charged yet. */
  predicate Untouched(v: View) {
    && v.ctx.None? && v.owedToCancel == 0 && v.stage.Check? && v.job.ran == [] && v.job.cancelled == []
    && (v.deaf || (!v.slot && v.flights == 0)) && v.cancelling == 0 && !v.closed
  }

  /** Conservation of the context count. */
  predicate Balance(v: View) {
    && (if v.ctx.Some? then v.ctx.value.count else 0)
       == |v.queued| + (if Owed(v.stage) then 1 else 0) + v.owedToCancel + |v.job.dropped|
    && (v.ctx.Some? ==>
          && v.ctx.value.worker == v.job.worker && v.ctx.value.cb == v.job.cb
          && (v.ctx.value.count == 0 <==> Late(v.stage)))
    && (Late(v.stage) ==> v.ctx.Some?)
    && (v.owedToCancel > 0 ==> v.queued == [] && !Owed(v.stage))
    && (v.stage.Looked? ==> v.stage.live)
    && (v.stage.Zeroed? ==> v.stage.cb == v.job.cb)
  }

  predicate Counted(v: View) {
    if !v.job.counted then Untouched(v)
    else if v.destroyed then v.ctx.None?
    else Balance(v)
  }

  predicate WakeBound(v: View) {
    |v.job.ran| + |Hand(v.stage)| + (if v.deaf then 0 else (if v.slot then 1 else 0) + v.flights) <= v.job.accepted
  }

  /** All tasks ran and the worker is past the batch callback. */
  predicate Completed(v: View) {
    |v.job.ran| == |v.job.tasks| && !Owed(v.stage) && !v.stage.Zeroed?
  }

  predicate CallbackOnce(v: View) {
    v.job.fired == if v.job.cb && Completed(v) then 1 else 0
  }

  ghost predicate RequestOk(r: Req, v: View) {
    Fates(r, v) && Ledger(v) && Counted(v) && WakeBound(v) && CallbackOnce(v)
  }

  ghost predicate Requests(s: State) {
    forall r :: r in s.jobs ==> s.jobs[r].worker < |s.workers| && RequestOk(r, ViewOf(s, r))
  }

  // ----- workers, owners, submitter, destroyer -----

  predicate WorkerOk(x: Worker) {
    && (x.state == Busy <==> InTurn(x.pc))
    && (x.state == Exit <==> x.pc.Gone?)
    && (x.pending != 0 ==> !x.pc.Doze? && !x.pc.Asleep?)
  }

  ghost predicate Workers(s: State) {
    |s.workers| == WORKERS && !s.fault && forall w :: 0 <= w < WORKERS ==> WorkerOk(s.workers[w])
  }

  ghost predicate Owns(s: State, r: Req, w: nat) {
    r in s.jobs && s.jobs[r].worker == w
  }

  /** The end of a turn about an earlier use of an id that has since been used again elsewhere. */
  ghost predicate OldTurn(s: State, w: nat) {
    PcAt(s, w).Settled? &&
    var t := s.workers[w].pc.task;
    && t.req in s.jobs && s.jobs[t.req].worker != w
    && BatchOf(t) in s.past && s.past[BatchOf(t)].worker == w
  }

  /** Tasks sit on the worker their request was attached to, queued or in its turn. */
  ghost predicate Homes(s: State) {
    && (forall w, t :: 0 <= w < |s.workers| && t in s.workers[w].queue ==> Owns(s, t.req, w))
    && (forall w :: 0 <= w < |s.workers| && InTurn(s.workers[w].pc) ==>
          Owns(s, s.workers[w].pc.task.req, w) || OldTurn(s, w))
    && (forall w :: 0 <= w < |s.workers| && s.workers[w].pending != 0 ==> s.workers[w].pending in s.jobs)
    && (forall r, w :: (r, w) in s.wakes ==> r in s.jobs)
    && (forall r, w :: (r, w) in s.cancels ==> r in s.jobs)
    && (forall r :: r in s.ctxs ==> r in s.jobs)
    && (forall r :: r in s.removed ==> r in s.jobs && s.removed[r] > 0)
  }

  /** A queue holds the tasks of one request only, the one being run included. */
  predicate OneRequest(x: Worker) {
    && (forall t, u :: t in x.queue && u in x.queue ==> t.req == u.req)
    && (InTurn(x.pc) ==> forall t :: t in x.queue ==> t.req == x.pc.task.req)
  }

  ghost predicate Exclusive(s: State) {
    forall w :: 0 <= w < |s.workers| ==> OneRequest(s.workers[w])
  }

  ghost predicate UnusedAt(x: Worker, r: Req) {
    && (forall t :: t in x.queue ==> t.req != r)
    && (InTurn(x.pc) && x.pc.task.req == r ==> x.pc.Settled?)
  }

  /** No context and no task of `r` is left, but for the end of a turn. */
  ghost predicate Unused(s: State, r: Req) {
    && r !in s.ctxs && r !in s.removed
    && (forall w :: 0 <= w < |s.workers| ==> UnusedAt(s.workers[w], r))
  }

  ghost predicate AllCounted(s: State) {
    forall r :: r in s.jobs ==> s.jobs[r].counted
  }

  ghost predicate OnlyPending(s: State, req: Req, n: nat, cb: bool, w: nat) {
    && req in s.jobs && !s.jobs[req].counted
    && s.jobs[req].worker == w && |s.jobs[req].tasks| == n && s.jobs[req].cb == cb
    && forall r :: r in s.jobs && r != req ==> s.jobs[r].counted
  }

  ghost predicate SubmitterOk(s: State) {
    match s.sub
    case NoSubmit => AllCounted(s)
    case Scan(r, n, cb, at, best, least) => n > 0 && best == NO_WORKER && Unused(s, r) && AllCounted(s)
    case Build(r, n, cb, w, made) =>
      && n > 0 && |made| <= n && |made| <= s.nextId && made == BatchTasks(s.nextId - |made|, r, |made|)
      && w < |s.workers| && s.workers[w].queue == [] && !InTurn(s.workers[w].pc)
      && Unused(s, r) && AllCounted(s)
    case Attached(r, n, cb, w) => OnlyPending(s, r, n, cb, w)
    case Resolved(r, n, cb, w, live) => OnlyPending(s, r, n, cb, w) && !live
  }

  ghost predicate DestroyerOk(s: State) {
    match s.destroyer
    case Running => true
    case Signalling(k) =>
      k <= |s.workers| && forall w :: 0 <= w < k ==> !s.workers[w].pc.Doze? && !s.workers[w].pc.Asleep?
    case Dropping(k) => Quiet(s) && k <= |s.workers| && forall w :: 0 <= w < k ==> s.workers[w].queue == []
    case Destroyed => Quiet(s) && forall w :: 0 <= w < |s.workers| ==> s.workers[w].queue == []
  }

  ghost predicate Quiet(s: State) {
    && s.sub.NoSubmit? && s.wakes == multiset{} && s.cancels == multiset{} && s.removed == map[]
    && forall w :: 0 <= w < |s.workers| ==> s.workers[w].pc.Gone?
  }

  // ----- earlier uses of ids -----

  function UseStage(pc: Pc, u: int): Pc {
    if InTurn(pc) && BatchOf(pc.task) == u then pc else Check
  }

  /** What is left of an earlier use: its history, and at most the end of a turn. */
  ghost function PastView(s: State, u: int): View
    requires u in s.past && s.past[u].worker < |s.workers|
  {
    View(s.past[u], None, 0, UseStage(s.workers[s.past[u].worker].pc, u), [], false, 0, 0, false, false, false)
  }

  ghost predicate PastOk(s: State, u: int)
    requires u in s.past
  {
    var j := s.past[u];
    && j.worker < |s.workers| && j.tasks != [] && FirstId(j) == u && j.counted
    && RequestOk(j.tasks[0].req, PastView(s, u))
    && forall r :: r in s.jobs ==> FirstId(s.jobs[r]) != u
  }

  /** Every batch attached so far got its task ids below `bound`. */
  ghost predicate IdsBelow(s: State, bound: int) {
    && (forall r :: r in s.jobs ==> FirstId(s.jobs[r]) + |s.jobs[r].tasks| <= bound)
    && (forall u :: u in s.past ==> u + |s.past[u].tasks| <= bound)
  }

  function IdBound(s: State): int {
    s.nextId - if s.sub.Build? then |s.sub.made| else 0
  }

  /** No two latest uses start with the same task id. */
  ghost predicate IdsApart(s: State) {
    && (forall r :: r in s.jobs ==> s.jobs[r].tasks != [])
    && (forall q, r :: q in s.jobs && r in s.jobs && q != r ==> FirstId(s.jobs[q]) != FirstId(s.jobs[r]))
  }

  ghost predicate Archive(s: State) {
    (forall u :: u in s.past ==> PastOk(s, u)) && IdsBelow(s, IdBound(s)) && IdsApart(s)
  }

  ghost predicate Inv(s: State) {
    Workers(s) && Homes(s) && Exclusive(s) && SubmitterOk(s) && DestroyerOk(s) && Requests(s) && Archive(s)
  }

  // ----- preservation -----

  lemma InitOk()
    ensures Inv(Init())
  {
  }

  /** `s'` differs from `s` in nothing that concerns a request other than `r`. */
  ghost predicate SameBut(s: State, s': State, r: Req) {
    && |s'.workers| == |s.workers|
    && Closed(s') == Closed(s) && s'.destroyer.Destroyed? == s.destroyer.Destroyed?
    && (forall q :: q != r ==>
          && (q in s'.jobs <==> q in s.jobs) && (q in s.jobs ==> s'.jobs[q] == s.jobs[q])
          && (q in s'.ctxs <==> q in s.ctxs) && (q in s.ctxs ==> s'.ctxs[q] == s.ctxs[q])
          && (q in s'.removed <==> q in s.removed) && (q in s.removed ==> s'.removed[q] == s.removed[q]))
    && (forall q, w {:trigger s'.wakes[(q, w)]} :: q != r ==> s'.wakes[(q, w)] == s.wakes[(q, w)])
    && (forall q, w {:trigger s'.cancels[(q, w)]} :: q != r ==> s'.cancels[(q, w)] == s.cancels[(q, w)])
    && (forall w :: 0 <= w < |s.workers| ==> SameWorkerBut(s.workers[w], s'.workers[w], r))
  }

  ghost predicate SameWorkerBut(x: Worker, x': Worker, r: Req) {
    forall q :: q != r ==>
      && Mine(x'.queue, q) == Mine(x.queue, q)
      && StageOf(x'.pc, q) == StageOf(x.pc, q)
      && x'.pc.Gone? == x.pc.Gone?
      && (q != 0 && x'.pending == q <==> q != 0 && x.pending == q)
  }

  /** A worker keeps its position, or moves without entering or leaving a turn of an earlier use. */
  predicate PcKept(past: map<int, Job>, pc: Pc, pc': Pc) {
    pc' == pc || (Recent(past, pc) && Recent(past, pc'))
  }

  predicate Recent(past: map<int, Job>, pc: Pc) {
    InTurn(pc) ==> BatchOf(pc.task) !in past
  }

  lemma ArchiveKept(s: State, s': State)
    requires Archive(s) && s'.past == s.past && |s'.workers| == |s.workers| && IdBound(s) <= IdBound(s')
    requires s'.jobs.Keys == s.jobs.Keys && forall r :: r in s.jobs ==> s'.jobs[r].tasks == s.jobs[r].tasks
    requires forall w :: 0 <= w < |s.workers| ==> PcKept(s.past, s.workers[w].pc, s'.workers[w].pc)
    ensures Archive(s')
  {
    hide RequestOk;
    forall u | u in s'.past ensures PastOk(s', u) {
      assert PastOk(s, u);
      var w := s.past[u].worker;
      assert PcKept(s.past, s.workers[w].pc, s'.workers[w].pc);
      assert PastView(s', u) == PastView(s, u);
    }
  }

  lemma Frame(s: State, s': State, r: Req)
    requires Requests(s) && SameBut(s, s', r)
    requires r in s'.jobs ==> s'.jobs[r].worker < |s'.workers| && RequestOk(r, ViewOf(s', r))
    ensures Requests(s')
  {
    forall q | q in s'.jobs
      ensures s'.jobs[q].worker < |s'.workers| && RequestOk(q, ViewOf(s', q))
    {
      if q != r {
        assert SameWorkerBut(s.workers[s.jobs[q].worker], s'.workers[s.jobs[q].worker], r);
        assert ViewOf(s', q) == ViewOf(s, q);
      }
    }
  }
}
