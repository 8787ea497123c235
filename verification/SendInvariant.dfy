/**
 The invariant of the send protocol: every healthy send with chunks left has exactly one
 token, which is what makes the next chunk go out, unless it was robbed of it.
 */
module SendInvariant {
  import opened Base
  import opened TaskQueue
  import opened TaskSync
  import opened PoolInvariant
  import opened Send

  // ----- one transfer -----

  datatype SendView = SendView(
    t: Transfer,
    v: View,
    wrote: Option<bool>,  // result of the post of the task in hand, if made
    calling: bool,        // the send call has not returned
    got: bool)            // the poller holds a completion of this request

  ghost function SendViewOf(s: System, r: Req): SendView
    requires r in s.sends && r in s.pool.jobs && s.pool.jobs[r].worker < |s.pool.workers| == |s.wrote|
  {
    var v := ViewOf(s.pool, r);
    SendView(s.sends[r], v, if v.stage.Popped? then s.wrote[v.job.worker] else None, !Returned(s, r),
             s.poller == Got(r))
  }

  /** Tasks whose post has been made, accepted or not. */
  function Attempts(x: SendView): nat {
    |x.v.job.ran| + if x.wrote.Some? then 1 else 0
  }

  /** Where the right to post the next chunk can be: write, poller, wake, slot, worker. */
  function Tokens(x: SendView): nat {
    x.t.out + (if x.got then 1 else 0) + x.v.flights + (if x.v.slot then 1 else 0)
    + if x.v.stage.Popped? && x.wrote.None? then 1 else 0
  }

  predicate InOrder(posted: seq<nat>) {
    forall i :: 0 <= i < |posted| ==> posted[i] == i
  }

  predicate AllTrue(marks: seq<bool>) {
    forall i :: 0 <= i < |marks| ==> marks[i]
  }

  /** No post refused so far. */
  predicate Healthy(x: SendView) {
    && AllTrue(x.t.marks) && x.wrote != Some(false)
    && if x.calling then x.t.posted == [] && Attempts(x) == 0 && Tokens(x) == 0 && !x.t.robbed
       else && |x.t.posted| == 1 + Attempts(x) && Tokens(x) <= 1
            && (|x.t.posted| < x.t.n ==> (Tokens(x) == 1 <==> !x.t.robbed))
            && (x.t.robbed ==> |x.t.posted| < x.t.n)
  }

  /** A post was refused: nothing will move any more. */
  predicate Broken(x: SendView) {
    && !x.calling && Tokens(x) == 0 && !x.t.robbed && |x.t.posted| == Attempts(x)
    && (Attempts(x) == 0
        || if x.wrote.Some? then !x.wrote.value && AllTrue(x.t.marks)
           else |x.t.marks| > 0 && !x.t.marks[|x.t.marks| - 1] && AllTrue(x.t.marks[..|x.t.marks| - 1]))
  }

  /** The failure has been made visible to the waiter. */
  predicate Announced(x: SendView) {
    x.t.failed && x.wrote.None?
  }

  predicate SyncOk(x: SendView) {
    && |x.t.marks| == |x.v.job.ran| && x.t.sync.total == x.t.n - 1
    && x.t.sync.completed == Successes(x.t.marks)
    && (x.t.sync.done <==> Announced(x) || x.t.sync.completed == x.t.n - 1)
  }

  predicate GaveUp(p: Waiter) {
    p.ToCancel? || p.Found? || p.Unsubtracted? || p == Ready(false) || p == Waiter.Gone(false)
  }

  /** The waiter relies on no task touching the request any more. */
  predicate PastCancel(p: Waiter) {
    p.Unsubtracted? || p.Ready? || p.Gone?
  }

  predicate WaiterOk(x: SendView) {
    && (!x.t.waiter.Away? ==> x.t.sync.done && !x.calling)
    && (x.t.waiter == Ready(true) || x.t.waiter == Waiter.Gone(true) ==> Succeeded(x.t.sync))
    && (GaveUp(x.t.waiter) ==> !Succeeded(x.t.sync))
    && (if x.t.waiter.Found? then x.v.cancelling == 1 && x.t.waiter.w == x.v.job.worker else x.v.cancelling == 0)
    && (x.t.waiter.Unsubtracted? <==> x.v.owedToCancel > 0)
    && (x.v.job.cancelled != [] ==> PastCancel(x.t.waiter) && GaveUp(x.t.waiter))
    && (PastCancel(x.t.waiter) ==> x.v.queued == [] && !x.v.stage.Popped?)
  }

  ghost predicate SendOk(r: Req, x: SendView) {
    && r != 0 && x.t.registered && x.t.n >= 2 && |x.v.job.tasks| == x.t.n - 1
    && !x.v.closed && !x.v.destroyed && (!x.calling ==> x.v.job.counted)
    && InOrder(x.t.posted) && (x.wrote.Some? ==> x.v.stage.Popped?)
    && (if x.t.failed then Broken(x) else Healthy(x))
    && SyncOk(x) && WaiterOk(x)
  }

  // ----- the system -----

  /** A request whose tasks are not in the pool: still being registered, or given up. */
  ghost predicate Dormant(s: System, r: Req) {
    && r != 0 && Unused(s.pool, r) && Traceless(s.pool, r) && s.poller != Got(r)
    && r in s.sends && s.sends[r].out == 0 && s.sends[r].posted == [] && !s.sends[r].failed && s.sends[r].n >= 2
    && (s.sends[r].waiter == Waiter.Gone(false) || (s.sends[r].waiter.Away? && s.caller == Registering(r)))
  }

  predicate Registered(s: System, r: Req) {
    r in s.sends && s.sends[r].registered
  }

  ghost predicate Transfers(s: System) {
    && (forall r :: Registered(s, r) ==>
          r in s.pool.jobs && s.pool.jobs[r].worker < |s.pool.workers| == |s.wrote| && SendOk(r, SendViewOf(s, r)))
    && (forall r :: r in s.sends && !s.sends[r].registered ==> Dormant(s, r))
  }

  predicate CallerOk(s: System) {
    match s.caller
    case NoCall => s.pool.sub.NoSubmit?
    case Elsewhere => !s.pool.sub.NoSubmit? && s.pool.sub.req !in s.sends
    case FirstPost(r) => s.pool.sub.NoSubmit? && Registered(s, r)
    case Registering(r) =>
      && !s.pool.sub.NoSubmit? && s.pool.sub.req == r && !s.pool.sub.cb && r != 0 && r in s.sends
      && s.pool.sub.n == s.sends[r].n - 1 && s.sends[r].n >= 2
      && (s.sends[r].registered <==> s.pool.sub.Attached? || s.pool.sub.Resolved?)
      && (!s.sends[r].registered ==>
            s.sends[r] == Transfer(s.sends[r].n, false, [], 0, false, false, [], TaskSync.Fresh(s.sends[r].n - 1),
                                   Away))
  }

  /** Setting the slot of `w` for `r` takes nothing from a send. */
  predicate SlotSpare(s: System, w: nat, r: Req) {
    w < |s.pool.workers| &&
    var x := s.pool.workers[w];
    x.pending == 0 || x.pending == r || x.pending !in s.sends || Mine(x.queue, x.pending) == []
  }

  /** A wake looked up outside the gap of a cancel overwrites only what no send needs any more. */
  ghost predicate PollerOk(s: System) {
    match s.poller
    case Polling => s.pool.wakes == multiset{}
    case Got(r) => s.pool.wakes == multiset{} && (r in s.sends ==> Registered(s, r))
    case Holding(r, w, gap) =>
      && s.pool.wakes == multiset{(r, w)} && w < |s.pool.workers|
      && (r in s.sends ==> Registered(s, r) && Owns(s.pool, r, w))
      && (gap || SlotSpare(s, w, r))
  }

  predicate WritesOk(s: System) {
    && |s.wrote| == |s.pool.workers|
    && forall w :: 0 <= w < |s.wrote| && s.wrote[w].Some? ==>
         s.pool.workers[w].pc.Popped? && s.pool.workers[w].pc.task.req in s.sends
  }

  ghost predicate SystemOk(s: System) {
    && Inv(s.pool) && s.pool.destroyer.Running? && !s.strayAccess
    && Transfers(s) && CallerOk(s) && PollerOk(s) && WritesOk(s)
  }

  lemma StartOk()
    ensures SystemOk(Start())
  {
    InitOk();
  }
}

/** What each step does to the view of the transfer it is about. */
module SendViews {
  import opened Base
  import opened TaskQueue
  import opened TaskSync
  import opened Pool
  import opened PoolInvariant
  import opened PoolViews
  import opened Send
  import opened SendInvariant

  lemma {:induction false} AllTrueCounts(marks: seq<bool>)
    ensures Successes(marks) <= |marks|
    ensures Successes(marks) == |marks| <==> AllTrue(marks)
  {
    SuccessesBound(marks);
  }

  lemma AppendMark(marks: seq<bool>, ok: bool)
    ensures Successes(marks + [ok]) == Successes(marks) + if ok then 1 else 0
  {
    assert (marks + [ok])[..|marks|] == marks;
  }

  /** With nothing queued, in hand or cancelled, every task has been attempted. */
  lemma AllAttempted(r: Req, x: SendView)
    requires Fates(r, x.v) && SendOk(r, x) && !x.t.failed && !x.calling
    requires x.v.queued == [] && (x.v.stage.Popped? ==> x.wrote.Some?)
    ensures |x.t.posted| == x.t.n
  {
    QueuedStretch(r, x.v);
    AllTrueCounts(x.t.marks);
    assert x.v.job.cancelled == [];
  }

  /** A healthy request counts as succeeded exactly when all its tasks have run. */
  lemma VerdictOf(r: Req, x: SendView)
    requires Fates(r, x.v) && SendOk(r, x)
    ensures |x.v.job.ran| <= x.t.n - 1 && x.t.sync.completed <= |x.v.job.ran|
    ensures Succeeded(x.t.sync) ==> |x.v.job.ran| == x.t.n - 1 && !x.t.failed && |x.t.posted| == x.t.n
    ensures Succeeded(x.t.sync) ==> x.v.queued == [] && !x.v.stage.Popped? && x.v.job.cancelled == []
    ensures x.t.sync.done && !Succeeded(x.t.sync) ==> x.t.failed
    ensures !x.t.failed && |x.v.job.ran| == x.t.n - 1 ==> Succeeded(x.t.sync)
  {
    QueuedStretch(r, x.v);
    AllTrueCounts(x.t.marks);
    if x.t.failed && x.wrote.None? && |x.t.marks| > 0 {
      AllTrueCounts(x.t.marks[..|x.t.marks| - 1]);
    }
  }

  lemma FirstKeeps(r: Req, x: SendView, ok: bool)
    requires SendOk(r, x) && Fates(r, x.v) && x.calling && x.v.job.counted && !x.t.failed
    ensures SendOk(r, x.(calling := false,
                         t := if ok then x.t.(posted := x.t.posted + [0], out := x.t.out + 1)
                              else x.t.(failed := true, sync := Failed(x.t.sync))))
  {
    VerdictOf(r, x);
  }

  lemma DeliverKeeps(r: Req, x: SendView)
    requires SendOk(r, x) && x.t.out > 0 && !x.got
    ensures SendOk(r, x.(got := true, t := x.t.(out := x.t.out - 1)))
  {
  }

  lemma LookupHitKeeps(r: Req, x: SendView)
    requires SendOk(r, x) && x.got
    ensures SendOk(r, x.(got := false,
                         v := x.v.(flights := x.v.flights + 1, job := x.v.job.(accepted := x.v.job.accepted + 1))))
  {
  }

  /** A completion finds no context only when there is no chunk left to post. */
  lemma LookupMissKeeps(r: Req, x: SendView)
    requires SendOk(r, x) && RequestOk(r, x.v) && x.got && x.v.ctx.None?
    ensures SendOk(r, x.(got := false))
  {
    AllAttempted(r, x);
  }

  lemma SetKeeps(r: Req, x: SendView)
    requires SendOk(r, x) && x.v.flights > 0 && !x.v.slot
    ensures SendOk(r, x.(v := x.v.(flights := x.v.flights - 1, slot := true)))
  {
  }

  /** Losing the slot while tasks wait stops the send for good. */
  lemma RobKeeps(r: Req, x: SendView)
    requires SendOk(r, x) && Fates(r, x.v) && x.v.slot && x.v.queued != []
    ensures SendOk(r, x.(t := x.t.(robbed := true), v := x.v.(slot := false)))
  {
    QueuedStretch(r, x.v);
    VerdictOf(r, x);
  }

  /** Losing the slot costs nothing once nothing is queued. */
  lemma ClearSlotKeeps(r: Req, x: SendView)
    requires SendOk(r, x) && Fates(r, x.v) && x.v.slot && x.v.queued == []
    ensures SendOk(r, x.(v := x.v.(slot := false)))
  {
    AllAttempted(r, x);
  }

  lemma PopKeepsSend(r: Req, x: SendView)
    requires SendOk(r, x) && x.v.slot && x.v.queued != [] && x.v.stage.Check?
    ensures SendOk(r, x.(v := PopView(x.v), wrote := None))
  {
  }

  lemma WriteKeeps(r: Req, x: SendView, ok: bool)
    requires SendOk(r, x) && Fates(r, x.v) && x.v.stage.Popped? && x.wrote.None?
    ensures x.v.stage.task.arg + 1 == |x.t.posted| && x.t.waiter.Away?
    ensures SendOk(r, x.(wrote := Some(ok),
                         t := if ok then x.t.(posted := x.t.posted + [x.v.stage.task.arg + 1], out := x.t.out + 1)
                              else x.t.(failed := true)))
  {
    QueuedStretch(r, x.v);
    VerdictOf(r, x);
  }

  lemma MarkKeeps(r: Req, x: SendView)
    requires SendOk(r, x) && Fates(r, x.v) && x.v.stage.Popped? && x.wrote.Some?
    ensures !PastCancel(x.t.waiter)
    ensures var ok := x.wrote.value;
            SendOk(r, x.(wrote := None, v := RunView(x.v),
                         t := x.t.(marks := x.t.marks + [ok], sync := Marked(x.t.sync, ok))))
  {
    var ok := x.wrote.value;
    QueuedStretch(r, x.v);
    VerdictOf(r, x);
    AppendMark(x.t.marks, ok);
    AllTrueCounts(x.t.marks);
    assert (x.t.marks + [ok])[..|x.t.marks + [ok]| - 1] == x.t.marks;
  }

  /** The rest of a turn is invisible to the protocol. */
  lemma TurnKeepsSend(r: Req, x: SendView, v': View)
    requires SendOk(r, x) && !x.v.stage.Popped? && !v'.stage.Popped?
    requires v' == x.v.(stage := v'.stage, ctx := v'.ctx, job := x.v.job.(freed := v'.job.freed, fired := v'.job.fired))
    ensures SendOk(r, x.(v := v'))
  {
  }

  lemma CountKeepsSend(r: Req, x: SendView)
    requires SendOk(r, x) && x.calling
    ensures SendOk(r, x.(v := x.v.(ctx := Some(Ctx(x.v.job.worker, |x.v.job.tasks|, x.v.job.cb)),
                                   job := x.v.job.(counted := true))))
  {
  }

  lemma NoticeKeeps(r: Req, x: SendView)
    requires SendOk(r, x) && x.t.waiter.Away? && !x.calling && x.t.sync.done
    ensures SendOk(r, x.(t := x.t.(waiter := Noticed)))
  {
  }

  lemma JudgeKeeps(r: Req, x: SendView)
    requires SendOk(r, x) && Fates(r, x.v) && x.t.waiter.Noticed?
    ensures SendOk(r, x.(t := x.t.(waiter := if Succeeded(x.t.sync) then Ready(true) else ToCancel)))
  {
    VerdictOf(r, x);
  }

  /** A cancel that finds no context finds the request drained. */
  lemma CancelLookupKeeps(r: Req, x: SendView)
    requires SendOk(r, x) && RequestOk(r, x.v) && x.t.waiter.ToCancel?
    ensures x.v.ctx.None? ==> SendOk(r, x.(t := x.t.(waiter := Ready(false))))
    ensures x.v.ctx.Some? ==>
              SendOk(r, x.(t := x.t.(waiter := Found(x.v.ctx.value.worker)),
                           v := x.v.(cancelling := x.v.cancelling + 1)))
  {
  }

  lemma CancelUnlinkKeeps(r: Req, x: SendView)
    requires SendOk(r, x) && RequestOk(r, x.v) && x.t.waiter.Found? && x.v.stage.Check?
    ensures x.v.queued == [] ==>
              SendOk(r, x.(t := x.t.(waiter := Ready(false)), v := x.v.(cancelling := x.v.cancelling - 1)))
    ensures x.v.queued != [] ==> SendOk(r, x.(t := x.t.(waiter := Unsubtracted), v := CancelView(x.v)))
  {
  }

  lemma CancelSubtractKeeps(r: Req, x: SendView)
    requires SendOk(r, x) && x.t.waiter.Unsubtracted?
    ensures SendOk(r, x.(t := x.t.(waiter := Ready(false)), v := x.v.(ctx := None, owedToCancel := 0)))
  {
  }

  lemma FreeKeeps(r: Req, x: SendView)
    requires SendOk(r, x) && x.t.waiter.Ready?
    ensures SendOk(r, x.(t := x.t.(waiter := Waiter.Gone(x.t.waiter.ok))))
  {
  }

  lemma FreshSendOk(r: Req, w: nat, n: nat, made: seq<Task>, deaf: bool)
    requires r != 0 && n >= 2 && |made| == n - 1
    ensures SendOk(r, SendView(Transfer(n, true, [], 0, false, false, [], TaskSync.Fresh(n - 1), Away),
                               FreshView(w, false, made, false, 0, deaf), None, true, false))
  {
  }
}
