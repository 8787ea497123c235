/**
 The pool as a state machine. Every critical section of the source is one action;
 a worker's turn, during which it never lets go of its mutex, is cut into the steps
 other threads can observe. Any number of threads may wake and cancel; submissions
 are serialised.
 */
module Pool {
  import opened Base
  import opened TaskQueue
  import opened BatchSubmit

  const WORKERS: nat := 64

  // ----- state -----

  /** Where a worker thread is. It holds its mutex except when asleep, roused or gone. */
  datatype Pc =
    | Check                          // top of the loop
    | Doze                           // found nothing to do, about to wait
    | Asleep                         // inside the condition wait, mutex released
    | Roused                         // signalled, wants the mutex back
    | Popped(task: Task)             // task unlinked, function not called yet
    | Ran(task: Task)                // function returned, wrapper freed
    | Looked(task: Task, live: bool) // context looked up
    | Zeroed(task: Task, cb: bool)   // count reached zero, callback pending
    | Called(task: Task)             // callback done, context still linked
    | Settled(task: Task)            // only the task itself left to free
    | Gone

  datatype Worker = Worker(pc: Pc, state: WorkerState, pending: Req, queue: seq<Task>)

  datatype Ctx = Ctx(worker: nat, count: int, cb: bool)

  /** How often the three allocations of a task have been freed. */
  datatype Freed = Freed(node: nat, wrapper: nat, task: nat)

  /** The history of one submitted batch: what was asked for and what became of it. */
  datatype Job = Job(
    worker: nat,
    cb: bool,
    counted: bool,          // the context has been charged
    tasks: seq<Task>,       // as submitted
    ran: seq<Task>,
    dropped: seq<Task>,     // freed by the pool's destruction
    cancelled: seq<Task>,
    accepted: nat,          // wakes that found the request
    fired: nat,             // batch callbacks
    freed: seq<Freed>)      // by position in the batch

  /** A batch whose building failed: what had been made of it, and its ledger. */
  datatype Scrap = Scrap(tasks: seq<Task>, freed: seq<Freed>)

  /** Where the (only) submitting thread is. */
  datatype Submitter =
    | NoSubmit
    | Scan(req: Req, n: nat, cb: bool, at: nat, best: int, least: int)
    | Build(req: Req, n: nat, cb: bool, worker: nat, made: seq<Task>)
    | Attached(req: Req, n: nat, cb: bool, worker: nat)
    | Resolved(req: Req, n: nat, cb: bool, worker: nat, live: bool)

  datatype Destroyer = Running | Signalling(done: nat) | Dropping(done: nat) | Destroyed

  datatype State = State(
    workers: seq<Worker>,
    ctxs: map<Req, Ctx>,
    wakes: multiset<(Req, nat)>,    // wakes that looked up (request, worker) and not set the slot yet
    cancels: multiset<(Req, nat)>,  // cancels that looked up (request, worker) and not cleaned the queue yet
    removed: map<Req, nat>,         // tasks a cancel unlinked and not subtracted yet
    sub: Submitter,
    destroyer: Destroyer,
    nextId: nat,
    jobs: map<Req, Job>,            // the latest use of each id
    past: map<int, Job>,            // earlier uses, by the id of their first task
    scrapped: seq<Scrap>,
    fault: bool)                    // some thread touched a freed context

  function Init(): State {
    State(seq(WORKERS, _ => Worker(Check, Idle, 0, [])), map[], multiset{}, multiset{}, map[],
          NoSubmit, Running, 1, map[], map[], [], false)
  }

  predicate MutexFree(pc: Pc) {
    pc.Asleep? || pc.Roused? || pc.Gone?
  }

  predicate InTurn(pc: Pc) {
    pc.Popped? || pc.Ran? || pc.Looked? || pc.Zeroed? || pc.Called? || pc.Settled?
  }

  /** Destruction has joined the workers: no thread uses the pool any more. */
  predicate Closed(s: State) {
    s.destroyer.Dropping? || s.destroyer.Destroyed?
  }

  predicate Destroying(s: State) {
    !s.destroyer.Running?
  }

  // ----- actions -----

  datatype Action =
    | Submit(req: Req, n: nat, cb: bool) | ScanNext | BuildNext | BuildFail | Attach | LookupCtx | CountCtx
    | WakeFind(req: Req) | WakeSet(req: Req, w: nat)
    | CancelFind(req: Req) | CancelQueue(req: Req, w: nat) | CancelCount(req: Req)
    | LoopTop(w: nat) | Wait(w: nat) | Rouse(w: nat) | Relock(w: nat)
    | RunTask(w: nat) | FindCtx(w: nat) | Uncount(w: nat) | Callback(w: nat) | DropCtx(w: nat) | FreeTask(w: nat)
    | SetFlag | SignalNext | Join | DropQueue | Finish

  /** The position of worker `w`; an index without a worker counts as an exited one. */
  function PcAt(s: State, w: nat): Pc {
    if w < |s.workers| then s.workers[w].pc else Gone
  }

  /** No wake for `r` can have an effect on worker `w`: slot value 0 means none, and an exited worker reads no slot. */
  predicate Deaf(s: State, r: Req, w: nat) {
    r == 0 || PcAt(s, w).Gone?
  }

  /**
   Nothing of an earlier use of `r` is under way that could touch tasks of `r` on worker `w`.
   What is left of it on other workers, and the end of a turn there, does no harm.
   */
  predicate Clear(s: State, r: Req, w: nat) {
    && (r, w) !in s.cancels
    && (Deaf(s, r, w) || ((r, w) !in s.wakes && w < |s.workers| && s.workers[w].pending != r))
  }

  predicate Unlocked(s: State, w: nat) {
    w < |s.workers| && MutexFree(s.workers[w].pc)
  }

  /** All the source asks for before it links a finished batch: the worker's mutex. */
  predicate Attachable(s: State) {
    s.sub.Build? && |s.sub.made| == s.sub.n && Unlocked(s, s.sub.worker)
  }

  /**
   What an action waits for. Two conditions are the callers' part: an id is not submitted
   while its context is live, and when its batch is attached no leftover of an earlier use
   can touch it.
   */
  predicate Enabled(s: State, a: Action) {
    match a
    case Submit(r, n, cb) => !Closed(s) && s.sub.NoSubmit? && 0 < n && r !in s.ctxs
    case ScanNext => s.sub.Scan? && (s.sub.at < |s.workers| ==> MutexFree(s.workers[s.sub.at].pc))
    case BuildNext => s.sub.Build? && |s.sub.made| < s.sub.n
    case BuildFail => s.sub.Build? && |s.sub.made| < s.sub.n
    case Attach => Attachable(s) && Clear(s, s.sub.req, s.sub.worker)
    case LookupCtx => s.sub.Attached?
    case CountCtx => s.sub.Resolved?
    case WakeFind(r) => !Closed(s)
    case WakeSet(r, w) => (r, w) in s.wakes && Unlocked(s, w)
    case CancelFind(r) => !Closed(s)
    case CancelQueue(r, w) => (r, w) in s.cancels && Unlocked(s, w)
    case CancelCount(r) => r in s.removed
    case LoopTop(w) => PcAt(s, w).Check?
    case Wait(w) => PcAt(s, w).Doze?
    case Rouse(w) => PcAt(s, w).Asleep?
    case Relock(w) => PcAt(s, w).Roused?
    case RunTask(w) => PcAt(s, w).Popped?
    case FindCtx(w) => PcAt(s, w).Ran?
    case Uncount(w) => PcAt(s, w).Looked?
    case Callback(w) => PcAt(s, w).Zeroed?
    case DropCtx(w) => PcAt(s, w).Called?
    case FreeTask(w) => PcAt(s, w).Settled?
    case SetFlag => s.destroyer.Running?
    case SignalNext =>
      s.destroyer.Signalling? && s.destroyer.done < |s.workers| && MutexFree(s.workers[s.destroyer.done].pc)
    case Join =>
      && s.destroyer == Signalling(WORKERS)
      && (forall w :: 0 <= w < |s.workers| ==> s.workers[w].pc.Gone?)
      && s.sub.NoSubmit? && s.wakes == multiset{} && s.cancels == multiset{} && s.removed == map[]
    case DropQueue => s.destroyer.Dropping? && s.destroyer.done < |s.workers|
    case Finish => s.destroyer == Dropping(WORKERS)
  }

  /** What the selection sees of a worker. */
  function LoadOf(w: Worker): Load {
    Load(w.state, |w.queue|)
  }

  /** A wake-up signal reaches a worker only if it is waiting. */
  function Signalled(w: Worker): Worker {
    if w.pc.Asleep? then w.(pc := Roused) else w
  }

  /** A batch is known by the id of its first task. */
  function BatchOf(t: Task): int {
    t.id - t.arg
  }

  function FirstId(j: Job): int {
    if j.tasks == [] then 0 else j.tasks[0].id
  }

  function Unfreed(n: nat): seq<Freed> {
    seq(n, _ => Freed(0, 0, 0))
  }

  function FreeNode(f: seq<Freed>, i: nat): seq<Freed> {
    if i < |f| then f[i := f[i].(node := f[i].node + 1)] else f
  }

  function FreeWrapper(f: seq<Freed>, i: nat): seq<Freed> {
    if i < |f| then f[i := f[i].(wrapper := f[i].wrapper + 1)] else f
  }

  function FreeTaskCell(f: seq<Freed>, i: nat): seq<Freed> {
    if i < |f| then f[i := f[i].(task := f[i].task + 1)] else f
  }

  /** Wrapper, task and node of every task in `q`, as cancelling and destroying free them. */
  function FreeAll(f: seq<Freed>, q: seq<Task>): seq<Freed>
    decreases |q|
  {
    if q == [] then f
    else FreeAll(FreeNode(FreeTaskCell(FreeWrapper(f, q[0].arg), q[0].arg), q[0].arg), q[1..])
  }

  function DropFromJob(j: Job, q: seq<Task>): Job {
    j.(dropped := q + j.dropped, freed := FreeAll(j.freed, q))
  }

  /** Updates the history of the task a worker has in hand. */
  function WithJob(s: State, r: Req, f: Job -> Job): State {
    if r in s.jobs then s.(jobs := s.jobs[r := f(s.jobs[r])]) else s
  }

  /** Updates the history of the batch a task belongs to, be it the latest of its id or an earlier one. */
  function WithBatchOf(s: State, t: Task, f: Job -> Job): State {
    if t.req in s.jobs && FirstId(s.jobs[t.req]) == BatchOf(t) then WithJob(s, t.req, f)
    else if BatchOf(t) in s.past then s.(past := s.past[BatchOf(t) := f(s.past[BatchOf(t)])])
    else s
  }

  /** The earlier uses of ids once `r` is used again. */
  function Retired(s: State, r: Req): map<int, Job> {
    if r in s.jobs then s.past[FirstId(s.jobs[r]) := s.jobs[r]] else s.past
  }

  function SetWorker(s: State, w: nat, x: Worker): State
    requires w < |s.workers|
  {
    s.(workers := s.workers[w := x])
  }

  function SetPc(s: State, w: nat, pc: Pc): State
    requires w < |s.workers|
  {
    SetWorker(s, w, s.workers[w].(pc := pc))
  }

  function ApplyScan(s: State): State
    requires s.sub.Scan?
  {
    var c := s.sub;
    if c.at >= |s.workers| then
      if 0 <= c.best < |s.workers| then s.(sub := Build(c.req, c.n, c.cb, c.best, []))
      else s.(sub := NoSubmit)  // no worker: nothing was submitted
    else if Takes(LoadOf(s.workers[c.at])) then
      s.(sub := Build(c.req, c.n, c.cb, c.at, []))
    else
      var weighed := Weigh(LoadOf(s.workers[c.at]), c.at, c.best, c.least);
      s.(sub := c.(at := c.at + 1, best := weighed.0, least := weighed.1))
  }

  function ApplyAttach(s: State): State
    requires Attachable(s)
  {
    var c := s.sub;
    var x := s.workers[c.worker];
    SetWorker(s, c.worker, x.(queue := x.queue + c.made)).(
      jobs := s.jobs[c.req := Job(c.worker, c.cb, false, c.made, [], [], [], 0, 0,
                                  Unfreed(|c.made|))],
      past := Retired(s, c.req),
      sub := Attached(c.req, c.n, c.cb, c.worker))
  }

  function ApplyCount(s: State): State
    requires s.sub.Resolved?
  {
    var c := s.sub;
    var t := WithJob(s.(sub := NoSubmit), c.req, (j: Job) => j.(counted := true));
    if c.live then
      if c.req in s.ctxs
      then t.(ctxs := s.ctxs[c.req := s.ctxs[c.req].(count := s.ctxs[c.req].count + c.n)])
      else t.(fault := true)
    else t.(ctxs := s.ctxs[c.req := Ctx(c.worker, c.n, c.cb)])
  }

  function ApplyWakeFind(s: State, r: Req): State {
    if r in s.ctxs
    then WithJob(s.(wakes := s.wakes + multiset{(r, s.ctxs[r].worker)}), r, (j: Job) => j.(accepted := j.accepted + 1))
    else s
  }

  function ApplyCancelFind(s: State, r: Req): State {
    if r in s.ctxs then s.(cancels := s.cancels + multiset{(r, s.ctxs[r].worker)}) else s
  }

  function ApplyCancelQueue(s: State, r: Req, w: nat): State
    requires w < |s.workers|
  {
    var x := s.workers[w];
    var mine := Mine(x.queue, r);
    var t := SetWorker(s, w, x.(queue := Others(x.queue, r))).(cancels := s.cancels - multiset{(r, w)});
    if mine == [] then t
    else WithJob(t.(removed := s.removed[r := |mine| + if r in s.removed then s.removed[r] else 0]), r,
                 (j: Job) => j.(cancelled := mine + j.cancelled, freed := FreeAll(j.freed, mine)))
  }

  function ApplyCancelCount(s: State, r: Req): State
    requires r in s.removed
  {
    var t := s.(removed := s.removed - {r});
    if r !in s.ctxs then t.(fault := true)
    else
      var left := s.ctxs[r].count - s.removed[r];
      if left == 0 then t.(ctxs := s.ctxs - {r})
      else t.(ctxs := s.ctxs[r := s.ctxs[r].(count := left)])
  }

  function ApplyLoopTop(s: State, w: nat): State
    requires w < |s.workers|
  {
    var x := s.workers[w];
    if x.pending != 0 then
      match FirstOf(x.queue, x.pending)
      case None => SetWorker(s, w, x.(pending := 0))
      case Some(t) =>
        WithJob(SetWorker(s, w, Worker(Popped(t), Busy, 0, DropFirst(x.queue, x.pending))), t.req,
                (j: Job) => j.(freed := FreeNode(j.freed, t.arg)))
    else if Destroying(s) then SetWorker(s, w, x.(pc := Gone, state := Exit))
    else SetPc(s, w, Doze)
  }

  function ApplyRun(s: State, w: nat): State
    requires PcAt(s, w).Popped?
  {
    var t := s.workers[w].pc.task;
    WithJob(SetPc(s, w, Ran(t)), t.req,
            (j: Job) => j.(ran := j.ran + [t], freed := FreeWrapper(j.freed, t.arg)))
  }

  function ApplyFindCtx(s: State, w: nat): State
    requires PcAt(s, w).Ran?
  {
    var t := s.workers[w].pc.task;
    SetPc(s, w, Looked(t, t.req in s.ctxs))
  }

  function ApplyUncount(s: State, w: nat): State
    requires PcAt(s, w).Looked?
  {
    var pc := s.workers[w].pc;
    var r := pc.task.req;
    if !pc.live then SetPc(s, w, Settled(pc.task))
    else if r !in s.ctxs then s.(fault := true)
    else
      var c := s.ctxs[r].(count := s.ctxs[r].count - 1);
      SetPc(s, w, if c.count == 0 then Zeroed(pc.task, c.cb) else Settled(pc.task)).(ctxs := s.ctxs[r := c])
  }

  function ApplyCallback(s: State, w: nat): State
    requires PcAt(s, w).Zeroed?
  {
    var pc := s.workers[w].pc;
    WithJob(SetPc(s, w, Called(pc.task)), pc.task.req,
            (j: Job) => j.(fired := j.fired + if pc.cb then 1 else 0))
  }

  function ApplyDropCtx(s: State, w: nat): State
    requires PcAt(s, w).Called?
  {
    var t := s.workers[w].pc.task;
    SetPc(s, w, Settled(t)).(ctxs := s.ctxs - {t.req})
  }

  function ApplyFreeTask(s: State, w: nat): State
    requires PcAt(s, w).Settled?
  {
    var t := s.workers[w].pc.task;
    WithBatchOf(SetWorker(s, w, s.workers[w].(pc := Check, state := Idle)), t,
                (j: Job) => j.(freed := FreeTaskCell(j.freed, t.arg)))
  }

  function ApplyDropQueue(s: State): State
    requires s.destroyer.Dropping? && s.destroyer.done < |s.workers|
  {
    var w := s.destroyer.done;
    var q := s.workers[w].queue;
    SetWorker(s, w, s.workers[w].(queue := [])).(
      jobs := map r | r in s.jobs :: DropFromJob(s.jobs[r], Mine(q, r)),
      destroyer := Dropping(w + 1))
  }

  function Apply(s: State, a: Action): State
    requires Enabled(s, a)
  {
    match a
    case Submit(r, n, cb) => s.(sub := Scan(r, n, cb, 0, NO_WORKER, MAX_LOAD))
    case ScanNext => ApplyScan(s)
    case BuildNext =>
      s.(sub := s.sub.(made := s.sub.made + [Task(s.nextId, s.sub.req, |s.sub.made|)]), nextId := s.nextId + 1)
    case BuildFail =>
      s.(sub := NoSubmit, nextId := s.nextId + 1,
         scrapped := s.scrapped + [Scrap(s.sub.made, FreeAll(Unfreed(|s.sub.made|), s.sub.made))])
    case Attach => ApplyAttach(s)
    case LookupCtx => s.(sub := Resolved(s.sub.req, s.sub.n, s.sub.cb, s.sub.worker, s.sub.req in s.ctxs))
    case CountCtx => ApplyCount(s)
    case WakeFind(r) => ApplyWakeFind(s, r)
    case WakeSet(r, w) =>
      SetWorker(s, w, Signalled(s.workers[w].(pending := r))).(wakes := s.wakes - multiset{(r, w)})
    case CancelFind(r) => ApplyCancelFind(s, r)
    case CancelQueue(r, w) => ApplyCancelQueue(s, r, w)
    case CancelCount(r) => ApplyCancelCount(s, r)
    case LoopTop(w) => ApplyLoopTop(s, w)
    case Wait(w) => SetPc(s, w, Asleep)
    case Rouse(w) => SetPc(s, w, Roused)
    case Relock(w) => SetPc(s, w, Check)
    case RunTask(w) => ApplyRun(s, w)
    case FindCtx(w) => ApplyFindCtx(s, w)
    case Uncount(w) => ApplyUncount(s, w)
    case Callback(w) => ApplyCallback(s, w)
    case DropCtx(w) => ApplyDropCtx(s, w)
    case FreeTask(w) => ApplyFreeTask(s, w)
    case SetFlag => s.(destroyer := Signalling(0))
    case SignalNext =>
      SetWorker(s, s.destroyer.done, Signalled(s.workers[s.destroyer.done])).(
        destroyer := Signalling(s.destroyer.done + 1))
    case Join => s.(destroyer := Dropping(0))
    case DropQueue => ApplyDropQueue(s)
    case Finish => s.(destroyer := Destroyed, ctxs := map[])
  }

  /** The state a run ends in, if every action was enabled when its turn came. */
  function After(run: seq<Action>): Option<State> {
    if run == [] then Some(Init())
    else
      var a := run[|run| - 1];
      match After(run[..|run| - 1])
      case None => None
      case Some(s) => if Enabled(s, a) then Some(Apply(s, a)) else None
  }
}
