/**
 The chunked send protocol on top of the pool. One thread at a time submits to the pool,
 one thread polls completions and wakes workers, workers post one chunk per task, and each
 send has one thread that waits and then frees its resources. Requests that are not sends,
 such as receives, share the pool, the submitter and the poller.
 */
module Send {
  import opened Base
  import opened TaskQueue
  import opened TaskSync
  import opened Pool

  /** Where the thread that waits for a request is. */
  datatype Waiter =
    | Away              // not past the wait
    | Noticed           // saw the request completed, counts not read yet
    | ToCancel          // verdict failure, tasks to be cancelled
    | Found(w: nat)     // cancel looked the context up
    | Unsubtracted      // cancel unlinked tasks, context not updated
    | Ready(ok: bool)   // about to free the handle, the task arguments and the chunks
    | Gone(ok: bool)    // freed

  datatype Transfer = Transfer(
    n: nat,             // chunks
    registered: bool,   // its tasks have been attached to the pool
    posted: seq<nat>,   // chunks whose write was accepted, in order
    out: nat,           // accepted writes whose completion has not been polled
    failed: bool,       // some post was refused
    robbed: bool,       // a wake for another request overwrote the slot while tasks waited
    marks: seq<bool>,   // outcomes reported by the tasks, in order
    sync: Sync,
    waiter: Waiter)

  /** The submitting thread: inside a send call, or submitting a request that is not a send. */
  datatype Caller = NoCall | Registering(req: Req) | FirstPost(req: Req) | Elsewhere

  /** The poller remembers whether the lookup fell into the gap of a cancel. */
  datatype Poller = Polling | Got(req: Req) | Holding(req: Req, w: nat, gap: bool)

  datatype System = System(
    pool: State,
    sends: map<Req, Transfer>,
    caller: Caller,
    poller: Poller,
    wrote: seq<Option<bool>>,  // per worker: result of the post its task has made but not marked yet
    strayAccess: bool)         // a task touched a handle, argument or chunk already freed

  function Start(): System {
    System(Init(), map[], NoCall, Polling, seq(WORKERS, _ => None), false)
  }

  datatype Step =
    | Call(req: Req, n: nat) | Register(a: Action) | First(ok: bool)
    | Deliver(req: Req) | Arrive(req: Req) | Lookup | Set
    | Write(w: nat, ok: bool) | Mark(w: nat) | Turn(a: Action)
    | Notice(req: Req) | Judge(req: Req)
    | CancelLookup(req: Req) | CancelUnlink(req: Req) | CancelSubtract(req: Req) | Free(req: Req)
    | Other(a: Action) | Forget(req: Req)

  predicate Submitting(a: Action) {
    a.ScanNext? || a.BuildNext? || a.BuildFail? || a.Attach? || a.LookupCtx? || a.CountCtx?
  }

  /** The worker actions with no counterpart in the protocol. */
  predicate Silent(a: Action) {
    a.LoopTop? || a.Wait? || a.Rouse? || a.Relock? || a.FindCtx? || a.Uncount? || a.Callback? || a.DropCtx?
    || a.FreeTask?
  }

  /**
   The waiter will not cancel any more: it is past that point, or will find the request
   succeeded. From here on it only reads and frees its own handle.
   */
  predicate LetGo(t: Transfer) {
    t.waiter.Ready? || t.waiter.Gone? || (t.sync.done && Succeeded(t.sync))
  }

  /** An earlier send under the same id is over, down to its last completion. */
  predicate Over(s: System, r: Req) {
    (r in s.sends ==> LetGo(s.sends[r]) && s.sends[r].out == 0) && s.poller != Got(r)
  }

  /** Nothing under way in the pool names `r`. */
  predicate Traceless(p: State, r: Req) {
    forall w :: 0 <= w < |p.workers| ==> (r, w) !in p.wakes && (r, w) !in p.cancels && p.workers[w].pending != r
  }

  /** The thread inside the send call has left it, as far as `r` is concerned. */
  predicate Returned(s: System, r: Req) {
    s.caller != Registering(r) && s.caller != FirstPost(r)
  }

  predicate WaiterAt(s: System, r: Req, p: Waiter) {
    r in s.sends && s.sends[r].waiter == p
  }

  /** What other requests do on the pool; an id of a send is none of theirs until the send is forgotten. */
  predicate CanOther(s: System, b: Action) {
    Enabled(s.pool, b) &&
    match b
    case Submit(r, n, cb) => s.caller.NoCall? && r !in s.sends
    case CancelFind(r) => r !in s.sends
    case CancelQueue(r, w) => r !in s.sends
    case CancelCount(r) => r !in s.sends
    case RunTask(w) => s.pool.workers[w].pc.task.req !in s.sends
    case _ => Submitting(b) && s.caller.Elsewhere?
  }

  predicate Can(s: System, a: Step) {
    match a
    case Call(r, n) =>
      && s.caller.NoCall? && r != 0 && 2 <= n && Over(s, r) && Traceless(s.pool, r)
      && Enabled(s.pool, Submit(r, n - 1, false))
    case Register(b) => s.caller.Registering? && Submitting(b) && Enabled(s.pool, b)
    case First(ok) => s.caller.FirstPost? && s.caller.req in s.sends
    case Deliver(r) => s.poller.Polling? && r in s.sends && 0 < s.sends[r].out
    case Arrive(r) => s.poller.Polling? && r !in s.sends
    case Lookup => s.poller.Got? && Enabled(s.pool, WakeFind(s.poller.req))
    case Set => s.poller.Holding? && Enabled(s.pool, WakeSet(s.poller.req, s.poller.w))
    case Write(w, ok) =>
      && PcAt(s.pool, w).Popped? && s.pool.workers[w].pc.task.req in s.sends
      && w < |s.wrote| && s.wrote[w].None?
    case Mark(w) =>
      && PcAt(s.pool, w).Popped? && s.pool.workers[w].pc.task.req in s.sends
      && w < |s.wrote| && s.wrote[w].Some?
    case Turn(b) => Silent(b) && Enabled(s.pool, b)
    case Notice(r) => WaiterAt(s, r, Away) && Returned(s, r) && s.sends[r].sync.done
    case Judge(r) => WaiterAt(s, r, Noticed)
    case CancelLookup(r) => WaiterAt(s, r, ToCancel) && Enabled(s.pool, CancelFind(r))
    case CancelUnlink(r) =>
      r in s.sends && s.sends[r].waiter.Found? && Enabled(s.pool, CancelQueue(r, s.sends[r].waiter.w))
    case CancelSubtract(r) => WaiterAt(s, r, Unsubtracted) && Enabled(s.pool, CancelCount(r))
    case Free(r) => r in s.sends && s.sends[r].waiter.Ready?
    case Other(b) => CanOther(s, b)
    case Forget(r) => r in s.sends && Over(s, r)
  }

  function Put(s: System, r: Req, t: Transfer): System {
    s.(sends := s.sends[r := t])
  }

  function SetWaiter(s: System, r: Req, p: Waiter): System
    requires r in s.sends
  {
    Put(s, r, s.sends[r].(waiter := p))
  }

  /** The id is taken: a new transfer whose tasks are not attached yet. */
  function DoCall(s: System, r: Req, n: nat): System
    requires Can(s, Call(r, n))
  {
    Put(s.(pool := Apply(s.pool, Submit(r, n - 1, false)), caller := Registering(r)), r,
        Transfer(n, false, [], 0, false, false, [], TaskSync.Fresh(n - 1), Away))
  }

  /** The pool's share of the send call; the call gives up when the pool takes nothing. */
  function DoRegister(s: System, a: Action): System
    requires Can(s, Register(a))
  {
    var r := s.caller.req;
    var t := s.(pool := Apply(s.pool, a));
    if r !in s.sends then t
    else if a.Attach? then Put(t, r, s.sends[r].(registered := true))
    else if !t.pool.sub.NoSubmit? then t
    else if a.CountCtx? then t.(caller := FirstPost(r))
    else SetWaiter(t.(caller := NoCall), r, Waiter.Gone(false))
  }

  function DoFirst(s: System, ok: bool): System
    requires Can(s, First(ok))
  {
    var r := s.caller.req;
    var t := s.sends[r];
    Put(s.(caller := NoCall), r,
        if ok then t.(posted := t.posted + [0], out := t.out + 1)
        else t.(failed := true, sync := Failed(t.sync)))
  }

  function DoLookup(s: System): System
    requires Can(s, Lookup)
  {
    var r := s.poller.req;
    s.(pool := Apply(s.pool, WakeFind(r)),
       poller := if r in s.pool.ctxs then Holding(r, s.pool.ctxs[r].worker, r in s.pool.removed) else Polling)
  }

  /** The held wake takes the slot away from a send whose tasks still wait on that worker. */
  predicate Robs(s: System) {
    s.poller.Holding? && s.poller.w < |s.pool.workers| &&
    var x := s.pool.workers[s.poller.w];
    x.pending != 0 && x.pending != s.poller.req && x.pending in s.sends && Mine(x.queue, x.pending) != []
  }

  function DoSet(s: System): System
    requires Can(s, Set)
  {
    var t := s.(pool := Apply(s.pool, WakeSet(s.poller.req, s.poller.w)), poller := Polling);
    if Robs(s) then
      var q := s.pool.workers[s.poller.w].pending;
      Put(t, q, s.sends[q].(robbed := true))
    else t
  }

  /** Another request moves the pool; a submission occupies the submitter until it is through. */
  function DoOther(s: System, b: Action): System
    requires Can(s, Other(b))
  {
    var t := s.(pool := Apply(s.pool, b));
    if b.Submit? || Submitting(b) then t.(caller := if t.pool.sub.NoSubmit? then NoCall else Elsewhere) else t
  }

  /** The task's function posts the write of its chunk: argument i is chunk i + 1. */
  function DoWrite(s: System, w: nat, ok: bool): System
    requires Can(s, Write(w, ok))
  {
    var task := s.pool.workers[w].pc.task;
    var t := s.sends[task.req];
    Put(s.(wrote := s.wrote[w := Some(ok)], strayAccess := s.strayAccess || t.waiter.Gone?), task.req,
        if ok then t.(posted := t.posted + [task.arg + 1], out := t.out + 1) else t.(failed := true))
  }

  /** The last thing the function does with anything the waiter frees. */
  function DoMark(s: System, w: nat): System
    requires Can(s, Mark(w))
  {
    var task := s.pool.workers[w].pc.task;
    var t := s.sends[task.req];
    var ok := s.wrote[w].value;
    Put(s.(pool := Apply(s.pool, RunTask(w)), wrote := s.wrote[w := None],
           strayAccess := s.strayAccess || t.waiter.Gone?), task.req,
        t.(marks := t.marks + [ok], sync := Marked(t.sync, ok)))
  }

  function DoCancelLookup(s: System, r: Req): System
    requires Can(s, CancelLookup(r))
  {
    SetWaiter(s.(pool := Apply(s.pool, CancelFind(r))), r,
              if r in s.pool.ctxs then Found(s.pool.ctxs[r].worker) else Ready(false))
  }

  function DoCancelUnlink(s: System, r: Req): System
    requires Can(s, CancelUnlink(r))
  {
    var w := s.sends[r].waiter.w;
    SetWaiter(s.(pool := Apply(s.pool, CancelQueue(r, w))), r,
              if Mine(s.pool.workers[w].queue, r) != [] then Unsubtracted else Ready(false))
  }

  function Do(s: System, a: Step): System
    requires Can(s, a)
  {
    match a
    case Call(r, n) => DoCall(s, r, n)
    case Register(b) => DoRegister(s, b)
    case First(ok) => DoFirst(s, ok)
    case Deliver(r) => Put(s.(poller := Got(r)), r, s.sends[r].(out := s.sends[r].out - 1))
    case Arrive(r) => s.(poller := Got(r))
    case Lookup => DoLookup(s)
    case Set => DoSet(s)
    case Write(w, ok) => DoWrite(s, w, ok)
    case Mark(w) => DoMark(s, w)
    case Turn(b) => s.(pool := Apply(s.pool, b))
    case Notice(r) => SetWaiter(s, r, Noticed)
    case Judge(r) => SetWaiter(s, r, if Succeeded(s.sends[r].sync) then Ready(true) else ToCancel)
    case CancelLookup(r) => DoCancelLookup(s, r)
    case CancelUnlink(r) => DoCancelUnlink(s, r)
    case CancelSubtract(r) => SetWaiter(s.(pool := Apply(s.pool, CancelCount(r))), r, Ready(false))
    case Free(r) => SetWaiter(s, r, Waiter.Gone(s.sends[r].waiter.ok))
    case Other(b) => DoOther(s, b)
    case Forget(r) => s.(sends := s.sends - {r})
  }

  /** The system after a run, if every step was possible when its turn came. */
  function History(run: seq<Step>): Option<System> {
    if run == [] then Some(Start())
    else
      match History(run[..|run| - 1])
      case None => None
      case Some(s) => if Can(s, run[|run| - 1]) then Some(Do(s, run[|run| - 1])) else None
  }

  /** The system some steps later, if every step is possible when its turn comes. */
  function Later(s: System, steps: seq<Step>): Option<System>
    decreases |steps|
  {
    if steps == [] then Some(s)
    else if Can(s, steps[0]) then Later(Do(s, steps[0]), steps[1..])
    else None
  }
}
