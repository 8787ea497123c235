/** Shutting the pool down: no sleeper is missed, exit is final, and every worker gets there. */
module Shutdown {
  import opened Base
  import opened TaskQueue
  import opened BatchSubmit
  import opened Pool
  import opened PoolInvariant
  import opened PoolSteps
  import opened PoolTheorems

  /** The state some further actions lead to. */
  function Then(s: State, acts: seq<Action>): Option<State>
    decreases |acts|
  {
    if acts == [] then Some(s)
    else if Enabled(s, acts[0]) then Then(Apply(s, acts[0]), acts[1..])
    else None
  }

  /** Once shutdown has signalled a worker under its mutex, that worker never sleeps again. */
  lemma SleepersWoken(run: seq<Action>, s: State, w: nat)
    requires Reaches(run, s) && w < |s.workers|
    requires Closed(s) || (s.destroyer.Signalling? && w < s.destroyer.done)
    ensures !s.workers[w].pc.Asleep? && !s.workers[w].pc.Doze?
    ensures Closed(s) ==> s.workers[w].pc.Gone?
  {
    ReachableOk(run, s);
  }

  predicate ActsAs(a: Action, w: nat) {
    match a
    case LoopTop(i) => i == w
    case Wait(i) => i == w
    case Rouse(i) => i == w
    case Relock(i) => i == w
    case RunTask(i) => i == w
    case FindCtx(i) => i == w
    case Uncount(i) => i == w
    case Callback(i) => i == w
    case DropCtx(i) => i == w
    case FreeTask(i) => i == w
    case _ => false
  }

  // ----- the bound -----

  /** Steps a worker still takes before it exits, if nobody wakes it again. */
  function Rank(pc: Pc): nat {
    match pc
    case Gone => 0
    case Check => 1
    case Roused => 2
    case Asleep => 3
    case Doze => 4
    case Settled(_) => 2
    case Called(_) => 3
    case Zeroed(_, _) => 4
    case Looked(_, _) => 5
    case Ran(_) => 6
    case Popped(_) => 7
  }

  function Weight(x: Worker): nat {
    Rank(x.pc) + if x.pending != 0 then 8 else 0
  }

  function Measure(ws: seq<Worker>): nat {
    if ws == [] then 0 else Weight(ws[0]) + Measure(ws[1..])
  }

  lemma {:induction false} MeasureUpdate(ws: seq<Worker>, w: nat, x: Worker)
    requires w < |ws|
    ensures Measure(ws[w := x]) == Measure(ws) - Weight(ws[w]) + Weight(x)
  {
    if w == 0 {
      assert ws[0 := x][1..] == ws[1..];
    } else {
      assert ws[w := x][1..] == ws[1..][w - 1 := x];
      MeasureUpdate(ws[1..], w - 1, x);
    }
  }

  /** The worker a step changes, if it changes one. */
  function Target(s: State, a: Action): Option<nat> {
    match a
    case Attach => if s.sub.Build? then Some(s.sub.worker) else None
    case WakeSet(_, w) => Some(w)
    case CancelQueue(_, w) => Some(w)
    case LoopTop(w) => Some(w)
    case Wait(w) => Some(w)
    case Rouse(w) => Some(w)
    case Relock(w) => Some(w)
    case RunTask(w) => Some(w)
    case FindCtx(w) => Some(w)
    case Uncount(w) => Some(w)
    case Callback(w) => Some(w)
    case DropCtx(w) => Some(w)
    case FreeTask(w) => Some(w)
    case SignalNext => if s.destroyer.Signalling? then Some(s.destroyer.done) else None
    case DropQueue => if s.destroyer.Dropping? then Some(s.destroyer.done) else None
    case _ => None
  }

  predicate WorkerAction(a: Action) {
    a.LoopTop? || a.Wait? || a.Rouse? || a.Relock? || a.RunTask? || a.FindCtx? || a.Uncount?
    || a.Callback? || a.DropCtx? || a.FreeTask?
  }

  /**
   What a step does to the workers. During shutdown a worker's own step costs weight, a wake
   adds at most 8, and nothing else adds any; an exited worker stays so and does not act.
   */
  ghost predicate StepShape(s: State, a: Action, s': State) {
    && (Destroying(s) ==> Destroying(s'))
    && match Target(s, a)
       case None => s'.workers == s.workers && !WorkerAction(a)
       case Some(w) =>
         && w < |s.workers| == |s'.workers| && s'.workers == s.workers[w := s'.workers[w]]
         && (WorkerAction(a) ==> ActsAs(a, w))
         && (s.workers[w].pc.Gone? ==> s'.workers[w].pc.Gone? && !WorkerAction(a))
         && (s'.workers[w].pc.Gone? ==> s.workers[w].pc.Gone? || Destroying(s))
         && (Destroying(s) && !s'.fault ==>
               Weight(s'.workers[w]) + (if WorkerAction(a) then 1 else 0)
               <= Weight(s.workers[w]) + (if a.WakeSet? then 8 else 0))
  }

  lemma SubmissionShape(s: State, a: Action)
    requires Enabled(s, a) && (a.Submit? || a.ScanNext? || a.BuildNext? || a.BuildFail? || a.LookupCtx?)
    ensures StepShape(s, a, Apply(s, a))
  {
    hide Takes, Weigh, LoadOf, MutexFree;
  }

  lemma AttachShape(s: State)
    requires Enabled(s, Attach)
    ensures StepShape(s, Attach, ApplyAttach(s))
  {
    hide Clear, Retired;
  }

  lemma CountShape(s: State)
    requires Enabled(s, CountCtx)
    ensures StepShape(s, CountCtx, ApplyCount(s))
  {
  }

  lemma WakeShape(s: State, a: Action)
    requires Enabled(s, a) && a.WakeSet?
    ensures StepShape(s, a, Apply(s, a))
  {
  }

  lemma LookupShape(s: State, a: Action)
    requires Enabled(s, a) && (a.WakeFind? || a.CancelFind?)
    ensures StepShape(s, a, Apply(s, a))
  {
  }

  lemma SubtractShape(s: State, a: Action)
    requires Enabled(s, a) && a.CancelCount?
    ensures StepShape(s, a, Apply(s, a))
  {
  }

  lemma CancelShape(s: State, a: Action)
    requires Enabled(s, a) && (a.CancelQueue?)
    ensures StepShape(s, a, Apply(s, a))
  {
    CancelQueueWorkers(s, a.req, a.w);
    hide ApplyCancelQueue, Others;
  }

  /** What a request keeps through any step of a worker. */
  ghost predicate JobKept(j: Job, j': Job) {
    j'.tasks == j.tasks && j'.accepted == j.accepted && j'.cancelled == j.cancelled
  }

  ghost predicate JobsKept(jobs: map<Req, Job>, jobs': map<Req, Job>) {
    forall r :: r in jobs ==> r in jobs' && JobKept(jobs[r], jobs'[r])
  }

  /** The effect of a worker's own step: nobody else moves, and during shutdown it costs weight. */
  ghost predicate WorkerEffect(s: State, s': State, w: nat) {
    && w < |s.workers| && |s'.workers| == |s.workers| && s'.workers == s.workers[w := s'.workers[w]]
    && s' == s.(workers := s'.workers, ctxs := s'.ctxs, jobs := s'.jobs, past := s'.past, fault := s'.fault)
    && JobsKept(s.jobs, s'.jobs)
    && !s.workers[w].pc.Gone? && (s'.workers[w].pc.Gone? ==> Destroying(s))
    && (Destroying(s) && !s'.fault ==> Weight(s'.workers[w]) < Weight(s.workers[w]))
  }

  lemma LoopIdleEffect(s: State, w: nat)
    requires PcAt(s, w).Check? && s.workers[w].pending == 0
    ensures WorkerEffect(s, ApplyLoopTop(s, w), w)
  {
  }

  lemma LoopMissEffect(s: State, w: nat)
    requires PcAt(s, w).Check? && s.workers[w].pending != 0 && FirstOf(s.workers[w].queue, s.workers[w].pending).None?
    ensures WorkerEffect(s, ApplyLoopTop(s, w), w)
  {
    hide FirstOf;
  }

  lemma LoopTakeEffect(s: State, w: nat)
    requires PcAt(s, w).Check? && s.workers[w].pending != 0 && FirstOf(s.workers[w].queue, s.workers[w].pending).Some?
    ensures WorkerEffect(s, ApplyLoopTop(s, w), w)
  {
    hide FirstOf, DropFirst, FreeNode;
  }

  lemma WaitingEffect(s: State, w: nat, a: Action)
    requires Enabled(s, a) && (a == Wait(w) || a == Rouse(w) || a == Relock(w))
    ensures WorkerEffect(s, Apply(s, a), w)
  {
  }

  lemma RunEffect(s: State, w: nat)
    requires PcAt(s, w).Popped?
    ensures WorkerEffect(s, ApplyRun(s, w), w)
  {
    hide FreeWrapper;
  }

  lemma FindEffect(s: State, w: nat)
    requires PcAt(s, w).Ran?
    ensures WorkerEffect(s, ApplyFindCtx(s, w), w)
  {
  }

  lemma UncountEffect(s: State, w: nat)
    requires PcAt(s, w).Looked?
    ensures WorkerEffect(s, ApplyUncount(s, w), w)
  {
    assert ApplyUncount(s, w).jobs == s.jobs && ApplyUncount(s, w).past == s.past;
    assert JobsKept(s.jobs, s.jobs);
    hide JobsKept, Destroying;
  }

  lemma CallbackEffect(s: State, w: nat)
    requires PcAt(s, w).Zeroed?
    ensures WorkerEffect(s, ApplyCallback(s, w), w)
  {
  }

  lemma DropEffect(s: State, w: nat)
    requires PcAt(s, w).Called?
    ensures WorkerEffect(s, ApplyDropCtx(s, w), w)
  {
  }

  lemma FreeEffect(s: State, w: nat)
    requires PcAt(s, w).Settled?
    ensures WorkerEffect(s, ApplyFreeTask(s, w), w)
  {
    hide FreeTaskCell;
  }

  lemma WorkerEffects(s: State, a: Action, w: nat)
    requires Enabled(s, a) && ActsAs(a, w)
    ensures WorkerEffect(s, Apply(s, a), w)
  {
    hide WorkerEffect, ApplyLoopTop, ApplyRun, ApplyFindCtx, ApplyUncount, ApplyCallback, ApplyDropCtx, ApplyFreeTask;
    match a
    case LoopTop(_) =>
      if s.workers[w].pending == 0 {
        LoopIdleEffect(s, w);
      } else if FirstOf(s.workers[w].queue, s.workers[w].pending).None? {
        LoopMissEffect(s, w);
      } else {
        LoopTakeEffect(s, w);
      }
    case RunTask(_) => RunEffect(s, w);
    case FindCtx(_) => FindEffect(s, w);
    case Uncount(_) => UncountEffect(s, w);
    case Callback(_) => CallbackEffect(s, w);
    case DropCtx(_) => DropEffect(s, w);
    case FreeTask(_) => FreeEffect(s, w);
    case _ => WaitingEffect(s, w, a);
  }

  lemma WorkerShape(s: State, a: Action, w: nat)
    requires Enabled(s, a) && ActsAs(a, w)
    ensures StepShape(s, a, Apply(s, a))
  {
    WorkerEffects(s, a, w);
    hide Enabled, Apply, Weight, JobsKept;
  }

  lemma DestroyerShape(s: State, a: Action)
    requires Enabled(s, a) && (a.SetFlag? || a.SignalNext? || a.Join? || a.DropQueue? || a.Finish?)
    ensures StepShape(s, a, Apply(s, a))
  {
    hide Mine, Others, DropFirst, FirstOf, FreeAll;
  }

  lemma StepShapes(s: State, a: Action)
    requires Enabled(s, a)
    ensures StepShape(s, a, Apply(s, a))
  {
    hide Enabled, StepShape, ApplyScan, ApplyAttach, ApplyCount, ApplyWakeFind, ApplyCancelFind, ApplyCancelQueue,
         ApplyCancelCount,
      ApplyLoopTop, ApplyRun, ApplyFindCtx, ApplyUncount, ApplyCallback, ApplyDropCtx, ApplyFreeTask, ApplyDropQueue;
    match a
    case Submit(_, _, _) => SubmissionShape(s, a);
    case ScanNext => SubmissionShape(s, a);
    case BuildNext => SubmissionShape(s, a);
    case BuildFail => SubmissionShape(s, a);
    case Attach => AttachShape(s);
    case LookupCtx => SubmissionShape(s, a);
    case CountCtx => CountShape(s);
    case CancelQueue(_, _) => CancelShape(s, a);
    case LoopTop(w) => WorkerShape(s, a, w);
    case Wait(w) => WorkerShape(s, a, w);
    case Rouse(w) => WorkerShape(s, a, w);
    case Relock(w) => WorkerShape(s, a, w);
    case RunTask(w) => WorkerShape(s, a, w);
    case FindCtx(w) => WorkerShape(s, a, w);
    case Uncount(w) => WorkerShape(s, a, w);
    case Callback(w) => WorkerShape(s, a, w);
    case DropCtx(w) => WorkerShape(s, a, w);
    case FreeTask(w) => WorkerShape(s, a, w);
    case WakeFind(_) => LookupShape(s, a);
    case WakeSet(_, _) => WakeShape(s, a);
    case CancelFind(_) => LookupShape(s, a);
    case CancelCount(_) => SubtractShape(s, a);
    case SetFlag => DestroyerShape(s, a);
    case SignalNext => DestroyerShape(s, a);
    case Join => DestroyerShape(s, a);
    case DropQueue => DestroyerShape(s, a);
    case Finish => DestroyerShape(s, a);
  }

  /** An exited worker stays exited and takes no step, whatever the others do. */
  lemma {:induction false} ExitIsFinal(s: State, acts: seq<Action>, t: State, w: nat)
    requires Then(s, acts) == Some(t) && w < |s.workers| && s.workers[w].pc.Gone?
    ensures w < |t.workers| && t.workers[w].pc.Gone?
    ensures forall i :: 0 <= i < |acts| ==> !ActsAs(acts[i], w)
    decreases |acts|
  {
    if acts != [] {
      ExitStep(s, acts[0], w);
      ExitIsFinal(Apply(s, acts[0]), acts[1..], t, w);
    }
  }

  /** No worker exits before the shutdown flag is set. */
  lemma {:induction false} NoEarlyExit(run: seq<Action>, s: State, w: nat)
    requires Reaches(run, s) && !Destroying(s) && w < |s.workers|
    ensures !s.workers[w].pc.Gone?
  {
    if run != [] {
      var front, a := run[..|run| - 1], run[|run| - 1];
      var t := After(front).value;
      hide Apply, Enabled, Destroying;
      StepShapes(t, a);
      NoEarlyExit(front, t, w);
    }
  }

  lemma ExitStep(s: State, a: Action, w: nat)
    requires Enabled(s, a) && w < |s.workers| && s.workers[w].pc.Gone?
    ensures |Apply(s, a).workers| == |s.workers| && Apply(s, a).workers[w].pc.Gone? && !ActsAs(a, w)
  {
    hide Enabled, Apply;
    StepShapes(s, a);
  }

  function WorkerSteps(acts: seq<Action>): nat {
    if acts == [] then 0 else (if WorkerAction(acts[0]) then 1 else 0) + WorkerSteps(acts[1..])
  }

  function SlotWakes(acts: seq<Action>): nat {
    if acts == [] then 0 else (if acts[0].WakeSet? then 1 else 0) + SlotWakes(acts[1..])
  }

  /**
   From the moment the flag is set, the workers together take a bounded number of steps:
   the bound is fixed by where they stood and by the wakes that still arrive.
   */
  lemma {:induction false} ShutdownBound(s: State, acts: seq<Action>, t: State)
    requires Inv(s) && Destroying(s) && Then(s, acts) == Some(t)
    ensures WorkerSteps(acts) + Measure(t.workers) <= Measure(s.workers) + 8 * SlotWakes(acts)
    decreases |acts|
  {
    hide Inv, Enabled, Apply, Weight, Destroying;
    if acts != [] {
      var s' := Apply(s, acts[0]);
      StepOk(s, acts[0]);
      NoFault(s');
      StepShapes(s, acts[0]);
      if Target(s, acts[0]).Some? {
        MeasureUpdate(s.workers, Target(s, acts[0]).value, s'.workers[Target(s, acts[0]).value]);
      }
      ShutdownBound(s', acts[1..], t);
    }
  }

  lemma NoFault(s: State)
    requires Inv(s)
    ensures !s.fault
  {
  }

  /** A worker that is not asleep and has not exited can take a step of its own. */
  lemma WorkerCanMove(s: State, w: nat)
    requires w < |s.workers| && !s.workers[w].pc.Gone? && !s.workers[w].pc.Asleep?
    ensures var a := NextOf(s.workers[w].pc, w); ActsAs(a, w) && WorkerAction(a) && !a.Rouse? && Enabled(s, a)
  {
  }

  /**
   Shutdown is never stuck: as long as it signals, the next worker can be signalled, or some
   worker can take a step other than being roused, or every worker has been signalled and
   has exited.
   */
  lemma ShutdownProgress(run: seq<Action>, s: State)
    requires Reaches(run, s) && s.destroyer.Signalling?
    ensures || Enabled(s, SignalNext)
            || (exists w: nat, a :: ActsAs(a, w) && !a.Rouse? && Enabled(s, a))
            || (s.destroyer == Signalling(WORKERS) && forall w :: 0 <= w < |s.workers| ==> s.workers[w].pc.Gone?)
  {
    hide Inv, Reaches;
    ReachableOk(run, s);
    ManyWorkers(s);
    var k := s.destroyer.done;
    SignalledSoFar(s);
    if k < WORKERS {
      if !MutexFree(s.workers[k].pc) {
        WorkerCanMove(s, k);
      }
    } else if w: nat :| w < |s.workers| && !s.workers[w].pc.Gone? {
      SleepersWoken(run, s, w);
      WorkerCanMove(s, w);
    }
  }

  lemma SignalledSoFar(s: State)
    requires Inv(s) && s.destroyer.Signalling?
    ensures s.destroyer.done <= WORKERS && |s.workers| == WORKERS
  {
    hide Homes, Exclusive, SubmitterOk, Requests, Archive;
  }

  lemma ManyWorkers(s: State)
    requires Inv(s)
    ensures |s.workers| == WORKERS
  {
  }

  /** The step a worker takes next from where it stands. */
  function NextOf(pc: Pc, w: nat): Action {
    match pc
    case Check => LoopTop(w)
    case Doze => Wait(w)
    case Asleep => Rouse(w)
    case Roused => Relock(w)
    case Popped(_) => RunTask(w)
    case Ran(_) => FindCtx(w)
    case Looked(_, _) => Uncount(w)
    case Zeroed(_, _) => Callback(w)
    case Called(_) => DropCtx(w)
    case _ => FreeTask(w)
  }

  // ----- to the end -----

  /** A step of shutdown: the next signal, or a worker's own. */
  predicate ShutdownAction(a: Action) {
    a.SignalNext? || (WorkerAction(a) && !a.Rouse?)
  }

  /** What such steps leave alone: the other threads, and of each request all but its runs and its ledger. */
  ghost predicate OthersKept(s: State, s': State) {
    && s'.sub == s.sub && s'.wakes == s.wakes && s'.cancels == s.cancels && s'.removed == s.removed
    && JobsKept(s.jobs, s'.jobs)
  }

  /** The worker whose step an action is. */
  function Actor(a: Action): nat {
    match a
    case LoopTop(w) => w
    case Wait(w) => w
    case Rouse(w) => w
    case Relock(w) => w
    case RunTask(w) => w
    case FindCtx(w) => w
    case Uncount(w) => w
    case Callback(w) => w
    case DropCtx(w) => w
    case FreeTask(w) => w
    case _ => 0
  }

  lemma ShutdownKeepsOthers(s: State, a: Action)
    requires Enabled(s, a) && ShutdownAction(a)
    ensures OthersKept(s, Apply(s, a))
  {
    if WorkerAction(a) {
      WorkerEffects(s, a, Actor(a));
      hide Enabled, Apply, Weight, JobsKept;
    }
  }

  /** Signals still due and steps still to take. */
  function Remaining(s: State): int {
    Measure(s.workers) + if s.destroyer.Signalling? then WORKERS - s.destroyer.done else 0
  }

  lemma RemainingFalls(s: State, a: Action)
    requires Inv(s) && s.destroyer.Signalling? && Enabled(s, a) && ShutdownAction(a)
    ensures Apply(s, a).destroyer.Signalling? && Remaining(Apply(s, a)) < Remaining(s)
  {
    StillSignalling(s, a);
    hide Inv, Enabled, Apply, Weight, Destroying;
    StepOk(s, a);
    NoFault(Apply(s, a));
    StepShapes(s, a);
    var w := Target(s, a).value;
    MeasureUpdate(s.workers, w, Apply(s, a).workers[w]);
  }

  lemma StillSignalling(s: State, a: Action)
    requires s.destroyer.Signalling? && Enabled(s, a) && ShutdownAction(a)
    ensures var s' := Apply(s, a);
            s'.destroyer == if a.SignalNext? then Signalling(s.destroyer.done + 1) else s.destroyer
    ensures Destroying(s) && Target(s, a).Some?
  {
    if WorkerAction(a) {
      WorkerEffects(s, a, Actor(a));
      hide Enabled, Apply, Weight, JobsKept;
    }
  }

  lemma ExtendRun(run: seq<Action>, s: State, a: Action)
    requires Reaches(run, s) && Enabled(s, a)
    ensures Reaches(run + [a], Apply(s, a))
  {
    hide Enabled, Apply;
    assert (run + [a])[..|run + [a]| - 1] == run;
  }

  /** All workers signalled and gone, nothing else changed. */
  ghost predicate AllExited(s: State, t: State) {
    && OthersKept(s, t) && t.destroyer == Signalling(WORKERS)
    && forall w :: 0 <= w < |t.workers| ==> t.workers[w].pc.Gone?
  }

  lemma KeptTwice(s: State, m: State, t: State)
    requires OthersKept(s, m) && OthersKept(m, t)
    ensures OthersKept(s, t)
  {
  }

  lemma KeptSelf(s: State)
    ensures OthersKept(s, s)
  {
  }

  lemma RemainingBound(s: State)
    requires Inv(s) && s.destroyer.Signalling?
    ensures Remaining(s) >= 0
  {
    hide Homes, Exclusive, SubmitterOk, Requests, Archive;
  }

  /** Once the flag is set, some continuation without any further wake lets every worker exit. */
  lemma {:induction false} EveryWorkerCanExit(run: seq<Action>, s: State)
    requires Reaches(run, s) && s.destroyer.Signalling?
    ensures exists more, t :: Reaches(run + more, t) && AllExited(s, t)
    decreases Remaining(s)
  {
    hide Inv, Enabled, Apply, Reaches, OthersKept, Remaining, ActsAs;
    ReachableOk(run, s);
    RemainingBound(s);
    if s.destroyer == Signalling(WORKERS) && forall w :: 0 <= w < |s.workers| ==> s.workers[w].pc.Gone? {
      assert run + [] == run;
      KeptSelf(s);
      assert AllExited(s, s);
    } else {
      var a := ShutdownStep(run, s);
      var s' := Apply(s, a);
      ShutdownKeepsOthers(s, a);
      RemainingFalls(s, a);
      ExtendRun(run, s, a);
      EveryWorkerCanExit(run + [a], s');
      var more, t :| Reaches((run + [a]) + more, t) && AllExited(s', t);
      assert (run + [a]) + more == run + ([a] + more);
      KeptTwice(s, s', t);
      assert Reaches(run + ([a] + more), t) && AllExited(s, t);
    }
  }

  lemma ShutdownStep(run: seq<Action>, s: State) returns (a: Action)
    requires Reaches(run, s) && s.destroyer.Signalling?
    requires !(s.destroyer == Signalling(WORKERS) && forall w :: 0 <= w < |s.workers| ==> s.workers[w].pc.Gone?)
    ensures Enabled(s, a) && ShutdownAction(a)
  {
    hide Inv, Reaches, Enabled;
    ShutdownProgress(run, s);
    if Enabled(s, SignalNext) {
      a := SignalNext;
    } else {
      var w: nat, b :| ActsAs(b, w) && !b.Rouse? && Enabled(s, b);
      a := b;
    }
  }

  // ----- what destruction drops -----

  /** After the join only the destroyer moves. */
  lemma OnlyDropsLeft(s: State, a: Action)
    requires DestroyerOk(s) && Closed(s) && Enabled(s, a)
    ensures a.DropQueue? || a.Finish?
  {
  }

  lemma DropKeepsFates(s: State, a: Action, r: Req)
    requires Enabled(s, a) && (a.DropQueue? || a.Finish?) && r in s.jobs
    ensures var s' := Apply(s, a);
            r in s'.jobs && s'.jobs[r] == s.jobs[r].(dropped := s'.jobs[r].dropped, freed := s'.jobs[r].freed)
    ensures Closed(Apply(s, a))
  {
    hide Mine, FreeAll;
  }

  lemma {:induction false} SameMiddle<T>(a: seq<T>, x: seq<T>, y: seq<T>, b: seq<T>)
    requires a + x + b == a + y + b
    ensures x == y
  {
    assert |x| == |y|;
    forall i | 0 <= i < |x| ensures x[i] == y[i] {
      assert (a + x + b)[|a| + i] == x[i] && (a + y + b)[|a| + i] == y[i];
    }
  }

  /** After the join a request's tasks are those run, queued, dropped and cancelled, in this order. */
  lemma ClosedFates(s: State, r: Req)
    requires Inv(s) && Closed(s) && r in s.jobs
    ensures var j := s.jobs[r]; j.tasks == j.ran + (QueuedOf(s, r) + j.dropped) + j.cancelled
    ensures s.destroyer.Destroyed? ==> QueuedOf(s, r) == []
  {
    hide Inv, RequestOk, Closed;
    RequestFacts(s, r);
    NobodyWorks(s, r);
    FatesOfView(r, ViewOf(s, r));
    var j := s.jobs[r];
    assert j.ran + [] + QueuedOf(s, r) + j.dropped + j.cancelled == j.ran + (QueuedOf(s, r) + j.dropped) + j.cancelled;
  }

  lemma FatesOfView(r: Req, v: View)
    requires RequestOk(r, v)
    ensures v.job.tasks == v.job.ran + Hand(v.stage) + v.queued + v.job.dropped + v.job.cancelled
    ensures !v.closed ==> v.job.dropped == []
  {
    hide Ledger, Counted, WakeBound, CallbackOnce;
  }

  lemma NobodyWorks(s: State, r: Req)
    requires Inv(s) && Closed(s) && r in s.jobs && s.jobs[r].worker < |s.workers|
    ensures ViewOf(s, r).stage.Check? && (s.destroyer.Destroyed? ==> ViewOf(s, r).queued == [])
  {
    hide Workers, Homes, Exclusive, SubmitterOk, Requests, Archive;
  }

  /** From the join on, queued and dropped together stay what was queued when it happened. */
  lemma {:induction false} QueuedOrDropped(s: State, acts: seq<Action>, t: State, r: Req)
    requires Inv(s) && Closed(s) && r in s.jobs && Then(s, acts) == Some(t)
    ensures Inv(t) && Closed(t) && r in t.jobs
    ensures QueuedOf(t, r) + t.jobs[r].dropped == QueuedOf(s, r) + s.jobs[r].dropped
    ensures t.jobs[r].ran == s.jobs[r].ran && t.jobs[r].cancelled == s.jobs[r].cancelled
    decreases |acts|
  {
    if acts != [] {
      var s' := Apply(s, acts[0]);
      OnlyDropsLeft(s, acts[0]);
      hide Inv, Enabled, Apply, QueuedOf, Closed;
      StepOk(s, acts[0]);
      DropKeepsFates(s, acts[0], r);
      ClosedFates(s, r);
      ClosedFates(s', r);
      SameMiddle(s.jobs[r].ran, QueuedOf(s, r) + s.jobs[r].dropped, QueuedOf(s', r) + s'.jobs[r].dropped,
                 s.jobs[r].cancelled);
      QueuedOrDropped(s', acts[1..], t, r);
    }
  }

  lemma JoinKeeps(s: State, r: Req)
    requires Enabled(s, Join) && r in s.jobs && s.jobs[r].worker < |s.workers|
    ensures Closed(Apply(s, Join)) && !ViewOf(s, r).closed && ViewOf(s, r).job == s.jobs[r]
    ensures Apply(s, Join).jobs == s.jobs && QueuedOf(Apply(s, Join), r) == QueuedOf(s, r)
  {
  }

  /** Destruction drops, of every request, exactly the tasks that were still queued when the workers had been joined. */
  lemma DroppedWasQueued(run: seq<Action>, s: State, acts: seq<Action>, t: State, r: Req)
    requires Reaches(run, s) && Enabled(s, Join) && r in s.jobs && Then(Apply(s, Join), acts) == Some(t)
    requires t.destroyer.Destroyed?
    ensures r in t.jobs && t.jobs[r].dropped == QueuedOf(s, r) && t.jobs[r].ran == s.jobs[r].ran
  {
    hide Inv, Reaches, RequestOk, QueuedOf, Closed, Enabled, Apply;
    ReachableOk(run, s);
    RequestFacts(s, r);
    FatesOfView(r, ViewOf(s, r));
    JoinKeeps(s, r);
    StepOk(s, Join);
    QueuedOrDropped(Apply(s, Join), acts, t, r);
    ClosedFates(t, r);
    assert [] + t.jobs[r].dropped == t.jobs[r].dropped && QueuedOf(s, r) + [] == QueuedOf(s, r);
  }

  lemma {:induction false} ThenReaches(run: seq<Action>, s: State, acts: seq<Action>, t: State)
    requires Reaches(run, s) && Then(s, acts) == Some(t)
    ensures Reaches(run + acts, t)
    decreases |acts|
  {
    hide Enabled, Apply;
    if acts == [] {
      assert run + acts == run;
    } else {
      ExtendRun(run, s, acts[0]);
      ThenReaches(run + [acts[0]], Apply(s, acts[0]), acts[1..], t);
      assert run + acts == (run + [acts[0]]) + acts[1..];
    }
  }

  /** Dropping the queues one by one gets to the end. */
  lemma {:induction false} CanDropAll(s: State, k: nat)
    requires s.destroyer == Dropping(k) && k <= WORKERS == |s.workers|
    ensures exists acts, t :: Then(s, acts) == Some(t) && t.destroyer.Destroyed?
    decreases WORKERS - k
  {
    var a := if k == WORKERS then Finish else DropQueue;
    var s' := Apply(s, a);
    assert [a][1..] == [];
    if k == WORKERS {
      assert Then(s', []) == Some(s') && Then(s, [a]) == Some(s') && s'.destroyer.Destroyed?;
    } else {
      assert s'.destroyer == Dropping(k + 1) && |s'.workers| == WORKERS;
      hide Enabled, Apply;
      CanDropAll(s', k + 1);
      var acts, t :| Then(s', acts) == Some(t) && t.destroyer.Destroyed?;
      assert ([a] + acts)[1..] == acts;
      assert Then(s, [a] + acts) == Some(t);
    }
  }

  /** With nobody in the middle of anything, exited workers can be joined. */
  lemma CanJoin(s: State)
    requires s.destroyer == Signalling(WORKERS) && forall w :: 0 <= w < |s.workers| ==> s.workers[w].pc.Gone?
    requires s.sub.NoSubmit? && s.wakes == multiset{} && s.cancels == multiset{} && s.removed == map[]
    ensures Enabled(s, Join) && Apply(s, Join).destroyer == Dropping(0) && Apply(s, Join).workers == s.workers
  {
  }

  /** Exited workers are joined and their queues dropped. */
  lemma JoinAndDrop(run: seq<Action>, m: State, r: Req)
    requires Reaches(run, m) && m.destroyer == Signalling(WORKERS) && r in m.jobs
    requires forall w :: 0 <= w < |m.workers| ==> m.workers[w].pc.Gone?
    requires m.sub.NoSubmit? && m.wakes == multiset{} && m.cancels == multiset{} && m.removed == map[]
    ensures exists more, t ::
              Reaches(run + more, t) && t.destroyer.Destroyed? && r in t.jobs && t.jobs[r].dropped == QueuedOf(m, r)
  {
    hide Inv, Reaches, Apply, QueuedOf;
    ReachableOk(run, m);
    ManyWorkers(m);
    CanJoin(m);
    hide Enabled;
    CanDropAll(Apply(m, Join), 0);
    var acts, t :| Then(Apply(m, Join), acts) == Some(t) && t.destroyer.Destroyed?;
    ExtendRun(run, m, Join);
    ThenReaches(run + [Join], Apply(m, Join), acts, t);
    DroppedWasQueued(run, m, acts, t, r);
    assert run + [Join] + acts == run + ([Join] + acts);
    assert Reaches(run + ([Join] + acts), t);
  }

  lemma FlagStep(s: State)
    requires s.destroyer.Running?
    ensures Enabled(s, SetFlag) && Apply(s, SetFlag) == s.(destroyer := Signalling(0))
  {
  }

  /** A batch nobody ever woke is dropped as a whole when the pool is destroyed. */
  lemma UnwokenIsDropped(run: seq<Action>, s: State, r: Req)
    requires Reaches(run, s) && s.destroyer.Running? && r in s.jobs && s.jobs[r].accepted == 0
             && s.jobs[r].cancelled == []
    requires s.sub.NoSubmit? && s.wakes == multiset{} && s.cancels == multiset{} && s.removed == map[]
    ensures exists more, t ::
              Reaches(run + more, t) && t.destroyer.Destroyed? && r in t.jobs && t.jobs[r].dropped == s.jobs[r].tasks
  {
    hide Inv, Reaches, Enabled, Apply, OthersKept, QueuedOf;
    FlagStep(s);
    var f := Apply(s, SetFlag);
    ExtendRun(run, s, SetFlag);
    EveryWorkerCanExit(run + [SetFlag], f);
    var out, m :| Reaches(run + [SetFlag] + out, m) && AllExited(f, m);
    var run' := run + [SetFlag] + out;
    UnwokenIsQueued(run', f, m, r);
    JoinAndDrop(run', m, r);
    var more, t :| Reaches(run' + more, t) && t.destroyer.Destroyed? && r in t.jobs
        && t.jobs[r].dropped == QueuedOf(m, r);
    assert run' + more == run + ([SetFlag] + out + more);
    assert Reaches(run + ([SetFlag] + out + more), t);
  }

  lemma UnwokenIsQueued(run: seq<Action>, f: State, m: State, r: Req)
    requires Reaches(run, m) && AllExited(f, m) && r in f.jobs && f.jobs[r].accepted == 0 && f.jobs[r].cancelled == []
    requires f.sub.NoSubmit? && f.wakes == multiset{} && f.cancels == multiset{} && f.removed == map[]
    ensures m.sub.NoSubmit? && m.wakes == multiset{} && m.cancels == multiset{} && m.removed == map[]
    ensures r in m.jobs && QueuedOf(m, r) == f.jobs[r].tasks
  {
    hide Inv, Reaches, RequestOk;
    assert JobKept(f.jobs[r], m.jobs[r]);
    ReachableOk(run, m);
    RequestFacts(m, r);
    NoRunWithoutWake(run, m, r);
    FatesOfView(r, ViewOf(m, r));
    assert [] + [] + QueuedOf(m, r) + [] + [] == QueuedOf(m, r);
  }
}
