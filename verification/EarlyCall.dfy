/**
 What goes wrong when the id of a send is called again too early, while one of the conditions
 for it fails: a completion of the earlier use not polled yet, its context still linked, or its
 waiter still to cancel.
 */
module EarlyCall {
  import opened Base
  import opened TaskQueue
  import opened BatchSubmit
  import opened Pool
  import opened PoolInvariant
  import opened PoolSteps
  import opened Send
  import opened SendInvariant
  import opened SendViews
  import opened SendSteps
  import opened SendTheorems
  import opened SendProgress
  import opened KeyReuse
  import Shutdown
  import SmallRuns

  // ----- a completion not polled yet -----

  /** A call of `r` that does not wait: what was under way of its earlier writes still is. */
  function CallNow(s: System, r: Req, n: nat): System
    requires 2 <= n && r in s.sends && Enabled(s.pool, Submit(r, n - 1, false))
  {
    Put(s.(pool := Apply(s.pool, Submit(r, n - 1, false)), caller := Registering(r)), r,
        Transfer(n, false, [], s.sends[r].out, false, false, [], TaskSync.Fresh(n - 1), Away))
  }

  /** However the run goes on, the id's chunks are posted in order. */
  ghost predicate OrderKept(s: System, r: Req) {
    forall steps, t :: Later(s, steps) == Some(t) && r in t.sends ==> InOrder(t.sends[r].posted)
  }

  /** The pool takes the batch: the caller is about to post chunk 0. */
  ghost predicate Accepted(s: System, reg: seq<Step>, t: System, r: Req) {
    Later(s, reg) == Some(t) && t.caller == FirstPost(r) && forall i :: 0 <= i < |reg| ==> reg[i].Register?
  }

  lemma {:induction false} LaterReached(run: seq<Step>, s: System, steps: seq<Step>, t: System)
    requires Reached(run, s) && Later(s, steps) == Some(t)
    ensures Reached(run + steps, t)
    decreases |steps|
  {
    hide Can, Do, Reached;
    if steps == [] {
      assert run + steps == run;
    } else {
      ExtendRun(run, s, steps[0]);
      LaterReached(run + [steps[0]], Do(s, steps[0]), steps[1..], t);
      assert run + steps == (run + [steps[0]]) + steps[1..];
    }
  }

  lemma {:induction false} LaterTwice(s: System, a: seq<Step>, m: System, b: seq<Step>)
    requires Later(s, a) == Some(m)
    ensures Later(s, a + b) == Later(m, b)
    decreases |a|
  {
    hide Can, Do;
    if a == [] {
      assert a + b == b;
    } else {
      LaterTwice(Do(s, a[0]), a[1..], m, b);
      assert (a + b)[0] == a[0] && (a + b)[1..] == a[1..] + b;
    }
  }

  // ----- one completion more does not matter to the submission -----

  /** The same system with one more completion of `r` under way. */
  function Extra(s: System, r: Req): System
    requires r in s.sends
  {
    Put(s, r, s.sends[r].(out := s.sends[r].out + 1))
  }

  ghost predicate OneMore(c: System, d: System, r: Req) {
    && r in c.sends && r in d.sends && d == c.(sends := d.sends)
    && d.sends.Keys == c.sends.Keys && (forall q :: q in c.sends && q != r ==> d.sends[q] == c.sends[q])
    && d.sends[r] == c.sends[r].(out := c.sends[r].out + 1)
  }

  lemma OneMoreIsExtra(c: System, d: System, r: Req)
    requires OneMore(c, d, r)
    ensures d == Extra(c, r)
  {
    assert d.sends == c.sends[r := d.sends[r]];
  }

  lemma RegisterBoth(c: System, d: System, b: Action, r: Req)
    requires OneMore(c, d, r) && Can(c, Register(b)) && Can(d, Register(b))
    ensures OneMore(DoRegister(c, b), DoRegister(d, b), r)
  {
    CanRegister(c, b);
    hide Can, Apply, Enabled, DoRegister;
    RegisterEffect(c, b);
    RegisterEffect(d, b);
  }

  /** What is left of the caller after a step of the submission. */
  function CallerAfter(p: State, b: Action, q: Req): Caller {
    if b.CountCtx? && p.sub.NoSubmit? then FirstPost(q)
    else if !b.Attach? && p.sub.NoSubmit? then NoCall
    else Registering(q)
  }

  lemma RegisterEffect(c: System, b: Action)
    requires Can(c, Register(b)) && c.caller.Registering? && Enabled(c.pool, b)
    ensures var c', q, p' := DoRegister(c, b), c.caller.req, Apply(c.pool, b);
            && c' == c.(pool := p', caller := c'.caller, sends := c'.sends) && c'.sends.Keys == c.sends.Keys
            && c'.caller == (if q in c.sends then CallerAfter(p', b, q) else c.caller)
            && (forall r :: r in c.sends && r != q ==> c'.sends[r] == c.sends[r])
            && (q in c.sends ==>
                  c'.sends[q] == c.sends[q].(
                    registered := c.sends[q].registered || b.Attach?,
                    waiter := if CallerAfter(p', b, q).NoCall? then Waiter.Gone(false) else c.sends[q].waiter))
  {
    hide Can, Apply, Enabled;
  }

  lemma CanRegister(s: System, b: Action)
    ensures Can(s, Register(b)) <==> s.caller.Registering? && Submitting(b) && Enabled(s.pool, b)
  {
    hide Enabled;
  }

  lemma ExtraStep(s: System, b: Action, r: Req)
    requires r in s.sends && Can(Extra(s, r), Register(b))
    ensures Can(s, Register(b)) && r in Do(s, Register(b)).sends
    ensures Do(Extra(s, r), Register(b)) == Extra(Do(s, Register(b)), r)
  {
    var d, a := Extra(s, r), Register(b);
    assert OneMore(s, d, r);
    CanRegister(s, b);
    CanRegister(d, b);
    RegisterBoth(s, d, b, r);
    assert Do(s, a) == DoRegister(s, b) && Do(d, a) == DoRegister(d, b);
    hide Can, Do, Extra;
    OneMoreIsExtra(DoRegister(s, b), DoRegister(d, b), r);
  }

  lemma {:induction false} ExtraRun(s: System, steps: seq<Step>, r: Req, t: System)
    requires r in s.sends && (forall i :: 0 <= i < |steps| ==> steps[i].Register?)
    requires Later(Extra(s, r), steps) == Some(t)
    ensures Later(s, steps).Some? && r in Later(s, steps).value.sends && t == Extra(Later(s, steps).value, r)
    decreases |steps|
  {
    hide Can, Do, Extra;
    if steps != [] {
      ExtraStep(s, steps[0].a, r);
      ExtraRun(Do(s, steps[0]), steps[1..], r, t);
    }
  }

  // ----- a stale completion does what that of chunk 0 should -----

  /** The same system as if chunk 0 of `r` had not been posted yet. */
  function Before(c: System, r: Req): System
    requires r in c.sends && c.sends[r].posted != []
  {
    Put(c.(caller := FirstPost(r)), r, c.sends[r].(posted := c.sends[r].posted[1..]))
  }

  /** `d` is `c` as if chunk 0 had not been posted. */
  ghost predicate Earlier(c: System, d: System, r: Req) {
    && r in c.sends && r in d.sends && d == c.(caller := FirstPost(r), sends := d.sends)
    && d.sends.Keys == c.sends.Keys && (forall q :: q in c.sends && q != r ==> d.sends[q] == c.sends[q])
    && c.sends[r].posted != [] && d.sends[r] == c.sends[r].(posted := c.sends[r].posted[1..])
  }

  lemma EarlierIsBefore(c: System, d: System, r: Req)
    requires Earlier(c, d, r)
    ensures d == Before(c, r)
  {
    assert d.sends == c.sends[r := d.sends[r]];
  }

  lemma PollerBefore(c: System, d: System, a: Step, r: Req)
    requires Earlier(c, d, r) && Can(c, a) && (a.Deliver? || a.Lookup?)
    ensures Can(d, a) && Earlier(Do(c, a), Do(d, a), r)
  {
    hide Apply, Enabled;
  }

  lemma SetBefore(c: System, d: System, r: Req)
    requires Earlier(c, d, r) && Can(c, Set)
    ensures Can(d, Set) && Earlier(Do(c, Set), Do(d, Set), r)
  {
    hide Apply, Enabled, Mine;
  }

  lemma WriteBefore(c: System, d: System, a: Step, r: Req)
    requires Earlier(c, d, r) && Can(c, a) && a.Write?
    ensures Can(d, a) && Earlier(Do(c, a), Do(d, a), r)
  {
    hide Apply, Enabled;
  }

  lemma MarkBefore(c: System, d: System, a: Step, r: Req)
    requires Earlier(c, d, r) && Can(c, a) && (a.Mark? || a.Turn? || (a.Other? && a.a.RunTask?))
    ensures Can(d, a) && Earlier(Do(c, a), Do(d, a), r)
  {
    hide Apply, Silent;
  }

  /** The poller and the workers cannot tell the difference. */
  lemma BeforeStep(c: System, a: Step, r: Req)
    requires r in c.sends && c.sends[r].posted != [] && Can(c, a) && Backstage(a)
    ensures r in Do(c, a).sends && Do(c, a).sends[r].posted != []
    ensures Can(Before(c, r), a) && Do(Before(c, r), a) == Before(Do(c, a), r)
  {
    var d := Before(c, r);
    assert Earlier(c, d, r);
    hide Can, Do, Before, Earlier;
    if a.Deliver? || a.Lookup? {
      PollerBefore(c, d, a, r);
    } else if a.Set? {
      SetBefore(c, d, r);
    } else if a.Write? {
      WriteBefore(c, d, a, r);
    } else {
      MarkBefore(c, d, a, r);
    }
    EarlierPosted(Do(c, a), Do(d, a), r);
    EarlierIsBefore(Do(c, a), Do(d, a), r);
  }

  lemma EarlierPosted(c: System, d: System, r: Req)
    requires Earlier(c, d, r)
    ensures r in c.sends && c.sends[r].posted != []
  {
  }

  lemma {:induction false} BeforeRun(c: System, steps: seq<Step>, r: Req, t: System)
    requires r in c.sends && c.sends[r].posted != [] && Later(c, steps) == Some(t)
    requires forall i :: 0 <= i < |steps| ==> Backstage(steps[i])
    ensures r in t.sends && t.sends[r].posted != [] && Later(Before(c, r), steps) == Some(Before(t, r))
    decreases |steps|
  {
    hide Can, Do, Before, Backstage;
    if steps != [] {
      BeforeStep(c, steps[0], r);
      BeforeRun(Do(c, steps[0]), steps[1..], r, t);
    }
  }

  // ----- the call -----

  /** With the context gone, polling the last completion changes nothing else. */
  lemma PollLast(s: System, r: Req)
    requires r in s.sends && s.sends[r].out > 0 && s.poller.Polling? && r !in s.pool.ctxs && !Closed(s.pool)
    ensures Can(s, Deliver(r)) && Can(Do(s, Deliver(r)), Lookup)
    ensures Do(Do(s, Deliver(r)), Lookup) == Put(s, r, s.sends[r].(out := s.sends[r].out - 1))
  {
  }

  lemma PolledIsSpent(s: System, r: Req)
    requires r in s.sends && LetGo(s.sends[r]) && r !in s.pool.ctxs && TokenCount(s, r) == s.sends[r].out == 1
    ensures Spent(Put(s, r, s.sends[r].(out := 0)), r)
  {
  }

  lemma NowIsExtra(s: System, r: Req, n: nat)
    requires r in s.sends && s.sends[r].out == 1 && 2 <= n
    requires var s' := Put(s, r, s.sends[r].(out := 0)); Can(s', Call(r, n))
    ensures var y := Do(Put(s, r, s.sends[r].(out := 0)), Call(r, n));
            && Enabled(s.pool, Submit(r, n - 1, false)) && r in y.sends && CallNow(s, r, n) == Extra(y, r)
  {
    hide Apply, Traceless;
  }

  /** The second use once the last completion of the first has been polled, which leads to the same place but for it. */
  lemma PolledFirst(run: seq<Step>, s: System, r: Req, n: nat) returns (run': seq<Step>, y: System)
    requires Reached(run, s) && s.caller.NoCall? && s.poller.Polling? && 2 <= n && r in s.sends
    requires LetGo(s.sends[r]) && r !in s.pool.ctxs && TokenCount(s, r) == s.sends[r].out == 1
    ensures Reached(run', y) && Enabled(s.pool, Submit(r, n - 1, false))
    ensures r in y.sends && CallNow(s, r, n) == Extra(y, r) && y.sends[r].n == n
  {
    hide SystemOk, Reached, Do, Can, LetGo, TokenCount, Spent;
    ReachedOk(run, s);
    SystemFacts(s);
    PollLast(s, r);
    PolledIsSpent(s, r);
    var s1 := Do(s, Deliver(r));
    var s2 := Do(s1, Lookup);
    ExtendRun(run, s, Deliver(r));
    ExtendRun(run + [Deliver(r)], s1, Lookup);
    KeyReusable(run + [Deliver(r)] + [Lookup], s2, r, n);
    NowIsExtra(s, r, n);
    ExtendRun(run + [Deliver(r)] + [Lookup], s2, Call(r, n));
    run' := run + [Deliver(r)] + [Lookup] + [Call(r, n)];
    y := Do(s2, Call(r, n));
    CallSets(s2, r, n);
  }

  lemma CallSets(s: System, r: Req, n: nat)
    requires Can(s, Call(r, n))
    ensures r in Do(s, Call(r, n)).sends && Do(s, Call(r, n)).sends[r].n == n
  {
    hide Apply, Enabled;
  }

  /** Between the submission and the post of chunk 0 a send has done nothing yet. */
  lemma AboutToPost(s: System, r: Req)
    requires SystemOk(s) && s.caller == FirstPost(r)
    ensures Registered(s, r) && Can(s, First(true)) && s.sends[r].posted == [] && s.sends[r].n >= 2
    ensures !s.sends[r].failed && !s.sends[r].robbed && s.sends[r].waiter.Away?
  {
    hide SystemOk, Inv, RequestOk, PollerOk, WritesOk;
    SystemRest(s);
    SendFacts(s, r);
    CallingFacts(r, SendViewOf(s, r));
  }

  lemma CallingFacts(r: Req, x: SendView)
    requires SendOk(r, x) && Fates(r, x.v) && x.calling
    ensures x.t.posted == [] && x.t.n >= 2 && !x.t.failed && !x.t.robbed && x.t.waiter.Away?
    ensures x.v.job.ran == [] && x.v.queued == x.v.job.tasks && !x.v.stage.Popped? && x.v.cancelling == 0
  {
  }

  lemma PostedFirst(s: System, r: Req)
    requires s.caller == FirstPost(r) && Registered(s, r) && Can(s, First(true)) && s.sends[r].posted == []
    requires s.sends[r].n >= 2 && !s.sends[r].failed && !s.sends[r].robbed
    ensures var c := Do(s, First(true)); Live(c, r) && c.sends[r].posted == [0] && Before(c, r) == Extra(s, r)
  {
    var c := Do(s, First(true));
    assert c == DoFirst(s, true);
    assert c.sends[r].posted == [0] && [0][1..] == [];
    assert Earlier(c, Extra(s, r), r);
    EarlierIsBefore(c, Extra(s, r), r);
  }

  /** From the point where chunk 0 is due, a completion that is not its own lets chunk 1 go first. */
  lemma Overtaken(run: seq<Step>, s: System, r: Req)
    requires Reached(run, s) && s.caller == FirstPost(r)
    ensures r in s.sends && !OrderKept(Extra(s, r), r)
  {
    hide SystemOk, Reached, Do, Can, Live, Extra, Before, Backstage;
    ReachedOk(run, s);
    AboutToPost(s, r);
    PostedFirst(s, r);
    var c := Do(s, First(true));
    ExtendRun(run, s, First(true));
    LiveIsRegistered(c, r);
    NotFailed(c, r);
    CanAlwaysFinish(run + [First(true)], c, r);
    var more, u :| Reached(run + [First(true)] + more, u) && Finishes(c, more, u, r);
    BeforeRun(c, more, r, u);
    OutOfOrder(u, r);
    assert Later(Extra(s, r), more) == Some(Before(u, r));
  }

  lemma NotFailed(s: System, r: Req)
    requires Live(s, r)
    ensures !s.sends[r].failed && |s.sends[r].posted| < s.sends[r].n
  {
  }

  lemma OutOfOrder(u: System, r: Req)
    requires r in u.sends && u.sends[r].n > 1 && u.sends[r].posted == seq(u.sends[r].n, i => i)
    ensures r in Before(u, r).sends && !InOrder(Before(u, r).sends[r].posted)
  {
    assert Before(u, r).sends[r].posted[0] == 1;
  }

  /**
   A send is over but for completions of its writes that have not been polled, and its id is
   called again without waiting for them. If the pool takes the new batch, the chunks of the
   new send are sure to go out in order if and only if there was no such completion. With one,
   the poller takes it for that of chunk 0, and a worker posts chunk 1 before chunk 0 is posted.
   */
  lemma CallKeepsOrderIff(run: seq<Step>, s: System, r: Req, n: nat, reg: seq<Step>, t: System)
    requires Reached(run, s) && s.caller.NoCall? && s.poller.Polling? && 2 <= n && r in s.sends
    requires LetGo(s.sends[r]) && r !in s.pool.ctxs && TokenCount(s, r) == s.sends[r].out
    requires Enabled(s.pool, Submit(r, n - 1, false)) && Accepted(CallNow(s, r, n), reg, t, r)
    ensures OrderKept(CallNow(s, r, n), r) <==> s.sends[r].out == 0
  {
    hide SystemOk, Reached, Do, Can, LetGo, TokenCount, Spent, OrderKept;
    var x := CallNow(s, r, n);
    AtMostOne(run, s, r);
    if s.sends[r].out == 0 {
      SpentIf(s, r);
      KeyReusable(run, s, r, n);
      NowIsCall(s, r, n);
      ExtendRun(run, s, Call(r, n));
      ReachedKeepsOrder(run + [Call(r, n)], x, r);
    } else {
      var run', y := PolledFirst(run, s, r, n);
      ExtraRun(y, reg, r, t);
      var m := Later(y, reg).value;
      LaterReached(run', y, reg, m);
      Overtaken(run' + reg, m, r);
      if OrderKept(x, r) {
        OrderKeptLater(x, reg, t, r);
      }
    }
  }

  lemma AtMostOne(run: seq<Step>, s: System, r: Req)
    requires Reached(run, s) && r in s.sends
    ensures s.sends[r].out <= 1
  {
    hide SystemOk, Reached, TokenCount;
    if Registered(s, r) {
      ExactlyOneToken(run, s, r);
    } else {
      ReachedOk(run, s);
      DormantFacts(s, r);
    }
  }

  lemma SpentIf(s: System, r: Req)
    requires r in s.sends && LetGo(s.sends[r]) && r !in s.pool.ctxs && TokenCount(s, r) == 0
    ensures Spent(s, r)
  {
  }

  lemma NowIsCall(s: System, r: Req, n: nat)
    requires Can(s, Call(r, n)) && r in s.sends
    ensures Enabled(s.pool, Submit(r, n - 1, false)) && CallNow(s, r, n) == Do(s, Call(r, n))
  {
    hide Apply, Traceless;
  }

  lemma ReachedKeepsOrder(run: seq<Step>, s: System, r: Req)
    requires Reached(run, s)
    ensures OrderKept(s, r)
  {
    hide Reached, Later;
    forall steps, t | Later(s, steps) == Some(t) && r in t.sends ensures InOrder(t.sends[r].posted) {
      LaterReached(run, s, steps, t);
      PostsInOrder(run + steps, t, r);
    }
  }

  lemma OrderKeptLater(s: System, steps: seq<Step>, t: System, r: Req)
    requires Later(s, steps) == Some(t) && OrderKept(s, r)
    ensures OrderKept(t, r)
  {
    hide Later;
    forall more, u | Later(t, more) == Some(u) && r in u.sends ensures InOrder(u.sends[r].posted) {
      LaterTwice(s, steps, t, more);
      assert Later(s, steps + more) == Some(u);
    }
  }

  // ----- the pool takes the batch -----

  /** The submission of `r` has got to `sub`; everything else is as it was in `s`. */
  ghost predicate GotTo(s: System, t: System, sub: Submitter) {
    && t == s.(pool := t.pool) && t.pool.sub == sub && t.pool.workers == s.pool.workers && t.pool.ctxs == s.pool.ctxs
    && t.pool.wakes == s.pool.wakes && t.pool.cancels == s.pool.cancels && t.pool.removed == s.pool.removed
    && t.pool.destroyer == s.pool.destroyer
  }

  /** The first worker is waiting, with nothing queued, and nothing of an earlier use of `r` can reach it. */
  ghost predicate FirstIsFree(p: State, r: Req) {
    |p.workers| > 0 && Takes(LoadOf(p.workers[0])) && MutexFree(p.workers[0].pc) && Clear(p, r, 0)
  }

  lemma Scans(s: System, r: Req, m: nat)
    requires s.caller == Registering(r) && r in s.sends && s.pool.sub == Scan(r, m, false, 0, NO_WORKER, MAX_LOAD)
    requires FirstIsFree(s.pool, r)
    ensures Can(s, Register(ScanNext)) && GotTo(s, Do(s, Register(ScanNext)), Build(r, m, false, 0, []))
  {
    hide Clear, Takes;
  }

  lemma BuildsOne(s: System, r: Req, m: nat, made: seq<Task>)
    requires s.caller == Registering(r) && r in s.sends && s.pool.sub == Build(r, m, false, 0, made) && |made| < m
    ensures Can(s, Register(BuildNext))
    ensures var t := Do(s, Register(BuildNext));
            && GotTo(s, t, Build(r, m, false, 0, made + [Task(s.pool.nextId, r, |made|)]))
            && t.pool.nextId == s.pool.nextId + 1
  {
  }

  lemma {:induction false} BuildsAll(s: System, r: Req, m: nat, k: nat) returns (reg: seq<Step>, t: System)
    requires s.caller == Registering(r) && r in s.sends && k <= m && k <= s.pool.nextId
    requires s.pool.sub == Build(r, m, false, 0, BatchTasks(s.pool.nextId - k, r, k))
    ensures Later(s, reg) == Some(t) && forall i :: 0 <= i < |reg| ==> reg[i].Register?
    ensures GotTo(s, t, Build(r, m, false, 0, BatchTasks(s.pool.nextId - k, r, m)))
    decreases m - k
  {
    if k == m {
      reg, t := [], s;
    } else {
      var id := s.pool.nextId - k;
      BuildsOne(s, r, m, BatchTasks(id, r, k));
      var a := Register(BuildNext);
      hide Can, Do;
      assert BatchTasks(id, r, k) + [Task(id + k, r, k)] == BatchTasks(id, r, k + 1);
      var rest;
      rest, t := BuildsAll(Do(s, a), r, m, k + 1);
      reg := [a] + rest;
      assert reg[1..] == rest;
    }
  }

  /** The batch is in the queue of the first worker, and counted. */
  ghost predicate TakenByFirst(s: System, t: System, r: Req, q: seq<Task>) {
    && r in s.sends && |s.pool.workers| > 0
    && t == s.(pool := t.pool, caller := FirstPost(r), sends := s.sends[r := s.sends[r].(registered := true)])
    && t.pool.workers == s.pool.workers[0 := s.pool.workers[0].(queue := s.pool.workers[0].queue + q)]
    && t.pool.ctxs == s.pool.ctxs[r := Ctx(0, |q|, false)] && t.pool.sub.NoSubmit?
    && t.pool.wakes == s.pool.wakes && t.pool.cancels == s.pool.cancels && t.pool.removed == s.pool.removed
    && t.pool.destroyer == s.pool.destroyer
  }

  lemma AttachesAndCounts(s: System, r: Req, q: seq<Task>) returns (reg: seq<Step>, t: System)
    requires s.caller == Registering(r) && r in s.sends && s.pool.sub == Build(r, |q|, false, 0, q) && r !in s.pool.ctxs
    requires FirstIsFree(s.pool, r)
    ensures Later(s, reg) == Some(t) && (forall i :: 0 <= i < |reg| ==> reg[i].Register?) && TakenByFirst(s, t, r, q)
  {
    var a := Do(s, Register(Attach));
    Attaches(s, r, q);
    var b := Do(a, Register(LookupCtx));
    LooksUp(a, r, |q|);
    Counts(b, r, |q|);
    t := Do(b, Register(CountCtx));
    hide Can, Do, FirstIsFree;
    assert s.sends[r := s.sends[r].(registered := true)][r := s.sends[r].(registered := true)]
        == s.sends[r := s.sends[r].(registered := true)];
    reg := [Register(Attach), Register(LookupCtx), Register(CountCtx)];
    assert reg[1..] == [Register(LookupCtx), Register(CountCtx)] && reg[1..][1..] == [Register(CountCtx)];
    assert reg[1..][1..][1..] == [];
  }

  lemma Attaches(s: System, r: Req, q: seq<Task>)
    requires s.caller == Registering(r) && r in s.sends && s.pool.sub == Build(r, |q|, false, 0, q)
    requires FirstIsFree(s.pool, r)
    ensures Can(s, Register(Attach))
    ensures var t := Do(s, Register(Attach));
            && t == s.(pool := t.pool, sends := s.sends[r := s.sends[r].(registered := true)])
            && t.pool.sub == Attached(r, |q|, false, 0) && r in t.pool.jobs
            && t.pool.workers == s.pool.workers[0 := s.pool.workers[0].(queue := s.pool.workers[0].queue + q)]
            && t.pool == s.pool.(sub := t.pool.sub, workers := t.pool.workers, jobs := t.pool.jobs, past := t.pool.past)
  {
    hide Clear, Takes, Retired, Unfreed;
  }

  lemma LooksUp(s: System, r: Req, m: nat)
    requires s.caller == Registering(r) && r in s.sends && s.pool.sub == Attached(r, m, false, 0) && r !in s.pool.ctxs
    ensures Can(s, Register(LookupCtx))
    ensures Do(s, Register(LookupCtx)) == s.(pool := s.pool.(sub := Resolved(r, m, false, 0, false)))
  {
  }

  lemma Counts(s: System, r: Req, m: nat)
    requires s.caller == Registering(r) && r in s.sends && s.pool.sub == Resolved(r, m, false, 0, false)
    ensures Can(s, Register(CountCtx))
    ensures var t := Do(s, Register(CountCtx));
            && t == s.(pool := t.pool, caller := FirstPost(r)) && t.pool.sub.NoSubmit?
            && t.pool == s.pool.(sub := NoSubmit, ctxs := s.pool.ctxs[r := Ctx(0, m, false)], jobs := t.pool.jobs)
  {
  }

  /** With the first worker free the pool takes the batch of any call. */
  lemma SubmissionGoesThrough(s: System, r: Req, m: nat) returns (reg: seq<Step>, t: System)
    requires s.caller == Registering(r) && r in s.sends && s.pool.sub == Scan(r, m, false, 0, NO_WORKER, MAX_LOAD)
    requires r !in s.pool.ctxs && FirstIsFree(s.pool, r)
    ensures Accepted(s, reg, t, r) && exists id :: TakenByFirst(s, t, r, BatchTasks(id, r, m))
  {
    Scans(s, r, m);
    var s1 := Do(s, Register(ScanNext));
    hide Can, Do;
    assert BatchTasks(s1.pool.nextId, r, 0) == [];
    var r2, s2 := BuildsAll(s1, r, m, 0);
    StillFree(s, s2, r);
    var r3;
    r3, t := AttachesAndCounts(s2, r, BatchTasks(s1.pool.nextId, r, m));
    var first := [Register(ScanNext)];
    assert first[1..] == [] && Later(s, first) == Some(s1);
    LaterTwice(s, first, s1, r2 + r3);
    LaterTwice(s1, r2, s2, r3);
    reg := first + (r2 + r3);
    assert TakenByFirst(s, t, r, BatchTasks(s1.pool.nextId, r, m));
  }

  lemma StillFree(s: System, t: System, r: Req)
    requires FirstIsFree(s.pool, r) && t.pool.workers == s.pool.workers
    requires t.pool.wakes == s.pool.wakes && t.pool.cancels == s.pool.cancels
    ensures FirstIsFree(t.pool, r)
  {
  }

  // ----- a context still linked -----

  /** The worker is past the function of the last task of `r` and has the live context still to drop. */
  predicate AboutToDrop(p: State, r: Req, w: nat) {
    && r in p.ctxs && w < |p.workers| && InTurn(p.workers[w].pc) && p.workers[w].pc.task.req == r
    && match p.workers[w].pc
       case Ran(_) => p.ctxs[r].count == 1
       case Looked(_, live) => live && p.ctxs[r].count == 1
       case Zeroed(_, _) => true
       case Called(_) => true
       case _ => false
  }

  lemma DropsOne(p: State, r: Req, w: nat) returns (a: Action)
    requires AboutToDrop(p, r, w) && p.sub.Resolved?
    ensures Enabled(p, a) && Apply(p, a).sub == p.sub
    ensures if p.workers[w].pc.Called? then r !in Apply(p, a).ctxs
            else AboutToDrop(Apply(p, a), r, w)
                 && Shutdown.Rank(Apply(p, a).workers[w].pc) < Shutdown.Rank(p.workers[w].pc)
  {
    if p.workers[w].pc.Zeroed? {
      a := Callback(w);
      CallsBack(p, r, w);
    } else {
      a := Shutdown.NextOf(p.workers[w].pc, w);
    }
  }

  lemma CallsBack(p: State, r: Req, w: nat)
    requires AboutToDrop(p, r, w) && p.workers[w].pc.Zeroed?
    ensures var q := Apply(p, Callback(w));
            AboutToDrop(q, r, w) && q.workers[w].pc.Called? && q.sub == p.sub
  {
  }

  lemma {:induction false} DropsContext(p: State, r: Req, w: nat) returns (acts: seq<Action>, q: State)
    requires AboutToDrop(p, r, w) && p.sub.Resolved?
    ensures Shutdown.Then(p, acts) == Some(q) && q.sub == p.sub && r !in q.ctxs
    decreases Shutdown.Rank(p.workers[w].pc)
  {
    var a := DropsOne(p, r, w);
    hide Enabled, Apply;
    if p.workers[w].pc.Called? {
      acts, q := [a], Apply(p, a);
      assert acts[1..] == [];
    } else {
      var rest;
      rest, q := DropsContext(Apply(p, a), r, w);
      acts := [a] + rest;
      assert acts[1..] == rest;
    }
  }

  lemma CountFaults(p: State)
    requires p.sub.Resolved? && p.sub.live && p.sub.req !in p.ctxs
    ensures Enabled(p, CountCtx) && Apply(p, CountCtx).fault && Shutdown.Then(p, [CountCtx]) == Some(Apply(p, CountCtx))
  {
    assert [CountCtx][1..] == [];
  }

  lemma LooksUpLive(p: State, r: Req, w: nat)
    requires p.sub.Attached? && p.sub.req == r && AboutToDrop(p, r, w)
    ensures Enabled(p, LookupCtx)
    ensures var q := Apply(p, LookupCtx); q.sub.Resolved? && q.sub.live && q.sub.req == r && AboutToDrop(q, r, w)
  {
  }

  /** What a live context of a send that has let go means: its worker is about to drop it. */
  lemma LiveIsDropping(run: seq<Step>, s: System, r: Req)
    requires Reached(run, s) && r in s.sends && LetGo(s.sends[r]) && r in s.pool.ctxs
    ensures AboutToDrop(s.pool, r, s.pool.ctxs[r].worker)
  {
    hide SystemOk, Reached, Inv, RequestOk, LetGo, SendOk;
    ReachedOk(run, s);
    SystemFacts(s);
    ContextFacts(s.pool, r);
    if Registered(s, r) {
      SendFacts(s, r);
      LetGoIsDrained(r, SendViewOf(s, r));
      DroppingView(r, ViewOf(s.pool, r));
    } else {
      DormantIsUnused(s, r);
    }
  }

  lemma LetGoIsDrained(r: Req, x: SendView)
    requires SendOk(r, x) && Fates(r, x.v) && LetGo(x.t)
    ensures x.v.queued == [] && !x.v.stage.Popped? && !x.v.closed && !x.v.destroyed && x.v.owedToCancel == 0
  {
    VerdictOf(r, x);
  }

  lemma DroppingView(r: Req, v: View)
    requires RequestOk(r, v) && v.ctx.Some? && v.queued == [] && !v.stage.Popped? && v.owedToCancel == 0 && !v.closed
    requires !v.destroyed
    ensures v.stage.Ran? || v.stage.Looked? || v.stage.Zeroed? || v.stage.Called?
    ensures v.stage.Ran? || v.stage.Looked? ==> v.ctx.value.count == 1
    ensures v.stage.Looked? ==> v.stage.live
  {
  }

  /**
   A send has let go, but its worker has not dropped the context yet, and its id is submitted
   all the same. Wherever the new batch went, if the submission looks the context up before
   the worker drops it, it can charge a context that has been freed.
   */
  lemma LiveContextFaults(run: seq<Step>, s: System, r: Req, p: State)
    requires Reached(run, s) && r in s.sends && LetGo(s.sends[r]) && r in s.pool.ctxs
    requires p.sub.Attached? && p.sub.req == r && r in p.ctxs && p.ctxs[r] == s.pool.ctxs[r]
    requires PcAt(p, s.pool.ctxs[r].worker) == PcAt(s.pool, s.pool.ctxs[r].worker)
    ensures exists acts, q :: Shutdown.Then(p, acts) == Some(q) && q.fault
  {
    hide Reached, Enabled, Apply, LetGo;
    LiveIsDropping(run, s, r);
    var w := s.pool.ctxs[r].worker;
    LooksUpLive(p, r, w);
    var m := Apply(p, LookupCtx);
    var acts, q := DropsContext(m, r, w);
    CountFaults(q);
    SmallRuns.Chained(m, acts, q, [CountCtx], Apply(q, CountCtx));
    var all := [LookupCtx] + (acts + [CountCtx]);
    assert all[1..] == acts + [CountCtx];
    assert Shutdown.Then(p, all) == Some(Apply(q, CountCtx));
  }

  // ----- a waiter still to cancel -----

  /** A cancel left over from an earlier use empties the new batch of the send: only chunk 0 is ever posted. */
  lemma LateCancelTakesAll(run: seq<Step>, s: System, r: Req)
    requires Reached(run, s) && s.caller == FirstPost(r)
    ensures r in s.pool.jobs && r in s.pool.ctxs && Enabled(s.pool, CancelFind(r))
    ensures var w, p := s.pool.jobs[r].worker, Apply(s.pool, CancelFind(r));
            Unlocked(s.pool, w) ==>
              && Enabled(p, CancelQueue(r, w))
              && var p' := Apply(p, CancelQueue(r, w));
                 && r in p'.jobs && p'.jobs[r].cancelled == p'.jobs[r].tasks == s.pool.jobs[r].tasks
                 && p'.jobs[r].ran == [] && Mine(p'.workers[w].queue, r) == []
  {
    hide SystemOk, Reached, Inv, RequestOk, CallerOk;
    ReachedOk(run, s);
    SystemFacts(s);
    AboutToPost(s, r);
    SendFacts(s, r);
    CallingFacts(r, SendViewOf(s, r));
    SystemRest(s);
    NothingSubmitted(s, r);
    IdleSubmitter(s.pool);
    CountedHasContext(r, ViewOf(s.pool, r));
    CancelsAll(s.pool, r);
  }

  lemma NothingSubmitted(s: System, r: Req)
    requires CallerOk(s) && s.caller == FirstPost(r)
    ensures s.pool.sub.NoSubmit?
  {
  }

  lemma CountedHasContext(r: Req, v: View)
    requires RequestOk(r, v) && v.job.counted && v.queued == v.job.tasks && !v.closed && !v.destroyed
    ensures v.ctx.Some? && v.ctx.value.worker == v.job.worker && v.job.cancelled == []
  {
  }

  lemma CancelsAll(p: State, r: Req)
    requires r in p.jobs && r in p.ctxs && p.ctxs[r].worker == p.jobs[r].worker < |p.workers| && !Closed(p)
    requires Mine(p.workers[p.jobs[r].worker].queue, r) == p.jobs[r].tasks
    requires p.jobs[r].tasks != [] && p.jobs[r].cancelled == [] && p.jobs[r].ran == []
    ensures Enabled(p, CancelFind(r))
    ensures var w, q := p.jobs[r].worker, Apply(p, CancelFind(r));
            Unlocked(p, w) ==>
              && Enabled(q, CancelQueue(r, w))
              && var p' := Apply(q, CancelQueue(r, w));
                 && r in p'.jobs && p'.jobs[r].cancelled == p'.jobs[r].tasks == p.jobs[r].tasks
                 && p'.jobs[r].ran == [] && Mine(p'.workers[w].queue, r) == []
  {
    var w := p.jobs[r].worker;
    OthersSplits(p.workers[w].queue, r, r);
    hide Mine, Others, FreeAll;
  }
}
