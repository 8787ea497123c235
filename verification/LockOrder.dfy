/**
 The order in which the threads of pool and protocol take their locks, and why none of
 them can ever wait in a circle.
 */
module LockOrder {
  import opened Base

  datatype Lock = WorkerMutex(w: nat) | HashMutex | TaskIdMutex | GlobalMutex | SyncMutex(req: Req)

  /** Worker mutexes come first; nothing is taken on top of any other lock. */
  function Rank(l: Lock): nat {
    if l.WorkerMutex? then 0 else 1
  }

  datatype Op = Acquire(l: Lock) | Release(l: Lock)

  function Section(l: Lock): seq<Op> {
    [Acquire(l), Release(l)]
  }

  /** What the threads do, one procedure at a time, as far as locks are concerned. */
  datatype Procedure =
    | Awake(w: nat, turns: seq<Turn>)         // a worker between two waits, running some tasks
    | Wake(found: Option<nat>)                // a wake, and the worker it found
    | Submit(scanned: nat, ids: nat, w: nat)  // a submission that looked at some workers
    | Cancel(found: Option<nat>, removed: bool)
    | Shutdown(workers: nat)
    | OnHandle(req: Req)                      // failing a request, or looking whether it is done

  /** A task run by a worker: it marks its handle, and may find its context and empty it. */
  datatype Turn = Turn(req: Req, marks: bool, found: bool, last: bool)

  function TurnScript(t: Turn): seq<Op> {
    (if t.marks then Section(SyncMutex(t.req)) else [])
    + Section(HashMutex)
    + (if t.found then Section(HashMutex) else [])
    + (if t.found && t.last then Section(HashMutex) else [])
  }

  function TurnScripts(ts: seq<Turn>): seq<Op> {
    if ts == [] then [] else TurnScript(ts[0]) + TurnScripts(ts[1..])
  }

  function WorkerSections(n: nat): seq<Op> {
    if n == 0 then [] else WorkerSections(n - 1) + Section(WorkerMutex(n - 1))
  }

  function IdSections(n: nat): seq<Op> {
    if n == 0 then [] else IdSections(n - 1) + Section(TaskIdMutex)
  }

  function Script(p: Procedure): seq<Op> {
    match p
    case Awake(w, ts) => [Acquire(WorkerMutex(w))] + TurnScripts(ts) + [Release(WorkerMutex(w))]
    case Wake(found) => Section(HashMutex) + if found.Some? then Section(WorkerMutex(found.value)) else []
    case Submit(scanned, ids, w) =>
      WorkerSections(scanned) + IdSections(ids) + Section(WorkerMutex(w)) + Section(HashMutex) + Section(HashMutex)
    case Cancel(found, removed) =>
      Section(HashMutex)
      + (if found.Some? then Section(WorkerMutex(found.value)) else [])
      + (if removed then Section(HashMutex) else [])
    case Shutdown(n) => Section(GlobalMutex) + WorkerSections(n)
    case OnHandle(r) => Section(SyncMutex(r))
  }

  // ----- ranks go up -----

  /** Run with `held` in hand, `ops` takes only locks above all those held and ends with `left`. */
  ghost predicate Ordered(held: set<Lock>, ops: seq<Op>, left: set<Lock>)
    decreases |ops|
  {
    if ops == [] then held == left
    else match ops[0]
      case Acquire(l) => (forall h :: h in held ==> Rank(h) < Rank(l)) && Ordered(held + {l}, ops[1..], left)
      case Release(l) => l in held && Ordered(held - {l}, ops[1..], left)
  }

  lemma {:induction false} OrderedAppend(held: set<Lock>, a: seq<Op>, mid: set<Lock>, b: seq<Op>, left: set<Lock>)
    requires Ordered(held, a, mid) && Ordered(mid, b, left)
    ensures Ordered(held, a + b, left)
    decreases |a|
  {
    if a == [] {
      assert a + b == b;
    } else {
      assert (a + b)[0] == a[0] && (a + b)[1..] == a[1..] + b;
      match a[0]
      case Acquire(l) => OrderedAppend(held + {l}, a[1..], mid, b, left);
      case Release(l) => OrderedAppend(held - {l}, a[1..], mid, b, left);
    }
  }

  lemma SectionOrdered(held: set<Lock>, l: Lock)
    requires forall h :: h in held ==> Rank(h) < Rank(l)
    ensures Ordered(held, Section(l), held)
  {
    assert held + {l} - {l} == held;
    assert Section(l)[1..] == [Release(l)] && Section(l)[1..][1..] == [];
    assert Ordered(held, [], held);
  }

  lemma {:induction false} TurnsOrdered(held: set<Lock>, ts: seq<Turn>)
    requires forall h :: h in held ==> h.WorkerMutex?
    ensures Ordered(held, TurnScripts(ts), held)
  {
    if ts != [] {
      var t := ts[0];
      SectionOrdered(held, SyncMutex(t.req));
      SectionOrdered(held, HashMutex);
      var a := if t.marks then Section(SyncMutex(t.req)) else [];
      var c := if t.found then Section(HashMutex) else [];
      var d := if t.found && t.last then Section(HashMutex) else [];
      OrderedAppend(held, a, held, Section(HashMutex), held);
      OrderedAppend(held, a + Section(HashMutex), held, c, held);
      OrderedAppend(held, a + Section(HashMutex) + c, held, d, held);
      TurnsOrdered(held, ts[1..]);
      OrderedAppend(held, TurnScript(t), held, TurnScripts(ts[1..]), held);
    }
  }

  lemma {:induction false} SectionsOrdered(n: nat)
    ensures Ordered({}, WorkerSections(n), {}) && Ordered({}, IdSections(n), {})
  {
    if n > 0 {
      SectionsOrdered(n - 1);
      SectionOrdered({}, WorkerMutex(n - 1));
      SectionOrdered({}, TaskIdMutex);
      OrderedAppend({}, WorkerSections(n - 1), {}, Section(WorkerMutex(n - 1)), {});
      OrderedAppend({}, IdSections(n - 1), {}, Section(TaskIdMutex), {});
    }
  }

  /** Every procedure takes its locks in rising rank and gives them all back. */
  lemma ScriptsOrdered(p: Procedure)
    ensures Ordered({}, Script(p), {})
  {
    SectionOrdered({}, HashMutex);
    match p
    case Awake(w, ts) =>
      var m := WorkerMutex(w);
      TurnsOrdered({m}, ts);
      assert Ordered({}, [Acquire(m)], {m}) by {
        assert {} + {m} == {m} && [Acquire(m)][1..] == [];
      }
      assert Ordered({m}, [Release(m)], {}) by {
        assert {m} - {m} == {} && [Release(m)][1..] == [];
      }
      OrderedAppend({}, [Acquire(m)], {m}, TurnScripts(ts), {m});
      OrderedAppend({}, [Acquire(m)] + TurnScripts(ts), {m}, [Release(m)], {});
    case Wake(found) =>
      if found.Some? {
        SectionOrdered({}, WorkerMutex(found.value));
      }
      OrderedAppend({}, Section(HashMutex), {}, if found.Some? then Section(WorkerMutex(found.value)) else [], {});
    case Submit(scanned, ids, w) =>
      SectionsOrdered(scanned);
      SectionsOrdered(ids);
      SectionOrdered({}, WorkerMutex(w));
      var a := WorkerSections(scanned) + IdSections(ids);
      OrderedAppend({}, WorkerSections(scanned), {}, IdSections(ids), {});
      OrderedAppend({}, a, {}, Section(WorkerMutex(w)), {});
      OrderedAppend({}, a + Section(WorkerMutex(w)), {}, Section(HashMutex), {});
      OrderedAppend({}, a + Section(WorkerMutex(w)) + Section(HashMutex), {}, Section(HashMutex), {});
    case Cancel(found, removed) =>
      if found.Some? {
        SectionOrdered({}, WorkerMutex(found.value));
      }
      var b := if found.Some? then Section(WorkerMutex(found.value)) else [];
      OrderedAppend({}, Section(HashMutex), {}, b, {});
      OrderedAppend({}, Section(HashMutex) + b, {}, if removed then Section(HashMutex) else [], {});
    case Shutdown(n) =>
      SectionOrdered({}, GlobalMutex);
      SectionsOrdered(n);
      OrderedAppend({}, Section(GlobalMutex), {}, WorkerSections(n), {});
    case OnHandle(r) =>
      SectionOrdered({}, SyncMutex(r));
  }

  // ----- the threads together -----

  datatype Thread = Thread(held: set<Lock>, rest: seq<Op>)

  datatype Move = Begin(i: nat, p: Procedure) | Go(i: nat)

  predicate Taken(s: seq<Thread>, l: Lock) {
    exists i :: 0 <= i < |s| && l in s[i].held
  }

  /** A thread may start a procedure when it has none, and go on unless its next lock is taken. */
  predicate CanMove(s: seq<Thread>, m: Move) {
    m.i < |s| &&
    match m
    case Begin(i, p) => s[i].rest == []
    case Go(i) => s[i].rest != [] && (s[i].rest[0].Acquire? ==> !Taken(s, s[i].rest[0].l))
  }

  function Moved(s: seq<Thread>, m: Move): seq<Thread>
    requires CanMove(s, m)
  {
    match m
    case Begin(i, p) => s[i := Thread(s[i].held, Script(p))]
    case Go(i) =>
      var op := s[i].rest[0];
      s[i := Thread(if op.Acquire? then s[i].held + {op.l} else s[i].held - {op.l}, s[i].rest[1..])]
  }

  /** `n` threads after a sequence of moves. */
  function Reach(n: nat, moves: seq<Move>): Option<seq<Thread>> {
    if moves == [] then Some(seq(n, _ => Thread({}, [])))
    else
      match Reach(n, moves[..|moves| - 1])
      case None => None
      case Some(s) => if CanMove(s, moves[|moves| - 1]) then Some(Moved(s, moves[|moves| - 1])) else None
  }

  ghost predicate LocksOk(s: seq<Thread>) {
    && (forall i :: 0 <= i < |s| ==> Ordered(s[i].held, s[i].rest, {}))
    && (forall i, j :: 0 <= i < j < |s| ==> s[i].held !! s[j].held)
  }

  lemma {:induction false} LocksKept(n: nat, moves: seq<Move>, s: seq<Thread>)
    requires Reach(n, moves) == Some(s)
    ensures LocksOk(s)
  {
    if moves != [] {
      var t, m := Reach(n, moves[..|moves| - 1]).value, moves[|moves| - 1];
      LocksKept(n, moves[..|moves| - 1], t);
      MoveKeepsLocks(t, m);
    }
  }

  lemma MoveKeepsLocks(s: seq<Thread>, m: Move)
    requires LocksOk(s) && CanMove(s, m)
    ensures LocksOk(Moved(s, m))
  {
    assert Ordered(s[m.i].held, s[m.i].rest, {});
    if m.Begin? {
      ScriptsOrdered(m.p);
    }
  }

  /** Thread `i` wants a lock that thread `j` holds. */
  predicate Waits(s: seq<Thread>, i: nat, j: nat) {
    i < |s| && j < |s| && s[i].rest != [] && s[i].rest[0].Acquire? && s[i].rest[0].l in s[j].held
  }

  /** Chains of waiting threads end after two steps; so the wait-for graph has no cycle. */
  lemma WaitsEnd(n: nat, moves: seq<Move>, s: seq<Thread>, i: nat, j: nat, k: nat, m: nat)
    requires Reach(n, moves) == Some(s)
    requires Waits(s, i, j) && Waits(s, j, k)
    ensures !Waits(s, k, m)
  {
    LocksKept(n, moves, s);
    assert Ordered(s[j].held, s[j].rest, {}) && Ordered(s[k].held, s[k].rest, {});
  }

  /** As long as any thread is inside a procedure, some thread inside one can go on. */
  lemma NoDeadlock(n: nat, moves: seq<Move>, s: seq<Thread>)
    requires Reach(n, moves) == Some(s)
    requires exists i :: 0 <= i < |s| && s[i].rest != []
    ensures exists i: nat :: CanMove(s, Go(i))
  {
    LocksKept(n, moves, s);
    var i: nat :| i < |s| && s[i].rest != [];
    if !CanMove(s, Go(i)) {
      var j := Blocker(s, i);
      if !CanMove(s, Go(j)) {
        var k := Blocker(s, j);
        WaitsEnd(n, moves, s, i, j, k, 0);
        if !CanMove(s, Go(k)) {
          var m := Blocker(s, k);
          WaitsEnd(n, moves, s, i, j, k, m);
        }
      }
    }
  }

  /** A thread that cannot go on waits for one that is inside a procedure. */
  lemma Blocker(s: seq<Thread>, i: nat) returns (j: nat)
    requires LocksOk(s) && i < |s| && s[i].rest != [] && !CanMove(s, Go(i))
    ensures Waits(s, i, j) && s[j].rest != []
  {
    j :| j < |s| && s[i].rest[0].l in s[j].held;
    assert Ordered(s[j].held, s[j].rest, {});
  }
}
