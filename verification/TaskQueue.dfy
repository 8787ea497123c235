/**
 The task queue of one worker: a singly linked list with a head, a tail and a
 counter. The first half is the abstract queue, a sequence, with the four
 operations on it; the second half is the linked list, whose methods are proved
 to act on the sequence exactly as those operations do.
 */
module TaskQueue {
  import opened Base

  /** A pool task: its pool-wide id, its request, and its index in the caller's task array. */
  datatype Task = Task(id: nat, req: Req, arg: nat)

  // ----- the abstract queue -----

  /** The tasks of request `r`, in queue order. */
  function Mine(q: seq<Task>, r: Req): seq<Task> {
    if q == [] then [] else if q[0].req == r then [q[0]] + Mine(q[1..], r) else Mine(q[1..], r)
  }

  /** The tasks of every other request, in queue order. */
  function Others(q: seq<Task>, r: Req): seq<Task> {
    if q == [] then [] else if q[0].req == r then Others(q[1..], r) else [q[0]] + Others(q[1..], r)
  }

  /** The queue without its first task of request `r`. */
  function DropFirst(q: seq<Task>, r: Req): seq<Task> {
    if q == [] then [] else if q[0].req == r then q[1..] else [q[0]] + DropFirst(q[1..], r)
  }

  /** What a pop hands to the worker. */
  function FirstOf(q: seq<Task>, r: Req): Option<Task> {
    var mine := Mine(q, r);
    if mine == [] then None else Some(mine[0])
  }

  /** `Mine` keeps exactly the tasks of `r`: the set view of the filter. */
  lemma {:induction false} MineMembers(q: seq<Task>, r: Req)
    ensures forall t :: t in Mine(q, r) <==> t in q && t.req == r
    ensures |Mine(q, r)| <= |q|
  {
    if q != [] {
      MineMembers(q[1..], r);
      assert q == [q[0]] + q[1..];
    }
  }

  /** A queue holding one request only is its own filter, and has nothing for another. */
  lemma {:induction false} MineOfUniform(q: seq<Task>, r: Req, x: Req)
    requires forall t :: t in q ==> t.req == r
    ensures Mine(q, x) == if x == r then q else []
  {
    if q != [] {
      MineOfUniform(q[1..], r, x);
      assert q == [q[0]] + q[1..];
    }
  }

  /** Popping takes the first task of `r` and disturbs no other request. */
  lemma {:induction false} DropFirstSplits(q: seq<Task>, r: Req)
    ensures Mine(q, r) == [] ==> DropFirst(q, r) == q
    ensures Mine(q, r) != [] ==>
              Mine(DropFirst(q, r), r) == Mine(q, r)[1..] && |DropFirst(q, r)| == |q| - 1
    ensures Others(DropFirst(q, r), r) == Others(q, r)
    ensures forall t :: t in DropFirst(q, r) ==> t in q
  {
    if q != [] && q[0].req != r {
      DropFirstSplits(q[1..], r);
    }
  }

  lemma {:induction false} DropFirstKeepsOthers(q: seq<Task>, r: Req, x: Req)
    requires x != r
    ensures Mine(DropFirst(q, r), x) == Mine(q, x)
  {
    if q != [] && q[0].req != r {
      DropFirstKeepsOthers(q[1..], r, x);
    }
  }

  /** Cancelling removes every task of `r` and keeps the rest in order. */
  lemma {:induction false} OthersSplits(q: seq<Task>, r: Req, x: Req)
    ensures Mine(Others(q, r), x) == if x == r then [] else Mine(q, x)
    ensures |Others(q, r)| + |Mine(q, r)| == |q|
    ensures forall t :: t in Others(q, r) <==> t in q && t.req != r
  {
    if q != [] {
      OthersSplits(q[1..], r, x);
      assert q == [q[0]] + q[1..];
    }
  }

  /** What the list walk of a pop relies on: the first match sits after a stretch without matches. */
  lemma {:induction false} FirstMatchAt(q: seq<Task>, r: Req, k: nat)
    requires k < |q| && q[k].req == r
    requires forall i :: 0 <= i < k ==> q[i].req != r
    ensures FirstOf(q, r) == Some(q[k])
    ensures DropFirst(q, r) == q[..k] + q[k + 1..]
  {
    if k > 0 {
      FirstMatchAt(q[1..], r, k - 1);
      assert q[1..][..k - 1] == q[1..k];
      assert q[..k] + q[k + 1..] == [q[0]] + (q[1..k] + q[k + 1..]);
    }
  }

  lemma {:induction false} NoMatch(q: seq<Task>, r: Req)
    requires forall i :: 0 <= i < |q| ==> q[i].req != r
    ensures Mine(q, r) == [] && FirstOf(q, r) == None && DropFirst(q, r) == q && Others(q, r) == q
  {
    if q != [] {
      NoMatch(q[1..], r);
    }
  }

  /** `s` without its element at `k`. */
  function Cut<T>(s: seq<T>, k: nat): (c: seq<T>)
    requires k < |s|
    ensures |c| == |s| - 1
  {
    s[..k] + s[k + 1..]
  }

  lemma CutElements<T>(s: seq<T>, k: nat)
    requires k < |s|
    ensures forall i :: 0 <= i < |s| - 1 ==> Cut(s, k)[i] == s[if i < k then i else i + 1]
  {
  }

  // ----- the linked list -----

  class TaskNode {
    const task: Task
    var next: TaskNode?

    constructor (task: Task)
      ensures this.task == task && next == null
    {
      this.task := task;
      this.next := null;
    }
  }

  /**
   `nodes` is a null-terminated chain of pairwise distinct nodes, so it is acyclic;
   it lives inside the footprint `repr` and carries the tasks `q`, in order.
   */
  ghost predicate Chain(nodes: seq<TaskNode>, q: seq<Task>, repr: set<TaskNode>)
    reads repr
  {
    && |q| == |nodes|
    && (forall i :: 0 <= i < |nodes| ==> nodes[i] in repr && nodes[i].task == q[i])
    && (forall i, j :: 0 <= i < j < |nodes| ==> nodes[i] != nodes[j])
    && (forall i {:trigger nodes[i].next} :: 0 <= i < |nodes| ==>
          nodes[i].next == if i + 1 < |nodes| then nodes[i + 1] else null)
  }

  class WorkerQueue {
    var head: TaskNode?
    var tail: TaskNode?
    var size: nat
    ghost var nodes: seq<TaskNode>
    ghost var repr: set<TaskNode>
    ghost var contents: seq<Task>  // the abstract queue

    /** Head and tail are the ends of the chain that carries `contents`. */
    ghost predicate Linked()
      reads this, repr
    {
      && Chain(nodes, contents, repr)
      && head == (if nodes == [] then null else nodes[0])
      && tail == (if nodes == [] then null else nodes[|nodes| - 1])
    }

    ghost predicate Valid()
      reads this, repr
    {
      Linked() && size == |contents|
    }

    constructor ()
      ensures Valid() && contents == [] && repr == {}
    {
      head, tail, size := null, null, 0;
      nodes, repr, contents := [], {}, [];
    }

    /** Appends one task; the caller learns whether the node could be allocated. */
    method Push(task: Task, hasMemory: bool) returns (ok: bool)
      requires Valid()
      modifies this, repr
      ensures Valid() && fresh(repr - old(repr)) && ok == hasMemory
      ensures contents == if ok then old(contents) + [task] else old(contents)
    {
      if !hasMemory { return false; }
      var node := new TaskNode(task);
      if tail != null {
        tail.next := node;
      } else {
        head := node;
      }
      tail := node;
      size := size + 1;
      nodes, contents, repr := nodes + [node], contents + [task], repr + {node};
      return true;
    }

    /** Links a separately built chain behind the tail. */
    method Attach(first: TaskNode, last: TaskNode, created: nat,
                  ghost batch: seq<TaskNode>, ghost tasks: seq<Task>, ghost cells: set<TaskNode>)
      requires Valid()
      requires batch != [] && Chain(batch, tasks, cells) && cells !! repr
      requires batch[0] == first && batch[|batch| - 1] == last && created == |tasks|
      modifies this, repr
      ensures Valid() && repr == old(repr) + cells
      ensures contents == old(contents) + tasks
    {
      if tail != null {
        tail.next := first;
      } else {
        head := first;
      }
      tail := last;
      size := size + created;
      nodes, contents, repr := nodes + batch, contents + tasks, repr + cells;
    }

    /** Takes `curr`, the k-th node, out of the chain; `prev` is the node before it. */
    method Unlink(prev: TaskNode?, curr: TaskNode, ghost k: nat)
      requires Linked() && k < |nodes| && curr == nodes[k]
      requires prev == if k == 0 then null else nodes[k - 1]
      modifies this`head, this`tail, this`nodes, this`contents, repr
      ensures Linked()
      ensures nodes == old(Cut(nodes, k)) && contents == old(Cut(contents, k))
    {
      hide Cut;
      if prev != null {
        prev.next := curr.next;
      } else {
        head := curr.next;
      }
      if curr == tail {
        tail := prev;
      }
      CutElements(nodes, k);
      CutElements(contents, k);
      nodes, contents := Cut(nodes, k), Cut(contents, k);
    }

    /** Walks to the first node of `req`: its predecessor, the node, and its position. */
    method Locate(req: Req) returns (prev: TaskNode?, curr: TaskNode?, ghost k: nat)
      requires Valid()
      ensures k <= |nodes| && curr == if k < |nodes| then nodes[k] else null
      ensures prev == if k == 0 then null else nodes[k - 1]
      ensures curr != null ==> contents[k].req == req
      ensures forall i :: 0 <= i < k ==> contents[i].req != req
    {
      prev, curr, k := null, head, 0;
      while curr != null && curr.task.req != req
        invariant 0 <= k <= |nodes|
        invariant curr == if k < |nodes| then nodes[k] else null
        invariant prev == if k == 0 then null else nodes[k - 1]
        invariant forall i :: 0 <= i < k ==> contents[i].req != req
        decreases |nodes| - k
      {
        prev := curr;
        curr := curr.next;
        k := k + 1;
      }
    }

    /** Unlinks and returns the first task of `req`, wherever it sits in the list. */
    method PopByReq(req: Req) returns (found: Option<Task>)
      requires Valid()
      modifies this, repr
      ensures Valid() && repr == old(repr)
      ensures found == FirstOf(old(contents), req)
      ensures contents == DropFirst(old(contents), req)
    {
      hide Mine, DropFirst, FirstOf;
      var prev, curr, k := Locate(req);
      if curr == null {
        NoMatch(contents, req);
        return None;
      }
      FirstMatchAt(contents, req, k);
      found := Some(curr.task);
      Unlink(prev, curr, k);
      size := size - 1;
    }

    /** One visit of the cancelling walk: unlink the node, or step past it. */
    method Visit(prev: TaskNode?, curr: TaskNode, req: Req, ghost k: nat)
      returns (hit: bool, prev': TaskNode?, curr': TaskNode?, ghost k': nat)
      requires Linked() && k < |nodes| && curr == nodes[k]
      requires prev == if k == 0 then null else nodes[k - 1]
      modifies this`head, this`tail, this`nodes, this`contents, repr
      ensures Linked() && hit == (old(contents)[k].req == req) && k' == (if hit then k else k + 1)
      ensures contents == if hit then old(contents)[..k] + old(contents)[k + 1..] else old(contents)
      ensures k' <= |nodes| && curr' == if k' < |nodes| then nodes[k'] else null
      ensures prev' == if k' == 0 then null else nodes[k' - 1]
    {
      curr' := curr.next;
      hit := curr.task.req == req;
      if hit {
        prev', k' := prev, k;
        Unlink(prev, curr, k);
      } else {
        prev', k' := curr, k + 1;
      }
    }

    /** Unlinks every task of `req` in one walk and returns how many there were. */
    method CancelByReq(req: Req) returns (removed: nat)
      requires Valid()
      modifies this, repr
      ensures Valid() && repr == old(repr)
      ensures contents == Others(old(contents), req)
      ensures removed == |Mine(old(contents), req)|
    {
      hide Mine, Others, CancelledUpTo;
      ghost var k := 0;
      var prev: TaskNode? := null;
      var curr := head;
      removed := 0;
      CancelStart(contents, req);
      while curr != null
        invariant Linked() && k <= |nodes| && size == |nodes| + removed && repr == old(repr)
        invariant CancelledUpTo(old(contents), contents, k, removed, req)
        invariant curr == if k < |nodes| then nodes[k] else null
        invariant prev == if k == 0 then null else nodes[k - 1]
        decreases |nodes| - k
      {
        CancelStep(old(contents), contents, k, removed, req);
        var hit: bool;
        hit, prev, curr, k := Visit(prev, curr, req, k);
        removed := if hit then removed + 1 else removed;
      }
      size := size - removed;
      assert Valid();
      CancelDone(old(contents), contents, k, removed, req);
    }
  }

  /** Half-way through a cancel: `q` is right up to `k`, untouched behind it, `removed` counted. */
  ghost predicate CancelledUpTo(before: seq<Task>, q: seq<Task>, k: nat, removed: nat, req: Req) {
    && k <= |q|
    && q[..k] + Others(q[k..], req) == Others(before, req)
    && removed + |Mine(q[k..], req)| == |Mine(before, req)|
  }

  lemma CancelStart(q: seq<Task>, req: Req)
    ensures CancelledUpTo(q, q, 0, 0, req)
  {
    assert q[..0] == [] && q[0..] == q;
  }

  lemma CancelStep(before: seq<Task>, q: seq<Task>, k: nat, removed: nat, req: Req)
    requires CancelledUpTo(before, q, k, removed, req) && k < |q|
    ensures q[k].req == req ==> CancelledUpTo(before, q[..k] + q[k + 1..], k, removed + 1, req)
    ensures q[k].req != req ==> CancelledUpTo(before, q, k + 1, removed, req)
  {
    assert q[k..][1..] == q[k + 1..];
    if q[k].req == req {
      var cut := q[..k] + q[k + 1..];
      assert cut[..k] == q[..k] && cut[k..] == q[k + 1..];
    } else {
      assert q[..k] + ([q[k]] + Others(q[k + 1..], req)) == q[..k + 1] + Others(q[k + 1..], req);
    }
  }

  lemma CancelDone(before: seq<Task>, q: seq<Task>, k: nat, removed: nat, req: Req)
    requires CancelledUpTo(before, q, k, removed, req) && k == |q|
    ensures q == Others(before, req) && removed == |Mine(before, req)|
  {
    assert q[..k] == q && q[k..] == [];
  }
}
