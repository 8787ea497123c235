/**
 Submitting a batch: choosing the worker, building the chain of nodes apart from
 the queue, cleaning it up when memory runs out, and attaching it.
 */
module BatchSubmit {
  import opened Base
  import opened TaskQueue

  // ----- choosing a worker -----

  datatype WorkerState = Idle | Busy | Exit

  /** What the selection reads of one worker while it holds that worker's mutex. */
  datatype Load = Load(state: WorkerState, size: nat)

  const NO_WORKER: int := -1
  const MAX_LOAD: int := U32 - 1

  predicate Takes(l: Load) {
    l.state == Idle && l.size == 0
  }

  /** One round of the selection loop, when worker `i` is not taken outright. */
  function Weigh(l: Load, i: nat, best: int, least: int): (int, int) {
    if l.state == Busy && l.size < least then (i, l.size) else (best, least)
  }

  ghost predicate FirstTaker(loads: seq<Load>, best: int) {
    0 <= best < |loads| && Takes(loads[best]) && forall j :: 0 <= j < best ==> !Takes(loads[j])
  }

  /** The first of the least loaded busy workers, among those below the load cap. */
  ghost predicate LeastBusy(loads: seq<Load>, best: int) {
    && 0 <= best < |loads| && loads[best].state == Busy && loads[best].size < MAX_LOAD
    && (forall j :: 0 <= j < |loads| && loads[j].state == Busy ==> loads[best].size <= loads[j].size)
    && (forall j :: 0 <= j < best && loads[j].state == Busy ==> loads[best].size < loads[j].size)
  }

  /** What the selection promises of its result, over the loads it saw. */
  ghost predicate BestOf(loads: seq<Load>, best: int) {
    if exists j :: 0 <= j < |loads| && Takes(loads[j]) then FirstTaker(loads, best)
    else if exists j :: 0 <= j < |loads| && loads[j].state == Busy && loads[j].size < MAX_LOAD
    then LeastBusy(loads, best)
    else best == NO_WORKER
  }

  method SelectBestWorker(loads: array<Load>) returns (best: int)
    ensures BestOf(loads[..], best)
  {
    best := NO_WORKER;
    var least := MAX_LOAD;
    for i := 0 to loads.Length
      invariant forall j :: 0 <= j < i ==> !Takes(loads[j])
      invariant best == NO_WORKER || 0 <= best < i
      invariant best == NO_WORKER ==>
                  least == MAX_LOAD && forall j :: 0 <= j < i && loads[j].state == Busy ==> MAX_LOAD <= loads[j].size
      invariant best != NO_WORKER ==>
                  && loads[best].state == Busy && loads[best].size == least < MAX_LOAD
                  && (forall j :: 0 <= j < i && loads[j].state == Busy ==> least <= loads[j].size)
                  && (forall j :: 0 <= j < best && loads[j].state == Busy ==> least < loads[j].size)
    {
      if Takes(loads[i]) {
        return i;
      }
      var weighed := Weigh(loads[i], i, best, least);
      best, least := weighed.0, weighed.1;
    }
  }

  /**
   With no busy and no exited worker in sight, which is what a free mutex guarantees in a
   running pool, the loop finds the first empty queue, and fails exactly when none is empty.
   */
  lemma SelectionWithoutBusy(loads: seq<Load>, best: int)
    requires forall j :: 0 <= j < |loads| ==> loads[j].state == Idle
    requires BestOf(loads, best)
    ensures best == NO_WORKER <==> forall j :: 0 <= j < |loads| ==> loads[j].size > 0
    ensures best != NO_WORKER ==>
              0 <= best < |loads| && loads[best].size == 0 && forall j :: 0 <= j < best ==> loads[j].size > 0
  {
    if best == NO_WORKER {
      forall j | 0 <= j < |loads| ensures loads[j].size > 0 {
        assert !Takes(loads[j]);
      }
    } else {
      forall j | 0 <= j < best ensures loads[j].size > 0 {
        assert !Takes(loads[j]);
      }
    }
  }

  // ----- building and attaching the batch -----

  /** The tasks a batch of `n` creates: consecutive ids, in the order of the caller's array. */
  function BatchTasks(firstId: nat, req: Req, n: nat): (q: seq<Task>)
    ensures |q| == n && forall i :: 0 <= i < n ==> q[i] == Task(firstId + i, req, i)
  {
    seq(n, i requires 0 <= i < n => Task(firstId + i, req, i))
  }

  /** The allocations of a batch, by position: each task takes a wrapper, a task and a node. */
  datatype Cell = Wrapper(i: nat) | TaskCell(i: nat) | Node(i: nat)

  function CellAt(k: nat): Cell {
    match k % 3
    case 0 => Wrapper(k / 3)
    case 1 => TaskCell(k / 3)
    case _ => Node(k / 3)
  }

  /** The first `k` allocations of a batch, in order. */
  function Allocated(k: nat): (cells: seq<Cell>)
    ensures |cells| == k && forall j :: 0 <= j < k ==> cells[j] == CellAt(j)
  {
    seq(k, j requires 0 <= j < k => CellAt(j))
  }

  lemma CellsDiffer(j: nat, k: nat)
    requires CellAt(j) == CellAt(k)
    ensures j == k
  {
  }

  /** Freeing in any order what was allocated frees each allocation exactly once and nothing else. */
  lemma {:induction false} FreedOnce(freed: seq<Cell>, k: nat)
    requires multiset(freed) == multiset(Allocated(k))
    ensures |freed| == k
    ensures forall c :: c in freed <==> exists j :: 0 <= j < k && CellAt(j) == c
    ensures forall i, j :: 0 <= i < j < |freed| ==> freed[i] != freed[j]
  {
    assert |freed| == |multiset(freed)| == |multiset(Allocated(k))|;
    assert forall c :: c in freed <==> c in multiset(freed);
    assert forall c :: c in Allocated(k) <==> c in multiset(Allocated(k));
    forall i, j | 0 <= i < j < |freed| ensures freed[i] != freed[j] {
      AllocatedOnce(k, freed[i]);
      if freed[i] == freed[j] {
        TwiceCounts(freed, i, j);
      }
    }
  }

  lemma {:induction false} AllocatedOnce(k: nat, c: Cell)
    ensures multiset(Allocated(k))[c] <= 1
  {
    if k > 0 {
      AllocatedOnce(k - 1, c);
      assert Allocated(k) == Allocated(k - 1) + [CellAt(k - 1)];
      if CellAt(k - 1) == c && c in Allocated(k - 1) {
        var j :| 0 <= j < k - 1 && CellAt(j) == c;
        CellsDiffer(j, k - 1);
      }
    }
  }

  lemma TwiceCounts(s: seq<Cell>, i: nat, j: nat)
    requires i < j < |s| && s[i] == s[j]
    ensures multiset(s)[s[i]] >= 2
  {
    assert s == s[..i] + [s[i]] + s[i + 1..j] + [s[j]] + s[j + 1..];
  }

  /** Frees a half-built batch, front to back: of each node the wrapper, the task, the node. */
  method FreeNodes(first: TaskNode?, ghost nodes: seq<TaskNode>, ghost q: seq<Task>, ghost cells: set<TaskNode>)
    returns (ghost freed: seq<Cell>)
    requires Chain(nodes, q, cells) && first == if nodes == [] then null else nodes[0]
    requires forall i :: 0 <= i < |q| ==> q[i].arg == i
    ensures freed == Allocated(3 * |nodes|)
  {
    var head := first;
    ghost var k := 0;
    freed := [];
    while head != null
      invariant 0 <= k <= |nodes| && freed == Allocated(3 * k)
      invariant head == if k < |nodes| then nodes[k] else null
      decreases |nodes| - k
    {
      var tmp := head;
      head := head.next;
      freed := freed + [Wrapper(tmp.task.arg), TaskCell(tmp.task.arg), Node(tmp.task.arg)];
      k := k + 1;
    }
  }

  /** One wrapper, task and node. When memory ends half way, what this call allocated is freed again. */
  method CreateBatchNode(t: Task, memory: nat) returns (node: TaskNode?, ghost freed: seq<Cell>)
    ensures node != null <==> 3 <= memory
    ensures node != null ==> fresh(node) && node.task == t && node.next == null && freed == []
    ensures node == null ==>
              multiset(freed) == multiset([Wrapper(t.arg), TaskCell(t.arg), Node(t.arg)][..memory])
  {
    freed := [];
    if memory == 0 {
      return null, freed;
    }
    if memory == 1 {
      return null, freed + [Wrapper(t.arg)];
    }
    if memory == 2 {
      assert [Wrapper(t.arg), TaskCell(t.arg), Node(t.arg)][..2] == [Wrapper(t.arg)] + [TaskCell(t.arg)];
      return null, freed + [TaskCell(t.arg)] + [Wrapper(t.arg)];
    }
    node := new TaskNode(t);
  }

  /** The allocations of whole nodes and of the one left half done. */
  lemma HalfDone(i: nat, rest: nat)
    requires rest < 3
    ensures Allocated(3 * i + rest) == Allocated(3 * i) + [Wrapper(i), TaskCell(i), Node(i)][..rest]
  {
  }

  lemma BothFreed(i: nat, memory: nat, partly: seq<Cell>, whole: seq<Cell>)
    requires 3 * i <= memory < 3 * i + 3 && whole == Allocated(3 * i)
    requires multiset(partly) == multiset([Wrapper(i), TaskCell(i), Node(i)][..memory - 3 * i])
    ensures multiset(partly + whole) == multiset(Allocated(memory))
  {
    HalfDone(i, memory - 3 * i);
  }

  /**
   Builds the nodes of a batch. Memory lasts for `memory` allocations, three a task: a batch
   that needs more is torn down again, every wrapper, task and node allocated so far freed
   once, and nothing is returned. The ids come back in the order of the caller's array.
   */
  method BuildBatchNodes(req: Req, n: nat, firstId: nat, memory: nat, ids: array<nat>)
    returns (first: TaskNode?, created: nat,
             ghost nodes: seq<TaskNode>, ghost cells: set<TaskNode>, ghost freed: seq<Cell>)
    requires n > 0 && ids.Length == n
    modifies ids
    ensures fresh(cells) && created == if 3 * n <= memory then n else memory / 3
    ensures Chain(nodes, BatchTasks(firstId, req, created), cells)
    ensures forall i :: 0 <= i < created ==> ids[i] == BatchTasks(firstId, req, created)[i].id
    ensures 3 * n <= memory ==> nodes != [] && first == nodes[0] && freed == []
    ensures 3 * n > memory ==> first == null && multiset(freed) == multiset(Allocated(memory))
  {
    hide Allocated, BatchTasks;
    var head: TaskNode?, tail: TaskNode? := null, null;
    created, nodes, cells, freed := 0, [], {}, [];
    for i := 0 to n
      invariant created == i == |nodes| && 3 * i <= memory && freed == []
      invariant fresh(cells) && Chain(nodes, BatchTasks(firstId, req, i), cells)
      invariant head == if nodes == [] then null else nodes[0]
      invariant tail == if nodes == [] then null else nodes[i - 1]
      invariant forall j :: 0 <= j < i ==> ids[j] == firstId + j
    {
      var node, partly := CreateBatchNode(Task(firstId + i, req, i), memory - 3 * i);
      if node == null {
        freed := FreeNodes(head, nodes, BatchTasks(firstId, req, i), cells);
        BothFreed(i, memory, partly, freed);
        freed := partly + freed;
        return null, created, nodes, cells, freed;
      }
      ids[i] := firstId + i;
      if tail != null {
        tail.next := node;
        tail := node;
      } else {
        head, tail := node, node;
      }
      created := created + 1;
      nodes, cells := nodes + [node], cells + {node};
    }
    first := head;
  }

  /** Walks to the last node of a chain. */
  method LastNode(first: TaskNode, ghost nodes: seq<TaskNode>, ghost q: seq<Task>, ghost cells: set<TaskNode>)
    returns (tail: TaskNode)
    requires Chain(nodes, q, cells) && nodes != [] && first == nodes[0]
    ensures tail == nodes[|nodes| - 1]
  {
    tail := first;
    ghost var k := 0;
    while tail.next != null
      invariant 0 <= k < |nodes| && tail == nodes[k]
      decreases |nodes| - k
    {
      tail := tail.next;
      k := k + 1;
    }
  }

  /** The whole submission on the chosen queue: all tasks in order, or no trace of any. */
  method SubmitToQueue(worker: WorkerQueue, req: Req, n: nat, firstId: nat, memory: nat)
    returns (ids: array?<nat>)
    requires worker.Valid() && n > 0
    modifies worker, worker.repr
    ensures worker.Valid()
    ensures ids != null <==> 3 * n <= memory
    ensures ids == null ==> worker.contents == old(worker.contents)
    ensures ids != null ==>
              && fresh(ids) && ids.Length == n
              && worker.contents == old(worker.contents) + BatchTasks(firstId, req, n)
              && forall i :: 0 <= i < n ==> ids[i] == BatchTasks(firstId, req, n)[i].id
  {
    var taskIds := new nat[n];
    var first, created, nodes, cells, freed := BuildBatchNodes(req, n, firstId, memory, taskIds);
    if first == null {
      return null;
    }
    var tail := LastNode(first, nodes, BatchTasks(firstId, req, n), cells);
    worker.Attach(first, tail, created, nodes, BatchTasks(firstId, req, n), cells);
    return taskIds;
  }
}
