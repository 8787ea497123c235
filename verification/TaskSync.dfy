/**
 The completion handle of a request: worker threads mark tasks on it, the calling
 thread may fail it, one thread waits on it.
 */
module TaskSync {
  import opened Base

  datatype Sync = Sync(done: bool, total: nat, completed: nat)

  function Fresh(total: nat): Sync {
    Sync(false, total, 0)
  }

  /** One task reports its outcome. A failure ends the request at once and counts nothing. */
  function Marked(y: Sync, ok: bool): Sync {
    if !ok then y.(done := true)
    else y.(completed := y.completed + 1, done := y.done || y.completed + 1 == y.total)
  }

  /** The calling thread gives up on the request. */
  function Failed(y: Sync): Sync {
    y.(done := true)
  }

  /** The verdict of the waiter, read after `done` was seen. */
  predicate Succeeded(y: Sync) {
    y.completed == y.total
  }

  function AfterMarks(y: Sync, marks: seq<bool>): Sync {
    if marks == [] then y else Marked(AfterMarks(y, marks[..|marks| - 1]), marks[|marks| - 1])
  }

  function Successes(marks: seq<bool>): nat {
    if marks == [] then 0 else Successes(marks[..|marks| - 1]) + if marks[|marks| - 1] then 1 else 0
  }

  lemma {:induction false} SuccessesBound(marks: seq<bool>)
    ensures Successes(marks) <= |marks|
    ensures Successes(marks) == |marks| <==> forall i :: 0 <= i < |marks| ==> marks[i]
  {
    if marks != [] {
      var front := marks[..|marks| - 1];
      SuccessesBound(front);
      assert forall i :: 0 <= i < |front| ==> front[i] == marks[i];
    }
  }

  /**
   Any sequence of at most `total` marks: the count is the successes, it never passes the
   total, the waiter is let go exactly after a failure or when everything succeeded, and
   the verdict is success exactly when every task reported success.
   */
  lemma {:induction false} MarksAddUp(total: nat, marks: seq<bool>)
    requires total > 0 && |marks| <= total
    ensures var y := AfterMarks(Fresh(total), marks);
            && y.total == total && y.completed == Successes(marks) <= total
            && (y.done <==> false in marks || Successes(marks) == total)
            && (Succeeded(y) <==> |marks| == total && false !in marks)
  {
    SuccessesBound(marks);
    if marks != [] {
      var front, last := marks[..|marks| - 1], marks[|marks| - 1];
      MarksAddUp(total, front);
      SuccessesBound(front);
      assert marks == front + [last];
      assert false in marks <==> false in front || !last;
    }
    if Successes(marks) == |marks| {
      assert false !in marks;
    } else {
      var i :| 0 <= i < |marks| && !marks[i];
      assert false in marks;
    }
  }

  // ----- everything that can happen to a handle -----

  datatype Report = Outcome(ok: bool) | GiveUp

  /** A task reports its outcome, or the calling thread gives up. */
  function Reported(y: Sync, e: Report): Sync {
    match e
    case Outcome(ok) => Marked(y, ok)
    case GiveUp => Failed(y)
  }

  function AfterReports(y: Sync, reports: seq<Report>): Sync {
    if reports == [] then y else Reported(AfterReports(y, reports[..|reports| - 1]), reports[|reports| - 1])
  }

  /** The outcomes the tasks reported, in order. */
  function MarksOf(reports: seq<Report>): seq<bool> {
    if reports == [] then []
    else
      var front, last := MarksOf(reports[..|reports| - 1]), reports[|reports| - 1];
      if last.Outcome? then front + [last.ok] else front
  }

  lemma {:induction false} ReportsAppend(y: Sync, a: seq<Report>, b: seq<Report>)
    ensures AfterReports(y, a + b) == AfterReports(AfterReports(y, a), b)
  {
    if b == [] {
      assert a + b == a;
    } else {
      ReportsAppend(y, a, b[..|b| - 1]);
      assert (a + b)[..|a + b| - 1] == a + b[..|b| - 1];
    }
  }

  /**
   Marks of at most `total` tasks and failures from the caller in any order: the waiter is
   let go exactly after a failure of either kind or when all tasks succeeded, and the
   verdict is success exactly when all tasks succeeded, whatever the caller did.
   */
  lemma {:induction false} ReportsAddUp(total: nat, reports: seq<Report>)
    requires total > 0 && |MarksOf(reports)| <= total
    ensures var y, marks := AfterReports(Fresh(total), reports), MarksOf(reports);
            && y.total == total && y.completed == Successes(marks) <= total
            && (y.done <==> GiveUp in reports || false in marks || Successes(marks) == total)
            && (Succeeded(y) <==> |marks| == total && false !in marks)
  {
    var marks := MarksOf(reports);
    MarksAddUp(total, marks);
    if reports != [] {
      var front, last := reports[..|reports| - 1], reports[|reports| - 1];
      ReportsAddUp(total, front);
      assert reports == front + [last];
      if last.Outcome? {
        SuccessesBound(MarksOf(front));
        assert marks[..|marks| - 1] == MarksOf(front);
      }
    }
  }

  /** What happens over several waits, one after the other. */
  function Joined(rounds: seq<seq<Report>>): seq<Report> {
    if rounds == [] then [] else Joined(rounds[..|rounds| - 1]) + rounds[|rounds| - 1]
  }

  lemma JoinedNext(y: Sync, rounds: seq<seq<Report>>, k: nat)
    requires k < |rounds|
    ensures AfterReports(y, Joined(rounds[..k + 1])) == AfterReports(AfterReports(y, Joined(rounds[..k])), rounds[k])
  {
    assert rounds[..k + 1][..k] == rounds[..k];
    ReportsAppend(y, Joined(rounds[..k]), rounds[k]);
  }

  /** The handle itself, with the fields the mutex protects. */
  class Handle {
    var requestCompleted: bool
    var totalTasks: nat
    var completedTasks: nat

    ghost function Abstract(): Sync
      reads this
    {
      Sync(requestCompleted, totalTasks, completedTasks)
    }

    constructor (total: nat)
      ensures Abstract() == Fresh(total)
    {
      requestCompleted, totalTasks, completedTasks := false, total, 0;
    }

    method MarkTaskGroupCompleted(taskSuccess: bool) returns (signalled: bool)
      modifies this
      ensures Abstract() == Marked(old(Abstract()), taskSuccess)
      ensures signalled <==> !taskSuccess || completedTasks == totalTasks
    {
      if !taskSuccess {
        requestCompleted := true;
        return true;
      }
      completedTasks := completedTasks + 1;
      if completedTasks == totalTasks {
        requestCompleted := true;
        return true;
      }
      return false;
    }

    method FailFromCaller()
      modifies this
      ensures Abstract() == Failed(old(Abstract()))
    {
      requestCompleted := true;
    }

    /** What other threads do to the handle while the mutex is free. */
    method Happen(reports: seq<Report>)
      modifies this
      ensures Abstract() == AfterReports(old(Abstract()), reports)
    {
      for i := 0 to |reports|
        invariant Abstract() == AfterReports(old(Abstract()), reports[..i])
      {
        assert reports[..i + 1][..i] == reports[..i];
        match reports[i] {
          case Outcome(ok) =>
            var signalled := MarkTaskGroupCompleted(ok);
          case GiveUp =>
            FailFromCaller();
        }
      }
      assert reports[..|reports|] == reports;
    }

    /**
     Waits for the request. Round k is what happens during the k-th wait on the condition,
     which may end without a signal; `late` is what happens between the release of the mutex
     and the look at the counters. The waiter returns from the first wait that leaves the flag
     set, with 0, or with -1 as a 32-bit word.
     */
    method WaitForTaskComplete(rounds: seq<seq<Report>>, late: seq<Report>) returns (waits: nat, code: nat)
      requires AfterReports(Abstract(), Joined(rounds)).done
      modifies this
      ensures waits <= |rounds| && AfterReports(old(Abstract()), Joined(rounds[..waits])).done
      ensures forall k :: 0 <= k < waits ==> !AfterReports(old(Abstract()), Joined(rounds[..k])).done
      ensures Abstract() == AfterReports(old(Abstract()), Joined(rounds[..waits]) + late)
      ensures code == if Succeeded(Abstract()) then 0 else U32 - 1
    {
      waits := 0;
      assert Abstract() == AfterReports(old(Abstract()), Joined(rounds[..0]));
      hide AfterReports, Joined;
      while !requestCompleted
        invariant waits <= |rounds| && Abstract() == AfterReports(old(Abstract()), Joined(rounds[..waits]))
        invariant forall k :: 0 <= k < waits ==> !AfterReports(old(Abstract()), Joined(rounds[..k])).done
        decreases |rounds| - waits
      {
        assert rounds[..|rounds|] == rounds;
        JoinedNext(old(Abstract()), rounds, waits);
        Happen(rounds[waits]);
        waits := waits + 1;
      }
      ReportsAppend(old(Abstract()), Joined(rounds[..waits]), late);
      Happen(late);
      if completedTasks != totalTasks {
        return waits, U32 - 1;
      }
      return waits, 0;
    }
  }
}
