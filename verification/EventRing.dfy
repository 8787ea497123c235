/** The growing ring buffer of completion events, against an unbounded first-in-first-out queue. */
module EventRing {
  import opened Base

  lemma Monotone(a: int, b: int, c: nat)
    requires a <= b
    ensures a * c <= b * c
  {
  }

  lemma DivMod(a: nat, cap: nat)
    requires 0 < cap
    ensures a == (a / cap) * cap + a % cap && 0 <= a % cap < cap
  {
  }

  /** The C remainder of two unsigned numbers. */
  function Wrap(a: nat, cap: nat): nat
    requires 0 < cap
  {
    a % cap
  }

  /** The remainder of a number that passes the capacity at most once. */
  lemma WrapsOnce(a: nat, cap: nat)
    requires 0 < cap && a < 2 * cap
    ensures Wrap(a, cap) == if a < cap then a else a - cap
  {
    DivMod(a, cap);
    var q := a / cap;
    if q >= 2 {
      Monotone(2, q, cap);
    } else if q <= -1 {
      Monotone(q, -1, cap);
    }
  }

  /** `size` slots from `head` on: up to the end of the array, then from its start. */
  function Window(s: seq<Word64>, head: nat, size: nat): (w: seq<Word64>)
    requires head < |s| && size <= |s|
    ensures |w| == size
  {
    if head + size <= |s| then s[head..head + size] else s[head..] + s[..head + size - |s|]
  }

  lemma WindowGrows(s: seq<Word64>, head: nat, size: nat, x: Word64)
    requires head < |s| && size < |s|
    ensures var at := if head + size < |s| then head + size else head + size - |s|;
            Window(s[at := x], head, size + 1) == Window(s, head, size) + [x]
  {
  }

  lemma WindowShrinks(s: seq<Word64>, head: nat, size: nat)
    requires head < |s| && 0 < size <= |s|
    ensures var next := if head + 1 < |s| then head + 1 else 0;
            Window(s, head, size) == [s[head]] + Window(s, next, size - 1)
  {
  }

  class EventRing {
    var events: array<Word64>
    var head: nat
    var tail: nat
    var size: nat

    ghost predicate Valid()
      reads this
    {
      && 0 < events.Length < U32 && head < events.Length && size <= events.Length
      && tail == Wrap(head + size, events.Length)
    }

    /** The events in the ring, oldest first. */
    ghost function Contents(): (s: seq<Word64>)
      reads this, events
      requires Valid()
      ensures |s| == size
    {
      Window(events[..], head, size)
    }

    constructor (cap: nat)
      requires 0 < cap < U32
      ensures Valid() && Contents() == [] && fresh(events) && events.Length == cap
    {
      events := new Word64[cap];
      head, tail, size := 0, 0, 0;
      WrapsOnce(0, cap);
    }

    /** Doubles the capacity and moves the events to the front. */
    method Grow()
      requires Valid() && size == events.Length && 2 * events.Length < U32
      modifies this
      ensures Valid() && fresh(events) && events.Length == 2 * old(events.Length)
      ensures size == old(size) && Contents() == old(Contents())
    {
      hide Wrap;
      ghost var before := Contents();
      var cap := events.Length;
      var bigger := new Word64[2 * cap];
      var i := 0;
      while i < size
        invariant 0 <= i <= size
        invariant bigger[..i] == before[..i]
        modifies bigger
      {
        WrapsOnce(head + i, cap);
        bigger[i] := events[Wrap(head + i, cap)];
        i := i + 1;
      }
      events, head, tail := bigger, 0, size;
      WrapsOnce(size, events.Length);
      assert bigger[..size] == before;
    }

    /** Appends an event; a full ring grows first, unless its capacity no longer fits 32 bits. */
    method Push(event: Word64)
      requires Valid() && (size == events.Length ==> 2 * events.Length < U32)
      modifies this, events
      ensures Valid() && Contents() == old(Contents()) + [event]
      ensures events.Length == if old(size) == old(events.Length) then 2 * old(events.Length) else old(events.Length)
      ensures events == old(events) || fresh(events)
    {
      if size >= events.Length {
        Grow();
      }
      Store(event);
    }

    method Store(event: Word64)
      requires Valid() && size < events.Length
      modifies this`tail, this`size, events
      ensures Valid() && Contents() == old(Contents()) + [event]
    {
      hide Wrap, Window;
      ghost var cap := events.Length;
      WrapsOnce(head + size, cap);
      WrapsOnce(head + size + 1, cap);
      WrapsOnce(tail + 1, cap);
      WindowGrows(events[..], head, size, event);
      ghost var before, at := events[..], tail;
      events[tail] := event;
      assert events[..] == before[at := event];
      tail := Wrap(tail + 1, events.Length);
      size := size + 1;
    }

    /** Takes the oldest event out, if there is one. */
    method Pop() returns (ok: bool, event: Word64)
      requires Valid()
      modifies this
      ensures Valid() && events == old(events)
      ensures ok == (old(size) > 0)
      ensures if ok then old(Contents()) == [event] + Contents() else Contents() == old(Contents()) == []
    {
      if size == 0 {
        return false, 0;
      }
      hide Wrap, Window;
      ghost var cap := events.Length;
      WindowShrinks(events[..], head, size);
      ok, event := true, events[head];
      WrapsOnce(head + size, cap);
      WrapsOnce(head + 1, cap);
      ghost var next := Wrap(head + 1, cap);
      WrapsOnce(next + (size - 1), cap);
      head := Wrap(head + 1, events.Length);
      size := size - 1;
    }
  }

  // ----- whole histories -----

  datatype Op = Pushed(event: Word64) | Popped

  /** Everything pushed, everything popped and what is left, after a history of operations. */
  function Replay(ops: seq<Op>): (seq<Word64>, seq<Word64>, seq<Word64>) {
    if ops == [] then ([], [], [])
    else
      var (pushed, popped, left) := Replay(ops[..|ops| - 1]);
      match ops[|ops| - 1]
      case Pushed(e) => (pushed + [e], popped, left + [e])
      case Popped => if left == [] then (pushed, popped, left) else (pushed, popped + [left[0]], left[1..])
  }

  /** Events come out in the order they went in, none lost, none twice. */
  lemma {:induction false} FirstInFirstOut(ops: seq<Op>)
    ensures var (pushed, popped, left) := Replay(ops); pushed == popped + left
  {
    if ops != [] {
      FirstInFirstOut(ops[..|ops| - 1]);
    }
  }

  /**
   A history run on a new ring: the events it hands out and those it holds in the end are
   those of the replay, whatever its first capacity and however often it grew. The bound on
   the history keeps the doubled capacity within 32 bits.
   */
  method RunOnRing(cap: nat, ops: seq<Op>) returns (ring: EventRing, popped: seq<Word64>)
    requires 0 < cap < U32 && 2 * |ops| < U32
    ensures fresh(ring) && ring.Valid()
    ensures var (pushed, out, left) := Replay(ops);
            popped == out && ring.Contents() == left && pushed == popped + ring.Contents()
  {
    ring := new EventRing(cap);
    popped := [];
    for i := 0 to |ops|
      invariant ring.Valid() && fresh(ring) && fresh(ring.events) && ring.size <= i
      invariant popped == Replay(ops[..i]).1 && ring.Contents() == Replay(ops[..i]).2
    {
      assert ops[..i + 1][..i] == ops[..i];
      match ops[i] {
        case Pushed(e) =>
          ring.Push(e);
        case Popped =>
          var ok, e := ring.Pop();
          if ok {
            popped := popped + [e];
          }
      }
    }
    assert ops[..|ops|] == ops;
    FirstInFirstOut(ops);
  }
}
