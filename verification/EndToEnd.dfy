/**
 From the protocol down to the bytes. An accepted write is performed some time between its post
 and its completion; what the poller has seen completed is certain, the one write that may be
 in flight is not, not even when success is reported.
 */
module EndToEnd {
  import opened Base
  import opened TaskSync
  import opened Pool
  import opened PoolInvariant
  import opened ChunkSplit
  import opened Send
  import opened SendInvariant
  import opened SendViews
  import opened SendSteps
  import opened SendTheorems
  import opened SendProgress

  // ----- what has been polled -----

  /** The accepted writes but the latest `out`. */
  function Polled(t: Transfer): seq<nat> {
    if t.out <= |t.posted| then t.posted[..|t.posted| - t.out] else []
  }

  /** At most one write of a send is in flight. */
  lemma OneInFlight(run: seq<Step>, s: System, r: Req)
    requires Reached(run, s) && r in s.sends
    ensures s.sends[r].out <= 1 && s.sends[r].out <= |s.sends[r].posted|
  {
    hide SystemOk, Reached, RequestOk;
    ReachedOk(run, s);
    if Registered(s, r) {
      SendFacts(s, r);
      FlightsBounded(r, SendViewOf(s, r));
    } else {
      DormantFacts(s, r);
    }
  }

  lemma FlightsBounded(r: Req, x: SendView)
    requires SendOk(r, x)
    ensures x.t.out <= 1 && x.t.out <= |x.t.posted|
  {
  }

  /**
   Each completion of a send that the poller takes is that of the one write in flight, the
   latest; no other step changes which of its writes have been polled.
   */
  lemma PolledInOrder(run: seq<Step>, s: System, a: Step, r: Req)
    requires Reached(run, s) && Can(s, a) && r in s.sends && !Ends(a, r)
    ensures r in Do(s, a).sends
    ensures var t, t' := s.sends[r], Do(s, a).sends[r];
            if a == Deliver(r) then t.out == 1 && t.posted != [] && Polled(t') == Polled(t) + [t.posted[|t.posted| - 1]]
            else Polled(t') == Polled(t)
  {
    hide Reached, Do, Can;
    ExtendRun(run, s, a);
    WritesMove(s, a, r);
    OneInFlight(run, s, r);
    OneInFlight(run + [a], Do(s, a), r);
  }

  // ----- success before the last completion -----

  /** A send whose chunks are all posted: its waiter can still be brought to report success. */
  ghost predicate AllPosted(s: System, r: Req) {
    && Registered(s, r) && Returned(s, r) && !s.sends[r].failed
    && |s.sends[r].posted| == s.sends[r].n && s.sends[r].waiter.Away?
  }

  /** Worker `w` has posted the chunk of a task of `r` and is about to mark it. */
  predicate MarksNext(s: System, w: nat, r: Req) {
    Can(s, Mark(w)) && PcAt(s.pool, w).Popped? && s.pool.workers[w].pc.task.req == r
  }

  /** The last task has been marked, or is about to be. */
  lemma MarkedOrNext(s: System, r: Req) returns (w: nat)
    requires SystemOk(s) && AllPosted(s, r)
    ensures if s.sends[r].sync.done then Succeeded(s.sends[r].sync) else MarksNext(s, w, r)
  {
    hide SystemOk, Inv, RequestOk;
    SendFacts(s, r);
    w := s.pool.jobs[r].worker;
    PostedVerdict(r, SendViewOf(s, r));
  }

  lemma PostedVerdict(r: Req, x: SendView)
    requires SendOk(r, x) && Fates(r, x.v) && !x.calling && !x.t.failed && |x.t.posted| == x.t.n
    ensures if x.t.sync.done then Succeeded(x.t.sync) else x.wrote.Some? && x.v.stage.Popped?
  {
    VerdictOf(r, x);
    AllTrueCounts(x.t.marks);
  }

  lemma MarkKeepsPosted(s: System, w: nat, r: Req)
    requires MarksNext(s, w, r) && AllPosted(s, r)
    ensures AllPosted(Do(s, Mark(w)), r) && Do(s, Mark(w)).sends[r].out == s.sends[r].out
    ensures Do(s, Mark(w)).sends[r].n == s.sends[r].n
  {
    hide Apply, Enabled;
  }

  /** Notice, judge, free: the waiter reports success. */
  lemma Reports(run: seq<Step>, s: System, r: Req) returns (more: seq<Step>, t: System)
    requires Reached(run, s) && AllPosted(s, r) && s.sends[r].sync.done && Succeeded(s.sends[r].sync)
    ensures Reached(run + more, t) && r in t.sends && t.sends[r] == s.sends[r].(waiter := Waiter.Gone(true))
  {
    hide Reached;
    ExtendRun(run, s, Notice(r));
    var s1 := Do(s, Notice(r));
    ExtendRun(run + [Notice(r)], s1, Judge(r));
    var s2 := Do(s1, Judge(r));
    ExtendRun(run + [Notice(r)] + [Judge(r)], s2, Free(r));
    t := Do(s2, Free(r));
    more := [Notice(r)] + [Judge(r)] + [Free(r)];
    assert run + more == run + [Notice(r)] + [Judge(r)] + [Free(r)];
  }

  /** A send with chunks left and its token has its waiter still away. */
  lemma LiveIsAwaited(s: System, r: Req)
    requires SystemOk(s) && Live(s, r)
    ensures s.sends[r].waiter.Away?
  {
    hide SystemOk, Inv, RequestOk;
    SendFacts(s, r);
    VerdictOf(r, SendViewOf(s, r));
  }

  /**
   Success does not mean that the bytes have arrived: every send that can still post its
   chunks can come to report success, with everything freed, while its last write is in flight.
   */
  lemma SuccessInFlight(run: seq<Step>, s: System, r: Req)
    requires Reached(run, s) && Live(s, r)
    ensures exists more, t ::
              && Reached(run + more, t) && r in t.sends && t.sends[r].n == s.sends[r].n
              && t.sends[r].waiter == Waiter.Gone(true) && t.sends[r].out == 1
  {
    hide SystemOk, Reached, Can, Do, Live, Backstage;
    ReachedOk(run, s);
    LiveIsAwaited(s, r);
    LiveNeedsMore(s, r);
    CanAlwaysFinish(run, s, r);
    var first, m :| Reached(run + first, m) && Finishes(s, first, m, r);
    var second, u := LastMark(run + first, m, r);
    var third, t := Reports(run + first + second, u, r);
    assert run + (first + second + third) == run + first + second + third;
  }

  lemma LiveNeedsMore(s: System, r: Req)
    requires Live(s, r)
    ensures Registered(s, r) && Returned(s, r) && !s.sends[r].failed && !s.sends[r].robbed
    ensures |s.sends[r].posted| < s.sends[r].n
  {
  }

  lemma LastMark(run: seq<Step>, s: System, r: Req) returns (more: seq<Step>, t: System)
    requires Reached(run, s) && AllPosted(s, r)
    ensures Reached(run + more, t) && AllPosted(t, r) && t.sends[r].sync.done && Succeeded(t.sends[r].sync)
    ensures t.sends[r].out == s.sends[r].out && t.sends[r].n == s.sends[r].n
  {
    hide SystemOk, Reached, Do, Returned, Succeeded;
    ReachedOk(run, s);
    var w := MarkedOrNext(s, r);
    more, t := [], s;
    assert run + [] == run;
    if !s.sends[r].sync.done {
      MarkKeepsPosted(s, w, r);
      ExtendRun(run, s, Mark(w));
      more, t := [Mark(w)], Do(s, Mark(w));
      ReachedOk(run + more, t);
      MarkedLast(s, w, r);
      var v := MarkedOrNext(t, r);
    }
  }

  /** Nothing is in hand after a mark, so the mark was the last. */
  lemma MarkedLast(s: System, w: nat, r: Req)
    requires SystemOk(s) && MarksNext(s, w, r) && AllPosted(s, r)
    ensures AllPosted(Do(s, Mark(w)), r) && Do(s, Mark(w)).sends[r].sync.done
  {
    hide SystemOk, Inv, RequestOk;
    SystemFacts(s);
    TurnIsRegistered(s, w);
    SendFacts(s, r);
    LastMarkEnds(r, SendViewOf(s, r));
    MarkKeepsPosted(s, w, r);
  }

  lemma LastMarkEnds(r: Req, x: SendView)
    requires SendOk(r, x) && Fates(r, x.v) && !x.calling && !x.t.failed && |x.t.posted| == x.t.n && x.wrote.Some?
    ensures x.wrote.value && Marked(x.t.sync, true).done
  {
    VerdictOf(r, x);
    AllTrueCounts(x.t.marks);
  }

  // ----- the bytes -----

  /** Fewer chunks than all of them cover less than the whole length. */
  lemma WholeOnlyAtEnd(chunks: seq<Chunk>, src: Word64, dst: Word64, len: Word32, k: nat)
    requires Tiles(chunks, src, dst, len) && k <= |chunks|
    ensures PrefixLength(len, k) == len <==> k == |chunks|
  {
    TilesUnique(chunks, src, dst, len);
    hide Tiles, ChunkSeq, Plus;
  }

  /**
   Once performed, the writes accepted so far for a send copy exactly the first bytes of its
   range, as many as its posted chunks hold, and touch nothing else.
   */
  lemma PostedIsCopied<T>(run: seq<Step>, s: System, r: Req, chunks: seq<Chunk>,
                          mem: seq<T>, src: nat, dst: nat, len: Word32)
    requires Reached(run, s) && r in s.sends && s.sends[r].n == |chunks|
    requires |mem| <= U64 && src + len <= |mem| && dst + len <= |mem| && Disjoint(src, dst, len) && len > 0
    requires Tiles(chunks, src, dst, len)
    ensures Named(s.sends[r].posted, |chunks|)
    ensures Written(mem, chunks, s.sends[r].posted)
            == Copy(mem, src, dst, PrefixLength(len, |s.sends[r].posted|))
  {
    hide Reached, Tiles;
    PostsInOrder(run, s, r);
    PrefixIsPartialCopy(mem, src, dst, len, chunks, s.sends[r].posted);
  }

  /** The same of the writes whose completion has been polled, which have been performed. */
  lemma PolledIsCopied<T>(run: seq<Step>, s: System, r: Req, chunks: seq<Chunk>,
                          mem: seq<T>, src: nat, dst: nat, len: Word32)
    requires Reached(run, s) && r in s.sends && s.sends[r].n == |chunks|
    requires |mem| <= U64 && src + len <= |mem| && dst + len <= |mem| && Disjoint(src, dst, len) && len > 0
    requires Tiles(chunks, src, dst, len)
    ensures Named(Polled(s.sends[r]), |chunks|) && |Polled(s.sends[r])| == |s.sends[r].posted| - s.sends[r].out
    ensures Written(mem, chunks, Polled(s.sends[r]))
            == Copy(mem, src, dst, PrefixLength(len, |s.sends[r].posted| - s.sends[r].out))
  {
    hide Reached, Tiles;
    PostsInOrder(run, s, r);
    OneInFlight(run, s, r);
    PrefixIsPartialCopy(mem, src, dst, len, chunks, Polled(s.sends[r]));
  }

  /**
   What memory may hold at any moment: each byte is as the polled writes left it, or as the
   write in flight leaves it.
   */
  ghost predicate MayHold<T>(mem: seq<T>, chunks: seq<Chunk>, t: Transfer, m: seq<T>) {
    && |m| == |mem| && Named(t.posted, |chunks|) && Named(Polled(t), |chunks|)
    && forall k :: 0 <= k < |mem| ==>
         m[k] == Written(mem, chunks, Polled(t))[k] || m[k] == Written(mem, chunks, t.posted)[k]
  }

  /**
   The waiter is told success exactly when every write has been accepted. At that moment the
   bytes of all chunks but the last are there for certain, nothing outside the range has
   changed, and memory is one copy of the whole range once no write is in flight.
   */
  lemma SuccessIsWholeCopy<T>(run: seq<Step>, s: System, r: Req, chunks: seq<Chunk>,
                              mem: seq<T>, src: nat, dst: nat, len: Word32, m: seq<T>)
    requires Reached(run, s) && r in s.sends && s.sends[r].n == |chunks|
    requires s.sends[r].waiter.Ready? || s.sends[r].waiter.Gone?
    requires |mem| <= U64 && src + len <= |mem| && dst + len <= |mem| && Disjoint(src, dst, len) && len > 0
    requires Tiles(chunks, src, dst, len)
    requires MayHold(mem, chunks, s.sends[r], m)
    ensures Named(s.sends[r].posted, |chunks|)
    ensures s.sends[r].waiter.ok ==> Written(mem, chunks, s.sends[r].posted) == Copy(mem, src, dst, len)
    ensures s.sends[r].waiter.ok <==> PrefixLength(len, |s.sends[r].posted|) == len
    ensures s.sends[r].waiter.ok ==>
              && (forall k :: dst <= k < dst + PrefixLength(len, |chunks| - 1) ==> m[k] == mem[src + (k - dst)])
              && (forall k :: 0 <= k < |mem| && !(dst <= k < dst + len) ==> m[k] == mem[k])
              && (s.sends[r].out == 0 ==> m == Copy(mem, src, dst, len))
  {
    hide Reached, Tiles, Written, Copy, MayHold, InOrder, Polled, Disjoint;
    PostsInOrder(run, s, r);
    OneInFlight(run, s, r);
    VerdictIsExact(run, s, r);
    WholeOnlyAtEnd(chunks, src, dst, len, |s.sends[r].posted|);
    PostedIsCopied(run, s, r, chunks, mem, src, dst, len);
    PolledIsCopied(run, s, r, chunks, mem, src, dst, len);
    if s.sends[r].waiter.ok {
      EitherCopy(mem, chunks, s.sends[r], m, Copy(mem, src, dst, PrefixLength(len, |chunks| - s.sends[r].out)),
                 Copy(mem, src, dst, PrefixLength(len, |chunks|)));
      CertainBytes(mem, src, dst, len, m, |chunks|, |chunks| - s.sends[r].out);
    }
  }

  lemma EitherCopy<T>(mem: seq<T>, chunks: seq<Chunk>, t: Transfer, m: seq<T>, a: seq<T>, b: seq<T>)
    requires MayHold(mem, chunks, t, m)
    requires Written(mem, chunks, Polled(t)) == a && Written(mem, chunks, t.posted) == b
    ensures |m| == |a| == |b| == |mem| && forall k :: 0 <= k < |mem| ==> m[k] == a[k] || m[k] == b[k]
  {
    hide Written;
  }

  /** What two copies of prefixes of the range have in common is certain. */
  lemma CertainBytes<T>(mem: seq<T>, src: nat, dst: nat, len: Word32, m: seq<T>, n: nat, k: nat)
    requires src + len <= |mem| && dst + len <= |mem| && |m| == |mem| && n > 0 && n - 1 <= k <= n
    requires PrefixLength(len, n) == len
    requires forall i :: 0 <= i < |mem| ==>
               || m[i] == Copy(mem, src, dst, PrefixLength(len, k))[i]
               || m[i] == Copy(mem, src, dst, PrefixLength(len, n))[i]
    ensures forall i :: dst <= i < dst + PrefixLength(len, n - 1) ==> m[i] == mem[src + (i - dst)]
    ensures forall i :: 0 <= i < |mem| && !(dst <= i < dst + len) ==> m[i] == mem[i]
    ensures k == n ==> m == Copy(mem, src, dst, len)
  {
    hide Copy;
    forall i | 0 <= i < |mem|
      ensures dst <= i < dst + PrefixLength(len, n - 1) ==> m[i] == mem[src + (i - dst)]
      ensures !(dst <= i < dst + len) ==> m[i] == mem[i]
    {
      CopyAt(mem, src, dst, PrefixLength(len, k), i);
      CopyAt(mem, src, dst, PrefixLength(len, n), i);
    }
  }
}
