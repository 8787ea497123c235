/**
 The table of live requests: 1024 buckets of chained contexts. Its methods are
 proved to act as a finite map from request id to context.
 */
module RequestTable {
  import opened Base

  const BUCKETS: nat := 1024

  /** The bucket of a request id: `(id ^ (id >> 20)) % 1024` on 32-bit words. */
  function HashReqId(req: Req): (h: nat)
    ensures h < BUCKETS
  {
    var id := req as bv32;
    (id ^ (id >> 20)) as int % 1024
  }

  class RequestContext {
    const req: Req
    const worker: nat
    var pending: int
    const hasBatchCb: bool
    var next: RequestContext?

    constructor (req: Req, worker: nat, pending: int, hasBatchCb: bool)
      ensures this.req == req && this.worker == worker && this.hasBatchCb == hasBatchCb
      ensures this.pending == pending && next == null
    {
      this.req, this.worker, this.pending, this.hasBatchCb := req, worker, pending, hasBatchCb;
      this.next := null;
    }
  }

  /**
   The bucket chains hold exactly the live contexts, each in the bucket its id hashes to
   and only once. Ids never change, so this does not depend on the heap.
   */
  ghost predicate Indexed(chains: seq<seq<RequestContext>>, live: map<Req, RequestContext>, repr: set<RequestContext>) {
    && |chains| == BUCKETS
    && (forall h, i :: 0 <= h < BUCKETS && 0 <= i < |chains[h]| ==> Holds(chains[h][i], h, live, repr))
    && (forall h, i, j :: 0 <= h < BUCKETS && 0 <= i < j < |chains[h]| ==> chains[h][i].req != chains[h][j].req)
    && (forall r :: r in live ==> live[r].req == r && live[r] in chains[HashReqId(r)])
  }

  ghost predicate Holds(ctx: RequestContext, h: nat, live: map<Req, RequestContext>, repr: set<RequestContext>) {
    HashReqId(ctx.req) == h && ctx in repr && ctx.req in live && live[ctx.req] == ctx
  }

  lemma InsertIndexed(chains: seq<seq<RequestContext>>, live: map<Req, RequestContext>,
                      repr: set<RequestContext>, ctx: RequestContext)
    requires Indexed(chains, live, repr) && ctx.req !in live
    ensures var h := HashReqId(ctx.req);
            Indexed(chains[h := [ctx] + chains[h]], live[ctx.req := ctx], repr + {ctx})
  {
    hide HashReqId;
    var h := HashReqId(ctx.req);
    var chains', live' := chains[h := [ctx] + chains[h]], live[ctx.req := ctx];
    assert chains'[h][0] == ctx;
    assert forall i :: 0 < i < |chains'[h]| ==> chains'[h][i] == chains[h][i - 1];
    forall r | r in live' ensures live'[r] in chains'[HashReqId(r)] {
      if r != ctx.req {
        assert live[r] in chains[HashReqId(r)];
      }
    }
  }

  lemma RemoveIndexed(chains: seq<seq<RequestContext>>, live: map<Req, RequestContext>,
                      repr: set<RequestContext>, req: Req, k: nat)
    requires Indexed(chains, live, repr)
    requires k < |chains[HashReqId(req)]| && chains[HashReqId(req)][k].req == req
    ensures var h := HashReqId(req);
            Indexed(chains[h := chains[h][..k] + chains[h][k + 1..]], live - {req}, repr)
  {
    hide HashReqId;
    var h := HashReqId(req);
    var old', new' := chains[h], chains[h][..k] + chains[h][k + 1..];
    var chains', live' := chains[h := new'], live - {req};
    assert forall i :: 0 <= i < |new'| ==> new'[i] == old'[if i < k then i else i + 1];
    forall r | r in live' ensures live'[r] in chains'[HashReqId(r)] {
      if HashReqId(r) == h {
        var i :| 0 <= i < |old'| && old'[i] == live[r];
        assert new'[if i < k then i else i - 1] == live[r];
      }
    }
  }

  lemma BucketsApart(chains: seq<seq<RequestContext>>, live: map<Req, RequestContext>,
                     repr: set<RequestContext>, h: nat)
    requires Indexed(chains, live, repr) && h < BUCKETS
    ensures forall c, g :: 0 <= g < BUCKETS && g != h && c in chains[h] ==> c !in chains[g]
  {
    hide HashReqId;
    forall c, g | 0 <= g < BUCKETS && g != h && c in chains[h] ensures c !in chains[g] {
    }
  }

  lemma DistinctInBucket(chains: seq<seq<RequestContext>>, live: map<Req, RequestContext>,
                         repr: set<RequestContext>, h: nat)
    requires Indexed(chains, live, repr) && h < BUCKETS
    ensures forall i, j :: 0 <= i < j < |chains[h]| ==> chains[h][i] != chains[h][j]
  {
  }

  /** The pointers of one bucket spell out its chain. */
  ghost predicate Linked(first: RequestContext?, chain: seq<RequestContext>)
    reads chain
  {
    && first == (if chain == [] then null else chain[0])
    && (forall i {:trigger chain[i].next} :: 0 <= i < |chain| ==>
          chain[i].next == if i + 1 < |chain| then chain[i + 1] else null)
  }

  ghost predicate AllLinked(firsts: seq<RequestContext?>, chains: seq<seq<RequestContext>>, repr: set<RequestContext>)
    reads repr
  {
    && |firsts| == |chains|
    && forall h :: 0 <= h < |chains| ==> (forall c :: c in chains[h] ==> c in repr) && Linked(firsts[h], chains[h])
  }

  /** `shorter` is `chain` without its k-th context, the one of `req`. */
  ghost predicate CutAt(chain: seq<RequestContext>, k: int, req: Req, shorter: seq<RequestContext>) {
    0 <= k < |chain| && chain[k].req == req && shorter == chain[..k] + chain[k + 1..]
  }

  class Table {
    const buckets: array<RequestContext?>
    ghost var chains: seq<seq<RequestContext>>
    ghost var live: map<Req, RequestContext>  // the abstract map
    ghost var repr: set<RequestContext>

    ghost predicate Valid()
      reads this, buckets, repr
    {
      && buckets.Length == BUCKETS == |chains|
      && Indexed(chains, live, repr)
      && AllLinked(buckets[..], chains, repr)
    }

    constructor ()
      ensures Valid() && fresh(buckets) && live == map[] && repr == {}
    {
      buckets := new RequestContext?[BUCKETS](_ => null);
      chains := seq(BUCKETS, _ => []);
      live, repr := map[], {};
    }

    /** Walks the bucket of `req` to its context: predecessor, node and position. */
    method Locate(req: Req) returns (prev: RequestContext?, curr: RequestContext?, ghost k: nat)
      requires Valid()
      ensures k <= |chains[HashReqId(req)]|
      ensures curr == if k < |chains[HashReqId(req)]| then chains[HashReqId(req)][k] else null
      ensures prev == if k == 0 then null else chains[HashReqId(req)][k - 1]
      ensures curr == (if req in live then live[req] else null) && (curr != null ==> curr.req == req)
    {
      hide HashReqId;
      var h := HashReqId(req);
      prev, curr, k := null, buckets[h], 0;
      while curr != null && curr.req != req
        invariant 0 <= k <= |chains[h]|
        invariant curr == if k < |chains[h]| then chains[h][k] else null
        invariant prev == if k == 0 then null else chains[h][k - 1]
        invariant forall i :: 0 <= i < k ==> chains[h][i].req != req
        decreases |chains[h]| - k
      {
        prev := curr;
        curr := curr.next;
        k := k + 1;
      }
    }

    /** The context of `req`, if the table has one. */
    method Find(req: Req) returns (ctx: RequestContext?)
      requires Valid()
      ensures ctx == if req in live then live[req] else null
    {
      var prev, curr, k := Locate(req);
      ctx := curr;
    }

    /** Links a context of an absent request at the front of its bucket. */
    method Insert(ctx: RequestContext)
      requires Valid() && ctx.req !in live && ctx !in repr
      modifies this, buckets, ctx`next
      ensures Valid() && repr == old(repr) + {ctx}
      ensures live == old(live)[ctx.req := ctx]
      ensures forall h :: 0 <= h < BUCKETS && h != HashReqId(ctx.req) ==>
                buckets[h] == old(buckets[h]) && chains[h] == old(chains[h])
      ensures chains[HashReqId(ctx.req)] == [ctx] + old(chains[HashReqId(ctx.req)])
    {
      hide HashReqId, Indexed;
      var h := HashReqId(ctx.req);
      InsertIndexed(chains, live, repr, ctx);
      ctx.next := buckets[h];
      buckets[h] := ctx;
      ghost var longer := [ctx] + chains[h];
      assert forall i :: 0 < i < |longer| ==> longer[i] == chains[h][i - 1];
      chains := chains[h := longer];
      live, repr := live[ctx.req := ctx], repr + {ctx};
    }

    /** Takes the k-th context out of bucket `h`; no other pointer moves. */
    method Unlink(h: nat, prev: RequestContext?, curr: RequestContext, ghost k: nat)
      requires h < buckets.Length && h < |chains| && Linked(buckets[h], chains[h])
      requires forall c :: c in chains[h] ==> c in repr
      requires k < |chains[h]| && curr == chains[h][k]
      requires prev == if k == 0 then null else chains[h][k - 1]
      requires forall i, j :: 0 <= i < j < |chains[h]| ==> chains[h][i] != chains[h][j]
      modifies buckets, repr`next
      ensures Linked(buckets[h], chains[h][..k] + chains[h][k + 1..])
      ensures forall g :: 0 <= g < buckets.Length && g != h ==> buckets[g] == old(buckets[g])
      ensures forall c :: c in repr && c != prev ==> c.next == old(c.next)
    {
      if prev == null {
        buckets[h] := curr.next;
      } else {
        prev.next := curr.next;
      }
      ghost var shorter := chains[h][..k] + chains[h][k + 1..];
      assert forall i :: 0 <= i < |shorter| ==> shorter[i] == chains[h][if i < k then i else i + 1];
    }

    /** Unlinks the context of `req`, if there is one. */
    method Remove(req: Req)
      requires Valid()
      modifies this, buckets, repr`next
      ensures Valid() && repr == old(repr)
      ensures live == old(live) - {req}
      ensures forall h :: 0 <= h < BUCKETS && h != HashReqId(req) ==>
                buckets[h] == old(buckets[h]) && chains[h] == old(chains[h])
      ensures req !in old(live) ==> chains == old(chains)
      ensures req in old(live) ==>
                exists k :: CutAt(old(chains[HashReqId(req)]), k, req, chains[HashReqId(req)])
    {
      hide HashReqId, Indexed;
      var h := HashReqId(req);
      var prev, curr, k := Locate(req);
      if curr == null {
        assert live - {req} == live;
        return;
      }
      RemoveIndexed(chains, live, repr, req, k);
      DistinctInBucket(chains, live, repr, h);
      BucketsApart(chains, live, repr, h);
      ghost var chain := chains[h];
      assert prev == null || prev in chain;
      Unlink(h, prev, curr, k);
      forall g | 0 <= g < BUCKETS && g != h ensures Linked(buckets[g], chains[g]) {
        assert forall i :: 0 <= i < |chains[g]| ==> chains[g][i] in chains[g] && chains[g][i] != prev;
      }
      ghost var shorter := chain[..k] + chain[k + 1..];
      assert forall c :: c in shorter ==> c in chain;
      live, chains := live - {req}, chains[h := shorter];
      assert CutAt(chain, k, req, chains[h]);
    }

    /** Counts a batch: the live context is charged, or a new one is made if memory allows. */
    method Charge(req: Req, worker: nat, n: nat, hasBatchCb: bool, memory: bool) returns (ok: bool)
      requires Valid()
      modifies this, buckets, repr
      ensures Valid() && fresh(repr - old(repr))
      ensures ok <==> req in old(live) || memory
      ensures !ok ==> live == old(live) && chains == old(chains)
      ensures ok ==> live.Keys == old(live.Keys) + {req}
      ensures forall r :: r in old(live) ==> live[r] == old(live[r])
      ensures req in old(live) ==> live[req].pending == old(live[req].pending) + n
      ensures req !in old(live) && ok ==>
                && live[req].worker == worker && live[req].pending == n && live[req].hasBatchCb == hasBatchCb
      ensures forall r :: r in old(live) && r != req ==> live[r].pending == old(live[r].pending)
    {
      hide HashReqId;
      var ctx := Find(req);
      if ctx != null {
        ctx.pending := ctx.pending + n;
      } else {
        if !memory {
          return false;
        }
        ctx := new RequestContext(req, worker, n, hasBatchCb);
        Insert(ctx);
      }
      return true;
    }

    /** Takes `removed` tasks off a live context and unlinks it when none is left. */
    method Discharge(ctx: RequestContext, removed: nat)
      requires Valid() && ctx.req in live && live[ctx.req] == ctx
      modifies this, buckets, repr
      ensures Valid() && repr == old(repr)
      ensures ctx.pending == old(ctx.pending) - removed
      ensures live == if ctx.pending == 0 then old(live) - {ctx.req} else old(live)
      ensures forall r :: r in live && r != ctx.req ==> live[r].pending == old(live[r].pending)
    {
      hide HashReqId;
      ctx.pending := ctx.pending - removed;
      if ctx.pending == 0 {
        Remove(ctx.req);
      }
    }
  }
}
