/** Splitting a transfer into chunks, and why the chunks together are one copy. */
module ChunkSplit {
  import opened Base

  const CHUNK_SIZE: int := 2 * 1024 * 1024

  datatype Chunk = Chunk(src: Word64, dst: Word64, len: Word32)

  /** The sum of two 64-bit words, modulo the word size as in C. */
  function Plus(a: int, b: int): Word64 {
    (a + b) % U64
  }

  function TotalLength(chunks: seq<Chunk>): nat {
    if chunks == [] then 0 else TotalLength(chunks[..|chunks| - 1]) + chunks[|chunks| - 1].len
  }

  /** Chunk `i` begins where the one before it ends. */
  predicate Joined(chunks: seq<Chunk>, i: nat)
    requires 0 < i < |chunks|
  {
    && chunks[i - 1].len == CHUNK_SIZE
    && chunks[i].src == Plus(chunks[i - 1].src, chunks[i - 1].len)
    && chunks[i].dst == Plus(chunks[i - 1].dst, chunks[i - 1].len)
  }

  /**
   The chunks cover both ranges: each begins where the one before ends, all are full but
   the last, none is empty, and the lengths add up.
   */
  ghost predicate Tiles(chunks: seq<Chunk>, src: Word64, dst: Word64, len: Word32) {
    && TotalLength(chunks) == len
    && (chunks != [] ==> chunks[0].src == src && chunks[0].dst == dst)
    && (forall i :: 0 <= i < |chunks| ==> 0 < chunks[i].len <= CHUNK_SIZE)
    && (forall i: nat :: 0 < i < |chunks| ==> Joined(chunks, i))
  }

  /** `common_split_chunks`: none when the array cannot be allocated. */
  method SplitChunks(src: Word64, dst: Word64, len: Word32, gotMemory: bool) returns (chunks: array?<Chunk>)
    ensures chunks != null <==> gotMemory
    ensures chunks != null ==> Tiles(chunks[..], src, dst, len)
  {
    var n := (len + CHUNK_SIZE - 1) / CHUNK_SIZE;
    if !gotMemory {
      return null;
    }
    var a := new Chunk[n](_ => Chunk(0, 0, 0));
    var i := 0;
    while i < n
      invariant 0 <= i <= n
      invariant forall k :: 0 <= k < i ==> a[k] == ChunkAt(src, dst, len, k)
    {
      a[i] := Chunk(Plus(src, i * CHUNK_SIZE), Plus(dst, i * CHUNK_SIZE),
                    if len - i * CHUNK_SIZE > CHUNK_SIZE then CHUNK_SIZE else len - i * CHUNK_SIZE);
      i := i + 1;
    }
    assert a[..] == ChunkSeq(src, dst, len);
    SplitTiles(src, dst, len);
    chunks := a;
  }

  function ChunkCount(len: Word32): nat {
    (len + CHUNK_SIZE - 1) / CHUNK_SIZE
  }

  function ChunkAt(src: Word64, dst: Word64, len: Word32, i: nat): Chunk
    requires i < ChunkCount(len)
  {
    Chunk(Plus(src, i * CHUNK_SIZE), Plus(dst, i * CHUNK_SIZE),
          if len - i * CHUNK_SIZE > CHUNK_SIZE then CHUNK_SIZE else len - i * CHUNK_SIZE)
  }

  function ChunkSeq(src: Word64, dst: Word64, len: Word32): seq<Chunk> {
    seq(ChunkCount(len), i requires 0 <= i < ChunkCount(len) => ChunkAt(src, dst, len, i))
  }

  lemma {:induction false} FullPrefixLength(chunks: seq<Chunk>, k: nat)
    requires k <= |chunks| && forall i :: 0 <= i < k ==> chunks[i].len == CHUNK_SIZE
    ensures TotalLength(chunks[..k]) == k * CHUNK_SIZE
  {
    if k > 0 {
      FullPrefixLength(chunks, k - 1);
      assert chunks[..k][..k - 1] == chunks[..k - 1];
    }
  }

  lemma PlusTwice(a: Word64, b: int, c: int)
    ensures Plus(Plus(a, b), c) == Plus(a, b + c)
  {
    var q := (a + b) / U64;
    assert a + b == q * U64 + Plus(a, b);
    assert a + (b + c) == q * U64 + (Plus(a, b) + c);
    ModShift(Plus(a, b) + c, q);
  }

  lemma ModShift(x: int, q: int)
    ensures (q * U64 + x) % U64 == x % U64
  {
    var d, m := x / U64, x % U64;
    assert q * U64 + x == (q + d) * U64 + m;
  }

  lemma SplitJoined(src: Word64, dst: Word64, len: Word32, i: nat)
    requires 0 < i < ChunkCount(len)
    ensures Joined(ChunkSeq(src, dst, len), i)
  {
    hide Plus;
    PlusTwice(src, (i - 1) * CHUNK_SIZE, CHUNK_SIZE);
    PlusTwice(dst, (i - 1) * CHUNK_SIZE, CHUNK_SIZE);
  }

  lemma PlusZero(a: Word64)
    ensures Plus(a, 0) == a
  {
  }

  lemma SplitTiles(src: Word64, dst: Word64, len: Word32)
    ensures Tiles(ChunkSeq(src, dst, len), src, dst, len)
  {
    hide Plus, Joined;
    var s, n := ChunkSeq(src, dst, len), ChunkCount(len);
    forall i: nat | 0 < i < |s| ensures Joined(s, i) {
      SplitJoined(src, dst, len, i);
    }
    PlusZero(src);
    PlusZero(dst);
    if n > 0 {
      FullPrefixLength(s, n - 1);
    }
  }

  /** There is only one way to tile: the count and every chunk follow from the length. */
  lemma {:induction false} TilesPosition(chunks: seq<Chunk>, src: Word64, dst: Word64, len: Word32, i: nat)
    requires Tiles(chunks, src, dst, len) && i < |chunks|
    ensures chunks[i].src == Plus(src, i * CHUNK_SIZE) && chunks[i].dst == Plus(dst, i * CHUNK_SIZE)
  {
    assert i > 0 ==> Joined(chunks, i);
    hide Plus, TotalLength;
    PlusZero(src);
    PlusZero(dst);
    if i > 0 {
      TilesPosition(chunks, src, dst, len, i - 1);
      PlusTwice(src, (i - 1) * CHUNK_SIZE, CHUNK_SIZE);
      PlusTwice(dst, (i - 1) * CHUNK_SIZE, CHUNK_SIZE);
    }
  }

  lemma TilesUnique(chunks: seq<Chunk>, src: Word64, dst: Word64, len: Word32)
    requires Tiles(chunks, src, dst, len)
    ensures chunks == ChunkSeq(src, dst, len)
    ensures |chunks| <= 2048 && (len > CHUNK_SIZE <==> |chunks| >= 2) && (chunks == [] <==> len == 0)
  {
    var n := |chunks|;
    TilesCount(chunks, src, dst, len);
    forall i | 0 <= i < n ensures chunks[i] == ChunkAt(src, dst, len, i) {
      TilesPosition(chunks, src, dst, len, i);
    }
  }

  lemma TilesCount(chunks: seq<Chunk>, src: Word64, dst: Word64, len: Word32)
    requires Tiles(chunks, src, dst, len)
    ensures |chunks| == ChunkCount(len)
    ensures forall i :: 0 <= i < |chunks| ==>
              chunks[i].len == if len - i * CHUNK_SIZE > CHUNK_SIZE then CHUNK_SIZE else len - i * CHUNK_SIZE
  {
    hide Plus;
    var n := |chunks|;
    if n > 0 {
      forall i | 0 <= i < n - 1 ensures chunks[i].len == CHUNK_SIZE {
        assert Joined(chunks, i + 1);
      }
      FullPrefixLength(chunks, n - 1);
      assert len == (n - 1) * CHUNK_SIZE + chunks[n - 1].len;
    }
  }

  // ----- the copy -----

  /** Memory after copying `len` bytes from `src` to `dst`. */
  function Copy<T>(mem: seq<T>, src: nat, dst: nat, len: nat): (r: seq<T>)
    requires src + len <= |mem| && dst + len <= |mem|
    ensures |r| == |mem|
  {
    mem[..dst] + mem[src..src + len] + mem[dst + len..]
  }

  /** Writing a chunk: memory addresses are positions; a chunk that leaves the memory writes nothing. */
  function Post<T>(mem: seq<T>, c: Chunk): (r: seq<T>)
    ensures |r| == |mem|
  {
    if c.src + c.len <= |mem| && c.dst + c.len <= |mem| then Copy(mem, c.src, c.dst, c.len) else mem
  }

  predicate Named(order: seq<nat>, n: nat) {
    forall j :: 0 <= j < |order| ==> order[j] < n
  }

  /** Memory after the chunks named by `order` were written one after the other. */
  function Written<T>(mem: seq<T>, chunks: seq<Chunk>, order: seq<nat>): (r: seq<T>)
    requires Named(order, |chunks|)
    ensures |r| == |mem|
  {
    if order == [] then mem
    else
      var last := order[|order| - 1];
      Post(Written(mem, chunks, order[..|order| - 1]), chunks[last])
  }

  predicate Disjoint(src: nat, dst: nat, len: nat) {
    src + len <= dst || dst + len <= src
  }

  /** Byte `k` of memory after the chunks in `order`: copied if its chunk is among them. */
  function ByteAfter<T>(mem: seq<T>, src: nat, dst: nat, len: nat, order: seq<nat>, k: nat): T
    requires src + len <= |mem| && dst + len <= |mem| && k < |mem|
  {
    if dst <= k < dst + len && (k - dst) / CHUNK_SIZE in order then mem[src + (k - dst)] else mem[k]
  }

  lemma {:induction false} WrittenBytes<T>(mem: seq<T>, src: nat, dst: nat, len: Word32, order: seq<nat>)
    requires |mem| <= U64 && src + len <= |mem| && dst + len <= |mem| && Disjoint(src, dst, len) && len > 0
    requires Named(order, ChunkCount(len))
    ensures var m := Written(mem, ChunkSeq(src, dst, len), order);
            forall k :: 0 <= k < |mem| ==> m[k] == ByteAfter(mem, src, dst, len, order, k)
  {
    if order != [] {
      var front, last := order[..|order| - 1], order[|order| - 1];
      hide ByteAfter, Post, ChunkAt, Plus;
      WrittenBytes(mem, src, dst, len, front);
      assert order == front + [last];
      var m := Written(mem, ChunkSeq(src, dst, len), front);
      forall k | 0 <= k < |mem|
        ensures Post(m, ChunkAt(src, dst, len, last))[k] == ByteAfter(mem, src, dst, len, order, k)
      {
        PostByte(mem, m, src, dst, len, front, last, k);
      }
    }
  }

  lemma CopyAt<T>(mem: seq<T>, src: nat, dst: nat, len: nat, k: nat)
    requires src + len <= |mem| && dst + len <= |mem| && k < |mem|
    ensures Copy(mem, src, dst, len)[k] == if dst <= k < dst + len then mem[src + (k - dst)] else mem[k]
  {
  }

  /** One more chunk: its bytes come from the source range, which no chunk has touched. */
  lemma PostByte<T>(mem: seq<T>, m: seq<T>, src: nat, dst: nat, len: Word32, front: seq<nat>, last: nat, k: nat)
    requires |mem| <= U64 && src + len <= |mem| && dst + len <= |mem| && Disjoint(src, dst, len) && len > 0
    requires last < ChunkCount(len) && |m| == |mem| && k < |mem|
    requires forall i :: 0 <= i < |mem| ==> m[i] == ByteAfter(mem, src, dst, len, front, i)
    ensures Post(m, ChunkAt(src, dst, len, last))[k] == ByteAfter(mem, src, dst, len, front + [last], k)
  {
    var c := ChunkAt(src, dst, len, last);
    ChunkInside(src, dst, len, last);
    InChunk(dst, len, last, k);
    hide ChunkAt, Plus, ChunkCount, Copy;
    CopyAt(m, c.src, c.dst, c.len, k);
  }

  lemma ChunkInside(src: nat, dst: nat, len: Word32, i: nat)
    requires src + len <= U64 && dst + len <= U64 && i < ChunkCount(len) && len > 0
    ensures var c := ChunkAt(src, dst, len, i);
            && c.src == src + i * CHUNK_SIZE && c.dst == dst + i * CHUNK_SIZE
            && i * CHUNK_SIZE + c.len <= len
  {
  }

  /** A byte of the destination range belongs to the chunk its offset says. */
  lemma InChunk(dst: nat, len: Word32, i: nat, k: nat)
    requires i < ChunkCount(len)
    ensures var n := if len - i * CHUNK_SIZE > CHUNK_SIZE then CHUNK_SIZE else len - i * CHUNK_SIZE;
            dst + i * CHUNK_SIZE <= k < dst + i * CHUNK_SIZE + n
            <==> dst <= k < dst + len && (k - dst) / CHUNK_SIZE == i
  {
  }

  /**
   Chunked transfer is one copy: writing every chunk, in any order and even repeatedly,
   leaves the memory a single copy of the whole range leaves.
   */
  lemma AnyOrderIsOneCopy<T>(mem: seq<T>, src: nat, dst: nat, len: Word32, chunks: seq<Chunk>, order: seq<nat>)
    requires |mem| <= U64 && src + len <= |mem| && dst + len <= |mem| && Disjoint(src, dst, len) && len > 0
    requires Tiles(chunks, src, dst, len)
    requires Named(order, |chunks|)
    requires forall i: nat :: i < |chunks| ==> i in order
    ensures Written(mem, chunks, order) == Copy(mem, src, dst, len)
  {
    TilesUnique(chunks, src, dst, len);
    WrittenBytes(mem, src, dst, len, order);
    var m, c := Written(mem, chunks, order), Copy(mem, src, dst, len);
    forall k | 0 <= k < |mem| ensures m[k] == c[k] {
      hide *;
      CopyAt(mem, src, dst, len, k);
      WholeByte(mem, src, dst, len, order, k);
    }
  }

  lemma WholeByte<T>(mem: seq<T>, src: nat, dst: nat, len: Word32, order: seq<nat>, k: nat)
    requires src + len <= |mem| && dst + len <= |mem| && k < |mem|
    requires forall i: nat :: i < ChunkCount(len) ==> i in order
    ensures ByteAfter(mem, src, dst, len, order, k) == if dst <= k < dst + len then mem[src + (k - dst)] else mem[k]
  {
    ChunkOfByte(dst, len, k, ChunkCount(len));
  }

  lemma ChunkOfByte(dst: nat, len: Word32, k: nat, n: nat)
    requires n == ChunkCount(len)
    ensures dst <= k < dst + len ==> 0 <= (k - dst) / CHUNK_SIZE < n
  {
  }

  /** The bytes in the first `k` chunks. */
  function PrefixLength(len: Word32, k: nat): nat {
    if k * CHUNK_SIZE < len then k * CHUNK_SIZE else len
  }

  /** What a send has done when it stops after `k` chunks: exactly the first `k` chunks are copied. */
  lemma PrefixIsPartialCopy<T>(mem: seq<T>, src: nat, dst: nat, len: Word32, chunks: seq<Chunk>, posted: seq<nat>)
    requires |mem| <= U64 && src + len <= |mem| && dst + len <= |mem| && Disjoint(src, dst, len) && len > 0
    requires Tiles(chunks, src, dst, len) && |posted| <= |chunks|
    requires forall i :: 0 <= i < |posted| ==> posted[i] == i
    ensures Named(posted, |chunks|)
    ensures Written(mem, chunks, posted) == Copy(mem, src, dst, PrefixLength(len, |posted|))
    ensures |posted| == |chunks| ==> PrefixLength(len, |posted|) == len
  {
    TilesUnique(chunks, src, dst, len);
    WrittenBytes(mem, src, dst, len, posted);
    var done := PrefixLength(len, |posted|);
    var m, c := Written(mem, chunks, posted), Copy(mem, src, dst, done);
    PrefixWhole(len, |chunks|);
    hide Written, Copy, ChunkSeq, Tiles, Named, ChunkCount;
    forall k | 0 <= k < |mem| ensures m[k] == c[k] {
      CopyAt(mem, src, dst, done, k);
      if dst <= k < dst + len {
        var i := (k - dst) / CHUNK_SIZE;
        InPrefix(dst, len, |posted|, k);
        assert i < |posted| ==> posted[i] == i;
      }
    }
  }

  lemma PrefixWhole(len: Word32, n: nat)
    requires n == ChunkCount(len)
    ensures PrefixLength(len, n) == len
  {
  }

  lemma InPrefix(dst: nat, len: Word32, p: nat, k: nat)
    requires dst <= k < dst + len
    ensures 0 <= (k - dst) / CHUNK_SIZE
    ensures (k - dst) / CHUNK_SIZE < p <==> k < dst + PrefixLength(len, p)
  {
  }
}
