/**
 The 64-bit word that travels with every write, the tasks built from it, and how a
 completion finds the request it belongs to.
 */
module UserContext {
  import opened Base
  import opened ChunkSplit

  const NOT_SPLIT := 0
  const MIDDLE_CHUNK := 1
  const LAST_CHUNK := 2

  /** The fields of the word, low field first: 2, 6, 24 and 32 bits. */
  datatype UserData = UserData(chunkType: int, chunkId: int, chunkSize: int, requestId: int)

  predicate InRange(u: UserData) {
    0 <= u.chunkType < 4 && 0 <= u.chunkId < 64 && 0 <= u.chunkSize < 0x100_0000 && 0 <= u.requestId < U32
  }

  /** Assigning to bit fields keeps the low bits of each value. */
  function Assigned(chunkType: nat, chunkId: nat, chunkSize: nat, requestId: nat): UserData {
    UserData(chunkType % 4, chunkId % 64, chunkSize % 0x100_0000, requestId % U32)
  }

  function Pack(u: UserData): Word64
    requires InRange(u)
  {
    u.chunkType + 4 * u.chunkId + 256 * u.chunkSize + U32 * u.requestId
  }

  function Unpack(w: Word64): UserData {
    UserData(w % 4, (w / 4) % 64, (w / 256) % 0x100_0000, w / U32)
  }

  lemma SplitField(low: int, width: int, high: int)
    requires 0 <= low < width && width in {4, 64, 256, 0x100_0000, U32}
    ensures (low + width * high) / width == high && (low + width * high) % width == low
  {
  }

  /** Decoding undoes encoding. */
  lemma UnpackPack(u: UserData)
    requires InRange(u)
    ensures Unpack(Pack(u)) == u
  {
    var w := Pack(u);
    SplitField(u.chunkType, 4, u.chunkId + 64 * u.chunkSize + 0x4000_0000 * u.requestId);
    SplitField(u.chunkId, 64, u.chunkSize + 0x100_0000 * u.requestId);
    SplitField(u.chunkType + 4 * u.chunkId, 256, u.chunkSize + 0x100_0000 * u.requestId);
    SplitField(u.chunkSize, 0x100_0000, u.requestId);
    SplitField(u.chunkType + 4 * u.chunkId + 256 * u.chunkSize, U32, u.requestId);
  }

  /** Every word is the encoding of what it decodes to. */
  lemma PackUnpack(w: Word64)
    ensures InRange(Unpack(w)) && Pack(Unpack(w)) == w
  {
    var a := w / 4;
    var b := w / 256;
    assert a / 64 == b;
    assert b / 0x100_0000 == w / U32;
    assert w == 4 * a + w % 4;
    assert a == 64 * b + a % 64;
    assert b == 0x100_0000 * (w / U32) + b % 0x100_0000;
  }

  // ----- the words of one send -----

  /** The word of chunk `i` under one of the two keys: chunk 0 is posted by the caller. */
  function ContextOf(chunks: seq<Chunk>, i: nat, key: Req): Word64
    requires i < |chunks|
  {
    if i == 0 then Pack(Assigned(NOT_SPLIT, 0, chunks[0].len, key))
    else Pack(Assigned(if i == |chunks| - 1 then LAST_CHUNK else MIDDLE_CHUNK, i, chunks[i].len, key))
  }

  /**
   For every chunk of any split the word decodes to the request, the length and the kind
   of the chunk; the chunk number comes back modulo 64.
   */
  lemma ContextDecodes(chunks: seq<Chunk>, src: Word64, dst: Word64, len: Word32, i: nat, key: Req)
    requires Tiles(chunks, src, dst, len) && i < |chunks|
    ensures Unpack(ContextOf(chunks, i, key))
            == UserData(if i == 0 then NOT_SPLIT else if i == |chunks| - 1 then LAST_CHUNK else MIDDLE_CHUNK,
                        i % 64, chunks[i].len, key)
  {
    var kind := if i == 0 then NOT_SPLIT else if i == |chunks| - 1 then LAST_CHUNK else MIDDLE_CHUNK;
    UnpackPack(Assigned(kind, i, chunks[i].len, key));
  }

  /** Chunk numbers tell the chunks of a send apart exactly when there are at most 64 of them. */
  lemma ChunkIdsDistinct(chunks: seq<Chunk>, src: Word64, dst: Word64, len: Word32, key: Req)
    requires Tiles(chunks, src, dst, len)
    ensures |chunks| <= 64
            <==> forall i: nat, j: nat :: i < j < |chunks| ==>
                   Unpack(ContextOf(chunks, i, key)).chunkId != Unpack(ContextOf(chunks, j, key)).chunkId
  {
    forall i: nat | i < |chunks| ensures Unpack(ContextOf(chunks, i, key)).chunkId == i % 64 {
      ContextDecodes(chunks, src, dst, len, i, key);
    }
    hide *;
    if |chunks| > 64 {
      assert Unpack(ContextOf(chunks, 0, key)).chunkId == Unpack(ContextOf(chunks, 64, key)).chunkId;
    } else {
      forall i: nat, j: nat | i < j < |chunks|
        ensures Unpack(ContextOf(chunks, i, key)).chunkId != Unpack(ContextOf(chunks, j, key)).chunkId
      {
        assert i % 64 == i && j % 64 == j;
      }
    }
  }

  // ----- the tasks of one send -----

  datatype SendArg = SendArg(server: Word64, client: Word64, chunk: Chunk, last: bool)

  datatype TaskEntry = TaskEntry(taskId: Word64, req: Req, arg: nat)

  /**
   `register_send_tasks` up to the submission: chunk 0 gets no task, task `i` sends chunk
   `i + 1`, under the server key as request id. Fewer than two chunks are refused.
   */
  method BuildSendTasks(chunks: array<Chunk>, serverKey: Req, clientKey: Req, gotMemory: bool)
      returns (args: array?<SendArg>, tasks: array?<TaskEntry>)
    requires chunks.Length < U64
    ensures args != null <==> chunks.Length >= 2 && gotMemory
    ensures tasks != null <==> args != null
    ensures args != null ==>
              && args.Length == tasks.Length == chunks.Length - 1
              && forall i :: 0 <= i < args.Length ==>
                   && args[i] == SendArg(ContextOf(chunks[..], i + 1, serverKey),
                                         ContextOf(chunks[..], i + 1, clientKey),
                                         chunks[i + 1], i + 1 == chunks.Length - 1)
                   && tasks[i] == TaskEntry(i + 1, serverKey, i)
  {
    if chunks.Length < 2 || !gotMemory {
      return null, null;
    }
    var n := chunks.Length - 1;
    var a := new SendArg[n](_ => SendArg(0, 0, Chunk(0, 0, 0), false));
    var t := new TaskEntry[n](_ => TaskEntry(0, 0, 0));
    var i := 0;
    while i < n
      invariant 0 <= i <= n
      invariant forall k :: 0 <= k < i ==>
                  a[k] == SendArg(ContextOf(chunks[..], k + 1, serverKey), ContextOf(chunks[..], k + 1, clientKey),
                                  chunks[k + 1], k + 1 == chunks.Length - 1)
      invariant forall k :: 0 <= k < i ==> t[k] == TaskEntry(k + 1, serverKey, k)
    {
      var chunkIdx := i + 1;
      var last := chunkIdx == chunks.Length - 1;
      var kind := if last then LAST_CHUNK else MIDDLE_CHUNK;
      a[i] := SendArg(Pack(Assigned(kind, chunkIdx, chunks[chunkIdx].len, serverKey)),
                      Pack(Assigned(kind, chunkIdx, chunks[chunkIdx].len, clientKey)),
                      chunks[chunkIdx], last);
      t[i] := TaskEntry(chunkIdx, serverKey, i);
      i := i + 1;
    }
    args, tasks := a, t;
  }

  // ----- completions -----

  datatype Opcode = WriteWithImm | SendDone | OtherOpcode(code: int)

  /** The request a completion wakes, if its opcode is known. */
  function WakeTarget(opcode: Opcode, immData: Word64, userCtx: Word64): Option<Req> {
    match opcode
    case WriteWithImm => Some(Unpack(immData).requestId)
    case SendDone => Some(Unpack(userCtx).requestId)
    case OtherOpcode(_) => None
  }

  /**
   Whichever chunk a write carried, its completion wakes the request its tasks were
   registered under: the server key at the sender, the client key at the peer.
   */
  lemma CompletionFindsRequest(chunks: seq<Chunk>, src: Word64, dst: Word64, len: Word32, i: nat,
                               serverKey: Req, clientKey: Req, other: Word64)
    requires Tiles(chunks, src, dst, len) && i < |chunks|
    ensures WakeTarget(SendDone, other, ContextOf(chunks, i, serverKey)) == Some(serverKey)
    ensures WakeTarget(WriteWithImm, ContextOf(chunks, i, clientKey), other) == Some(clientKey)
  {
    ContextDecodes(chunks, src, dst, len, i, serverKey);
    ContextDecodes(chunks, src, dst, len, i, clientKey);
  }

  /**
   A posted receive carries its bare request id as user context. Read as a packed word, that
   names request 0, which never runs: receives depend on the immediate data of the peer.
   */
  lemma BareIdDecodesToZero(request: Req, immData: Word64)
    ensures WakeTarget(SendDone, immData, request) == Some(0)
  {
  }
}
