/** The in-memory backend's copies into the host buffer (csrc/loader_io_inmem.cpp:42-73): one task per thread slice. */
module MappedReads {
  import opened RoundMath
  import opened DeviceMemory
  import opened Slices
  import opened HostReads
  import opened HostMachine
  import opened ExecutorCore

  /** memcpy of `size` bytes of the mapped file to offset `target` of the host buffer. */
  datatype CopyTask = CopyTask(id: int, fileIndex: nat, source: nat, target: nat, size: nat)

  function CopyOf(u: Setup, c: nat, i: nat, id: int): CopyTask
    requires u.Valid() && c < |u.chunks|
  {
    var op := u.ReadOf(c, i);
    CopyTask(id, op.fileIndex, op.fileOffset, op.buffer, u.ThreadSize(c, i))
  }

  /** The loop of `post_read_chunk_inmem`. It never throws, and the first workerCnt entries of req_ids, which the cuda
      task reaps, are the ids of all the tasks it has submitted. */
  method SubmitCopies(u: Setup, c: nat, ids: RequestIds, reqIds: array<int>)
    returns (thrown: bool, tasks: seq<CopyTask>, workerCnt: nat)
    requires u.Valid() && c < |u.chunks| && ids.Valid() && reqIds.Length == u.shape.numThreads
    modifies ids, reqIds
    ensures ids.Valid() && !thrown
    ensures |tasks| == workerCnt == u.Reads(c) <= reqIds.Length
    ensures forall i | 0 <= i < u.shape.numThreads :: u.ThreadSize(c, i) > 0 <==> i < workerCnt
    ensures forall i | 0 <= i < workerCnt :: tasks[i] == CopyOf(u, c, i, reqIds[i])
    ensures forall i | 0 <= i < workerCnt :: reqIds[i] == NthId(old(ids.executorRequestId), i)
  {
    hide CopyOf;
    tasks, workerCnt := [], 0;
    var size := u.chunks[c].size;
    assert u.chunks[c] in u.chunks;
    for i := 0 to u.shape.numThreads
      invariant ids.Valid() && |tasks| == workerCnt == CountReads(u.shape, size, u.rank, i) <= i
      invariant ids.executorRequestId == NthId(old(ids.executorRequestId), workerCnt)
      invariant forall j | 0 <= j < workerCnt :: tasks[j] == CopyOf(u, c, j, reqIds[j])
      invariant forall j | 0 <= j < workerCnt :: reqIds[j] == NthId(old(ids.executorRequestId), j)
    {
      NextRead(u.shape, size, u.rank, i);
      ThreadSliceFits(u.shape, size, u.rank, i);
      if u.shape.PaddedThread(size) > u.shape.threadChunkSize {
        return true, tasks, workerCnt;
      }
      if u.ThreadSize(c, i) == 0 {
        continue;
      }
      reqIds[i] := ids.NextId();
      NthIdStep(old(ids.executorRequestId), workerCnt);
      tasks := tasks + [CopyOf(u, c, i, reqIds[i])];
      workerCnt := workerCnt + 1;
    }
    ReadsArePrefix(u.shape, size, u.rank, u.shape.numThreads);
    return false, tasks, workerCnt;
  }

  /** The task's bytes are in the host buffer. */
  ghost predicate Carried(content: Content, t: CopyTask, host: Memory) {
    forall a | t.target <= a < t.target + t.size :: host(a) == content(t.fileIndex, t.source + (a - t.target))
  }

  /** Different tasks of a chunk write different bytes, so they may run in any order and at once. */
  lemma CopiesApart(u: Setup, c: nat, i: nat, j: nat, id: int, jd: int)
    requires u.Valid() && c < |u.chunks| && i < j < u.shape.numThreads
    ensures var s, t := CopyOf(u, c, i, id), CopyOf(u, c, j, jd);
      s.target + s.size <= t.target && t.target + t.size <= u.SlotStart(c) + u.shape.RankChunkSize() <= u.HostSize()
  {
    ReadInSlot(u, Read(c, j));
    MulLe(i + 1, j, u.shape.PaddedThread(u.chunks[c].size));
    assert (i + 1) * u.shape.PaddedThread(u.chunks[c].size)
      == u.shape.PaddedThread(u.chunks[c].size) * i + u.shape.PaddedThread(u.chunks[c].size);
  }

  /** When all tasks of the chunk have run, the chunk's slot holds the rank's part of the chunk. */
  lemma CopiesFill(u: Setup, c: nat, tasks: seq<CopyTask>, ids: seq<int>, host: Memory, o: nat)
    requires u.Valid() && c < |u.chunks| && |tasks| == |ids| == u.Reads(c)
    requires forall i | 0 <= i < |tasks| :: tasks[i] == CopyOf(u, c, i, ids[i]) && Carried(u.content, tasks[i], host)
    requires o < u.shape.RankSize(u.chunks[c].size, u.rank)
    ensures host(u.SlotStart(c) + o) ==
      u.content(u.chunks[c].fileIndex, u.chunks[c].fileOffset + u.shape.RankOffset(u.chunks[c].size, u.rank) + o)
  {
    var s, size := u.shape, u.chunks[c].size;
    var i := ThreadSlicesMakeRank(s, size, u.rank, o);
    ReadsArePrefix(s, size, u.rank, s.numThreads);
    assert Carried(u.content, tasks[i], host);
  }

  lemma CopiesHold(u: Setup, c: nat, tasks: seq<CopyTask>, ids: seq<int>, host: Memory)
    requires u.Valid() && c < |u.chunks| && |tasks| == |ids| == u.Reads(c)
    requires forall i | 0 <= i < |tasks| :: tasks[i] == CopyOf(u, c, i, ids[i]) && Carried(u.content, tasks[i], host)
    ensures HostHolds(u, host, c)
  {
    forall a | u.SlotStart(c) <= a < u.SlotStart(c) + u.shape.RankSize(u.chunks[c].size, u.rank)
      ensures host(a) == u.content(u.chunks[c].fileIndex, u.chunks[c].fileOffset
                           + u.shape.RankOffset(u.chunks[c].size, u.rank) + (a - u.SlotStart(c)))
    {
      CopiesFill(u, c, tasks, ids, host, a - u.SlotStart(c));
    }
  }
}
