/** Reading chunks into the host buffer: csrc/loader_io_aio.cpp:57-126 and csrc/loader_io_uring.cpp:213-342.

    The loader posts chunks, the kernel completes their reads in any order, and the cuda thread retires completion
    events, of any chunk, until the chunk it works on has none left; then it copies that chunk's slot. */
module HostReads {
  import opened RoundMath
  import opened RingLayout
  import opened DeviceMemory
  import opened Slices

  /** One rank's setup. The host buffer has ioDepth slots of RankChunkSize bytes. */
  datatype Setup = Setup(shape: Shape, rank: nat, ioDepth: nat, chunks: seq<Chunk>, content: Content)
  {
    predicate Valid() {
      && shape.Valid() && rank < shape.worldSize && ioDepth > 0
      && forall c | c in chunks :: c.size <= shape.WorldChunkSize() && c.fileOffset % shape.threadAlignment == 0
    }

    function Slot(c: nat): nat
      requires Valid()
    {
      c % ioDepth
    }

    function SlotStart(c: nat): nat
      requires Valid()
    {
      Slot(c) * shape.RankChunkSize()
    }

    function HostSize(): nat {
      ioDepth * shape.RankChunkSize()
    }

    function ThreadSize(c: nat, i: nat): nat
      requires Valid() && c < |chunks|
    {
      shape.ThreadSize(chunks[c].size, rank, i)
    }

    /** How many threads have something to read. */
    function Reads(c: nat): nat
      requires Valid() && c < |chunks|
    {
      CountReads(shape, chunks[c].size, rank, shape.numThreads)
    }

    function ReadOf(c: nat, i: nat): ReadOp
      requires Valid() && c < |chunks|
    {
      var size := chunks[c].size;
      ReadOp(SlotStart(c) + shape.ThreadOffset(size, i),
             RoundUp(ThreadSize(c, i), shape.threadAlignment),
             chunks[c].fileIndex,
             chunks[c].fileOffset + shape.RankOffset(size, rank) + shape.ThreadOffset(size, i))
    }
  }

  /** A read of `size` bytes, a multiple of the page size, to offset `buffer` of the host buffer. */
  datatype ReadOp = ReadOp(buffer: nat, size: nat, fileIndex: nat, fileOffset: nat)

  function CountReads(s: Shape, size: nat, rank: nat, threads: nat): nat
    requires s.Valid()
  {
    if threads == 0 then 0
    else CountReads(s, size, rank, threads - 1) + if s.ThreadSize(size, rank, threads - 1) > 0 then 1 else 0
  }

  /** The threads that read are the first CountReads ones. */
  lemma {:induction false} ReadsArePrefix(s: Shape, size: nat, rank: nat, threads: nat)
    requires s.Valid()
    ensures CountReads(s, size, rank, threads) <= threads
    ensures forall i | 0 <= i < threads :: s.ThreadSize(size, rank, i) > 0 <==> i < CountReads(s, size, rank, threads)
  {
    if threads > 0 {
      ReadsArePrefix(s, size, rank, threads - 1);
      forall i: nat | i < threads && s.ThreadSize(size, rank, i) == 0
        ensures s.ThreadSize(size, rank, threads - 1) == 0
      {
        NonEmptyPrefix(s, size, rank, i, threads - 1);
      }
    }
  }

  /** While the threads are visited in order, none that reads comes after one that does not. */
  lemma NextRead(s: Shape, size: nat, rank: nat, i: nat)
    requires s.Valid()
    ensures CountReads(s, size, rank, i) <= i
    ensures s.ThreadSize(size, rank, i) > 0 ==> CountReads(s, size, rank, i) == i
  {
    ReadsArePrefix(s, size, rank, i);
    ReadsArePrefix(s, size, rank, i + 1);
  }

  // ----- preparing the reads

  lemma AlignedIff(x: nat, y: nat)
    requires y > 0
    ensures x == RoundUp(x, y) <==> x % y == 0
  {
    RoundUpIs(x, y);
    if x % y == 0 {
      RoundUpMultiple(x, y);
    }
  }

  /** The loop of `post_read_chunk_aio`: iocb slot * numThreads + i is prepared for thread i; the submission later
      takes the first `count` iocbs from slot * numThreads on. */
  method PrepareIocbs(u: Setup, c: nat, iocbs: array<ReadOp>) returns (count: nat, unalignedLastPage: bool)
    requires u.Valid() && c < |u.chunks| && iocbs.Length == u.ioDepth * u.shape.numThreads
    modifies iocbs
    ensures count == u.Reads(c) <= u.shape.numThreads
    ensures forall i | 0 <= i < u.shape.numThreads :: u.ThreadSize(c, i) > 0 <==> i < count
    ensures var base := u.Slot(c) * u.shape.numThreads;
      && base + u.shape.numThreads <= iocbs.Length
      && (forall i | 0 <= i < count :: iocbs[base + i] == u.ReadOf(c, i))
      && (forall k | 0 <= k < iocbs.Length && (k < base || base + u.shape.numThreads <= k) :: iocbs[k] == old(iocbs[k]))
    ensures unalignedLastPage <==>
      exists i | 0 <= i < u.shape.numThreads :: u.ThreadSize(c, i) % u.shape.threadAlignment != 0
  {
    SlotEnd(u.Slot(c), u.ioDepth, u.shape.numThreads);
    count, unalignedLastPage := FillIocbs(u, c, iocbs, u.Slot(c) * u.shape.numThreads);
    ReadsArePrefix(u.shape, u.chunks[c].size, u.rank, u.shape.numThreads);
  }

  method FillIocbs(u: Setup, c: nat, iocbs: array<ReadOp>, base: nat) returns (count: nat, unalignedLastPage: bool)
    requires u.Valid() && c < |u.chunks| && base + u.shape.numThreads <= iocbs.Length
    modifies iocbs
    ensures count == u.Reads(c) <= u.shape.numThreads
    ensures forall i | 0 <= i < count :: iocbs[base + i] == u.ReadOf(c, i)
    ensures forall k | 0 <= k < iocbs.Length && (k < base || base + u.shape.numThreads <= k) ::
              iocbs[k] == old(iocbs[k])
    ensures unalignedLastPage <==>
      exists i | 0 <= i < u.shape.numThreads :: u.ThreadSize(c, i) % u.shape.threadAlignment != 0
  {
    count, unalignedLastPage := 0, false;
    for i := 0 to u.shape.numThreads
      invariant count == CountReads(u.shape, u.chunks[c].size, u.rank, i) <= i
      invariant forall j | 0 <= j < count :: iocbs[base + j] == u.ReadOf(c, j)
      invariant forall k | 0 <= k < iocbs.Length && (k < base || base + u.shape.numThreads <= k) ::
                  iocbs[k] == old(iocbs[k])
      invariant unalignedLastPage <==> exists j | 0 <= j < i :: u.ThreadSize(c, j) % u.shape.threadAlignment != 0
    {
      NextRead(u.shape, u.chunks[c].size, u.rank, i);
      var threadSize := u.ThreadSize(c, i);
      AlignedIff(threadSize, u.shape.threadAlignment);
      if threadSize != RoundUp(threadSize, u.shape.threadAlignment) {
        unalignedLastPage := true;
      }
      if threadSize > 0 {
        iocbs[base + i] := u.ReadOf(c, i);
        count := count + 1;
      }
    }
  }

  lemma SlotEnd(slot: nat, slots: nat, width: nat)
    requires slot < slots
    ensures slot * width + width == (slot + 1) * width <= slots * width
  {
    MulLe(slot + 1, slots, width);
    assert (slot + 1) * width == slot * width + width;
  }

  /** The loop of `post_read_chunk_uring`: the reads in thread order. */
  method CollectOps(u: Setup, c: nat) returns (ops: seq<ReadOp>)
    requires u.Valid() && c < |u.chunks|
    ensures |ops| == u.Reads(c)
    ensures forall i | 0 <= i < u.shape.numThreads :: u.ThreadSize(c, i) > 0 <==> i < |ops|
    ensures forall i | 0 <= i < |ops| :: ops[i] == u.ReadOf(c, i)
  {
    ops := [];
    for i := 0 to u.shape.numThreads
      invariant |ops| == CountReads(u.shape, u.chunks[c].size, u.rank, i)
      invariant forall j | 0 <= j < |ops| :: ops[j] == u.ReadOf(c, j)
    {
      NextRead(u.shape, u.chunks[c].size, u.rank, i);
      if u.ThreadSize(c, i) == 0 {
        continue;
      }
      ops := ops + [u.ReadOf(c, i)];
    }
    ReadsArePrefix(u.shape, u.chunks[c].size, u.rank, u.shape.numThreads);
  }

  /** The harvest loops: every event lowers the count of its own chunk, whichever chunk the caller waits for. */
  method RetireEvents(unfinished: array<nat>, events: seq<nat>)
    requires forall e | e in events :: e < unfinished.Length
    requires forall c | 0 <= c < unfinished.Length :: multiset(events)[c] <= unfinished[c]
    modifies unfinished
    ensures forall c | 0 <= c < unfinished.Length :: unfinished[c] + multiset(events)[c] == old(unfinished[c])
  {
    for i := 0 to |events|
      invariant forall c | 0 <= c < unfinished.Length :: unfinished[c] + multiset(events[..i])[c] == old(unfinished[c])
    {
      assert events[..i + 1] == events[..i] + [events[i]];
      assert events == events[..i + 1] + events[i + 1..];
      assert multiset(events) == multiset(events[..i + 1]) + multiset(events[i + 1..]);
      assert events[i] in events;
      unfinished[events[i]] := unfinished[events[i]] - 1;
    }
    assert events[..|events|] == events;
  }
}
