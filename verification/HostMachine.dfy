/** The reads of all chunks in flight, as a state machine of one rank: the loader posts and reaps, the kernel
    completes, the cuda thread retires events and copies. Covers libaio (where a read may be submitted later, by the
    last-page thread) and io_uring (where all are submitted at once). */
module HostMachine {
  import opened RoundMath
  import opened DeviceMemory
  import opened Slices
  import opened HostReads

  datatype Read = Read(chunk: nat, thread: nat)

  /** A read that has not been retired: prepared, submitted, or completed with its event still queued. */
  datatype Stage = Prepared | Submitted | Completed

  datatype State = State(
    posted: int, copied: int, reaped: int,
    pending: map<Read, Stage>,
    unfinished: seq<int>,     // unfinished_cnt of each posted chunk
    host: Memory)

  datatype Step =
    | Post
    | Submit(read: Read)
    | Complete(read: Read, host: Memory)
    | Retire(read: Read)
    | Copy
    | Reap

  /** The bytes of the read arrive; up to the end of its last page, anything may. */
  ghost predicate Filled(u: Setup, r: Read, before: Memory, after: Memory)
    requires u.Valid() && r.chunk < |u.chunks|
  {
    var op := u.ReadOf(r.chunk, r.thread);
    && (forall a :: !(op.buffer <= a < op.buffer + op.size) ==> after(a) == before(a))
    && (forall a | op.buffer <= a < op.buffer + u.ThreadSize(r.chunk, r.thread) ::
          after(a) == u.content(op.fileIndex, op.fileOffset + (a - op.buffer)))
  }

  function NewReads(u: Setup, c: nat): map<Read, Stage>
    requires u.Valid() && c < |u.chunks|
  {
    map i | 0 <= i < u.Reads(c) :: Read(c, i) := Prepared
  }

  ghost predicate Init(v: State) {
    v.posted == v.copied == v.reaped == -1 && v.pending == map[] && v.unfinished == []
  }

  ghost predicate Next(u: Setup, v: State, w: State, step: Step)
    requires u.Valid()
  {
    match step
    case Post =>
      // csrc/loader_common.cpp:452-457: wait until the slot's previous chunk has been reaped
      && 0 <= v.posted + 1 < |u.chunks| && v.posted + 1 == |v.unfinished|
      && v.posted + 1 - Window(u.ioDepth) <= v.reaped
      && var c := v.posted + 1;
      && w == v.(posted := c, pending := v.pending + NewReads(u, c), unfinished := v.unfinished + [u.Reads(c)])
    case Submit(r) =>
      && r in v.pending && v.pending[r] == Prepared
      && w == v.(pending := v.pending[r := Submitted])
    case Complete(r, host) =>
      && r in v.pending && v.pending[r] == Submitted && r.chunk < |u.chunks|
      && Filled(u, r, v.host, host)
      && w == v.(pending := v.pending[r := Completed], host := host)
    case Retire(r) =>
      // only while the chunk at work has unfinished reads; the event may belong to another chunk
      && -1 <= v.copied < v.posted < |v.unfinished| && v.unfinished[v.copied + 1] > 0
      && r in v.pending && v.pending[r] == Completed && r.chunk < |v.unfinished|
      && w == v.(pending := v.pending - {r}, unfinished := v.unfinished[r.chunk := v.unfinished[r.chunk] - 1])
    case Copy =>
      && -1 <= v.copied < v.posted < |v.unfinished| && v.unfinished[v.copied + 1] == 0
      && w == v.(copied := v.copied + 1)
    case Reap =>
      && v.reaped < v.copied
      && w == v.(reaped := v.reaped + 1)
  }

  // ----- the invariant

  function Waiting(u: Setup, v: State, c: nat): set<nat>
    requires u.Valid() && c < |u.chunks|
  {
    set i | 0 <= i < u.Reads(c) && Read(c, i) in v.pending
  }

  /** The thread's part of the chunk's slot holds the bytes of the file. */
  ghost predicate Arrived(u: Setup, v: State, r: Read)
    requires u.Valid() && r.chunk < |u.chunks|
  {
    var op := u.ReadOf(r.chunk, r.thread);
    forall a | op.buffer <= a < op.buffer + u.ThreadSize(r.chunk, r.thread) ::
      v.host(a) == u.content(op.fileIndex, op.fileOffset + (a - op.buffer))
  }

  /** A read of a chunk that is posted and not reaped. */
  predicate Current(u: Setup, v: State, r: Read)
    requires u.Valid() && v.posted < |u.chunks|
  {
    v.reaped < r.chunk <= v.posted && r.thread < u.Reads(r.chunk)
  }

  ghost predicate Inv(u: Setup, v: State)
    requires u.Valid()
  {
    && -1 <= v.reaped <= v.copied <= v.posted < |u.chunks|
    && v.posted - v.reaped <= Window(u.ioDepth)
    && |v.unfinished| == v.posted + 1
    && (forall c | 0 <= c <= v.posted :: v.unfinished[c] == |Waiting(u, v, c)|)
    && (forall r | r in v.pending :: Current(u, v, r) && v.copied < r.chunk)
    && (forall r | Current(u, v, r) && (r in v.pending ==> v.pending[r] == Completed) :: Arrived(u, v, r))
  }

  // ----- host ranges

  /** A read of whole pages, no more of them than its thread's bytes need, that stays in the thread's share of its
      chunk's slot, inside the host buffer. */
  lemma ReadInSlot(u: Setup, r: Read)
    requires u.Valid() && r.chunk < |u.chunks| && r.thread < u.shape.numThreads
    ensures var op := u.ReadOf(r.chunk, r.thread);
      && u.SlotStart(r.chunk) <= op.buffer
      && op.buffer + op.size <= u.SlotStart(r.chunk) + u.shape.RankChunkSize() <= u.HostSize()
      && u.ThreadSize(r.chunk, r.thread) <= op.size <= u.shape.PaddedThread(u.chunks[r.chunk].size)
      && op.size % u.shape.threadAlignment == 0 && op.size < u.ThreadSize(r.chunk, r.thread) + u.shape.threadAlignment
      && op.fileOffset % u.shape.threadAlignment == 0
  {
    var s, c := u.shape, u.chunks[r.chunk];
    assert c in u.chunks;
    ThreadSliceFits(s, c.size, u.rank, r.thread);
    RoundUpIs(u.ThreadSize(r.chunk, r.thread), s.threadAlignment);
    SliceAligned(s, c.size, c.fileOffset, u.rank, r.thread);
    var pt := s.PaddedThread(c.size);
    SlotEnd(r.thread, s.numThreads, pt);
    MulLe(pt, s.threadChunkSize, s.numThreads);
    assert s.numThreads * pt == pt * s.numThreads;
    SlotEnd(u.Slot(r.chunk), u.ioDepth, s.RankChunkSize());
  }

  /** Two reads in flight never overlap in the host buffer. */
  lemma ReadsApart(u: Setup, r: Read, q: Read)
    requires u.Valid() && r.chunk < |u.chunks| && q.chunk < |u.chunks| && r != q
    requires r.thread < u.shape.numThreads && q.thread < u.shape.numThreads
    requires r.chunk < q.chunk + u.ioDepth && q.chunk < r.chunk + u.ioDepth
    ensures var a, b := u.ReadOf(r.chunk, r.thread), u.ReadOf(q.chunk, q.thread);
      a.buffer + a.size <= b.buffer || b.buffer + b.size <= a.buffer
  {
    ReadInSlot(u, r);
    ReadInSlot(u, q);
    if r.chunk == q.chunk {
      ThreadsApart(u, r.chunk, r.thread, q.thread);
    } else {
      SlotsDiffer(u.ioDepth, r.chunk, q.chunk);
      ShareApart(u.Slot(r.chunk), u.Slot(q.chunk), u.shape.RankChunkSize());
    }
  }

  /** Shares of equal width at different indices do not overlap. */
  lemma ShareApart(i: nat, j: nat, width: nat)
    requires i != j
    ensures i * width + width <= j * width || j * width + width <= i * width
  {
    if i < j {
      SlotEnd(i, j, width);
    } else {
      SlotEnd(j, i, width);
    }
  }

  lemma ThreadsApart(u: Setup, c: nat, i: nat, j: nat)
    requires u.Valid() && c < |u.chunks| && i != j
    ensures var s, size := u.shape, u.chunks[c].size;
      || s.ThreadOffset(size, i) + s.PaddedThread(size) <= s.ThreadOffset(size, j)
      || s.ThreadOffset(size, j) + s.PaddedThread(size) <= s.ThreadOffset(size, i)
  {
    ShareApart(i, j, u.shape.PaddedThread(u.chunks[c].size));
  }

  lemma ResiduesDiffer(n: nat, c: nat, k: nat)
    requires 0 < k < n
    ensures (c + k) % n != c % n
  {
    var q, r := c / n, c % n;
    assert c == q * n + r;
    if r + k < n {
      DivModUnique(c + k, n, q, r + k);
    } else {
      assert (q + 1) * n == q * n + n;
      DivModUnique(c + k, n, q + 1, r + k - n);
    }
  }

  lemma SlotsDiffer(n: nat, c: nat, d: nat)
    requires n > 0 && c != d && c < d + n && d < c + n
    ensures c % n != d % n
  {
    if c < d {
      ResiduesDiffer(n, c, d - c);
    } else {
      ResiduesDiffer(n, d, c - d);
    }
  }

  // ----- every step keeps the invariant

  lemma ReadsAtMostThreads(u: Setup, c: nat)
    requires u.Valid() && c < |u.chunks|
    ensures u.Reads(c) <= u.shape.numThreads
  {
    ReadsArePrefix(u.shape, u.chunks[c].size, u.rank, u.shape.numThreads);
  }

  function Below(n: nat): (s: set<nat>)
    ensures |s| == n
    ensures forall i: nat :: i in s <==> i < n
  {
    if n == 0 then {} else Below(n - 1) + {n - 1}
  }

  lemma NewReadsAre(u: Setup, c: nat, r: Read)
    requires u.Valid() && c < |u.chunks|
    ensures r in NewReads(u, c) <==> r.chunk == c && r.thread < u.Reads(c)
    ensures r in NewReads(u, c) ==> NewReads(u, c)[r] == Prepared
  {
    if r.chunk == c && r.thread < u.Reads(c) {
      assert Read(c, r.thread) in NewReads(u, c);
    }
  }

  lemma PostCounts(u: Setup, v: State, w: State, c: nat)
    requires u.Valid() && Inv(u, v) && Next(u, v, w, Post) && c <= w.posted
    ensures w.unfinished[c] == |Waiting(u, w, c)|
  {
    hide Arrived;
    var n := w.posted;
    forall i: nat ensures Read(c, i) in w.pending <==> Read(c, i) in v.pending || (c == n && i < u.Reads(n)) {
      NewReadsAre(u, n, Read(c, i));
    }
    if c < n {
      assert Waiting(u, w, c) == Waiting(u, v, c);
    } else {
      assert Waiting(u, w, n) == Below(u.Reads(n));
    }
  }

  lemma SameHost(u: Setup, v: State, w: State, r: Read)
    requires u.Valid() && r.chunk < |u.chunks| && w.host == v.host && Arrived(u, v, r)
    ensures Arrived(u, w, r)
  {
  }

  lemma PostKeeps(u: Setup, v: State, w: State)
    requires u.Valid() && Inv(u, v) && Next(u, v, w, Post)
    ensures Inv(u, w)
  {
    hide Arrived;
    var n := w.posted;
    forall c | 0 <= c <= n ensures w.unfinished[c] == |Waiting(u, w, c)| {
      PostCounts(u, v, w, c);
    }
    forall r | r in w.pending ensures Current(u, w, r) {
      NewReadsAre(u, n, r);
    }
    forall r | Current(u, w, r) && (r in w.pending ==> w.pending[r] == Completed) ensures Arrived(u, w, r) {
      NewReadsAre(u, n, r);
      assert Current(u, v, r);
      SameHost(u, v, w, r);
    }
  }

  lemma StageKeeps(u: Setup, v: State, w: State, r: Read, stage: Stage)
    requires u.Valid() && Inv(u, v) && r in v.pending
    requires w == v.(pending := v.pending[r := stage], host := w.host)
    ensures forall c | 0 <= c <= v.posted :: Waiting(u, w, c) == Waiting(u, v, c)
    ensures forall q | q in w.pending :: Current(u, w, q) && w.copied < q.chunk
  {
  }

  lemma CompleteKeeps(u: Setup, v: State, w: State, r: Read, host: Memory)
    requires u.Valid() && Inv(u, v) && Next(u, v, w, Complete(r, host))
    ensures Inv(u, w)
  {
    hide Arrived, Filled;
    StageKeeps(u, v, w, r, Completed);
    forall q | Current(u, w, q) && (q in w.pending ==> w.pending[q] == Completed) ensures Arrived(u, w, q) {
      if q != r {
        assert Current(u, v, q) && Current(u, v, r);
        ReadsAtMostThreads(u, q.chunk);
        ReadsAtMostThreads(u, r.chunk);
        OthersStay(u, v, w, r, q);
      } else {
        FilledArrives(u, v, w, r);
      }
    }
  }

  lemma FilledArrives(u: Setup, v: State, w: State, r: Read)
    requires u.Valid() && r.chunk < |u.chunks| && Filled(u, r, v.host, w.host)
    ensures Arrived(u, w, r)
  {
  }

  /** Filling one read's range leaves another one's as it is. */
  lemma OthersStay(u: Setup, v: State, w: State, r: Read, q: Read)
    requires u.Valid() && r.chunk < |u.chunks| && q.chunk < |u.chunks| && r != q
    requires r.thread < u.shape.numThreads && q.thread < u.shape.numThreads
    requires r.chunk < q.chunk + u.ioDepth && q.chunk < r.chunk + u.ioDepth
    requires Filled(u, r, v.host, w.host) && Arrived(u, v, q)
    ensures Arrived(u, w, q)
  {
    ReadsApart(u, r, q);
    ReadInSlot(u, q);
  }

  /** A chunk whose count has come down to zero has no pending read. */
  lemma NoneWaiting(u: Setup, v: State, r: Read)
    requires u.Valid() && Inv(u, v) && Current(u, v, r)
    ensures v.unfinished[r.chunk] == 0 ==> r !in v.pending
  {
    assert r in v.pending ==> r.thread in Waiting(u, v, r.chunk);
  }

  lemma WaitingLess(u: Setup, v: State, w: State, r: Read, c: nat)
    requires u.Valid() && c < |u.chunks| && r.chunk < |u.chunks| && r.thread < u.Reads(r.chunk)
    requires r in v.pending && w.pending == v.pending - {r}
    ensures Waiting(u, w, c) == Waiting(u, v, c) - (if c == r.chunk then {r.thread} else {})
    ensures c == r.chunk ==> r.thread in Waiting(u, v, c)
  {
  }

  lemma RetireCounts(u: Setup, v: State, w: State, r: Read)
    requires u.Valid() && Inv(u, v) && Next(u, v, w, Retire(r))
    ensures forall c | 0 <= c <= w.posted :: w.unfinished[c] == |Waiting(u, w, c)|
  {
    hide Arrived;
    assert Current(u, v, r);
    forall c | 0 <= c <= w.posted ensures w.unfinished[c] == |Waiting(u, w, c)| {
      WaitingLess(u, v, w, r, c);
    }
  }

  lemma RetireKeeps(u: Setup, v: State, w: State, r: Read)
    requires u.Valid() && Inv(u, v) && Next(u, v, w, Retire(r))
    ensures Inv(u, w)
  {
    hide Arrived;
    RetireCounts(u, v, w, r);
    forall q | Current(u, w, q) && (q in w.pending ==> w.pending[q] == Completed) ensures Arrived(u, w, q) {
      assert Current(u, v, q);
      SameHost(u, v, w, q);
    }
  }

  lemma CopyKeeps(u: Setup, v: State, w: State)
    requires u.Valid() && Inv(u, v) && Next(u, v, w, Copy)
    ensures Inv(u, w)
  {
    hide Arrived;
    var c := v.copied + 1;
    forall r | r in w.pending ensures Current(u, w, r) && w.copied < r.chunk {
      assert Current(u, v, r);
      NoneWaiting(u, v, r);
    }
    forall d | 0 <= d <= w.posted ensures w.unfinished[d] == |Waiting(u, w, d)| {
      assert Waiting(u, w, d) == Waiting(u, v, d);
    }
    forall q | Current(u, w, q) && (q in w.pending ==> w.pending[q] == Completed) ensures Arrived(u, w, q) {
      assert Current(u, v, q);
      SameHost(u, v, w, q);
    }
  }

  lemma SubmitKeeps(u: Setup, v: State, w: State, r: Read)
    requires u.Valid() && Inv(u, v) && Next(u, v, w, Submit(r))
    ensures Inv(u, w)
  {
    hide Arrived;
    StageKeeps(u, v, w, r, Submitted);
    forall q | Current(u, w, q) && (q in w.pending ==> w.pending[q] == Completed) ensures Arrived(u, w, q) {
      assert Current(u, v, q);
      SameHost(u, v, w, q);
    }
  }

  lemma ReapKeeps(u: Setup, v: State, w: State)
    requires u.Valid() && Inv(u, v) && Next(u, v, w, Reap)
    ensures Inv(u, w)
  {
    hide Arrived;
    forall d | 0 <= d <= w.posted ensures w.unfinished[d] == |Waiting(u, w, d)| {
      assert Waiting(u, w, d) == Waiting(u, v, d);
    }
    forall q | Current(u, w, q) && (q in w.pending ==> w.pending[q] == Completed) ensures Arrived(u, w, q) {
      assert Current(u, v, q);
      SameHost(u, v, w, q);
    }
  }

  lemma NextKeeps(u: Setup, v: State, w: State, step: Step)
    requires u.Valid() && Inv(u, v) && Next(u, v, w, step)
    ensures Inv(u, w)
  {
    hide Inv, Next;
    match step
    case Post => PostKeeps(u, v, w);
    case Submit(r) => SubmitKeeps(u, v, w, r);
    case Complete(r, host) => CompleteKeeps(u, v, w, r, host);
    case Retire(r) => RetireKeeps(u, v, w, r);
    case Copy => CopyKeeps(u, v, w);
    case Reap => ReapKeeps(u, v, w);
  }

  // ----- whole runs

  ghost predicate Run(u: Setup, states: seq<State>)
    requires u.Valid()
  {
    && states != [] && Init(states[0])
    && forall i, j | 0 <= i < |states| && 0 <= j < |states| && j == i + 1 :: Follows(u, states[i], states[j])
  }

  ghost predicate Follows(u: Setup, v: State, w: State)
    requires u.Valid()
  {
    exists step :: Next(u, v, w, step)
  }

  lemma {:induction false} RunKeeps(u: Setup, states: seq<State>, i: nat)
    requires u.Valid() && Run(u, states) && i < |states|
    ensures Inv(u, states[i])
  {
    if i > 0 {
      RunKeeps(u, states, i - 1);
      assert Follows(u, states[i - 1], states[i]);
      var step :| Next(u, states[i - 1], states[i], step);
      NextKeeps(u, states[i - 1], states[i], step);
    }
  }

  /** The chunk's slot holds the rank's part of the chunk, byte for byte. */
  ghost predicate HostHolds(u: Setup, host: Memory, c: nat)
    requires u.Valid() && c < |u.chunks|
  {
    var d := u.chunks[c];
    forall a | u.SlotStart(c) <= a < u.SlotStart(c) + u.shape.RankSize(d.size, u.rank) ::
      host(a) == u.content(d.fileIndex, d.fileOffset + u.shape.RankOffset(d.size, u.rank) + (a - u.SlotStart(c)))
  }

  lemma SlotFilled(u: Setup, v: State, c: nat)
    requires u.Valid() && Inv(u, v) && v.reaped < c <= v.posted && v.unfinished[c] == 0
    ensures HostHolds(u, v.host, c)
  {
    var s, size := u.shape, u.chunks[c].size;
    forall a | u.SlotStart(c) <= a < u.SlotStart(c) + s.RankSize(size, u.rank)
      ensures v.host(a) == u.content(u.chunks[c].fileIndex,
                                     u.chunks[c].fileOffset + s.RankOffset(size, u.rank) + (a - u.SlotStart(c)))
    {
      var t := ThreadSlicesMakeRank(s, size, u.rank, a - u.SlotStart(c));
      ReadsArePrefix(s, size, u.rank, s.numThreads);
      var r := Read(c, t);
      assert Current(u, v, r);
      NoneWaiting(u, v, r);
      assert Arrived(u, v, r);
    }
  }

  lemma CopiedAreFinished(u: Setup, v: State, c: nat)
    requires u.Valid() && Inv(u, v) && c <= v.copied
    ensures v.unfinished[c] == 0
  {
    assert Waiting(u, v, c) == {};
  }

  /** The copy of the chunk starts now, or has started and the chunk has not been reaped. */
  ghost predicate CopyMayRun(u: Setup, states: seq<State>, i: nat, c: nat)
    requires u.Valid() && i < |states|
  {
    || states[i].reaped < c <= states[i].copied
    || (i + 1 < |states| && Next(u, states[i], states[i + 1], Copy) && c == states[i].copied + 1)
  }

  /** From the moment when the cuda thread starts to copy a chunk until the chunk is reaped, its slot holds the rank's
      part of it: the copy to the device may read the slot at any time in between. */
  lemma CopyHasData(u: Setup, states: seq<State>, i: nat, c: nat)
    requires u.Valid() && Run(u, states) && i < |states|
    requires CopyMayRun(u, states, i, c)
    ensures c < |u.chunks| && HostHolds(u, states[i].host, c)
  {
    RunKeeps(u, states, i);
    if c <= states[i].copied {
      CopiedAreFinished(u, states[i], c);
    }
    SlotFilled(u, states[i], c);
  }

  /** Some read of the chunk has not been retired. */
  ghost predicate Awaited(v: State, c: int) {
    exists r | r in v.pending :: r.chunk == c
  }

  /** A chunk's count is the number of its reads that have not been retired: it never goes below zero, and a chunk with
      unfinished reads always has one to wait for. */
  lemma CountsAreReads(u: Setup, states: seq<State>, i: nat)
    requires u.Valid() && Run(u, states) && i < |states|
    ensures var v := states[i];
      && |v.unfinished| <= |u.chunks|
      && (forall c | 0 <= c < |v.unfinished| :: v.unfinished[c] == |Waiting(u, v, c)|)
      && (forall r | r in v.pending :: r.chunk < |v.unfinished| && v.unfinished[r.chunk] > 0)
      && (forall c | 0 <= c < |v.unfinished| && v.unfinished[c] != 0 :: Awaited(v, c))
      && (forall c | 0 <= c < |v.unfinished| :: 0 <= v.unfinished[c] <= u.shape.numThreads)
  {
    RunKeeps(u, states, i);
    var v := states[i];
    forall r | r in v.pending ensures r.chunk < |v.unfinished| && v.unfinished[r.chunk] > 0 {
      assert Current(u, v, r);
      assert r.thread in Waiting(u, v, r.chunk);
    }
    forall c | 0 <= c < |v.unfinished|
      ensures v.unfinished[c] != 0 ==> Awaited(v, c)
      ensures 0 <= v.unfinished[c] <= u.shape.numThreads
    {
      if v.unfinished[c] != 0 {
        var t :| t in Waiting(u, v, c);
        assert Read(c, t) in v.pending;
      }
      ReadsAtMostThreads(u, c);
      SubsetCount(Waiting(u, v, c), Below(u.Reads(c)));
    }
  }

  lemma SubsetCount<T>(a: set<T>, b: set<T>)
    requires a <= b
    ensures |a| <= |b|
  {
    assert b == a + (b - a);
  }

  /** At most min(ioDepth, 1024) chunks are between post and reap, and no two of them share a slot. */
  lemma SlotsExclusive(u: Setup, states: seq<State>, i: nat, c: nat, d: nat)
    requires u.Valid() && Run(u, states) && i < |states|
    requires states[i].reaped < c < d <= states[i].posted
    ensures states[i].posted - states[i].reaped <= u.ioDepth && states[i].posted - states[i].reaped <= 1024
    ensures u.Slot(c) != u.Slot(d)
  {
    RunKeeps(u, states, i);
    SlotsDiffer(u.ioDepth, c, d);
  }
}
