/** The passes over the ring: in which one each tensor is placed and each chunk emitted, and what a prefetch chunk then
    means exactly. The loader keeps no such numbers; they are read off the run of the planner. */
module RingPasses {
  import opened RoundMath
  import opened RingLayout
  import opened RingSafety
  import opened RingRun

  /** The current pass, the passes of the tensors placed and of the chunks emitted so far. */
  datatype Passes = Passes(current: nat, tensors: seq<nat>, chunks: seq<nat>)

  /** The sequence, extended to n elements with `pass`. */
  function Filled(s: seq<nat>, n: nat, pass: nat): (t: seq<nat>)
    requires |s| <= n
    ensures |t| == n && t[..|s|] == s
    ensures forall c | |s| <= c < n :: t[c] == pass
  {
    s + seq(n - |s|, _ => pass)
  }

  // ----- the numbering

  /** What emitting the pending chunk does to the numbering. */
  function FinishPasses(ring: Ring, p: Plan, k: Passes): (l: Passes)
    requires ring.Valid() && Indexed(p) && |k.chunks| == |p.chunks|
    ensures |l.chunks| == |Finish(ring, p).chunks|
  {
    k.(chunks := Filled(k.chunks, |Finish(ring, p).chunks|, k.current))
  }

  /** What appending bytes does to the numbering. */
  function AppendPasses(ring: Ring, p: Plan, k: Passes, left: nat): (l: Passes)
    requires ring.Valid() && Indexed(p) && p.size <= ring.worldChunkSize && |k.chunks| == |p.chunks|
    ensures |l.chunks| == |Append(ring, p, left).chunks|
  {
    AppendMoves(ring, p, left);
    k.(chunks := Filled(k.chunks, |Append(ring, p, left).chunks|, k.current))
  }

  /** What placing a tensor does to the numbering. */
  function PlacePasses(ring: Ring, p: Plan, k: Passes, size: nat): (l: Passes)
    requires ring.Valid() && Indexed(p) && p.size <= ring.worldChunkSize && |k.chunks| == |p.chunks|
    ensures |l.chunks| == |Append(ring, p, size).chunks|
  {
    var l := AppendPasses(ring, p, k, size);
    l.(tensors := l.tensors + [l.current])
  }

  /** What making room for a tensor does: only one that does not fit starts a pass, after the pending chunk. */
  function RoomPasses(ring: Ring, p: Plan, k: Passes, size: nat): (l: Passes)
    requires ring.Valid() && Indexed(p) && |k.chunks| == |p.chunks|
    ensures |l.chunks| == |MakeRoom(ring, p, size).chunks|
  {
    if Fits(ring, p, size) then k else
      var l := FinishPasses(ring, p, k);
      l.(current := k.current + 1)
  }

  /** Iteration i of the loop. */
  function PassStep(ring: Ring, entries: seq<Entry>, i: nat, p: Plan, k: Passes): (l: Passes)
    requires ring.Valid() && i + 1 < |entries| && Indexed(p) && p.size <= ring.worldChunkSize
    requires |k.chunks| == |p.chunks|
    ensures |l.chunks| == |Step(ring, entries, i, p).chunks|
  {
    if !TensorAt(entries, i) then
      FinishPasses(ring, p, k)
    else
      var size := if entries[i].offset <= entries[i + 1].offset then entries[i + 1].offset - entries[i].offset else 0;
      PlacePasses(ring, MakeRoom(ring, p, size), RoomPasses(ring, p, k, size), size)
  }

  function PassRun(ring: Ring, entries: seq<Entry>, i: nat): (k: Passes)
    requires ring.Valid() && i < |entries|
    ensures |k.chunks| == |Run(ring, entries, i).chunks|
  {
    if i == 0 then Passes(0, [], [])
    else PassStep(ring, entries, i - 1, Run(ring, entries, i - 1), PassRun(ring, entries, i - 1))
  }

  /** The tables when the last chunk has been emitted; what follows only sets prefetch chunks. */
  function Emitted(ring: Ring, entries: seq<Entry>): (f: Plan)
    requires ring.Valid() && |entries| > 0
    ensures Indexed(f)
  {
    Finish(ring, Run(ring, entries, |entries| - 1))
  }

  lemma LayoutEnds(ring: Ring, entries: seq<Entry>)
    requires ring.Valid() && |entries| > 0
    ensures var f := Emitted(ring, entries); Layout(ring, entries) == Wrap(Wrap(f, |f.tensors|), |f.tensors|)
  {
  }

  /** The passes of the whole layout. */
  function LayoutPasses(ring: Ring, entries: seq<Entry>): (k: Passes)
    requires ring.Valid() && |entries| > 0
    ensures |k.chunks| == |Layout(ring, entries).chunks|
  {
    LayoutEnds(ring, entries);
    FinishPasses(ring, Run(ring, entries, |entries| - 1), PassRun(ring, entries, |entries| - 1))
  }

  // ----- what holds of them

  /** The file of the chunk before chunk n, or the first file. */
  function FileBefore(chunks: seq<Chunk>, n: nat): nat
    requires n <= |chunks|
  {
    if n == 0 then 0 else chunks[n - 1].fileIndex
  }

  /** Opening a file leaves a gap of at most this many bytes in the ring. */
  const MAX_FILE_GAP: nat := 2 * FIRST_TENSOR_ALIGNMENT - 1

  /** The first chunk that may not be prefetched yet while tensor j is in use. */
  function Next(p: Plan, j: nat): int
    requires j < |p.tensors|
  {
    if j < p.inBuffer then p.tensors[j].prefetchChunk + 1 else |p.chunks|
  }

  /** Chunk c may be prefetched while the tensor is in use: it belongs to the pass after the tensor's at the latest, and
      if it belongs to that pass, it ends before the tensor. */
  predicate Clears(ring: Ring, chunks: seq<Chunk>, passes: seq<nat>, t: Tensor, pass: nat, c: nat)
    requires ring.Valid() && c < |chunks| == |passes|
  {
    passes[c] <= pass + 1 && (passes[c] == pass + 1 ==> PaddedEnd(ring, chunks[c]) <= t.deviceOffset)
  }

  /** Chunk c may not: it ends behind the tensor's start in the pass after the tensor's, or belongs to a later pass. */
  predicate Stops(ring: Ring, chunks: seq<Chunk>, passes: seq<nat>, t: Tensor, pass: nat, c: nat)
    requires ring.Valid() && c < |chunks| == |passes|
  {
    || (passes[c] == pass + 1 && t.deviceOffset < PaddedEnd(ring, chunks[c]))
    || passes[c] > pass + 1
  }

  /** An offset is not behind the tensor's start by more than the gaps of the files opened since chunk n - 1. */
  predicate NotPast(t: Tensor, offset: int, file: nat, chunks: seq<Chunk>, n: nat)
    requires n <= |chunks|
  {
    offset <= t.deviceOffset + MAX_FILE_GAP * (file - FileBefore(chunks, n))
  }

  ghost predicate TensorPassed(ring: Ring, p: Plan, k: Passes, j: nat)
    requires ring.Valid() && j < |p.tensors| == |k.tensors| && |k.chunks| == |p.chunks|
  {
    var t, n, m, pass := p.tensors[j], |p.chunks|, Next(p, j), k.tensors[j];
    && 0 <= m <= n
    && t.deviceOffset >= FIRST_TENSOR_ALIGNMENT
    && (j < p.inBuffer ==> pass < k.current)
    && (p.inBuffer <= j < p.leftMost ==> pass + 1 == k.current)
    && (p.leftMost <= j ==> pass == k.current && t.deviceOffset <= p.deviceOffset + p.size)
    && (forall c: nat | c < m :: Clears(ring, p.chunks, k.chunks, t, pass, c))
    && (m < n ==> Stops(ring, p.chunks, k.chunks, t, pass, m))
    && (m < n ==> NotPast(t, p.chunks[m].deviceOffset, p.chunks[m].fileIndex, p.chunks, m))
    && (m == n && j < p.leftMost ==> NotPast(t, p.deviceOffset, p.fileIndex, p.chunks, n))
    && (m == n && j < p.inBuffer ==> pass + 1 < k.current)
    && 0 <= t.lastChunk <= n
    && (forall c: nat | t.lastChunk <= c < n :: NoEarlier(pass, k.chunks, c))
  }

  predicate NoEarlier(pass: nat, passes: seq<nat>, c: nat)
    requires c < |passes|
  {
    pass <= passes[c]
  }

  predicate ChunkPassed(ring: Ring, p: Plan, k: Passes, c: nat)
    requires ring.Valid() && c < |p.chunks| == |k.chunks|
  {
    && k.chunks[c] <= k.current
    && (k.chunks[c] == k.current ==> PaddedEnd(ring, p.chunks[c]) <= p.deviceOffset)
    && p.chunks[c].fileIndex <= p.fileIndex
  }

  /** Chunks are emitted pass by pass, and within a pass from left to right without overlap. */
  predicate ChunksInOrder(ring: Ring, chunks: seq<Chunk>, passes: seq<nat>, c: nat, d: nat)
    requires ring.Valid() && c < |chunks| == |passes| && d < |chunks|
  {
    passes[c] <= passes[d] && (passes[c] == passes[d] ==> PaddedEnd(ring, chunks[c]) <= chunks[d].deviceOffset)
  }

  predicate TensorsInOrder(tensors: seq<Tensor>, passes: seq<nat>, i: nat, j: nat)
    requires i < |tensors| == |passes| && j < |tensors|
  {
    passes[i] == passes[j] ==> tensors[i].deviceOffset <= tensors[j].deviceOffset
  }

  ghost predicate Passed(ring: Ring, p: Plan, k: Passes)
    requires ring.Valid()
  {
    && Indexed(p) && |k.tensors| == |p.tensors| && |k.chunks| == |p.chunks|
    && p.deviceOffset + p.size >= FIRST_TENSOR_ALIGNMENT
    && (forall j: nat | j < |p.tensors| :: TensorPassed(ring, p, k, j))
    && (forall c: nat | c < |p.chunks| :: ChunkPassed(ring, p, k, c))
    && (forall c: nat, d: nat | c < d < |p.chunks| :: ChunksInOrder(ring, p.chunks, k.chunks, c, d))
    && (forall i: nat, j: nat | i < j < |p.tensors| :: TensorsInOrder(p.tensors, k.tensors, i, j))
  }

  // ----- every operation of the planner keeps it

  lemma FinishTensor(ring: Ring, p: Plan, k: Passes, j: nat)
    requires ring.Valid() && Passed(ring, p, k) && p.size > 0 && j < |p.tensors|
    ensures TensorPassed(ring, Finish(ring, p), FinishPasses(ring, p, k), j)
  {
    var q, l, n := Finish(ring, p), FinishPasses(ring, p, k), |p.chunks|;
    var t, end := p.tensors[j], q.deviceOffset;
    assert TensorPassed(ring, p, k, j);
    RoundUpIs(p.size, ring.worldChunkAlignment);
    assert PaddedEnd(ring, q.chunks[n]) == end && l.chunks[n] == k.current;
    KeptBeyond(ring, p, k, j);
    forall c: nat | c < Next(q, j) ensures Clears(ring, q.chunks, l.chunks, q.tensors[j], l.tensors[j], c) {
      if c < n {
        assert Clears(ring, p.chunks, k.chunks, t, k.tensors[j], c);
      }
    }
    forall c: nat | t.lastChunk <= c <= n ensures NoEarlier(l.tensors[j], l.chunks, c) {
      if c < n {
        assert NoEarlier(k.tensors[j], k.chunks, c);
      }
    }
  }

  /** Tensors of the previous pass that do not get their prefetch chunk lie behind the end of the new chunk. */
  lemma KeptBeyond(ring: Ring, p: Plan, k: Passes, j: nat)
    requires ring.Valid() && Passed(ring, p, k) && p.size > 0 && j < |p.tensors|
    ensures Finish(ring, p).inBuffer <= j < p.leftMost ==> Finish(ring, p).deviceOffset <= p.tensors[j].deviceOffset
  {
    var kept := Finish(ring, p).inBuffer;
    if kept < j < p.leftMost {
      assert TensorPassed(ring, p, k, kept) && TensorPassed(ring, p, k, j);
      assert TensorsInOrder(p.tensors, k.tensors, kept, j);
    }
  }

  lemma FinishPassed(ring: Ring, p: Plan, k: Passes)
    requires ring.Valid() && Passed(ring, p, k)
    ensures var q := Finish(ring, p);
      && Passed(ring, q, FinishPasses(ring, p, k))
      && forall j: nat | p.leftMost <= j < |p.tensors| :: q.tensors[j].deviceOffset <= q.deviceOffset
  {
    var q, l, n := Finish(ring, p), FinishPasses(ring, p, k), |p.chunks|;
    if p.size > 0 {
      RoundUpIs(p.size, ring.worldChunkAlignment);
      forall j: nat | j < |q.tensors| ensures TensorPassed(ring, q, l, j) {
        FinishTensor(ring, p, k, j);
      }
      forall c: nat | c < |q.chunks| ensures ChunkPassed(ring, q, l, c) {
        if c < n {
          assert ChunkPassed(ring, p, k, c);
        }
      }
      forall c: nat, d: nat | c < d < |q.chunks| ensures ChunksInOrder(ring, q.chunks, l.chunks, c, d) {
        if d < n {
          assert ChunksInOrder(ring, p.chunks, k.chunks, c, d);
        } else {
          assert ChunkPassed(ring, p, k, c);
        }
      }
      forall i: nat, j: nat | i < j < |q.tensors| ensures TensorsInOrder(q.tensors, l.tensors, i, j) {
        assert TensorsInOrder(p.tensors, k.tensors, i, j);
      }
    } else {
      assert l.chunks == k.chunks;
    }
    forall j: nat | p.leftMost <= j < |p.tensors| ensures q.tensors[j].deviceOffset <= q.deviceOffset {
      assert TensorPassed(ring, p, k, j);
    }
  }

  lemma GapIs(size: nat)
    ensures AlignGap(size) + size >= FIRST_TENSOR_ALIGNMENT
  {
    assert (AlignGap(size) + size) % FIRST_TENSOR_ALIGNMENT == 0;
  }

  lemma WrapPassed(ring: Ring, p: Plan, k: Passes)
    requires ring.Valid() && Passed(ring, p, k)
    ensures Passed(ring, Wrap(p, |p.tensors|), k.(current := k.current + 1))
  {
    var q, l := Wrap(p, |p.tensors|), k.(current := k.current + 1);
    GapIs(p.size);
    forall j: nat | j < |q.tensors| ensures TensorPassed(ring, q, l, j) {
      WrapTensor(ring, p, k, j);
    }
    forall c: nat | c < |q.chunks| ensures ChunkPassed(ring, q, l, c) {
      assert ChunkPassed(ring, p, k, c);
    }
    forall i: nat, j: nat | i < j < |q.tensors| ensures TensorsInOrder(q.tensors, l.tensors, i, j) {
      assert TensorsInOrder(p.tensors, k.tensors, i, j);
    }
    forall c: nat, d: nat | c < d < |q.chunks| ensures ChunksInOrder(ring, q.chunks, l.chunks, c, d) {
      assert ChunksInOrder(ring, p.chunks, k.chunks, c, d);
    }
  }

  lemma WrapTensor(ring: Ring, p: Plan, k: Passes, j: nat)
    requires ring.Valid() && Passed(ring, p, k) && j < |p.tensors|
    ensures TensorPassed(ring, Wrap(p, |p.tensors|), k.(current := k.current + 1), j)
  {
    var q, n := Wrap(p, |p.tensors|), |p.chunks|;
    assert TensorPassed(ring, p, k, j);
    assert Next(q, j) == Next(p, j);
    if n > 0 {
      assert ChunkPassed(ring, p, k, n - 1);
    }
    forall c: nat | c < Next(q, j)
      ensures Clears(ring, q.chunks, k.chunks, q.tensors[j], k.tensors[j], c)
    {
      assert Clears(ring, p.chunks, k.chunks, p.tensors[j], k.tensors[j], c);
    }
    forall c: nat | p.tensors[j].lastChunk <= c < n ensures NoEarlier(k.tensors[j], k.chunks, c) {
    }
  }

  lemma OpenPassed(ring: Ring, p: Plan, k: Passes, e: Entry)
    requires ring.Valid() && Passed(ring, p, k) && e.file == p.fileIndex + 1
    requires forall j: nat | p.leftMost <= j < |p.tensors| :: p.tensors[j].deviceOffset <= p.deviceOffset
    ensures Passed(ring, OpenFile(ring, p, e), k)
  {
    var q := OpenFile(ring, p, e);
    GapIs(q.size);
    RoundUpIs(p.deviceOffset, FIRST_TENSOR_ALIGNMENT);
    forall j: nat | j < |q.tensors| ensures TensorPassed(ring, q, k, j) {
      OpenTensor(ring, p, k, e, j);
    }
    forall c: nat | c < |q.chunks| ensures ChunkPassed(ring, q, k, c) {
      assert ChunkPassed(ring, p, k, c);
    }
  }

  lemma OpenTensor(ring: Ring, p: Plan, k: Passes, e: Entry, j: nat)
    requires ring.Valid() && Passed(ring, p, k) && e.file == p.fileIndex + 1 && j < |p.tensors|
    requires p.leftMost <= j ==> p.tensors[j].deviceOffset <= p.deviceOffset
    ensures TensorPassed(ring, OpenFile(ring, p, e), k, j)
  {
    var q := OpenFile(ring, p, e);
    RoundUpIs(p.deviceOffset, FIRST_TENSOR_ALIGNMENT);
    assert TensorPassed(ring, p, k, j);
    assert q.deviceOffset <= p.deviceOffset + MAX_FILE_GAP;
  }

  lemma GrowPassed(ring: Ring, p: Plan, k: Passes, size: nat)
    requires ring.Valid() && Passed(ring, p, k) && p.size <= size
    ensures Passed(ring, p.(size := size), k)
  {
    var q := p.(size := size);
    forall j: nat | j < |q.tensors| ensures TensorPassed(ring, q, k, j) {
      assert TensorPassed(ring, p, k, j);
    }
    forall c: nat | c < |q.chunks| ensures ChunkPassed(ring, q, k, c) {
      assert ChunkPassed(ring, p, k, c);
    }
  }

  lemma AppendPassed(ring: Ring, p: Plan, k: Passes, left: nat)
    requires ring.Valid() && p.size <= ring.worldChunkSize && Passed(ring, p, k)
    ensures Passed(ring, Append(ring, p, left), AppendPasses(ring, p, k, left))
    decreases p.size + left
  {
    if p.size + left > ring.worldChunkSize {
      var full, rest := p.(size := ring.worldChunkSize), p.size + left - ring.worldChunkSize;
      FinishSize(ring, full);
      GrowPassed(ring, p, k, ring.worldChunkSize);
      FinishPassed(ring, full, k);
      AppendPassed(ring, Finish(ring, full), FinishPasses(ring, full, k), rest);
      assert AppendPasses(ring, p, k, left).chunks
        == AppendPasses(ring, Finish(ring, full), FinishPasses(ring, full, k), rest).chunks;
    } else {
      GrowPassed(ring, p, k, p.size + left);
      assert AppendPasses(ring, p, k, left).chunks == k.chunks;
    }
  }

  lemma PlacePassed(ring: Ring, p: Plan, k: Passes, e: Entry, size: nat)
    requires ring.Valid() && p.size <= ring.worldChunkSize && Passed(ring, p, k) && p.fileOffset + p.size == e.offset
    ensures Passed(ring, Place(ring, p, e, size), PlacePasses(ring, p, k, size))
  {
    var a, q := Append(ring, p, size), Place(ring, p, e, size);
    var l, m, n := PlacePasses(ring, p, k, size), |p.tensors|, |a.chunks|;
    AppendPassed(ring, p, k, size);
    AppendMoves(ring, p, size);
    var b := AppendPasses(ring, p, k, size);
    forall j: nat | j < |q.tensors| ensures TensorPassed(ring, q, l, j) {
      if j < m {
        OldTensorPassed(ring, a, b, q.tensors[m], j);
      } else {
        NewTensorPassed(ring, a, b, q.tensors[m]);
      }
    }
    forall c: nat | c < n ensures ChunkPassed(ring, q, l, c) {
      assert ChunkPassed(ring, a, b, c);
    }
    forall i: nat, j: nat | i < j < |q.tensors| ensures TensorsInOrder(q.tensors, l.tensors, i, j) {
      if j < m {
        assert TensorsInOrder(a.tensors, b.tensors, i, j);
      } else {
        assert TensorPassed(ring, p, k, i);
        AppendTensors(ring, p, size, i);
      }
    }
    forall c: nat, d: nat | c < d < n ensures ChunksInOrder(ring, q.chunks, l.chunks, c, d) {
      assert ChunksInOrder(ring, a.chunks, b.chunks, c, d);
    }
  }

  lemma OldTensorPassed(ring: Ring, p: Plan, k: Passes, t: Tensor, j: nat)
    requires ring.Valid() && Passed(ring, p, k) && j < |p.tensors|
    ensures TensorPassed(ring, p.(tensors := p.tensors + [t]), k.(tensors := k.tensors + [k.current]), j)
  {
    assert TensorPassed(ring, p, k, j);
  }

  lemma NewTensorPassed(ring: Ring, p: Plan, k: Passes, t: Tensor)
    requires ring.Valid() && Passed(ring, p, k)
    requires FIRST_TENSOR_ALIGNMENT <= t.deviceOffset <= p.deviceOffset + p.size && t.lastChunk == |p.chunks|
    ensures TensorPassed(ring, p.(tensors := p.tensors + [t]), k.(tensors := k.tensors + [k.current]), |p.tensors|)
  {
    forall c: nat | c < |p.chunks| ensures Clears(ring, p.chunks, k.chunks, t, k.current, c) {
      assert ChunkPassed(ring, p, k, c);
    }
  }

  lemma RoomPassed(ring: Ring, p: Plan, k: Passes, size: nat)
    requires ring.Valid() && p.size <= ring.worldChunkSize && Passed(ring, p, k)
    ensures Passed(ring, MakeRoom(ring, p, size), RoomPasses(ring, p, k, size))
  {
    if !Fits(ring, p, size) {
      FinishPassed(ring, p, k);
      WrapPassed(ring, Finish(ring, p), FinishPasses(ring, p, k));
    }
  }

  lemma TensorStepPassed(ring: Ring, entries: seq<Entry>, i: nat, p: Plan, k: Passes)
    requires ring.Valid() && WellFormed(entries) && i + 1 < |entries| && TensorAt(entries, i)
    requires p.size <= ring.worldChunkSize && Passed(ring, p, k) && Positioned(ring, entries, i, p)
    ensures Passed(ring, Step(ring, entries, i, p), PassStep(ring, entries, i, p, k))
  {
    assert Adjacent(entries, i) && |k.chunks| == |p.chunks|;
    hide Passed, WellFormed, PlacePasses;
    var size := entries[i + 1].offset - entries[i].offset;
    RoomPassed(ring, p, k, size);
    AlignedFinish(ring, p);
    PlacePassed(ring, MakeRoom(ring, p, size), RoomPasses(ring, p, k, size), entries[i], size);
  }

  lemma SwitchStepPassed(ring: Ring, entries: seq<Entry>, i: nat, p: Plan, k: Passes)
    requires ring.Valid() && WellFormed(entries) && i + 1 < |entries| && !TensorAt(entries, i)
    requires p.size <= ring.worldChunkSize && Passed(ring, p, k) && Positioned(ring, entries, i, p)
    ensures Passed(ring, Step(ring, entries, i, p), PassStep(ring, entries, i, p, k))
  {
    assert Adjacent(entries, i);
    FinishPassed(ring, p, k);
    OpenPassed(ring, Finish(ring, p), FinishPasses(ring, p, k), entries[i + 1]);
  }

  lemma StartPassed(ring: Ring, entries: seq<Entry>)
    requires ring.Valid() && WellFormed(entries)
    ensures Passed(ring, Run(ring, entries, 0), PassRun(ring, entries, 0))
  {
    GapIs(entries[0].offset % ring.threadAlignment);
    assert Run(ring, entries, 0) == Start(ring, entries);
  }

  lemma {:induction false} RunPassed(ring: Ring, entries: seq<Entry>, i: nat)
    requires ring.Valid() && WellFormed(entries) && i < |entries|
    ensures Passed(ring, Run(ring, entries, i), PassRun(ring, entries, i))
  {
    hide Step, PassStep, Start;
    if i == 0 {
      StartPassed(ring, entries);
    } else {
      RunPassed(ring, entries, i - 1);
      NextPassed(ring, entries, i - 1);
    }
  }

  lemma NextPassed(ring: Ring, entries: seq<Entry>, i: nat)
    requires ring.Valid() && WellFormed(entries) && i + 1 < |entries|
    requires Passed(ring, Run(ring, entries, i), PassRun(ring, entries, i))
    ensures Passed(ring, Run(ring, entries, i + 1), PassRun(ring, entries, i + 1))
  {
    RunPositioned(ring, entries, i);
    StepPassed(ring, entries, i, Run(ring, entries, i), PassRun(ring, entries, i));
  }

  lemma StepPassed(ring: Ring, entries: seq<Entry>, i: nat, p: Plan, k: Passes)
    requires ring.Valid() && WellFormed(entries) && i + 1 < |entries|
    requires p.size <= ring.worldChunkSize && Passed(ring, p, k) && Positioned(ring, entries, i, p)
    ensures Passed(ring, Step(ring, entries, i, p), PassStep(ring, entries, i, p, k))
  {
    if TensorAt(entries, i) {
      TensorStepPassed(ring, entries, i, p, k);
    } else {
      SwitchStepPassed(ring, entries, i, p, k);
    }
  }

  lemma LayoutPassed(ring: Ring, entries: seq<Entry>)
    requires ring.Valid() && WellFormed(entries)
    ensures Passed(ring, Emitted(ring, entries), LayoutPasses(ring, entries))
  {
    hide Passed, Run, PassRun, Finish;
    var n := |entries| - 1;
    RunPassed(ring, entries, n);
    EmittedPassed(ring, Run(ring, entries, n), PassRun(ring, entries, n), Emitted(ring, entries),
                  LayoutPasses(ring, entries));
  }

  lemma EmittedPassed(ring: Ring, p: Plan, k: Passes, f: Plan, l: Passes)
    requires ring.Valid() && Passed(ring, p, k) && f == Finish(ring, p) && l == FinishPasses(ring, p, k)
    ensures Passed(ring, f, l)
  {
    FinishPassed(ring, p, k);
  }
}
