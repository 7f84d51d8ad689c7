/** The layout that csrc/loader_common.cpp:217-362 (`compute_layout`) computes, as functions on values.

    `Plan` holds the variables that the three closures of `compute_layout` share. Each closure and each branch
    of its loop is one function here; the class in RingPlanner.dfy runs them in place. */
module RingLayout {
  import opened RoundMath

  const FIRST_TENSOR_ALIGNMENT: nat := 16

  /** The sizes fixed by `init_buffer` that the layout depends on. */
  datatype Ring = Ring(threadAlignment: nat, worldChunkAlignment: nat, worldChunkSize: nat, bufferSize: nat)
  {
    predicate Valid() {
      && threadAlignment > 0
      && worldChunkAlignment > 0
      && worldChunkAlignment % threadAlignment == 0
      && worldChunkSize > 0
      && worldChunkSize % worldChunkAlignment == 0
    }
  }

  /** One element of the `tensor_offsets` list: a tensor's start, or the end of a file's last tensor. */
  datatype Entry = Entry(file: nat, offset: nat)

  datatype Tensor = Tensor(
    size: nat, fileIndex: nat, fileOffset: nat, deviceOffset: int, lastChunk: int, prefetchChunk: int)

  datatype Chunk = Chunk(size: nat, fileIndex: nat, fileOffset: nat, deviceOffset: nat)

  datatype Plan = Plan(
    fileIndex: nat,      // file of the chunk being built
    fileOffset: nat,     // its offset in that file
    deviceOffset: nat,   // its offset in the device buffer
    size: nat,           // its size so far
    inBuffer: nat,       // earliest tensor without a prefetch chunk
    leftMost: nat,       // first tensor of the current pass over the ring
    tensors: seq<Tensor>,
    chunks: seq<Chunk>)

  // ----- the shape of the frontend's list

  predicate TensorAt(entries: seq<Entry>, i: nat)
    requires i + 1 < |entries|
  {
    entries[i].file == entries[i + 1].file
  }

  /** Neighbours are the two ends of one tensor, or the end of one file and the start of the next. */
  predicate Adjacent(entries: seq<Entry>, i: nat)
    requires i + 1 < |entries|
  {
    if TensorAt(entries, i) then
      entries[i].offset <= entries[i + 1].offset
    else
      && entries[i + 1].file == entries[i].file + 1
      && 0 < i && entries[i - 1].file == entries[i].file
  }

  /** Files are numbered from 0 in order, each has at least one tensor, and its tensors are contiguous. */
  predicate WellFormed(entries: seq<Entry>) {
    && |entries| >= 2
    && entries[0].file == 0
    && (forall i: nat | i + 1 < |entries| :: Adjacent(entries, i))
    && TensorAt(entries, |entries| - 2)
  }

  // ----- the closures

  function Pending(p: Plan): Chunk {
    Chunk(p.size, p.fileIndex, p.fileOffset, p.deviceOffset)
  }

  /** The first tensor in [lo, hi) that starts at or after `limit` in the device buffer. */
  function FirstBeyond(tensors: seq<Tensor>, lo: nat, hi: nat, limit: int): (k: nat)
    requires lo <= hi <= |tensors|
    ensures lo <= k <= hi
    ensures forall j | lo <= j < k :: tensors[j].deviceOffset < limit
    ensures k < hi ==> tensors[k].deviceOffset >= limit
    decreases hi - lo
  {
    if lo < hi && tensors[lo].deviceOffset < limit then FirstBeyond(tensors, lo + 1, hi, limit) else lo
  }

  function SetPrefetch(tensors: seq<Tensor>, lo: nat, hi: nat, chunk: int): seq<Tensor> {
    seq(|tensors|, j requires 0 <= j < |tensors| =>
      if lo <= j < hi then tensors[j].(prefetchChunk := chunk) else tensors[j])
  }

  predicate Indexed(p: Plan) {
    p.inBuffer <= p.leftMost <= |p.tensors|
  }

  /** `finish_chunk`: emit the pending chunk; tensors of the previous pass that it reaches may be prefetched
      past only up to the chunk before it. */
  function Finish(ring: Ring, p: Plan): (q: Plan)
    requires ring.Valid() && Indexed(p)
    ensures Indexed(q)
  {
    if p.size == 0 then p else
      var end := p.deviceOffset + RoundUp(p.size, ring.worldChunkAlignment);
      var kept := FirstBeyond(p.tensors, p.inBuffer, p.leftMost, end);
      Plan(p.fileIndex,
           p.fileOffset + RoundDown(p.size, ring.threadAlignment),
           end,
           p.size % ring.threadAlignment,
           kept,
           p.leftMost,
           SetPrefetch(p.tensors, p.inBuffer, kept, |p.chunks| - 1),
           p.chunks + [Pending(p)])
  }

  /** The distance that brings `size` to the next multiple of FIRST_TENSOR_ALIGNMENT (16 when it is one). */
  function AlignGap(size: nat): (g: nat)
    ensures 1 <= g <= FIRST_TENSOR_ALIGNMENT
    ensures (g + size) % FIRST_TENSOR_ALIGNMENT == 0
  {
    FIRST_TENSOR_ALIGNMENT - size % FIRST_TENSOR_ALIGNMENT
  }

  /** `reset_chunk_buffer_offset`: start a new pass over the ring. */
  function Wrap(p: Plan, newLeftMost: nat): (q: Plan)
    requires Indexed(p) && p.leftMost <= newLeftMost <= |p.tensors|
    ensures Indexed(q)
  {
    p.(tensors := SetPrefetch(p.tensors, p.inBuffer, p.leftMost, |p.chunks| - 1),
       inBuffer := p.leftMost,
       deviceOffset := AlignGap(p.size),
       leftMost := newLeftMost)
  }

  /** `reset_chunk_file`: continue in the next file. */
  function OpenFile(ring: Ring, p: Plan, e: Entry): (q: Plan)
    requires ring.Valid() && Indexed(p)
    ensures Indexed(q)
  {
    var size := e.offset % ring.threadAlignment;
    p.(fileIndex := e.file,
       fileOffset := RoundDown(e.offset, ring.threadAlignment),
       size := size,
       deviceOffset := RoundUp(p.deviceOffset, FIRST_TENSOR_ALIGNMENT) + AlignGap(size))
  }

  // ----- the loop

  lemma FinishSize(ring: Ring, p: Plan)
    requires ring.Valid() && Indexed(p) && p.size == ring.worldChunkSize
    ensures Finish(ring, p).size == 0
    ensures Finish(ring, p).fileOffset == p.fileOffset + p.size
    ensures Finish(ring, p).deviceOffset == p.deviceOffset + p.size
  {
    ModTrans(ring.worldChunkSize, ring.worldChunkAlignment, ring.threadAlignment);
    RoundDownMultiple(p.size, ring.threadAlignment);
    RoundUpMultiple(p.size, ring.worldChunkAlignment);
  }

  /** Appends `left` tensor bytes to the pending chunk, emitting each chunk that fills up. */
  function Append(ring: Ring, p: Plan, left: nat): (q: Plan)
    requires ring.Valid() && Indexed(p) && p.size <= ring.worldChunkSize
    ensures Indexed(q) && |q.tensors| == |p.tensors| && q.size <= ring.worldChunkSize
    decreases p.size + left
  {
    if p.size + left > ring.worldChunkSize then
      var full := p.(size := ring.worldChunkSize);
      FinishSize(ring, full);
      Append(ring, Finish(ring, full), p.size + left - ring.worldChunkSize)
    else
      p.(size := p.size + left)
  }

  predicate Fits(ring: Ring, p: Plan, tensorSize: nat)
    requires ring.Valid()
  {
    p.deviceOffset + RoundUp(p.size + tensorSize, ring.worldChunkAlignment) <= ring.bufferSize
  }

  /** Puts the next tensor where the pending chunk ends. */
  function Place(ring: Ring, p: Plan, e: Entry, tensorSize: nat): (q: Plan)
    requires ring.Valid() && Indexed(p) && p.size <= ring.worldChunkSize
    ensures Indexed(q) && |q.tensors| == |p.tensors| + 1 && q.size <= ring.worldChunkSize
  {
    var q := Append(ring, p, tensorSize);
    var deviceOffset := e.offset - p.fileOffset + p.deviceOffset;
    q.(tensors := q.tensors + [Tensor(tensorSize, e.file, e.offset, deviceOffset, |q.chunks|, 0)])
  }

  function MakeRoom(ring: Ring, p: Plan, tensorSize: nat): (q: Plan)
    requires ring.Valid() && Indexed(p)
    ensures Indexed(q) && |q.tensors| == |p.tensors|
    ensures p.size <= ring.worldChunkSize ==> q.size <= ring.worldChunkSize
  {
    assert p.size <= ring.worldChunkSize ==> Finish(ring, p).size <= ring.worldChunkSize by {
      if p.size <= ring.worldChunkSize {
        SizesInRange(ring, p);
      }
    }
    if Fits(ring, p, tensorSize) then p else Wrap(Finish(ring, p), |p.tensors|)
  }

  function Step(ring: Ring, entries: seq<Entry>, i: nat, p: Plan): (q: Plan)
    requires ring.Valid() && Indexed(p) && i + 1 < |entries|
    requires p.size <= ring.worldChunkSize
    ensures Indexed(q) && q.size <= ring.worldChunkSize
  {
    SizesInRange(ring, p);
    if TensorAt(entries, i) then
      var size := if entries[i].offset <= entries[i + 1].offset then entries[i + 1].offset - entries[i].offset else 0;
      Place(ring, MakeRoom(ring, p, size), entries[i], size)
    else
      RemainderInRange(ring, entries[i + 1].offset);
      OpenFile(ring, Finish(ring, p), entries[i + 1])
  }

  lemma RemainderInRange(ring: Ring, x: nat)
    requires ring.Valid()
    ensures x % ring.threadAlignment < ring.threadAlignment <= ring.worldChunkSize
  {
    ModTrans(ring.worldChunkSize, ring.worldChunkAlignment, ring.threadAlignment);
    if ring.worldChunkSize < ring.threadAlignment {
      DivModUnique(ring.worldChunkSize, ring.threadAlignment, 0, ring.worldChunkSize);
    }
  }

  lemma SizesInRange(ring: Ring, p: Plan)
    requires ring.Valid() && Indexed(p) && p.size <= ring.worldChunkSize
    ensures Finish(ring, p).size < ring.threadAlignment
    ensures ring.threadAlignment <= ring.worldChunkSize
  {
    RemainderInRange(ring, p.size);
  }

  function Start(ring: Ring, entries: seq<Entry>): (p: Plan)
    requires ring.Valid() && |entries| > 0
    ensures Indexed(p) && p.size <= ring.worldChunkSize
  {
    RemainderInRange(ring, entries[0].offset);
    OpenFile(ring, Plan(0, 0, 0, 0, 0, 0, [], []), entries[0])
  }

  /** The shared variables before iteration i of the loop. */
  function Run(ring: Ring, entries: seq<Entry>, i: nat): (p: Plan)
    requires ring.Valid() && i < |entries|
    ensures Indexed(p) && p.size <= ring.worldChunkSize
  {
    if i == 0 then Start(ring, entries) else Step(ring, entries, i - 1, Run(ring, entries, i - 1))
  }

  /** The whole of `compute_layout`. */
  function Layout(ring: Ring, entries: seq<Entry>): (q: Plan)
    requires ring.Valid() && |entries| > 0
    ensures Indexed(q)
  {
    var p := Finish(ring, Run(ring, entries, |entries| - 1));
    Wrap(Wrap(p, |p.tensors|), |p.tensors|)
  }
}
