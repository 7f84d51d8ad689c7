/** How a file is cut into chunks, and where a file's data starts in the buffer. */
module RingChunks {
  import opened RoundMath
  import opened RingLayout
  import opened RingSafety
  import opened RingRun
  import opened RingBounds
  import opened RingPasses
  import opened RingFit

  // ----- chunks follow each other

  /** Chunk e begins where chunk d, which is full, ends: in the file and in the buffer. */
  predicate FollowsFull(ring: Ring, d: Chunk, fileOffset: nat, deviceOffset: nat) {
    && d.size == ring.worldChunkSize
    && fileOffset == d.fileOffset + ring.worldChunkSize
    && deviceOffset == d.deviceOffset + ring.worldChunkSize
  }

  /** Of two consecutive chunks of one file and one pass the first is full, and the second begins where it ends. */
  ghost predicate Gapless(ring: Ring, chunks: seq<Chunk>, passes: seq<nat>) {
    && |chunks| == |passes|
    && forall c, d | 0 <= c < d < |chunks| && d == c + 1 && passes[c] == passes[d]
                     && chunks[c].fileIndex == chunks[d].fileIndex ::
         FollowsFull(ring, chunks[c], chunks[d].fileOffset, chunks[d].deviceOffset)
  }

  /** So does what is pending follow the chunk emitted last. */
  predicate Continues(ring: Ring, p: Plan, k: Passes)
    requires |p.chunks| == |k.chunks|
  {
    var n := |p.chunks|;
    n > 0 && k.chunks[n - 1] == k.current && p.chunks[n - 1].fileIndex == p.fileIndex ==>
      FollowsFull(ring, p.chunks[n - 1], p.fileOffset, p.deviceOffset)
  }

  ghost predicate Cut(ring: Ring, p: Plan, k: Passes) {
    Gapless(ring, p.chunks, k.chunks) && Continues(ring, p, k)
  }

  lemma FinishGapless(ring: Ring, p: Plan, k: Passes)
    requires ring.Valid() && Indexed(p) && Cut(ring, p, k)
    ensures Gapless(ring, Finish(ring, p).chunks, FinishPasses(ring, p, k).chunks)
    ensures p.size == ring.worldChunkSize ==> Cut(ring, Finish(ring, p), FinishPasses(ring, p, k))
  {
    hide RoundUp, RoundDown;
    if p.size == ring.worldChunkSize {
      FinishSize(ring, p);
    }
  }

  lemma AppendCut(ring: Ring, p: Plan, k: Passes, left: nat)
    requires ring.Valid() && Indexed(p) && p.size <= ring.worldChunkSize && Cut(ring, p, k)
    ensures Cut(ring, Append(ring, p, left), AppendPasses(ring, p, k, left))
    decreases p.size + left
  {
    hide Gapless;
    if p.size + left > ring.worldChunkSize {
      var full, rest := p.(size := ring.worldChunkSize), p.size + left - ring.worldChunkSize;
      FinishSize(ring, full);
      CutLength(ring, p, k);
      var f, l := Finish(ring, full), FinishPasses(ring, full, k);
      FinishGapless(ring, full, k);
      AppendCut(ring, f, l, rest);
      assert AppendPasses(ring, p, k, left).chunks == AppendPasses(ring, f, l, rest).chunks;
    } else {
      CutLength(ring, p, k);
      assert AppendPasses(ring, p, k, left).chunks == k.chunks;
    }
  }

  lemma CutLength(ring: Ring, p: Plan, k: Passes)
    requires Cut(ring, p, k)
    ensures |p.chunks| == |k.chunks|
  {
  }

  lemma RoomCut(ring: Ring, p: Plan, k: Passes, size: nat)
    requires ring.Valid() && Indexed(p) && Cut(ring, p, k) && Passed(ring, p, k)
    ensures Cut(ring, MakeRoom(ring, p, size), RoomPasses(ring, p, k, size))
  {
    hide Gapless, Passed;
    CutLength(ring, p, k);
    if !Fits(ring, p, size) {
      FinishGapless(ring, p, k);
      LastPassed(ring, p, k);
    }
  }

  lemma LastPassed(ring: Ring, p: Plan, k: Passes)
    requires ring.Valid() && Passed(ring, p, k)
    ensures |p.chunks| == |k.chunks|
    ensures var n := |p.chunks|;
      n > 0 ==> k.chunks[n - 1] <= k.current && p.chunks[n - 1].fileIndex <= p.fileIndex
  {
    assert p.chunks != [] ==> ChunkPassed(ring, p, k, |p.chunks| - 1);
  }

  lemma SwitchCut(ring: Ring, p: Plan, k: Passes, e: Entry)
    requires ring.Valid() && Indexed(p) && Cut(ring, p, k) && Passed(ring, p, k) && e.file == p.fileIndex + 1
    ensures Cut(ring, OpenFile(ring, Finish(ring, p), e), FinishPasses(ring, p, k))
  {
    hide Gapless, Passed;
    CutLength(ring, p, k);
    FinishGapless(ring, p, k);
    LastPassed(ring, p, k);
  }

  lemma NextCut(ring: Ring, entries: seq<Entry>, i: nat)
    requires ring.Valid() && WellFormed(entries) && i + 1 < |entries|
    requires Cut(ring, Run(ring, entries, i), PassRun(ring, entries, i))
    ensures Cut(ring, Run(ring, entries, i + 1), PassRun(ring, entries, i + 1))
  {
    hide Run, PassRun, Passed, Cut, MakeRoom, RoomPasses, Append, AppendPasses, Finish, FinishPasses, OpenFile;
    assert Adjacent(entries, i);
    RunPassed(ring, entries, i);
    RunPositioned(ring, entries, i);
    RunStep(ring, entries, i);
    PassRunStep(ring, entries, i);
    var p, k := Run(ring, entries, i), PassRun(ring, entries, i);
    if TensorAt(entries, i) {
      var size := entries[i + 1].offset - entries[i].offset;
      RoomCut(ring, p, k, size);
      CutLength(ring, MakeRoom(ring, p, size), RoomPasses(ring, p, k, size));
      AppendCut(ring, MakeRoom(ring, p, size), RoomPasses(ring, p, k, size), size);
      PlaceCut(ring, MakeRoom(ring, p, size), RoomPasses(ring, p, k, size), entries[i], size);
    } else {
      SwitchCut(ring, p, k, entries[i + 1]);
    }
  }

  lemma PlaceCut(ring: Ring, p: Plan, k: Passes, e: Entry, size: nat)
    requires ring.Valid() && Indexed(p) && p.size <= ring.worldChunkSize && |k.chunks| == |p.chunks|
    requires Cut(ring, Append(ring, p, size), AppendPasses(ring, p, k, size))
    ensures Cut(ring, Place(ring, p, e, size), PlacePasses(ring, p, k, size))
  {
    hide Append, AppendPasses;
  }

  /** In every layout: of two consecutive chunks of a file in the same pass over the ring, the first is of the full
      size, and the second continues it in the file and in the buffer. */
  lemma {:induction false} ChunksAreFull(ring: Ring, entries: seq<Entry>, c: nat)
    requires ring.Valid() && WellFormed(entries)
    ensures var q, k := Layout(ring, entries).chunks, LayoutPasses(ring, entries).chunks;
      && |k| == |q|
      && (c + 1 < |q| && k[c] == k[c + 1] && q[c].fileIndex == q[c + 1].fileIndex ==>
            && q[c].size == ring.worldChunkSize
            && q[c + 1].fileOffset == q[c].fileOffset + q[c].size
            && q[c + 1].deviceOffset == q[c].deviceOffset + q[c].size)
  {
    hide Run, PassRun, Cut, Gapless, Adjacent;
    var n := |entries| - 1;
    CutAtStart(ring, entries);
    for i := 0 to n
      invariant Cut(ring, Run(ring, entries, i), PassRun(ring, entries, i))
    {
      NextCut(ring, entries, i);
    }
    EmittedChunks(ring, entries, Run(ring, entries, n), PassRun(ring, entries, n));
    GaplessAt(ring, Layout(ring, entries).chunks, LayoutPasses(ring, entries).chunks, c);
  }

  lemma EmittedChunks(ring: Ring, entries: seq<Entry>, p: Plan, k: Passes)
    requires ring.Valid() && |entries| > 0 && |k.chunks| == |p.chunks| && Cut(ring, p, k)
    requires p == Run(ring, entries, |entries| - 1) && k == PassRun(ring, entries, |entries| - 1)
    ensures Gapless(ring, Layout(ring, entries).chunks, LayoutPasses(ring, entries).chunks)
  {
    hide Run, PassRun, Cut;
    FinishGapless(ring, p, k);
    assert Layout(ring, entries).chunks == Finish(ring, p).chunks;
    assert LayoutPasses(ring, entries).chunks == FinishPasses(ring, p, k).chunks;
  }

  lemma GaplessAt(ring: Ring, chunks: seq<Chunk>, passes: seq<nat>, c: nat)
    requires Gapless(ring, chunks, passes)
    ensures |chunks| == |passes|
    ensures c + 1 < |chunks| && passes[c] == passes[c + 1] && chunks[c].fileIndex == chunks[c + 1].fileIndex ==>
      FollowsFull(ring, chunks[c], chunks[c + 1].fileOffset, chunks[c + 1].deviceOffset)
  {
  }

  lemma CutAtStart(ring: Ring, entries: seq<Entry>)
    requires ring.Valid() && |entries| > 0
    ensures Cut(ring, Run(ring, entries, 0), PassRun(ring, entries, 0))
  {
  }

  // ----- where a file starts

  /** Opening a file: the pending chunk is emitted as it is, and the new file's data comes, behind its page part, 1 to
      16 bytes behind the next multiple of 16 in the buffer, at a multiple of 16 itself. */
  lemma FilePlaced(ring: Ring, entries: seq<Entry>, i: nat, up: nat, next: nat)
    requires ring.Valid() && i + 1 < |entries| && !TensorAt(entries, i)
    requires LeastMultiple(up, Run(ring, entries, i).size, ring.worldChunkAlignment)
    requires LeastMultiple(next, Run(ring, entries, i).deviceOffset + up, 16)
    ensures var p, q := Run(ring, entries, i), Run(ring, entries, i + 1);
      && q.fileIndex == entries[i + 1].file && q.size == entries[i + 1].offset % ring.threadAlignment
      && q.fileOffset + q.size == entries[i + 1].offset && q.fileOffset % ring.threadAlignment == 0
      && next < q.deviceOffset <= next + 16 && (q.deviceOffset + q.size) % 16 == 0
      && q.chunks == p.chunks
           + if p.size == 0 then [] else [Chunk(p.size, p.fileIndex, p.fileOffset, p.deviceOffset)]
  {
    hide Run;
    RunStep(ring, entries, i);
    SwitchPlaced(ring, Run(ring, entries, i), entries[i + 1], up, next);
  }

  lemma PlacedAtMultiple(x: nat, next: nat, size: nat)
    requires LeastMultiple(next, x, 16)
    ensures (next + AlignGap(size) + size) % 16 == 0
  {
  }

  lemma SwitchPlaced(ring: Ring, p: Plan, e: Entry, up: nat, next: nat)
    requires ring.Valid() && Indexed(p)
    requires LeastMultiple(up, p.size, ring.worldChunkAlignment) && LeastMultiple(next, p.deviceOffset + up, 16)
    ensures var q := OpenFile(ring, Finish(ring, p), e);
      && q.fileIndex == e.file && q.size == e.offset % ring.threadAlignment
      && q.fileOffset + q.size == e.offset && q.fileOffset % ring.threadAlignment == 0
      && next < q.deviceOffset <= next + 16 && (q.deviceOffset + q.size) % 16 == 0
      && q.chunks == p.chunks
           + if p.size == 0 then [] else [Chunk(p.size, p.fileIndex, p.fileOffset, p.deviceOffset)]
  {
    hide RoundUp, RoundDown, AlignGap, LeastMultiple;
    RoundUpUnique(p.size, ring.worldChunkAlignment, up);
    RoundUpUnique(p.deviceOffset + up, FIRST_TENSOR_ALIGNMENT, next);
    RoundDownIs(e.offset, ring.threadAlignment);
    PlacedAtMultiple(p.deviceOffset + up, next, e.offset % ring.threadAlignment);
    if p.size == 0 {
      RoundUpMultiple(0, ring.worldChunkAlignment);
    }
  }
}
