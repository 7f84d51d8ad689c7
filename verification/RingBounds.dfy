/** Which chunks stay inside the device buffer. */
module RingBounds {
  import opened RoundMath
  import opened RingLayout
  import opened RingSafety
  import opened RingRun
  import opened RingTheorems

  // ----- chunks with tensor data

  lemma SameFileStart(entries: seq<Entry>, i: nat, k: nat)
    requires WellFormed(entries) && i <= k < |entries|
    ensures entries[i].file <= entries[k].file
    ensures entries[i].file == entries[k].file ==> FileStart(entries, i) == FileStart(entries, k)
  {
    if i < k {
      assert Adjacent(entries, k - 1);
      SameFileStart(entries, i, k - 1);
    }
  }

  lemma InputStart(entries: seq<Entry>, n: nat, x: Input, i: nat)
    requires WellFormed(entries) && n < |entries| && i < |entries|
    requires x in Inputs(entries, n) && entries[i].file == x.fileIndex
    ensures FileStart(entries, i) == x.fileStart <= x.fileOffset
  {
    assert Adjacent(entries, n - 1);
    if x !in Inputs(entries, n - 1) {
      FileStartBefore(entries, n - 1);
      if i <= n { SameFileStart(entries, i, n); } else { SameFileStart(entries, n, i); }
    } else {
      InputStart(entries, n - 1, x, i);
    }
  }

  lemma NotHeaderOnly(ring: Ring, entries: seq<Entry>, n: nat, d: Chunk, x: Input, pos: nat)
    requires ring.Valid() && WellFormed(entries) && n < |entries| && ChunkOk(ring, entries, d)
    requires x in Inputs(entries, n) && x.fileIndex == d.fileIndex && x.fileOffset <= pos < d.fileOffset + d.size
    ensures PaddedEnd(ring, d) <= ring.bufferSize
  {
    hide Adjacent, Inputs, FileStart;
    if HeaderOnly(entries, d) {
      var i: nat :| i < |entries| && entries[i].file == d.fileIndex && d.fileOffset + d.size <= FileStart(entries, i);
      InputStart(entries, n, x, i);
    }
  }

  /** A chunk that holds a byte of some tensor is inside the buffer, with its padding. */
  lemma TensorChunkInside(ring: Ring, entries: seq<Entry>, c: nat, j: nat, pos: nat)
    requires ring.Valid() && WellFormed(entries) && AllRoomy(ring, entries)
    requires var q := Layout(ring, entries);
      && c < |q.chunks| && j < |q.tensors|
      && q.chunks[c].fileIndex == q.tensors[j].fileIndex
      && q.chunks[c].fileOffset <= pos < q.chunks[c].fileOffset + q.chunks[c].size
      && q.tensors[j].fileOffset <= pos < q.tensors[j].fileOffset + q.tensors[j].size
    ensures PaddedEnd(ring, Layout(ring, entries).chunks[c]) <= ring.bufferSize
  {
    hide Layout, Adjacent, Inputs, ChunkOk;
    LayoutBounds(ring, entries);
    LayoutTensors(ring, entries);
    var q, n := Layout(ring, entries), |entries| - 1;
    var d, x := q.chunks[c], Inputs(entries, n)[j];
    assert d in q.chunks && x in Inputs(entries, n);
    NotHeaderOnly(ring, entries, n, d, x, pos);
  }

  // ----- header-only chunks

  predicate FileFirst(entries: seq<Entry>, i: nat)
    requires i < |entries|
  {
    i == 0 || entries[i - 1].file != entries[i].file
  }

  /** Where the bytes end that a chunk writes: with several ranks the gather also writes the padding, a single rank
      copies just the chunk. */
  function WrittenEnd(ring: Ring, c: Chunk, padded: bool): nat
    requires ring.Valid()
  {
    if padded then PaddedEnd(ring, c) else c.deviceOffset + c.size
  }

  /** The pending chunk, if there is one, ends inside the buffer. */
  predicate PendingInside(ring: Ring, p: Plan, padded: bool)
    requires ring.Valid()
  {
    p.size == 0 || WrittenEnd(ring, Pending(p), padded) <= ring.bufferSize
  }

  /** When a file is opened in front of entry i, the page part before its data is empty or fits in the buffer. */
  predicate HeaderFits(ring: Ring, entries: seq<Entry>, i: nat, padded: bool)
    requires ring.Valid() && i < |entries|
  {
    PendingInside(ring, Run(ring, entries, i), padded)
  }

  ghost predicate HeadersFit(ring: Ring, entries: seq<Entry>, n: nat, padded: bool)
    requires ring.Valid() && n <= |entries|
  {
    forall i | 0 <= i < n :: FileFirst(entries, i) ==> HeaderFits(ring, entries, i, padded)
  }

  ghost predicate AllInside(ring: Ring, cs: seq<Chunk>, padded: bool)
    requires ring.Valid()
  {
    forall c | c in cs :: WrittenEnd(ring, c, padded) <= ring.bufferSize
  }

  /** What fits with its padding fits without. */
  lemma FitsInside(ring: Ring, p: Plan, size: nat, padded: bool)
    requires ring.Valid() && Fits(ring, p, size)
    ensures PendingInside(ring, p, padded)
  {
    RoundUpMono(p.size, p.size + size, ring.worldChunkAlignment);
    RoundUpIs(p.size, ring.worldChunkAlignment);
  }

  lemma AppendAllInside(ring: Ring, p: Plan, left: nat, padded: bool)
    requires ring.Valid() && Indexed(p) && p.size <= ring.worldChunkSize && Fits(ring, p, left)
    ensures AllInside(ring, Append(ring, p, left).chunks, padded) <==> AllInside(ring, p.chunks, padded)
    decreases p.size + left
  {
    if p.size + left > ring.worldChunkSize {
      var full, rest := p.(size := ring.worldChunkSize), p.size + left - ring.worldChunkSize;
      var f := Finish(ring, full);
      FinishSize(ring, full);
      RoundUpShift(ring.worldChunkSize, rest, ring.worldChunkAlignment);
      assert Fits(ring, f, rest);
      assert f.chunks == p.chunks + [Pending(full)];
      assert PaddedEnd(ring, Pending(full)) == f.deviceOffset;
      AppendAllInside(ring, f, rest, padded);
    }
  }

  lemma FinishAllInside(ring: Ring, p: Plan, padded: bool)
    requires ring.Valid() && Indexed(p)
    ensures AllInside(ring, Finish(ring, p).chunks, padded) <==>
      (AllInside(ring, p.chunks, padded) && PendingInside(ring, p, padded))
  {
    if p.size > 0 {
      assert Finish(ring, p).chunks == p.chunks + [Pending(p)];
    }
  }

  lemma {:induction false} PlaceAllInside(ring: Ring, entries: seq<Entry>, i: nat, p: Plan, padded: bool)
    requires ring.Valid() && WellFormed(entries) && i + 1 < |entries| && TensorAt(entries, i)
    requires Inv(ring, entries, i, p)
    requires forall x | x in Inputs(entries, i + 1) :: Roomy(ring, x)
    ensures AllInside(ring, Step(ring, entries, i, p).chunks, padded) <==>
      (AllInside(ring, p.chunks, padded) && (FileFirst(entries, i) ==> PendingInside(ring, p, padded)))
  {
    var x := NextInput(entries, i);
    RoomForNext(ring, entries, i, p);
    RoomAllInside(ring, p, x.size, padded);
    StepOfTensor(ring, entries, i, p);
    if Fits(ring, p, x.size) {
      FitsInside(ring, p, x.size, padded);
    } else if !FileFirst(entries, i) {
      FitsInside(ring, p, 0, padded);
    }
  }

  lemma RoomForNext(ring: Ring, entries: seq<Entry>, i: nat, p: Plan)
    requires ring.Valid() && WellFormed(entries) && i + 1 < |entries| && TensorAt(entries, i)
    requires Inv(ring, entries, i, p) && forall x | x in Inputs(entries, i + 1) :: Roomy(ring, x)
    ensures Indexed(p) && p.size <= ring.worldChunkSize
    ensures var size := NextInput(entries, i).size; Fits(ring, MakeRoom(ring, p, size), size)
  {
    MakeRoomInv(ring, entries, i, p, NextInput(entries, i));
  }

  lemma RoomAllInside(ring: Ring, p: Plan, size: nat, padded: bool)
    requires ring.Valid() && Indexed(p) && p.size <= ring.worldChunkSize && Fits(ring, MakeRoom(ring, p, size), size)
    ensures AllInside(ring, Append(ring, MakeRoom(ring, p, size), size).chunks, padded) <==>
      (AllInside(ring, p.chunks, padded) && (Fits(ring, p, size) || PendingInside(ring, p, padded)))
  {
    AppendAllInside(ring, MakeRoom(ring, p, size), size, padded);
    FinishAllInside(ring, p, padded);
  }

  lemma StepAllInside(ring: Ring, entries: seq<Entry>, i: nat, p: Plan, padded: bool)
    requires ring.Valid() && WellFormed(entries) && i + 1 < |entries|
    requires Inv(ring, entries, i, p)
    requires forall x | x in Inputs(entries, i + 1) :: Roomy(ring, x)
    ensures AllInside(ring, Step(ring, entries, i, p).chunks, padded) <==>
      (AllInside(ring, p.chunks, padded) && (FileFirst(entries, i) ==> PendingInside(ring, p, padded)))
  {
    if TensorAt(entries, i) {
      PlaceAllInside(ring, entries, i, p, padded);
    } else {
      assert Adjacent(entries, i);
      FitsInside(ring, p, 0, padded);
      FinishAllInside(ring, p, padded);
      assert Step(ring, entries, i, p).chunks == Finish(ring, p).chunks;
    }
  }

  lemma HeadersFitStep(ring: Ring, entries: seq<Entry>, i: nat, padded: bool)
    requires ring.Valid() && i < |entries|
    ensures HeadersFit(ring, entries, i + 1, padded) <==>
      (HeadersFit(ring, entries, i, padded) && (FileFirst(entries, i) ==> HeaderFits(ring, entries, i, padded)))
  {
  }

  lemma StartAllInside(ring: Ring, entries: seq<Entry>, padded: bool)
    requires ring.Valid() && |entries| > 0
    ensures AllInside(ring, Run(ring, entries, 0).chunks, padded) && HeadersFit(ring, entries, 0, padded)
  {
  }

  /** Before a file's first tensor, its page part is what is pending. */
  lemma HeaderIsPending(ring: Ring, entries: seq<Entry>, i: nat, p: Plan, padded: bool)
    requires ring.Valid() && i < |entries| && Inv(ring, entries, i, p) && p == Run(ring, entries, i)
    ensures FileFirst(entries, i) ==> (PendingInside(ring, p, padded) <==> HeaderFits(ring, entries, i, padded))
  {
    hide Run;
  }

  lemma NextAllInside(ring: Ring, entries: seq<Entry>, i: nat, padded: bool)
    requires ring.Valid() && WellFormed(entries) && i + 1 < |entries|
    requires forall x | x in Inputs(entries, i + 1) :: Roomy(ring, x)
    requires AllInside(ring, Run(ring, entries, i).chunks, padded) <==> HeadersFit(ring, entries, i, padded)
    ensures AllInside(ring, Run(ring, entries, i + 1).chunks, padded) <==> HeadersFit(ring, entries, i + 1, padded)
  {
    hide Run, Step, Inv, AllInside, HeadersFit, HeaderFits, PendingInside, FileFirst;
    InputsGrow(entries, i, i + 1);
    RunInv(ring, entries, i);
    RunStep(ring, entries, i);
    StepAllInside(ring, entries, i, Run(ring, entries, i), padded);
    HeadersFitStep(ring, entries, i, padded);
    HeaderIsPending(ring, entries, i, Run(ring, entries, i), padded);
  }

  lemma {:induction false} RunAllInside(ring: Ring, entries: seq<Entry>, i: nat, padded: bool)
    requires ring.Valid() && WellFormed(entries) && i < |entries|
    requires forall x | x in Inputs(entries, i) :: Roomy(ring, x)
    ensures AllInside(ring, Run(ring, entries, i).chunks, padded) <==> HeadersFit(ring, entries, i, padded)
  {
    hide Run, AllInside, HeadersFit, WellFormed;
    StartAllInside(ring, entries, padded);
    for k := 0 to i
      invariant AllInside(ring, Run(ring, entries, k).chunks, padded) <==> HeadersFit(ring, entries, k, padded)
    {
      InputsGrow(entries, k + 1, i);
      NextAllInside(ring, entries, k, padded);
    }
  }

  /** All that the chunks write, with or without padding, stays inside the buffer exactly when at every file switch the
      new file's page part before its data still fits, with or without padding. */
  lemma ChunksInsideIff(ring: Ring, entries: seq<Entry>, padded: bool)
    requires ring.Valid() && WellFormed(entries) && AllRoomy(ring, entries)
    ensures AllInside(ring, Layout(ring, entries).chunks, padded) <==>
      HeadersFit(ring, entries, |entries| - 1, padded)
  {
    var n := |entries| - 1;
    var p := Run(ring, entries, n);
    RunAllInside(ring, entries, n, padded);
    LayoutBounds(ring, entries);
    RunInv(ring, entries, n);
    assert Bounded(ring, entries, n, p);
    FitsInside(ring, p, 0, padded);
    FinishAllInside(ring, p, padded);
  }

  /** In particular when the data of every file starts at a page boundary. */
  lemma ChunksInsideIfAligned(ring: Ring, entries: seq<Entry>, padded: bool)
    requires ring.Valid() && WellFormed(entries) && AllRoomy(ring, entries)
    requires forall i | 0 <= i < |entries| && FileFirst(entries, i) :: entries[i].offset % ring.threadAlignment == 0
    ensures AllInside(ring, Layout(ring, entries).chunks, padded)
  {
    forall i | 0 <= i < |entries| - 1 && FileFirst(entries, i) ensures HeaderFits(ring, entries, i, padded) {
      InputsGrow(entries, i, |entries| - 1);
      RunInv(ring, entries, i);
      assert AtFileStart(ring, entries, i, Run(ring, entries, i));
      RoundDownMultiple(entries[i].offset, ring.threadAlignment);
    }
    ChunksInsideIff(ring, entries, padded);
  }

  /** A layout that leaves the buffer: one thread and rank, pages of 4096 bytes, chunks and a requested buffer of
      16384 bytes. The data of the second file starts 4000 bytes into a page, and its tensor needs a new pass. */
  function OverflowRing(): Ring {
    Ring(4096, 4096, 16384, 16384 + 3 * (16 + 4096 + 4096))
  }

  function OverflowEntries(): seq<Entry> {
    [Entry(0, 4096), Entry(0, 20480), Entry(0, 36864), Entry(0, 45056), Entry(1, 8096), Entry(1, 24480)]
  }

  lemma AppendOnce(ring: Ring, p: Plan, left: nat)
    requires ring.Valid() && Indexed(p) && p.size <= ring.worldChunkSize && p.size + left <= 2 * ring.worldChunkSize
    ensures var q := Append(ring, p, left);
      var full := if p.size + left > ring.worldChunkSize then ring.worldChunkSize else 0;
      q.deviceOffset == p.deviceOffset + full && q.size == p.size + left - full
  {
    if p.size + left > ring.worldChunkSize {
      var full := p.(size := ring.worldChunkSize);
      FinishSize(ring, full);
      var f := Finish(ring, full);
      assert Append(ring, f, p.size + left - ring.worldChunkSize) == f.(size := p.size + left - ring.worldChunkSize);
    }
  }

  /** One iteration on a tensor that fits and fills at most one chunk more. */
  lemma {:induction false} StepThatFits(ring: Ring, entries: seq<Entry>, i: nat, p: Plan)
    requires ring.Valid() && i + 1 < |entries| && TensorAt(entries, i) && entries[i].offset <= entries[i + 1].offset
    requires p == Run(ring, entries, i)
    requires Fits(ring, p, entries[i + 1].offset - entries[i].offset)
    requires p.size + entries[i + 1].offset - entries[i].offset <= 2 * ring.worldChunkSize
    ensures var q, size := Run(ring, entries, i + 1), entries[i + 1].offset - entries[i].offset;
      var full := if p.size + size > ring.worldChunkSize then ring.worldChunkSize else 0;
      q.deviceOffset == p.deviceOffset + full && q.size == p.size + size - full
  {
    var size := entries[i + 1].offset - entries[i].offset;
    AppendOnce(ring, p, size);
    PlaceMoves(ring, p, entries[i], size);
    StepPlaces(ring, entries, i, p);
  }

  lemma StepPlaces(ring: Ring, entries: seq<Entry>, i: nat, p: Plan)
    requires ring.Valid() && i + 1 < |entries| && TensorAt(entries, i) && entries[i].offset <= entries[i + 1].offset
    requires Indexed(p) && p.size <= ring.worldChunkSize && Fits(ring, p, entries[i + 1].offset - entries[i].offset)
    ensures Step(ring, entries, i, p) == Place(ring, p, entries[i], entries[i + 1].offset - entries[i].offset)
  {
    StepOfTensor(ring, entries, i, p);
  }

  lemma PlaceMoves(ring: Ring, p: Plan, e: Entry, size: nat)
    requires ring.Valid() && Indexed(p) && p.size <= ring.worldChunkSize
    ensures Place(ring, p, e, size).deviceOffset == Append(ring, p, size).deviceOffset
    ensures Place(ring, p, e, size).size == Append(ring, p, size).size
  {
  }

  lemma OverflowStart(r: Ring, es: seq<Entry>)
    requires r == OverflowRing() && es == OverflowEntries()
    ensures r.Valid()
    ensures Run(r, es, 1).deviceOffset == 16 && Run(r, es, 1).size == 16384
  {
    var p := Run(r, es, 0);
    assert p == Start(r, es);
    assert p.deviceOffset == 16 && p.size == 0;
    StepThatFits(r, es, 0, p);
  }

  lemma OverflowSecond(r: Ring, es: seq<Entry>)
    requires r == OverflowRing() && es == OverflowEntries()
    ensures r.Valid()
    ensures Run(r, es, 2).deviceOffset == 16400 && Run(r, es, 2).size == 16384
  {
    OverflowStart(r, es);
    StepThatFits(r, es, 1, Run(r, es, 1));
  }

  lemma OverflowFits(r: Ring, p: Plan)
    requires r == OverflowRing() && p.deviceOffset == 16400 && p.size == 16384
    ensures r.Valid() && Fits(r, p, 8192)
  {
    assert RoundUp(24576, 4096) == 24576;
  }

  lemma OverflowFile(r: Ring, es: seq<Entry>)
    requires r == OverflowRing() && es == OverflowEntries()
    ensures r.Valid()
    ensures Run(r, es, 3).deviceOffset == 32784 && Run(r, es, 3).size == 8192
  {
    OverflowSecond(r, es);
    var p := Run(r, es, 2);
    OverflowFits(r, p);
    StepThatFits(r, es, 2, p);
  }

  lemma OverflowSwitch(r: Ring, es: seq<Entry>, p: Plan)
    requires r == OverflowRing() && es == OverflowEntries()
    requires Indexed(p) && p.deviceOffset == 32784 && p.size == 8192
    ensures r.Valid()
    ensures Step(r, es, 3, p).deviceOffset == 40992 && Step(r, es, 3, p).size == 4000
  {
  }

  lemma OverflowRun(r: Ring, es: seq<Entry>)
    requires r == OverflowRing() && es == OverflowEntries()
    ensures r.Valid()
    ensures Run(r, es, 4).deviceOffset == 40992 && Run(r, es, 4).size == 4000
  {
    OverflowFile(r, es);
    OverflowSwitch(r, es, Run(r, es, 3));
  }

  lemma HeaderOverflow(r: Ring, es: seq<Entry>)
    requires r == OverflowRing() && es == OverflowEntries()
    ensures r.Valid() && WellFormed(es) && AllRoomy(r, es)
    ensures !AllInside(r, Layout(r, es).chunks, false)
  {
    OverflowHeader(r, es);
    OverflowRoomy(r, es);
    ChunksInsideIff(r, es, false);
  }

  lemma OverflowHeader(r: Ring, es: seq<Entry>)
    requires r == OverflowRing() && es == OverflowEntries()
    ensures r.Valid() && !HeadersFit(r, es, |es| - 1, false)
  {
    OverflowRun(r, es);
    assert FileFirst(es, 4) && !HeaderFits(r, es, 4, false);
  }

  lemma OverflowRoomy(r: Ring, es: seq<Entry>)
    requires r == OverflowRing() && es == OverflowEntries()
    ensures r.Valid() && WellFormed(es) && AllRoomy(r, es)
  {
    OverflowInputs(es);
  }

  lemma OverflowInputs(es: seq<Entry>)
    requires es == OverflowEntries()
    ensures WellFormed(es)
    ensures Inputs(es, 5) ==
      [Input(0, 4096, 16384, 4096), Input(0, 20480, 16384, 4096), Input(0, 36864, 8192, 4096),
       Input(1, 8096, 16384, 8096)]
  {
    assert Inputs(es, 1) == [Input(0, 4096, 16384, 4096)];
    assert Inputs(es, 2) == Inputs(es, 1) + [Input(0, 20480, 16384, 4096)];
    assert Inputs(es, 3) == Inputs(es, 2) + [Input(0, 36864, 8192, 4096)];
    assert Inputs(es, 4) == Inputs(es, 3);
    assert FileStart(es, 5) == FileStart(es, 4) == 8096;
  }

  // ----- why the buffer needs padding

  /** Any tensor of any list stays inside the buffer exactly if it fits behind what is pending, padding included, or, at
      the start of a new pass, behind the rest of the last page and a gap of 1 to 16 bytes. `compute_layout` checks
      neither: it is up to `init_buffer` to make the buffer large enough. */
  lemma TensorInsideIff(ring: Ring, entries: seq<Entry>, i: nat)
    requires ring.Valid() && WellFormed(entries) && i + 1 < |entries| && TensorAt(entries, i)
    ensures var p := Run(ring, entries, i);
      var j, size, rest := |p.tensors|, NextInput(entries, i).size, p.size % ring.threadAlignment;
      && j < |Layout(ring, entries).tensors|
      && (Inside(ring, Layout(ring, entries).tensors[j]) <==>
            Fits(ring, p, size) || rest + AlignGap(rest) + size <= ring.bufferSize)
  {
    hide Run, Step, Layout, Place, MakeRoom, Append, Fits, WellFormed;
    var p, size := Run(ring, entries, i), NextInput(entries, i).size;
    RunPositioned(ring, entries, i);
    PlacedInsideIff(ring, p, entries[i], size);
    StepOfTensor(ring, entries, i, p);
    RunStep(ring, entries, i);
    RunKeepsTensor(ring, entries, i + 1, |entries| - 1, |p.tensors|);
    LayoutPlaced(ring, entries, Run(ring, entries, |entries| - 1));
  }

  lemma PlacedInsideIff(ring: Ring, p: Plan, e: Entry, size: nat)
    requires ring.Valid() && Indexed(p) && p.size <= ring.worldChunkSize && p.fileOffset + p.size == e.offset
    ensures var q, rest := Place(ring, MakeRoom(ring, p, size), e, size), p.size % ring.threadAlignment;
      && |q.tensors| == |p.tensors| + 1
      && (Inside(ring, q.tensors[|p.tensors|]) <==>
            Fits(ring, p, size) || rest + AlignGap(rest) + size <= ring.bufferSize)
  {
    var r := MakeRoom(ring, p, size);
    PlaceEnd(ring, r, e, size);
    RoundUpIs(p.size + size, ring.worldChunkAlignment);
    RoundDownIs(p.size, ring.threadAlignment);
  }

  lemma RunKeepsTensor(ring: Ring, entries: seq<Entry>, i: nat, n: nat, j: nat)
    requires ring.Valid() && i <= n < |entries| && j < |Run(ring, entries, i).tensors|
    ensures j < |Run(ring, entries, n).tensors|
    ensures SamePlace(Run(ring, entries, n).tensors[j], Run(ring, entries, i).tensors[j])
  {
    hide Step, Start;
    if i < n {
      RunKeepsTensor(ring, entries, i, n - 1, j);
      StepKeepsTensor(ring, entries, n - 1, Run(ring, entries, n - 1), j);
    }
  }

  lemma StepKeepsTensor(ring: Ring, entries: seq<Entry>, i: nat, p: Plan, j: nat)
    requires ring.Valid() && i + 1 < |entries| && Indexed(p) && p.size <= ring.worldChunkSize && j < |p.tensors|
    ensures j < |Step(ring, entries, i, p).tensors|
    ensures SamePlace(Step(ring, entries, i, p).tensors[j], p.tensors[j])
  {
    if TensorAt(entries, i) {
      var size := if entries[i].offset <= entries[i + 1].offset then entries[i + 1].offset - entries[i].offset else 0;
      AppendTensors(ring, MakeRoom(ring, p, size), size, j);
    }
  }

  /** For instance a list of one tensor: if its file's data starts at a page boundary, a buffer of the tensor's size
      passes the size check, and the tensor is placed past its end. */
  lemma LoneTensorInsideIff(ring: Ring, offset: nat, size: nat, es: seq<Entry>)
    requires ring.Valid() && es == [Entry(0, offset), Entry(0, offset + size)]
    ensures WellFormed(es)
    ensures var q, header := Layout(ring, es), offset % ring.threadAlignment;
      && |q.tensors| == 1
      && (Inside(ring, q.tensors[0]) <==> header + AlignGap(header) + size <= ring.bufferSize)
  {
    LoneStart(ring, es);
    DivModUnique(offset % ring.threadAlignment, ring.threadAlignment, 0, offset % ring.threadAlignment);
    RoundUpIs(offset % ring.threadAlignment + size, ring.worldChunkAlignment);
    TensorInsideIff(ring, es, 0);
    LoneCount(ring, es);
  }

  lemma LoneCount(ring: Ring, es: seq<Entry>)
    requires ring.Valid() && |es| == 2 && TensorAt(es, 0)
    ensures |Layout(ring, es).tensors| == 1
  {
    hide Append;
    LoneStart(ring, es);
    RunStep(ring, es, 0);
    LayoutPlaced(ring, es, Run(ring, es, 1));
  }

  lemma LoneStart(ring: Ring, es: seq<Entry>)
    requires ring.Valid() && |es| > 0
    ensures var p, header := Run(ring, es, 0), es[0].offset % ring.threadAlignment;
      && p.tensors == [] && p.size == header && p.fileOffset + header == es[0].offset
      && p.deviceOffset == AlignGap(header)
  {
    RoundDownIs(es[0].offset, ring.threadAlignment);
    RoundUpMultiple(0, FIRST_TENSOR_ALIGNMENT);
  }

  lemma PlaceEnd(ring: Ring, p: Plan, e: Entry, size: nat)
    requires ring.Valid() && Indexed(p) && p.size <= ring.worldChunkSize
    ensures var q, n := Place(ring, p, e, size), |p.tensors|;
      && |q.tensors| == n + 1 && q.tensors[n].deviceOffset == e.offset - p.fileOffset + p.deviceOffset
      && End(q.tensors[n]) == q.tensors[n].deviceOffset + size && q.tensors[n].lastChunk == |q.chunks|
  {
  }
}
