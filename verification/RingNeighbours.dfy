/** What buffer keeps neighbouring tensors apart, and what lets one be loaded while the one before it is in use. */
module RingNeighbours {
  import opened RoundMath
  import opened RingLayout
  import opened RingSafety
  import opened RingRun
  import opened RingBounds
  import opened RingPasses
  import opened RingCover
  import opened RingSharp
  import opened RingFit

  // ----- neighbouring tensors

  /** The tensors share no byte of the buffer. */
  predicate Separate(t: Tensor, u: Tensor) {
    End(t) <= u.deviceOffset || End(u) <= t.deviceOffset
  }

  /** What is pending ends where the last tensor ends, or behind a file switch at most this far behind it. */
  predicate TailNear(ring: Ring, p: Plan)
    requires ring.Valid()
  {
    p.tensors != [] ==>
      var end, tail := End(p.tensors[|p.tensors| - 1]), p.deviceOffset + p.size;
      end <= tail < end + ring.worldChunkAlignment + ring.threadAlignment + 31
  }

  lemma TailOfTensor(ring: Ring, entries: seq<Entry>, i: nat)
    requires ring.Valid() && WellFormed(entries) && i + 1 < |entries| && TensorAt(entries, i)
    ensures var q := Run(ring, entries, i + 1);
      q.tensors != [] && q.deviceOffset + q.size == End(q.tensors[|q.tensors| - 1])
  {
    hide Run, Step, MakeRoom, Place, Adjacent;
    assert entries[i].offset <= entries[i + 1].offset by {
      InOrder(entries, i);
    }
    var p, size := Run(ring, entries, i), entries[i + 1].offset - entries[i].offset;
    RunPositioned(ring, entries, i);
    StepOfTensor(ring, entries, i, p);
    RunStep(ring, entries, i);
    PlaceTail(ring, p, entries[i], size);
  }

  lemma InOrder(entries: seq<Entry>, i: nat)
    requires WellFormed(entries) && i + 1 < |entries| && TensorAt(entries, i)
    ensures entries[i].offset <= entries[i + 1].offset
  {
    assert Adjacent(entries, i);
  }

  lemma PlaceTail(ring: Ring, p: Plan, e: Entry, size: nat)
    requires ring.Valid() && Indexed(p) && p.size <= ring.worldChunkSize && p.fileOffset % ring.threadAlignment == 0
    requires p.fileOffset + p.size == e.offset
    ensures var q := Place(ring, MakeRoom(ring, p, size), e, size);
      q.tensors != [] && q.deviceOffset + q.size == End(q.tensors[|q.tensors| - 1])
  {
    hide Append, MakeRoom;
    var r := MakeRoom(ring, p, size);
    AlignedRoom(ring, p, size);
    AppendMoves(ring, r, size);
    PlaceEnd(ring, r, e, size);
  }

  lemma TailOfSwitch(ring: Ring, p: Plan, e: Entry)
    requires ring.Valid() && Indexed(p) && p.tensors != []
    requires p.deviceOffset + p.size == End(p.tensors[|p.tensors| - 1])
    ensures TailNear(ring, OpenFile(ring, Finish(ring, p), e))
  {
    RoundUpIs(p.size, ring.worldChunkAlignment);
    RoundUpIs(Finish(ring, p).deviceOffset, FIRST_TENSOR_ALIGNMENT);
  }

  lemma RunTail(ring: Ring, entries: seq<Entry>, i: nat)
    requires ring.Valid() && WellFormed(entries) && i < |entries|
    ensures TailNear(ring, Run(ring, entries, i))
  {
    hide TailNear;
    if i == 0 {
      TailAtStart(ring, entries);
    } else if TensorAt(entries, i - 1) {
      TailOfTensor(ring, entries, i - 1);
      TailIsNear(ring, Run(ring, entries, i));
    } else {
      assert Adjacent(entries, i - 1) && TensorAt(entries, i - 2);
      TailOfTensor(ring, entries, i - 2);
      RunStep(ring, entries, i - 1);
      TailOfSwitch(ring, Run(ring, entries, i - 1), entries[i]);
    }
  }

  lemma TailAtStart(ring: Ring, entries: seq<Entry>)
    requires ring.Valid() && |entries| > 0
    ensures TailNear(ring, Run(ring, entries, 0))
  {
  }

  lemma TailIsNear(ring: Ring, p: Plan)
    requires ring.Valid() && p.tensors != [] && p.deviceOffset + p.size == End(p.tensors[|p.tensors| - 1])
    ensures TailNear(ring, p)
  {
  }

  /** The iteration that places tensor j. */
  lemma {:induction false} EntryOfTensor(ring: Ring, entries: seq<Entry>, n: nat, j: nat) returns (i: nat)
    requires ring.Valid() && WellFormed(entries) && n < |entries| && j < |Run(ring, entries, n).tensors|
    ensures i < n && TensorAt(entries, i) && entries[i].offset <= entries[i + 1].offset
    ensures |Run(ring, entries, i).tensors| == j
  {
    hide Step;
    RunPositioned(ring, entries, n);
    InputsCountUp(entries, n);
    i := n;
    while i > 0 && |Run(ring, entries, i).tensors| > j
      invariant i <= n && (i < n ==> |Run(ring, entries, i + 1).tensors| > j)
    {
      i := i - 1;
    }
    RunPositioned(ring, entries, i);
    RunPositioned(ring, entries, i + 1);
    assert Adjacent(entries, i);
  }

  lemma InputsCountUp(entries: seq<Entry>, n: nat)
    requires WellFormed(entries) && n < |entries|
    ensures Inputs(entries, 0) == []
    ensures n > 0 ==> |Inputs(entries, n)| == |Inputs(entries, n - 1)| + if TensorAt(entries, n - 1) then 1 else 0
  {
    assert n > 0 ==> Adjacent(entries, n - 1);
  }

  /** The buffer that OPEN makes when `requested` bytes are asked for is at least this large. */
  function Padded(ring: Ring, requested: nat): nat {
    requested + 3 * (16 + ring.threadAlignment + ring.worldChunkAlignment)
  }

  /** With a buffer for the tensor before it and twice the tensor itself, a tensor never lies over the one before it: it
      follows it in the same pass, or starts the next pass and ends well in front of it. */
  lemma NeighboursApart(ring: Ring, entries: seq<Entry>, j: nat, requested: nat)
    requires ring.Valid() && WellFormed(entries) && j + 1 < |Layout(ring, entries).tensors|
    requires requested >= Layout(ring, entries).tensors[j].size + 2 * Layout(ring, entries).tensors[j + 1].size
    requires ring.bufferSize >= Padded(ring, requested)
    ensures |LayoutPasses(ring, entries).tensors| == |Layout(ring, entries).tensors|
    ensures var t, u, k := Layout(ring, entries).tensors[j], Layout(ring, entries).tensors[j + 1],
                           LayoutPasses(ring, entries).tensors;
      if k[j + 1] == k[j] then End(t) <= u.deviceOffset
      else
        && k[j + 1] == k[j] + 1
        && End(u) + (requested - t.size - 2 * u.size) + ring.worldChunkAlignment < t.deviceOffset
  {
    hide Run, Layout, LayoutPasses, Adjacent, Inputs;
    var n := |entries| - 1;
    LayoutPlaced(ring, entries, Run(ring, entries, n));
    var i := EntryOfTensor(ring, entries, n, j + 1);
    var p, size := Run(ring, entries, i), entries[i + 1].offset - entries[i].offset;
    var up := RoundUp(p.size + size, ring.worldChunkAlignment);
    RoundUpIs(p.size + size, ring.worldChunkAlignment);
    NewPassIff(ring, entries, i, up);
    RunTail(ring, entries, i);
    RunKeepsTensor(ring, entries, i, n, j);
    assert SamePlace(Run(ring, entries, n).tensors[j], Layout(ring, entries).tensors[j]);
  }

  /** Whatever the buffer, the tensor of iteration i lies apart from the one before it exactly if it does not start a
      new pass, or ends, behind the rest of the last page at the buffer's start, in front of that tensor (or that
      tensor is over before). */
  lemma SeparateIff(ring: Ring, entries: seq<Entry>, i: nat, up: nat)
    requires ring.Valid() && WellFormed(entries) && i + 1 < |entries| && TensorAt(entries, i)
    requires entries[i].offset <= entries[i + 1].offset && Run(ring, entries, i).tensors != []
    requires LeastMultiple(up, Run(ring, entries, i).size + (entries[i + 1].offset - entries[i].offset),
                           ring.worldChunkAlignment)
    ensures var p, ts := Run(ring, entries, i), Layout(ring, entries).tensors;
      var j, size := |p.tensors|, entries[i + 1].offset - entries[i].offset;
      var rest := p.size % ring.threadAlignment;
      var place := rest + 16 - rest % 16;
      && j < |ts|
      && (Separate(ts[j - 1], ts[j]) <==>
            (p.deviceOffset + up > ring.bufferSize ==>
               place + size <= ts[j - 1].deviceOffset || End(ts[j - 1]) <= place))
  {
    hide Run, Layout, LayoutPasses, Adjacent, Inputs;
    var n, j := |entries| - 1, |Run(ring, entries, i).tensors|;
    NewPassIff(ring, entries, i, up);
    LayoutPlaced(ring, entries, Run(ring, entries, n));
    RunTail(ring, entries, i);
    RunKeepsTensor(ring, entries, i, n, j - 1);
    assert SamePlace(Run(ring, entries, n).tensors[j - 1], Layout(ring, entries).tensors[j - 1]);
  }

  // ----- loading a tensor while the one before it is in use

  /** While a tensor is in use, the next one can be loaded completely exactly if it is in the same pass over the ring,
      or its last chunk, padding included, ends in front of the tensor in use. */
  lemma LoadsWhileIff(ring: Ring, entries: seq<Entry>, j: nat)
    requires ring.Valid() && WellFormed(entries) && j + 1 < |Layout(ring, entries).tensors|
    requires Layout(ring, entries).tensors[j + 1].size > 0
    ensures var q, k := Layout(ring, entries), LayoutPasses(ring, entries);
      var t, last := q.tensors[j], q.tensors[j + 1].lastChunk;
      && |k.tensors| == |q.tensors| && 0 <= last < |q.chunks|
      && (last <= t.prefetchChunk <==>
            k.tensors[j + 1] == k.tensors[j] || PaddedEnd(ring, q.chunks[last]) <= t.deviceOffset)
  {
    hide Run, Layout, LayoutPasses, Adjacent, Sharp;
    var q, k := Layout(ring, entries), LayoutPasses(ring, entries);
    LastChunkHolds(ring, entries, j + 1);
    NextPass(ring, entries, j);
    PrefetchSharp(ring, entries, j);
    var m := q.tensors[j].prefetchChunk + 1;
    var last := q.tensors[j + 1].lastChunk;
    SharpIs(ring, q, k, j);
    if last < m {
      assert Clears(ring, q.chunks, k.chunks, q.tensors[j], k.tensors[j], last);
    } else if m < last {
      SamePassApart(ring, entries, m, last);
      PaddedGrows(ring, q.chunks[last]);
    }
  }

  lemma SharpIs(ring: Ring, q: Plan, k: Passes, j: nat)
    requires ring.Valid() && j < |q.tensors| == |k.tensors| && |k.chunks| == |q.chunks| && Sharp(ring, q, k, j)
    ensures var m := q.tensors[j].prefetchChunk + 1;
      && 0 <= m <= |q.chunks|
      && (forall c: nat | c < m :: Clears(ring, q.chunks, k.chunks, q.tensors[j], k.tensors[j], c))
      && (m < |q.chunks| ==> Stops(ring, q.chunks, k.chunks, q.tensors[j], k.tensors[j], m))
  {
  }

  /** Consecutive tensors are in the same or in consecutive passes. */
  lemma NextPass(ring: Ring, entries: seq<Entry>, j: nat)
    requires ring.Valid() && WellFormed(entries) && j + 1 < |Layout(ring, entries).tensors|
    ensures var k := LayoutPasses(ring, entries).tensors;
      |k| == |Layout(ring, entries).tensors| && k[j] <= k[j + 1] <= k[j] + 1
  {
    hide Run, Layout, LayoutPasses, Adjacent, Inputs;
    var n := |entries| - 1;
    LayoutPlaced(ring, entries, Run(ring, entries, n));
    var i := EntryOfTensor(ring, entries, n, j + 1);
    var p, size := Run(ring, entries, i), entries[i + 1].offset - entries[i].offset;
    var up := RoundUp(p.size + size, ring.worldChunkAlignment);
    RoundUpIs(p.size + size, ring.worldChunkAlignment);
    NewPassIff(ring, entries, i, up);
  }

  /** With such a buffer all chunks of a tensor but its last one can be loaded while the tensor before it is in use, and
      the last one too if it ends in front of that tensor. */
  lemma NeighbourLoads(ring: Ring, entries: seq<Entry>, j: nat, requested: nat)
    requires ring.Valid() && WellFormed(entries) && j + 1 < |Layout(ring, entries).tensors|
    requires requested >= Layout(ring, entries).tensors[j].size + 2 * Layout(ring, entries).tensors[j + 1].size
    requires ring.bufferSize >= Padded(ring, requested) && Layout(ring, entries).tensors[j + 1].size > 0
    ensures Layout(ring, entries).tensors[j + 1].lastChunk <= Layout(ring, entries).tensors[j].prefetchChunk + 1
  {
    hide Run, Layout, LayoutPasses, Adjacent, Sharp;
    var q, k := Layout(ring, entries), LayoutPasses(ring, entries);
    NeighboursApart(ring, entries, j, requested);
    LastChunkHolds(ring, entries, j + 1);
    PrefetchSharp(ring, entries, j);
    SharpIs(ring, q, k, j);
    var m, last := q.tensors[j].prefetchChunk + 1, q.tensors[j + 1].lastChunk;
    if m < last {
      SamePassApart(ring, entries, m, last);
    }
  }

  /** With room for a chunk more, all of it. */
  lemma NeighbourLoadsAll(ring: Ring, entries: seq<Entry>, j: nat, requested: nat)
    requires ring.Valid() && WellFormed(entries) && j + 1 < |Layout(ring, entries).tensors|
    requires requested >= Layout(ring, entries).tensors[j].size + 2 * Layout(ring, entries).tensors[j + 1].size
                            + ring.worldChunkSize
    requires ring.bufferSize >= Padded(ring, requested) && Layout(ring, entries).tensors[j + 1].size > 0
    ensures Layout(ring, entries).tensors[j + 1].lastChunk <= Layout(ring, entries).tensors[j].prefetchChunk
  {
    hide Run, Layout, LayoutPasses, Adjacent;
    var q := Layout(ring, entries);
    NeighboursApart(ring, entries, j, requested);
    LastChunkHolds(ring, entries, j + 1);
    LoadsWhileIff(ring, entries, j);
    RoundUpIs(q.chunks[q.tensors[j + 1].lastChunk].size, ring.worldChunkAlignment);
    ChunkSizes(ring, entries, q.tensors[j + 1].lastChunk);
  }

  ghost predicate SizesOk(ring: Ring, chunks: seq<Chunk>) {
    forall d | d in chunks :: d.size <= ring.worldChunkSize
  }

  lemma ChunkSizes(ring: Ring, entries: seq<Entry>, c: nat)
    requires ring.Valid() && WellFormed(entries) && c < |Layout(ring, entries).chunks|
    ensures Layout(ring, entries).chunks[c].size <= ring.worldChunkSize
  {
    hide Run, Step, Finish, Layout, SizesOk, Adjacent;
    var n := |entries| - 1;
    SizesAtStart(ring, entries);
    for i := 0 to n
      invariant SizesOk(ring, Run(ring, entries, i).chunks)
    {
      StepSizes(ring, entries, i, Run(ring, entries, i));
      RunStep(ring, entries, i);
    }
    FinishSizes(ring, Run(ring, entries, n));
    LayoutEnds(ring, entries);
    SizeIsOk(ring, Layout(ring, entries).chunks, c);
  }

  lemma SizeIsOk(ring: Ring, chunks: seq<Chunk>, c: nat)
    requires SizesOk(ring, chunks) && c < |chunks|
    ensures chunks[c].size <= ring.worldChunkSize
  {
  }

  lemma SizesAtStart(ring: Ring, entries: seq<Entry>)
    requires ring.Valid() && |entries| > 0
    ensures SizesOk(ring, Run(ring, entries, 0).chunks)
  {
  }

  lemma FinishSizes(ring: Ring, p: Plan)
    requires ring.Valid() && Indexed(p) && p.size <= ring.worldChunkSize
    requires SizesOk(ring, p.chunks)
    ensures SizesOk(ring, Finish(ring, p).chunks)
  {
  }

  lemma AppendSizes(ring: Ring, p: Plan, left: nat)
    requires ring.Valid() && Indexed(p) && p.size <= ring.worldChunkSize
    requires SizesOk(ring, p.chunks)
    ensures SizesOk(ring, Append(ring, p, left).chunks)
    decreases p.size + left
  {
    if p.size + left > ring.worldChunkSize {
      var full := p.(size := ring.worldChunkSize);
      FinishSize(ring, full);
      FinishSizes(ring, full);
      AppendSizes(ring, Finish(ring, full), p.size + left - ring.worldChunkSize);
    }
  }

  lemma StepSizes(ring: Ring, entries: seq<Entry>, i: nat, p: Plan)
    requires ring.Valid() && i + 1 < |entries| && Indexed(p) && p.size <= ring.worldChunkSize
    requires SizesOk(ring, p.chunks)
    ensures SizesOk(ring, Step(ring, entries, i, p).chunks)
  {
    FinishSizes(ring, p);
    if TensorAt(entries, i) {
      var size := if entries[i].offset <= entries[i + 1].offset then entries[i + 1].offset - entries[i].offset else 0;
      AppendSizes(ring, MakeRoom(ring, p, size), size);
    }
  }

  // ----- where such a buffer does not do, and where less does not

  /** Chunks of 49152 bytes, and the buffer for `requested` bytes. */
  function SmallRing(requested: nat): Ring {
    var ring := Ring(4096, 4096, 49152, 0);
    ring.(bufferSize := Padded(ring, requested))
  }

  /** One file with tensors of 45056 and 16384 bytes, one of `size` bytes and perhaps more. */
  predicate StartsWith(es: seq<Entry>, size: nat) {
    && |es| >= 4
    && es[..4] == [Entry(0, 4096), Entry(0, 49152), Entry(0, 65536), Entry(0, 65536 + size)]
  }

  lemma SmallStart(requested: nat, r: Ring, es: seq<Entry>, size: nat)
    requires r == SmallRing(requested) && StartsWith(es, size)
    ensures r.Valid() && es[0] == Entry(0, 4096) && es[1] == Entry(0, 49152) && es[2] == Entry(0, 65536)
    ensures es[3] == Entry(0, 65536 + size)
  {
    assert es[0] == es[..4][0] && es[1] == es[..4][1] && es[2] == es[..4][2] && es[3] == es[..4][3];
  }

  lemma SmallRun1(requested: nat, r: Ring, es: seq<Entry>, size: nat)
    requires r == SmallRing(requested) && StartsWith(es, size) && requested >= 36832
    ensures r.Valid()
    ensures var q, l := Run(r, es, 1), PassRun(r, es, 1);
      && q.deviceOffset == 16 && q.size == 45056 && q.chunks == [] && |q.tensors| == 1 && l == Passes(0, [0], [])
  {
    hide Step, PassStep;
    SmallStart(requested, r, es, size);
    var p := Run(r, es, 0);
    LoneStart(r, es);
    assert p.chunks == [];
    RoundUpMultiple(45056, 4096);
    FitStep(r, es, 0, p, PassRun(r, es, 0), 45056);
  }

  lemma SmallRun2(requested: nat, r: Ring, es: seq<Entry>, size: nat)
    requires r == SmallRing(requested) && StartsWith(es, size) && requested >= 36832 && WellFormed(es)
    ensures r.Valid()
    ensures var q, l := Run(r, es, 2), PassRun(r, es, 2);
      && q.deviceOffset == 49168 && q.size == 12288 && |q.chunks| == 1 && l == Passes(0, [0, 0], [0])
      && |q.tensors| == 2 && q.tensors[1].deviceOffset == 45072 && q.tensors[1].size == 16384
  {
    hide Step, PassStep, WellFormed;
    SmallStart(requested, r, es, size);
    SmallRun1(requested, r, es, size);
    RunPositioned(r, es, 1);
    RoundUpMultiple(61440, 4096);
    FitStep(r, es, 1, Run(r, es, 1), PassRun(r, es, 1), 16384);
  }

  /** The third tensor starts a new pass and lies at the buffer's start. */
  lemma SmallRun3(requested: nat, r: Ring, es: seq<Entry>, size: nat)
    requires r == SmallRing(requested) && StartsWith(es, size) && WellFormed(es)
    requires 36832 <= requested < 36832 + size && size <= 49152
    ensures r.Valid()
    ensures var q, l := Run(r, es, 3), PassRun(r, es, 3);
      && q.deviceOffset == 16 && q.size == size && |q.chunks| == 2 && l == Passes(1, [0, 0, 1], [0, 0])
      && |q.tensors| == 3 && q.tensors[2].deviceOffset == 16 && q.tensors[2].size == size
  {
    hide Step, PassStep, WellFormed;
    SmallStart(requested, r, es, size);
    SmallRun2(requested, r, es, size);
    RoundUpIs(12288 + size, 4096);
    WrapStep(r, es, 2, Run(r, es, 2), PassRun(r, es, 2), size);
    TailOfTensor(r, es, 2);
    PlacedSize(r, es, 2);
  }

  lemma InputsAtMost(es: seq<Entry>, n: nat, most: nat)
    requires n < |es| && forall i: nat | i < n :: es[i + 1].offset - es[i].offset <= most
    ensures forall x | x in Inputs(es, n) :: x.size <= most
  {
    if n > 0 {
      InputsAtMost(es, n - 1, most);
    }
  }

  /** The list that ends with the third tensor: it lies over the second one, although the buffer holds both. */
  function OverlapEntries(size: nat): seq<Entry> {
    [Entry(0, 4096), Entry(0, 49152), Entry(0, 65536), Entry(0, 65536 + size)]
  }

  /** With room for the two tensors, but not for the second of them twice, they can overlap: none of the second one's
      last chunk can be loaded while the first is in use. */
  lemma LessOverlaps(requested: nat, size: nat, r: Ring, es: seq<Entry>)
    requires r == SmallRing(requested) && es == OverlapEntries(size) && 45056 < size <= 49152
    requires 16384 + size <= requested < 36832 + size
    ensures r.Valid() && WellFormed(es) && AllRoomy(r, es)
    ensures var ts := Layout(r, es).tensors;
      && |ts| == 3 && ts[1].size == 16384 && ts[2].size == size
      && ts[2].deviceOffset < ts[1].deviceOffset < End(ts[2]) && ts[1].prefetchChunk < ts[2].lastChunk
  {
    hide Layout, LayoutPasses, Step, PassStep;
    SmallRun3(requested, r, es, size);
    SmallRun2(requested, r, es, size);
    LayoutPlaced(r, es, Run(r, es, 3));
    RunKeepsTensor(r, es, 2, 3, 1);
    LayoutPassTensors(r, es);
    LoadsWhileIff(r, es, 1);
    LastChunkHolds(r, es, 2);
    RoundUpIs(Layout(r, es).chunks[Layout(r, es).tensors[2].lastChunk].size, 4096);
    InputsAtMost(es, 3, 49152);
  }

  /** The list in which a fourth tensor fills the rest of the third one's chunk. */
  function SharedEntries(size: nat): seq<Entry> {
    [Entry(0, 4096), Entry(0, 49152), Entry(0, 65536), Entry(0, 65536 + size), Entry(0, 114688)]
  }

  /** With room for a tensor and twice the next one they are apart, but the next one's last chunk can still reach the
      tensor in use, by what follows in the chunk. */
  lemma SharedChunk(requested: nat, size: nat, r: Ring, es: seq<Entry>)
    requires r == SmallRing(requested) && es == SharedEntries(size) && 10224 <= size < 20448
    requires requested == 16384 + 2 * size
    ensures r.Valid() && WellFormed(es) && AllRoomy(r, es)
    ensures var ts := Layout(r, es).tensors;
      && |ts| == 4 && ts[1].size == 16384 && ts[2].size == size
      && End(ts[2]) <= ts[1].deviceOffset && ts[1].prefetchChunk < ts[2].lastChunk
  {
    hide Layout, LayoutPasses, Step, PassStep;
    SmallRun3(requested, r, es, size);
    SmallRun2(requested, r, es, size);
    SharedRun(requested, r, es, size);
    LayoutPlaced(r, es, Run(r, es, 4));
    RunKeepsTensor(r, es, 2, 4, 1);
    RunKeepsTensor(r, es, 3, 4, 2);
    LayoutPassTensors(r, es);
    LoadsWhileIff(r, es, 1);
    LastChunkHolds(r, es, 2);
    InputsAtMost(es, 4, 49152);
  }

  lemma SharedRun(requested: nat, r: Ring, es: seq<Entry>, size: nat)
    requires r == SmallRing(requested) && es == SharedEntries(size) && WellFormed(es)
    requires 36832 <= requested < 36832 + size && size <= 49152
    ensures r.Valid() && |PassRun(r, es, 4).tensors| == 4 && PassRun(r, es, 4).tensors[..3] == [0, 0, 1]
    ensures var q, k := Layout(r, es), LayoutPasses(r, es);
      && |q.chunks| == 3 && k.chunks == [0, 0, 1] && PaddedEnd(r, q.chunks[2]) == 49168
  {
    hide Layout, Step, PassStep, WellFormed;
    SmallStart(requested, r, es, size);
    SmallRun3(requested, r, es, size);
    RunPositioned(r, es, 3);
    RoundUpMultiple(49152, 4096);
    FitStep(r, es, 3, Run(r, es, 3), PassRun(r, es, 3), 49152 - size);
    LayoutEnds(r, es);
    var p := Run(r, es, 4);
    assert Emitted(r, es).chunks == p.chunks + [Pending(p)];
    assert LayoutPasses(r, es).chunks == PassRun(r, es, 4).chunks + [1];
  }
}
