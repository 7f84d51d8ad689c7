/** What the two chunk numbers of a tensor mean exactly: how far prefetching goes, which tensors can be requested, and
    which chunks lie apart. */
module RingSharp {
  import opened RoundMath
  import opened RingLayout
  import opened RingSafety
  import opened RingRun
  import opened RingPasses
  import opened RingBounds

  /** What is known of tensor j of the layout, with m the chunk after its prefetch chunk. */
  ghost predicate Sharp(ring: Ring, q: Plan, k: Passes, j: nat)
    requires ring.Valid() && j < |q.tensors| == |k.tensors| && |k.chunks| == |q.chunks|
  {
    var t, m, pass := q.tensors[j], q.tensors[j].prefetchChunk + 1, k.tensors[j];
    && 0 <= m <= |q.chunks| && 0 <= t.lastChunk <= |q.chunks|
    && (forall c: nat | c < m :: Clears(ring, q.chunks, k.chunks, t, pass, c))
    && (m < |q.chunks| ==>
          && Stops(ring, q.chunks, k.chunks, t, pass, m)
          && NotPast(t, q.chunks[m].deviceOffset, q.chunks[m].fileIndex, q.chunks, m))
    && (forall c: nat | t.lastChunk <= c < |q.chunks| :: NoEarlier(pass, k.chunks, c))
  }

  /** The chunk after a tensor's prefetch chunk is the first that belongs to the pass after the tensor's and ends behind
      the tensor's start, or to a later pass; and it does not start behind the tensor's start, except by at most 31
      bytes for every file opened in front of it. */
  lemma PrefetchSharp(ring: Ring, entries: seq<Entry>, j: nat)
    requires ring.Valid() && WellFormed(entries) && j < |Layout(ring, entries).tensors|
    ensures |LayoutPasses(ring, entries).tensors| == |Layout(ring, entries).tensors|
    ensures Sharp(ring, Layout(ring, entries), LayoutPasses(ring, entries), j)
  {
    LayoutPassed(ring, entries);
    LayoutEnds(ring, entries);
    SharpAtEnd(ring, Emitted(ring, entries), LayoutPasses(ring, entries), j);
  }

  lemma SharpAtEnd(ring: Ring, f: Plan, k: Passes, j: nat)
    requires ring.Valid() && Passed(ring, f, k) && j < |f.tensors|
    ensures Sharp(ring, Wrap(Wrap(f, |f.tensors|), |f.tensors|), k, j)
  {
    var q := Wrap(Wrap(f, |f.tensors|), |f.tensors|);
    var t := f.tensors[j];
    assert TensorPassed(ring, f, k, j);
    forall c: nat | c < q.tensors[j].prefetchChunk + 1
      ensures Clears(ring, q.chunks, k.chunks, q.tensors[j], k.tensors[j], c)
    {
      assert Clears(ring, f.chunks, k.chunks, t, k.tensors[j], c);
    }
  }

  /** Chunks of one pass lie apart, in order. */
  lemma SamePassApart(ring: Ring, entries: seq<Entry>, c: nat, d: nat)
    requires ring.Valid() && WellFormed(entries) && c < d < |Layout(ring, entries).chunks|
    ensures var k := LayoutPasses(ring, entries).chunks;
      && k[c] <= k[d]
      && (k[c] == k[d] ==>
            PaddedEnd(ring, Layout(ring, entries).chunks[c]) <= Layout(ring, entries).chunks[d].deviceOffset)
  {
    LayoutPassed(ring, entries);
    LayoutEnds(ring, entries);
    assert ChunksInOrder(ring, Emitted(ring, entries).chunks, LayoutPasses(ring, entries).chunks, c, d);
  }

  /** Two chunks overlap exactly if they belong to different passes and the later one begins before the end of the other
      one and ends behind its start. */
  lemma OverlapIff(ring: Ring, entries: seq<Entry>, c: nat, d: nat)
    requires ring.Valid() && WellFormed(entries) && c < d < |Layout(ring, entries).chunks|
    ensures var q, k := Layout(ring, entries), LayoutPasses(ring, entries).chunks;
      !Apart(ring, q.chunks[c], q.chunks[d]) <==>
        && k[c] < k[d]
        && q.chunks[d].deviceOffset < PaddedEnd(ring, q.chunks[c])
        && q.chunks[c].deviceOffset < PaddedEnd(ring, q.chunks[d])
  {
    SamePassApart(ring, entries, c, d);
  }

  /** A chunk that may be prefetched while a tensor is in use is apart from every earlier chunk of the tensor's pass
      that does not start in front of the tensor. */
  lemma PrefetchedApart(ring: Ring, entries: seq<Entry>, j: nat, c: nat, d: nat)
    requires ring.Valid() && WellFormed(entries) && j < |Layout(ring, entries).tensors|
    requires c < d <= Layout(ring, entries).tensors[j].prefetchChunk
    ensures d < |Layout(ring, entries).chunks|
    ensures |LayoutPasses(ring, entries).tensors| == |Layout(ring, entries).tensors|
    ensures var q, k := Layout(ring, entries), LayoutPasses(ring, entries);
      && k.chunks[c] == k.tensors[j] && q.tensors[j].deviceOffset <= q.chunks[c].deviceOffset
      ==> Apart(ring, q.chunks[c], q.chunks[d])
  {
    hide Layout, LayoutPasses;
    PrefetchSharp(ring, entries, j);
    var q, k := Layout(ring, entries), LayoutPasses(ring, entries);
    assert Clears(ring, q.chunks, k.chunks, q.tensors[j], k.tensors[j], d);
    SamePassApart(ring, entries, c, d);
  }

  /** A layout in which two chunks that are in flight together overlap: two ranks of one thread, a window of two chunks
      of 40960 bytes, a requested buffer of 81920 bytes, and two files of one tensor each. The data of the second file
      starts 4000 bytes into a page, and its tensor needs a new pass: the chunk with these bytes alone stands where the
      first chunk of the new pass is written. */
  function OverlapRing(): Ring {
    Ring(4096, 8192, 40960, 81920 + 3 * (16 + 4096 + 8192))
  }

  function OverlapEntries(): seq<Entry> {
    [Entry(0, 4096), Entry(0, 36864), Entry(1, 8096), Entry(1, 90016)]
  }

  lemma OverlapRun1(r: Ring, es: seq<Entry>)
    requires r == OverlapRing() && es == OverlapEntries()
    ensures r.Valid() && WellFormed(es)
    ensures var q, l := Run(r, es, 1), PassRun(r, es, 1);
      && q.deviceOffset == 16 && q.size == 32768 && q.chunks == [] && |q.tensors| == 1 && q.tensors[0].lastChunk == 0
      && l == Passes(0, [0], [])
  {
    hide Step, PassStep;
    var p := Run(r, es, 0);
    LoneStart(r, es);
    assert p.chunks == [];
    FitStep(r, es, 0, p, PassRun(r, es, 0), 32768);
  }

  lemma OverlapSwitchStep(r: Ring, es: seq<Entry>, p: Plan, k: Passes)
    requires r == OverlapRing() && es == OverlapEntries() && Indexed(p)
    requires p.deviceOffset == 16 && p.size == 32768 && p.chunks == []
    requires |p.tensors| == 1 && p.tensors[0].lastChunk == 0
    requires k == Passes(0, [0], [])
    ensures r.Valid()
    ensures var q, l := Step(r, es, 1, p), PassStep(r, es, 1, p, k);
      && q.deviceOffset == 32800 && q.size == 4000 && |q.chunks| == 1 && |q.tensors| == 1
      && q.tensors[0].lastChunk == 0 && l == Passes(0, [0], [0])
  {
    RoundUpMultiple(32768, 8192);
  }

  lemma OverlapRun2(r: Ring, es: seq<Entry>)
    requires r == OverlapRing() && es == OverlapEntries()
    ensures r.Valid() && WellFormed(es)
    ensures var q, l := Run(r, es, 2), PassRun(r, es, 2);
      && q.deviceOffset == 32800 && q.size == 4000 && |q.chunks| == 1 && |q.tensors| == 1
      && q.tensors[0].lastChunk == 0 && l == Passes(0, [0], [0])
  {
    hide Step, PassStep;
    OverlapRun1(r, es);
    OverlapSwitchStep(r, es, Run(r, es, 1), PassRun(r, es, 1));
  }

  /** Room for the second tensor: the header chunk is emitted and a new pass begins. */
  lemma OverlapRoom(r: Ring, p: Plan)
    requires r == OverlapRing() && Indexed(p) && p.deviceOffset == 32800 && p.size == 4000 && |p.chunks| == 1
    ensures r.Valid()
    ensures var q := MakeRoom(r, p, 81920);
      && q.deviceOffset == 16 && q.size == 4000 && q.chunks == p.chunks + [Pending(p)] && |q.tensors| == |p.tensors|
      && !Fits(r, p, 81920)
  {
    assert RoundUp(85920, 8192) == 90112;
  }

  lemma OverlapAppend(r: Ring, p: Plan)
    requires r == OverlapRing() && Indexed(p) && p.deviceOffset == 16 && p.size == 4000 && |p.chunks| == 2
    ensures r.Valid()
    ensures var q := Append(r, p, 81920);
      && |q.chunks| >= 3 && q.chunks[..2] == p.chunks && q.chunks[2] == Pending(p.(size := 40960))
  {
    AppendFirst(r, p, 81920);
    var f := Finish(r, p.(size := 40960));
    AppendMoves(r, f, 44960);
    hide Append, Finish;
    var q := Append(r, p, 81920);
    assert q.chunks[..3] == f.chunks;
    assert q.chunks[2] == f.chunks[2] && q.chunks[..2] == q.chunks[..3][..2];
  }

  lemma OverlapStep(r: Ring, es: seq<Entry>, p: Plan, k: Passes)
    requires r == OverlapRing() && es == OverlapEntries() && Indexed(p)
    requires p.deviceOffset == 32800 && p.size == 4000 && |p.chunks| == 1 && |p.tensors| == 1
    requires k == Passes(0, [0], [0])
    ensures r.Valid()
    ensures var q, l := Step(r, es, 2, p), PassStep(r, es, 2, p, k);
      && |q.chunks| >= 3 && |q.tensors| == 2 && l.tensors == [0, 1] && l.current == 1
      && q.chunks[1] == Pending(p) && q.chunks[2].deviceOffset == 16 && q.chunks[2].size == 40960
  {
    OverlapRoom(r, p);
    var room := MakeRoom(r, p, 81920);
    OverlapAppend(r, room);
    StepOfTensor(r, es, 2, p);
    hide Append, MakeRoom;
    var a := Append(r, room, 81920);
    assert Step(r, es, 2, p).chunks == a.chunks;
    assert a.chunks[1] == a.chunks[..2][1];
  }

  lemma OverlapRun3(r: Ring, es: seq<Entry>)
    requires r == OverlapRing() && es == OverlapEntries()
    ensures r.Valid() && WellFormed(es)
    ensures var q, l := Run(r, es, 3), PassRun(r, es, 3);
      && |q.chunks| >= 3 && |q.tensors| == 2 && l.tensors == [0, 1] && l.current == 1
      && q.chunks[1].deviceOffset == 32800 && q.chunks[1].size == 4000
      && q.chunks[2].deviceOffset == 16 && q.chunks[2].size == 40960
  {
    hide Step, PassStep;
    OverlapRun2(r, es);
    OverlapStep(r, es, Run(r, es, 2), PassRun(r, es, 2));
  }

  /** The first tensor is complete with chunk 0. Once the second one has been requested, the chunks 1 and 2 may both be
      posted, and they overlap. */
  lemma InFlightOverlap(r: Ring, es: seq<Entry>)
    requires r == OverlapRing() && es == OverlapEntries()
    ensures r.Valid() && WellFormed(es) && AllRoomy(r, es)
    ensures var q := Layout(r, es);
      && |q.tensors| == 2 && q.tensors[0].lastChunk == 0 && 3 <= |q.chunks| == q.tensors[1].prefetchChunk + 1
      && !Apart(r, q.chunks[1], q.chunks[2])
  {
    OverlapInputs(es);
    OverlapTables(r, es);
    OverlapPrefetch(r, es);
    RoundUpMultiple(40960, 8192);
    assert RoundUp(4000, 8192) == 8192;
  }

  lemma OverlapTables(r: Ring, es: seq<Entry>)
    requires r == OverlapRing() && es == OverlapEntries()
    ensures r.Valid() && WellFormed(es)
    ensures var q, k := Layout(r, es), LayoutPasses(r, es);
      && |q.chunks| >= 3 && |q.tensors| == 2 && q.tensors[0].lastChunk == 0 && k.tensors == [0, 1] && k.current == 1
      && q.chunks[1].deviceOffset == 32800 && q.chunks[1].size == 4000
      && q.chunks[2].deviceOffset == 16 && q.chunks[2].size == 40960
  {
    hide Run, PassRun, Step, PassStep;
    OverlapRun3(r, es);
    OverlapRun1(r, es);
    LayoutEnds(r, es);
    LayoutPlaced(r, es, Run(r, es, 3));
    RunKeepsTensor(r, es, 1, 3, 0);
  }

  /** The second tensor belongs to the last pass, so everything may be prefetched with it. */
  lemma OverlapPrefetch(r: Ring, es: seq<Entry>)
    requires r == OverlapRing() && es == OverlapEntries()
    ensures r.Valid() && WellFormed(es)
    ensures var q := Layout(r, es); |q.tensors| == 2 && q.tensors[1].prefetchChunk + 1 == |q.chunks|
  {
    OverlapTables(r, es);
    PrefetchSharp(r, es, 1);
    var q, k := Layout(r, es), LayoutPasses(r, es);
    LayoutPassed(r, es);
    LayoutEnds(r, es);
    hide Layout, LayoutPasses, Emitted;
    forall c: nat | c < |q.chunks| ensures !Stops(r, q.chunks, k.chunks, q.tensors[1], k.tensors[1], c) {
      assert ChunkPassed(r, Emitted(r, es), k, c);
    }
    NoStop(r, q, k, 1);
  }

  lemma NoStop(ring: Ring, q: Plan, k: Passes, j: nat)
    requires ring.Valid() && j < |q.tensors| == |k.tensors| && |k.chunks| == |q.chunks| && Sharp(ring, q, k, j)
    requires forall c: nat | c < |q.chunks| :: !Stops(ring, q.chunks, k.chunks, q.tensors[j], k.tensors[j], c)
    ensures q.tensors[j].prefetchChunk + 1 == |q.chunks|
  {
  }

  lemma OverlapInputs(es: seq<Entry>)
    requires es == OverlapEntries()
    ensures forall x | x in Inputs(es, 3) :: x.size <= 81920
  {
    assert Inputs(es, 1) == [Input(0, 4096, 32768, 4096)];
    assert Inputs(es, 2) == Inputs(es, 1);
    assert Inputs(es, 3) == Inputs(es, 2) + [Input(1, 8096, 81920, 8096)];
  }

  // ----- how far prefetching goes

  /** The chunk, with its padding, covers some byte of the tensor. */
  predicate Overlaps(ring: Ring, c: Chunk, t: Tensor)
    requires ring.Valid()
  {
    c.deviceOffset < End(t) && t.deviceOffset < PaddedEnd(ring, c) && t.size > 0 && c.size > 0
  }

  /** The prefetch chunk is the furthest one that does not overwrite the tensor (there is no next chunk, or the next one
      overlaps the tensor) exactly if the next chunk does not start behind the tensor and, unless it belongs to the pass
      right after the tensor's, reaches it. */
  lemma FurthestIff(ring: Ring, entries: seq<Entry>, j: nat)
    requires ring.Valid() && WellFormed(entries) && j < |Layout(ring, entries).tensors|
    requires Layout(ring, entries).tensors[j].size > 0
    ensures var q, k := Layout(ring, entries), LayoutPasses(ring, entries);
      var t, m := q.tensors[j], q.tensors[j].prefetchChunk + 1;
      && |k.tensors| == |q.tensors| && 0 <= m <= |q.chunks|
      && (m < |q.chunks| ==> (Overlaps(ring, q.chunks[m], t) <==>
            && q.chunks[m].deviceOffset < End(t)
            && (k.chunks[m] == k.tensors[j] + 1 || t.deviceOffset < PaddedEnd(ring, q.chunks[m]))))
  {
    PrefetchSharp(ring, entries, j);
    ChunksNotEmpty(ring, entries);
  }

  lemma ChunksNotEmpty(ring: Ring, entries: seq<Entry>)
    requires ring.Valid() && |entries| > 0
    ensures forall c | c in Layout(ring, entries).chunks :: c.size > 0
  {
    var n := |entries| - 1;
    for i := 0 to n
      invariant forall c | c in Run(ring, entries, i).chunks :: c.size > 0
    {
      StepNotEmpty(ring, entries, i, Run(ring, entries, i));
    }
    FinishNotEmpty(ring, Run(ring, entries, n));
  }

  lemma FinishNotEmpty(ring: Ring, p: Plan)
    requires ring.Valid() && Indexed(p) && forall c | c in p.chunks :: c.size > 0
    ensures forall c | c in Finish(ring, p).chunks :: c.size > 0
  {
  }

  lemma AppendNotEmpty(ring: Ring, p: Plan, left: nat)
    requires ring.Valid() && Indexed(p) && p.size <= ring.worldChunkSize && forall c | c in p.chunks :: c.size > 0
    ensures forall c | c in Append(ring, p, left).chunks :: c.size > 0
    decreases p.size + left
  {
    if p.size + left > ring.worldChunkSize {
      var full := p.(size := ring.worldChunkSize);
      FinishSize(ring, full);
      FinishNotEmpty(ring, full);
      AppendNotEmpty(ring, Finish(ring, full), p.size + left - ring.worldChunkSize);
    }
  }

  lemma StepNotEmpty(ring: Ring, entries: seq<Entry>, i: nat, p: Plan)
    requires ring.Valid() && i + 1 < |entries| && Indexed(p) && p.size <= ring.worldChunkSize
    requires forall c | c in p.chunks :: c.size > 0
    ensures forall c | c in Step(ring, entries, i, p).chunks :: c.size > 0
  {
    FinishNotEmpty(ring, p);
    if TensorAt(entries, i) {
      var size := if entries[i].offset <= entries[i + 1].offset then entries[i + 1].offset - entries[i].offset else 0;
      AppendNotEmpty(ring, MakeRoom(ring, p, size), size);
    }
  }

  /** A layout in which a prefetch chunk is not the furthest possible: a requested buffer of 49152 bytes, chunks of the
      same size, and four tensors. The second one stands behind all that the next pass writes. */
  function RoomyRing(): Ring {
    Ring(4096, 4096, 49152, 49152 + 3 * (16 + 4096 + 4096))
  }

  function RoomyEntries(): seq<Entry> {
    [Entry(0, 4096), Entry(0, 53248), Entry(0, 57344), Entry(0, 106496), Entry(0, 155648)]
  }

  /** One iteration on a tensor that fits behind what is pending: it fills at most one chunk more. */
  lemma FitStep(ring: Ring, es: seq<Entry>, i: nat, p: Plan, k: Passes, size: nat)
    requires ring.Valid() && i + 1 < |es| && TensorAt(es, i) && es[i].offset + size == es[i + 1].offset
    requires Indexed(p) && |k.chunks| == |p.chunks| && p.size <= ring.worldChunkSize
    requires Fits(ring, p, size) && p.size + size <= 2 * ring.worldChunkSize
    requires p.fileOffset + p.size == es[i].offset
    ensures var q, l := Step(ring, es, i, p), PassStep(ring, es, i, p, k);
      && (var more := p.size + size > ring.worldChunkSize;
          && q.chunks == p.chunks + (if more then [Pending(p.(size := ring.worldChunkSize))] else [])
          && l.chunks == k.chunks + (if more then [k.current] else [])
          && q.size == p.size + size - (if more then ring.worldChunkSize else 0)
          && q.deviceOffset == p.deviceOffset + (if more then ring.worldChunkSize else 0))
      && l.current == k.current && l.tensors == k.tensors + [k.current]
      && |q.tensors| == |p.tensors| + 1 && q.tensors[|p.tensors|].deviceOffset == p.deviceOffset + p.size
      && q.tensors[|p.tensors|].size == size && q.tensors[|p.tensors|].lastChunk == |q.chunks|
  {
    hide Append, PassStep;
    AppendOnce(ring, p, size);
    AppendOnceChunks(ring, p, size);
    StepOfTensor(ring, es, i, p);
    assert MakeRoom(ring, p, size) == p;
    PlaceEnd(ring, p, es[i], size);
    PlaceMoves(ring, p, es[i], size);
    FitPasses(ring, es, i, p, k, size);
  }

  lemma AppendOnceChunks(ring: Ring, p: Plan, left: nat)
    requires ring.Valid() && Indexed(p) && p.size <= ring.worldChunkSize && p.size + left <= 2 * ring.worldChunkSize
    ensures Append(ring, p, left).chunks ==
      p.chunks + if p.size + left > ring.worldChunkSize then [Pending(p.(size := ring.worldChunkSize))] else []
  {
    if p.size + left > ring.worldChunkSize {
      var full, rest := p.(size := ring.worldChunkSize), p.size + left - ring.worldChunkSize;
      FinishSize(ring, full);
      assert Append(ring, Finish(ring, full), rest).chunks == Finish(ring, full).chunks;
    }
  }

  lemma FitPasses(ring: Ring, es: seq<Entry>, i: nat, p: Plan, k: Passes, size: nat)
    requires ring.Valid() && i + 1 < |es| && TensorAt(es, i) && es[i].offset + size == es[i + 1].offset
    requires Indexed(p) && |k.chunks| == |p.chunks| && p.size <= ring.worldChunkSize && Fits(ring, p, size)
    ensures |p.chunks| <= |Step(ring, es, i, p).chunks|
    ensures PassStep(ring, es, i, p, k) ==
      Passes(k.current, k.tensors + [k.current], Filled(k.chunks, |Step(ring, es, i, p).chunks|, k.current))
  {
    hide Append;
    AppendMoves(ring, p, size);
  }

  /** One iteration on a tensor that needs a new pass, with whole pages pending, and that fits in one chunk. */
  lemma WrapStep(ring: Ring, es: seq<Entry>, i: nat, p: Plan, k: Passes, size: nat)
    requires ring.Valid() && i + 1 < |es| && TensorAt(es, i) && es[i].offset + size == es[i + 1].offset
    requires Indexed(p) && |k.chunks| == |p.chunks| && 0 < p.size <= ring.worldChunkSize
    requires p.size % ring.threadAlignment == 0 && !Fits(ring, p, size) && size <= ring.worldChunkSize
    ensures var q, l := Step(ring, es, i, p), PassStep(ring, es, i, p, k);
      && q.chunks == p.chunks + [Pending(p)] && l.chunks == k.chunks + [k.current]
      && q.size == size && q.deviceOffset == FIRST_TENSOR_ALIGNMENT && |q.tensors| == |p.tensors| + 1
      && l.current == k.current + 1 && l.tensors == k.tensors + [k.current + 1]
  {
    StepOfTensor(ring, es, i, p);
    var r := MakeRoom(ring, p, size);
    assert r.size == 0 && r.chunks == p.chunks + [Pending(p)];
    AppendOnce(ring, r, size);
    PlaceMoves(ring, r, es[i], size);
  }

  lemma RoomyRun1(r: Ring, es: seq<Entry>)
    requires r == RoomyRing() && es == RoomyEntries()
    ensures r.Valid() && WellFormed(es)
    ensures var q, l := Run(r, es, 1), PassRun(r, es, 1);
      q.deviceOffset == 16 && q.size == 49152 && q.chunks == [] && |q.tensors| == 1 && l == Passes(0, [0], [])
  {
    hide Step, PassStep;
    var p := Run(r, es, 0);
    LoneStart(r, es);
    assert p.chunks == [];
    FitStep(r, es, 0, p, PassRun(r, es, 0), 49152);
  }

  lemma RoomyRun2(r: Ring, es: seq<Entry>)
    requires r == RoomyRing() && es == RoomyEntries()
    ensures r.Valid() && WellFormed(es)
    ensures var q, l := Run(r, es, 2), PassRun(r, es, 2);
      && q.deviceOffset == 49168 && q.size == 4096 && |q.chunks| == 1
      && |q.tensors| == 2 && q.tensors[1].deviceOffset == 49168 && q.tensors[1].size == 4096
      && l == Passes(0, [0, 0], [0])
  {
    hide Step, PassStep;
    RoomyRun1(r, es);
    RunPositioned(r, es, 1);
    FitStep(r, es, 1, Run(r, es, 1), PassRun(r, es, 1), 4096);
  }

  lemma RoomyRun3(r: Ring, es: seq<Entry>)
    requires r == RoomyRing() && es == RoomyEntries()
    ensures r.Valid() && WellFormed(es)
    ensures var q, l := Run(r, es, 3), PassRun(r, es, 3);
      && q.deviceOffset == 16 && q.size == 49152 && |q.chunks| == 2 && |q.tensors| == 3
      && l == Passes(1, [0, 0, 1], [0, 0])
  {
    hide Step, PassStep;
    RoomyRun2(r, es);
    WrapStep(r, es, 2, Run(r, es, 2), PassRun(r, es, 2), 49152);
  }

  lemma RoomyRun4(r: Ring, es: seq<Entry>)
    requires r == RoomyRing() && es == RoomyEntries()
    ensures r.Valid() && WellFormed(es)
    ensures var q, l := Run(r, es, 4), PassRun(r, es, 4);
      && q.deviceOffset == 16 && q.size == 49152 && |q.chunks| == 3 && |q.tensors| == 4
      && q.chunks[2].deviceOffset == 16 && q.chunks[2].size == 49152
      && l == Passes(2, [0, 0, 1, 2], [0, 0, 1])
  {
    hide Step, PassStep;
    RoomyRun3(r, es);
    WrapStep(r, es, 3, Run(r, es, 3), PassRun(r, es, 3), 49152);
  }

  lemma RoomyLayout(r: Ring, es: seq<Entry>)
    requires r == RoomyRing() && es == RoomyEntries()
    ensures r.Valid() && WellFormed(es)
    ensures var q, k := Layout(r, es), LayoutPasses(r, es);
      && |q.chunks| == 4 && k.chunks == [0, 0, 1, 2] && k.tensors == [0, 0, 1, 2] && |q.tensors| == 4
      && PaddedEnd(r, q.chunks[2]) == 49168 && PaddedEnd(r, q.chunks[3]) == 49168
      && q.tensors[1].deviceOffset == 49168 && q.tensors[1].size == 4096
  {
    hide Step, PassStep;
    RoomyRun4(r, es);
    RoomyRun2(r, es);
    var p := Run(r, es, 4);
    LayoutEnds(r, es);
    LayoutPlaced(r, es, p);
    RunKeepsTensor(r, es, 2, 4, 1);
    assert Emitted(r, es).chunks == p.chunks + [Pending(p)];
    assert LayoutPasses(r, es).chunks == PassRun(r, es, 4).chunks + [2];
    RoundUpMultiple(49152, 4096);
  }

  /** The chunk after the second tensor's prefetch chunk does not overlap the tensor. */
  lemma NotFurthest(r: Ring, es: seq<Entry>)
    requires r == RoomyRing() && es == RoomyEntries()
    ensures r.Valid() && WellFormed(es) && AllRoomy(r, es)
    ensures var q := Layout(r, es);
      && |q.tensors| == 4 && q.tensors[1].prefetchChunk == 2 && |q.chunks| == 4
      && !Overlaps(r, q.chunks[3], q.tensors[1])
  {
    hide Layout, LayoutPasses;
    RoomyLayout(r, es);
    PrefetchSharp(r, es, 1);
    RoomyInputs(es);
    StopIs(r, Layout(r, es), LayoutPasses(r, es), 1, 3);
  }

  /** The first chunk that stops prefetching is the one after the prefetch chunk. */
  lemma StopIs(ring: Ring, q: Plan, k: Passes, j: nat, n: nat)
    requires ring.Valid() && j < |q.tensors| == |k.tensors| && n < |k.chunks| == |q.chunks| && Sharp(ring, q, k, j)
    requires forall c: nat | c < n :: !Stops(ring, q.chunks, k.chunks, q.tensors[j], k.tensors[j], c)
    requires !Clears(ring, q.chunks, k.chunks, q.tensors[j], k.tensors[j], n)
    ensures q.tensors[j].prefetchChunk + 1 == n
  {
  }

  lemma RoomyInputs(es: seq<Entry>)
    requires es == RoomyEntries()
    ensures forall x | x in Inputs(es, 4) :: x.size <= 49152
  {
    assert Inputs(es, 1) == [Input(0, 4096, 49152, 4096)];
    assert Inputs(es, 2) == Inputs(es, 1) + [Input(0, 53248, 4096, 4096)];
    assert Inputs(es, 3) == Inputs(es, 2) + [Input(0, 57344, 49152, 4096)];
    assert Inputs(es, 4) == Inputs(es, 3) + [Input(0, 106496, 49152, 4096)];
  }

  // ----- which tensors can be requested

  /** A tensor can be requested (its last chunk is not beyond its prefetch chunk) exactly if its last chunk is emitted,
      and that in the tensor's own pass, or in the next pass and in front of the tensor. */
  lemma RequestIff(ring: Ring, entries: seq<Entry>, j: nat)
    requires ring.Valid() && WellFormed(entries) && j < |Layout(ring, entries).tensors|
    ensures var q, k := Layout(ring, entries), LayoutPasses(ring, entries);
      var t := q.tensors[j];
      && |k.tensors| == |q.tensors| && 0 <= t.lastChunk <= |q.chunks|
      && (t.lastChunk <= t.prefetchChunk <==>
            && t.lastChunk < |q.chunks|
            && (|| k.chunks[t.lastChunk] == k.tensors[j]
                || (&& k.chunks[t.lastChunk] == k.tensors[j] + 1
                    && PaddedEnd(ring, q.chunks[t.lastChunk]) <= t.deviceOffset)))
  {
    PrefetchSharp(ring, entries, j);
    var q, k := Layout(ring, entries), LayoutPasses(ring, entries);
    var t, m := q.tensors[j], q.tensors[j].prefetchChunk + 1;
    var last := t.lastChunk;
    if last < |q.chunks| {
      assert NoEarlier(k.tensors[j], k.chunks, last);
      if last < m {
        assert Clears(ring, q.chunks, k.chunks, t, k.tensors[j], last);
      } else if m < last {
        SamePassApart(ring, entries, m, last);
        PaddedGrows(ring, q.chunks[last]);
      }
    }
  }

  lemma PaddedGrows(ring: Ring, c: Chunk)
    requires ring.Valid()
    ensures c.deviceOffset <= PaddedEnd(ring, c)
  {
    RoundUpIs(c.size, ring.worldChunkAlignment);
  }

  /** One empty tensor alone in its file: it cannot be requested if it stands at a page boundary, and can otherwise. */
  lemma LoneEmptyTensor(ring: Ring, offset: nat, entries: seq<Entry>)
    requires ring.Valid() && entries == [Entry(0, offset), Entry(0, offset)]
    ensures WellFormed(entries)
    ensures var q := Layout(ring, entries);
      |q.tensors| == 1 && (q.tensors[0].lastChunk <= q.tensors[0].prefetchChunk <==> offset % ring.threadAlignment != 0)
  {
    var p := Run(ring, entries, 0);
    assert p == Start(ring, entries);
    StepOfTensor(ring, entries, 0, p);
    RunStep(ring, entries, 0);
    LoneEmptyPlaced(ring, p, entries[0]);
    LayoutEnds(ring, entries);
    LoneEmptyEnd(ring, Run(ring, entries, 1));
  }

  lemma LoneEmptyPlaced(ring: Ring, p: Plan, e: Entry)
    requires ring.Valid() && p.size < ring.threadAlignment && p.size <= ring.worldChunkSize
    requires p.tensors == [] && p.inBuffer == p.leftMost == 0
    ensures var q := Place(ring, MakeRoom(ring, p, 0), e, 0);
      && |q.tensors| == 1 && q.tensors[0].lastChunk == |q.chunks|
      && q.size == p.size && q.inBuffer == q.leftMost == 0
  {
    if !Fits(ring, p, 0) {
      DivModUnique(p.size, ring.threadAlignment, 0, p.size);
    }
  }

  lemma LoneEmptyEnd(ring: Ring, p: Plan)
    requires ring.Valid() && |p.tensors| == 1 && p.tensors[0].lastChunk == |p.chunks| && p.inBuffer == p.leftMost == 0
    ensures var f := Finish(ring, p);
      var q := Wrap(Wrap(f, |f.tensors|), |f.tensors|);
      && |q.tensors| == 1
      && (q.tensors[0].lastChunk <= q.tensors[0].prefetchChunk <==> p.size > 0)
  {
  }
}
