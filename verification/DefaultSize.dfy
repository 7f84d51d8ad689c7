/** What a buffer size means for an opened loader (instanttensor/_impl.py:270-303, 593-620): which tensors lie apart
    from the one before them, and how many bytes that is for the default size. */
module DefaultSize {
  import opened Wrappers
  import opened RoundMath
  import opened RingLayout
  import opened RingSafety
  import opened RingRun
  import opened RingBounds
  import opened RingPasses
  import opened RingSharp
  import opened RingFit
  import opened RingNeighbours
  import opened LoaderCore
  import opened BufferSize
  import opened Frontend
  import opened Wiring

  /** Tensor k does not lie over the one before it, and all its chunks but the last one can be loaded while that one is
      in use. */
  predicate LoadsBeside(ts: seq<Tensor>, k: nat)
    requires k < |ts|
  {
    k > 0 ==> Separate(ts[k - 1], ts[k]) && (ts[k].size > 0 ==> ts[k].lastChunk <= ts[k - 1].prefetchChunk + 1)
  }

  /** The bytes of those of the first n tensors. */
  function BesideBytes(ts: seq<Tensor>, n: nat): nat
    requires n <= |ts|
  {
    if n == 0 then 0 else BesideBytes(ts, n - 1) + if LoadsBeside(ts, n - 1) then ts[n - 1].size else 0
  }

  /** In an opened loader, a buffer size for the tensor before it and twice the tensor itself is enough for that. With a
      chunk of all ranks more, the last chunk can be loaded too. */
  lemma OpenedBeside(pageSize: nat, args: OpenArgs, j: nat)
    requires pageSize > 0 && args.Valid()
    ensures OpenedRing(pageSize, args).Valid() && |args.entries| > 0
    ensures var ring := OpenedRing(pageSize, args);
      var ts := Layout(ring, args.entries).tensors;
      j + 1 < |ts| && ts[j].size + 2 * ts[j + 1].size <= args.bufferSize ==>
        && LoadsBeside(ts, j + 1)
        && (ts[j].size + 2 * ts[j + 1].size + ring.worldChunkSize <= args.bufferSize && ts[j + 1].size > 0 ==>
              ts[j + 1].lastChunk <= ts[j].prefetchChunk)
  {
    hide Layout, LayoutPasses;
    RingIsValid(pageSize, args);
    var ring := OpenedRing(pageSize, args);
    var ts := Layout(ring, args.entries).tensors;
    if j + 1 < |ts| && ts[j].size + 2 * ts[j + 1].size <= args.bufferSize {
      NeighboursApart(ring, args.entries, j, args.bufferSize);
      if ts[j + 1].size > 0 {
        NeighbourLoads(ring, args.entries, j, args.bufferSize);
        if ts[j].size + 2 * ts[j + 1].size + ring.worldChunkSize <= args.bufferSize {
          NeighbourLoadsAll(ring, args.entries, j, args.bufferSize);
        }
      }
    }
  }

  lemma {:induction false} OverlappedIsBeside(pageSize: nat, args: OpenArgs, sizes: seq<int>, b: int, n: nat)
    requires pageSize > 0 && args.Valid() && b <= args.bufferSize
    requires OpenedRing(pageSize, args).Valid() && |args.entries| > 0
    requires var ts := Layout(OpenedRing(pageSize, args), args.entries).tensors;
      n <= |sizes| == |ts| && forall k | 0 <= k < |ts| :: sizes[k] == ts[k].size
    ensures Overlapped(sizes[..n], b) <= BesideBytes(Layout(OpenedRing(pageSize, args), args.entries).tensors, n)
  {
    hide Layout, LoadsBeside;
    if n > 0 {
      OverlappedIsBeside(pageSize, args, sizes, b, n - 1);
      assert sizes[..n][..n - 1] == sizes[..n - 1];
      var ts := Layout(OpenedRing(pageSize, args), args.entries).tensors;
      if n > 1 {
        OpenedBeside(pageSize, args, n - 2);
      } else {
        FirstBeside(ts);
      }
    }
  }

  lemma FirstBeside(ts: seq<Tensor>)
    requires ts != []
    ensures LoadsBeside(ts, 0)
  {
  }

  /** With the default buffer size, nine tenths of all bytes belong to tensors that do not lie over the one before them
      and that can be loaded, up to their last chunk, while that one is in use. */
  lemma {:induction false} DefaultSizeOverlaps(files: seq<File>, args: OpenArgs, pageSize: nat, bufferSizeForIo: nat)
    requires files != [] && AllAccepted(files) && AllOrdered(files) && args.entries == Entries(files, |files|)
    requires pageSize > 0 && args.Valid()
    requires Determined(None, SizesOf(Tensors(files, |files|)), bufferSizeForIo, args.bufferSize)
    ensures OpenedRing(pageSize, args).Valid() && |args.entries| > 0
    ensures var ts := Layout(OpenedRing(pageSize, args), args.entries).tensors;
      BesideBytes(ts, |ts|) as real >= 0.9 * Total(SizesOf(Tensors(files, |files|))) as real
  {
    hide Layout, Tensors, Entries, Overlapped, BesideBytes;
    ListFacts(files);
    var sizes := SizesOf(Tensors(files, |files|));
    RingIsValid(pageSize, args);
    var ts := Layout(OpenedRing(pageSize, args), args.entries).tensors;
    forall k | 0 <= k < |ts| ensures |sizes| == |ts| && sizes[k] == ts[k].size {
      TensorIsListed(files, args, pageSize, k);
    }
    TensorIsListed(files, args, pageSize, 0);
    var b :| LeastCandidate(sizes, Total(sizes) as real * 0.9, b) &&
      args.bufferSize == Max(Max(b, Largest(sizes)), bufferSizeForIo);
    OverlappedIsBeside(pageSize, args, sizes, b, |sizes|);
    assert sizes[..|sizes|] == sizes;
  }

  // ----- the other tenth

  /** A file with a tensor of 491520 bytes and one of 49152, and what OPEN gets for it by default, with one thread and
      one chunk of 491520 bytes in flight. */
  function TwoTensors(): File {
    File(4096, [Span(0, 491520), Span(491520, 540672)])
  }

  function DefaultArgs(files: seq<File>): OpenArgs {
    OpenArgs(1, 1, 1, 491520, 491520, Entries(files, |files|))
  }

  /** With the default size neighbouring tensors can overlap: the second of these two lies over the first. */
  lemma NeighboursOverlap(files: seq<File>, args: OpenArgs)
    requires files == [TwoTensors()] && args == DefaultArgs(files)
    ensures Determined(None, SizesOf(Tensors(files, 1)), Product(491520, 1, 1, 1), 491520)
    ensures args.Valid() && OpenedRing(4096, args).Valid()
    ensures var ts := Layout(OpenedRing(4096, args), args.entries).tensors; |ts| == 2 && !Separate(ts[0], ts[1])
  {
    hide Layout, Determined, OpenedRing, BufferOf;
    TwoSizes(files);
    TwoEntries(files, args);
    TwoRing(args);
    TwoPlaced(OpenedRing(4096, args), args.entries);
  }

  lemma TwoSizes(files: seq<File>)
    requires files == [TwoTensors()]
    ensures Determined(None, SizesOf(Tensors(files, 1)), 491520, 491520)
  {
    assert Tensors(files, 0) == [];
    var sizes := SizesOf(Tensors(files, 1));
    assert sizes == [491520, 49152];
    PairSums(sizes, 491520);
    assert Candidate(sizes, 0) == 491520;
    assert LeastCandidate(sizes, Total(sizes) as real * DEFAULT_OVERLAP_FACTOR, 491520) by {
      assert forall c | c in Candidates(sizes) :: c >= 491520;
    }
    assert 491520 == Max(Max(491520, Largest(sizes)), 491520);
  }

  lemma PairSums(sizes: seq<int>, b: int)
    requires |sizes| == 2 && sizes[0] == b && sizes[1] > 0
    ensures Total(sizes) == sizes[0] + sizes[1] && Largest(sizes) == Max(sizes[0], sizes[1])
    ensures Overlapped(sizes, b) == b
  {
    var one := sizes[..1];
    assert one[..0] == [] && sizes[..|sizes| - 1] == one;
    assert Total(one) == b && Largest(one) == b && Overlapped(one, b) == b;
  }

  lemma TwoEntries(files: seq<File>, args: OpenArgs)
    requires files == [TwoTensors()] && args == DefaultArgs(files)
    ensures args.entries == [Entry(0, 4096), Entry(0, 495616), Entry(0, 544768)] && args.Valid()
  {
    assert Entries(files, 0) == [];
    var es := args.entries;
    assert es == [Entry(0, 4096), Entry(0, 495616), Entry(0, 544768)];
    InputsAtMost(es, 2, 491520);
  }

  lemma TwoRing(args: OpenArgs)
    requires args.numThreads == args.worldSize == args.ioDepth == 1 && args.chunkSize == args.bufferSize == 491520
    ensures OpenedRing(4096, args) == Ring(4096, 4096, 491520, 516144)
  {
    RoundUpMultiple(491520, 4096);
  }

  lemma TwoPlaced(r: Ring, es: seq<Entry>)
    requires r == Ring(4096, 4096, 491520, 516144) && es == [Entry(0, 4096), Entry(0, 495616), Entry(0, 544768)]
    ensures r.Valid() && WellFormed(es)
    ensures var ts := Layout(r, es).tensors; |ts| == 2 && !Separate(ts[0], ts[1])
  {
    hide Layout, Step, PassStep;
    LoneStart(r, es);
    RoundUpMultiple(491520, 4096);
    FitStep(r, es, 0, Run(r, es, 0), PassRun(r, es, 0), 491520);
    RunStep(r, es, 0);
    RoundUpMultiple(540672, 4096);
    WrapStep(r, es, 1, Run(r, es, 1), PassRun(r, es, 1), 49152);
    RunStep(r, es, 1);
    TailOfTensor(r, es, 1);
    PlacedSize(r, es, 1);
    RunKeepsTensor(r, es, 1, 2, 0);
    LayoutPlaced(r, es, Run(r, es, 2));
  }
}
