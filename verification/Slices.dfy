/** How a chunk is cut into rank and thread slices (csrc/loader_common.cpp:439-446 and the loops of the backends). */
module Slices {
  import opened RoundMath
  import opened RingLayout

  /** The sizes fixed by `init_buffer` that the slicing depends on. */
  datatype Shape = Shape(threadAlignment: nat, numThreads: nat, worldSize: nat, threadChunkSize: nat)
  {
    predicate Valid() {
      && threadAlignment > 0 && numThreads > 0 && worldSize > 0
      && threadChunkSize > 0 && threadChunkSize % threadAlignment == 0
    }

    function Unit(): nat { threadAlignment * numThreads * worldSize }

    function RankChunkSize(): nat { threadChunkSize * numThreads }

    function WorldChunkSize(): nat { RankChunkSize() * worldSize }

    function Padded(size: nat): nat
      requires Valid()
    {
      UnitPositive();
      RoundUp(size, Unit())
    }

    lemma UnitPositive()
      requires Valid()
      ensures Unit() > 0
    {
      MulPositive(threadAlignment, numThreads);
      MulPositive(threadAlignment * numThreads, worldSize);
    }

    function PaddedRank(size: nat): nat
      requires Valid()
    {
      Padded(size) / worldSize
    }

    function PaddedThread(size: nat): nat
      requires Valid()
    {
      PaddedRank(size) / numThreads
    }

    function RankOffset(size: nat, rank: nat): nat
      requires Valid()
    {
      PaddedRank(size) * rank
    }

    function ThreadOffset(size: nat, i: nat): nat
      requires Valid()
    {
      PaddedThread(size) * i
    }

    /** The bytes of the chunk in the rank's part. */
    function RankSize(size: nat, rank: nat): nat
      requires Valid()
    {
      Clamp(size - RankOffset(size, rank), PaddedRank(size))
    }

    /** The bytes of the chunk in the thread's part of the rank's part. */
    function ThreadSize(size: nat, rank: nat, i: nat): nat
      requires Valid()
    {
      Clamp(size - RankOffset(size, rank) - ThreadOffset(size, i), PaddedThread(size))
    }

    /** Byte p of the chunk is in the thread's slice. */
    predicate InSlice(size: nat, rank: nat, i: nat, p: nat)
      requires Valid()
    {
      var start := RankOffset(size, rank) + ThreadOffset(size, i);
      start <= p < start + ThreadSize(size, rank, i)
    }
  }

  /** The ring that the layout of this shape is made for. */
  function RingOf(s: Shape, bufferSize: nat): Ring {
    Ring(s.threadAlignment, s.Unit(), s.WorldChunkSize(), bufferSize)
  }

  /** min(max(x, 0), limit) */
  function Clamp(x: int, limit: nat): nat {
    if x < 0 then 0 else if x < limit then x else limit
  }

  lemma MulPositive(a: nat, b: nat)
    requires a > 0 && b > 0
    ensures a * b > 0
  {
  }

  /** The padded sizes divide evenly. */
  lemma PaddedSizes(s: Shape, size: nat)
    requires s.Valid()
    ensures s.PaddedRank(size) * s.worldSize == s.Padded(size) >= size
    ensures s.PaddedThread(size) * s.numThreads == s.PaddedRank(size)
    ensures s.PaddedThread(size) % s.threadAlignment == 0
    ensures size > 0 ==> s.PaddedThread(size) > 0 && s.PaddedRank(size) > 0
  {
    s.UnitPositive();
    RoundUpIs(size, s.Unit());
    var k := DivCeil(size, s.Unit());
    var thread := k * s.threadAlignment;
    var rank := thread * s.numThreads;
    Regroup(k, s.threadAlignment, s.numThreads, s.worldSize);
    DivModUnique(s.Padded(size), s.worldSize, rank, 0);
    DivModUnique(rank, s.numThreads, thread, 0);
    MultipleMod(k, s.threadAlignment);
    PositiveFactors(thread, s.numThreads, s.worldSize);
  }

  lemma Regroup(k: nat, a: nat, b: nat, c: nat)
    ensures k * (a * b * c) == k * a * b * c
  {
    assert k * (a * b * c) == k * (a * b) * c == k * a * b * c;
  }

  lemma PositiveFactors(a: nat, b: nat, c: nat)
    ensures a * b * c > 0 ==> a > 0 && a * b > 0
  {
    if a == 0 {
      assert a * b == 0;
    }
  }

  /** Thread slices stay within the thread's share of a chunk, also when rounded up to pages. */
  lemma ThreadSliceFits(s: Shape, size: nat, rank: nat, i: nat)
    requires s.Valid() && size <= s.WorldChunkSize()
    ensures RoundUp(s.ThreadSize(size, rank, i), s.threadAlignment) <= s.PaddedThread(size) <= s.threadChunkSize
  {
    PaddedSizes(s, size);
    RoundUpMono(s.ThreadSize(size, rank, i), s.PaddedThread(size), s.threadAlignment);
    RoundUpMultiple(s.PaddedThread(size), s.threadAlignment);
    s.UnitPositive();
    RoundUpMono(size, s.WorldChunkSize(), s.Unit());
    WholeChunk(s);
    var pt := s.PaddedThread(size);
    if pt > s.threadChunkSize {
      assert (s.threadChunkSize + 1) * s.numThreads == s.RankChunkSize() + s.numThreads;
      assert (s.RankChunkSize() + 1) * s.worldSize == s.WorldChunkSize() + s.worldSize;
      MulLe(s.threadChunkSize + 1, pt, s.numThreads);
      MulLe(s.RankChunkSize() + 1, s.PaddedRank(size), s.worldSize);
    }
  }

  lemma WholeChunk(s: Shape)
    requires s.Valid()
    ensures s.Padded(s.WorldChunkSize()) == s.WorldChunkSize()
  {
    var k := s.threadChunkSize / s.threadAlignment;
    assert s.threadChunkSize == k * s.threadAlignment;
    assert k * s.threadAlignment * s.numThreads * s.worldSize
      == k * (s.threadAlignment * s.numThreads) * s.worldSize
      == k * (s.threadAlignment * s.numThreads * s.worldSize);
    s.UnitPositive();
    MultipleMod(k, s.Unit());
    RoundUpMultiple(s.WorldChunkSize(), s.Unit());
  }

  lemma Locate(x: nat, unit: nat, count: nat) returns (q: nat)
    requires unit > 0 && x < unit * count
    ensures q < count && unit * q <= x < unit * q + unit
  {
    q := x / unit;
    assert x == q * unit + x % unit;
    if q >= count {
      MulLe(count, q, unit);
      assert false;
    }
  }

  lemma LocateUnique(x: nat, unit: nat, q: nat, r: nat)
    requires unit * q <= x < unit * q + unit && unit * r <= x < unit * r + unit
    ensures q == r
  {
    DivModUnique(x, unit, q, x - unit * q);
    DivModUnique(x, unit, r, x - unit * r);
  }

  /** Two levels of slices, in plain numbers. */
  lemma RowFits(width: nat, count: nat, i: nat)
    requires i < count
    ensures width * i + width <= width * count
  {
    MulLe(i + 1, count, width);
    assert (i + 1) * width == width * i + width;
  }

  lemma SliceUnique(pr: nat, pt: nat, threads: nat, p: nat, r: nat, i: nat, r': nat, i': nat)
    requires pr == pt * threads && i < threads && i' < threads
    requires pr * r + pt * i <= p < pr * r + pt * i + pt
    requires pr * r' + pt * i' <= p < pr * r' + pt * i' + pt
    ensures r == r' && i == i'
  {
    RowFits(pt, threads, i);
    RowFits(pt, threads, i');
    LocateUnique(p, pr, r, r');
    LocateUnique(p - pr * r, pt, i, i');
  }

  /** The slices tile the chunk: each byte is in exactly one, and none reaches past the chunk. */
  lemma SlicesTile(s: Shape, size: nat, p: nat) returns (rank: nat, i: nat)
    requires s.Valid() && p < size
    ensures rank < s.worldSize && i < s.numThreads && s.InSlice(size, rank, i, p)
    ensures forall r: nat, j: nat | j < s.numThreads && s.InSlice(size, r, j, p) :: r == rank && j == i
    ensures forall r: nat, j: nat, q: nat | s.InSlice(size, r, j, q) :: q < size
  {
    PaddedSizes(s, size);
    var pr, pt := s.PaddedRank(size), s.PaddedThread(size);
    rank := Locate(p, pr, s.worldSize);
    i := Locate(p - pr * rank, pt, s.numThreads);
    forall r: nat, j: nat | j < s.numThreads && s.InSlice(size, r, j, p) ensures r == rank && j == i {
      SliceUnique(pr, pt, s.numThreads, p, rank, i, r, j);
    }
  }

  /** The slices of a rank's threads make up the rank's slice. */
  lemma ThreadSlicesMakeRank(s: Shape, size: nat, rank: nat, o: nat) returns (i: nat)
    requires s.Valid() && o < s.RankSize(size, rank)
    ensures i < s.numThreads && s.ThreadOffset(size, i) <= o < s.ThreadOffset(size, i) + s.ThreadSize(size, rank, i)
  {
    PaddedSizes(s, size);
    i := Locate(o, s.PaddedThread(size), s.numThreads);
  }

  /** The threads with something to read come first. */
  lemma NonEmptyPrefix(s: Shape, size: nat, rank: nat, i: nat, j: nat)
    requires s.Valid() && i <= j && s.ThreadSize(size, rank, i) == 0
    ensures s.ThreadSize(size, rank, j) == 0
  {
    MulLe(i, j, s.PaddedThread(size));
  }

  /** Every slice starts at a page of the file if the chunk does. */
  lemma SliceAligned(s: Shape, size: nat, fileOffset: nat, rank: nat, i: nat)
    requires s.Valid() && fileOffset % s.threadAlignment == 0
    ensures (fileOffset + s.RankOffset(size, rank) + s.ThreadOffset(size, i)) % s.threadAlignment == 0
  {
    PaddedSizes(s, size);
    var pr, pt := s.PaddedRank(size), s.PaddedThread(size);
    MulMultiple(s.numThreads, pt, s.threadAlignment);
    MulMultiple(rank, pr, s.threadAlignment);
    MulMultiple(i, pt, s.threadAlignment);
    ModSum(fileOffset, pr * rank, s.threadAlignment);
    ModSum(fileOffset + pr * rank, pt * i, s.threadAlignment);
  }

  lemma MulMultiple(k: nat, a: nat, m: nat)
    requires m > 0 && a % m == 0
    ensures k * a % m == 0
  {
    assert a == a / m * m;
    assert k * a == k * (a / m) * m;
    MultipleMod(k * (a / m), m);
  }
}
