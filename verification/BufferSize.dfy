/** The recommended buffer size: instanttensor/_impl.py:270-303. The overlap factor is a real number here. */
module BufferSize {
  import opened RoundMath

  datatype Recommendation = Size(bytes: int) | Failed

  const SIZE_WITHOUT_TENSORS: nat := 4096

  /** With this much buffer, tensor i does not lie over the one before it. */
  function Candidate(sizes: seq<int>, i: nat): int
    requires i < |sizes|
  {
    if i == 0 then sizes[0] else sizes[i - 1] + 2 * sizes[i]
  }

  ghost function Candidates(sizes: seq<int>): set<int> {
    set i | 0 <= i < |sizes| :: Candidate(sizes, i)
  }

  function Total(sizes: seq<int>): int {
    if sizes == [] then 0 else Total(sizes[..|sizes| - 1]) + sizes[|sizes| - 1]
  }

  function Largest(sizes: seq<int>): int
    requires sizes != []
  {
    var n := |sizes| - 1;
    if n == 0 then sizes[0] else Max(Largest(sizes[..n]), sizes[n])
  }

  lemma LargestIs(sizes: seq<int>)
    requires sizes != []
    ensures Largest(sizes) in sizes && forall i | 0 <= i < |sizes| :: sizes[i] <= Largest(sizes)
  {
    var n := |sizes| - 1;
    if n > 0 {
      LargestIs(sizes[..n]);
    }
  }

  /** Sizes are not negative unless a tensor's metadata says that it ends before it begins. */
  predicate NonNegative(sizes: seq<int>) {
    forall i | 0 <= i < |sizes| :: sizes[i] >= 0
  }

  lemma TotalIsNat(sizes: seq<int>)
    requires NonNegative(sizes)
    ensures Total(sizes) >= 0
  {
    if sizes != [] {
      TotalIsNat(sizes[..|sizes| - 1]);
    }
  }

  lemma LargestAtMostTotal(sizes: seq<int>)
    requires sizes != [] && NonNegative(sizes)
    ensures Largest(sizes) <= Total(sizes)
  {
    var n := |sizes| - 1;
    TotalIsNat(sizes[..n]);
    if n > 0 {
      LargestAtMostTotal(sizes[..n]);
    }
  }

  /** The bytes of the tensors for which a buffer of size b is enough. */
  ghost function Overlapped(sizes: seq<int>, b: int): int {
    if sizes == [] then 0 else
      var n := |sizes| - 1;
      var enough := if n == 0 then sizes[0] else sizes[n - 1] + 2 * sizes[n];
      Overlapped(sizes[..n], b) + if enough <= b then sizes[n] else 0
  }

  /** A buffer of size b is enough for `share` bytes. */
  ghost predicate Reaches(sizes: seq<int>, share: real, b: int) {
    Overlapped(sizes, b) as real >= share
  }

  ghost predicate NoCandidate(sizes: seq<int>, share: real) {
    forall c | c in Candidates(sizes) :: !Reaches(sizes, share, c)
  }

  ghost predicate LeastCandidate(sizes: seq<int>, share: real, b: int) {
    && b in Candidates(sizes)
    && Reaches(sizes, share, b)
    && forall c | c in Candidates(sizes) && c < b :: !Reaches(sizes, share, c)
  }

  // ----- sums over candidates

  /** The bytes of the tensors whose candidate is one of `keys`. */
  ghost function SumWhere(sizes: seq<int>, keys: set<int>): int {
    if sizes == [] then 0 else
      var n := |sizes| - 1;
      SumWhere(sizes[..n], keys) + if Candidate(sizes, n) in keys then sizes[n] else 0
  }

  lemma CandidatesGrow(sizes: seq<int>)
    requires sizes != []
    ensures Candidates(sizes) == Candidates(sizes[..|sizes| - 1]) + {Candidate(sizes, |sizes| - 1)}
  {
    var n := |sizes| - 1;
    forall k | k in Candidates(sizes) ensures k in Candidates(sizes[..n]) + {Candidate(sizes, n)} {
      var i :| 0 <= i < |sizes| && Candidate(sizes, i) == k;
      if i < n {
        assert Candidate(sizes[..n], i) == k;
      }
    }
    forall k | k in Candidates(sizes[..n]) ensures k in Candidates(sizes) {
      var i :| 0 <= i < n && Candidate(sizes[..n], i) == k;
      assert Candidate(sizes, i) == k;
    }
  }

  lemma SumAdd(sizes: seq<int>, keys: set<int>, k: int)
    requires k !in keys
    ensures SumWhere(sizes, keys + {k}) == SumWhere(sizes, keys) + SumWhere(sizes, {k})
  {
    if sizes != [] {
      SumAdd(sizes[..|sizes| - 1], keys, k);
    }
  }

  lemma SumNone(sizes: seq<int>, k: int)
    requires k !in Candidates(sizes)
    ensures SumWhere(sizes, {k}) == 0
  {
    if sizes != [] {
      CandidatesGrow(sizes);
      SumNone(sizes[..|sizes| - 1], k);
    }
  }

  lemma SumAll(sizes: seq<int>, keys: set<int>)
    requires Candidates(sizes) <= keys
    ensures SumWhere(sizes, keys) == Total(sizes)
  {
    if sizes != [] {
      CandidatesGrow(sizes);
      SumAll(sizes[..|sizes| - 1], keys);
    }
  }

  lemma SumIsOverlapped(sizes: seq<int>, keys: set<int>, b: int)
    requires forall k | k in Candidates(sizes) :: k in keys <==> k <= b
    ensures SumWhere(sizes, keys) == Overlapped(sizes, b)
  {
    if sizes != [] {
      CandidatesGrow(sizes);
      SumIsOverlapped(sizes[..|sizes| - 1], keys, b);
    }
  }

  lemma SumEmpty(sizes: seq<int>)
    ensures SumWhere(sizes, {}) == 0
  {
    if sizes != [] {
      SumEmpty(sizes[..|sizes| - 1]);
    }
  }

  // ----- the function

  /** `overlapped_size_of_buffer_size`: for every candidate the bytes of its tensors. */
  ghost predicate Bucketed(sizes: seq<int>, buckets: map<int, int>) {
    && buckets.Keys == Candidates(sizes)
    && forall k | k in buckets :: buckets[k] == SumWhere(sizes, {k})
  }

  lemma BucketAdd(sizes: seq<int>, buckets: map<int, int>, k: int)
    requires sizes != [] && Bucketed(sizes[..|sizes| - 1], buckets) && k == Candidate(sizes, |sizes| - 1)
    ensures Bucketed(sizes, buckets[k := (if k in buckets then buckets[k] else 0) + sizes[|sizes| - 1]])
  {
    CandidatesGrow(sizes);
    if k !in buckets {
      SumNone(sizes[..|sizes| - 1], k);
    }
  }

  method CollectBuckets(sizes: seq<int>) returns (buckets: map<int, int>)
    requires sizes != []
    ensures Bucketed(sizes, buckets)
  {
    buckets := map[sizes[0] := sizes[0]];
    BucketAdd(sizes[..1], map[], sizes[0]);
    assert map[][sizes[0] := 0 + sizes[0]] == buckets;
    for i := 0 to |sizes| - 1
      invariant Bucketed(sizes[..i + 1], buckets)
    {
      var tensorSize := sizes[i + 1];
      var expectedBufferSize := sizes[i] + 2 * sizes[i + 1];
      assert sizes[..i + 2][..i + 1] == sizes[..i + 1];
      BucketAdd(sizes[..i + 2], buckets, expectedBufferSize);
      buckets := buckets[expectedBufferSize :=
        (if expectedBufferSize in buckets then buckets[expectedBufferSize] else 0) + tensorSize];
    }
    assert sizes[..|sizes|] == sizes;
  }

  lemma NotEmpty(s: set<int>)
    requires s != {}
    ensures exists x :: x in s
  {
    assert (forall x :: x !in s) ==> s == {};
  }

  lemma HasLeast(s: set<int>) returns (k: int)
    requires s != {}
    ensures k in s && forall j | j in s :: k <= j
  {
    NotEmpty(s);
    var x :| x in s;
    if s == {x} {
      k := x;
    } else {
      assert s - {x} != {};
      var y := HasLeast(s - {x});
      k := if x < y then x else y;
      forall j | j in s ensures k <= j {
        assert j == x || j in s - {x};
      }
    }
  }

  ghost predicate Ascending(keys: seq<int>) {
    forall i, j | 0 <= i < j < |keys| :: keys[i] < keys[j]
  }

  lemma AscendingPush(keys: seq<int>, k: int)
    requires Ascending(keys) && forall j | j in keys :: j < k
    ensures Ascending(keys + [k])
  {
    assert forall i | 0 <= i < |keys| :: keys[i] in keys;
  }

  /** `sorted` on the keys of a dictionary. */
  method Sorted(s: set<int>) returns (keys: seq<int>)
    ensures Ascending(keys) && forall k :: k in keys <==> k in s
  {
    keys := [];
    var rest := s;
    while rest != {}
      invariant Ascending(keys) && rest <= s
      invariant forall k :: k in keys <==> k in s - rest
      invariant forall k, j | k in keys && j in rest :: k < j
      decreases rest
    {
      ghost var least := HasLeast(rest);
      assert least in rest;
      var k :| k in rest && forall j | j in rest :: k <= j;
      AscendingPush(keys, k);
      keys := keys + [k];
      rest := rest - {k};
    }
  }

  /** The values of the dictionary add up to all the bytes. */
  method SumOfValues(ghost sizes: seq<int>, buckets: map<int, int>) returns (total: int)
    requires Bucketed(sizes, buckets)
    ensures total == Total(sizes)
  {
    var rest := buckets.Keys;
    ghost var done := {};
    total := 0;
    SumEmpty(sizes);
    while rest != {}
      invariant rest + done == buckets.Keys && rest !! done
      invariant total == SumWhere(sizes, done)
      decreases rest
    {
      var k :| k in rest;
      SumAdd(sizes, done, k);
      total := total + buckets[k];
      rest, done := rest - {k}, done + {k};
    }
    SumAll(sizes, done);
  }

  ghost function First(keys: seq<int>, n: nat): set<int>
    requires n <= |keys|
  {
    set j | 0 <= j < n :: keys[j]
  }

  lemma FirstGrows(keys: seq<int>, i: nat)
    requires Ascending(keys) && i < |keys|
    ensures First(keys, i + 1) == First(keys, i) + {keys[i]} && keys[i] !in First(keys, i)
  {
  }

  lemma FirstOverlapped(sizes: seq<int>, keys: seq<int>, i: nat)
    requires Ascending(keys) && (forall k :: k in keys <==> k in Candidates(sizes)) && i < |keys|
    ensures SumWhere(sizes, First(keys, i + 1)) == Overlapped(sizes, keys[i])
  {
    var first := First(keys, i + 1);
    forall k | k in Candidates(sizes) ensures k in first <==> k <= keys[i] {
      assert k in keys;
      var j: nat :| j < |keys| && keys[j] == k;
    }
    SumIsOverlapped(sizes, first, keys[i]);
  }

  lemma ShareOfTotal(total: int, overlapFactor: real, share: real)
    requires total >= 0 && share == total as real * overlapFactor
    ensures share > total as real <==> overlapFactor > 1.0 && total > 0
    ensures overlapFactor > 0.0 && total > 0 ==> share > 0.0
  {
    var t := total as real;
    if total > 0 && overlapFactor > 1.0 {
      Scale(overlapFactor, 1.0, t);
    } else if total > 0 {
      Scale(1.0, overlapFactor, t);
    }
    if total > 0 && overlapFactor > 0.0 {
      Scale(overlapFactor, 0.0, t);
    }
  }

  lemma Scale(a: real, b: real, t: real)
    requires t > 0.0 && a >= b
    ensures t * a >= t * b && (a > b ==> t * a > t * b)
  {
    var d := a - b;
    assert t * d >= 0.0 && (d > 0.0 ==> t * d > 0.0);
    assert t * a == t * b + t * d;
  }

  /** `recommended_buffer_size_for_tensors`. It fails exactly if no candidate is enough; with sizes that are not
      negative, that is if more than everything is asked for. */
  method Recommend(sizes: seq<int>, overlapFactor: real) returns (r: Recommendation, ghost share: real)
    ensures share == Total(sizes) as real * overlapFactor
    ensures sizes == [] ==> r == Size(4096)
    ensures sizes != [] ==> (r == Failed <==> NoCandidate(sizes, share))
    ensures sizes != [] && NonNegative(sizes) ==> (r == Failed <==> overlapFactor > 1.0 && Total(sizes) > 0)
    ensures sizes != [] && r.Size? ==> exists b | LeastCandidate(sizes, share, b) :: r.bytes == Max(b, Largest(sizes))
    ensures sizes != [] && r.Size? ==>
      exists i | 0 <= i < |sizes| ::
        r.bytes == Max(if i == 0 then sizes[0] else sizes[i - 1] + 2 * sizes[i], Largest(sizes))
  {
    hide NoCandidate, LeastCandidate, Bucketed, Total, Largest, NonNegative, Ascending;
    share := Total(sizes) as real * overlapFactor;
    if |sizes| == 0 {
      return Size(SIZE_WITHOUT_TENSORS), share;
    }
    var maxTensorSize := Largest(sizes);
    var buckets := CollectBuckets(sizes);
    var bufferSizes := Sorted(buckets.Keys);
    var totalTensorSize := SumOfValues(sizes, buckets);
    if NonNegative(sizes) {
      TotalIsNat(sizes);
      ShareOfTotal(totalTensorSize, overlapFactor, share);
      NoCandidateIff(sizes, share);
    }
    r := Search(sizes, totalTensorSize as real * overlapFactor, buckets, bufferSizes, maxTensorSize);
  }

  /** The loop that adds up the candidates' bytes in ascending order. */
  method Search(
      ghost sizes: seq<int>, share: real, buckets: map<int, int>, bufferSizes: seq<int>, maxTensorSize: int)
    returns (r: Recommendation)
    requires sizes != [] && Bucketed(sizes, buckets)
    requires Ascending(bufferSizes) && forall k :: k in bufferSizes <==> k in buckets
    ensures r == Failed <==> NoCandidate(sizes, share)
    ensures r.Size? ==> exists b | LeastCandidate(sizes, share, b) :: r.bytes == Max(b, maxTensorSize)
    ensures r.Size? ==>
      exists i | 0 <= i < |sizes| ::
        r.bytes == Max(if i == 0 then sizes[0] else sizes[i - 1] + 2 * sizes[i], maxTensorSize)
  {
    var totalOverlappedSize := 0;
    SumEmpty(sizes);
    assert First(bufferSizes, 0) == {};
    for i := 0 to |bufferSizes|
      invariant totalOverlappedSize == SumWhere(sizes, First(bufferSizes, i))
      invariant forall j | 0 <= j < i :: !Reaches(sizes, share, bufferSizes[j])
    {
      var bufferSize := bufferSizes[i];
      assert bufferSize in bufferSizes;
      FirstGrows(bufferSizes, i);
      SumAdd(sizes, First(bufferSizes, i), bufferSize);
      totalOverlappedSize := totalOverlappedSize + buckets[bufferSize];
      FirstOverlapped(sizes, bufferSizes, i);
      if totalOverlappedSize as real >= share {
        FirstReachingIsLeast(sizes, bufferSizes, share, i);
        ghost var j :| 0 <= j < |sizes| && Candidate(sizes, j) == bufferSize;
        return Size(Max(bufferSize, maxTensorSize));
      }
    }
    forall c | c in Candidates(sizes) ensures !Reaches(sizes, share, c) {
      assert c in bufferSizes;
    }
    return Failed;
  }

  lemma OverlappedAtMostTotal(sizes: seq<int>, b: int)
    requires NonNegative(sizes)
    ensures Overlapped(sizes, b) <= Total(sizes)
  {
    if sizes != [] {
      OverlappedAtMostTotal(sizes[..|sizes| - 1], b);
    }
  }

  lemma FirstReachingIsLeast(sizes: seq<int>, keys: seq<int>, share: real, i: nat)
    requires Ascending(keys) && (forall k :: k in keys <==> k in Candidates(sizes)) && i < |keys|
    requires Reaches(sizes, share, keys[i])
    requires forall j | 0 <= j < i :: !Reaches(sizes, share, keys[j])
    ensures LeastCandidate(sizes, share, keys[i])
  {
    assert keys[i] in keys;
    forall c | c in Candidates(sizes) && c < keys[i] ensures !Reaches(sizes, share, c) {
      assert c in keys;
      var j: nat :| j < |keys| && keys[j] == c;
    }
  }

  lemma OverlappedAll(sizes: seq<int>, b: int)
    requires forall k | k in Candidates(sizes) :: k <= b
    ensures Overlapped(sizes, b) == Total(sizes)
  {
    if sizes != [] {
      CandidatesGrow(sizes);
      OverlappedAll(sizes[..|sizes| - 1], b);
    }
  }

  lemma HasMost(s: set<int>) returns (k: int)
    requires s != {}
    ensures k in s && forall j | j in s :: j <= k
  {
    NotEmpty(s);
    var x :| x in s;
    if s == {x} {
      k := x;
    } else {
      assert s - {x} != {};
      var y := HasMost(s - {x});
      k := if x < y then y else x;
      forall j | j in s ensures j <= k {
        assert j == x || j in s - {x};
      }
    }
  }

  /** The largest candidate is enough for every tensor. */
  lemma NoCandidateIff(sizes: seq<int>, share: real)
    requires sizes != [] && NonNegative(sizes)
    ensures NoCandidate(sizes, share) <==> share > Total(sizes) as real
  {
    assert Candidate(sizes, 0) in Candidates(sizes);
    var most := HasMost(Candidates(sizes));
    OverlappedAll(sizes, most);
    if share > Total(sizes) as real {
      forall c | c in Candidates(sizes) ensures !Reaches(sizes, share, c) {
        OverlappedAtMostTotal(sizes, c);
      }
    } else {
      assert Reaches(sizes, share, most);
    }
  }

  // ----- what the recommendation means

  lemma OverlappedMono(sizes: seq<int>, a: int, b: int)
    requires a <= b && NonNegative(sizes)
    ensures Overlapped(sizes, a) <= Overlapped(sizes, b)
  {
    if sizes != [] {
      OverlappedMono(sizes[..|sizes| - 1], a, b);
    }
  }

  lemma OverlappedIsNat(sizes: seq<int>, b: int)
    requires NonNegative(sizes)
    ensures Overlapped(sizes, b) >= 0
  {
    if sizes != [] {
      OverlappedIsNat(sizes[..|sizes| - 1], b);
    }
  }

  /** Between two candidates more buffer helps no tensor. */
  lemma {:induction false} BestCandidate(sizes: seq<int>, n: int) returns (c: int)
    requires Overlapped(sizes, n) > 0 && NonNegative(sizes)
    ensures c in Candidates(sizes) && c <= n && Overlapped(sizes, c) == Overlapped(sizes, n)
  {
    var m := |sizes| - 1;
    var last := Candidate(sizes, m);
    CandidatesGrow(sizes);
    if Overlapped(sizes[..m], n) <= 0 {
      c := last;
      OverlappedMono(sizes[..m], c, n);
      OverlappedIsNat(sizes[..m], c);
    } else {
      c := BestCandidate(sizes[..m], n);
      if last <= n && c < last {
        OverlappedMono(sizes[..m], c, last);
        OverlappedMono(sizes[..m], last, n);
        c := last;
      }
    }
  }

  /** When a positive share of some bytes is asked for, the recommendation is the least buffer size that holds every
      tensor and is enough for that share. */
  lemma RecommendationIsLeast(sizes: seq<int>, overlapFactor: real, share: real, b: int)
    requires sizes != [] && NonNegative(sizes) && overlapFactor > 0.0 && Total(sizes) > 0
    requires share == Total(sizes) as real * overlapFactor && LeastCandidate(sizes, share, b)
    ensures Reaches(sizes, share, Max(b, Largest(sizes)))
    ensures forall n | Largest(sizes) <= n && Reaches(sizes, share, n) :: Max(b, Largest(sizes)) <= n
  {
    ShareOfTotal(Total(sizes), overlapFactor, share);
    LeastOfAll(sizes, share, b);
  }

  lemma LeastOfAll(sizes: seq<int>, share: real, b: int)
    requires sizes != [] && NonNegative(sizes) && share > 0.0 && LeastCandidate(sizes, share, b)
    ensures Reaches(sizes, share, Max(b, Largest(sizes)))
    ensures forall n | Largest(sizes) <= n && Reaches(sizes, share, n) :: Max(b, Largest(sizes)) <= n
  {
    OverlappedMono(sizes, b, Max(b, Largest(sizes)));
    forall n | Largest(sizes) <= n && Reaches(sizes, share, n) ensures b <= n {
      var c := BestCandidate(sizes, n);
      assert Reaches(sizes, share, c);
    }
  }
}
