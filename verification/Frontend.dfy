/** What the Python frontend hands to the loader (instanttensor/_impl.py:460-482, 593-620): the list of tensor offsets
    and a buffer size. It is the contract under which `LoaderCore.Loader.Open` cannot fail. */
module Frontend {
  import opened Wrappers
  import opened RoundMath
  import opened RingLayout
  import opened RingSafety
  import opened BufferSize
  import LoaderCore

  /** A tensor's `data_offsets`. */
  datatype Span = Span(begin: nat, end: nat)

  /** A file's tensors in ascending order of `begin`; their data starts at `dataStart`. */
  datatype File = File(dataStart: nat, spans: seq<Span>)

  datatype OpenError = NotContiguous | NoTensors | NoBufferSize | NegativeBufferSize

  type OpenResult<T> = Result<T, OpenError>

  predicate Contiguous(spans: seq<Span>) {
    forall i | 0 <= i < |spans| - 1 :: EndToEnd(spans, i)
  }

  predicate EndToEnd(spans: seq<Span>, i: nat)
    requires i + 1 < |spans|
  {
    spans[i].end == spans[i + 1].begin
  }

  /** The file is opened: it has tensors, and they follow each other. */
  predicate Accepted(file: File) {
    Contiguous(file.spans) && file.spans != []
  }

  /** No tensor ends before it begins. */
  predicate Ordered(file: File) {
    forall s | s in file.spans :: s.begin <= s.end
  }

  predicate AllAccepted(files: seq<File>) {
    forall i | 0 <= i < |files| :: Accepted(files[i])
  }

  predicate AllOrdered(files: seq<File>) {
    forall i | 0 <= i < |files| :: Ordered(files[i])
  }

  // ----- the list of offsets

  function FileEntries(index: nat, file: File): seq<Entry> {
    if file.spans == [] then [] else
      seq(|file.spans|, k requires 0 <= k < |file.spans| => Entry(index, file.spans[k].begin + file.dataStart))
        + [Entry(index, file.spans[|file.spans| - 1].end + file.dataStart)]
  }

  /** `tensor_offsets` after the first n files. */
  function Entries(files: seq<File>, n: nat): seq<Entry>
    requires n <= |files|
  {
    if n == 0 then [] else Entries(files, n - 1) + FileEntries(n - 1, files[n - 1])
  }

  /** A tensor as the metadata lists it. */
  datatype Listed = Listed(fileIndex: nat, fileOffset: nat, size: int)

  function FileTensors(index: nat, file: File): seq<Listed> {
    seq(|file.spans|, k requires 0 <= k < |file.spans| =>
      Listed(index, file.spans[k].begin + file.dataStart, file.spans[k].end - file.spans[k].begin))
  }

  /** `ordered_tensor_metadatas` after the first n files. */
  function Tensors(files: seq<File>, n: nat): seq<Listed>
    requires n <= |files|
  {
    if n == 0 then [] else Tensors(files, n - 1) + FileTensors(n - 1, files[n - 1])
  }

  /** The loop over the files. The first file that is not accepted raises. */
  method BuildOffsets(files: seq<File>) returns (r: OpenResult<(seq<Entry>, seq<Listed>)>)
    ensures r.Ok? <==> AllAccepted(files)
    ensures r.Ok? ==> r.value.0 == Entries(files, |files|) && r.value.1 == Tensors(files, |files|)
    ensures r.Err? ==>
      exists i | 0 <= i < |files| && !Accepted(files[i]) && forall j | 0 <= j < i :: Accepted(files[j]) ::
        r.error == if files[i].spans == [] then NoTensors else NotContiguous
  {
    hide FileEntries, FileTensors;
    var tensorOffsets: seq<Entry>, tensors: seq<Listed> := [], [];
    for fileIndex := 0 to |files|
      invariant forall i | 0 <= i < fileIndex :: Accepted(files[i])
      invariant tensorOffsets == Entries(files, fileIndex) && tensors == Tensors(files, fileIndex)
    {
      var file := files[fileIndex];
      if !Accepted(file) {
        return Err(if Contiguous(file.spans) then NoTensors else NotContiguous);
      }
      tensorOffsets := tensorOffsets + FileEntries(fileIndex, file);
      tensors := tensors + FileTensors(fileIndex, file);
    }
    return Ok((tensorOffsets, tensors));
  }

  // ----- the list is what the layout expects

  /** The entries of the first n files. */
  predicate Upto(before: seq<Entry>, n: nat) {
    if n == 0 then before == [] else WellFormed(before) && before[|before| - 1].file == n - 1
  }

  lemma OwnAdjacent(index: nat, file: File, k: nat)
    requires Accepted(file) && Ordered(file) && k < |file.spans|
    ensures var own := FileEntries(index, file);
      && own[k].file == own[k + 1].file == index
      && own[k].offset == file.spans[k].begin + file.dataStart
      && own[k + 1].offset == own[k].offset + file.spans[k].end - file.spans[k].begin
      && own[k].offset <= own[k + 1].offset
  {
    assert file.spans[k] in file.spans;
    if k + 1 < |file.spans| {
      assert EndToEnd(file.spans, k);
    }
  }

  lemma {:induction false} WellFormedPush(before: seq<Entry>, n: nat, file: File, all: seq<Entry>)
    requires Upto(before, n) && Accepted(file) && Ordered(file) && all == before + FileEntries(n, file)
    ensures Upto(all, n + 1)
  {
    var own := FileEntries(n, file);
    forall i: nat | i + 1 < |all| ensures Adjacent(all, i) {
      if i + 1 < |before| {
        assert Adjacent(before, i);
      } else if i >= |before| {
        OwnAdjacent(n, file, i - |before|);
        assert all[i] == own[i - |before|] && all[i + 1] == own[i + 1 - |before|];
      } else {
        assert all[i + 1] == own[0] && TensorAt(before, |before| - 2);
      }
    }
    var k := |file.spans| - 1;
    OwnAdjacent(n, file, k);
    assert all[|all| - 2] == own[k] && all[|all| - 1] == own[k + 1];
    if n == 0 {
      OwnAdjacent(n, file, 0);
      assert all[0] == own[0];
    }
  }

  lemma {:induction false} ListIsWellFormed(files: seq<File>, n: nat)
    requires AllAccepted(files) && AllOrdered(files) && n <= |files|
    ensures Upto(Entries(files, n), n)
  {
    hide FileEntries, Contiguous, Ordered, WellFormed;
    for k := 0 to n
      invariant Upto(Entries(files, k), k)
    {
      NextIsWellFormed(files, k);
    }
  }

  lemma NextIsWellFormed(files: seq<File>, k: nat)
    requires k < |files| && AllAccepted(files) && AllOrdered(files) && Upto(Entries(files, k), k)
    ensures Upto(Entries(files, k + 1), k + 1)
  {
    WellFormedPush(Entries(files, k), k, files[k], Entries(files, k + 1));
  }

  /** An entry of the same file that lies before its predecessor. */
  predicate Backwards(entries: seq<Entry>, j: nat) {
    j + 1 < |entries| && entries[j].file == entries[j + 1].file && entries[j].offset > entries[j + 1].offset
  }

  lemma BackwardsInFile(before: seq<Entry>, index: nat, file: File, all: seq<Entry>) returns (j: nat)
    requires Accepted(file) && !Ordered(file) && all == before + FileEntries(index, file)
    ensures Backwards(all, j)
  {
    var own := FileEntries(index, file);
    var k: nat :| k < |file.spans| && file.spans[k].end < file.spans[k].begin;
    assert k + 1 < |file.spans| ==> EndToEnd(file.spans, k);
    j := |before| + k;
    assert all[j] == own[k] && all[j + 1] == own[k + 1];
  }

  lemma StaysBackwards(before: seq<Entry>, more: seq<Entry>, all: seq<Entry>, j: nat)
    requires Backwards(before, j) && all == before + more
    ensures Backwards(all, j)
  {
  }

  /** A tensor that ends before it begins spoils the list, whatever comes before and after. */
  lemma {:induction false} ListIsBroken(files: seq<File>, i: nat, n: nat) returns (j: nat)
    requires i < n <= |files| && Accepted(files[i]) && !Ordered(files[i])
    ensures Backwards(Entries(files, n), j)
  {
    hide FileEntries;
    if i + 1 == n {
      j := BackwardsInFile(Entries(files, i), i, files[i], Entries(files, n));
    } else {
      j := ListIsBroken(files, i, n - 1);
      StaysBackwards(Entries(files, n - 1), FileEntries(n - 1, files[n - 1]), Entries(files, n), j);
    }
  }

  /** The list is well formed exactly if no tensor ends before it begins. */
  lemma {:induction false} WellFormedIff(files: seq<File>)
    requires files != [] && AllAccepted(files)
    ensures WellFormed(Entries(files, |files|)) <==> AllOrdered(files)
  {
    if AllOrdered(files) {
      ListIsWellFormed(files, |files|);
    } else {
      var i: nat :| i < |files| && !Ordered(files[i]);
      var j := ListIsBroken(files, i, |files|);
      assert !Adjacent(Entries(files, |files|), j);
    }
  }

  // ----- the loader's tensors are the listed ones

  ghost predicate Matches(x: Input, t: Listed) {
    x.fileIndex == t.fileIndex && x.fileOffset == t.fileOffset && x.size == t.size
  }

  ghost predicate AllMatch(ins: seq<Input>, ts: seq<Listed>) {
    |ins| == |ts| && forall k | 0 <= k < |ins| :: Matches(ins[k], ts[k])
  }

  lemma InputsOfPrefix(before: seq<Entry>, all: seq<Entry>, i: nat)
    requires i < |before| <= |all| && before == all[..|before|]
    ensures Inputs(before, i) == Inputs(all, i) && FileStart(before, i) == FileStart(all, i)
  {
    if i > 0 {
      InputsOfPrefix(before, all, i - 1);
    }
  }

  /** Entry i is the start of tensor t and the next one its end. */
  predicate EntryOf(all: seq<Entry>, i: nat, t: Listed) {
    && i + 1 < |all| && all[i].file == all[i + 1].file == t.fileIndex && all[i].offset == t.fileOffset
    && t.size >= 0 && all[i + 1].offset == all[i].offset + t.size
  }

  /** From entry `from` on the list consists of these tensors. */
  predicate EntriesOf(all: seq<Entry>, from: nat, ts: seq<Listed>) {
    |all| == from + |ts| + 1 && forall k | 0 <= k < |ts| :: EntryOf(all, from + k, ts[k])
  }

  lemma InputsStep(all: seq<Entry>, i: nat, ts: seq<Listed>, t: Listed)
    requires EntryOf(all, i, t) && AllMatch(Inputs(all, i), ts)
    ensures AllMatch(Inputs(all, i + 1), ts + [t])
  {
    var x := Input(all[i + 1].file, all[i].offset, all[i + 1].offset - all[i].offset, FileStart(all, i + 1));
    assert Matches(x, t);
    MatchesPush(Inputs(all, i), x, ts, t);
  }

  lemma InputsAt(all: seq<Entry>, i: nat)
    requires 0 < i < |all| && all[i - 1].file != all[i].file
    ensures Inputs(all, i) == Inputs(all, i - 1)
  {
  }

  lemma InputsSkip(before: seq<Entry>, all: seq<Entry>)
    requires 0 < |before| < |all| && before == all[..|before|]
    requires all[|before| - 1].file != all[|before|].file
    ensures Inputs(all, |before|) == Inputs(before, |before| - 1)
  {
    hide Inputs;
    InputsOfPrefix(before, all, |before| - 1);
    InputsAt(all, |before|);
  }

  /** Up to entry `from` + k: the tensors before entry `from`, then the first k of the others. */
  lemma {:induction false} InputsPush(all: seq<Entry>, from: nat, before: seq<Listed>, ts: seq<Listed>, k: nat)
    requires EntriesOf(all, from, ts) && AllMatch(Inputs(all, from), before) && k <= |ts|
    ensures AllMatch(Inputs(all, from + k), before + ts[..k])
  {
    hide AllMatch, Inputs, EntryOf;
    if k > 0 {
      InputsPush(all, from, before, ts, k - 1);
      InputsStep(all, from + k - 1, before + ts[..k - 1], ts[k - 1]);
      assert before + ts[..k] == before + ts[..k - 1] + [ts[k - 1]];
    } else {
      assert before + ts[..0] == before;
    }
  }

  lemma OwnEntries(before: seq<Entry>, n: nat, file: File)
    requires Accepted(file) && Ordered(file)
    ensures EntriesOf(before + FileEntries(n, file), |before|, FileTensors(n, file))
    ensures FileEntries(n, file)[0].file == n
  {
    var own, ts := FileEntries(n, file), FileTensors(n, file);
    var all := before + own;
    forall k | 0 <= k < |ts| ensures EntryOf(all, |before| + k, ts[k]) {
      OwnAdjacent(n, file, k);
      assert all[|before| + k] == own[k] && all[|before| + k + 1] == own[k + 1];
    }
    OwnAdjacent(n, file, 0);
  }

  lemma MatchesPush(ins: seq<Input>, x: Input, ts: seq<Listed>, t: Listed)
    requires AllMatch(ins, ts) && Matches(x, t)
    ensures AllMatch(ins + [x], ts + [t])
  {
  }

  /** The loader finds these tensors in the list, in this order. */
  ghost predicate Agree(entries: seq<Entry>, ts: seq<Listed>) {
    if entries == [] then ts == [] else AllMatch(Inputs(entries, |entries| - 1), ts)
  }

  lemma AgreePush(before: seq<Entry>, n: nat, file: File, listed: seq<Listed>, all: seq<Entry>, ts: seq<Listed>)
    requires if n == 0 then before == [] else before != [] && before[|before| - 1].file == n - 1
    requires Accepted(file) && Ordered(file) && Agree(before, listed)
    requires all == before + FileEntries(n, file) && ts == listed + FileTensors(n, file)
    ensures Agree(all, ts)
  {
    hide FileEntries, FileTensors, EntryOf;
    var own := FileTensors(n, file);
    OwnEntries(before, n, file);
    if n > 0 {
      InputsSkip(before, all);
    }
    InputsPush(all, |before|, listed, own, |own|);
    assert own[..|own|] == own;
  }

  lemma LastOfFile(files: seq<File>, n: nat)
    requires AllAccepted(files) && AllOrdered(files) && n <= |files|
    ensures var es := Entries(files, n); if n == 0 then es == [] else es != [] && es[|es| - 1].file == n - 1
  {
    hide Entries;
    ListIsWellFormed(files, n);
  }

  lemma NextAgrees(files: seq<File>, k: nat)
    requires k < |files| && AllAccepted(files) && AllOrdered(files) && Agree(Entries(files, k), Tensors(files, k))
    ensures Agree(Entries(files, k + 1), Tensors(files, k + 1))
  {
    hide FileEntries, FileTensors, Agree, Accepted, Ordered;
    LastOfFile(files, k);
    AgreePush(Entries(files, k), k, files[k], Tensors(files, k), Entries(files, k + 1), Tensors(files, k + 1));
  }

  /** The k-th tensor that the loader finds in the list is the k-th one of the metadata, so names and tensors agree. */
  lemma {:induction false} ListedInOrder(files: seq<File>, n: nat)
    requires n <= |files| && AllAccepted(files) && AllOrdered(files)
    ensures Agree(Entries(files, n), Tensors(files, n))
  {
    for k := 0 to n
      invariant Agree(Entries(files, k), Tensors(files, k))
    {
      NextAgrees(files, k);
    }
  }

  /** The number of tensors of the first n files. */
  function TensorCount(files: seq<File>, n: nat): nat
    requires n <= |files|
  {
    if n == 0 then 0 else TensorCount(files, n - 1) + |files[n - 1].spans|
  }

  /** Behind the tensors of the files before it, a file's tensors come in order, each with its place in the file. */
  lemma {:induction false} ListedAt(files: seq<File>, n: nat, f: nat, s: nat)
    requires f < n <= |files| && s < |files[f].spans|
    ensures |Tensors(files, n)| == TensorCount(files, n)
    ensures var k, file := TensorCount(files, f) + s, files[f];
      && k < TensorCount(files, n)
      && Tensors(files, n)[k] ==
           Listed(f, file.dataStart + file.spans[s].begin, file.spans[s].end - file.spans[s].begin)
  {
    hide Tensors;
    TensorsGrow(files, n);
    if f + 1 < n {
      ListedAt(files, n - 1, f, s);
    } else {
      CountIsLength(files, f);
    }
  }

  lemma TensorsGrow(files: seq<File>, n: nat)
    requires 0 < n <= |files|
    ensures Tensors(files, n) == Tensors(files, n - 1) + FileTensors(n - 1, files[n - 1])
  {
  }

  lemma {:induction false} CountIsLength(files: seq<File>, n: nat)
    requires n <= |files|
    ensures |Tensors(files, n)| == TensorCount(files, n)
  {
    if n > 0 {
      CountIsLength(files, n - 1);
    }
  }

  /** The file that has the k-th tensor, and the tensor's number in it. */
  lemma {:induction false} FileOf(files: seq<File>, n: nat, k: nat) returns (f: nat, s: nat)
    requires n <= |files| && k < TensorCount(files, n)
    ensures f < n && s < |files[f].spans| && k == TensorCount(files, f) + s
  {
    if k < TensorCount(files, n - 1) {
      f, s := FileOf(files, n - 1, k);
    } else {
      f, s := n - 1, k - TensorCount(files, n - 1);
    }
  }

  lemma KthListed(files: seq<File>, ins: seq<Input>, ts: seq<Listed>, k: nat)
    requires files != [] && AllAccepted(files) && AllOrdered(files) && ts == Tensors(files, |files|)
    requires var es := Entries(files, |files|); es != [] && ins == Inputs(es, |es| - 1)
    ensures |ins| == |ts| && (k < |ts| ==> Matches(ins[k], ts[k]))
  {
    hide Entries, Tensors, Inputs, Matches;
    ListedInOrder(files, |files|);
  }

  // ----- the buffer size

  function SizesOf(ts: seq<Listed>): (sizes: seq<int>)
    ensures |sizes| == |ts| && forall i | 0 <= i < |ts| :: sizes[i] == ts[i].size
  {
    seq(|ts|, i requires 0 <= i < |ts| => ts[i].size)
  }

  const DEFAULT_OVERLAP_FACTOR: real := 0.9

  /** The size that `_determine_buffer_size` arrives at: a requested one is raised to the largest tensor, then lowered
      to the total; the default is what the least sufficient candidate, the largest tensor and the I/O need. */
  ghost predicate Determined(requested: Option<int>, sizes: seq<int>, bufferSizeForIo: nat, size: int) {
    if sizes == [] then
      requested.None? && size == Max(SIZE_WITHOUT_TENSORS, bufferSizeForIo)
    else if requested.None? then
      exists b | LeastCandidate(sizes, Total(sizes) as real * DEFAULT_OVERLAP_FACTOR, b) ::
        size == Max(Max(b, Largest(sizes)), bufferSizeForIo)
    else
      var raised := Max(requested.value, Largest(sizes));
      size == if raised > Total(sizes) then Total(sizes) else raised
  }

  /** `_determine_buffer_size`. With sizes that are not negative the result is no smaller than any tensor, and it fails
      only without any tensors. */
  method DetermineBufferSize(requested: Option<int>, tensorSizes: seq<int>, bufferSizeForIo: nat)
    returns (r: OpenResult<int>)
    ensures r.Ok? ==> Determined(requested, tensorSizes, bufferSizeForIo, r.value)
    ensures r.Ok? && requested.Some? ==>
      r.value == (if requested.value > Total(tensorSizes) || Largest(tensorSizes) > Total(tensorSizes)
                  then Total(tensorSizes)
                  else if requested.value < Largest(tensorSizes) then Largest(tensorSizes) else requested.value)
    ensures requested.None? && tensorSizes == [] ==> r == Ok(if bufferSizeForIo > 4096 then bufferSizeForIo else 4096)
    ensures r.Ok? && requested.None? ==> r.value >= bufferSizeForIo
    ensures r.Err? ==> r.error == NoBufferSize
    ensures r.Err? <==>
      if requested.Some? then tensorSizes == []
      else tensorSizes != [] && NoCandidate(tensorSizes, Total(tensorSizes) as real * 0.9)
    ensures NonNegative(tensorSizes) ==> (r.Err? <==> tensorSizes == [] && requested.Some?)
    ensures NonNegative(tensorSizes) && r.Ok? ==> forall i | 0 <= i < |tensorSizes| :: tensorSizes[i] <= r.value
  {
    hide Total, Largest, LeastCandidate, NoCandidate;
    if tensorSizes != [] {
      LargestIs(tensorSizes);
      if NonNegative(tensorSizes) {
        LargestAtMostTotal(tensorSizes);
      }
    }
    if requested.None? {
      var forTensors, share := Recommend(tensorSizes, DEFAULT_OVERLAP_FACTOR);
      if forTensors.Failed? {
        return Err(NoBufferSize);
      }
      return Ok(Max(forTensors.bytes, bufferSizeForIo));
    }
    if tensorSizes == [] {
      return Err(NoBufferSize);
    }
    var bufferSize := requested.value;
    var minBufferSize := Largest(tensorSizes);
    if bufferSize < minBufferSize {
      bufferSize := minBufferSize;
    }
    var maxBufferSize := Total(tensorSizes);
    if bufferSize > maxBufferSize {
      bufferSize := maxBufferSize;
    }
    return Ok(bufferSize);
  }

  // ----- opening

  lemma ContractMet(args: LoaderCore.OpenArgs, ts: seq<Listed>)
    requires args.numThreads > 0 && args.worldSize > 0 && args.ioDepth > 0 && args.chunkSize > 0
    requires WellFormed(args.entries) && Agree(args.entries, ts)
    requires forall i | 0 <= i < |ts| :: ts[i].size <= args.bufferSize
    ensures args.Valid()
  {
    hide Inputs, Adjacent;
    var ins := Inputs(args.entries, |args.entries| - 1);
    forall x | x in ins ensures x.size <= args.bufferSize {
      var k: nat :| k < |ins| && ins[k] == x;
      assert Matches(ins[k], ts[k]);
    }
  }

  lemma ListFacts(files: seq<File>)
    requires files != [] && AllAccepted(files) && AllOrdered(files)
    ensures Agree(Entries(files, |files|), Tensors(files, |files|))
    ensures Tensors(files, |files|) != [] && NonNegative(SizesOf(Tensors(files, |files|)))
  {
    hide Agree, Entries, Tensors;
    ListedInOrder(files, |files|);
    TensorsOrdered(files, |files|);
  }

  /** `chunk_size * concurrency * io_depth * world_size` */
  function Product(a: nat, b: nat, c: nat, d: nat): nat {
    var ab: nat := a * b;
    var abc: nat := ab * c;
    abc * d
  }

  /** `_determine_buffer_size` gives a size for these tensors, and one that a `size_t` can take. */
  ghost predicate Sizable(requested: Option<int>, sizes: seq<int>) {
    if requested.Some? then sizes != [] && Total(sizes) >= 0
    else sizes == [] || !NoCandidate(sizes, Total(sizes) as real * DEFAULT_OVERLAP_FACTOR)
  }

  /** These files are opened. */
  ghost predicate Opens(files: seq<File>, requested: Option<int>) {
    AllAccepted(files) && Sizable(requested, SizesOf(Tensors(files, |files|)))
  }

  /** The arguments of OPEN, `buffer_size` being a `size_t`: when they are made, and when they are within the loader's
      contract. Only files in which a tensor ends before it begins, and no files at all, are opened outside it. */
  method MakeOpenArgs(files: seq<File>, requested: Option<int>, chunkSize: nat, concurrency: nat, ioDepth: nat,
                      worldSize: nat)
    returns (r: OpenResult<LoaderCore.OpenArgs>)
    requires chunkSize > 0 && concurrency > 0 && ioDepth > 0 && worldSize > 0
    ensures r.Ok? <==> Opens(files, requested)
    ensures !AllAccepted(files) ==>
      exists i | 0 <= i < |files| && !Accepted(files[i]) && forall j | 0 <= j < i :: Accepted(files[j]) ::
        r == Err(if files[i].spans == [] then NoTensors else NotContiguous)
    ensures r.Ok? ==> r.value == LoaderCore.OpenArgs(concurrency, worldSize, ioDepth, chunkSize, r.value.bufferSize,
                                                     Entries(files, |files|))
    ensures r.Ok? ==> Determined(requested, SizesOf(Tensors(files, |files|)),
                                 Product(chunkSize, concurrency, ioDepth, worldSize), r.value.bufferSize)
    ensures r.Ok? && requested.None? ==> r.value.bufferSize >= chunkSize * concurrency * ioDepth * worldSize
    ensures r.Ok? ==> (r.value.Valid() <==> files != [] && AllOrdered(files))
    ensures files != [] && AllAccepted(files) && AllOrdered(files) ==> r.Ok?
  {
    hide FileEntries, FileTensors, Accepted, LoaderCore.OpenArgs.Valid;
    var built := BuildOffsets(files);
    if built.Err? {
      return Err(built.error);
    }
    var (entries, tensors) := built.value;
    var sizes := SizesOf(tensors);
    var size := DetermineBufferSize(requested, sizes, Product(chunkSize, concurrency, ioDepth, worldSize));
    if files != [] && AllOrdered(files) {
      ListFacts(files);
      TotalIsNat(sizes);
    }
    if size.Err? {
      return Err(size.error);
    }
    if sizes != [] && Total(sizes) >= 0 {
      SomeIsNat(sizes);
    }
    if size.value < 0 {
      return Err(NegativeBufferSize);
    }
    var args := LoaderCore.OpenArgs(concurrency, worldSize, ioDepth, chunkSize, size.value, entries);
    ArgsValidIff(files, args, tensors);
    return Ok(args);
  }

  lemma SomeIsNat(sizes: seq<int>)
    requires sizes != [] && Total(sizes) >= 0
    ensures Largest(sizes) >= 0
  {
    var n := |sizes| - 1;
    if n > 0 && sizes[n] < 0 {
      SomeIsNat(sizes[..n]);
    }
  }

  /** Files that are opened although the loader's contract does not hold: one whose last tensor is -4 bytes long, with a
      buffer size of 8 bytes requested, and no files with none requested. */
  lemma OpenedOutsideContract(files: seq<File>, requested: Option<int>)
    requires || (files == [File(8, [Span(0, 8), Span(8, 4)])] && requested == Some(8))
             || (files == [] && requested == None)
    ensures Opens(files, requested) && !(files != [] && AllOrdered(files))
  {
    if files != [] {
      var spans := files[0].spans;
      assert spans[1] in spans;
      assert !Ordered(files[0]);
      assert Tensors(files, 0) == [];
      var sizes := SizesOf(Tensors(files, 1));
      assert sizes == [8, -4];
      assert sizes[..1] == [8] && sizes[..1][..0] == [];
      assert Total(sizes[..1]) == 8;
    }
  }

  lemma ArgsValidIff(files: seq<File>, args: LoaderCore.OpenArgs, ts: seq<Listed>)
    requires args.numThreads > 0 && args.worldSize > 0 && args.ioDepth > 0 && args.chunkSize > 0
    requires AllAccepted(files) && args.entries == Entries(files, |files|) && ts == Tensors(files, |files|)
    requires NonNegative(SizesOf(ts)) ==> forall i | 0 <= i < |ts| :: ts[i].size <= args.bufferSize
    ensures args.Valid() <==> files != [] && AllOrdered(files)
  {
    hide Agree, Tensors;
    if files != [] {
      WellFormedIff(files);
      if AllOrdered(files) {
        ListFacts(files);
        ContractMet(args, ts);
      }
    }
  }

  lemma {:induction false} TensorsOrdered(files: seq<File>, n: nat)
    requires 0 < n <= |files| && AllAccepted(files) && AllOrdered(files)
    ensures Tensors(files, n) != [] && forall t | t in Tensors(files, n) :: t.size >= 0
  {
    if n > 1 {
      TensorsOrdered(files, n - 1);
    }
    var spans := files[n - 1].spans;
    assert forall k | 0 <= k < |spans| :: spans[k] in spans;
  }
}
