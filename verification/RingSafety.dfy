/** The invariant behind the layout: what chunk writes which byte of which tensor, and who may overwrite it. */
module RingSafety {
  import opened RoundMath
  import opened RingLayout

  /** A tensor as the frontend describes it; `fileStart` is where the data of its file starts. */
  datatype Input = Input(fileIndex: nat, fileOffset: nat, size: nat, fileStart: nat)

  function FileStart(entries: seq<Entry>, i: nat): nat
    requires i < |entries|
  {
    if i == 0 || entries[i - 1].file != entries[i].file then entries[i].offset else FileStart(entries, i - 1)
  }

  /** The tensors described by the first i + 1 entries, in order. */
  function Inputs(entries: seq<Entry>, i: nat): seq<Input>
    requires i < |entries|
  {
    if i == 0 then []
    else if TensorAt(entries, i - 1) && entries[i - 1].offset <= entries[i].offset then
      Inputs(entries, i - 1) + [Input(entries[i].file, entries[i - 1].offset,
                                      entries[i].offset - entries[i - 1].offset, FileStart(entries, i))]
    else Inputs(entries, i - 1)
  }

  /** The first page of the file's data is not still empty when the tensor ends. Every non-empty tensor is solid;
      an empty one is not if it stands, with nothing before it, at a page boundary. */
  predicate Solid(ring: Ring, x: Input)
    requires ring.Valid()
  {
    RoundDown(x.fileStart, ring.threadAlignment) < x.fileOffset + x.size
  }

  predicate SameData(t: Tensor, x: Input) {
    t.size == x.size && t.fileIndex == x.fileIndex && t.fileOffset == x.fileOffset
  }

  /** The same tensor, except for prefetchChunk. */
  predicate SamePlace(t: Tensor, u: Tensor) {
    u == t.(prefetchChunk := u.prefetchChunk)
  }

  ghost predicate SamePlaces(a: seq<Tensor>, b: seq<Tensor>) {
    |a| == |b| && forall j | 0 <= j < |a| :: SamePlace(a[j], b[j])
  }

  // ----- what a chunk writes

  /** What to add to a file offset to get a device offset. */
  function Shift(t: Tensor): int {
    t.deviceOffset - t.fileOffset
  }

  function PaddedEnd(ring: Ring, c: Chunk): nat
    requires ring.Valid()
  {
    c.deviceOffset + RoundUp(c.size, ring.worldChunkAlignment)
  }

  /** The chunk's device range, padding included, contains address a. */
  ghost predicate Touches(ring: Ring, c: Chunk, a: int)
    requires ring.Valid()
  {
    c.deviceOffset <= a < PaddedEnd(ring, c)
  }

  /** The padded ranges of two chunks do not overlap. */
  predicate Apart(ring: Ring, c: Chunk, d: Chunk)
    requires ring.Valid()
  {
    PaddedEnd(ring, c) <= d.deviceOffset || PaddedEnd(ring, d) <= c.deviceOffset
  }

  /** The chunk brings byte `pos` of the file to address pos + shift. */
  ghost predicate Brings(c: Chunk, file: nat, shift: int, pos: int) {
    && c.fileIndex == file
    && c.fileOffset <= pos < c.fileOffset + c.size
    && c.deviceOffset - c.fileOffset == shift
  }

  /** Chunk c brings the byte and no chunk in (c, upto) touches its address; if c is before upto, the address is
      also below `frontier`. */
  ghost predicate BroughtBy(
      ring: Ring, cs: seq<Chunk>, file: nat, shift: int, pos: int, upto: int, frontier: int, c: int)
    requires ring.Valid()
  {
    && 0 <= c < |cs|
    && Brings(cs[c], file, shift, pos)
    && (forall d | c < d < upto && d < |cs| :: !Touches(ring, cs[d], pos + shift))
    && (c < upto ==> pos + shift < frontier)
  }

  ghost predicate Kept(ring: Ring, cs: seq<Chunk>, file: nat, shift: int, pos: int, last: int, upto: int, frontier: int)
    requires ring.Valid()
  {
    exists c | c <= last :: BroughtBy(ring, cs, file, shift, pos, upto, frontier, c)
  }

  /** Every byte of the tensor is brought by a chunk up to lastChunk and kept by the chunks before `upto`. */
  ghost predicate TensorKept(ring: Ring, cs: seq<Chunk>, t: Tensor, upto: int, frontier: int)
    requires ring.Valid()
  {
    forall pos | t.fileOffset <= pos < t.fileOffset + t.size ::
      Kept(ring, cs, t.fileIndex, Shift(t), pos, t.lastChunk, upto, frontier)
  }

  function End(t: Tensor): int {
    t.deviceOffset + t.size
  }

  /** The emitted chunks and the pending one. */
  function Virtual(p: Plan): seq<Chunk> {
    p.chunks + [Pending(p)]
  }

  // ----- the invariant

  ghost predicate TensorOk(ring: Ring, ins: seq<Input>, p: Plan, j: nat)
    requires ring.Valid() && j < |p.tensors| && j < |ins|
  {
    var t, n := p.tensors[j], |p.chunks|;
    && SameData(t, ins[j])
    && (t.size > 0 ==> Solid(ring, ins[j]))
    && 0 <= t.lastChunk <= n
    && (Solid(ring, ins[j]) && t.lastChunk == n ==> p.size > 0 && p.leftMost <= j)
    && (j < p.inBuffer ==>
          && -1 <= t.prefetchChunk < n
          && (Solid(ring, ins[j]) ==> t.lastChunk <= t.prefetchChunk)
          && TensorKept(ring, Virtual(p), t, t.prefetchChunk + 1, End(t)))
    && (p.inBuffer <= j < p.leftMost ==> TensorKept(ring, Virtual(p), t, n, End(t)))
    && (p.leftMost <= j ==>
          && TensorKept(ring, Virtual(p), t, n, p.deviceOffset)
          && t.deviceOffset <= p.deviceOffset + p.size)
  }

  ghost predicate Sorted(tensors: seq<Tensor>, lo: nat, hi: nat) {
    forall i, j | lo <= i < j < hi && j < |tensors| :: tensors[i].deviceOffset <= tensors[j].deviceOffset
  }

  ghost predicate PrefetchSorted(tensors: seq<Tensor>, hi: nat) {
    forall i, j | 0 <= i < j < hi && j < |tensors| :: tensors[i].prefetchChunk <= tensors[j].prefetchChunk
  }

  ghost predicate LastSorted(tensors: seq<Tensor>) {
    forall i, j | 0 <= i < j < |tensors| :: tensors[i].lastChunk <= tensors[j].lastChunk
  }

  ghost predicate Core(ring: Ring, ins: seq<Input>, p: Plan)
    requires ring.Valid()
  {
    && Indexed(p)
    && |ins| == |p.tensors|
    && p.size <= ring.worldChunkSize
    && (forall j | 0 <= j < |p.tensors| :: TensorOk(ring, ins, p, j))
    && Sorted(p.tensors, p.inBuffer, p.leftMost)
    && Sorted(p.tensors, p.leftMost, |p.tensors|)
    && PrefetchSorted(p.tensors, p.inBuffer)
    && LastSorted(p.tensors)
  }

  /** No tensor waits for the pending chunk. */
  ghost predicate Flushed(ring: Ring, ins: seq<Input>, p: Plan)
    requires ring.Valid() && |ins| == |p.tensors|
  {
    forall j | 0 <= j < |ins| ::
      && (Solid(ring, ins[j]) ==> p.tensors[j].lastChunk < |p.chunks|)
      && (p.leftMost <= j ==> p.tensors[j].deviceOffset <= p.deviceOffset)
  }

  // ----- frame lemmas

  ghost predicate Grown(c: Chunk, d: Chunk) {
    d == c.(size := d.size) && c.size <= d.size
  }

  /** Chunks up to lastChunk may grow, chunks before `upto` stay as they are. */
  lemma KeptFrame(ring: Ring, cs: seq<Chunk>, ds: seq<Chunk>, t: Tensor, upto: int, f: int, g: int)
    requires ring.Valid() && TensorKept(ring, cs, t, upto, f)
    requires f <= g || End(t) <= g
    requires forall i | 0 <= i <= t.lastChunk && i < |cs| :: i < |ds| && Grown(cs[i], ds[i])
    requires forall i | 0 <= i < upto && i < |ds| :: i < |cs| && ds[i] == cs[i]
    ensures TensorKept(ring, ds, t, upto, g)
  {
    forall pos | t.fileOffset <= pos < t.fileOffset + t.size
      ensures Kept(ring, ds, t.fileIndex, Shift(t), pos, t.lastChunk, upto, g)
    {
      assert Kept(ring, cs, t.fileIndex, Shift(t), pos, t.lastChunk, upto, f);
      var c :| c <= t.lastChunk && BroughtBy(ring, cs, t.fileIndex, Shift(t), pos, upto, f, c);
      assert BroughtBy(ring, ds, t.fileIndex, Shift(t), pos, upto, g, c);
    }
  }

  /** Emitting the pending chunk keeps the tensors of the current pass: it starts after what is already there. */
  lemma KeptByFinish(ring: Ring, p: Plan, t: Tensor)
    requires ring.Valid() && Indexed(p) && p.size > 0
    requires TensorKept(ring, Virtual(p), t, |p.chunks|, p.deviceOffset)
    ensures TensorKept(ring, Virtual(Finish(ring, p)), t, |p.chunks| + 1, Finish(ring, p).deviceOffset)
  {
    var q, n, cs := Finish(ring, p), |p.chunks|, Virtual(p);
    var m, ds := n + 1, Virtual(q);
    RoundUpIs(p.size, ring.worldChunkAlignment);
    assert ds[..m] == cs;
    forall pos | t.fileOffset <= pos < t.fileOffset + t.size
      ensures Kept(ring, ds, t.fileIndex, Shift(t), pos, t.lastChunk, m, q.deviceOffset)
    {
      assert Kept(ring, cs, t.fileIndex, Shift(t), pos, t.lastChunk, n, p.deviceOffset);
      var c :| c <= t.lastChunk && BroughtBy(ring, cs, t.fileIndex, Shift(t), pos, n, p.deviceOffset, c);
      assert forall d | 0 <= d <= n :: ds[d] == cs[d];
      assert BroughtBy(ring, ds, t.fileIndex, Shift(t), pos, m, q.deviceOffset, c);
    }
  }

  /** Emitting the pending chunk keeps a tensor of the previous pass that starts at or after its padded end. */
  lemma KeptBeyondFinish(ring: Ring, p: Plan, t: Tensor)
    requires ring.Valid() && Indexed(p) && p.size > 0
    requires TensorKept(ring, Virtual(p), t, |p.chunks|, End(t))
    requires Finish(ring, p).deviceOffset <= t.deviceOffset
    requires t.size > 0 ==> t.lastChunk < |p.chunks|
    ensures TensorKept(ring, Virtual(Finish(ring, p)), t, |p.chunks| + 1, End(t))
  {
    var q, n, cs := Finish(ring, p), |p.chunks|, Virtual(p);
    var m, ds := n + 1, Virtual(q);
    assert ds[..m] == cs;
    forall pos | t.fileOffset <= pos < t.fileOffset + t.size
      ensures Kept(ring, ds, t.fileIndex, Shift(t), pos, t.lastChunk, m, End(t))
    {
      assert Kept(ring, cs, t.fileIndex, Shift(t), pos, t.lastChunk, n, End(t));
      var c :| c <= t.lastChunk && BroughtBy(ring, cs, t.fileIndex, Shift(t), pos, n, End(t), c);
      assert forall d | 0 <= d <= n :: ds[d] == cs[d];
      assert BroughtBy(ring, ds, t.fileIndex, Shift(t), pos, m, End(t), c);
    }
  }

  // ----- the closures keep the invariant

  lemma FinishFlushes(ring: Ring, ins: seq<Input>, p: Plan)
    requires ring.Valid() && Core(ring, ins, p)
    ensures Flushed(ring, ins, Finish(ring, p))
  {
    var q := Finish(ring, p);
    if p.size > 0 { FinishEnd(ring, p); }
    forall j | 0 <= j < |ins|
      ensures Solid(ring, ins[j]) ==> q.tensors[j].lastChunk < |q.chunks|
      ensures q.leftMost <= j ==> q.tensors[j].deviceOffset <= q.deviceOffset
    {
      assert TensorOk(ring, ins, p, j);
    }
  }

  lemma CoreFinish(ring: Ring, ins: seq<Input>, p: Plan)
    requires ring.Valid() && Core(ring, ins, p)
    ensures Core(ring, ins, Finish(ring, p))
  {
    if p.size > 0 {
      var q := Finish(ring, p);
      SizesInRange(ring, p);
      RoundUpIs(p.size, ring.worldChunkAlignment);
      forall j | 0 <= j < |p.tensors| ensures TensorOk(ring, ins, q, j) {
        TensorOkFinish(ring, ins, p, j);
      }
      forall i, j | 0 <= i < j < q.inBuffer ensures q.tensors[i].prefetchChunk <= q.tensors[j].prefetchChunk {
        assert TensorOk(ring, ins, p, i);
      }
    }
  }

  lemma TensorOkFinish(ring: Ring, ins: seq<Input>, p: Plan, j: nat)
    requires ring.Valid() && Core(ring, ins, p) && p.size > 0 && j < |p.tensors|
    ensures TensorOk(ring, ins, Finish(ring, p), j)
  {
    var q, t, n := Finish(ring, p), p.tensors[j], |p.chunks|;
    assert TensorOk(ring, ins, p, j);
    assert Virtual(q)[..n + 1] == Virtual(p);
    FinishEnd(ring, p);
    if j < p.inBuffer {
      KeptFrame(ring, Virtual(p), Virtual(q), t, t.prefetchChunk + 1, End(t), End(t));
      assert q.tensors[j] == t;
    } else if j < q.inBuffer {
      var u := t.(prefetchChunk := n - 1);
      assert q.tensors[j] == u && Shift(u) == Shift(t);
      KeptFrame(ring, Virtual(p), Virtual(q), u, n, End(t), End(t));
    } else if j < p.leftMost {
      assert p.tensors[q.inBuffer].deviceOffset <= t.deviceOffset;
      KeptBeyondFinish(ring, p, t);
      assert q.tensors[j] == t;
    } else {
      KeptByFinish(ring, p, t);
      assert q.tensors[j] == t;
    }
  }

  lemma FinishEnd(ring: Ring, p: Plan)
    requires ring.Valid() && Indexed(p) && p.size > 0
    ensures Finish(ring, p).deviceOffset >= p.deviceOffset + p.size
  {
    RoundUpIs(p.size, ring.worldChunkAlignment);
  }

  lemma CoreWrap(ring: Ring, ins: seq<Input>, p: Plan)
    requires ring.Valid() && Core(ring, ins, p) && Flushed(ring, ins, p)
    ensures Core(ring, ins, Wrap(p, |p.tensors|))
    ensures Flushed(ring, ins, Wrap(p, |p.tensors|))
  {
    hide Solid, RoundDown;
    var q, n := Wrap(p, |p.tensors|), |p.chunks|;
    forall j | 0 <= j < |p.tensors|
      ensures TensorOk(ring, ins, q, j) && (Solid(ring, ins[j]) ==> q.tensors[j].lastChunk < n)
    {
      var t, u := p.tensors[j], q.tensors[j];
      assert TensorOk(ring, ins, p, j) && Shift(u) == Shift(t);
      var upto := if j < p.inBuffer then t.prefetchChunk + 1 else n;
      assert TensorKept(ring, Virtual(p), u, upto, if p.leftMost <= j then p.deviceOffset else End(t));
      KeptFlushed(ring, ins, p, Virtual(q), j, u, upto, if p.leftMost <= j then p.deviceOffset else End(t), End(t));
    }
    forall i, j | 0 <= i < j < q.inBuffer ensures q.tensors[i].prefetchChunk <= q.tensors[j].prefetchChunk {
      assert TensorOk(ring, ins, p, i);
    }
  }

  /** Replacing the pending chunk changes nothing for a tensor that does not wait for it. */
  lemma KeptFlushed(ring: Ring, ins: seq<Input>, p: Plan, ds: seq<Chunk>, j: nat, u: Tensor, upto: int, f: int, g: int)
    requires ring.Valid() && Core(ring, ins, p) && Flushed(ring, ins, p) && j < |p.tensors|
    requires u == p.tensors[j].(prefetchChunk := u.prefetchChunk)
    requires TensorKept(ring, Virtual(p), u, upto, f)
    requires f <= g || End(u) <= g
    requires |ds| == |p.chunks| + 1 && ds[..|p.chunks|] == p.chunks && upto <= |p.chunks|
    ensures TensorKept(ring, ds, u, upto, g)
  {
    assert TensorOk(ring, ins, p, j);
    assert forall i | 0 <= i < |p.chunks| :: ds[i] == ds[..|p.chunks|][i] == Virtual(p)[i];
    if u.size > 0 {
      KeptFrame(ring, Virtual(p), ds, u, upto, f, g);
    }
  }

  lemma CoreOpenFile(ring: Ring, ins: seq<Input>, p: Plan, e: Entry)
    requires ring.Valid() && Core(ring, ins, p) && Flushed(ring, ins, p) && p.size < ring.threadAlignment
    ensures Core(ring, ins, OpenFile(ring, p, e))
  {
    var q, n := OpenFile(ring, p, e), |p.chunks|;
    RemainderInRange(ring, e.offset);
    RoundUpIs(p.deviceOffset, FIRST_TENSOR_ALIGNMENT);
    forall j | 0 <= j < |p.tensors| ensures TensorOk(ring, ins, q, j) {
      var t := p.tensors[j];
      assert TensorOk(ring, ins, p, j);
      if j < p.inBuffer {
        KeptFlushed(ring, ins, p, Virtual(q), j, t, t.prefetchChunk + 1, End(t), End(t));
      } else if j < p.leftMost {
        KeptFlushed(ring, ins, p, Virtual(q), j, t, n, End(t), End(t));
      } else {
        KeptFlushed(ring, ins, p, Virtual(q), j, t, n, p.deviceOffset, q.deviceOffset);
      }
    }
  }

  lemma CoreGrow(ring: Ring, ins: seq<Input>, p: Plan, size: nat)
    requires ring.Valid() && Core(ring, ins, p) && p.size <= size <= ring.worldChunkSize
    ensures Core(ring, ins, p.(size := size))
  {
    var q, n := p.(size := size), |p.chunks|;
    assert Grown(Pending(p), Pending(q));
    forall j | 0 <= j < |p.tensors| ensures TensorOk(ring, ins, q, j) {
      var t := p.tensors[j];
      assert TensorOk(ring, ins, p, j);
      if j < p.inBuffer {
        KeptFrame(ring, Virtual(p), Virtual(q), t, t.prefetchChunk + 1, End(t), End(t));
      } else if j < p.leftMost {
        KeptFrame(ring, Virtual(p), Virtual(q), t, n, End(t), End(t));
      } else {
        KeptFrame(ring, Virtual(p), Virtual(q), t, n, p.deviceOffset, p.deviceOffset);
      }
    }
  }

  // ----- appending tensor bytes

  lemma CoreAppend(ring: Ring, ins: seq<Input>, p: Plan, left: nat)
    requires ring.Valid() && Core(ring, ins, p)
    ensures Core(ring, ins, Append(ring, p, left))
    decreases p.size + left
  {
    if p.size + left > ring.worldChunkSize {
      var full := p.(size := ring.worldChunkSize);
      CoreGrow(ring, ins, p, ring.worldChunkSize);
      CoreFinish(ring, ins, full);
      FinishSize(ring, full);
      CoreAppend(ring, ins, Finish(ring, full), p.size + left - ring.worldChunkSize);
    } else {
      CoreGrow(ring, ins, p, p.size + left);
    }
  }

  /** Appending moves only to the right, within one file and with one shift. */
  lemma AppendMoves(ring: Ring, p: Plan, left: nat)
    requires ring.Valid() && Indexed(p) && p.size <= ring.worldChunkSize
    ensures var q := Append(ring, p, left);
      && |p.chunks| <= |q.chunks| && q.chunks[..|p.chunks|] == p.chunks
      && p.deviceOffset <= q.deviceOffset
      && (forall d | |p.chunks| <= d < |q.chunks| :: p.deviceOffset <= q.chunks[d].deviceOffset)
      && q.deviceOffset + q.size == p.deviceOffset + p.size + left
      && q.fileOffset + q.size == p.fileOffset + p.size + left
      && q.fileIndex == p.fileIndex && q.leftMost == p.leftMost
    decreases p.size + left
  {
    if p.size + left > ring.worldChunkSize {
      var full := p.(size := ring.worldChunkSize);
      FinishSize(ring, full);
      AppendMoves(ring, Finish(ring, full), p.size + left - ring.worldChunkSize);
    }
  }

  /** An emitted chunk with only later ones to its right brings its bytes. */
  lemma EmittedBrings(ring: Ring, q: Plan, n: nat, pos: nat)
    requires ring.Valid() && n < |q.chunks|
    requires q.chunks[n].fileOffset <= pos < q.chunks[n].fileOffset + q.chunks[n].size
    requires forall d | n < d < |q.chunks| :: q.chunks[n].deviceOffset + q.chunks[n].size <= q.chunks[d].deviceOffset
    requires q.chunks[n].deviceOffset + q.chunks[n].size <= q.deviceOffset
    ensures var c := q.chunks[n];
      BroughtBy(ring, Virtual(q), c.fileIndex, c.deviceOffset - c.fileOffset, pos, |q.chunks|, q.deviceOffset, n)
  {
    assert forall d | n <= d < |q.chunks| :: Virtual(q)[d] == q.chunks[d];
  }

  lemma PendingBrings(ring: Ring, q: Plan, pos: nat)
    requires ring.Valid() && q.fileOffset <= pos < q.fileOffset + q.size
    ensures BroughtBy(ring, Virtual(q), q.fileIndex, q.deviceOffset - q.fileOffset, pos, |q.chunks|, q.deviceOffset,
                      |q.chunks|)
  {
  }

  lemma AppendFirst(ring: Ring, p: Plan, left: nat)
    requires ring.Valid() && Indexed(p) && p.size <= ring.worldChunkSize && p.size + left > ring.worldChunkSize
    ensures var full, rest := p.(size := ring.worldChunkSize), p.size + left - ring.worldChunkSize;
      var f := Finish(ring, full);
      && f.size == 0 && f.fileIndex == p.fileIndex && f.chunks == p.chunks + [Pending(full)]
      && f.fileOffset == p.fileOffset + ring.worldChunkSize && f.deviceOffset == p.deviceOffset + ring.worldChunkSize
      && Append(ring, p, left) == Append(ring, f, rest)
  {
    FinishSize(ring, p.(size := ring.worldChunkSize));
  }

  /** Every byte from the start of the pending chunk to the end of what is appended gets a chunk that brings it. */
  lemma AppendBrings(ring: Ring, p: Plan, left: nat, pos: nat) returns (c: nat)
    requires ring.Valid() && Indexed(p) && p.size <= ring.worldChunkSize
    requires p.fileOffset <= pos < p.fileOffset + p.size + left
    ensures |p.chunks| <= c
    ensures var q := Append(ring, p, left);
      c <= |q.chunks| && BroughtBy(ring, Virtual(q), p.fileIndex, p.deviceOffset - p.fileOffset, pos,
                                   |q.chunks|, q.deviceOffset, c)
    decreases p.size + left
  {
    var q := Append(ring, p, left);
    if p.size + left <= ring.worldChunkSize {
      c := |p.chunks|;
      PendingBrings(ring, q, pos);
    } else {
      hide Append, Finish, BroughtBy;
      var full, rest := p.(size := ring.worldChunkSize), p.size + left - ring.worldChunkSize;
      var f := Finish(ring, full);
      AppendFirst(ring, p, left);
      AppendMoves(ring, f, rest);
      if pos < f.fileOffset {
        c := |p.chunks|;
        assert q.chunks[c] == q.chunks[..|f.chunks|][c] == Pending(full);
        EmittedBrings(ring, q, c, pos);
      } else {
        c := AppendBrings(ring, f, rest, pos);
      }
    }
  }

  /** Every byte of a tensor just placed is in an emitted chunk or in the pending one. */
  lemma PlacedIsKept(ring: Ring, p: Plan, e: Entry, size: nat)
    requires ring.Valid() && Indexed(p) && p.size <= ring.worldChunkSize
    requires e == Entry(p.fileIndex, p.fileOffset + p.size)
    ensures var r := Place(ring, p, e, size);
      TensorKept(ring, Virtual(r), r.tensors[|p.tensors|], |r.chunks|, r.deviceOffset)
  {
    var r := Place(ring, p, e, size);
    var t := r.tensors[|p.tensors|];
    forall pos | t.fileOffset <= pos < t.fileOffset + t.size
      ensures Kept(ring, Virtual(r), t.fileIndex, Shift(t), pos, t.lastChunk, |r.chunks|, r.deviceOffset)
    {
      var c := AppendBrings(ring, p, size, pos);
      assert BroughtBy(ring, Virtual(r), t.fileIndex, Shift(t), pos, |r.chunks|, r.deviceOffset, c);
    }
  }

  lemma {:induction false} CorePlace(ring: Ring, ins: seq<Input>, p: Plan, e: Entry, x: Input)
    requires ring.Valid() && Core(ring, ins, p)
    requires e == Entry(p.fileIndex, p.fileOffset + p.size)
    requires x.fileIndex == e.file && x.fileOffset == e.offset
    requires x.size > 0 ==> Solid(ring, x)
    requires Solid(ring, x) ==> p.size + x.size > 0
    ensures Core(ring, ins + [x], Place(ring, p, e, x.size))
  {
    hide Append, TensorKept, Solid, Touches;
    var q := Append(ring, p, x.size);
    var r := Place(ring, p, e, x.size);
    CoreAppend(ring, ins, p, x.size);
    AppendMoves(ring, p, x.size);
    AppendSize(ring, p, x.size);
    var m, n := |p.tensors|, |q.chunks|;
    forall j | 0 <= j <= m ensures TensorOk(ring, ins + [x], r, j) {
      if j < m {
        assert TensorOk(ring, ins, q, j);
      } else {
        PlacedIsKept(ring, p, e, x.size);
      }
    }
    forall i | 0 <= i < m ensures r.tensors[i].lastChunk <= n {
      assert TensorOk(ring, ins, q, i);
    }
    forall i, j | r.leftMost <= i < j < |r.tensors| ensures r.tensors[i].deviceOffset <= r.tensors[j].deviceOffset {
      if j == m {
        LeftOfPending(ring, ins, p, x.size, i);
      }
    }
  }

  /** Tensors of the current pass start at or before the end of the pending chunk, and still do when it has grown. */
  lemma LeftOfPending(ring: Ring, ins: seq<Input>, p: Plan, size: nat, i: nat)
    requires ring.Valid() && Core(ring, ins, p) && p.leftMost <= i < |p.tensors|
    ensures Append(ring, p, size).tensors[i].deviceOffset <= p.deviceOffset + p.size
  {
    assert TensorOk(ring, ins, p, i);
    AppendTensors(ring, p, size, i);
  }

  /** Appending leaves the tensors where they are. */
  lemma AppendTensors(ring: Ring, p: Plan, left: nat, i: nat)
    requires ring.Valid() && Indexed(p) && p.size <= ring.worldChunkSize && i < |p.tensors|
    ensures SamePlace(p.tensors[i], Append(ring, p, left).tensors[i])
    decreases p.size + left
  {
    if p.size + left > ring.worldChunkSize {
      var full := p.(size := ring.worldChunkSize);
      FinishSize(ring, full);
      AppendTensors(ring, Finish(ring, full), p.size + left - ring.worldChunkSize, i);
    }
  }

  /** What is left after splitting is not empty, unless nothing was pending and nothing was appended. */
  lemma AppendSize(ring: Ring, p: Plan, left: nat)
    requires ring.Valid() && Indexed(p) && p.size <= ring.worldChunkSize
    ensures p.size + left > 0 ==> Append(ring, p, left).size > 0
    decreases p.size + left
  {
    if p.size + left > ring.worldChunkSize {
      var full := p.(size := ring.worldChunkSize);
      FinishSize(ring, full);
      AppendSize(ring, Finish(ring, full), p.size + left - ring.worldChunkSize);
    }
  }
}
