/** What holds at every iteration of `compute_layout` and of its result. */
module RingRun {
  import opened RoundMath
  import opened RingLayout
  import opened RingSafety

  // ----- the position in the files

  /** The pending chunk starts at a page boundary and ends where the next tensor starts. */
  ghost predicate Positioned(ring: Ring, entries: seq<Entry>, i: nat, p: Plan)
    requires ring.Valid() && i < |entries|
  {
    && p.fileIndex == entries[i].file
    && p.fileOffset % ring.threadAlignment == 0
    && p.fileOffset + p.size == entries[i].offset
    && |p.tensors| == |Inputs(entries, i)|
  }

  lemma AlignedFinish(ring: Ring, p: Plan)
    requires ring.Valid() && Indexed(p) && p.fileOffset % ring.threadAlignment == 0
    ensures var q := Finish(ring, p);
      && q.fileOffset % ring.threadAlignment == 0
      && q.fileOffset + q.size == p.fileOffset + p.size
      && q.size < ring.threadAlignment
  {
    RemainderInRange(ring, p.size);
    if p.size > 0 {
      RoundDownIs(p.size, ring.threadAlignment);
      ModSum(p.fileOffset, RoundDown(p.size, ring.threadAlignment), ring.threadAlignment);
    }
  }

  lemma AlignedAppend(ring: Ring, p: Plan, left: nat)
    requires ring.Valid() && Indexed(p) && p.size <= ring.worldChunkSize
    requires p.fileOffset % ring.threadAlignment == 0
    ensures Append(ring, p, left).fileOffset % ring.threadAlignment == 0
    decreases p.size + left
  {
    if p.size + left > ring.worldChunkSize {
      var full := p.(size := ring.worldChunkSize);
      FinishSize(ring, full);
      AlignedFinish(ring, full);
      AlignedAppend(ring, Finish(ring, full), p.size + left - ring.worldChunkSize);
    }
  }

  lemma OpenFilePosition(ring: Ring, p: Plan, e: Entry)
    requires ring.Valid() && Indexed(p)
    ensures var q := OpenFile(ring, p, e);
      && q.fileOffset % ring.threadAlignment == 0
      && q.fileOffset + q.size == e.offset
      && q.fileOffset == RoundDown(e.offset, ring.threadAlignment)
      && q.size < ring.threadAlignment
  {
    RoundDownIs(e.offset, ring.threadAlignment);
  }

  lemma AlignedRoom(ring: Ring, p: Plan, size: nat)
    requires ring.Valid() && Indexed(p) && p.fileOffset % ring.threadAlignment == 0
    ensures var r := MakeRoom(ring, p, size);
      && r.fileIndex == p.fileIndex && r.fileOffset % ring.threadAlignment == 0
      && r.fileOffset + r.size == p.fileOffset + p.size
  {
    AlignedFinish(ring, p);
  }

  lemma AlignedPlace(ring: Ring, p: Plan, e: Entry, size: nat)
    requires ring.Valid() && Indexed(p) && p.size <= ring.worldChunkSize && p.fileOffset % ring.threadAlignment == 0
    ensures var q := Place(ring, MakeRoom(ring, p, size), e, size);
      && q.fileIndex == p.fileIndex && q.fileOffset % ring.threadAlignment == 0
      && q.fileOffset + q.size == p.fileOffset + p.size + size
  {
    hide MakeRoom, Append;
    var r := MakeRoom(ring, p, size);
    AlignedRoom(ring, p, size);
    AppendMoves(ring, r, size);
    AlignedAppend(ring, r, size);
  }

  lemma {:induction false} PositionedStep(ring: Ring, entries: seq<Entry>, i: nat, p: Plan)
    requires ring.Valid() && WellFormed(entries) && i + 1 < |entries|
    requires Indexed(p) && p.size <= ring.worldChunkSize && Positioned(ring, entries, i, p)
    ensures Positioned(ring, entries, i + 1, Step(ring, entries, i, p))
  {
    assert Adjacent(entries, i);
    hide MakeRoom, Place, WellFormed;
    if TensorAt(entries, i) {
      AlignedPlace(ring, p, entries[i], entries[i + 1].offset - entries[i].offset);
    } else {
      OpenFilePosition(ring, Finish(ring, p), entries[i + 1]);
    }
  }

  lemma {:induction false} RunPositioned(ring: Ring, entries: seq<Entry>, i: nat)
    requires ring.Valid() && WellFormed(entries) && i < |entries|
    ensures Positioned(ring, entries, i, Run(ring, entries, i))
  {
    hide Positioned, Run;
    if i == 0 {
      StartPositioned(ring, entries);
    } else {
      RunPositioned(ring, entries, i - 1);
      NextPositioned(ring, entries, i - 1);
    }
  }

  lemma StartPositioned(ring: Ring, entries: seq<Entry>)
    requires ring.Valid() && WellFormed(entries)
    ensures Positioned(ring, entries, 0, Run(ring, entries, 0))
  {
    OpenFilePosition(ring, Plan(0, 0, 0, 0, 0, 0, [], []), entries[0]);
  }

  lemma NextPositioned(ring: Ring, entries: seq<Entry>, k: nat)
    requires ring.Valid() && WellFormed(entries) && k + 1 < |entries|
    requires Positioned(ring, entries, k, Run(ring, entries, k))
    ensures Positioned(ring, entries, k + 1, Run(ring, entries, k + 1))
  {
    PositionedStep(ring, entries, k, Run(ring, entries, k));
    RunStep(ring, entries, k);
  }

  // ----- room in the buffer

  /** Every tensor fits after the padding that a pass can start with; `init_buffer` adds three times as much. */
  predicate Roomy(ring: Ring, x: Input) {
    x.size + FIRST_TENSOR_ALIGNMENT + ring.threadAlignment + ring.worldChunkAlignment <= ring.bufferSize
  }

  ghost predicate AllRoomy(ring: Ring, entries: seq<Entry>)
    requires |entries| > 0
  {
    forall x | x in Inputs(entries, |entries| - 1) :: Roomy(ring, x)
  }

  /** No tensor byte of the file comes before entry i. */
  predicate AtFileStart(ring: Ring, entries: seq<Entry>, i: nat, p: Plan)
    requires ring.Valid() && i < |entries|
  {
    && entries[i].offset == FileStart(entries, i)
    && p.fileOffset == RoundDown(FileStart(entries, i), ring.threadAlignment)
    && p.size == entries[i].offset - p.fileOffset
  }

  /** The bound on the pending chunk's start when a new file has been opened. */
  function OpenBound(ring: Ring): nat {
    ring.bufferSize + 2 * FIRST_TENSOR_ALIGNMENT - 1
  }

  ghost predicate Bounded(ring: Ring, entries: seq<Entry>, i: nat, p: Plan)
    requires ring.Valid() && i < |entries|
  {
    if i > 0 && TensorAt(entries, i - 1) then Fits(ring, p, 0)
    else AtFileStart(ring, entries, i, p) && p.deviceOffset <= OpenBound(ring)
  }

  /** The pending chunk is not before the first page of its file's data, and is empty only at its start. */
  ghost predicate PendingSolid(ring: Ring, entries: seq<Entry>, i: nat, p: Plan)
    requires ring.Valid() && i < |entries|
  {
    var first := RoundDown(FileStart(entries, i), ring.threadAlignment);
    first <= p.fileOffset && (p.size == 0 ==> p.fileOffset == first)
  }

  // ----- the chunks

  /** The chunk lies before some tensor boundary of its file. */
  ghost predicate InFile(entries: seq<Entry>, c: Chunk) {
    exists i | 0 <= i < |entries| :: entries[i].file == c.fileIndex && c.fileOffset + c.size <= entries[i].offset
  }

  /** The chunk holds only what its first page has before the file's data. */
  ghost predicate HeaderOnly(entries: seq<Entry>, c: Chunk) {
    exists i: nat | i < |entries| :: entries[i].file == c.fileIndex && c.fileOffset + c.size <= FileStart(entries, i)
  }

  ghost predicate ChunkOk(ring: Ring, entries: seq<Entry>, c: Chunk)
    requires ring.Valid()
  {
    && 0 < c.size <= ring.worldChunkSize
    && c.fileOffset % ring.threadAlignment == 0
    && InFile(entries, c)
    && (|| PaddedEnd(ring, c) <= ring.bufferSize
        || (HeaderOnly(entries, c) && PaddedEnd(ring, c) <= OpenBound(ring) + ring.worldChunkAlignment))
  }

  ghost predicate ChunksOk(ring: Ring, entries: seq<Entry>, cs: seq<Chunk>)
    requires ring.Valid()
  {
    forall c | c in cs :: ChunkOk(ring, entries, c)
  }

  ghost predicate Inside(ring: Ring, t: Tensor) {
    0 <= t.deviceOffset && End(t) <= ring.bufferSize
  }

  // ----- the step

  ghost predicate Inv(ring: Ring, entries: seq<Entry>, i: nat, p: Plan)
    requires ring.Valid() && i < |entries|
  {
    && Positioned(ring, entries, i, p)
    && Core(ring, Inputs(entries, i), p)
    && Bounded(ring, entries, i, p)
    && PendingSolid(ring, entries, i, p)
    && ChunksOk(ring, entries, p.chunks)
    && (forall t | t in p.tensors :: Inside(ring, t))
  }

  lemma FileStartBefore(entries: seq<Entry>, i: nat)
    requires WellFormed(entries) && i < |entries|
    ensures FileStart(entries, i) <= entries[i].offset
  {
    if i > 0 && entries[i - 1].file == entries[i].file {
      assert Adjacent(entries, i - 1);
      FileStartBefore(entries, i - 1);
    }
  }

  /** Before a finished chunk: what the invariant says of it. */
  lemma PendingOk(ring: Ring, entries: seq<Entry>, i: nat, p: Plan)
    requires ring.Valid() && WellFormed(entries) && i < |entries| && p.size > 0 && p.size <= ring.worldChunkSize
    requires Positioned(ring, entries, i, p) && Bounded(ring, entries, i, p)
    ensures ChunkOk(ring, entries, Pending(p))
  {
    if !Fits(ring, p, 0) {
      RoundDownIs(FileStart(entries, i), ring.threadAlignment);
      ModTrans(ring.worldChunkAlignment, ring.threadAlignment, ring.threadAlignment);
      PageFitsUnit(ring, p.size);
    }
  }

  /** Less than a page rounds up to one unit. */
  lemma PageFitsUnit(ring: Ring, size: nat)
    requires ring.Valid() && size < ring.threadAlignment
    ensures RoundUp(size, ring.worldChunkAlignment) <= ring.worldChunkAlignment
  {
    if ring.worldChunkAlignment < ring.threadAlignment {
      DivModUnique(ring.worldChunkAlignment, ring.threadAlignment, 0, ring.worldChunkAlignment);
    }
    RoundUpMono(size, ring.worldChunkAlignment, ring.worldChunkAlignment);
    DivModUnique(ring.worldChunkAlignment, ring.worldChunkAlignment, 1, 0);
    RoundUpMultiple(ring.worldChunkAlignment, ring.worldChunkAlignment);
  }

  lemma AppendChunksOk(ring: Ring, entries: seq<Entry>, i: nat, p: Plan, left: nat)
    requires ring.Valid() && Indexed(p) && p.size <= ring.worldChunkSize && i < |entries|
    requires p.fileIndex == entries[i].file && p.fileOffset + p.size + left <= entries[i].offset
    requires p.fileOffset % ring.threadAlignment == 0
    requires Fits(ring, p, left) && ChunksOk(ring, entries, p.chunks)
    ensures var q := Append(ring, p, left); Fits(ring, q, 0) && ChunksOk(ring, entries, q.chunks)
    decreases p.size + left
  {
    if p.size + left > ring.worldChunkSize {
      var full, rest := p.(size := ring.worldChunkSize), p.size + left - ring.worldChunkSize;
      var f := Finish(ring, full);
      FinishSize(ring, full);
      AlignedFinish(ring, full);
      RoundUpShift(ring.worldChunkSize, rest, ring.worldChunkAlignment);
      assert Fits(ring, f, rest);
      assert PaddedEnd(ring, Pending(full)) == f.deviceOffset;
      assert ChunkOk(ring, entries, Pending(full));
      AppendChunksOk(ring, entries, i, f, rest);
    }
  }

  lemma AppendInside(ring: Ring, p: Plan, left: nat)
    requires ring.Valid() && Indexed(p) && p.size <= ring.worldChunkSize
    requires forall t | t in p.tensors :: Inside(ring, t)
    ensures forall t | t in Append(ring, p, left).tensors :: Inside(ring, t)
    decreases p.size + left
  {
    if p.size + left > ring.worldChunkSize {
      var full := p.(size := ring.worldChunkSize);
      FinishSize(ring, full);
      FinishInside(ring, full);
      AppendInside(ring, Finish(ring, full), p.size + left - ring.worldChunkSize);
    }
  }

  lemma FinishInside(ring: Ring, p: Plan)
    requires ring.Valid() && Indexed(p)
    requires forall t | t in p.tensors :: Inside(ring, t)
    ensures forall t | t in Finish(ring, p).tensors :: Inside(ring, t)
  {
    forall j | 0 <= j < |p.tensors| ensures Inside(ring, Finish(ring, p).tensors[j]) {
      assert p.tensors[j] in p.tensors;
    }
  }

  lemma WrapInside(ring: Ring, p: Plan)
    requires ring.Valid() && Indexed(p)
    requires forall t | t in p.tensors :: Inside(ring, t)
    ensures forall t | t in Wrap(p, |p.tensors|).tensors :: Inside(ring, t)
  {
    forall j | 0 <= j < |p.tensors| ensures Inside(ring, Wrap(p, |p.tensors|).tensors[j]) {
      assert p.tensors[j] in p.tensors;
    }
  }

  lemma RoomKeepsCore(ring: Ring, ins: seq<Input>, p: Plan, size: nat)
    requires ring.Valid() && Core(ring, ins, p)
    ensures Core(ring, ins, MakeRoom(ring, p, size))
  {
    CoreFinish(ring, ins, p);
    FinishFlushes(ring, ins, p);
    CoreWrap(ring, ins, Finish(ring, p));
  }

  lemma RoomKeepsTables(ring: Ring, entries: seq<Entry>, i: nat, p: Plan, size: nat)
    requires ring.Valid() && WellFormed(entries) && i < |entries| && Indexed(p) && p.size <= ring.worldChunkSize
    requires Positioned(ring, entries, i, p) && Bounded(ring, entries, i, p) && ChunksOk(ring, entries, p.chunks)
    requires forall t | t in p.tensors :: Inside(ring, t)
    ensures ChunksOk(ring, entries, MakeRoom(ring, p, size).chunks)
    ensures forall t | t in MakeRoom(ring, p, size).tensors :: Inside(ring, t)
  {
    hide ChunkOk, Inside, WellFormed, Positioned, Bounded;
    FinishInside(ring, p);
    WrapInside(ring, Finish(ring, p));
    if p.size > 0 {
      PendingOk(ring, entries, i, p);
    }
  }

  lemma RoomFits(ring: Ring, p: Plan, x: Input)
    requires ring.Valid() && Indexed(p) && p.size <= ring.worldChunkSize && Roomy(ring, x)
    ensures Fits(ring, MakeRoom(ring, p, x.size), x.size)
  {
    SizesInRange(ring, p);
    RoundUpIs(Finish(ring, p).size + x.size, ring.worldChunkAlignment);
  }

  /** After `MakeRoom` the tensor fits, whether or not a new pass was started. */
  lemma {:induction false} MakeRoomInv(ring: Ring, entries: seq<Entry>, i: nat, p: Plan, x: Input)
    requires ring.Valid() && WellFormed(entries) && i < |entries|
    requires Inv(ring, entries, i, p) && Roomy(ring, x)
    requires x.fileOffset == entries[i].offset && x.fileStart == FileStart(entries, i)
    ensures var r := MakeRoom(ring, p, x.size);
      && Positioned(ring, entries, i, r)
      && Core(ring, Inputs(entries, i), r)
      && ChunksOk(ring, entries, r.chunks)
      && (forall t | t in r.tensors :: Inside(ring, t))
      && Fits(ring, r, x.size)
  {
    assert Indexed(p) && p.size <= ring.worldChunkSize;
    hide Core, ChunksOk, Inside, Bounded, PendingSolid, WellFormed, MakeRoom, Fits, Roomy;
    RoomKeepsCore(ring, Inputs(entries, i), p, x.size);
    RoomKeepsTables(ring, entries, i, p, x.size);
    AlignedRoom(ring, p, x.size);
    RoomFits(ring, p, x);
  }

  lemma {:induction false} MakeRoomSolid(ring: Ring, entries: seq<Entry>, i: nat, p: Plan, x: Input)
    requires ring.Valid() && WellFormed(entries) && i < |entries|
    requires Indexed(p) && Positioned(ring, entries, i, p) && PendingSolid(ring, entries, i, p)
    requires Bounded(ring, entries, i, p)
    requires x.fileOffset == entries[i].offset && x.fileStart == FileStart(entries, i)
    ensures var r := MakeRoom(ring, p, x.size);
      && (Solid(ring, x) ==> r.size + x.size > 0)
      && RoundDown(x.fileStart, ring.threadAlignment) <= r.fileOffset
  {
    if !Fits(ring, p, x.size) && x.size == 0 {
      assert AtFileStart(ring, entries, i, p);
      RoundDownIs(FileStart(entries, i), ring.threadAlignment);
      DivModUnique(p.size, ring.threadAlignment, 0, p.size);
    }
  }

  /** The bounds after a tensor that fits has been placed. */
  lemma {:induction false} PlaceBounds(ring: Ring, entries: seq<Entry>, i: nat, r: Plan, x: Input)
    requires ring.Valid() && WellFormed(entries) && i + 1 < |entries| && TensorAt(entries, i)
    requires Indexed(r) && r.size <= ring.worldChunkSize && Positioned(ring, entries, i, r)
    requires ChunksOk(ring, entries, r.chunks) && (forall t | t in r.tensors :: Inside(ring, t))
    requires Fits(ring, r, x.size) && x.fileOffset == entries[i].offset
    requires x.fileOffset + x.size == entries[i + 1].offset
    ensures var q := Place(ring, r, entries[i], x.size);
      && Fits(ring, q, 0)
      && ChunksOk(ring, entries, q.chunks)
      && (forall t | t in q.tensors :: Inside(ring, t))
      && (r.size + x.size > 0 ==> q.size > 0)
      && q.fileOffset + q.size == x.fileOffset + x.size
      && r.fileOffset <= q.fileOffset
  {
    AppendChunksOk(ring, entries, i + 1, r, x.size);
    AppendInside(ring, r, x.size);
    AppendSize(ring, r, x.size);
    AppendMoves(ring, r, x.size);
    AppendForward(ring, r, x.size);
    RoundUpIs(r.size + x.size, ring.worldChunkAlignment);
  }

  lemma AppendForward(ring: Ring, p: Plan, left: nat)
    requires ring.Valid() && Indexed(p) && p.size <= ring.worldChunkSize
    ensures p.fileOffset <= Append(ring, p, left).fileOffset
    decreases p.size + left
  {
    if p.size + left > ring.worldChunkSize {
      var full := p.(size := ring.worldChunkSize);
      FinishSize(ring, full);
      AppendForward(ring, Finish(ring, full), p.size + left - ring.worldChunkSize);
    }
  }

  /** The input whose end is the next entry. */
  function NextInput(entries: seq<Entry>, i: nat): (x: Input)
    requires WellFormed(entries) && i + 1 < |entries| && TensorAt(entries, i)
    ensures Inputs(entries, i + 1) == Inputs(entries, i) + [x]
    ensures x.fileIndex == entries[i].file && x.fileOffset == entries[i].offset
    ensures x.fileOffset + x.size == entries[i + 1].offset && x.fileStart == FileStart(entries, i) <= x.fileOffset
  {
    assert Adjacent(entries, i);
    FileStartBefore(entries, i);
    Input(entries[i].file, entries[i].offset, entries[i + 1].offset - entries[i].offset, FileStart(entries, i))
  }

  lemma StepOfTensor(ring: Ring, entries: seq<Entry>, i: nat, p: Plan)
    requires ring.Valid() && i + 1 < |entries| && TensorAt(entries, i) && entries[i].offset <= entries[i + 1].offset
    requires Indexed(p) && p.size <= ring.worldChunkSize
    ensures var size := entries[i + 1].offset - entries[i].offset;
      Step(ring, entries, i, p) == Place(ring, MakeRoom(ring, p, size), entries[i], size)
  {
  }

  /** A tensor that fits keeps the invariant of the tables. */
  lemma {:induction false} PlaceKeepsCore(ring: Ring, entries: seq<Entry>, i: nat, r: Plan, x: Input)
    requires ring.Valid() && WellFormed(entries) && i + 1 < |entries| && TensorAt(entries, i)
    requires x == NextInput(entries, i) && Indexed(r)
    requires Positioned(ring, entries, i, r) && Core(ring, Inputs(entries, i), r)
    requires Solid(ring, x) ==> r.size + x.size > 0
    ensures Core(ring, Inputs(entries, i + 1), Place(ring, r, entries[i], x.size))
  {
    RoundDownIs(x.fileStart, ring.threadAlignment);
    CorePlace(ring, Inputs(entries, i), r, entries[i], x);
  }

  lemma {:induction false} PlaceKeepsBounds(ring: Ring, entries: seq<Entry>, i: nat, r: Plan, x: Input)
    requires ring.Valid() && WellFormed(entries) && i + 1 < |entries| && TensorAt(entries, i)
    requires x == NextInput(entries, i) && Indexed(r) && r.size <= ring.worldChunkSize
    requires Positioned(ring, entries, i, r) && Fits(ring, r, x.size)
    requires ChunksOk(ring, entries, r.chunks) && (forall t | t in r.tensors :: Inside(ring, t))
    requires Solid(ring, x) ==> r.size + x.size > 0
    requires RoundDown(x.fileStart, ring.threadAlignment) <= r.fileOffset
    ensures var q := Place(ring, r, entries[i], x.size);
      && Bounded(ring, entries, i + 1, q) && PendingSolid(ring, entries, i + 1, q)
      && ChunksOk(ring, entries, q.chunks) && (forall t | t in q.tensors :: Inside(ring, t))
  {
    RoundDownIs(x.fileStart, ring.threadAlignment);
    PlaceBounds(ring, entries, i, r, x);
  }

  lemma {:induction false} PlaceKeepsInv(ring: Ring, entries: seq<Entry>, i: nat, r: Plan, x: Input)
    requires ring.Valid() && WellFormed(entries) && i + 1 < |entries| && TensorAt(entries, i)
    requires x == NextInput(entries, i) && Indexed(r) && r.size <= ring.worldChunkSize
    requires Positioned(ring, entries, i, r) && Core(ring, Inputs(entries, i), r) && Fits(ring, r, x.size)
    requires ChunksOk(ring, entries, r.chunks) && (forall t | t in r.tensors :: Inside(ring, t))
    requires Solid(ring, x) ==> r.size + x.size > 0
    requires RoundDown(x.fileStart, ring.threadAlignment) <= r.fileOffset
    requires Positioned(ring, entries, i + 1, Place(ring, r, entries[i], x.size))
    ensures Inv(ring, entries, i + 1, Place(ring, r, entries[i], x.size))
  {
    hide Core, ChunksOk, Place, Inputs, Inside, Solid, Positioned, Bounded, PendingSolid;
    PlaceKeepsCore(ring, entries, i, r, x);
    PlaceKeepsBounds(ring, entries, i, r, x);
  }

  lemma {:induction false} InvPlace(ring: Ring, entries: seq<Entry>, i: nat, p: Plan)
    requires ring.Valid() && WellFormed(entries) && i + 1 < |entries| && TensorAt(entries, i)
    requires Inv(ring, entries, i, p)
    requires forall x | x in Inputs(entries, i + 1) :: Roomy(ring, x)
    ensures Inv(ring, entries, i + 1, Step(ring, entries, i, p))
  {
    assert Indexed(p) && p.size <= ring.worldChunkSize;
    hide Core, ChunksOk, Place, MakeRoom, Step, Inputs, Roomy, Inside, Solid, Positioned, Bounded, PendingSolid;
    var x := NextInput(entries, i);
    var r := MakeRoom(ring, p, x.size);
    MakeRoomInv(ring, entries, i, p, x);
    MakeRoomSolid(ring, entries, i, p, x);
    PositionedStep(ring, entries, i, p);
    StepOfTensor(ring, entries, i, p);
    hide Inv;
    PlaceKeepsInv(ring, entries, i, r, x);
  }

  lemma InvSwitch(ring: Ring, entries: seq<Entry>, i: nat, p: Plan)
    requires ring.Valid() && WellFormed(entries) && i + 1 < |entries| && !TensorAt(entries, i)
    requires Inv(ring, entries, i, p)
    ensures Inv(ring, entries, i + 1, Step(ring, entries, i, p))
  {
    assert Adjacent(entries, i);
    var f, ins, e := Finish(ring, p), Inputs(entries, i), entries[i + 1];
    assert Inputs(entries, i + 1) == ins;
    SizesInRange(ring, p);
    CoreFinish(ring, ins, p);
    FinishFlushes(ring, ins, p);
    CoreOpenFile(ring, ins, f, e);
    PositionedStep(ring, entries, i, p);
    FinishInside(ring, p);
    if p.size > 0 {
      PendingOk(ring, entries, i, p);
    }
    OpenFilePosition(ring, f, e);
    RoundUpIs(f.deviceOffset, FIRST_TENSOR_ALIGNMENT);
  }

  lemma StartInv(ring: Ring, entries: seq<Entry>)
    requires ring.Valid() && WellFormed(entries)
    ensures Inv(ring, entries, 0, Start(ring, entries))
  {
    var p := Start(ring, entries);
    RunPositioned(ring, entries, 0);
    OpenFilePosition(ring, Plan(0, 0, 0, 0, 0, 0, [], []), entries[0]);
    RoundUpIs(0, FIRST_TENSOR_ALIGNMENT);
    assert Core(ring, Inputs(entries, 0), p);
    assert Bounded(ring, entries, 0, p);
  }

  lemma StepInv(ring: Ring, entries: seq<Entry>, i: nat, p: Plan)
    requires ring.Valid() && WellFormed(entries) && i + 1 < |entries|
    requires Inv(ring, entries, i, p)
    requires forall x | x in Inputs(entries, i + 1) :: Roomy(ring, x)
    ensures Inv(ring, entries, i + 1, Step(ring, entries, i, p))
  {
    if TensorAt(entries, i) {
      InvPlace(ring, entries, i, p);
    } else {
      InvSwitch(ring, entries, i, p);
    }
  }

  lemma InputsGrow(entries: seq<Entry>, i: nat, n: nat)
    requires i <= n < |entries|
    ensures forall x | x in Inputs(entries, i) :: x in Inputs(entries, n)
  {
    if i < n {
      InputsGrow(entries, i, n - 1);
    }
  }

  lemma RunStep(ring: Ring, entries: seq<Entry>, i: nat)
    requires ring.Valid() && i + 1 < |entries|
    ensures Run(ring, entries, i + 1) == Step(ring, entries, i, Run(ring, entries, i))
  {
  }

  lemma {:induction false} RunInv(ring: Ring, entries: seq<Entry>, i: nat)
    requires ring.Valid() && WellFormed(entries) && i < |entries|
    requires forall x | x in Inputs(entries, i) :: Roomy(ring, x)
    ensures Inv(ring, entries, i, Run(ring, entries, i))
  {
    hide Inv, Step, Start, Inputs, Roomy;
    if i == 0 {
      StartInv(ring, entries);
    } else {
      InputsGrow(entries, i - 1, i);
      RunInv(ring, entries, i - 1);
      StepInv(ring, entries, i - 1, Run(ring, entries, i - 1));
      RunStep(ring, entries, i - 1);
    }
  }

  /** What follows the main loop only sets prefetch chunks. */
  lemma LayoutPlaced(ring: Ring, entries: seq<Entry>, p: Plan)
    requires ring.Valid() && |entries| > 0 && p == Run(ring, entries, |entries| - 1)
    ensures SamePlaces(p.tensors, Layout(ring, entries).tensors)
  {
    hide Run;
  }
}
