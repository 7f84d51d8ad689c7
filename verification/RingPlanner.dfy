/** `compute_layout` in place: the variables its closures share are the fields, the closures are the methods. */
module RingPlanner {
  import opened RoundMath
  import opened RingLayout
  import opened RingSafety
  import opened RingRun
  import opened RingTheorems

  /** The exceptions of csrc/loader_common.cpp:217-340. */
  datatype LayoutError = ChunkAlignment | UnchunkedPage | SizeMismatch | TensorTooLarge

  datatype Outcome = Done | Thrown(error: LayoutError)

  class Planner {
    const ring: Ring
    var chunkFileIndex: nat
    var chunkFileOffset: nat
    var chunkDeviceOffset: nat
    var currentChunkSize: nat
    var tensorId: nat
    var inBufferTensorId: nat
    var leftMostTensorId: nat
    var tensors: seq<Tensor>
    var chunks: seq<Chunk>

    constructor (ring: Ring)
      ensures this.ring == ring
      ensures tensors == [] && chunks == [] && tensorId == 0
    {
      this.ring := ring;
      chunkFileIndex, chunkFileOffset, chunkDeviceOffset, currentChunkSize := 0, 0, 0, 0;
      tensorId, inBufferTensorId, leftMostTensorId := 0, 0, 0;
      tensors, chunks := [], [];
    }

    /** The shared variables; of the table, the entries written so far. */
    ghost function State(): Plan
      reads this
      requires tensorId <= |tensors|
    {
      Plan(chunkFileIndex, chunkFileOffset, chunkDeviceOffset, currentChunkSize,
           inBufferTensorId, leftMostTensorId, tensors[..tensorId], chunks)
    }

    ghost predicate Ready()
      reads this
    {
      ring.Valid() && tensorId <= |tensors| && Indexed(State())
    }

    /** Lets the tensors from inBufferTensorId on be prefetched past up to `chunk`, while they are before
        leftMostTensorId and start before `limit` (or all of them). */
    method AssignPrefetch(chunk: int, limited: bool, limit: nat)
      requires Ready()
      modifies this`tensors, this`inBufferTensorId
      ensures Ready() && |tensors| == old(|tensors|)
      ensures var s := old(State());
        var kept := if limited then FirstBeyond(s.tensors, s.inBuffer, s.leftMost, limit) else s.leftMost;
        State() == s.(tensors := SetPrefetch(s.tensors, s.inBuffer, kept, chunk), inBuffer := kept)
    {
      ghost var s := State();
      while inBufferTensorId < leftMostTensorId && (!limited || tensors[inBufferTensorId].deviceOffset < limit)
        invariant Ready() && |tensors| == old(|tensors|)
        invariant s.inBuffer <= inBufferTensorId
        invariant State() == s.(tensors := SetPrefetch(s.tensors, s.inBuffer, inBufferTensorId, chunk),
                                inBuffer := inBufferTensorId)
        invariant limited ==> FirstBeyond(s.tensors, s.inBuffer, s.leftMost, limit)
                              == FirstBeyond(s.tensors, inBufferTensorId, s.leftMost, limit)
      {
        tensors := tensors[inBufferTensorId := tensors[inBufferTensorId].(prefetchChunk := chunk)];
        inBufferTensorId := inBufferTensorId + 1;
      }
    }

    method FinishChunk() returns (r: Outcome)
      requires Ready()
      modifies this
      ensures Ready() && |tensors| == old(|tensors|) && tensorId == old(tensorId)
      ensures r == (if old(currentChunkSize) == 0 || old(chunkFileOffset) % ring.threadAlignment == 0
                    then Done else Thrown(ChunkAlignment))
      ensures r.Done? ==> State() == Finish(ring, old(State()))
    {
      if currentChunkSize > 0 {
        chunks := chunks + [Chunk(currentChunkSize, chunkFileIndex, chunkFileOffset, chunkDeviceOffset)];
        if chunkFileOffset % ring.threadAlignment != 0 {
          return Thrown(ChunkAlignment);
        }
        chunkFileOffset := chunkFileOffset + RoundDown(currentChunkSize, ring.threadAlignment);
        chunkDeviceOffset := chunkDeviceOffset + RoundUp(currentChunkSize, ring.worldChunkAlignment);
        currentChunkSize := currentChunkSize % ring.threadAlignment;
        AssignPrefetch(|chunks| - 2, true, chunkDeviceOffset);
      }
      return Done;
    }

    method ResetChunkBufferOffset(newLeftMost: nat) returns (r: Outcome)
      requires Ready() && leftMostTensorId <= newLeftMost <= tensorId
      modifies this
      ensures Ready() && |tensors| == old(|tensors|) && tensorId == old(tensorId)
      ensures r == if old(currentChunkSize) < ring.threadAlignment then Done else Thrown(UnchunkedPage)
      ensures r.Done? ==> State() == Wrap(old(State()), newLeftMost)
    {
      if currentChunkSize >= ring.threadAlignment {
        return Thrown(UnchunkedPage);
      }
      AssignPrefetch(|chunks| - 1, false, 0);
      chunkDeviceOffset := FIRST_TENSOR_ALIGNMENT - currentChunkSize % FIRST_TENSOR_ALIGNMENT;
      leftMostTensorId := newLeftMost;
      return Done;
    }

    method ResetChunkFile(file: nat, offset: nat) returns (r: Outcome)
      requires Ready()
      modifies this
      ensures Ready() && |tensors| == old(|tensors|) && tensorId == old(tensorId)
      ensures r == if old(currentChunkSize) < ring.threadAlignment then Done else Thrown(UnchunkedPage)
      ensures r.Done? ==> State() == OpenFile(ring, old(State()), Entry(file, offset))
    {
      if currentChunkSize >= ring.threadAlignment {
        return Thrown(UnchunkedPage);
      }
      chunkFileIndex := file;
      chunkFileOffset := RoundDown(offset, ring.threadAlignment);
      currentChunkSize := offset % ring.threadAlignment;
      chunkDeviceOffset := RoundUp(chunkDeviceOffset, FIRST_TENSOR_ALIGNMENT)
        + FIRST_TENSOR_ALIGNMENT - currentChunkSize % FIRST_TENSOR_ALIGNMENT;
      return Done;
    }

    /** The inner loop: the tensor's bytes fill chunks of worldChunkSize; the rest stays pending. */
    method AppendBytes(tensorSize: nat)
      requires Ready() && currentChunkSize <= ring.worldChunkSize
      requires chunkFileOffset % ring.threadAlignment == 0
      modifies this
      ensures Ready() && |tensors| == old(|tensors|) && tensorId == old(tensorId)
      ensures State() == Append(ring, old(State()), tensorSize)
    {
      ghost var start := State();
      var left: nat := tensorSize;
      while currentChunkSize + left > ring.worldChunkSize
        invariant Ready() && |tensors| == old(|tensors|) && tensorId == old(tensorId)
        invariant currentChunkSize <= ring.worldChunkSize && chunkFileOffset % ring.threadAlignment == 0
        invariant Append(ring, State(), left) == Append(ring, start, tensorSize)
        decreases currentChunkSize + left
      {
        ghost var before := State();
        var add := ring.worldChunkSize - currentChunkSize;
        currentChunkSize := currentChunkSize + add;
        left := left - add;
        FinishSize(ring, State());
        AlignedFinish(ring, State());
        assert State() == before.(size := ring.worldChunkSize);
        var f := FinishChunk();
        assert f == Done;
      }
      currentChunkSize := currentChunkSize + left;
    }

    /** Starts a new pass over the ring if the tensor does not fit. */
    method EnsureRoom(tensorSize: nat)
      requires Ready() && currentChunkSize <= ring.worldChunkSize && chunkFileOffset % ring.threadAlignment == 0
      modifies this
      ensures Ready() && |tensors| == old(|tensors|) && tensorId == old(tensorId)
      ensures State() == MakeRoom(ring, old(State()), tensorSize)
    {
      SizesInRange(ring, State());
      if chunkDeviceOffset + RoundUp(currentChunkSize + tensorSize, ring.worldChunkAlignment) > ring.bufferSize {
        var r := FinishChunk();
        assert r == Done;
        r := ResetChunkBufferOffset(tensorId);
        assert r == Done;
      }
    }

    /** Puts a tensor behind what is pending and enters it in the table. */
    method AddTensor(file: nat, offset: nat, tensorSize: nat)
      requires Ready() && currentChunkSize <= ring.worldChunkSize && chunkFileOffset % ring.threadAlignment == 0
      requires tensorId < |tensors| && chunkFileOffset <= offset
      modifies this
      ensures Ready() && |tensors| == old(|tensors|) && tensorId == old(tensorId) + 1
      ensures State() == Place(ring, old(State()), Entry(file, offset), tensorSize)
    {
      var deviceOffset := offset - chunkFileOffset + chunkDeviceOffset;
      AppendBytes(tensorSize);
      ghost var q := State();
      tensors := tensors[tensorId := Tensor(tensorSize, file, offset, deviceOffset, |chunks|, 0)];
      tensorId := tensorId + 1;
      assert State() == q.(tensors := q.tensors + [tensors[tensorId - 1]]);
    }

    /** Makes room for a tensor and adds it. */
    method PutTensor(file: nat, offset: nat, tensorSize: nat)
      requires Ready() && currentChunkSize <= ring.worldChunkSize && chunkFileOffset % ring.threadAlignment == 0
      requires tensorId < |tensors| && MakeRoom(ring, State(), tensorSize).fileOffset <= offset
      modifies this
      ensures Ready() && |tensors| == old(|tensors|) && tensorId == old(tensorId) + 1
      ensures State() == Place(ring, MakeRoom(ring, old(State()), tensorSize), Entry(file, offset), tensorSize)
    {
      AlignedRoom(ring, State(), tensorSize);
      EnsureRoom(tensorSize);
      AddTensor(file, offset, tensorSize);
    }

    /** One iteration of the main loop on a tensor. */
    method PlaceTensor(entries: seq<Entry>, i: nat) returns (r: Outcome)
      requires Ready() && WellFormed(entries) && i + 1 < |entries| && TensorAt(entries, i)
      requires State() == Run(ring, entries, i) && tensorId < |tensors|
      modifies this
      ensures Ready() && |tensors| == old(|tensors|)
      ensures r ==
        if entries[i + 1].offset - entries[i].offset > ring.bufferSize then Thrown(TensorTooLarge) else Done
      ensures r.Done? ==> tensorId == old(tensorId) + 1 && State() == Run(ring, entries, i + 1)
    {
      ghost var p := State();
      hide WellFormed, Inputs, Append, Place, Run, Step, MakeRoom, RoundUp;
      NextTensor(ring, entries, i, p);
      var offset := entries[i].offset;
      if currentChunkSize != offset - chunkFileOffset {
        return Thrown(SizeMismatch);
      }
      var tensorSize := entries[i + 1].offset - offset;
      if tensorSize > ring.bufferSize {
        return Thrown(TensorTooLarge);
      }
      PutTensor(entries[i].file, offset, tensorSize);
      return Done;
    }

    /** One iteration of the main loop between two files. */
    method SwitchFile(entries: seq<Entry>, i: nat)
      requires Ready() && WellFormed(entries) && i + 1 < |entries| && !TensorAt(entries, i)
      requires State() == Run(ring, entries, i)
      modifies this
      ensures Ready() && |tensors| == old(|tensors|) && tensorId == old(tensorId)
      ensures State() == Run(ring, entries, i + 1)
    {
      RunPositioned(ring, entries, i);
      SizesInRange(ring, State());
      var r := FinishChunk();
      assert r == Done;
      r := ResetChunkFile(entries[i + 1].file, entries[i + 1].offset);
      assert r == Done;
    }

    /** After the main loop. */
    method FinishLayout(entries: seq<Entry>)
      requires Ready() && WellFormed(entries)
      requires State() == Run(ring, entries, |entries| - 1)
      modifies this
      ensures Ready() && |tensors| == old(|tensors|) && tensorId == old(tensorId)
      ensures State() == Layout(ring, entries)
    {
      hide Run;
      RunPositioned(ring, entries, |entries| - 1);
      SizesInRange(ring, State());
      var r := FinishChunk();
      assert r == Done;
      r := ResetChunkBufferOffset(tensorId);
      assert r == Done;
      r := ResetChunkBufferOffset(tensorId);
      assert r == Done;
    }

    /** The main loop. */
    method PlaceTensors(entries: seq<Entry>) returns (r: Outcome)
      requires Ready() && WellFormed(entries) && State() == Run(ring, entries, 0)
      requires |tensors| == |entries| - 1 - entries[|entries| - 1].file && tensorId == 0
      modifies this
      ensures r == if AllWithin(ring, entries, |entries| - 1) then Done else Thrown(TensorTooLarge)
      ensures r.Done? ==> Ready() && State() == Run(ring, entries, |entries| - 1) && tensorId == |tensors|
    {
      hide Run;
      var n := |entries| - 1;
      var i := 0;
      while i < n
        invariant 0 <= i <= n && Ready()
        invariant |tensors| == n - entries[n].file && tensorId == i - entries[i].file
        invariant State() == Run(ring, entries, i)
        invariant AllWithin(ring, entries, i)
      {
        r := NextEntry(entries, i);
        if r.Thrown? {
          return;
        }
        i := i + 1;
      }
      return Done;
    }

    /** One iteration of the main loop. */
    method NextEntry(entries: seq<Entry>, i: nat) returns (r: Outcome)
      requires Ready() && WellFormed(entries) && i + 1 < |entries| && State() == Run(ring, entries, i)
      requires |tensors| == |entries| - 1 - entries[|entries| - 1].file && tensorId == i - entries[i].file
      requires AllWithin(ring, entries, i)
      modifies this
      ensures Ready() && |tensors| == old(|tensors|)
      ensures if r.Done? then AllWithin(ring, entries, i + 1) else
        r == Thrown(TensorTooLarge) && !AllWithin(ring, entries, |entries| - 1)
      ensures r.Done? ==> State() == Run(ring, entries, i + 1) && tensorId == i + 1 - entries[i + 1].file
    {
      hide Run;
      assert Adjacent(entries, i);
      if entries[i].file != entries[i + 1].file {
        SwitchFile(entries, i);
        return Done;
      }
      InputsBelow(entries, i, |entries| - 1);
      WithinStep(ring, entries, i, |entries| - 1);
      r := PlaceTensor(entries, i);
    }

    /** `compute_layout`. It throws exactly when some tensor is larger than the buffer, and then for that reason. */
    method ComputeLayout(entries: seq<Entry>) returns (r: Outcome)
      requires ring.Valid() && WellFormed(entries)
      requires tensors == [] && chunks == [] && tensorId == 0
      modifies this
      ensures r == if AllWithin(ring, entries, |entries| - 1) then Done else Thrown(TensorTooLarge)
      ensures r.Done? ==> tensors == Layout(ring, entries).tensors && chunks == Layout(ring, entries).chunks
      ensures r.Done? && AllRoomy(ring, entries) ==> Safe(ring, tensors, chunks)
    {
      var n := |entries| - 1;
      InputsCount(entries, n);
      chunkFileIndex, chunkFileOffset, chunkDeviceOffset, currentChunkSize := 0, 0, 0, 0;
      inBufferTensorId, leftMostTensorId := 0, 0;
      var numFiles := entries[n].file + 1;
      tensors := seq(|entries| - numFiles, _ => Tensor(0, 0, 0, 0, 0, 0));
      assert State() == Plan(0, 0, 0, 0, 0, 0, [], []);
      r := ResetChunkFile(entries[0].file, entries[0].offset);
      assert r == Done;
      r := PlaceTensors(entries);
      if r.Thrown? {
        return;
      }
      FinishLayout(entries);
      assert tensors[..tensorId] == tensors;
      if AllRoomy(ring, entries) {
        LayoutSafe(ring, entries);
      }
    }
  }

  /** Where the loop stands in front of a tensor, and what the iteration does. */
  lemma NextTensor(ring: Ring, entries: seq<Entry>, i: nat, p: Plan)
    requires ring.Valid() && WellFormed(entries) && i + 1 < |entries| && TensorAt(entries, i)
    requires p == Run(ring, entries, i)
    ensures entries[i].offset <= entries[i + 1].offset
    ensures p.fileOffset % ring.threadAlignment == 0 && p.fileOffset + p.size == entries[i].offset
    ensures var size := entries[i + 1].offset - entries[i].offset;
      var r := MakeRoom(ring, p, size);
      && r.fileOffset % ring.threadAlignment == 0 && r.fileOffset <= entries[i].offset
      && Run(ring, entries, i + 1) == Place(ring, r, entries[i], size)
  {
    assert Adjacent(entries, i);
    RunPositioned(ring, entries, i);
    var size := entries[i + 1].offset - entries[i].offset;
    hide Run, Step, MakeRoom, Place, WellFormed;
    AlignedRoom(ring, p, size);
    StepOfTensor(ring, entries, i, p);
    RunStep(ring, entries, i);
  }

  /** The tensors of the first i + 1 entries are no larger than the buffer. */
  ghost predicate AllWithin(ring: Ring, entries: seq<Entry>, i: nat)
    requires i < |entries|
  {
    forall x | x in Inputs(entries, i) :: x.size <= ring.bufferSize
  }

  /** One entry per tensor and one more per file. */
  lemma InputsCount(entries: seq<Entry>, i: nat)
    requires WellFormed(entries) && i < |entries|
    ensures |Inputs(entries, i)| == i - entries[i].file
  {
    if i > 0 {
      assert Adjacent(entries, i - 1);
      InputsCount(entries, i - 1);
    }
  }

  lemma InputsBelow(entries: seq<Entry>, i: nat, n: nat)
    requires WellFormed(entries) && i < n < |entries| && TensorAt(entries, i)
    ensures i - entries[i].file < n - entries[n].file
  {
    assert Adjacent(entries, i);
    InputsCount(entries, i + 1);
    InputsCount(entries, n);
    InputsPrefix(entries, i + 1, n);
  }

  lemma InputsPrefix(entries: seq<Entry>, i: nat, n: nat)
    requires i <= n < |entries|
    ensures Inputs(entries, i) <= Inputs(entries, n)
  {
    if i < n {
      InputsPrefix(entries, i, n - 1);
    }
  }

  lemma WithinStep(ring: Ring, entries: seq<Entry>, i: nat, n: nat)
    requires WellFormed(entries) && i < n < |entries| && TensorAt(entries, i) && AllWithin(ring, entries, i)
    ensures var fits := entries[i + 1].offset - entries[i].offset <= ring.bufferSize;
      (fits ==> AllWithin(ring, entries, i + 1)) && (!fits ==> !AllWithin(ring, entries, n))
  {
    assert Adjacent(entries, i);
    InputsPrefix(entries, i + 1, n);
    var ins := Inputs(entries, i + 1);
    var x := ins[|ins| - 1];
    assert x == Inputs(entries, n)[|ins| - 1];
    assert x in Inputs(entries, n);
  }
}
