/** Tensors stay aligned to their element size across chunks, files and passes over the ring. */
module RingAlign {
  import opened RoundMath
  import opened RingLayout
  import opened RingSafety
  import opened RingRun
  import opened RingPasses

  /** Tensor j starts at a multiple of 16, or right behind its predecessor in both the file and the buffer. */
  predicate Chained(tensors: seq<Tensor>, j: nat)
    requires j < |tensors|
  {
    || tensors[j].deviceOffset % FIRST_TENSOR_ALIGNMENT == 0
    || (&& j > 0
        && tensors[j].fileIndex == tensors[j - 1].fileIndex
        && tensors[j].fileOffset == tensors[j - 1].fileOffset + tensors[j - 1].size
        && tensors[j].deviceOffset == End(tensors[j - 1]))
  }

  /** The same for the place where the pending chunk ends. */
  predicate NextChained(p: Plan) {
    || (p.deviceOffset + p.size) % FIRST_TENSOR_ALIGNMENT == 0
    || (&& |p.tensors| > 0
        && var t := p.tensors[|p.tensors| - 1];
        && t.fileIndex == p.fileIndex
        && t.fileOffset + t.size == p.fileOffset + p.size
        && End(t) == p.deviceOffset + p.size)
  }

  ghost predicate AllChained(tensors: seq<Tensor>) {
    forall j | 0 <= j < |tensors| :: Chained(tensors, j)
  }

  lemma SamePlacesChained(a: seq<Tensor>, b: seq<Tensor>)
    requires SamePlaces(a, b) && AllChained(a)
    ensures AllChained(b)
  {
    forall j | 0 <= j < |b| ensures Chained(b, j) {
      assert Chained(a, j);
      assert SamePlace(a[j], b[j]) && (j > 0 ==> SamePlace(a[j - 1], b[j - 1]));
    }
  }

  lemma AppendPlaces(ring: Ring, p: Plan, left: nat)
    requires ring.Valid() && Indexed(p) && p.size <= ring.worldChunkSize
    ensures SamePlaces(p.tensors, Append(ring, p, left).tensors)
  {
    forall j | 0 <= j < |p.tensors| ensures SamePlace(p.tensors[j], Append(ring, p, left).tensors[j]) {
      AppendTensors(ring, p, left, j);
    }
  }

  lemma PlaceChained(ring: Ring, entries: seq<Entry>, i: nat, r: Plan, size: nat)
    requires ring.Valid() && i < |entries| && Indexed(r) && r.size <= ring.worldChunkSize
    requires Positioned(ring, entries, i, r)
    requires AllChained(r.tensors) && NextChained(r)
    ensures var q := Place(ring, r, entries[i], size); AllChained(q.tensors) && NextChained(q)
  {
    var a, q := Append(ring, r, size), Place(ring, r, entries[i], size);
    AppendPlaces(ring, r, size);
    AppendMoves(ring, r, size);
    SamePlacesChained(r.tensors, a.tensors);
    var m := |a.tensors|;
    forall j | 0 <= j <= m ensures Chained(q.tensors, j) {
      if j < m {
        assert Chained(a.tensors, j);
      } else if m > 0 {
        assert SamePlace(r.tensors[m - 1], a.tensors[m - 1]);
      }
    }
  }

  lemma MakeRoomChained(ring: Ring, p: Plan, size: nat)
    requires ring.Valid() && Indexed(p)
    requires AllChained(p.tensors) && NextChained(p)
    ensures var r := MakeRoom(ring, p, size); AllChained(r.tensors) && NextChained(r)
  {
    var r := MakeRoom(ring, p, size);
    assert SamePlaces(p.tensors, r.tensors);
    SamePlacesChained(p.tensors, r.tensors);
  }

  lemma OpenFileChained(ring: Ring, p: Plan, e: Entry)
    requires ring.Valid() && Indexed(p)
    ensures NextChained(OpenFile(ring, p, e))
  {
    RoundUpIs(p.deviceOffset, FIRST_TENSOR_ALIGNMENT);
  }

  ghost predicate PlanChained(p: Plan) {
    AllChained(p.tensors) && NextChained(p)
  }

  lemma NextIsChained(ring: Ring, entries: seq<Entry>, i: nat)
    requires ring.Valid() && WellFormed(entries) && i + 1 < |entries| && PlanChained(Run(ring, entries, i))
    ensures PlanChained(Run(ring, entries, i + 1))
  {
    hide Run, Step, WellFormed, AllChained, NextChained, Positioned;
    RunPositioned(ring, entries, i);
    StepChained(ring, entries, i, Run(ring, entries, i));
    RunStep(ring, entries, i);
  }

  lemma StartChained(ring: Ring, entries: seq<Entry>)
    requires ring.Valid() && |entries| > 0
    ensures PlanChained(Run(ring, entries, 0))
  {
    OpenFileChained(ring, Plan(0, 0, 0, 0, 0, 0, [], []), entries[0]);
  }

  lemma {:induction false} RunChained(ring: Ring, entries: seq<Entry>, n: nat)
    requires ring.Valid() && WellFormed(entries) && n < |entries|
    ensures PlanChained(Run(ring, entries, n))
  {
    hide PlanChained, Run, WellFormed;
    StartChained(ring, entries);
    for i := 0 to n
      invariant PlanChained(Run(ring, entries, i))
    {
      NextIsChained(ring, entries, i);
    }
  }

  lemma StepChained(ring: Ring, entries: seq<Entry>, i: nat, p: Plan)
    requires ring.Valid() && WellFormed(entries) && i + 1 < |entries| && Indexed(p) && p.size <= ring.worldChunkSize
    requires Positioned(ring, entries, i, p) && PlanChained(p)
    ensures PlanChained(Step(ring, entries, i, p))
  {
    assert Adjacent(entries, i);
    if TensorAt(entries, i) {
      var size := entries[i + 1].offset - entries[i].offset;
      MakeRoomChained(ring, p, size);
      AlignedFinish(ring, p);
      PlaceChained(ring, entries, i, MakeRoom(ring, p, size), size);
    } else {
      SamePlacesChained(p.tensors, Finish(ring, p).tensors);
      OpenFileChained(ring, Finish(ring, p), entries[i + 1]);
    }
  }

  lemma LayoutChained(ring: Ring, entries: seq<Entry>)
    requires ring.Valid() && WellFormed(entries)
    ensures AllChained(Layout(ring, entries).tensors)
  {
    hide Run, Layout, SamePlaces, AllChained;
    var p := Run(ring, entries, |entries| - 1);
    RunChained(ring, entries, |entries| - 1);
    LayoutPlaced(ring, entries, p);
    SamePlacesChained(p.tensors, Layout(ring, entries).tensors);
  }

  // ----- element alignment

  predicate ElementSize(w: nat) {
    w == 1 || w == 2 || w == 4 || w == 8 || w == 16
  }

  /** Element sizes do not grow within a file and divide the tensors' byte sizes. */
  ghost predicate Descending(tensors: seq<Tensor>, widths: seq<nat>) {
    && |widths| == |tensors|
    && (forall j | 0 <= j < |widths| :: ElementSize(widths[j]) && tensors[j].size % widths[j] == 0)
    && (forall j: nat | j + 1 < |widths| && tensors[j].fileIndex == tensors[j + 1].fileIndex ::
          widths[j + 1] <= widths[j])
  }

  lemma DivideDown(x: nat, w: nat, v: nat)
    requires ElementSize(w) && ElementSize(v) && v <= w && x % w == 0
    ensures x % v == 0
  {
    SizesDivide(w, v);
    ModTrans(x, w, v);
  }

  lemma SizesDivide(w: nat, v: nat)
    requires ElementSize(w) && ElementSize(v) && v <= w
    ensures w % v == 0
  {
    if v == 1 {
    } else if v == 2 {
    } else if v == 4 {
    } else if v == 8 {
    } else {
    }
  }

  lemma {:induction false} ElementAligned(tensors: seq<Tensor>, widths: seq<nat>, j: nat)
    requires AllChained(tensors) && Descending(tensors, widths) && j < |tensors|
    requires forall k | 0 <= k < |tensors| :: tensors[k].deviceOffset >= 0
    ensures tensors[j].deviceOffset % widths[j] == 0
  {
    assert Chained(tensors, j);
    if tensors[j].deviceOffset % FIRST_TENSOR_ALIGNMENT == 0 {
      DivideDown(tensors[j].deviceOffset, 16, widths[j]);
    } else {
      var i := j - 1;
      assert widths[i + 1] <= widths[i];
      ElementAligned(tensors, widths, i);
      DivideDown(tensors[i].deviceOffset, widths[i], widths[j]);
      DivideDown(tensors[i].size, widths[i], widths[j]);
      ModSum(tensors[i].deviceOffset, tensors[i].size, widths[j]);
    }
  }

  lemma LayoutNotNegative(ring: Ring, entries: seq<Entry>, j: nat)
    requires ring.Valid() && WellFormed(entries) && j < |Layout(ring, entries).tensors|
    ensures Layout(ring, entries).tensors[j].deviceOffset >= 0
  {
    LayoutPassed(ring, entries);
    LayoutEnds(ring, entries);
    assert TensorPassed(ring, Emitted(ring, entries), LayoutPasses(ring, entries), j);
  }

  /** In every layout, if element sizes do not grow within a file and divide the tensors' sizes, every tensor's device
      offset is a multiple of its element size. */
  lemma LayoutAligned(ring: Ring, entries: seq<Entry>, widths: seq<nat>, j: nat)
    requires ring.Valid() && WellFormed(entries)
    requires Descending(Layout(ring, entries).tensors, widths) && j < |widths|
    ensures Layout(ring, entries).tensors[j].deviceOffset % widths[j] == 0
  {
    hide Layout;
    LayoutChained(ring, entries);
    forall k: nat | k < |Layout(ring, entries).tensors| ensures Layout(ring, entries).tensors[k].deviceOffset >= 0 {
      LayoutNotNegative(ring, entries, k);
    }
    ElementAligned(Layout(ring, entries).tensors, widths, j);
  }
}
