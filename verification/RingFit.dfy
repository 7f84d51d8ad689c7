/** When a tensor starts a new pass over the ring, and where it is placed. */
module RingFit {
  import opened RoundMath
  import opened RingLayout
  import opened RingSafety
  import opened RingRun
  import opened RingBounds
  import opened RingPasses

  // ----- new passes

  /** `up` is the least multiple of y that is not below x. */
  predicate LeastMultiple(up: nat, x: nat, y: nat)
    requires y > 0
  {
    up % y == 0 && x <= up < x + y
  }

  lemma RoundUpUnique(x: nat, y: nat, up: nat)
    requires y > 0 && LeastMultiple(up, x, y)
    ensures up == RoundUp(x, y)
  {
    RoundUpIs(x, y);
    var r := RoundUp(x, y);
    var a, b := up / y, r / y;
    assert up == a * y && r == b * y;
    MultiplesApart(a, b, y);
    MultiplesApart(b, a, y);
  }

  lemma MultiplesApart(a: nat, b: nat, y: nat)
    ensures a < b ==> a * y + y <= b * y
  {
    if a < b {
      MulLe(a + 1, b, y);
      assert (a + 1) * y == a * y + y;
    }
  }

  /** Where the tensor of iteration i is placed. If the pending chunk, padded, does not end inside the buffer with the
      tensor behind what is pending, the tensor starts a new pass: the rest of the last page comes 1 to 16 bytes behind
      the buffer's start, and the tensor behind that. Otherwise, an exact fit included, it stays in the pass. */
  ghost predicate PlacedRightly(ring: Ring, p: Plan, k: Passes, q: Plan, l: Passes, up: nat)
    requires ring.Valid()
  {
    var j, rest := |p.tensors|, p.size % ring.threadAlignment;
    && |k.tensors| == j && |q.tensors| == |l.tensors| == j + 1 && l.tensors[..j] == k.tensors
    && if p.deviceOffset + up > ring.bufferSize then
         && l.tensors[j] == l.current == k.current + 1 && q.leftMost == j
         && q.tensors[j].deviceOffset == rest + 16 - rest % 16
       else
         && l.tensors[j] == l.current == k.current && q.leftMost == p.leftMost
         && q.tensors[j].deviceOffset == p.deviceOffset + p.size
  }

  lemma TensorPlaced(ring: Ring, entries: seq<Entry>, i: nat, up: nat)
    requires ring.Valid() && WellFormed(entries) && i + 1 < |entries| && TensorAt(entries, i)
    requires entries[i].offset <= entries[i + 1].offset
    requires LeastMultiple(up, Run(ring, entries, i).size + (entries[i + 1].offset - entries[i].offset),
                           ring.worldChunkAlignment)
    ensures PlacedRightly(ring, Run(ring, entries, i), PassRun(ring, entries, i),
                          Run(ring, entries, i + 1), PassRun(ring, entries, i + 1), up)
  {
    hide Run, PassRun, Step, MakeRoom, Place, RoomPasses, PlacePasses, PlacedRightly, WellFormed;
    var p, k, size := Run(ring, entries, i), PassRun(ring, entries, i), entries[i + 1].offset - entries[i].offset;
    RoundUpUnique(p.size + size, ring.worldChunkAlignment, up);
    RunPositioned(ring, entries, i);
    PassesCount(ring, entries, i);
    StepOfTensor(ring, entries, i, p);
    RunStep(ring, entries, i);
    PassRunStep(ring, entries, i);
    PlaceRightly(ring, p, k, entries[i], size, up);
  }

  lemma PlaceRightly(ring: Ring, p: Plan, k: Passes, e: Entry, size: nat, up: nat)
    requires ring.Valid() && Indexed(p) && p.size <= ring.worldChunkSize && p.fileOffset + p.size == e.offset
    requires |k.tensors| == |p.tensors| && |k.chunks| == |p.chunks|
    requires up == RoundUp(p.size + size, ring.worldChunkAlignment)
    ensures PlacedRightly(ring, p, k, Place(ring, MakeRoom(ring, p, size), e, size),
                          PlacePasses(ring, MakeRoom(ring, p, size), RoomPasses(ring, p, k, size), size), up)
  {
    hide Append;
    var r := MakeRoom(ring, p, size);
    AppendMoves(ring, r, size);
    PlaceEnd(ring, r, e, size);
    RoundDownIs(p.size, ring.threadAlignment);
  }

  lemma PassesCount(ring: Ring, entries: seq<Entry>, i: nat)
    requires ring.Valid() && WellFormed(entries) && i < |entries|
    ensures |PassRun(ring, entries, i).tensors| == |Run(ring, entries, i).tensors|
  {
    RunPassed(ring, entries, i);
  }

  lemma PassRunStep(ring: Ring, entries: seq<Entry>, i: nat)
    requires ring.Valid() && i + 1 < |entries|
    ensures PassRun(ring, entries, i + 1) ==
      PassStep(ring, entries, i, Run(ring, entries, i), PassRun(ring, entries, i))
  {
  }

  lemma PassRunStart(ring: Ring, entries: seq<Entry>)
    requires ring.Valid() && |entries| > 0
    ensures PassRun(ring, entries, 0) == Passes(0, [], [])
  {
  }

  /** The current pass is that of the tensor placed last. */
  lemma {:induction false} CurrentIsLast(ring: Ring, entries: seq<Entry>, n: nat)
    requires ring.Valid() && WellFormed(entries) && n < |entries|
    ensures var k := PassRun(ring, entries, n); k.current == LastPass(k.tensors)
  {
    hide PassRun, Run, PassStep, Step;
    PassRunStart(ring, entries);
    for i := 0 to n
      invariant PassRun(ring, entries, i).current == LastPass(PassRun(ring, entries, i).tensors)
    {
      PassRunStep(ring, entries, i);
      CurrentStays(ring, entries, i, Run(ring, entries, i), PassRun(ring, entries, i));
    }
  }

  /** The pass of the last of these tensors, or the first pass. */
  function LastPass(passes: seq<nat>): nat {
    if passes == [] then 0 else passes[|passes| - 1]
  }

  lemma CurrentStays(ring: Ring, entries: seq<Entry>, i: nat, p: Plan, k: Passes)
    requires ring.Valid() && i + 1 < |entries| && Indexed(p) && p.size <= ring.worldChunkSize
    requires |k.chunks| == |p.chunks| && k.current == LastPass(k.tensors)
    ensures var l := PassStep(ring, entries, i, p, k); l.current == LastPass(l.tensors)
  {
  }

  lemma {:induction false} PassesKeep(ring: Ring, entries: seq<Entry>, i: nat, n: nat)
    requires ring.Valid() && WellFormed(entries) && i <= n < |entries|
    ensures PassRun(ring, entries, i).tensors <= PassRun(ring, entries, n).tensors
  {
    hide PassRun, Run, PassStep, Step;
    for m := i to n
      invariant PassRun(ring, entries, i).tensors <= PassRun(ring, entries, m).tensors
    {
      PassRunStep(ring, entries, m);
      PassesGrow(ring, entries, m, Run(ring, entries, m), PassRun(ring, entries, m));
    }
  }

  lemma PassesGrow(ring: Ring, entries: seq<Entry>, i: nat, p: Plan, k: Passes)
    requires ring.Valid() && i + 1 < |entries| && Indexed(p) && p.size <= ring.worldChunkSize
    requires |k.chunks| == |p.chunks|
    ensures k.tensors <= PassStep(ring, entries, i, p, k).tensors
  {
  }

  lemma PlacedStays(
      ring: Ring, p: Plan, k: Passes, q: Plan, l: Passes, up: nat, run: seq<Tensor>, passes: seq<nat>,
      layout: seq<Tensor>)
    requires ring.Valid() && PlacedRightly(ring, p, k, q, l, up) && k.current == LastPass(k.tensors)
    requires |passes| == |run| && l.tensors <= passes && SamePlaces(run, layout)
    requires |p.tensors| < |run| && SamePlace(run[|p.tensors|], q.tensors[|p.tensors|])
    ensures var j, rest := |p.tensors|, p.size % ring.threadAlignment;
      && j < |layout| == |passes| && layout[j].size == q.tensors[j].size
      && passes[j] == (if j == 0 then 0 else passes[j - 1]) + (if p.deviceOffset + up > ring.bufferSize then 1 else 0)
      && layout[j].deviceOffset ==
           (if p.deviceOffset + up > ring.bufferSize then rest + 16 - rest % 16 else p.deviceOffset + p.size)
  {
    var j := |p.tensors|;
    assert passes[..j + 1] == l.tensors;
    assert passes[j] == l.tensors[j];
    assert j > 0 ==> passes[j - 1] == l.tensors[..j][j - 1];
    assert SamePlace(run[j], layout[j]);
  }

  /** In every layout: the tensor of iteration i starts a new pass over the ring if and only if the start of the pending
      chunk plus the least multiple of the world's alignment that holds the pending bytes and the tensor is greater than
      the buffer size. The tensor's place follows. */
  lemma NewPassIff(ring: Ring, entries: seq<Entry>, i: nat, up: nat)
    requires ring.Valid() && WellFormed(entries) && i + 1 < |entries| && TensorAt(entries, i)
    requires entries[i].offset <= entries[i + 1].offset
    requires LeastMultiple(up, Run(ring, entries, i).size + (entries[i + 1].offset - entries[i].offset),
                           ring.worldChunkAlignment)
    ensures var p, q, k := Run(ring, entries, i), Layout(ring, entries), LayoutPasses(ring, entries).tensors;
      var j, rest := |p.tensors|, p.size % ring.threadAlignment;
      && j < |q.tensors| == |k| && q.tensors[j].size == entries[i + 1].offset - entries[i].offset
      && k[j] == (if j == 0 then 0 else k[j - 1]) + (if p.deviceOffset + up > ring.bufferSize then 1 else 0)
      && q.tensors[j].deviceOffset ==
           (if p.deviceOffset + up > ring.bufferSize then rest + 16 - rest % 16 else p.deviceOffset + p.size)
  {
    hide Run, PassRun, Layout, LayoutPasses, WellFormed, PlacedRightly, SamePlace, SamePlaces, LeastMultiple, TensorAt;
    var n, p, q := |entries| - 1, Run(ring, entries, i), Run(ring, entries, i + 1);
    TensorPlaced(ring, entries, i, up);
    CurrentIsLast(ring, entries, i);
    PassesCount(ring, entries, n);
    PassesKeep(ring, entries, i + 1, n);
    PlacedSize(ring, entries, i);
    RunKeepsTensor(ring, entries, i + 1, n, |p.tensors|);
    LayoutPlaced(ring, entries, Run(ring, entries, n));
    LayoutPassTensors(ring, entries);
    PlacedStays(ring, p, PassRun(ring, entries, i), q, PassRun(ring, entries, i + 1), up, Run(ring, entries, n).tensors,
                PassRun(ring, entries, n).tensors, Layout(ring, entries).tensors);
  }

  lemma LayoutPassTensors(ring: Ring, entries: seq<Entry>)
    requires ring.Valid() && |entries| > 0
    ensures LayoutPasses(ring, entries).tensors == PassRun(ring, entries, |entries| - 1).tensors
  {
    hide Run, PassRun;
  }

  lemma PlacedSize(ring: Ring, entries: seq<Entry>, i: nat)
    requires ring.Valid() && WellFormed(entries) && i + 1 < |entries| && TensorAt(entries, i)
    requires entries[i].offset <= entries[i + 1].offset
    ensures var p, q := Run(ring, entries, i), Run(ring, entries, i + 1);
      |q.tensors| == |p.tensors| + 1 && q.tensors[|p.tensors|].size == entries[i + 1].offset - entries[i].offset
  {
    StepOfTensor(ring, entries, i, Run(ring, entries, i));
  }
}
