/** Every byte of every tensor is read in the pass over the ring in which the tensor is placed. */
module RingCover {
  import opened RingLayout
  import opened RingSafety
  import opened RingRun
  import opened RingPasses

  /** Chunk c, emitted in this pass, brings byte `pos` of the tensor to its place. */
  ghost predicate Reads(chunks: seq<Chunk>, passes: seq<nat>, t: Tensor, pass: nat, pos: int, c: nat) {
    && c < |chunks| == |passes| && c <= t.lastChunk && passes[c] == pass
    && Brings(chunks[c], t.fileIndex, Shift(t), pos)
  }

  /** The pending chunk will. */
  ghost predicate PendingReads(p: Plan, k: Passes, t: Tensor, pass: nat, pos: int) {
    |p.chunks| <= t.lastChunk && pass == k.current && Brings(Pending(p), t.fileIndex, Shift(t), pos)
  }

  ghost predicate Emitting(chunks: seq<Chunk>, passes: seq<nat>, t: Tensor, pass: nat, pos: int) {
    exists c :: Reads(chunks, passes, t, pass, pos, c)
  }

  /** The offset of a tensor's last byte. */
  function LastByte(t: Tensor): int {
    t.fileOffset + t.size - 1
  }

  /** The tensor's last chunk brings its last byte, if it has one. */
  ghost predicate EndEmitted(chunks: seq<Chunk>, passes: seq<nat>, t: Tensor, pass: nat) {
    t.size > 0 ==> 0 <= t.lastChunk && Reads(chunks, passes, t, pass, LastByte(t), t.lastChunk)
  }

  ghost predicate EndCovered(p: Plan, k: Passes, t: Tensor, pass: nat) {
    || EndEmitted(p.chunks, k.chunks, t, pass)
    || (t.lastChunk == |p.chunks| && PendingReads(p, k, t, pass, LastByte(t)))
  }

  ghost predicate TensorCovered(p: Plan, k: Passes, j: nat)
    requires j < |p.tensors| == |k.tensors|
  {
    && EndCovered(p, k, p.tensors[j], k.tensors[j])
    && forall pos | p.tensors[j].fileOffset <= pos < p.tensors[j].fileOffset + p.tensors[j].size ::
      || Emitting(p.chunks, k.chunks, p.tensors[j], k.tensors[j], pos)
      || PendingReads(p, k, p.tensors[j], k.tensors[j], pos)
  }

  /** Nothing of the tensor is pending. */
  ghost predicate TensorEmitted(p: Plan, k: Passes, j: nat)
    requires j < |p.tensors| == |k.tensors|
  {
    && EndEmitted(p.chunks, k.chunks, p.tensors[j], k.tensors[j])
    && forall pos | p.tensors[j].fileOffset <= pos < p.tensors[j].fileOffset + p.tensors[j].size ::
      Emitting(p.chunks, k.chunks, p.tensors[j], k.tensors[j], pos)
  }

  ghost predicate Covered(p: Plan, k: Passes) {
    && Indexed(p) && |k.tensors| == |p.tensors| && |k.chunks| == |p.chunks|
    && forall j: nat | j < |p.tensors| :: TensorCovered(p, k, j)
  }

  ghost predicate AllEmitted(p: Plan, k: Passes) {
    && Indexed(p) && |k.tensors| == |p.tensors| && |k.chunks| == |p.chunks|
    && forall j: nat | j < |p.tensors| :: TensorEmitted(p, k, j)
  }

  // ----- every operation of the planner keeps it

  lemma EmittedStays(p: Plan, k: Passes, q: Plan, l: Passes, j: nat)
    requires j < |p.tensors| == |k.tensors| && j < |q.tensors| == |l.tensors| && TensorEmitted(p, k, j)
    requires q.chunks == p.chunks && l.chunks == k.chunks
    requires SamePlace(p.tensors[j], q.tensors[j]) && l.tensors[j] == k.tensors[j]
    ensures TensorEmitted(q, l, j)
  {
    forall pos | q.tensors[j].fileOffset <= pos < q.tensors[j].fileOffset + q.tensors[j].size
      ensures Emitting(q.chunks, l.chunks, q.tensors[j], l.tensors[j], pos)
    {
      assert Emitting(p.chunks, k.chunks, p.tensors[j], k.tensors[j], pos);
      var c :| Reads(p.chunks, k.chunks, p.tensors[j], k.tensors[j], pos, c);
      assert Reads(q.chunks, l.chunks, q.tensors[j], l.tensors[j], pos, c);
    }
  }

  /** Once nothing is pending, the next pass and the next file can begin. */
  lemma AllEmittedStay(p: Plan, k: Passes, q: Plan, l: Passes)
    requires AllEmitted(p, k) && Indexed(q) && SamePlaces(p.tensors, q.tensors)
    requires q.chunks == p.chunks && l.chunks == k.chunks && l.tensors == k.tensors
    ensures AllEmitted(q, l) && Covered(q, l)
  {
    forall j: nat | j < |q.tensors| ensures TensorEmitted(q, l, j) && TensorCovered(q, l, j) {
      EmittedStays(p, k, q, l, j);
    }
  }

  lemma FinishEmits(ring: Ring, p: Plan, k: Passes, j: nat)
    requires ring.Valid() && Covered(p, k) && j < |p.tensors|
    ensures TensorEmitted(Finish(ring, p), FinishPasses(ring, p, k), j)
  {
    var q, l := Finish(ring, p), FinishPasses(ring, p, k);
    var t, u, pass := p.tensors[j], q.tensors[j], k.tensors[j];
    assert TensorCovered(p, k, j);
    forall pos | u.fileOffset <= pos < u.fileOffset + u.size ensures Emitting(q.chunks, l.chunks, u, pass, pos) {
      if Emitting(p.chunks, k.chunks, t, pass, pos) {
        var c :| Reads(p.chunks, k.chunks, t, pass, pos, c);
        assert Reads(q.chunks, l.chunks, u, pass, pos, c);
      } else {
        assert Reads(q.chunks, l.chunks, u, pass, pos, |p.chunks|);
      }
    }
  }

  lemma FinishCovered(ring: Ring, p: Plan, k: Passes)
    requires ring.Valid() && Covered(p, k)
    ensures AllEmitted(Finish(ring, p), FinishPasses(ring, p, k)) && Covered(Finish(ring, p), FinishPasses(ring, p, k))
  {
    var q, l := Finish(ring, p), FinishPasses(ring, p, k);
    forall j: nat | j < |q.tensors| ensures TensorEmitted(q, l, j) {
      FinishEmits(ring, p, k, j);
    }
    AllEmittedStay(q, l, q, l);
  }

  lemma GrowCovered(p: Plan, k: Passes, size: nat)
    requires Covered(p, k) && p.size <= size
    ensures Covered(p.(size := size), k)
  {
    var q := p.(size := size);
    forall j: nat | j < |q.tensors| ensures TensorCovered(q, k, j) {
      assert TensorCovered(p, k, j);
    }
  }

  lemma AppendCovered(ring: Ring, p: Plan, k: Passes, left: nat)
    requires ring.Valid() && Covered(p, k) && p.size <= ring.worldChunkSize
    ensures Covered(Append(ring, p, left), AppendPasses(ring, p, k, left))
    decreases p.size + left
  {
    if p.size + left > ring.worldChunkSize {
      var full, rest := p.(size := ring.worldChunkSize), p.size + left - ring.worldChunkSize;
      var f, l := Finish(ring, full), FinishPasses(ring, full, k);
      FinishSize(ring, full);
      GrowCovered(p, k, ring.worldChunkSize);
      FinishCovered(ring, full, k);
      AppendCovered(ring, f, l, rest);
      assert AppendPasses(ring, p, k, left).chunks == AppendPasses(ring, f, l, rest).chunks;
    } else {
      GrowCovered(p, k, p.size + left);
      assert AppendPasses(ring, p, k, left).chunks == k.chunks;
    }
  }

  /** The bytes of a tensor just placed are in chunks of the current pass. */
  lemma PlacedIsCovered(ring: Ring, p: Plan, k: Passes, e: Entry, size: nat)
    requires ring.Valid() && Indexed(p) && p.size <= ring.worldChunkSize && |k.chunks| == |p.chunks|
    requires |k.tensors| == |p.tensors| && e == Entry(p.fileIndex, p.fileOffset + p.size)
    ensures TensorCovered(Place(ring, p, e, size), PlacePasses(ring, p, k, size), |p.tensors|)
  {
    var q, l := Place(ring, p, e, size), PlacePasses(ring, p, k, size);
    var t := q.tensors[|p.tensors|];
    AppendMoves(ring, p, size);
    AppendSize(ring, p, size);
    forall pos | t.fileOffset <= pos < t.fileOffset + t.size
      ensures Emitting(q.chunks, l.chunks, t, k.current, pos) || PendingReads(q, l, t, k.current, pos)
    {
      var c := AppendBrings(ring, p, size, pos);
      if c < |q.chunks| {
        assert Reads(q.chunks, l.chunks, t, k.current, pos, c);
      }
    }
  }

  lemma PlaceCovered(ring: Ring, p: Plan, k: Passes, e: Entry, size: nat)
    requires ring.Valid() && Covered(p, k) && p.size <= ring.worldChunkSize
    requires e == Entry(p.fileIndex, p.fileOffset + p.size)
    ensures Covered(Place(ring, p, e, size), PlacePasses(ring, p, k, size))
  {
    var a, b := Append(ring, p, size), AppendPasses(ring, p, k, size);
    var q, l := Place(ring, p, e, size), PlacePasses(ring, p, k, size);
    AppendCovered(ring, p, k, size);
    PlacedIsCovered(ring, p, k, e, size);
    forall j: nat | j < |q.tensors| ensures TensorCovered(q, l, j) {
      if j < |p.tensors| {
        assert TensorCovered(a, b, j);
      }
    }
  }

  lemma RoomCovered(ring: Ring, p: Plan, k: Passes, size: nat)
    requires ring.Valid() && Covered(p, k)
    ensures Covered(MakeRoom(ring, p, size), RoomPasses(ring, p, k, size))
  {
    if !Fits(ring, p, size) {
      FinishCovered(ring, p, k);
      AllEmittedStay(Finish(ring, p), FinishPasses(ring, p, k), MakeRoom(ring, p, size), RoomPasses(ring, p, k, size));
    }
  }

  lemma TensorStepCovered(ring: Ring, entries: seq<Entry>, i: nat, p: Plan, k: Passes)
    requires ring.Valid() && WellFormed(entries) && i + 1 < |entries| && TensorAt(entries, i)
    requires p.size <= ring.worldChunkSize && Covered(p, k) && Positioned(ring, entries, i, p)
    ensures Covered(Step(ring, entries, i, p), PassStep(ring, entries, i, p, k))
  {
    assert Adjacent(entries, i) && |k.chunks| == |p.chunks|;
    hide Covered, WellFormed, PlacePasses;
    var size := entries[i + 1].offset - entries[i].offset;
    RoomCovered(ring, p, k, size);
    AlignedRoom(ring, p, size);
    PlaceCovered(ring, MakeRoom(ring, p, size), RoomPasses(ring, p, k, size), entries[i], size);
  }

  lemma SwitchStepCovered(ring: Ring, entries: seq<Entry>, i: nat, p: Plan, k: Passes)
    requires ring.Valid() && i + 1 < |entries| && !TensorAt(entries, i)
    requires p.size <= ring.worldChunkSize && Covered(p, k)
    ensures Covered(Step(ring, entries, i, p), PassStep(ring, entries, i, p, k))
  {
    FinishCovered(ring, p, k);
    AllEmittedStay(
      Finish(ring, p), FinishPasses(ring, p, k), Step(ring, entries, i, p), PassStep(ring, entries, i, p, k));
  }

  lemma NextCovered(ring: Ring, entries: seq<Entry>, i: nat)
    requires ring.Valid() && WellFormed(entries) && i + 1 < |entries|
    requires Covered(Run(ring, entries, i), PassRun(ring, entries, i))
    ensures Covered(Run(ring, entries, i + 1), PassRun(ring, entries, i + 1))
  {
    hide Step, PassStep, Covered;
    RunPositioned(ring, entries, i);
    if TensorAt(entries, i) {
      TensorStepCovered(ring, entries, i, Run(ring, entries, i), PassRun(ring, entries, i));
    } else {
      SwitchStepCovered(ring, entries, i, Run(ring, entries, i), PassRun(ring, entries, i));
    }
  }

  lemma {:induction false} RunCovered(ring: Ring, entries: seq<Entry>, n: nat)
    requires ring.Valid() && WellFormed(entries) && n < |entries|
    ensures Covered(Run(ring, entries, n), PassRun(ring, entries, n))
  {
    for i := 0 to n
      invariant Covered(Run(ring, entries, i), PassRun(ring, entries, i))
    {
      NextCovered(ring, entries, i);
    }
  }

  lemma LayoutEmits(ring: Ring, entries: seq<Entry>)
    requires ring.Valid() && WellFormed(entries)
    ensures AllEmitted(Layout(ring, entries), LayoutPasses(ring, entries))
  {
    var n := |entries| - 1;
    RunCovered(ring, entries, n);
    FinishCovered(ring, Run(ring, entries, n), PassRun(ring, entries, n));
    LayoutEnds(ring, entries);
    hide Run, PassRun, Finish, FinishPasses, AllEmitted, Covered;
    WrapsKeep(Emitted(ring, entries), Layout(ring, entries));
    EndIsEmitted(Emitted(ring, entries), LayoutPasses(ring, entries), Layout(ring, entries));
  }

  lemma WrapsKeep(f: Plan, q: Plan)
    requires Indexed(f) && q == Wrap(Wrap(f, |f.tensors|), |f.tensors|)
    ensures Indexed(q) && q.chunks == f.chunks && SamePlaces(f.tensors, q.tensors)
  {
  }

  lemma EndIsEmitted(f: Plan, k: Passes, q: Plan)
    requires AllEmitted(f, k) && Indexed(q) && q.chunks == f.chunks && SamePlaces(f.tensors, q.tensors)
    ensures AllEmitted(q, k)
  {
    AllEmittedStay(f, k, q, k);
  }

  /** Every byte of every tensor, whatever the buffer, is in a chunk of the tensor's own pass over the ring that is no
      later than its last chunk, at the same distance from both starts. */
  lemma OwnPassCover(ring: Ring, entries: seq<Entry>, j: nat, pos: nat) returns (c: nat)
    requires ring.Valid() && WellFormed(entries) && j < |Layout(ring, entries).tensors|
    requires var t := Layout(ring, entries).tensors[j]; t.fileOffset <= pos < t.fileOffset + t.size
    ensures var q, k := Layout(ring, entries), LayoutPasses(ring, entries);
      && |k.tensors| == |q.tensors| && c < |q.chunks|
      && var t, d := q.tensors[j], q.chunks[c];
      && c <= t.lastChunk && k.chunks[c] == k.tensors[j]
      && d.fileIndex == t.fileIndex && d.fileOffset <= pos < d.fileOffset + d.size
      && d.deviceOffset + (pos - d.fileOffset) == t.deviceOffset + (pos - t.fileOffset)
  {
    hide Layout, LayoutPasses;
    LayoutEmits(ring, entries);
    var q, k := Layout(ring, entries), LayoutPasses(ring, entries);
    assert TensorEmitted(q, k, j);
    assert Emitting(q.chunks, k.chunks, q.tensors[j], k.tensors[j], pos);
    c :| Reads(q.chunks, k.chunks, q.tensors[j], k.tensors[j], pos, c);
  }

  /** The last chunk of a non-empty tensor holds the tensor's last byte and is emitted in the tensor's own pass. */
  lemma LastChunkHolds(ring: Ring, entries: seq<Entry>, j: nat)
    requires ring.Valid() && WellFormed(entries) && j < |Layout(ring, entries).tensors|
    requires Layout(ring, entries).tensors[j].size > 0
    ensures var q, k := Layout(ring, entries), LayoutPasses(ring, entries);
      var t := q.tensors[j];
      && |k.tensors| == |q.tensors| && 0 <= t.lastChunk < |q.chunks| && k.chunks[t.lastChunk] == k.tensors[j]
      && var d := q.chunks[t.lastChunk];
      && d.fileIndex == t.fileIndex && d.fileOffset < t.fileOffset + t.size <= d.fileOffset + d.size
      && d.deviceOffset < End(t) <= d.deviceOffset + d.size
  {
    hide Layout, LayoutPasses;
    LayoutEmits(ring, entries);
    assert TensorEmitted(Layout(ring, entries), LayoutPasses(ring, entries), j);
  }
}
