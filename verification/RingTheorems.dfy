/** What a finished layout promises to the loader. */
module RingTheorems {
  import opened RoundMath
  import opened RingLayout
  import opened RingSafety
  import opened RingRun

  /** The contract that the prefetcher relies on: every byte of every tensor is brought to its place by a chunk up
      to the tensor's last one, and no later chunk that may be prefetched while the tensor is in use touches it. */
  ghost predicate Safe(ring: Ring, tensors: seq<Tensor>, chunks: seq<Chunk>)
    requires ring.Valid()
  {
    && (forall j: nat | j < |tensors| :: SafeAt(ring, tensors, chunks, j))
    && (forall i: nat, j: nat | i < j < |tensors| :: NoLater(tensors, i, j))
  }

  /** The tensor's bytes are brought by its last chunk and kept up to its prefetch chunk, which exists. */
  ghost predicate SafeAt(ring: Ring, tensors: seq<Tensor>, chunks: seq<Chunk>, j: nat)
    requires ring.Valid() && j < |tensors|
  {
    && TensorKept(ring, chunks, tensors[j], tensors[j].prefetchChunk + 1, End(tensors[j]))
    && -1 <= tensors[j].prefetchChunk < |chunks|
  }

  predicate NoLater(tensors: seq<Tensor>, i: nat, j: nat)
    requires i < |tensors| && j < |tensors|
  {
    tensors[i].prefetchChunk <= tensors[j].prefetchChunk
  }

  lemma PrefetchInOrder(ring: Ring, tensors: seq<Tensor>, chunks: seq<Chunk>, i: nat, j: nat)
    requires ring.Valid() && Safe(ring, tensors, chunks) && i <= j < |tensors|
    ensures -1 <= tensors[i].prefetchChunk <= tensors[j].prefetchChunk < |chunks|
  {
    assert SafeAt(ring, tensors, chunks, i) && SafeAt(ring, tensors, chunks, j);
    assert i < j ==> NoLater(tensors, i, j);
  }

  lemma {:induction false} LayoutCore(ring: Ring, entries: seq<Entry>)
    requires ring.Valid() && WellFormed(entries) && AllRoomy(ring, entries)
    ensures var q, ins := Layout(ring, entries), Inputs(entries, |entries| - 1);
      Core(ring, ins, q) && Flushed(ring, ins, q) && q.inBuffer == |q.tensors|
  {
    var n := |entries| - 1;
    var ins, p := Inputs(entries, n), Run(ring, entries, n);
    RunInv(ring, entries, n);
    CoreFinish(ring, ins, p);
    FinishFlushes(ring, ins, p);
    var f := Finish(ring, p);
    CoreWrap(ring, ins, f);
    CoreWrap(ring, ins, Wrap(f, |f.tensors|));
  }

  lemma LayoutBounds(ring: Ring, entries: seq<Entry>)
    requires ring.Valid() && WellFormed(entries) && AllRoomy(ring, entries)
    ensures var q := Layout(ring, entries);
      && q.chunks == Finish(ring, Run(ring, entries, |entries| - 1)).chunks
      && ChunksOk(ring, entries, q.chunks)
      && forall t | t in q.tensors :: Inside(ring, t)
  {
    var n := |entries| - 1;
    var p := Run(ring, entries, n);
    RunInv(ring, entries, n);
    FinishInside(ring, p);
    if p.size > 0 {
      PendingOk(ring, entries, n, p);
    }
    var f := Finish(ring, p);
    WrapInside(ring, f);
    WrapInside(ring, Wrap(f, |f.tensors|));
  }

  /** The tensors of the layout are those of the list, in order, inside the buffer. */
  lemma LayoutTensors(ring: Ring, entries: seq<Entry>)
    requires ring.Valid() && WellFormed(entries) && AllRoomy(ring, entries)
    ensures var q, ins := Layout(ring, entries), Inputs(entries, |entries| - 1);
      && |q.tensors| == |ins|
      && (forall j | 0 <= j < |ins| ::
            && SameData(q.tensors[j], ins[j])
            && 0 <= q.tensors[j].deviceOffset <= End(q.tensors[j]) <= ring.bufferSize)
  {
    LayoutCore(ring, entries);
    LayoutBounds(ring, entries);
    var q, ins := Layout(ring, entries), Inputs(entries, |entries| - 1);
    forall j | 0 <= j < |ins| ensures SameData(q.tensors[j], ins[j]) && Inside(ring, q.tensors[j]) {
      assert TensorOk(ring, ins, q, j);
      assert q.tensors[j] in q.tensors;
    }
  }

  lemma LayoutSafe(ring: Ring, entries: seq<Entry>)
    requires ring.Valid() && WellFormed(entries) && AllRoomy(ring, entries)
    ensures Safe(ring, Layout(ring, entries).tensors, Layout(ring, entries).chunks)
  {
    LayoutCore(ring, entries);
    var q, ins := Layout(ring, entries), Inputs(entries, |entries| - 1);
    forall j: nat | j < |q.tensors| ensures SafeAt(ring, q.tensors, q.chunks, j) {
      CoreKept(ring, ins, q, j);
    }
    forall i: nat, j: nat | i < j < |q.tensors| ensures NoLater(q.tensors, i, j) {
    }
  }

  lemma CoreKept(ring: Ring, ins: seq<Input>, q: Plan, j: nat)
    requires ring.Valid() && Core(ring, ins, q) && j < q.inBuffer
    ensures TensorKept(ring, q.chunks, q.tensors[j], q.tensors[j].prefetchChunk + 1, End(q.tensors[j]))
    ensures -1 <= q.tensors[j].prefetchChunk < |q.chunks|
  {
    var t := q.tensors[j];
    assert TensorOk(ring, ins, q, j);
    if t.size > 0 {
      KeptFrame(ring, Virtual(q), q.chunks, t, t.prefetchChunk + 1, End(t), End(t));
    }
  }

  // ----- consequences of safety

  /** Affine cover: a byte of tensor j is in a chunk up to its last one, at the same distance from both starts. */
  lemma AffineCover(ring: Ring, tensors: seq<Tensor>, chunks: seq<Chunk>, j: nat, b: nat) returns (c: nat)
    requires ring.Valid() && Safe(ring, tensors, chunks) && j < |tensors| && b < tensors[j].size
    ensures var t := tensors[j];
      && c <= t.lastChunk && c < |chunks| && chunks[c].fileIndex == t.fileIndex
      && chunks[c].fileOffset <= t.fileOffset + b < chunks[c].fileOffset + chunks[c].size
      && chunks[c].deviceOffset + (t.fileOffset + b - chunks[c].fileOffset) == t.deviceOffset + b
  {
    var t := tensors[j];
    assert SafeAt(ring, tensors, chunks, j);
    var pos, upto := t.fileOffset + b, t.prefetchChunk + 1;
    assert Kept(ring, chunks, t.fileIndex, Shift(t), pos, t.lastChunk, upto, End(t));
    c :| c <= t.lastChunk && BroughtBy(ring, chunks, t.fileIndex, Shift(t), pos, upto, End(t), c);
  }

  /** While tensor j is in use, no chunk after its last one that may be prefetched overlaps it, padding included. */
  lemma PrefetchDisjoint(ring: Ring, tensors: seq<Tensor>, chunks: seq<Chunk>, j: nat, c: nat)
    requires ring.Valid() && Safe(ring, tensors, chunks) && j < |tensors|
    requires tensors[j].lastChunk < c <= tensors[j].prefetchChunk
    requires tensors[j].size > 0
    ensures c < |chunks|
    ensures || PaddedEnd(ring, chunks[c]) <= tensors[j].deviceOffset
            || End(tensors[j]) <= chunks[c].deviceOffset
            || chunks[c].size == 0
  {
    PrefetchInOrder(ring, tensors, chunks, j, j);
    var t, d := tensors[j], chunks[c];
    if d.size > 0 && t.deviceOffset < PaddedEnd(ring, d) && d.deviceOffset < End(t) {
      RoundUpIs(d.size, ring.worldChunkAlignment);
      var a := if d.deviceOffset <= t.deviceOffset then t.deviceOffset else d.deviceOffset;
      PrefetchSpares(ring, tensors, chunks, j, c, a);
    }
  }

  lemma PrefetchSpares(ring: Ring, tensors: seq<Tensor>, chunks: seq<Chunk>, j: nat, c: nat, a: int)
    requires ring.Valid() && Safe(ring, tensors, chunks) && j < |tensors|
    requires tensors[j].lastChunk < c <= tensors[j].prefetchChunk
    requires tensors[j].deviceOffset <= a < End(tensors[j])
    ensures c < |chunks| && !Touches(ring, chunks[c], a)
  {
    PrefetchInOrder(ring, tensors, chunks, j, j);
    var t := tensors[j];
    var pos, upto := a - Shift(t), t.prefetchChunk + 1;
    assert SafeAt(ring, tensors, chunks, j);
    assert Kept(ring, chunks, t.fileIndex, Shift(t), pos, t.lastChunk, upto, End(t));
  }

  // ----- progress

  /** Non-empty tensors, and empty solid ones, can be waited for: their last chunk exists and may be read while they
      are current. */
  lemma LastBeforePrefetch(ring: Ring, entries: seq<Entry>, j: nat)
    requires ring.Valid() && WellFormed(entries) && AllRoomy(ring, entries)
    requires var ins := Inputs(entries, |entries| - 1); j < |ins| && (ins[j].size > 0 || Solid(ring, ins[j]))
    ensures var q := Layout(ring, entries);
      j < |q.tensors| && 0 <= q.tensors[j].lastChunk <= q.tensors[j].prefetchChunk < |q.chunks|
  {
    LayoutCore(ring, entries);
    assert TensorOk(ring, Inputs(entries, |entries| - 1), Layout(ring, entries), j);
  }

  /** The last chunk of every tensor exists exactly when the last tensor is solid: the last file has data, or its
      (empty) data does not start at a page boundary. */
  lemma LastChunksExist(ring: Ring, entries: seq<Entry>)
    requires ring.Valid() && WellFormed(entries) && AllRoomy(ring, entries)
    ensures var q, ins := Layout(ring, entries), Inputs(entries, |entries| - 1);
      && |q.tensors| == |ins| > 0
      && ((forall j | 0 <= j < |ins| :: q.tensors[j].lastChunk < |q.chunks|) <==> Solid(ring, ins[|ins| - 1]))
  {
    var n := |entries| - 1;
    var q, ins := Layout(ring, entries), Inputs(entries, n);
    LayoutCore(ring, entries);
    assert Adjacent(entries, n - 1);
    var z := |ins| - 1;
    if Solid(ring, ins[z]) {
      assert TensorOk(ring, ins, q, z);
      forall j | 0 <= j < z ensures q.tensors[j].lastChunk <= q.tensors[z].lastChunk {
      }
    } else {
      LastBare(ring, entries);
    }
  }

  lemma LastBare(ring: Ring, entries: seq<Entry>)
    requires ring.Valid() && WellFormed(entries) && AllRoomy(ring, entries)
    requires var ins := Inputs(entries, |entries| - 1); |ins| > 0 && !Solid(ring, ins[|ins| - 1])
    ensures var q := Layout(ring, entries); |q.tensors| > 0 && q.tensors[|q.tensors| - 1].lastChunk == |q.chunks|
  {
    var n := |entries| - 1;
    LayoutCore(ring, entries);
    RunInv(ring, entries, n);
    assert Adjacent(entries, n - 1);
    var p := Run(ring, entries, n);
    assert PendingSolid(ring, entries, n, p);
    assert p.size == 0;
    var p' := Run(ring, entries, n - 1);
    assert p == Step(ring, entries, n - 1, p');
  }
}
