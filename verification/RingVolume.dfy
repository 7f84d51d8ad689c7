/** How much is read: the pages of every file once, and the started page again at each new pass over the ring. */
module RingVolume {
  import opened RingLayout
  import opened RingSafety
  import opened RingRun

  function Volume(cs: seq<Chunk>): nat {
    if cs == [] then 0 else Volume(cs[..|cs| - 1]) + cs[|cs| - 1].size
  }

  lemma VolumePush(cs: seq<Chunk>, c: Chunk)
    ensures Volume(cs + [c]) == Volume(cs) + c.size
  {
    assert (cs + [c])[..|cs|] == cs;
  }

  /** The bytes from the first page of each file's data up to entry i. */
  function FileBytes(ring: Ring, entries: seq<Entry>, i: nat): nat
    requires ring.Valid() && i < |entries|
  {
    if i == 0 then entries[0].offset % ring.threadAlignment
    else if TensorAt(entries, i - 1) then
      FileBytes(ring, entries, i - 1) +
      (if entries[i - 1].offset <= entries[i].offset then entries[i].offset - entries[i - 1].offset else 0)
    else FileBytes(ring, entries, i - 1) + entries[i].offset % ring.threadAlignment
  }

  /** Iteration i starts a new pass over the ring. */
  predicate StartsPass(ring: Ring, entries: seq<Entry>, i: nat)
    requires ring.Valid() && i + 1 < |entries|
  {
    && TensorAt(entries, i) && entries[i].offset <= entries[i + 1].offset
    && !Fits(ring, Run(ring, entries, i), entries[i + 1].offset - entries[i].offset)
  }

  /** What the passes started before iteration i read a second time. */
  function Reread(ring: Ring, entries: seq<Entry>, i: nat): nat
    requires ring.Valid() && i < |entries|
  {
    if i == 0 then 0
    else Reread(ring, entries, i - 1) + PassReread(ring, entries, i - 1)
  }

  /** A new pass reads again what is left of the last page: less than a page. */
  function PassReread(ring: Ring, entries: seq<Entry>, i: nat): (again: nat)
    requires ring.Valid() && i + 1 < |entries|
    ensures again < ring.threadAlignment
  {
    RemainderInRange(ring, Run(ring, entries, i).size);
    if StartsPass(ring, entries, i) then Run(ring, entries, i).size % ring.threadAlignment else 0
  }

  lemma FinishVolume(ring: Ring, p: Plan)
    requires ring.Valid() && Indexed(p)
    ensures Volume(Finish(ring, p).chunks) == Volume(p.chunks) + p.size
    ensures Finish(ring, p).size == p.size % ring.threadAlignment
  {
    if p.size > 0 {
      VolumePush(p.chunks, Pending(p));
    }
  }

  lemma AppendVolume(ring: Ring, p: Plan, left: nat)
    requires ring.Valid() && Indexed(p) && p.size <= ring.worldChunkSize
    ensures var q := Append(ring, p, left); Volume(q.chunks) + q.size == Volume(p.chunks) + p.size + left
    decreases p.size + left
  {
    if p.size + left > ring.worldChunkSize {
      var full := p.(size := ring.worldChunkSize);
      FinishSize(ring, full);
      FinishVolume(ring, full);
      AppendVolume(ring, Finish(ring, full), p.size + left - ring.worldChunkSize);
    }
  }

  lemma PlaceVolume(ring: Ring, p: Plan, e: Entry, size: nat)
    requires ring.Valid() && Indexed(p) && p.size <= ring.worldChunkSize
    ensures var q := Place(ring, MakeRoom(ring, p, size), e, size);
      Volume(q.chunks) + q.size ==
        Volume(p.chunks) + p.size + size + if Fits(ring, p, size) then 0 else p.size % ring.threadAlignment
  {
    FinishVolume(ring, p);
    SizesInRange(ring, p);
    AppendVolume(ring, MakeRoom(ring, p, size), size);
  }

  lemma SwitchVolume(ring: Ring, p: Plan, e: Entry)
    requires ring.Valid() && Indexed(p)
    ensures var q := OpenFile(ring, Finish(ring, p), e);
      Volume(q.chunks) + q.size == Volume(p.chunks) + p.size + e.offset % ring.threadAlignment
  {
    FinishVolume(ring, p);
  }

  /** One iteration: the tensor's bytes or the next file's header, and what a new pass reads again. */
  lemma {:induction false} StepVolume(ring: Ring, entries: seq<Entry>, i: nat, p: Plan)
    requires ring.Valid() && WellFormed(entries) && i + 1 < |entries| && p == Run(ring, entries, i)
    ensures var q := Step(ring, entries, i, p);
      Volume(q.chunks) + q.size + FileBytes(ring, entries, i) ==
        Volume(p.chunks) + p.size + FileBytes(ring, entries, i + 1) + PassReread(ring, entries, i)
  {
    hide Run, Append, Volume, Inputs;
    assert Adjacent(entries, i);
    if TensorAt(entries, i) {
      PlaceVolume(ring, p, entries[i], entries[i + 1].offset - entries[i].offset);
    } else {
      SwitchVolume(ring, p, entries[i + 1]);
    }
  }

  /** The chunks so far and the pending bytes are the files' pages up to entry i and what passes have read again. */
  predicate VolumeIs(ring: Ring, entries: seq<Entry>, i: nat, p: Plan)
    requires ring.Valid() && i < |entries|
  {
    Volume(p.chunks) + p.size == FileBytes(ring, entries, i) + Reread(ring, entries, i)
  }

  lemma NextVolume(ring: Ring, entries: seq<Entry>, i: nat)
    requires ring.Valid() && WellFormed(entries) && i + 1 < |entries|
    requires VolumeIs(ring, entries, i, Run(ring, entries, i))
    ensures VolumeIs(ring, entries, i + 1, Run(ring, entries, i + 1))
  {
    hide Run, Step, PassReread, FileBytes, Volume, WellFormed;
    StepVolume(ring, entries, i, Run(ring, entries, i));
    RunStep(ring, entries, i);
  }

  lemma {:induction false} RunVolume(ring: Ring, entries: seq<Entry>, n: nat)
    requires ring.Valid() && WellFormed(entries) && n < |entries|
    ensures VolumeIs(ring, entries, n, Run(ring, entries, n))
  {
    for i := 0 to n
      invariant VolumeIs(ring, entries, i, Run(ring, entries, i))
    {
      NextVolume(ring, entries, i);
    }
  }

  /** The whole layout reads each file's pages once, and at each new pass the rest of a started page again. */
  lemma LayoutVolume(ring: Ring, entries: seq<Entry>)
    requires ring.Valid() && WellFormed(entries)
    ensures var n := |entries| - 1;
      Volume(Layout(ring, entries).chunks) == FileBytes(ring, entries, n) + Reread(ring, entries, n)
  {
    var n := |entries| - 1;
    var p := Run(ring, entries, n);
    RunVolume(ring, entries, n);
    FinishVolume(ring, p);
    LayoutChunks(ring, entries, p);
  }

  lemma LayoutChunks(ring: Ring, entries: seq<Entry>, p: Plan)
    requires ring.Valid() && |entries| > 0 && p == Run(ring, entries, |entries| - 1)
    ensures Layout(ring, entries).chunks == Finish(ring, p).chunks
  {
  }
}
