/** The device buffer while chunks are written into it in order. */
module DeviceMemory {
  import opened RoundMath
  import opened RingLayout
  import opened RingSafety
  import opened RingTheorems

  newtype byte = x: int | 0 <= x < 256

  /** Device memory by offset from the buffer's start; offsets outside the buffer are somebody else's memory. */
  type Memory = int -> byte

  /** The bytes of the files, by file index and offset. */
  type Content = (nat, int) -> byte

  /** The effect of a chunk: its bytes arrive, its padding becomes anything, all else stays. */
  ghost predicate Written(ring: Ring, content: Content, c: Chunk, before: Memory, after: Memory)
    requires ring.Valid()
  {
    && (forall a :: !Touches(ring, c, a) ==> after(a) == before(a))
    && (forall a | c.deviceOffset <= a < c.deviceOffset + c.size ::
          after(a) == content(c.fileIndex, a - c.deviceOffset + c.fileOffset))
  }

  /** Device memory with the chunk in it. */
  lemma AfterChunk(ring: Ring, content: Content, c: Chunk, before: Memory) returns (after: Memory)
    requires ring.Valid()
    ensures Written(ring, content, c, before, after)
  {
    var padding: Memory := *;
    after := a =>
      if c.deviceOffset <= a < c.deviceOffset + c.size then content(c.fileIndex, a - c.deviceOffset + c.fileOffset)
      else if Touches(ring, c, a) then padding(a) else before(a);
    RoundUpIs(c.size, ring.worldChunkAlignment);
  }

  /** The first chunk that may not be prefetched while the tensor is current. */
  function Limit(t: Tensor): int {
    t.prefetchChunk + 1
  }

  /** Some chunk up to the last one brings the byte, none that may be prefetched later touches it, and the byte is
      in memory if that chunk has been applied. */
  ghost predicate LiveByte(
      ring: Ring, content: Content, chunks: seq<Chunk>, t: Tensor, pos: int, applied: int, m: Memory)
    requires ring.Valid()
  {
    exists c | c <= t.lastChunk ::
      && BroughtBy(ring, chunks, t.fileIndex, Shift(t), pos, Limit(t), End(t), c)
      && (c <= applied ==> m(pos + Shift(t)) == content(t.fileIndex, pos))
  }

  ghost predicate LiveTensor(ring: Ring, content: Content, chunks: seq<Chunk>, t: Tensor, applied: int, m: Memory)
    requires ring.Valid()
  {
    forall pos | t.fileOffset <= pos < t.fileOffset + t.size :: LiveByte(ring, content, chunks, t, pos, applied, m)
  }

  /** The tensors from `current` on are live. */
  ghost predicate LiveFrom(
    ring: Ring, content: Content, tensors: seq<Tensor>, chunks: seq<Chunk>, current: nat, applied: int, m: Memory)
    requires ring.Valid()
  {
    forall j: nat | current <= j < |tensors| :: LiveAt(ring, content, tensors, chunks, j, applied, m)
  }

  ghost predicate LiveAt(
      ring: Ring, content: Content, tensors: seq<Tensor>, chunks: seq<Chunk>, j: nat, applied: int, m: Memory)
    requires ring.Valid() && j < |tensors|
  {
    LiveTensor(ring, content, chunks, tensors[j], applied, m)
  }

  /** Memory holds the tensor: each byte of its device range equals the byte of the file as far from the start. */
  ghost predicate HoldsTensor(content: Content, t: Tensor, m: Memory) {
    forall a | t.deviceOffset <= a < t.deviceOffset + t.size ::
      m(a) == content(t.fileIndex, t.fileOffset + (a - t.deviceOffset))
  }

  lemma LiveAtStart(ring: Ring, content: Content, tensors: seq<Tensor>, chunks: seq<Chunk>, m: Memory)
    requires ring.Valid() && Safe(ring, tensors, chunks)
    ensures LiveFrom(ring, content, tensors, chunks, 0, -1, m)
  {
    forall j: nat | j < |tensors| ensures LiveAt(ring, content, tensors, chunks, j, -1, m) {
      var t := tensors[j];
      var upto := Limit(t);
      assert SafeAt(ring, tensors, chunks, j);
      forall pos | t.fileOffset <= pos < t.fileOffset + t.size ensures LiveByte(ring, content, chunks, t, pos, -1, m) {
        assert Kept(ring, chunks, t.fileIndex, Shift(t), pos, t.lastChunk, upto, End(t));
        var c :| c <= t.lastChunk && BroughtBy(ring, chunks, t.fileIndex, Shift(t), pos, upto, End(t), c);
      }
    }
  }

  /** The range of a chunk that has not been applied may change: the tensor does not depend on it yet. */
  lemma LiveUnderScribble(
      ring: Ring, content: Content, chunks: seq<Chunk>, t: Tensor, applied: int, d: nat, m: Memory, m': Memory)
    requires ring.Valid() && LiveTensor(ring, content, chunks, t, applied, m)
    requires applied < d < |chunks| && d <= t.prefetchChunk
    requires forall a :: !Touches(ring, chunks[d], a) ==> m'(a) == m(a)
    ensures LiveTensor(ring, content, chunks, t, applied, m')
  {
    forall pos | t.fileOffset <= pos < t.fileOffset + t.size
      ensures LiveByte(ring, content, chunks, t, pos, applied, m')
    {
      assert LiveByte(ring, content, chunks, t, pos, applied, m);
      var c :| && c <= t.lastChunk
               && BroughtBy(ring, chunks, t.fileIndex, Shift(t), pos, Limit(t), End(t), c)
               && (c <= applied ==> m(pos + Shift(t)) == content(t.fileIndex, pos));
      assert c <= applied ==> !Touches(ring, chunks[d], pos + Shift(t));
      assert BroughtBy(ring, chunks, t.fileIndex, Shift(t), pos, Limit(t), End(t), c);
    }
  }

  /** Applying the next chunk keeps every tensor live for which it may be prefetched. */
  lemma LiveAfterWrite(ring: Ring, content: Content, chunks: seq<Chunk>, t: Tensor, applied: int, m: Memory, m': Memory)
    requires ring.Valid() && LiveTensor(ring, content, chunks, t, applied, m)
    requires 0 <= applied + 1 < |chunks| && applied + 1 <= t.prefetchChunk
    requires Written(ring, content, chunks[applied + 1], m, m')
    ensures LiveTensor(ring, content, chunks, t, applied + 1, m')
  {
    var next := applied + 1;
    forall pos | t.fileOffset <= pos < t.fileOffset + t.size ensures LiveByte(ring, content, chunks, t, pos, next, m') {
      assert LiveByte(ring, content, chunks, t, pos, applied, m);
      var c :| && c <= t.lastChunk
               && BroughtBy(ring, chunks, t.fileIndex, Shift(t), pos, Limit(t), End(t), c)
               && (c <= applied ==> m(pos + Shift(t)) == content(t.fileIndex, pos));
      if c == next {
        var d := chunks[c];
        var a := pos + Shift(t);
        assert d.deviceOffset <= a < d.deviceOffset + d.size;
      } else if c < next {
        assert !Touches(ring, chunks[next], pos + Shift(t));
      }
      assert BroughtBy(ring, chunks, t.fileIndex, Shift(t), pos, Limit(t), End(t), c);
    }
  }

  lemma LiveAfterNext(
      ring: Ring, content: Content, tensors: seq<Tensor>, chunks: seq<Chunk>, current: nat, next: nat,
      before: Memory, after: Memory)
    requires ring.Valid() && Safe(ring, tensors, chunks) && current < |tensors|
    requires next <= tensors[current].prefetchChunk && next < |chunks|
    requires LiveFrom(ring, content, tensors, chunks, current, next - 1, before)
    requires Written(ring, content, chunks[next], before, after)
    ensures LiveFrom(ring, content, tensors, chunks, current, next, after)
  {
    hide Safe, Written, LiveTensor;
    forall j: nat | current <= j < |tensors| ensures LiveAt(ring, content, tensors, chunks, j, next, after) {
      assert LiveAt(ring, content, tensors, chunks, j, next - 1, before);
      PrefetchInOrder(ring, tensors, chunks, current, j);
      LiveAfterWrite(ring, content, chunks, tensors[j], next - 1, before, after);
    }
  }

  /** A live tensor whose chunks have all been applied is in memory. */
  lemma LiveComplete(ring: Ring, content: Content, chunks: seq<Chunk>, t: Tensor, applied: int, m: Memory)
    requires ring.Valid() && LiveTensor(ring, content, chunks, t, applied, m) && t.lastChunk <= applied
    ensures HoldsTensor(content, t, m)
  {
    forall a | t.deviceOffset <= a < t.deviceOffset + t.size
      ensures m(a) == content(t.fileIndex, t.fileOffset + (a - t.deviceOffset))
    {
      var pos := t.fileOffset + (a - t.deviceOffset);
      assert LiveByte(ring, content, chunks, t, pos, applied, m);
      assert pos + Shift(t) == a;
    }
  }
}
