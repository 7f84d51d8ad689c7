/** Fixed buffers of io_uring (csrc/loader_io_uring.cpp:181-199, 242-291): the host buffer is registered in pieces, and
    a read names the piece that it lies in, if there is one. Addresses are plain numbers. */
module UringBuffers {
  import opened HostReads
  import opened HostMachine

  /** The largest piece that can be registered: 1 GiB. */
  const REGISTER_BUFFER_SIZE: nat := 0x4000_0000

  datatype IoVec = IoVec(base: nat, len: nat)

  /** `bufferIndex` is -1 for a read that names no piece. */
  datatype Sqe = Sqe(op: ReadOp, bufferIndex: int)

  /** A full piece and the one after it. */
  predicate EndToEnd(v: IoVec, w: IoVec) {
    v.len == REGISTER_BUFFER_SIZE && w.base == v.base + v.len
  }

  /** The pieces lie end to end, cover [start, start + size) and are all full but the last. */
  ghost predicate Tiles(iovs: seq<IoVec>, start: nat, size: nat) {
    && (|iovs| == 0 <==> size == 0)
    && (|iovs| > 0 ==>
          && iovs[0].base == start
          && iovs[|iovs| - 1].base + iovs[|iovs| - 1].len == start + size)
    && (forall i | 0 <= i < |iovs| :: 0 < iovs[i].len <= REGISTER_BUFFER_SIZE)
    && (forall i, j | 0 <= i < j < |iovs| && j == i + 1 :: EndToEnd(iovs[i], iovs[j]))
  }

  /** The bytes [address, address + size) lie in one piece. */
  predicate Within(v: IoVec, address: nat, size: nat) {
    v.base <= address && address + size <= v.base + v.len
  }

  /** `register_host_buffer_uring`. */
  method RegisterHostBuffer(start: nat, total: nat) returns (iovs: seq<IoVec>)
    ensures Tiles(iovs, start, total)
    ensures forall i | 0 <= i < |iovs| :: iovs[i].len <= 0x4000_0000 && (i + 1 < |iovs| ==> iovs[i].len == 0x4000_0000)
  {
    var ptr: nat, size: nat := start, total;
    iovs := [];
    while size > 0
      invariant ptr + size == start + total
      invariant Tiles(iovs, start, ptr - start)
      invariant size > 0 && |iovs| > 0 ==> iovs[|iovs| - 1].len == REGISTER_BUFFER_SIZE
      decreases size
    {
      var iovSize := if size < REGISTER_BUFFER_SIZE then size else REGISTER_BUFFER_SIZE;
      iovs := iovs + [IoVec(ptr, iovSize)];
      ptr := ptr + iovSize;
      size := size - iovSize;
    }
    forall i | 0 <= i < |iovs| - 1 ensures iovs[i].len == REGISTER_BUFFER_SIZE {
      assert EndToEnd(iovs[i], iovs[i + 1]);
    }
  }

  lemma {:induction false} PieceStart(iovs: seq<IoVec>, start: nat, size: nat, i: nat)
    requires Tiles(iovs, start, size) && i < |iovs|
    ensures iovs[i].base == start + i * REGISTER_BUFFER_SIZE
  {
    if i > 0 {
      PieceStart(iovs, start, size, i - 1);
      assert EndToEnd(iovs[i - 1], iovs[i]);
    }
  }

  /** Every byte of the buffer is in exactly one piece, the one that its offset divided by the piece size names. */
  lemma PiecesPartition(iovs: seq<IoVec>, start: nat, size: nat, o: nat)
    requires Tiles(iovs, start, size) && o < size
    ensures o / REGISTER_BUFFER_SIZE < |iovs|
    ensures forall i | 0 <= i < |iovs| :: Within(iovs[i], start + o, 1) <==> i == o / REGISTER_BUFFER_SIZE
  {
    var n := |iovs|;
    PieceStart(iovs, start, size, n - 1);
    var q := o / REGISTER_BUFFER_SIZE;
    forall i | 0 <= i < n ensures Within(iovs[i], start + o, 1) <==> i == q {
      PieceStart(iovs, start, size, i);
      if i < n - 1 {
        assert EndToEnd(iovs[i], iovs[i + 1]);
      }
    }
  }

  /** The loop over `ops`: a read names a piece exactly if it lies inside one, and then that one. */
  method PrepareReads(registered: bool, ghost iovs: seq<IoVec>, hostBase: nat, ghost hostSize: nat, ops: seq<ReadOp>)
    returns (sqes: seq<Sqe>)
    requires Tiles(iovs, hostBase, hostSize)
    requires forall op | op in ops :: op.size > 0 && op.buffer + op.size <= hostSize
    ensures |sqes| == |ops|
    ensures forall k | 0 <= k < |ops| :: sqes[k].op == ops[k]
    ensures forall k | 0 <= k < |ops| :: Sound(registered, iovs, hostBase, sqes[k])
  {
    sqes := [];
    for k := 0 to |ops|
      invariant |sqes| == k
      invariant forall j | 0 <= j < k :: sqes[j].op == ops[j]
      invariant forall j | 0 <= j < k :: Sound(registered, iovs, hostBase, sqes[j])
    {
      var op, bufferIndex := ops[k], -1;
      assert op in ops;
      if registered {
        var address := hostBase + op.buffer;
        var leftBufferIndex := (address - hostBase) / REGISTER_BUFFER_SIZE;
        var rightBufferIndex := (address + op.size - 1 - hostBase) / REGISTER_BUFFER_SIZE;
        if leftBufferIndex == rightBufferIndex {
          bufferIndex := leftBufferIndex;
        }
        EndsDecide(iovs, hostBase, hostSize, op);
      }
      sqes := sqes + [Sqe(op, bufferIndex)];
    }
  }

  ghost predicate Sound(registered: bool, iovs: seq<IoVec>, hostBase: nat, s: Sqe) {
    && -1 <= s.bufferIndex < |iovs|
    && (s.bufferIndex >= 0 ==> registered && Within(iovs[s.bufferIndex], hostBase + s.op.buffer, s.op.size))
    && (registered && s.bufferIndex == -1 ==>
          forall i | 0 <= i < |iovs| :: !Within(iovs[i], hostBase + s.op.buffer, s.op.size))
  }

  /** A read lies in one piece exactly if its first and last byte do. */
  lemma EndsDecide(iovs: seq<IoVec>, start: nat, size: nat, op: ReadOp)
    requires Tiles(iovs, start, size) && op.size > 0 && op.buffer + op.size <= size
    ensures var left, right := op.buffer / REGISTER_BUFFER_SIZE, (op.buffer + op.size - 1) / REGISTER_BUFFER_SIZE;
      && left < |iovs|
      && (left == right ==> Within(iovs[left], start + op.buffer, op.size))
      && (left != right ==> forall i | 0 <= i < |iovs| :: !Within(iovs[i], start + op.buffer, op.size))
  {
    var last := op.buffer + op.size - 1;
    PiecesPartition(iovs, start, size, op.buffer);
    PiecesPartition(iovs, start, size, last);
    forall i | 0 <= i < |iovs| && Within(iovs[i], start + op.buffer, op.size)
      ensures op.buffer / REGISTER_BUFFER_SIZE == i == last / REGISTER_BUFFER_SIZE
    {
      assert Within(iovs[i], start + op.buffer, 1) && Within(iovs[i], start + last, 1);
    }
    var left := op.buffer / REGISTER_BUFFER_SIZE;
    if left == last / REGISTER_BUFFER_SIZE {
      assert Within(iovs[left], start + op.buffer, 1) && Within(iovs[left], start + last, 1);
    }
  }

  /** `post_read_chunk_uring` up to the submission: all of a chunk's reads, with their pieces. */
  method PostReads(u: Setup, c: nat, registered: bool, ghost iovs: seq<IoVec>, hostBase: nat, ghost hostSize: nat)
    returns (sqes: seq<Sqe>)
    requires u.Valid() && c < |u.chunks| && u.HostSize() <= hostSize && Tiles(iovs, hostBase, hostSize)
    ensures |sqes| == u.Reads(c) <= u.shape.numThreads
    ensures forall i | 0 <= i < |sqes| :: sqes[i].op == u.ReadOf(c, i) && Sound(registered, iovs, hostBase, sqes[i])
  {
    var ops := CollectOps(u, c);
    ReadsArePrefix(u.shape, u.chunks[c].size, u.rank, u.shape.numThreads);
    forall op | op in ops ensures op.size > 0 && op.buffer + op.size <= hostSize {
      var i: nat :| i < |ops| && ops[i] == op;
      ReadInSlot(u, Read(c, i));
    }
    sqes := PrepareReads(registered, iovs, hostBase, hostSize, ops);
  }
}
