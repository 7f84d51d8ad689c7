/** From the arguments of OPEN to everything that works below it: the ranks, the reads and the pipeline of threads. */
module Wiring {
  import opened RoundMath
  import opened RingLayout
  import opened RingSafety
  import opened RingRun
  import opened RingTheorems
  import opened DeviceMemory
  import opened Slices
  import opened HostReads
  import opened LoaderCore
  import opened RingPasses
  import opened RingSharp
  import opened Frontend
  import Cluster
  import HostMachine
  import MappedReads
  import PipelineMachine

  /** The chunks of a layout are fit for reading: no larger than a world chunk, and at page boundaries. */
  lemma LayoutIsReadable(
      shape: Shape, bufferSize: nat, rank: nat, ioDepth: nat, entries: seq<Entry>, content: Content)
    requires shape.Valid() && rank < shape.worldSize && ioDepth > 0 && WellFormed(entries)
    requires var ring := RingOf(shape, bufferSize); ring.Valid() && AllRoomy(ring, entries)
    ensures Setup(shape, rank, ioDepth, Layout(RingOf(shape, bufferSize), entries).chunks, content).Valid()
  {
    var ring := RingOf(shape, bufferSize);
    LayoutBounds(ring, entries);
    forall c | c in Layout(ring, entries).chunks
      ensures c.size <= shape.WorldChunkSize() && c.fileOffset % shape.threadAlignment == 0
    {
      assert ChunkOk(ring, entries, c);
    }
  }

  /** The pipeline of one rank: a task for each thread with something to copy, queues of 1024 entries. */
  function PipelineOf(u: Setup): PipelineMachine.Setup
    requires u.Valid()
  {
    PipelineMachine.Setup(u.shape.numThreads, Window(u.ioDepth), MAX_PREFETCH_CHUNKS,
                          seq(|u.chunks|, c requires 0 <= c < |u.chunks| => u.Reads(c)))
  }

  lemma PipelineIsValid(u: Setup)
    requires u.Valid()
    ensures PipelineOf(u).Valid()
    ensures PipelineOf(u).numThreads == u.shape.numThreads && |PipelineOf(u).tasks| == |u.chunks|
    ensures PipelineOf(u).window == (if u.ioDepth <= 1024 then u.ioDepth else 1024) && PipelineOf(u).capacity == 1024
    ensures forall c, i | 0 <= c < |u.chunks| && 0 <= i < u.shape.numThreads ::
              u.ThreadSize(c, i) > 0 <==> i < PipelineOf(u).tasks[c]
  {
    forall c | 0 <= c < |u.chunks|
      ensures u.Reads(c) <= u.shape.numThreads
      ensures forall i | 0 <= i < u.shape.numThreads :: u.ThreadSize(c, i) > 0 <==> i < u.Reads(c)
    {
      ReadsArePrefix(u.shape, u.chunks[c].size, u.rank, u.shape.numThreads);
    }
  }

  // ----- what OPEN sets up

  function ShapeOf(pageSize: nat, args: OpenArgs): Shape
    requires pageSize > 0
  {
    Shape(pageSize, args.numThreads, args.worldSize, RoundUp(args.chunkSize, pageSize))
  }

  /** The size that `init_buffer` allocates on the device. */
  function BufferOf(pageSize: nat, args: OpenArgs): nat
    requires pageSize > 0
  {
    var shape := ShapeOf(pageSize, args);
    var inflight := args.ioDepth * shape.WorldChunkSize();
    Max(args.bufferSize, inflight) + 3 * (FIRST_TENSOR_ALIGNMENT + pageSize + shape.Unit())
  }

  function OpenedRing(pageSize: nat, args: OpenArgs): Ring
    requires pageSize > 0
  {
    RingOf(ShapeOf(pageSize, args), BufferOf(pageSize, args))
  }

  lemma RingIsValid(pageSize: nat, args: OpenArgs)
    requires pageSize > 0 && args.Valid()
    ensures ShapeOf(pageSize, args).Valid() && OpenedRing(pageSize, args).Valid()
    ensures AllRoomy(OpenedRing(pageSize, args), args.entries)
  {
    RoundUpIs(args.chunkSize, pageSize);
    SizesAreValid(RoundUp(args.chunkSize, pageSize), pageSize, args.numThreads, args.worldSize);
    ArgsAreRoomy(args, OpenedRing(pageSize, args));
  }

  /** The world of all ranks that get the same arguments. */
  function WorldOf(pageSize: nat, args: OpenArgs, content: Content): Cluster.World
    requires pageSize > 0 && OpenedRing(pageSize, args).Valid() && |args.entries| > 0
  {
    var layout := Layout(OpenedRing(pageSize, args), args.entries);
    Cluster.World(
      ShapeOf(pageSize, args), BufferOf(pageSize, args), args.ioDepth, layout.tensors, layout.chunks, content)
  }

  /** Copies may overtake gathers of chunks of the same pass over the ring: they lie apart. */
  lemma SamePassIsApart(pageSize: nat, args: OpenArgs, content: Content, c: nat, d: nat)
    requires pageSize > 0 && args.Valid()
    ensures OpenedRing(pageSize, args).Valid() && |args.entries| > 0
    ensures var w, k := WorldOf(pageSize, args, content), LayoutPasses(OpenedRing(pageSize, args), args.entries).chunks;
      && w.RingSizes().Valid() && |k| == |w.chunks|
      && (c < d < |k| && k[c] == k[d] ==> Apart(w.RingSizes(), w.chunks[c], w.chunks[d]))
  {
    RingIsValid(pageSize, args);
    if c < d < |Layout(OpenedRing(pageSize, args), args.entries).chunks| {
      SamePassApart(OpenedRing(pageSize, args), args.entries, c, d);
    }
  }

  function SetupOf(pageSize: nat, args: OpenArgs, rank: nat, content: Content): Setup
    requires pageSize > 0 && OpenedRing(pageSize, args).Valid() && |args.entries| > 0
  {
    Setup(ShapeOf(pageSize, args), rank, args.ioDepth, Layout(OpenedRing(pageSize, args), args.entries).chunks, content)
  }

  /** What `Loader.Open` ensures, for the loader of any rank. */
  ghost predicate OpenedWith(loader: Loader, args: OpenArgs)
    reads loader
  {
    && loader.pageSize > 0 && args.Valid() && loader.Valid() && loader.SizedBy(args)
    && loader.tensors == Layout(loader.RingSizes(), args.entries).tensors
    && loader.chunks == Layout(loader.RingSizes(), args.entries).chunks
  }

  /** The arguments that the frontend passes make a valid world of ranks and, for every rank, valid reads of its chunks
      and a valid pipeline of threads. */
  lemma OpenIsWired(pageSize: nat, args: OpenArgs, rank: nat, content: Content)
    requires pageSize > 0 && args.Valid() && rank < args.worldSize
    ensures OpenedRing(pageSize, args).Valid() && |args.entries| > 0
    ensures WorldOf(pageSize, args, content).Valid()
    ensures var u := SetupOf(pageSize, args, rank, content);
      && u.Valid() && u.chunks == WorldOf(pageSize, args, content).chunks && PipelineOf(u).Valid()
      && u.rank == rank && u.shape == WorldOf(pageSize, args, content).shape && u.content == content
  {
    var shape, bufferSize := ShapeOf(pageSize, args), BufferOf(pageSize, args);
    RingIsValid(pageSize, args);
    LayoutIsReadable(shape, bufferSize, rank, args.ioDepth, args.entries, content);
    Cluster.OpenedWorld(shape, bufferSize, args.ioDepth, args.entries, content);
    PipelineIsValid(SetupOf(pageSize, args, rank, content));
  }

  lemma RingIsOpened(loader: Loader, args: OpenArgs)
    requires OpenedWith(loader, args)
    ensures loader.RingSizes() == OpenedRing(loader.pageSize, args)
  {
  }

  /** An opened loader's sizes and tables are those of that world and of its rank's reads. */
  lemma OpenedIsWired(loader: Loader, args: OpenArgs, rank: nat)
    requires OpenedWith(loader, args) && rank < args.worldSize
    ensures OpenedRing(loader.pageSize, args).Valid() && |args.entries| > 0
    ensures var w := WorldOf(loader.pageSize, args, loader.content);
      && w.Valid() && w.RingSizes() == loader.RingSizes()
      && w.tensors == loader.tensors && w.chunks == loader.chunks && w.ioDepth == loader.ioDepth
    ensures var u := SetupOf(loader.pageSize, args, rank, loader.content);
      && u.Valid() && u.chunks == loader.chunks && u.ioDepth == loader.ioDepth && u.shape.worldSize == loader.worldSize
      && u.shape.RankChunkSize() == loader.rankChunkSize
      && PipelineOf(u).Valid()
  {
    OpenIsWired(loader.pageSize, args, rank, loader.content);
    RingIsOpened(loader, args);
  }

  /** Opening any rank's loader gives just that. */
  method OpenRank(content: Content, inbox: nat -> bool, pageSize: nat, args: OpenArgs) returns (loader: Loader)
    requires pageSize > 0 && args.Valid()
    ensures fresh(loader) && loader.content == content && loader.inbox == inbox && loader.pageSize == pageSize
    ensures OpenedWith(loader, args)
  {
    loader := new Loader(content, inbox, pageSize);
    var r := loader.Open(args);
    assert r.Ok?;
  }

  // ----- from a rank's host buffer to its device memory

  /** What copying the chunk's slot to its place on the device does: the rank's size from the slot's start goes to the
      rank's offset in the chunk. */
  function CopySlot(u: Setup, rank: nat, c: nat, host: Memory, before: Memory): Memory
    requires u.Valid() && c < |u.chunks|
  {
    var d := u.chunks[c];
    var target, size := d.deviceOffset + u.shape.RankOffset(d.size, rank), u.shape.RankSize(d.size, rank);
    a => if target <= a < target + size then host(u.SlotStart(c) + (a - target)) else before(a)
  }

  lemma SlotMoves(w: Cluster.World, u: Setup, c: nat, host: Memory, before: Memory)
    requires w.Valid() && u.Valid() && w.shape == u.shape && w.chunks == u.chunks && w.content == u.content
    requires c < |u.chunks| && HostMachine.HostHolds(u, host, c)
    ensures Cluster.Copied(w, w.chunks[c], u.rank, before, CopySlot(u, u.rank, c, host, before))
    ensures forall a | Cluster.OwnByte(w, w.chunks[c], u.rank, a) ::
              host(u.SlotStart(c) + (a - Cluster.SliceStart(w, w.chunks[c], u.rank)))
                == Cluster.FileByte(w, w.chunks[c], a)
  {
    forall a | Cluster.OwnByte(w, w.chunks[c], u.rank, a)
      ensures host(u.SlotStart(c) + (a - Cluster.SliceStart(w, w.chunks[c], u.rank)))
        == Cluster.FileByte(w, w.chunks[c], a)
    {
      var o := a - Cluster.SliceStart(w, w.chunks[c], u.rank);
      assert host(u.SlotStart(c) + o) == u.content(u.chunks[c].fileIndex,
        u.chunks[c].fileOffset + u.shape.RankOffset(u.chunks[c].size, u.rank) + o);
    }
  }

  /** If the slot holds the rank's part of the chunk, this is just what the ranks' runs take a copy for: the rank's own
      bytes of the chunk, at their places. */
  lemma SlotIsCopied(
      pageSize: nat, args: OpenArgs, rank: nat, content: Content, c: nat, host: Memory, before: Memory)
    requires pageSize > 0 && args.Valid() && rank < args.worldSize
    ensures OpenedRing(pageSize, args).Valid() && |args.entries| > 0
    ensures var w, u := WorldOf(pageSize, args, content), SetupOf(pageSize, args, rank, content);
      && w.Valid() && u.Valid() && w.chunks == u.chunks
      && (c < |w.chunks| && HostMachine.HostHolds(u, host, c) ==>
            && Cluster.Copied(w, w.chunks[c], rank, before, CopySlot(u, rank, c, host, before))
            && forall a | Cluster.OwnByte(w, w.chunks[c], rank, a) ::
                 host(u.SlotStart(c) + (a - Cluster.SliceStart(w, w.chunks[c], rank)))
                   == Cluster.FileByte(w, w.chunks[c], a))
  {
    hide Layout, HostMachine.HostHolds, Cluster.Copied, Cluster.OwnByte, CopySlot;
    OpenIsWired(pageSize, args, rank, content);
    var w, u := WorldOf(pageSize, args, content), SetupOf(pageSize, args, rank, content);
    if c < |w.chunks| && HostMachine.HostHolds(u, host, c) {
      SlotMoves(w, u, c, host, before);
    }
  }

  /** libaio and io_uring: from the end of a chunk's loop until the chunk is reaped, copying the chunk's slot is the
      Copy step of the ranks' runs for this rank. */
  lemma CopyIsStep(
      pageSize: nat, args: OpenArgs, rank: nat, content: Content, states: seq<HostMachine.State>, i: nat, c: nat,
      v: Cluster.State)
    requires pageSize > 0 && args.Valid() && rank < args.worldSize
    requires OpenedRing(pageSize, args).Valid() && |args.entries| > 0
    requires var u := SetupOf(pageSize, args, rank, content);
      u.Valid() && HostMachine.Run(u, states) && i < |states| && HostMachine.CopyMayRun(u, states, i, c)
    requires var w := WorldOf(pageSize, args, content);
      && w.Valid() && rank < |v.ranks| && -1 <= v.gathered < c == v.ranks[rank].copied + 1 <= v.ranks[rank].posted
      && c < |w.chunks|
      && forall k | v.gathered + 1 <= k < c :: Apart(w.RingSizes(), w.chunks[k], w.chunks[c])
    ensures var w, u, s := WorldOf(pageSize, args, content), SetupOf(pageSize, args, rank, content), v.ranks[rank];
      && c < |u.chunks|
      && var m := CopySlot(u, rank, c, states[i].host, s.memory);
      Cluster.Next(w, v, v.(ranks := v.ranks[rank := s.(copied := c, memory := m)]), Cluster.Copy(rank, m))
  {
    HostMachine.CopyHasData(SetupOf(pageSize, args, rank, content), states, i, c);
    SlotIsCopied(pageSize, args, rank, content, c, states[i].host, v.ranks[rank].memory);
  }

  /** The in-memory backend: the same, once all copy tasks of the chunk have run. */
  lemma TasksAreCopied(
      pageSize: nat, args: OpenArgs, rank: nat, content: Content, c: nat, tasks: seq<MappedReads.CopyTask>,
      ids: seq<int>,
      host: Memory, before: Memory)
    requires pageSize > 0 && args.Valid() && rank < args.worldSize
    requires OpenedRing(pageSize, args).Valid() && |args.entries| > 0
    requires var u := SetupOf(pageSize, args, rank, content);
      && u.Valid() && c < |u.chunks| && |tasks| == |ids| == u.Reads(c)
      && forall i | 0 <= i < |tasks| ::
           tasks[i] == MappedReads.CopyOf(u, c, i, ids[i]) && MappedReads.Carried(content, tasks[i], host)
    ensures var w, u := WorldOf(pageSize, args, content), SetupOf(pageSize, args, rank, content);
      && w.Valid() && w.chunks == u.chunks
      && Cluster.Copied(w, w.chunks[c], rank, before, CopySlot(u, rank, c, host, before))
  {
    hide Layout, HostMachine.HostHolds, Cluster.Copied, CopySlot;
    MappedReads.CopiesHold(SetupOf(pageSize, args, rank, content), c, tasks, ids, host);
    SlotIsCopied(pageSize, args, rank, content, c, host, before);
  }

  // ----- from the files to the bytes

  /** The k-th tensor of the layout is the k-th of the metadata. */
  lemma TensorIsListed(files: seq<File>, args: OpenArgs, pageSize: nat, k: nat)
    requires files != [] && AllAccepted(files) && AllOrdered(files) && args.entries == Entries(files, |files|)
    requires pageSize > 0 && args.Valid()
    ensures OpenedRing(pageSize, args).Valid() && |args.entries| > 0
    ensures var ts, qs := Tensors(files, |files|), Layout(OpenedRing(pageSize, args), args.entries).tensors;
      && |qs| == |ts|
      && (k < |qs| ==>
            qs[k].size == ts[k].size && qs[k].fileIndex == ts[k].fileIndex && qs[k].fileOffset == ts[k].fileOffset)
  {
    hide Layout, Entries, Tensors, Inputs, AllRoomy, AllAccepted, AllOrdered, RingOf, BufferOf, OpenedRing, Adjacent;
    RingIsValid(pageSize, args);
    KthListed(files, Inputs(args.entries, |args.entries| - 1), Tensors(files, |files|), k);
    LayoutTensors(OpenedRing(pageSize, args), args.entries);
  }

  /** Of files that keep to the format and have been opened: from the reply to a request for the tensor with number s of
      file f until the next request, the bytes at the address given are those that the file's metadata names. Tensors
      are numbered through, file by file. */
  lemma FileBytesHeld(files: seq<File>, args: OpenArgs, loader: Loader, i: nat, j: nat, f: nat, s: nat)
    requires files != [] && AllAccepted(files) && AllOrdered(files) && args.entries == Entries(files, |files|)
    requires OpenedWith(loader, args) && i <= j < |loader.trace|
    requires loader.trace[i].event.Answered? && loader.trace[i].event.reply.Ok?
    requires forall k | i < k <= j :: !loader.trace[k].event.Taken? && !loader.trace[k].event.Answered?
    requires f < |files| && s < |files[f].spans| && loader.trace[i].event.index == TensorCount(files, f) + s
    ensures var file, address := files[f], loader.trace[i].event.reply.value;
      forall a | address <= a < address + (file.spans[s].end - file.spans[s].begin) ::
        loader.trace[j].memory(a) == loader.content(f, file.dataStart + file.spans[s].begin + (a - address))
  {
    hide Tensors, Entries, Layout, Inputs, AllAccepted, AllOrdered, TensorCount, OpenedRing;
    loader.HeldUntilNextRequest(i, j);
    TensorIsListed(files, args, loader.pageSize, loader.trace[i].event.index);
    ListedAt(files, |files|, f, s);
    RingIsOpened(loader, args);
  }

  /** There is such a file for every reply. */
  lemma ReplyIsOfFile(files: seq<File>, args: OpenArgs, loader: Loader, i: nat) returns (f: nat, s: nat)
    requires files != [] && AllAccepted(files) && AllOrdered(files) && args.entries == Entries(files, |files|)
    requires OpenedWith(loader, args) && i < |loader.trace|
    requires loader.trace[i].event.Answered? && loader.trace[i].event.reply.Ok?
    ensures f < |files| && s < |files[f].spans| && loader.trace[i].event.index == TensorCount(files, f) + s
  {
    hide Tensors, Entries, Layout, Inputs, AllAccepted, AllOrdered, TensorCount, OpenedRing;
    loader.HeldUntilNextRequest(i, i);
    TensorIsListed(files, args, loader.pageSize, loader.trace[i].event.index);
    RingIsOpened(loader, args);
    CountIsLength(files, |files|);
    f, s := FileOf(files, |files|, loader.trace[i].event.index);
  }
}
