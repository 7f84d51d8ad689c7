/** The loader of csrc/loader_common.cpp: buffer sizing, opening, and the prefetching of chunks.

    The device pipeline behind an executor (copy, gather, event) is the environment: it applies the posted chunks to
    device memory one after the other, at any time between post and reap. */
module LoaderCore {
  import opened Wrappers
  import opened RoundMath
  import opened RingLayout
  import opened RingSafety
  import opened RingRun
  import opened RingTheorems
  import opened RingPlanner
  import opened RingPasses
  import opened RingSharp
  import opened DeviceMemory

  datatype LoaderError =
    | LayoutFailed(error: LayoutError)
    | CurrentTensorOutOfRange
    | ReadingBeyondPrefetch
    | ChunkIdOutOfRange
    | TensorIndexOutOfRange
    | TensorOutOfOrder

  type LoaderResult<T> = Result<T, LoaderError>

  datatype OpenArgs = OpenArgs(
    numThreads: nat, worldSize: nat, ioDepth: nat, chunkSize: nat, bufferSize: nat, entries: seq<Entry>)
  {
    /** What the frontend passes: positive counts, and a buffer no smaller than any tensor. */
    ghost predicate Valid() {
      && numThreads > 0 && worldSize > 0 && ioDepth > 0 && chunkSize > 0
      && WellFormed(entries)
      && forall x | x in Inputs(entries, |entries| - 1) :: x.size <= bufferSize
    }
  }

  // ----- what an observer of requests, replies and device memory sees

  datatype Event =
    | Posted(chunk: nat)                                     // a chunk has been handed to the device pipeline
    | Applied(chunk: nat)                                    // a chunk has reached device memory
    | Looked(waiting: bool)                                  // `run` begins an iteration: is a request waiting?
    | Taken(request: nat)                                    // a request has been taken
    | Answered(index: nat, reply: LoaderResult<int>)         // its reply has been sent

  predicate IsCall(event: Event) {
    event.Taken? || event.Answered?
  }

  predicate IsWork(event: Event) {
    event.Posted? || event.Applied?
  }

  /** An event, and device memory right after it. */
  datatype Moment = Moment(event: Event, memory: Memory)

  /** The tensor in use at the end of the trace: the one handed out last, if no request has been taken since. */
  ghost function InUse(trace: seq<Moment>): Option<nat> {
    if trace == [] then None else
      match trace[|trace| - 1].event
      case Taken(_) => None
      case Answered(index, reply) => if reply.Ok? then Some(index) else None
      case _ => InUse(trace[..|trace| - 1])
  }

  /** The last chunk that has reached device memory in the trace, or -1. */
  ghost function LastApplied(trace: seq<Moment>): int {
    if trace == [] then -1 else
      var event := trace[|trace| - 1].event;
      if event.Applied? then event.chunk else LastApplied(trace[..|trace| - 1])
  }

  /** The last chunk that has been posted in the trace, or -1. */
  ghost function LastPosted(trace: seq<Moment>): int {
    if trace == [] then -1 else
      var event := trace[|trace| - 1].event;
      if event.Posted? then event.chunk else LastPosted(trace[..|trace| - 1])
  }

  /** How many iterations `run` has begun. */
  ghost function Looks(trace: seq<Moment>): nat {
    if trace == [] then 0 else Looks(trace[..|trace| - 1]) + if trace[|trace| - 1].event.Looked? then 1 else 0
  }

  /** The tensor handed out last since moment `from`, at first this one. */
  ghost function Handed(trace: seq<Moment>, from: nat, first: nat): nat {
    if |trace| <= from then first else
      var event := trace[|trace| - 1].event;
      if event.Answered? && event.reply.Ok? then event.index else Handed(trace[..|trace| - 1], from, first)
  }

  /** The requests and replies of the trace. */
  ghost function Calls(trace: seq<Moment>): seq<Event> {
    if trace == [] then [] else
      var event := trace[|trace| - 1].event;
      Calls(trace[..|trace| - 1]) + if IsCall(event) then [event] else []
  }

  /** Each of the first requests, followed by its reply. */
  ghost function Dialogue(requests: seq<nat>, replies: seq<LoaderResult<int>>): seq<Event>
    requires |replies| <= |requests|
  {
    if replies == [] then [] else
      var n := |replies| - 1;
      Dialogue(requests, replies[..n]) + [Taken(requests[n]), Answered(requests[n], replies[n])]
  }

  /** From trace a to trace b nothing has happened but chunks being posted and reaching device memory. */
  ghost predicate Worked(a: seq<Moment>, b: seq<Moment>) {
    |a| <= |b| && b[..|a|] == a && forall k | |a| <= k < |b| :: IsWork(b[k].event)
  }

  lemma WorkedOn(a: seq<Moment>, b: seq<Moment>, c: seq<Moment>)
    requires Worked(a, b) && Worked(b, c)
    ensures Worked(a, c)
  {
    assert c[..|a|] == c[..|b|][..|a|];
    forall k | |a| <= k < |c| ensures IsWork(c[k].event) {
      assert k < |b| ==> c[k] == c[..|b|][k];
    }
  }

  lemma WorkedCalls(a: seq<Moment>, b: seq<Moment>)
    requires Worked(a, b)
    ensures Calls(b) == Calls(a) && InUse(b) == InUse(a) && Looks(b) == Looks(a)
  {
    if |a| < |b| {
      var c := b[..|b| - 1];
      assert c[..|a|] == a;
      WorkedCalls(a, c);
    } else {
      assert a == b;
    }
  }

  lemma WorkedHanded(a: seq<Moment>, b: seq<Moment>, from: nat, first: nat)
    requires Worked(a, b) && from <= |a|
    ensures Handed(b, from, first) == Handed(a, from, first)
  {
    if |a| < |b| {
      var c := b[..|b| - 1];
      assert c[..|a|] == a;
      WorkedHanded(a, c, from, first);
    } else {
      assert a == b;
    }
  }

  /** Trace b continues trace a, and these are the calls since then. */
  ghost predicate Grew(a: seq<Moment>, b: seq<Moment>, calls: seq<Event>) {
    |a| <= |b| && b[..|a|] == a && Calls(b) == Calls(a) + calls
  }

  lemma GrewOn(a: seq<Moment>, b: seq<Moment>, c: seq<Moment>, first: seq<Event>, second: seq<Event>)
    requires Grew(a, b, first) && Grew(b, c, second)
    ensures Grew(a, c, first + second)
  {
    assert c[..|a|] == c[..|b|][..|a|];
    assert Calls(a) + first + second == Calls(a) + (first + second);
  }

  /** Trace b continues trace a with a request taken, some chunks, and its reply. */
  ghost predicate Served(a: seq<Moment>, b: seq<Moment>, index: nat, reply: LoaderResult<int>) {
    && |a| + 2 <= |b| && b[..|a|] == a
    && b[|a|].event == Taken(index) && b[|b| - 1].event == Answered(index, reply)
    && Worked(b[..|a| + 1], b[..|b| - 1])
  }

  lemma ServedIs(a: seq<Moment>, b: seq<Moment>, c: seq<Moment>, d: seq<Moment>, index: nat, reply: LoaderResult<int>)
    requires |b| == |a| + 1 && b[..|a|] == a && b[|a|].event == Taken(index) && Worked(b, c)
    requires |d| == |c| + 1 && d[..|c|] == c && d[|c|].event == Answered(index, reply)
    ensures Served(a, d, index, reply) && Grew(a, d, [Taken(index), Answered(index, reply)])
  {
    WorkedCalls(b, c);
    assert d[..|a|] == c[..|b|][..|a|] && d[..|b|] == c[..|b|] == b;
    assert d[|a|] == b[|a|];
    assert Calls(d) == Calls(a) + [Taken(index)] + [Answered(index, reply)];
  }

  lemma NoLook(looked: seq<Moment>, served: seq<Moment>, past: seq<Moment>, index: nat, r: LoaderResult<int>)
    requires Served(looked, served, index, r) && Worked(served, past)
    ensures forall k | |looked| <= k < |past| :: !past[k].event.Looked?
  {
    forall k | |looked| <= k < |past| ensures !past[k].event.Looked? {
      if k < |served| {
        assert past[k] == past[..|served|][k] == served[k];
        if |looked| < k < |served| - 1 {
          assert served[..|served| - 1][k] == served[k];
        }
      }
    }
  }

  lemma OneReply(past: seq<Moment>, n: nat, q: nat, p: nat)
    requires n + 1 < q < |past| && past[n + 1].event.Taken? && past[q].event.Answered?
    requires Served(past[..n + 1], past[..q + 1], past[n + 1].event.request, past[q].event.reply)
    requires Worked(past[..q + 1], past) && n < p < |past| && past[p].event.Answered?
    ensures p == q
  {
    var served := past[..q + 1];
    forall k | n + 1 < k < q ensures IsWork(past[k].event) {
      assert served[..|served| - 1][k] == past[k];
    }
  }

  lemma LastPostedReply(served: seq<Moment>)
    requires served != [] && !served[|served| - 1].event.Posted?
    ensures LastPosted(served[..|served| - 1]) == LastPosted(served)
  {
  }

  lemma NextLookAfter(trace: seq<Moment>, n: nat) returns (m: nat)
    requires n < |trace| && trace[n].event.Looked?
    ensures NextLook(trace, n, m)
    ensures n + 1 < |trace| && !trace[n + 1].event.Looked? ==> n + 1 < m
  {
    m := n + 1;
    while m < |trace| && !trace[m].event.Looked?
      invariant n < m <= |trace|
      invariant forall k | n < k < m :: !trace[k].event.Looked?
      invariant m == n + 1 || !trace[n + 1].event.Looked?
    {
      m := m + 1;
    }
  }

  lemma LookGrew(before: seq<Moment>, looked: seq<Moment>)
    requires |looked| == |before| + 1 && looked[..|before|] == before && looked[|before|].event.Looked?
    ensures Grew(before, looked, [])
  {
    assert looked[..|looked| - 1] == before;
    assert Calls(before) + [] == Calls(before);
  }

  lemma WorkedGrew(a: seq<Moment>, b: seq<Moment>)
    requires Worked(a, b)
    ensures Grew(a, b, [])
  {
    WorkedCalls(a, b);
    assert Calls(a) + [] == Calls(a);
  }

  /** From this moment to the next one no iteration begins. */
  ghost predicate NextLook(trace: seq<Moment>, n: nat, m: nat) {
    && n < m <= |trace| && trace[n].event.Looked?
    && (m < |trace| ==> trace[m].event.Looked?)
    && forall k | n < k < m :: !trace[k].event.Looked?
  }

  lemma {:induction false} DialogueAt(requests: seq<nat>, replies: seq<LoaderResult<int>>, i: nat)
    requires |replies| <= |requests|
    ensures var d := Dialogue(requests, replies);
      && |d| == 2 * |replies|
      && (i < |replies| ==> d[2 * i] == Taken(requests[i]) && d[2 * i + 1] == Answered(requests[i], replies[i]))
  {
    if replies != [] {
      DialogueAt(requests, replies[..|replies| - 1], i);
    }
  }

  lemma DialoguePush(requests: seq<nat>, replies: seq<LoaderResult<int>>, r: LoaderResult<int>)
    requires |replies| < |requests|
    ensures var n := |replies|;
      Dialogue(requests, replies + [r]) == Dialogue(requests, replies) + [Taken(requests[n]), Answered(requests[n], r)]
  {
    assert (replies + [r])[..|replies|] == replies;
  }

  class Loader {
    const content: Content
    const inbox: nat -> bool       // whether a request is waiting when `run` looks for the n-th time
    const pageSize: nat

    var threadAlignment: nat
    var rankAlignment: nat
    var worldChunkAlignment: nat
    var threadChunkSize: nat
    var rankChunkSize: nat
    var worldChunkSize: nat
    var bufferSize: nat
    var numThreads: nat
    var worldSize: nat
    var ioDepth: nat

    var tensors: seq<Tensor>
    var chunks: seq<Chunk>
    var currentTensorIndex: nat
    var chunkReading: int
    var chunkRead: int

    var looks: nat           // how often `run` has looked
    var posted: int          // the last chunk handed to the device pipeline
    var applied: int         // the last chunk that the pipeline has completed: its effect has reached device memory
    ghost var device: Memory
    ghost var origin: Memory       // device memory at OPEN
    ghost var trace: seq<Moment>   // everything that has happened since OPEN

    constructor (content: Content, inbox: nat -> bool, pageSize: nat)
      requires pageSize > 0
      ensures Fresh() && this.content == content && this.inbox == inbox && this.pageSize == pageSize
    {
      this.content, this.inbox, this.pageSize := content, inbox, pageSize;
      threadAlignment, rankAlignment, worldChunkAlignment := 0, 0, 0;
      threadChunkSize, rankChunkSize, worldChunkSize, bufferSize := 0, 0, 0, 0;
      numThreads, worldSize, ioDepth := 0, 0, 0;
      tensors, chunks, currentTensorIndex := [], [], 0;
      chunkReading, chunkRead := -1, -1;
      looks, posted, applied, trace := 0, -1, -1, [];
    }

    /** Before OPEN. */
    ghost predicate Fresh()
      reads this
    {
      && pageSize > 0 && tensors == [] && chunks == [] && currentTensorIndex == 0
      && chunkReading == chunkRead == posted == applied == -1 && looks == 0 && trace == []
    }

    function RingSizes(): Ring
      reads this`threadAlignment, this`worldChunkAlignment, this`worldChunkSize, this`bufferSize
    {
      Ring(threadAlignment, worldChunkAlignment, worldChunkSize, bufferSize)
    }

    /** The sizes and tables, which do not change after OPEN. */
    ghost predicate Tables()
      reads this`threadAlignment, this`worldChunkAlignment, this`worldChunkSize, this`bufferSize, this`ioDepth,
            this`tensors, this`chunks
    {
      RingSizes().Valid() && ioDepth > 0 && Safe(RingSizes(), tensors, chunks)
    }

    ghost predicate Counters()
      reads this`ioDepth, this`tensors, this`currentTensorIndex, this`chunkRead, this`chunkReading, this`applied,
            this`posted
    {
      && currentTensorIndex < |tensors|
      && -1 <= chunkRead <= applied <= posted <= chunkReading <= tensors[currentTensorIndex].prefetchChunk
      && chunkReading <= posted + 1
      && posted - chunkRead <= Window(ioDepth)
    }

    /** What device memory holds so far. */
    ghost predicate Live()
      requires RingSizes().Valid()
      reads this`threadAlignment, this`worldChunkAlignment, this`worldChunkSize, this`bufferSize, this`tensors,
            this`chunks, this`currentTensorIndex, this`applied, this`device
    {
      LiveFrom(RingSizes(), content, tensors, chunks, currentTensorIndex, applied, device)
    }

    ghost predicate Loaded()
      reads this
    {
      Tables() && Counters() && Live()
    }

    /** The tensor in use is the current one, and its last chunk has been reaped. */
    ghost predicate Current(past: seq<Moment>)
      reads this`tensors, this`currentTensorIndex, this`chunkRead
    {
      InUse(past).Some? ==>
        && InUse(past).value == currentTensorIndex < |tensors|
        && tensors[currentTensorIndex].lastChunk <= chunkRead
    }

    /** At the last of these moments device memory held the tensor in use. */
    ghost predicate HonouredAt(past: seq<Moment>)
      requires past != []
      reads this`tensors
    {
      InUse(past).Some? ==> Holds(InUse(past).value, past[|past| - 1].memory)
    }

    /** At every moment since OPEN device memory has held the tensor that was in use. */
    ghost predicate Honoured()
      reads this`tensors, this`trace
    {
      forall n | 0 < n <= |trace| :: HonouredAt(trace[..n])
    }

    /** Device memory after these moments. */
    ghost function MemoryAfter(past: seq<Moment>): Memory
      reads this`origin
    {
      if past == [] then origin else past[|past| - 1].memory
    }

    /** The last of these moments follows from those before: chunks are posted one after the other, and written one
        after the other, each with its bytes of the file; nothing else changes device memory; a reply that is no error
        is the tensor's address. */
    ghost predicate LawfulAt(past: seq<Moment>)
      requires past != [] && RingSizes().Valid()
      reads this`origin, this`threadAlignment, this`worldChunkAlignment, this`worldChunkSize, this`bufferSize,
            this`tensors, this`chunks
    {
      var n := |past| - 1;
      match past[n].event
      case Applied(c) =>
        && c == LastApplied(past[..n]) + 1 && c < |chunks|
        && Written(RingSizes(), content, chunks[c], MemoryAfter(past[..n]), past[n].memory)
      case Answered(index, reply) =>
        && past[n].memory == MemoryAfter(past[..n])
        && (reply.Ok? ==> index < |tensors| && reply.value == tensors[index].deviceOffset)
      case Posted(c) => past[n].memory == MemoryAfter(past[..n]) && c == LastPosted(past[..n]) + 1 && c < |chunks|
      case Looked(waiting) => past[n].memory == MemoryAfter(past[..n]) && waiting == inbox(Looks(past[..n]))
      case Taken(_) => past[n].memory == MemoryAfter(past[..n])
    }

    ghost predicate Lawful()
      requires RingSizes().Valid()
      reads this`origin, this`trace, this`threadAlignment, this`worldChunkAlignment, this`worldChunkSize,
            this`bufferSize, this`tensors, this`chunks
    {
      forall n | 0 < n <= |trace| :: LawfulAt(trace[..n])
    }

    ghost predicate LastIsNow()
      reads this`trace, this`device, this`origin, this`applied, this`posted, this`looks
    {
      && MemoryAfter(trace) == device && LastApplied(trace) == applied && LastPosted(trace) == posted
      && Looks(trace) == looks
    }

    /** After OPEN, at any time. */
    ghost predicate Opened()
      reads this
    {
      && Loaded() && Current(trace) && Honoured() && Lawful() && LastIsNow()
    }

    /** After OPEN, between two calls. */
    ghost predicate Valid()
      reads this
    {
      Opened() && posted == chunkReading
    }

    /** The sizes that `init_buffer` derives from the arguments of OPEN. */
    predicate SizedBy(args: OpenArgs)
      requires pageSize > 0
      reads this
    {
      && numThreads == args.numThreads && worldSize == args.worldSize && ioDepth == args.ioDepth
      && threadAlignment == pageSize && rankAlignment == threadAlignment * numThreads
      && worldChunkAlignment == rankAlignment * worldSize
      && threadChunkSize == RoundUp(args.chunkSize, pageSize)
      && rankChunkSize == threadChunkSize * numThreads && worldChunkSize == rankChunkSize * worldSize
      && bufferSize == Max(args.bufferSize, ioDepth * worldChunkSize)
           + 3 * (FIRST_TENSOR_ALIGNMENT + threadAlignment + worldChunkAlignment)
    }

    // ----- opening

    /** `init_buffer` without the allocations. */
    method InitBuffer(ghost args: OpenArgs)
      requires pageSize > 0 && numThreads > 0 && worldSize > 0 && ioDepth > 0 && threadChunkSize > 0
      requires numThreads == args.numThreads && worldSize == args.worldSize && ioDepth == args.ioDepth
      requires threadChunkSize == args.chunkSize && bufferSize == args.bufferSize
      modifies this`threadAlignment, this`rankAlignment, this`worldChunkAlignment, this`threadChunkSize,
               this`rankChunkSize, this`worldChunkSize, this`bufferSize
      ensures SizedBy(args) && RingSizes().Valid() && threadChunkSize % pageSize == 0
      ensures threadChunkSize - pageSize < args.chunkSize <= threadChunkSize
      ensures worldChunkSize == threadChunkSize * numThreads * worldSize
      ensures bufferSize ==
        (if args.bufferSize < ioDepth * worldChunkSize then ioDepth * worldChunkSize else args.bufferSize)
          + 3 * (16 + pageSize + pageSize * numThreads * worldSize)
    {
      threadAlignment := pageSize;
      rankAlignment := threadAlignment * numThreads;
      worldChunkAlignment := rankAlignment * worldSize;
      RoundUpIs(threadChunkSize, threadAlignment);
      if threadChunkSize % threadAlignment != 0 {
        threadChunkSize := RoundUp(threadChunkSize, threadAlignment);
      } else {
        RoundUpMultiple(threadChunkSize, threadAlignment);
      }
      rankChunkSize := threadChunkSize * numThreads;
      worldChunkSize := rankChunkSize * worldSize;
      SizesAreValid(threadChunkSize, threadAlignment, numThreads, worldSize);
      var inflight := ioDepth * worldChunkSize;
      if bufferSize < inflight {
        bufferSize := inflight;
      }
      bufferSize := bufferSize + 3 * (FIRST_TENSOR_ALIGNMENT + threadAlignment + worldChunkAlignment);
    }

    method SetSizes(args: OpenArgs)
      requires pageSize > 0 && args.Valid()
      modifies this`threadAlignment, this`rankAlignment, this`worldChunkAlignment, this`threadChunkSize,
               this`rankChunkSize, this`worldChunkSize, this`bufferSize, this`numThreads, this`worldSize, this`ioDepth
      ensures SizedBy(args) && RingSizes().Valid() && AllRoomy(RingSizes(), args.entries)
    {
      worldSize, bufferSize, threadChunkSize := args.worldSize, args.bufferSize, args.chunkSize;
      numThreads, ioDepth := args.numThreads, args.ioDepth;
      InitBuffer(args);
      ArgsAreRoomy(args, RingSizes());
    }

    /** `open`: sizes, then the layout. With what the frontend passes, the layout cannot fail. */
    method Open(args: OpenArgs) returns (r: LoaderResult<()>)
      requires Fresh() && args.Valid()
      modifies this
      ensures r == Ok(()) && Valid() && trace == [] && SizedBy(args)
      ensures tensors == Layout(RingSizes(), args.entries).tensors && chunks == Layout(RingSizes(), args.entries).chunks
    {
      hide Layout, Safe, LiveFrom, Inputs, Adjacent, Written;
      SetSizes(args);
      r := RunPlanner(args.entries);
      PrefetchInOrder(RingSizes(), tensors, chunks, 0, 0);
      LiveAtStart(RingSizes(), content, tensors, chunks, device);
      origin := device;
    }

    /** `compute_layout`, with the tables written to the loader. */
    method RunPlanner(entries: seq<Entry>) returns (r: LoaderResult<()>)
      requires RingSizes().Valid() && WellFormed(entries) && AllRoomy(RingSizes(), entries)
      modifies this`tensors, this`chunks
      ensures r == Ok(())
      ensures tensors == Layout(RingSizes(), entries).tensors && chunks == Layout(RingSizes(), entries).chunks
      ensures Safe(RingSizes(), tensors, chunks) && |tensors| > 0
    {
      var ring := RingSizes();
      var planner := new Planner(ring);
      forall x | x in Inputs(entries, |entries| - 1) ensures x.size <= ring.bufferSize {
        assert Roomy(ring, x);
      }
      var outcome := planner.ComputeLayout(entries);
      assert outcome == Done;
      tensors, chunks := planner.tensors, planner.chunks;
      assert RingSizes() == ring;
      LayoutNotEmpty(ring, entries);
      return Ok(());
    }

    // ----- the device pipeline

    /** Adds an event to the trace. */
    ghost method Record(event: Event)
      requires Loaded() && Honoured() && Lawful()
      requires var past := trace + [Moment(event, device)];
        && HonouredAt(past) && Current(past) && LawfulAt(past)
        && LastApplied(past) == applied && LastPosted(past) == posted && Looks(past) == looks
      modifies this`trace
      ensures Opened() && trace == old(trace) + [Moment(event, device)]
    {
      ghost var before := trace;
      trace := trace + [Moment(event, device)];
      assert trace[..|before|] == before && trace[..|trace|] == trace;
      forall n | 0 < n <= |trace| ensures HonouredAt(trace[..n]) && LawfulAt(trace[..n]) {
        if n <= |before| {
          assert trace[..n] == before[..n];
        }
      }
    }

    /** The next posted chunk reaches device memory; its padding brings anything. */
    method ApplyNext()
      requires Opened() && applied < posted
      modifies this`applied, this`device, this`trace
      ensures Opened() && applied == old(applied) + 1
      ensures Worked(old(trace), trace)
    {
      hide Safe, LiveFrom, Honoured, Lawful;
      PrefetchInOrder(RingSizes(), tensors, chunks, currentTensorIndex, currentTensorIndex);
      ghost var ring, before, next := RingSizes(), device, applied + 1;
      ghost var after := AfterChunk(ring, content, chunks[next], before);
      LiveAfterNext(ring, content, tensors, chunks, currentTensorIndex, next, before, after);
      applied, device := applied + 1, after;
      CurrentHeld();
      assert (trace + [Moment(Applied(next), device)])[..|trace|] == trace;
      Record(Applied(next));
    }

    /** The pipeline advances, at least to chunk `goal`, by any number of chunks. */
    method Progress(goal: int)
      requires Opened() && goal <= posted
      modifies this`applied, this`device, this`trace
      ensures Opened() && old(applied) <= applied && goal <= applied
      ensures Worked(old(trace), trace)
    {
      var more: bool := *;
      while applied < goal || (more && applied < posted)
        invariant Opened() && old(applied) <= applied
        invariant Worked(old(trace), trace)
        decreases posted - applied
      {
        ApplyNext();
        more := *;
      }
    }

    /** `try_reap` on the request of a posted chunk: it succeeds exactly if the pipeline has completed the chunk. */
    method TryReap(chunkId: int) returns (ok: bool)
      requires Opened() && chunkId <= posted
      modifies this`applied, this`device, this`trace
      ensures Worked(old(trace), trace)
      ensures Opened() && old(applied) <= applied && ok == (chunkId <= applied)
    {
      Progress(applied);
      return chunkId <= applied;
    }

    /** `reap` blocks until the chunk has been applied. */
    method Reap(chunkId: int)
      requires Opened() && chunkId <= posted
      modifies this`applied, this`device, this`trace
      ensures Worked(old(trace), trace)
      ensures Opened() && old(applied) <= applied && chunkId <= applied
    {
      Progress(chunkId);
    }

    // ----- reading chunks

    /** Reaps whatever the pipeline has completed. */
    method PollReadChunk()
      requires Valid()
      modifies this`applied, this`device, this`trace, this`chunkRead
      ensures Worked(old(trace), trace)
      ensures Valid() && old(applied) <= applied && chunkRead == applied
    {
      hide Tables, Live, Honoured, Lawful, LastIsNow, InUse;
      var next := chunkRead + 1;
      while next <= chunkReading
        invariant Worked(old(trace), trace)
        invariant Valid() && chunkRead == old(chunkRead) && old(applied) <= applied
        invariant chunkRead + 1 <= next <= applied + 1
        decreases chunkReading - next
      {
        var ok := TryReap(next);
        if !ok {
          break;
        }
        next := next + 1;
      }
      chunkRead := next - 1;
    }

    method WaitReadChunk(chunkId: int) returns (r: LoaderResult<()>)
      requires Opened() && (chunkId <= posted || chunkReading < chunkId)
      modifies this`applied, this`device, this`trace, this`chunkRead
      ensures Worked(old(trace), trace)
      ensures Opened() && old(applied) <= applied
      ensures r == if chunkReading < chunkId then Err(ChunkIdOutOfRange) else Ok(())
      ensures chunkRead == if r.Ok? then Max(old(chunkRead), chunkId) else old(chunkRead)
    {
      hide Tables, Live, Honoured, Lawful, LastIsNow, InUse;
      var next := chunkRead + 1;
      if chunkId > chunkReading {
        return Err(ChunkIdOutOfRange);
      }
      while next <= chunkId
        invariant Worked(old(trace), trace)
        invariant Opened() && chunkRead == old(chunkRead) && old(applied) <= applied
        invariant chunkRead + 1 <= next <= applied + 1 && next <= Max(chunkRead, chunkId) + 1
      {
        Reap(next);
        next := next + 1;
      }
      chunkRead := next - 1;
      return Ok(());
    }

    /** Posts the next chunk, once fewer than Window(ioDepth) chunks are in flight. */
    method PostReadChunk()
      requires Valid() && chunkReading < tensors[currentTensorIndex].prefetchChunk
      modifies this`applied, this`device, this`trace, this`chunkRead, this`chunkReading, this`posted
      ensures Worked(old(trace), trace)
      ensures Valid() && old(applied) <= applied && old(chunkRead) <= chunkRead
      ensures chunkReading == old(chunkReading) + 1
    {
      hide Tables, Live, Honoured, Lawful, InUse;
      chunkReading := chunkReading + 1;
      var chunkId := chunkReading;
      AwaitSlot(chunkId);
      posted := chunkId;
      RecordPost();
    }

    /** The chunk is on its way. */
    ghost method RecordPost()
      requires Loaded() && Current(trace) && Honoured() && Lawful() && 0 <= posted == chunkReading
      requires MemoryAfter(trace) == device && LastApplied(trace) == applied && LastPosted(trace) + 1 == posted
      requires Looks(trace) == looks
      modifies this`trace
      ensures Opened() && Worked(old(trace), trace)
    {
      hide Safe, LiveFrom, Honoured, Lawful;
      PrefetchInOrder(RingSizes(), tensors, chunks, currentTensorIndex, currentTensorIndex);
      assert (trace + [Moment(Posted(posted), device)])[..|trace|] == trace;
      CurrentHeld();
      Record(Posted(posted));
    }

    /** Waits until the chunk fits in the window. */
    method AwaitSlot(chunkId: int)
      requires Opened() && chunkId == chunkReading == posted + 1
      modifies this`applied, this`device, this`trace, this`chunkRead
      ensures Worked(old(trace), trace)
      ensures Opened() && old(applied) <= applied && chunkId - chunkRead <= Window(ioDepth)
      ensures chunkRead == Max(old(chunkRead), Max(chunkId - 1024, chunkId - ioDepth))
    {
      var waitChunkId := Max(chunkId - MAX_PREFETCH_CHUNKS, chunkId - ioDepth);
      if waitChunkId >= 0 {
        var r := WaitReadChunk(waitChunkId);
        assert r == Ok(());
      }
    }

    method Step()
      requires Valid() && chunkReading < tensors[currentTensorIndex].prefetchChunk
      modifies this`applied, this`device, this`trace, this`chunkRead, this`chunkReading, this`posted
      ensures Worked(old(trace), trace)
      ensures Valid() && old(applied) <= applied && old(chunkRead) <= chunkRead
      ensures chunkReading == old(chunkReading) + 1 && chunkRead == applied
    {
      hide Worked, Honoured, Lawful, Live, Current;
      PostReadChunk();
      ghost var posting := trace;
      PollReadChunk();
      WorkedOn(old(trace), posting, trace);
    }

    /** What is left to prefetch for the current tensor. */
    ghost function Left(): int
      reads this`tensors, this`currentTensorIndex, this`chunkReading
    {
      if currentTensorIndex < |tensors| then tensors[currentTensorIndex].prefetchChunk - chunkReading else 0
    }

    /** Neither exception of `can_step` is possible. */
    method CanStep() returns (r: LoaderResult<bool>)
      requires Fresh() || Valid()
      ensures r == Ok(Left() > 0)
    {
      if |tensors| == 0 {
        return Ok(false);
      }
      if currentTensorIndex >= |tensors| {
        return Err(CurrentTensorOutOfRange);
      }
      var prefetch := tensors[currentTensorIndex].prefetchChunk;
      if chunkReading > prefetch {
        return Err(ReadingBeyondPrefetch);
      }
      return Ok(chunkReading < prefetch);
    }

    /** One turn of prefetching between two requests: the current tensor stays in memory. */
    method TryStep()
      requires Valid()
      modifies this`applied, this`device, this`trace, this`chunkRead, this`chunkReading, this`posted
      ensures Worked(old(trace), trace)
      ensures Valid() && old(applied) <= applied && old(chunkRead) <= chunkRead == applied
      ensures chunkReading ==
        old(chunkReading) + if old(chunkReading) < tensors[currentTensorIndex].prefetchChunk then 1 else 0
      ensures old(tensors[currentTensorIndex].lastChunk <= chunkRead) ==> Holds(currentTensorIndex, device)
    {
      var can := CanStep();
      if can.value {
        Step();
      } else {
        PollReadChunk();
      }
      CurrentHeld();
    }

    /** A tensor whose last chunk has been reaped is in memory as long as it is current. */
    lemma CurrentHeld()
      requires Loaded()
      ensures var t := tensors[currentTensorIndex]; t.lastChunk <= chunkRead ==> HoldsTensor(content, t, device)
    {
      var t := tensors[currentTensorIndex];
      if t.lastChunk <= chunkRead {
        assert LiveAt(RingSizes(), content, tensors, chunks, currentTensorIndex, applied, device);
        LiveComplete(RingSizes(), content, chunks, t, applied, device);
      }
    }

    /** Prefetches until the chunk has been reaped. It throws exactly when the chunk lies beyond the current tensor's
        prefetch chunk. */
    method WaitStep(chunkId: int) returns (r: LoaderResult<()>)
      requires Valid()
      modifies this`applied, this`device, this`trace, this`chunkRead, this`chunkReading, this`posted
      ensures Worked(old(trace), trace)
      ensures Valid() && old(chunkRead) <= chunkRead
      ensures r == if chunkId <= tensors[currentTensorIndex].prefetchChunk then Ok(()) else Err(ChunkIdOutOfRange)
      ensures r.Ok? ==> chunkId <= chunkRead
      ensures chunkId <= old(chunkRead) ==> chunkReading == old(chunkReading) && chunkRead == old(chunkRead)
    {
      hide Tables, Live, Honoured, Lawful, LastIsNow, InUse;
      while chunkRead < chunkId
        invariant Worked(old(trace), trace)
        invariant Valid() && old(chunkRead) <= chunkRead
        invariant chunkId <= old(chunkRead) ==> chunkReading == old(chunkReading) && chunkRead == old(chunkRead)
        decreases tensors[currentTensorIndex].prefetchChunk - chunkReading, chunkId - chunkRead
      {
        r := WaitTurn(chunkId);
        if r.Err? {
          return;
        }
      }
      return Ok(());
    }

    /** One iteration of `wait_step`. */
    method WaitTurn(chunkId: int) returns (r: LoaderResult<()>)
      requires Valid() && chunkRead < chunkId
      modifies this`applied, this`device, this`trace, this`chunkRead, this`chunkReading, this`posted
      ensures Worked(old(trace), trace)
      ensures Valid() && old(chunkRead) <= chunkRead && old(chunkReading) <= chunkReading
      ensures old(Left()) > 0 ==> chunkReading == old(chunkReading) + 1 && chunkRead == applied
      ensures old(Left()) == 0 ==> chunkReading == old(chunkReading) && (r.Ok? ==> chunkRead == chunkId)
      ensures r.Err? <==> old(Left()) == 0 && chunkReading < chunkId
      ensures r.Err? ==> r.error == ChunkIdOutOfRange
    {
      var can := CanStep();
      if can.value {
        Step();
        return Ok(());
      }
      r := WaitReadChunk(chunkId);
    }

    /** Makes the tensor current, waits for it and returns its address in the device buffer. */
    method GetTensorPtr(index: nat) returns (r: LoaderResult<int>)
      requires Valid() && InUse(trace).None?
      modifies this`currentTensorIndex, this`applied, this`device, this`trace, this`chunkRead, this`chunkReading,
               this`posted
      ensures Valid() && Worked(old(trace), trace)
      ensures r == Reply(old(currentTensorIndex), index)
      ensures index >= |tensors| ==> r == Err(TensorIndexOutOfRange)
      ensures index < |tensors| && index < old(currentTensorIndex) ==> r == Err(TensorOutOfOrder)
      ensures old(currentTensorIndex) <= index < |tensors| ==>
        r == if tensors[index].lastChunk <= tensors[index].prefetchChunk then Ok(tensors[index].deviceOffset)
             else Err(ChunkIdOutOfRange)
      ensures r.Ok? ==>
        && currentTensorIndex == index
        && tensors[index].lastChunk <= chunkRead
        && Holds(index, device)
      ensures index >= |tensors| || index < old(currentTensorIndex) ==> currentTensorIndex == old(currentTensorIndex)
    {
      if index >= |tensors| {
        return Err(TensorIndexOutOfRange);
      }
      if index < currentTensorIndex {
        return Err(TensorOutOfOrder);
      }
      PrefetchInOrder(RingSizes(), tensors, chunks, currentTensorIndex, index);
      currentTensorIndex := index;
      var tensor := tensors[currentTensorIndex];
      var w := WaitStep(tensor.lastChunk);
      if w.Err? {
        return Err(w.error);
      }
      CurrentHeld();
      return Ok(tensors[index].deviceOffset);
    }

    /** What a request gets when `current` is the tensor handed out last. */
    function Reply(current: nat, index: nat): LoaderResult<int>
      reads this`tensors
    {
      if index >= |tensors| then Err(TensorIndexOutOfRange)
      else if index < current then Err(TensorOutOfOrder)
      else if tensors[index].lastChunk > tensors[index].prefetchChunk then Err(ChunkIdOutOfRange)
      else Ok(tensors[index].deviceOffset)
    }

    ghost predicate Holds(index: nat, m: Memory)
      reads this`tensors
    {
      index < |tensors| && HoldsTensor(content, tensors[index], m)
    }

    /** The replies to the first requests; only the last one may be an error. */
    ghost predicate Replied(start: nat, requests: seq<nat>, replies: seq<LoaderResult<int>>)
      reads this`tensors
    {
      && |replies| <= |requests|
      && (forall i | 0 <= i < |replies| ::
            replies[i] == Reply(if i == 0 then start else requests[i - 1], requests[i]))
      && (forall i | 0 <= i < |replies| - 1 :: replies[i].Ok?)
    }

    /** Between these moments one request has been taken and answered. If it has been answered with a tensor, one more
        chunk has been posted since, unless nothing was left to prefetch; an exception ends everything. */
    ghost predicate Answering(past: seq<Moment>, n: nat, p: nat)
      requires n < |past|
      reads this`tensors
    {
      && n + 1 < p < |past| && past[n + 1].event.Taken? && past[p].event.Answered?
      && Served(past[..n + 1], past[..p + 1], past[n + 1].event.request, past[p].event.reply)
      && Worked(past[..p + 1], past)
      && var index, reading := past[p].event.index, LastPosted(past[..p]);
      && if past[p].event.reply.Ok? then
           && index < |tensors|
           && LastPosted(past) == reading + if reading < tensors[index].prefetchChunk then 1 else 0
         else
           |past| == p + 1
    }

    /** What the iteration that began at moment n has done. If no request was waiting and something was left to prefetch
        for the tensor handed out last, it has posted the next chunk and no more; otherwise it has taken one request. */
    ghost predicate Iterated(past: seq<Moment>, n: nat, from: nat, first: nat)
      requires n < |past| && past[n].event.Looked?
      reads this`tensors
    {
      var current, reading := Handed(past[..n], from, first), LastPosted(past[..n]);
      && current < |tensors|
      && if reading < tensors[current].prefetchChunk && !past[n].event.waiting then
           Worked(past[..n + 1], past) && LastPosted(past) == reading + 1
         else
           exists p :: Answering(past, n, p)
    }

    /** Since moment `from` the trace consists of such iterations. */
    ghost predicate Iterations(past: seq<Moment>, from: nat, first: nat)
      reads this`tensors
    {
      && (from < |past| ==> past[from].event.Looked?)
      && forall n: nat, m: nat | from <= n && NextLook(past, n, m) :: Iterated(past[..m], n, from, first)
    }

    /** `run` on a sequence of GET_TENSOR_PTR requests that arrive at any time: prefetch while there is something to
        prefetch and nothing to answer. An exception ends it. That every tensor handed out stays in device memory until
        the next request is part of Valid(): see `HeldUntilNextRequest`. */
    method Run(requests: seq<nat>) returns (replies: seq<LoaderResult<int>>)
      requires Valid()
      modifies this`currentTensorIndex, this`applied, this`device, this`trace, this`chunkRead, this`chunkReading,
               this`posted, this`looks
      ensures Valid()
      ensures Replied(old(currentTensorIndex), requests, replies)
      ensures |replies| == |requests| || (replies != [] && replies[|replies| - 1].Err?)
      ensures Grew(old(trace), trace, Dialogue(requests, replies))
      ensures Iterations(trace, |old(trace)|, old(currentTensorIndex)) && LastPosted(trace) == chunkReading
    {
      hide Iterated, Tables, Counters, Live, Current, Honoured, Lawful, Dialogue, Calls, InUse;
      replies := [];
      StartServing(currentTensorIndex, requests);
      while |replies| < |requests|
        invariant Serving(old(currentTensorIndex), old(trace), requests, replies)
        decreases |requests| - |replies|, Left()
      {
        replies := Iterate(old(currentTensorIndex), old(trace), requests, replies);
        if replies != [] && replies[|replies| - 1].Err? {
          return;
        }
      }
    }

    /** If no request was waiting, one is taken only when nothing is left to prefetch for the tensor handed out last;
        until then every iteration posts the next chunk. */
    lemma RequestIsDue(from: nat, first: nat, n: nat)
      requires Iterations(trace, from, first) && from <= n && n + 1 < |trace|
      requires trace[n].event == Looked(false) && trace[n + 1].event.Taken?
      ensures var current := Handed(trace[..n], from, first);
        current < |tensors| && tensors[current].prefetchChunk <= LastPosted(trace[..n])
    {
      var m := NextLookAfter(trace, n);
      var past := trace[..m];
      assert Iterated(past, n, from, first) && past[..n] == trace[..n];
      assert past[n + 1] == trace[n + 1];
    }

    /** Every iteration that finds no request waiting and something to prefetch posts exactly the next chunk. */
    lemma IdlePrefetches(from: nat, first: nat, n: nat, m: nat)
      requires Iterations(trace, from, first) && from <= n && NextLook(trace, n, m) && trace[n].event == Looked(false)
      ensures var current, reading := Handed(trace[..n], from, first), LastPosted(trace[..n]);
        && current < |tensors|
        && (reading < tensors[current].prefetchChunk ==>
              LastPosted(trace[..m]) == reading + 1 && Handed(trace[..m], from, first) == current)
    {
      var past := trace[..m];
      assert Iterated(past, n, from, first) && past[..n] == trace[..n];
      if LastPosted(trace[..n]) < tensors[Handed(trace[..n], from, first)].prefetchChunk {
        assert past[..n + 1][..n] == past[..n];
        WorkedHanded(past[..n + 1], past, from, first);
      }
    }

    /** Between a tensor's reply and the next iteration one more chunk is posted, unless nothing is left to prefetch for
        that tensor. */
    lemma ReplyPrefetches(from: nat, first: nat, n: nat, p: nat, m: nat)
      requires Iterations(trace, from, first) && from <= n < p < m && NextLook(trace, n, m)
      requires trace[p].event.Answered? && trace[p].event.reply.Ok?
      ensures var index, reading := trace[p].event.index, LastPosted(trace[..p]);
        && index < |tensors|
        && LastPosted(trace[..m]) == reading + if reading < tensors[index].prefetchChunk then 1 else 0
    {
      hide LastPosted, Handed;
      var past := trace[..m];
      assert Iterated(past, n, from, first) && past[p] == trace[p];
      if q: nat :| Answering(past, n, q) {
        OneReply(past, n, q, p);
        assert past[..p] == trace[..p];
      }
    }

    /** Between two iterations of `run`. */
    ghost predicate Serving(
        first: nat, start: seq<Moment>, requests: seq<nat>, replies: seq<LoaderResult<int>>)
      reads this
    {
      && Valid() && Replied(first, requests, replies)
      && currentTensorIndex == (if replies == [] then first else requests[|replies| - 1])
      && (replies != [] ==> replies[|replies| - 1].Ok?)
      && Grew(start, trace, Dialogue(requests, replies))
      && Iterations(trace, |start|, first) && Handed(trace, |start|, first) == currentTensorIndex
    }

    lemma StartServing(first: nat, requests: seq<nat>)
      requires Valid() && first == currentTensorIndex
      ensures Serving(first, trace, requests, [])
    {
      assert trace[..|trace|] == trace && Calls(trace) + [] == Calls(trace);
    }

    /** One iteration of `run`. */
    method Iterate(
        ghost first: nat, ghost start: seq<Moment>, requests: seq<nat>, replies: seq<LoaderResult<int>>)
      returns (answered: seq<LoaderResult<int>>)
      requires Serving(first, start, requests, replies) && |replies| < |requests|
      modifies this`currentTensorIndex, this`applied, this`device, this`trace, this`chunkRead, this`chunkReading,
               this`posted, this`looks
      ensures Valid() && Replied(first, requests, answered) && Grew(start, trace, Dialogue(requests, answered))
      ensures Iterations(trace, |start|, first)
      ensures if answered == replies then 0 <= Left() < old(Left()) else |answered| == |replies| + 1
      ensures answered == [] || answered[|answered| - 1].Ok? ==> Serving(first, start, requests, answered)
    {
      ghost var before := trace;
      assert LastPosted(before) == chunkReading && |replies| <= |requests| && |start| <= |before|;
      hide Iterated, Iterations, Worked, Served, Dialogue, Replied, Opened, InUse, LastPosted, Calls, Handed;
      var can := CanStep();
      var waiting := Look();
      LookGrew(before, trace);
      assert Dialogue(requests, replies) + [] == Dialogue(requests, replies);
      GrewOn(start, before, trace, Dialogue(requests, replies), []);
      if !can.value || waiting {
        var r := AnswerNext(first, start, requests, |replies|, replies, before);
        answered := replies + [r];
      } else {
        answered := replies;
        PrefetchOne(first, start, requests, replies, before);
      }
    }

    /** Within an iteration, after the look. */
    ghost predicate Looking(
        first: nat, start: seq<Moment>, requests: seq<nat>, replies: seq<LoaderResult<int>>, before: seq<Moment>)
      reads this
    {
      && Valid() && Replied(first, requests, replies)
      && currentTensorIndex == (if replies == [] then first else requests[|replies| - 1])
      && (replies != [] ==> replies[|replies| - 1].Ok?)
      && |start| <= |before| && |trace| == |before| + 1 && trace[..|before|] == before && trace[|before|].event.Looked?
      && Grew(start, trace, Dialogue(requests, replies))
      && Iterations(before, |start|, first) && Handed(before, |start|, first) == currentTensorIndex
      && LastPosted(before) == chunkReading
    }

    /** Takes and answers a request, and prefetches one chunk more. */
    method AnswerNext(
        ghost first: nat, ghost start: seq<Moment>, requests: seq<nat>, next: nat,
        ghost replies: seq<LoaderResult<int>>, ghost before: seq<Moment>)
      returns (r: LoaderResult<int>)
      requires next == |replies| < |requests| && Looking(first, start, requests, replies, before)
      requires Left() > 0 ==> trace[|before|].event.waiting
      modifies this`currentTensorIndex, this`applied, this`device, this`trace, this`chunkRead, this`chunkReading,
               this`posted
      ensures Valid() && Replied(first, requests, replies + [r])
      ensures Grew(start, trace, Dialogue(requests, replies + [r])) && Iterations(trace, |start|, first)
      ensures r.Ok? ==> Serving(first, start, requests, replies + [r])
    {
      hide Iterated, Iterations, Served, Tables, Live, Honoured, Lawful, Dialogue, Replied, Current, Calls;
      ghost var looked := trace;
      r := Serve(requests[next]);
      ghost var served := trace;
      RepliedPush(first, requests, replies, r);
      DialoguePush(requests, replies, r);
      GrewOn(start, looked, served, Dialogue(requests, replies), [Taken(requests[next]), Answered(requests[next], r)]);
      if r.Ok? {
        TryStep();
        WorkedGrew(served, trace);
        GrewOn(start, served, trace, Dialogue(requests, replies + [r]), []);
        assert Dialogue(requests, replies + [r]) + [] == Dialogue(requests, replies + [r]);
      }
      ServedIterated(first, |start|, before, looked, served, trace, requests[next], r);
    }

    /** Prefetches one chunk. */
    method PrefetchOne(
        ghost first: nat, ghost start: seq<Moment>, ghost requests: seq<nat>, ghost replies: seq<LoaderResult<int>>,
        ghost before: seq<Moment>)
      requires Looking(first, start, requests, replies, before)
      requires Left() > 0 && !trace[|before|].event.waiting
      modifies this`applied, this`device, this`trace, this`chunkRead, this`chunkReading, this`posted
      ensures Serving(first, start, requests, replies) && Left() == old(Left()) - 1
    {
      hide Iterated, Iterations, Tables, Live, Honoured, Lawful, Dialogue, Current, Calls;
      ghost var looked := trace;
      TryStep();
      WorkedGrew(looked, trace);
      GrewOn(start, looked, trace, Dialogue(requests, replies), []);
      assert Dialogue(requests, replies) + [] == Dialogue(requests, replies);
      IdleIterated(first, |start|, before, looked, trace);
    }

    lemma RepliedPush(first: nat, requests: seq<nat>, replies: seq<LoaderResult<int>>, r: LoaderResult<int>)
      requires Replied(first, requests, replies) && |replies| < |requests|
      requires replies != [] ==> replies[|replies| - 1].Ok?
      requires r == Reply(if replies == [] then first else requests[|replies| - 1], requests[|replies|])
      ensures Replied(first, requests, replies + [r])
    {
    }

    /** `run` looks whether a request is waiting. */
    method Look() returns (waiting: bool)
      requires Valid()
      modifies this`trace, this`looks
      ensures Valid() && trace == old(trace) + [Moment(Looked(waiting), device)] && waiting == inbox(old(looks))
    {
      hide Safe, LiveFrom, Honoured, Lawful;
      waiting := inbox(looks);
      looks := looks + 1;
      assert (trace + [Moment(Looked(waiting), device)])[..|trace|] == trace;
      CurrentHeld();
      Record(Looked(waiting));
    }

    lemma IterationsPush(first: nat, from: nat, before: seq<Moment>, past: seq<Moment>)
      requires from <= |before| < |past| && past[..|before|] == before && past[|before|].event.Looked?
      requires forall k | |before| < k < |past| :: !past[k].event.Looked?
      requires Iterations(before, from, first) && Iterated(past, |before|, from, first)
      ensures Iterations(past, from, first)
    {
      hide Iterated;
      forall n: nat, m: nat | from <= n && NextLook(past, n, m) ensures Iterated(past[..m], n, from, first) {
        if m == |past| {
          assert n == |before| && past[..m] == past;
        } else {
          assert m <= |before| && past[..m] == before[..m];
          assert NextLook(before, n, m);
        }
      }
    }

    lemma IdleIterated(first: nat, from: nat, before: seq<Moment>, looked: seq<Moment>, past: seq<Moment>)
      requires from <= |before| && |looked| == |before| + 1 && looked[..|before|] == before
      requires looked[|before|].event == Looked(false) && Worked(looked, past)
      requires Iterations(before, from, first) && Handed(before, from, first) < |tensors|
      requires LastPosted(before) < tensors[Handed(before, from, first)].prefetchChunk
      requires LastPosted(past) == LastPosted(before) + 1
      ensures Iterations(past, from, first) && Handed(past, from, first) == Handed(before, from, first)
    {
      assert past[..|before|] == past[..|looked|][..|before|];
      assert past[..|before| + 1] == looked;
      assert Iterated(past, |before|, from, first);
      IterationsPush(first, from, before, past);
      WorkedHanded(looked, past, from, first);
    }

    lemma ServedIterated(
        first: nat, from: nat, before: seq<Moment>, looked: seq<Moment>, served: seq<Moment>, past: seq<Moment>,
        index: nat, r: LoaderResult<int>)
      requires from <= |before| && |looked| == |before| + 1 && looked[..|before|] == before
      requires looked[|before|].event.Looked? && Served(looked, served, index, r) && Worked(served, past)
      requires Iterations(before, from, first) && Handed(before, from, first) < |tensors|
      requires LastPosted(before) < tensors[Handed(before, from, first)].prefetchChunk
        ==> looked[|before|].event.waiting
      requires r.Ok? ==>
        && index < |tensors|
        && LastPosted(past) == LastPosted(served) + if LastPosted(served) < tensors[index].prefetchChunk then 1 else 0
      requires r.Err? ==> past == served
      ensures Iterations(past, from, first) && (r.Ok? ==> Handed(past, from, first) == index)
    {
      hide Iterations;
      IsAnswering(looked, served, past, index, r);
      assert past[..|served|] == served && served[..|looked|] == looked;
      assert past[..|before|] == past[..|served|][..|looked|][..|before|];
      NoLook(looked, served, past, index, r);
      WorkedHanded(served, past, from, first);
      hide Worked, Served, Answering, LastPosted;
      IterationsPush(first, from, before, past);
    }

    lemma IsAnswering(
        looked: seq<Moment>, served: seq<Moment>, past: seq<Moment>, index: nat, r: LoaderResult<int>)
      requires looked != [] && Served(looked, served, index, r) && Worked(served, past)
      requires r.Ok? ==>
        && index < |tensors|
        && LastPosted(past) == LastPosted(served) + if LastPosted(served) < tensors[index].prefetchChunk then 1 else 0
      requires r.Err? ==> past == served
      ensures |looked| <= |past| && Answering(past, |looked| - 1, |served| - 1)
    {
      var n, p := |looked| - 1, |served| - 1;
      assert past[..|served|] == served && served[..|looked|] == looked;
      assert past[..n + 1] == past[..|served|][..n + 1] == looked;
      assert past[p] == past[..|served|][p] && past[n + 1] == past[..|served|][n + 1];
      assert past[..p] == past[..|served|][..p];
      LastPostedReply(served);
    }

    /** Takes a request, answers it and sends the reply. */
    method Serve(index: nat) returns (r: LoaderResult<int>)
      requires Valid()
      modifies this`currentTensorIndex, this`applied, this`device, this`trace, this`chunkRead, this`chunkReading,
               this`posted
      ensures Valid()
      ensures r == Reply(old(currentTensorIndex), index) && (r.Ok? ==> currentTensorIndex == index)
      ensures Grew(old(trace), trace, [Taken(index), Answered(index, r)]) && Served(old(trace), trace, index, r)
    {
      ghost var before := trace;
      RecordTaken(index);
      ghost var taken := trace;
      r := GetTensorPtr(index);
      ghost var waited := trace;
      RecordReply(index, r);
      ServedIs(before, taken, waited, trace, index, r);
    }

    ghost method RecordTaken(index: nat)
      requires Valid()
      modifies this`trace
      ensures Valid() && InUse(trace).None? && trace == old(trace) + [Moment(Taken(index), device)]
    {
      Record(Taken(index));
    }

    ghost method RecordReply(index: nat, r: LoaderResult<int>)
      requires Valid()
      requires r.Ok? ==>
        && index == currentTensorIndex && tensors[index].lastChunk <= chunkRead && Holds(index, device)
        && r.value == tensors[index].deviceOffset
      modifies this`trace
      ensures Valid() && trace == old(trace) + [Moment(Answered(index, r), device)]
    {
      Record(Answered(index, r));
    }

    /** From the moment that a tensor is handed out to the next request, device memory holds it at the address given. */
    lemma HeldUntilNextRequest(i: nat, j: nat)
      requires Valid() && i <= j < |trace|
      requires trace[i].event.Answered? && trace[i].event.reply.Ok?
      requires forall k | i < k <= j :: !trace[k].event.Taken? && !trace[k].event.Answered?
      ensures Holds(trace[i].event.index, trace[j].memory)
      ensures trace[i].event.reply.value == tensors[trace[i].event.index].deviceOffset
    {
      InUseStays(trace, i, j);
      assert HonouredAt(trace[..j + 1]) && LawfulAt(trace[..i + 1]);
    }
  }

  lemma InUseStays(trace: seq<Moment>, i: nat, j: nat)
    requires i <= j < |trace| && trace[i].event.Answered? && trace[i].event.reply.Ok?
    requires forall k | i < k <= j :: !trace[k].event.Taken? && !trace[k].event.Answered?
    ensures InUse(trace[..j + 1]) == Some(trace[i].event.index)
  {
    assert trace[..j + 1][..j] == trace[..j];
    if i < j {
      InUseStays(trace, i, j - 1);
    }
  }

  /** After OPEN, a request in order for a non-empty tensor is never refused. */
  lemma ReplyIsAddress(loader: Loader, entries: seq<Entry>, current: nat, index: nat)
    requires loader.RingSizes().Valid() && WellFormed(entries) && AllRoomy(loader.RingSizes(), entries)
    requires loader.tensors == Layout(loader.RingSizes(), entries).tensors
    requires current <= index < |loader.tensors| && loader.tensors[index].size > 0
    ensures loader.Reply(current, index) == Ok(loader.tensors[index].deviceOffset)
  {
    LayoutTensors(loader.RingSizes(), entries);
    LastBeforePrefetch(loader.RingSizes(), entries, index);
  }

  /** After OPEN, a request in order is answered exactly if the tensor's last chunk is emitted in the tensor's own pass
      over the ring, or in the next pass and in front of the tensor. Only empty tensors can fail this. */
  lemma ReplyIff(loader: Loader, entries: seq<Entry>, current: nat, index: nat)
    requires loader.RingSizes().Valid() && WellFormed(entries)
    requires loader.tensors == Layout(loader.RingSizes(), entries).tensors
    requires loader.chunks == Layout(loader.RingSizes(), entries).chunks
    requires current <= index < |loader.tensors|
    ensures var k, t := LayoutPasses(loader.RingSizes(), entries), loader.tensors[index];
      && |k.tensors| == |loader.tensors| && |k.chunks| == |loader.chunks| && 0 <= t.lastChunk <= |loader.chunks|
      && (loader.Reply(current, index).Ok? <==>
            && t.lastChunk < |loader.chunks|
            && (|| k.chunks[t.lastChunk] == k.tensors[index]
                || (&& k.chunks[t.lastChunk] == k.tensors[index] + 1
                    && PaddedEnd(loader.RingSizes(), loader.chunks[t.lastChunk]) <= t.deviceOffset)))
  {
    RequestIff(loader.RingSizes(), entries, index);
  }

  /** The padding that `init_buffer` adds is enough for every tensor. */
  lemma ArgsAreRoomy(args: OpenArgs, ring: Ring)
    requires args.Valid() && ring.Valid()
    requires ring.bufferSize >= args.bufferSize
      + 3 * (FIRST_TENSOR_ALIGNMENT + ring.threadAlignment + ring.worldChunkAlignment)
    ensures AllRoomy(ring, args.entries)
  {
  }

  lemma SizesAreValid(threadChunkSize: nat, threadAlignment: nat, numThreads: nat, worldSize: nat)
    requires threadChunkSize > 0 && threadAlignment > 0 && numThreads > 0 && worldSize > 0
    requires threadChunkSize % threadAlignment == 0
    ensures var wca, wcs := threadAlignment * numThreads * worldSize, threadChunkSize * numThreads * worldSize;
      wca > 0 && wcs > 0 && wca % threadAlignment == 0 && wcs % wca == 0
  {
    var n := numThreads * worldSize;
    assert threadAlignment * numThreads * worldSize == threadAlignment * n == n * threadAlignment;
    MultipleMod(n, threadAlignment);
    var k := threadChunkSize / threadAlignment;
    assert threadChunkSize == k * threadAlignment;
    assert threadChunkSize * numThreads * worldSize == (k * threadAlignment) * n == k * (threadAlignment * n);
    assert threadAlignment * n > 0;
    MultipleMod(k, threadAlignment * n);
  }

  lemma LayoutNotEmpty(ring: Ring, entries: seq<Entry>)
    requires ring.Valid() && WellFormed(entries) && AllRoomy(ring, entries)
    ensures |Layout(ring, entries).tensors| > 0
  {
    LastChunksExist(ring, entries);
  }
}
