/** Several ranks running the same layout at their own speed.

    A rank copies its own slice of the next chunk into its device buffer; the all-gather of a chunk takes place once
    every rank has copied its slice, and gives every rank the padded chunk (csrc/loader_common.cpp:439-457,
    csrc/loader_io_inmem.cpp:68-91). Copies are made in chunk order and so are gathers; a copy may overtake gathers
    of chunks that lie elsewhere in the buffer. */
module Cluster {
  import opened RoundMath
  import opened RingLayout
  import opened RingSafety
  import opened RingRun
  import opened RingTheorems
  import opened DeviceMemory
  import opened Slices

  datatype World = World(
    shape: Shape, bufferSize: nat, ioDepth: nat, tensors: seq<Tensor>, chunks: seq<Chunk>, content: Content)
  {
    function RingSizes(): Ring {
      RingOf(shape, bufferSize)
    }

    /** What `open` establishes on every rank. */
    ghost predicate Valid() {
      && shape.Valid() && RingSizes().Valid() && ioDepth > 0
      && tensors != [] && Safe(RingSizes(), tensors, chunks)
    }
  }

  datatype RankState = RankState(
    current: nat,     // the tensor in use
    posted: int,      // last chunk posted by the loader
    copied: int,      // last chunk whose slice has been copied to the device
    reaped: int,      // last chunk reaped by the loader
    memory: Memory)

  datatype State = State(gathered: int, ranks: seq<RankState>)

  datatype Step =
    | Get(rank: nat, tensor: nat)
    | Post(rank: nat)
    | Copy(rank: nat, memory: Memory)
    | Gather(memories: seq<Memory>)
    | Reap(rank: nat)

  function SliceStart(w: World, c: Chunk, rank: nat): int
    requires w.shape.Valid()
  {
    c.deviceOffset + w.shape.RankOffset(c.size, rank)
  }

  /** Address a is in the rank's slice of the chunk, without the padding. */
  predicate OwnByte(w: World, c: Chunk, rank: nat, a: int)
    requires w.shape.Valid()
  {
    SliceStart(w, c, rank) <= a < SliceStart(w, c, rank) + w.shape.RankSize(c.size, rank)
  }

  function FileByte(w: World, c: Chunk, a: int): byte {
    w.content(c.fileIndex, a - c.deviceOffset + c.fileOffset)
  }

  ghost predicate Copied(w: World, c: Chunk, rank: nat, before: Memory, after: Memory)
    requires w.shape.Valid()
  {
    && (forall a :: !OwnByte(w, c, rank, a) ==> after(a) == before(a))
    && (forall a | OwnByte(w, c, rank, a) :: after(a) == FileByte(w, c, a))
  }

  /** In-place all-gather: part q of the padded chunk comes from rank q. */
  ghost predicate Gathered(w: World, c: Chunk, ranks: seq<RankState>, before: Memory, after: Memory)
    requires w.Valid()
  {
    && (forall a :: !Touches(w.RingSizes(), c, a) ==> after(a) == before(a))
    && (forall a, q | 0 <= q < |ranks| && InPart(w, c, q, a) :: after(a) == ranks[q].memory(a))
  }

  predicate InPart(w: World, c: Chunk, q: nat, a: int)
    requires w.shape.Valid()
  {
    SliceStart(w, c, q) <= a < SliceStart(w, c, q) + w.shape.PaddedRank(c.size)
  }

  ghost predicate Init(w: World, v: State) {
    && v.gathered == -1 && |v.ranks| == w.shape.worldSize
    && forall r | r in v.ranks :: r.current == 0 && r.posted == r.copied == r.reaped == -1
  }

  ghost predicate Next(w: World, v: State, v': State, step: Step)
    requires w.Valid()
  {
    var n := v.gathered + 1;
    match step
    case Get(r, k) =>
      && r < |v.ranks| && v.ranks[r].current <= k < |w.tensors|
      && v' == v.(ranks := v.ranks[r := v.ranks[r].(current := k)])
    case Post(r) =>
      && r < |v.ranks| && v.ranks[r].current < |w.tensors|
      && var s := v.ranks[r];
      && s.posted < w.tensors[s.current].prefetchChunk
      && s.posted + 1 - Window(w.ioDepth) <= s.reaped
      && v' == v.(ranks := v.ranks[r := s.(posted := s.posted + 1)])
    case Copy(r, m) =>
      && r < |v.ranks| && 0 <= n
      && var s := v.ranks[r];
      && var d := s.copied + 1;
      && n <= d <= s.posted && d < |w.chunks|
      && (forall k | n <= k < d :: Apart(w.RingSizes(), w.chunks[k], w.chunks[d]))
      && Copied(w, w.chunks[d], r, s.memory, m)
      && v' == v.(ranks := v.ranks[r := s.(copied := d, memory := m)])
    case Gather(ms) =>
      && 0 <= n < |w.chunks| && |ms| == |v.ranks|
      && (forall r | 0 <= r < |v.ranks| :: n <= v.ranks[r].copied)
      && (forall r | 0 <= r < |v.ranks| :: Gathered(w, w.chunks[n], v.ranks, v.ranks[r].memory, ms[r]))
      && v' == State(n, seq(|ms|, r requires 0 <= r < |ms| => v.ranks[r].(memory := ms[r])))
    case Reap(r) =>
      && r < |v.ranks|
      && var s := v.ranks[r];
      && s.reaped < v.gathered && s.reaped < s.posted
      && v' == v.(ranks := v.ranks[r := s.(reaped := s.reaped + 1)])
  }

  // ----- the invariant

  ghost predicate RankInv(w: World, gathered: int, rank: nat, s: RankState)
    requires w.Valid()
  {
    && s.current < |w.tensors|
    && -1 <= s.reaped <= gathered <= s.copied <= s.posted <= w.tensors[s.current].prefetchChunk < |w.chunks|
    && s.posted - s.reaped <= Window(w.ioDepth)
    && LiveFrom(w.RingSizes(), w.content, w.tensors, w.chunks, s.current, gathered, s.memory)
    && (forall k | gathered < k <= s.copied :: HasOwn(w, w.chunks[k], rank, s.memory))
    && (forall k, l | gathered < k < l <= s.copied :: Apart(w.RingSizes(), w.chunks[k], w.chunks[l]))
  }

  /** The rank's slice of the chunk is in memory. */
  ghost predicate HasOwn(w: World, c: Chunk, rank: nat, m: Memory)
    requires w.shape.Valid()
  {
    forall a | OwnByte(w, c, rank, a) :: m(a) == FileByte(w, c, a)
  }

  ghost predicate Inv(w: World, v: State)
    requires w.Valid()
  {
    && |v.ranks| == w.shape.worldSize
    && forall r | 0 <= r < |v.ranks| :: RankInv(w, v.gathered, r, v.ranks[r])
  }

  lemma InitInv(w: World, v: State)
    requires w.Valid() && Init(w, v)
    ensures Inv(w, v)
  {
    forall r | 0 <= r < |v.ranks| ensures RankInv(w, v.gathered, r, v.ranks[r]) {
      assert v.ranks[r] in v.ranks;
      PrefetchGrows(w, 0, 0);
      LiveAtStart(w.RingSizes(), w.content, w.tensors, w.chunks, v.ranks[r].memory);
    }
  }

  /** The parts of the ranks tile the padded chunk, and what they hold of the chunk itself are the own bytes. */
  lemma PartOf(w: World, c: Chunk, a: int) returns (q: nat)
    requires w.Valid() && Touches(w.RingSizes(), c, a)
    ensures q < w.shape.worldSize && InPart(w, c, q, a)
    ensures a < c.deviceOffset + c.size ==> OwnByte(w, c, q, a)
  {
    PaddedSizes(w.shape, c.size);
    w.shape.UnitPositive();
    if c.size == 0 {
      RoundUpMultiple(0, w.shape.Unit());
    }
    q := Locate(a - c.deviceOffset, w.shape.PaddedRank(c.size), w.shape.worldSize);
  }

  lemma OwnIsTouched(w: World, c: Chunk, rank: nat, a: int)
    requires w.Valid() && OwnByte(w, c, rank, a)
    ensures Touches(w.RingSizes(), c, a)
  {
    w.shape.UnitPositive();
    RoundUpIs(c.size, w.shape.Unit());
  }

  /** The gather of a chunk is what the chunk is meant to do to device memory, on every rank. */
  lemma GatherWrites(w: World, v: State, c: Chunk, before: Memory, after: Memory)
    requires w.Valid() && |v.ranks| == w.shape.worldSize
    requires forall q, a | 0 <= q < |v.ranks| && OwnByte(w, c, q, a) :: v.ranks[q].memory(a) == FileByte(w, c, a)
    requires Gathered(w, c, v.ranks, before, after)
    ensures Written(w.RingSizes(), w.content, c, before, after)
  {
    w.shape.UnitPositive();
    RoundUpIs(c.size, w.shape.Unit());
    forall a | c.deviceOffset <= a < c.deviceOffset + c.size ensures after(a) == FileByte(w, c, a) {
      var q := PartOf(w, c, a);
      assert after(a) == v.ranks[q].memory(a);
    }
  }

  /** What a chunk elsewhere changes leaves the rank's slice as it is. */
  lemma OwnUndisturbed(w: World, c: Chunk, d: Chunk, rank: nat, m: Memory, m': Memory)
    requires w.Valid() && HasOwn(w, c, rank, m) && (Apart(w.RingSizes(), c, d) || Apart(w.RingSizes(), d, c))
    requires forall a :: !Touches(w.RingSizes(), d, a) ==> m'(a) == m(a)
    ensures HasOwn(w, c, rank, m')
  {
    forall a | OwnByte(w, c, rank, a) ensures m'(a) == FileByte(w, c, a) {
      OwnIsTouched(w, c, rank, a);
      assert !Touches(w.RingSizes(), d, a);
    }
  }

  lemma CopyKeeps(w: World, v: State, r: nat, m: Memory)
    requires w.Valid() && Inv(w, v) && r < |v.ranks|
    requires var d := v.ranks[r].copied + 1;
      && 0 <= v.gathered + 1 <= d <= v.ranks[r].posted && d < |w.chunks|
      && (forall k | v.gathered + 1 <= k < d :: Apart(w.RingSizes(), w.chunks[k], w.chunks[d]))
      && Copied(w, w.chunks[d], r, v.ranks[r].memory, m)
    ensures RankInv(w, v.gathered, r, v.ranks[r].(copied := v.ranks[r].copied + 1, memory := m))
  {
    var s, d := v.ranks[r], v.ranks[r].copied + 1;
    assert RankInv(w, v.gathered, r, s);
    forall a | !Touches(w.RingSizes(), w.chunks[d], a) ensures m(a) == s.memory(a) {
      if OwnByte(w, w.chunks[d], r, a) {
        OwnIsTouched(w, w.chunks[d], r, a);
      }
    }
    forall j: nat | s.current <= j < |w.tensors|
      ensures LiveAt(w.RingSizes(), w.content, w.tensors, w.chunks, j, v.gathered, m)
    {
      assert LiveAt(w.RingSizes(), w.content, w.tensors, w.chunks, j, v.gathered, s.memory);
      PrefetchGrows(w, s.current, j);
      LiveUnderScribble(w.RingSizes(), w.content, w.chunks, w.tensors[j], v.gathered, d, s.memory, m);
    }
    forall k | v.gathered < k < d ensures HasOwn(w, w.chunks[k], r, m) {
      OwnUndisturbed(w, w.chunks[k], w.chunks[d], r, s.memory, m);
    }
  }

  lemma PrefetchGrows(w: World, i: nat, j: nat)
    requires w.Valid() && i <= j < |w.tensors|
    ensures -1 <= w.tensors[i].prefetchChunk <= w.tensors[j].prefetchChunk < |w.chunks|
  {
    PrefetchInOrder(w.RingSizes(), w.tensors, w.chunks, i, j);
  }

  lemma GatherKeeps(w: World, v: State, r: nat, m: Memory)
    requires w.Valid() && Inv(w, v) && r < |v.ranks| && 0 <= v.gathered + 1 < |w.chunks|
    requires forall q | 0 <= q < |v.ranks| :: v.gathered + 1 <= v.ranks[q].copied
    requires Gathered(w, w.chunks[v.gathered + 1], v.ranks, v.ranks[r].memory, m)
    ensures RankInv(w, v.gathered + 1, r, v.ranks[r].(memory := m))
    ensures Written(w.RingSizes(), w.content, w.chunks[v.gathered + 1], v.ranks[r].memory, m)
  {
    var s, n := v.ranks[r], v.gathered + 1;
    forall q, a | 0 <= q < |v.ranks| && OwnByte(w, w.chunks[n], q, a)
      ensures v.ranks[q].memory(a) == FileByte(w, w.chunks[n], a)
    {
      assert RankInv(w, v.gathered, q, v.ranks[q]);
      assert HasOwn(w, w.chunks[n], q, v.ranks[q].memory);
    }
    GatherWrites(w, v, w.chunks[n], s.memory, m);
    assert RankInv(w, v.gathered, r, s);
    forall j: nat | s.current <= j < |w.tensors|
      ensures LiveAt(w.RingSizes(), w.content, w.tensors, w.chunks, j, n, m)
    {
      assert LiveAt(w.RingSizes(), w.content, w.tensors, w.chunks, j, v.gathered, s.memory);
      PrefetchGrows(w, s.current, j);
      LiveAfterWrite(w.RingSizes(), w.content, w.chunks, w.tensors[j], v.gathered, s.memory, m);
    }
    forall k | n < k <= s.copied ensures HasOwn(w, w.chunks[k], r, m) {
      OwnUndisturbed(w, w.chunks[k], w.chunks[n], r, s.memory, m);
    }
  }

  lemma NextKeeps(w: World, v: State, v': State, step: Step)
    requires w.Valid() && Inv(w, v) && Next(w, v, v', step)
    ensures Inv(w, v')
  {
    forall r | 0 <= r < |v'.ranks| ensures RankInv(w, v'.gathered, r, v'.ranks[r]) {
      assert RankInv(w, v.gathered, r, v.ranks[r]);
      match step
      case Get(q, k) =>
        PrefetchGrows(w, v.ranks[q].current, k);
      case Copy(q, m) =>
        if q == r { CopyKeeps(w, v, r, m); }
      case Gather(ms) =>
        GatherKeeps(w, v, r, ms[r]);
      case _ =>
    }
  }

  // ----- whole runs

  ghost predicate Follows(w: World, v: State, v': State)
    requires w.Valid()
  {
    exists step :: Next(w, v, v', step)
  }

  ghost predicate Behavior(w: World, states: seq<State>)
    requires w.Valid()
  {
    && states != [] && Init(w, states[0])
    && forall i, j | 0 <= i < |states| && 0 <= j < |states| && j == i + 1 :: Follows(w, states[i], states[j])
  }

  lemma {:induction false} RunKeeps(w: World, states: seq<State>, i: nat)
    requires w.Valid() && Behavior(w, states) && i < |states|
    ensures Inv(w, states[i])
  {
    if i == 0 {
      InitInv(w, states[0]);
    } else {
      RunKeeps(w, states, i - 1);
      assert Follows(w, states[i - 1], states[i]);
      var step :| Next(w, states[i - 1], states[i], step);
      NextKeeps(w, states[i - 1], states[i], step);
    }
  }

  /** In every state of every run: a rank that has reaped the last chunk of its current tensor holds that tensor in
      device memory, whatever the other ranks have done in the meantime. */
  lemma HeldOnEveryRank(w: World, states: seq<State>, i: nat, r: nat)
    requires w.Valid() && Behavior(w, states) && i < |states| && r < |states[i].ranks|
    ensures var s := states[i].ranks[r];
      && s.current < |w.tensors|
      && (w.tensors[s.current].lastChunk <= s.reaped ==> HoldsTensor(w.content, w.tensors[s.current], s.memory))
  {
    RunKeeps(w, states, i);
    var v, s := states[i], states[i].ranks[r];
    assert RankInv(w, v.gathered, r, s);
    if w.tensors[s.current].lastChunk <= s.reaped {
      assert LiveAt(w.RingSizes(), w.content, w.tensors, w.chunks, s.current, v.gathered, s.memory);
      LiveComplete(w.RingSizes(), w.content, w.chunks, w.tensors[s.current], v.gathered, s.memory);
    }
  }

  /** Right after a gather every rank holds the bytes of the file for the whole chunk. */
  lemma GatherAgrees(w: World, states: seq<State>, i: nat, ms: seq<Memory>, r: nat, o: nat)
    requires w.Valid() && Behavior(w, states) && i + 1 < |states| && Next(w, states[i], states[i + 1], Gather(ms))
    requires r < |states[i + 1].ranks| && o < w.chunks[states[i + 1].gathered].size
    ensures var c := w.chunks[states[i + 1].gathered];
      states[i + 1].ranks[r].memory(c.deviceOffset + o) == w.content(c.fileIndex, c.fileOffset + o)
  {
    RunKeeps(w, states, i);
    GatherKeeps(w, states[i], r, ms[r]);
  }

  // ----- progress

  /** What is left to do on a rank, and on all of the first ones. */
  function RankLeft(w: World, s: RankState): int {
    3 * |w.chunks| - s.posted - s.copied - s.reaped
  }

  function RanksLeft(w: World, ranks: seq<RankState>): int {
    if ranks == [] then 0 else RanksLeft(w, ranks[..|ranks| - 1]) + RankLeft(w, ranks[|ranks| - 1])
  }

  function Left(w: World, v: State): int {
    RanksLeft(w, v.ranks) + |w.chunks| - v.gathered
  }

  lemma RanksLeftChange(w: World, ranks: seq<RankState>, r: nat, s: RankState)
    requires r < |ranks|
    ensures RanksLeft(w, ranks[r := s]) + RankLeft(w, ranks[r]) == RanksLeft(w, ranks) + RankLeft(w, s)
  {
    var n := |ranks| - 1;
    if r < n {
      RanksLeftChange(w, ranks[..n], r, s);
      assert ranks[r := s][..n] == ranks[..n][r := s];
    } else {
      assert ranks[r := s][..n] == ranks[..n];
    }
  }

  lemma RanksLeftSame(w: World, a: seq<RankState>, b: seq<RankState>)
    requires |a| == |b| && forall r | 0 <= r < |a| :: RankLeft(w, a[r]) == RankLeft(w, b[r])
    ensures RanksLeft(w, a) == RanksLeft(w, b)
  {
    if a != [] {
      RanksLeftSame(w, a[..|a| - 1], b[..|b| - 1]);
    }
  }

  lemma RanksLeftIsNat(w: World, ranks: seq<RankState>)
    requires forall s | s in ranks :: RankLeft(w, s) >= 0
    ensures RanksLeft(w, ranks) >= 0
  {
    if ranks != [] {
      RanksLeftIsNat(w, ranks[..|ranks| - 1]);
    }
  }

  lemma LeftIsNat(w: World, v: State)
    requires w.Valid() && Inv(w, v)
    ensures Left(w, v) >= 0
  {
    forall s | s in v.ranks ensures RankLeft(w, s) >= 0 {
      var r: nat :| r < |v.ranks| && v.ranks[r] == s;
      assert RankInv(w, v.gathered, r, v.ranks[r]);
    }
    RanksLeftIsNat(w, v.ranks);
    w.shape.UnitPositive();
    assert RankInv(w, v.gathered, 0, v.ranks[0]);
  }

  /** Every step other than a request uses up one unit, so that only finitely many can follow one another. */
  lemma StepsRunOut(w: World, v: State, v': State, step: Step)
    requires w.Valid() && Inv(w, v) && Next(w, v, v', step) && !step.Get?
    ensures 0 <= Left(w, v') == Left(w, v) - 1
  {
    NextKeeps(w, v, v', step);
    LeftIsNat(w, v');
    match step
    case Post(r) => RanksLeftChange(w, v.ranks, r, v'.ranks[r]);
    case Copy(r, m) => RanksLeftChange(w, v.ranks, r, v'.ranks[r]);
    case Reap(r) => RanksLeftChange(w, v.ranks, r, v'.ranks[r]);
    case Gather(ms) => RanksLeftSame(w, v.ranks, v'.ranks);
  }

  /** Every rank may prefetch up to this chunk at least. */
  ghost predicate Allowed(w: World, v: State, chunk: int) {
    forall q | 0 <= q < |v.ranks| && v.ranks[q].current < |w.tensors| ::
      chunk <= w.tensors[v.ranks[q].current].prefetchChunk
  }

  /** As long as one rank waits for a chunk that all ranks may prefetch, some rank (or the gather) can take a step other
      than a request, which brings the end nearer. */
  lemma NoDeadlock(w: World, states: seq<State>, i: nat, r: nat, chunk: int) returns (step: Step, v': State)
    requires w.Valid() && Behavior(w, states) && i < |states| && r < |states[i].ranks|
    requires states[i].ranks[r].reaped < chunk && Allowed(w, states[i], chunk)
    ensures Next(w, states[i], v', step) && !step.Get?
    ensures 0 <= Left(w, v') < Left(w, states[i])
  {
    RunKeeps(w, states, i);
    step, v' := AnyStep(w, states[i], r, chunk);
    StepsRunOut(w, states[i], v', step);
  }

  lemma AnyStep(w: World, v: State, r: nat, chunk: int) returns (step: Step, v': State)
    requires w.Valid() && Inv(w, v) && r < |v.ranks| && v.ranks[r].reaped < chunk && Allowed(w, v, chunk)
    ensures Next(w, v, v', step) && !step.Get?
  {
    assert RankInv(w, v.gathered, r, v.ranks[r]);
    if v.ranks[r].reaped < v.gathered {
      step := Reap(r);
      v' := v.(ranks := v.ranks[r := v.ranks[r].(reaped := v.ranks[r].reaped + 1)]);
    } else if q: nat :| q < |v.ranks| && v.ranks[q].copied == v.gathered {
      step, v' := OwnStep(w, v, q);
    } else {
      step, v' := GatherStep(w, v);
    }
  }

  /** A rank that has copied no more than has been gathered reaps, posts its next chunk or copies its part. */
  lemma OwnStep(w: World, v: State, r: nat) returns (step: Step, v': State)
    requires w.Valid() && Inv(w, v) && r < |v.ranks| && v.ranks[r].copied == v.gathered
    requires v.ranks[r].current < |w.tensors| ==> v.gathered < w.tensors[v.ranks[r].current].prefetchChunk
    ensures Next(w, v, v', step) && !step.Get?
  {
    var s := v.ranks[r];
    assert RankInv(w, v.gathered, r, s);
    PrefetchGrows(w, s.current, s.current);
    if s.reaped < v.gathered {
      step := Reap(r);
      v' := v.(ranks := v.ranks[r := s.(reaped := s.reaped + 1)]);
    } else if s.posted == s.copied {
      step := Post(r);
      v' := v.(ranks := v.ranks[r := s.(posted := s.posted + 1)]);
    } else {
      var c := w.chunks[v.gathered + 1];
      var m: Memory := a => if OwnByte(w, c, r, a) then FileByte(w, c, a) else s.memory(a);
      step := Copy(r, m);
      v' := v.(ranks := v.ranks[r := s.(copied := s.copied + 1, memory := m)]);
    }
  }

  lemma GatherStep(w: World, v: State) returns (step: Step, v': State)
    requires w.Valid() && Inv(w, v)
    requires forall r | 0 <= r < |v.ranks| :: v.ranks[r].copied != v.gathered
    ensures step.Gather? && Next(w, v, v', step)
  {
    var n := v.gathered + 1;
    forall r | 0 <= r < |v.ranks| ensures n <= v.ranks[r].copied && 0 <= n < |w.chunks| {
      assert RankInv(w, v.gathered, r, v.ranks[r]);
      PrefetchGrows(w, v.ranks[r].current, v.ranks[r].current);
    }
    assert n <= v.ranks[0].copied;
    var c := w.chunks[n];
    var pr := w.shape.PaddedRank(c.size);
    var ms := seq(|v.ranks|, r requires 0 <= r < |v.ranks| =>
      (a: int) => if Touches(w.RingSizes(), c, a) && pr > 0 && 0 <= (a - c.deviceOffset) / pr < |v.ranks|
        then v.ranks[(a - c.deviceOffset) / pr].memory(a) else v.ranks[r].memory(a));
    forall r | 0 <= r < |v.ranks| ensures Gathered(w, c, v.ranks, v.ranks[r].memory, ms[r]) {
      forall a, q | 0 <= q < |v.ranks| && InPart(w, c, q, a) ensures ms[r](a) == v.ranks[q].memory(a) {
        PartIsTouched(w, c, q, a);
      }
    }
    step := Gather(ms);
    v' := State(n, seq(|ms|, r requires 0 <= r < |ms| => v.ranks[r].(memory := ms[r])));
  }

  lemma PartIsTouched(w: World, c: Chunk, q: nat, a: int)
    requires w.Valid() && q < w.shape.worldSize && InPart(w, c, q, a)
    ensures Touches(w.RingSizes(), c, a)
    ensures (a - c.deviceOffset) / w.shape.PaddedRank(c.size) == q
  {
    PaddedSizes(w.shape, c.size);
    var pr, x := w.shape.PaddedRank(c.size), a - c.deviceOffset;
    MulLe(q + 1, w.shape.worldSize, pr);
    assert (q + 1) * pr == pr * q + pr;
    DivModUnique(x, pr, q, x - pr * q);
  }

  /** What all ranks may prefetch they may still prefetch after any step. */
  lemma AllowedStays(w: World, v: State, v': State, step: Step, chunk: int)
    requires w.Valid() && Inv(w, v) && Next(w, v, v', step) && Allowed(w, v, chunk)
    ensures Allowed(w, v', chunk)
  {
    forall q | 0 <= q < |v'.ranks| && v'.ranks[q].current < |w.tensors|
      ensures chunk <= w.tensors[v'.ranks[q].current].prefetchChunk
    {
      assert RankInv(w, v.gathered, q, v.ranks[q]);
      PrefetchGrows(w, v.ranks[q].current, v'.ranks[q].current);
    }
  }

  /** Conversely: while some rank may not prefetch past what has been gathered, nothing is gathered. */
  lemma NoGatherPast(w: World, v: State, v': State, ms: seq<Memory>, q: nat)
    requires w.Valid() && Inv(w, v) && Next(w, v, v', Gather(ms)) && q < |v.ranks|
    ensures v.ranks[q].current < |w.tensors| && v.gathered < w.tensors[v.ranks[q].current].prefetchChunk
  {
    assert RankInv(w, v.gathered, q, v.ranks[q]);
  }

  /** So in no run does any rank get ahead of what another rank's current tensor allows, however long it waits. */
  lemma NoneAhead(w: World, states: seq<State>, i: nat, q: nat, r: nat)
    requires w.Valid() && Behavior(w, states) && i < |states| && q < |states[i].ranks| && r < |states[i].ranks|
    ensures var v := states[i];
      && v.ranks[q].current < |w.tensors|
      && v.ranks[r].reaped <= v.gathered <= w.tensors[v.ranks[q].current].prefetchChunk
  {
    RunKeeps(w, states, i);
    assert RankInv(w, states[i].gathered, q, states[i].ranks[q]);
    assert RankInv(w, states[i].gathered, r, states[i].ranks[r]);
  }

  /** No step other than a request can be taken. */
  ghost predicate Settled(w: World, v: State)
    requires w.Valid()
  {
    forall v', step :: Next(w, v, v', step) ==> step.Get?
  }

  /** When everything other than requests has run out, each rank has reaped exactly the chunks that every rank may
      prefetch. So a rank that waits for its tensor gets it if and only if the tensor's last chunk is among them, and
      otherwise waits until a rank that holds an earlier tensor takes another request. */
  lemma ServedIff(w: World, states: seq<State>, i: nat, r: nat, chunk: int)
    requires w.Valid() && Behavior(w, states) && i < |states| && r < |states[i].ranks|
    requires Settled(w, states[i])
    ensures chunk <= states[i].ranks[r].reaped <==> Allowed(w, states[i], chunk)
  {
    RunKeeps(w, states, i);
    var v := states[i];
    assert RankInv(w, v.gathered, r, v.ranks[r]);
    if chunk <= v.ranks[r].reaped {
      forall q | 0 <= q < |v.ranks| && v.ranks[q].current < |w.tensors|
        ensures chunk <= w.tensors[v.ranks[q].current].prefetchChunk
      {
        assert RankInv(w, v.gathered, q, v.ranks[q]);
      }
    } else if Allowed(w, v, chunk) {
      var step, v' := AnyStep(w, v, r, chunk);
    }
  }

  /** A rank on no later tensor than any other is not held up by them: without any further request it is served. */
  lemma EarliestIsServed(w: World, states: seq<State>, i: nat, r: nat)
    requires w.Valid() && Behavior(w, states) && i < |states| && r < |states[i].ranks|
    requires forall q | 0 <= q < |states[i].ranks| :: states[i].ranks[r].current <= states[i].ranks[q].current
    requires Settled(w, states[i])
    ensures var s := states[i].ranks[r];
      && s.current < |w.tensors|
      && s.reaped == w.tensors[s.current].prefetchChunk
  {
    RunKeeps(w, states, i);
    var v, s := states[i], states[i].ranks[r];
    assert RankInv(w, v.gathered, r, s);
    forall q | 0 <= q < |v.ranks| && v.ranks[q].current < |w.tensors|
      ensures w.tensors[s.current].prefetchChunk <= w.tensors[v.ranks[q].current].prefetchChunk
    {
      PrefetchGrows(w, s.current, v.ranks[q].current);
    }
    ServedIff(w, states, i, r, w.tensors[s.current].prefetchChunk);
  }

  /** Steps other than requests do run out. */
  ghost predicate Quiet(w: World, v: State, v': State)
    requires w.Valid()
  {
    exists step :: Next(w, v, v', step) && !step.Get?
  }

  lemma {:induction false} QuietRunsOut(w: World, states: seq<State>, i: nat, j: nat)
    requires w.Valid() && Behavior(w, states) && i <= j < |states|
    requires forall k, l | i <= k < j && l == k + 1 :: Quiet(w, states[k], states[l])
    ensures 0 <= Left(w, states[j]) == Left(w, states[i]) - (j - i)
  {
    RunKeeps(w, states, j);
    LeftIsNat(w, states[j]);
    if i < j {
      QuietRunsOut(w, states, i, j - 1);
      RunKeeps(w, states, j - 1);
      assert Quiet(w, states[j - 1], states[j]);
      var step :| Next(w, states[j - 1], states[j], step) && !step.Get?;
      StepsRunOut(w, states[j - 1], states[j], step);
    }
  }

  /** `open` on every rank establishes the world that the runs assume. */
  lemma OpenedWorld(shape: Shape, bufferSize: nat, ioDepth: nat, entries: seq<Entry>, content: Content)
    requires shape.Valid() && ioDepth > 0 && WellFormed(entries)
    requires var ring := RingOf(shape, bufferSize);
      ring.Valid() && AllRoomy(ring, entries)
    ensures var ring := RingOf(shape, bufferSize);
      World(shape, bufferSize, ioDepth, Layout(ring, entries).tensors, Layout(ring, entries).chunks, content).Valid()
  {
    var ring := RingOf(shape, bufferSize);
    LayoutSafe(ring, entries);
    LastChunksExist(ring, entries);
  }
}
