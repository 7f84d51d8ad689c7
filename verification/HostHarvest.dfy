/** The capacity of the read queues, and the loops that wait for completion events (csrc/loader_io_aio.cpp:110-126,
    csrc/loader_io_uring.cpp:324-342), on the runs of HostMachine. */
module HostHarvest {
  import opened RoundMath
  import opened DeviceMemory
  import opened HostReads
  import opened HostMachine

  // ----- capacity

  lemma {:induction false} SameChunkCount(s: set<Read>, c: nat, n: nat)
    requires forall r | r in s :: r.chunk == c && r.thread < n
    ensures |s| <= n
  {
    if n > 0 {
      SameChunkCount(s - {Read(c, n - 1)}, c, n - 1);
    } else {
      assert s == {};
    }
  }

  lemma {:induction false} RangeCount(s: set<Read>, lo: nat, hi: nat, n: nat)
    requires lo <= hi && forall r | r in s :: lo <= r.chunk < hi && r.thread < n
    ensures |s| <= (hi - lo) * n
  {
    if lo < hi {
      var last := set r | r in s && r.chunk == hi - 1;
      RangeCount(s - last, lo, hi - 1, n);
      SameChunkCount(last, hi - 1, n);
      assert s == (s - last) + last;
      assert (hi - lo) * n == (hi - 1 - lo) * n + n;
    } else {
      assert s == {};
    }
  }

  /** No more reads are outstanding than the contexts, events and rings of the backends are made for. */
  lemma WithinCapacity(u: Setup, states: seq<State>, i: nat)
    requires u.Valid() && Run(u, states) && i < |states|
    ensures |states[i].pending| <= Window(u.ioDepth) * u.shape.numThreads <= u.ioDepth * u.shape.numThreads
  {
    RunKeeps(u, states, i);
    hide Arrived;
    var v, n := states[i], u.shape.numThreads;
    forall r | r in v.pending.Keys ensures v.copied + 1 <= r.chunk < v.posted + 1 && r.thread < n {
      assert Current(u, v, r);
      ReadsAtMostThreads(u, r.chunk);
    }
    RangeCount(v.pending.Keys, v.copied + 1, v.posted + 1, n);
    assert |v.pending| == |v.pending.Keys|;
    CapacityBound(v.posted - v.copied, u.ioDepth, n);
  }

  lemma CapacityBound(inFlight: nat, ioDepth: nat, n: nat)
    requires inFlight <= Window(ioDepth)
    ensures inFlight * n <= Window(ioDepth) * n <= ioDepth * n
  {
    MulLe(inFlight, Window(ioDepth), n);
    MulLe(Window(ioDepth), ioDepth, n);
  }

  // ----- the harvest loop

  /** The reads in one of the stages. */
  function At(v: State, stages: set<Stage>): set<Read> {
    set r | r in v.pending && v.pending[r] in stages
  }

  /** What is left to do until all reads posted so far have been retired. */
  function Outstanding(v: State): nat {
    |At(v, {Prepared})| + |At(v, {Prepared, Submitted})| + |At(v, {Prepared, Submitted, Completed})|
  }

  predicate Reading(step: Step) {
    step.Submit? || step.Complete? || step.Retire?
  }

  lemma SetLess(a: set<Read>, b: set<Read>)
    requires a <= b
    ensures |a| <= |b| && (a != b ==> |a| < |b|)
  {
    assert b == a + (b - a);
    if a != b {
      assert b - a != {};
    }
  }

  /** Each of these steps uses up some of it. */
  lemma OutstandingFalls(u: Setup, v: State, w: State, step: Step)
    requires u.Valid() && Next(u, v, w, step) && Reading(step)
    ensures Outstanding(w) < Outstanding(v)
  {
    hide Filled;
    var r := step.read;
    SetLess(At(w, {Prepared}), At(v, {Prepared}));
    SetLess(At(w, {Prepared, Submitted}), At(v, {Prepared, Submitted}));
    SetLess(At(w, {Prepared, Submitted, Completed}), At(v, {Prepared, Submitted, Completed}));
    match step
    case Submit(_) => assert r in At(v, {Prepared}) && r !in At(w, {Prepared});
    case Complete(_, _) => assert r in At(v, {Prepared, Submitted}) && r !in At(w, {Prepared, Submitted});
    case Retire(_) =>
      assert r in At(v, {Prepared, Submitted, Completed}) && r !in At(w, {Prepared, Submitted, Completed});
  }

  /** What the host buffer holds when the read has brought its bytes. */
  function FilledBy(u: Setup, r: Read, before: Memory): (after: Memory)
    requires u.Valid() && r.chunk < |u.chunks| && r.thread < u.shape.numThreads
    ensures Filled(u, r, before, after)
  {
    ReadInSlot(u, r);
    var op, size := u.ReadOf(r.chunk, r.thread), u.ThreadSize(r.chunk, r.thread);
    a =>
      if op.buffer <= a < op.buffer + size then u.content(op.fileIndex, op.fileOffset + (a - op.buffer)) else before(a)
  }

  /** While the loop of a chunk runs, one of the chunk's own reads can move on, whatever the other chunks' reads do: the
      loop never waits for events that cannot come. */
  lemma HarvestGoesOn(u: Setup, states: seq<State>, i: nat) returns (step: Step, w: State)
    requires u.Valid() && Run(u, states) && i < |states|
    requires var v := states[i]; -1 <= v.copied < v.posted < |v.unfinished| && v.unfinished[v.copied + 1] > 0
    ensures Next(u, states[i], w, step) && Reading(step) && step.read.chunk == states[i].copied + 1
    ensures Outstanding(w) < Outstanding(states[i])
  {
    RunKeeps(u, states, i);
    var v, c := states[i], states[i].copied + 1;
    var t :| t in Waiting(u, v, c);
    var r := Read(c, t);
    ReadsAtMostThreads(u, c);
    match v.pending[r] {
      case Prepared =>
        step, w := Submit(r), v.(pending := v.pending[r := Submitted]);
      case Submitted =>
        var host := FilledBy(u, r, v.host);
        step, w := Complete(r, host), v.(pending := v.pending[r := Completed], host := host);
      case Completed =>
        step := Retire(r);
        w := v.(pending := v.pending - {r}, unfinished := v.unfinished[c := v.unfinished[c] - 1]);
    }
    OutstandingFalls(u, v, w, step);
  }

  /** The chunk numbers that completion events carry. */
  function ChunksOf(events: seq<Read>): (chunks: seq<nat>)
    ensures |chunks| == |events| && forall k | 0 <= k < |events| :: chunks[k] == events[k].chunk
  {
    if events == [] then [] else ChunksOf(events[..|events| - 1]) + [events[|events| - 1].chunk]
  }

  ghost predicate Distinct(events: seq<Read>) {
    forall k, l | 0 <= k < l < |events| :: events[k] != events[l]
  }

  lemma CountAtMost(s: seq<nat>, x: nat)
    ensures multiset(s)[x] <= |s|
  {
    if s != [] {
      CountAtMost(s[..|s| - 1], x);
      assert s == s[..|s| - 1] + [s[|s| - 1]];
    }
  }

  /** What retiring these events does to the state. */
  ghost predicate Retired(v: State, w: State, events: seq<Read>) {
    && w.pending == v.pending - (set r | r in events)
    && w.copied == v.copied && w.posted == v.posted && |w.unfinished| == |v.unfinished|
    && forall c | 0 <= c < |v.unfinished| :: w.unfinished[c] + multiset(ChunksOf(events))[c] == v.unfinished[c]
  }

  function AfterRetire(v: State, r: Read): State
    requires r.chunk < |v.unfinished|
  {
    v.(pending := v.pending - {r}, unfinished := v.unfinished[r.chunk := v.unfinished[r.chunk] - 1])
  }

  lemma RetiredNone(v: State)
    ensures Retired(v, v, [])
  {
    assert v.pending - (set r | r in []) == v.pending;
  }

  lemma ChunksPush(before: seq<Read>, r: Read, c: nat)
    ensures multiset(ChunksOf(before + [r]))[c] == multiset(ChunksOf(before))[c] + if c == r.chunk then 1 else 0
  {
    assert (before + [r])[..|before|] == before;
    assert ChunksOf(before + [r]) == ChunksOf(before) + [r.chunk];
  }

  lemma PendingPush(pending: map<Read, Stage>, before: seq<Read>, r: Read)
    ensures pending - (set q | q in before + [r]) == pending - (set q | q in before) - {r}
  {
    assert (set q | q in before + [r]) == (set q | q in before) + {r};
  }

  lemma RetiredPush(v: State, w: State, before: seq<Read>, r: Read)
    requires Retired(v, w, before) && r.chunk < |w.unfinished|
    ensures Retired(v, AfterRetire(w, r), before + [r])
  {
    hide ChunksOf;
    PendingPush(v.pending, before, r);
    forall c | 0 <= c < |v.unfinished|
      ensures AfterRetire(w, r).unfinished[c] + multiset(ChunksOf(before + [r]))[c] == v.unfinished[c]
    {
      ChunksPush(before, r, c);
    }
  }

  /** A batch of at most unfinished_cnt events of completed reads, of any chunks, is a sequence of Retire steps, and
      lowers the counts as `RetireEvents` does. */
  lemma {:induction false} RetireIsSteps(u: Setup, v: State, events: seq<Read>) returns (states: seq<State>)
    requires u.Valid() && Inv(u, v) && v.copied < v.posted && |events| <= v.unfinished[v.copied + 1]
    requires Distinct(events) && forall r | r in events :: r in v.pending && v.pending[r] == Completed
    ensures |states| == |events| + 1 && states[0] == v
    ensures forall k, l | 0 <= k < |events| && l == k + 1 :: Next(u, states[k], states[l], Retire(events[k]))
    ensures Inv(u, states[|events|]) && Retired(v, states[|events|], events)
  {
    hide Inv, Next, Retired, ChunksOf;
    if events == [] {
      states := [v];
      RetiredNone(v);
    } else {
      var n := |events| - 1;
      var r, before := events[n], events[..n];
      states := RetireIsSteps(u, v, before);
      var w := states[n];
      RetireNext(u, v, w, before, r);
      NextKeeps(u, w, AfterRetire(w, r), Retire(r));
      RetiredPush(v, w, before, r);
      assert events == before + [r];
      states := states + [AfterRetire(w, r)];
    }
  }

  /** Such a batch is what `RetireEvents` may be called with. */
  lemma BatchFits(u: Setup, v: State, events: seq<Read>, c: nat)
    requires u.Valid() && Inv(u, v) && v.copied < v.posted && |events| <= v.unfinished[v.copied + 1]
    requires Distinct(events) && forall r | r in events :: r in v.pending && v.pending[r] == Completed
    ensures c < |v.unfinished| ==> multiset(ChunksOf(events))[c] <= v.unfinished[c]
    ensures forall k | k in ChunksOf(events) :: k < |v.unfinished|
  {
    hide ChunksOf, Arrived;
    var states := RetireIsSteps(u, v, events);
    if c < |v.unfinished| {
      assert states[|events|].unfinished[c] == |Waiting(u, states[|events|], c)|;
    }
    forall k | k in ChunksOf(events) ensures k < |v.unfinished| {
      var l: nat :| l < |events| && ChunksOf(events)[l] == k;
      assert events[l] in events && Current(u, v, events[l]);
    }
  }

  lemma RetireNext(u: Setup, v: State, w: State, before: seq<Read>, r: Read)
    requires u.Valid() && Inv(u, v) && v.copied < v.posted && |before| < v.unfinished[v.copied + 1]
    requires r !in before && r in v.pending && v.pending[r] == Completed && Retired(v, w, before)
    ensures r.chunk < |w.unfinished| && Next(u, w, AfterRetire(w, r), Retire(r))
  {
    hide Arrived, Waiting, ChunksOf;
    CountAtMost(ChunksOf(before), v.copied + 1);
    assert Current(u, v, r);
  }
}
