/** The four kinds of threads behind the in-memory backend (csrc/loader_io_inmem.cpp:40-98): the loader submits copy
    tasks to the workers, a cuda task and a wait task per chunk; the cuda thread reaps the copy tasks, the wait thread
    reaps the cuda task, and the loader reaps the wait task. All queues are bounded and first-in first-out. */
module PipelineMachine {

  /** Where a copy task is; tasks are numbered in submission order. */
  datatype Stage = Queued | Running | Produced | Cached | Reaped

  datatype WaitPhase = Free | ForCuda | Synced

  /** tasks[c]: how many threads have a part of chunk c to copy. */
  datatype Setup = Setup(numThreads: nat, window: nat, capacity: nat, tasks: seq<nat>)
  {
    /** At most numThreads tasks per chunk; no more chunks in flight than a queue holds. */
    predicate Valid() {
      && numThreads > 0 && 0 < window <= capacity
      && forall c | 0 <= c < |tasks| :: tasks[c] <= numThreads
    }

    /** The number of the first task of chunk c. */
    function First(c: nat): nat
      requires c <= |tasks|
    {
      if c == 0 then 0 else First(c - 1) + tasks[c - 1]
    }
  }

  datatype State = State(
    posting: bool,        // the loader is inside post_read_chunk for chunk `posted`
    posted: nat,          // chunks completely posted
    stages: seq<Stage>,   // the submitted copy tasks
    head: nat,            // the task at the head of the workers' queue, which holds all from there on
    results: seq<nat>,    // the workers' result queue: tasks in the order in which they were finished
    at: nat,              // the copy task that the cuda thread reaps next
    cudaSubmitted: nat, cudaTaken: nat, cudaDone: nat, cudaReaped: nat,
    waitSubmitted: nat, waitTaken: nat, waitDone: nat, reaped: nat,
    waiting: WaitPhase)

  datatype Step =
    | BeginPost | SubmitTask | SubmitCuda | SubmitWait | ReapChunk       // loader
    | TakeTask | FinishTask(task: nat)                                  // workers
    | TakeCuda | PopToCache | ReapTask | FinishCuda                      // cuda thread
    | TakeWait | AwaitCuda | FinishWait                                  // wait thread

  function Count(s: seq<Stage>, x: Stage): nat {
    if s == [] then 0 else Count(s[..|s| - 1], x) + if s[|s| - 1] == x then 1 else 0
  }

  ghost predicate Init(v: State) {
    v == State(false, 0, [], 0, [], 0, 0, 0, 0, 0, 0, 0, 0, 0, Free)
  }

  /** The cuda thread has taken a chunk and not finished it. */
  predicate CudaBusy(v: State) {
    v.cudaDone < v.cudaTaken
  }

  /** How many tasks the workers' queue holds. */
  function Waiting(v: State): int {
    |v.stages| - v.head
  }

  /** The cuda thread waits for copy task `at`. */
  predicate Reaping(u: Setup, v: State) {
    CudaBusy(v) && v.cudaTaken <= |u.tasks| && v.at < u.First(v.cudaTaken) && v.at < |v.stages|
  }

  predicate CanStep(u: Setup, v: State, step: Step) {
    match step
    case BeginPost => !v.posting && v.posted < |u.tasks| && v.posted + 1 - v.reaped <= u.window
    case SubmitTask =>
      v.posting && v.posted < |u.tasks| && |v.stages| < u.First(v.posted + 1) && Waiting(v) < u.capacity
    case SubmitCuda =>
      && v.posting && v.posted < |u.tasks| && |v.stages| == u.First(v.posted + 1) && v.cudaSubmitted == v.posted
      && v.cudaSubmitted - v.cudaTaken < u.capacity
    case SubmitWait => v.posting && v.cudaSubmitted == v.posted + 1 && v.waitSubmitted - v.waitTaken < u.capacity
    case ReapChunk => !v.posting && v.reaped < v.waitDone
    case TakeTask => v.head < |v.stages| && Count(v.stages, Running) < u.numThreads
    case FinishTask(t) => t < |v.stages| && v.stages[t] == Running && |v.results| < u.capacity
    case TakeCuda => !CudaBusy(v) && v.cudaTaken < v.cudaSubmitted
    case PopToCache =>
      && Reaping(u, v) && v.stages[v.at] != Cached
      && v.results != [] && v.results[0] != v.at && v.results[0] < |v.stages|
    case ReapTask =>
      Reaping(u, v) && (v.stages[v.at] == Cached || (v.results != [] && v.results[0] == v.at))
    case FinishCuda =>
      && CudaBusy(v) && v.cudaTaken <= |u.tasks| && v.at == u.First(v.cudaTaken)
      && v.cudaDone - v.cudaReaped < u.capacity
    case TakeWait => v.waiting == Free && v.waitTaken < v.waitSubmitted
    case AwaitCuda => v.waiting == ForCuda && v.cudaReaped < v.cudaDone
    case FinishWait => v.waiting == Synced && v.waitDone - v.reaped < u.capacity
  }

  function After(u: Setup, v: State, step: Step): State
    requires CanStep(u, v, step)
  {
    match step
    case BeginPost => v.(posting := true)
    case SubmitTask => v.(stages := v.stages + [Queued])
    case SubmitCuda => v.(cudaSubmitted := v.cudaSubmitted + 1)
    case SubmitWait => v.(waitSubmitted := v.waitSubmitted + 1, posted := v.posted + 1, posting := false)
    case ReapChunk => v.(reaped := v.reaped + 1)
    case TakeTask => v.(stages := v.stages[v.head := Running], head := v.head + 1)
    case FinishTask(t) => v.(stages := v.stages[t := Produced], results := v.results + [t])
    case TakeCuda => v.(cudaTaken := v.cudaTaken + 1)
    case PopToCache => v.(stages := v.stages[v.results[0] := Cached], results := v.results[1..])
    case ReapTask =>
      v.(stages := v.stages[v.at := Reaped], at := v.at + 1,
         results := if v.stages[v.at] == Cached then v.results else v.results[1..])
    case FinishCuda => v.(cudaDone := v.cudaDone + 1)
    case TakeWait => v.(waitTaken := v.waitTaken + 1, waiting := ForCuda)
    case AwaitCuda => v.(cudaReaped := v.cudaReaped + 1, waiting := Synced)
    case FinishWait => v.(waitDone := v.waitDone + 1, waiting := Free)
  }

  // ----- the invariant

  function Begun(v: State): nat {
    v.posted + if v.posting then 1 else 0
  }

  /** How the four threads' counters stand to each other. */
  ghost predicate Counters(u: Setup, v: State) {
    && Begun(v) <= |u.tasks|
    && v.waitSubmitted == v.posted
    && (v.cudaSubmitted == v.posted || (v.posting && v.cudaSubmitted == v.posted + 1))
    && v.cudaReaped <= v.cudaDone <= v.cudaTaken <= v.cudaSubmitted
    && v.cudaTaken <= v.cudaDone + 1
    && v.reaped <= v.waitDone <= v.waitTaken <= v.waitSubmitted
    && v.waitTaken == v.waitDone + (if v.waiting == Free then 0 else 1)
    && v.cudaReaped == v.waitDone + (if v.waiting == Synced then 1 else 0)
    && Begun(v) <= v.reaped + u.window
  }

  /** Which chunks the submitted and the reaped copy tasks belong to. */
  ghost predicate Placed(u: Setup, v: State)
    requires Counters(u, v)
  {
    && u.First(v.cudaSubmitted) <= |v.stages| <= u.First(Begun(v))
    && u.First(v.cudaDone) <= v.at <= u.First(v.cudaTaken)
    && v.at <= |v.stages|
  }

  /** The cuda thread reaps copy tasks in submission order. */
  ghost predicate ReapedFirst(v: State) {
    forall t | 0 <= t < |v.stages| :: v.stages[t] == Reaped <==> t < v.at
  }

  /** The workers' queue holds the tasks from `head` on, the result queue each finished task once. */
  ghost predicate Queues(v: State) {
    && v.head <= |v.stages|
    && (forall t | 0 <= t < |v.stages| :: v.stages[t] == Queued <==> t >= v.head)
    && (forall t | t in v.results :: t < |v.stages| && v.stages[t] == Produced)
    && (forall t: nat | t < |v.stages| && v.stages[t] == Produced :: t in v.results)
    && (forall k, l | 0 <= k < l < |v.results| :: v.results[k] != v.results[l])
  }

  ghost predicate Inv(u: Setup, v: State) {
    Counters(u, v) && Placed(u, v) && ReapedFirst(v) && Queues(v)
  }

  lemma FirstMono(u: Setup, c: nat, d: nat)
    requires c <= d <= |u.tasks|
    ensures u.First(c) <= u.First(d)
  {
    if c < d {
      FirstMono(u, c, d - 1);
    }
  }

  lemma InitInv(u: Setup, v: State)
    requires u.Valid() && Init(v)
    ensures Inv(u, v)
  {
  }

  predicate LoaderStep(step: Step) {
    step.BeginPost? || step.SubmitTask? || step.SubmitCuda? || step.SubmitWait? || step.ReapChunk?
  }

  predicate TaskStep(step: Step) {
    step.TakeTask? || step.FinishTask? || step.PopToCache? || step.ReapTask?
  }

  lemma LoaderCounts(u: Setup, v: State, step: Step)
    requires Counters(u, v) && LoaderStep(step) && CanStep(u, v, step)
    ensures Counters(u, After(u, v, step))
  {
    match step
    case BeginPost =>
    case SubmitTask =>
    case SubmitCuda =>
    case SubmitWait =>
    case ReapChunk =>
  }

  lemma TaskCounts(u: Setup, v: State, step: Step)
    requires Counters(u, v) && TaskStep(step) && CanStep(u, v, step)
    ensures Counters(u, After(u, v, step))
  {
  }

  lemma OtherCounts(u: Setup, v: State, step: Step)
    requires Counters(u, v) && !LoaderStep(step) && !TaskStep(step) && CanStep(u, v, step)
    ensures Counters(u, After(u, v, step))
  {
    match step
    case TakeCuda =>
    case FinishCuda =>
    case TakeWait =>
    case AwaitCuda =>
    case FinishWait =>
  }

  lemma LoaderPlaces(u: Setup, v: State, step: Step)
    requires Inv(u, v) && LoaderStep(step) && CanStep(u, v, step) && Counters(u, After(u, v, step))
    ensures Placed(u, After(u, v, step))
  {
    match step
    case BeginPost => FirstMono(u, v.posted, v.posted + 1);
    case SubmitTask =>
    case SubmitCuda =>
    case SubmitWait =>
    case ReapChunk =>
  }

  lemma TaskPlaces(u: Setup, v: State, step: Step)
    requires Inv(u, v) && TaskStep(step) && CanStep(u, v, step) && Counters(u, After(u, v, step))
    ensures Placed(u, After(u, v, step))
  {
    hide ReapedFirst, Queues, Count;
    FirstMono(u, v.cudaTaken, v.cudaSubmitted);
    match step
    case TakeTask =>
    case FinishTask(_) =>
    case PopToCache =>
    case ReapTask =>
  }

  lemma OtherPlaces(u: Setup, v: State, step: Step)
    requires Inv(u, v) && !LoaderStep(step) && !TaskStep(step) && CanStep(u, v, step)
    requires Counters(u, After(u, v, step))
    ensures Placed(u, After(u, v, step))
  {
    match step
    case TakeCuda => FirstMono(u, v.cudaTaken, v.cudaTaken + 1);
    case FinishCuda =>
    case TakeWait =>
    case AwaitCuda =>
    case FinishWait =>
  }

  /** A task that is not reaped, or is the next one, moves on. */
  lemma ReapedMoves(v: State, w: State, t: nat)
    requires ReapedFirst(v) && v.at <= |v.stages| && t < |v.stages| && |w.stages| == |v.stages|
    requires w.stages == v.stages[t := w.stages[t]]
    requires if w.at == v.at then v.stages[t] != Reaped && w.stages[t] != Reaped
             else t == v.at && w.at == v.at + 1 && w.stages[t] == Reaped
    ensures ReapedFirst(w)
  {
  }

  lemma TaskReaps(u: Setup, v: State, step: Step)
    requires Inv(u, v) && TaskStep(step) && CanStep(u, v, step)
    ensures ReapedFirst(After(u, v, step))
  {
    hide Counters, Count, ReapedFirst;
    var w := After(u, v, step);
    match step
    case TakeTask => ReapedMoves(v, w, v.head);
    case FinishTask(t) => ReapedMoves(v, w, t);
    case PopToCache =>
      assert v.results[0] in v.results;
      ReapedMoves(v, w, v.results[0]);
    case ReapTask => ReapedMoves(v, w, v.at);
  }

  lemma OtherReaps(u: Setup, v: State, step: Step)
    requires Inv(u, v) && !TaskStep(step) && CanStep(u, v, step)
    ensures ReapedFirst(After(u, v, step)) && Queues(After(u, v, step))
  {
    hide Counters, Count;
  }

  lemma PopKeepsQueues(u: Setup, v: State)
    requires Inv(u, v) && CanStep(u, v, PopToCache)
    ensures Queues(After(u, v, PopToCache))
  {
    hide Counters, Count;
    var w, t := After(u, v, PopToCache), v.results[0];
    assert t in v.results;
    forall x: nat | x < |w.stages| && w.stages[x] == Produced ensures x in w.results {
      assert x in v.results && x != t;
    }
    forall x | x in w.results ensures x < |w.stages| && w.stages[x] == Produced {
      var k: nat :| k < |w.results| && w.results[k] == x;
      assert v.results[k + 1] == x != v.results[0] && x in v.results;
    }
  }

  lemma ReapKeepsQueues(u: Setup, v: State)
    requires Inv(u, v) && CanStep(u, v, ReapTask)
    ensures Queues(After(u, v, ReapTask))
  {
    hide Counters, Count;
    var w := After(u, v, ReapTask);
    assert v.stages[v.at] != Cached ==> v.results[0] in v.results;
    forall x: nat | x < |w.stages| && w.stages[x] == Produced ensures x in w.results {
      assert x in v.results && x != v.at;
    }
    forall x | x in w.results ensures x < |w.stages| && w.stages[x] == Produced {
      var k: nat :| k < |w.results| && w.results[k] == x;
      assert v.stages[v.at] != Cached ==> v.results[k + 1] == x != v.results[0];
      assert x in v.results;
    }
  }

  lemma FinishKeepsQueues(u: Setup, v: State, t: nat)
    requires Inv(u, v) && CanStep(u, v, FinishTask(t))
    ensures Queues(After(u, v, FinishTask(t)))
  {
    hide Counters, Count;
    var w := After(u, v, FinishTask(t));
    forall k, l | 0 <= k < l < |w.results| ensures w.results[k] != w.results[l] {
      assert v.results[k] in v.results;
    }
  }

  lemma TakeKeepsQueues(u: Setup, v: State)
    requires Inv(u, v) && CanStep(u, v, TakeTask)
    ensures Queues(After(u, v, TakeTask))
  {
    hide Counters, Placed, Count, ReapedFirst;
  }

  lemma TaskQueues(u: Setup, v: State, step: Step)
    requires Inv(u, v) && TaskStep(step) && CanStep(u, v, step)
    ensures Queues(After(u, v, step))
  {
    hide Inv, CanStep, Queues;
    match step
    case TakeTask => TakeKeepsQueues(u, v);
    case FinishTask(t) => FinishKeepsQueues(u, v, t);
    case PopToCache => PopKeepsQueues(u, v);
    case ReapTask => ReapKeepsQueues(u, v);
  }

  /** What the four threads keep: the counters in step, the tasks at their chunks, tasks reaped in order. */
  lemma StepKeeps(u: Setup, v: State, step: Step)
    requires Inv(u, v) && CanStep(u, v, step)
    ensures Inv(u, After(u, v, step))
  {
    hide CanStep, After, ReapedFirst, Queues, Counters, Placed;
    if LoaderStep(step) {
      LoaderCounts(u, v, step);
      LoaderPlaces(u, v, step);
    } else if TaskStep(step) {
      TaskCounts(u, v, step);
      TaskPlaces(u, v, step);
      TaskReaps(u, v, step);
      TaskQueues(u, v, step);
    } else {
      OtherCounts(u, v, step);
      OtherPlaces(u, v, step);
    }
    if !TaskStep(step) {
      OtherReaps(u, v, step);
    }
  }

  // ----- progress

  lemma CountUpdate(s: seq<Stage>, i: nat, y: Stage, x: Stage)
    requires i < |s|
    ensures Count(s[i := y], x) + (if s[i] == x then 1 else 0) == Count(s, x) + if y == x then 1 else 0
  {
    var n := |s| - 1;
    if i < n {
      CountUpdate(s[..n], i, y, x);
      assert s[i := y][..n] == s[..n][i := y];
    } else {
      assert s[i := y][..n] == s[..n];
    }
  }

  /** If the first `from` entries are not x, at most the others are. */
  lemma CountBound(s: seq<Stage>, x: Stage, from: nat)
    requires from <= |s| && forall i | 0 <= i < from :: s[i] != x
    ensures Count(s, x) <= |s| - from
  {
    if from < |s| {
      CountBound(s[..|s| - 1], x, from);
    } else if s != [] {
      CountBound(s[..|s| - 1], x, |s| - 1);
    }
  }

  lemma FindStage(s: seq<Stage>, x: Stage) returns (i: nat)
    requires Count(s, x) > 0
    ensures i < |s| && s[i] == x
  {
    if s[|s| - 1] == x {
      i := |s| - 1;
    } else {
      i := FindStage(s[..|s| - 1], x);
    }
  }

  lemma CountNone(s: seq<Stage>, x: Stage, i: nat)
    requires i < |s| && s[i] == x
    ensures Count(s, x) > 0
  {
    CountUpdate(s, i, x, x);
    if i < |s| - 1 {
      CountNone(s[..|s| - 1], x, i);
    }
  }

  /** If a copy task is waiting for a worker, a worker or the cuda thread can take a step. */
  lemma WorkersMove(u: Setup, v: State, t: nat) returns (step: Step)
    requires u.Valid() && Inv(u, v) && t < |v.stages| && (v.stages[t] == Queued || v.stages[t] == Running)
    requires |v.results| < u.capacity
    ensures CanStep(u, v, step) && !step.BeginPost?
  {
    if Count(v.stages, Running) > 0 {
      var r := FindStage(v.stages, Running);
      step := FinishTask(r);
    } else {
      if v.stages[t] == Running {
        CountNone(v.stages, Running, t);
      }
      step := TakeTask;
    }
  }

  /** A cuda thread that has taken a chunk can take a step, or a worker can. */
  lemma BusyCudaMoves(u: Setup, v: State) returns (step: Step)
    requires u.Valid() && Inv(u, v) && CudaBusy(v)
    ensures CanStep(u, v, step) && !step.BeginPost?
  {
    FirstMono(u, v.cudaTaken, v.cudaSubmitted);
    if v.at == u.First(v.cudaTaken) {
      step := FinishCuda;
    } else if v.stages[v.at] == Cached {
      step := ReapTask;
    } else if v.results != [] {
      assert v.results[0] in v.results;
      step := if v.results[0] == v.at then ReapTask else PopToCache;
    } else {
      step := WorkersMove(u, v, v.at);
    }
  }

  /** A loader inside post_read_chunk can take a step, or whoever it waits for can. */
  lemma PostingMoves(u: Setup, v: State) returns (step: Step)
    requires u.Valid() && Inv(u, v) && v.posting
    ensures CanStep(u, v, step) && !step.BeginPost?
  {
    if v.cudaSubmitted == v.posted + 1 {
      step := SubmitWait;
    } else if |v.stages| == u.First(v.posted + 1) {
      step := SubmitCuda;
    } else if Waiting(v) < u.capacity {
      step := SubmitTask;
    } else if CudaBusy(v) {
      step := BusyCudaMoves(u, v);
    } else if v.cudaTaken < v.cudaSubmitted {
      step := TakeCuda;
    } else {
      // the cuda thread is idle: everything outstanding belongs to the chunk being posted, fewer than numThreads tasks
      CountBound(v.stages, Running, v.at);
      step := TakeTask;
    }
  }

  /** Deadlock freedom: as long as some chunk is being posted or has not been reaped, some thread can take a step
      other than starting to post another chunk. */
  lemma NoDeadlock(u: Setup, v: State) returns (step: Step)
    requires u.Valid() && Inv(u, v) && v.reaped < Begun(v)
    ensures CanStep(u, v, step) && !step.BeginPost?
  {
    if v.posting {
      step := PostingMoves(u, v);
    } else if v.reaped < v.waitDone {
      step := ReapChunk;
    } else if v.waiting == Free {
      step := TakeWait;
    } else if v.waiting == Synced {
      step := FinishWait;
    } else if v.cudaReaped < v.cudaDone {
      step := AwaitCuda;
    } else if CudaBusy(v) {
      step := BusyCudaMoves(u, v);
    } else {
      step := TakeCuda;
    }
  }

  // ----- termination between posts

  function Rank(x: Stage): nat {
    match x case Queued => 4 case Running => 3 case Produced => 2 case Cached => 1 case Reaped => 0
  }

  function Ranks(s: seq<Stage>): nat {
    if s == [] then 0 else Ranks(s[..|s| - 1]) + Rank(s[|s| - 1])
  }

  lemma RanksUpdate(s: seq<Stage>, i: nat, y: Stage)
    requires i < |s|
    ensures Ranks(s[i := y]) + Rank(s[i]) == Ranks(s) + Rank(y)
  {
    var n := |s| - 1;
    if i < n {
      RanksUpdate(s[..n], i, y);
      assert s[i := y][..n] == s[..n][i := y];
    } else {
      assert s[i := y][..n] == s[..n];
    }
  }

  /** What is left to do for the chunks begun so far. */
  function Remaining(u: Setup, v: State): int
    requires Begun(v) <= |u.tasks|
  {
    var b := Begun(v);
    5 * (u.First(b) - |v.stages|) + Ranks(v.stages)
      + 4 * b - v.cudaSubmitted - v.cudaTaken - v.cudaDone - v.cudaReaped
      + 4 * b - v.waitSubmitted - v.waitTaken - v.waitDone - v.reaped
  }

  lemma RemainingIsNat(u: Setup, v: State)
    requires Inv(u, v)
    ensures 0 <= Remaining(u, v)
  {
  }

  lemma TasksFall(u: Setup, v: State, step: Step)
    requires TaskStep(step) && CanStep(u, v, step) && Inv(u, v)
    ensures Ranks(After(u, v, step).stages) < Ranks(v.stages) && |After(u, v, step).stages| == |v.stages|
  {
    hide Counters, Placed, Count, ReapedFirst, Ranks;
    match step
    case TakeTask => RanksUpdate(v.stages, v.head, Running);
    case FinishTask(t) => RanksUpdate(v.stages, t, Produced);
    case PopToCache =>
      assert v.results[0] in v.results;
      RanksUpdate(v.stages, v.results[0], Cached);
    case ReapTask => RanksUpdate(v.stages, v.at, Reaped);
  }

  /** A copy task moving on changes no counter that Remaining adds up. */
  lemma TaskKeepsCounts(u: Setup, v: State, step: Step)
    requires TaskStep(step) && CanStep(u, v, step) && Inv(u, v)
    ensures var w := After(u, v, step);
            && Begun(w) == Begun(v)
            && Remaining(u, w) - Ranks(w.stages) + 5 * |w.stages| == Remaining(u, v) - Ranks(v.stages) + 5 * |v.stages|
  {
    hide ReapedFirst, Queues, Placed, Count, Ranks;
    match step
    case TakeTask =>
    case FinishTask(_) =>
    case PopToCache =>
    case ReapTask =>
  }

  lemma LoaderFalls(u: Setup, v: State, step: Step)
    requires LoaderStep(step) && !step.BeginPost? && CanStep(u, v, step) && Counters(u, v)
    ensures Begun(After(u, v, step)) == Begun(v)
    ensures Remaining(u, After(u, v, step)) < Remaining(u, v)
  {
    match step
    case SubmitTask => assert After(u, v, step).stages[..|v.stages|] == v.stages;
    case SubmitCuda =>
    case SubmitWait =>
    case ReapChunk =>
  }

  lemma OtherFalls(u: Setup, v: State, step: Step)
    requires !LoaderStep(step) && !TaskStep(step) && CanStep(u, v, step) && Inv(u, v)
    ensures Begun(After(u, v, step)) == Begun(v)
    ensures Remaining(u, After(u, v, step)) < Remaining(u, v)
  {
    match step
    case TakeCuda =>
    case FinishCuda =>
    case TakeWait =>
    case AwaitCuda =>
    case FinishWait =>
  }

  /** Between two posts every step uses up some of it, so only finitely many steps can follow. */
  lemma StepsRunOut(u: Setup, v: State, step: Step)
    requires Inv(u, v) && CanStep(u, v, step) && !step.BeginPost?
    ensures Begun(After(u, v, step)) == Begun(v)
    ensures 0 <= Remaining(u, After(u, v, step)) < Remaining(u, v)
  {
    StepKeeps(u, v, step);
    RemainingIsNat(u, After(u, v, step));
    if LoaderStep(step) {
      LoaderFalls(u, v, step);
    } else if TaskStep(step) {
      TasksFall(u, v, step);
      TaskKeepsCounts(u, v, step);
    } else {
      OtherFalls(u, v, step);
    }
  }

  // ----- whole runs

  ghost predicate Run(u: Setup, states: seq<State>, steps: seq<Step>) {
    && |states| == |steps| + 1 && Init(states[0])
    && forall i, j | 0 <= i < |steps| && j == i + 1 ::
         CanStep(u, states[i], steps[i]) && states[j] == After(u, states[i], steps[i])
  }

  lemma {:induction false} RunKeeps(u: Setup, states: seq<State>, steps: seq<Step>, i: nat)
    requires u.Valid() && Run(u, states, steps) && i < |states|
    ensures Inv(u, states[i])
  {
    if i > 0 {
      RunKeeps(u, states, steps, i - 1);
      var j := i - 1;
      assert CanStep(u, states[j], steps[j]) && states[i] == After(u, states[j], steps[j]);
      StepKeeps(u, states[j], steps[j]);
    }
  }

  /** In every reachable state with an unreaped chunk some thread can go on, and it brings the end nearer. */
  lemma ReachableProgress(u: Setup, states: seq<State>, steps: seq<Step>, i: nat) returns (step: Step)
    requires u.Valid() && Run(u, states, steps) && i < |states| && states[i].reaped < Begun(states[i])
    ensures Begun(states[i]) <= |u.tasks|
    ensures CanStep(u, states[i], step) && !step.BeginPost?
    ensures Begun(After(u, states[i], step)) == Begun(states[i])
    ensures 0 <= Remaining(u, After(u, states[i], step)) < Remaining(u, states[i])
  {
    RunKeeps(u, states, steps, i);
    step := NoDeadlock(u, states[i]);
    StepsRunOut(u, states[i], step);
  }
}
