/** The executor of csrc/instant_tensor/async_executor.hpp with the driver of function_executor.hpp, as a state machine
    of one submitter, any number of workers and one reaper around two bounded FIFO queues. */
module ExecutorMachine {
  import opened Wrappers

  const STOP_REQUEST_ID: int := -1

  /** A queue item: a request, or the sentinel that ends one worker. */
  datatype Item = Task(id: int, needsResult: bool, payload: int) | Stop

  datatype Outcome = Outcome(id: int, value: int)

  /** A worker between two accesses to the queues; the driver holds at most one task. */
  datatype Worker = Idle | Loaded(task: Item) | Holding(result: Outcome) | Exited

  datatype State = State(
    tasks: seq<Item>,
    workers: seq<Worker>,
    results: seq<Outcome>,
    completed: map<int, int>,     // completed_results
    waiting: Option<int>,              // the request that the reaper is draining results for
    stops: nat,                   // sentinels pushed by stop()
    ghostly: Ghosts)

  /** History that the code does not keep. */
  datatype Ghosts = Ghosts(
    outstanding: map<int, int>,   // payloads of the requests whose results have not been reaped
    submitted: multiset<Item>,
    ran: multiset<Item>)

  datatype Setup = Setup(workers: nat, capacity: nat, work: int -> int)

  datatype Step =
    | Submit(task: Item)
    | RequestStop
    | Take(worker: nat)
    | Execute(worker: nat)
    | Deliver(worker: nat)
    | ReapCached(id: int, value: int)
    | StartReap(id: int)
    | Cache
    | KeepHead
    | ReapHead(id: int, value: int)
    | GiveUp

  ghost predicate Init(u: Setup, v: State) {
    v == State([], seq(u.workers, _ => Idle), [], map[], None, 0, Ghosts(map[], multiset{}, multiset{}))
  }

  function SetWorker(v: State, i: nat, x: Worker): State
    requires i < |v.workers|
  {
    v.(workers := v.workers[i := x])
  }

  ghost predicate Next(u: Setup, v: State, w: State, step: Step) {
    var g := v.ghostly;
    match step
    case Submit(t) =>
      // submit: refused once stop has been requested; the caller never reuses an outstanding id
      && t.Task? && t.id != STOP_REQUEST_ID && v.stops == 0 && |v.tasks| < u.capacity
      && (t.needsResult ==> t.id !in g.outstanding)
      && var outstanding := if t.needsResult then g.outstanding[t.id := t.payload] else g.outstanding;
      && w == v.(tasks := v.tasks + [t],
                 ghostly := g.(submitted := g.submitted + multiset{t}, outstanding := outstanding))
    case RequestStop =>
      && v.stops < u.workers && |v.tasks| < u.capacity
      && w == v.(tasks := v.tasks + [Stop], stops := v.stops + 1)
    case Take(i) =>
      && i < |v.workers| && v.workers[i].Idle? && v.tasks != []
      && var t := v.tasks[0];
      && w == SetWorker(v, i, if t.Stop? then Exited else Loaded(t)).(tasks := v.tasks[1..])
    case Execute(i) =>
      && i < |v.workers| && v.workers[i].Loaded? && v.workers[i].task.Task?
      && var t := v.workers[i].task;
      && w == SetWorker(v, i, if t.needsResult then Holding(Outcome(t.id, u.work(t.payload))) else Idle)
                .(ghostly := g.(ran := g.ran + multiset{t}))
    case Deliver(i) =>
      && i < |v.workers| && v.workers[i].Holding? && |v.results| < u.capacity
      && w == SetWorker(v, i, Idle).(results := v.results + [v.workers[i].result])
    case ReapCached(id, value) =>
      && v.waiting == None && id in v.completed && value == v.completed[id]
      && w == v.(completed := v.completed - {id}, ghostly := g.(outstanding := g.outstanding - {id}))
    case StartReap(id) =>
      && v.waiting == None && id in g.outstanding && id !in v.completed
      && w == v.(waiting := Some(id))
    case Cache =>
      // emplace: does not replace an entry
      && v.waiting.Some? && v.results != [] && v.results[0].id != v.waiting.value
      && var r := v.results[0];
      && w == v.(results := v.results[1..],
                 completed := if r.id in v.completed then v.completed else v.completed[r.id := r.value])
    case KeepHead =>
      // ready caches the result that it has been waiting for
      && v.waiting.Some? && v.results != [] && v.results[0].id == v.waiting.value
      && var r := v.results[0];
      && w == v.(results := v.results[1..], waiting := None,
                 completed := if r.id in v.completed then v.completed else v.completed[r.id := r.value])
    case ReapHead(id, value) =>
      && v.waiting == Some(id) && v.results != [] && v.results[0] == Outcome(id, value)
      && w == v.(results := v.results[1..], waiting := None, ghostly := g.(outstanding := g.outstanding - {id}))
    case GiveUp =>
      // try_reap and ready return when the queue is empty
      && v.waiting.Some? && v.results == []
      && w == v.(waiting := None)
  }

  // ----- sums over queues and workers

  function Sum<T, E>(s: seq<T>, f: T -> multiset<E>): multiset<E> {
    if s == [] then multiset{} else f(s[0]) + Sum(s[1..], f)
  }

  lemma SumPush<T, E>(s: seq<T>, x: T, f: T -> multiset<E>)
    ensures Sum(s + [x], f) == Sum(s, f) + f(x)
  {
    if s != [] {
      SumPush(s[1..], x, f);
      assert (s + [x])[1..] == s[1..] + [x];
    }
  }

  lemma Regroup<E>(a: multiset<E>, b: multiset<E>, c: multiset<E>, d: multiset<E>, e: multiset<E>)
    requires b + c == d + e
    ensures (a + b) + c == (a + d) + e
  {
    assert (a + b) + c == a + (b + c);
    assert (a + d) + e == a + (d + e);
  }

  lemma SumChange<T, E>(s: seq<T>, i: nat, x: T, f: T -> multiset<E>)
    requires i < |s|
    ensures Sum(s[i := x], f) + f(s[i]) == Sum(s, f) + f(x)
  {
    var t := s[i := x];
    if i > 0 {
      SumChange(s[1..], i - 1, x, f);
      assert t[1..] == s[1..][i - 1 := x] && t[0] == s[0] && s[1..][i - 1] == s[i];
      Regroup(f(s[0]), Sum(t[1..], f), f(s[i]), Sum(s[1..], f), f(x));
    } else {
      assert t[1..] == s[1..] && t[0] == x;
      assert Sum(t, f) == f(x) + Sum(s[1..], f);
    }
  }

  lemma SumChangeAt<T, E>(s: seq<T>, i: nat, x: T, f: T -> multiset<E>, e: E)
    requires i < |s|
    ensures Sum(s[i := x], f)[e] + f(s[i])[e] == Sum(s, f)[e] + f(x)[e]
  {
    SumChange(s, i, x, f);
    assert (Sum(s[i := x], f) + f(s[i]))[e] == (Sum(s, f) + f(x))[e];
  }

  lemma SumAt<T, E>(s: seq<T>, i: nat, f: T -> multiset<E>)
    requires i < |s|
    ensures f(s[i]) <= Sum(s, f)
  {
    if i > 0 {
      SumAt(s[1..], i - 1, f);
    }
  }

  // ----- where a request is

  function TaskId(t: Item): multiset<int> {
    if t.Task? && t.needsResult then multiset{t.id} else multiset{}
  }

  function WorkerId(x: Worker): multiset<int> {
    match x
    case Loaded(t) => TaskId(t)
    case Holding(r) => multiset{r.id}
    case _ => multiset{}
  }

  function ResultId(r: Outcome): multiset<int> {
    multiset{r.id}
  }

  /** How often an id is in the task queue, with the workers, in the result queue and in the cache. */
  function Located(v: State, id: int): nat {
    Sum(v.tasks, TaskId)[id] + Sum(v.workers, WorkerId)[id] + Sum(v.results, ResultId)[id]
      + if id in v.completed then 1 else 0
  }

  function LoadedTask(x: Worker): multiset<Item> {
    if x.Loaded? then multiset{x.task} else multiset{}
  }

  function ExitedMark(x: Worker): multiset<Item> {
    if x.Exited? then multiset{Stop} else multiset{}
  }

  /** How often an item is in the queue, with a worker, has been run, or was consumed by an exited worker. */
  function Accounted(v: State, t: Item): nat {
    multiset(v.tasks)[t] + Sum(v.workers, LoadedTask)[t] + v.ghostly.ran[t] + Sum(v.workers, ExitedMark)[t]
  }

  // ----- the invariant

  predicate ItemOk(o: map<int, int>, t: Item) {
    t.Task? && t.needsResult ==> t.id in o && o[t.id] == t.payload
  }

  predicate ResultOk(u: Setup, o: map<int, int>, r: Outcome) {
    r.id in o && r.value == u.work(o[r.id])
  }

  predicate WorkerOk(u: Setup, o: map<int, int>, x: Worker) {
    match x
    case Loaded(t) => ItemOk(o, t)
    case Holding(r) => ResultOk(u, o, r)
    case _ => true
  }

  /** Payloads and values belong to the ids they are stored under. */
  ghost predicate Matched(u: Setup, v: State) {
    var o := v.ghostly.outstanding;
    && (forall i | 0 <= i < |v.tasks| :: ItemOk(o, v.tasks[i]))
    && (forall i | 0 <= i < |v.workers| :: WorkerOk(u, o, v.workers[i]))
    && (forall i | 0 <= i < |v.results| :: ResultOk(u, o, v.results[i]))
    && (forall id | id in v.completed :: ResultOk(u, o, Outcome(id, v.completed[id])))
    && (v.waiting.Some? ==> v.waiting.value in o && v.waiting.value !in v.completed)
  }

  /** Sentinels are behind all tasks, and no worker has exited while tasks are queued. */
  ghost predicate StopsLast(v: State) {
    && (forall i, j | 0 <= i < j < |v.tasks| && v.tasks[i].Stop? :: v.tasks[j].Stop?)
    && (forall x | x in v.workers && x.Exited? :: forall t | t in v.tasks :: t.Stop?)
    && (v.stops == 0 ==> Stop !in v.tasks)
    && (forall x | x in v.workers && x.Loaded? :: x.task.Task?)
  }

  /** Each outstanding request is in exactly one place. */
  ghost predicate Placed(v: State) {
    forall id :: Located(v, id) == if id in v.ghostly.outstanding then 1 else 0
  }

  /** Nothing submitted is lost or run twice, and each sentinel ends one worker. */
  ghost predicate Tallied(v: State) {
    && (forall t :: Accounted(v, t) == v.ghostly.submitted[t] + if t == Stop then v.stops else 0)
    && Stop !in v.ghostly.submitted && Stop !in v.ghostly.ran
  }

  ghost predicate Inv(u: Setup, v: State) {
    && |v.workers| == u.workers
    && v.stops <= u.workers
    && Placed(v) && Tallied(v) && Matched(u, v) && StopsLast(v)
  }

  lemma InitSums(n: nat)
    ensures var s := seq(n, _ => Idle);
      && Sum(s, WorkerId) == multiset{} && Sum(s, LoadedTask) == multiset{} && Sum(s, ExitedMark) == multiset{}
  {
    if n > 0 {
      InitSums(n - 1);
      assert seq(n, _ => Idle)[1..] == seq(n - 1, _ => Idle);
    }
  }

  lemma InitInv(u: Setup, v: State)
    requires Init(u, v)
    ensures Inv(u, v)
  {
    InitSums(u.workers);
  }

  // ----- every step keeps the invariant

  lemma SumPop<T, E>(s: seq<T>, f: T -> multiset<E>)
    requires s != []
    ensures Sum(s, f) == f(s[0]) + Sum(s[1..], f)
  {
  }

  lemma PlacedSubmit(u: Setup, v: State, w: State, t: Item)
    requires Placed(v) && Next(u, v, w, Submit(t))
    ensures Placed(w)
  {
    SumPush(v.tasks, t, TaskId);
  }

  lemma PlacedTake(u: Setup, v: State, w: State, i: nat)
    requires Placed(v) && Next(u, v, w, Take(i))
    ensures Placed(w)
  {
    SumPop(v.tasks, TaskId);
    forall id ensures Located(w, id) == Located(v, id) {
      SumChangeAt(v.workers, i, w.workers[i], WorkerId, id);
    }
  }

  lemma PlacedExecute(u: Setup, v: State, w: State, i: nat)
    requires Placed(v) && Next(u, v, w, Execute(i))
    ensures Placed(w)
  {
    forall id ensures Located(w, id) == Located(v, id) {
      SumChangeAt(v.workers, i, w.workers[i], WorkerId, id);
    }
  }

  lemma PlacedDeliver(u: Setup, v: State, w: State, i: nat)
    requires Placed(v) && Next(u, v, w, Deliver(i))
    ensures Placed(w)
  {
    forall id ensures Located(w, id) == Located(v, id) {
      ResultMoves(v, w, i, id);
    }
  }

  lemma ResultMoves(v: State, w: State, i: nat, id: int)
    requires i < |v.workers| && v.workers[i].Holding?
    requires w.workers == v.workers[i := Idle] && w.results == v.results + [v.workers[i].result]
    requires w.tasks == v.tasks && w.completed == v.completed
    ensures Located(w, id) == Located(v, id)
  {
    SumPush(v.results, v.workers[i].result, ResultId);
    SumChangeAt(v.workers, i, Idle, WorkerId, id);
  }

  lemma PlacedReapCached(u: Setup, v: State, w: State, id: int, value: int)
    requires Placed(v) && Matched(u, v) && Next(u, v, w, ReapCached(id, value))
    ensures Placed(w)
  {
    assert ResultOk(u, v.ghostly.outstanding, Outcome(id, v.completed[id]));
  }

  lemma PlacedReapHead(u: Setup, v: State, w: State, id: int, value: int)
    requires Placed(v) && Matched(u, v) && Next(u, v, w, ReapHead(id, value))
    ensures Placed(w)
  {
    forall k ensures Located(w, k) == Located(v, k) - if k == id then 1 else 0 {
      HeadReaped(v, w, k);
    }
  }

  lemma HeadReaped(v: State, w: State, k: int)
    requires v.results != [] && w.results == v.results[1..]
    requires w.tasks == v.tasks && w.workers == v.workers && w.completed == v.completed
    ensures Located(w, k) == Located(v, k) - if k == v.results[0].id then 1 else 0
  {
    SumPop(v.results, ResultId);
  }

  lemma PlacedCache(u: Setup, v: State, w: State, step: Step)
    requires Placed(v) && Next(u, v, w, step) && (step.Cache? || step.KeepHead?)
    ensures Placed(w) && v.results[0].id !in v.completed
  {
    var r := v.results[0];
    SumPop(v.results, ResultId);
    assert Sum(v.results, ResultId)[r.id] >= 1 && Located(v, r.id) <= 1;
  }

  lemma PlacedStop(u: Setup, v: State, w: State)
    requires Placed(v) && Next(u, v, w, RequestStop)
    ensures Placed(w)
  {
    SumPush(v.tasks, Stop, TaskId);
  }

  lemma PlacedWaiting(u: Setup, v: State, w: State, step: Step)
    requires Placed(v) && Next(u, v, w, step) && (step.StartReap? || step.GiveUp?)
    ensures Placed(w)
  {
    forall id ensures Located(w, id) == Located(v, id) {
    }
  }

  lemma PlacedKeeps(u: Setup, v: State, w: State, step: Step)
    requires Placed(v) && Matched(u, v) && Next(u, v, w, step)
    ensures Placed(w)
  {
    hide Placed, Matched, Next;
    match step
    case Submit(t) => PlacedSubmit(u, v, w, t);
    case RequestStop => PlacedStop(u, v, w);
    case Take(i) => PlacedTake(u, v, w, i);
    case Execute(i) => PlacedExecute(u, v, w, i);
    case Deliver(i) => PlacedDeliver(u, v, w, i);
    case ReapCached(id, value) => PlacedReapCached(u, v, w, id, value);
    case Cache => PlacedCache(u, v, w, step);
    case KeepHead => PlacedCache(u, v, w, step);
    case ReapHead(id, value) => PlacedReapHead(u, v, w, id, value);
    case _ => PlacedWaiting(u, v, w, step);
  }

  /** A worker changes: what it holds and whether it has exited, item by item. */
  lemma WorkerTally(v: State, i: nat, x: Worker, t: Item)
    requires i < |v.workers|
    ensures var ws := v.workers[i := x];
      && Sum(ws, LoadedTask)[t] + LoadedTask(v.workers[i])[t] == Sum(v.workers, LoadedTask)[t] + LoadedTask(x)[t]
      && Sum(ws, ExitedMark)[t] + ExitedMark(v.workers[i])[t] == Sum(v.workers, ExitedMark)[t] + ExitedMark(x)[t]
  {
    SumChangeAt(v.workers, i, x, LoadedTask, t);
    SumChangeAt(v.workers, i, x, ExitedMark, t);
  }

  lemma TalliedTake(u: Setup, v: State, w: State, i: nat)
    requires Tallied(v) && Next(u, v, w, Take(i))
    ensures Tallied(w)
  {
    forall t ensures Accounted(w, t) == Accounted(v, t) {
      TakenTally(v, w, i, t);
    }
  }

  lemma TakenTally(v: State, w: State, i: nat, t: Item)
    requires i < |v.workers| && v.workers[i].Idle? && v.tasks != []
    requires var x := v.tasks[0]; w.workers == v.workers[i := if x.Stop? then Exited else Loaded(x)]
    requires w.tasks == v.tasks[1..] && w.ghostly == v.ghostly
    ensures Accounted(w, t) == Accounted(v, t)
  {
    Pop(v.tasks);
    WorkerTally(v, i, w.workers[i], t);
  }

  lemma TalliedExecute(u: Setup, v: State, w: State, i: nat)
    requires Tallied(v) && Next(u, v, w, Execute(i))
    ensures Tallied(w)
  {
    forall t ensures Accounted(w, t) == Accounted(v, t) {
      RanTally(v, w, i, t);
    }
  }

  lemma RanTally(v: State, w: State, i: nat, t: Item)
    requires i < |v.workers| && v.workers[i].Loaded? && i < |w.workers|
    requires w.workers == v.workers[i := w.workers[i]] && (w.workers[i].Idle? || w.workers[i].Holding?)
    requires w.tasks == v.tasks && w.ghostly.ran == v.ghostly.ran + multiset{v.workers[i].task}
    ensures Accounted(w, t) == Accounted(v, t)
  {
    WorkerTally(v, i, w.workers[i], t);
  }

  lemma TalliedDeliver(u: Setup, v: State, w: State, i: nat)
    requires Tallied(v) && Next(u, v, w, Deliver(i))
    ensures Tallied(w)
  {
    forall t ensures Accounted(w, t) == Accounted(v, t) {
      ResultTally(v, w, i, t);
    }
  }

  lemma ResultTally(v: State, w: State, i: nat, t: Item)
    requires i < |v.workers| && v.workers[i].Holding?
    requires w.workers == v.workers[i := Idle] && w.tasks == v.tasks && w.ghostly == v.ghostly
    ensures Accounted(w, t) == Accounted(v, t)
  {
    WorkerTally(v, i, Idle, t);
  }

  lemma TalliedKeeps(u: Setup, v: State, w: State, step: Step)
    requires Tallied(v) && Next(u, v, w, step)
    ensures Tallied(w)
  {
    match step
    case Submit(t) =>
      Push(v.tasks, t);
    case RequestStop =>
      Push(v.tasks, Stop);
    case Take(i) => TalliedTake(u, v, w, i);
    case Execute(i) => TalliedExecute(u, v, w, i);
    case Deliver(i) => TalliedDeliver(u, v, w, i);
    case _ =>
  }

  lemma Push<T>(s: seq<T>, x: T)
    ensures multiset(s + [x]) == multiset(s) + multiset{x}
  {
  }

  lemma Pop<T>(s: seq<T>)
    requires s != []
    ensures multiset(s) == multiset{s[0]} + multiset(s[1..])
  {
    assert s == [s[0]] + s[1..];
  }

  lemma MatchedReap(u: Setup, v: State, w: State, id: int)
    requires Matched(u, v) && Placed(v) && Placed(w)
    requires w.ghostly.outstanding == v.ghostly.outstanding - {id}
    requires w.tasks == v.tasks && w.workers == v.workers && w.waiting == None
    requires forall i | 0 <= i < |w.results| :: w.results[i] in v.results
    requires forall k | k in w.completed :: k in v.completed && w.completed[k] == v.completed[k]
    ensures Matched(u, w)
  {
    var o, p := v.ghostly.outstanding, w.ghostly.outstanding;
    assert Located(w, id) == 0;
    forall i | 0 <= i < |w.tasks| ensures ItemOk(p, w.tasks[i]) {
      assert ItemOk(o, v.tasks[i]);
      SumAt(w.tasks, i, TaskId);
      assert TaskId(w.tasks[i])[id] == 0;
    }
    forall i | 0 <= i < |w.workers| ensures WorkerOk(u, p, w.workers[i]) {
      assert WorkerOk(u, o, v.workers[i]);
      SumAt(w.workers, i, WorkerId);
      assert WorkerId(w.workers[i])[id] == 0;
    }
    forall i | 0 <= i < |w.results| ensures ResultOk(u, p, w.results[i]) {
      SumAt(w.results, i, ResultId);
      assert ResultId(w.results[i])[id] == 0;
    }
    forall k | k in w.completed ensures ResultOk(u, p, Outcome(k, w.completed[k])) {
      assert ResultOk(u, o, Outcome(k, v.completed[k]));
    }
  }

  lemma MatchedReaped(u: Setup, v: State, w: State, step: Step)
    requires Matched(u, v) && Placed(v) && Placed(w) && Next(u, v, w, step) && (step.ReapCached? || step.ReapHead?)
    ensures Matched(u, w)
  {
    hide Placed, Matched;
    MatchedReap(u, v, w, step.id);
  }

  lemma MatchedOther(u: Setup, v: State, w: State, step: Step)
    requires Matched(u, v) && Next(u, v, w, step) && (step.RequestStop? || step.StartReap? || step.GiveUp?)
    ensures Matched(u, w)
  {
  }

  lemma MatchedKeeps(u: Setup, v: State, w: State, step: Step)
    requires Matched(u, v) && Placed(v) && Placed(w) && Next(u, v, w, step)
    ensures Matched(u, w)
  {
    hide Placed, Matched, Next;
    match step
    case ReapCached(_, _) => MatchedReaped(u, v, w, step);
    case ReapHead(_, _) => MatchedReaped(u, v, w, step);
    case Cache => MatchedCache(u, v, w, step);
    case KeepHead => MatchedCache(u, v, w, step);
    case Submit(t) => MatchedSubmit(u, v, w, t);
    case Take(_) => MatchedWorker(u, v, w, step);
    case Execute(_) => MatchedWorker(u, v, w, step);
    case Deliver(_) => MatchedWorker(u, v, w, step);
    case _ => MatchedOther(u, v, w, step);
  }

  lemma MatchedCache(u: Setup, v: State, w: State, step: Step)
    requires Matched(u, v) && Placed(v) && Next(u, v, w, step) && (step.Cache? || step.KeepHead?)
    ensures Matched(u, w)
  {
    PlacedCache(u, v, w, step);
    assert ResultOk(u, v.ghostly.outstanding, v.results[0]);
  }

  lemma MatchedWorker(u: Setup, v: State, w: State, step: Step)
    requires Matched(u, v) && Next(u, v, w, step) && (step.Take? || step.Execute? || step.Deliver?)
    ensures Matched(u, w)
  {
    var i, o := step.worker, v.ghostly.outstanding;
    assert WorkerOk(u, o, v.workers[i]);
    assert step.Take? ==> ItemOk(o, v.tasks[0]);
    assert WorkerOk(u, o, w.workers[i]);
  }

  lemma MatchedSubmit(u: Setup, v: State, w: State, t: Item)
    requires Matched(u, v) && Next(u, v, w, Submit(t))
    ensures Matched(u, w)
  {
    var o, p := v.ghostly.outstanding, w.ghostly.outstanding;
    forall i | 0 <= i < |w.tasks| ensures ItemOk(p, w.tasks[i]) {
      if i < |v.tasks| { assert ItemOk(o, v.tasks[i]); }
    }
    forall i | 0 <= i < |w.workers| ensures WorkerOk(u, p, w.workers[i]) {
      assert WorkerOk(u, o, v.workers[i]);
    }
    forall i | 0 <= i < |w.results| ensures ResultOk(u, p, w.results[i]) {
      assert ResultOk(u, o, v.results[i]);
    }
    forall k | k in w.completed ensures ResultOk(u, p, Outcome(k, w.completed[k])) {
      assert ResultOk(u, o, Outcome(k, v.completed[k]));
    }
  }

  /** An exited worker has consumed a sentinel. */
  lemma ExitedCounted(v: State, i: nat)
    requires Tallied(v) && i < |v.workers|
    ensures v.workers[i].Exited? ==> v.stops > 0
  {
    SumAt(v.workers, i, ExitedMark);
    assert v.workers[i].Exited? ==> ExitedMark(v.workers[i])[Stop] == 1;
    assert Accounted(v, Stop) == v.stops;
  }

  lemma StopsSubmit(u: Setup, v: State, w: State, t: Item)
    requires StopsLast(v) && Tallied(v) && Next(u, v, w, Submit(t))
    ensures StopsLast(w)
  {
    forall x | x in w.workers ensures !x.Exited? {
      var i :| 0 <= i < |v.workers| && v.workers[i] == x;
      ExitedCounted(v, i);
    }
  }

  lemma StopsTake(u: Setup, v: State, w: State, i: nat)
    requires StopsLast(v) && Next(u, v, w, Take(i))
    ensures StopsLast(w)
  {
    forall t | t in w.tasks ensures t in v.tasks && (v.tasks[0].Stop? ==> t.Stop?) {
      var k :| 0 <= k < |w.tasks| && w.tasks[k] == t;
      assert v.tasks[k + 1] == t;
    }
    forall x | x in w.workers ensures x in v.workers || x == w.workers[i] {
    }
  }

  lemma StopsWorker(u: Setup, v: State, w: State, i: nat, step: Step)
    requires StopsLast(v) && Next(u, v, w, step) && (step == Execute(i) || step == Deliver(i))
    ensures StopsLast(w)
  {
    forall x | x in w.workers ensures x in v.workers || x == w.workers[i] {
    }
  }

  lemma StopsOther(u: Setup, v: State, w: State, step: Step)
    requires StopsLast(v) && Next(u, v, w, step)
    requires !step.Submit? && !step.Take? && !step.Execute? && !step.Deliver?
    ensures StopsLast(w)
  {
  }

  lemma {:induction false} StopsKeeps(u: Setup, v: State, w: State, step: Step)
    requires StopsLast(v) && Tallied(v) && Next(u, v, w, step)
    ensures StopsLast(w)
  {
    hide StopsLast, Tallied, Next;
    match step
    case Submit(t) => StopsSubmit(u, v, w, t);
    case Take(i) => StopsTake(u, v, w, i);
    case Execute(i) => StopsWorker(u, v, w, i, step);
    case Deliver(i) => StopsWorker(u, v, w, i, step);
    case _ => StopsOther(u, v, w, step);
  }

  lemma NextKeeps(u: Setup, v: State, w: State, step: Step)
    requires Inv(u, v) && Next(u, v, w, step)
    ensures Inv(u, w)
  {
    hide Placed, Tallied, Matched, StopsLast;
    PlacedKeeps(u, v, w, step);
    TalliedKeeps(u, v, w, step);
    MatchedKeeps(u, v, w, step);
    StopsKeeps(u, v, w, step);
  }

  // ----- whole runs

  ghost predicate Follows(u: Setup, v: State, w: State) {
    exists step :: Next(u, v, w, step)
  }

  ghost predicate Run(u: Setup, states: seq<State>) {
    && states != [] && Init(u, states[0])
    && forall i, j | 0 <= i < |states| && 0 <= j < |states| && j == i + 1 :: Follows(u, states[i], states[j])
  }

  lemma {:induction false} RunKeeps(u: Setup, states: seq<State>, i: nat)
    requires Run(u, states) && i < |states|
    ensures Inv(u, states[i])
  {
    if i == 0 {
      InitInv(u, states[0]);
    } else {
      RunKeeps(u, states, i - 1);
      assert Follows(u, states[i - 1], states[i]);
      var step :| Next(u, states[i - 1], states[i], step);
      NextKeeps(u, states[i - 1], states[i], step);
    }
  }

  /** At any time each outstanding request is in exactly one of the four places, and no other id is in any. */
  lemma ExactlyOnce(u: Setup, states: seq<State>, i: nat, id: int)
    requires Run(u, states) && i < |states|
    ensures Located(states[i], id) == if id in states[i].ghostly.outstanding then 1 else 0
  {
    RunKeeps(u, states, i);
  }

  /** A reap hands out the value computed from its own request's payload, once. */
  lemma ReapReturnsOwn(u: Setup, states: seq<State>, i: nat, id: int, value: int)
    requires Run(u, states) && i + 1 < |states|
    requires || Next(u, states[i], states[i + 1], ReapCached(id, value))
             || Next(u, states[i], states[i + 1], ReapHead(id, value))
    ensures id in states[i].ghostly.outstanding && value == u.work(states[i].ghostly.outstanding[id])
    ensures id !in states[i + 1].ghostly.outstanding && Located(states[i + 1], id) == 0
  {
    RunKeeps(u, states, i);
    RunKeeps(u, states, i + 1);
    ReapedValue(u, states[i], states[i + 1], id, value);
  }

  lemma ReapedValue(u: Setup, v: State, w: State, id: int, value: int)
    requires Matched(u, v) && (Next(u, v, w, ReapCached(id, value)) || Next(u, v, w, ReapHead(id, value)))
    ensures id in v.ghostly.outstanding && value == u.work(v.ghostly.outstanding[id]) && id !in w.ghostly.outstanding
  {
    if Next(u, v, w, ReapCached(id, value)) {
      assert ResultOk(u, v.ghostly.outstanding, Outcome(id, v.completed[id]));
    } else {
      assert ResultOk(u, v.ghostly.outstanding, v.results[0]);
    }
  }

  /** `emplace` into the cache never meets an entry under the same id, so no result is dropped. */
  lemma CacheDropsNothing(u: Setup, states: seq<State>, i: nat, step: Step)
    requires Run(u, states) && i + 1 < |states| && Next(u, states[i], states[i + 1], step)
    requires step.Cache? || step.KeepHead?
    ensures var v, r := states[i], states[i].results[0];
      r.id !in v.completed && states[i + 1].completed == v.completed[r.id := r.value]
  {
    RunKeeps(u, states, i);
    PlacedCache(u, states[i], states[i + 1], step);
  }

  lemma AllExited(s: seq<Worker>)
    requires forall x | x in s :: x.Exited?
    ensures Sum(s, ExitedMark)[Stop] == |s| && Sum(s, LoadedTask) == multiset{}
  {
    if s != [] {
      assert s[0] in s;
      AllExited(s[1..]);
    }
  }

  lemma HasFirst<T>(s: seq<T>)
    ensures s != [] ==> exists x :: x in s
  {
    if s != [] {
      assert s[0] in s;
    }
  }

  /** Once a worker has exited, only sentinels are left in the queue. */
  lemma OnlyStops(v: State)
    requires StopsLast(v) && v.workers != [] && forall x | x in v.workers :: x.Exited?
    ensures forall t | t in v.tasks :: t == Stop
  {
    assert v.workers[0] in v.workers;
  }

  /** When `join` returns, all workers having exited, the queue is empty, each worker has consumed one sentinel, and
      every submitted task has run exactly once. */
  lemma JoinComplete(u: Setup, states: seq<State>, i: nat)
    requires Run(u, states) && i < |states| && u.workers > 0
    requires forall x | x in states[i].workers :: x.Exited?
    ensures var v := states[i]; v.stops == u.workers && v.tasks == [] && v.ghostly.ran == v.ghostly.submitted
  {
    RunKeeps(u, states, i);
    var v := states[i];
    AllExited(v.workers);
    assert Accounted(v, Stop) == v.stops;
    assert Stop !in v.tasks;
    OnlyStops(v);
    HasFirst(v.tasks);
    forall t ensures v.ghostly.ran[t] == v.ghostly.submitted[t] {
      assert Accounted(v, t) == v.ghostly.submitted[t] + if t == Stop then v.stops else 0;
      ExitedOnlyStops(v.workers, t);
    }
  }

  lemma ExitedOnlyStops(s: seq<Worker>, t: Item)
    ensures t != Stop ==> Sum(s, ExitedMark)[t] == 0
  {
    if s != [] {
      ExitedOnlyStops(s[1..], t);
    }
  }

  /** What a worker still has to do before its next result is in the queue and out of it. */
  function WorkerLoad(x: Worker): nat {
    match x case Loaded(_) => 3 case Holding(_) => 2 case _ => 0
  }

  function Loads(s: seq<Worker>): nat {
    if s == [] then 0 else Loads(s[..|s| - 1]) + WorkerLoad(s[|s| - 1])
  }

  lemma LoadsChange(s: seq<Worker>, i: nat, x: Worker)
    requires i < |s|
    ensures Loads(s[i := x]) + WorkerLoad(s[i]) == Loads(s) + WorkerLoad(x)
  {
    var n := |s| - 1;
    if i < n {
      LoadsChange(s[..n], i, x);
      assert s[i := x][..n] == s[..n][i := x];
    } else {
      assert s[i := x][..n] == s[..n];
    }
  }

  /** What is left to do before both queues are empty. */
  function Work(v: State): nat {
    4 * |v.tasks| + Loads(v.workers) + |v.results|
  }

  /** The steps by which workers and reaper bring a result to its request. */
  predicate Advances(step: Step) {
    step.Take? || step.Execute? || step.Deliver? || step.Cache? || step.KeepHead? || step.ReapHead?
  }

  /** Each of them uses up some of the work, so only finitely many can follow one another without a submission. */
  lemma WorkFalls(u: Setup, v: State, w: State, step: Step)
    requires Next(u, v, w, step) && Advances(step)
    ensures Work(w) < Work(v)
  {
    if step.Take? || step.Execute? || step.Deliver? {
      LoadsChange(v.workers, step.worker, w.workers[step.worker]);
    }
  }

  /** While the reaper waits for a request, a step can be taken that brings the result nearer. */
  lemma {:induction false} ReapProgress(u: Setup, states: seq<State>, i: nat) returns (step: Step, w: State)
    requires Run(u, states) && i < |states| && states[i].waiting.Some? && u.capacity > 0 && u.workers > 0
    ensures Next(u, states[i], w, step) && Advances(step) && Work(w) < Work(states[i])
  {
    step, w := NextAdvance(u, states, i);
    WorkFalls(u, states[i], w, step);
  }

  /** The reaper's next step while there are results. */
  lemma AdvanceReaper(u: Setup, v: State) returns (step: Step, w: State)
    requires v.waiting.Some? && v.results != []
    ensures Next(u, v, w, step) && Advances(step)
  {
    var id, r := v.waiting.value, v.results[0];
    if r.id == id {
      step := ReapHead(id, r.value);
      w := v.(results := v.results[1..], waiting := None,
              ghostly := v.ghostly.(outstanding := v.ghostly.outstanding - {id}));
    } else {
      step := Cache;
      w := v.(results := v.results[1..],
              completed := if r.id in v.completed then v.completed else v.completed[r.id := r.value]);
    }
  }

  /** The next step of a worker that holds a task or a result. */
  lemma AdvanceWorker(u: Setup, v: State, k: nat) returns (step: Step, w: State)
    requires StopsLast(v) && |v.results| < u.capacity
    requires k < |v.workers| && (v.workers[k].Loaded? || v.workers[k].Holding?)
    ensures Next(u, v, w, step) && Advances(step) && (step == Execute(k) || step == Deliver(k))
  {
    if v.workers[k].Loaded? {
      var t := v.workers[k].task;
      step := Execute(k);
      w := SetWorker(v, k, if t.needsResult then Holding(Outcome(t.id, u.work(t.payload))) else Idle)
             .(ghostly := v.ghostly.(ran := v.ghostly.ran + multiset{t}));
    } else {
      step := Deliver(k);
      w := SetWorker(v, k, Idle).(results := v.results + [v.workers[k].result]);
    }
  }

  /** With a request in the queue no worker has exited, and an idle one can take the first item. */
  lemma AdvanceTake(u: Setup, v: State, id: int) returns (step: Step, w: State)
    requires StopsLast(v) && v.workers != [] && !v.workers[0].Loaded? && !v.workers[0].Holding?
    requires Sum(v.tasks, TaskId)[id] > 0
    ensures Next(u, v, w, step) && Advances(step)
  {
    var t := QueuedId(v.tasks, id);
    assert v.workers[0] in v.workers;
    step := Take(0);
    w := SetWorker(v, 0, if v.tasks[0].Stop? then Exited else Loaded(v.tasks[0])).(tasks := v.tasks[1..]);
  }

  lemma {:induction false} NextAdvance(u: Setup, states: seq<State>, i: nat) returns (step: Step, w: State)
    requires Run(u, states) && i < |states| && states[i].waiting.Some? && u.capacity > 0 && u.workers > 0
    ensures Next(u, states[i], w, step) && Advances(step)
  {
    hide Next, Run, Tallied, StopsLast, Sum;
    RunKeeps(u, states, i);
    var v := states[i];
    if v.results != [] {
      step, w := AdvanceReaper(u, v);
    } else if k: nat :| k < |v.workers| && (v.workers[k].Loaded? || v.workers[k].Holding?) {
      step, w := AdvanceWorker(u, v, k);
    } else {
      var id := v.waiting.value;
      NoIds(v.workers, id);
      NoResults(v.results, id);
      assert Located(v, id) == 1;
      step, w := AdvanceTake(u, v, id);
    }
  }

  lemma NoResults(s: seq<Outcome>, id: int)
    requires s == []
    ensures Sum(s, ResultId)[id] == 0
  {
  }

  lemma NoIds(s: seq<Worker>, id: int)
    requires forall k: nat | k < |s| :: !s[k].Loaded? && !s[k].Holding?
    ensures Sum(s, WorkerId)[id] == 0
  {
    if s != [] {
      forall k: nat | k < |s[1..]| ensures !s[1..][k].Loaded? && !s[1..][k].Holding? {
        assert s[1..][k] == s[k + 1];
      }
      NoIds(s[1..], id);
    }
  }

  lemma QueuedId(s: seq<Item>, id: int) returns (t: Item)
    requires Sum(s, TaskId)[id] > 0
    ensures t in s && t.Task?
  {
    if TaskId(s[0])[id] > 0 {
      t := s[0];
    } else {
      t := QueuedId(s[1..], id);
    }
  }

  // ----- joining

  lemma NotAllExited(s: seq<Worker>, k: nat)
    requires k < |s| && !s[k].Exited?
    ensures Sum(s, ExitedMark)[Stop] < |s|
  {
    ExitedAtMost(s[1..]);
    if k > 0 {
      NotAllExited(s[1..], k - 1);
    }
  }

  lemma ExitedAtMost(s: seq<Worker>)
    ensures Sum(s, ExitedMark)[Stop] <= |s|
  {
    if s != [] {
      ExitedAtMost(s[1..]);
    }
  }

  lemma NoneLoaded(s: seq<Worker>, t: Item)
    requires forall k: nat | k < |s| :: !s[k].Loaded?
    ensures Sum(s, LoadedTask)[t] == 0
  {
    if s != [] {
      forall k: nat | k < |s[1..]| ensures !s[1..][k].Loaded? {
        assert s[1..][k] == s[k + 1];
      }
      NoneLoaded(s[1..], t);
    }
  }

  /** `join` does not hang: once all sentinels have been queued and while some worker has not exited, a worker can
      take a step, as long as the result queue has room, and it uses up some of the work. */
  lemma JoinGoesOn(u: Setup, states: seq<State>, i: nat, k: nat) returns (step: Step, w: State)
    requires Run(u, states) && i < |states| && |states[i].results| < u.capacity
    requires states[i].stops == u.workers && k < |states[i].workers| && !states[i].workers[k].Exited?
    ensures Next(u, states[i], w, step) && (step.Take? || step.Execute? || step.Deliver?)
    ensures Work(w) < Work(states[i])
  {
    RunKeeps(u, states, i);
    var v := states[i];
    if l: nat :| l < |v.workers| && (v.workers[l].Loaded? || v.workers[l].Holding?) {
      step, w := AdvanceWorker(u, v, l);
    } else {
      SentinelLeft(u, v, k);
      step := Take(k);
      w := SetWorker(v, k, if v.tasks[0].Stop? then Exited else Loaded(v.tasks[0])).(tasks := v.tasks[1..]);
    }
    WorkFalls(u, v, w, step);
  }

  lemma SentinelLeft(u: Setup, v: State, k: nat)
    requires Inv(u, v) && v.stops == u.workers && k < |v.workers| && !v.workers[k].Exited?
    requires forall l: nat | l < |v.workers| :: !v.workers[l].Loaded?
    ensures v.tasks != []
  {
    NotAllExited(v.workers, k);
    NoneLoaded(v.workers, Stop);
    assert Accounted(v, Stop) == v.stops;
    assert multiset(v.tasks)[Stop] > 0;
  }
}
