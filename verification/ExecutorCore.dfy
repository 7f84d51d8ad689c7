/** The reaper's and submitter's side of csrc/instant_tensor/async_executor.hpp, the one-task driver of
    function_executor.hpp and the request ids of csrc/loader_common.cpp, in place. */
module ExecutorCore {
  import opened Wrappers
  import opened RoundMath
  import opened ExecutorMachine

  datatype SubmitError = ReservedId | NotStarted | Stopped | AlreadyStarted

  datatype Status = Done | Thrown(error: SubmitError)

  datatype Reaped = Missing | Found(value: int)

  /** The position of the first result of a request, or the length of the queue. */
  function FirstOf(s: seq<Outcome>, id: int): (k: nat)
    ensures k <= |s|
    ensures k < |s| ==> s[k].id == id
    ensures forall i | 0 <= i < k :: s[i].id != id
  {
    if s == [] || s[0].id == id then 0 else 1 + FirstOf(s[1..], id)
  }

  /** `emplace` of all results in order: an entry that is there stays. */
  function Absorb(m: map<int, int>, s: seq<Outcome>): map<int, int>
    decreases |s|
  {
    if s == [] then m
    else Absorb(if s[0].id in m then m else m[s[0].id := s[0].value], s[1..])
  }

  lemma {:induction false} AbsorbPush(m: map<int, int>, s: seq<Outcome>, r: Outcome)
    ensures Absorb(m, s + [r]) ==
      (var a := Absorb(m, s); if r.id in a then a else a[r.id := r.value])
    decreases |s|
  {
    if s != [] {
      assert (s + [r])[1..] == s[1..] + [r];
      AbsorbPush(if s[0].id in m then m else m[s[0].id := s[0].value], s[1..], r);
    }
  }

  lemma {:induction false} AbsorbOther(m: map<int, int>, s: seq<Outcome>, id: int)
    requires forall i | 0 <= i < |s| :: s[i].id != id
    ensures id in Absorb(m, s) <==> id in m
    ensures id in m ==> Absorb(m, s)[id] == m[id]
    decreases |s|
  {
    if s != [] {
      AbsorbOther(if s[0].id in m then m else m[s[0].id := s[0].value], s[1..], id);
    }
  }

  /** The cache once the request's result has been found. */
  function Cached(m: map<int, int>, all: seq<Outcome>, id: int): map<int, int> {
    var k := FirstOf(all, id);
    Absorb(m, if k < |all| then all[..k + 1] else all)
  }

  /** The results behind the request's. */
  function Behind(all: seq<Outcome>, id: int): seq<Outcome> {
    var k := FirstOf(all, id);
    if k < |all| then all[k + 1..] else []
  }

  class Core {
    var taskQueue: seq<Item>
    var resultQueue: seq<Outcome>
    var completedResults: map<int, int>
    var started: bool
    var stopRequested: bool
    var workerCount: nat

    constructor ()
      ensures taskQueue == [] && resultQueue == [] && completedResults == map[]
      ensures !started && !stopRequested && workerCount == 0
    {
      taskQueue, resultQueue, completedResults := [], [], map[];
      started, stopRequested, workerCount := false, false, 0;
    }

    method Start(numWorkers: nat) returns (r: Status)
      modifies this`started, this`workerCount
      ensures r == if old(started) then Thrown(AlreadyStarted) else if stopRequested then Thrown(Stopped) else Done
      ensures r.Done? ==> started && workerCount == (if numWorkers == 0 then 1 else numWorkers)
      ensures r.Thrown? ==> started == old(started) && workerCount == old(workerCount)
    {
      if started {
        return Thrown(AlreadyStarted);
      }
      if stopRequested {
        return Thrown(Stopped);
      }
      started, workerCount := true, if numWorkers == 0 then 1 else numWorkers;
      return Done;
    }

    method Submit(requestId: int, payload: int, needsResult: bool) returns (r: Status)
      modifies this`taskQueue
      ensures r == if requestId == -1 then Thrown(ReservedId)
        else if !started then Thrown(NotStarted) else if stopRequested then Thrown(Stopped) else Done
      ensures taskQueue == old(taskQueue) + if r.Done? then [Task(requestId, needsResult, payload)] else []
    {
      if requestId == STOP_REQUEST_ID {
        return Thrown(ReservedId);
      }
      if !started {
        return Thrown(NotStarted);
      }
      if stopRequested {
        return Thrown(Stopped);
      }
      taskQueue := taskQueue + [Task(requestId, needsResult, payload)];
      return Done;
    }

    /** One sentinel for every worker, once. */
    method RequestStop()
      modifies this`taskQueue, this`stopRequested
      ensures stopRequested == (old(stopRequested) || started)
      ensures |taskQueue| == |old(taskQueue)| + if started && !old(stopRequested) then workerCount else 0
      ensures taskQueue[..|old(taskQueue)|] == old(taskQueue)
      ensures forall i | |old(taskQueue)| <= i < |taskQueue| :: taskQueue[i] == Stop
    {
      if !started || stopRequested {
        return;
      }
      stopRequested := true;
      for i := 0 to workerCount
        invariant stopRequested && |taskQueue| == |old(taskQueue)| + i
        invariant taskQueue[..|old(taskQueue)|] == old(taskQueue)
        invariant forall k | |old(taskQueue)| <= k < |taskQueue| :: taskQueue[k] == Stop
      {
        taskQueue := taskQueue + [Stop];
      }
    }

    method TakeCachedResult(requestId: int) returns (r: Reaped)
      modifies this`completedResults
      ensures r == if requestId in old(completedResults) then Found(old(completedResults)[requestId]) else Missing
      ensures completedResults == old(completedResults) - {requestId}
    {
      if requestId !in completedResults {
        return Missing;
      }
      r := Found(completedResults[requestId]);
      completedResults := completedResults - {requestId};
    }

    /** Drains the result queue up to the request's result, which is returned; the others go to the cache. */
    method TakeUntilReady(requestId: int) returns (r: Reaped)
      modifies this`resultQueue, this`completedResults
      ensures var q := old(resultQueue);
        var k := FirstOf(q, requestId);
        && completedResults == Absorb(old(completedResults), q[..k])
        && (if k < |q| then r == Found(q[k].value) && resultQueue == q[k + 1..] else r == Missing && resultQueue == [])
    {
      ghost var q := resultQueue;
      ghost var k := 0;
      while resultQueue != []
        invariant k <= FirstOf(q, requestId) && resultQueue == q[k..]
        invariant completedResults == Absorb(old(completedResults), q[..k])
      {
        var item := resultQueue[0];
        resultQueue := resultQueue[1..];
        if item.id == requestId {
          return Found(item.value);
        }
        AbsorbPush(old(completedResults), q[..k], item);
        assert q[..k + 1] == q[..k] + [item];
        completedResults :=
          if item.id in completedResults then completedResults else completedResults[item.id := item.value];
        k := k + 1;
      }
      assert q[..k] == q;
      return Missing;
    }

    /** Drains the result queue into the cache, up to and with the request's result. */
    method CacheUntilReady(requestId: int) returns (found: bool)
      modifies this`resultQueue, this`completedResults
      ensures found == (FirstOf(old(resultQueue), requestId) < |old(resultQueue)|)
      ensures completedResults == Cached(old(completedResults), old(resultQueue), requestId)
      ensures resultQueue == Behind(old(resultQueue), requestId)
    {
      ghost var q := resultQueue;
      ghost var k := 0;
      while resultQueue != []
        invariant k <= FirstOf(q, requestId) && resultQueue == q[k..]
        invariant completedResults == Absorb(old(completedResults), q[..k])
      {
        var item := resultQueue[0];
        resultQueue := resultQueue[1..];
        AbsorbPush(old(completedResults), q[..k], item);
        assert q[..k + 1] == q[..k] + [item];
        completedResults :=
          if item.id in completedResults then completedResults else completedResults[item.id := item.value];
        if item.id == requestId {
          return true;
        }
        k := k + 1;
      }
      assert q[..k] == q;
      return false;
    }

    /** Whether the request's result has arrived; it stays in the cache. */
    method Ready(requestId: int) returns (found: bool)
      modifies this`resultQueue, this`completedResults
      ensures found == (requestId in old(completedResults) || FirstOf(old(resultQueue), requestId) < |old(resultQueue)|)
      ensures found == (requestId in completedResults)
      ensures requestId in old(completedResults) ==>
        completedResults == old(completedResults) && resultQueue == old(resultQueue)
      ensures requestId !in old(completedResults) ==>
        && completedResults == Cached(old(completedResults), old(resultQueue), requestId)
        && resultQueue == Behind(old(resultQueue), requestId)
    {
      if requestId in completedResults {
        return true;
      }
      ghost var q, m := resultQueue, completedResults;
      found := CacheUntilReady(requestId);
      ghost var k := FirstOf(q, requestId);
      AbsorbOther(m, q[..k], requestId);
      if found {
        AbsorbPush(m, q[..k], q[k]);
        assert q[..k + 1] == q[..k] + [q[k]];
      } else {
        assert q[..k] == q;
      }
    }

    /** Hands out the request's result if it has arrived, from the cache or from the queue, and forgets it. */
    method TryReap(requestId: int) returns (r: Reaped)
      modifies this`resultQueue, this`completedResults
      ensures var q, m := old(resultQueue), old(completedResults);
        var k := FirstOf(q, requestId);
        r == if requestId in m then Found(m[requestId]) else if k < |q| then Found(q[k].value) else Missing
      ensures requestId !in completedResults
      ensures requestId in old(completedResults) ==>
        completedResults == old(completedResults) - {requestId} && resultQueue == old(resultQueue)
      ensures requestId !in old(completedResults) ==>
        && completedResults == Absorb(old(completedResults), old(resultQueue)[..FirstOf(old(resultQueue), requestId)])
        && resultQueue == Behind(old(resultQueue), requestId)
    {
      r := TakeCachedResult(requestId);
      if r.Found? {
        return;
      }
      assert completedResults == old(completedResults);
      AbsorbOther(completedResults, resultQueue[..FirstOf(resultQueue, requestId)], requestId);
      r := TakeUntilReady(requestId);
    }

    /** The blocking `reap` that drops the result. `arrivals[k]` are the results that workers push before its poll
        k + 1; it returns as soon as the request's result is among what has come, having cached what came before. */
    method Reap(requestId: int, arrivals: seq<seq<Outcome>>) returns (polls: nat)
      requires var all := resultQueue + Flatten(arrivals);
        requestId in completedResults || FirstOf(all, requestId) < |all|
      modifies this`resultQueue, this`completedResults
      ensures polls <= |arrivals| && requestId !in completedResults
      ensures requestId in old(completedResults) ==>
        && polls == 0 && resultQueue == old(resultQueue)
        && completedResults == old(completedResults) - {requestId}
      ensures requestId !in old(completedResults) ==>
        var all := old(resultQueue) + Flatten(arrivals);
        && completedResults == Cached(old(completedResults), all, requestId) - {requestId}
        && resultQueue + Flatten(arrivals[polls..]) == Behind(all, requestId)
    {
      polls := 0;
      if requestId in completedResults {
        completedResults := completedResults - {requestId};
        return;
      }
      ghost var q, m := resultQueue, completedResults;
      ghost var all, seen := q + Flatten(arrivals), q;
      assert [] + q == q && [] + q + Flatten(arrivals) == all && arrivals[0..] == arrivals;
      PollOnce(m, [], q, Flatten(arrivals), all, requestId);
      var found := CacheUntilReady(requestId);
      while !found
        invariant polls <= |arrivals| && all == seen + Flatten(arrivals[polls..])
        invariant if found then
            completedResults == Cached(m, all, requestId)
            && resultQueue + Flatten(arrivals[polls..]) == Behind(all, requestId)
          else FirstOf(seen, requestId) == |seen| && completedResults == Absorb(m, seen)
        decreases |arrivals| - polls
      {
        NextPoll(m, all, seen, arrivals, polls, requestId);
        resultQueue := arrivals[polls];
        found := CacheUntilReady(requestId);
        seen := seen + arrivals[polls];
        polls := polls + 1;
      }
      completedResults := completedResults - {requestId};
    }
  }

  // ----- blocking

  function Flatten(arrivals: seq<seq<Outcome>>): seq<Outcome> {
    if arrivals == [] then [] else arrivals[0] + Flatten(arrivals[1..])
  }

  lemma {:induction false} FirstOfJoined(s: seq<Outcome>, t: seq<Outcome>, id: int)
    ensures FirstOf(s + t, id) == if FirstOf(s, id) < |s| then FirstOf(s, id) else |s| + FirstOf(t, id)
  {
    if s == [] {
      assert s + t == t;
    } else if s[0].id != id {
      FirstOfJoined(s[1..], t, id);
      assert (s + t)[1..] == s[1..] + t;
    }
  }

  lemma AbsorbFirst(m: map<int, int>, s: seq<Outcome>)
    requires s != []
    ensures Absorb(m, s) == Absorb(if s[0].id in m then m else m[s[0].id := s[0].value], s[1..])
  {
  }

  lemma {:induction false} AbsorbJoined(m: map<int, int>, s: seq<Outcome>, t: seq<Outcome>)
    ensures Absorb(m, s + t) == Absorb(Absorb(m, s), t)
    decreases |s|
  {
    if s == [] {
      assert s + t == t;
    } else {
      assert (s + t)[1..] == s[1..] + t && (s + t)[0] == s[0];
      AbsorbFirst(m, s);
      AbsorbFirst(m, s + t);
      hide Absorb;
      AbsorbJoined(if s[0].id in m then m else m[s[0].id := s[0].value], s[1..], t);
    }
  }

  /** A poll that finds only other results has cached them all. */
  lemma PollMissed(m: map<int, int>, seen: seq<Outcome>, more: seq<Outcome>, id: int)
    requires FirstOf(seen, id) == |seen| && FirstOf(more, id) == |more|
    ensures FirstOf(seen + more, id) == |seen + more|
    ensures Cached(Absorb(m, seen), more, id) == Absorb(m, seen + more)
  {
    hide FirstOf, Absorb;
    FirstOfJoined(seen, more, id);
    AbsorbJoined(m, seen, more);
  }

  /** A poll that finds the request's result leaves the cache and the queue as one queue of all results would. */
  lemma PollFound(
      m: map<int, int>, seen: seq<Outcome>, more: seq<Outcome>, rest: seq<Outcome>, all: seq<Outcome>, id: int)
    requires FirstOf(seen, id) == |seen| && FirstOf(more, id) < |more| && all == seen + more + rest
    ensures Cached(Absorb(m, seen), more, id) == Cached(m, all, id)
    ensures Behind(more, id) + rest == Behind(all, id)
  {
    hide FirstOf, Absorb;
    var k := FirstOf(more, id);
    FirstOfJoined(seen, more, id);
    FirstOfJoined(seen + more, rest, id);
    TakeJoined(seen, more, rest, k + 1);
    AbsorbJoined(m, seen, more[..k + 1]);
  }

  /** One poll, with results `more` in the queue, after `seen` without the request's, and with `rest` still to come. */
  lemma PollOnce(
      m: map<int, int>, seen: seq<Outcome>, more: seq<Outcome>, rest: seq<Outcome>, all: seq<Outcome>, id: int)
    requires FirstOf(seen, id) == |seen| && all == seen + more + rest
    ensures FirstOf(more, id) == |more| ==>
      && FirstOf(seen + more, id) == |seen + more|
      && Cached(Absorb(m, seen), more, id) == Absorb(m, seen + more)
    ensures FirstOf(more, id) < |more| ==>
      && Cached(Absorb(m, seen), more, id) == Cached(m, all, id)
      && Behind(more, id) + rest == Behind(all, id)
  {
    hide FirstOf, Absorb, Cached, Behind;
    if FirstOf(more, id) < |more| {
      PollFound(m, seen, more, rest, all, id);
    } else {
      PollMissed(m, seen, more, id);
    }
  }

  /** The next poll gets what arrives next; if that has the request's result, it is done. */
  lemma NextPoll(
      m: map<int, int>, all: seq<Outcome>, seen: seq<Outcome>, arrivals: seq<seq<Outcome>>, polls: nat, id: int)
    requires polls <= |arrivals| && all == seen + Flatten(arrivals[polls..])
    requires FirstOf(seen, id) == |seen| && FirstOf(all, id) < |all|
    ensures polls < |arrivals| && all == seen + arrivals[polls] + Flatten(arrivals[polls + 1..])
    ensures FirstOf(arrivals[polls], id) == |arrivals[polls]| ==>
      && FirstOf(seen + arrivals[polls], id) == |seen + arrivals[polls]|
      && Cached(Absorb(m, seen), arrivals[polls], id) == Absorb(m, seen + arrivals[polls])
    ensures FirstOf(arrivals[polls], id) < |arrivals[polls]| ==>
      && Cached(Absorb(m, seen), arrivals[polls], id) == Cached(m, all, id)
      && Behind(arrivals[polls], id) + Flatten(arrivals[polls + 1..]) == Behind(all, id)
  {
    FirstOfJoined(seen, Flatten(arrivals[polls..]), id);
    assert arrivals[polls..] != [];
    assert arrivals[polls..][1..] == arrivals[polls + 1..];
    assert seen + (arrivals[polls] + Flatten(arrivals[polls + 1..]))
      == seen + arrivals[polls] + Flatten(arrivals[polls + 1..]);
    PollOnce(m, seen, arrivals[polls], Flatten(arrivals[polls + 1..]), all, id);
  }

  lemma TakeJoined<T>(a: seq<T>, b: seq<T>, c: seq<T>, k: nat)
    requires k <= |b|
    ensures (a + b + c)[..|a| + k] == a + b[..k] && (a + b + c)[|a| + k..] == b[k..] + c
  {
  }

  // ----- the worker's side

  /** What a worker pushes for the task it has taken. */
  function Produced(tasks: seq<Item>, work: int -> int): seq<Outcome> {
    if tasks != [] && tasks[0].Task? && tasks[0].needsResult then [Outcome(tasks[0].id, work(tasks[0].payload))] else []
  }

  /** One round of `worker_loop`: takes at most one item; a sentinel ends the worker, a task is run and its result, if
      wanted, is pushed. */
  method WorkerRound(core: Core, driver: FunctionWorkerDriver, work: int -> int) returns (exits: bool)
    requires driver.Valid() && driver.pendingTask == []
    modifies core`taskQueue, core`resultQueue, driver
    ensures driver.Valid() && driver.pendingTask == []
    ensures exits == (old(core.taskQueue) != [] && old(core.taskQueue)[0].Stop?)
    ensures core.taskQueue == if old(core.taskQueue) == [] then [] else old(core.taskQueue)[1..]
    ensures core.resultQueue == old(core.resultQueue) + Produced(old(core.taskQueue), work)
  {
    ghost var q := core.taskQueue;
    var receivedTask := false;
    var canAdd := driver.CanAddTask();
    while canAdd && core.taskQueue != []
      invariant driver.Valid() && canAdd == (driver.pendingTask == []) && core.resultQueue == old(core.resultQueue)
      invariant if receivedTask then
          q != [] && q[0].Task? && core.taskQueue == q[1..] && driver.pendingTask == [q[0]]
        else core.taskQueue == q && driver.pendingTask == []
      decreases |core.taskQueue|
    {
      var task := core.taskQueue[0];
      core.taskQueue := core.taskQueue[1..];
      receivedTask := true;
      if task.Stop? {
        return true;
      }
      driver.AddTask(task);
      canAdd := driver.CanAddTask();
    }
    var pending := driver.HasPendingTasks();
    if !receivedTask && !pending {
      return false;
    }
    var results := driver.ProcessTasks(work);
    core.resultQueue := core.resultQueue + results;
    return false;
  }

  /** Steps of the machine, one after the other. */
  ghost predicate Steps(u: Setup, states: seq<State>, steps: seq<Step>) {
    && |states| == |steps| + 1
    && forall k, l | 0 <= k < |steps| && l == k + 1 :: Next(u, states[k], states[l], steps[k])
  }

  /** Every round of an idle worker is a sequence of its own steps of the machine: none on an empty queue; a Take on a
      sentinel; a Take, an Execute and, if a result is wanted, a Deliver on a task. */
  lemma RoundIsSteps(u: Setup, v: State, i: nat) returns (states: seq<State>, steps: seq<Step>)
    requires i < |v.workers| && v.workers[i].Idle? && |v.results| < u.capacity
    ensures Steps(u, states, steps) && states[0] == v
    ensures forall s | s in steps :: s == Take(i) || s == Execute(i) || s == Deliver(i)
    ensures var done, q := states[|steps|], v.tasks;
      && done.tasks == (if q == [] then [] else q[1..])
      && done.results == v.results + Produced(q, u.work)
      && done.workers == v.workers[i := if q != [] && q[0].Stop? then Exited else Idle]
      && done.completed == v.completed && done.waiting == v.waiting
  {
    if v.tasks == [] {
      states, steps := [v], [];
    } else if v.tasks[0].Stop? {
      states, steps := [v, SetWorker(v, i, Exited).(tasks := v.tasks[1..])], [Take(i)];
    } else {
      states, steps := TaskRound(u, v, i);
    }
  }

  lemma TaskRound(u: Setup, v: State, i: nat) returns (states: seq<State>, steps: seq<Step>)
    requires i < |v.workers| && v.workers[i].Idle? && v.tasks != [] && v.tasks[0].Task? && |v.results| < u.capacity
    ensures Steps(u, states, steps) && states[0] == v
    ensures forall s | s in steps :: s == Take(i) || s == Execute(i) || s == Deliver(i)
    ensures var done := states[|steps|];
      && done.tasks == v.tasks[1..] && done.results == v.results + Produced(v.tasks, u.work)
      && done.workers == v.workers && done.completed == v.completed && done.waiting == v.waiting
  {
    var t := v.tasks[0];
    var taken := SetWorker(v, i, Loaded(t)).(tasks := v.tasks[1..]);
    var ran := SetWorker(taken, i, if t.needsResult then Holding(Outcome(t.id, u.work(t.payload))) else Idle)
                 .(ghostly := v.ghostly.(ran := v.ghostly.ran + multiset{t}));
    if t.needsResult {
      var done := SetWorker(ran, i, Idle).(results := ran.results + [ran.workers[i].result]);
      assert done.workers == v.workers;
      states, steps := [v, taken, ran, done], [Take(i), Execute(i), Deliver(i)];
    } else {
      assert ran.workers == v.workers;
      states, steps := [v, taken, ran], [Take(i), Execute(i)];
    }
  }

  // ----- stopping

  /** `stop` on as many workers as have been started is a sequence of RequestStop steps, which leaves one sentinel for
      each worker behind all tasks. */
  lemma StopIsSteps(u: Setup, v: State, tasks: seq<Item>) returns (states: seq<State>, steps: seq<Step>)
    requires v.stops == 0 && |v.tasks| + u.workers <= u.capacity
    requires |tasks| == |v.tasks| + u.workers && tasks[..|v.tasks|] == v.tasks
    requires forall i | |v.tasks| <= i < |tasks| :: tasks[i] == Stop
    ensures Steps(u, states, steps) && states[0] == v && forall s | s in steps :: s == RequestStop
    ensures states[|steps|] == v.(tasks := tasks, stops := u.workers)
  {
    states, steps := [v], [];
    for n := 0 to u.workers
      invariant |steps| == n && |states| == n + 1 && states[0] == v && Steps(u, states, steps)
      invariant forall s | s in steps :: s == RequestStop
      invariant states[n] == v.(tasks := tasks[..|v.tasks| + n], stops := n)
    {
      var w := states[n];
      var next := w.(tasks := w.tasks + [Stop], stops := n + 1);
      assert next.tasks == tasks[..|v.tasks| + n + 1];
      assert Next(u, w, next, RequestStop);
      states, steps := states + [next], steps + [RequestStop];
    }
    assert tasks[..|tasks|] == tasks;
  }

  // ----- the draining loop is a run of the machine

  /** The machine after the reaper has cached the first k results. */
  function AfterCaches(v: State, k: nat): State
    requires k <= |v.results|
  {
    v.(results := v.results[k..], completed := Absorb(v.completed, v.results[..k]))
  }

  /** Each item that `take_until_ready` or `cache_until_ready` puts aside is one Cache step; the last one is a ReapHead
      step of the former and a KeepHead step of the latter. */
  lemma DrainIsSteps(u: Setup, v: State, k: nat)
    requires v.waiting.Some? && k < |v.results| && k <= FirstOf(v.results, v.waiting.value)
    ensures k < FirstOf(v.results, v.waiting.value) ==> Next(u, AfterCaches(v, k), AfterCaches(v, k + 1), Cache)
    ensures k == FirstOf(v.results, v.waiting.value) ==>
      Next(u, AfterCaches(v, k),
           AfterCaches(v, k).(results := v.results[k + 1..], waiting := None,
                              ghostly := v.ghostly.(outstanding := v.ghostly.outstanding - {v.waiting.value})),
           ReapHead(v.waiting.value, v.results[k].value))
    ensures k == FirstOf(v.results, v.waiting.value) ==>
      Next(u, AfterCaches(v, k), AfterCaches(v, k + 1).(waiting := None), KeepHead)
  {
    assert v.results[..k + 1] == v.results[..k] + [v.results[k]];
    AbsorbPush(v.completed, v.results[..k], v.results[k]);
    assert v.results[k..][1..] == v.results[k + 1..];
  }

  lemma CachesAreSteps(u: Setup, v: State, k: nat) returns (states: seq<State>, steps: seq<Step>)
    requires v.waiting.Some? && k <= FirstOf(v.results, v.waiting.value)
    ensures Steps(u, states, steps) && states[0] == v && |steps| == k && states[k] == AfterCaches(v, k)
    ensures forall s | s in steps :: s == Cache
  {
    states, steps := [v], [];
    assert v.results[0..] == v.results && v.results[..0] == [];
    for n := 0 to k
      invariant |steps| == n && |states| == n + 1 && states[0] == v && Steps(u, states, steps)
      invariant forall s | s in steps :: s == Cache
      invariant states[n] == AfterCaches(v, n)
    {
      DrainIsSteps(u, v, n);
      states, steps := states + [AfterCaches(v, n + 1)], steps + [Cache];
    }
  }

  lemma StepsPush(u: Setup, states: seq<State>, steps: seq<Step>, w: State, step: Step)
    requires Steps(u, states, steps) && Next(u, states[|steps|], w, step)
    ensures Steps(u, states + [w], steps + [step])
  {
  }

  /** `cache_until_ready` is a run of the machine: what the method leaves in queue and cache is what the steps leave. */
  lemma CacheUntilReadyIsSteps(u: Setup, v: State) returns (states: seq<State>, steps: seq<Step>)
    requires v.waiting.Some?
    ensures Steps(u, states, steps) && states[0] == v
    ensures forall s | s in steps :: s == Cache || s == KeepHead || s == GiveUp
    ensures var id := v.waiting.value;
      states[|steps|] == v.(results := Behind(v.results, id), completed := Cached(v.completed, v.results, id),
                            waiting := None)
  {
    var k := FirstOf(v.results, v.waiting.value);
    states, steps := CachesAreSteps(u, v, k);
    if k < |v.results| {
      DrainIsSteps(u, v, k);
      StepsPush(u, states, steps, AfterCaches(v, k + 1).(waiting := None), KeepHead);
      states, steps := states + [AfterCaches(v, k + 1).(waiting := None)], steps + [KeepHead];
    } else {
      assert v.results[..k] == v.results && v.results[k..] == [];
      StepsPush(u, states, steps, AfterCaches(v, k).(waiting := None), GiveUp);
      states, steps := states + [AfterCaches(v, k).(waiting := None)], steps + [GiveUp];
    }
  }

  /** So is `take_until_ready`. */
  lemma TakeUntilReadyIsSteps(u: Setup, v: State) returns (states: seq<State>, steps: seq<Step>)
    requires v.waiting.Some?
    ensures Steps(u, states, steps) && states[0] == v
    ensures var id, q, done := v.waiting.value, v.results, states[|steps|];
      var k := FirstOf(q, id);
      && done.completed == Absorb(v.completed, q[..k]) && done.waiting == None
      && done.tasks == v.tasks && done.workers == v.workers
      && if k < |q| then steps != [] && steps[|steps| - 1] == ReapHead(id, q[k].value) && done.results == q[k + 1..]
         else done.results == [] && forall s | s in steps :: s == Cache || s == GiveUp
  {
    var id := v.waiting.value;
    var k := FirstOf(v.results, id);
    states, steps := CachesAreSteps(u, v, k);
    if k < |v.results| {
      DrainIsSteps(u, v, k);
      var done := AfterCaches(v, k).(results := v.results[k + 1..], waiting := None,
                                     ghostly := v.ghostly.(outstanding := v.ghostly.outstanding - {id}));
      StepsPush(u, states, steps, done, ReapHead(id, v.results[k].value));
      states, steps := states + [done], steps + [ReapHead(id, v.results[k].value)];
    } else {
      assert v.results[..k] == v.results && v.results[k..] == [];
      StepsPush(u, states, steps, AfterCaches(v, k).(waiting := None), GiveUp);
      states, steps := states + [AfterCaches(v, k).(waiting := None)], steps + [GiveUp];
    }
  }

  // ----- the driver

  class FunctionWorkerDriver {
    var pendingTask: seq<Item>   // at most one

    predicate Valid()
      reads this
    {
      |pendingTask| <= 1 && forall t | t in pendingTask :: t.Task?
    }

    constructor ()
      ensures Valid() && pendingTask == []
    {
      pendingTask := [];
    }

    method CanAddTask() returns (r: bool)
      requires Valid()
      ensures r == (pendingTask == [])
    {
      return |pendingTask| == 0;
    }

    method AddTask(t: Item)
      requires Valid() && pendingTask == [] && t.Task?
      modifies this
      ensures Valid() && pendingTask == [t]
    {
      pendingTask := [t];
    }

    method HasPendingTasks() returns (r: bool)
      ensures r == (pendingTask != [])
    {
      return pendingTask != [];
    }

    /** Runs the pending task; a result is produced only if one is wanted. */
    method ProcessTasks(work: int -> int) returns (results: seq<Outcome>)
      requires Valid()
      modifies this
      ensures Valid() && pendingTask == []
      ensures results == if old(pendingTask) != [] && old(pendingTask)[0].needsResult
        then [Outcome(old(pendingTask)[0].id, work(old(pendingTask)[0].payload))] else []
    {
      if pendingTask == [] {
        return [];
      }
      var task := pendingTask[0];
      pendingTask := [];
      var result := work(task.payload);
      if !task.needsResult {
        return [];
      }
      return [Outcome(task.id, result)];
    }
  }

  // ----- request ids

  const ID_RANGE: nat := 0x8000_0000

  class RequestIds {
    var executorRequestId: int

    predicate Valid()
      reads this
    {
      0 <= executorRequestId < ID_RANGE
    }

    constructor ()
      ensures Valid() && executorRequestId == 0
    {
      executorRequestId := 0;
    }

    /** `next_executor_request_id`: (id + 1) & 0x7fffffff on unsigned ints. */
    method NextId() returns (requestId: int)
      requires Valid()
      modifies this
      ensures Valid() && requestId == old(executorRequestId)
      ensures executorRequestId == NthId(requestId, 1) == (requestId + 1) % 0x8000_0000
      ensures requestId != -1
    {
      requestId := executorRequestId;
      executorRequestId := (requestId + 1) % ID_RANGE;
    }
  }

  /** The id given k calls after id x. */
  function NthId(x: nat, k: nat): nat {
    (x + k) % ID_RANGE
  }

  lemma NthIdStep(x: nat, k: nat)
    ensures NthId(NthId(x, k), 1) == NthId(x, k + 1)
  {
  }

  /** Ids repeat exactly every 2^31 calls: any 2^31 consecutive ones are distinct. */
  lemma IdsDistinct(x: nat, j: nat, k: nat)
    requires x < 0x8000_0000 && j < k
    ensures k < j + 0x8000_0000 ==> NthId(x, j) != NthId(x, k)
    ensures NthId(x, j) == NthId(x, k) <==> (k - j) % 0x8000_0000 == 0
  {
  }

  /** An id that is given out is not outstanding, as long as what is outstanding was given out within the last 2^31 - 1
      calls. */
  lemma NextIdIsFree(x: nat, calls: nat, span: nat, outstanding: set<int>)
    requires x < ID_RANGE && span <= calls && span < ID_RANGE
    requires forall id | id in outstanding :: GivenOut(x, calls - span, calls, id)
    ensures NthId(x, calls) !in outstanding && NthId(x, calls) != STOP_REQUEST_ID
  {
    if NthId(x, calls) in outstanding {
      assert GivenOut(x, calls - span, calls, NthId(x, calls));
      var k: nat :| calls - span <= k < calls && NthId(x, k) == NthId(x, calls);
      IdsDistinct(x, k, calls);
    }
  }

  /** The id was given out by one of these calls. */
  ghost predicate GivenOut(x: nat, from: int, upto: nat, id: int) {
    exists k: nat | from <= k < upto :: NthId(x, k) == id
  }

  /** The loader asks for at most numThreads + 2 ids for a chunk (csrc/loader_io_inmem.cpp:45-88) and has at most 1024
      chunks in flight, so with fewer than two million threads the executors' condition on ids is met. */
  lemma WindowIdsAreFree(x: nat, calls: nat, numThreads: nat, inFlight: nat, outstanding: set<int>)
    requires x < ID_RANGE && numThreads < 2_000_000 && inFlight <= MAX_PREFETCH_CHUNKS
    requires forall id | id in outstanding :: GivenOut(x, calls - inFlight * (numThreads + 2), calls, id)
    ensures NthId(x, calls) !in outstanding && NthId(x, calls) != STOP_REQUEST_ID
  {
    MulLe(inFlight, MAX_PREFETCH_CHUNKS, numThreads + 2);
    var span := inFlight * (numThreads + 2);
    NextIdIsFree(x, calls, if span <= calls then span else calls, outstanding);
  }
}
