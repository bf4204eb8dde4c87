/**
 The imperative side of image-reader.service.ts: the fields of the worker pool, changed by each
 stretch of code between two awaits, and the bounded parallel map.
 */
module ImageReader {
  import opened Wrappers
  import opened OcrPool

  /** `creating`, `held`, `discarding`, `terminating`, `again` and `stuck` stand for the suspended calls. */
  class OcrWorkers {
    const capacity: nat
    var workers: seq<Worker>
    var idleWorkers: seq<Worker>
    var waiting: seq<Task>
    var idleTimer: bool
    var creating: map<Worker, Task>
    var held: map<Task, Worker>
    var discarding: map<Worker, seq<Worker>>
    var terminating: nat
    var nextWorker: Worker
    var again: set<Worker>
    var stuck: set<Task>

    constructor (capacity: nat)
      ensures this.capacity == capacity && State() == EMPTY
    {
      this.capacity := capacity;
      workers, idleWorkers, waiting, idleTimer := [], [], [], false;
      creating, held, discarding, terminating, nextWorker := map[], map[], map[], 0, 0;
      again, stuck := {}, {};
    }

    ghost function State(): Pool
      reads this
    {
      Pool(workers, idleWorkers, waiting, idleTimer, creating, held, discarding, terminating, nextWorker, again, stuck)
    }

    method AcquireWorker(t: Task)
      requires !Asking(State(), t) && t !in stuck
      modifies this
      ensures State() == Next(capacity, old(State()), Acquire(t))
    {
      Take(t);
    }

    method Take(t: Task)
      modifies this
      ensures State() == OcrPool.AcquireWorker(capacity, old(State()), t)
    {
      idleTimer := false;
      if |idleWorkers| > 0 {
        var idle := idleWorkers[|idleWorkers| - 1];
        idleWorkers := idleWorkers[..|idleWorkers| - 1];
        held := held[t := idle];
      } else if |workers| < capacity {
        workers := workers + [nextWorker];
        creating := creating[nextWorker := t];
        nextWorker := nextWorker + 1;
      } else {
        waiting := waiting + [t];
      }
    }

    method FinishCreation(w: Worker, ok: bool)
      requires w in creating
      modifies this
      ensures State() == Next(capacity, old(State()), if ok then Created(w) else CreateFailed(w))
    {
      hide RemoveAt, IndexOf;
      var t := creating[w];
      creating := creating - {w};
      if ok {
        held := held[t := w];
      } else {
        var i := IndexOf(workers, w);
        if i.Some? { workers := RemoveAt(workers, i.value); }
        else if |workers| > 0 { workers := workers[..|workers| - 1]; }
        if w in again { stuck := stuck + {t}; }
      }
      again := again - {w};
    }

    method ReleaseWorker(t: Task)
      requires t in held
      modifies this
      ensures State() == Next(capacity, old(State()), Release(t))
    {
      var worker := held[t];
      held := held - {t};
      if |waiting| > 0 {
        var next := waiting[0];
        waiting := waiting[1..];
        held := held[next := worker];
      } else {
        idleWorkers := idleWorkers + [worker];
        if |idleWorkers| == |workers| { idleTimer := true; }
      }
    }

    /** `discardWorker` up to its first await: the list is copied. */
    method StartDiscard(t: Task)
      requires t in held
      modifies this
      ensures State() == Next(capacity, old(State()), Discard(t))
    {
      var worker := held[t];
      held := held - {t};
      discarding := discarding[worker := workers];
    }

    /** Between its two awaits: the position found in the copy is removed from the list. */
    method RemoveDiscarded(w: Worker)
      requires w in discarding && forall x :: x in discarding[w] ==> x !in creating
      modifies this
      ensures State() == Next(capacity, old(State()), Splice(w))
    {
      var index := IndexOf(discarding[w], w);
      if index.Some? { workers := RemoveAt(workers, index.value); }
      discarding := discarding - {w};
      terminating := terminating + 1;
    }

    /** After the worker is terminated: one waiting reading asks again. */
    method AfterTermination()
      requires terminating > 0
      modifies this
      ensures State() == Next(capacity, old(State()), Terminated)
    {
      terminating := terminating - 1;
      if |waiting| > 0 {
        var next := waiting[0];
        waiting := waiting[1..];
        var made := nextWorker;
        Take(next);
        if nextWorker > made { again := again + {made}; }
      }
    }

    method TerminateWorkers()
      requires idleTimer
      modifies this
      ensures State() == Next(capacity, old(State()), TimerFired)
    {
      workers, idleWorkers, idleTimer := [], [], false;
    }
  }

  // ----- mapWithLimit -----

  /** What a runner is doing: nothing yet, an item, or it is over. */
  datatype Runner = Ready | On(index: nat) | Over

  function InFlight(rs: seq<Runner>): nat {
    if rs == [] then 0 else (if rs[0].On? then 1 else 0) + InFlight(rs[1..])
  }

  lemma {:induction false} InFlightBound(rs: seq<Runner>)
    ensures InFlight(rs) <= |rs|
  {
    if rs != [] { InFlightBound(rs[1..]); }
  }

  function Waits(rs: seq<Runner>): nat {
    if rs == [] then 0 else (if rs[0].Over? then 0 else if rs[0].On? then 2 else 1) + Waits(rs[1..])
  }

  predicate Running(rs: seq<Runner>, i: nat) {
    exists k :: 0 <= k < |rs| && rs[k] == On(i)
  }

  predicate WasRunning(turns: seq<seq<Runner>>, i: nat) {
    exists t :: 0 <= t < |turns| && Running(turns[t], i)
  }

  lemma {:induction false} TurnAdded(turns: seq<seq<Runner>>, rs: seq<Runner>)
    ensures forall i :: WasRunning(turns, i) || Running(rs, i) ==> WasRunning(turns + [rs], i)
  {
    var more := turns + [rs];
    forall i | WasRunning(turns, i) || Running(rs, i) ensures WasRunning(more, i) {
      if WasRunning(turns, i) {
        var t :| 0 <= t < |turns| && Running(turns[t], i);
        assert more[t] == turns[t];
      } else {
        assert more[|turns|] == rs;
      }
    }
  }

  /** One runner goes on: the measure of the others and the items they hold are the same. */
  lemma {:induction false} RunnerGoesOn(rs: seq<Runner>, k: nat, r: Runner)
    requires k < |rs|
    ensures forall i :: Running(rs, i) && rs[k] != On(i) ==> Running(rs[k := r], i)
    ensures r.On? ==> Running(rs[k := r], r.index)
    ensures Waits(rs[k := r]) == Waits(rs) - Waits([rs[k]]) + Waits([r])
  {
    WaitsUpdate(rs, k, r);
    assert r.On? ==> rs[k := r][k] == On(r.index);
    forall i | Running(rs, i) && rs[k] != On(i) ensures Running(rs[k := r], i) {
      var m :| 0 <= m < |rs| && rs[m] == On(i);
      assert rs[k := r][m] == On(i);
    }
  }

  lemma {:induction false} WaitsUpdate(rs: seq<Runner>, k: nat, r: Runner)
    requires k < |rs|
    ensures Waits(rs[k := r]) == Waits(rs) - Waits([rs[k]]) + Waits([r])
  {
    if k == 0 {
      assert rs[0 := r][1..] == rs[1..];
    } else {
      WaitsUpdate(rs[1..], k - 1, r);
      assert rs[k := r][1..] == rs[1..][k - 1 := r];
    }
  }

  /** The items from `next` on are untouched; each earlier one is with a runner or has its result. */
  ghost predicate Progress<T, R>(items: seq<T>, task: (T, nat) -> Option<R>, rs: seq<Runner>, results: seq<Option<R>>,
          next: nat, failed: bool) {
    && |results| == |items| && next <= |items|
    && (forall k :: 0 <= k < |rs| && rs[k].On? ==> rs[k].index < next)
    && (forall i :: next <= i < |items| ==> results[i] == None)
    && (forall i :: 0 <= i < next ==> results[i] == task(items[i], i) || Running(rs, i))
    && (failed ==> exists i :: 0 <= i < next && task(items[i], i).None?)
    && (!failed ==> forall i :: 0 <= i < next && task(items[i], i).None? ==> Running(rs, i))
    && (!failed ==> forall k :: 0 <= k < |rs| && rs[k].Over? ==> next == |items|)
  }

  lemma {:induction false} WaitsOf(r: Runner)
    ensures Waits([r]) == if r.Over? then 0 else if r.On? then 2 else 1
  {
    assert [r][1..] == [];
  }

  lemma {:induction false} Starts<T, R>(items: seq<T>, task: (T, nat) -> Option<R>, rs: seq<Runner>,
          results: seq<Option<R>>, next: nat, failed: bool, k: nat)
    requires Progress(items, task, rs, results, next, failed) && k < |rs| && rs[k].Ready? && next < |items|
    ensures Progress(items, task, rs[k := On(next)], results, next + 1, failed) && Running(rs[k := On(next)], next)
    ensures Waits(rs[k := On(next)]) == Waits(rs) + 1
  {
    RunnerGoesOn(rs, k, On(next));
    WaitsOf(rs[k]);
    WaitsOf(On(next));
  }

  lemma {:induction false} Finishes<T, R>(items: seq<T>, task: (T, nat) -> Option<R>, rs: seq<Runner>,
          results: seq<Option<R>>, next: nat, failed: bool, k: nat)
    requires Progress(items, task, rs, results, next, failed) && k < |rs| && rs[k].On?
    ensures rs[k].index < |items| == |results|
    ensures var i := rs[k].index;
      var r := task(items[i], i);
      var after := if r.None? then Over else Ready;
      Progress(items, task, rs[k := after], results[i := r], next, failed || r.None?)
        && Waits(rs[k := after]) < Waits(rs)
  {
    var i := rs[k].index;
    var after := if task(items[i], i).None? then Over else Ready;
    RunnerGoesOn(rs, k, after);
    WaitsOf(rs[k]);
    WaitsOf(after);
  }

  lemma {:induction false} Ends<T, R>(items: seq<T>, task: (T, nat) -> Option<R>, rs: seq<Runner>,
          results: seq<Option<R>>, next: nat, failed: bool, k: nat)
    requires Progress(items, task, rs, results, next, failed) && k < |rs| && rs[k].Ready? && next == |items|
    ensures Progress(items, task, rs[k := Over], results, next, failed) && Waits(rs[k := Over]) < Waits(rs)
  {
    RunnerGoesOn(rs, k, Over);
    WaitsOf(rs[k]);
    WaitsOf(Over);
  }

  /** Once every runner is over. */
  lemma {:induction false} AllOver<T, R>(items: seq<T>, task: (T, nat) -> Option<R>, rs: seq<Runner>,
          results: seq<Option<R>>, next: nat, failed: bool)
    requires Progress(items, task, rs, results, next, failed) && (forall k :: 0 <= k < |rs| ==> rs[k].Over?)
    requires (rs == [] ==> items == [])
    ensures |results| == |items| && next <= |items| && (!failed ==> next == |items|)
    ensures forall i :: 0 <= i < |items| ==> results[i] == if i < next then task(items[i], i) else None
    ensures failed <==> exists i :: 0 <= i < next && task(items[i], i).None?
  {
    assert rs != [] ==> rs[0].Over?;
  }

  lemma {:induction false} AllReady<T, R>(items: seq<T>, task: (T, nat) -> Option<R>, rs: seq<Runner>)
    requires forall k :: 0 <= k < |rs| ==> rs[k].Ready?
    ensures Progress(items, task, rs, seq(|items|, i => None), 0, false)
  {
  }

  /**
   `mapWithLimit`: `limit` runners share the counter `next`. At each turn any runner may go on (to
   its next item, or past the end of its task), so every interleaving is covered. A task that fails
   stops its runner and the whole call fails; the other runners still empty the list.
   */
  method MapWithLimit<T, R>(items: seq<T>, limit: nat, task: (T, nat) -> Option<R>)
    returns (results: seq<Option<R>>, failed: bool, ghost started: seq<nat>, ghost turns: seq<seq<Runner>>)
    requires limit > 0 || items == []
    ensures |results| == |items|
    // Items are started one by one, in order, each once.
    ensures |started| <= |items| && started == seq(|started|, i => i)
    ensures forall i :: 0 <= i < |items| ==>
      results[i] == if i < |started| then task(items[i], i) else None
    ensures failed <==> exists i :: 0 <= i < |started| && task(items[i], i).None?
    ensures !failed ==> |started| == |items|
    // At no turn are there more than `limit` items in flight, and every item started was in flight at some turn.
    ensures forall t :: 0 <= t < |turns| ==> InFlight(turns[t]) <= limit
    ensures forall i :: 0 <= i < |started| ==> WasRunning(turns, i)
  {
    hide WasRunning, Running, Progress, Waits, InFlight;
    results := seq(|items|, i => None);
    failed, started, turns := false, [], [];
    var next := 0;
    var runners := seq(if limit < |items| then limit else |items|, i => Ready);
    AllReady(items, task, runners);
    while exists k :: 0 <= k < |runners| && !runners[k].Over?
      invariant next <= |items| == |results| && started == seq(next, i => i)
      invariant |runners| == if limit < |items| then limit else |items|
      invariant forall t :: 0 <= t < |turns| ==> InFlight(turns[t]) <= limit
      invariant forall i :: 0 <= i < next ==> WasRunning(turns, i)
      invariant Progress(items, task, runners, results, next, failed)
      decreases 2 * (|items| - next) + Waits(runners)
    {
      var k :| 0 <= k < |runners| && !runners[k].Over?;
      if runners[k].On? {
        Finishes(items, task, runners, results, next, failed, k);
        var index := runners[k].index;
        var result := task(items[index], index);
        results := results[index := result];
        if result.None? { failed := true; }
        runners := runners[k := if result.None? then Over else Ready];
      } else if next < |items| {
        Starts(items, task, runners, results, next, failed, k);
        runners := runners[k := On(next)];
        started := started + [next];
        next := next + 1;
      } else {
        Ends(items, task, runners, results, next, failed, k);
        runners := runners[k := Over];
      }
      InFlightBound(runners);
      TurnAdded(turns, runners);
      turns := turns + [runners];
    }
    AllOver(items, task, runners, results, next, failed);
  }
}
