/**
 The pool of OCR workers (image-reader.service.ts) as the atomic steps between its awaits. Any
 interleaving of these steps is a run. `discardWorker` looks a worker up in a copy of the list
 taken before an await; the position it finds may be stale when it is used.
 */
module OcrPool {
  import opened Wrappers

  type Worker = nat
  type Task = nat

  /**
   `creating` and `held` say which task a worker is made or used for; `discarding` keeps, for a
   worker whose removal is under way, the copy of the list; `terminating` counts workers removed
   from the list but not yet terminated. `next` names the next worker. `again` are the workers made for
   a reading that was waiting; `stuck` the readings whose promise is never settled.
   */
  datatype Pool = Pool(
    workers: seq<Worker>,
    idle: seq<Worker>,
    waiting: seq<Task>,
    timer: bool,
    creating: map<Worker, Task>,
    held: map<Task, Worker>,
    discarding: map<Worker, seq<Worker>>,
    terminating: nat,
    next: Worker,
    again: set<Worker>,
    stuck: set<Task>)

  datatype Event =
    | Acquire(t: Task)
    | Created(w: Worker)
    | CreateFailed(w: Worker)
    | Release(t: Task)
    | Discard(t: Task)
    | Splice(w: Worker)
    | Terminated
    | TimerFired

  const EMPTY := Pool([], [], [], false, map[], map[], map[], 0, 0, {}, {})

  function IndexOf(s: seq<Worker>, w: Worker): (r: Option<nat>)
    ensures r.Some? ==> r.value < |s| && s[r.value] == w
    ensures r.None? <==> w !in s
  {
    if s == [] then None
    else if s[0] == w then Some(0)
    else
      var r := IndexOf(s[1..], w);
      if r.None? then None else Some(r.value + 1)
  }

  /** JavaScript's `splice(index, 1)` for an index from the start. */
  function RemoveAt<T>(s: seq<T>, i: nat): seq<T> {
    if i < |s| then s[..i] + s[i + 1..] else s
  }

  /** `splice(indexOf(w), 1)`: with -1 it removes the last element. */
  function RemoveFound(s: seq<Worker>, w: Worker): seq<Worker> {
    var i := IndexOf(s, w);
    if i.Some? then RemoveAt(s, i.value) else if s == [] then s else s[..|s| - 1]
  }

  function TakeIdle(p: Pool, t: Task): Pool
    requires p.idle != []
  {
    p.(idle := p.idle[..|p.idle| - 1], held := p.held[t := p.idle[|p.idle| - 1]], timer := false)
  }

  function StartCreation(p: Pool, t: Task): Pool {
    p.(workers := p.workers + [p.next], creating := p.creating[p.next := t], next := p.next + 1, timer := false)
  }

  function AcquireWorker(capacity: nat, p: Pool, t: Task): Pool {
    if p.idle != [] then TakeIdle(p, t)
    else if |p.workers| < capacity then StartCreation(p, t)
    else p.(waiting := p.waiting + [t], timer := false)
  }

  predicate Asking(p: Pool, t: Task) {
    t in p.held || t in p.waiting || t in p.creating.Values
  }

  predicate Enabled(p: Pool, e: Event) {
    match e
    case Acquire(t) => !Asking(p, t) && t !in p.stuck
    case Created(w) => w in p.creating
    case CreateFailed(w) => w in p.creating
    case Release(t) => t in p.held
    case Discard(t) => t in p.held
    case Splice(w) => w in p.discarding && forall x :: x in p.discarding[w] ==> x !in p.creating
    case Terminated => p.terminating > 0
    case TimerFired => p.timer
  }

  function CreateDone(p: Pool, w: Worker): Pool
    requires w in p.creating
  {
    p.(creating := p.creating - {w}, held := p.held[p.creating[w] := w], again := p.again - {w})
  }

  /** A reading that asks for itself fails; the failure of one that was asked for again is dropped. */
  function CreateFail(p: Pool, w: Worker): Pool
    requires w in p.creating
  {
    p.(creating := p.creating - {w}, workers := RemoveFound(p.workers, w),
       again := p.again - {w}, stuck := p.stuck + if w in p.again then {p.creating[w]} else {})
  }

  function ReleaseWorker(p: Pool, t: Task): Pool
    requires t in p.held
  {
    var w := p.held[t];
    if p.waiting != [] then p.(held := (p.held - {t})[p.waiting[0] := w], waiting := p.waiting[1..])
    else
      var q := p.(held := p.held - {t}, idle := p.idle + [w]);
      if |q.idle| == |q.workers| then q.(timer := true) else q
  }

  function StartDiscard(p: Pool, t: Task): Pool
    requires t in p.held
  {
    p.(held := p.held - {t}, discarding := p.discarding[p.held[t] := p.workers])
  }

  function SpliceOut(p: Pool, w: Worker): Pool
    requires w in p.discarding
  {
    var i := IndexOf(p.discarding[w], w);
    p.(workers := if i.Some? then RemoveAt(p.workers, i.value) else p.workers,
       discarding := p.discarding - {w}, terminating := p.terminating + 1)
  }

  /** A worker may be made for a reading that was waiting. */
  function AskAgain(capacity: nat, p: Pool, t: Task): Pool {
    var q := AcquireWorker(capacity, p, t);
    if q.next > p.next then q.(again := q.again + {p.next}) else q
  }

  function AfterTerminate(capacity: nat, p: Pool): Pool
    requires p.terminating > 0
  {
    var q := p.(terminating := p.terminating - 1);
    if q.waiting == [] then q else AskAgain(capacity, q.(waiting := q.waiting[1..]), q.waiting[0])
  }

  function Next(capacity: nat, p: Pool, e: Event): Pool
    requires Enabled(p, e)
  {
    match e
    case Acquire(t) => AcquireWorker(capacity, p, t)
    case Created(w) => CreateDone(p, w)
    case CreateFailed(w) => CreateFail(p, w)
    case Release(t) => ReleaseWorker(p, t)
    case Discard(t) => StartDiscard(p, t)
    case Splice(w) => SpliceOut(p, w)
    case Terminated => AfterTerminate(capacity, p)
    case TimerFired => p.(workers := [], idle := [], timer := false)
  }

  // ----- safety -----

  /** Workers in service: idle, held, being created or being discarded. */
  function Service(p: Pool): nat {
    |p.idle| + |p.held| + |p.creating| + |p.discarding|
  }

  /** Every worker in service serves one purpose only. */
  ghost predicate Exclusive(p: Pool) {
    && (forall i, j :: 0 <= i < j < |p.idle| ==> p.idle[i] != p.idle[j])
    && (forall t, u :: t in p.held && u in p.held && t != u ==> p.held[t] != p.held[u])
    && (forall t :: t in p.held ==> p.held[t] !in p.idle && p.held[t] !in p.creating && p.held[t] !in p.discarding)
    && (forall w :: w in p.idle ==> w !in p.creating && w !in p.discarding)
    && (forall w :: w in p.creating ==> w !in p.discarding)
  }

  ghost predicate Named(p: Pool) {
    && (forall w :: w in p.workers || w in p.idle || w in p.creating || w in p.discarding ==> w < p.next)
    && (forall t :: t in p.held ==> p.held[t] < p.next)
  }

  /** Tasks ask for one worker at a time. */
  ghost predicate OneRequest(p: Pool) {
    && (forall i, j :: 0 <= i < j < |p.waiting| ==> p.waiting[i] != p.waiting[j])
    && (forall t :: t in p.waiting ==> t !in p.held && t !in p.creating.Values)
    && (forall w, x :: w in p.creating && x in p.creating && w != x ==> p.creating[w] != p.creating[x])
    && (forall w :: w in p.creating ==> p.creating[w] !in p.held)
  }

  ghost predicate Serves(p: Pool, w: Worker) {
    w in p.idle || w in p.held.Values || w in p.creating || (w in p.discarding && w in p.discarding[w])
  }

  ghost predicate Counted(capacity: nat, p: Pool) {
    && Service(p) <= |p.workers| <= capacity
    && (p.waiting != [] ==> p.idle == [])
    && (p.timer ==> |p.idle| == |p.workers| && p.waiting == [])
  }

  /** In a full list the last worker serves, and its removal is still to come. */
  ghost predicate LastServes(capacity: nat, p: Pool) {
    && (|p.workers| == capacity && capacity > 0 ==> Serves(p, p.workers[capacity - 1]))
    && (forall w :: w in p.discarding ==> |p.discarding[w]| <= capacity)
  }

  ghost predicate Safe(capacity: nat, p: Pool) {
    Counted(capacity, p) && Exclusive(p) && Named(p) && OneRequest(p) && LastServes(capacity, p)
  }

  lemma {:induction false} MapSizes<K, V>(m: map<K, V>, k: K, v: V)
    ensures k in m ==> |m - {k}| == |m| - 1
    ensures |m[k := v]| == if k in m then |m| else |m| + 1
  {
    assert (m - {k}).Keys == m.Keys - {k};
    assert m[k := v].Keys == m.Keys + {k};
  }

  lemma {:induction false} AcquireCounted(capacity: nat, p: Pool, t: Task)
    requires Counted(capacity, p) && Exclusive(p) && Named(p) && !Asking(p, t)
    ensures Counted(capacity, AcquireWorker(capacity, p, t))
  {
    hide Exclusive;
    if p.idle != [] { MapSizes(p.held, t, p.idle[|p.idle| - 1]); } else { MapSizes(p.creating, p.next, t); }
  }

  lemma {:induction false} TakeIdleExclusive(p: Pool, t: Task)
    requires Exclusive(p) && Named(p) && OneRequest(p) && !Asking(p, t) && p.idle != []
    ensures var q := TakeIdle(p, t); Exclusive(q) && Named(q) && OneRequest(q)
  {
    InCreating(p);
  }

  lemma {:induction false} InCreating(p: Pool)
    ensures forall w :: w in p.creating ==> p.creating[w] in p.creating.Values
  {
  }

  lemma {:induction false} CreationExclusive(p: Pool, t: Task)
    requires Exclusive(p) && Named(p)
    ensures var q := StartCreation(p, t); Exclusive(q) && Named(q)
  {
  }

  lemma {:induction false} CreationRequests(p: Pool, t: Task)
    requires Named(p) && OneRequest(p) && !Asking(p, t)
    ensures OneRequest(StartCreation(p, t))
  {
    var q := StartCreation(p, t);
    assert p.next !in p.creating;
    hide Named;
    InCreating(p);
    forall x | x in q.creating.Values ensures x in p.creating.Values || x == t {}
  }

  lemma {:induction false} WaitingExclusive(p: Pool, t: Task)
    requires Exclusive(p) && Named(p) && OneRequest(p) && !Asking(p, t)
    ensures var q := p.(waiting := p.waiting + [t], timer := false); Exclusive(q) && Named(q) && OneRequest(q)
  {
  }

  lemma {:induction false} AcquireExclusive(capacity: nat, p: Pool, t: Task)
    requires Exclusive(p) && Named(p) && OneRequest(p) && !Asking(p, t)
    ensures var q := AcquireWorker(capacity, p, t); Exclusive(q) && Named(q) && OneRequest(q)
  {
    hide Exclusive, Named, OneRequest, TakeIdle, StartCreation, Asking;
    if p.idle != [] {
      TakeIdleExclusive(p, t);
    } else if |p.workers| < capacity {
      CreationExclusive(p, t);
      CreationRequests(p, t);
    } else {
      WaitingExclusive(p, t);
    }
  }

  lemma {:induction false} AcquireLastServes(capacity: nat, p: Pool, t: Task)
    requires LastServes(capacity, p) && !Asking(p, t)
    ensures LastServes(capacity, AcquireWorker(capacity, p, t))
  {
    var q := AcquireWorker(capacity, p, t);
    if p.idle != [] { assert q.held[t] in q.held.Values; }
    forall w | w in p.held.Values
      ensures w in q.held.Values
    {
      var u :| u in p.held && p.held[u] == w;
      assert q.held[u] == w;
    }
  }

  lemma {:induction false} HeldStays(a: map<Task, Worker>, b: map<Task, Worker>, t: Task, w: Worker)
    requires b == a[t := w] && t !in a
    ensures b.Values == a.Values + {w}
  {
    forall x | x in a.Values ensures x in b.Values { var u :| u in a && a[u] == x; assert b[u] == x; }
    assert b[t] == w;
  }

  /** A task gives its worker up: the others keep theirs. */
  lemma {:induction false} HeldMoves(p: Pool, q: Pool, t: Task)
    requires t in p.held && (forall u :: u in p.held && u != t ==> u in q.held && q.held[u] == p.held[u])
    ensures forall x :: x in p.held.Values && x != p.held[t] ==> x in q.held.Values
  {
    forall x | x in p.held.Values && x != p.held[t] ensures x in q.held.Values {
      var u :| u in p.held && p.held[u] == x;
      assert q.held[u] == x;
    }
  }

  lemma {:induction false} AcquireSafe(capacity: nat, p: Pool, t: Task)
    requires Safe(capacity, p) && !Asking(p, t)
    ensures Safe(capacity, AcquireWorker(capacity, p, t))
  {
    hide AcquireWorker, Counted, Exclusive, Named, OneRequest, LastServes, Asking;
    AcquireCounted(capacity, p, t);
    AcquireExclusive(capacity, p, t);
    AcquireLastServes(capacity, p, t);
  }

  lemma {:induction false} CreateDoneSafe(capacity: nat, p: Pool, w: Worker)
    requires Safe(capacity, p) && w in p.creating
    ensures Safe(capacity, CreateDone(p, w))
  {
    hide Counted, Exclusive, Named, OneRequest, LastServes, CreateDone;
    CreateDoneCounted(capacity, p, w);
    CreateDoneExclusive(p, w);
    CreateDoneRequests(p, w);
    CreateDoneServes(capacity, p, w);
  }

  lemma {:induction false} CreateDoneCounted(capacity: nat, p: Pool, w: Worker)
    requires Counted(capacity, p) && OneRequest(p) && w in p.creating
    ensures Counted(capacity, CreateDone(p, w))
  {
    MapSizes(p.creating, w, 0);
    MapSizes(p.held, p.creating[w], w);
  }

  lemma {:induction false} CreateDoneExclusive(p: Pool, w: Worker)
    requires Exclusive(p) && Named(p) && w in p.creating
    ensures Exclusive(CreateDone(p, w)) && Named(CreateDone(p, w))
  {
  }

  lemma {:induction false} CreateDoneServes(capacity: nat, p: Pool, w: Worker)
    requires LastServes(capacity, p) && OneRequest(p) && w in p.creating
    ensures LastServes(capacity, CreateDone(p, w))
  {
    var t := p.creating[w];
    assert t !in p.held;
    hide OneRequest;
    HeldStays(p.held, CreateDone(p, w).held, t, w);
  }

  lemma {:induction false} CreateDoneRequests(p: Pool, w: Worker)
    requires OneRequest(p) && w in p.creating
    ensures OneRequest(CreateDone(p, w))
  {
    ValuesShrink(p.creating, w);
    assert p.creating[w] in p.creating.Values;
  }

  lemma {:induction false} ValuesShrink(m: map<Worker, Task>, w: Worker)
    requires w in m && forall x :: x in m && x != w ==> m[x] != m[w]
    ensures (m - {w}).Values == m.Values - {m[w]}
  {
    forall v | v in m.Values && v != m[w]
      ensures v in (m - {w}).Values
    {
      var x :| x in m && m[x] == v;
      assert (m - {w})[x] == v;
    }
  }

  lemma {:induction false} CreateFailCounted(capacity: nat, p: Pool, w: Worker)
    requires Counted(capacity, p) && w in p.creating
    ensures Counted(capacity, CreateFail(p, w)) && |CreateFail(p, w).workers| < capacity
    ensures forall x :: x in CreateFail(p, w).workers ==> x in p.workers
  {
    MapSizes(p.creating, w, 0);
  }

  lemma {:induction false} CreateFailExclusive(p: Pool, q: Pool, w: Worker)
    requires Exclusive(p) && Named(p) && OneRequest(p) && w in p.creating
    requires q == p.(creating := p.creating - {w}, workers := q.workers, again := q.again, stuck := q.stuck)
      && forall x :: x in q.workers ==> x in p.workers
    ensures Exclusive(q) && Named(q) && OneRequest(q)
  {
    ValuesShrink(p.creating, w);
  }

  lemma {:induction false} CreateFailSafe(capacity: nat, p: Pool, w: Worker)
    requires Safe(capacity, p) && w in p.creating
    ensures Safe(capacity, CreateFail(p, w))
  {
    hide RemoveFound, Exclusive, Named, OneRequest;
    CreateFailCounted(capacity, p, w);
    CreateFailExclusive(p, CreateFail(p, w), w);
  }

  lemma {:induction false} HandOverExclusive(p: Pool, t: Task)
    requires Exclusive(p) && Named(p) && t in p.held && p.waiting != [] && p.waiting[0] !in p.held
    ensures Exclusive(ReleaseWorker(p, t)) && Named(ReleaseWorker(p, t))
  {
  }

  lemma {:induction false} HandOverRequests(p: Pool, t: Task)
    requires OneRequest(p) && t in p.held && p.waiting != []
    ensures OneRequest(ReleaseWorker(p, t))
  {
    assert p.waiting[0] in p.waiting;
  }

  lemma {:induction false} HandOverSafe(capacity: nat, p: Pool, t: Task)
    requires Safe(capacity, p) && t in p.held && p.waiting != []
    ensures Safe(capacity, ReleaseWorker(p, t))
  {
    var q, w, u := ReleaseWorker(p, t), p.held[t], p.waiting[0];
    assert u in p.waiting && u !in p.held;
    HandOverExclusive(p, t);
    HandOverRequests(p, t);
    MapSizes(p.held, t, 0);
    MapSizes(p.held - {t}, u, w);
    HeldMoves(p, q, t);
    assert q.held[u] in q.held.Values;
  }

  lemma {:induction false} ReturnExclusive(p: Pool, t: Task)
    requires Exclusive(p) && Named(p) && OneRequest(p) && t in p.held && p.waiting == []
    ensures var q := ReleaseWorker(p, t); Exclusive(q) && Named(q) && OneRequest(q)
  {
    assert ReleaseWorker(p, t).idle == p.idle + [p.held[t]];
  }

  lemma {:induction false} ReturnCounted(capacity: nat, p: Pool, t: Task)
    requires Counted(capacity, p) && t in p.held && p.waiting == []
    ensures Counted(capacity, ReleaseWorker(p, t))
  {
    MapSizes(p.held, t, 0);
  }

  lemma {:induction false} ReturnLastServes(capacity: nat, p: Pool, t: Task)
    requires LastServes(capacity, p) && t in p.held && p.waiting == []
    ensures LastServes(capacity, ReleaseWorker(p, t))
  {
    var q := ReleaseWorker(p, t);
    HeldMoves(p, q, t);
    assert q.idle == p.idle + [p.held[t]] && p.held[t] in q.idle;
  }

  lemma {:induction false} ReleaseSafe(capacity: nat, p: Pool, t: Task)
    requires Safe(capacity, p) && t in p.held
    ensures Safe(capacity, ReleaseWorker(p, t))
  {
    hide Counted, Exclusive, Named, OneRequest, LastServes, ReleaseWorker;
    if p.waiting != [] {
      HandOverSafe(capacity, p, t);
    } else {
      ReturnCounted(capacity, p, t);
      ReturnExclusive(p, t);
      ReturnLastServes(capacity, p, t);
    }
  }

  lemma {:induction false} StartDiscardSafe(capacity: nat, p: Pool, t: Task)
    requires Safe(capacity, p) && t in p.held
    ensures Safe(capacity, StartDiscard(p, t))
  {
    hide Counted, Exclusive, Named, OneRequest, LastServes, StartDiscard;
    CountedSizes(capacity, p);
    StartDiscardCounted(capacity, p, t);
    StartDiscardExclusive(p, t);
    StartDiscardServes(capacity, p, t);
  }

  lemma {:induction false} StartDiscardCounted(capacity: nat, p: Pool, t: Task)
    requires Counted(capacity, p) && Exclusive(p) && t in p.held
    ensures Counted(capacity, StartDiscard(p, t))
  {
    assert p.held[t] !in p.discarding;
    hide Exclusive;
    MapSizes(p.held, t, 0);
    MapSizes(p.discarding, p.held[t], p.workers);
  }

  lemma {:induction false} StartDiscardExclusive(p: Pool, t: Task)
    requires Exclusive(p) && Named(p) && OneRequest(p) && t in p.held
    ensures var q := StartDiscard(p, t); Exclusive(q) && Named(q) && OneRequest(q)
  {
  }

  lemma {:induction false} StartDiscardServes(capacity: nat, p: Pool, t: Task)
    requires LastServes(capacity, p) && |p.workers| <= capacity && t in p.held
    ensures LastServes(capacity, StartDiscard(p, t))
  {
    HeldMoves(p, StartDiscard(p, t), t);
  }

  lemma {:induction false} SpliceSafe(capacity: nat, p: Pool, w: Worker)
    requires Safe(capacity, p) && w in p.discarding
    ensures Safe(capacity, SpliceOut(p, w))
  {
    hide Counted, Exclusive, Named, OneRequest, LastServes, SpliceOut;
    CountedSizes(capacity, p);
    SpliceCounted(capacity, p, w);
    SpliceExclusive(p, w);
    SpliceServes(capacity, p, w);
  }

  lemma {:induction false} RemoveLess<T>(s: seq<T>, i: nat)
    ensures |RemoveAt(s, i)| == (if i < |s| then |s| - 1 else |s|)
    ensures forall x :: x in RemoveAt(s, i) ==> x in s
  {
  }

  lemma {:induction false} SpliceCounted(capacity: nat, p: Pool, w: Worker)
    requires Counted(capacity, p) && w in p.discarding
    ensures Counted(capacity, SpliceOut(p, w))
  {
    hide RemoveAt, IndexOf;
    CountedSizes(capacity, p);
    assert !p.timer;
    MapSizes(p.discarding, w, []);
    var i := IndexOf(p.discarding[w], w);
    if i.Some? { RemoveLess(p.workers, i.value); }
  }

  lemma {:induction false} CountedSizes(capacity: nat, p: Pool)
    requires Counted(capacity, p)
    ensures |p.workers| <= capacity
    ensures p.timer ==> p.held == map[] && p.creating == map[] && p.discarding == map[]
  {
  }

  lemma {:induction false} SpliceExclusive(p: Pool, w: Worker)
    requires Exclusive(p) && Named(p) && OneRequest(p) && w in p.discarding
    ensures var q := SpliceOut(p, w); Exclusive(q) && Named(q) && OneRequest(q)
  {
    hide RemoveAt, IndexOf;
    var i := IndexOf(p.discarding[w], w);
    if i.Some? { RemoveLess(p.workers, i.value); }
    FewerWorkers(p, SpliceOut(p, w));
  }

  /** Some workers are gone. */
  lemma {:induction false} FewerWorkers(p: Pool, q: Pool)
    requires q.idle == p.idle && q.held == p.held && q.creating == p.creating && q.waiting == p.waiting
    requires q.next == p.next
    requires (forall x :: x in q.workers ==> x in p.workers) && (forall x :: x in q.discarding ==> x in p.discarding)
    ensures Exclusive(p) ==> Exclusive(q)
    ensures Named(p) ==> Named(q)
    ensures OneRequest(p) ==> OneRequest(q)
  {
  }

  /** A list that is still full was not touched. */
  lemma {:induction false} SpliceServes(capacity: nat, p: Pool, w: Worker)
    requires LastServes(capacity, p) && |p.workers| <= capacity && w in p.discarding
    ensures LastServes(capacity, SpliceOut(p, w))
  {
    hide RemoveAt;
    var i := IndexOf(p.discarding[w], w);
    if i.Some? {
      RemoveLess(p.workers, i.value);
      if i.value >= |p.workers| { UntouchedPast(p.workers, i.value); }
    }
  }

  lemma {:induction false} UntouchedPast<T>(s: seq<T>, i: nat)
    requires i >= |s|
    ensures RemoveAt(s, i) == s
  {
  }

  /** A worker is terminated; a waiting reading leaves the queue, or not. */
  lemma {:induction false} TerminatedSafe(capacity: nat, p: Pool, q: Pool)
    requires Safe(capacity, p) && p.terminating > 0
    requires q == p.(terminating := p.terminating - 1)
      || (p.waiting != [] && q == p.(terminating := p.terminating - 1, waiting := p.waiting[1..]))
    ensures Safe(capacity, q)
  {
    hide Counted, Exclusive, Named, OneRequest, LastServes;
    assert Counted(capacity, q) by { TerminatedCounted(capacity, p, q); }
    assert Exclusive(q) && Named(q) && LastServes(capacity, q) by { SameWorkers(capacity, p, q); }
    assert OneRequest(q) by { FewerRequests(p, q); }
  }

  lemma {:induction false} TerminatedCounted(capacity: nat, p: Pool, q: Pool)
    requires Counted(capacity, p) && (q.waiting == p.waiting || (p.waiting != [] && q.waiting == p.waiting[1..]))
    requires q == p.(terminating := q.terminating, waiting := q.waiting, again := q.again)
    ensures Counted(capacity, q)
  {
  }

  lemma {:induction false} SameWorkers(capacity: nat, p: Pool, q: Pool)
    requires q == p.(terminating := q.terminating, waiting := q.waiting, again := q.again)
    ensures Exclusive(p) ==> Exclusive(q)
    ensures Named(p) ==> Named(q)
    ensures LastServes(capacity, p) ==> LastServes(capacity, q)
  {
  }

  lemma {:induction false} FewerRequests(p: Pool, q: Pool)
    requires OneRequest(p) && (q.waiting == p.waiting || (p.waiting != [] && q.waiting == p.waiting[1..]))
    requires q == p.(terminating := q.terminating, waiting := q.waiting, again := q.again)
    ensures OneRequest(q)
  {
  }

  /** The mark of a worker made for a waiting reading changes nothing else. */
  lemma {:induction false} AskAgainSafe(capacity: nat, p: Pool, t: Task)
    requires Safe(capacity, p) && !Asking(p, t)
    ensures Safe(capacity, AskAgain(capacity, p, t))
  {
    hide Counted, Exclusive, Named, OneRequest, LastServes, AcquireWorker, Asking;
    AcquireSafe(capacity, p, t);
    var q, r := AcquireWorker(capacity, p, t), AskAgain(capacity, p, t);
    TerminatedCounted(capacity, q, r);
    SameWorkers(capacity, q, r);
    FewerRequests(q, r);
  }

  lemma {:induction false} AfterTerminateSafe(capacity: nat, p: Pool)
    requires Safe(capacity, p) && p.terminating > 0
    ensures Safe(capacity, AfterTerminate(capacity, p))
  {
    hide AskAgain, Safe;
    var q := p.(terminating := p.terminating - 1);
    TerminatedSafe(capacity, p, q);
    if p.waiting != [] {
      q := q.(waiting := p.waiting[1..]);
      TerminatedSafe(capacity, p, q);
      FirstLeaves(capacity, p);
      hide Asking;
      AskAgainSafe(capacity, q, p.waiting[0]);
    }
  }

  lemma {:induction false} FirstLeaves(capacity: nat, p: Pool)
    requires Safe(capacity, p) && p.waiting != [] && p.terminating > 0
    ensures !Asking(p.(terminating := p.terminating - 1, waiting := p.waiting[1..]), p.waiting[0])
  {
    assert p.waiting[0] in p.waiting;
  }

  /** Every step of every interleaving keeps the pool safe. */
  lemma {:induction false} StepSafe(capacity: nat, p: Pool, e: Event)
    requires Safe(capacity, p) && Enabled(p, e)
    ensures Safe(capacity, Next(capacity, p, e))
  {
    hide AcquireWorker, CreateDone, CreateFail, ReleaseWorker, StartDiscard, SpliceOut, AfterTerminate;
    match e {
      case Acquire(t) => AcquireSafe(capacity, p, t);
      case Created(w) => CreateDoneSafe(capacity, p, w);
      case CreateFailed(w) => CreateFailSafe(capacity, p, w);
      case Release(t) => ReleaseSafe(capacity, p, t);
      case Discard(t) => StartDiscardSafe(capacity, p, t);
      case Splice(w) => SpliceSafe(capacity, p, w);
      case Terminated => AfterTerminateSafe(capacity, p);
      case TimerFired =>
    }
  }

  // ----- runs -----

  /** The pool after a run, `None` when a step was not possible. */
  function Run(capacity: nat, p: Pool, es: seq<Event>): Option<Pool>
    decreases |es|
  {
    if es == [] then Some(p)
    else if Enabled(p, es[0]) then Run(capacity, Next(capacity, p, es[0]), es[1..])
    else None
  }

  lemma {:induction false} RunSafe(capacity: nat, p: Pool, es: seq<Event>)
    requires Safe(capacity, p) && Run(capacity, p, es).Some?
    ensures Safe(capacity, Run(capacity, p, es).value)
    decreases |es|
  {
    if es != [] {
      StepSafe(capacity, p, es[0]);
      RunSafe(capacity, Next(capacity, p, es[0]), es[1..]);
    }
  }

  /**
   In every run: workers in service never exceed the list, which never exceeds the capacity; no
   worker has two uses; and an armed timer finds no worker held, being created or discarded.
   */
  lemma {:induction false} PoolIsSafe(capacity: nat, es: seq<Event>)
    requires Run(capacity, EMPTY, es).Some?
    ensures var p := Run(capacity, EMPTY, es).value;
      && Service(p) <= |p.workers| <= capacity && Exclusive(p) && OneRequest(p)
      && (p.timer ==> p.held == map[] && p.creating == map[] && p.discarding == map[] && p.waiting == [])
  {
    RunSafe(capacity, EMPTY, es);
  }

  // ----- places lost to stale positions -----

  /** Entries of the list without a worker in service. */
  function Lost(p: Pool): int {
    |p.workers| - Service(p)
  }

  lemma {:induction false} AcquireLost(capacity: nat, p: Pool, t: Task)
    requires Named(p) && !Asking(p, t)
    ensures Lost(AcquireWorker(capacity, p, t)) == Lost(p)
  {
    if p.idle != [] { MapSizes(p.held, t, p.idle[|p.idle| - 1]); } else { MapSizes(p.creating, p.next, t); }
  }

  /** A removal loses a place exactly when the position it found is no longer in the list. */
  lemma {:induction false} SpliceLost(p: Pool, w: Worker)
    requires w in p.discarding
    ensures var i := IndexOf(p.discarding[w], w);
      Lost(SpliceOut(p, w)) == if i.Some? && i.value < |p.workers| then Lost(p) else Lost(p) + 1
  {
    MapSizes(p.discarding, w, []);
  }

  lemma {:induction false} CreateDoneLost(p: Pool, w: Worker)
    requires OneRequest(p) && w in p.creating
    ensures Lost(CreateDone(p, w)) == Lost(p)
  {
    MapSizes(p.creating, w, 0);
    MapSizes(p.held, p.creating[w], w);
  }

  lemma {:induction false} ReleaseLost(p: Pool, t: Task)
    requires OneRequest(p) && t in p.held
    ensures Lost(ReleaseWorker(p, t)) == Lost(p)
  {
    assert p.waiting != [] ==> p.waiting[0] in p.waiting && p.waiting[0] !in p.held;
    hide OneRequest;
    MapSizes(p.held, t, 0);
    if p.waiting != [] { MapSizes(p.held - {t}, p.waiting[0], p.held[t]); }
  }

  lemma {:induction false} StartDiscardLost(p: Pool, t: Task)
    requires Exclusive(p) && t in p.held
    ensures Lost(StartDiscard(p, t)) == Lost(p)
  {
    MapSizes(p.held, t, 0);
    MapSizes(p.discarding, p.held[t], p.workers);
  }

  lemma {:induction false} CreateFailLost(capacity: nat, p: Pool, w: Worker)
    requires Counted(capacity, p) && w in p.creating
    ensures Lost(CreateFail(p, w)) == Lost(p)
  {
    MapSizes(p.creating, w, 0);
  }

  lemma {:induction false} AfterTerminateLost(capacity: nat, p: Pool)
    requires Safe(capacity, p) && p.terminating > 0
    ensures Lost(AfterTerminate(capacity, p)) == Lost(p)
  {
    hide AskAgain, Safe, Named, OneRequest, Exclusive, Lost, Asking;
    if p.waiting == [] {
      SameLost(p, AfterTerminate(capacity, p));
    } else {
      var q := p.(terminating := p.terminating - 1, waiting := p.waiting[1..]);
      FirstMayAsk(capacity, p);
      SameLost(p, q);
      AskAgainLost(capacity, q, p.waiting[0]);
    }
  }

  lemma {:induction false} FirstMayAsk(capacity: nat, p: Pool)
    requires Safe(capacity, p) && p.terminating > 0 && p.waiting != []
    ensures var q := p.(terminating := p.terminating - 1, waiting := p.waiting[1..]);
      && Named(q)
      && !Asking(q, p.waiting[0])
  {
    SafeParts(capacity, p);
    FirstLeaves(capacity, p);
    hide Safe, OneRequest, Exclusive, LastServes, Counted;
  }

  lemma {:induction false} AskAgainLost(capacity: nat, p: Pool, t: Task)
    requires Named(p) && !Asking(p, t)
    ensures Lost(AskAgain(capacity, p, t)) == Lost(p)
  {
    hide AcquireWorker, Lost, Named, Asking;
    AcquireLost(capacity, p, t);
    SameLost(AcquireWorker(capacity, p, t), AskAgain(capacity, p, t));
  }

  lemma {:induction false} SameLost(p: Pool, q: Pool)
    requires q == p.(terminating := q.terminating, waiting := q.waiting, again := q.again)
    ensures Lost(q) == Lost(p)
  {
  }

  lemma {:induction false} SafeParts(capacity: nat, p: Pool)
    requires Safe(capacity, p)
    ensures OneRequest(p) && Named(p) && Exclusive(p)
  {
  }

  lemma {:induction false} StepLost(capacity: nat, p: Pool, e: Event)
    requires Safe(capacity, p) && Enabled(p, e)
    ensures Lost(Next(capacity, p, e)) >= Lost(p)
    ensures Lost(Next(capacity, p, e)) > Lost(p) ==> e.Splice?
  {
    hide AcquireWorker, SpliceOut, CreateDone, CreateFail, ReleaseWorker, StartDiscard, AfterTerminate;
    match e {
      case Acquire(t) => AcquireLost(capacity, p, t);
      case Created(w) => CreateDoneLost(p, w);
      case CreateFailed(w) => CreateFailLost(capacity, p, w);
      case Release(t) => ReleaseLost(p, t);
      case Discard(t) => StartDiscardLost(p, t);
      case Splice(w) => SpliceLost(p, w);
      case Terminated => AfterTerminateLost(capacity, p);
      case TimerFired =>
    }
  }

  /** A lost place is never regained: from then on the timer that frees idle workers is never armed. */
  lemma {:induction false} LostForGood(capacity: nat, p: Pool, es: seq<Event>)
    requires Safe(capacity, p) && Run(capacity, p, es).Some?
    ensures Lost(Run(capacity, p, es).value) >= Lost(p)
    ensures Lost(p) > 0 ==> !Run(capacity, p, es).value.timer
    decreases |es|
  {
    if es != [] {
      StepLost(capacity, p, es[0]);
      StepSafe(capacity, p, es[0]);
      LostForGood(capacity, Next(capacity, p, es[0]), es[1..]);
    }
  }

  lemma {:induction false} RunThen(capacity: nat, p: Pool, a: seq<Event>, b: seq<Event>)
    requires Run(capacity, p, a).Some?
    ensures Run(capacity, p, a + b) == Run(capacity, Run(capacity, p, a).value, b)
    decreases |a|
  {
    if a == [] {
      assert a + b == b;
    } else {
      assert (a + b)[1..] == a[1..] + b;
      RunThen(capacity, Next(capacity, p, a[0]), a[1..], b);
    }
  }

  /** A run from the start, one step longer. */
  lemma {:induction false} RunMore(capacity: nat, es: seq<Event>, p: Pool, e: Event, q: Pool)
    requires Run(capacity, EMPTY, es) == Some(p) && Enabled(p, e) && Next(capacity, p, e) == q
    ensures Run(capacity, EMPTY, es + [e]) == Some(q)
  {
    hide Enabled, Next;
    RunThen(capacity, EMPTY, es, [e]);
    assert [e][1..] == [];
  }

  const TWO_READINGS := [Acquire(0)] + [Acquire(1)] + [Created(0)] + [Created(1)]
  const BOTH_HELD := EMPTY.(workers := [0, 1], held := map[0 := 0, 1 := 1], next := 2)

  lemma {:induction false} BothHeld()
    ensures Run(2, EMPTY, TWO_READINGS) == Some(BOTH_HELD)
  {
    hide Run;
    var p1 := EMPTY.(workers := [0], creating := map[0 := 0], next := 1);
    var p2 := EMPTY.(workers := [0, 1], creating := map[0 := 0, 1 := 1], next := 2);
    var p3 := EMPTY.(workers := [0, 1], creating := map[1 := 1], held := map[0 := 0], next := 2);
    assert Run(2, EMPTY, []) == Some(EMPTY) by { NoStep(2); }
    RunMore(2, [], EMPTY, Acquire(0), p1);
    assert [] + [Acquire(0)] == [Acquire(0)];
    RunMore(2, [Acquire(0)], p1, Acquire(1), p2);
    RunMore(2, [Acquire(0)] + [Acquire(1)], p2, Created(0), p3);
    RunMore(2, [Acquire(0)] + [Acquire(1)] + [Created(0)], p3, Created(1), BOTH_HELD);
  }

  lemma {:induction false} NoStep(capacity: nat)
    ensures Run(capacity, EMPTY, []) == Some(EMPTY)
  {
  }

  const BOTH_LEAVING := EMPTY.(workers := [0, 1], discarding := map[0 := [0, 1], 1 := [0, 1]], next := 2)

  lemma {:induction false} BothLeave()
    ensures Run(2, EMPTY, TWO_READINGS + [Discard(0)] + [Discard(1)]) == Some(BOTH_LEAVING)
  {
    hide Run;
    var p := EMPTY.(workers := [0, 1], held := map[1 := 1], discarding := map[0 := [0, 1]], next := 2);
    BothHeld();
    RunMore(2, TWO_READINGS, BOTH_HELD, Discard(0), p);
    RunMore(2, TWO_READINGS + [Discard(0)], p, Discard(1), BOTH_LEAVING);
  }

  const ONE_LEAVING := EMPTY.(workers := [1], discarding := map[1 := [0, 1]], terminating := 1, next := 2)
  const ONE_LOST := EMPTY.(workers := [1], terminating := 2, next := 2)

  lemma {:induction false} FirstLeavesTheList()
    ensures SpliceOut(BOTH_LEAVING, 0) == ONE_LEAVING
  {
    assert IndexOf([0, 1], 0) == Some(0) && RemoveAt([0, 1], 0) == [1];
  }

  lemma {:induction false} SecondMissesTheList()
    ensures SpliceOut(ONE_LEAVING, 1) == ONE_LOST
  {
    assert [0, 1][1..] == [1] && IndexOf([1], 1) == Some(0) && IndexOf([0, 1], 1) == Some(1);
  }

  const TOGETHER := TWO_READINGS + [Discard(0)] + [Discard(1)] + [Splice(0)] + [Splice(1)]

  /** Two readings that fail together: the second removal uses a position the first one shifted. */
  lemma {:induction false} OverlappingFailuresLoseAPlace()
    ensures Run(2, EMPTY, TOGETHER) == Some(ONE_LOST) && Lost(ONE_LOST) == 1
  {
    hide SpliceOut, Run;
    BothLeave();
    FirstLeavesTheList();
    SecondMissesTheList();
    var es := TWO_READINGS + [Discard(0)] + [Discard(1)];
    RunMore(2, es, BOTH_LEAVING, Splice(0), ONE_LEAVING);
    RunMore(2, es + [Splice(0)], ONE_LEAVING, Splice(1), ONE_LOST);
  }

  // ----- without overlapping failures -----

  /** While a worker is being removed from the list, no other removal starts and no creation fails. */
  predicate OneAtATime(p: Pool, e: Event) {
    p.discarding != map[] ==> !e.Discard? && !e.CreateFailed?
  }

  predicate RunsOneAtATime(capacity: nat, p: Pool, es: seq<Event>)
    decreases |es|
  {
    es == []
      || (Enabled(p, es[0]) && OneAtATime(p, es[0]) && RunsOneAtATime(capacity, Next(capacity, p, es[0]), es[1..]))
  }

  ghost predicate InService(p: Pool, w: Worker) {
    w in p.idle || w in p.held.Values || w in p.creating || w in p.discarding
  }

  /** The list holds exactly the workers in service, once each. */
  ghost predicate Tidy(p: Pool) {
    && (forall i, j :: 0 <= i < j < |p.workers| ==> p.workers[i] != p.workers[j])
    && (forall w :: w in p.workers <==> InService(p, w))
    && (forall w, x :: w in p.discarding && x in p.discarding ==> w == x)
    && (forall w :: w in p.discarding ==> p.discarding[w] <= p.workers && w in p.discarding[w])
  }

  lemma {:induction false} RemoveDistinct(s: seq<Worker>, i: nat, x: Worker)
    requires i < |s| && forall a, b :: 0 <= a < b < |s| ==> s[a] != s[b]
    ensures x in RemoveAt(s, i) <==> x in s && x != s[i]
    ensures var r := RemoveAt(s, i); forall a, b :: 0 <= a < b < |r| ==> r[a] != r[b]
  {
    var r := RemoveAt(s, i);
    forall k | 0 <= k < |s| && k != i ensures s[k] in r { assert r[if k < i then k else k - 1] == s[k]; }
  }

  lemma {:induction false} TakeIdleTidy(p: Pool, t: Task)
    requires Tidy(p) && !Asking(p, t) && p.idle != []
    ensures Tidy(TakeIdle(p, t))
  {
    var q, w := TakeIdle(p, t), p.idle[|p.idle| - 1];
    HeldStays(p.held, q.held, t, w);
    assert p.idle == q.idle + [w];
    forall x ensures InService(q, x) <==> InService(p, x) {}
  }

  lemma {:induction false} CreationTidy(p: Pool, t: Task)
    requires Tidy(p) && Named(p)
    ensures Tidy(StartCreation(p, t))
  {
    var q, n := StartCreation(p, t), |p.workers|;
    forall i, j | 0 <= i < j < |q.workers| ensures q.workers[i] != q.workers[j] {
      assert q.workers[i] == p.workers[i] && p.workers[i] in p.workers;
      if j < n { assert q.workers[j] == p.workers[j]; }
    }
    forall x ensures InService(q, x) <==> InService(p, x) || x == p.next {}
  }

  /** What is not said of workers does not matter. */
  lemma {:induction false} TidyStays(p: Pool, q: Pool)
    requires Tidy(p) && q.workers == p.workers && q.idle == p.idle && q.held == p.held && q.creating == p.creating
    requires q.discarding == p.discarding
    ensures Tidy(q)
  {
    forall x ensures InService(q, x) <==> InService(p, x) {}
  }

  lemma {:induction false} AcquireTidy(capacity: nat, p: Pool, t: Task)
    requires Tidy(p) && Named(p) && !Asking(p, t)
    ensures Tidy(AcquireWorker(capacity, p, t))
  {
    hide Tidy, Named, TakeIdle, StartCreation, Asking;
    if p.idle != [] {
      TakeIdleTidy(p, t);
    } else if |p.workers| < capacity {
      CreationTidy(p, t);
    } else {
      TidyStays(p, AcquireWorker(capacity, p, t));
    }
  }

  lemma {:induction false} AfterTerminateTidy(capacity: nat, p: Pool)
    requires Safe(capacity, p) && Tidy(p) && p.terminating > 0
    ensures Tidy(AfterTerminate(capacity, p))
  {
    hide Tidy, AcquireWorker, Safe, Named;
    if p.waiting == [] {
      TidyStays(p, AfterTerminate(capacity, p));
    } else {
      var q, t := p.(terminating := p.terminating - 1, waiting := p.waiting[1..]), p.waiting[0];
      FirstLeaves(capacity, p);
      TerminatedSafe(capacity, p, q);
      SafeParts(capacity, q);
      TidyStays(p, q);
      AcquireTidy(capacity, q, t);
      TidyStays(AcquireWorker(capacity, q, t), AskAgain(capacity, q, t));
    }
  }

  lemma {:induction false} TimerTidy(capacity: nat, p: Pool)
    requires Counted(capacity, p) && p.timer
    ensures Tidy(p.(workers := [], idle := [], timer := false))
  {
    CountedSizes(capacity, p);
    var q := p.(workers := [], idle := [], timer := false);
    forall x ensures !InService(q, x) {}
  }

  lemma {:induction false} SpliceTidy(capacity: nat, p: Pool, w: Worker)
    requires Tidy(p) && Exclusive(p) && w in p.discarding
    ensures Tidy(SpliceOut(p, w))
  {
    var q, i := SpliceOut(p, w), IndexOf(p.discarding[w], w).value;
    assert p.workers[i] == w;
    forall x ensures x in q.workers <==> InService(q, x) { RemoveDistinct(p.workers, i, x); }
    RemoveDistinct(p.workers, i, w);
    assert q.discarding == map[];
  }

  lemma {:induction false} CreateFailTidy(p: Pool, w: Worker)
    requires Tidy(p) && Exclusive(p) && w in p.creating && p.discarding == map[]
    ensures Tidy(CreateFail(p, w))
  {
    var q := CreateFail(p, w);
    assert w in p.workers;
    var i := IndexOf(p.workers, w).value;
    forall x ensures x in q.workers <==> InService(q, x) { RemoveDistinct(p.workers, i, x); }
    RemoveDistinct(p.workers, i, w);
  }

  lemma {:induction false} ReleaseTidy(p: Pool, t: Task)
    requires Tidy(p) && OneRequest(p) && t in p.held
    ensures Tidy(ReleaseWorker(p, t))
  {
    var q, w := ReleaseWorker(p, t), p.held[t];
    if p.waiting != [] {
      var u := p.waiting[0];
      assert u in p.waiting && u !in p.held;
      forall x ensures x in q.held.Values <==> x in p.held.Values {
        if x in p.held.Values { var v :| v in p.held && p.held[v] == x; assert q.held[if v == t then u else v] == x; }
      }
    } else {
      HeldMoves(p, q, t);
      assert q.idle == p.idle + [w];
    }
    forall x ensures InService(q, x) <==> InService(p, x) {}
  }

  lemma {:induction false} StartDiscardTidy(p: Pool, t: Task)
    requires Tidy(p) && Exclusive(p) && t in p.held && p.discarding == map[]
    ensures Tidy(StartDiscard(p, t))
  {
    var q, w := StartDiscard(p, t), p.held[t];
    HeldMoves(p, q, t);
    assert w in p.held.Values && InService(p, w);
    forall x ensures InService(q, x) <==> InService(p, x) {}
  }

  lemma {:induction false} CreateDoneTidy(p: Pool, w: Worker)
    requires Tidy(p) && OneRequest(p) && w in p.creating
    ensures Tidy(CreateDone(p, w))
  {
    var q := CreateDone(p, w);
    HeldStays(p.held, q.held, p.creating[w], w);
    forall x ensures InService(q, x) <==> InService(p, x) {}
  }

  lemma {:induction false} StepTidy(capacity: nat, p: Pool, e: Event)
    requires Safe(capacity, p) && Tidy(p) && Enabled(p, e) && OneAtATime(p, e)
    ensures Tidy(Next(capacity, p, e))
  {
    SafeParts(capacity, p);
    hide AcquireWorker, CreateDone, CreateFail, ReleaseWorker, StartDiscard, SpliceOut, AfterTerminate, Tidy, Exclusive;
    hide Named, OneRequest, LastServes;
    match e {
      case Acquire(t) => AcquireTidy(capacity, p, t);
      case Created(w) => CreateDoneTidy(p, w);
      case CreateFailed(w) => CreateFailTidy(p, w);
      case Release(t) => ReleaseTidy(p, t);
      case Discard(t) => StartDiscardTidy(p, t);
      case Splice(w) => SpliceTidy(capacity, p, w);
      case Terminated => AfterTerminateTidy(capacity, p);
      case TimerFired => TimerTidy(capacity, p);
    }
  }

  /** When failures do not overlap, the list is exactly the workers in service, so no place is lost. */
  lemma {:induction false} SeparateFailuresLoseNothing(capacity: nat, p: Pool, es: seq<Event>)
    requires Safe(capacity, p) && Tidy(p) && Lost(p) == 0 && RunsOneAtATime(capacity, p, es)
    ensures Run(capacity, p, es).Some? && Tidy(Run(capacity, p, es).value) && Lost(Run(capacity, p, es).value) == 0
    decreases |es|
  {
    if es != [] {
      var q := Next(capacity, p, es[0]);
      StepSafe(capacity, p, es[0]);
      StepTidy(capacity, p, es[0]);
      StepLost(capacity, p, es[0]);
      if es[0].Splice? { SpliceLost(p, es[0].w); }
      SeparateFailuresLoseNothing(capacity, q, es[1..]);
    }
  }

  // ----- the timer that frees idle workers -----

  /** Every worker of the list is idle. */
  predicate Resting(p: Pool) {
    p.workers != [] && |p.idle| == |p.workers|
  }

  /** Such workers stay in memory: nothing will free them. */
  predicate Untimed(p: Pool) {
    Resting(p) && !p.timer
  }

  lemma {:induction false} AcquireWakes(capacity: nat, p: Pool, t: Task)
    requires Counted(capacity, p)
    ensures !Resting(AcquireWorker(capacity, p, t))
  {
  }

  lemma {:induction false} RestingIsFree(capacity: nat, p: Pool)
    requires Counted(capacity, p) && Resting(p)
    ensures p.held == map[] && p.creating == map[] && p.discarding == map[] && p.waiting == []
  {
  }

  lemma {:induction false} ReleaseIsTimed(capacity: nat, p: Pool, t: Task)
    requires t in p.held && Counted(capacity, ReleaseWorker(p, t))
    ensures !Untimed(ReleaseWorker(p, t))
  {
    var q := ReleaseWorker(p, t);
    if Resting(q) { RestingIsFree(capacity, q); }
  }

  lemma {:induction false} TerminatedRests(capacity: nat, p: Pool)
    requires Counted(capacity, p) && p.terminating > 0
    ensures Untimed(AfterTerminate(capacity, p)) <==> Untimed(p)
  {
    hide AcquireWorker;
    if p.waiting != [] {
      var q := p.(terminating := p.terminating - 1, waiting := p.waiting[1..]);
      TerminatedCounted(capacity, p, q);
      AcquireWakes(capacity, q, p.waiting[0]);
    }
  }

  /** A step leaves idle workers that nothing will free exactly when it takes the last other worker off the list. */
  lemma {:induction false} StepUntimedIff(capacity: nat, p: Pool, e: Event)
    requires Safe(capacity, p) && Enabled(p, e)
    ensures var q := Next(capacity, p, e);
      Untimed(q) <==> if e.Terminated? then Untimed(p) else (e.CreateFailed? || e.Splice?) && Resting(q)
  {
    hide AcquireWorker, CreateDone, CreateFail, ReleaseWorker, StartDiscard, SpliceOut, AfterTerminate, Exclusive;
    hide Named, OneRequest, LastServes;
    var q := Next(capacity, p, e);
    StepSafe(capacity, p, e);
    if Resting(p) { RestingIsFree(capacity, p); }
    if Resting(q) { RestingIsFree(capacity, q); }
    match e {
      case Acquire(t) => AcquireWakes(capacity, p, t);
      case Created(w) => assert p.creating[w] in q.held by { CreateDoneHolds(p, w); }
      case CreateFailed(w) => CreateFailTimer(p, w);
      case Release(t) => ReleaseIsTimed(capacity, p, t);
      case Discard(t) => assert p.held[t] in q.discarding by { DiscardHolds(p, t); }
      case Splice(w) => SpliceTimer(p, w);
      case Terminated => TerminatedRests(capacity, p);
      case TimerFired =>
    }
  }

  lemma {:induction false} CreateDoneHolds(p: Pool, w: Worker)
    requires w in p.creating
    ensures p.creating[w] in CreateDone(p, w).held
  {
  }

  lemma {:induction false} DiscardHolds(p: Pool, t: Task)
    requires t in p.held
    ensures p.held[t] in StartDiscard(p, t).discarding
  {
  }

  lemma {:induction false} CreateFailTimer(p: Pool, w: Worker)
    requires w in p.creating
    ensures CreateFail(p, w).timer == p.timer
  {
    hide RemoveFound;
  }

  lemma {:induction false} SpliceTimer(p: Pool, w: Worker)
    requires w in p.discarding
    ensures SpliceOut(p, w).timer == p.timer
  {
    hide RemoveAt, IndexOf;
  }

  /** Step `i` takes a worker off the list for its failure, and all the others are idle. */
  predicate LeavesIdle(capacity: nat, es: seq<Event>, i: nat) {
    && i < |es| && (es[i].CreateFailed? || es[i].Splice?) && Run(capacity, EMPTY, es[..i + 1]).Some?
    && Resting(Run(capacity, EMPTY, es[..i + 1]).value)
  }

  /** Only workers were terminated since. */
  predicate OnlyTerminated(es: seq<Event>, i: nat) {
    forall j :: i < j < |es| ==> es[j].Terminated?
  }

  /**
   After any run, all workers of the list are idle and no timer will free them exactly when the last step,
   but for terminations, took a failed worker off a list whose other workers were idle.
   */
  lemma {:induction false} UntimedIff(capacity: nat, es: seq<Event>)
    requires Run(capacity, EMPTY, es).Some?
    ensures Untimed(Run(capacity, EMPTY, es).value)
      <==> exists i: nat :: LeavesIdle(capacity, es, i) && OnlyTerminated(es, i)
    decreases |es|
  {
    hide Next, Enabled, Safe, Resting;
    if es == [] {
      NothingLeft(capacity);
    } else {
      var init, e := es[..|es| - 1], es[|es| - 1];
      assert es == init + [e];
      LastStep(capacity, init, e);
      StartIsSafe(capacity);
      RunSafe(capacity, EMPTY, init);
      StepUntimedIff(capacity, Run(capacity, EMPTY, init).value, e);
      UntimedIff(capacity, init);
      hide Run;
      assert es[..|init| + 1] == es;
      LastLeaves(capacity, es);
    }
  }

  lemma {:induction false} NothingLeft(capacity: nat)
    ensures !Untimed(EMPTY) && forall i: nat :: !LeavesIdle(capacity, [], i)
  {
  }

  lemma {:induction false} LastLeaves(capacity: nat, es: seq<Event>)
    requires es != [] && Run(capacity, EMPTY, es).Some?
    ensures var init, e := es[..|es| - 1], es[|es| - 1];
      (exists i: nat :: LeavesIdle(capacity, es, i) && OnlyTerminated(es, i)) <==>
        if e.Terminated? then exists i: nat :: LeavesIdle(capacity, init, i) && OnlyTerminated(init, i)
        else (e.CreateFailed? || e.Splice?) && Resting(Run(capacity, EMPTY, es).value)
  {
    hide Run, Resting;
    var init, e, n := es[..|es| - 1], es[|es| - 1], |es| - 1;
    forall i: nat | i < n
      ensures LeavesIdle(capacity, es, i) <==> LeavesIdle(capacity, init, i)
      ensures OnlyTerminated(es, i) <==> OnlyTerminated(init, i) && e.Terminated?
    {
      assert init[..i + 1] == es[..i + 1];
      if OnlyTerminated(es, i) { assert forall j :: i < j < n ==> init[j] == es[j]; }
    }
    assert es[..n + 1] == es;
    if exists i: nat :: LeavesIdle(capacity, es, i) && OnlyTerminated(es, i) {
      var i: nat :| LeavesIdle(capacity, es, i) && OnlyTerminated(es, i);
      assert i < n ==> LeavesIdle(capacity, init, i) && OnlyTerminated(init, i);
    }
    if e.Terminated? && exists i: nat :: LeavesIdle(capacity, init, i) && OnlyTerminated(init, i) {
      var i: nat :| LeavesIdle(capacity, init, i) && OnlyTerminated(init, i);
      assert LeavesIdle(capacity, es, i) && OnlyTerminated(es, i);
    }
    if !e.Terminated? && LeavesIdle(capacity, es, n) { assert OnlyTerminated(es, n); }
  }

  predicate NoFailure(es: seq<Event>) {
    forall e :: e in es ==> !e.CreateFailed? && !e.Discard?
  }

  lemma {:induction false} NothingDiscarded(capacity: nat, p: Pool, es: seq<Event>)
    requires Run(capacity, p, es).Some? && p.discarding == map[] && NoFailure(es)
    ensures RunsOneAtATime(capacity, p, es) && Run(capacity, p, es).value.discarding == map[]
    decreases |es|
  {
    if es != [] {
      assert es[0] in es;
      NothingDiscarded(capacity, Next(capacity, p, es[0]), es[1..]);
    }
  }

  lemma {:induction false} AllIdle(p: Pool)
    requires Lost(p) == 0 && p.held == map[] && p.creating == map[] && p.discarding == map[] && p.workers != []
    ensures Resting(p)
  {
  }

  /** Without failures, a pool nobody uses has its timer armed, and the timer frees all its workers. */
  lemma {:induction false} IdleWorkersAreFreed(capacity: nat, es: seq<Event>)
    requires Run(capacity, EMPTY, es).Some? && NoFailure(es)
    ensures var p := Run(capacity, EMPTY, es).value;
      p.workers != [] && p.held == map[] && p.creating == map[] ==>
        && p.timer && Enabled(p, TimerFired)
        && Run(capacity, EMPTY, es + [TimerFired]) == Some(p.(workers := [], idle := [], timer := false))
  {
    hide Run, Lost, Next, Resting, LeavesIdle;
    var p := Run(capacity, EMPTY, es).value;
    NothingIsLost(capacity, es);
    if p.workers != [] && p.held == map[] && p.creating == map[] {
      AllIdle(p);
      UntimedIff(capacity, es);
      NoneLeaves(capacity, es);
      TimerFrees(capacity, p);
      RunMore(capacity, es, p, TimerFired, p.(workers := [], idle := [], timer := false));
    }
  }

  lemma {:induction false} TimerFrees(capacity: nat, p: Pool)
    requires p.timer
    ensures Enabled(p, TimerFired) && Next(capacity, p, TimerFired) == p.(workers := [], idle := [], timer := false)
  {
  }

  lemma {:induction false} NoneLeaves(capacity: nat, es: seq<Event>)
    requires Run(capacity, EMPTY, es).Some? && NoFailure(es)
    ensures forall i: nat :: !LeavesIdle(capacity, es, i)
    decreases |es|
  {
    forall i: nat ensures !LeavesIdle(capacity, es, i) {
      if i < |es| {
        assert es[i] in es && es == es[..i] + es[i..];
        if es[i].Splice? { NeverSplices(capacity, es, i); }
      }
    }
  }

  lemma {:induction false} NeverSplices(capacity: nat, es: seq<Event>, i: nat)
    requires i < |es| && Run(capacity, EMPTY, es).Some? && NoFailure(es)
    ensures !es[i].Splice?
  {
    hide Run, Next;
    var init := es[..i];
    assert es == (init + [es[i]]) + es[i + 1..];
    RunPrefix(capacity, EMPTY, init + [es[i]], es[i + 1..]);
    LastStep(capacity, init, es[i]);
    NothingDiscarded(capacity, EMPTY, init);
  }

  lemma {:induction false} NothingIsLost(capacity: nat, es: seq<Event>)
    requires Run(capacity, EMPTY, es).Some? && NoFailure(es)
    ensures Lost(Run(capacity, EMPTY, es).value) == 0 && Run(capacity, EMPTY, es).value.discarding == map[]
  {
    hide Run, Safe, Tidy, Lost;
    StartIsSafe(capacity);
    StartIsTidy();
    NothingDiscarded(capacity, EMPTY, es);
    SeparateFailuresLoseNothing(capacity, EMPTY, es);
  }

  lemma {:induction false} StartIsTidy()
    ensures Tidy(EMPTY) && Lost(EMPTY) == 0
  {
    assert forall w :: !InService(EMPTY, w);
  }

  /** A release with nobody waiting arms the timer exactly when no worker is in use and no place was lost. */
  lemma {:induction false} ReleaseArmsIff(capacity: nat, p: Pool, t: Task)
    requires Safe(capacity, p) && t in p.held && p.waiting == []
    ensures var q := Next(capacity, p, Release(t));
      q.timer <==> q.held == map[] && q.creating == map[] && q.discarding == map[] && Lost(q) == 0
  {
    hide Exclusive, Named, OneRequest, LastServes;
    StepSafe(capacity, p, Release(t));
    var q := Next(capacity, p, Release(t));
    assert p.held[t] in q.idle by { Returned(p, t); }
    if q.held == map[] && q.creating == map[] && q.discarding == map[] && Lost(q) == 0 {
      AllIdle(q);
      ReleaseIsTimed(capacity, p, t);
    }
  }

  lemma {:induction false} Returned(p: Pool, t: Task)
    requires t in p.held && p.waiting == []
    ensures p.held[t] in ReleaseWorker(p, t).idle
  {
    assert ReleaseWorker(p, t).idle == p.idle + [p.held[t]];
  }

  // ----- who is served -----

  predicate Served(p: Pool, t: Task) {
    t in p.held || t in p.creating.Values
  }

  /** A reading that asks has a worker at once exactly when one is idle or may be made, which is if none is idle. */
  lemma {:induction false} ServedAtOnceIff(capacity: nat, p: Pool, t: Task)
    requires Safe(capacity, p) && Enabled(p, Acquire(t))
    ensures var q := Next(capacity, p, Acquire(t));
      && (Served(q, t) <==> p.idle != [] || |p.workers| < capacity)
      && (t in q.waiting <==> !Served(q, t))
      && (q.next > p.next <==> p.idle == [] && |p.workers| < capacity)
  {
    hide Exclusive, LastServes;
    StepSafe(capacity, p, Acquire(t));
    var q := Next(capacity, p, Acquire(t));
    if p.idle == [] && |p.workers| < capacity { assert q.creating[p.next] == t; }
  }

  predicate Before(s: seq<Task>, t: Task, u: Task) {
    exists i, j :: 0 <= i < j < |s| && s[i] == t && s[j] == u
  }

  /** The reading that waited first asks again while the list is full: it now waits behind the others. */
  predicate GoesLast(capacity: nat, p: Pool, e: Event, t: Task) {
    e.Terminated? && p.waiting != [] && t == p.waiting[0] && |p.workers| >= capacity
  }

  lemma {:induction false} BeforeRest(s: seq<Task>, t: Task, u: Task)
    requires Before(s, t, u) && s[0] != t
    ensures Before(s[1..], t, u)
  {
    var i, j :| 0 <= i < j < |s| && s[i] == t && s[j] == u;
    assert s[1..][i - 1] == t && s[1..][j - 1] == u;
  }

  lemma {:induction false} BeforeMore(s: seq<Task>, t: Task, u: Task, x: Task)
    requires Before(s, t, u)
    ensures Before(s + [x], t, u)
  {
    var i, j :| 0 <= i < j < |s| && s[i] == t && s[j] == u;
    assert (s + [x])[i] == t && (s + [x])[j] == u;
  }

  lemma {:induction false} AcquireOrder(capacity: nat, p: Pool, x: Task, t: Task, u: Task)
    requires Before(p.waiting, t, u)
    ensures Before(AcquireWorker(capacity, p, x).waiting, t, u)
  {
    hide Before;
    BeforeMore(p.waiting, t, u, x);
  }

  lemma {:induction false} AskAgainOrder(capacity: nat, p: Pool, t: Task, u: Task)
    requires Safe(capacity, p) && p.terminating > 0 && Before(p.waiting, t, u)
    ensures var q := AfterTerminate(capacity, p);
      Before(q.waiting, t, u) || Served(q, t) <==> !GoesLast(capacity, p, Terminated, t)
  {
    hide Exclusive, LastServes, Before;
    WaitsOnce(p, t, u);
    var q, r := AfterTerminate(capacity, p), p.(terminating := p.terminating - 1, waiting := p.waiting[1..]);
    var first := p.waiting[0];
    StepSafe(capacity, p, Terminated);
    if first != t {
      BeforeRest(p.waiting, t, u);
      AcquireOrder(capacity, r, first, t, u);
    } else if |p.workers| < capacity {
      assert q.creating[p.next] == t;
    } else {
      NotBefore(p.waiting, t, u);
    }
  }

  lemma {:induction false} WaitsOnce(p: Pool, t: Task, u: Task)
    requires OneRequest(p) && Before(p.waiting, t, u)
    ensures t in p.waiting && u in p.waiting && t != u && !Served(p, t) && p.waiting != []
  {
  }

  lemma {:induction false} NotBefore(s: seq<Task>, t: Task, u: Task)
    requires s != [] && s[0] == t && t != u && forall i, j :: 0 <= i < j < |s| ==> s[i] != s[j]
    ensures !Before(s[1..] + [t], t, u)
  {
    var r := s[1..] + [t];
    forall i | 0 <= i < |r| - 1 ensures r[i] != t { assert r[i] == s[i + 1]; }
  }

  /** Readings are served in the order they wait, but for one that asks again while the list is full. */
  lemma {:induction false} StepKeepsOrderIff(capacity: nat, p: Pool, e: Event, t: Task, u: Task)
    requires Safe(capacity, p) && Enabled(p, e) && Before(p.waiting, t, u)
    ensures var q := Next(capacity, p, e);
      Before(q.waiting, t, u) || Served(q, t) <==> !GoesLast(capacity, p, e, t)
  {
    hide AcquireWorker, AfterTerminate, Before, Exclusive, LastServes, RemoveFound, RemoveAt, IndexOf;
    WaitsOnce(p, t, u);
    match e {
      case Acquire(x) => AcquireOrder(capacity, p, x, t, u);
      case Created(w) =>
      case CreateFailed(w) =>
      case Release(x) =>
        if p.waiting[0] == t { assert t in Next(capacity, p, e).held; } else { BeforeRest(p.waiting, t, u); }
      case Discard(x) =>
      case Splice(w) =>
      case Terminated => AskAgainOrder(capacity, p, t, u);
      case TimerFired =>
    }
  }

  /** In some state of the run, `t` has a worker, or one is being made for it. */
  predicate ServedOnTheWay(capacity: nat, p: Pool, es: seq<Event>, t: Task)
    requires Run(capacity, p, es).Some?
    decreases |es|
  {
    Served(p, t) || (es != [] && ServedOnTheWay(capacity, Next(capacity, p, es[0]), es[1..], t))
  }

  predicate NeverGoesLast(capacity: nat, p: Pool, es: seq<Event>, t: Task)
    requires Run(capacity, p, es).Some?
    decreases |es|
  {
    es == [] || (!GoesLast(capacity, p, es[0], t) && NeverGoesLast(capacity, Next(capacity, p, es[0]), es[1..], t))
  }

  /** No reading overtakes one that waited before it, unless that one asks again while the list is full. */
  lemma {:induction false} ServedInOrder(capacity: nat, p: Pool, es: seq<Event>, t: Task, u: Task)
    requires Safe(capacity, p) && Before(p.waiting, t, u) && Run(capacity, p, es).Some?
    requires NeverGoesLast(capacity, p, es, t)
    ensures Before(Run(capacity, p, es).value.waiting, t, u) || ServedOnTheWay(capacity, p, es, t)
    decreases |es|
  {
    hide Safe, Before, Next, GoesLast, Served;
    if es != [] {
      var q := Next(capacity, p, es[0]);
      StepSafe(capacity, p, es[0]);
      StepKeepsOrderIff(capacity, p, es[0], t, u);
      if Before(q.waiting, t, u) { ServedInOrder(capacity, q, es[1..], t, u); }
    }
  }

  // ----- readings that wait -----

  predicate Busy(p: Pool) {
    p.held != map[] || p.creating != map[] || p.discarding != map[] || p.terminating > 0
  }

  lemma {:induction false} FullListIsBusy(capacity: nat, p: Pool)
    requires Safe(capacity, p) && |p.workers| == capacity > 0 && p.idle == []
    ensures Busy(p)
  {
    if p.workers[capacity - 1] in p.held.Values { var t :| t in p.held && p.held[t] == p.workers[capacity - 1]; }
  }

  lemma {:induction false} AcquireAttended(capacity: nat, p: Pool, t: Task)
    requires Safe(capacity, p) && capacity > 0 && !Asking(p, t)
    ensures Busy(AcquireWorker(capacity, p, t))
  {
    var q := AcquireWorker(capacity, p, t);
    if p.idle != [] { assert t in q.held; }
    else if |p.workers| < capacity { assert p.next in q.creating; }
    else { FullListIsBusy(capacity, p); }
  }

  /** A reading that waits has a worker at work, which will wake it. */
  predicate Attended(p: Pool) {
    p.waiting != [] ==> Busy(p)
  }

  /** The creation that fails was the only thing under way: it wakes nobody. */
  predicate Strands(p: Pool, e: Event) {
    && e.CreateFailed? && p.waiting != []
    && p.held == map[] && p.creating.Keys == {e.w} && p.discarding == map[] && p.terminating == 0
  }

  lemma {:induction false} FailureStrandsIff(p: Pool, w: Worker)
    requires w in p.creating
    ensures !Attended(CreateFail(p, w)) <==> Strands(p, CreateFailed(w))
  {
    hide RemoveFound;
    var rest := p.creating - {w};
    assert rest.Keys == p.creating.Keys - {w};
    assert rest == map[] <==> rest.Keys == {};
  }

  lemma {:induction false} TerminatedAttended(capacity: nat, p: Pool)
    requires Safe(capacity, p) && capacity > 0 && p.terminating > 0
    ensures Attended(AfterTerminate(capacity, p))
  {
    hide AcquireWorker, Safe;
    if p.waiting != [] {
      var r := p.(terminating := p.terminating - 1, waiting := p.waiting[1..]);
      TerminatedSafe(capacity, p, r);
      FirstLeaves(capacity, p);
      AcquireAttended(capacity, r, p.waiting[0]);
    }
  }

  /** A step leaves a reading waiting with nobody to wake it exactly when it is such a failure. */
  lemma {:induction false} StepStrandsIff(capacity: nat, p: Pool, e: Event)
    requires Safe(capacity, p) && capacity > 0 && Attended(p) && Enabled(p, e)
    ensures !Attended(Next(capacity, p, e)) <==> Strands(p, e)
  {
    hide AcquireWorker, AfterTerminate, CreateFail, RemoveFound;
    var q := Next(capacity, p, e);
    match e {
      case Acquire(t) => AcquireAttended(capacity, p, t);
      case Created(w) => assert p.creating[w] in q.held;
      case CreateFailed(w) => FailureStrandsIff(p, w);
      case Release(t) => if p.waiting != [] { assert p.waiting[0] in q.held; }
      case Discard(t) => assert p.held[t] in q.discarding;
      case Splice(w) =>
      case Terminated => TerminatedAttended(capacity, p);
      case TimerFired =>
    }
  }

  /** In every state of the run, a reading that waits has a worker at work. */
  predicate AlwaysAttended(capacity: nat, p: Pool, es: seq<Event>)
    requires Run(capacity, p, es).Some?
    decreases |es|
  {
    Attended(p) && (es == [] || AlwaysAttended(capacity, Next(capacity, p, es[0]), es[1..]))
  }

  /** No step of the run is the failure of the only creation, with nothing else under way and a reading waiting. */
  predicate NeverStrands(capacity: nat, p: Pool, es: seq<Event>)
    requires Run(capacity, p, es).Some?
    decreases |es|
  {
    es == [] || (!Strands(p, es[0]) && NeverStrands(capacity, Next(capacity, p, es[0]), es[1..]))
  }

  /** Exactly such a failure strands a waiting reading, even when places were lost. */
  lemma {:induction false} WaitingIsAttendedIff(capacity: nat, p: Pool, es: seq<Event>)
    requires Safe(capacity, p) && capacity > 0 && Attended(p) && Run(capacity, p, es).Some?
    ensures AlwaysAttended(capacity, p, es) <==> NeverStrands(capacity, p, es)
    decreases |es|
  {
    hide Safe, Attended, Strands, Next;
    if es != [] {
      var q := Next(capacity, p, es[0]);
      StepSafe(capacity, p, es[0]);
      StepStrandsIff(capacity, p, es[0]);
      if Attended(q) {
        WaitingIsAttendedIff(capacity, q, es[1..]);
      } else {
        NotAttended(capacity, q, es[1..]);
      }
    }
  }

  lemma {:induction false} NotAttended(capacity: nat, p: Pool, es: seq<Event>)
    requires !Attended(p) && Run(capacity, p, es).Some?
    ensures !AlwaysAttended(capacity, p, es)
  {
  }

  /** A creation that fails wakes nobody: the reading that waits stays alone until another one comes. */
  lemma {:induction false} FailedCreationStrandsAWaiter()
    ensures var p := Run(1, EMPTY, [Acquire(0)] + [Acquire(1)] + [CreateFailed(0)]);
      p.Some? && p.value.waiting == [1] && !Busy(p.value) && forall e :: Enabled(p.value, e) ==> e.Acquire?
  {
    hide Run;
    var p1 := EMPTY.(workers := [0], creating := map[0 := 0], next := 1);
    var p2 := p1.(waiting := [1]);
    var p3 := EMPTY.(waiting := [1], next := 1);
    NoStep(1);
    RunMore(1, [], EMPTY, Acquire(0), p1);
    assert [] + [Acquire(0)] == [Acquire(0)];
    RunMore(1, [Acquire(0)], p1, Acquire(1), p2);
    assert RemoveFound([0], 0) == [];
    RunMore(1, [Acquire(0)] + [Acquire(1)], p2, CreateFailed(0), p3);
  }

  // ----- readings that never end -----

  /** Only workers being made are marked, and a reading without end has no worker, nor asks for one. */
  ghost predicate Settling(p: Pool) {
    && (forall w :: w in p.again ==> w in p.creating)
    && (forall t :: t in p.stuck ==> !Asking(p, t))
  }

  lemma {:induction false} AcquireSettling(capacity: nat, p: Pool, t: Task)
    requires Settling(p) && t !in p.stuck
    ensures Settling(AcquireWorker(capacity, p, t))
    ensures AcquireWorker(capacity, p, t).next > p.next ==> p.next in AcquireWorker(capacity, p, t).creating
  {
    var q := AcquireWorker(capacity, p, t);
    assert forall x :: x in q.creating.Values ==> x in p.creating.Values || x == t;
  }

  lemma {:induction false} CreateDoneSettling(p: Pool, w: Worker)
    requires Settling(p) && w in p.creating
    ensures Settling(CreateDone(p, w))
  {
    assert p.creating[w] in p.creating.Values;
    assert forall x :: x in CreateDone(p, w).creating.Values ==> x in p.creating.Values;
  }

  lemma {:induction false} CreateFailSettling(p: Pool, w: Worker)
    requires Settling(p) && OneRequest(p) && w in p.creating
    ensures Settling(CreateFail(p, w))
  {
    hide RemoveFound;
    ValuesShrink(p.creating, w);
    assert p.creating[w] in p.creating.Values;
  }

  lemma {:induction false} ReleaseSettling(p: Pool, t: Task)
    requires Settling(p) && t in p.held
    ensures Settling(ReleaseWorker(p, t))
  {
    if p.waiting != [] { assert p.waiting[0] in p.waiting; }
  }

  lemma {:induction false} TerminatedSettling(capacity: nat, p: Pool)
    requires Settling(p) && p.terminating > 0
    ensures Settling(AfterTerminate(capacity, p))
  {
    hide AcquireWorker;
    if p.waiting != [] {
      assert p.waiting[0] in p.waiting;
      AcquireSettling(capacity, p.(terminating := p.terminating - 1, waiting := p.waiting[1..]), p.waiting[0]);
    }
  }

  lemma {:induction false} StepSettling(capacity: nat, p: Pool, e: Event)
    requires Settling(p) && OneRequest(p) && Enabled(p, e)
    ensures Settling(Next(capacity, p, e))
  {
    hide AcquireWorker, CreateDone, CreateFail, ReleaseWorker, AfterTerminate, OneRequest;
    match e {
      case Acquire(t) => AcquireSettling(capacity, p, t);
      case Created(w) => CreateDoneSettling(p, w);
      case CreateFailed(w) => CreateFailSettling(p, w);
      case Release(t) => ReleaseSettling(p, t);
      case Discard(t) =>
      case Splice(w) =>
      case Terminated => TerminatedSettling(capacity, p);
      case TimerFired =>
    }
  }

  lemma {:induction false} StepSticks(capacity: nat, p: Pool, e: Event, t: Task)
    requires Enabled(p, e)
    ensures t in Next(capacity, p, e).stuck
      <==> t in p.stuck || (e.CreateFailed? && e.w in p.again && p.creating[e.w] == t)
  {
    hide RemoveFound;
  }

  /** A worker is made for a reading that waited only when another worker was given up, in a list with room. */
  lemma {:induction false} AskedAgainIff(capacity: nat, p: Pool, e: Event, w: Worker)
    requires Named(p) && Settling(p) && Enabled(p, e) && w !in p.again
    ensures w in Next(capacity, p, e).again
      <==> e.Terminated? && p.waiting != [] && p.idle == [] && |p.workers| < capacity && w == p.next
  {
    hide RemoveFound;
  }

  /** The step `e` makes the worker `w` for the reading `t`, which was waiting when another worker was given up. */
  predicate Makes(p: Pool, e: Event, q: Pool, w: Worker, t: Task) {
    e.Terminated? && w !in p.creating && w in q.creating && q.creating[w] == t
  }

  /** Step `i` of the run does. */
  predicate MadeAgain(capacity: nat, es: seq<Event>, i: nat, w: Worker, t: Task) {
    && i < |es| && Run(capacity, EMPTY, es[..i]).Some? && Run(capacity, EMPTY, es[..i + 1]).Some?
    && Makes(Run(capacity, EMPTY, es[..i]).value, es[i], Run(capacity, EMPTY, es[..i + 1]).value, w, t)
  }

  predicate FailsAt(es: seq<Event>, j: nat, w: Worker) {
    j < |es| && es[j] == CreateFailed(w)
  }

  lemma {:induction false} LastStep(capacity: nat, es: seq<Event>, e: Event)
    requires Run(capacity, EMPTY, es + [e]).Some?
    ensures Run(capacity, EMPTY, es).Some? && Enabled(Run(capacity, EMPTY, es).value, e)
    ensures Run(capacity, EMPTY, es + [e]).value == Next(capacity, Run(capacity, EMPTY, es).value, e)
  {
    hide Enabled, Next;
    RunPrefix(capacity, EMPTY, es, [e]);
    RunThen(capacity, EMPTY, es, [e]);
    assert [e][1..] == [];
  }

  lemma {:induction false} RunPrefix(capacity: nat, p: Pool, a: seq<Event>, b: seq<Event>)
    requires Run(capacity, p, a + b).Some?
    ensures Run(capacity, p, a).Some?
    decreases |a|
  {
    hide Enabled, Next;
    if a != [] {
      assert (a + b)[0] == a[0] && (a + b)[1..] == a[1..] + b;
      RunPrefix(capacity, Next(capacity, p, a[0]), a[1..], b);
    }
  }

  /** What was made before the last step, and what the last step makes. */
  lemma {:induction false} MadeBefore(capacity: nat, es: seq<Event>, e: Event, i: nat, w: Worker, t: Task)
    requires Run(capacity, EMPTY, es + [e]).Some? && Run(capacity, EMPTY, es).Some?
    ensures i < |es| ==> (MadeAgain(capacity, es + [e], i, w, t) <==> MadeAgain(capacity, es, i, w, t))
    ensures MadeAgain(capacity, es + [e], |es|, w, t)
      <==> Makes(Run(capacity, EMPTY, es).value, e, Run(capacity, EMPTY, es + [e]).value, w, t)
  {
    hide Run, Makes;
    var all := es + [e];
    if i < |es| { assert all[..i] == es[..i] && all[..i + 1] == es[..i + 1]; }
    assert all[..|es|] == es && all[..|es| + 1] == all;
  }

  /** A worker that already has its number, if it is being made, was so, for the same reading, and keeps its mark. */
  predicate KeepsMark(p: Pool, q: Pool, w: Worker) {
    p.next <= q.next
      && (w in q.creating ==> w in p.creating && q.creating[w] == p.creating[w] && (w in p.again <==> w in q.again))
  }

  lemma {:induction false} AcquireKeepsMark(capacity: nat, p: Pool, t: Task, w: Worker)
    requires w < p.next
    ensures KeepsMark(p, AcquireWorker(capacity, p, t), w)
  {
  }

  lemma {:induction false} TerminatedKeepsMark(capacity: nat, p: Pool, w: Worker)
    requires w < p.next && p.terminating > 0
    ensures KeepsMark(p, AfterTerminate(capacity, p), w)
  {
    hide AcquireWorker;
    if p.waiting != [] {
      AcquireKeepsMark(capacity, p.(terminating := p.terminating - 1, waiting := p.waiting[1..]), p.waiting[0], w);
    }
  }

  lemma {:induction false} StepKeepsMarks(capacity: nat, p: Pool, e: Event, w: Worker)
    requires Enabled(p, e) && w < p.next
    ensures KeepsMark(p, Next(capacity, p, e), w)
  {
    hide RemoveFound, AcquireWorker, AfterTerminate, AskAgain;
    match e {
      case Acquire(t) => AcquireKeepsMark(capacity, p, t, w);
      case Created(x) =>
      case CreateFailed(x) =>
      case Release(t) =>
      case Discard(t) =>
      case Splice(x) =>
      case Terminated => TerminatedKeepsMark(capacity, p, w);
      case TimerFired =>
    }
  }

  lemma {:induction false} MakesMarks(capacity: nat, p: Pool, e: Event, w: Worker, t: Task)
    requires Named(p) && Settling(p) && Enabled(p, e) && Makes(p, e, Next(capacity, p, e), w, t)
    ensures var q := Next(capacity, p, e); w in q.again && w < q.next
  {
    hide RemoveFound;
  }

  /** The marked workers are exactly those being made that such a step made. */
  ghost predicate MarksTell(capacity: nat, es: seq<Event>, p: Pool) {
    && (forall w :: w in p.again ==> w in p.creating && exists i: nat :: MadeAgain(capacity, es, i, w, p.creating[w]))
    && (forall i: nat, w: Worker, t: Task ::
        MadeAgain(capacity, es, i, w, t) ==> w < p.next && (w in p.creating ==> w in p.again && p.creating[w] == t))
  }

  lemma {:induction false} NewMark(capacity: nat, p: Pool, e: Event, w: Worker)
    requires Named(p) && Settling(p) && Enabled(p, e) && w !in p.again && w in Next(capacity, p, e).again
    ensures var q := Next(capacity, p, e); w in q.creating && Makes(p, e, q, w, q.creating[w])
  {
    hide RemoveFound;
    AskedAgainIff(capacity, p, e, w);
  }

  lemma {:induction false} OldMark(capacity: nat, p: Pool, e: Event, w: Worker)
    requires Named(p) && Settling(p) && Enabled(p, e) && w in p.again && w in Next(capacity, p, e).again
    requires Settling(Next(capacity, p, e))
    ensures var q := Next(capacity, p, e); w in q.creating && w in p.creating && q.creating[w] == p.creating[w]
  {
    hide RemoveFound, Next;
    StepKeepsMarks(capacity, p, e, w);
  }

  lemma {:induction false} StepTells(capacity: nat, es: seq<Event>, p: Pool, e: Event)
    requires Run(capacity, EMPTY, es) == Some(p) && Enabled(p, e) && Named(p) && Settling(p) && OneRequest(p)
    requires MarksTell(capacity, es, p)
    ensures MarksTell(capacity, es + [e], Next(capacity, p, e))
  {
    hide Run, Next, Enabled, Named, Settling, OneRequest, Makes, MadeAgain;
    var q := Next(capacity, p, e);
    RunMore(capacity, es, p, e, q);
    StepSettling(capacity, p, e);
    forall w | w in q.again
      ensures w in q.creating && exists i: nat :: MadeAgain(capacity, es + [e], i, w, q.creating[w])
    {
      if w in p.again {
        OldMark(capacity, p, e, w);
        var i :| MadeAgain(capacity, es, i, w, p.creating[w]);
        MadeInside(capacity, es, i, w, p.creating[w]);
        MadeBefore(capacity, es, e, i, w, p.creating[w]);
      } else {
        NewMark(capacity, p, e, w);
        MadeBefore(capacity, es, e, 0, w, q.creating[w]);
      }
    }
    forall i: nat, w: Worker, t: Task | MadeAgain(capacity, es + [e], i, w, t)
      ensures w < q.next && (w in q.creating ==> w in q.again && q.creating[w] == t)
    {
      MadeInside(capacity, es + [e], i, w, t);
      MadeBefore(capacity, es, e, i, w, t);
      if i < |es| {
        StepKeepsMarks(capacity, p, e, w);
      } else {
        MakesMarks(capacity, p, e, w, t);
        assert q.creating[w] == t by { MadeFor(p, e, q, w, t); }
      }
    }
  }

  lemma {:induction false} MadeInside(capacity: nat, es: seq<Event>, i: nat, w: Worker, t: Task)
    requires MadeAgain(capacity, es, i, w, t)
    ensures i < |es|
  {
    hide Run, Makes;
  }

  lemma {:induction false} MadeFor(p: Pool, e: Event, q: Pool, w: Worker, t: Task)
    requires Makes(p, e, q, w, t)
    ensures w in q.creating && q.creating[w] == t
  {
  }

  lemma {:induction false} RunTells(capacity: nat, es: seq<Event>)
    requires Run(capacity, EMPTY, es).Some?
    ensures var p := Run(capacity, EMPTY, es).value;
      && Named(p) && Settling(p) && OneRequest(p)
      && MarksTell(capacity, es, p)
    decreases |es|
  {
    hide Next, Enabled, Settling, MarksTell, Named, OneRequest, Safe;
    StartIsSafe(capacity);
    RunSafe(capacity, EMPTY, es);
    SafeParts(capacity, Run(capacity, EMPTY, es).value);
    if es == [] {
      StartTells(capacity);
    } else {
      hide Run;
      var init, e := es[..|es| - 1], es[|es| - 1];
      assert es == init + [e];
      LastStep(capacity, init, e);
      RunTells(capacity, init);
      var p := Run(capacity, EMPTY, init).value;
      StepSettling(capacity, p, e);
      StepTells(capacity, init, p, e);
    }
  }

  lemma {:induction false} StartIsSafe(capacity: nat)
    ensures Safe(capacity, EMPTY)
  {
  }

  lemma {:induction false} StartTells(capacity: nat)
    ensures MarksTell(capacity, [], EMPTY) && Settling(EMPTY)
  {
  }

  /** A step of the run makes a worker for `t`, and a later step is its failure. */
  ghost predicate Abandons(capacity: nat, es: seq<Event>, t: Task) {
    exists i: nat, j: nat, w :: i < j && MadeAgain(capacity, es, i, w, t) && FailsAt(es, j, w)
  }

  lemma {:induction false} AbandonsAdd(capacity: nat, es: seq<Event>, p: Pool, e: Event, t: Task)
    requires Run(capacity, EMPTY, es) == Some(p) && Enabled(p, e) && MarksTell(capacity, es, p)
    ensures Abandons(capacity, es + [e], t)
      <==> Abandons(capacity, es, t) || (e.CreateFailed? && e.w in p.again && p.creating[e.w] == t)
  {
    hide Run, Next, Makes, MadeAgain;
    var all := es + [e];
    RunMore(capacity, es, p, e, Next(capacity, p, e));
    if Abandons(capacity, all, t) {
      var i: nat, j: nat, w :| i < j && MadeAgain(capacity, all, i, w, t) && FailsAt(all, j, w);
      MadeBefore(capacity, es, e, i, w, t);
      if j < |es| {
        assert FailsAt(es, j, w);
      } else {
        assert MadeAgain(capacity, es, i, w, t) && e == CreateFailed(w);
      }
    }
    if Abandons(capacity, es, t) {
      var i: nat, j: nat, w :| i < j && MadeAgain(capacity, es, i, w, t) && FailsAt(es, j, w);
      MadeBefore(capacity, es, e, i, w, t);
      assert FailsAt(all, j, w);
    }
    if e.CreateFailed? && e.w in p.again && p.creating[e.w] == t {
      var i :| MadeAgain(capacity, es, i, e.w, t);
      MadeInside(capacity, es, i, e.w, t);
      MadeBefore(capacity, es, e, i, e.w, t);
      assert FailsAt(all, |es|, e.w);
    }
  }

  /** After any run, exactly the readings for which a worker was made again, and failed, are left without an answer. */
  lemma {:induction false} StuckIff(capacity: nat, es: seq<Event>, t: Task)
    requires Run(capacity, EMPTY, es).Some?
    ensures t in Run(capacity, EMPTY, es).value.stuck <==> Abandons(capacity, es, t)
    decreases |es|
  {
    hide Next, Enabled, MarksTell, Named, OneRequest, Settling, Abandons;
    if es == [] {
      NothingAbandoned(capacity, t);
    } else {
      var init, e := es[..|es| - 1], es[|es| - 1];
      assert es == init + [e];
      LastStep(capacity, init, e);
      var p := Run(capacity, EMPTY, init).value;
      RunTells(capacity, init);
      StuckIff(capacity, init, t);
      StepSticks(capacity, p, e, t);
      AbandonsAdd(capacity, init, p, e, t);
    }
  }

  lemma {:induction false} NothingAbandoned(capacity: nat, t: Task)
    ensures !Abandons(capacity, [], t) && EMPTY.stuck == {}
  {
  }

  /** Such a reading stays without an answer for ever: no later step serves it. */
  lemma {:induction false} NeverAnswered(capacity: nat, p: Pool, es: seq<Event>, t: Task)
    requires Safe(capacity, p) && Settling(p) && t in p.stuck && Run(capacity, p, es).Some?
    ensures var q := Run(capacity, p, es).value; t in q.stuck && !Asking(q, t)
    decreases |es|
  {
    hide Safe, Settling, Next, Asking;
    if es == [] {
      assert !Asking(p, t) by { StuckAsksNothing(p, t); }
    } else {
      StepSafe(capacity, p, es[0]);
      assert OneRequest(p) by { SafeParts(capacity, p); }
      StepSettling(capacity, p, es[0]);
      StepSticks(capacity, p, es[0], t);
      NeverAnswered(capacity, Next(capacity, p, es[0]), es[1..], t);
    }
  }

  lemma {:induction false} StuckAsksNothing(p: Pool, t: Task)
    requires Settling(p) && t in p.stuck
    ensures !Asking(p, t)
  {
  }

  const GIVEN_UP := [Acquire(0)] + [Acquire(1)] + [Created(0)] + [Discard(0)] + [Splice(0)] + [Terminated]
    + [CreateFailed(1)]

  const MAKING := EMPTY.(workers := [0], creating := map[0 := 0], next := 1)
  const ONE_WAITS := MAKING.(waiting := [1])
  const ONE_READS := EMPTY.(workers := [0], waiting := [1], held := map[0 := 0], next := 1)
  const ONE_FAILS := EMPTY.(workers := [0], waiting := [1], discarding := map[0 := [0]], next := 1)
  const NO_WORKER := EMPTY.(waiting := [1], terminating := 1, next := 1)
  const MAKING_AGAIN := EMPTY.(workers := [1], creating := map[1 := 1], next := 2, again := {1})
  const FORGOTTEN := EMPTY.(next := 2, stuck := {1})

  lemma {:induction false} WorkerGoes()
    ensures Enabled(ONE_FAILS, Splice(0)) && Next(1, ONE_FAILS, Splice(0)) == NO_WORKER
  {
    assert IndexOf([0], 0) == Some(0) && RemoveAt([0], 0) == [];
  }

  lemma {:induction false} WaiterAsksAgain()
    ensures Enabled(NO_WORKER, Terminated) && Next(1, NO_WORKER, Terminated) == MAKING_AGAIN
  {
  }

  lemma {:induction false} SecondFails()
    ensures Enabled(MAKING_AGAIN, CreateFailed(1)) && Next(1, MAKING_AGAIN, CreateFailed(1)) == FORGOTTEN
  {
    assert IndexOf([1], 1) == Some(0) && RemoveFound([1], 1) == [];
  }

  lemma {:induction false} FirstReads()
    ensures Enabled(EMPTY, Acquire(0)) && Next(1, EMPTY, Acquire(0)) == MAKING
    ensures Enabled(MAKING, Acquire(1)) && Next(1, MAKING, Acquire(1)) == ONE_WAITS
    ensures Enabled(ONE_WAITS, Created(0)) && Next(1, ONE_WAITS, Created(0)) == ONE_READS
    ensures Enabled(ONE_READS, Discard(0)) && Next(1, ONE_READS, Discard(0)) == ONE_FAILS
  {
  }

  /** One place: a reading fails while another one waits, and no worker can be made for that one. */
  lemma {:induction false} WaiterIsForgotten()
    ensures Run(1, EMPTY, GIVEN_UP) == Some(FORGOTTEN)
  {
    hide Run, Next, Enabled;
    FirstReads();
    WorkerGoes();
    WaiterAsksAgain();
    SecondFails();
    NoStep(1);
    RunMore(1, [], EMPTY, Acquire(0), MAKING);
    assert [] + [Acquire(0)] == [Acquire(0)];
    RunMore(1, [Acquire(0)], MAKING, Acquire(1), ONE_WAITS);
    var es := [Acquire(0)] + [Acquire(1)];
    RunMore(1, es, ONE_WAITS, Created(0), ONE_READS);
    RunMore(1, es + [Created(0)], ONE_READS, Discard(0), ONE_FAILS);
    RunMore(1, es + [Created(0)] + [Discard(0)], ONE_FAILS, Splice(0), NO_WORKER);
    RunMore(1, es + [Created(0)] + [Discard(0)] + [Splice(0)], NO_WORKER, Terminated, MAKING_AGAIN);
    RunMore(1, es + [Created(0)] + [Discard(0)] + [Splice(0)] + [Terminated], MAKING_AGAIN, CreateFailed(1), FORGOTTEN);
  }
}
