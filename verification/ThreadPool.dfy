/** DynamicThreadPool: its critical sections, every interleaving of its threads, and its drain on stop. */
module ThreadPool {
  /** A queued function, by identity. */
  type Work(==,!new)

  /** A std::function, which may be empty. */
  datatype Callable = Empty | Call(work: Work)

  datatype Config = Config(init: nat, max: nat, backlog: nat, bound: nat)

  /**
   A worker thread: at the top of its loop, inside the timed wait, running a task, out of the loop,
   or with its finished flag set.
   */
  datatype Stage = Ready | Waiting | Busy | Exited | Finished

  /** threads holds every thread ever started, listed those in the workers_ vector. */
  datatype Pool = Pool(queue: seq<Work>, threads: seq<Stage>, listed: seq<nat>, current: nat, idle: nat,
                       stopping: bool, stopped: bool)

  function Corrected(c: Config): (r: Config)
    ensures 1 <= r.init <= r.max && r.init >= c.init && r.max >= c.max
  {
    var init := if c.init < 1 then 1 else c.init;
    c.(init := init, max := if c.max < init then init else c.max)
  }

  // ---------- the critical sections ----------

  predicate Accepts(p: Pool, c: Config) {
    !p.stopping && (c.bound == 0 || |p.queue| < c.bound)
  }

  function Started(p: Pool): Pool {
    p.(threads := p.threads + [Ready], listed := p.listed + [|p.threads|], current := p.current + 1)
  }

  function Grown(p: Pool, k: nat): Pool {
    if k == 0 then p else Started(Grown(p, k - 1))
  }

  function Min(a: nat, b: nat): nat { if a < b then a else b }

  /** The most threads one adjustment may start. */
  function Room(p: Pool, c: Config): nat {
    if |p.queue| > c.backlog && p.current < c.max then
      if p.current + 2 <= c.max then 2 else c.max - p.current
    else 0
  }

  predicate IsFinished(threads: seq<Stage>, w: nat) {
    w < |threads| && threads[w] == Finished
  }

  function Unfinished(listed: seq<nat>, threads: seq<Stage>): seq<nat> {
    if listed == [] then [] else
      var front, w := Unfinished(listed[..|listed| - 1], threads), listed[|listed| - 1];
      if IsFinished(threads, w) then front else front + [w]
  }

  /** One adjustment that manages to start k threads. */
  function Adjusted(p: Pool, k: nat): Pool {
    if p.stopping then p else Grown(p.(listed := Unfinished(p.listed, p.threads)), k)
  }

  /** Thread w takes the first task. */
  function Popped(p: Pool, w: nat): Pool
    requires w < |p.threads| && p.queue != []
  {
    p.(queue := p.queue[1..], threads := p.threads[w := Busy])
  }

  function Left(p: Pool, w: nat): Pool
    requires w < |p.threads|
  {
    p.(threads := p.threads[w := Exited], current := if p.current > 0 then p.current - 1 else 0)
  }

  /** From the top of the loop: take a task, leave, or start waiting. */
  function Entered(p: Pool, w: nat): Pool
    requires w < |p.threads|
  {
    if p.queue != [] then Popped(p, w)
    else if p.stopping then Left(p, w)
    else p.(threads := p.threads[w := Waiting], idle := p.idle + 1)
  }

  /** Out of the timed wait, by a notification or by its time limit. */
  function Woken(p: Pool, c: Config, w: nat): Pool
    requires w < |p.threads| && p.idle > 0
  {
    var q := p.(idle := p.idle - 1);
    var ready := q.stopping || q.queue != [];
    if !ready && q.idle > 0 && q.current > c.init then Left(q, w)
    else if q.stopping && q.queue == [] then Left(q, w)
    else if q.queue == [] then q.(threads := q.threads[w := Ready])
    else Popped(q, w)
  }

  // ---------- every interleaving ----------

  datatype Event =
    | Enqueue(task: Work)
    | Adjust(k: nat)
    | Enter(w: nat)
    | Wake(w: nat)
    | TaskDone(w: nat)
    | Flag(w: nat)
    | StopBegin
    | StopEnd

  /** The pool with the tasks it accepted and those it started, in order. */
  datatype World = World(p: Pool, accepted: seq<Work>, started: seq<Work>)

  predicate Is(p: Pool, w: nat, st: Stage) {
    w < |p.threads| && p.threads[w] == st
  }

  predicate WorkerStep(ev: Event) {
    ev.Enter? || ev.Wake? || ev.TaskDone? || ev.Flag?
  }

  predicate AllJoined(p: Pool) {
    forall w :: w in p.listed ==> IsFinished(p.threads, w)
  }

  predicate Enabled(s: World, c: Config, ev: Event) {
    match ev
    case Enqueue(_) => true
    case Adjust(k) => k <= Room(s.p, c)
    case Enter(w) => Is(s.p, w, Ready)
    case Wake(w) => Is(s.p, w, Waiting) && s.p.idle > 0
    case TaskDone(w) => Is(s.p, w, Busy)
    case Flag(w) => Is(s.p, w, Exited)
    case StopBegin => true
    case StopEnd => s.p.stopping && !s.p.stopped && AllJoined(s.p)
  }

  function Move(p: Pool, c: Config, ev: Event): Pool
    requires Enabled(World(p, [], []), c, ev)
  {
    match ev
    case Enqueue(t) => if Accepts(p, c) then p.(queue := p.queue + [t]) else p
    case Adjust(k) => Adjusted(p, k)
    case Enter(w) => Entered(p, w)
    case Wake(w) => Woken(p, c, w)
    case TaskDone(w) => p.(threads := p.threads[w := Ready])
    case Flag(w) => p.(threads := p.threads[w := Finished])
    case StopBegin => if p.stopped then p else p.(stopping := true)
    case StopEnd => p.(listed := [], stopped := true)
  }

  function Step(s: World, c: Config, ev: Event): World
    requires Enabled(s, c, ev)
  {
    var p := Move(s.p, c, ev);
    World(p,
          if ev.Enqueue? && Accepts(s.p, c) then s.accepted + [ev.task] else s.accepted,
          if |p.queue| < |s.p.queue| then s.started + [s.p.queue[0]] else s.started)
  }

  ghost predicate IsRun(s: World, c: Config, evs: seq<Event>)
    decreases |evs|, 0
  {
    evs == [] || (IsRun(s, c, evs[..|evs| - 1]) && Enabled(After(s, c, evs[..|evs| - 1]), c, evs[|evs| - 1]))
  }

  ghost function After(s: World, c: Config, evs: seq<Event>): World
    requires IsRun(s, c, evs)
    decreases |evs|, 1
  {
    if evs == [] then s else Step(After(s, c, evs[..|evs| - 1]), c, evs[|evs| - 1])
  }

  /** The constructor starts the initial threads. */
  function Built(c: Config): Pool {
    Grown(Pool([], [], [], 0, 0, false, false), c.init)
  }

  // ---------- sums over the threads ----------

  predicate Live(st: Stage) {
    st == Ready || st == Waiting || st == Busy
  }

  function OneIfLive(st: Stage): nat {
    if Live(st) then 1 else 0
  }

  function OneIfWaiting(st: Stage): nat {
    if st == Waiting then 1 else 0
  }

  /** How many of its own steps a thread of a stopping pool has left, beyond those it spends on tasks. */
  function StepsLeft(st: Stage): nat {
    match st
    case Finished => 0
    case Exited => 1
    case Ready => 2
    case Waiting => 3
    case Busy => 3
  }

  function Total(s: seq<Stage>, f: Stage -> nat): nat {
    if s == [] then 0 else Total(s[..|s| - 1], f) + f(s[|s| - 1])
  }

  lemma {:induction false} TotalUpdate(s: seq<Stage>, f: Stage -> nat, w: nat, st: Stage)
    requires w < |s|
    ensures Total(s[w := st], f) == Total(s, f) - f(s[w]) + f(st)
  {
    if w == |s| - 1 {
      assert s[w := st][..w] == s[..w];
    } else {
      TotalUpdate(s[..|s| - 1], f, w, st);
      assert s[w := st][..|s| - 1] == s[..|s| - 1][w := st];
    }
  }

  lemma TotalAppend(s: seq<Stage>, f: Stage -> nat, st: Stage)
    ensures Total(s + [st], f) == Total(s, f) + f(st)
  {
    assert (s + [st])[..|s|] == s;
  }

  lemma {:induction false} TotalAtLeast(s: seq<Stage>, f: Stage -> nat, w: nat)
    requires w < |s|
    ensures Total(s, f) >= f(s[w])
  {
    if w < |s| - 1 {
      TotalAtLeast(s[..|s| - 1], f, w);
    }
  }

  lemma {:induction false} SomeLive(s: seq<Stage>) returns (w: nat)
    requires Total(s, OneIfLive) > 0
    ensures w < |s| && Live(s[w])
  {
    if Live(s[|s| - 1]) {
      w := |s| - 1;
    } else {
      w := SomeLive(s[..|s| - 1]);
    }
  }

  // ---------- the invariant ----------

  /** The counters count, every live thread is listed, and the bounds hold. */
  ghost predicate Sound(p: Pool, c: Config) {
    && p.current == Total(p.threads, OneIfLive)
    && p.idle == Total(p.threads, OneIfWaiting)
    && ListOk(p)
    && p.current <= c.max
    && (p.current < c.init ==> p.stopping && p.queue == [])
    && (c.bound > 0 ==> |p.queue| <= c.bound)
  }

  ghost predicate Inv(s: World, c: Config) {
    Sound(s.p, c) && s.accepted == s.started + s.p.queue
  }

  lemma {:induction false} UnfinishedExactly(listed: seq<nat>, threads: seq<Stage>, w: nat)
    ensures w in Unfinished(listed, threads) <==> w in listed && !IsFinished(threads, w)
  {
    if listed != [] {
      UnfinishedExactly(listed[..|listed| - 1], threads, w);
      assert listed == listed[..|listed| - 1] + [listed[|listed| - 1]];
    }
  }

  /** What growing by k does to the threads: k new ready ones. */
  lemma {:induction false} GrownThreads(p: Pool, k: nat)
    ensures var q := Grown(p, k);
            && |q.threads| == |p.threads| + k && p.threads <= q.threads
            && forall w :: |p.threads| <= w < |q.threads| ==> q.threads[w] == Ready
  {
    if k > 0 { GrownThreads(p, k - 1); }
  }

  /** All of them are listed. */
  lemma {:induction false} GrownListed(p: Pool, k: nat, w: nat)
    ensures w in Grown(p, k).listed <==> w in p.listed || |p.threads| <= w < |p.threads| + k
  {
    if k > 0 {
      GrownListed(p, k - 1, w);
      GrownThreads(p, k - 1);
    }
  }

  /** And counted. */
  lemma {:induction false} GrownTotals(p: Pool, k: nat)
    ensures var q := Grown(p, k);
            && Total(q.threads, OneIfLive) == Total(p.threads, OneIfLive) + k
            && Total(q.threads, OneIfWaiting) == Total(p.threads, OneIfWaiting)
  {
    if k > 0 {
      GrownTotals(p, k - 1);
      var q := Grown(p, k - 1);
      TotalAppend(q.threads, OneIfLive, Ready);
      TotalAppend(q.threads, OneIfWaiting, Ready);
    }
  }

  /** Nothing else changes. */
  lemma {:induction false} GrownRest(p: Pool, k: nat)
    ensures var q := Grown(p, k);
            q == p.(threads := q.threads, listed := q.listed, current := p.current + k)
  {
    if k > 0 { GrownRest(p, k - 1); }
  }

  /** Every thread that has not finished is listed, and only threads are. */
  ghost predicate ListOk(p: Pool) {
    && (forall w :: 0 <= w < |p.threads| && p.threads[w] != Finished ==> w in p.listed)
    && (forall w :: w in p.listed ==> w < |p.threads|)
  }

  lemma GrownKeepsList(p: Pool, k: nat)
    requires ListOk(p)
    ensures ListOk(Grown(p, k))
  {
    var q := Grown(p, k);
    GrownThreads(p, k);
    forall w | 0 <= w < |q.threads| && q.threads[w] != Finished ensures w in q.listed {
      GrownListed(p, k, w);
      assert w < |p.threads| ==> p.threads[w] == q.threads[w];
    }
    forall w | w in q.listed ensures w < |q.threads| { GrownListed(p, k, w); }
  }

  lemma UnfinishedKeepsList(p: Pool)
    requires ListOk(p)
    ensures ListOk(p.(listed := Unfinished(p.listed, p.threads)))
  {
    var q := p.(listed := Unfinished(p.listed, p.threads));
    forall w | 0 <= w < |p.threads| && p.threads[w] != Finished ensures w in q.listed {
      UnfinishedExactly(p.listed, p.threads, w);
    }
    forall w | w in q.listed ensures w < |p.threads| { UnfinishedExactly(p.listed, p.threads, w); }
  }

  lemma AdjustKeepsSound(p: Pool, c: Config, k: nat)
    requires Sound(p, c) && k <= Room(p, c)
    ensures Sound(Adjusted(p, k), c)
  {
    if !p.stopping {
      var q := p.(listed := Unfinished(p.listed, p.threads));
      UnfinishedKeepsList(p);
      GrownKeepsList(q, k);
      GrownTotals(q, k);
      GrownRest(q, k);
    }
  }

  /** Moving thread w to another stage changes each sum by that thread alone. */
  lemma ThreadMoves(p: Pool, w: nat, st: Stage)
    requires w < |p.threads|
    ensures var t := p.threads[w := st];
            && Total(t, OneIfLive) == Total(p.threads, OneIfLive) - OneIfLive(p.threads[w]) + OneIfLive(st)
            && Total(t, OneIfWaiting) == Total(p.threads, OneIfWaiting) - OneIfWaiting(p.threads[w]) + OneIfWaiting(st)
            && Total(p.threads, OneIfLive) >= OneIfLive(p.threads[w])
            && Total(t, StepsLeft) == Total(p.threads, StepsLeft) - StepsLeft(p.threads[w]) + StepsLeft(st)
  {
    TotalUpdate(p.threads, OneIfLive, w, st);
    TotalUpdate(p.threads, OneIfWaiting, w, st);
    TotalUpdate(p.threads, StepsLeft, w, st);
    TotalAtLeast(p.threads, OneIfLive, w);
  }

  lemma WorkerKeepsSound(p: Pool, c: Config, ev: Event)
    requires Sound(p, c) && WorkerStep(ev) && Enabled(World(p, [], []), c, ev)
    ensures Sound(Move(p, c, ev), c)
  {
    var q := Move(p, c, ev);
    ThreadMoves(p, ev.w, q.threads[ev.w]);
    assert q.threads == p.threads[ev.w := q.threads[ev.w]];
  }

  lemma MoveKeepsSound(p: Pool, c: Config, ev: Event)
    requires c.init >= 1 && Sound(p, c) && Enabled(World(p, [], []), c, ev)
    ensures Sound(Move(p, c, ev), c)
  {
    if WorkerStep(ev) {
      WorkerKeepsSound(p, c, ev);
    } else if ev.Adjust? {
      AdjustKeepsSound(p, c, ev.k);
    }
  }

  /** A step takes the first task of the queue, adds one at its end, or leaves it. */
  lemma MoveOfQueue(p: Pool, c: Config, ev: Event)
    requires Enabled(World(p, [], []), c, ev)
    ensures var q := Move(p, c, ev).queue;
            if ev.Enqueue? && Accepts(p, c) then q == p.queue + [ev.task]
            else q == p.queue || (p.queue != [] && q == p.queue[1..])
  {
    if ev.Adjust? {
      GrownRest(p.(listed := Unfinished(p.listed, p.threads)), ev.k);
    }
  }

  lemma StepKeepsInv(s: World, c: Config, ev: Event)
    requires c.init >= 1 && Inv(s, c) && Enabled(s, c, ev)
    ensures Inv(Step(s, c, ev), c)
  {
    MoveKeepsSound(s.p, c, ev);
    MoveOfQueue(s.p, c, ev);
    StepConserves(s, c, ev);
  }

  lemma StepConserves(s: World, c: Config, ev: Event)
    requires Enabled(s, c, ev) && s.accepted == s.started + s.p.queue
    requires var q := Move(s.p, c, ev).queue;
             if ev.Enqueue? && Accepts(s.p, c) then q == s.p.queue + [ev.task]
             else q == s.p.queue || (s.p.queue != [] && q == s.p.queue[1..])
    ensures var t := Step(s, c, ev); t.accepted == t.started + t.p.queue
  {
  }

  lemma {:induction false} RunKeepsInv(c: Config, evs: seq<Event>)
    requires 1 <= c.init <= c.max && IsRun(World(Built(c), [], []), c, evs)
    ensures Inv(After(World(Built(c), [], []), c, evs), c)
    decreases |evs|
  {
    if evs == [] {
      var p := Pool([], [], [], 0, 0, false, false);
      GrownKeepsList(p, c.init);
      GrownTotals(p, c.init);
      GrownRest(p, c.init);
    } else {
      RunKeepsInv(c, evs[..|evs| - 1]);
      StepKeepsInv(After(World(Built(c), [], []), c, evs[..|evs| - 1]), c, evs[|evs| - 1]);
    }
  }

  /**
   Over every run: the started tasks and then the queued ones are the accepted ones in order; the
   live threads number current and lie between init and max until stop; the queue keeps its bound.
   */
  lemma Conservation(c: Config, evs: seq<Event>)
    requires 1 <= c.init <= c.max && IsRun(World(Built(c), [], []), c, evs)
    ensures var s := After(World(Built(c), [], []), c, evs);
            && s.accepted == s.started + s.p.queue
            && s.p.current == Total(s.p.threads, OneIfLive) <= c.max
            && s.p.idle == Total(s.p.threads, OneIfWaiting)
            && (!s.p.stopping ==> c.init <= s.p.current)
            && (c.bound > 0 ==> |s.p.queue| <= c.bound)
  {
    RunKeepsInv(c, evs);
  }

  /** A task is accepted exactly while the pool is not stopping and the queue is below its bound. */
  lemma AcceptsExactly(s: World, c: Config, task: Work)
    ensures var t := Step(s, c, Enqueue(task));
            if !s.p.stopping && (c.bound == 0 || |s.p.queue| < c.bound)
            then t.accepted == s.accepted + [task] && t.p.queue == s.p.queue + [task] && t.started == s.started
            else t == s
  {
  }

  // ---------- growing and shrinking ----------

  /** When an adjustment may start k threads. */
  lemma GrowthExactly(s: World, c: Config, k: nat)
    requires k > 0
    ensures Enabled(s, c, Adjust(k)) <==> k <= 2 && |s.p.queue| > c.backlog && s.p.current + k <= c.max
  {
  }

  lemma Snoc(s: World, c: Config, evs: seq<Event>, ev: Event)
    requires IsRun(s, c, evs) && Enabled(After(s, c, evs), c, ev)
    ensures IsRun(s, c, evs + [ev]) && After(s, c, evs + [ev]) == Step(After(s, c, evs), c, ev)
  {
    assert (evs + [ev])[..|evs + [ev]| - 1] == evs;
  }

  /** While the backlog is too long, adjustments can bring the pool to its maximum, and no further. */
  lemma {:induction false} GrowsToMax(s: World, c: Config, evs0: seq<Event>) returns (evs: seq<Event>)
    requires IsRun(s, c, evs0)
    requires var p := After(s, c, evs0).p; !p.stopping && |p.queue| > c.backlog && p.current <= c.max
    ensures IsRun(s, c, evs) && After(s, c, evs).p.current == c.max
    ensures |After(s, c, evs).p.queue| > c.backlog
    decreases c.max - After(s, c, evs0).p.current
  {
    var t := After(s, c, evs0);
    evs := evs0;
    if t.p.current < c.max {
      evs := GrowOnce(s, c, evs0);
      evs := GrowsToMax(s, c, evs);
    }
  }

  lemma GrowOnce(s: World, c: Config, evs0: seq<Event>) returns (evs: seq<Event>)
    requires IsRun(s, c, evs0)
    requires var p := After(s, c, evs0).p; !p.stopping && |p.queue| > c.backlog && p.current < c.max
    ensures IsRun(s, c, evs)
    ensures var p := After(s, c, evs0).p; var q := After(s, c, evs).p;
            q.queue == p.queue && !q.stopping && p.current < q.current <= c.max
  {
    var t := After(s, c, evs0);
    var k := if t.p.current + 2 <= c.max then 2 else 1;
    GrowthExactly(t, c, k);
    AdjustedRest(t.p, k);
    Snoc(s, c, evs0, Adjust(k));
    evs := evs0 + [Adjust(k)];
  }

  lemma AdjustedRest(p: Pool, k: nat)
    requires !p.stopping
    ensures var q := Adjusted(p, k); q.queue == p.queue && q.stopping == p.stopping && q.current == p.current + k
  {
    GrownRest(p.(listed := Unfinished(p.listed, p.threads)), k);
  }

  /**
   When a waiting thread of a pool with nothing to do gives up: exactly when another one waits too and
   there are more threads than at the start. Otherwise it goes round again.
   */
  lemma ShrinksExactly(s: World, c: Config, w: nat)
    requires Inv(s, c) && Enabled(s, c, Wake(w)) && s.p.queue == [] && !s.p.stopping
    ensures var p := Step(s, c, Wake(w)).p; var leaves := s.p.idle >= 2 && s.p.current > c.init;
            && p.threads == s.p.threads[w := if leaves then Exited else Ready]
            && p.current == (if leaves then s.p.current - 1 else s.p.current) && p.idle == s.p.idle - 1
  {
    TotalAtLeast(s.p.threads, OneIfLive, w);
  }

  lemma {:induction false} TwoWaiting(s: seq<Stage>, v: nat, w: nat)
    requires v < w < |s| && s[v] == Waiting == s[w]
    ensures Total(s, OneIfWaiting) >= 2
  {
    var front := s[..|s| - 1];
    if w == |s| - 1 {
      TotalAtLeast(front, OneIfWaiting, v);
    } else {
      TwoWaiting(front, v, w);
    }
  }

  /** A ready thread with nothing to do waits. */
  lemma Pause(s: World, c: Config, evs0: seq<Event>, w: nat) returns (evs: seq<Event>)
    requires c.init >= 1 && IsRun(s, c, evs0) && Inv(After(s, c, evs0), c)
    requires var p := After(s, c, evs0).p; p.queue == [] && !p.stopping && Is(p, w, Ready)
    ensures IsRun(s, c, evs) && Inv(After(s, c, evs), c)
    ensures Idled(After(s, c, evs0).p, After(s, c, evs).p, w)
  {
    var t := After(s, c, evs0);
    StepKeepsInv(t, c, Enter(w));
    Snoc(s, c, evs0, Enter(w));
    evs := evs0 + [Enter(w)];
  }

  /** Thread w waits; nothing else but the count of waiting threads has changed. */
  predicate Idled(p: Pool, q: Pool, w: nat) {
    w < |p.threads| && q == p.(threads := p.threads[w := Waiting], idle := q.idle)
  }

  lemma FinishTask(s: World, c: Config, evs0: seq<Event>, w: nat) returns (evs: seq<Event>)
    requires c.init >= 1 && IsRun(s, c, evs0) && Inv(After(s, c, evs0), c) && Is(After(s, c, evs0).p, w, Busy)
    ensures IsRun(s, c, evs) && Inv(After(s, c, evs), c)
    ensures var p := After(s, c, evs0).p; After(s, c, evs).p == p.(threads := p.threads[w := Ready])
  {
    var t := After(s, c, evs0);
    StepKeepsInv(t, c, TaskDone(w));
    Snoc(s, c, evs0, TaskDone(w));
    evs := evs0 + [TaskDone(w)];
  }

  /** A thread with nothing to do can be brought to wait. */
  lemma Settle(s: World, c: Config, evs0: seq<Event>, w: nat) returns (evs: seq<Event>)
    requires c.init >= 1 && IsRun(s, c, evs0) && Inv(After(s, c, evs0), c)
    requires var p := After(s, c, evs0).p; p.queue == [] && !p.stopping && w < |p.threads| && Live(p.threads[w])
    ensures IsRun(s, c, evs) && Inv(After(s, c, evs), c)
    ensures Idled(After(s, c, evs0).p, After(s, c, evs).p, w)
  {
    var p := After(s, c, evs0).p;
    if p.threads[w] == Busy {
      evs := FinishTask(s, c, evs0, w);
      evs := Pause(s, c, evs, w);
      assert p.threads[w := Ready][w := Waiting] == p.threads[w := Waiting];
    } else if p.threads[w] == Ready {
      evs := Pause(s, c, evs0, w);
    } else {
      evs := evs0;
      assert p.threads[w := Waiting] == p.threads;
    }
  }

  lemma {:induction false} TwoLive(s: seq<Stage>) returns (v: nat, w: nat)
    requires Total(s, OneIfLive) >= 2
    ensures v < w < |s| && Live(s[v]) && Live(s[w])
  {
    var front := s[..|s| - 1];
    if Live(s[|s| - 1]) {
      w := |s| - 1;
      v := SomeLive(front);
    } else {
      v, w := TwoLive(front);
    }
  }

  /** Without work, time brings the pool back to its initial size. */
  lemma {:induction false} ShrinksToInit(s: World, c: Config, evs0: seq<Event>) returns (evs: seq<Event>)
    requires c.init >= 1 && IsRun(s, c, evs0) && Inv(After(s, c, evs0), c)
    requires var p := After(s, c, evs0).p; p.queue == [] && !p.stopping
    ensures IsRun(s, c, evs) && After(s, c, evs).p.current == c.init
    decreases After(s, c, evs0).p.current
  {
    var t0 := After(s, c, evs0);
    evs := evs0;
    if t0.p.current > c.init {
      evs := OneLess(s, c, evs0);
      evs := ShrinksToInit(s, c, evs);
    }
  }

  lemma OneLess(s: World, c: Config, evs0: seq<Event>) returns (evs: seq<Event>)
    requires c.init >= 1 && IsRun(s, c, evs0) && Inv(After(s, c, evs0), c)
    requires var p := After(s, c, evs0).p; p.queue == [] && !p.stopping && p.current > c.init
    ensures IsRun(s, c, evs) && Inv(After(s, c, evs), c)
    ensures var p := After(s, c, evs).p; p.queue == [] && !p.stopping && p.current == After(s, c, evs0).p.current - 1
  {
    var t0 := After(s, c, evs0);
    var v, w := TwoLive(t0.p.threads);
    evs := Settle(s, c, evs0, v);
    var t1 := After(s, c, evs);
    evs := Settle(s, c, evs, w);
    var t2 := After(s, c, evs);
    assert t2.p.threads[v] == Waiting && t2.p.threads[w] == Waiting;
    TwoWaiting(t2.p.threads, v, w);
    Snoc(s, c, evs, Wake(w));
    ShrinksExactly(t2, c, w);
    StepKeepsInv(t2, c, Wake(w));
    evs := evs + [Wake(w)];
  }

  /** When stop may return, nothing is queued, every accepted task was started, and no thread is alive. */
  lemma Drained(c: Config, evs: seq<Event>)
    requires 1 <= c.init <= c.max && IsRun(World(Built(c), [], []), c, evs)
    requires Enabled(After(World(Built(c), [], []), c, evs), c, StopEnd)
    ensures var s := After(World(Built(c), [], []), c, evs);
            s.p.queue == [] && s.started == s.accepted && forall w :: 0 <= w < |s.p.threads| ==> s.p.threads[w] == Finished
  {
    RunKeepsInv(c, evs);
    var s := After(World(Built(c), [], []), c, evs);
    if s.p.current > 0 {
      var w := SomeLive(s.p.threads);
      assert false;
    }
  }

  // ---------- stop returns ----------

  /** An upper bound on the thread steps still possible once the pool is stopping. */
  function Remaining(p: Pool): nat {
    Total(p.threads, StepsLeft) + 2 * |p.queue|
  }

  lemma StoppingStepsRunOut(p: Pool, c: Config, ev: Event)
    requires Sound(p, c) && p.stopping && WorkerStep(ev) && Enabled(World(p, [], []), c, ev)
    ensures Move(p, c, ev).stopping && Remaining(Move(p, c, ev)) < Remaining(p)
  {
    var q := Move(p, c, ev);
    ThreadMoves(p, ev.w, q.threads[ev.w]);
    assert q.threads == p.threads[ev.w := q.threads[ev.w]];
  }

  /** Some thread can always go on: a queued task, or a stop that cannot return yet, is not left waiting. */
  lemma SomeThreadCanStep(s: World, c: Config) returns (ev: Event)
    requires c.init >= 1 && Inv(s, c)
    requires s.p.queue != [] || (s.p.stopping && !AllJoined(s.p))
    ensures WorkerStep(ev) && Enabled(s, c, ev)
  {
    var w: nat;
    if s.p.queue != [] {
      w := SomeLive(s.p.threads);
    } else {
      w :| w in s.p.listed && !IsFinished(s.p.threads, w);
    }
    TotalAtLeast(s.p.threads, OneIfWaiting, w);
    match s.p.threads[w] {
      case Ready => ev := Enter(w);
      case Waiting => ev := Wake(w);
      case Busy => ev := TaskDone(w);
      case Exited => ev := Flag(w);
    }
  }

  ghost predicate OnlyThreads(evs: seq<Event>) {
    forall i :: 0 <= i < |evs| ==> WorkerStep(evs[i])
  }

  lemma {:induction false} StoppingRun(s: World, c: Config, evs: seq<Event>)
    requires c.init >= 1 && Inv(s, c) && s.p.stopping && IsRun(s, c, evs) && OnlyThreads(evs)
    ensures var t := After(s, c, evs); Inv(t, c) && t.p.stopping && t.p.stopped == s.p.stopped && |evs| + Remaining(t.p) <= Remaining(s.p)
    decreases |evs|
  {
    if evs != [] {
      var before := evs[..|evs| - 1];
      StoppingRun(s, c, before);
      var t := After(s, c, before);
      StoppingStepsRunOut(t.p, c, evs[|evs| - 1]);
      StepKeepsInv(t, c, evs[|evs| - 1]);
    }
  }

  /**
   Stop returns: after it has begun the threads can take at most Remaining steps, and whenever no
   thread can take another, every thread it joins has finished.
   */
  lemma StopReturns(s: World, c: Config, evs: seq<Event>)
    requires c.init >= 1 && Inv(s, c) && s.p.stopping && !s.p.stopped && IsRun(s, c, evs) && OnlyThreads(evs)
    ensures |evs| <= Remaining(s.p)
    ensures (forall ev :: WorkerStep(ev) ==> !Enabled(After(s, c, evs), c, ev)) ==> Enabled(After(s, c, evs), c, StopEnd)
  {
    StoppingRun(s, c, evs);
    var t := After(s, c, evs);
    if !AllJoined(t.p) {
      var ev := SomeThreadCanStep(t, c);
    }
  }

  // ---------- the object ----------

  /** One method per critical section; threads gives each thread's place in workerLoop. */
  class DynamicThreadPool {
    const config: Config
    var tasks: seq<Work>
    var threads: seq<Stage>
    var workers: seq<nat>
    var current: nat
    var idle: nat
    var stopping: bool
    var stopped: bool

    function View(): Pool
      reads this
    {
      Pool(tasks, threads, workers, current, idle, stopping, stopped)
    }

    constructor (c: Config)
      ensures config == Corrected(c) && View() == Built(config)
    {
      config := Corrected(c);
      tasks, threads, workers, current, idle, stopping, stopped := [], [], [], 0, 0, false, false;
      new;
      for i := 0 to config.init
        invariant View() == Grown(Pool([], [], [], 0, 0, false, false), i)
      {
        StartWorker();
      }
    }

    /** startWorker and the count its caller keeps. */
    method StartWorker()
      modifies this
      ensures View() == Started(old(View()))
    {
      threads, workers, current := threads + [Ready], workers + [|threads|], current + 1;
    }

    /** The first critical section of enqueue; an empty function is refused. */
    method Enqueue(task: Callable) returns (ok: bool)
      modifies this`tasks
      ensures ok <==> task.Call? && !stopping && (config.bound == 0 || |old(tasks)| < config.bound)
      ensures tasks == if ok then old(tasks) + [task.work] else old(tasks)
    {
      if task.Empty? || stopping { return false; }
      if config.bound > 0 && |tasks| >= config.bound { return false; }
      tasks := tasks + [task.work];
      return true;
    }

    /** Starting a thread can fail; here it does after `starts` successes. */
    method AdjustPoolSize(starts: nat) returns (grown: nat)
      modifies this
      ensures View() == Adjusted(old(View()), if old(stopping) then 0 else grown)
      ensures if !old(stopping) && |old(tasks)| > config.backlog && old(current) < config.max then
                grown == Min(starts, Min(2, config.max - old(current)))
              else grown == 0
    {
      grown := 0;
      if stopping { return; }
      var kept: seq<nat> := [];
      for i := 0 to |workers|
        invariant View() == old(View())
        invariant kept == Unfinished(workers[..i], threads)
      {
        assert workers[..i + 1][..i] == workers[..i];
        if !IsFinished(threads, workers[i]) {
          kept := kept + [workers[i]];
        }
      }
      assert workers[..|workers|] == workers;
      workers := kept;
      ghost var base := View();
      if |tasks| > config.backlog && current < config.max {
        var target := if config.max <= current + 2 then config.max else current + 2;
        ghost var was := current;
        while current < target && grown < starts
          invariant View() == Grown(base, grown)
          invariant current == was + grown && current <= target && grown <= starts
        {
          StartWorker();
          grown := grown + 1;
        }
      }
    }

    /** workerLoop from its top to where the mutex is next released. */
    method EnterLoop(w: nat)
      requires w < |threads|
      modifies this
      ensures View() == Entered(old(View()), w)
    {
      if tasks == [] {
        if !stopping {
          idle := idle + 1;
          threads := threads[w := Waiting];
          return;
        }
        if current > 0 { current := current - 1; }
        threads := threads[w := Exited];
      } else {
        tasks := tasks[1..];
        threads := threads[w := Busy];
      }
    }

    /** workerLoop from the end of its wait to where the mutex is next released. */
    method LeaveWait(w: nat)
      requires w < |threads| && idle > 0
      modifies this
      ensures View() == Woken(old(View()), config, w)
    {
      var ready := stopping || tasks != [];
      idle := idle - 1;
      if !ready && idle > 0 && current > config.init {
        current := current - 1;
        threads := threads[w := Exited];
        return;
      }
      if stopping && tasks == [] {
        if current > 0 { current := current - 1; }
        threads := threads[w := Exited];
        return;
      }
      if tasks == [] {
        threads := threads[w := Ready];
        return;
      }
      tasks := tasks[1..];
      threads := threads[w := Busy];
    }
  }
}
