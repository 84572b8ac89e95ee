/**
 Bounded retries: a task that only ever fails, and that no user touches, is disabled by exactly
 max_retries accepted executions; the waits between them follow a capped doubling.
 */
module Retries {
  import opened Tasks
  import opened Protocol
  import opened Fencing
  import opened Slots
  import opened Offers

  // ---------------------------------------------------------------- the waits

  /** The waits after the first k failures of a run of failures. */
  function TotalWait(k: nat): int {
    if k == 0 then 0 else TotalWait(k - 1) + RetryDelay(k)
  }

  lemma {:induction false} ShiftDoubles(k: nat)
    ensures Shift(k + 1) == 2 * Shift(k)
  {
  }

  lemma FirstShifts()
    ensures Shift(0) == 1 && Shift(1) == 2 && Shift(2) == 4 && Shift(3) == 8
    ensures Shift(4) == 16 && Shift(5) == 32 && Shift(6) == 64
  {
    ShiftDoubles(0); ShiftDoubles(1); ShiftDoubles(2); ShiftDoubles(3); ShiftDoubles(4); ShiftDoubles(5);
  }

  /** Waits never shrink from one failure to the next, and lie between 5 and 300 seconds. */
  lemma WaitsGrow(j: int, k: int)
    requires j <= k
    ensures 5 <= RetryDelay(j) <= RetryDelay(k) <= 300
  {
    FirstShifts();
  }

  /** Doubling for six failures, then 300 seconds each. */
  lemma {:induction false} TotalWaitClosedForm(k: nat)
    ensures TotalWait(k) == if k <= 6 then 5 * (Shift(k) - 1) else 315 + 300 * (k - 6)
    decreases k
  {
    FirstShifts();
    if k > 0 {
      TotalWaitClosedForm(k - 1);
      if k <= 6 { ShiftDoubles(k - 1); }
    }
  }

  // ---------------------------------------------------------------- over the protocol

  /** How often task t has fired. */
  function Firings(fired: seq<Firing>, t: TaskId): nat {
    if fired == [] then 0
    else Firings(fired[..|fired| - 1], t) + (if fired[|fired| - 1].task == t then 1 else 0)
  }

  lemma FiringsAppend(fired: seq<Firing>, f: Firing, t: TaskId)
    ensures Firings(fired + [f], t) == Firings(fired, t) + (if f.task == t then 1 else 0)
  {
    assert (fired + [f])[..|fired|] == fired;
  }

  /** An execution on its way to report a failure. */
  ghost predicate FailsNext(x: Exec) {
    && x.snap.next.Some?
    && (x.pc.Finished? || x.pc.Recorded? ==> !x.pc.ok && x.snap.next.value <= x.pc.end)
    && (x.pc.Decided? ==>
          && !x.pc.ok
          && (x.pc.fired ==>
                && x.pc.u.retry == x.snap.retry + 1
                && x.pc.u.status == (if x.snap.retry + 1 >= x.snap.def.maxRetries then Disabled else Scheduled)
                && (x.pc.u.status == Scheduled ==>
                      x.pc.u.next.Some? && x.pc.u.next.value >= x.snap.next.value + RetryDelay(x.snap.retry + 1)))
          && (!x.pc.fired ==> x.pc.u.retry == x.snap.retry && x.pc.u.status == Scheduled && x.pc.u.next == x.snap.next))
  }

  /** max_retries, and the slot and the number of firings the task had before its first failure. */
  datatype Goal = Goal(m: int, base: int, before: nat)

  /** The row of t counts its failures, is disabled exactly at the m-th, and has waited for the others. */
  ghost predicate Counts(s: State, db: Db, fired: seq<Firing>, t: TaskId, g: Goal) {
    && t in db.rows && db.rows[t].def.maxRetries == g.m
    && 0 <= Firings(fired, t) - g.before <= g.m
    && db.rows[t].retry == Firings(fired, t) - g.before
    && (db.rows[t].status == Disabled <==> Firings(fired, t) - g.before == g.m)
    && Waited(db.rows[t], g, Firings(fired, t) - g.before)
    && (db.rows[t].exec.Some? ==> db.rows[t].exec.value in s.execs)
  }

  predicate Waited(r: Row, g: Goal, k: nat) {
    r.status != Disabled ==> r.next.Some? && r.next.value >= g.base + TotalWait(k)
  }

  ghost predicate AllFail(s: State, t: TaskId) {
    forall e :: e in s.execs && s.execs[e].task == t ==> FailsNext(s.execs[e])
  }

  /** Nobody but the schedulers and recovery touches t, and no execution of t succeeds. */
  ghost predicate Untouched(s: State, ev: Event, t: TaskId)
    requires Enabled(s, ev)
  {
    var q := StmtOf(s, ev);
    && (ev.End? && ev.end.Finish? && s.execs[ev.end.e].task == t ==> !ev.end.ok)
    && (ev.Edit? ==> q.NoQ? || q.t != t)
    && (ev.ByHand? && ev.manual.RunClaim? ==> q.NoQ? || q.t != t)
  }

  lemma EndKeepsFailing(s: State, ev: EndEvent)
    requires EnabledEnd(s, ev) && FailsNext(s.execs[ev.e]) && (ev.Finish? ==> !ev.ok)
    requires SnapPast(s.db, s.execs[ev.e], Sec(s.now))
    ensures FailsNext(s.execs[ev.e].(pc := EndPc(s, ev)))
  {
  }

  lemma StepKeepsAllFail(s: State, ev: Event, t: TaskId)
    requires Based(s) && AllFail(s, t) && Enabled(s, ev) && Untouched(s, ev, t)
    ensures AllFail(Local(s, ev), t)
  {
    match ev
    case Env(x) => EnvKeepsAllFail(s, x, t);
    case Edit(x) =>
    case ByHand(x) =>
    case Dispatch(x) => DispatchKeepsAllFail(s, x, t);
    case End(x) => EndKeepsAllFail(s, x, t);
    case Stale(x) =>
  }

  lemma EnvKeepsAllFail(s: State, ev: EnvEvent, t: TaskId)
    requires AllFail(s, t) && EnabledEnv(s, ev)
    ensures AllFail(AfterEnv(s, ev), t)
  {
  }

  lemma DispatchKeepsAllFail(s: State, ev: DispatchEvent, t: TaskId)
    requires AllFail(s, t) && EnabledDispatch(s, ev) && Fenced(s)
    ensures AllFail(AfterDispatch(s, ev), t)
  {
  }

  lemma EndKeepsAllFail(s: State, ev: EndEvent, t: TaskId)
    requires AllFail(s, t) && EnabledEnd(s, ev) && (ev.Finish? && s.execs[ev.e].task == t ==> !ev.ok)
    requires SnapPast(s.db, s.execs[ev.e], Sec(s.now))
    ensures AllFail(AfterEnd(s, ev), t)
  {
    if s.execs[ev.e].task == t { EndKeepsFailing(s, ev); }
    OneFails(s, AfterEnd(s, ev), ev.e, s.execs[ev.e].(pc := EndPc(s, ev)), t);
  }

  lemma OneFails(s: State, s': State, e: ExecId, x: Exec, t: TaskId)
    requires AllFail(s, t) && s'.execs == s.execs[e := x] && (x.task == t ==> FailsNext(x))
    ensures AllFail(s', t)
  {
  }

  /** What the completion of an execution that fails makes of the row: one more failure, or none when it only gives back. */
  ghost predicate CountsOn(r: Row, r': Row, g: Goal, k: int) {
    && r'.def == r.def && r'.exec == None && r'.retry == k && (r'.status == Disabled <==> k == g.m)
    && r.retry < g.m && k >= 0 && Waited(r', g, k)
  }

  lemma CompleteCounts(x: Exec, r: Row, g: Goal)
    requires x.pc.Decided? && FailsNext(x) && SameWork(r, x.snap) && r.next == x.snap.next
    requires r.def.maxRetries == g.m && 0 <= r.retry < g.m && r.status == Running && Waited(r, g, r.retry)
    ensures CountsOn(r, CompleteRow(r, x.pc.u), g, r.retry + (if x.pc.fired then 1 else 0))
  {
  }

  lemma GiveBackCounts(x: Exec, r: Row, g: Goal)
    requires SameWork(r, x.snap) && r.next == x.snap.next
    requires r.def.maxRetries == g.m && 0 <= r.retry < g.m && r.status == Running && Waited(r, g, r.retry)
    ensures CountsOn(r, CompleteRow(r, GiveBackUpdate(x.snap)), g, r.retry)
  {
  }

  lemma OwnCompletionCounts(s: State, ev: EndEvent, t: TaskId, g: Goal)
    requires Based(s) && FaithfulOn(s.execs, s.db.rows, t) && AllFail(s, t) && EnabledEnd(s, ev) && Counts(s, s.db, s.fired, t, g)
    requires s.execs[ev.e].task == t && Matches(s.db.rows, EndStmt(s, ev), Sec(s.now))
    ensures var db := Send(s, EndStmt(s, ev));
            t in db.rows && CountsOn(s.db.rows[t], db.rows[t], g, s.db.rows[t].retry + (if Fires(s, ev) then 1 else 0))
  {
    var x := s.execs[ev.e];
    assert FailsNext(x) && OwnOk(s.db, ev.e, x) && FaithOk(s.db.rows, ev.e, x);
    assert Frozen(t, s.db.rows[t], s.db.claims);
    if ev.Complete? {
      CompleteCounts(x, s.db.rows[t], g);
    } else {
      GiveBackCounts(x, s.db.rows[t], g);
    }
  }

  lemma FiringsAfter(s: State, ev: EndEvent, t: TaskId)
    requires EnabledEnd(s, ev)
    ensures Firings(AfterEnd(s, ev).fired, t) ==
            Firings(s.fired, t) + (if Fires(s, ev) && s.execs[ev.e].task == t then 1 else 0)
  {
    var x := s.execs[ev.e];
    if Fires(s, ev) { FiringsAppend(s.fired, Firing(x.task, x.snap.next, ev.e, x.pc.ok), t); }
  }

  lemma OtherRowStays(s: State, ev: EndEvent, t: TaskId)
    requires EnabledEnd(s, ev) && t in s.db.rows
    requires s.execs[ev.e].task != t || !Matches(s.db.rows, EndStmt(s, ev), Sec(s.now))
    ensures t in Send(s, EndStmt(s, ev)).rows && Send(s, EndStmt(s, ev)).rows[t] == s.db.rows[t]
    ensures !(Fires(s, ev) && s.execs[ev.e].task == t)
  {
  }

  lemma OwnKeepsCount(s: State, ev: EndEvent, t: TaskId, g: Goal, fired: seq<Firing>)
    requires Based(s) && FaithfulOn(s.execs, s.db.rows, t) && AllFail(s, t) && EnabledEnd(s, ev) && Counts(s, s.db, s.fired, t, g)
    requires s.execs[ev.e].task == t && Matches(s.db.rows, EndStmt(s, ev), Sec(s.now))
    requires Firings(fired, t) == Firings(s.fired, t) + if Fires(s, ev) then 1 else 0
    ensures Counts(s, Send(s, EndStmt(s, ev)), fired, t, g)
  {
    OwnCompletionCounts(s, ev, t, g);
    CountsGoOn(s, Send(s, EndStmt(s, ev)), t, g, fired, if Fires(s, ev) then 1 else 0);
  }

  lemma CountsGoOn(s: State, db: Db, t: TaskId, g: Goal, fired: seq<Firing>, d: nat)
    requires Counts(s, s.db, s.fired, t, g) && t in db.rows && d <= 1
    requires CountsOn(s.db.rows[t], db.rows[t], g, s.db.rows[t].retry + d)
    requires Firings(fired, t) == Firings(s.fired, t) + d
    ensures Counts(s, db, fired, t, g)
  {
  }

  lemma SameRowKeepsCount(s: State, db: Db, t: TaskId, g: Goal, fired: seq<Firing>)
    requires Counts(s, s.db, s.fired, t, g) && t in db.rows && db.rows[t] == s.db.rows[t]
    requires Firings(fired, t) == Firings(s.fired, t)
    ensures Counts(s, db, fired, t, g)
  {
  }

  lemma EndKeepsCount(s: State, ev: EndEvent, t: TaskId, g: Goal)
    requires Based(s) && FaithfulOn(s.execs, s.db.rows, t) && AllFail(s, t) && EnabledEnd(s, ev) && Counts(s, s.db, s.fired, t, g)
    ensures Counts(s, Send(s, EndStmt(s, ev)), AfterEnd(s, ev).fired, t, g)
  {
    FiringsAfter(s, ev, t);
    if s.execs[ev.e].task == t && Matches(s.db.rows, EndStmt(s, ev), Sec(s.now)) {
      OwnKeepsCount(s, ev, t, g, AfterEnd(s, ev).fired);
    } else {
      OtherRowStays(s, ev, t);
      SameRowKeepsCount(s, Send(s, EndStmt(s, ev)), t, g, AfterEnd(s, ev).fired);
    }
  }

  lemma OthersKeepCount(s: State, q: Stmt, t: TaskId, g: Goal)
    requires Fenced(s) && Counts(s, s.db, s.fired, t, g)
    requires q.ClaimQ? && q.t == t ==> q.e in s.execs && q.expected == Scheduled
    requires q.CompleteQ? ==> q.e in s.manuals
    requires q.CancelQ? || q.RuntimeQ? || q.DefineQ? || q.DeleteQ? ==> q.t != t
    ensures Counts(s, Send(s, q), s.fired, t, g)
  {
    assert WellFormed(s.db.rows[t]);
  }

  ghost predicate RetryInv(s: State, t: TaskId, g: Goal) {
    && SightInvOn(s, t) && FaithfulOn(s.execs, s.db.rows, t)
    && AllFail(s, t) && Counts(s, s.db, s.fired, t, g)
  }

  lemma EditKeepsCount(s: State, ev: EditEvent, t: TaskId, g: Goal)
    requires Fenced(s) && Counts(s, s.db, s.fired, t, g) && EnabledEdit(s, ev)
    requires EditStmt(s, ev).NoQ? || EditStmt(s, ev).t != t
    ensures Counts(s, Send(s, EditStmt(s, ev)), s.fired, t, g)
  {
    OthersKeepCount(s, EditStmt(s, ev), t, g);
  }

  lemma ManualKeepsCount(s: State, ev: ManualEvent, t: TaskId, g: Goal)
    requires Fenced(s) && Counts(s, s.db, s.fired, t, g) && EnabledManual(s, ev)
    requires ev.RunClaim? ==> ManualStmt(s, ev).NoQ? || ManualStmt(s, ev).t != t
    ensures Counts(s, Send(s, ManualStmt(s, ev)), s.fired, t, g)
  {
    OthersKeepCount(s, ManualStmt(s, ev), t, g);
  }

  lemma DispatchKeepsCount(s: State, ev: DispatchEvent, t: TaskId, g: Goal)
    requires Fenced(s) && Counts(s, s.db, s.fired, t, g) && EnabledDispatch(s, ev)
    ensures Counts(s, Send(s, DispatchStmt(s, ev)), s.fired, t, g)
  {
    OthersKeepCount(s, DispatchStmt(s, ev), t, g);
  }

  lemma StaleKeepsCount(s: State, ev: StaleEvent, t: TaskId, g: Goal)
    requires Fenced(s) && Counts(s, s.db, s.fired, t, g) && EnabledStale(s, ev)
    ensures Counts(s, Send(s, StaleStmt(s, ev)), s.fired, t, g)
  {
    OthersKeepCount(s, StaleStmt(s, ev), t, g);
  }

  /** Nothing fires, and no dispatch is forgotten. */
  ghost predicate FiresNothing(s: State, s': State) {
    s'.fired == s.fired && s.execs.Keys <= s'.execs.Keys
  }

  lemma EnvFiresNothing(s: State, ev: EnvEvent)
    requires EnabledEnv(s, ev)
    ensures FiresNothing(s, AfterEnv(s, ev))
  {
  }

  lemma EditFiresNothing(s: State, ev: EditEvent)
    requires EnabledEdit(s, ev)
    ensures FiresNothing(s, AfterEdit(s, ev))
  {
  }

  lemma ManualFiresNothing(s: State, ev: ManualEvent)
    requires EnabledManual(s, ev)
    ensures FiresNothing(s, AfterManual(s, ev))
  {
  }

  lemma DispatchFiresNothing(s: State, ev: DispatchEvent)
    requires EnabledDispatch(s, ev)
    ensures FiresNothing(s, AfterDispatch(s, ev))
  {
  }

  lemma StaleFiresNothing(s: State, ev: StaleEvent)
    requires EnabledStale(s, ev)
    ensures FiresNothing(s, AfterStale(s, ev))
  {
  }

  lemma OnlyEndFires(s: State, ev: Event)
    requires Enabled(s, ev) && !ev.End?
    ensures FiresNothing(s, Local(s, ev))
  {
    match ev
    case Env(x) => EnvFiresNothing(s, x);
    case Edit(x) => EditFiresNothing(s, x);
    case ByHand(x) => ManualFiresNothing(s, x);
    case Dispatch(x) => DispatchFiresNothing(s, x);
    case Stale(x) => StaleFiresNothing(s, x);
  }

  lemma LocalKeepsCount(s: State, ev: Event, t: TaskId, g: Goal)
    requires RetryInv(s, t, g) && Enabled(s, ev) && Untouched(s, ev, t)
    ensures Counts(s, Send(s, StmtOf(s, ev)), Local(s, ev).fired, t, g)
  {
    if !ev.End? { OnlyEndFires(s, ev); }
    match ev
    case Env(x) => assert Send(s, NoQ) == s.db;
    case Edit(x) => EditKeepsCount(s, x, t, g);
    case ByHand(x) => ManualKeepsCount(s, x, t, g);
    case Dispatch(x) => DispatchKeepsCount(s, x, t, g);
    case End(x) => EndKeepsCount(s, x, t, g);
    case Stale(x) => StaleKeepsCount(s, x, t, g);
  }

  /** Only executions that were claimed from a scheduled row can be recovered here. */
  lemma UntouchedIsCalm(s: State, ev: Event, t: TaskId, g: Goal)
    requires RetryInv(s, t, g) && Enabled(s, ev) && Untouched(s, ev, t)
    ensures CalmOn(s, ev, t)
  {
    if ev.Stale? && ev.stale.Recover? && s.recs[ev.stale.r].task == t && Matches(s.db.rows, StmtOf(s, ev), Sec(s.now)) {
      RecoveryIsCalm(s, ev.stale, t, g);
    }
  }

  lemma RecoveryIsCalm(s: State, ev: StaleEvent, t: TaskId, g: Goal)
    requires RetryInv(s, t, g) && EnabledStale(s, ev) && ev.Recover? && s.recs[ev.r].task == t
    requires Matches(s.db.rows, StaleStmt(s, ev), Sec(s.now))
    ensures ClaimedScheduled(s, s.recs[ev.r].target)
  {
    assert WellFormed(s.db.rows[t]) && Frozen(t, s.db.rows[t], s.db.claims);
    var e := s.db.rows[t].exec.value;
    assert ExecOk(e, s.execs[e], s.db.claims) && OwnOk(s.db, e, s.execs[e]);
  }

  lemma StepKeepsCount(s: State, ev: Event, t: TaskId, g: Goal)
    requires RetryInv(s, t, g) && Enabled(s, ev) && Untouched(s, ev, t)
    ensures Counts(Apply(s, ev), Apply(s, ev).db, Apply(s, ev).fired, t, g) && AllFail(Apply(s, ev), t)
  {
    var s', db := Local(s, ev), Send(s, StmtOf(s, ev));
    StepKeepsAllFail(s, ev, t);
    LocalKeepsCount(s, ev, t, g);
    NoneForgotten(s, ev);
    CountsOver(s, s', db, t, g);
  }

  lemma NoneForgotten(s: State, ev: Event)
    requires Enabled(s, ev)
    ensures s.execs.Keys <= Local(s, ev).execs.Keys
  {
    if ev.End? {
      assert AfterEnd(s, ev.end).execs.Keys == s.execs.Keys;
    } else {
      OnlyEndFires(s, ev);
    }
  }

  lemma CountsOver(s: State, s': State, db: Db, t: TaskId, g: Goal)
    requires Counts(s, db, s'.fired, t, g) && s.execs.Keys <= s'.execs.Keys && AllFail(s', t)
    ensures Counts(s'.(db := db), db, s'.fired, t, g) && AllFail(s'.(db := db), t)
  {
    assert forall e :: e in s.execs.Keys ==> e in s'.execs.Keys;
  }

  lemma StepKeepsRetry(s: State, ev: Event, t: TaskId, g: Goal)
    requires RetryInv(s, t, g) && Enabled(s, ev) && Untouched(s, ev, t)
    ensures RetryInv(Apply(s, ev), t, g)
  {
    UntouchedIsCalm(s, ev, t, g);
    StepKeepsSightOn(s, ev, t);
    StepKeepsFaithOn(s, ev, t);
    StepKeepsCount(s, ev, t, g);
  }

  ghost predicate UntouchedRun(s: State, evs: seq<Event>, t: TaskId)
    requires IsRun(s, evs)
    decreases |evs|
  {
    evs == [] ||
    (Untouched(s, evs[0], t) && UntouchedRun(Apply(s, evs[0]), evs[1..], t))
  }

  lemma {:induction false} RunKeepsRetry(s: State, evs: seq<Event>, t: TaskId, g: Goal)
    requires RetryInv(s, t, g) && IsRun(s, evs) && UntouchedRun(s, evs, t)
    ensures RetryInv(After(s, evs), t, g)
    decreases |evs|
  {
    if evs != [] {
      StepKeepsRetry(s, evs[0], t, g);
      RunKeepsRetry(Apply(s, evs[0]), evs[1..], t, g);
    }
  }

  lemma StartsCounting(s: State, t: TaskId, m: int)
    requires SightInvOn(s, t) && t in s.db.rows && s.db.rows[t].status == Scheduled && s.db.rows[t].retry == 0
    requires s.db.rows[t].def.maxRetries == m && m >= 1 && AllFail(s, t)
    ensures s.db.rows[t].next.Some? && RetryInv(s, t, Goal(m, s.db.rows[t].next.value, Firings(s.fired, t)))
  {
    assert WellFormed(s.db.rows[t]);
  }

  /**
   From a scheduled row with retry count 0 that nothing is running for, over any run in which nobody
   touches t and no execution of t succeeds: the retry count is the number of executions accepted so
   far, never above max_retries, the task is disabled exactly when it has reached it, and until then
   its slot has moved by at least the sum of the backoffs.
   */
  lemma BoundedRetries(s: State, evs: seq<Event>, t: TaskId, m: int)
    requires SightInvOn(s, t) && t in s.db.rows && s.db.rows[t].status == Scheduled && s.db.rows[t].retry == 0
    requires s.db.rows[t].def.maxRetries == m && m >= 1
    requires AllFail(s, t)
    requires IsRun(s, evs) && UntouchedRun(s, evs, t)
    ensures var s' := After(s, evs); var k := Firings(s'.fired, t) - Firings(s.fired, t);
            && t in s'.db.rows && 0 <= k <= m && s'.db.rows[t].retry == k
            && (s'.db.rows[t].status == Disabled <==> k == m)
            && (k < m ==> s.db.rows[t].next.Some? && s'.db.rows[t].next.Some?
                          && s'.db.rows[t].next.value - s.db.rows[t].next.value >= TotalWait(k))
  {
    CountsFromStart(s, evs, t, m);
  }

  lemma CountsFromStart(s: State, evs: seq<Event>, t: TaskId, m: int)
    requires SightInvOn(s, t) && t in s.db.rows && s.db.rows[t].status == Scheduled && s.db.rows[t].retry == 0
    requires s.db.rows[t].def.maxRetries == m && m >= 1 && AllFail(s, t)
    requires IsRun(s, evs) && UntouchedRun(s, evs, t)
    ensures s.db.rows[t].next.Some?
    ensures var s' := After(s, evs); Counts(s', s'.db, s'.fired, t, Goal(m, s.db.rows[t].next.value, Firings(s.fired, t)))
  {
    StartsCounting(s, t, m);
    RunKeepsRetry(s, evs, t, Goal(m, s.db.rows[t].next.value, Firings(s.fired, t)));
  }
}
