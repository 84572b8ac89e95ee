/**
 Why `Offers.Calm` excludes what it excludes. From any reachable state in which a completed slot is
 offered, ordinary scheduling completes it again; and each of the four kinds of step that are not calm
 leads, from the empty system, to such a state.
 */
module Rearming {
  import opened Tasks
  import opened Leases
  import opened Protocol
  import opened Fencing
  import opened Slots
  import opened Offers

  /** evs leads from s0 to s, by steps that are calm or of kind k. */
  ghost predicate Leads(s0: State, evs: seq<Event>, s: State, k: Excuse) {
    IsRun(s0, evs) && After(s0, evs) == s && CalmBut(s0, evs, k)
  }

  lemma {:induction false} Extend(s0: State, evs: seq<Event>, s: State, ev: Event, k: Excuse)
    requires Leads(s0, evs, s, k) && Enabled(s, ev) && (Calm(s, ev) || Excused(ev, k))
    ensures Leads(s0, evs + [ev], Apply(s, ev), k)
    decreases |evs|
  {
    if evs == [] {
      assert [ev][1..] == [];
    } else {
      Extend(Apply(s0, evs[0]), evs[1..], s, ev, k);
      assert (evs + [ev])[1..] == evs[1..] + [ev];
    }
  }

  /** What dispatching and executing leave alone. */
  ghost predicate Aside(s: State, s': State) {
    && s'.now == s.now && s'.ops == s.ops && s'.manuals == s.manuals && s'.recs == s.recs
    && s'.down == s.down && s'.canceled == s.canceled && s'.created == s.created
  }

  lemma PushDispatch(s0: State, evs: seq<Event>, s: State, ev: DispatchEvent, k: Excuse)
    returns (evs': seq<Event>, s': State)
    requires Leads(s0, evs, s, k) && EnabledDispatch(s, ev)
    ensures Leads(s0, evs', s', k) && Aside(s, s') && s'.fired == s.fired
    ensures s'.db == Send(s, DispatchStmt(s, ev))
    ensures ev.Scan? ==> s'.execs == s.execs[ev.e := Exec(ev.t, ev.n, s.db.rows[ev.t], Scanned)]
    ensures !ev.Scan? ==> s'.execs == s.execs[ev.e := s.execs[ev.e].(pc := DispatchPc(s, ev))]
    ensures ev == LockKey(ev.e, Ack) ==> s'.locks == Acquire(s.locks, s.execs[ev.e].task, OwnerToken(s, ev.e), s.now, TTL)
    ensures !ev.LockKey? ==> s'.locks == s.locks
  {
    Extend(s0, evs, s, Dispatch(ev), k);
    evs', s' := evs + [Dispatch(ev)], Apply(s, Dispatch(ev));
  }

  lemma PushEnd(s0: State, evs: seq<Event>, s: State, ev: EndEvent, k: Excuse)
    returns (evs': seq<Event>, s': State)
    requires Leads(s0, evs, s, k) && EnabledEnd(s, ev)
    ensures Leads(s0, evs', s', k) && Aside(s, s')
    ensures s'.db == Send(s, EndStmt(s, ev))
    ensures s'.execs == s.execs[ev.e := s.execs[ev.e].(pc := EndPc(s, ev))]
    ensures var x := s.execs[ev.e];
            s'.fired == if Fires(s, ev) then s.fired + [Firing(x.task, x.snap.next, ev.e, x.pc.ok)] else s.fired
    ensures !ev.Unlock? ==> s'.locks == s.locks
    ensures ev == Unlock(ev.e, Ack) ==> s'.locks == Release(s.locks, s.execs[ev.e].task, OwnerToken(s, ev.e), s.now)
  {
    Extend(s0, evs, s, End(ev), k);
    evs', s' := evs + [End(ev)], Apply(s, End(ev));
  }

  /** The scheduler thread of n is free and t's row is due: a dispatch can go through. */
  ghost predicate Ready(s: State, t: TaskId, e: ExecId, n: Node) {
    && t in s.db.rows && IsDue(s.db.rows[t], Sec(s.now)) && s.db.rows[t].next.Some?
    && FreshExec(s, e) && e !in s.canceled
    && n !in s.down && !Busy(s, n) && !Live(s.locks, t, s.now)
  }

  lemma LockRun(s0: State, evs0: seq<Event>, s: State, t: TaskId, e: ExecId, n: Node, k: Excuse)
    returns (evs: seq<Event>, s': State)
    requires Leads(s0, evs0, s, k) && Ready(s, t, e, n)
    ensures Leads(s0, evs, s', k) && Aside(s, s') && s'.fired == s.fired
    ensures s'.db == s.db && s'.execs == s.execs[e := Exec(t, n, s.db.rows[t], Locked)]
    ensures s'.locks == s.locks[t := Lock(Owner(n, e), s.now + TTL)]
  {
    evs, s' := PushDispatch(s0, evs0, s, Scan(e, n, t), k);
    assert !Busy(s', n) by {
      forall f | f in s'.execs && s'.execs[f].node == n ensures !Dispatching(s'.execs[f].pc) {
        assert f != e ==> s'.execs[f] == s.execs[f];
      }
    }
    evs, s' := PushDispatch(s0, evs, s', LockKey(e, Ack), k);
    assert s'.execs == s.execs[e := Exec(t, n, s.db.rows[t], Locked)];
  }

  lemma RegisterRun(s0: State, evs0: seq<Event>, s: State, t: TaskId, e: ExecId, n: Node, k: Excuse)
    returns (evs: seq<Event>, s': State)
    requires Leads(s0, evs0, s, k) && Ready(s, t, e, n)
    ensures Leads(s0, evs, s', k) && Aside(s, s') && s'.fired == s.fired
    ensures s'.db == s.db && s'.execs == s.execs[e := Exec(t, n, s.db.rows[t], Registered)]
    ensures s'.locks == s.locks[t := Lock(Owner(n, e), s.now + TTL)]
  {
    evs, s' := LockRun(s0, evs0, s, t, e, n, k);
    evs, s' := PushDispatch(s0, evs, s', AddLease(e), k);
    evs, s' := PushDispatch(s0, evs, s', Register(e), k);
    assert s'.execs == s.execs[e := Exec(t, n, s.db.rows[t], Registered)];
  }

  lemma ClaimRun(s0: State, evs0: seq<Event>, s: State, t: TaskId, e: ExecId, n: Node, k: Excuse)
    returns (evs: seq<Event>, s': State)
    requires Leads(s0, evs0, s, k) && Ready(s, t, e, n)
    ensures Leads(s0, evs, s', k) && Aside(s, s') && s'.fired == s.fired
    ensures s'.execs == s.execs[e := Exec(t, n, s.db.rows[t], Claimed)]
    ensures s'.db.rows == s.db.rows[t := ClaimRow(s.db.rows[t], e, n, Sec(s.now))]
    ensures s'.locks == s.locks[t := Lock(Owner(n, e), s.now + TTL)]
  {
    evs, s' := RegisterRun(s0, evs0, s, t, e, n, k);
    evs, s' := PushDispatch(s0, evs, s', ClaimTask(e, Ack), k);
    assert s'.execs == s.execs[e := Exec(t, n, s.db.rows[t], Claimed)];
  }

  /** Dispatch of a due row up to the thread pool. */
  lemma DispatchRun(s0: State, evs0: seq<Event>, s: State, t: TaskId, e: ExecId, n: Node, k: Excuse)
    returns (evs: seq<Event>, s': State)
    requires Leads(s0, evs0, s, k) && Ready(s, t, e, n)
    ensures Leads(s0, evs, s', k) && Aside(s, s') && s'.fired == s.fired
    ensures s'.execs == s.execs[e := Exec(t, n, s.db.rows[t], Queued)]
    ensures s'.db.rows == s.db.rows[t := ClaimRow(s.db.rows[t], e, n, Sec(s.now))]
    ensures s'.locks == s.locks[t := Lock(Owner(n, e), s.now + TTL)]
  {
    evs, s' := ClaimRun(s0, evs0, s, t, e, n, k);
    evs, s' := PushDispatch(s0, evs, s', Enqueue(e, true), k);
    assert s'.execs == s.execs[e := Exec(t, n, s.db.rows[t], Queued)];
  }

  lemma RecordRun(s0: State, evs0: seq<Event>, s: State, e: ExecId, ok: bool, k: Excuse)
    returns (evs: seq<Event>, s': State)
    requires Leads(s0, evs0, s, k) && At(s, e, Queued)
    ensures Leads(s0, evs, s', k) && Aside(s, s') && s'.db == s.db && s'.fired == s.fired
    ensures s'.execs == s.execs[e := s.execs[e].(pc := Recorded(ok, Sec(s.now)))]
    ensures s'.locks == s.locks
  {
    evs, s' := PushEnd(s0, evs0, s, Finish(e, ok), k);
    evs, s' := PushEnd(s0, evs, s', AddHistory(e, Ack), k);
    assert s'.execs == s.execs[e := s.execs[e].(pc := Recorded(ok, Sec(s.now)))];
  }

  /** Execution of a claimed row up to its completion. */
  lemma ExecuteRun(s0: State, evs0: seq<Event>, s: State, e: ExecId, ok: bool, next: Option<int>, k: Excuse)
    returns (evs: seq<Event>, s': State)
    requires Leads(s0, evs0, s, k) && At(s, e, Queued) && s.execs[e].node !in s.down
    requires s.execs[e].task in s.db.rows && CanComplete(s.db.rows[s.execs[e].task], e)
    requires next.Some? ==> next.value > Sec(s.now)
    ensures Leads(s0, evs, s', k) && Aside(s, s')
    ensures var x := s.execs[e]; var u := NextUpdate(x.snap, ok, Sec(s.now), false, next);
            && s'.db.rows == s.db.rows[x.task := CompleteRow(s.db.rows[x.task], u)]
            && s'.fired == s.fired + [Firing(x.task, x.snap.next, e, ok)]
            && s'.execs == s.execs[e := x.(pc := DropReg(false))]
    ensures s'.locks == s.locks
  {
    evs, s' := RecordRun(s0, evs0, s, e, ok, k);
    evs, s' := PushEnd(s0, evs, s', Decide(e, next), k);
    evs, s' := PushEnd(s0, evs, s', Complete(e, Ack), k);
    assert s'.execs == s.execs[e := s.execs[e].(pc := DropReg(false))];
  }

  /** A due row can be dispatched, executed and completed, whatever else is going on. */
  lemma FireRun(s0: State, evs0: seq<Event>, s: State, t: TaskId, e: ExecId, n: Node, ok: bool, next: Option<int>, k: Excuse)
    returns (evs: seq<Event>, s': State)
    requires Leads(s0, evs0, s, k) && Ready(s, t, e, n)
    requires next.Some? ==> next.value > Sec(s.now)
    ensures Leads(s0, evs, s', k) && Aside(s, s')
    ensures s'.fired == s.fired + [Firing(t, s.db.rows[t].next, e, ok)]
    ensures s'.db.rows == s.db.rows[t := CompleteRow(s.db.rows[t], NextUpdate(s.db.rows[t], ok, Sec(s.now), false, next))]
    ensures s'.execs == s.execs[e := Exec(t, n, s.db.rows[t], DropReg(false))]
    ensures s'.locks == s.locks[t := Lock(Owner(n, e), s.now + TTL)]
  {
    var s1: State;
    evs, s1 := DispatchRun(s0, evs0, s, t, e, n, k);
    evs, s' := ExecuteRun(s0, evs, s1, e, ok, next, k);
    assert s'.execs == s.execs[e := Exec(t, n, s.db.rows[t], DropReg(false))];
    assert s'.db.rows == s.db.rows[t := CompleteRow(s.db.rows[t], NextUpdate(s.db.rows[t], ok, Sec(s.now), false, next))];
  }

  // ---------------------------------------------------------------- an armed, completed slot fires again

  lemma PushTick(s0: State, evs: seq<Event>, s: State, d: nat, k: Excuse)
    returns (evs': seq<Event>, s': State)
    requires Leads(s0, evs, s, k)
    ensures Leads(s0, evs', s', k) && s' == s.(now := s.now + d)
  {
    Extend(s0, evs, s, Env(Tick(d)), k);
    evs', s' := evs + [Env(Tick(d))], Apply(s, Env(Tick(d)));
  }

  lemma PushStale(s0: State, evs: seq<Event>, s: State, ev: StaleEvent, k: Excuse)
    returns (evs': seq<Event>, s': State)
    requires Leads(s0, evs, s, k) && EnabledStale(s, ev) && (Calm(s, Stale(ev)) || Excused(Stale(ev), k))
    ensures Leads(s0, evs', s', k)
    ensures s' == AfterStale(s, ev).(db := Send(s, StaleStmt(s, ev)))
  {
    Extend(s0, evs, s, Stale(ev), k);
    evs', s' := evs + [Stale(ev)], Apply(s, Stale(ev));
  }

  /** Long enough for the key of t to expire. */
  function Expiry(s: State, t: TaskId): nat {
    if t in s.locks && s.locks[t].expires > s.now then s.locks[t].expires - s.now else 0
  }

  lemma RepeatFromScheduled(s0: State, evs0: seq<Event>, s: State, t: TaskId, i: nat, e: ExecId, n: Node, k: Excuse)
    returns (evs: seq<Event>, s': State)
    requires Leads(s0, evs0, s, k)
    requires t in s.db.rows && IsDue(s.db.rows[t], Sec(s.now)) && s.db.rows[t].next.Some?
    requires i < |s.fired| && s.fired[i].task == t && s.fired[i].slot == s.db.rows[t].next
    requires FreshExec(s, e) && e !in s.canceled && n !in s.down && !Busy(s, n)
    ensures Leads(s0, evs, s', k) && !NoRepeat(s'.fired)
  {
    var s1: State;
    evs, s1 := PushTick(s0, evs0, s, Expiry(s, t), k);
    assert Sec(s1.now) >= Sec(s.now);
    assert !Busy(s1, n);
    evs, s' := FireRun(s0, evs, s1, t, e, n, true, None, k);
    var j := |s.fired|;
    assert s'.fired[i].task == s'.fired[j].task && s'.fired[i].slot == s'.fired[j].slot;
  }

  lemma RecLockRun(s0: State, evs0: seq<Event>, s: State, t: TaskId, r: OpId, n: Node, k: Excuse)
    returns (evs: seq<Event>, s': State)
    requires Leads(s0, evs0, s, k) && r !in s.recs
    requires t in s.db.rows && IsStale(s.db.rows[t], STALE, Sec(s.now)) && !Live(s.locks, t, s.now)
    ensures Leads(s0, evs, s', k)
    ensures s'.now == s.now && s'.db == s.db && s'.execs == s.execs && s'.manuals == s.manuals
    ensures s'.fired == s.fired && s'.down == s.down && s'.canceled == s.canceled
    ensures r in s'.recs && s'.recs[r] == Rec(t, n, s.db.rows[t].exec, RLocked)
  {
    evs, s' := PushStale(s0, evs0, s, StaleScan(r, n, t), k);
    evs, s' := PushStale(s0, evs, s', RecLock(r, Ack), k);
  }

  /** A row left RUNNING can be recovered once it is old enough and its key has expired. */
  lemma RecoverRun(s0: State, evs0: seq<Event>, s: State, t: TaskId, r: OpId, n: Node, k: Excuse)
    returns (evs: seq<Event>, s': State)
    requires Leads(s0, evs0, s, k) && r !in s.recs
    requires t in s.db.rows && s.db.rows[t].status == Running
    requires s.db.rows[t].started.Some? && s.db.rows[t].started.value <= Sec(s.now)
    requires ClaimedScheduled(s, s.db.rows[t].exec) || k == DisabledRecovery
    ensures Leads(s0, evs, s', k)
    ensures s'.now >= s.now && s'.db.rows == s.db.rows[t := RecoverRow(s.db.rows[t])]
    ensures s'.execs == s.execs && s'.manuals == s.manuals
    ensures s'.fired == s.fired && s'.down == s.down && s'.canceled == s.canceled
  {
    var s1, s2: State;
    var d := Expiry(s, t) + 1000 * STALE;
    evs, s1 := PushTick(s0, evs0, s, d, k);
    assert Sec(s1.now) >= Sec(s.now) + STALE;
    evs, s2 := RecLockRun(s0, evs, s1, t, r, n, k);
    evs, s' := PushStale(s0, evs, s2, Recover(r, Ack), k);
  }

  /** Every calm continuation of s keeps its firings apart. */
  ghost predicate StaysApart(s: State) {
    forall evs :: IsRun(s, evs) && CalmRun(s, evs) ==> NoRepeat(After(s, evs).fired)
  }

  /** A crash leaves a node idle and up. */
  lemma PushCrash(s0: State, evs: seq<Event>, s: State, n: Node, k: Excuse)
    returns (evs': seq<Event>, s': State)
    requires Leads(s0, evs, s, k)
    ensures Leads(s0, evs', s', k) && s'.now == s.now && s'.db == s.db && s'.fired == s.fired && s'.canceled == s.canceled
    ensures s'.execs.Keys == s.execs.Keys && s'.manuals.Keys == s.manuals.Keys
    ensures n !in s'.down && !Busy(s', n)
  {
    Extend(s0, evs, s, Env(Crash(n)), k);
    evs', s' := evs + [Env(Crash(n))], Apply(s, Env(Crash(n)));
    assert s' == CrashNode(s, n).(db := s.db);
  }

  /** A manual run that owns its row can complete: the row carries the status and the slot it read. */
  lemma WriteBackRun(s0: State, evs0: seq<Event>, s: State, t: TaskId, m: ExecId, k: Excuse)
    returns (evs: seq<Event>, s': State)
    requires Leads(s0, evs0, s, k)
    requires m in s.manuals && s.manuals[m].pc != MDone && s.manuals[m].task == t
    requires t in s.db.rows && CanComplete(s.db.rows[t], m)
    ensures Leads(s0, evs, s', k) && s'.now == s.now && s'.execs == s.execs && s'.fired == s.fired
    ensures s'.down == s.down && s'.canceled == s.canceled && s'.recs == s.recs && s'.locks == s.locks
    ensures s'.manuals.Keys == s.manuals.Keys
    ensures t in s'.db.rows && s'.db.rows[t].def == s.db.rows[t].def && s'.db.rows[t].exec == None
    ensures var r := s'.db.rows[t]; var read := s.manuals[m].read;
            r.status == read.status && r.next == read.next && r.retry == read.retry
  {
    evs, s' := evs0, s;
    if s.manuals[m].pc == MRunning {
      evs, s' := PushManual(s0, evs0, s, RunFinish(m, true, Ack), k);
    }
    evs, s' := PushManual(s0, evs, s', RunComplete(m, Ack), k);
  }

  /** A manual run that will write its slot back does. */
  lemma ArmByManual(s: State, t: TaskId) returns (evs: seq<Event>, s': State)
    requires Based(s) && WritesBack(s.manuals, s.db.rows, t)
    ensures Leads(s, evs, s', Nothing) && s'.execs == s.execs && s'.now == s.now && t in s'.db.rows
    ensures s'.fired == s.fired && s'.canceled == s.canceled && s'.manuals.Keys == s.manuals.Keys
    ensures var r := s'.db.rows[t]; var read := s.manuals[s.db.rows[t].exec.value].read;
            r.status == Scheduled && r.next == read.next && r.retry == read.retry && r.def == s.db.rows[t].def
  {
    var m := s.db.rows[t].exec.value;
    assert WellFormed(s.db.rows[t]) && Frozen(t, s.db.rows[t], s.db.claims) && ManualOk(m, s.manuals[m], s.db.claims);
    evs, s' := WriteBackRun(s, [], s, t, m, Nothing);
  }

  /** From an offered slot to a scheduled row that carries it. */
  lemma ArmRun(s: State, t: TaskId, slot: Option<int>, n: Node, r: OpId)
    returns (evs: seq<Event>, s': State)
    requires Based(s) && OffersSlot(s.manuals, s.db, t, slot) && r !in s.recs
    ensures Leads(s, evs, s', Nothing) && s'.now >= s.now && s'.fired == s.fired && s'.canceled == s.canceled
    ensures s'.execs.Keys == s.execs.Keys && s'.manuals.Keys == s.manuals.Keys
    ensures t in s'.db.rows && s'.db.rows[t].status == Scheduled && s'.db.rows[t].next == slot
  {
    evs, s' := [], s;
    assert WellFormed(s.db.rows[t]) && Frozen(t, s.db.rows[t], s.db.claims);
    if !(Armed(s.db, t) && s.db.rows[t].next == slot) {
      evs, s' := ArmByManual(s, t);
    } else if s.db.rows[t].status == Running {
      evs, s' := RecoverRun(s, [], s, t, r, n, Nothing);
    }
  }

  lemma RepeatFromOffer(s: State, i: nat, e: ExecId, n: Node, r: OpId) returns (evs: seq<Event>)
    requires Based(s) && i < |s.fired| && OffersSlot(s.manuals, s.db, s.fired[i].task, s.fired[i].slot)
    requires FreshExec(s, e) && e !in s.canceled && r !in s.recs
    ensures IsRun(s, evs) && CalmRun(s, evs) && !NoRepeat(After(s, evs).fired)
  {
    var t := s.fired[i].task;
    var s1, s2, s': State;
    assert FiredPast(s.db, s.fired[i], Sec(s.now));
    evs, s1 := ArmRun(s, t, s.fired[i].slot, n, r);
    assert Sec(s1.now) >= Sec(s.now);
    evs, s2 := PushCrash(s, evs, s1, n, Nothing);
    evs, s' := RepeatFromScheduled(s, evs, s2, t, i, e, n, Nothing);
  }

  /**
   Exactly when slots stay apart, for every reachable state whose firings are apart: no calm
   continuation completes a slot twice if and only if no completed slot is offered, by an armed row
   or by a manual run that owns its row.
   */
  lemma ApartExactly(before: seq<Event>, e: ExecId, n: Node, r: OpId)
    requires IsRun(Init(), before) && NoRepeat(After(Init(), before).fired)
    requires var s := After(Init(), before); FreshExec(s, e) && e !in s.canceled && r !in s.recs
    ensures var s := After(Init(), before); StaysApart(s) <==> Clear(s.manuals, s.db, s.fired)
  {
    var s := After(Init(), before);
    InitSlots();
    RunKeepsBased(Init(), before);
    if Clear(s.manuals, s.db, s.fired) {
      forall evs | IsRun(s, evs) && CalmRun(s, evs) ensures NoRepeat(After(s, evs).fired) {
        RunKeepsApart(s, evs);
      }
    } else {
      var i: int :| 0 <= i < |s.fired| && OffersSlot(s.manuals, s.db, s.fired[i].task, s.fired[i].slot);
      var evs := RepeatFromOffer(s, i, e, n, r);
    }
  }

  // ---------------------------------------------------------------- the four steps that are not calm

  lemma PushEdit(s0: State, evs: seq<Event>, s: State, ev: EditEvent, k: Excuse)
    returns (evs': seq<Event>, s': State)
    requires Leads(s0, evs, s, k) && EnabledEdit(s, ev) && (Calm(s, Edit(ev)) || Excused(Edit(ev), k))
    ensures Leads(s0, evs', s', k) && s' == AfterEdit(s, ev).(db := Send(s, EditStmt(s, ev)))
  {
    Extend(s0, evs, s, Edit(ev), k);
    evs', s' := evs + [Edit(ev)], Apply(s, Edit(ev));
  }

  /** What an edit leaves alone. */
  ghost predicate BesideEdit(s: State, s': State) {
    && s'.now == s.now && s'.locks == s.locks && s'.execs == s.execs && s'.manuals == s.manuals && s'.recs == s.recs
    && s'.canceled == s.canceled && s'.down == s.down && s'.fired == s.fired
  }

  /** A request reads: only the list of pending requests grows. */
  lemma PushRead(s0: State, evs: seq<Event>, s: State, ev: EditEvent, k: Excuse)
    returns (evs': seq<Event>, s': State)
    requires Leads(s0, evs, s, k) && EnabledEdit(s, ev) && (ev.EnableRead? || ev.UpdateRead?)
    ensures Leads(s0, evs', s', k) && BesideEdit(s, s') && s'.db == s.db && s'.ops == EditOps(s, ev)
  {
    evs', s' := PushEdit(s0, evs, s, ev, k);
  }

  /** An edit is written on a row that is not RUNNING. */
  lemma WriteEdit(s0: State, evs: seq<Event>, s: State, o: OpId, k: Excuse)
    returns (evs': seq<Event>, s': State)
    requires Leads(s0, evs, s, k) && o in s.ops && s.ops[o].UpdateOp? && Editable(s.db.rows, s.ops[o].task)
    requires || k == LateEdit || s.ops[o].status == Disabled
             || (s.ops[o].next.Some? && s.ops[o].next.value > Sec(s.now))
    ensures Leads(s0, evs', s', k) && BesideEdit(s, s') && s'.ops == s.ops - {o}
    ensures var op := s.ops[o];
            s'.db.rows == s.db.rows[op.task :=
              DefineRow(s.db.rows[op.task], op.def, Update(op.status, op.next, op.read.last, op.read.retry))]
  {
    evs', s' := PushEdit(s0, evs, s, UpdateWrite(o), k);
  }

  /** An enable is. */
  lemma WriteEnable(s0: State, evs: seq<Event>, s: State, o: OpId, k: Excuse)
    returns (evs': seq<Event>, s': State)
    requires Leads(s0, evs, s, k) && o in s.ops && s.ops[o].EnableOp? && Editable(s.db.rows, s.ops[o].task)
    requires k == LateEnable || s.ops[o].slot > Sec(s.now)
    ensures Leads(s0, evs', s', k) && BesideEdit(s, s') && s'.ops == s.ops - {o}
    ensures var op := s.ops[o];
            s'.db.rows == s.db.rows[op.task :=
              RuntimeRow(s.db.rows[op.task], Update(Scheduled, Some(op.slot), op.read.last, op.read.retry))]
  {
    evs', s' := PushEdit(s0, evs, s, EnableWrite(o), k);
  }

  lemma PushManual(s0: State, evs: seq<Event>, s: State, ev: ManualEvent, k: Excuse)
    returns (evs': seq<Event>, s': State)
    requires Leads(s0, evs, s, k) && EnabledManual(s, ev) && (Calm(s, ByHand(ev)) || Excused(ByHand(ev), k))
    ensures Leads(s0, evs', s', k) && s' == AfterManual(s, ev).(db := Send(s, ManualStmt(s, ev)))
  {
    Extend(s0, evs, s, ByHand(ev), k);
    evs', s' := evs + [ByHand(ev)], Apply(s, ByHand(ev));
  }

  function NewRow(def: Definition, slot: int): Row {
    Row(def, Scheduled, Some(slot), None, 0, None, None, None)
  }

  /** One task, never run, and nothing under way but the requests. */
  ghost predicate Untouched(s: State, t: TaskId, def: Definition, slot: int) {
    && s.db.rows == map[t := NewRow(def, slot)]
    && s.execs == map[] && s.manuals == map[] && s.recs == map[] && s.locks == map[]
    && s.fired == [] && s.down == {} && s.canceled == {}
  }

  /** The same after execution e of slot `slot` has completed with update u. */
  ghost predicate FiredOnce(s: State, t: TaskId, def: Definition, slot: int, e: ExecId, n: Node, u: Update) {
    && s.db.rows == map[t := CompleteRow(NewRow(def, slot), u)]
    && s.execs == map[e := Exec(t, n, NewRow(def, slot), DropReg(false))]
    && s.manuals == map[] && s.recs == map[]
    && s.fired == [Firing(t, Some(slot), e, true)] && s.down == {} && s.canceled == {}
  }

  lemma Begin(t: TaskId, def: Definition, slot: int, k: Excuse) returns (evs: seq<Event>, s: State)
    requires def.maxRetries == DEFAULT_RETRIES && slot > 0
    ensures Leads(Init(), evs, s, k) && Untouched(s, t, def, slot) && s.now == 0 && s.ops == map[]
  {
    evs, s := PushEdit(Init(), [], Init(), Submit(t, def, slot), k);
  }

  lemma FirstFiring(evs0: seq<Event>, s: State, t: TaskId, def: Definition, slot: int, e: ExecId, n: Node,
                    next: Option<int>, k: Excuse) returns (evs: seq<Event>, s': State)
    requires Leads(Init(), evs0, s, k) && Untouched(s, t, def, slot) && slot <= Sec(s.now)
    requires next.Some? ==> next.value > Sec(s.now)
    ensures Leads(Init(), evs, s', k) && s'.now == s.now && s'.ops == s.ops
    ensures FiredOnce(s', t, def, slot, e, n, NextUpdate(NewRow(def, slot), true, Sec(s.now), false, next))
  {
    evs, s' := FireRun(Init(), evs0, s, t, e, n, true, next, k);
  }

  /** Slot 1 fires in its second, and the next is slot 10. */
  lemma FireAtOne(evs0: seq<Event>, s: State, t: TaskId, def: Definition, e: ExecId, n: Node, k: Excuse)
    returns (evs: seq<Event>, s': State)
    requires Leads(Init(), evs0, s, k) && Untouched(s, t, def, 1) && s.now == 0
    ensures Leads(Init(), evs, s', k) && s'.now == 1000 && s'.ops == s.ops
    ensures FiredOnce(s', t, def, 1, e, n, Update(Scheduled, Some(10), Some(1), 0))
  {
    var s1: State;
    evs, s1 := PushTick(Init(), evs0, s, 1000, k);
    evs, s' := FirstFiring(evs, s1, t, def, 1, e, n, Some(10), k);
  }

  /** A repeat after a run whose steps are all calm but those of kind k. */
  ghost predicate RepeatsBut(evs: seq<Event>, k: Excuse) {
    IsRun(Init(), evs) && CalmBut(Init(), evs, k) && !NoRepeat(After(Init(), evs).fired)
  }

  /** The row of t is due with the slot of the i-th firing, and node n is idle. */
  ghost predicate Again(s: State, t: TaskId, i: nat, n: Node) {
    && t in s.db.rows && IsDue(s.db.rows[t], Sec(s.now)) && s.db.rows[t].next.Some?
    && i < |s.fired| && s.fired[i].task == t && s.fired[i].slot == s.db.rows[t].next
    && n !in s.down && !Busy(s, n) && s.canceled == {}
  }

  lemma FinishRepeat(evs0: seq<Event>, s: State, t: TaskId, i: nat, f: ExecId, n: Node, k: Excuse)
    returns (evs: seq<Event>)
    requires Leads(Init(), evs0, s, k) && Again(s, t, i, n) && FreshExec(s, f)
    ensures RepeatsBut(evs, k)
  {
    var s': State;
    evs, s' := RepeatFromScheduled(Init(), evs0, s, t, i, f, n, k);
  }

  /**
   Enable: the request computes slot 1 at second 0; the scheduler completes slot 1; the late write
   arms slot 1 again.
   */
  lemma LateEnableRepeats(t: TaskId, def: Definition, o: OpId, e: ExecId, f: ExecId, n: Node)
    returns (evs: seq<Event>)
    requires def.maxRetries == DEFAULT_RETRIES && e != f
    ensures RepeatsBut(evs, LateEnable)
  {
    var s, s1: State;
    evs, s := Begin(t, def, 1, LateEnable);
    evs, s1 := PushRead(Init(), evs, s, EnableRead(o, t, 1), LateEnable);
    evs, s1 := FireAtOne(evs, s1, t, def, e, n, LateEnable);
    evs, s := WriteEnable(Init(), evs, s1, o, LateEnable);
    evs := AgainAfterWrite(evs, s1, s, t, def, e, f, n, Update(Scheduled, Some(10), Some(1), 0), LateEnable);
  }

  /** Update: the same with an edit that leaves the task scheduled. */
  lemma LateEditRepeats(t: TaskId, def: Definition, o: OpId, e: ExecId, f: ExecId, n: Node)
    returns (evs: seq<Event>)
    requires def.maxRetries == DEFAULT_RETRIES && e != f
    ensures RepeatsBut(evs, LateEdit)
  {
    var s, s1: State;
    evs, s := Begin(t, def, 1, LateEdit);
    evs, s1 := PushRead(Init(), evs, s, UpdateRead(o, t, def, Scheduled, Some(1)), LateEdit);
    evs, s1 := FireAtOne(evs, s1, t, def, e, n, LateEdit);
    evs, s := WriteEdit(Init(), evs, s1, o, LateEdit);
    evs := AgainAfterWrite(evs, s1, s, t, def, e, f, n, Update(Scheduled, Some(10), Some(1), 0), LateEdit);
  }

  /** Once slot 1 is written again, it fires again. */
  lemma AgainAfterWrite(evs0: seq<Event>, s: State, s1: State, t: TaskId, def: Definition, e: ExecId, f: ExecId, n: Node,
                        u: Update, k: Excuse) returns (evs: seq<Event>)
    requires Leads(Init(), evs0, s1, k) && e != f && s1.now == 1000
    requires FiredOnce(s, t, def, 1, e, n, u) && BesideEdit(s, s1)
    requires t in s1.db.rows && s1.db.rows[t].status == Scheduled && s1.db.rows[t].next == Some(1)
    ensures RepeatsBut(evs, k)
  {
    evs := FinishRepeat(evs0, s1, t, 0, f, n, k);
  }

  /**
   RunTaskNow: the request reads slot 1; the scheduler completes slot 1 and arms slot 10; the manual
   claim compares the status only, and its completion writes slot 1 back.
   */
  lemma StaleManualRepeats(t: TaskId, def: Definition, o: OpId, e: ExecId, f: ExecId, m: ExecId, n: Node)
    returns (evs: seq<Event>)
    requires def.maxRetries == DEFAULT_RETRIES && e != f && e != m && f != m
    ensures RepeatsBut(evs, StaleManual)
  {
    var s, s1: State;
    evs, s := Begin(t, def, 1, StaleManual);
    evs, s := PushManual(Init(), evs, s, RunRead(o, t), StaleManual);
    evs, s1 := FireAtOne(evs, s, t, def, e, n, StaleManual);
    evs, s := ManualRun(evs, s1, t, o, m, n, StaleManual);
    evs := FinishRepeat(evs, s, t, 0, f, n, StaleManual);
  }

  lemma ManualClaimRun(evs0: seq<Event>, s: State, t: TaskId, o: OpId, m: ExecId, n: Node, k: Excuse)
    returns (evs: seq<Event>, s': State)
    requires Leads(Init(), evs0, s, k) && FreshExec(s, m)
    requires o in s.ops && s.ops[o].RunOp? && s.ops[o].task == t
    requires t in s.db.rows && s.db.rows[t].status == s.ops[o].read.status
    requires k == StaleManual || s.db.rows[t] == s.ops[o].read
    ensures Leads(Init(), evs, s', k) && s'.now == s.now && s'.execs == s.execs && s'.fired == s.fired
    ensures s'.down == s.down && s'.canceled == s.canceled && s'.recs == s.recs
    ensures s'.manuals == s.manuals[m := Manual(t, n, s.ops[o].read, MRunning)]
    ensures s'.db.rows == s.db.rows[t := ClaimRow(s.db.rows[t], m, n, Sec(s.now))]
  {
    evs, s' := PushManual(Init(), evs0, s, RunClaim(o, m, n, Ack), k);
  }

  /** A manual run writes back what it read. */
  lemma ManualRun(evs0: seq<Event>, s: State, t: TaskId, o: OpId, m: ExecId, n: Node, k: Excuse)
    returns (evs: seq<Event>, s': State)
    requires Leads(Init(), evs0, s, k) && FreshExec(s, m) && k == StaleManual
    requires o in s.ops && s.ops[o].RunOp? && s.ops[o].task == t
    requires t in s.db.rows && s.db.rows[t].status == s.ops[o].read.status
    ensures Leads(Init(), evs, s', k) && s'.now == s.now && s'.execs == s.execs && s'.fired == s.fired
    ensures s'.down == s.down && s'.canceled == s.canceled && s'.manuals.Keys == s.manuals.Keys + {m}
    ensures t in s'.db.rows && s'.db.rows[t].status == s.ops[o].read.status && s'.db.rows[t].next == s.ops[o].read.next
  {
    evs, s' := ManualClaimRun(evs0, s, t, o, m, n, k);
    evs, s' := WriteBackRun(Init(), evs, s', t, m, k);
  }

  /** Disabled with the slot of the i-th firing, and nothing under way on node n. */
  ghost predicate SpentAndDisabled(s: State, t: TaskId, i: nat, n: Node) {
    && t in s.db.rows && s.db.rows[t].status == Disabled && s.db.rows[t].next.Some?
    && s.db.rows[t].next.value <= Sec(s.now)
    && i < |s.fired| && s.fired[i].task == t && s.fired[i].slot == s.db.rows[t].next
    && n !in s.down && !Busy(s, n) && s.canceled == {}
  }

  /** A manual run of a disabled task never completes; recovery makes the task SCHEDULED, with its slot. */
  lemma RecoverDisabled(evs0: seq<Event>, s: State, t: TaskId, i: nat, o: OpId, r: OpId, f: ExecId, m: ExecId, n: Node)
    returns (evs: seq<Event>, s': State)
    requires Leads(Init(), evs0, s, DisabledRecovery) && SpentAndDisabled(s, t, i, n)
    requires o !in s.ops && r !in s.recs && FreshExec(s, m) && FreshExec(s, f) && f != m
    ensures Leads(Init(), evs, s', DisabledRecovery) && Again(s', t, i, n) && FreshExec(s', f)
  {
    var s1, s2: State;
    evs, s1 := PushManual(Init(), evs0, s, RunRead(o, t), DisabledRecovery);
    evs, s2 := ManualClaimRun(evs, s1, t, o, m, n, DisabledRecovery);
    evs, s' := RecoverRun(Init(), evs, s2, t, r, n, DisabledRecovery);
    assert s'.execs == s.execs;
    assert Sec(s'.now) >= Sec(s.now);
  }

  /** Slot 1 fires in its second and is the last. */
  lemma LastFiring(t: TaskId, def: Definition, e: ExecId, n: Node, k: Excuse) returns (evs: seq<Event>, s': State)
    requires def.maxRetries == DEFAULT_RETRIES
    ensures Leads(Init(), evs, s', k) && SpentAndDisabled(s', t, 0, n)
    ensures s'.execs.Keys == {e} && s'.manuals == map[] && s'.recs == map[] && s'.ops == map[]
  {
    var s: State;
    evs, s := Begin(t, def, 1, k);
    evs, s := PushTick(Init(), evs, s, 1000, k);
    evs, s' := FirstFiring(evs, s, t, def, 1, e, n, None, k);
    assert !Busy(s', n);
  }

  /**
   Recovery: slot 1 completes within second 1 and its cron ends, which disables the task with
   next_run_at 1; a manual run of the disabled task never completes; recovery makes it SCHEDULED.
   Every request here is written at once: no step but the recovery is to blame.
   */
  lemma DisabledRecoveryRepeats(t: TaskId, def: Definition, o: OpId, r: OpId, e: ExecId, f: ExecId, m: ExecId, n: Node)
    returns (evs: seq<Event>)
    requires def.maxRetries == DEFAULT_RETRIES && e != f && e != m && f != m
    ensures RepeatsBut(evs, DisabledRecovery)
  {
    var s: State;
    evs, s := LastFiring(t, def, e, n, DisabledRecovery);
    evs, s := RecoverDisabled(evs, s, t, 0, o, r, f, m, n);
    evs := FinishRepeat(evs, s, t, 0, f, n, DisabledRecovery);
  }

  // ---------------------------------------------------------------- the same after three failures

  lemma CleanUpRun(s0: State, evs0: seq<Event>, s: State, e: ExecId, k: Excuse)
    returns (evs: seq<Event>, s': State)
    requires Leads(s0, evs0, s, k) && At(s, e, DropReg(false))
    requires s.execs[e].task in s.locks ==> s.locks[s.execs[e].task].owner == OwnerToken(s, e)
    ensures Leads(s0, evs, s', k) && Aside(s, s') && s'.fired == s.fired && s'.db.rows == s.db.rows
    ensures s'.execs == s.execs[e := s.execs[e].(pc := Done)] && !Live(s'.locks, s.execs[e].task, s'.now)
  {
    evs, s' := PushEnd(s0, evs0, s, Unregister(e), k);
    evs, s' := PushEnd(s0, evs, s', RemoveLease(e), k);
    evs, s' := PushEnd(s0, evs, s', Unlock(e, Ack), k);
    assert s'.execs == s.execs[e := s.execs[e].(pc := Done)];
  }

  /** A scheduled row with this slot and retry count, due now, and an idle node. */
  ghost predicate Due(s: State, t: TaskId, def: Definition, slot: int, retry: int, n: Node) {
    && t in s.db.rows && s.db.rows[t].status == Scheduled && s.db.rows[t].next == Some(slot)
    && s.db.rows[t].retry == retry && s.db.rows[t].def == def && slot <= Sec(s.now)
    && n !in s.down && !Busy(s, n) && !Live(s.locks, t, s.now)
    && s.manuals == map[] && s.recs == map[] && s.ops == map[] && s.canceled == {}
  }

  /** One failed execution of a due slot, and its clean-up. */
  lemma FailRun(evs0: seq<Event>, s: State, t: TaskId, def: Definition, slot: int, retry: int, e: ExecId, n: Node, k: Excuse)
    returns (evs: seq<Event>, s': State)
    requires Leads(Init(), evs0, s, k) && Due(s, t, def, slot, retry, n) && e !in s.execs
    ensures Leads(Init(), evs, s', k) && Aside(s, s') && s'.fired == s.fired + [Firing(t, Some(slot), e, false)]
    ensures s'.execs.Keys == s.execs.Keys + {e} && !Busy(s', n) && !Live(s'.locks, t, s'.now)
    ensures t in s'.db.rows && s'.db.rows[t] == CompleteRow(s.db.rows[t], NextUpdate(s.db.rows[t], false, Sec(s.now), false, None))
  {
    var s1: State;
    evs, s1 := FireRun(Init(), evs0, s, t, e, n, false, None, k);
    evs, s' := CleanUpRun(Init(), evs, s1, e, k);
    assert s'.execs == s.execs[e := Exec(t, n, s.db.rows[t], Done)];
    assert !Busy(s', n) by {
      forall f | f in s'.execs && s'.execs[f].node == n ensures !Dispatching(s'.execs[f].pc) {
        assert f != e ==> s'.execs[f] == s.execs[f];
      }
    }
  }

  lemma SecAfter(now: nat, d: nat)
    ensures Sec(now + 1000 * d) == Sec(now) + d
  {
  }

  /** Waiting moves nothing but the clock. */
  lemma WaitRun(evs0: seq<Event>, s: State, t: TaskId, def: Definition, slot: int, retry: int, d: nat, n: Node, k: Excuse)
    returns (evs: seq<Event>, s': State)
    requires Leads(Init(), evs0, s, k) && !Busy(s, n) && !Live(s.locks, t, s.now)
    requires t in s.db.rows && s.db.rows[t].status == Scheduled && s.db.rows[t].next == Some(slot)
    requires s.db.rows[t].retry == retry && s.db.rows[t].def == def && slot == Sec(s.now) + d && n !in s.down
    requires s.manuals == map[] && s.recs == map[] && s.ops == map[] && s.canceled == {}
    ensures Leads(Init(), evs, s', k) && Due(s', t, def, slot, retry, n)
    ensures s' == s.(now := s.now + 1000 * d)
  {
    SecAfter(s.now, d);
    evs, s' := PushTick(Init(), evs0, s, 1000 * d, k);
    assert !Busy(s', n);
  }

  lemma RetryUpdate(r: Row, end: int)
    requires r.retry + 1 < r.def.maxRetries
    ensures NextUpdate(r, false, end, false, None)
            == Update(Scheduled, Some(end + RetryDelay(r.retry + 1)), Some(end), r.retry + 1)
  {
  }

  /** A failure that leaves retries, and the wait for the next one. */
  lemma RetryRun(evs0: seq<Event>, s: State, t: TaskId, def: Definition, slot: int, retry: int, e: ExecId, n: Node, k: Excuse)
    returns (evs: seq<Event>, s': State)
    requires Leads(Init(), evs0, s, k) && Due(s, t, def, slot, retry, n) && e !in s.execs
    requires retry + 1 < def.maxRetries
    ensures var d := RetryDelay(retry + 1);
            && Leads(Init(), evs, s', k) && s'.now == s.now + 1000 * d
            && Due(s', t, def, Sec(s.now) + d, retry + 1, n)
    ensures s'.fired == s.fired + [Firing(t, Some(slot), e, false)] && s'.execs.Keys == s.execs.Keys + {e}
  {
    var s1: State;
    var d := RetryDelay(retry + 1);
    evs, s1 := FailRun(evs0, s, t, def, slot, retry, e, n, k);
    RetryUpdate(s.db.rows[t], Sec(s.now));
    evs, s' := WaitRun(evs, s1, t, def, Sec(s.now) + d, retry + 1, d, n, k);
  }

  /** Slots 1 and 6 fail within their seconds. */
  lemma TwoFailures(t: TaskId, def: Definition, e1: ExecId, e2: ExecId, n: Node, k: Excuse)
    returns (evs: seq<Event>, s: State)
    requires def.maxRetries == DEFAULT_RETRIES && e1 != e2
    ensures Leads(Init(), evs, s, k) && Due(s, t, def, 16, 2, n) && s.now == 16_000
    ensures s.execs.Keys == {e1, e2} && |s.fired| == 2
  {
    var s1: State;
    FirstDelays();
    evs, s1 := OneFailure(t, def, e1, n, k);
    evs, s := RetryRun(evs, s1, t, def, 6, 1, e2, n, k);
    assert s.execs.Keys == {e1, e2};
  }

  lemma OneFailure(t: TaskId, def: Definition, e: ExecId, n: Node, k: Excuse) returns (evs: seq<Event>, s: State)
    requires def.maxRetries == DEFAULT_RETRIES
    ensures Leads(Init(), evs, s, k) && Due(s, t, def, 6, 1, n) && s.now == 6_000
    ensures s.execs.Keys == {e} && |s.fired| == 1
  {
    var s1: State;
    FirstDelays();
    evs, s1 := Begin(t, def, 1, k);
    evs, s1 := PushTick(Init(), evs, s1, 1000, k);
    evs, s := RetryRun(evs, s1, t, def, 1, 0, e, n, k);
  }

  lemma FirstDelays()
    ensures RetryDelay(1) == 5 && RetryDelay(2) == 10
  {
    assert Shift(0) == 1 && Shift(1) == 2;
  }

  /** Slots 1, 6 and 16 fail within their seconds, and the third failure disables the task. */
  lemma ThreeFailures(t: TaskId, def: Definition, e1: ExecId, e2: ExecId, e3: ExecId, n: Node, k: Excuse)
    returns (evs: seq<Event>, s: State)
    requires def.maxRetries == DEFAULT_RETRIES && e1 != e2 && e1 != e3 && e2 != e3
    ensures Leads(Init(), evs, s, k) && SpentAndDisabled(s, t, 2, n)
    ensures s.execs.Keys == {e1, e2, e3} && s.manuals == map[] && s.recs == map[] && s.ops == map[]
  {
    var s1: State;
    evs, s1 := TwoFailures(t, def, e1, e2, n, k);
    evs, s := FailRun(evs, s1, t, def, 16, 2, e3, n, k);
    assert s.execs.Keys == {e1, e2, e3};
  }

  /**
   The everyday path to the same end: a task fails three times in a row, the last time within the
   second it was due, and is disabled with that slot; an abandoned manual run is then recovered.
   */
  lemma ThirdFailureRepeats(t: TaskId, def: Definition, o: OpId, r: OpId, e1: ExecId, e2: ExecId, e3: ExecId,
                            f: ExecId, m: ExecId, n: Node) returns (evs: seq<Event>)
    requires def.maxRetries == DEFAULT_RETRIES && e1 != e2 && e1 != e3 && e2 != e3
    requires f !in {e1, e2, e3} && m !in {e1, e2, e3} && f != m
    ensures RepeatsBut(evs, DisabledRecovery)
  {
    var s: State;
    evs, s := ThreeFailures(t, def, e1, e2, e3, n, DisabledRecovery);
    assert f !in s.execs.Keys && m !in s.execs.Keys;
    evs, s := RecoverDisabled(evs, s, t, 2, o, r, f, m, n);
    evs := FinishRepeat(evs, s, t, 2, f, n, DisabledRecovery);
  }
}
