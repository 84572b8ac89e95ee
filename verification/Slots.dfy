/**
 Due slots over whole runs: a slot is a pair of task and next_run_at. This module has what every run
 keeps, whatever its steps: scanned and completed slots have passed, a running row started no earlier
 than any of them, and an execution writes back either its own slot or a later one.
 */
module Slots {
  import opened Tasks
  import opened Protocol
  import opened Fencing

  /** The row is due for a scheduler now, or will be when recovery gives it back as it was claimed. */
  ghost predicate Armed(db: Db, t: TaskId) {
    && t in db.rows
    && (db.rows[t].status == Running ==>
          && db.rows[t].exec.Some? && db.rows[t].exec.value in db.claims
          && db.claims[db.rows[t].exec.value].before.status == Scheduled)
    && db.rows[t].status != Disabled
  }

  /** The columns an execution works from. */
  predicate SameWork(r: Row, snap: Row) {
    r.def == snap.def && r.retry == snap.retry
  }

  /** A scanned slot has passed, and a scan that has not claimed is older than the row's start. */
  ghost predicate SnapPast(db: Db, x: Exec, sec: int) {
    && x.snap.next.Some? && x.snap.next.value <= sec
    && (BeforeClaim(x.pc) && x.task in db.rows && db.rows[x.task].started.Some? ==>
          x.snap.next.value <= db.rows[x.task].started.value)
  }

  /** So has a completed slot. */
  ghost predicate FiredPast(db: Db, f: Firing, sec: int) {
    && f.slot.Some? && f.slot.value <= sec
    && (f.task in db.rows && db.rows[f.task].started.Some? ==> f.slot.value <= db.rows[f.task].started.value)
  }

  predicate Advances(u: Update, r: Row)
    requires r.started.Some?
  {
    u.status == Scheduled ==> u.next.Some? && u.next.value > r.started.value
  }

  predicate Restores(u: Update, snap: Row) {
    u.status == Scheduled && u.next == snap.next && u.retry == snap.retry
  }

  /** What e will write fits the row r it owns, claimed as `before`. */
  ghost predicate Fits(x: Exec, r: Row, before: Row) {
    && r.started.Some?
    && before.status == Scheduled && before.next == x.snap.next
    && x.snap.next.Some? && x.snap.next.value <= r.started.value
    && (x.pc.Finished? || x.pc.Recorded? ==> r.started.value <= x.pc.end)
    && (x.pc.Decided? ==> if x.pc.fired then Advances(x.pc.u, r) else Restores(x.pc.u, x.snap))
  }

  ghost predicate OwnOk(db: Db, e: ExecId, x: Exec) {
    x.task in db.rows && db.rows[x.task].exec == Some(e) && e in db.claims ==>
      Fits(x, db.rows[x.task], db.claims[e].before)
  }

  /** A manual run will write back the status its claim found. */
  ghost predicate ManOk(db: Db, e: ExecId, m: Manual) {
    m.task in db.rows && db.rows[m.task].exec == Some(e) && e in db.claims ==>
      m.read.status == db.claims[e].before.status
  }

  ghost predicate Known(s: State, db: Db) {
    && (forall t :: t in db.rows ==> t in s.created)
    && (forall e :: e in s.execs ==> s.execs[e].task in s.created)
    && (forall i :: 0 <= i < |s.fired| ==> s.fired[i].task in s.created)
  }

  /** Everything that does not involve who is where in which program. */
  ghost predicate TableOk(s: State, db: Db) {
    && (forall e :: e in db.claims ==> db.claims[e].at <= Sec(s.now))
    && (forall e :: e in s.execs ==> SnapPast(db, s.execs[e], Sec(s.now)))
    && (forall i :: 0 <= i < |s.fired| ==> FiredPast(db, s.fired[i], Sec(s.now)))
  }

  ghost predicate OwnersOk(s: State, db: Db) {
    && (forall e :: e in s.execs ==> OwnOk(db, e, s.execs[e]))
    && (forall e :: e in s.manuals ==> ManOk(db, e, s.manuals[e]))
  }

  /** The invariant of the parties in s over the table db. */
  ghost predicate BaseOf(s: State, db: Db) {
    Known(s, db) && TableOk(s, db) && OwnersOk(s, db)
  }

  ghost predicate Based(s: State) {
    Fenced(s) && BaseOf(s, s.db)
  }

  // ---------------------------------------------------------------- statements

  lemma StatementKeepsSnap(s: State, q: Stmt, x: Exec)
    requires SnapPast(s.db, x, Sec(s.now))
    requires q.InsertQ? ==> q.r.started == None
    ensures SnapPast(Send(s, q), x, Sec(s.now))
  {
  }

  lemma StatementKeepsFired(s: State, q: Stmt, f: Firing)
    requires FiredPast(s.db, f, Sec(s.now))
    requires q.InsertQ? ==> q.r.started == None
    ensures FiredPast(Send(s, q), f, Sec(s.now))
  {
  }

  lemma StatementKeepsOwn(s: State, q: Stmt, e: ExecId, x: Exec)
    requires Fenced(s) && Sound(s.db, q) && OwnOk(s.db, e, x)
    requires !(q.ClaimQ? && q.e == e)
    ensures OwnOk(Send(s, q), e, x)
  {
  }

  lemma StatementKeepsMan(s: State, q: Stmt, e: ExecId, m: Manual)
    requires Fenced(s) && Sound(s.db, q) && ManOk(s.db, e, m)
    requires !(q.ClaimQ? && q.e == e)
    ensures ManOk(Send(s, q), e, m)
  {
  }

  lemma StatementKeepsTable(s: State, q: Stmt)
    requires TableOk(s, s.db) && Sound(s.db, q)
    ensures TableOk(s, Send(s, q))
  {
    forall e | e in s.execs ensures SnapPast(Send(s, q), s.execs[e], Sec(s.now)) {
      StatementKeepsSnap(s, q, s.execs[e]);
    }
    forall i | 0 <= i < |s.fired| ensures FiredPast(Send(s, q), s.fired[i], Sec(s.now)) {
      StatementKeepsFired(s, q, s.fired[i]);
    }
  }

  // ---------------------------------------------------------------- every step keeps the invariant

  lemma StatementKeepsOwners(s: State, q: Stmt)
    requires Fenced(s) && OwnersOk(s, s.db) && Sound(s.db, q) && !q.ClaimQ?
    ensures OwnersOk(s, Send(s, q))
  {
    forall e | e in s.execs ensures OwnOk(Send(s, q), e, s.execs[e]) { StatementKeepsOwn(s, q, e, s.execs[e]); }
    forall e | e in s.manuals ensures ManOk(Send(s, q), e, s.manuals[e]) { StatementKeepsMan(s, q, e, s.manuals[e]); }
  }

  lemma EnvKeepsTable(s: State, ev: EnvEvent)
    requires TableOk(s, s.db) && EnabledEnv(s, ev)
    ensures TableOk(AfterEnv(s, ev), s.db)
  {
    assert Sec(AfterEnv(s, ev).now) >= Sec(s.now);
  }

  lemma EnvKeepsOwners(s: State, ev: EnvEvent)
    requires OwnersOk(s, s.db) && EnabledEnv(s, ev)
    ensures OwnersOk(AfterEnv(s, ev), s.db)
  {
  }

  lemma EnvKeepsBase(s: State, ev: EnvEvent)
    requires Based(s) && EnabledEnv(s, ev)
    ensures BaseOf(AfterEnv(s, ev), s.db)
  {
    EnvKeepsTable(s, ev);
    EnvKeepsOwners(s, ev);
  }

  lemma EditKeepsBase(s: State, ev: EditEvent)
    requires Based(s) && EnabledEdit(s, ev) && Sound(s.db, EditStmt(s, ev))
    ensures BaseOf(AfterEdit(s, ev), Send(s, EditStmt(s, ev)))
  {
    StatementKeepsTable(s, EditStmt(s, ev));
    StatementKeepsOwners(s, EditStmt(s, ev));
  }

  lemma StaleKeepsBase(s: State, ev: StaleEvent)
    requires Based(s) && EnabledStale(s, ev) && Sound(s.db, StaleStmt(s, ev))
    ensures BaseOf(AfterStale(s, ev), Send(s, StaleStmt(s, ev)))
  {
    StatementKeepsTable(s, StaleStmt(s, ev));
    StatementKeepsOwners(s, StaleStmt(s, ev));
  }

  lemma ManualKeepsMan(s: State, ev: ManualEvent, e: ExecId)
    requires Based(s) && EnabledManual(s, ev)
    requires Sound(s.db, ManualStmt(s, ev)) && e in AfterManual(s, ev).manuals
    ensures ManOk(Send(s, ManualStmt(s, ev)), e, AfterManual(s, ev).manuals[e])
  {
    if ev.RunClaim? && ev.e == e {
      assert OpOk(s.ops[ev.o]);
    } else {
      StatementKeepsMan(s, ManualStmt(s, ev), e, s.manuals[e]);
    }
  }

  lemma ManualKeepsBase(s: State, ev: ManualEvent)
    requires Based(s) && EnabledManual(s, ev) && Sound(s.db, ManualStmt(s, ev))
    ensures BaseOf(AfterManual(s, ev), Send(s, ManualStmt(s, ev)))
  {
    var q := ManualStmt(s, ev);
    var s' := AfterManual(s, ev);
    StatementKeepsTable(s, q);
    forall e | e in s.execs ensures OwnOk(Send(s, q), e, s.execs[e]) { StatementKeepsOwn(s, q, e, s.execs[e]); }
    forall e | e in s'.manuals ensures ManOk(Send(s, q), e, s'.manuals[e]) { ManualKeepsMan(s, ev, e); }
  }

  lemma DispatchKeepsSnap(s: State, ev: DispatchEvent, e: ExecId)
    requires Based(s) && EnabledDispatch(s, ev)
    requires TableOk(s, Send(s, DispatchStmt(s, ev))) && e in AfterDispatch(s, ev).execs
    ensures SnapPast(Send(s, DispatchStmt(s, ev)), AfterDispatch(s, ev).execs[e], Sec(s.now))
  {
    if ev.Scan? && ev.e == e {
      assert WellFormed(s.db.rows[ev.t]);
    } else {
      assert SnapPast(Send(s, DispatchStmt(s, ev)), s.execs[e], Sec(s.now));
    }
  }

  lemma DispatchKeepsOwn(s: State, ev: DispatchEvent, e: ExecId)
    requires Based(s) && EnabledDispatch(s, ev)
    requires Sound(s.db, DispatchStmt(s, ev)) && e in AfterDispatch(s, ev).execs
    ensures OwnOk(Send(s, DispatchStmt(s, ev)), e, AfterDispatch(s, ev).execs[e])
  {
    if ev.e != e {
      StatementKeepsOwn(s, DispatchStmt(s, ev), e, s.execs[e]);
    } else if !ev.Scan? {
      assert OwnOk(s.db, e, s.execs[e]) && SnapPast(s.db, s.execs[e], Sec(s.now));
      assert ExecOk(e, s.execs[e], s.db.claims);
    }
  }

  lemma DispatchKeepsBase(s: State, ev: DispatchEvent)
    requires Based(s) && EnabledDispatch(s, ev) && Sound(s.db, DispatchStmt(s, ev))
    ensures BaseOf(AfterDispatch(s, ev), Send(s, DispatchStmt(s, ev)))
  {
    var q := DispatchStmt(s, ev);
    var s' := AfterDispatch(s, ev);
    StatementKeepsTable(s, q);
    forall e | e in s'.execs ensures SnapPast(Send(s, q), s'.execs[e], Sec(s.now)) { DispatchKeepsSnap(s, ev, e); }
    forall e | e in s'.execs ensures OwnOk(Send(s, q), e, s'.execs[e]) { DispatchKeepsOwn(s, ev, e); }
    forall e | e in s.manuals ensures ManOk(Send(s, q), e, s.manuals[e]) { StatementKeepsMan(s, q, e, s.manuals[e]); }
  }

  /** Each step of an execution keeps what it is going to write in line with the row it owns. */
  lemma EndKeepsFit(s: State, ev: EndEvent, r: Row, before: Row)
    requires EnabledEnd(s, ev) && Fits(s.execs[ev.e], r, before) && r.started.value <= Sec(s.now)
    ensures Fits(s.execs[ev.e].(pc := EndPc(s, ev)), r, before)
  {
  }

  lemma EndKeepsOwners(s: State, ev: EndEvent, db: Db)
    requires EnabledEnd(s, ev) && Core(db) && OwnersOk(s, db) && TableOk(s, db)
    ensures OwnersOk(AfterEnd(s, ev), db)
  {
    var x := s.execs[ev.e];
    assert OwnOk(db, ev.e, x);
    if OwnerOf(db.rows, x.task) == Some(ev.e) {
      assert Frozen(x.task, db.rows[x.task], db.claims);
      EndKeepsFit(s, ev, db.rows[x.task], db.claims[ev.e].before);
    }
    OneOwner(s, AfterEnd(s, ev), ev.e, x.(pc := EndPc(s, ev)), db);
  }

  lemma OneOwner(s: State, s': State, e: ExecId, x: Exec, db: Db)
    requires OwnersOk(s, db) && OwnOk(db, e, x) && s'.execs == s.execs[e := x] && s'.manuals == s.manuals
    ensures OwnersOk(s', db)
  {
  }

  lemma EndKeepsTable(s: State, ev: EndEvent, db: Db)
    requires EnabledEnd(s, ev) && TableOk(s, db)
    requires Fires(s, ev) ==>
               var x := s.execs[ev.e]; FiredPast(db, Firing(x.task, x.snap.next, ev.e, x.pc.ok), Sec(s.now))
    ensures TableOk(AfterEnd(s, ev), db)
  {
    forall e | e in s.execs ensures SnapPast(db, AfterEnd(s, ev).execs[e], Sec(s.now)) {
      assert SnapPast(db, s.execs[e], Sec(s.now));
    }
  }

  lemma NewFiringPast(s: State, ev: EndEvent)
    requires Based(s) && EnabledEnd(s, ev) && Fires(s, ev)
    ensures var x := s.execs[ev.e];
            FiredPast(Send(s, EndStmt(s, ev)), Firing(x.task, x.snap.next, ev.e, x.pc.ok), Sec(s.now))
  {
    assert SnapPast(s.db, s.execs[ev.e], Sec(s.now));
  }

  lemma EndKeepsKnown(s: State, ev: EndEvent)
    requires Known(s, s.db) && EnabledEnd(s, ev)
    ensures Known(AfterEnd(s, ev), Send(s, EndStmt(s, ev)))
  {
    assert Send(s, EndStmt(s, ev)).rows.Keys == s.db.rows.Keys;
  }

  lemma EndKeepsBase(s: State, ev: EndEvent)
    requires Based(s) && EnabledEnd(s, ev) && Sound(s.db, EndStmt(s, ev))
    ensures BaseOf(AfterEnd(s, ev), Send(s, EndStmt(s, ev)))
  {
    EndKeepsKnown(s, ev);
    StatementKeepsCore(s.db, EndStmt(s, ev), Sec(s.now));
    StatementKeepsTable(s, EndStmt(s, ev));
    StatementKeepsOwners(s, EndStmt(s, ev));
    if Fires(s, ev) { NewFiringPast(s, ev); }
    EndKeepsTable(s, ev, Send(s, EndStmt(s, ev)));
    EndKeepsOwners(s, ev, Send(s, EndStmt(s, ev)));
  }

  lemma LocalKeepsBase(s: State, ev: Event)
    requires Based(s) && Enabled(s, ev)
    ensures BaseOf(Local(s, ev), Send(s, StmtOf(s, ev)))
  {
    StatementSound(s, ev);
    match ev
    case Env(x) => EnvKeepsBase(s, x);
    case Edit(x) => EditKeepsBase(s, x);
    case ByHand(x) => ManualKeepsBase(s, x);
    case Dispatch(x) => DispatchKeepsBase(s, x);
    case End(x) => EndKeepsBase(s, x);
    case Stale(x) => StaleKeepsBase(s, x);
  }

  lemma StepKeepsBased(s: State, ev: Event)
    requires Based(s) && Enabled(s, ev)
    ensures Based(Apply(s, ev))
  {
    StepKeepsFenced(s, ev);
    LocalKeepsBase(s, ev);
  }

  lemma {:induction false} RunKeepsBased(s: State, evs: seq<Event>)
    requires Based(s) && IsRun(s, evs)
    ensures Based(After(s, evs))
    decreases |evs|
  {
    if evs != [] {
      StepKeepsBased(s, evs[0]);
      RunKeepsBased(Apply(s, evs[0]), evs[1..]);
    }
  }
}
