/**
 With reliable storage and no crash, a dispatch that has ended has left nothing behind: neither
 registry nor renewer nor lock nor row names it, by whatever path it ended.
 */
module Leaks {
  import opened Tasks
  import opened Protocol
  import opened Fencing
  import opened Ownership

  /** Between acquiring the lock and releasing it. */
  predicate InLock(pc: Pc) {
    !pc.Scanned? && !pc.Done? && !pc.Dead?
  }

  /** Between winning the claim and ending it. */
  predicate InClaim(pc: Pc) {
    || pc.Claimed? || pc.Queued? || pc.Finished? || pc.Recorded? || pc.Decided?
    || (pc.DropReg? && pc.restore) || (pc.DropLease? && pc.restore) || pc.Restore?
  }

  /** Entries in a node's memory are under the key of the dispatch they name. */
  ghost predicate OwnKeys(s: State) {
    && (forall k :: k in s.registry ==> s.registry[k] in s.execs && Slot(s, s.registry[k]) == k)
    && (forall k :: k in s.leases ==> s.leases[k] in s.execs && Slot(s, s.leases[k]) == k)
  }

  /** What e has in memory and in Redis fits where it stands. */
  ghost predicate LockOk(s: State, e: ExecId)
    requires e in s.execs
  {
    Holds(s, e) ==> InLock(s.execs[e].pc)
  }

  ghost predicate RegistryOk(s: State, e: ExecId)
    requires e in s.execs
  {
    Registering(s, e) ==> InRegistry(s.execs[e].pc)
  }

  ghost predicate RenewerOk(s: State, e: ExecId)
    requires e in s.execs
  {
    Leasing(s, e) ==> InRenewer(s.execs[e].pc)
  }

  ghost predicate ClaimOk(db: Db, e: ExecId, x: Exec) {
    OwnerOf(db.rows, x.task) == Some(e) ==> InClaim(x.pc)
  }

  ghost predicate MemoryTidy(s: State) {
    && (forall e :: e in s.execs ==> RegistryOk(s, e) && RenewerOk(s, e))
    && (!s.faulty ==> forall e :: e in s.execs ==> LockOk(s, e))
  }

  ghost predicate ClaimsTidy(s: State, db: Db) {
    !s.faulty ==> forall e :: e in s.execs ==> ClaimOk(db, e, s.execs[e])
  }

  ghost predicate Tidy(s: State) {
    OwnKeys(s) && MemoryTidy(s) && ClaimsTidy(s, s.db)
  }

  // ---------------------------------------------------------------- keys

  lemma EnvKeepsKeys(s: State, ev: EnvEvent)
    requires OwnKeys(s) && EnabledEnv(s, ev)
    ensures OwnKeys(AfterEnv(s, ev))
  {
  }

  lemma DispatchKeepsKeys(s: State, ev: DispatchEvent)
    requires OwnKeys(s) && EnabledDispatch(s, ev)
    ensures OwnKeys(AfterDispatch(s, ev))
  {
  }

  lemma EndKeepsKeys(s: State, ev: EndEvent)
    requires OwnKeys(s) && EnabledEnd(s, ev)
    ensures OwnKeys(AfterEnd(s, ev))
  {
  }

  // ---------------------------------------------------------------- memory

  lemma EnvKeepsMemory(s: State, ev: EnvEvent)
    requires MemoryTidy(s) && EnabledEnv(s, ev)
    ensures MemoryTidy(AfterEnv(s, ev))
  {
    var s' := AfterEnv(s, ev);
    forall e | e in s.execs ensures RegistryOk(s', e) && RenewerOk(s', e) {
      EnvKeepsEntries(s, ev, e);
    }
    if !s'.faulty {
      forall e | e in s.execs ensures LockOk(s', e) {
        assert LockOk(s, e);
        if !Holds(s, e) { EnvNoRegain(s, ev, e); }
      }
    }
  }

  lemma EnvKeepsEntries(s: State, ev: EnvEvent, e: ExecId)
    requires MemoryTidy(s) && EnabledEnv(s, ev) && e in s.execs
    ensures RegistryOk(AfterEnv(s, ev), e) && RenewerOk(AfterEnv(s, ev), e)
  {
    assert RegistryOk(s, e) && RenewerOk(s, e);
  }

  lemma DispatchKeepsLock(s: State, ev: DispatchEvent, e: ExecId)
    requires Tokens(s) && MemoryTidy(s) && EnabledDispatch(s, ev) && !AfterDispatch(s, ev).faulty
    requires e in AfterDispatch(s, ev).execs
    ensures LockOk(AfterDispatch(s, ev), e)
  {
    if e in s.execs {
      assert LockOk(s, e);
      if !Holds(s, e) && !(ev.LockKey? && ev.e == e) { DispatchNoRegain(s, ev, e); }
    }
  }

  lemma DispatchKeepsEntries(s: State, ev: DispatchEvent, e: ExecId)
    requires OwnKeys(s) && MemoryTidy(s) && EnabledDispatch(s, ev) && e in AfterDispatch(s, ev).execs
    ensures RegistryOk(AfterDispatch(s, ev), e) && RenewerOk(AfterDispatch(s, ev), e)
  {
    if e in s.execs { assert RegistryOk(s, e) && RenewerOk(s, e); }
  }

  lemma DispatchKeepsMemory(s: State, ev: DispatchEvent)
    requires Tokens(s) && OwnKeys(s) && MemoryTidy(s) && EnabledDispatch(s, ev)
    ensures MemoryTidy(AfterDispatch(s, ev))
  {
    var s' := AfterDispatch(s, ev);
    forall e | e in s'.execs ensures RegistryOk(s', e) && RenewerOk(s', e) { DispatchKeepsEntries(s, ev, e); }
    if !s'.faulty {
      forall e | e in s'.execs ensures LockOk(s', e) { DispatchKeepsLock(s, ev, e); }
    }
  }

  lemma EndKeepsLock(s: State, ev: EndEvent, e: ExecId)
    requires MemoryTidy(s) && EnabledEnd(s, ev) && !AfterEnd(s, ev).faulty && e in s.execs
    ensures LockOk(AfterEnd(s, ev), e)
  {
    assert LockOk(s, e);
    if !Holds(s, e) { EndNoRegain(s, ev, e); }
  }

  lemma EndKeepsEntries(s: State, ev: EndEvent, e: ExecId)
    requires MemoryTidy(s) && EnabledEnd(s, ev) && e in s.execs
    ensures RegistryOk(AfterEnd(s, ev), e) && RenewerOk(AfterEnd(s, ev), e)
  {
    assert RegistryOk(s, e) && RenewerOk(s, e);
  }

  lemma EndKeepsMemory(s: State, ev: EndEvent)
    requires MemoryTidy(s) && EnabledEnd(s, ev)
    ensures MemoryTidy(AfterEnd(s, ev))
  {
    var s' := AfterEnd(s, ev);
    forall e | e in s'.execs ensures RegistryOk(s', e) && RenewerOk(s', e) { EndKeepsEntries(s, ev, e); }
    if !s'.faulty {
      forall e | e in s'.execs ensures LockOk(s', e) { EndKeepsLock(s, ev, e); }
    }
  }

  lemma StaleKeepsMemory(s: State, ev: StaleEvent)
    requires MemoryTidy(s) && EnabledStale(s, ev)
    ensures MemoryTidy(AfterStale(s, ev))
  {
    var s' := AfterStale(s, ev);
    forall e | e in s.execs ensures RegistryOk(s', e) && RenewerOk(s', e) { assert RegistryOk(s, e) && RenewerOk(s, e); }
    if !s'.faulty {
      forall e | e in s.execs ensures LockOk(s', e) {
        assert LockOk(s, e);
        if !Holds(s, e) { StaleNoRegain(s, ev, e); }
      }
    }
  }

  lemma LocalKeepsMemory(s: State, ev: Event)
    requires Tokens(s) && OwnKeys(s) && MemoryTidy(s) && Enabled(s, ev)
    ensures OwnKeys(Local(s, ev)) && MemoryTidy(Local(s, ev))
  {
    match ev
    case Env(x) => EnvKeepsKeys(s, x); EnvKeepsMemory(s, x);
    case Edit(x) =>
    case ByHand(x) =>
    case Dispatch(x) => DispatchKeepsKeys(s, x); DispatchKeepsMemory(s, x);
    case End(x) => EndKeepsKeys(s, x); EndKeepsMemory(s, x);
    case Stale(x) => StaleKeepsMemory(s, x);
  }

  // ---------------------------------------------------------------- the row

  /** No statement but its own claim makes an execution the owner. */
  lemma NoNewOwner(db: Db, q: Stmt, sec: int, t: TaskId, e: ExecId)
    requires OwnerOf(Perform(db, q, sec).rows, t) == Some(e) && Sound(db, q)
    requires !(q.ClaimQ? && q.e == e)
    ensures OwnerOf(db.rows, t) == Some(e)
  {
  }

  lemma DispatchKeepsClaim(s: State, ev: DispatchEvent, e: ExecId)
    requires ClaimsTidy(s, s.db) && Fenced(s) && EnabledDispatch(s, ev) && !AfterDispatch(s, ev).faulty
    requires e in AfterDispatch(s, ev).execs
    ensures ClaimOk(Send(s, DispatchStmt(s, ev)), e, AfterDispatch(s, ev).execs[e])
  {
    if e in s.execs {
      var t := s.execs[e].task;
      assert ClaimOk(s.db, e, s.execs[e]) && ExecOk(e, s.execs[e], s.db.claims);
      assert t in s.db.rows ==> Frozen(t, s.db.rows[t], s.db.claims);
    } else {
      assert Frozen(ev.t, s.db.rows[ev.t], s.db.claims);
    }
  }

  lemma DispatchKeepsClaims(s: State, ev: DispatchEvent)
    requires ClaimsTidy(s, s.db) && Fenced(s) && EnabledDispatch(s, ev)
    ensures ClaimsTidy(AfterDispatch(s, ev), Send(s, DispatchStmt(s, ev)))
  {
    var s' := AfterDispatch(s, ev);
    if !s'.faulty {
      forall e | e in s'.execs ensures ClaimOk(Send(s, DispatchStmt(s, ev)), e, s'.execs[e]) {
        DispatchKeepsClaim(s, ev, e);
      }
    }
  }

  /** An execution that still owns its row after a step of its own is still on the way to end that. */
  lemma EndStaysInClaim(s: State, ev: EndEvent)
    requires EnabledEnd(s, ev) && !AfterEnd(s, ev).faulty && InClaim(s.execs[ev.e].pc)
    requires RowsOk(s.db.rows)
    requires OwnerOf(s.db.rows, s.execs[ev.e].task) == Some(ev.e)
    requires OwnerOf(Send(s, EndStmt(s, ev)).rows, s.execs[ev.e].task) == Some(ev.e)
    ensures InClaim(EndPc(s, ev))
  {
  }

  lemma EndKeepsClaims(s: State, ev: EndEvent)
    requires ClaimsTidy(s, s.db) && RowsOk(s.db.rows) && EnabledEnd(s, ev) && Sound(s.db, EndStmt(s, ev))
    ensures ClaimsTidy(AfterEnd(s, ev), Send(s, EndStmt(s, ev)))
  {
    var s' := AfterEnd(s, ev);
    if !s'.faulty {
      forall e | e in s'.execs ensures ClaimOk(Send(s, EndStmt(s, ev)), e, s'.execs[e]) {
        OthersKeepClaim(s, EndStmt(s, ev), e);
        if e == ev.e && OwnerOf(Send(s, EndStmt(s, ev)).rows, s.execs[e].task) == Some(e) {
          NoNewOwner(s.db, EndStmt(s, ev), Sec(s.now), s.execs[e].task, e);
          EndStaysInClaim(s, ev);
        }
      }
    }
  }

  lemma OthersKeepClaim(s: State, q: Stmt, e: ExecId)
    requires ClaimsTidy(s, s.db) && !s.faulty && e in s.execs && Sound(s.db, q) && (q.ClaimQ? ==> q.e != e)
    ensures ClaimOk(Send(s, q), e, s.execs[e])
  {
    assert ClaimOk(s.db, e, s.execs[e]);
    if OwnerOf(Send(s, q).rows, s.execs[e].task) == Some(e) {
      NoNewOwner(s.db, q, Sec(s.now), s.execs[e].task, e);
    }
  }

  lemma OthersKeepClaims(s: State, q: Stmt, s': State)
    requires ClaimsTidy(s, s.db) && Sound(s.db, q) && (q.ClaimQ? ==> q.e !in s.execs)
    requires s'.execs == s.execs && (s.faulty ==> s'.faulty)
    ensures ClaimsTidy(s', Send(s, q))
  {
    if !s'.faulty {
      forall e | e in s.execs ensures ClaimOk(Send(s, q), e, s.execs[e]) { OthersKeepClaim(s, q, e); }
    }
  }

  lemma EnvKeepsClaims(s: State, ev: EnvEvent)
    requires ClaimsTidy(s, s.db) && EnabledEnv(s, ev)
    ensures ClaimsTidy(AfterEnv(s, ev), s.db)
  {
  }

  lemma LocalKeepsClaims(s: State, ev: Event)
    requires ClaimsTidy(s, s.db) && Fenced(s) && Enabled(s, ev)
    ensures ClaimsTidy(Local(s, ev), Send(s, StmtOf(s, ev)))
  {
    StatementSound(s, ev);
    match ev
    case Env(x) => EnvKeepsClaims(s, x);
    case Edit(x) => OthersKeepClaims(s, EditStmt(s, x), AfterEdit(s, x));
    case ByHand(x) => OthersKeepClaims(s, ManualStmt(s, x), AfterManual(s, x));
    case Dispatch(x) => DispatchKeepsClaims(s, x);
    case End(x) => EndKeepsClaims(s, x);
    case Stale(x) => OthersKeepClaims(s, StaleStmt(s, x), AfterStale(s, x));
  }

  // ---------------------------------------------------------------- runs

  lemma TidyOver(s: State, db: Db)
    requires OwnKeys(s) && MemoryTidy(s) && ClaimsTidy(s, db)
    ensures Tidy(s.(db := db))
  {
    var s' := s.(db := db);
    forall e | e in s'.execs ensures RegistryOk(s', e) && RenewerOk(s', e) { assert RegistryOk(s, e) && RenewerOk(s, e); }
    if !s'.faulty {
      forall e | e in s'.execs ensures LockOk(s', e) { assert LockOk(s, e); }
    }
  }

  lemma StepKeepsTidy(s: State, ev: Event)
    requires Tidy(s) && Protected(s) && Enabled(s, ev)
    ensures Tidy(Apply(s, ev))
  {
    LocalKeepsMemory(s, ev);
    LocalKeepsClaims(s, ev);
    TidyOver(Local(s, ev), Send(s, StmtOf(s, ev)));
  }

  lemma {:induction false} RunKeepsTidy(s: State, evs: seq<Event>)
    requires Tidy(s) && Protected(s) && IsRun(s, evs)
    ensures Tidy(After(s, evs))
    decreases |evs|
  {
    if evs != [] {
      StepKeepsProtected(s, evs[0]);
      StepKeepsTidy(s, evs[0]);
      RunKeepsTidy(Apply(s, evs[0]), evs[1..]);
    }
  }

  /**
   No leaks on any path: after a run without crash or lost command, an execution whose dispatch has
   ended is in no registry and no renewer, holds no lock and owns no row.
   */
  lemma NothingLeft(evs: seq<Event>, e: ExecId)
    requires IsRun(Init(), evs) && !After(Init(), evs).faulty
    requires At(After(Init(), evs), e, Done)
    ensures var s := After(Init(), evs);
            && e !in s.registry.Values && e !in s.leases.Values && !Holds(s, e)
            && forall t :: OwnerOf(s.db.rows, t) != Some(e)
  {
    InitFenced();
    RunKeepsTidy(Init(), evs);
    ReachableProtected(evs);
    NothingLeftIn(After(Init(), evs), e);
  }

  /** Whatever crashes or gets lost, a node's memory never names an execution that has ended. */
  lemma MemoryIsClean(evs: seq<Event>, e: ExecId)
    requires IsRun(Init(), evs) && e in After(Init(), evs).execs && Ended(After(Init(), evs).execs[e].pc)
    ensures var s := After(Init(), evs); e !in s.registry.Values && e !in s.leases.Values
  {
    InitFenced();
    RunKeepsTidy(Init(), evs);
    CleanIn(After(Init(), evs), e);
  }

  lemma CleanIn(s: State, e: ExecId)
    requires OwnKeys(s) && MemoryTidy(s) && e in s.execs && Ended(s.execs[e].pc)
    ensures e !in s.registry.Values && e !in s.leases.Values
  {
    assert RegistryOk(s, e) && RenewerOk(s, e);
  }

  lemma NothingLeftIn(s: State, e: ExecId)
    requires Tidy(s) && Fenced(s) && !s.faulty && At(s, e, Done)
    ensures e !in s.registry.Values && e !in s.leases.Values && !Holds(s, e)
    ensures forall t :: OwnerOf(s.db.rows, t) != Some(e)
  {
    assert LockOk(s, e) && RegistryOk(s, e) && RenewerOk(s, e) && ClaimOk(s.db, e, s.execs[e]);
    assert ExecOk(e, s.execs[e], s.db.claims);
    forall t ensures OwnerOf(s.db.rows, t) != Some(e) {
      assert t in s.db.rows ==> Frozen(t, s.db.rows[t], s.db.claims);
    }
  }
}
