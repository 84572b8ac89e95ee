/**
 Who may move a lock key. A key changes hands only when nobody has it, and only the party whose value
 it carries prolongs or deletes it; so a holder keeps its lock until its own unlock, its expiry or the
 key's loss, and nobody else gets it meanwhile.
 */
module Locking {
  import opened Tasks
  import opened Leases
  import opened Protocol
  import opened Fencing
  import opened Ownership

  type Locks = map<TaskId, Lock<Token>>

  /** The key of t, as Redis has it. */
  function KeyAt(m: Locks, t: TaskId): Option<Lock<Token>> {
    if t in m then Some(m[t]) else None
  }

  /** Nobody has the key of t. */
  predicate Free(s: State, t: TaskId) {
    t in s.locks ==> s.locks[t].expires <= s.now
  }

  /** The key of t is alive and carries this value. */
  predicate Carries(s: State, t: TaskId, v: Token) {
    t in s.locks && s.now < s.locks[t].expires && s.locks[t].owner == v
  }

  /** What gives a step the right to move the key of t. */
  predicate MayMove(s: State, ev: Event, t: TaskId)
    requires Enabled(s, ev)
  {
    match ev
    case Env(DropKey(u)) => u == t
    case Env(RenewKey(e)) => s.execs[e].task == t && Carries(s, t, Owner(s.execs[e].node, e))
    case Dispatch(LockKey(e, _)) => s.execs[e].task == t && Free(s, t)
    case End(Unlock(e, _)) => s.execs[e].task == t && Carries(s, t, Owner(s.execs[e].node, e))
    case Stale(RecLock(r, _)) => s.recs[r].task == t && Free(s, t)
    case Stale(RecUnlock(r, _)) => s.recs[r].task == t && Carries(s, t, Recovery(s.recs[r].node, s.recs[r].target))
    case _ => false
  }

  // ---------------------------------------------------------------- nobody else moves it

  lemma EnvMovesOwn(s: State, ev: EnvEvent, t: TaskId)
    requires EnabledEnv(s, ev) && KeyAt(AfterEnv(s, ev).locks, t) != KeyAt(s.locks, t)
    ensures MayMove(s, Env(ev), t)
  {
  }

  lemma DispatchMovesOwn(s: State, ev: DispatchEvent, t: TaskId)
    requires EnabledDispatch(s, ev) && KeyAt(AfterDispatch(s, ev).locks, t) != KeyAt(s.locks, t)
    ensures MayMove(s, Dispatch(ev), t)
  {
  }

  lemma EndMovesOwn(s: State, ev: EndEvent, t: TaskId)
    requires EnabledEnd(s, ev) && KeyAt(AfterEnd(s, ev).locks, t) != KeyAt(s.locks, t)
    ensures MayMove(s, End(ev), t)
  {
  }

  lemma StaleMovesOwn(s: State, ev: StaleEvent, t: TaskId)
    requires EnabledStale(s, ev) && KeyAt(AfterStale(s, ev).locks, t) != KeyAt(s.locks, t)
    ensures MayMove(s, Stale(ev), t)
  {
  }

  /** A step that changes the key of t has the right to. */
  lemma OnlyRightfulMoves(s: State, ev: Event, t: TaskId)
    requires Enabled(s, ev) && KeyAt(Apply(s, ev).locks, t) != KeyAt(s.locks, t)
    ensures MayMove(s, ev, t)
  {
    match ev
    case Env(x) => EnvMovesOwn(s, x, t);
    case Edit(x) =>
    case ByHand(x) =>
    case Dispatch(x) => DispatchMovesOwn(s, x, t);
    case End(x) => EndMovesOwn(s, x, t);
    case Stale(x) => StaleMovesOwn(s, x, t);
  }

  // ---------------------------------------------------------------- what a rightful move does

  /** The lock is set for 60 seconds. */
  lemma LockSets(s: State, e: ExecId)
    requires EnabledDispatch(s, LockKey(e, Ack))
    ensures var t := s.execs[e].task; var s' := AfterDispatch(s, LockKey(e, Ack));
            if Free(s, t) then KeyAt(s'.locks, t) == Some(Lock(Owner(s.execs[e].node, e), s.now + 60_000)) && At(s', e, Locked)
            else At(s', e, Scanned)
  {
  }

  lemma RenewalProlongs(s: State, e: ExecId)
    requires EnabledEnv(s, RenewKey(e)) && Carries(s, s.execs[e].task, Owner(s.execs[e].node, e))
    ensures KeyAt(AfterEnv(s, RenewKey(e)).locks, s.execs[e].task) == Some(Lock(Owner(s.execs[e].node, e), s.now + 60_000))
  {
  }

  lemma UnlockDeletes(s: State, e: ExecId)
    requires EnabledEnd(s, Unlock(e, Ack)) && Carries(s, s.execs[e].task, Owner(s.execs[e].node, e))
    ensures KeyAt(AfterEnd(s, Unlock(e, Ack)).locks, s.execs[e].task) == None
  {
  }

  /** A recovery locks and unlocks with its own value, and goes on only if it has the lock. */
  lemma RecoveryLocks(s: State, r: OpId)
    requires r in s.recs
    ensures var x := s.recs[r]; var v := Recovery(x.node, x.target);
            && (EnabledStale(s, RecLock(r, Ack)) ==>
                  var s' := AfterStale(s, RecLock(r, Ack));
                  if Free(s, x.task) then KeyAt(s'.locks, x.task) == Some(Lock(v, s.now + 60_000)) && s'.recs[r].pc == RLocked
                  else s'.recs[r].pc == RDone)
            && (EnabledStale(s, RecUnlock(r, Ack)) && Carries(s, x.task, v) ==>
                  KeyAt(AfterStale(s, RecUnlock(r, Ack)).locks, x.task) == None)
  {
  }

  // ---------------------------------------------------------------- a holder keeps its lock

  /** The steps that may take the lock from its holder e, besides time. */
  predicate EndsHold(ev: Event, t: TaskId, e: ExecId) {
    ev == Env(DropKey(t)) || (ev.End? && ev.end.Unlock? && ev.end.e == e)
  }

  /** Executions do not disappear, and stay with their node and task. */
  lemma StepKeepsExec(s: State, ev: Event, e: ExecId)
    requires Enabled(s, ev) && e in s.execs
    ensures var s' := Apply(s, ev);
            && e in s'.execs && s'.execs[e].task == s.execs[e].task
            && s'.execs[e].node == s.execs[e].node && s'.execs[e].snap == s.execs[e].snap
  {
    match ev
    case Env(x) => EnvKeepsExec(s, x, e);
    case Edit(x) =>
    case ByHand(x) =>
    case Dispatch(x) =>
    case End(x) =>
    case Stale(x) =>
  }

  lemma EnvKeepsExec(s: State, ev: EnvEvent, e: ExecId)
    requires EnabledEnv(s, ev) && e in s.execs
    ensures e in AfterEnv(s, ev).execs && AfterEnv(s, ev).execs[e].(pc := Done) == s.execs[e].(pc := Done)
  {
  }

  /** Neither the clock nor what has been canceled moves. */
  predicate SameClock(s: State, s': State) {
    s'.now == s.now && s'.lost == s.lost && s'.canceled == s.canceled
  }

  lemma ManualKeepsClock(s: State, ev: ManualEvent)
    requires EnabledManual(s, ev)
    ensures SameClock(s, AfterManual(s, ev))
  {
  }

  lemma DispatchKeepsClock(s: State, ev: DispatchEvent)
    requires EnabledDispatch(s, ev)
    ensures SameClock(s, AfterDispatch(s, ev))
  {
  }

  lemma EndKeepsClock(s: State, ev: EndEvent)
    requires EnabledEnd(s, ev)
    ensures SameClock(s, AfterEnd(s, ev))
  {
  }

  lemma StaleKeepsClock(s: State, ev: StaleEvent)
    requires EnabledStale(s, ev)
    ensures SameClock(s, AfterStale(s, ev))
  {
  }

  lemma EnvClock(s: State, ev: EnvEvent)
    requires EnabledEnv(s, ev)
    ensures var s' := AfterEnv(s, ev);
            && s'.now == (if ev.Tick? then s.now + ev.d else s.now)
            && s.lost <= s'.lost && s.canceled <= s'.canceled && s'.lost - s.lost <= s'.canceled
  {
  }

  lemma EditClock(s: State, ev: EditEvent)
    requires EnabledEdit(s, ev)
    ensures var s' := AfterEdit(s, ev); s'.now == s.now && s'.lost == s.lost && s.canceled <= s'.canceled
  {
  }

  /** Only a tick moves the clock, nothing is un-canceled, and what is newly lost is canceled. */
  predicate ClockMoves(s: State, s': State, d: nat) {
    s'.now == s.now + d && s.lost <= s'.lost && s.canceled <= s'.canceled && s'.lost - s.lost <= s'.canceled
  }

  function Ticks(ev: Event): nat {
    if ev.Env? && ev.env.Tick? then ev.env.d else 0
  }

  lemma LocalClock(s: State, ev: Event)
    requires Enabled(s, ev)
    ensures ClockMoves(s, Local(s, ev), Ticks(ev))
  {
    match ev
    case Env(x) => EnvClock(s, x);
    case Edit(x) => EditClock(s, x);
    case ByHand(x) => ManualKeepsClock(s, x);
    case Dispatch(x) => DispatchKeepsClock(s, x);
    case End(x) => EndKeepsClock(s, x);
    case Stale(x) => StaleKeepsClock(s, x);
  }

  lemma ClockOver(s: State, s': State, d: nat, db: Db)
    requires ClockMoves(s, s', d)
    ensures ClockMoves(s, s'.(db := db), d)
  {
  }

  lemma StepClock(s: State, ev: Event)
    requires Enabled(s, ev)
    ensures ClockMoves(s, Apply(s, ev), Ticks(ev))
  {
    LocalClock(s, ev);
    ClockOver(s, Local(s, ev), Ticks(ev), Send(s, StmtOf(s, ev)));
  }

  /**
   The dual of `NoRegain`: no step but time, the loss of the key and e's own unlock takes the lock
   from e, and no step but e's own renewal moves its expiry.
   */
  lemma HoldKept(s: State, ev: Event, e: ExecId)
    requires Enabled(s, ev) && e in s.execs && Holds(s, e) && !EndsHold(ev, s.execs[e].task, e)
    ensures var s' := Apply(s, ev); var t := s.execs[e].task;
            && e in s'.execs && t in s'.locks && s'.locks[t].owner == s.locks[t].owner
            && (ev != Env(RenewKey(e)) ==> s'.locks[t] == s.locks[t])
            && (ev == Env(RenewKey(e)) ==> s'.locks[t].expires == s.now + 60_000)
            && (!(ev.Env? && ev.env.Tick?) ==> Holds(s', e))
  {
    var t := s.execs[e].task;
    StepKeepsExec(s, ev, e);
    StepClock(s, ev);
    if ev == Env(RenewKey(e)) {
      RenewalProlongs(s, e);
    } else if KeyAt(Apply(s, ev).locks, t) != KeyAt(s.locks, t) {
      OnlyRightfulMoves(s, ev, t);
    }
  }

  // ---------------------------------------------------------------- over runs

  /** No key lives longer than a lifetime from now. */
  ghost predicate Young(s: State) {
    forall t :: t in s.locks ==> s.locks[t].expires <= s.now + 60_000
  }

  lemma StepKeepsYoung(s: State, ev: Event)
    requires Young(s) && Enabled(s, ev)
    ensures Young(Apply(s, ev))
  {
    StepClock(s, ev);
    forall t | t in Local(s, ev).locks ensures Local(s, ev).locks[t].expires <= Apply(s, ev).now + 60_000 {
      if KeyAt(Local(s, ev).locks, t) != KeyAt(s.locks, t) { MovedKeyIsYoung(s, ev, t); }
    }
  }

  lemma MovedKeyIsYoung(s: State, ev: Event, t: TaskId)
    requires Enabled(s, ev) && KeyAt(Local(s, ev).locks, t) != KeyAt(s.locks, t)
    ensures GoneOrNew(s, Local(s, ev).locks, t)
  {
    match ev
    case Env(x) => EnvSetsYoung(s, x, t);
    case Edit(x) =>
    case ByHand(x) =>
    case Dispatch(x) => DispatchSetsYoung(s, x, t);
    case End(x) => EndSetsYoung(s, x, t);
    case Stale(x) => StaleSetsYoung(s, x, t);
  }

  /** A key that was moved is gone or new. */
  predicate GoneOrNew(s: State, m: Locks, t: TaskId) {
    t in m ==> m[t].expires == s.now + 60_000
  }

  lemma EnvSetsYoung(s: State, ev: EnvEvent, t: TaskId)
    requires EnabledEnv(s, ev) && KeyAt(AfterEnv(s, ev).locks, t) != KeyAt(s.locks, t)
    ensures GoneOrNew(s, AfterEnv(s, ev).locks, t)
  {
  }

  lemma DispatchSetsYoung(s: State, ev: DispatchEvent, t: TaskId)
    requires EnabledDispatch(s, ev) && KeyAt(AfterDispatch(s, ev).locks, t) != KeyAt(s.locks, t)
    ensures GoneOrNew(s, AfterDispatch(s, ev).locks, t)
  {
  }

  lemma EndSetsYoung(s: State, ev: EndEvent, t: TaskId)
    requires EnabledEnd(s, ev) && KeyAt(AfterEnd(s, ev).locks, t) != KeyAt(s.locks, t)
    ensures GoneOrNew(s, AfterEnd(s, ev).locks, t)
  {
  }

  lemma StaleSetsYoung(s: State, ev: StaleEvent, t: TaskId)
    requires EnabledStale(s, ev) && KeyAt(AfterStale(s, ev).locks, t) != KeyAt(s.locks, t)
    ensures GoneOrNew(s, AfterStale(s, ev).locks, t)
  {
  }

  lemma {:induction false} RunKeepsYoung(s: State, evs: seq<Event>)
    requires Young(s) && IsRun(s, evs)
    ensures Young(After(s, evs)) && After(s, evs).now >= s.now
    decreases |evs|
  {
    if evs != [] {
      StepKeepsYoung(s, evs[0]);
      StepClock(s, evs[0]);
      RunKeepsYoung(Apply(s, evs[0]), evs[1..]);
    }
  }

  ghost predicate KeepsHold(evs: seq<Event>, t: TaskId, e: ExecId) {
    forall i :: 0 <= i < |evs| ==> !EndsHold(evs[i], t, e)
  }

  /**
   Over any run in which e does not unlock and the key is not lost, e holds its lock until the time
   the key had at the start, and longer when it is renewed, whatever all other parties do.
   */
  lemma {:induction false} HoldLasts(s: State, evs: seq<Event>, e: ExecId)
    requires Young(s) && IsRun(s, evs) && e in s.execs && Holds(s, e) && KeepsHold(evs, s.execs[e].task, e)
    requires After(s, evs).now < s.locks[s.execs[e].task].expires
    ensures e in After(s, evs).execs && Holds(After(s, evs), e)
    decreases |evs|
  {
    if evs != [] {
      var s1 := Apply(s, evs[0]);
      HoldKept(s, evs[0], e);
      StepKeepsExec(s, evs[0], e);
      StepClock(s, evs[0]);
      StepKeepsYoung(s, evs[0]);
      RunKeepsYoung(s1, evs[1..]);
      assert KeepsHold(evs[1..], s1.execs[e].task, e) by {
        assert forall i :: 0 <= i < |evs[1..]| ==> evs[1..][i] == evs[i + 1];
      }
      HoldLasts(s1, evs[1..], e);
    }
  }

  /** And so long no other dispatch and no recovery of its task gets the lock. */
  lemma HolderShutsOut(before: seq<Event>, evs: seq<Event>, e: ExecId, f: ExecId, r: OpId)
    requires IsRun(Init(), before)
    requires var s := After(Init(), before);
             && IsRun(s, evs) && e in s.execs && Holds(s, e) && KeepsHold(evs, s.execs[e].task, e)
             && After(s, evs).now < s.locks[s.execs[e].task].expires
    ensures var s := After(Init(), before); var t := s.execs[e].task; var s' := After(s, evs);
            && (EnabledDispatch(s', LockKey(f, Ack)) && s'.execs[f].task == t && f != e ==>
                  At(AfterDispatch(s', LockKey(f, Ack)), f, Scanned))
            && (EnabledStale(s', RecLock(r, Ack)) && s'.recs[r].task == t ==>
                  AfterStale(s', RecLock(r, Ack)).recs[r].pc == RDone)
  {
    var s := After(Init(), before);
    var s' := After(s, evs);
    RunKeepsYoung(Init(), before);
    HoldLasts(s, evs, e);
    RunKeepsExec(s, evs, e);
    assert !Free(s', s.execs[e].task);
    if EnabledDispatch(s', LockKey(f, Ack)) { LockSets(s', f); }
    if r in s'.recs { RecoveryLocks(s', r); }
  }

  lemma {:induction false} RunKeepsExec(s: State, evs: seq<Event>, e: ExecId)
    requires IsRun(s, evs) && e in s.execs
    ensures var s' := After(s, evs);
            && e in s'.execs && s'.execs[e].task == s.execs[e].task
            && s'.execs[e].node == s.execs[e].node && s'.execs[e].snap == s.execs[e].snap
    decreases |evs|
  {
    if evs != [] {
      StepKeepsExec(s, evs[0], e);
      RunKeepsExec(Apply(s, evs[0]), evs[1..], e);
    }
  }

  // ---------------------------------------------------------------- cancellation reaches the holder

  /** What the renewer has lost it has canceled. */
  ghost predicate LostAreCanceled(s: State) {
    s.lost <= s.canceled
  }

  lemma {:induction false} RunKeepsLost(s: State, evs: seq<Event>)
    requires LostAreCanceled(s) && IsRun(s, evs)
    ensures LostAreCanceled(After(s, evs)) && s.canceled <= After(s, evs).canceled
    decreases |evs|
  {
    if evs != [] {
      StepKeepsLost(s, evs[0]);
      RunKeepsLost(Apply(s, evs[0]), evs[1..]);
    }
  }

  lemma StepKeepsLost(s: State, ev: Event)
    requires LostAreCanceled(s) && Enabled(s, ev)
    ensures LostAreCanceled(Apply(s, ev)) && s.canceled <= Apply(s, ev).canceled
  {
    StepClock(s, ev);
  }

  /**
   In every reachable state a cancel on the node of the lock's holder reaches that execution and no
   other, and the loss of its lease cancels it too.
   */
  lemma CancelReachesHolder(evs: seq<Event>, e: ExecId)
    requires IsRun(Init(), evs)
    requires var s := After(Init(), evs); e in s.execs && Holds(s, e) && InRegistry(s.execs[e].pc)
    ensures var s := After(Init(), evs); var ev := CancelLocal(s.execs[e].node, s.execs[e].task);
            && EnabledEdit(s, ev) && AfterEdit(s, ev).canceled == s.canceled + {e}
            && (EnabledEnv(s, LoseLease(e)) ==> AfterEnv(s, LoseLease(e)).canceled == s.canceled + {e})
            && (e !in s.canceled ==> EnabledEnv(s, LoseLease(e))) && EnabledEnv(s, RenewKey(e))
  {
    ReachableProtected(evs);
    RunKeepsLost(Init(), evs);
    assert NamedAt(After(Init(), evs), e);
  }

  /** A claimed execution that has been canceled never reaches the thread pool. */
  lemma {:induction false} CanceledIsNotQueued(s: State, evs: seq<Event>, e: ExecId)
    requires IsRun(s, evs) && e in s.execs && e in s.canceled && BeforeQueue(s.execs[e].pc)
    ensures e in After(s, evs).execs && BeforeQueue(After(s, evs).execs[e].pc)
    decreases |evs|
  {
    if evs != [] {
      CanceledStaysOut(s, evs[0], e);
      StepClock(s, evs[0]);
      CanceledIsNotQueued(Apply(s, evs[0]), evs[1..], e);
    }
  }

  /** Not in the thread pool, neither now nor before. */
  predicate BeforeQueue(pc: Pc) {
    !pc.Queued? && !pc.Finished? && !pc.Recorded? && !pc.Decided?
  }

  lemma CanceledStaysOut(s: State, ev: Event, e: ExecId)
    requires Enabled(s, ev) && e in s.execs && e in s.canceled && BeforeQueue(s.execs[e].pc)
    ensures e in Apply(s, ev).execs && BeforeQueue(Apply(s, ev).execs[e].pc)
  {
    match ev
    case Env(x) => EnvStaysOut(s, x, e);
    case Edit(x) =>
    case ByHand(x) =>
    case Dispatch(x) => DispatchStaysOut(s, x, e);
    case End(x) => EndStaysOut(s, x, e);
    case Stale(x) =>
  }

  lemma EnvStaysOut(s: State, ev: EnvEvent, e: ExecId)
    requires EnabledEnv(s, ev) && e in s.execs && BeforeQueue(s.execs[e].pc)
    ensures e in AfterEnv(s, ev).execs && BeforeQueue(AfterEnv(s, ev).execs[e].pc)
  {
  }

  lemma DispatchStaysOut(s: State, ev: DispatchEvent, e: ExecId)
    requires EnabledDispatch(s, ev) && e in s.execs && e in s.canceled && BeforeQueue(s.execs[e].pc)
    ensures e in AfterDispatch(s, ev).execs && BeforeQueue(AfterDispatch(s, ev).execs[e].pc)
  {
  }

  lemma EndStaysOut(s: State, ev: EndEvent, e: ExecId)
    requires EnabledEnd(s, ev) && e in s.execs && BeforeQueue(s.execs[e].pc)
    ensures e in AfterEnd(s, ev).execs && BeforeQueue(AfterEnd(s, ev).execs[e].pc)
  {
  }
}
