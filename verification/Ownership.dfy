/**
 What the Redis lock gives: at most one dispatch per task holds it, its node's renewer and registry
 name that dispatch, and its row cannot be taken away.
 */
module Ownership {
  import opened Tasks
  import opened Leases
  import opened Protocol
  import opened Fencing

  /** The lock key of e's task is live and carries e's token. */
  predicate Holds(s: State, e: ExecId)
    requires e in s.execs
  {
    Held(s.locks, s.execs[e].task, OwnerToken(s, e), s.now)
  }

  // ---------------------------------------------------------------- a lost lock stays lost

  lemma EnvNoRegain(s: State, ev: EnvEvent, e: ExecId)
    requires EnabledEnv(s, ev) && e in s.execs && !Holds(s, e)
    ensures e in AfterEnv(s, ev).execs && !Holds(AfterEnv(s, ev), e)
  {
  }

  lemma DispatchNoRegain(s: State, ev: DispatchEvent, e: ExecId)
    requires EnabledDispatch(s, ev) && e in s.execs && !Holds(s, e)
    requires !(ev.LockKey? && ev.e == e)
    ensures e in AfterDispatch(s, ev).execs && !Holds(AfterDispatch(s, ev), e)
  {
  }

  lemma EditNoRegain(s: State, ev: EditEvent, e: ExecId)
    requires EnabledEdit(s, ev) && e in s.execs && !Holds(s, e)
    ensures e in AfterEdit(s, ev).execs && !Holds(AfterEdit(s, ev), e)
  {
  }

  lemma ManualNoRegain(s: State, ev: ManualEvent, e: ExecId)
    requires EnabledManual(s, ev) && e in s.execs && !Holds(s, e)
    ensures e in AfterManual(s, ev).execs && !Holds(AfterManual(s, ev), e)
  {
  }

  lemma EndNoRegain(s: State, ev: EndEvent, e: ExecId)
    requires EnabledEnd(s, ev) && e in s.execs && !Holds(s, e)
    ensures e in AfterEnd(s, ev).execs && !Holds(AfterEnd(s, ev), e)
  {
  }

  lemma StaleNoRegain(s: State, ev: StaleEvent, e: ExecId)
    requires EnabledStale(s, ev) && e in s.execs && !Holds(s, e)
    ensures e in AfterStale(s, ev).execs && !Holds(AfterStale(s, ev), e)
  {
  }

  /** Only e's own lock attempt can make e hold the lock. */
  lemma NoRegain(s: State, ev: Event, e: ExecId)
    requires Enabled(s, ev) && e in s.execs && !Holds(s, e)
    requires !(ev.Dispatch? && ev.dispatch.LockKey? && ev.dispatch.e == e)
    ensures e in Local(s, ev).execs && !Holds(Local(s, ev), e)
  {
    match ev
    case Env(x) => EnvNoRegain(s, x, e);
    case Edit(x) => EditNoRegain(s, x, e);
    case ByHand(x) => ManualNoRegain(s, x, e);
    case Dispatch(x) => DispatchNoRegain(s, x, e);
    case End(x) => EndNoRegain(s, x, e);
    case Stale(x) => StaleNoRegain(s, x, e);
  }

  // ---------------------------------------------------------------- one dispatch at a time

  /** e has the lock and is about to enter its node's renewer or registry. */
  predicate Entering(pc: Pc) {
    pc.Locked? || pc.Leased?
  }

  /** e's entry in the cancellation registry is made and not yet withdrawn. */
  predicate InRegistry(pc: Pc) {
    || pc.Registered? || pc.Claimed? || pc.Queued? || pc.Finished? || pc.Recorded? || pc.Decided?
    || pc.DropReg?
  }

  /** e's lease is handed to the renewer and not yet withdrawn. */
  predicate InRenewer(pc: Pc) {
    pc.Leased? || InRegistry(pc) || pc.DropLease?
  }

  predicate Rivals(s: State, e: ExecId, f: ExecId)
    requires e in s.execs && f in s.execs
  {
    e != f && s.execs[e].node == s.execs[f].node && s.execs[e].task == s.execs[f].task
  }

  /** While e enters, no other dispatch of its node and task has the lock. */
  ghost predicate Turns(s: State) {
    forall e, f :: e in s.execs && f in s.execs && Rivals(s, e, f) && Entering(s.execs[e].pc) ==> !Holds(s, f)
  }

  /** Where a dispatch that has the lock is named. */
  ghost predicate NamedAt(s: State, e: ExecId)
    requires e in s.execs
  {
    Holds(s, e) ==>
      && (InRegistry(s.execs[e].pc) ==> Registering(s, e))
      && (InRenewer(s.execs[e].pc) ==> (Leasing(s, e) <==> e !in s.lost))
  }

  ghost predicate Named(s: State) {
    forall e :: e in s.execs ==> NamedAt(s, e)
  }

  /** A token in Redis was written by a dispatch that exists. */
  ghost predicate Tokens(s: State) {
    forall t :: t in s.locks && s.locks[t].owner.Owner? ==> s.locks[t].owner.exec in s.execs
  }

  /** The renewer drops an execution it has lost for good, and knows none that has not been handed over. */
  ghost predicate LostOk(s: State, e: ExecId)
    requires e in s.execs
  {
    && (e in s.lost ==> !Leasing(s, e))
    && (s.execs[e].pc.Scanned? || s.execs[e].pc.Locked? ==> e !in s.lost && !Leasing(s, e))
  }

  ghost predicate Losses(s: State) {
    && (forall e :: e in s.execs ==> LostOk(s, e))
    && (forall e :: e in s.lost ==> e in s.execs)
    && (forall k :: k in s.leases ==> s.leases[k] in s.execs)
  }

  ghost predicate Exclusive(s: State) {
    Tokens(s) && Turns(s) && Named(s) && Losses(s)
  }

  lemma EnvKeepsLosses(s: State, ev: EnvEvent)
    requires Losses(s) && EnabledEnv(s, ev)
    ensures Losses(AfterEnv(s, ev))
  {
    forall e | e in s.execs ensures LostOk(AfterEnv(s, ev), e) { assert LostOk(s, e); }
  }

  lemma DispatchKeepsLosses(s: State, ev: DispatchEvent)
    requires Losses(s) && EnabledDispatch(s, ev)
    ensures Losses(AfterDispatch(s, ev))
  {
    var s' := AfterDispatch(s, ev);
    forall e | e in s'.execs ensures LostOk(s', e) { assert e in s.execs ==> LostOk(s, e); }
  }

  lemma EndKeepsLosses(s: State, ev: EndEvent)
    requires Losses(s) && EnabledEnd(s, ev)
    ensures Losses(AfterEnd(s, ev))
  {
    forall e | e in s.execs ensures LostOk(AfterEnd(s, ev), e) { assert LostOk(s, e); }
  }

  lemma EnvKeepsExclusive(s: State, ev: EnvEvent)
    requires Exclusive(s) && EnabledEnv(s, ev)
    ensures Exclusive(AfterEnv(s, ev))
  {
    var s' := AfterEnv(s, ev);
    EnvKeepsLosses(s, ev);
    EnvKeepsTurns(s, ev);
    forall e | e in s.execs ensures NamedAt(s', e) { EnvKeepsNamed(s, ev, e); }
  }

  lemma EnvKeepsTurns(s: State, ev: EnvEvent)
    requires Turns(s) && EnabledEnv(s, ev)
    ensures Turns(AfterEnv(s, ev))
  {
    var s' := AfterEnv(s, ev);
    forall e, f | e in s'.execs && f in s'.execs && Rivals(s', e, f) && Entering(s'.execs[e].pc)
      ensures !Holds(s', f)
    {
      assert Rivals(s, e, f);
      EnvNoRegain(s, ev, f);
    }
  }

  lemma EnvKeepsNamed(s: State, ev: EnvEvent, e: ExecId)
    requires Named(s) && Losses(s) && EnabledEnv(s, ev) && e in s.execs
    ensures NamedAt(AfterEnv(s, ev), e)
  {
    assert NamedAt(s, e) && LostOk(s, e);
    if !Holds(s, e) { EnvNoRegain(s, ev, e); }
  }

  lemma DispatchKeepsTurn(s: State, ev: DispatchEvent, e: ExecId, f: ExecId)
    requires Tokens(s) && Turns(s) && EnabledDispatch(s, ev)
    requires var s' := AfterDispatch(s, ev);
             e in s'.execs && f in s'.execs && Rivals(s', e, f) && Entering(s'.execs[e].pc)
    ensures !Holds(AfterDispatch(s, ev), f)
  {
    if ev.Scan? {
    } else if ev.LockKey? && (ev.e == e || ev.e == f) {
      if ev.e == f { assert Dispatching(s.execs[e].pc); }
    } else {
      DispatchNoRegain(s, ev, f);
    }
  }

  lemma DispatchKeepsNamed(s: State, ev: DispatchEvent, e: ExecId)
    requires Exclusive(s) && EnabledDispatch(s, ev)
    requires e in AfterDispatch(s, ev).execs
    ensures NamedAt(AfterDispatch(s, ev), e)
  {
    if ev.e == e {
      if !ev.Scan? { assert NamedAt(s, e) && LostOk(s, e); }
    } else {
      assert NamedAt(s, e);
      if !Holds(s, e) { DispatchNoRegain(s, ev, e); }
      else if ev.AddLease? || ev.Register? { assert !Rivals(s, ev.e, e); }
    }
  }

  lemma DispatchKeepsExclusive(s: State, ev: DispatchEvent)
    requires Exclusive(s) && EnabledDispatch(s, ev)
    ensures Exclusive(AfterDispatch(s, ev))
  {
    var s' := AfterDispatch(s, ev);
    forall e, f | e in s'.execs && f in s'.execs && Rivals(s', e, f) && Entering(s'.execs[e].pc)
      ensures !Holds(s', f)
    {
      DispatchKeepsTurn(s, ev, e, f);
    }
    forall e | e in s'.execs ensures NamedAt(s', e) { DispatchKeepsNamed(s, ev, e); }
    DispatchKeepsLosses(s, ev);
  }

  lemma EndKeepsNamed(s: State, ev: EndEvent, e: ExecId)
    requires Named(s) && EnabledEnd(s, ev) && e in s.execs
    ensures NamedAt(AfterEnd(s, ev), e)
  {
    assert NamedAt(s, e);
    if !Holds(s, e) {
      EndNoRegain(s, ev, e);
    } else if ev.e != e {
      EndKeepsOthersNamed(s, ev, e);
    } else {
      EndKeepsOwnNamed(s, ev);
    }
  }

  lemma EndKeepsOthersNamed(s: State, ev: EndEvent, e: ExecId)
    requires e in s.execs && NamedAt(s, e) && Holds(s, e) && EnabledEnd(s, ev) && ev.e != e
    ensures NamedAt(AfterEnd(s, ev), e)
  {
    var s' := AfterEnd(s, ev);
    assert s'.execs[e] == s.execs[e] && s'.lost == s.lost;
    assert Registering(s, e) ==> Registering(s', e);
    assert Leasing(s, e) <==> Leasing(s', e);
  }

  lemma EndKeepsOwnNamed(s: State, ev: EndEvent)
    requires EnabledEnd(s, ev) && NamedAt(s, ev.e) && Holds(s, ev.e)
    ensures NamedAt(AfterEnd(s, ev), ev.e)
  {
    var s' := AfterEnd(s, ev);
    assert s'.lost == s.lost;
    assert InRegistry(s'.execs[ev.e].pc) ==> InRegistry(s.execs[ev.e].pc) && s'.registry == s.registry;
    assert InRenewer(s'.execs[ev.e].pc) ==> InRenewer(s.execs[ev.e].pc) && s'.leases == s.leases;
  }

  lemma EndKeepsTurn(s: State, ev: EndEvent, e: ExecId, f: ExecId)
    requires Turns(s) && EnabledEnd(s, ev)
    requires var s' := AfterEnd(s, ev);
             e in s'.execs && f in s'.execs && Rivals(s', e, f) && Entering(s'.execs[e].pc)
    ensures !Holds(AfterEnd(s, ev), f)
  {
    assert Rivals(s, e, f);
    EndNoRegain(s, ev, f);
  }

  lemma EndKeepsExclusive(s: State, ev: EndEvent)
    requires Exclusive(s) && EnabledEnd(s, ev)
    ensures Exclusive(AfterEnd(s, ev))
  {
    var s' := AfterEnd(s, ev);
    forall e, f | e in s'.execs && f in s'.execs && Rivals(s', e, f) && Entering(s'.execs[e].pc)
      ensures !Holds(s', f)
    {
      EndKeepsTurn(s, ev, e, f);
    }
    forall e | e in s'.execs ensures NamedAt(s', e) { EndKeepsNamed(s, ev, e); }
    EndKeepsLosses(s, ev);
  }

  lemma StaleKeepsExclusive(s: State, ev: StaleEvent)
    requires Exclusive(s) && EnabledStale(s, ev)
    ensures Exclusive(AfterStale(s, ev))
  {
    var s' := AfterStale(s, ev);
    forall e | e in s.execs && !Holds(s, e) ensures !Holds(s', e) { StaleNoRegain(s, ev, e); }
  }

  lemma EditKeepsExclusive(s: State, ev: EditEvent)
    requires Exclusive(s) && EnabledEdit(s, ev)
    ensures Exclusive(AfterEdit(s, ev))
  {
  }

  lemma ManualKeepsExclusive(s: State, ev: ManualEvent)
    requires Exclusive(s) && EnabledManual(s, ev)
    ensures Exclusive(AfterManual(s, ev))
  {
  }

  lemma LocalKeepsExclusive(s: State, ev: Event)
    requires Exclusive(s) && Enabled(s, ev)
    ensures Exclusive(Local(s, ev))
  {
    match ev
    case Env(x) => EnvKeepsExclusive(s, x);
    case Edit(x) => EditKeepsExclusive(s, x);
    case ByHand(x) => ManualKeepsExclusive(s, x);
    case Dispatch(x) => DispatchKeepsExclusive(s, x);
    case End(x) => EndKeepsExclusive(s, x);
    case Stale(x) => StaleKeepsExclusive(s, x);
  }

  /** None of it depends on the table. */
  lemma ExclusiveOver(s: State, db: Db)
    requires Exclusive(s)
    ensures Exclusive(s.(db := db))
  {
    var s' := s.(db := db);
    forall e | e in s'.execs ensures NamedAt(s', e) && LostOk(s', e) { assert NamedAt(s, e) && LostOk(s, e); }
    forall e, f | e in s'.execs && f in s'.execs && Rivals(s', e, f) && Entering(s'.execs[e].pc)
      ensures !Holds(s', f)
    {
      assert Rivals(s, e, f);
    }
  }

  lemma StepKeepsExclusive(s: State, ev: Event)
    requires Exclusive(s) && Enabled(s, ev)
    ensures Exclusive(Apply(s, ev))
  {
    LocalKeepsExclusive(s, ev);
    ExclusiveOver(Local(s, ev), Send(s, StmtOf(s, ev)));
  }

  // ---------------------------------------------------------------- recovery takes only what is abandoned

  /** A recovery names an execution that has claimed, and from its lock on that one has no lock. */
  ghost predicate RecOk(s: State, x: Rec, claims: map<ExecId, Claim>) {
    && (x.target.Some? ==> x.target.value in claims && claims[x.target.value].task == x.task)
    && (x.target.Some? && x.pc == RLocked && x.target.value in s.execs ==> !Holds(s, x.target.value))
  }

  ghost predicate RecsOk(s: State, claims: map<ExecId, Claim>) {
    forall r :: r in s.recs ==> RecOk(s, s.recs[r], claims)
  }

  /** The recoveries and what they wait for survive a step that gives nobody a lost lock back. */
  lemma RecsStay(s: State, s': State)
    requires RecsOk(s, s.db.claims)
    requires forall r :: r in s'.recs ==> r in s.recs && (s'.recs[r] == s.recs[r] || s'.recs[r] == s.recs[r].(pc := RDone))
    requires forall e :: e in s'.execs && e in s.db.claims ==> e in s.execs && (!Holds(s, e) ==> !Holds(s', e))
    ensures RecsOk(s', s.db.claims)
  {
  }

  lemma EnvKeepsRecs(s: State, ev: EnvEvent)
    requires RecsOk(s, s.db.claims) && EnabledEnv(s, ev)
    ensures RecsOk(AfterEnv(s, ev), s.db.claims)
  {
    forall e | e in s.execs && !Holds(s, e) ensures !Holds(AfterEnv(s, ev), e) { EnvNoRegain(s, ev, e); }
    RecsStay(s, AfterEnv(s, ev));
  }

  lemma DispatchKeepsRecs(s: State, ev: DispatchEvent)
    requires RecsOk(s, s.db.claims) && Parties(s, s.db.claims) && EnabledDispatch(s, ev)
    ensures RecsOk(AfterDispatch(s, ev), s.db.claims)
  {
    forall e | e in s.execs && e in s.db.claims && !Holds(s, e) ensures !Holds(AfterDispatch(s, ev), e) {
      assert ExecOk(e, s.execs[e], s.db.claims);
      DispatchNoRegain(s, ev, e);
    }
    RecsStay(s, AfterDispatch(s, ev));
  }

  lemma EndKeepsRecs(s: State, ev: EndEvent)
    requires RecsOk(s, s.db.claims) && EnabledEnd(s, ev)
    ensures RecsOk(AfterEnd(s, ev), s.db.claims)
  {
    forall e | e in s.execs && !Holds(s, e) ensures !Holds(AfterEnd(s, ev), e) { EndNoRegain(s, ev, e); }
    RecsStay(s, AfterEnd(s, ev));
  }

  lemma StaleKeepsRec(s: State, ev: StaleEvent, r: OpId)
    requires RecsOk(s, s.db.claims) && Fenced(s) && EnabledStale(s, ev)
    requires r in AfterStale(s, ev).recs
    ensures RecOk(AfterStale(s, ev), AfterStale(s, ev).recs[r], s.db.claims)
  {
    if r != ev.r || !ev.StaleScan? {
      assert RecOk(s, s.recs[r], s.db.claims);
      var e := s.recs[r].target;
      if e.Some? && e.value in s.execs {
        assert ExecOk(e.value, s.execs[e.value], s.db.claims);
        if !Holds(s, e.value) { StaleNoRegain(s, ev, e.value); }
      }
    } else {
      assert Frozen(ev.t, s.db.rows[ev.t], s.db.claims);
    }
  }

  lemma LocalKeepsRecs(s: State, ev: Event)
    requires RecsOk(s, s.db.claims) && Fenced(s) && Enabled(s, ev)
    ensures RecsOk(Local(s, ev), s.db.claims)
  {
    match ev
    case Env(x) => EnvKeepsRecs(s, x);
    case Edit(x) => RecsStay(s, AfterEdit(s, x));
    case ByHand(x) => RecsStay(s, AfterManual(s, x));
    case Dispatch(x) => DispatchKeepsRecs(s, x);
    case End(x) => EndKeepsRecs(s, x);
    case Stale(x) =>
      forall r | r in AfterStale(s, x).recs
        ensures RecOk(AfterStale(s, x), AfterStale(s, x).recs[r], s.db.claims)
      {
        StaleKeepsRec(s, x, r);
      }
  }

  /** Everything the lock protocol keeps. */
  ghost predicate Protected(s: State) {
    Fenced(s) && Exclusive(s) && RecsOk(s, s.db.claims)
  }

  lemma StepKeepsRecs(s: State, ev: Event)
    requires RecsOk(s, s.db.claims) && Fenced(s) && Enabled(s, ev)
    ensures RecsOk(Apply(s, ev), Apply(s, ev).db.claims)
  {
    LocalKeepsRecs(s, ev);
    var s' := Apply(s, ev);
    forall r | r in s'.recs ensures RecOk(s', s'.recs[r], s'.db.claims) {
      assert RecOk(Local(s, ev), Local(s, ev).recs[r], s.db.claims);
      if s'.recs[r].target.Some? { StepKeepsClaim(s, ev, s'.recs[r].target.value); }
    }
  }

  lemma StepKeepsProtected(s: State, ev: Event)
    requires Protected(s) && Enabled(s, ev)
    ensures Protected(Apply(s, ev))
  {
    StepKeepsFenced(s, ev);
    StepKeepsExclusive(s, ev);
    StepKeepsRecs(s, ev);
  }

  lemma {:induction false} RunKeepsProtected(s: State, evs: seq<Event>)
    requires Protected(s) && IsRun(s, evs)
    ensures Protected(After(s, evs))
    decreases |evs|
  {
    if evs != [] {
      StepKeepsProtected(s, evs[0]);
      RunKeepsProtected(Apply(s, evs[0]), evs[1..]);
    }
  }

  lemma ReachableProtected(evs: seq<Event>)
    requires IsRun(Init(), evs)
    ensures Protected(After(Init(), evs))
  {
    InitFenced();
    RunKeepsProtected(Init(), evs);
  }

  // ---------------------------------------------------------------- the theorems

  /**
   Mutual exclusion, in every reachable state: of two dispatches of one task at most one has the
   lock, whatever their nodes; and the one that has it is the one its node's registry names, and its
   renewer too exactly until a renewal of this very lease has failed. No cancel by a user changes that.
   */
  lemma MutualExclusion(evs: seq<Event>, e: ExecId, f: ExecId)
    requires IsRun(Init(), evs)
    requires var s := After(Init(), evs);
             e in s.execs && f in s.execs && s.execs[e].task == s.execs[f].task && Holds(s, e) && Holds(s, f)
    ensures e == f && NamedAt(After(Init(), evs), e)
  {
    ReachableProtected(evs);
  }

  /** The events that may end e's ownership of t while e has the lock. */
  predicate OwnEnd(ev: Event, t: TaskId, e: ExecId) {
    || (ev.End? && (ev.end.Complete? || ev.end.GiveBack?) && ev.end.e == e)
    || ev == Edit(Cancel(t))
  }

  lemma StatementLeavesOwner(db: Db, q: Stmt, sec: int, t: TaskId, e: ExecId)
    requires t in db.rows && WellFormed(db.rows[t]) && db.rows[t].exec == Some(e)
    requires q.ClaimQ? ==> q.expected != Running
    requires q.CompleteQ? && q.t == t ==> q.e != e
    requires q.RecoverQ? && q.t == t ==> q.target != Some(e)
    requires q.CancelQ? ==> q.t != t
    ensures t in Perform(db, q, sec).rows && Perform(db, q, sec).rows[t] == db.rows[t]
  {
  }

  lemma OthersCannotComplete(s: State, ev: Event, t: TaskId, e: ExecId)
    requires Protected(s) && Enabled(s, ev)
    requires e in s.execs && OwnerOf(s.db.rows, t) == Some(e) && Holds(s, e) && !OwnEnd(ev, t, e)
    ensures var q := StmtOf(s, ev);
            && (q.ClaimQ? ==> q.expected != Running)
            && (q.CompleteQ? && q.t == t ==> q.e != e)
            && (q.RecoverQ? && q.t == t ==> q.target != Some(e))
            && (q.CancelQ? ==> q.t != t)
  {
    StatementSound(s, ev);
    if ev.Stale? && ev.stale.Recover? { assert RecOk(s, s.recs[ev.stale.r], s.db.claims); }
  }

  /**
   Ownership: while e has the lock, its row leaves RUNNING only by e's own completion or a cancel;
   no recovery, edit, delete, enable, other claim or other completion changes any column of it.
   */
  lemma OwnershipKept(s: State, ev: Event, t: TaskId, e: ExecId)
    requires Protected(s) && Enabled(s, ev)
    requires e in s.execs && OwnerOf(s.db.rows, t) == Some(e) && Holds(s, e) && !OwnEnd(ev, t, e)
    ensures t in Apply(s, ev).db.rows && Apply(s, ev).db.rows[t] == s.db.rows[t]
  {
    OthersCannotComplete(s, ev, t, e);
    StatementLeavesOwner(s.db, StmtOf(s, ev), Sec(s.now), t, e);
  }

  /** e has the lock all along the run, and neither ends by itself nor is canceled. */
  ghost predicate Undisturbed(s: State, evs: seq<Event>, t: TaskId, e: ExecId)
    requires IsRun(s, evs)
    decreases |evs|
  {
    evs == [] ||
    (e in s.execs && Holds(s, e) && !OwnEnd(evs[0], t, e) && Undisturbed(Apply(s, evs[0]), evs[1..], t, e))
  }

  lemma {:induction false} OwnershipOverRun(s: State, evs: seq<Event>, t: TaskId, e: ExecId)
    requires Protected(s) && IsRun(s, evs) && Undisturbed(s, evs, t, e)
    requires OwnerOf(s.db.rows, t) == Some(e)
    ensures t in After(s, evs).db.rows && After(s, evs).db.rows[t] == s.db.rows[t]
    decreases |evs|
  {
    if evs != [] {
      StepKeepsProtected(s, evs[0]);
      OwnershipKept(s, evs[0], t, e);
      OwnershipOverRun(Apply(s, evs[0]), evs[1..], t, e);
    }
  }
}
