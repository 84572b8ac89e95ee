/**
 What can always happen, and what cannot happen early: scans take exactly the due and the stale rows,
 no recovery touches a young execution, every dispatch can be brought to its end, and no row stays
 RUNNING for good.
 */
module Progress {
  import opened Tasks
  import opened Leases
  import opened Protocol
  import opened Fencing
  import opened Slots
  import opened Offers
  import opened Rearming

  // ---------------------------------------------------------------- scans

  /** A scan takes exactly the scheduled rows whose second has come, on a node that is not stopping. */
  lemma DueExactly(s: State, e: ExecId, n: Node, t: TaskId)
    ensures EnabledDispatch(s, Scan(e, n, t)) <==>
            && e !in s.execs && e !in s.manuals && n !in s.down && t in s.db.rows && s.db.rows[t].status == Scheduled
            && (s.db.rows[t].next.Some? ==> s.db.rows[t].next.value <= s.now / 1000)
  {
  }

  /** A recovery takes exactly the running rows that started two lock lifetimes ago or earlier. */
  lemma StaleExactly(s: State, r: OpId, n: Node, t: TaskId)
    ensures EnabledStale(s, StaleScan(r, n, t)) <==>
            && r !in s.recs && t in s.db.rows && s.db.rows[t].status == Running
            && s.db.rows[t].started.Some? && s.db.rows[t].started.value + 2 * 60 <= s.now / 1000
  {
  }

  // ---------------------------------------------------------------- recovery comes late

  /** The execution a recovery is about was claimed at least two lock lifetimes ago. */
  ghost predicate Old(x: Rec, claims: map<ExecId, Claim>, now: nat) {
    x.target.Some? ==> x.target.value in claims && claims[x.target.value].at + 2 * 60 <= now / 1000
  }

  ghost predicate RecsOld(recs: map<OpId, Rec>, claims: map<ExecId, Claim>, now: nat) {
    forall r :: r in recs ==> Old(recs[r], claims, now)
  }

  lemma StaleKeepsOld(s: State, ev: StaleEvent)
    requires Fenced(s) && RecsOld(s.recs, s.db.claims, s.now) && EnabledStale(s, ev)
    ensures RecsOld(AfterStale(s, ev).recs, s.db.claims, s.now)
  {
    if ev.StaleScan? {
      StaleExactly(s, ev.r, ev.n, ev.t);
      assert Frozen(ev.t, s.db.rows[ev.t], s.db.claims);
    } else {
      assert Old(s.recs[ev.r], s.db.claims, s.now);
    }
  }

  lemma EnvKeepsOld(s: State, ev: EnvEvent)
    requires RecsOld(s.recs, s.db.claims, s.now) && EnabledEnv(s, ev)
    ensures RecsOld(AfterEnv(s, ev).recs, s.db.claims, AfterEnv(s, ev).now)
  {
    forall r | r in AfterEnv(s, ev).recs ensures Old(AfterEnv(s, ev).recs[r], s.db.claims, AfterEnv(s, ev).now) {
      assert Old(s.recs[r], s.db.claims, s.now);
      assert AfterEnv(s, ev).now / 1000 >= s.now / 1000;
    }
  }

  /** Recoveries and the clock stay as they are. */
  predicate SameRecs(s: State, s': State) {
    s'.recs == s.recs && s'.now == s.now
  }

  lemma EditSameRecs(s: State, ev: EditEvent)
    requires EnabledEdit(s, ev)
    ensures SameRecs(s, AfterEdit(s, ev))
  {
  }

  lemma ManualSameRecs(s: State, ev: ManualEvent)
    requires EnabledManual(s, ev)
    ensures SameRecs(s, AfterManual(s, ev))
  {
  }

  lemma DispatchSameRecs(s: State, ev: DispatchEvent)
    requires EnabledDispatch(s, ev)
    ensures SameRecs(s, AfterDispatch(s, ev))
  {
  }

  lemma EndSameRecs(s: State, ev: EndEvent)
    requires EnabledEnd(s, ev)
    ensures SameRecs(s, AfterEnd(s, ev))
  {
  }

  lemma LocalKeepsOld(s: State, ev: Event)
    requires Fenced(s) && RecsOld(s.recs, s.db.claims, s.now) && Enabled(s, ev)
    ensures RecsOld(Local(s, ev).recs, s.db.claims, Local(s, ev).now)
  {
    match ev
    case Env(x) => EnvKeepsOld(s, x);
    case Edit(x) => EditSameRecs(s, x);
    case ByHand(x) => ManualSameRecs(s, x);
    case Dispatch(x) => DispatchSameRecs(s, x);
    case End(x) => EndSameRecs(s, x);
    case Stale(x) => StaleKeepsOld(s, x);
  }

  lemma StepKeepsOld(s: State, ev: Event)
    requires Fenced(s) && RecsOld(s.recs, s.db.claims, s.now) && Enabled(s, ev)
    ensures var s' := Apply(s, ev); RecsOld(s'.recs, s'.db.claims, s'.now)
  {
    var s' := Apply(s, ev);
    LocalKeepsOld(s, ev);
    forall r | r in s'.recs ensures Old(s'.recs[r], s'.db.claims, s'.now) {
      assert Old(Local(s, ev).recs[r], s.db.claims, Local(s, ev).now);
      if s'.recs[r].target.Some? { StepKeepsClaim(s, ev, s'.recs[r].target.value); }
    }
  }

  lemma {:induction false} RunKeepsOld(s: State, evs: seq<Event>)
    requires Fenced(s) && RecsOld(s.recs, s.db.claims, s.now) && IsRun(s, evs)
    ensures var s' := After(s, evs); Fenced(s') && RecsOld(s'.recs, s'.db.claims, s'.now)
    decreases |evs|
  {
    if evs != [] {
      StepKeepsFenced(s, evs[0]);
      StepKeepsOld(s, evs[0]);
      RunKeepsOld(Apply(s, evs[0]), evs[1..]);
    }
  }

  /** In every reachable state, a recovery that the table accepts ends a claim at least 120 seconds old. */
  lemma RecoveryIsLate(evs: seq<Event>, r: OpId, reply: Reply)
    requires IsRun(Init(), evs)
    requires var s := After(Init(), evs);
             EnabledStale(s, Recover(r, reply)) && Matches(s.db.rows, StaleStmt(s, Recover(r, reply)), Sec(s.now))
    ensures var s := After(Init(), evs); var e := s.recs[r].target;
            e.Some? && e.value in s.db.claims && s.db.claims[e.value].at + 120 <= s.now / 1000
  {
    var s := After(Init(), evs);
    InitFenced();
    RunKeepsOld(Init(), evs);
    assert Old(s.recs[r], s.db.claims, s.now) && WellFormed(s.db.rows[s.recs[r].task]);
  }

  // ---------------------------------------------------------------- every dispatch can end

  /** How many steps of its own a dispatch has left at most. */
  function StepsLeft(pc: Pc): nat {
    match pc
    case Scanned => 1
    case Locked => 12
    case Leased => 11
    case Registered => 10
    case Claimed => 9
    case Queued => 8
    case Finished(_, _) => 7
    case Recorded(_, _) => 6
    case Decided(_, _, _, _, _) => 5
    case DropReg(_) => 4
    case DropLease(_) => 3
    case Restore => 2
    case DropLock => 1
    case Done => 0
    case Dead => 0
  }

  lemma DispatchOnce(s0: State, evs0: seq<Event>, s: State, e: ExecId, k: Excuse)
    returns (evs: seq<Event>, s': State)
    requires Leads(s0, evs0, s, k) && e in s.execs && (Dispatching(s.execs[e].pc) || s.execs[e].pc.Scanned?)
    ensures Leads(s0, evs, s', k) && e in s'.execs && StepsLeft(s'.execs[e].pc) < StepsLeft(s.execs[e].pc)
    ensures s'.execs[e].pc != Dead
  {
    DispatchGoesOn(s, e);
    evs, s' := PushDispatch(s0, evs0, s, NextDispatch(s, e), k);
  }

  lemma EndOnce(s0: State, evs0: seq<Event>, s: State, e: ExecId, k: Excuse)
    returns (evs: seq<Event>, s': State)
    requires Leads(s0, evs0, s, k) && e in s.execs && !Dispatching(s.execs[e].pc) && !s.execs[e].pc.Scanned?
    requires !Ended(s.execs[e].pc)
    ensures Leads(s0, evs, s', k) && e in s'.execs && StepsLeft(s'.execs[e].pc) < StepsLeft(s.execs[e].pc)
    ensures s'.execs[e].pc != Dead
  {
    EndGoesOn(s, e);
    evs, s' := PushEnd(s0, evs0, s, NextEnd(s.execs[e].pc, e), k);
  }

  function NextEnd(pc: Pc, e: ExecId): EndEvent {
    match pc
    case Queued => Finish(e, true)
    case Finished(_, _) => AddHistory(e, Ack)
    case Recorded(_, _) => Decide(e, None)
    case Decided(_, _, _, _, _) => Complete(e, Ack)
    case DropReg(_) => Unregister(e)
    case DropLease(_) => RemoveLease(e)
    case Restore => GiveBack(e, Ack)
    case _ => Unlock(e, Ack)
  }

  lemma EndGoesOn(s: State, e: ExecId)
    requires e in s.execs && !Dispatching(s.execs[e].pc) && !s.execs[e].pc.Scanned? && !Ended(s.execs[e].pc)
    ensures var ev := NextEnd(s.execs[e].pc, e);
            ev.e == e && EnabledEnd(s, ev) && EndPc(s, ev) != Dead && StepsLeft(EndPc(s, ev)) < StepsLeft(s.execs[e].pc)
  {
  }

  function NextDispatch(s: State, e: ExecId): DispatchEvent
    requires e in s.execs
  {
    match s.execs[e].pc
    case Scanned => GiveUp(e)
    case Locked => AddLease(e)
    case Leased => Register(e)
    case Registered => ClaimTask(e, Ack)
    case _ => if e in s.canceled then SkipCanceled(e) else Enqueue(e, true)
  }

  lemma DispatchGoesOn(s: State, e: ExecId)
    requires e in s.execs && (Dispatching(s.execs[e].pc) || s.execs[e].pc.Scanned?)
    ensures var ev := NextDispatch(s, e);
            && ev.e == e && !ev.Scan? && EnabledDispatch(s, ev) && DispatchPc(s, ev) != Dead
            && StepsLeft(DispatchPc(s, ev)) < StepsLeft(s.execs[e].pc)
  {
  }

  /** Wherever a dispatch stands, its own steps bring it to its end, with no help and no fault. */
  lemma {:induction false} DispatchCanEnd(s0: State, evs0: seq<Event>, s: State, e: ExecId, k: Excuse)
    returns (evs: seq<Event>, s': State)
    requires Leads(s0, evs0, s, k) && e in s.execs && s.execs[e].pc != Dead
    ensures Leads(s0, evs, s', k) && At(s', e, Done)
    decreases StepsLeft(s.execs[e].pc)
  {
    evs, s' := evs0, s;
    if s.execs[e].pc != Done {
      var s1: State;
      if Dispatching(s.execs[e].pc) || s.execs[e].pc.Scanned? {
        evs, s1 := DispatchOnce(s0, evs0, s, e, k);
      } else {
        evs, s1 := EndOnce(s0, evs0, s, e, k);
      }
      evs, s' := DispatchCanEnd(s0, evs, s1, e, k);
    }
  }

  /** So from every reachable state every dispatch that no crash has stopped can end, by calm steps. */
  lemma EveryDispatchCanEnd(before: seq<Event>, e: ExecId) returns (evs: seq<Event>)
    requires IsRun(Init(), before)
    requires var s := After(Init(), before); e in s.execs && s.execs[e].pc != Dead
    ensures var s := After(Init(), before); IsRun(s, evs) && CalmRun(s, evs) && At(After(s, evs), e, Done)
  {
    var s, s' := After(Init(), before), Init();
    evs, s' := DispatchCanEnd(s, [], s, e, Nothing);
  }

  /** A recovery under lock goes on to unlock, whatever the table answers. */
  lemma RecoveryCanEnd(s0: State, evs0: seq<Event>, s: State, r: OpId)
    returns (evs: seq<Event>, s': State)
    requires Leads(s0, evs0, s, DisabledRecovery) && r in s.recs && (s.recs[r].pc == RLocked || s.recs[r].pc == RUnlock)
    ensures Leads(s0, evs, s', DisabledRecovery) && r in s'.recs && s'.recs[r] == s.recs[r].(pc := RDone)
    ensures !Held(s'.locks, s.recs[r].task, Recovery(s.recs[r].node, s.recs[r].target), s'.now)
  {
    evs, s' := evs0, s;
    if s.recs[r].pc == RLocked {
      evs, s' := PushStale(s0, evs0, s, Recover(r, Ack), DisabledRecovery);
      assert s'.recs[r] == s.recs[r].(pc := RUnlock);
    }
    evs, s' := UnlockRecovery(s0, evs, s', r);
  }

  lemma UnlockRecovery(s0: State, evs0: seq<Event>, s: State, r: OpId)
    returns (evs: seq<Event>, s': State)
    requires Leads(s0, evs0, s, DisabledRecovery) && r in s.recs && s.recs[r].pc == RUnlock
    ensures Leads(s0, evs, s', DisabledRecovery) && r in s'.recs && s'.recs[r] == s.recs[r].(pc := RDone)
    ensures !Held(s'.locks, s.recs[r].task, Recovery(s.recs[r].node, s.recs[r].target), s'.now)
  {
    evs, s' := PushStale(s0, evs0, s, RecUnlock(r, Ack), DisabledRecovery);
  }

  /** A node stops and, once its dispatches have ended, starts again. */
  lemma StopAndStart(s: State, n: Node)
    ensures AfterEnv(s, Stop(n)).down == s.down + {n}
    ensures EnabledEnv(s, Start(n)) <==> forall e :: e in s.execs && s.execs[e].node == n ==> s.execs[e].pc == Done || s.execs[e].pc == Dead
    ensures EnabledEnv(s, Start(n)) ==> AfterEnv(s, Start(n)).down == s.down - {n}
  {
  }

  // ---------------------------------------------------------------- no row stays RUNNING

  /**
   From every reachable state every RUNNING row can become SCHEDULED with all its other columns as they
   are, whatever has become of its owner.
   */
  lemma NoRowIsStuck(before: seq<Event>, t: TaskId, r: OpId, n: Node) returns (evs: seq<Event>)
    requires IsRun(Init(), before)
    requires var s := After(Init(), before);
             t in s.db.rows && s.db.rows[t].status == Running && r !in s.recs
    ensures var s := After(Init(), before); var row := s.db.rows[t];
            && IsRun(s, evs)
            && After(s, evs).db.rows == s.db.rows[t := Row(row.def, Scheduled, row.next, row.last, row.retry, None, None, None)]
  {
    var s, s' := After(Init(), before), Init();
    InitSlots();
    RunKeepsBased(Init(), before);
    assert WellFormed(s.db.rows[t]) && Frozen(t, s.db.rows[t], s.db.claims);
    evs, s' := RecoverRun(s, [], s, t, r, n, DisabledRecovery);
  }

  // ---------------------------------------------------------------- a refused claim

  /** On the way out without a claim. */
  predicate Leaving(pc: Pc) {
    pc == DropReg(false) || pc == DropLease(false) || pc == DropLock || pc == Done || pc == Dead
  }

  lemma EnvKeepsLeaving(s: State, ev: EnvEvent, e: ExecId)
    requires EnabledEnv(s, ev) && e in s.execs && Leaving(s.execs[e].pc)
    ensures e in AfterEnv(s, ev).execs && Leaving(AfterEnv(s, ev).execs[e].pc)
  {
  }

  lemma DispatchKeepsLeaving(s: State, ev: DispatchEvent, e: ExecId)
    requires EnabledDispatch(s, ev) && e in s.execs && Leaving(s.execs[e].pc)
    ensures e in AfterDispatch(s, ev).execs && Leaving(AfterDispatch(s, ev).execs[e].pc)
    ensures DispatchStmt(s, ev).ClaimQ? ==> DispatchStmt(s, ev).e != e
  {
  }

  lemma EndKeepsLeaving(s: State, ev: EndEvent, e: ExecId)
    requires EnabledEnd(s, ev) && e in s.execs && Leaving(s.execs[e].pc)
    ensures e in AfterEnd(s, ev).execs && Leaving(AfterEnd(s, ev).execs[e].pc)
    ensures EndStmt(s, ev).CompleteQ? ==> EndStmt(s, ev).e != e
  {
  }

  lemma LocalKeepsLeaving(s: State, ev: Event, e: ExecId)
    requires Enabled(s, ev) && e in s.execs && Leaving(s.execs[e].pc)
    ensures e in Local(s, ev).execs && Leaving(Local(s, ev).execs[e].pc)
  {
    match ev
    case Env(x) => EnvKeepsLeaving(s, x, e);
    case Edit(x) =>
    case ByHand(x) =>
    case Dispatch(x) => DispatchKeepsLeaving(s, x, e);
    case End(x) => EndKeepsLeaving(s, x, e);
    case Stale(x) =>
  }

  lemma {:induction false} RunKeepsLeaving(s: State, evs: seq<Event>, e: ExecId)
    requires IsRun(s, evs) && e in s.execs && Leaving(s.execs[e].pc)
    ensures e in After(s, evs).execs && Leaving(After(s, evs).execs[e].pc)
    decreases |evs|
  {
    if evs != [] {
      LocalKeepsLeaving(s, evs[0], e);
      RunKeepsLeaving(Apply(s, evs[0]), evs[1..], e);
    }
  }

  /**
   A dispatch whose claim was refused, or whose claim got no answer, claims and completes nothing ever
   after: over any run it is only on its way out.
   */
  lemma RefusedIsOut(s: State, e: ExecId, reply: Reply, evs: seq<Event>)
    requires EnabledDispatch(s, ClaimTask(e, reply))
    requires reply != Ack || !Matches(s.db.rows, DispatchStmt(s, ClaimTask(e, reply)), Sec(s.now))
    requires IsRun(Apply(s, Dispatch(ClaimTask(e, reply))), evs)
    ensures var s' := After(Apply(s, Dispatch(ClaimTask(e, reply))), evs); e in s'.execs && Leaving(s'.execs[e].pc)
  {
    var s1 := Apply(s, Dispatch(ClaimTask(e, reply)));
    assert e in s1.execs && s1.execs[e].pc == DropReg(false);
    RunKeepsLeaving(s1, evs, e);
  }
}
