/**
 Exactly when claims see what was scanned. From any reachable state in which an unclaimed scan's slot
 is offered with other work, ordinary scheduling makes a claim succeed on a task the scan never saw;
 and each of the four kinds of step that are not calm leads, from the empty system, to such a claim.
 */
module Sighting {
  import opened Tasks
  import opened Leases
  import opened Protocol
  import opened Fencing
  import opened Slots
  import opened Offers
  import opened Rearming

  /** Execution e is about to claim a task that is not the one it scanned. */
  predicate Misled(s: State, e: ExecId) {
    Claims(s, e) && !SameWork(s.db.rows[s.execs[e].task], s.execs[e].snap)
  }

  /** In every calm continuation of s, claims see what was scanned. */
  ghost predicate StaysTrue(s: State) {
    forall evs, e :: IsRun(s, evs) && CalmRun(s, evs) ==> !Misled(After(s, evs), e)
  }

  // ---------------------------------------------------------------- one dispatch per node

  predicate BothBusy(x: Exec, y: Exec) {
    x.node == y.node && Dispatching(x.pc) && Dispatching(y.pc)
  }

  ghost predicate OneTurn(execs: Execs) {
    forall e, f :: e in execs && f in execs && BothBusy(execs[e], execs[f]) ==> e == f
  }

  lemma DispatchKeepsTurn(s: State, ev: DispatchEvent)
    requires OneTurn(s.execs) && EnabledDispatch(s, ev)
    ensures OneTurn(AfterDispatch(s, ev).execs)
  {
  }

  lemma EndKeepsTurn(s: State, ev: EndEvent)
    requires OneTurn(s.execs) && EnabledEnd(s, ev)
    ensures OneTurn(AfterEnd(s, ev).execs)
  {
    assert AfterEnd(s, ev).execs == s.execs[ev.e := s.execs[ev.e].(pc := EndPc(s, ev))];
  }

  lemma EnvKeepsTurn(s: State, ev: EnvEvent)
    requires OneTurn(s.execs) && EnabledEnv(s, ev)
    ensures OneTurn(AfterEnv(s, ev).execs)
  {
  }

  lemma StepKeepsTurn(s: State, ev: Event)
    requires OneTurn(s.execs) && Enabled(s, ev)
    ensures OneTurn(Apply(s, ev).execs)
  {
    match ev
    case Env(x) => EnvKeepsTurn(s, x);
    case Dispatch(x) => DispatchKeepsTurn(s, x);
    case End(x) => EndKeepsTurn(s, x);
    case _ =>
  }

  lemma {:induction false} RunKeepsTurn(s: State, evs: seq<Event>)
    requires OneTurn(s.execs) && IsRun(s, evs)
    ensures OneTurn(After(s, evs).execs)
    decreases |evs|
  {
    if evs != [] {
      StepKeepsTurn(s, evs[0]);
      RunKeepsTurn(Apply(s, evs[0]), evs[1..]);
    }
  }

  // ---------------------------------------------------------------- from a scan to its claim

  /** Only execution g has moved, and nothing in the table or Redis. */
  ghost predicate OnlyMoved(s: State, s': State, g: ExecId) {
    && s'.db == s.db && s'.now == s.now && s'.locks == s.locks
    && g in s.execs && s'.execs.Keys == s.execs.Keys
    && s'.execs[g] == s.execs[g].(pc := s'.execs[g].pc)
    && forall f :: f in s.execs && f != g ==> s'.execs[f] == s.execs[f]
  }

  /** The dispatch g on its node goes one step on, or its claim gets lost on the way. */
  lemma MoveOn(s0: State, evs0: seq<Event>, s: State, g: ExecId, k: Excuse)
    returns (evs: seq<Event>, s': State)
    requires Leads(s0, evs0, s, k) && g in s.execs && Dispatching(s.execs[g].pc)
    ensures Leads(s0, evs, s', k) && OnlyMoved(s, s', g)
    ensures match s.execs[g].pc
            case Locked => s'.execs[g].pc == Leased
            case Leased => s'.execs[g].pc == Registered
            case _ => !Dispatching(s'.execs[g].pc)
  {
    var ev := match s.execs[g].pc
      case Locked => AddLease(g)
      case Leased => Register(g)
      case Registered => ClaimTask(g, LostSkipped)
      case _ => if g in s.canceled then SkipCanceled(g) else Enqueue(g, true);
    evs, s' := PushDispatch(s0, evs0, s, ev, k);
  }

  lemma StillMoved(s: State, s1: State, s2: State, g: ExecId)
    requires OnlyMoved(s, s1, g) && OnlyMoved(s1, s2, g)
    ensures OnlyMoved(s, s2, g)
  {
  }

  lemma FreeFrom(s0: State, evs0: seq<Event>, s: State, g: ExecId, k: Excuse)
    returns (evs: seq<Event>, s': State)
    requires Leads(s0, evs0, s, k) && g in s.execs && Dispatching(s.execs[g].pc)
    ensures Leads(s0, evs, s', k) && OnlyMoved(s, s', g) && !Dispatching(s'.execs[g].pc)
    decreases match s.execs[g].pc case Locked => 2 case Leased => 1 case _ => 0
  {
    evs, s' := MoveOn(s0, evs0, s, g, k);
    if Dispatching(s'.execs[g].pc) {
      var s1 := s';
      evs, s' := FreeFrom(s0, evs, s1, g, k);
      StillMoved(s, s1, s', g);
    }
  }

  /** Whatever node n is doing, it can get free without touching table, Redis or other dispatches. */
  lemma FreeRun(s0: State, evs0: seq<Event>, s: State, f: ExecId, k: Excuse)
    returns (evs: seq<Event>, s': State)
    requires Leads(s0, evs0, s, k) && OneTurn(s.execs) && At(s, f, Scanned)
    ensures Leads(s0, evs, s', k) && s'.db == s.db && s'.now == s.now && s'.locks == s.locks
    ensures At(s', f, Scanned) && s'.execs[f] == s.execs[f] && !Busy(s', s.execs[f].node)
  {
    var n := s.execs[f].node;
    evs, s' := evs0, s;
    if Busy(s, n) {
      var g :| g in s.execs && s.execs[g].node == n && Dispatching(s.execs[g].pc);
      evs, s' := FreeFrom(s0, evs0, s, g, k);
      forall h | h in s'.execs && s'.execs[h].node == n ensures !Dispatching(s'.execs[h].pc) {
        assert h != g ==> s'.execs[h] == s.execs[h] && !BothBusy(s.execs[h], s.execs[g]);
      }
    }
  }

  /** An unclaimed scan whose slot the row carries. */
  ghost predicate Fresh(s: State, f: ExecId) {
    && f in s.execs && BeforeClaim(s.execs[f].pc)
    && s.execs[f].snap.next.Some? && s.execs[f].snap.next.value <= Sec(s.now)
    && s.execs[f].task in s.db.rows && s.db.rows[s.execs[f].task].status == Scheduled
    && s.db.rows[s.execs[f].task].next == s.execs[f].snap.next
  }

  /** A scan that has its lock goes on to its claim. */
  lemma ClaimFromLock(s0: State, evs0: seq<Event>, s: State, f: ExecId, k: Excuse)
    returns (evs: seq<Event>, s': State)
    requires Leads(s0, evs0, s, k) && Fresh(s, f) && !s.execs[f].pc.Scanned?
    ensures Leads(s0, evs, s', k) && Claims(s', f) && s'.db == s.db
    ensures s'.execs[f].task == s.execs[f].task && s'.execs[f].snap == s.execs[f].snap
  {
    evs, s' := evs0, s;
    if s'.execs[f].pc == Locked { evs, s' := MoveOn(s0, evs, s', f, k); }
    if s'.execs[f].pc == Leased { evs, s' := MoveOn(s0, evs, s', f, k); }
  }

  lemma LockScan(s0: State, evs0: seq<Event>, s: State, f: ExecId, k: Excuse)
    returns (evs: seq<Event>, s': State)
    requires Leads(s0, evs0, s, k) && Fresh(s, f) && At(s, f, Scanned) && !Busy(s, s.execs[f].node)
    ensures Leads(s0, evs, s', k) && Fresh(s', f) && s'.db == s.db && s'.execs[f] == s.execs[f].(pc := Locked)
  {
    var s1: State;
    evs, s1 := PushTick(s0, evs0, s, Expiry(s, s.execs[f].task), k);
    assert Sec(s1.now) >= Sec(s.now) && !Busy(s1, s.execs[f].node);
    evs, s' := PushDispatch(s0, evs, s1, LockKey(f, Ack), k);
  }

  /** Every unclaimed scan whose slot the row carries can come to its claim. */
  lemma ClaimScan(s0: State, evs0: seq<Event>, s: State, f: ExecId, k: Excuse)
    returns (evs: seq<Event>, s': State)
    requires Leads(s0, evs0, s, k) && OneTurn(s.execs) && Fresh(s, f)
    ensures Leads(s0, evs, s', k) && Claims(s', f) && s'.db == s.db
    ensures s'.execs[f].task == s.execs[f].task && s'.execs[f].snap == s.execs[f].snap
  {
    evs, s' := evs0, s;
    if s.execs[f].pc.Scanned? {
      var s1, s2: State;
      evs, s1 := FreeRun(s0, evs, s, f, k);
      evs, s2 := LockScan(s0, evs, s1, f, k);
      s' := s2;
    }
    evs, s' := ClaimFromLock(s0, evs, s', f, k);
  }

  // ---------------------------------------------------------------- an execution gives its row back

  /** Execution e owns the row of its task. */
  predicate Owns(s: State, e: ExecId) {
    e in s.execs && s.execs[e].task in s.db.rows && CanComplete(s.db.rows[s.execs[e].task], e)
  }

  /** The row is scheduled again, with the slot and the retry count that e scanned. */
  ghost predicate GivenBack(s: State, s': State, e: ExecId) {
    && e in s.execs && s'.now >= s.now
    && (forall f :: f in s.execs && f != e ==> f in s'.execs && s'.execs[f] == s.execs[f])
    && var x := s.execs[e];
       && x.task in s.db.rows && x.task in s'.db.rows
       && s'.db.rows[x.task].status == Scheduled && s'.db.rows[x.task].def == s.db.rows[x.task].def
       && s'.db.rows[x.task].next == x.snap.next && s'.db.rows[x.task].retry == x.snap.retry
  }

  lemma RestoreBack(s0: State, evs0: seq<Event>, s: State, e: ExecId, k: Excuse)
    returns (evs: seq<Event>, s': State)
    requires Leads(s0, evs0, s, k) && Owns(s, e)
    requires s.execs[e].pc == DropReg(true) || s.execs[e].pc == DropLease(true) || s.execs[e].pc == Restore
    ensures Leads(s0, evs, s', k) && GivenBack(s, s', e)
  {
    var s1 := s;
    evs := evs0;
    if s1.execs[e].pc == DropReg(true) { evs, s1 := PushEnd(s0, evs, s1, Unregister(e), k); }
    if s1.execs[e].pc == DropLease(true) { evs, s1 := PushEnd(s0, evs, s1, RemoveLease(e), k); }
    assert s1.db == s.db && s1.execs == s.execs[e := s.execs[e].(pc := Restore)];
    evs, s' := RestoreNow(s0, evs, s1, e, k);
  }

  lemma RestoreNow(s0: State, evs0: seq<Event>, s: State, e: ExecId, k: Excuse)
    returns (evs: seq<Event>, s': State)
    requires Leads(s0, evs0, s, k) && Owns(s, e) && s.execs[e].pc == Restore
    ensures Leads(s0, evs, s', k) && GivenBack(s, s', e)
  {
    evs, s' := PushEnd(s0, evs0, s, GiveBack(e, Ack), k);
  }

  lemma CompleteBack(s0: State, evs0: seq<Event>, s: State, e: ExecId, k: Excuse)
    returns (evs: seq<Event>, s': State)
    requires Leads(s0, evs0, s, k) && Owns(s, e)
    requires s.execs[e].pc.Decided? && Restores(s.execs[e].pc.u, s.execs[e].snap)
    ensures Leads(s0, evs, s', k) && GivenBack(s, s', e)
  {
    evs, s' := PushEnd(s0, evs0, s, Complete(e, Ack), k);
  }

  lemma PushStop(s0: State, evs: seq<Event>, s: State, n: Node, k: Excuse)
    returns (evs': seq<Event>, s': State)
    requires Leads(s0, evs, s, k)
    ensures Leads(s0, evs', s', k) && s' == s.(down := s.down + {n})
  {
    Extend(s0, evs, s, Env(Stop(n)), k);
    evs', s' := evs + [Env(Stop(n))], Apply(s, Env(Stop(n)));
  }

  /** A node that shuts down decides to leave the slot as it was. */
  lemma DecideBack(s0: State, evs0: seq<Event>, s: State, e: ExecId, k: Excuse)
    returns (evs: seq<Event>, s': State)
    requires Leads(s0, evs0, s, k) && Owns(s, e) && s.execs[e].pc.Recorded?
    ensures Leads(s0, evs, s', k) && GivenBack(s, s', e)
  {
    var s1, s2: State;
    evs, s1 := PushStop(s0, evs0, s, s.execs[e].node, k);
    evs, s2 := PushEnd(s0, evs, s1, Decide(e, None), k);
    assert s2.db == s.db;
    evs, s' := CompleteBack(s0, evs, s2, e, k);
  }

  lemma ExecuteBack(s0: State, evs0: seq<Event>, s: State, e: ExecId, k: Excuse)
    returns (evs: seq<Event>, s': State)
    requires Leads(s0, evs0, s, k) && Owns(s, e)
    requires s.execs[e].pc.Queued? || s.execs[e].pc.Finished? || s.execs[e].pc.Recorded?
    ensures Leads(s0, evs, s', k) && GivenBack(s, s', e)
  {
    var s1 := s;
    evs := evs0;
    if s1.execs[e].pc.Queued? { evs, s1 := PushEnd(s0, evs, s1, Finish(e, true), k); }
    if s1.execs[e].pc.Finished? { evs, s1 := PushEnd(s0, evs, s1, AddHistory(e, Ack), k); }
    assert s1.db == s.db;
    evs, s' := DecideBack(s0, evs, s1, e, k);
  }

  /** An owner that can give its row back can be made to. */
  lemma GiveBackRun(s0: State, evs0: seq<Event>, s: State, e: ExecId, k: Excuse)
    returns (evs: seq<Event>, s': State)
    requires Leads(s0, evs0, s, k) && Owns(s, e) && CanGiveBack(s.execs[e].pc)
    requires s.execs[e].pc.Decided? ==> Restores(s.execs[e].pc.u, s.execs[e].snap)
    ensures Leads(s0, evs, s', k) && GivenBack(s, s', e)
  {
    var pc := s.execs[e].pc;
    if pc.Claimed? {
      var s1: State;
      evs, s1 := PushDispatch(s0, evs0, s, if e in s.canceled then SkipCanceled(e) else Enqueue(e, false), k);
      assert s1.db == s.db;
      evs, s' := RestoreBack(s0, evs, s1, e, k);
    } else if pc.Decided? {
      evs, s' := CompleteBack(s0, evs0, s, e, k);
    } else if pc.Queued? || pc.Finished? || pc.Recorded? {
      evs, s' := ExecuteBack(s0, evs0, s, e, k);
    } else {
      evs, s' := RestoreBack(s0, evs0, s, e, k);
    }
  }

  // ---------------------------------------------------------------- exactly when claims see what was scanned

  /** From a scan whose slot is offered with other work to a scheduled row with that slot and other work. */
  lemma ArmOtherWork(s: State, f: ExecId, n: Node, r: OpId) returns (evs: seq<Event>, s': State)
    requires Based(s) && f in s.execs && !SightOk(s.execs, s.manuals, s.db, s.execs[f]) && r !in s.recs
    ensures Leads(s, evs, s', Nothing) && Fresh(s', f)
    ensures s'.execs[f] == s.execs[f] && !SameWork(s'.db.rows[s.execs[f].task], s.execs[f].snap)
  {
    var x, t := s.execs[f], s.execs[f].task;
    assert SnapPast(s.db, x, Sec(s.now));
    assert WellFormed(s.db.rows[t]) && Frozen(t, s.db.rows[t], s.db.claims);
    evs, s' := [], s;
    if Armed(s.db, t) && s.db.rows[t].next == x.snap.next && !SameWork(s.db.rows[t], x.snap) {
      if s.db.rows[t].status == Running {
        evs, s' := RecoverRun(s, [], s, t, r, n, Nothing);
      }
    } else if WritesBack(s.manuals, s.db.rows, t) && s.manuals[s.db.rows[t].exec.value].read.next == x.snap.next
              && !(s.db.rows[t].def == x.snap.def && s.manuals[s.db.rows[t].exec.value].read.retry == x.snap.retry) {
      evs, s' := ArmByManual(s, t);
    } else {
      evs, s' := ArmByOwner(s, t);
    }
    assert Sec(s'.now) >= Sec(s.now);
  }

  lemma ArmByOwner(s: State, t: TaskId) returns (evs: seq<Event>, s': State)
    requires Based(s) && GivesBack(s.execs, s.db.rows, t)
    ensures Leads(s, evs, s', Nothing) && s'.now >= s.now && t in s'.db.rows
    ensures forall f :: f in s.execs && BeforeClaim(s.execs[f].pc) ==> f in s'.execs && s'.execs[f] == s.execs[f]
    ensures var r := s'.db.rows[t];
            && r.status == Scheduled && r.next == s.db.rows[t].next && r.def == s.db.rows[t].def
            && r.retry == s.execs[s.db.rows[t].exec.value].snap.retry
  {
    var e := s.db.rows[t].exec.value;
    assert WellFormed(s.db.rows[t]) && Frozen(t, s.db.rows[t], s.db.claims);
    assert ExecOk(e, s.execs[e], s.db.claims) && OwnOk(s.db, e, s.execs[e]);
    evs, s' := GiveBackRun(s, [], s, e, Nothing);
  }

  lemma MisledFrom(s: State, f: ExecId, n: Node, r: OpId) returns (evs: seq<Event>)
    requires Based(s) && OneTurn(s.execs) && r !in s.recs
    requires f in s.execs && !SightOk(s.execs, s.manuals, s.db, s.execs[f])
    ensures IsRun(s, evs) && CalmRun(s, evs) && Misled(After(s, evs), f)
  {
    var s1, s2: State;
    evs, s1 := ArmOtherWork(s, f, n, r);
    RunKeepsTurn(s, evs);
    evs, s2 := ClaimScan(s, evs, s1, f, Nothing);
  }

  /**
   Exactly when claims see what was scanned, for every reachable state: no calm continuation has a
   claim succeed on a task other than the scanned one if and only if whatever offers the slot of an
   unclaimed scan offers the work it scanned.
   */
  lemma SightExactly(before: seq<Event>, n: Node, r: OpId)
    requires IsRun(Init(), before) && r !in After(Init(), before).recs
    ensures var s := After(Init(), before); StaysTrue(s) <==> Sighted(s.execs, s.manuals, s.db)
  {
    var s := After(Init(), before);
    InitSlots();
    RunKeepsBased(Init(), before);
    RunKeepsTurn(Init(), before);
    if Sighted(s.execs, s.manuals, s.db) {
      forall evs, e | IsRun(s, evs) && CalmRun(s, evs) ensures !Misled(After(s, evs), e) {
        RunKeepsSight(s, evs);
        if Claims(After(s, evs), e) { SightedClaim(After(s, evs), e); }
      }
    } else {
      var f :| f in s.execs && !SightOk(s.execs, s.manuals, s.db, s.execs[f]);
      var evs := MisledFrom(s, f, n, r);
    }
  }

  // ---------------------------------------------------------------- the four steps that are not calm

  /** After a run whose steps are all calm but those of kind k, e is misled. */
  ghost predicate MisleadsBut(evs: seq<Event>, e: ExecId, k: Excuse) {
    IsRun(Init(), evs) && CalmBut(Init(), evs, k) && Misled(After(Init(), evs), e)
  }

  /** An edit read and written at once, to a later slot. */
  lemma EditAtOnce(evs0: seq<Event>, s: State, o: OpId, t: TaskId, def: Definition, status: Status, next: Option<int>, k: Excuse)
    returns (evs: seq<Event>, s': State)
    requires Leads(Init(), evs0, s, k) && o !in s.ops && Editable(s.db.rows, t) && def.maxRetries > 0
    requires || (status == Scheduled && next.Some? && next.value > Sec(s.now))
             || (status == Disabled && next == s.db.rows[t].next)
    ensures Leads(Init(), evs, s', k) && BesideEdit(s, s') && s'.ops == s.ops
    ensures s'.db.rows == s.db.rows[t := DefineRow(s.db.rows[t], def, Update(status, next, s.db.rows[t].last, s.db.rows[t].retry))]
  {
    var s1: State;
    evs, s1 := PushRead(Init(), evs0, s, UpdateRead(o, t, def, status, next), k);
    evs, s' := WriteEdit(Init(), evs, s1, o, k);
    assert s'.ops == s.ops;
  }

  /** One registered scan of slot 1 at second 1, with requests read at second 0 still to be written. */
  ghost predicate ScannedOne(s: State, t: TaskId, def: Definition, e: ExecId, n: Node) {
    && s.db.rows == map[t := NewRow(def, 1)] && s.now == 1000
    && s.execs == map[e := Exec(t, n, NewRow(def, 1), Registered)] && s.manuals == map[] && s.recs == map[]
  }

  /** It is misled once slot 1 is due with another definition. */
  lemma MisledByEdit(s: State, t: TaskId, def: Definition, e: ExecId, n: Node)
    requires e in s.execs && s.execs[e] == Exec(t, n, NewRow(def, 1), Registered) && s.now >= 1000
    requires t in s.db.rows && s.db.rows[t].status == Scheduled && s.db.rows[t].next == Some(1) && s.db.rows[t].def != def
    ensures Misled(s, e)
  {
  }

  lemma ScanOne(evs0: seq<Event>, s: State, t: TaskId, def: Definition, e: ExecId, n: Node, k: Excuse)
    returns (evs: seq<Event>, s': State)
    requires Leads(Init(), evs0, s, k) && Rearming.Untouched(s, t, def, 1) && s.now == 0
    ensures Leads(Init(), evs, s', k) && ScannedOne(s', t, def, e, n) && s'.ops == s.ops
  {
    var s1: State;
    evs, s1 := PushTick(Init(), evs0, s, 1000, k);
    evs, s' := RegisterRun(Init(), evs, s1, t, e, n, k);
  }

  /** The late edit gives slot 1 another definition between the scan and its claim. */
  lemma LateEditMisleads(t: TaskId, def: Definition, def': Definition, o: OpId, e: ExecId, n: Node)
    returns (evs: seq<Event>)
    requires def.maxRetries == DEFAULT_RETRIES && def'.maxRetries > 0 && def' != def
    ensures MisleadsBut(evs, e, LateEdit)
  {
    var s, s1: State;
    evs, s := Begin(t, def, 1, LateEdit);
    evs, s := PushRead(Init(), evs, s, UpdateRead(o, t, def', Scheduled, Some(1)), LateEdit);
    evs, s := ScanOne(evs, s, t, def, e, n, LateEdit);
    evs, s1 := WriteEdit(Init(), evs, s, o, LateEdit);
    MisledByEdit(s1, t, def, e, n);
  }

  /** A timely edit moves the task on to slot 5; the late enable brings slot 1 back. */
  lemma LateEnableMisleads(t: TaskId, def: Definition, def': Definition, o: OpId, o': OpId, e: ExecId, n: Node)
    returns (evs: seq<Event>)
    requires def.maxRetries == DEFAULT_RETRIES && def'.maxRetries > 0 && def' != def && o' != o
    ensures MisleadsBut(evs, e, LateEnable)
  {
    var s, s1, s2: State;
    evs, s := Begin(t, def, 1, LateEnable);
    evs, s := PushRead(Init(), evs, s, EnableRead(o, t, 1), LateEnable);
    evs, s := ScanOne(evs, s, t, def, e, n, LateEnable);
    evs, s1 := EditAtOnce(evs, s, o', t, def', Scheduled, Some(5), LateEnable);
    evs, s2 := WriteEnable(Init(), evs, s1, o, LateEnable);
    MisledByEdit(s2, t, def, e, n);
  }

  /** A timely edit moves the task on to slot 5; the manual run read slot 1 before and writes it back. */
  lemma StaleManualMisleads(t: TaskId, def: Definition, def': Definition, o: OpId, o': OpId, e: ExecId, m: ExecId, n: Node)
    returns (evs: seq<Event>)
    requires def.maxRetries == DEFAULT_RETRIES && def'.maxRetries > 0 && def' != def && o' != o && m != e
    ensures MisleadsBut(evs, e, StaleManual)
  {
    var s, s1, s2: State;
    evs, s := Begin(t, def, 1, StaleManual);
    evs, s := PushManual(Init(), evs, s, RunRead(o, t), StaleManual);
    evs, s := ScanOne(evs, s, t, def, e, n, StaleManual);
    evs, s1 := EditAtOnce(evs, s, o', t, def', Scheduled, Some(5), StaleManual);
    evs, s2 := ManualClaimRun(evs, s1, t, o, m, n, StaleManual);
    evs, s2 := WriteBackRun(Init(), evs, s2, t, m, StaleManual);
    MisledByEdit(s2, t, def, e, n);
  }

  lemma JustScanned(evs0: seq<Event>, s: State, t: TaskId, def: Definition, e: ExecId, n: Node)
    returns (evs: seq<Event>, s': State)
    requires Leads(Init(), evs0, s, DisabledRecovery) && Rearming.Untouched(s, t, def, 1) && s.now == 1000
    ensures Leads(Init(), evs, s', DisabledRecovery) && s'.db.rows == map[t := NewRow(def, 1)] && s'.locks == map[]
    ensures Aside(s, s') && s'.execs == map[e := Exec(t, n, NewRow(def, 1), Scanned)]
    ensures forall n' :: !Busy(s', n')
  {
    evs, s' := PushDispatch(Init(), evs0, s, Scan(e, n, t), DisabledRecovery);
    assert s'.execs == map[e := Exec(t, n, NewRow(def, 1), Scanned)];
  }

  /** Slot 1 is scanned by e, and completed by f, whose cron ends. */
  lemma ScannedAndSpent(t: TaskId, def: Definition, e: ExecId, f: ExecId, n: Node, n': Node)
    returns (evs: seq<Event>, s': State)
    requires def.maxRetries == DEFAULT_RETRIES && e != f
    ensures Leads(Init(), evs, s', DisabledRecovery)
    ensures s'.db.rows.Keys == {t} && s'.db.rows[t].status == Disabled && s'.db.rows[t].next == Some(1)
    ensures s'.now == 1000 && s'.ops == map[] && s'.manuals == map[] && s'.recs == map[]
    ensures s'.execs.Keys == {e, f} && s'.execs[e] == Exec(t, n', NewRow(def, 1), Scanned)
  {
    var s, s1: State;
    evs, s := Begin(t, def, 1, DisabledRecovery);
    evs, s := PushTick(Init(), evs, s, 1000, DisabledRecovery);
    evs, s1 := JustScanned(evs, s, t, def, e, n');
    evs, s' := FireRun(Init(), evs, s1, t, f, n, true, None, DisabledRecovery);
    assert s'.db.rows == map[t := CompleteRow(NewRow(def, 1), Update(Disabled, Some(1), Some(1), 0))];
  }

  /** The disabled task is then edited. */
  lemma SpentAndEdited(t: TaskId, def: Definition, def': Definition, o: OpId, e: ExecId, f: ExecId, n: Node, n': Node)
    returns (evs: seq<Event>, s': State)
    requires def.maxRetries == DEFAULT_RETRIES && def'.maxRetries > 0 && e != f
    ensures Leads(Init(), evs, s', DisabledRecovery)
    ensures s'.db.rows.Keys == {t} && s'.db.rows[t].status == Disabled && s'.db.rows[t].next == Some(1)
    ensures s'.db.rows[t].def == def' && s'.now == 1000 && s'.ops == map[] && s'.manuals == map[] && s'.recs == map[]
    ensures s'.execs.Keys == {e, f} && s'.execs[e] == Exec(t, n', NewRow(def, 1), Scanned)
  {
    var s: State;
    evs, s := ScannedAndSpent(t, def, e, f, n, n');
    evs, s' := EditAtOnce(evs, s, o, t, def', Disabled, Some(1), DisabledRecovery);
  }

  /**
   Every request is written at once: the recovery of an abandoned manual run of the disabled task
   makes slot 1 due again with the new definition, and the old scan claims it.
   */
  lemma DisabledRecoveryMisleads(t: TaskId, def: Definition, def': Definition, o: OpId, r: OpId,
                                 e: ExecId, f: ExecId, m: ExecId, n: Node, n': Node) returns (evs: seq<Event>)
    requires def.maxRetries == DEFAULT_RETRIES && def'.maxRetries > 0 && def' != def && e != f && m !in {e, f}
    ensures MisleadsBut(evs, e, DisabledRecovery)
  {
    var s, s1, s2, s3: State;
    evs, s := SpentAndEdited(t, def, def', o, e, f, n, n');
    assert m !in s.execs.Keys;
    evs, s1 := PushManual(Init(), evs, s, RunRead(o, t), DisabledRecovery);
    evs, s1 := ManualClaimRun(evs, s1, t, o, m, n, DisabledRecovery);
    evs, s2 := RecoverRun(Init(), evs, s1, t, r, n, DisabledRecovery);
    assert Sec(s2.now) >= 1;
    RunKeepsTurn(Init(), evs);
    evs, s3 := ClaimScan(Init(), evs, s2, e, DisabledRecovery);
  }
}
