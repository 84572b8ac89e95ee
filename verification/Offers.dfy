/**
 Which slots can come due again. A row offers the slot it is armed with, and the slot its owner may
 write back. No slot is completed twice while no completed slot is offered, and every claim sees the
 task its scan saw while no scanned slot is offered with other work; both last over every run without
 the four kinds of step that `Calm` excludes. `Rearming` and `Sighting` show that they are exact.
 */
module Offers {
  import opened Tasks
  import opened Protocol
  import opened Fencing
  import opened Slots

  type Execs = map<ExecId, Exec>
  type Manuals = map<ExecId, Manual>

  /** The execution may still give its row back as it was scanned. */
  predicate CanGiveBack(pc: Pc) {
    || pc.Claimed? || pc.Queued? || pc.Finished? || pc.Recorded? || (pc.Decided? && !pc.fired)
    || (pc.DropReg? && pc.restore) || (pc.DropLease? && pc.restore) || pc.Restore?
  }

  predicate GivesBack(execs: Execs, rows: Rows, t: TaskId) {
    var o := OwnerOf(rows, t);
    o.Some? && o.value in execs && CanGiveBack(execs[o.value].pc)
  }

  /** A manual run that will make its row scheduled again, with the slot and retry count it read. */
  predicate CanWriteBack(m: Manual) {
    m.pc != MDone && m.read.status == Scheduled
  }

  predicate WritesBack(mans: Manuals, rows: Rows, t: TaskId) {
    var o := OwnerOf(rows, t);
    o.Some? && o.value in mans && CanWriteBack(mans[o.value])
  }

  /** The row of t is armed with the slot, or a manual run that owns it will write the slot back. */
  ghost predicate OffersSlot(mans: Manuals, db: Db, t: TaskId, slot: Option<int>) {
    || (Armed(db, t) && db.rows[t].next == slot)
    || (WritesBack(mans, db.rows, t) && mans[db.rows[t].exec.value].read.next == slot)
  }

  /** No completed slot is offered. */
  ghost predicate Clear(mans: Manuals, db: Db, fired: seq<Firing>) {
    forall i :: 0 <= i < |fired| ==> !OffersSlot(mans, db, fired[i].task, fired[i].slot)
  }

  /** Whatever offers the slot of an unclaimed scan offers the work that was scanned. */
  ghost predicate SightOk(execs: Execs, mans: Manuals, db: Db, x: Exec) {
    var t, slot := x.task, x.snap.next;
    BeforeClaim(x.pc) ==>
      && (Armed(db, t) && db.rows[t].next == slot ==> SameWork(db.rows[t], x.snap))
      && (WritesBack(mans, db.rows, t) && mans[db.rows[t].exec.value].read.next == slot ==>
            db.rows[t].def == x.snap.def && mans[db.rows[t].exec.value].read.retry == x.snap.retry)
      && (GivesBack(execs, db.rows, t) && db.rows[t].next == slot ==>
            db.rows[t].def == x.snap.def && execs[db.rows[t].exec.value].snap.retry == x.snap.retry)
  }

  ghost predicate Sighted(execs: Execs, mans: Manuals, db: Db) {
    forall e :: e in execs ==> SightOk(execs, mans, db, execs[e])
  }

  /** The same for one task. */
  ghost predicate SightedOn(execs: Execs, mans: Manuals, db: Db, t: TaskId) {
    forall e :: e in execs && execs[e].task == t ==> SightOk(execs, mans, db, execs[e])
  }

  /** An execution that owns its row works from that row. */
  predicate FaithOk(rows: Rows, e: ExecId, x: Exec) {
    OwnerOf(rows, x.task) == Some(e) ==> SameWork(rows[x.task], x.snap)
  }

  predicate Faithful(execs: Execs, rows: Rows) {
    forall e :: e in execs ==> FaithOk(rows, e, execs[e])
  }

  predicate FaithfulOn(execs: Execs, rows: Rows, t: TaskId) {
    forall e :: e in execs && execs[e].task == t ==> FaithOk(rows, e, execs[e])
  }

  ghost predicate NoRepeat(fired: seq<Firing>) {
    forall i, j :: 0 <= i < j < |fired| && fired[i].task == fired[j].task ==> fired[i].slot != fired[j].slot
  }

  /** Completed slots are apart and none is offered. */
  ghost predicate ApartInv(s: State) {
    Based(s) && Clear(s.manuals, s.db, s.fired) && NoRepeat(s.fired)
  }

  /** No unclaimed scan can be misled. */
  ghost predicate SightInv(s: State) {
    Based(s) && Sighted(s.execs, s.manuals, s.db)
  }

  /** No unclaimed scan of t can be. */
  ghost predicate SightInvOn(s: State, t: TaskId) {
    Based(s) && SightedOn(s.execs, s.manuals, s.db, t)
  }

  // ---------------------------------------------------------------- calm steps

  /**
   The step is none of the four that can offer a slot already taken: an enable or an edit written
   when the time it computed has passed, a manual claim of a scheduled row whose slot or retry count
   is no longer the one read, and the recovery of an execution claimed from a disabled row.
   */
  ghost predicate Calm(s: State, ev: Event)
    requires Enabled(s, ev)
  {
    var hits := Matches(s.db.rows, StmtOf(s, ev), Sec(s.now));
    match ev
    case Edit(EnableWrite(o)) => hits ==> s.ops[o].slot > Sec(s.now)
    case Edit(UpdateWrite(o)) =>
      hits && s.ops[o].status == Scheduled ==> s.ops[o].next.Some? && s.ops[o].next.value > Sec(s.now)
    case ByHand(RunClaim(o, _, _, _)) =>
      hits && s.ops[o].read.status == Scheduled ==>
        var r := s.db.rows[s.ops[o].task];
        r.next == s.ops[o].read.next && r.retry == s.ops[o].read.retry
    case Stale(Recover(r, _)) => hits ==> ClaimedScheduled(s, s.recs[r].target)
    case _ => true
  }

  /** The step is calm as far as t is concerned. */
  ghost predicate CalmOn(s: State, ev: Event, t: TaskId)
    requires Enabled(s, ev)
  {
    var q := StmtOf(s, ev);
    q.NoQ? || q.t != t || Calm(s, ev)
  }

  predicate ClaimedScheduled(s: State, e: Option<ExecId>) {
    e.Some? && e.value in s.db.claims && s.db.claims[e.value].before.status == Scheduled
  }

  /** The kinds of step that are not calm. */
  datatype Excuse = Nothing | LateEnable | LateEdit | StaleManual | DisabledRecovery

  predicate Excused(ev: Event, k: Excuse) {
    match k
    case Nothing => false
    case LateEnable => ev.Edit? && ev.edit.EnableWrite?
    case LateEdit => ev.Edit? && ev.edit.UpdateWrite?
    case StaleManual => ev.ByHand? && ev.manual.RunClaim?
    case DisabledRecovery => ev.Stale? && ev.stale.Recover?
  }

  /** Every step of the run is calm, or of kind k. */
  ghost predicate CalmBut(s: State, evs: seq<Event>, k: Excuse)
    requires IsRun(s, evs)
    decreases |evs|
  {
    evs == [] || ((Calm(s, evs[0]) || Excused(evs[0], k)) && CalmBut(Apply(s, evs[0]), evs[1..], k))
  }

  ghost predicate CalmRun(s: State, evs: seq<Event>)
    requires IsRun(s, evs)
  {
    CalmBut(s, evs, Nothing)
  }

  // ---------------------------------------------------------------- what a calm statement may do

  /** The completion gives back what the owner's program counter says it will. */
  ghost predicate Returns(s: State, t: TaskId, e: ExecId, u: Update)
    requires t in s.db.rows
  {
    || (&& e in s.execs && CanGiveBack(s.execs[e].pc) && Armed(s.db, t)
        && u.next == s.db.rows[t].next && u.retry == s.execs[e].snap.retry)
    || (&& e in s.manuals && CanWriteBack(s.manuals[e])
        && u.next == s.manuals[e].read.next && u.retry == s.manuals[e].read.retry)
  }

  /** The statement makes no slot due but one already offered or one later than all scanned and completed. */
  ghost predicate Harmless(s: State, q: Stmt) {
    Matches(s.db.rows, q, Sec(s.now)) ==>
      match q
      case ClaimQ(_, e, _, _, _) => e !in s.manuals && (e in s.execs ==> !CanGiveBack(s.execs[e].pc))
      case CompleteQ(t, e, u) =>
        s.db.rows[t].started.Some? && (Advances(u, s.db.rows[t]) || Returns(s, t, e, u))
      case RecoverQ(t, e) => ClaimedScheduled(s, e)
      case InsertQ(t, r) => t !in s.created
      case RuntimeQ(t, u) => u.status == Scheduled ==> u.next.Some? && u.next.value > Sec(s.now)
      case DefineQ(t, d, u) => u.status == Scheduled ==> u.next.Some? && u.next.value > Sec(s.now)
      case _ => true
  }

  lemma StatementKeepsClear(s: State, q: Stmt, f: Firing)
    requires Fenced(s) && Sound(s.db, q) && Harmless(s, q)
    requires FiredPast(s.db, f, Sec(s.now)) && f.task in s.created
    requires !OffersSlot(s.manuals, s.db, f.task, f.slot)
    ensures !OffersSlot(s.manuals, Send(s, q), f.task, f.slot)
  {
    assert f.task in s.db.rows ==> Frozen(f.task, s.db.rows[f.task], s.db.claims) && WellFormed(s.db.rows[f.task]);
  }

  lemma StatementKeepsSight(s: State, q: Stmt, x: Exec)
    requires Fenced(s) && Sound(s.db, q) && (q.NoQ? || q.t != x.task || Harmless(s, q))
    requires SnapPast(s.db, x, Sec(s.now)) && x.task in s.created
    requires SightOk(s.execs, s.manuals, s.db, x)
    ensures SightOk(s.execs, s.manuals, Send(s, q), x)
  {
    if Matches(s.db.rows, q, Sec(s.now)) {
      if q.t != x.task {
        OthersKeepSight(s, q, x);
      } else if q.CompleteQ? {
        CompleteKeepsSight(s, q, x);
      } else if x.task in s.db.rows {
        assert Frozen(x.task, s.db.rows[x.task], s.db.claims) && WellFormed(s.db.rows[x.task]);
      }
    }
  }

  lemma OthersKeepSight(s: State, q: Stmt, x: Exec)
    requires Fenced(s) && Sound(s.db, q) && Matches(s.db.rows, q, Sec(s.now)) && q.t != x.task
    requires SightOk(s.execs, s.manuals, s.db, x)
    ensures SightOk(s.execs, s.manuals, Send(s, q), x)
  {
    OtherRowStays(s, q, x.task);
    RowKeepsSight(s.execs, s.manuals, s.db, Send(s, q), x);
  }

  lemma OtherRowStays(s: State, q: Stmt, t: TaskId)
    requires Fenced(s) && Sound(s.db, q) && Matches(s.db.rows, q, Sec(s.now)) && q.t != t
    ensures var db := Send(s, q);
            && (t in db.rows <==> t in s.db.rows) && (t in db.rows ==> db.rows[t] == s.db.rows[t])
            && (Armed(db, t) <==> Armed(s.db, t))
  {
    assert t in s.db.rows ==> Frozen(t, s.db.rows[t], s.db.claims);
  }

  lemma RowKeepsSight(execs: Execs, mans: Manuals, db: Db, db': Db, x: Exec)
    requires SightOk(execs, mans, db, x)
    requires x.task in db'.rows <==> x.task in db.rows
    requires x.task in db.rows ==> db'.rows[x.task] == db.rows[x.task]
    requires Armed(db', x.task) <==> Armed(db, x.task)
    ensures SightOk(execs, mans, db', x)
  {
  }

  lemma CompleteKeepsSight(s: State, q: Stmt, x: Exec)
    requires Fenced(s) && Sound(s.db, q) && Harmless(s, q) && q.CompleteQ? && q.t == x.task
    requires Matches(s.db.rows, q, Sec(s.now)) && SnapPast(s.db, x, Sec(s.now))
    requires SightOk(s.execs, s.manuals, s.db, x)
    ensures SightOk(s.execs, s.manuals, Send(s, q), x)
  {
  }

  lemma EndHarmless(s: State, ev: EndEvent)
    requires Based(s) && EnabledEnd(s, ev)
    ensures Harmless(s, EndStmt(s, ev))
  {
    var x := s.execs[ev.e];
    assert OwnOk(s.db, ev.e, x) && ExecOk(ev.e, x, s.db.claims);
    if x.task in s.db.rows {
      assert WellFormed(s.db.rows[x.task]) && Frozen(x.task, s.db.rows[x.task], s.db.claims);
    }
  }

  lemma ManualHarmless(s: State, ev: ManualEvent)
    requires Based(s) && EnabledManual(s, ev)
    ensures Harmless(s, ManualStmt(s, ev))
  {
    if ev.RunComplete? {
      var m := s.manuals[ev.e];
      if m.task in s.db.rows { assert WellFormed(s.db.rows[m.task]); }
    }
  }

  lemma DispatchHarmless(s: State, ev: DispatchEvent)
    requires Based(s) && EnabledDispatch(s, ev)
    ensures Harmless(s, DispatchStmt(s, ev))
  {
  }

  lemma StepHarmless(s: State, ev: Event)
    requires Based(s) && Enabled(s, ev) && Calm(s, ev)
    ensures Harmless(s, StmtOf(s, ev))
  {
    match ev
    case End(x) => EndHarmless(s, x);
    case ByHand(x) => ManualHarmless(s, x);
    case Dispatch(x) => DispatchHarmless(s, x);
    case _ =>
  }

  lemma StatementKeepsAllClear(s: State, q: Stmt)
    requires Based(s) && Clear(s.manuals, s.db, s.fired) && Sound(s.db, q) && Harmless(s, q)
    ensures Clear(s.manuals, Send(s, q), s.fired)
  {
    forall i | 0 <= i < |s.fired| ensures !OffersSlot(s.manuals, Send(s, q), s.fired[i].task, s.fired[i].slot) {
      StatementKeepsClear(s, q, s.fired[i]);
    }
  }

  lemma StatementKeepsAllSight(s: State, q: Stmt, t: TaskId)
    requires SightInvOn(s, t) && Sound(s.db, q) && (q.NoQ? || q.t != t || Harmless(s, q))
    ensures SightedOn(s.execs, s.manuals, Send(s, q), t)
  {
    forall e | e in s.execs && s.execs[e].task == t ensures SightOk(s.execs, s.manuals, Send(s, q), s.execs[e]) {
      StatementKeepsSight(s, q, s.execs[e]);
    }
  }

  // ---------------------------------------------------------------- what the parties do besides

  /** Every manual run that can write back could before, and would write the same. */
  ghost predicate MansShrink(mans: Manuals, mans': Manuals) {
    forall m :: m in mans' && CanWriteBack(mans'[m]) ==>
      m in mans && CanWriteBack(mans[m]) && mans'[m].read == mans[m].read
  }

  ghost predicate ExecsShrink(execs: Execs, execs': Execs) {
    forall e :: e in execs' && CanGiveBack(execs'[e].pc) ==>
      e in execs && CanGiveBack(execs[e].pc) && execs'[e].snap == execs[e].snap
  }

  lemma ClearShrinks(mans: Manuals, mans': Manuals, db: Db, fired: seq<Firing>)
    requires Clear(mans, db, fired) && MansShrink(mans, mans')
    ensures Clear(mans', db, fired)
  {
    forall i | 0 <= i < |fired| ensures !OffersSlot(mans', db, fired[i].task, fired[i].slot) {
      assert !OffersSlot(mans, db, fired[i].task, fired[i].slot);
    }
  }

  /** The same scan, not claimed now and so not before. */
  predicate SameScan(x: Exec, x': Exec) {
    x'.task == x.task && x'.snap == x.snap && (BeforeClaim(x'.pc) ==> BeforeClaim(x.pc))
  }

  lemma SightShrinks(execs: Execs, mans: Manuals, execs': Execs, mans': Manuals, db: Db, t: TaskId)
    requires SightedOn(execs, mans, db, t) && MansShrink(mans, mans') && ExecsShrink(execs, execs')
    requires forall e :: e in execs' ==> e in execs && SameScan(execs[e], execs'[e])
    ensures SightedOn(execs', mans', db, t)
  {
    forall e | e in execs' && execs'[e].task == t ensures SightOk(execs', mans', db, execs'[e]) {
      assert SightOk(execs, mans, db, execs[e]);
    }
  }

  lemma EnvShrinks(s: State, ev: EnvEvent)
    requires EnabledEnv(s, ev)
    ensures MansShrink(s.manuals, AfterEnv(s, ev).manuals) && ExecsShrink(s.execs, AfterEnv(s, ev).execs)
    ensures AfterEnv(s, ev).fired == s.fired
    ensures forall e :: e in AfterEnv(s, ev).execs ==> e in s.execs && SameScan(s.execs[e], AfterEnv(s, ev).execs[e])
  {
  }

  lemma EndShrinks(s: State, ev: EndEvent)
    requires EnabledEnd(s, ev)
    ensures AfterEnd(s, ev).manuals == s.manuals && ExecsShrink(s.execs, AfterEnd(s, ev).execs)
    ensures forall e :: e in AfterEnd(s, ev).execs ==> e in s.execs && SameScan(s.execs[e], AfterEnd(s, ev).execs[e])
  {
    var x' := s.execs[ev.e].(pc := EndPc(s, ev));
    assert AfterEnd(s, ev).execs == s.execs[ev.e := x'];
    assert SameScan(s.execs[ev.e], x') && (CanGiveBack(x'.pc) ==> CanGiveBack(s.execs[ev.e].pc));
  }

  /** Outside a claim a manual run only moves on. */
  lemma ManualShrinks(s: State, ev: ManualEvent)
    requires EnabledManual(s, ev) && !ev.RunClaim?
    ensures MansShrink(s.manuals, AfterManual(s, ev).manuals)
    ensures AfterManual(s, ev).execs == s.execs && AfterManual(s, ev).fired == s.fired
  {
  }

  /** The claim of a manual run: what it will write back is what it found. */
  lemma RunClaimKeepsClear(s: State, ev: ManualEvent, f: Firing)
    requires Fenced(s) && EnabledManual(s, ev) && ev.RunClaim? && Calm(s, ByHand(ev))
    requires !OffersSlot(s.manuals, s.db, f.task, f.slot)
    requires !OffersSlot(s.manuals, Send(s, ManualStmt(s, ev)), f.task, f.slot)
    ensures !OffersSlot(AfterManual(s, ev).manuals, Send(s, ManualStmt(s, ev)), f.task, f.slot)
  {
    if f.task in s.db.rows { assert Frozen(f.task, s.db.rows[f.task], s.db.claims); }
  }

  lemma RunClaimKeepsSight(s: State, ev: ManualEvent, x: Exec)
    requires Fenced(s) && EnabledManual(s, ev) && ev.RunClaim? && CalmOn(s, ByHand(ev), x.task)
    requires SightOk(s.execs, s.manuals, s.db, x)
    requires SightOk(s.execs, s.manuals, Send(s, ManualStmt(s, ev)), x)
    ensures SightOk(s.execs, AfterManual(s, ev).manuals, Send(s, ManualStmt(s, ev)), x)
  {
    if x.task in s.db.rows { assert Frozen(x.task, s.db.rows[x.task], s.db.claims); }
  }

  /** A scan sees the row as it is; a claim makes the execution work from the row it scanned. */
  lemma DispatchKeepsSightOf(s: State, ev: DispatchEvent, f: ExecId)
    requires EnabledDispatch(s, ev) && f in AfterDispatch(s, ev).execs && SightInvOn(s, AfterDispatch(s, ev).execs[f].task)
    requires SightedOn(s.execs, s.manuals, Send(s, DispatchStmt(s, ev)), AfterDispatch(s, ev).execs[f].task)
    ensures SightOk(AfterDispatch(s, ev).execs, s.manuals, Send(s, DispatchStmt(s, ev)), AfterDispatch(s, ev).execs[f])
  {
    var s' := AfterDispatch(s, ev);
    if ev.Scan? && ev.e == f {
      assert WellFormed(s.db.rows[ev.t]);
    } else if ev.ClaimTask? {
      ClaimKeepsSightOf(s, ev, f);
    } else {
      assert SightOk(s.execs, s.manuals, s.db, s.execs[f]);
      DispatchShrinks(s, ev);
      OneSightShrinks(s.execs, s'.execs, s.manuals, s.db, s.execs[f], s'.execs[f]);
    }
  }

  lemma OneSightShrinks(execs: Execs, execs': Execs, mans: Manuals, db: Db, x: Exec, x': Exec)
    requires SightOk(execs, mans, db, x) && ExecsShrink(execs, execs') && SameScan(x, x')
    ensures SightOk(execs', mans, db, x')
  {
  }

  lemma DispatchShrinks(s: State, ev: DispatchEvent)
    requires EnabledDispatch(s, ev) && !ev.ClaimTask?
    ensures ExecsShrink(s.execs, AfterDispatch(s, ev).execs)
    ensures !ev.Scan? ==> SameScan(s.execs[ev.e], AfterDispatch(s, ev).execs[ev.e])
    ensures forall f :: f in s.execs && f != ev.e ==> AfterDispatch(s, ev).execs[f] == s.execs[f]
  {
  }

  lemma ClaimKeepsSightOf(s: State, ev: DispatchEvent, f: ExecId)
    requires EnabledDispatch(s, ev) && ev.ClaimTask? && f in s.execs && SightInvOn(s, s.execs[f].task)
    requires SightedOn(s.execs, s.manuals, Send(s, DispatchStmt(s, ev)), s.execs[f].task)
    ensures SightOk(AfterDispatch(s, ev).execs, s.manuals, Send(s, DispatchStmt(s, ev)), AfterDispatch(s, ev).execs[f])
  {
    var s', db, t := AfterDispatch(s, ev), Send(s, DispatchStmt(s, ev)), s.execs[f].task;
    if f != ev.e && BeforeClaim(s.execs[f].pc) {
      assert SightOk(s.execs, s.manuals, db, s.execs[f]);
      assert s'.execs == s.execs[ev.e := s.execs[ev.e].(pc := DispatchPc(s, ev))];
      if OwnerOf(db.rows, t) == Some(ev.e) && db.rows[t].next == s.execs[f].snap.next { ClaimantSees(s, ev, f); }
    }
  }

  /** What a new owner may give back is what every scan of that slot has seen. */
  lemma ClaimantSees(s: State, ev: DispatchEvent, f: ExecId)
    requires EnabledDispatch(s, ev) && ev.ClaimTask? && f in s.execs && BeforeClaim(s.execs[f].pc)
    requires SightInvOn(s, s.execs[f].task)
    requires var rows := Send(s, DispatchStmt(s, ev)).rows; var x := s.execs[f];
             OwnerOf(rows, x.task) == Some(ev.e) && rows[x.task].next == x.snap.next
    ensures var x := s.execs[f];
            Send(s, DispatchStmt(s, ev)).rows[x.task].def == x.snap.def && s.execs[ev.e].snap.retry == x.snap.retry
  {
    var t, x, y := s.execs[f].task, s.execs[f], s.execs[ev.e];
    assert ExecOk(ev.e, y, s.db.claims);
    assert Frozen(t, s.db.rows[t], s.db.claims) && WellFormed(y.snap);
    assert SightOk(s.execs, s.manuals, s.db, x) && SightOk(s.execs, s.manuals, s.db, y);
  }

  lemma DispatchKeepsSight(s: State, ev: DispatchEvent, t: TaskId)
    requires SightInvOn(s, t) && EnabledDispatch(s, ev)
    requires SightedOn(s.execs, s.manuals, Send(s, DispatchStmt(s, ev)), t)
    ensures SightedOn(AfterDispatch(s, ev).execs, s.manuals, Send(s, DispatchStmt(s, ev)), t)
  {
    forall f | f in AfterDispatch(s, ev).execs && AfterDispatch(s, ev).execs[f].task == t
      ensures SightOk(AfterDispatch(s, ev).execs, s.manuals, Send(s, DispatchStmt(s, ev)), AfterDispatch(s, ev).execs[f])
    {
      DispatchKeepsSightOf(s, ev, f);
    }
  }

  lemma ManualKeepsSight(s: State, ev: ManualEvent, t: TaskId)
    requires SightInvOn(s, t) && EnabledManual(s, ev) && CalmOn(s, ByHand(ev), t)
    requires SightedOn(s.execs, s.manuals, Send(s, ManualStmt(s, ev)), t)
    ensures SightedOn(s.execs, AfterManual(s, ev).manuals, Send(s, ManualStmt(s, ev)), t)
  {
    var db := Send(s, ManualStmt(s, ev));
    if ev.RunClaim? {
      forall e | e in s.execs && s.execs[e].task == t ensures SightOk(s.execs, AfterManual(s, ev).manuals, db, s.execs[e]) {
        RunClaimKeepsSight(s, ev, s.execs[e]);
      }
    } else {
      ManualShrinks(s, ev);
      SightShrinks(s.execs, s.manuals, s.execs, AfterManual(s, ev).manuals, db, t);
    }
  }

  lemma CalmKeepsSightOn(s: State, ev: Event, t: TaskId)
    requires SightInvOn(s, t) && Enabled(s, ev) && CalmOn(s, ev, t)
    ensures SightedOn(Local(s, ev).execs, Local(s, ev).manuals, Send(s, StmtOf(s, ev)), t)
  {
    var q := StmtOf(s, ev);
    StatementSound(s, ev);
    if Calm(s, ev) { StepHarmless(s, ev); }
    StatementKeepsAllSight(s, q, t);
    match ev
    case Env(x) =>
      EnvShrinks(s, x);
      SightShrinks(s.execs, s.manuals, AfterEnv(s, x).execs, AfterEnv(s, x).manuals, Send(s, q), t);
    case Edit(x) =>
    case ByHand(x) => ManualKeepsSight(s, x, t);
    case Dispatch(x) => DispatchKeepsSight(s, x, t);
    case End(x) =>
      EndShrinks(s, x);
      SightShrinks(s.execs, s.manuals, AfterEnd(s, x).execs, s.manuals, Send(s, q), t);
    case Stale(x) =>
  }

  lemma CalmKeepsSight(s: State, ev: Event)
    requires SightInv(s) && Enabled(s, ev) && Calm(s, ev)
    ensures Sighted(Local(s, ev).execs, Local(s, ev).manuals, Send(s, StmtOf(s, ev)))
  {
    var execs, mans, db := Local(s, ev).execs, Local(s, ev).manuals, Send(s, StmtOf(s, ev));
    forall t ensures SightedOn(execs, mans, db, t) { CalmKeepsSightOn(s, ev, t); }
    SightedEverywhere(execs, mans, db);
  }

  lemma SightedEverywhere(execs: Execs, mans: Manuals, db: Db)
    requires forall t :: SightedOn(execs, mans, db, t)
    ensures Sighted(execs, mans, db)
  {
    forall e | e in execs ensures SightOk(execs, mans, db, execs[e]) {
      assert SightedOn(execs, mans, db, execs[e].task);
    }
  }

  // ---------------------------------------------------------------- completed slots

  lemma ManualKeepsClear(s: State, ev: ManualEvent)
    requires Based(s) && EnabledManual(s, ev) && Calm(s, ByHand(ev)) && Clear(s.manuals, s.db, s.fired)
    requires Clear(s.manuals, Send(s, ManualStmt(s, ev)), s.fired)
    ensures Clear(AfterManual(s, ev).manuals, Send(s, ManualStmt(s, ev)), s.fired)
  {
    var db := Send(s, ManualStmt(s, ev));
    if ev.RunClaim? {
      forall i | 0 <= i < |s.fired| ensures !OffersSlot(AfterManual(s, ev).manuals, db, s.fired[i].task, s.fired[i].slot) {
        RunClaimKeepsClear(s, ev, s.fired[i]);
      }
    } else {
      ManualShrinks(s, ev);
      ClearShrinks(s.manuals, AfterManual(s, ev).manuals, db, s.fired);
    }
  }

  /** The new firing is no repeat, and its slot is not offered afterwards. */
  lemma NewFiring(s: State, ev: EndEvent)
    requires Based(s) && Clear(s.manuals, s.db, s.fired) && EnabledEnd(s, ev) && Fires(s, ev)
    ensures var x := s.execs[ev.e];
            && !OffersSlot(s.manuals, Send(s, EndStmt(s, ev)), x.task, x.snap.next)
            && forall i :: 0 <= i < |s.fired| && s.fired[i].task == x.task ==> s.fired[i].slot != x.snap.next
  {
    var x := s.execs[ev.e];
    assert OwnOk(s.db, ev.e, x) && SnapPast(s.db, x, Sec(s.now));
    assert Frozen(x.task, s.db.rows[x.task], s.db.claims);
    assert OffersSlot(s.manuals, s.db, x.task, x.snap.next);
  }

  lemma NoRepeatAppend(fired: seq<Firing>, f: Firing)
    requires NoRepeat(fired)
    requires forall i :: 0 <= i < |fired| && fired[i].task == f.task ==> fired[i].slot != f.slot
    ensures NoRepeat(fired + [f])
  {
  }

  lemma ClearAppend(mans: Manuals, db: Db, fired: seq<Firing>, f: Firing)
    requires Clear(mans, db, fired) && !OffersSlot(mans, db, f.task, f.slot)
    ensures Clear(mans, db, fired + [f])
  {
    forall i | 0 <= i < |fired + [f]| ensures !OffersSlot(mans, db, (fired + [f])[i].task, (fired + [f])[i].slot) {
      if i < |fired| { assert (fired + [f])[i] == fired[i]; }
    }
  }

  lemma EndKeepsApart(s: State, ev: EndEvent)
    requires ApartInv(s) && EnabledEnd(s, ev) && Clear(s.manuals, Send(s, EndStmt(s, ev)), s.fired)
    ensures Clear(s.manuals, Send(s, EndStmt(s, ev)), AfterEnd(s, ev).fired) && NoRepeat(AfterEnd(s, ev).fired)
  {
    if Fires(s, ev) {
      var x := s.execs[ev.e];
      var f := Firing(x.task, x.snap.next, ev.e, x.pc.ok);
      NewFiring(s, ev);
      NoRepeatAppend(s.fired, f);
      ClearAppend(s.manuals, Send(s, EndStmt(s, ev)), s.fired, f);
      assert AfterEnd(s, ev).fired == s.fired + [f];
    }
  }

  lemma CalmKeepsApart(s: State, ev: Event)
    requires ApartInv(s) && Enabled(s, ev) && Calm(s, ev)
    ensures Clear(Local(s, ev).manuals, Send(s, StmtOf(s, ev)), Local(s, ev).fired) && NoRepeat(Local(s, ev).fired)
  {
    var q := StmtOf(s, ev);
    StatementSound(s, ev);
    StepHarmless(s, ev);
    StatementKeepsAllClear(s, q);
    match ev
    case Env(x) =>
      EnvShrinks(s, x);
      ClearShrinks(s.manuals, AfterEnv(s, x).manuals, Send(s, q), s.fired);
    case Edit(x) =>
    case ByHand(x) => ManualKeepsClear(s, x);
    case Dispatch(x) =>
    case End(x) => EndKeepsApart(s, x);
    case Stale(x) =>
  }

  // ---------------------------------------------------------------- faithful owners

  lemma StatementKeepsFaith(s: State, q: Stmt, e: ExecId, x: Exec)
    requires Fenced(s) && Sound(s.db, q) && FaithOk(s.db.rows, e, x) && !(q.ClaimQ? && q.e == e)
    ensures FaithOk(Send(s, q).rows, e, x)
  {
    if x.task in s.db.rows { assert WellFormed(s.db.rows[x.task]); }
  }

  lemma DispatchKeepsFaithOf(s: State, ev: DispatchEvent, f: ExecId)
    requires EnabledDispatch(s, ev) && f in AfterDispatch(s, ev).execs && SightInvOn(s, AfterDispatch(s, ev).execs[f].task)
    requires FaithfulOn(s.execs, s.db.rows, AfterDispatch(s, ev).execs[f].task) && Sound(s.db, DispatchStmt(s, ev))
    ensures FaithOk(Send(s, DispatchStmt(s, ev)).rows, f, AfterDispatch(s, ev).execs[f])
  {
    if ev.e == f && ev.Scan? {
      assert WellFormed(s.db.rows[ev.t]);
    } else if ev.e == f && ev.ClaimTask? {
      var x := s.execs[f];
      assert SightOk(s.execs, s.manuals, s.db, x) && ExecOk(f, x, s.db.claims) && FaithOk(s.db.rows, f, x);
    } else {
      assert FaithOk(s.db.rows, f, s.execs[f]);
      StatementKeepsFaith(s, DispatchStmt(s, ev), f, s.execs[f]);
    }
  }

  lemma OthersKeepFaith(s: State, execs: Execs, q: Stmt, t: TaskId)
    requires Fenced(s) && FaithfulOn(s.execs, s.db.rows, t) && Sound(s.db, q) && (q.ClaimQ? ==> q.e !in s.execs)
    requires forall e :: e in execs ==> e in s.execs && SameScan(s.execs[e], execs[e])
    ensures FaithfulOn(execs, Send(s, q).rows, t)
  {
    forall e | e in execs && execs[e].task == t ensures FaithOk(Send(s, q).rows, e, execs[e]) {
      StatementKeepsFaith(s, q, e, s.execs[e]);
    }
  }

  lemma LocalKeepsFaith(s: State, ev: Event)
    requires SightInv(s) && Faithful(s.execs, s.db.rows) && Enabled(s, ev)
    ensures Faithful(Local(s, ev).execs, Send(s, StmtOf(s, ev)).rows)
  {
    var execs, rows := Local(s, ev).execs, Send(s, StmtOf(s, ev)).rows;
    forall t ensures FaithfulOn(execs, rows, t) { LocalKeepsFaithOn(s, ev, t); }
    FaithfulEverywhere(execs, rows);
  }

  lemma FaithfulEverywhere(execs: Execs, rows: Rows)
    requires forall t :: FaithfulOn(execs, rows, t)
    ensures Faithful(execs, rows)
  {
    forall e | e in execs ensures FaithOk(rows, e, execs[e]) {
      assert FaithfulOn(execs, rows, execs[e].task);
    }
  }

  lemma LocalKeepsFaithOn(s: State, ev: Event, t: TaskId)
    requires SightInvOn(s, t) && FaithfulOn(s.execs, s.db.rows, t) && Enabled(s, ev)
    ensures FaithfulOn(Local(s, ev).execs, Send(s, StmtOf(s, ev)).rows, t)
  {
    StatementSound(s, ev);
    match ev
    case Env(x) => EnvKeepsFaith(s, x, t);
    case Edit(x) => EditKeepsFaith(s, x, t);
    case ByHand(x) => ManualKeepsFaith(s, x, t);
    case Dispatch(x) => DispatchKeepsFaith(s, x, t);
    case End(x) => EndKeepsFaith(s, x, t);
    case Stale(x) => StaleKeepsFaith(s, x, t);
  }

  lemma EnvKeepsFaith(s: State, ev: EnvEvent, t: TaskId)
    requires Fenced(s) && FaithfulOn(s.execs, s.db.rows, t) && EnabledEnv(s, ev)
    ensures FaithfulOn(AfterEnv(s, ev).execs, Send(s, NoQ).rows, t)
  {
    EnvShrinks(s, ev);
    OthersKeepFaith(s, AfterEnv(s, ev).execs, NoQ, t);
  }

  lemma EditKeepsFaith(s: State, ev: EditEvent, t: TaskId)
    requires Fenced(s) && FaithfulOn(s.execs, s.db.rows, t) && EnabledEdit(s, ev) && Sound(s.db, EditStmt(s, ev))
    ensures FaithfulOn(s.execs, Send(s, EditStmt(s, ev)).rows, t)
  {
    OthersKeepFaith(s, s.execs, EditStmt(s, ev), t);
  }

  lemma ManualKeepsFaith(s: State, ev: ManualEvent, t: TaskId)
    requires Fenced(s) && FaithfulOn(s.execs, s.db.rows, t) && EnabledManual(s, ev) && Sound(s.db, ManualStmt(s, ev))
    ensures FaithfulOn(s.execs, Send(s, ManualStmt(s, ev)).rows, t)
  {
    OthersKeepFaith(s, s.execs, ManualStmt(s, ev), t);
  }

  lemma StaleKeepsFaith(s: State, ev: StaleEvent, t: TaskId)
    requires Fenced(s) && FaithfulOn(s.execs, s.db.rows, t) && EnabledStale(s, ev) && Sound(s.db, StaleStmt(s, ev))
    ensures FaithfulOn(s.execs, Send(s, StaleStmt(s, ev)).rows, t)
  {
    OthersKeepFaith(s, s.execs, StaleStmt(s, ev), t);
  }

  lemma EndKeepsFaith(s: State, ev: EndEvent, t: TaskId)
    requires Fenced(s) && FaithfulOn(s.execs, s.db.rows, t) && EnabledEnd(s, ev) && Sound(s.db, EndStmt(s, ev))
    ensures FaithfulOn(AfterEnd(s, ev).execs, Send(s, EndStmt(s, ev)).rows, t)
  {
    EndShrinks(s, ev);
    OthersKeepFaith(s, AfterEnd(s, ev).execs, EndStmt(s, ev), t);
  }

  lemma DispatchKeepsFaith(s: State, ev: DispatchEvent, t: TaskId)
    requires SightInvOn(s, t) && FaithfulOn(s.execs, s.db.rows, t) && EnabledDispatch(s, ev) && Sound(s.db, DispatchStmt(s, ev))
    ensures FaithfulOn(AfterDispatch(s, ev).execs, Send(s, DispatchStmt(s, ev)).rows, t)
  {
    forall f | f in AfterDispatch(s, ev).execs && AfterDispatch(s, ev).execs[f].task == t
      ensures FaithOk(Send(s, DispatchStmt(s, ev)).rows, f, AfterDispatch(s, ev).execs[f])
    {
      DispatchKeepsFaithOf(s, ev, f);
    }
  }

  // ---------------------------------------------------------------- calm runs

  /** Everything calm runs keep. */
  ghost predicate SlotInv(s: State) {
    ApartInv(s) && SightInv(s) && Faithful(s.execs, s.db.rows)
  }

  lemma StepKeepsApart(s: State, ev: Event)
    requires ApartInv(s) && Enabled(s, ev) && Calm(s, ev)
    ensures ApartInv(Apply(s, ev))
  {
    StepKeepsBased(s, ev);
    CalmKeepsApart(s, ev);
  }

  lemma StepKeepsSight(s: State, ev: Event)
    requires SightInv(s) && Enabled(s, ev) && Calm(s, ev)
    ensures SightInv(Apply(s, ev))
  {
    StepKeepsBased(s, ev);
    CalmKeepsSight(s, ev);
  }

  lemma StepKeepsSightOn(s: State, ev: Event, t: TaskId)
    requires SightInvOn(s, t) && Enabled(s, ev) && CalmOn(s, ev, t)
    ensures SightInvOn(Apply(s, ev), t)
  {
    StepKeepsBased(s, ev);
    CalmKeepsSightOn(s, ev, t);
  }

  lemma StepKeepsFaithOn(s: State, ev: Event, t: TaskId)
    requires SightInvOn(s, t) && FaithfulOn(s.execs, s.db.rows, t) && Enabled(s, ev)
    ensures FaithfulOn(Apply(s, ev).execs, Apply(s, ev).db.rows, t)
  {
    LocalKeepsFaithOn(s, ev, t);
  }

  lemma StepKeepsSlots(s: State, ev: Event)
    requires SlotInv(s) && Enabled(s, ev) && Calm(s, ev)
    ensures SlotInv(Apply(s, ev))
  {
    StepKeepsApart(s, ev);
    StepKeepsSight(s, ev);
    LocalKeepsFaith(s, ev);
  }

  lemma {:induction false} RunKeepsApart(s: State, evs: seq<Event>)
    requires ApartInv(s) && IsRun(s, evs) && CalmRun(s, evs)
    ensures ApartInv(After(s, evs))
    decreases |evs|
  {
    if evs != [] {
      StepKeepsApart(s, evs[0]);
      RunKeepsApart(Apply(s, evs[0]), evs[1..]);
    }
  }

  lemma {:induction false} RunKeepsSight(s: State, evs: seq<Event>)
    requires SightInv(s) && IsRun(s, evs) && CalmRun(s, evs)
    ensures SightInv(After(s, evs))
    decreases |evs|
  {
    if evs != [] {
      StepKeepsSight(s, evs[0]);
      RunKeepsSight(Apply(s, evs[0]), evs[1..]);
    }
  }

  lemma {:induction false} RunKeepsSlots(s: State, evs: seq<Event>)
    requires SlotInv(s) && IsRun(s, evs) && CalmRun(s, evs)
    ensures SlotInv(After(s, evs))
    decreases |evs|
  {
    if evs != [] {
      StepKeepsSlots(s, evs[0]);
      RunKeepsSlots(Apply(s, evs[0]), evs[1..]);
    }
  }

  lemma InitSlots()
    ensures SlotInv(Init())
  {
    InitFenced();
  }

  /**
   No due slot is consumed twice: over any calm run, however lock keys vanish and nodes crash, two
   accepted completions of executions that ran never carry the same task and next_run_at.
   */
  lemma SlotsNeverRepeat(evs: seq<Event>, i: nat, j: nat)
    requires IsRun(Init(), evs) && CalmRun(Init(), evs)
    requires i < j < |After(Init(), evs).fired|
    ensures var fired := After(Init(), evs).fired;
            fired[i].task == fired[j].task ==> fired[i].slot != fired[j].slot
  {
    InitSlots();
    RunKeepsApart(Init(), evs);
  }

  /** Execution e is about to claim, and the table will accept. */
  predicate Claims(s: State, e: ExecId) {
    At(s, e, Registered) && Matches(s.db.rows, DispatchStmt(s, ClaimTask(e, Ack)), Sec(s.now))
  }

  lemma SightedClaim(s: State, e: ExecId)
    requires SightInv(s) && Claims(s, e)
    ensures SameWork(s.db.rows[s.execs[e].task], s.execs[e].snap)
  {
    assert SightOk(s.execs, s.manuals, s.db, s.execs[e]) && ExecOk(e, s.execs[e], s.db.claims);
    assert SnapPast(s.db, s.execs[e], Sec(s.now));
  }

  /**
   Claiming is ABA-free: whenever a scheduled claim succeeds after a calm run, the definition and the
   retry count in the row are the ones the scan read, though the statement compares neither.
   */
  lemma ClaimSeesScannedTask(evs: seq<Event>, e: ExecId)
    requires IsRun(Init(), evs) && CalmRun(Init(), evs) && Claims(After(Init(), evs), e)
    ensures var s := After(Init(), evs); SameWork(s.db.rows[s.execs[e].task], s.execs[e].snap)
  {
    InitSlots();
    RunKeepsSight(Init(), evs);
    SightedClaim(After(Init(), evs), e);
  }
}
