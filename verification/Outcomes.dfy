/**
 What an execution reports and what the table makes of it: the history record and every column of the
 row after an accepted completion, although most of them come from a row read long before.
 */
module Outcomes {
  import opened Tasks
  import opened Protocol
  import opened Fencing
  import opened Slots
  import opened Offers

  /** The program counters after the attempt to write the history record. */
  predicate AfterRecord(pc: Pc) {
    pc.Recorded? || pc.Decided?
  }

  /** What a decided execution will write, column by column. */
  ghost predicate UpdateOk(x: Exec) {
    x.pc.Decided? ==>
      var u, end, k := x.pc.u, x.pc.end, x.snap.retry + 1;
      && u.last == Some(end)
      && (!x.pc.fired ==> u.status == Scheduled && u.next == x.snap.next && u.retry == x.snap.retry)
      && (x.pc.fired && x.pc.ok ==>
            && u.retry == 0
            && (if x.pc.next.Some? then u.status == Scheduled && u.next == x.pc.next
                else u.status == Disabled && u.next == Some(end)))
      && (x.pc.fired && !x.pc.ok ==>
            && u.retry == k
            && (if k < x.snap.def.maxRetries then u.status == Scheduled && u.next == Some(end + RetryDelay(k))
                else u.status == Disabled && u.next == Some(end)))
  }

  /** Without faults the record is there, with the result the execution carries. */
  predicate RecordOk(history: map<ExecId, bool>, e: ExecId, x: Exec) {
    && (AfterRecord(x.pc) ==> e in history && history[e] == x.pc.ok)
    && (BeforeRecord(x.pc) ==> e !in history)
  }

  predicate BeforeRecord(pc: Pc) {
    BeforeClaim(pc) || pc.Claimed? || pc.Queued? || pc.Finished?
  }

  ghost predicate RecordsOk(s: State) {
    && (!s.faulty ==> forall e :: e in s.execs ==> RecordOk(s.history, e, s.execs[e]))
    && (forall e :: e in s.history ==> e in s.execs || e in s.manuals)
    && (forall e :: e in s.execs ==> e !in s.manuals)
  }

  /** Without faults every firing has its record, and its execution will write no other. */
  ghost predicate FiringsOk(s: State) {
    forall i :: 0 <= i < |s.fired| ==>
      var f := s.fired[i];
      && f.exec in s.execs && Past(s.execs[f.exec].pc)
      && (!s.faulty ==> FiringOk(s.history, f))
  }

  ghost predicate HistoryOk(s: State) {
    RecordsOk(s) && FiringsOk(s)
  }

  predicate Past(pc: Pc) {
    pc.DropReg? || pc.DropLease? || pc.Restore? || pc.DropLock? || pc.Done? || pc.Dead?
  }

  predicate FiringOk(history: map<ExecId, bool>, f: Firing) {
    f.exec in history && history[f.exec] == f.ok
  }

  ghost predicate UpdatesOk(s: State) {
    forall e :: e in s.execs ==> UpdateOk(s.execs[e])
  }

  // ---------------------------------------------------------------- the records

  lemma EnvKeepsHistory(s: State, ev: EnvEvent)
    requires HistoryOk(s) && EnabledEnv(s, ev)
    ensures HistoryOk(AfterEnv(s, ev))
  {
  }

  lemma EditKeepsHistory(s: State, ev: EditEvent)
    requires HistoryOk(s) && EnabledEdit(s, ev)
    ensures HistoryOk(AfterEdit(s, ev))
  {
  }

  lemma ManualKeepsHistory(s: State, ev: ManualEvent)
    requires HistoryOk(s) && EnabledManual(s, ev)
    ensures HistoryOk(AfterManual(s, ev))
  {
  }

  lemma DispatchKeepsHistory(s: State, ev: DispatchEvent)
    requires HistoryOk(s) && EnabledDispatch(s, ev)
    ensures HistoryOk(AfterDispatch(s, ev))
  {
    DispatchKeepsRecords(s, ev);
    DispatchKeepsFirings(s, ev);
  }

  lemma DispatchKeepsRecords(s: State, ev: DispatchEvent)
    requires RecordsOk(s) && EnabledDispatch(s, ev)
    ensures RecordsOk(AfterDispatch(s, ev))
  {
    var s' := AfterDispatch(s, ev);
    if !ev.Scan? { OneRecord(s, s', ev.e, s'.execs[ev.e], true); }
  }

  lemma DispatchKeepsFirings(s: State, ev: DispatchEvent)
    requires HistoryOk(s) && EnabledDispatch(s, ev)
    ensures FiringsOk(AfterDispatch(s, ev))
  {
    var s' := AfterDispatch(s, ev);
    forall i | 0 <= i < |s.fired|
      ensures var f := s.fired[i]; f.exec in s'.execs && s'.execs[f.exec].pc == s.execs[f.exec].pc
    {
      assert Past(s.execs[s.fired[i].exec].pc);
    }
  }

  lemma EndKeepsHistory(s: State, ev: EndEvent)
    requires HistoryOk(s) && EnabledEnd(s, ev)
    ensures HistoryOk(AfterEnd(s, ev))
  {
    EndKeepsRecords(s, ev);
    EndKeepsFirings(s, ev);
  }

  lemma EndKeepsRecord(s: State, ev: EndEvent)
    requires RecordsOk(s) && EnabledEnd(s, ev) && !AfterEnd(s, ev).faulty
    ensures RecordOk(AfterEnd(s, ev).history, ev.e, s.execs[ev.e].(pc := EndPc(s, ev)))
  {
    assert RecordOk(s.history, ev.e, s.execs[ev.e]);
  }

  lemma OneRecord(s: State, s': State, e: ExecId, x: Exec, ok: bool)
    requires RecordsOk(s) && e in s.execs && s'.execs == s.execs[e := x] && s'.manuals == s.manuals
    requires s'.history == s.history || s'.history == s.history[e := ok]
    requires s.faulty ==> s'.faulty
    requires !s'.faulty ==> RecordOk(s'.history, e, x)
    ensures RecordsOk(s')
  {
  }

  lemma EndKeepsRecords(s: State, ev: EndEvent)
    requires RecordsOk(s) && EnabledEnd(s, ev)
    ensures RecordsOk(AfterEnd(s, ev))
  {
    var s' := AfterEnd(s, ev);
    if !s'.faulty { EndKeepsRecord(s, ev); }
    var ok := ev.AddHistory? && s.execs[ev.e].pc.ok;
    OneRecord(s, s', ev.e, s.execs[ev.e].(pc := EndPc(s, ev)), ok);
  }

  /** The execution that takes this step has not fired before it. */
  lemma EndKeepsFirings(s: State, ev: EndEvent)
    requires HistoryOk(s) && EnabledEnd(s, ev)
    ensures FiringsOk(AfterEnd(s, ev))
  {
    var s' := AfterEnd(s, ev);
    if !s.faulty { assert RecordOk(s.history, ev.e, s.execs[ev.e]); }
    forall i | 0 <= i < |s'.fired|
      ensures var f := s'.fired[i];
              f.exec in s'.execs && Past(s'.execs[f.exec].pc) && (!s'.faulty ==> FiringOk(s'.history, f))
    {
      if i < |s.fired| {
        assert s'.fired[i] == s.fired[i];
      }
    }
  }

  lemma StaleKeepsHistory(s: State, ev: StaleEvent)
    requires HistoryOk(s) && EnabledStale(s, ev)
    ensures HistoryOk(AfterStale(s, ev))
  {
  }

  lemma LocalKeepsHistory(s: State, ev: Event)
    requires HistoryOk(s) && Enabled(s, ev)
    ensures HistoryOk(Local(s, ev))
  {
    match ev
    case Env(x) => EnvKeepsHistory(s, x);
    case Edit(x) => EditKeepsHistory(s, x);
    case ByHand(x) => ManualKeepsHistory(s, x);
    case Dispatch(x) => DispatchKeepsHistory(s, x);
    case End(x) => EndKeepsHistory(s, x);
    case Stale(x) => StaleKeepsHistory(s, x);
  }

  lemma HistoryOver(s: State, db: Db)
    requires HistoryOk(s)
    ensures HistoryOk(s.(db := db))
  {
  }

  lemma {:induction false} RunKeepsHistory(s: State, evs: seq<Event>)
    requires HistoryOk(s) && IsRun(s, evs)
    ensures HistoryOk(After(s, evs))
    decreases |evs|
  {
    if evs != [] {
      LocalKeepsHistory(s, evs[0]);
      HistoryOver(Local(s, evs[0]), Send(s, StmtOf(s, evs[0])));
      RunKeepsHistory(Apply(s, evs[0]), evs[1..]);
    }
  }

  /**
   After any run without crash or lost command, every accepted completion of an execution that ran
   has its history record, with the same result.
   */
  lemma EveryFiringIsRecorded(evs: seq<Event>, i: nat)
    requires IsRun(Init(), evs) && !After(Init(), evs).faulty && i < |After(Init(), evs).fired|
    ensures var s := After(Init(), evs);
            s.fired[i].exec in s.history && s.history[s.fired[i].exec] == s.fired[i].ok
  {
    RunKeepsHistory(Init(), evs);
    assert FiringOk(After(Init(), evs).history, After(Init(), evs).fired[i]);
  }

  // ---------------------------------------------------------------- the updates

  lemma OneUpdate(s: State, s': State, e: ExecId, x: Exec)
    requires UpdatesOk(s) && s'.execs == s.execs[e := x] && UpdateOk(x)
    ensures UpdatesOk(s')
  {
  }

  lemma EnvKeepsUpdates(s: State, ev: EnvEvent)
    requires UpdatesOk(s) && EnabledEnv(s, ev)
    ensures UpdatesOk(AfterEnv(s, ev))
  {
  }

  lemma LocalKeepsUpdates(s: State, ev: Event)
    requires UpdatesOk(s) && Enabled(s, ev)
    ensures UpdatesOk(Local(s, ev))
  {
    match ev
    case Env(x) => EnvKeepsUpdates(s, x);
    case Edit(x) =>
    case ByHand(x) =>
    case Dispatch(x) =>
      OneUpdate(s, AfterDispatch(s, x), x.e, AfterDispatch(s, x).execs[x.e]);
    case End(x) =>
      assert UpdateOk(s.execs[x.e]);
      OneUpdate(s, AfterEnd(s, x), x.e, s.execs[x.e].(pc := EndPc(s, x)));
    case Stale(x) =>
  }

  lemma {:induction false} RunKeepsUpdates(s: State, evs: seq<Event>)
    requires UpdatesOk(s) && IsRun(s, evs)
    ensures UpdatesOk(After(s, evs))
    decreases |evs|
  {
    if evs != [] {
      LocalKeepsUpdates(s, evs[0]);
      RunKeepsUpdates(Apply(s, evs[0]), evs[1..]);
    }
  }

  /**
   Row r, completed with what pc carries: a success is SCHEDULED at the next time of its cron, or
   DISABLED at its end when there is none; a failure waits for its backoff, or is DISABLED at its end
   when it was the last allowed; a shutdown changes nothing but the last run. The owner goes.
   */
  predicate Completed(r: Row, r': Row, pc: Pc)
    requires pc.Decided?
  {
    && r'.def == r.def && r'.exec == None && r'.node == None && r'.started == None
    && r'.last == Some(pc.end)
    && (if !pc.fired then r'.status == Scheduled && r'.next == r.next && r'.retry == r.retry
        else if pc.ok then
          && r'.retry == 0
          && (if pc.next.Some? then r'.status == Scheduled && r'.next == pc.next
              else r'.status == Disabled && r'.next == Some(pc.end))
        else
          && r'.retry == r.retry + 1
          && (if r.retry + 1 < r.def.maxRetries then
                r'.status == Scheduled && r'.next == Some(pc.end + RetryDelay(r.retry + 1))
              else r'.status == Disabled && r'.next == Some(pc.end)))
  }

  /** Every accepted completion after a calm run does exactly that to the row it finds. */
  lemma CompletionWrites(evs: seq<Event>, e: ExecId, reply: Reply)
    requires IsRun(Init(), evs) && CalmRun(Init(), evs)
    requires var s := After(Init(), evs);
             EnabledEnd(s, Complete(e, reply)) && Matches(s.db.rows, EndStmt(s, Complete(e, reply)), Sec(s.now))
    ensures var s := After(Init(), evs); var t := s.execs[e].task;
            var rows := Send(s, EndStmt(s, Complete(e, reply))).rows;
            t in s.db.rows && t in rows && Completed(s.db.rows[t], rows[t], s.execs[e].pc)
  {
    InitSlots();
    RunKeepsSlots(Init(), evs);
    RunKeepsUpdates(Init(), evs);
    CompletionWritesIn(After(Init(), evs), e, reply);
  }

  lemma CompletionWritesIn(s: State, e: ExecId, reply: Reply)
    requires SlotInv(s) && UpdatesOk(s) && EnabledEnd(s, Complete(e, reply))
    requires Matches(s.db.rows, EndStmt(s, Complete(e, reply)), Sec(s.now))
    ensures var t := s.execs[e].task; var rows := Send(s, EndStmt(s, Complete(e, reply))).rows;
            t in s.db.rows && t in rows && Completed(s.db.rows[t], rows[t], s.execs[e].pc)
  {
    var x := s.execs[e];
    assert UpdateOk(x) && OwnOk(s.db, e, x) && FaithOk(s.db.rows, e, x) && ExecOk(e, x, s.db.claims);
    assert Frozen(x.task, s.db.rows[x.task], s.db.claims);
  }

  /** A dispatch that was claimed and not executed gives the row back as it was scanned. */
  lemma GiveBackWrites(evs: seq<Event>, e: ExecId, reply: Reply)
    requires IsRun(Init(), evs)
    requires var s := After(Init(), evs);
             EnabledEnd(s, GiveBack(e, reply)) && Matches(s.db.rows, EndStmt(s, GiveBack(e, reply)), Sec(s.now))
    ensures var s := After(Init(), evs); var x := s.execs[e];
            var rows := Send(s, EndStmt(s, GiveBack(e, reply))).rows;
            && x.task in s.db.rows && x.snap.next == s.db.rows[x.task].next
            && rows == s.db.rows[x.task :=
                 Row(s.db.rows[x.task].def, Scheduled, x.snap.next, x.snap.last, x.snap.retry, None, None, None)]
  {
    var s := After(Init(), evs);
    var x := s.execs[e];
    InitSlots();
    RunKeepsBased(Init(), evs);
    assert OwnOk(s.db, e, x) && ExecOk(e, x, s.db.claims) && Frozen(x.task, s.db.rows[x.task], s.db.claims);
  }

  // ---------------------------------------------------------------- what is carried to the completion

  /** The task has ended and its outcome is on the way to the table. */
  predicate Reported(pc: Pc) {
    pc.Finished? || pc.Recorded? || pc.Decided?
  }

  /** From pc an execution gets to pc' with the same outcome, and with the same decision once there is one. */
  predicate Follows(pc: Pc, pc': Pc) {
    && (Reported(pc) && Reported(pc') ==> pc'.ok == pc.ok && pc'.end == pc.end && (pc.Decided? ==> pc' == pc))
    && (Reported(pc) ==> Reported(pc') || Past(pc'))
    && (Past(pc) ==> Past(pc'))
  }

  lemma DispatchFollows(s: State, ev: DispatchEvent, e: ExecId)
    requires EnabledDispatch(s, ev) && e in s.execs
    ensures e in AfterDispatch(s, ev).execs && Follows(s.execs[e].pc, AfterDispatch(s, ev).execs[e].pc)
  {
  }

  lemma EndFollows(s: State, ev: EndEvent, e: ExecId)
    requires EnabledEnd(s, ev) && e in s.execs
    ensures e in AfterEnd(s, ev).execs && Follows(s.execs[e].pc, AfterEnd(s, ev).execs[e].pc)
  {
  }

  lemma EnvFollows(s: State, ev: EnvEvent, e: ExecId)
    requires EnabledEnv(s, ev) && e in s.execs
    ensures e in AfterEnv(s, ev).execs && Follows(s.execs[e].pc, AfterEnv(s, ev).execs[e].pc)
  {
  }

  lemma LocalFollows(s: State, ev: Event, e: ExecId)
    requires Enabled(s, ev) && e in s.execs
    ensures e in Local(s, ev).execs && Follows(s.execs[e].pc, Local(s, ev).execs[e].pc)
  {
    match ev
    case Env(x) => EnvFollows(s, x, e);
    case Edit(x) =>
    case ByHand(x) =>
    case Dispatch(x) => DispatchFollows(s, x, e);
    case End(x) => EndFollows(s, x, e);
    case Stale(x) =>
  }

  lemma {:induction false} RunFollows(s: State, evs: seq<Event>, e: ExecId)
    requires IsRun(s, evs) && e in s.execs && (Reported(s.execs[e].pc) || Past(s.execs[e].pc))
    ensures e in After(s, evs).execs && Follows(s.execs[e].pc, After(s, evs).execs[e].pc)
    decreases |evs|
  {
    if evs != [] {
      LocalFollows(s, evs[0], e);
      RunFollows(Apply(s, evs[0]), evs[1..], e);
    }
  }

  /**
   What a completion carries: the result and the second of the execution's end, and the next time and
   the shutdown as its decision saw them, however long the steps between take.
   */
  lemma OutcomeIsCarried(s: State, e: ExecId, ok: bool, evs: seq<Event>)
    requires EnabledEnd(s, Finish(e, ok)) && IsRun(Apply(s, End(Finish(e, ok))), evs)
    ensures var s' := After(Apply(s, End(Finish(e, ok))), evs);
            && e in s'.execs
            && (Reported(s'.execs[e].pc) ==> s'.execs[e].pc.ok == ok && s'.execs[e].pc.end == s.now / 1000)
  {
    var s1 := Apply(s, End(Finish(e, ok)));
    assert s1.execs[e].pc == Finished(ok, s.now / 1000);
    RunFollows(s1, evs, e);
  }

  lemma DecisionIsCarried(s: State, e: ExecId, next: Option<int>, evs: seq<Event>)
    requires EnabledEnd(s, Decide(e, next)) && IsRun(Apply(s, End(Decide(e, next))), evs)
    ensures var s' := After(Apply(s, End(Decide(e, next))), evs);
            && e in s'.execs
            && (s'.execs[e].pc.Decided? ==> s'.execs[e].pc.next == next && s'.execs[e].pc.fired == (s.execs[e].node !in s.down))
  {
    var s1 := Apply(s, End(Decide(e, next)));
    assert s1.execs[e].pc.Decided? && s1.execs[e].pc.next == next && s1.execs[e].pc.fired == (s.execs[e].node !in s.down);
    RunFollows(s1, evs, e);
    assert !Past(s1.execs[e].pc);
  }

  // ---------------------------------------------------------------- records stay

  /** e has written its record, if it ever will. */
  predicate Written(s: State, e: ExecId) {
    || (e in s.execs && e !in s.manuals && (AfterRecord(s.execs[e].pc) || Past(s.execs[e].pc)))
    || (e in s.manuals && e !in s.execs && s.manuals[e].pc != MRunning)
  }

  predicate SameRecord(h: map<ExecId, bool>, h': map<ExecId, bool>, e: ExecId) {
    (e in h' <==> e in h) && (e in h ==> h'[e] == h[e])
  }

  lemma EnvKeepsRecord(s: State, ev: EnvEvent, e: ExecId)
    requires EnabledEnv(s, ev) && Written(s, e)
    ensures Written(AfterEnv(s, ev), e) && AfterEnv(s, ev).history == s.history
  {
  }

  lemma ManualKeepsRecord(s: State, ev: ManualEvent, e: ExecId)
    requires EnabledManual(s, ev) && Written(s, e)
    ensures Written(AfterManual(s, ev), e) && SameRecord(s.history, AfterManual(s, ev).history, e)
  {
  }

  lemma DispatchKeepsRecord(s: State, ev: DispatchEvent, e: ExecId)
    requires EnabledDispatch(s, ev) && Written(s, e)
    ensures Written(AfterDispatch(s, ev), e) && AfterDispatch(s, ev).history == s.history
  {
  }

  lemma EndKeepsWritten(s: State, ev: EndEvent, e: ExecId)
    requires EnabledEnd(s, ev) && Written(s, e)
    ensures Written(AfterEnd(s, ev), e) && SameRecord(s.history, AfterEnd(s, ev).history, e)
  {
  }

  lemma LocalKeepsRecord(s: State, ev: Event, e: ExecId)
    requires Enabled(s, ev) && Written(s, e)
    ensures Written(Local(s, ev), e) && SameRecord(s.history, Local(s, ev).history, e)
  {
    match ev
    case Env(x) => EnvKeepsRecord(s, x, e);
    case Edit(x) =>
    case ByHand(x) => ManualKeepsRecord(s, x, e);
    case Dispatch(x) => DispatchKeepsRecord(s, x, e);
    case End(x) => EndKeepsWritten(s, x, e);
    case Stale(x) =>
  }

  lemma {:induction false} RunKeepsRecord(s: State, evs: seq<Event>, e: ExecId)
    requires IsRun(s, evs) && Written(s, e)
    ensures SameRecord(s.history, After(s, evs).history, e)
    decreases |evs|
  {
    if evs != [] {
      LocalKeepsRecord(s, evs[0], e);
      RunKeepsRecord(Apply(s, evs[0]), evs[1..], e);
    }
  }

  /** The record of a finished manual run carries its result, for good. */
  lemma ManualRecordStays(s: State, e: ExecId, ok: bool, reply: Reply, evs: seq<Event>)
    requires Fenced(s) && EnabledManual(s, RunFinish(e, ok, reply)) && reply != LostSkipped
    requires IsRun(Apply(s, ByHand(RunFinish(e, ok, reply))), evs)
    ensures var h := After(Apply(s, ByHand(RunFinish(e, ok, reply))), evs).history; e in h && h[e] == ok
  {
    var s1 := Apply(s, ByHand(RunFinish(e, ok, reply)));
    assert e !in s.execs;
    assert Written(s1, e) && s1.history == s.history[e := ok];
    RunKeepsRecord(s1, evs, e);
  }

  /** So does the record of a dispatched one. */
  lemma RecordStays(s: State, e: ExecId, reply: Reply, evs: seq<Event>)
    requires Fenced(s) && EnabledEnd(s, AddHistory(e, reply)) && reply != LostSkipped
    requires IsRun(Apply(s, End(AddHistory(e, reply))), evs)
    ensures var h := After(Apply(s, End(AddHistory(e, reply))), evs).history; e in h && h[e] == s.execs[e].pc.ok
  {
    var s1 := Apply(s, End(AddHistory(e, reply)));
    assert e !in s.manuals;
    assert Written(s1, e) && s1.history == s.history[e := s.execs[e].pc.ok];
    RunKeepsRecord(s1, evs, e);
  }
}
