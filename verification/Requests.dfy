/**
 Management requests over whole runs: what an enable, an edit or a manual run writes, column by column,
 when it was read long before; and what a submit, a cancel and a delete leave for good.
 */
module Requests {
  import opened Tasks
  import opened Protocol
  import opened Fencing
  import opened Slots
  import opened Offers

  /** Which requests get past their checks: those for rows that exist and are not RUNNING, with a later time. */
  lemma RequestsExactly(s: State, o: OpId, t: TaskId, def: Definition, status: Status, next: Option<int>, slot: int)
    ensures EnabledEdit(s, Submit(t, def, slot)) <==> t !in s.created && def.maxRetries == 3 && slot > s.now / 1000
    ensures EnabledEdit(s, Cancel(t)) && EnabledEdit(s, Delete(t))
    ensures EnabledEdit(s, EnableRead(o, t, slot)) <==>
            o !in s.ops && t in s.db.rows && s.db.rows[t].status != Running && slot > s.now / 1000
    ensures EnabledEdit(s, UpdateRead(o, t, def, status, next)) <==>
            && o !in s.ops && t in s.db.rows && s.db.rows[t].status != Running && def.maxRetries > 0
            && match status
               case Running => false
               case Scheduled => next.Some? && next.value > s.now / 1000
               case Disabled => next == s.db.rows[t].next
    ensures EnabledManual(s, RunRead(o, t)) <==> o !in s.ops && t in s.db.rows && s.db.rows[t].status != Running
  {
  }

  // ---------------------------------------------------------------- a pending request keeps what it read

  /** The step that writes request o. */
  predicate Ends(ev: Event, o: OpId) {
    ev == Edit(EnableWrite(o)) || ev == Edit(UpdateWrite(o)) || (ev.ByHand? && ev.manual.RunClaim? && ev.manual.o == o)
  }

  ghost predicate Pending(evs: seq<Event>, o: OpId) {
    forall i :: 0 <= i < |evs| ==> !Ends(evs[i], o)
  }

  /** No request comes, goes or changes. */
  predicate SameRequests(s: State, s': State) {
    s'.ops == s.ops && s'.created == s.created
  }

  lemma EnvSameRequests(s: State, ev: EnvEvent)
    requires EnabledEnv(s, ev)
    ensures SameRequests(s, AfterEnv(s, ev))
  {
  }

  lemma DispatchSameRequests(s: State, ev: DispatchEvent)
    requires EnabledDispatch(s, ev)
    ensures SameRequests(s, AfterDispatch(s, ev))
  {
  }

  lemma EndSameRequests(s: State, ev: EndEvent)
    requires EnabledEnd(s, ev)
    ensures SameRequests(s, AfterEnd(s, ev))
  {
  }

  lemma StaleSameRequests(s: State, ev: StaleEvent)
    requires EnabledStale(s, ev)
    ensures SameRequests(s, AfterStale(s, ev))
  {
  }

  lemma EditKeepsOp(s: State, ev: EditEvent, o: OpId)
    requires EnabledEdit(s, ev) && o in s.ops && !Ends(Edit(ev), o)
    ensures o in AfterEdit(s, ev).ops && AfterEdit(s, ev).ops[o] == s.ops[o]
  {
  }

  lemma ManualKeepsOp(s: State, ev: ManualEvent, o: OpId)
    requires EnabledManual(s, ev) && o in s.ops && !Ends(ByHand(ev), o)
    ensures o in AfterManual(s, ev).ops && AfterManual(s, ev).ops[o] == s.ops[o]
  {
  }

  lemma LocalKeepsOp(s: State, ev: Event, o: OpId)
    requires Enabled(s, ev) && o in s.ops && !Ends(ev, o)
    ensures o in Local(s, ev).ops && Local(s, ev).ops[o] == s.ops[o]
  {
    match ev
    case Env(x) => EnvSameRequests(s, x);
    case Edit(x) => EditKeepsOp(s, x, o);
    case ByHand(x) => ManualKeepsOp(s, x, o);
    case Dispatch(x) => DispatchSameRequests(s, x);
    case End(x) => EndSameRequests(s, x);
    case Stale(x) => StaleSameRequests(s, x);
  }

  lemma {:induction false} RunKeepsOp(s: State, evs: seq<Event>, o: OpId)
    requires IsRun(s, evs) && o in s.ops && Pending(evs, o)
    ensures o in After(s, evs).ops && After(s, evs).ops[o] == s.ops[o]
    decreases |evs|
  {
    if evs != [] {
      LocalKeepsOp(s, evs[0], o);
      assert forall i :: 0 <= i < |evs[1..]| ==> evs[1..][i] == evs[i + 1];
      RunKeepsOp(Apply(s, evs[0]), evs[1..], o);
    }
  }

  /**
   Enable: whatever happens between the read and the write, the write is refused exactly when the row
   is gone or RUNNING by then; otherwise the row is SCHEDULED at the computed time with the last run
   and the retry count that were read, and with the definition it has now.
   */
  lemma EnableWrites(s: State, o: OpId, t: TaskId, slot: int, evs: seq<Event>)
    requires EnabledEdit(s, EnableRead(o, t, slot))
    requires IsRun(Apply(s, Edit(EnableRead(o, t, slot))), evs) && Pending(evs, o)
    ensures var s' := After(Apply(s, Edit(EnableRead(o, t, slot))), evs); var read := s.db.rows[t];
            && EnabledEdit(s', EnableWrite(o))
            && Apply(s', Edit(EnableWrite(o))).db.rows ==
                 if t in s'.db.rows && s'.db.rows[t].status != Running then
                   s'.db.rows[t := Row(s'.db.rows[t].def, Scheduled, Some(slot), read.last, read.retry, None, None, None)]
                 else s'.db.rows
  {
    var s1 := Apply(s, Edit(EnableRead(o, t, slot)));
    assert o in s1.ops && s1.ops[o] == EnableOp(t, s.db.rows[t], slot);
    RunKeepsOp(s1, evs, o);
    EnableWritten(After(s1, evs), o);
  }

  lemma EnableWritten(s: State, o: OpId)
    requires o in s.ops && s.ops[o].EnableOp?
    ensures var t := s.ops[o].task; var read := s.ops[o].read;
            Apply(s, Edit(EnableWrite(o))).db.rows ==
              if t in s.db.rows && s.db.rows[t].status != Running then
                s.db.rows[t := Row(s.db.rows[t].def, Scheduled, Some(s.ops[o].slot), read.last, read.retry, None, None, None)]
              else s.db.rows
  {
  }

  /** Edit: the same with the new definition, status and time; the owner columns are not touched. */
  lemma EditWrites(s: State, o: OpId, t: TaskId, def: Definition, status: Status, next: Option<int>, evs: seq<Event>)
    requires EnabledEdit(s, UpdateRead(o, t, def, status, next))
    requires IsRun(Apply(s, Edit(UpdateRead(o, t, def, status, next))), evs) && Pending(evs, o)
    ensures var s' := After(Apply(s, Edit(UpdateRead(o, t, def, status, next))), evs); var read := s.db.rows[t];
            && EnabledEdit(s', UpdateWrite(o))
            && Apply(s', Edit(UpdateWrite(o))).db.rows ==
                 if t in s'.db.rows && s'.db.rows[t].status != Running then
                   var r := s'.db.rows[t];
                   s'.db.rows[t := Row(def, status, next, read.last, read.retry, r.exec, r.node, r.started)]
                 else s'.db.rows
  {
    var ev := Edit(UpdateRead(o, t, def, status, next));
    var s1 := Apply(s, ev);
    assert o in s1.ops && s1.ops[o] == UpdateOp(t, s.db.rows[t], def, status, next);
    RunKeepsOp(s1, evs, o);
    EditWritten(After(s1, evs), o);
  }

  lemma EditWritten(s: State, o: OpId)
    requires o in s.ops && s.ops[o].UpdateOp?
    ensures var op := s.ops[o]; var t := op.task;
            Apply(s, Edit(UpdateWrite(o))).db.rows ==
              if t in s.db.rows && s.db.rows[t].status != Running then
                var r := s.db.rows[t];
                s.db.rows[t := Row(op.def, op.status, op.next, op.read.last, op.read.retry, r.exec, r.node, r.started)]
              else s.db.rows
  {
  }

  // ---------------------------------------------------------------- manual runs

  /** The claim of a manual run succeeds exactly when the row still has the status that was read. */
  lemma RunNowClaims(s: State, o: OpId, t: TaskId, evs: seq<Event>, e: ExecId, n: Node)
    requires EnabledManual(s, RunRead(o, t))
    requires IsRun(Apply(s, ByHand(RunRead(o, t))), evs) && Pending(evs, o)
    requires FreshExec(After(Apply(s, ByHand(RunRead(o, t))), evs), e)
    ensures var s1 := After(Apply(s, ByHand(RunRead(o, t))), evs); var read := s.db.rows[t];
            && EnabledManual(s1, RunClaim(o, e, n, Ack))
            && var s' := Apply(s1, ByHand(RunClaim(o, e, n, Ack)));
               if t in s1.db.rows && s1.db.rows[t].status == read.status then
                 var r := s1.db.rows[t];
                 && s'.db.rows == s1.db.rows[t :=
                      Row(r.def, Running, r.next, r.last, r.retry, Some(e), Some(n), Some(s1.now / 1000))]
                 && e in s'.manuals && s'.manuals[e] == Manual(t, n, read, MRunning)
               else s'.db.rows == s1.db.rows && e in s'.manuals && s'.manuals[e].pc == MDone
  {
    var s0 := Apply(s, ByHand(RunRead(o, t)));
    assert o in s0.ops && s0.ops[o] == RunOp(t, s.db.rows[t]);
    RunKeepsOp(s0, evs, o);
    RunNowClaimed(After(s0, evs), o, e, n);
  }

  lemma RunNowClaimed(s: State, o: OpId, e: ExecId, n: Node)
    requires o in s.ops && s.ops[o].RunOp? && FreshExec(s, e)
    ensures var t := s.ops[o].task; var read := s.ops[o].read; var s' := Apply(s, ByHand(RunClaim(o, e, n, Ack)));
            if t in s.db.rows && s.db.rows[t].status == read.status then
              var r := s.db.rows[t];
              && s'.db.rows == s.db.rows[t :=
                   Row(r.def, Running, r.next, r.last, r.retry, Some(e), Some(n), Some(s.now / 1000))]
              && e in s'.manuals && s'.manuals[e] == Manual(t, n, read, MRunning)
            else s'.db.rows == s.db.rows && e in s'.manuals && s'.manuals[e].pc == MDone
  {
  }

  /** A manual run only goes on: running, finished at one second, done. */
  predicate MovesOn(m: Manual, m': Manual) {
    && m'.task == m.task && m'.node == m.node && m'.read == m.read
    && (m.pc == MDone ==> m'.pc == MDone)
    && (m.pc.MFinished? ==> m'.pc == m.pc || m'.pc == MDone)
  }

  lemma LocalMovesManual(s: State, ev: Event, e: ExecId)
    requires Enabled(s, ev) && e in s.manuals
    ensures e in Local(s, ev).manuals && MovesOn(s.manuals[e], Local(s, ev).manuals[e])
  {
    match ev
    case Env(x) => EnvMovesManual(s, x, e);
    case Edit(x) =>
    case ByHand(x) => ManualMovesManual(s, x, e);
    case Dispatch(x) =>
    case End(x) =>
    case Stale(x) =>
  }

  lemma EnvMovesManual(s: State, ev: EnvEvent, e: ExecId)
    requires EnabledEnv(s, ev) && e in s.manuals
    ensures e in AfterEnv(s, ev).manuals && MovesOn(s.manuals[e], AfterEnv(s, ev).manuals[e])
  {
  }

  lemma ManualMovesManual(s: State, ev: ManualEvent, e: ExecId)
    requires EnabledManual(s, ev) && e in s.manuals
    ensures e in AfterManual(s, ev).manuals && MovesOn(s.manuals[e], AfterManual(s, ev).manuals[e])
  {
  }

  lemma {:induction false} RunMovesManual(s: State, evs: seq<Event>, e: ExecId)
    requires IsRun(s, evs) && e in s.manuals
    ensures e in After(s, evs).manuals && MovesOn(s.manuals[e], After(s, evs).manuals[e])
    decreases |evs|
  {
    if evs != [] {
      LocalMovesManual(s, evs[0], e);
      RunMovesManual(Apply(s, evs[0]), evs[1..], e);
    }
  }

  /**
   The completion of a manual run that finished at one moment and completes at another: if it still
   owns the row, the row gets back the status, the slot and the retry count that were read, with the
   second it finished as its last run; otherwise nothing changes.
   */
  lemma RunNowWrites(s: State, e: ExecId, ok: bool, reply: Reply, evs: seq<Event>)
    requires EnabledManual(s, RunFinish(e, ok, reply)) && IsRun(Apply(s, ByHand(RunFinish(e, ok, reply))), evs)
    requires EnabledManual(After(Apply(s, ByHand(RunFinish(e, ok, reply))), evs), RunComplete(e, Ack))
    ensures var s' := After(Apply(s, ByHand(RunFinish(e, ok, reply))), evs); var t := s.manuals[e].task;
            var read := s.manuals[e].read; var rows := Apply(s', ByHand(RunComplete(e, Ack))).db.rows;
            rows == if OwnerOf(s'.db.rows, t) == Some(e) && s'.db.rows[t].status == Running then
                      s'.db.rows[t := Row(s'.db.rows[t].def, read.status, read.next, Some(s.now / 1000), read.retry, None, None, None)]
                    else s'.db.rows
  {
    var s1 := Apply(s, ByHand(RunFinish(e, ok, reply)));
    assert e in s1.manuals && s1.manuals[e] == s.manuals[e].(pc := MFinished(s.now / 1000));
    RunMovesManual(s1, evs, e);
  }

  // ---------------------------------------------------------------- submit, cancel, delete

  /** A submit inserts one row, scheduled, never run and unowned. */
  lemma SubmitInserts(evs: seq<Event>, t: TaskId, def: Definition, slot: int)
    requires IsRun(Init(), evs) && EnabledEdit(After(Init(), evs), Submit(t, def, slot))
    ensures var s := After(Init(), evs);
            && t !in s.db.rows
            && Apply(s, Edit(Submit(t, def, slot))).db.rows
               == s.db.rows[t := Row(def, Scheduled, Some(slot), None, 0, None, None, None)]
  {
    RowsAreCreated(evs, t);
  }

  lemma RowsAreCreated(evs: seq<Event>, t: TaskId)
    requires IsRun(Init(), evs)
    ensures t in After(Init(), evs).db.rows ==> t in After(Init(), evs).created
  {
    InitSlots();
    RunKeepsBased(Init(), evs);
  }

  /** A cancel disables whatever row there is and takes it from its owner; every other column stays. */
  lemma CancelWrites(s: State, t: TaskId)
    ensures Apply(s, Edit(Cancel(t))).db.rows ==
            if t in s.db.rows then
              var r := s.db.rows[t]; s.db.rows[t := Row(r.def, Disabled, r.next, r.last, r.retry, None, None, None)]
            else s.db.rows
  {
  }

  /** The steps that may touch the row of a disabled task: an enable, an edit or a manual claim of it. */
  predicate Revives(s: State, ev: Event, t: TaskId)
    requires Enabled(s, ev)
  {
    && ((ev.Edit? && (ev.edit.EnableWrite? || ev.edit.UpdateWrite?)) || (ev.ByHand? && ev.manual.RunClaim?))
    && StmtOf(s, ev) != NoQ && StmtOf(s, ev).t == t
  }

  ghost predicate LeftAlone(s: State, evs: seq<Event>, t: TaskId)
    requires IsRun(s, evs)
    decreases |evs|
  {
    evs == [] || (!Revives(s, evs[0], t) && LeftAlone(Apply(s, evs[0]), evs[1..], t))
  }

  lemma StepKeepsDisabled(s: State, ev: Event, t: TaskId)
    requires Fenced(s) && t in s.db.rows && s.db.rows[t].status == Disabled && Enabled(s, ev) && !Revives(s, ev, t)
    ensures t in Apply(s, ev).db.rows ==> Apply(s, ev).db.rows[t] == s.db.rows[t]
    ensures t !in Apply(s, ev).db.rows ==> ev == Edit(Delete(t))
  {
    assert WellFormed(s.db.rows[t]);
    StatementSound(s, ev);
    DisabledUntouched(s, StmtOf(s, ev), t);
  }

  lemma DisabledUntouched(s: State, q: Stmt, t: TaskId)
    requires t in s.db.rows && WellFormed(s.db.rows[t]) && s.db.rows[t].status == Disabled
    requires q.ClaimQ? && q.t == t ==> q.expected == Scheduled
    requires q.RuntimeQ? || q.DefineQ? ==> q.t != t
    ensures t in Send(s, q).rows ==> Send(s, q).rows[t] == s.db.rows[t]
    ensures t !in Send(s, q).rows ==> q == DeleteQ(t)
  {
  }

  /**
   A disabled task stays exactly as it is, whatever executions of it are still about, until somebody
   enables, edits, runs or deletes it.
   */
  lemma {:induction false} DisabledStays(s: State, evs: seq<Event>, t: TaskId)
    requires Fenced(s) && t in s.db.rows && s.db.rows[t].status == Disabled && t in s.created
    requires IsRun(s, evs) && LeftAlone(s, evs, t)
    ensures t in After(s, evs).db.rows ==> After(s, evs).db.rows[t] == s.db.rows[t]
    decreases |evs|
  {
    if evs != [] {
      var s1 := Apply(s, evs[0]);
      StepKeepsDisabled(s, evs[0], t);
      StepKeepsFenced(s, evs[0]);
      StepKeepsCreated(s, evs[0]);
      if t in s1.db.rows {
        DisabledStays(s1, evs[1..], t);
      } else {
        GoneForGood(s1, evs[1..], t);
      }
    }
  }

  lemma StepKeepsCreated(s: State, ev: Event)
    requires Enabled(s, ev)
    ensures s.created <= Apply(s, ev).created
  {
    LocalKeepsCreated(s, ev);
  }

  lemma LocalKeepsCreated(s: State, ev: Event)
    requires Enabled(s, ev)
    ensures s.created <= Local(s, ev).created
  {
    match ev
    case Env(x) => EnvSameRequests(s, x);
    case Edit(x) => EditKeepsCreated(s, x);
    case ByHand(x) => ManualKeepsCreated(s, x);
    case Dispatch(x) => DispatchSameRequests(s, x);
    case End(x) => EndSameRequests(s, x);
    case Stale(x) => StaleSameRequests(s, x);
  }

  lemma EditKeepsCreated(s: State, ev: EditEvent)
    requires EnabledEdit(s, ev)
    ensures s.created <= AfterEdit(s, ev).created
  {
  }

  lemma ManualKeepsCreated(s: State, ev: ManualEvent)
    requires EnabledManual(s, ev)
    ensures AfterManual(s, ev).created == s.created
  {
  }

  lemma StepStaysGone(s: State, ev: Event, t: TaskId)
    requires t in s.created && t !in s.db.rows && Enabled(s, ev)
    ensures t !in Apply(s, ev).db.rows
  {
    var q := StmtOf(s, ev);
    assert q.InsertQ? ==> q.t != t;
  }

  /** A task that is gone never comes back. */
  lemma {:induction false} GoneForGood(s: State, evs: seq<Event>, t: TaskId)
    requires t in s.created && t !in s.db.rows && IsRun(s, evs)
    ensures t !in After(s, evs).db.rows
    decreases |evs|
  {
    if evs != [] {
      StepStaysGone(s, evs[0], t);
      StepKeepsCreated(s, evs[0]);
      GoneForGood(Apply(s, evs[0]), evs[1..], t);
    }
  }

  /** A delete removes the row exactly when it is not RUNNING, and for good. */
  lemma DeleteIsFinal(before: seq<Event>, t: TaskId, evs: seq<Event>)
    requires IsRun(Init(), before) && t in After(Init(), before).db.rows
    requires IsRun(Apply(After(Init(), before), Edit(Delete(t))), evs)
    ensures var s := After(Init(), before); var s1 := Apply(s, Edit(Delete(t)));
            if s.db.rows[t].status == Running then s1.db == s.db
            else s1.db.rows == s.db.rows - {t} && t !in After(s1, evs).db.rows
  {
    RowsAreCreated(before, t);
    DeletedIsGone(After(Init(), before), t, evs);
  }

  lemma DeletedIsGone(s: State, t: TaskId, evs: seq<Event>)
    requires t in s.db.rows && t in s.created && IsRun(Apply(s, Edit(Delete(t))), evs)
    ensures var s1 := Apply(s, Edit(Delete(t)));
            if s.db.rows[t].status == Running then s1.db == s.db
            else s1.db.rows == s.db.rows - {t} && t !in After(s1, evs).db.rows
  {
    if s.db.rows[t].status != Running {
      StepKeepsCreated(s, Edit(Delete(t)));
      GoneForGood(Apply(s, Edit(Delete(t))), evs, t);
    }
  }
}
