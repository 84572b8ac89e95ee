/**
 Row ownership over whole runs: the row is RUNNING for e exactly while the latest claim, completion,
 recovery or cancel of its task is e's claim, and nothing else in it moves meanwhile.
 */
module Fencing {
  import opened Tasks
  import opened Protocol

  /** The execution the row names, None when there is no row or no owner. */
  function OwnerOf(rows: Rows, t: TaskId): Option<ExecId> {
    if t in rows then rows[t].exec else None
  }

  /** The execution whose claim is the latest entry on task t, if that entry is a claim. */
  function LastOwner(log: seq<Entry>, t: TaskId): Option<ExecId> {
    if log == [] then None
    else
      var x := log[|log| - 1];
      if x.task != t then LastOwner(log[..|log| - 1], t)
      else if x.EClaim? then Some(x.exec) else None
  }

  lemma LastOwnerAppend(log: seq<Entry>, x: Entry)
    ensures forall t :: LastOwner(log + [x], t) == (
                if x.task != t then LastOwner(log, t) else if x.EClaim? then Some(x.exec) else None)
  {
    assert (log + [x])[..|log|] == log;
  }

  /** The row is what e's claim made of the row it found. */
  ghost predicate Frozen(t: TaskId, r: Row, claims: map<ExecId, Claim>) {
    r.exec.Some? ==>
      var e := r.exec.value;
      && e in claims
      && claims[e].task == t
      && WellFormed(claims[e].before)
      && claims[e].before.status != Running
      && r == ClaimRow(claims[e].before, e, claims[e].node, claims[e].at)
  }

  /** Entry i ends an ownership only when the latest entry before it is that owner's claim. */
  ghost predicate EndsOwn(log: seq<Entry>, i: nat)
    requires i < |log|
  {
    && (log[i].EComplete? ==> LastOwner(log[..i], log[i].task) == Some(log[i].exec))
    && (log[i].ERecover? ==> log[i].target.Some? && LastOwner(log[..i], log[i].task) == log[i].target)
  }

  ghost predicate LogOk(log: seq<Entry>, claims: map<ExecId, Claim>) {
    && (forall i :: 0 <= i < |log| ==> EndsOwn(log, i))
    && (forall i :: 0 <= i < |log| && log[i].EClaim? ==>
          log[i].exec in claims && claims[log[i].exec].task == log[i].task)
    && (forall i, j :: 0 <= i < j < |log| && log[i].EClaim? && log[j].EClaim? ==> log[i].exec != log[j].exec)
  }

  /** The invariant of the table, the claims made and the log. */
  ghost predicate Core(db: Db) {
    && (forall t :: t in db.rows ==> WellFormed(db.rows[t]) && Frozen(t, db.rows[t], db.claims))
    && (forall t :: OwnerOf(db.rows, t) == LastOwner(db.log, t))
    && LogOk(db.log, db.claims)
  }

  lemma PrefixEnds(log: seq<Entry>, x: Entry)
    requires forall i :: 0 <= i < |log| ==> EndsOwn(log, i)
    requires x.EComplete? ==> LastOwner(log, x.task) == Some(x.exec)
    requires x.ERecover? ==> x.target.Some? && LastOwner(log, x.task) == x.target
    ensures forall i :: 0 <= i < |log + [x]| ==> EndsOwn(log + [x], i)
  {
    var l := log + [x];
    forall i | 0 <= i < |l| ensures EndsOwn(l, i) {
      if i < |log| {
        assert l[..i] == log[..i];
        assert EndsOwn(log, i);
      } else {
        assert l[..i] == log;
      }
    }
  }

  // ---------------------------------------------------------------- the statements keep Core

  lemma ClaimKeepsCore(db: Db, q: Stmt, sec: int)
    requires Core(db) && q.ClaimQ? && Matches(db.rows, q, sec)
    requires q.e !in db.claims && q.expected != Running
    ensures Core(Perform(db, q, sec))
  {
    LastOwnerAppend(db.log, EClaim(q.t, q.e));
    PrefixEnds(db.log, EClaim(q.t, q.e));
  }

  lemma EndKeepsCore(db: Db, t: TaskId, r: Row, x: Entry)
    requires Core(db) && t in db.rows && x.task == t && !x.EClaim?
    requires x.EComplete? ==> db.rows[t].exec == Some(x.exec)
    requires x.ERecover? ==> x.target.Some? && db.rows[t].exec == x.target
    requires WellFormed(r) && r.status != Running
    ensures Core(Db(db.rows[t := r], db.claims, db.log + [x]))
  {
    assert OwnerOf(db.rows, t) == LastOwner(db.log, t);
    LastOwnerAppend(db.log, x);
    PrefixEnds(db.log, x);
  }

  lemma WriteKeepsCore(db: Db, t: TaskId, r: Row)
    requires Core(db)
    requires t in db.rows ==> db.rows[t].status != Running
    requires WellFormed(r) && r.status != Running
    ensures Core(db.(rows := db.rows[t := r]))
  {
    assert OwnerOf(db.rows, t) == LastOwner(db.log, t);
    assert forall u :: u != t ==> OwnerOf(db.rows[t := r], u) == OwnerOf(db.rows, u);
  }

  lemma DeleteKeepsCore(db: Db, t: TaskId)
    requires Core(db) && Editable(db.rows, t)
    ensures Core(db.(rows := db.rows - {t}))
  {
    assert OwnerOf(db.rows, t) == LastOwner(db.log, t);
    assert forall u :: u != t ==> OwnerOf(db.rows - {t}, u) == OwnerOf(db.rows, u);
  }

  /** What a statement needs from the party that sends it. */
  ghost predicate Sound(db: Db, q: Stmt) {
    match q
    case ClaimQ(_, e, _, expected, _) => e !in db.claims && expected != Running
    case CompleteQ(_, _, u) => u.status != Running && u.next.Some?
    case InsertQ(_, r) => WellFormed(r) && r.status != Running
    case RuntimeQ(_, u) => u.status != Running && u.next.Some?
    case DefineQ(_, _, u) => u.status != Running && u.next.Some?
    case _ => true
  }

  lemma StatementKeepsCore(db: Db, q: Stmt, sec: int)
    requires Core(db) && Sound(db, q)
    ensures Core(Perform(db, q, sec))
  {
    if Matches(db.rows, q, sec) {
      match q
      case ClaimQ(_, _, _, _, _) => ClaimKeepsCore(db, q, sec);
      case CompleteQ(t, e, u) => EndKeepsCore(db, t, CompleteRow(db.rows[t], u), EComplete(t, e));
      case RecoverQ(t, e) => EndKeepsCore(db, t, RecoverRow(db.rows[t]), ERecover(t, e));
      case CancelQ(t) => EndKeepsCore(db, t, CancelRow(db.rows[t]), ECancel(t));
      case InsertQ(t, r) => WriteKeepsCore(db, t, r);
      case RuntimeQ(t, u) => WriteKeepsCore(db, t, RuntimeRow(db.rows[t], u));
      case DefineQ(t, d, u) => WriteKeepsCore(db, t, DefineRow(db.rows[t], d, u));
      case DeleteQ(t) => DeleteKeepsCore(db, t);
    }
  }

  // ---------------------------------------------------------------- every step keeps the invariant

  /** The program counters before the claim has been sent. */
  predicate BeforeClaim(pc: Pc) {
    pc.Scanned? || pc.Locked? || pc.Leased? || pc.Registered?
  }

  ghost predicate ExecOk(e: ExecId, x: Exec, claims: map<ExecId, Claim>) {
    && WellFormed(x.snap) && x.snap.status == Scheduled
    && (x.pc.Decided? ==> x.pc.u.next.Some? && x.pc.u.status != Running)
    && (BeforeClaim(x.pc) ==> e !in claims)
    && (e in claims ==> claims[e].task == x.task)
  }

  ghost predicate OpOk(o: Op) {
    && WellFormed(o.read) && o.read.status != Running
    && (o.UpdateOp? ==> o.next.Some? && o.status != Running)
  }

  ghost predicate ManualOk(e: ExecId, m: Manual, claims: map<ExecId, Claim>) {
    && WellFormed(m.read) && m.read.status != Running
    && (e in claims ==> claims[e].task == m.task)
  }

  ghost predicate RowsOk(rows: Rows) {
    forall t :: t in rows ==> WellFormed(rows[t])
  }

  /** What the parties hold in hand is well formed, and only dispatched executions have claimed. */
  ghost predicate Parties(s: State, claims: map<ExecId, Claim>) {
    && (forall e :: e in s.execs ==> ExecOk(e, s.execs[e], claims))
    && (forall e :: e in s.manuals ==> ManualOk(e, s.manuals[e], claims))
    && (forall o :: o in s.ops ==> OpOk(s.ops[o]))
    && (forall e :: e in claims ==> e in s.execs || e in s.manuals)
    && (forall e :: e in s.execs ==> e !in s.manuals)
  }

  /** Only execution e moved, and it is still well formed. */
  lemma OneMoved(s: State, s': State, e: ExecId, x: Exec, claims: map<ExecId, Claim>)
    requires Parties(s, claims) && e in s.execs && ExecOk(e, x, claims)
    requires s'.execs == s.execs[e := x] && s'.manuals == s.manuals && s'.ops == s.ops
    ensures Parties(s', claims)
  {
  }

  lemma StatementSound(s: State, ev: Event)
    requires Parties(s, s.db.claims) && Enabled(s, ev)
    ensures Sound(s.db, StmtOf(s, ev))
  {
  }

  lemma EnvKeepsParties(s: State, ev: EnvEvent)
    requires Parties(s, s.db.claims) && EnabledEnv(s, ev)
    ensures Parties(AfterEnv(s, ev), s.db.claims)
  {
  }

  lemma EditKeepsParties(s: State, ev: EditEvent)
    requires Parties(s, s.db.claims) && RowsOk(s.db.rows) && EnabledEdit(s, ev)
    ensures Parties(AfterEdit(s, ev), s.db.claims)
  {
  }

  lemma ManualKeepsParties(s: State, ev: ManualEvent)
    requires Parties(s, s.db.claims) && RowsOk(s.db.rows) && EnabledManual(s, ev)
    ensures Parties(AfterManual(s, ev), Send(s, ManualStmt(s, ev)).claims)
  {
  }

  lemma DispatchKeepsParties(s: State, ev: DispatchEvent)
    requires Parties(s, s.db.claims) && RowsOk(s.db.rows) && EnabledDispatch(s, ev)
    ensures Parties(AfterDispatch(s, ev), Send(s, DispatchStmt(s, ev)).claims)
  {
    if ev.ClaimTask? {
      ClaimKeepsParties(s, ev);
    } else if !ev.Scan? {
      assert ExecOk(ev.e, s.execs[ev.e], s.db.claims);
      OneMoved(s, AfterDispatch(s, ev), ev.e, s.execs[ev.e].(pc := DispatchPc(s, ev)), s.db.claims);
    }
  }

  lemma ClaimKeepsParties(s: State, ev: DispatchEvent)
    requires Parties(s, s.db.claims) && EnabledDispatch(s, ev) && ev.ClaimTask?
    ensures Parties(AfterDispatch(s, ev), Send(s, DispatchStmt(s, ev)).claims)
  {
    assert ExecOk(ev.e, s.execs[ev.e], s.db.claims);
  }

  lemma EndKeepsExec(s: State, ev: EndEvent)
    requires EnabledEnd(s, ev) && ExecOk(ev.e, s.execs[ev.e], s.db.claims)
    ensures ExecOk(ev.e, s.execs[ev.e].(pc := EndPc(s, ev)), s.db.claims)
  {
  }

  lemma EndKeepsParties(s: State, ev: EndEvent)
    requires Parties(s, s.db.claims) && EnabledEnd(s, ev)
    ensures Parties(AfterEnd(s, ev), s.db.claims)
  {
    EndKeepsExec(s, ev);
    OneMoved(s, AfterEnd(s, ev), ev.e, s.execs[ev.e].(pc := EndPc(s, ev)), s.db.claims);
  }

  lemma StaleKeepsParties(s: State, ev: StaleEvent)
    requires Parties(s, s.db.claims) && EnabledStale(s, ev)
    ensures Parties(AfterStale(s, ev), s.db.claims)
  {
  }

  lemma OnlyClaimsClaim(db: Db, q: Stmt, sec: int)
    ensures !q.ClaimQ? ==> Perform(db, q, sec).claims == db.claims
  {
  }

  lemma LocalKeepsParties(s: State, ev: Event)
    requires Parties(s, s.db.claims) && RowsOk(s.db.rows) && Enabled(s, ev)
    ensures Parties(Local(s, ev), Send(s, StmtOf(s, ev)).claims)
  {
    OnlyClaimsClaim(s.db, StmtOf(s, ev), Sec(s.now));
    match ev
    case Env(x) => EnvKeepsParties(s, x);
    case Edit(x) => EditKeepsParties(s, x);
    case ByHand(x) => ManualKeepsParties(s, x);
    case Dispatch(x) => DispatchKeepsParties(s, x);
    case End(x) => EndKeepsParties(s, x);
    case Stale(x) => StaleKeepsParties(s, x);
  }

  /** The table is fenced and every party's hand is well formed. */
  ghost predicate Fenced(s: State) {
    Core(s.db) && Parties(s, s.db.claims)
  }

  lemma StepKeepsFenced(s: State, ev: Event)
    requires Fenced(s) && Enabled(s, ev)
    ensures Fenced(Apply(s, ev))
  {
    StatementSound(s, ev);
    StatementKeepsCore(s.db, StmtOf(s, ev), Sec(s.now));
    LocalKeepsParties(s, ev);
  }

  // ---------------------------------------------------------------- whole runs

  lemma InitFenced()
    ensures Fenced(Init())
  {
  }

  /** The invariant holds in every reachable state. */
  lemma {:induction false} RunKeepsFenced(s: State, evs: seq<Event>)
    requires Fenced(s) && IsRun(s, evs)
    ensures Fenced(After(s, evs))
    decreases |evs|
  {
    if evs != [] {
      StepKeepsFenced(s, evs[0]);
      RunKeepsFenced(Apply(s, evs[0]), evs[1..]);
    }
  }

  /** In every reachable state a row is RUNNING exactly when its three ownership columns are set. */
  lemma ReachableRowsWellFormed(evs: seq<Event>, t: TaskId)
    requires IsRun(Init(), evs) && t in After(Init(), evs).db.rows
    ensures WellFormed(After(Init(), evs).db.rows[t])
  {
    InitFenced();
    RunKeepsFenced(Init(), evs);
  }

  /**
   A completion or a recovery naming e changes the table exactly when the latest claim, completion,
   recovery or cancel of the task is e's claim.
   */
  lemma FencedExactly(evs: seq<Event>, t: TaskId, e: ExecId, u: Update, sec: int)
    requires IsRun(Init(), evs) && u.status != Running
    ensures var db := After(Init(), evs).db;
            && (Perform(db, CompleteQ(t, e, u), sec) != db <==> LastOwner(db.log, t) == Some(e))
            && (Perform(db, RecoverQ(t, Some(e)), sec) != db <==> LastOwner(db.log, t) == Some(e))
  {
    InitFenced();
    RunKeepsFenced(Init(), evs);
    var db := After(Init(), evs).db;
    assert OwnerOf(db.rows, t) == LastOwner(db.log, t);
    if t in db.rows {
      assert WellFormed(db.rows[t]);
      assert Perform(db, CompleteQ(t, e, u), sec) != db ==> Matches(db.rows, CompleteQ(t, e, u), sec);
      assert db.rows[t := CompleteRow(db.rows[t], u)][t] == CompleteRow(db.rows[t], u);
      assert db.rows[t := RecoverRow(db.rows[t])][t] == RecoverRow(db.rows[t]);
    }
  }

  /** Where the claim that LastOwner finds stands in the log. */
  lemma {:induction false} LastClaim(log: seq<Entry>, t: TaskId, e: ExecId) returns (k: nat)
    requires LastOwner(log, t) == Some(e)
    ensures k < |log| && log[k] == EClaim(t, e)
    ensures forall j :: k < j < |log| ==> log[j].task != t
  {
    var n := |log| - 1;
    if log[n].task == t {
      k := n;
    } else {
      k := LastClaim(log[..n], t, e);
      forall j | k < j < |log| ensures log[j].task != t {
        if j < n { assert log[..n][j] == log[j]; }
      }
    }
  }

  /** The execution whose ownership an entry ends, if the entry names one. */
  function Endee(x: Entry): Option<ExecId> {
    match x
    case EComplete(_, e) => Some(e)
    case ERecover(_, target) => target
    case _ => None
  }

  /** Every accepted completion or recovery of e at j comes after e's claim with no entry between. */
  lemma EndFollowsClaim(s: State, j: nat) returns (k: nat)
    requires Fenced(s) && j < |s.db.log| && Endee(s.db.log[j]).Some?
    ensures k < j && s.db.log[k] == EClaim(s.db.log[j].task, Endee(s.db.log[j]).value)
    ensures forall i :: k < i < j ==> s.db.log[i].task != s.db.log[j].task
  {
    var log := s.db.log;
    assert EndsOwn(log, j);
    k := LastClaim(log[..j], log[j].task, Endee(log[j]).value);
    forall i | k < i < j ensures log[i].task != log[j].task {
      assert log[..j][i] == log[i];
    }
  }

  /** Each claim is ended at most once, by whatever completions and recoveries name it. */
  lemma EndedAtMostOnce(s: State, i: nat, j: nat)
    requires Fenced(s) && i < j < |s.db.log| && Endee(s.db.log[i]).Some?
    ensures Endee(s.db.log[j]) != Endee(s.db.log[i])
  {
    if Endee(s.db.log[j]) == Endee(s.db.log[i]) {
      var p := EndFollowsClaim(s, i);
      var q := EndFollowsClaim(s, j);
    }
  }

  /** No execution claimed before a cancel writes after it: the writer's claim is younger. */
  lemma CancelSticks(s: State, i: nat, j: nat) returns (k: nat)
    requires Fenced(s) && i < j < |s.db.log|
    requires s.db.log[i].ECancel? && Endee(s.db.log[j]).Some? && s.db.log[j].task == s.db.log[i].task
    ensures i < k < j && s.db.log[k] == EClaim(s.db.log[j].task, Endee(s.db.log[j]).value)
  {
    k := EndFollowsClaim(s, j);
  }

  /** Claims are recorded once and for all. */
  lemma StepKeepsClaim(s: State, ev: Event, e: ExecId)
    requires Fenced(s) && Enabled(s, ev) && e in s.db.claims
    ensures e in Apply(s, ev).db.claims && Apply(s, ev).db.claims[e] == s.db.claims[e]
  {
    StatementSound(s, ev);
  }

  lemma {:induction false} RunKeepsClaim(s: State, evs: seq<Event>, e: ExecId)
    requires Fenced(s) && IsRun(s, evs) && e in s.db.claims
    ensures e in After(s, evs).db.claims && After(s, evs).db.claims[e] == s.db.claims[e]
    decreases |evs|
  {
    if evs != [] {
      StepKeepsFenced(s, evs[0]);
      StepKeepsClaim(s, evs[0], e);
      RunKeepsClaim(Apply(s, evs[0]), evs[1..], e);
    }
  }

  /** Freeze: as long as e owns the row, no column of it changes, whatever happens meanwhile. */
  lemma OwnedRowFrozen(s: State, evs: seq<Event>, t: TaskId, e: ExecId)
    requires Fenced(s) && IsRun(s, evs)
    requires OwnerOf(s.db.rows, t) == Some(e) && OwnerOf(After(s, evs).db.rows, t) == Some(e)
    ensures After(s, evs).db.rows[t] == s.db.rows[t]
  {
    RunKeepsFenced(s, evs);
    assert Frozen(t, s.db.rows[t], s.db.claims);
    RunKeepsClaim(s, evs, e);
    assert Frozen(t, After(s, evs).db.rows[t], After(s, evs).db.claims);
  }

  /** A recovery gives the row back as the claim found it, but always SCHEDULED. */
  lemma RecoveryRestoresSlot(s: State, r: OpId, reply: Reply)
    requires Fenced(s) && EnabledStale(s, Recover(r, reply))
    requires Matches(s.db.rows, StaleStmt(s, Recover(r, reply)), Sec(s.now))
    ensures var t := s.recs[r].task; var e := s.recs[r].target;
            && e.Some? && e.value in s.db.claims
            && Apply(s, Stale(Recover(r, reply))).db.rows[t] == s.db.claims[e.value].before.(status := Scheduled)
  {
    var t := s.recs[r].task;
    assert WellFormed(s.db.rows[t]) && Frozen(t, s.db.rows[t], s.db.claims);
  }
}
