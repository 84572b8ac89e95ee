/**
 The distributed execution protocol as a transition system. Any number of control nodes, users and
 stores run side by side; every SQL statement, every Redis script and every critical section is one
 step, and the steps of different parties interleave freely. A step is an `Event`; `Enabled` says
 when it can happen and `Apply` what it does.
 */
module Protocol {
  import opened Tasks
  import opened Leases

  type OpId(==,!new)

  /** The value stored under a task's lock key. */
  datatype Token = Owner(node: Node, exec: ExecId) | Recovery(recoverer: Node, target: Option<ExecId>)

  /** Where one dispatch stands, from the scan that found the row to the end of its clean-up. */
  datatype Pc =
    | Scanned | Locked | Leased | Registered | Claimed | Queued
    | Finished(ok: bool, end: int) | Recorded(ok: bool, end: int)
    | Decided(u: Update, fired: bool, ok: bool, end: int, next: Option<int>)
    | DropReg(restore: bool) | DropLease(restore: bool) | Restore | DropLock | Done
    | Dead

  /** A dispatch of the scheduler: `snap` is the row as the scan read it. */
  datatype Exec = Exec(task: TaskId, node: Node, snap: Row, pc: Pc)

  datatype ManualPc = MRunning | MFinished(end: int) | MDone

  /** A RunTaskNow request after its claim: `read` is the row as the handler read it. */
  datatype Manual = Manual(task: TaskId, node: Node, read: Row, pc: ManualPc)

  /** A management request between its read and its write. */
  datatype Op =
    | EnableOp(task: TaskId, read: Row, slot: int)
    | UpdateOp(task: TaskId, read: Row, def: Definition, status: Status, next: Option<int>)
    | RunOp(task: TaskId, read: Row)

  datatype RecPc = RScanned | RLocked | RUnlock | RDone

  /** One iteration of recoverStaleExecutions. */
  datatype Rec = Rec(task: TaskId, node: Node, target: Option<ExecId>, pc: RecPc)

  /** The row as a successful claim found it. */
  datatype Claim = Claim(task: TaskId, before: Row, node: Node, at: int)

  /** What happened to the ownership of a task. */
  datatype Entry =
    | EClaim(task: TaskId, exec: ExecId)
    | EComplete(task: TaskId, exec: ExecId)
    | ERecover(task: TaskId, target: Option<ExecId>)
    | ECancel(task: TaskId)

  /** An executed, non-shutdown completion that the table accepted. */
  datatype Firing = Firing(task: TaskId, slot: Option<int>, exec: ExecId, ok: bool)

  /** The `tasks` table; `claims` and `log` only record what has happened to it. */
  datatype Db = Db(rows: Rows, claims: map<ExecId, Claim>, log: seq<Entry>)

  /**
   `lost`, `created`, `fired` and `faulty` only record what has happened; no step's guard reads them but
   Submit's, whose task ids are new.
   */
  datatype State = State(
    now: nat,
    db: Db,
    locks: map<TaskId, Lock<Token>>,
    execs: map<ExecId, Exec>,
    manuals: map<ExecId, Manual>,
    ops: map<OpId, Op>,
    recs: map<OpId, Rec>,
    leases: map<(Node, TaskId), ExecId>,
    registry: map<(Node, TaskId), ExecId>,
    canceled: set<ExecId>,
    lost: set<ExecId>,
    down: set<Node>,
    history: map<ExecId, bool>,
    created: set<TaskId>,
    fired: seq<Firing>,
    faulty: bool)

  const TTL: nat := 60_000
  const STALE: nat := 120
  const DEFAULT_RETRIES := 3

  function Init(): State {
    State(0, Db(map[], map[], []), map[], map[], map[], map[], map[], map[], map[], {}, {}, {}, map[], {}, [], false)
  }

  /** SQL NOW() and to_datetime_string: the clock, in milliseconds, cut to whole seconds. */
  function Sec(now: nat): int {
    now / 1000
  }

  /** How a storage command went: Lost commands report failure whether or not they took effect. */
  datatype Reply = Ack | LostDone | LostSkipped

  datatype EnvEvent =
    | Tick(d: nat)
    | DropKey(t: TaskId)                // the lock key disappears, by expiry or otherwise
    | Crash(n: Node)
    | Stop(n: Node)                     // shutdown_cancellation_.cancel()
    | Start(n: Node)
    | RenewKey(e: ExecId)               // the renewer's renewLock reaches Redis
    | LoseLease(e: ExecId)              // the renewer sees a failed renewal of a registered lease

  /** Management requests; one that reads before it writes takes two steps. */
  datatype EditEvent =
    | Submit(t: TaskId, def: Definition, slot: int)
    | Cancel(t: TaskId)
    | CancelLocal(n: Node, t: TaskId)
    | Delete(t: TaskId)
    | EnableRead(o: OpId, t: TaskId, slot: int)
    | EnableWrite(o: OpId)
    | UpdateRead(o: OpId, t: TaskId, def: Definition, status: Status, next: Option<int>)
    | UpdateWrite(o: OpId)

  /** RunTaskNow. */
  datatype ManualEvent =
    | RunRead(o: OpId, t: TaskId)
    | RunClaim(o: OpId, e: ExecId, n: Node, reply: Reply)
    | RunFinish(e: ExecId, ok: bool, reply: Reply)
    | RunComplete(e: ExecId, reply: Reply)

  /** scanAndDispatch, up to the hand-over to the thread pool. */
  datatype DispatchEvent =
    | Scan(e: ExecId, n: Node, t: TaskId)
    | LockKey(e: ExecId, reply: Reply)
    | GiveUp(e: ExecId)
    | AddLease(e: ExecId)
    | Register(e: ExecId)
    | ClaimTask(e: ExecId, reply: Reply)
    | SkipCanceled(e: ExecId)
    | Enqueue(e: ExecId, accepted: bool)

  /** The execution in the thread pool, and the clean-up of either thread. */
  datatype EndEvent =
    | Finish(e: ExecId, ok: bool)
    | AddHistory(e: ExecId, reply: Reply)
    | Decide(e: ExecId, next: Option<int>)
    | Complete(e: ExecId, reply: Reply)
    | Unregister(e: ExecId)
    | RemoveLease(e: ExecId)
    | GiveBack(e: ExecId, reply: Reply)
    | Unlock(e: ExecId, reply: Reply)

  /** recoverStaleExecutions. */
  datatype StaleEvent =
    | StaleScan(r: OpId, n: Node, t: TaskId)
    | RecLock(r: OpId, reply: Reply)
    | Recover(r: OpId, reply: Reply)
    | RecUnlock(r: OpId, reply: Reply)

  datatype Event =
    | Env(env: EnvEvent) | Edit(edit: EditEvent) | ByHand(manual: ManualEvent)
    | Dispatch(dispatch: DispatchEvent) | End(end: EndEvent) | Stale(stale: StaleEvent)

  // ---------------------------------------------------------------- the statements

  /** A statement sent to the table; NoQ when a step sends none or the command never arrives. */
  datatype Stmt =
    | NoQ
    | ClaimQ(t: TaskId, e: ExecId, n: Node, expected: Status, slot: Option<int>)
    | CompleteQ(t: TaskId, e: ExecId, u: Update)
    | RecoverQ(t: TaskId, target: Option<ExecId>)
    | CancelQ(t: TaskId)
    | InsertQ(t: TaskId, r: Row)
    | RuntimeQ(t: TaskId, u: Update)
    | DefineQ(t: TaskId, d: Definition, u: Update)
    | DeleteQ(t: TaskId)

  /** The statement's WHERE clause finds the row. */
  predicate Matches(rows: Rows, q: Stmt, sec: int) {
    match q
    case NoQ => false
    case ClaimQ(t, _, _, expected, slot) => t in rows && CanClaim(rows[t], expected, slot, sec)
    case CompleteQ(t, e, _) => t in rows && CanComplete(rows[t], e)
    case RecoverQ(t, e) => t in rows && CanRecover(rows[t], e)
    case CancelQ(t) => t in rows
    case InsertQ(t, _) => t !in rows
    case RuntimeQ(t, _) => t in rows && rows[t].status != Running
    case DefineQ(t, _, _) => t in rows && rows[t].status != Running
    case DeleteQ(t) => t in rows && rows[t].status != Running
  }

  function Perform(db: Db, q: Stmt, sec: int): Db {
    if !Matches(db.rows, q, sec) then db else
    match q
    case NoQ => db
    case ClaimQ(t, e, n, _, _) =>
      Db(db.rows[t := ClaimRow(db.rows[t], e, n, sec)],
         db.claims[e := Claim(t, db.rows[t], n, sec)],
         db.log + [EClaim(t, e)])
    case CompleteQ(t, e, u) =>
      db.(rows := db.rows[t := CompleteRow(db.rows[t], u)], log := db.log + [EComplete(t, e)])
    case RecoverQ(t, e) =>
      db.(rows := db.rows[t := RecoverRow(db.rows[t])], log := db.log + [ERecover(t, e)])
    case CancelQ(t) =>
      db.(rows := db.rows[t := CancelRow(db.rows[t])], log := db.log + [ECancel(t)])
    case InsertQ(t, r) => db.(rows := db.rows[t := r])
    case RuntimeQ(t, u) => db.(rows := db.rows[t := RuntimeRow(db.rows[t], u)])
    case DefineQ(t, d, u) => db.(rows := db.rows[t := DefineRow(db.rows[t], d, u)])
    case DeleteQ(t) => db.(rows := db.rows - {t})
  }

  /** The table after a step that sends q. */
  function Send(s: State, q: Stmt): Db {
    Perform(s.db, q, Sec(s.now))
  }

  /** The command took effect. */
  predicate Arrives(reply: Reply) {
    reply != LostSkipped
  }

  /** The key of execution e in its node's renewer and cancellation registry. */
  function Slot(s: State, e: ExecId): (Node, TaskId)
    requires e in s.execs
  {
    (s.execs[e].node, s.execs[e].task)
  }

  /** What the end of an execution writes back (task_scheduler.cpp, after addHistory). */
  function NextUpdate(snap: Row, ok: bool, end: int, stopping: bool, next: Option<int>): Update {
    if stopping then Update(Scheduled, snap.next, Some(end), snap.retry)
    else if ok then
      (if next.Some? then Update(Scheduled, next, Some(end), 0)
       else Update(Disabled, Some(end), Some(end), 0))
    else if snap.retry + 1 >= snap.def.maxRetries then
      Update(Disabled, Some(end), Some(end), snap.retry + 1)
    else
      Update(Scheduled, Some(end + RetryDelay(snap.retry + 1)), Some(end), snap.retry + 1)
  }

  /** retry_delay_seconds: 5 s doubled per failure, exponent capped at 6, at most 300 s. */
  function RetryDelay(retry: int): (d: int)
    ensures 5 <= d <= 300
  {
    var exponent := Min(Max(retry - 1, 0), 6);
    Min(300, 5 * Shift(exponent))
  }

  function Min(a: int, b: int): int { if a < b then a else b }

  function Max(a: int, b: int): int { if a < b then b else a }

  /** 1 << k */
  function Shift(k: nat): (p: int)
    ensures p >= 1
  {
    if k == 0 then 1 else 2 * Shift(k - 1)
  }

  function GiveBackUpdate(snap: Row): Update {
    Update(Scheduled, snap.next, snap.last, snap.retry)
  }

  // ---------------------------------------------------------------- environment

  predicate Ended(pc: Pc) {
    pc.Done? || pc.Dead?
  }

  predicate EnabledEnv(s: State, ev: EnvEvent) {
    match ev
    case Tick(_) => true
    case DropKey(t) => t in s.locks
    case Crash(_) => true
    case Stop(_) => true
    case Start(n) => forall e :: e in s.execs && s.execs[e].node == n ==> Ended(s.execs[e].pc)
    case RenewKey(e) => e in s.execs && s.execs[e].pc != Scanned
    case LoseLease(e) => e in s.execs && Leasing(s, e)
  }

  /** The renewer of e's node has e's lease registered. */
  predicate Leasing(s: State, e: ExecId)
    requires e in s.execs
  {
    Slot(s, e) in s.leases && s.leases[Slot(s, e)] == e
  }

  /** The cancellation registry of e's node names e for e's task. */
  predicate Registering(s: State, e: ExecId)
    requires e in s.execs
  {
    Slot(s, e) in s.registry && s.registry[Slot(s, e)] == e
  }

  function OwnerToken(s: State, e: ExecId): Token
    requires e in s.execs
  {
    Owner(s.execs[e].node, e)
  }

  function CrashNode(s: State, n: Node): State {
    s.(execs := map e | e in s.execs :: if s.execs[e].node == n then s.execs[e].(pc := Dead) else s.execs[e],
       manuals := map e | e in s.manuals :: if s.manuals[e].node == n then s.manuals[e].(pc := MDone) else s.manuals[e],
       recs := map r | r in s.recs :: if s.recs[r].node == n then s.recs[r].(pc := RDone) else s.recs[r],
       leases := map k | k in s.leases && k.0 != n :: s.leases[k],
       registry := map k | k in s.registry && k.0 != n :: s.registry[k],
       down := s.down - {n},
       faulty := true)
  }

  function AfterEnv(s: State, ev: EnvEvent): State
    requires EnabledEnv(s, ev)
  {
    match ev
    case Tick(d) => s.(now := s.now + d)
    case DropKey(t) => s.(locks := s.locks - {t})
    case Crash(n) => CrashNode(s, n)
    case Stop(n) => s.(down := s.down + {n})
    case Start(n) => s.(down := s.down - {n})
    case RenewKey(e) =>
      s.(locks := Renew(s.locks, s.execs[e].task, OwnerToken(s, e), s.now, TTL))
    case LoseLease(e) =>
      s.(canceled := s.canceled + {e}, lost := s.lost + {e}, leases := s.leases - {Slot(s, e)})
  }

  // ---------------------------------------------------------------- management requests

  predicate FreshExec(s: State, e: ExecId) {
    e !in s.execs && e !in s.manuals
  }

  /** The row exists and is not RUNNING: what every edit demands. */
  predicate Editable(rows: Rows, t: TaskId) {
    t in rows && rows[t].status != Running
  }

  predicate EnabledEdit(s: State, ev: EditEvent) {
    match ev
    case Submit(t, def, next) => t !in s.created && def.maxRetries == DEFAULT_RETRIES && next > Sec(s.now)
    case Cancel(_) => true
    case CancelLocal(n, t) => (n, t) in s.registry
    case Delete(_) => true
    case EnableRead(o, t, next) => o !in s.ops && Editable(s.db.rows, t) && next > Sec(s.now)
    case EnableWrite(o) => o in s.ops && s.ops[o].EnableOp?
    case UpdateRead(o, t, def, status, next) =>
      && o !in s.ops && Editable(s.db.rows, t)
      && def.maxRetries > 0
      && status != Running
      && (status == Scheduled ==> next.Some? && next.value > Sec(s.now))
      && (status == Disabled ==> next == s.db.rows[t].next)
    case UpdateWrite(o) => o in s.ops && s.ops[o].UpdateOp?
  }

  function EditStmt(s: State, ev: EditEvent): Stmt
    requires EnabledEdit(s, ev)
  {
    match ev
    case Submit(t, def, next) => InsertQ(t, Row(def, Scheduled, Some(next), None, 0, None, None, None))
    case Cancel(t) => CancelQ(t)
    case Delete(t) => DeleteQ(t)
    case EnableWrite(o) =>
      var op := s.ops[o];
      RuntimeQ(op.task, Update(Scheduled, Some(op.slot), op.read.last, op.read.retry))
    case UpdateWrite(o) =>
      var op := s.ops[o];
      DefineQ(op.task, op.def, Update(op.status, op.next, op.read.last, op.read.retry))
    case _ => NoQ
  }

  /** The requests still to be written after the step. */
  function EditOps(s: State, ev: EditEvent): map<OpId, Op>
    requires EnabledEdit(s, ev)
  {
    match ev
    case EnableRead(o, t, next) => s.ops[o := EnableOp(t, s.db.rows[t], next)]
    case EnableWrite(o) => s.ops - {o}
    case UpdateRead(o, t, def, status, next) => s.ops[o := UpdateOp(t, s.db.rows[t], def, status, next)]
    case UpdateWrite(o) => s.ops - {o}
    case _ => s.ops
  }

  function AfterEdit(s: State, ev: EditEvent): State
    requires EnabledEdit(s, ev)
  {
    s.(created := if ev.Submit? then s.created + {ev.t} else s.created,
       canceled := if ev.CancelLocal? then s.canceled + {s.registry[(ev.n, ev.t)]} else s.canceled,
       ops := EditOps(s, ev))
  }

  predicate EnabledManual(s: State, ev: ManualEvent) {
    match ev
    case RunRead(o, t) => o !in s.ops && Editable(s.db.rows, t)
    case RunClaim(o, e, _, _) => o in s.ops && s.ops[o].RunOp? && FreshExec(s, e)
    case RunFinish(e, _, _) => e in s.manuals && s.manuals[e].pc == MRunning
    case RunComplete(e, _) => e in s.manuals && s.manuals[e].pc.MFinished?
  }

  function RunUpdate(m: Manual): Update
    requires m.pc.MFinished?
  {
    Update(m.read.status, m.read.next, Some(m.pc.end), m.read.retry)
  }

  function ManualStmt(s: State, ev: ManualEvent): Stmt
    requires EnabledManual(s, ev)
  {
    match ev
    case RunClaim(o, e, n, reply) =>
      if Arrives(reply) then ClaimQ(s.ops[o].task, e, n, s.ops[o].read.status, None) else NoQ
    case RunComplete(e, reply) =>
      if Arrives(reply) then CompleteQ(s.manuals[e].task, e, RunUpdate(s.manuals[e])) else NoQ
    case _ => NoQ
  }

  /** The manual runs after the step. */
  function ManualRuns(s: State, ev: ManualEvent): map<ExecId, Manual>
    requires EnabledManual(s, ev)
  {
    match ev
    case RunRead(_, _) => s.manuals
    case RunClaim(o, e, n, reply) =>
      var won := reply == Ack && Matches(s.db.rows, ManualStmt(s, ev), Sec(s.now));
      s.manuals[e := Manual(s.ops[o].task, n, s.ops[o].read, if won then MRunning else MDone)]
    case RunFinish(e, _, _) => s.manuals[e := s.manuals[e].(pc := MFinished(Sec(s.now)))]
    case RunComplete(e, _) => s.manuals[e := s.manuals[e].(pc := MDone)]
  }

  function AfterManual(s: State, ev: ManualEvent): State
    requires EnabledManual(s, ev)
  {
    s.(ops := if ev.RunRead? then s.ops[ev.o := RunOp(ev.t, s.db.rows[ev.t])]
              else if ev.RunClaim? then s.ops - {ev.o} else s.ops,
       manuals := ManualRuns(s, ev),
       history := if ev.RunFinish? && Arrives(ev.reply) then s.history[ev.e := ev.ok] else s.history,
       faulty := s.faulty || (!ev.RunRead? && ev.reply != Ack))
  }

  // ---------------------------------------------------------------- dispatch

  /** The scheduler thread of node n is between a lock and the end of that dispatch. */
  predicate Busy(s: State, n: Node) {
    exists e :: e in s.execs && s.execs[e].node == n && Dispatching(s.execs[e].pc)
  }

  predicate Dispatching(pc: Pc) {
    pc.Locked? || pc.Leased? || pc.Registered? || pc.Claimed?
  }

  predicate At(s: State, e: ExecId, pc: Pc) {
    e in s.execs && s.execs[e].pc == pc
  }

  predicate EnabledDispatch(s: State, ev: DispatchEvent) {
    match ev
    case Scan(e, n, t) => FreshExec(s, e) && t in s.db.rows && IsDue(s.db.rows[t], Sec(s.now)) && n !in s.down
    case LockKey(e, _) => At(s, e, Scanned) && !Busy(s, s.execs[e].node)
    case GiveUp(e) => At(s, e, Scanned)
    case AddLease(e) => At(s, e, Locked)
    case Register(e) => At(s, e, Leased)
    case ClaimTask(e, _) => At(s, e, Registered)
    case SkipCanceled(e) => At(s, e, Claimed) && e in s.canceled
    case Enqueue(e, _) => At(s, e, Claimed) && e !in s.canceled
  }

  function DispatchStmt(s: State, ev: DispatchEvent): Stmt
    requires EnabledDispatch(s, ev)
  {
    match ev
    case ClaimTask(e, reply) =>
      var x := s.execs[e];
      if Arrives(reply) then ClaimQ(x.task, e, x.node, Scheduled, x.snap.next) else NoQ
    case _ => NoQ
  }

  /** Where the dispatched execution stands after the step. */
  function DispatchPc(s: State, ev: DispatchEvent): Pc
    requires EnabledDispatch(s, ev)
  {
    match ev
    case Scan(_, _, _) => Scanned
    case LockKey(e, reply) => if reply == Ack && !Live(s.locks, s.execs[e].task, s.now) then Locked else Scanned
    case GiveUp(_) => Done
    case AddLease(_) => Leased
    case Register(_) => Registered
    case ClaimTask(_, reply) =>
      if reply == Ack && Matches(s.db.rows, DispatchStmt(s, ev), Sec(s.now)) then Claimed else DropReg(false)
    case SkipCanceled(_) => DropReg(true)
    case Enqueue(_, accepted) => if accepted then Queued else DropReg(true)
  }

  function AfterDispatch(s: State, ev: DispatchEvent): State
    requires EnabledDispatch(s, ev)
  {
    var e := ev.e;
    var x := if ev.Scan? then Exec(ev.t, ev.n, s.db.rows[ev.t], Scanned) else s.execs[e];
    s.(execs := s.execs[e := x.(pc := DispatchPc(s, ev))],
       locks := if ev.LockKey? && Arrives(ev.reply)
                then Acquire(s.locks, x.task, Owner(x.node, e), s.now, TTL) else s.locks,
       leases := if ev.AddLease? then s.leases[(x.node, x.task) := e] else s.leases,
       registry := if ev.Register? then s.registry[(x.node, x.task) := e] else s.registry,
       faulty := s.faulty || ((ev.LockKey? || ev.ClaimTask?) && ev.reply != Ack))
  }

  // ---------------------------------------------------------------- execution and clean-up

  predicate EnabledEnd(s: State, ev: EndEvent) {
    match ev
    case Finish(e, _) => At(s, e, Queued)
    case AddHistory(e, _) => e in s.execs && s.execs[e].pc.Finished?
    case Decide(e, next) =>
      && e in s.execs && s.execs[e].pc.Recorded?
      && (next.Some? ==> next.value > s.execs[e].pc.end)
    case Complete(e, _) => e in s.execs && s.execs[e].pc.Decided?
    case Unregister(e) => e in s.execs && s.execs[e].pc.DropReg?
    case RemoveLease(e) => e in s.execs && s.execs[e].pc.DropLease?
    case GiveBack(e, _) => At(s, e, Restore)
    case Unlock(e, _) => At(s, e, DropLock)
  }

  function EndStmt(s: State, ev: EndEvent): Stmt
    requires EnabledEnd(s, ev)
  {
    match ev
    case Complete(e, reply) =>
      if Arrives(reply) then CompleteQ(s.execs[e].task, e, s.execs[e].pc.u) else NoQ
    case GiveBack(e, reply) =>
      if Arrives(reply) then CompleteQ(s.execs[e].task, e, GiveBackUpdate(s.execs[e].snap)) else NoQ
    case _ => NoQ
  }

  /** The completion e is about to send will be accepted as an execution of its slot. */
  predicate Fires(s: State, ev: EndEvent)
    requires EnabledEnd(s, ev)
  {
    ev.Complete? && s.execs[ev.e].pc.fired && Matches(s.db.rows, EndStmt(s, ev), Sec(s.now))
  }

  /** Where the execution stands after the step. */
  function EndPc(s: State, ev: EndEvent): Pc
    requires EnabledEnd(s, ev)
  {
    var x := s.execs[ev.e];
    match ev
    case Finish(_, ok) => Finished(ok, Sec(s.now))
    case AddHistory(_, _) => Recorded(x.pc.ok, x.pc.end)
    case Decide(_, next) =>
      var stopping := x.node in s.down;
      Decided(NextUpdate(x.snap, x.pc.ok, x.pc.end, stopping, next), !stopping, x.pc.ok, x.pc.end, next)
    case Complete(_, _) => DropReg(false)
    case Unregister(_) => DropLease(x.pc.restore)
    case RemoveLease(_) => if x.pc.restore then Restore else DropLock
    case GiveBack(_, _) => DropLock
    case Unlock(_, _) => Done
  }

  function AfterEnd(s: State, ev: EndEvent): State
    requires EnabledEnd(s, ev)
  {
    var e := ev.e;
    var x := s.execs[e];
    s.(execs := s.execs[e := x.(pc := EndPc(s, ev))],
       history := if ev.AddHistory? && Arrives(ev.reply) then s.history[e := x.pc.ok] else s.history,
       fired := if Fires(s, ev) then s.fired + [Firing(x.task, x.snap.next, e, x.pc.ok)] else s.fired,
       registry := if ev.Unregister? && Registering(s, e) then s.registry - {Slot(s, e)} else s.registry,
       leases := if ev.RemoveLease? && Leasing(s, e) then s.leases - {Slot(s, e)} else s.leases,
       locks := if ev.Unlock? && Arrives(ev.reply)
                then Release(s.locks, x.task, Owner(x.node, e), s.now) else s.locks,
       faulty := s.faulty || ((ev.AddHistory? || ev.Complete? || ev.GiveBack? || ev.Unlock?) && ev.reply != Ack))
  }

  // ---------------------------------------------------------------- recovery of stale rows

  predicate EnabledStale(s: State, ev: StaleEvent) {
    match ev
    case StaleScan(r, _, t) => r !in s.recs && t in s.db.rows && IsStale(s.db.rows[t], STALE, Sec(s.now))
    case RecLock(r, _) => r in s.recs && s.recs[r].pc == RScanned
    case Recover(r, _) => r in s.recs && s.recs[r].pc == RLocked
    case RecUnlock(r, _) => r in s.recs && s.recs[r].pc == RUnlock
  }

  function StaleStmt(s: State, ev: StaleEvent): Stmt
    requires EnabledStale(s, ev)
  {
    match ev
    case Recover(r, reply) =>
      if Arrives(reply) then RecoverQ(s.recs[r].task, s.recs[r].target) else NoQ
    case _ => NoQ
  }

  function StalePc(s: State, ev: StaleEvent): RecPc
    requires EnabledStale(s, ev)
  {
    match ev
    case StaleScan(_, _, _) => RScanned
    case RecLock(r, reply) => if reply == Ack && !Live(s.locks, s.recs[r].task, s.now) then RLocked else RDone
    case Recover(_, _) => RUnlock
    case RecUnlock(_, _) => RDone
  }

  function AfterStale(s: State, ev: StaleEvent): State
    requires EnabledStale(s, ev)
  {
    var r := ev.r;
    var x := if ev.StaleScan? then Rec(ev.t, ev.n, s.db.rows[ev.t].exec, RScanned) else s.recs[r];
    var token := Recovery(x.node, x.target);
    s.(recs := s.recs[r := x.(pc := StalePc(s, ev))],
       locks := if ev.RecLock? && Arrives(ev.reply) then Acquire(s.locks, x.task, token, s.now, TTL)
                else if ev.RecUnlock? && Arrives(ev.reply) then Release(s.locks, x.task, token, s.now)
                else s.locks,
       faulty := s.faulty || (!ev.StaleScan? && ev.reply != Ack))
  }

  // ---------------------------------------------------------------- runs

  predicate Enabled(s: State, ev: Event) {
    match ev
    case Env(x) => EnabledEnv(s, x)
    case Edit(x) => EnabledEdit(s, x)
    case ByHand(x) => EnabledManual(s, x)
    case Dispatch(x) => EnabledDispatch(s, x)
    case End(x) => EnabledEnd(s, x)
    case Stale(x) => EnabledStale(s, x)
  }

  /** The statement a step sends to the table. */
  function StmtOf(s: State, ev: Event): Stmt
    requires Enabled(s, ev)
  {
    match ev
    case Env(_) => NoQ
    case Edit(x) => EditStmt(s, x)
    case ByHand(x) => ManualStmt(s, x)
    case Dispatch(x) => DispatchStmt(s, x)
    case End(x) => EndStmt(s, x)
    case Stale(x) => StaleStmt(s, x)
  }

  /** What a step does outside the table. */
  function Local(s: State, ev: Event): State
    requires Enabled(s, ev)
  {
    match ev
    case Env(x) => AfterEnv(s, x)
    case Edit(x) => AfterEdit(s, x)
    case ByHand(x) => AfterManual(s, x)
    case Dispatch(x) => AfterDispatch(s, x)
    case End(x) => AfterEnd(s, x)
    case Stale(x) => AfterStale(s, x)
  }

  /** A step: at most one statement, and what the party does besides. */
  function Apply(s: State, ev: Event): State
    requires Enabled(s, ev)
  {
    Local(s, ev).(db := Send(s, StmtOf(s, ev)))
  }

  /** Every event of the sequence can happen when its turn comes. */
  predicate IsRun(s: State, evs: seq<Event>)
    decreases |evs|
  {
    evs == [] || (Enabled(s, evs[0]) && IsRun(Apply(s, evs[0]), evs[1..]))
  }

  function After(s: State, evs: seq<Event>): State
    requires IsRun(s, evs)
    decreases |evs|
  {
    if evs == [] then s else After(Apply(s, evs[0]), evs[1..])
  }
}
