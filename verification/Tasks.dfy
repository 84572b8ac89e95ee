/** The `tasks` and `task_history` tables and the guarded statements that change them. */
module Tasks {

  /** Identifiers and free text are only ever stored and compared, so they stay uninterpreted. */
  type TaskId(==,!new)
  type ExecId(==,!new)
  type Node(==,!new)
  type Text(==,!new)

  datatype Option<+T> = None | Some(value: T)

  /** TASK_DISABLED = 0, TASK_SCHEDULED = 1, TASK_RUNNING = 2. */
  datatype Status = Disabled | Scheduled | Running

  /** The part of a row that only an edit changes. */
  datatype Definition = Definition(cron: Text, params: Text, handler: Text, maxRetries: int)

  /** A row of `tasks`. SQL NULL is None; date-times are whole seconds. */
  datatype Row = Row(
    def: Definition, status: Status, next: Option<int>, last: Option<int>, retry: int,
    exec: Option<ExecId>, node: Option<Node>, started: Option<int>)

  /** What an execution writes back when it ends. */
  datatype Update = Update(status: Status, next: Option<int>, last: Option<int>, retry: int)

  /** A row of `task_history`. */
  datatype Record = Record(task: TaskId, node: Node, success: bool, result: Text, error: Text, start: int, end: int)

  type Rows = map<TaskId, Row>

  /** getDueTasks: status = 1 and next_run_at is NULL or has come. */
  predicate IsDue(r: Row, sec: int) {
    r.status == Scheduled && (r.next.Some? ==> r.next.value <= sec)
  }

  /** getStaleRunningTasks: running, with a start time at least `age` seconds back. */
  predicate IsStale(r: Row, age: nat, sec: int) {
    r.status == Running && r.started.Some? && r.started.value <= sec - age
  }

  /** The WHERE clause of claimTaskExecution; an absent slot compares the status only. */
  predicate CanClaim(r: Row, expected: Status, slot: Option<int>, sec: int) {
    && r.status == expected
    && (slot.Some? ==> r.next == slot && slot.value <= sec)
  }

  function ClaimRow(r: Row, e: ExecId, n: Node, sec: int): Row {
    r.(status := Running, exec := Some(e), node := Some(n), started := Some(sec))
  }

  /** The WHERE clause of completeTaskExecution. */
  predicate CanComplete(r: Row, e: ExecId) {
    r.exec == Some(e) && r.status == Running
  }

  function CompleteRow(r: Row, u: Update): Row {
    Row(r.def, u.status, u.next, u.last, u.retry, None, None, None)
  }

  /** The WHERE clause of recoverTaskExecution; None stands for the empty execution id. */
  predicate CanRecover(r: Row, e: Option<ExecId>) {
    r.status == Running && r.exec == e
  }

  function RecoverRow(r: Row): Row {
    r.(status := Scheduled, exec := None, node := None, started := None)
  }

  function CancelRow(r: Row): Row {
    r.(status := Disabled, exec := None, node := None, started := None)
  }

  /** updateTaskDefinition: the ownership columns are not in the SET list. */
  function DefineRow(r: Row, d: Definition, u: Update): Row {
    r.(def := d, status := u.status, next := u.next, last := u.last, retry := u.retry)
  }

  /** updateTaskRuntime. */
  function RuntimeRow(r: Row, u: Update): Row {
    CompleteRow(r, u)
  }

  /** A row is RUNNING exactly when execution id, node and start time are all set. */
  predicate WellFormed(r: Row) {
    && (r.status == Running <==> r.exec.Some?)
    && (r.status == Running <==> r.node.Some?)
    && (r.status == Running <==> r.started.Some?)
    && r.next.Some?
  }

  /** MySQLClient: the shared tables, each method one atomic statement at second `sec`. */
  class TaskTable {
    var rows: Rows
    var history: map<ExecId, Record>

    constructor ()
      ensures rows == map[] && history == map[]
    {
      rows := map[];
      history := map[];
    }

    method AddTask(t: TaskId, def: Definition, status: Status, next: Option<int>, retry: int) returns (ok: bool)
      modifies this`rows
      ensures ok <==> t !in old(rows)
      ensures rows == if ok
                      then old(rows)[t := Row(def, status, next, None, retry, None, None, None)]
                      else old(rows)
    {
      ok := t !in rows;
      if ok {
        rows := rows[t := Row(def, status, next, None, retry, None, None, None)];
      }
    }

    method ClaimTaskExecution(t: TaskId, e: ExecId, n: Node, expected: Status, slot: Option<int>,
                              sec: int) returns (ok: bool)
      modifies this`rows
      ensures ok <==> t in old(rows) && CanClaim(old(rows)[t], expected, slot, sec)
      ensures rows == if ok then old(rows)[t := ClaimRow(old(rows)[t], e, n, sec)] else old(rows)
    {
      ok := false;
      if t in rows {
        var r := rows[t];
        var compareSchedule := slot.Some?;
        if r.status == expected && (!compareSchedule || (r.next == slot && slot.value <= sec)) {
          rows := rows[t := r.(status := Running, exec := Some(e), node := Some(n), started := Some(sec))];
          ok := true;
        }
      }
    }

    method CompleteTaskExecution(t: TaskId, e: ExecId, u: Update) returns (ok: bool)
      modifies this`rows
      ensures ok <==> t in old(rows) && CanComplete(old(rows)[t], e)
      ensures rows == if ok then old(rows)[t := CompleteRow(old(rows)[t], u)] else old(rows)
    {
      ok := false;
      if t in rows && rows[t].exec == Some(e) && rows[t].status == Running {
        rows := rows[t := rows[t].(status := u.status, next := u.next, last := u.last,
                                   retry := u.retry, exec := None, node := None, started := None)];
        ok := true;
      }
    }

    method RecoverTaskExecution(t: TaskId, e: Option<ExecId>) returns (ok: bool)
      modifies this`rows
      ensures ok <==> t in old(rows) && CanRecover(old(rows)[t], e)
      ensures rows == if ok then old(rows)[t := RecoverRow(old(rows)[t])] else old(rows)
    {
      ok := false;
      if t in rows && rows[t].status == Running {
        if rows[t].exec == e || (rows[t].exec == None && e == None) {
          rows := rows[t := RecoverRow(rows[t])];
          ok := true;
        }
      }
    }

    method CancelTask(t: TaskId) returns (ok: bool)
      modifies this`rows
      ensures ok <==> t in old(rows)
      ensures rows == if ok then old(rows)[t := CancelRow(old(rows)[t])] else old(rows)
    {
      ok := t in rows;
      if ok {
        rows := rows[t := CancelRow(rows[t])];
      }
    }

    method UpdateTaskDefinition(t: TaskId, d: Definition, u: Update) returns (ok: bool)
      modifies this`rows
      ensures ok <==> t in old(rows) && old(rows)[t].status != Running
      ensures rows == if ok then old(rows)[t := DefineRow(old(rows)[t], d, u)] else old(rows)
    {
      ok := t in rows && rows[t].status != Running;
      if ok {
        rows := rows[t := DefineRow(rows[t], d, u)];
      }
    }

    method UpdateTaskRuntime(t: TaskId, u: Update) returns (ok: bool)
      modifies this`rows
      ensures ok <==> t in old(rows) && old(rows)[t].status != Running
      ensures rows == if ok then old(rows)[t := RuntimeRow(old(rows)[t], u)] else old(rows)
    {
      ok := t in rows && rows[t].status != Running;
      if ok {
        rows := rows[t := RuntimeRow(rows[t], u)];
      }
    }

    method DeleteTask(t: TaskId) returns (ok: bool)
      modifies this`rows
      ensures ok <==> t in old(rows) && old(rows)[t].status != Running
      ensures rows == if ok then old(rows) - {t} else old(rows)
    {
      ok := t in rows && rows[t].status != Running;
      if ok {
        rows := rows - {t};
      }
    }

    /** INSERT ... ON DUPLICATE KEY UPDATE on the unique execution id. */
    method AddHistory(e: ExecId, h: Record)
      modifies this`history
      ensures e in old(history) ==> history == old(history)[e := h.(task := old(history)[e].task)]
      ensures e !in old(history) ==> history == old(history)[e := h]
    {
      history := history[e := if e in history then h.(task := history[e].task) else h];
    }
  }
}
