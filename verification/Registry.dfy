/** TaskCancellationRegistry: per node, the cancellation source of the execution running each task. */
module Registry {
  import opened Tasks

  /** A CancellationSource, by identity. */
  type Source(==,!new)

  datatype Entry = Entry(exec: ExecId, source: Source)

  class TaskCancellationRegistry {
    var sources: map<TaskId, Entry>
    var canceled: set<Source>

    constructor ()
      ensures sources == map[] && canceled == {}
    {
      sources := map[];
      canceled := {};
    }

    method RegisterTask(t: TaskId, e: ExecId, source: Source)
      modifies this`sources
      ensures sources == old(sources)[t := Entry(e, source)]
    {
      sources := sources[t := Entry(e, source)];
    }

    /** Only the entry of the same execution goes: an older execution cannot remove a newer one's. */
    method UnregisterTask(t: TaskId, e: ExecId)
      modifies this`sources
      ensures sources == if t in old(sources) && old(sources)[t].exec == e then old(sources) - {t} else old(sources)
    {
      if t in sources && sources[t].exec == e {
        sources := sources - {t};
      }
    }

    method Cancel(t: TaskId) returns (ok: bool)
      modifies this`canceled
      ensures ok <==> t in sources
      ensures canceled == if ok then old(canceled) + {sources[t].source} else old(canceled)
    {
      ok := t in sources;
      if ok {
        canceled := canceled + {sources[t].source};
      }
    }
  }
}
