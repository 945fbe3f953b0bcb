/** The backend's in-memory scan-job table: the module-level `tasks` dict and the
    three operations on it (`update_task_status`, the start endpoint and the status
    endpoint). */
module TaskTable {
  import opened Common
  import opened JsonValues

  /** One entry of `tasks`. A key the code never wrote is None. */
  datatype Task = Task(status: string, progress: Option<int>, data: Option<Json>, error: Option<string>)

  /** The entry the start endpoint writes: pending, progress 0, no data yet. */
  const PendingTask: Task := Task("pending", Some(0), Some(JList([])), None)

  /** The status endpoint's 404. */
  const NotFound: int := 404

  /** `update_task_status` on the table as a value: the entry is created when absent,
      its status is always written, and progress, data (scrubbed) and error are
      written only when given. */
  function Updated(m: map<string, Task>, id: string, status: string,
                   progress: Option<int>, data: Option<Json>, error: Option<string>): (r: map<string, Task>)
    ensures r.Keys == m.Keys + {id}
    ensures r[id].status == status
    ensures progress.Some? ==> r[id].progress == progress
    ensures data.Some? ==> r[id].data == Some(Sanitize(data.value))
    ensures error.Some? ==> r[id].error == error
    ensures progress.None? ==> r[id].progress == (if id in m then m[id].progress else None)
    ensures data.None? ==> r[id].data == (if id in m then m[id].data else None)
    ensures error.None? ==> r[id].error == (if id in m then m[id].error else None)
    ensures forall k :: k in m && k != id ==> r[k] == m[k]
  {
    var before := if id in m then m[id] else Task(status, None, None, None);
    m[id := Task(
      status,
      if progress.Some? then progress else before.progress,
      if data.Some? then Some(Sanitize(data.value)) else before.data,
      if error.Some? then error else before.error)]
  }

  /** Repeating an update changes nothing more: the data it stores is already scrubbed. */
  lemma UpdateTwiceIsOnce(m: map<string, Task>, id: string, status: string,
                          progress: Option<int>, data: Option<Json>, error: Option<string>)
    ensures Updated(Updated(m, id, status, progress, data, error), id, status, progress, data, error)
         == Updated(m, id, status, progress, data, error)
  {
    if data.Some? {
      SanitizeIdempotent(data.value);
    }
  }

  /** Updates of two different jobs commute: a job's updates never touch another job's entry. */
  lemma UpdatesOfDistinctJobsCommute(m: map<string, Task>, a: string, sa: string, pa: Option<int>,
                                     b: string, sb: string, pb: Option<int>)
    requires a != b
    ensures Updated(Updated(m, a, sa, pa, None, None), b, sb, pb, None, None)
         == Updated(Updated(m, b, sb, pb, None, None), a, sa, pa, None, None)
  {
  }

  class TaskStore {
    var tasks: map<string, Task>

    constructor ()
      ensures tasks == map[]
    {
      tasks := map[];
    }

    /** `update_task_status(task_id, status, progress, data, error)`. */
    method UpdateTaskStatus(id: string, status: string,
                            progress: Option<int>, data: Option<Json>, error: Option<string>)
      modifies this
      ensures tasks == Updated(old(tasks), id, status, progress, data, error)
    {
      var entry := if id in tasks then tasks[id] else Task(status, None, None, None);
      entry := entry.(status := status);
      if progress.Some? {
        entry := entry.(progress := progress);
      }
      if data.Some? {
        entry := entry.(data := Some(Sanitize(data.value)));
      }
      if error.Some? {
        entry := entry.(error := error);
      }
      tasks := tasks[id := entry];
    }

    /** The start endpoint: `id` is the freshly generated uuid. The entry is written
        whole (any previous entry under that id is replaced) and the id is returned.
        Launching the background scan is the caller's next step (ScanDriver.ScanMarket). */
    method StartScanner(id: string) returns (taskId: string)
      modifies this
      ensures taskId == id
      ensures tasks == old(tasks)[id := PendingTask]
      ensures id !in old(tasks) ==> |tasks| == |old(tasks)| + 1
    {
      tasks := tasks[id := PendingTask];
      taskId := id;
    }

    /** The status endpoint: 404 for an unknown id, otherwise the stored entry as it is. */
    function GetScannerStatus(id: string): (r: Result<Task, int>)
      reads this
      ensures r.Err? <==> id !in tasks
      ensures r.Err? ==> r.error == NotFound
      ensures r.Ok? ==> r.value == tasks[id]
    {
      if id !in tasks then Err(NotFound) else Ok(tasks[id])
    }
  }

  /** Right after a start, polling the new id reports it pending at 0 with empty data,
      and every other id reports what it reported before. */
  method StartThenPoll(store: TaskStore, id: string, other: string)
    modifies store
    ensures store.GetScannerStatus(id) == Ok(PendingTask)
    ensures other != id ==> store.GetScannerStatus(other) == old(store.GetScannerStatus(other))
  {
    var t := store.StartScanner(id);
  }
}
