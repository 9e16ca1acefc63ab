/**
 * `completed_tasks` / `uncompleted_tasks`: the task records a task-list query
 * returns, normalised into `TaskInfo`, and the task names used for
 * deduplication. The two queries differ only in the phase filter of their URL;
 * the normalisation of their records is the same loop.
 */
module TaskRegistry {
  import opened Wrappers
  import opened ClientErrors

  /** One record of the vendor's `tasks` array, as far as the client reads it. */
  datatype RawTask = RawTask(
    name: string,
    fileSize: Option<int>,
    progress: Option<int>,
    realPath: string,
    speed: Option<int>,
    createdTime: string,
    updatedTime: string)

  datatype TaskInfo = TaskInfo(
    name: string,
    fileName: string,
    fileSize: int,
    updatedTime: string,
    progress: int,
    realPath: string,
    speed: int,
    createdTime: string,
    origin: RawTask)

  /** `info` is the normalised view of `raw`: both names are the record's name,
      a missing or zero progress reads as 0, the speed is the record's, and the
      record itself is kept as the origin. */
  predicate Normalizes(raw: RawTask, info: TaskInfo)
  {
    && info.name == raw.name && info.fileName == raw.name
    && raw.fileSize == Some(info.fileSize)
    && info.progress == (if raw.progress.Some? then raw.progress.value else 0)
    && raw.speed == Some(info.speed)
    && info.realPath == raw.realPath
    && info.createdTime == raw.createdTime && info.updatedTime == raw.updatedTime
    && info.origin == raw
  }

  /** A record the normalisation can read: `int(...)` of its size and speed
      needs both to be present. */
  predicate Readable(raw: RawTask)
  {
    raw.fileSize.Some? && raw.speed.Some?
  }

  /** Maps every record of a task-list response; no `tasks` at all gives an
      empty list, a record without a size or a speed aborts the query. */
  method NormalizeTasks(tasks: Option<seq<RawTask>>) returns (r: Result<seq<TaskInfo>, ClientError>)
    ensures tasks.None? ==> r == Success([])
    ensures tasks.Some? ==>
      (r.Success? <==> forall i :: 0 <= i < |tasks.value| ==> Readable(tasks.value[i]))
    ensures tasks.Some? && r.Success? ==>
      && |r.value| == |tasks.value|
      && forall i :: 0 <= i < |r.value| ==> Normalizes(tasks.value[i], r.value[i])
    ensures r.Failure? ==> r.error == MalformedResponse
  {
    if tasks.None? || tasks.value == [] {
      return Success([]);
    }
    var raw := tasks.value;
    var res: seq<TaskInfo> := [];
    for i := 0 to |raw|
      invariant |res| == i
      invariant forall k :: 0 <= k < i ==> Readable(raw[k]) && Normalizes(raw[k], res[k])
    {
      var task := raw[i];
      var progress := if task.progress.Some? then task.progress.value else 0;
      if task.fileSize.None? || task.speed.None? {
        return Failure(MalformedResponse);
      }
      res := res + [TaskInfo(task.name, task.name, task.fileSize.value, task.updatedTime, progress,
                             task.realPath, task.speed.value, task.createdTime, task)];
    }
    return Success(res);
  }

  /** The set of names of a list of tasks, the deduplication key. */
  function TaskNames(tasks: seq<TaskInfo>): (names: set<string>)
    ensures forall t :: t in tasks ==> t.name in names
    ensures forall n :: n in names ==> exists i :: 0 <= i < |tasks| && tasks[i].name == n
  {
    set i | 0 <= i < |tasks| :: tasks[i].name
  }
}
