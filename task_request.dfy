/**
 * The two requests that change remote state: folder creation and task
 * submission, with the body of the latter.
 */
module TaskRequest {
  import opened Wrappers
  import opened Resources
  import opened Decimal

  /** The `type` of every submitted task. */
  const TaskType := "user#download-url"
  /** The `kind` of every created folder. */
  const FolderKind := "drive#folder"

  datatype TaskParams = TaskParams(
    target: string,
    url: string,
    totalFileCount: string,
    parentFolderId: string,
    subFileIndex: string,
    fileId: string)

  datatype TaskBody = TaskBody(
    taskType: string,
    name: string,
    fileName: string,
    fileSize: string,
    space: string,
    params: TaskParams)

  /** A request that changes remote state, with the body it carries. */
  datatype Effect =
    | CreateFolder(parentId: string, name: string, space: string, kind: string)
    | SubmitTask(body: TaskBody)

  /** The submission body for the selected files: it names the task, targets
      the device and the chosen parent folder, and carries the magnet link. */
  function BuildBody(taskName: string, magnetLink: string, fileCount: int, deviceId: string,
                     targetParentId: string, selected: seq<TaskFile>): (body: TaskBody)
    ensures body.taskType == TaskType && body.name == taskName && body.fileName == taskName
    ensures body.space == deviceId && body.params.target == deviceId
    ensures body.params.url == magnetLink && body.params.parentFolderId == targetParentId
    ensures body.params.fileId == ""
  {
    TaskBody(TaskType, taskName, taskName, IntToString(TotalSize(selected)), deviceId,
             TaskParams(deviceId, magnetLink, IntToString(fileCount), targetParentId,
                        JoinInts(Indices(selected)), ""))
  }

  /** The numeric fields of a submission body read back as what they encode:
      `file_size` as the summed size of the selected files, `sub_file_index` as
      their indices in list order, `total_file_count` as the reported count. */
  lemma BuildBodyReadsBack(taskName: string, magnetLink: string, fileCount: int, deviceId: string,
                           targetParentId: string, selected: seq<TaskFile>)
    ensures var body := BuildBody(taskName, magnetLink, fileCount, deviceId, targetParentId, selected);
      && ParseInt(body.fileSize) == Some(TotalSize(selected))
      && ParseInts(body.params.subFileIndex) == Some(Indices(selected))
      && ParseInt(body.params.totalFileCount) == Some(fileCount)
  {
    IntToStringRoundTrip(TotalSize(selected));
    IntToStringRoundTrip(fileCount);
    JoinIntsRoundTrip(Indices(selected));
  }
}
