/**
 * The client object: construction (device and root folder discovery) and the
 * magnet submission pipeline, with every vendor response passed in as a value.
 */
module Client {
  import opened Wrappers
  import opened Decimal
  import opened ClientErrors
  import opened Resources
  import opened TaskRegistry
  import opened DeviceContext
  import opened TaskRequest

  /** The three results of a submission. */
  const Failed := 0
  const Created := 1
  const AlreadyExists := 2

  /** The result code of a submission and the state-changing requests it issued,
      in order. */
  datatype Submission = Submission(code: int, effects: seq<Effect>)

  /** A sub-directory name that asks for more than one level. */
  predicate NestedSubDir(subDir: string)
  {
    '/' in subDir
  }

  /** The files a submission selects: the callback's answer when one is given. */
  function Selected(files: seq<TaskFile>, preprocess: Option<seq<TaskFile> -> seq<TaskFile>>): (selected: seq<TaskFile>)
    ensures preprocess.None? ==> selected == files
  {
    if preprocess.Some? then preprocess.value(files) else files
  }

  /** Without a callback, the submitted body selects every file of the tree:
      `sub_file_index` is the comma-joined 0, 1, ..., n-1 and `file_size` is the
      summed size of all the tree's files (both read back as such by
      BuildBodyReadsBack). */
  lemma NoCallbackSubmitsWholeTree(taskName: string, magnetLink: string, fileCount: int, deviceId: string,
                                   targetParentId: string, rs: seq<Resource>)
    ensures var body := BuildBody(taskName, magnetLink, fileCount, deviceId, targetParentId, Selected(Flatten(rs), None));
      && body.params.subFileIndex == JoinInts(seq(|FileLeaves(rs)|, i => i))
      && body.fileSize == IntToString(TreeSize(rs))
  {
    FlattenIndicesContiguous(rs);
    FlattenTotalSize(rs, 0);
  }

  class XunLeiClient {
    const deviceId: string
    const parentFolderId: string
    const parentFolderName: string
    /** The running counter of the flattening helper. */
    var index: int

    constructor (deviceId: string, parentFolderId: string, parentFolderName: string)
      ensures this.deviceId == deviceId && this.parentFolderId == parentFolderId
      ensures this.parentFolderName == parentFolderName && index == 0
    {
      this.deviceId := deviceId;
      this.parentFolderId := parentFolderId;
      this.parentFolderName := parentFolderName;
      index := 0;
    }

    /** Construction: a not-logged-in or refused-token answer aborts first;
        then the device and the root folder are chosen, and either choice can
        abort; otherwise a new client holds both. */
    static method Connect(listing: DeviceListing, deviceName: string, folders: seq<Folder>, rootDirName: string)
      returns (r: Result<XunLeiClient, ClientError>)
      ensures listing.statusCode == 500 ==> r == Failure(NotLoggedIn(listing.error))
      ensures listing.statusCode != 500 && listing.errorCode == Some(403) ==> r == Failure(PanAuthInvalid)
      ensures listing.statusCode != 500 && listing.errorCode != Some(403) ==>
        var device := DeviceChoice(listing.devices, deviceName);
        var root := RootFolderChoice(folders, rootDirName);
        && (device.Failure? ==> r == Failure(device.error))
        && (device.Success? && root.Failure? ==> r == Failure(root.error))
        && (device.Success? && root.Success? ==>
              && r.Success? && fresh(r.value)
              && r.value.deviceId == device.value
              && r.value.parentFolderId == root.value.id
              && r.value.parentFolderName == root.value.name)
    {
      if listing.statusCode == 500 {
        return Failure(NotLoggedIn(listing.error));
      }
      if listing.errorCode == Some(403) {
        return Failure(PanAuthInvalid);
      }
      var device := SelectDevice(listing.devices, deviceName);
      if device.Failure? {
        return Failure(device.error);
      }
      var root := SelectRootFolder(folders, rootDirName);
      if root.Failure? {
        return Failure(root.error);
      }
      var client := new XunLeiClient(device.value, root.value.id, root.value.name);
      return Success(client);
    }

    /** The recursive flattening helper: appends one task file per file of
        `resources`, numbered from the counter, which it advances by one per
        file; directories are walked in place. */
    method Helper(resources: seq<Resource>, taskFiles: seq<TaskFile>) returns (appended: seq<TaskFile>)
      modifies this
      ensures appended == taskFiles + FlattenFrom(resources, old(index))
      ensures index == old(index) + |FileLeaves(resources)|
      decreases resources
    {
      appended := taskFiles;
      ghost var start := index;
      for i := 0 to |resources|
        invariant appended == taskFiles + FlattenFrom(resources[..i], start)
        invariant index == start + |FlattenFrom(resources[..i], start)|
      {
        FlattenAppend(resources[..i], [resources[i]], start);
        assert resources[..i + 1] == resources[..i] + [resources[i]];
        match resources[i]
        case File(name, size) =>
          assert FlattenFrom([resources[i]], index) == [TaskFile(index, name, size)];
          appended := appended + [TaskFile(index, name, size)];
          index := index + 1;
        case Dir(_, children) =>
          assert FlattenFrom([resources[i]], index) == FlattenFrom(children, index);
          FlattenLength(children, index);
          appended := Helper(children, appended);
      }
      assert resources[..|resources|] == resources;
      FlattenLength(resources, start);
    }

    /** Submits the magnet link whose resolution is `resources`.
        `fileCount` is the vendor's file count of the first resource,
        `completed`/`uncompleted` the current task lists, `createdFolderId` the
        id the folder-creation call answers and `httpStatus` the `HttpStatus`
        of the submission response. */
    method DownloadMagnetic(magnetLink: string, resources: seq<Resource>, fileCount: int,
                            completed: seq<TaskInfo>, uncompleted: seq<TaskInfo>,
                            subDir: string, preprocess: Option<seq<TaskFile> -> seq<TaskFile>>,
                            createdFolderId: string, httpStatus: Option<int>)
      returns (r: Result<Submission, ClientError>)
      modifies this
      // No resources: reading the task name fails.
      ensures resources == [] ==> r == Failure(MalformedResponse) && index == old(index)
      // A known task name short-circuits before anything is flattened or sent.
      ensures resources != [] && resources[0].name in TaskNames(completed + uncompleted) ==>
        r == Success(Submission(AlreadyExists, [])) && index == old(index)
      ensures resources != [] && resources[0].name !in TaskNames(completed + uncompleted) ==>
        && r.Success?
        && index == |FileLeaves(resources)|
        // A nested sub-directory fails without any remote change.
        && (NestedSubDir(subDir) ==> r.value == Submission(Failed, []))
        // Otherwise: one folder creation when a sub-directory is asked for, then
        // exactly one submission, whatever its outcome (no rollback).
        && (!NestedSubDir(subDir) ==>
              var target := if subDir == "" then parentFolderId else createdFolderId;
              var folder := if subDir == "" then [] else [CreateFolder(parentFolderId, subDir, deviceId, FolderKind)];
              && r.value.effects == folder + [SubmitTask(BuildBody(resources[0].name, magnetLink, fileCount,
                                                                   deviceId, target,
                                                                   Selected(Flatten(resources), preprocess)))]
              && (r.value.code == Created <==> httpStatus == Some(0))
              && (r.value.code == Failed <==> httpStatus != Some(0)))
    {
      if |resources| == 0 {
        return Failure(MalformedResponse);
      }
      var taskName := resources[0].name;
      var allTaskNames := TaskNames(completed + uncompleted);
      if taskName in allTaskNames {
        return Success(Submission(AlreadyExists, []));
      }
      var taskFiles: seq<TaskFile> := [];
      index := 0;
      taskFiles := Helper(resources, taskFiles);
      assert taskFiles == Flatten(resources);
      taskFiles := Selected(taskFiles, preprocess);
      var targetParentId := parentFolderId;
      var effects: seq<Effect> := [];
      if subDir != "" {
        if '/' in subDir {
          return Success(Submission(Failed, []));
        }
        effects := effects + [CreateFolder(parentFolderId, subDir, deviceId, FolderKind)];
        targetParentId := createdFolderId;
      }
      var body := BuildBody(taskName, magnetLink, fileCount, deviceId, targetParentId, taskFiles);
      effects := effects + [SubmitTask(body)];
      assert effects == (if subDir == "" then [] else [CreateFolder(parentFolderId, subDir, deviceId, FolderKind)])
        + [SubmitTask(BuildBody(resources[0].name, magnetLink, fileCount, deviceId,
                                if subDir == "" then parentFolderId else createdFolderId,
                                Selected(Flatten(resources), preprocess)))];
      if httpStatus == Some(0) {
        return Success(Submission(Created, effects));
      }
      return Success(Submission(Failed, effects));
    }
  }
}
