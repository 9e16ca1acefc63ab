/**
 * Client construction: choosing the bound remote device and the download root
 * folder from the two listings the vendor returns.
 */
module DeviceContext {
  import opened Wrappers
  import opened ClientErrors

  /** One entry of the device-discovery `tasks` list: its name and `params.target`. */
  datatype Device = Device(name: string, target: string)

  /** The device-discovery response: the HTTP status, the `error` text, the
      `error_code` field if present, and the bound devices. */
  datatype DeviceListing = DeviceListing(statusCode: int, error: string, errorCode: Option<int>, devices: seq<Device>)

  /** One entry of the top-level folder listing. */
  datatype Folder = Folder(id: string, parentId: string, name: string)

  /** The folder id and name the client keeps as its download root. */
  datatype RootFolder = RootFolder(id: string, name: string)

  /** The position of the first occurrence of `name`, if any. */
  function FirstIndexOf(names: seq<string>, name: string): (r: Option<nat>)
    ensures r.None? <==> name !in names
    ensures r.Some? ==> r.value < |names| && names[r.value] == name
    ensures r.Some? ==> forall j :: 0 <= j < r.value ==> names[j] != name
  {
    if names == [] then None
    else if names[0] == name then Some(0)
    else match FirstIndexOf(names[1..], name)
      case None => None
      case Some(k) => Some(k + 1)
  }

  function DeviceNames(devices: seq<Device>): (names: seq<string>)
    ensures |names| == |devices|
    ensures forall i :: 0 <= i < |devices| ==> names[i] == devices[i].name
  {
    seq(|devices|, i requires 0 <= i < |devices| => devices[i].name)
  }

  /** The device id construction settles on: an empty list is an error; with a
      name, the target of the first device so named, and an error when there is
      none or its target is empty; without one, the first device's target. */
  function DeviceChoice(devices: seq<Device>, deviceName: string): (r: Result<string, ClientError>)
    ensures devices == [] ==> r == Failure(NoBoundDevice)
    ensures devices != [] && deviceName == "" ==> r == Success(devices[0].target)
    ensures deviceName != "" && r.Success? ==>
      exists k :: 0 <= k < |devices| && devices[k].name == deviceName && r.value == devices[k].target
               && r.value != "" && forall j :: 0 <= j < k ==> devices[j].name != deviceName
    ensures devices != [] && deviceName != "" && r.Failure? ==>
      r.error == DeviceNotFound(deviceName)
      && forall k :: 0 <= k < |devices| && devices[k].name == deviceName && devices[k].target != "" ==>
           exists j :: 0 <= j < k && devices[j].name == deviceName
  {
    if devices == [] then Failure(NoBoundDevice)
    else if deviceName == "" then Success(devices[0].target)
    else match FirstIndexOf(DeviceNames(devices), deviceName)
      case None => Failure(DeviceNotFound(deviceName))
      case Some(k) =>
        if devices[k].target == "" then Failure(DeviceNotFound(deviceName)) else Success(devices[k].target)
  }

  /** The root folder construction settles on: without a name, the first
      listed folder's PARENT id (and its name), an error on an empty listing;
      with a name, the id of the first folder so named; an empty id is an error. */
  function RootFolderChoice(folders: seq<Folder>, rootDirName: string): (r: Result<RootFolder, ClientError>)
    ensures rootDirName == "" && folders == [] ==> r == Failure(MalformedResponse)
    ensures rootDirName == "" && folders != [] ==>
      r == if folders[0].parentId == "" then Failure(RootFolderNotFound(rootDirName))
           else Success(RootFolder(folders[0].parentId, folders[0].name))
    ensures rootDirName != "" && r.Success? ==>
      exists k :: 0 <= k < |folders| && folders[k].name == rootDirName
               && r.value == RootFolder(folders[k].id, rootDirName) && r.value.id != ""
               && forall j :: 0 <= j < k ==> folders[j].name != rootDirName
    ensures rootDirName != "" && r.Failure? ==>
      r.error == RootFolderNotFound(rootDirName)
      && forall k :: 0 <= k < |folders| && folders[k].name == rootDirName && folders[k].id != "" ==>
           exists j :: 0 <= j < k && folders[j].name == rootDirName
  {
    if rootDirName == "" then
      if folders == [] then Failure(MalformedResponse)
      else if folders[0].parentId == "" then Failure(RootFolderNotFound(rootDirName))
      else Success(RootFolder(folders[0].parentId, folders[0].name))
    else
      var names := seq(|folders|, i requires 0 <= i < |folders| => folders[i].name);
      assert forall i :: 0 <= i < |folders| ==> names[i] == folders[i].name;
      match FirstIndexOf(names, rootDirName)
      case None => Failure(RootFolderNotFound(rootDirName))
      case Some(k) =>
        if folders[k].id == "" then Failure(RootFolderNotFound(rootDirName))
        else Success(RootFolder(folders[k].id, folders[k].name))
  }

  /** The device scan of construction: a loop over the listing that stops at
      the first device with the requested name. */
  method SelectDevice(devices: seq<Device>, deviceName: string) returns (r: Result<string, ClientError>)
    ensures r == DeviceChoice(devices, deviceName)
  {
    if |devices| == 0 {
      return Failure(NoBoundDevice);
    }
    var deviceId := "";
    if deviceName != "" {
      var i := 0;
      while i < |devices|
        invariant 0 <= i <= |devices|
        invariant deviceId == ""
        invariant forall j :: 0 <= j < i ==> devices[j].name != deviceName
      {
        if devices[i].name == deviceName {
          deviceId := devices[i].target;
          assert DeviceNames(devices)[i] == deviceName;
          break;
        }
        i := i + 1;
      }
      if deviceId == "" {
        return Failure(DeviceNotFound(deviceName));
      }
    } else {
      deviceId := devices[0].target;
    }
    return Success(deviceId);
  }

  /** The root-folder scan of construction: the first folder's parent id when no
      name is given, otherwise a loop that stops at the first folder so named. */
  method SelectRootFolder(folders: seq<Folder>, rootDirName: string) returns (r: Result<RootFolder, ClientError>)
    ensures r == RootFolderChoice(folders, rootDirName)
  {
    var folderId := "";
    var folderName := "";
    if rootDirName == "" {
      if |folders| == 0 {
        return Failure(MalformedResponse);
      }
      folderId := folders[0].parentId;
      folderName := folders[0].name;
    } else {
      var i := 0;
      while i < |folders|
        invariant 0 <= i <= |folders|
        invariant folderId == ""
        invariant forall j :: 0 <= j < i ==> folders[j].name != rootDirName
      {
        if folders[i].name == rootDirName {
          folderId := folders[i].id;
          folderName := folders[i].name;
          break;
        }
        i := i + 1;
      }
    }
    if folderId == "" {
      return Failure(RootFolderNotFound(rootDirName));
    }
    return Success(RootFolder(folderId, folderName));
  }
}
