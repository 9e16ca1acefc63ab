/**
 * The ways the client gives up. Each constructor stands for an exception the
 * Python client raises (or lets escape) and that aborts the call in progress.
 */
module ClientErrors {
  datatype ClientError =
      /** HTTP 500 on device discovery: the NAS is not logged in to an account. */
    | NotLoggedIn(message: string)
      /** `error_code == 403` on device discovery: the computed pan-auth token was refused. */
    | PanAuthInvalid
      /** Device discovery returned an empty device list. */
    | NoBoundDevice
      /** No device carries the requested name, or the first that does has no target. */
    | DeviceNotFound(deviceName: string)
      /** No root folder carries the requested name, or the chosen id is empty. */
    | RootFolderNotFound(rootDirName: string)
      /** The vendor payload lacks something the client indexes into (an empty
          resource list, an empty folder list, a task without a speed). */
    | MalformedResponse
}
