/** The vocabulary shared by every part of the model: errors, endpoints and the
    events an upload reports. */
module Types {

  datatype Option<+T> = None | Some(value: T)

  datatype Result<+T, +E> = Ok(value: T) | Err(error: E)

  /** An error as the engine sees it.  `permission` stands for the test
      `errors.Is(err, os.ErrPermission)`, which wrapping an error preserves. */
  datatype Error = Error(text: string, permission: bool)

  datatype Protocol = Ftp | Ftps | Sftp

  datatype Overwrite = DeleteFirst | Direct

  /** One remote destination, fully resolved.  Durations are in nanoseconds. */
  datatype Endpoint = Endpoint(
    name: string,
    protocol: Protocol,
    host: string,
    port: int,
    username: string,
    password: string,
    privateKey: string,
    overwrite: Overwrite,
    insecureSkipVerify: bool,
    policy: Policy)

  /** The retry policy of an endpoint. */
  datatype Policy = Policy(
    attempts: int,
    retryDelay: int,
    connectTimeout: int,
    stallTimeout: int,
    maxConnectFailures: int)

  /** Why a file's attempt is reported as failed. */
  datatype Cause =
    | ConnectCause(error: Error)
    | BreakerCause(failures: int)
    | DeleteCause(error: Error)
    | UploadCause(error: Error)
    | VerifyCause(error: Error)
    | NoTransport(error: Error)

  /** The events sent on the channel returned by Upload; elapsed times are left out. */
  datatype Event =
    | FileStart(endpoint: string, file: string, attempt: int)
    | Progress(endpoint: string, file: string, sent: int, total: int)
    | FileSuccess(endpoint: string, file: string, verifyMethod: string)
    | FileError(endpoint: string, file: string, attempt: int, cause: Cause)
    | Unreachable(endpoint: string, failures: int, skipped: seq<string>)
    | GivenUp(endpoint: string, reason: Cause, skipped: seq<string>)
    | Done(endpoint: string, succeeded: int, failed: int)
    | DryRun(endpoint: string, files: int, err: Option<Error>)
}
