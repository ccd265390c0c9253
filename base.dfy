/** Small shared vocabulary: optional values, results, and the failures the router code raises. */
module Base {

  datatype Option<+T> = None | Some(value: T)

  datatype Result<+T, +E> = Ok(value: T) | Err(error: E)

  /** Errors reported by the container runtime's client library. */
  datatype DockerError =
    | NotFound(name: string)   // docker.errors.NotFound
    | Conflict(name: string)   // a name already in use, or a container that is not running
    | Unavailable              // the daemon cannot be reached

  /** The exceptions that escape the router functions. */
  datatype Failure =
    | ExecutionFailed(cmd: seq<string>)   // RuntimeError("Fatal error executing ...") of call_popen
    | DockerFailed(err: DockerError)      // an error raised by the runtime client
}
