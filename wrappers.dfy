/** Optional values, the render error, and the failure-compatible result types
    that stand for Python's `raise RenderError(...)`. */
module Wrappers {

  /** A value that may be absent (a missing key of a Python dict). */
  datatype Option<+T> = None | Some(value: T) {

    /** The value, or `default` when absent (`dict.get(key, default)`). */
    function GetOr(default: T): T {
      match this
      case Some(v) => v
      case None => default
    }
  }

  /** The single error kind of the library. Each variant names one check that
      failed and carries the offending value and, where the library lists them,
      the valid alternatives. The message text itself is not modelled. */
  datatype RenderError =
    | Rejected(value: string, reason: string)  // raised by an external validator
    | DevicePathsNotSet(hostDevice: string, containerDevice: string)
    | DuplicateContainerDevice(containerDevice: string)
    | EmptyVolumeName
    | DuplicateVolume(identifier: string)
    | VolumeNotFound(identifier: string, available: set<string>)
    | InvalidVolumeType(volType: string, validOptions: seq<string>)
    | MissingHostPathConfig
    | MissingHostPath
    | MissingAclPath
    | MissingIxVolumeConfig
    | MissingDatasetName
    | UnknownDataset(datasetName: string, available: set<string>)

  /** The outcome of an operation that returns a value or raises. */
  datatype Result<+T> = Ok(value: T) | Err(error: RenderError) {

    predicate IsFailure() {
      Err?
    }

    function PropagateFailure<U>(): Result<U>
      requires Err?
    {
      Err(error)
    }

    function Extract(): T
      requires Ok?
    {
      value
    }
  }

  /** The outcome of an operation that returns nothing or raises. */
  datatype Outcome = Pass | Fail(error: RenderError)
}
