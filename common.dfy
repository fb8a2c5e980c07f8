/** Option and Result wrappers, and the exceptions the system can raise. */
module Common {

  datatype Option<+T> = None | Some(value: T)

  /** Every exception that can escape `Diridea::run`. */
  datatype Error =
    // InvalidArgumentException from the DirValueObject constructor
    | InvalidLocation(location: string)
    | InvalidVisibility(visibility: string)
    | InvalidTimingOption(option: string)
    | InvalidTimingValue
    | MissingTimingUnit
    | InvalidTimingUnit(unit: string)
    // RuntimeException from DirValueObject::timingValueInSeconds
    | UnsupportedTimingUnit
    // storage failures raised by the filesystem
    | UnableToSetVisibility(path: string)
    | UnableToDeleteFile(path: string)
    | UnableToMoveFile(source: string, destination: string)
    | UnableToCreateDirectory(location: string)

  datatype Result<+T> = Ok(value: T) | Err(error: Error)

  /** A call that either returns normally or throws. */
  datatype Outcome = Pass | Fail(error: Error)
}
