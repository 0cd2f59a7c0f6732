/** Failure-carrying result types shared by every operation of the engine.
    Errors are values, never faults: each operation returns either a result or
    one of the `Failure` records below, so a caller can always branch on them. */
module Results {

  datatype Option<+T> = None | Some(value: T)

  /** The error records the engine reports. */
  datatype Failure =
    | UnknownStyle(style: string, valid: seq<string>)    // style id not among the visual types
    | UnknownId(id: string)                              // id not resolvable to a point
    | UnknownPreset(preset: string, valid: seq<string>)  // rhythmic preset name unknown
    | MissingInput                                       // neither a state nor a known id supplied
    | UnknownMode(mode: string)                          // prompt mode not recognised
    | ZeroStepCount                                      // a division by a zero step count

  datatype Result<+T> = Ok(value: T) | Err(error: Failure)
}
