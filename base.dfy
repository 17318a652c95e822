/** Types shared by the whole model: an optional value, the errors the modelled code raises,
    and a failure-compatible result. */
module Base {

  datatype Option<T> = None | Some(value: T)

  /** Every `Error` the modelled code raises, with the data its message prints.
      The host suffix (`hostmsg`) of the messages is not modelled. */
  datatype Error =
    | BadLevels(start: string, end: string)                  // a level name outside pkg/node/core/cpu
    | BadLevelOrder(start: string, end: string)              // start level below end level
    | NoSuchId(level: string, num: nat, available: seq<nat>) // "<level> <num> does not exist, use: ..."
    | CpuNotAvailable(cpu: nat, available: seq<nat>)         // "CPU<cpu> is not available, ..."
    | PackageNotAvailable(pkg: nat, available: seq<nat>)     // "package '<pkg>' not available, ..."
    | BadScope(scope: string)                                // get_scope_msg: unknown scope
    | ValueRequired(option: string)                          // SSH option without a value
    | Unrecognized(args: seq<string>)                        // unknown arguments left over

  /** A value or the error raised while computing it. */
  datatype Result<T> = Ok(value: T) | Err(error: Error) {
    predicate IsFailure() { Err? }

    function PropagateFailure<U>(): Result<U>
      requires Err?
    {
      Err(error)
    }

    function Extract(): T
      requires Ok?
    {
      value
    }
  }
}
