/** The few notions of the Python runtime the plugin relies on: optional values,
    and the exceptions its operations raise or let propagate. */
module Runtime {

  datatype Option<+T> = None | Some(value: T)

  /** The exception kinds that can leave the modelled operations. Paths are
      given as their component sequences. */
  datatype Exception =
    | ValueError                              // pathlib: empty name or invalid suffix
    | FileExistsError(path: seq<string>)      // os.makedirs on an existing path
    | NotADirectoryError(path: seq<string>)   // a path component is a file, or a project is not a directory
    | FileNotFoundError(path: seq<string>)    // a required file is missing
    | IsADirectoryError(path: seq<string>)    // open(..., "w") on a directory
    | JsonDecodeError(path: seq<string>)      // json.load on a file that holds no JSON
    | KeyError(key: string)                   // dict subscript with a missing key
    | TypeError                               // subscript of a value that is not a dict, __import__ of a non-string
    | ModuleNotFoundError(name: string)       // __import__ of an unknown module
    | NameError(name: string)                 // a name that is neither defined nor imported

  /** Either the value an operation returned or the exception it raised. */
  datatype Result<+T> = Ok(value: T) | Raise(error: Exception) {
    predicate IsFailure() { Raise? }

    function PropagateFailure<U>(): Result<U>
      requires Raise?
    {
      Raise(error)
    }

    function Extract(): T
      requires Ok?
    {
      value
    }
  }
}
