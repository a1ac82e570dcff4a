/** Optional values and the errors the scheduler reports. */
module Wrappers {

  datatype Option<+T> = None | Some(value: T)

  /** The errors the program wraps and reports. */
  datatype Error =
    | BadDuration(text: string)   // "could not parsing time"
    | NoFont(title: string)       // "could not create font"
    | DrawFailed                  // "could not render window"
    | ExecFailed(argv: seq<string>) // "could not execute command"
    | KillFailed                  // "could not stop"

  datatype Result<+T> = Ok(value: T) | Err(error: Error)
}
