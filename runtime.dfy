/** The small part of the Python runtime both installers lean on: optional and
    failing values, the exceptions the scripts can raise, and the observable
    effects of a run (directory creation, HTTP fetches, file writes). */
module Runtime {

  datatype Option<T> = None | Some(value: T)

  datatype Result<T, E> = Ok(value: T) | Err(error: E)

  /** The Python exceptions the modelled code can raise. */
  datatype PyError =
    | IndexError         // argv[2] or keys[reply-1] out of range
    | AttributeError     // None.endswith / (666).endswith
    | TypeError          // str.replace(..., None)
    | NameError          // the misspelled `continule`
    | UnboundLocalError  // `opts` read before assignment
    | ValueError         // int() of a non-number
    | EOFError           // input() with no line left on stdin

  /** One observable effect, logged in the order the script performs it.
      `Write` records the str passed to `write` on a file opened in text
      mode; the newline translation that mode applies on Windows is not part
      of the model. */
  datatype Action =
    | MakeDirs(path: string)
    | Fetch(url: string)
    | Write(path: string, content: string)

  /** How a run ends: `exit(code)` or an exception that escapes. */
  datatype Outcome = Exited(code: int) | Raised(error: PyError)

  /** Python's `s or fallback` on strings: the empty string is falsy. */
  function Or(s: string, fallback: string): string {
    if s == "" then fallback else s
  }
}
