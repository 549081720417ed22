/** Failure-carrying values shared by every component of the pipeline. Each
    exception the Python code raises or catches is one `Error` case. */
module Results {

  /** What went wrong. The cases follow the exceptions of the program:
      the two configuration validators and `get_llm` raise `ValueError`,
      `get_document` raises `FileNotFoundError`, `str.format` raises
      `ValueError` or `KeyError`, `input()` raises `EOFError` at end of input,
      and any library or network call may raise anything else. */
  datatype Error =
    | MissingVariable(name: string)   // a required environment variable is absent or empty
    | NoApiKey                        // neither chat provider key is set
    | FileNotFound(path: string)      // the document path does not exist
    | FormatSyntax                    // an unmatched brace in a format string
    | MissingField(field: string)     // a replacement field with no argument
    | Provider(message: string)       // a failure inside an external capability
    | EndOfInput                      // the input stream ended

  datatype Option<+T> = None | Some(value: T)

  /** The outcome of a step that produces a value or raises. */
  datatype Result<+T> = Ok(value: T) | Err(error: Error)

  /** The outcome of a step that only checks something. */
  datatype Outcome = Pass | Fail(error: Error)
}
