/** Results and the Python exceptions the modelled code can raise. */
module Common {

  /** The exceptions the core can raise, with the path or value that caused them. */
  datatype Error =
    | CannotList(path: string)   // os.listdir on a path that is not a listable directory
    | CannotRead(path: string)   // open() on a directory entry that is itself a directory
    | IndexError(path: string)   // folder.split('\\')[1] on a folder path without a backslash
    | ZeroStep                   // range(0, n, step) with step == 0 raises ValueError

  datatype Result<T> = Ok(value: T) | Err(error: Error)

  datatype Outcome = Pass | Fail(error: Error)

  function Min(a: int, b: int): int
  {
    if a < b then a else b
  }
}
