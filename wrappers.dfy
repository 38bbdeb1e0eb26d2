/** Optional values: the model of Python's `Optional[...]`, where `None` is absence. */
module Wrappers {

  datatype Option<+T> = None | Some(value: T)

  /** The wrapped string, or the empty string for `None`. */
  function OrEmpty(o: Option<string>): string
  {
    match o
    case None => ""
    case Some(s) => s
  }
}
