/** The optional value used for Python's `X | None` fields and `dict.get` results. */
module Wrappers {

  datatype Option<+T> = None | Some(value: T)

  /** Python's `x or ""` on an optional string: None and "" both give "". */
  function OrEmpty(o: Option<string>): string
  {
    match o
    case Some(s) => s
    case None => ""
  }
}
