/** Keyword arguments, as the pipeline's steps receive them. */
module Arguments {
  import opened Frames

  /** The value of one keyword argument: Python's `None`, a length, a column name
      or a path, a list of column names, an in-memory frame, or any other object. */
  datatype Arg =
    | NoneArg
    | IntArg(n: int)
    | StrArg(s: string)
    | NamesArg(names: seq<string>)
    | FrameArg(frame: Table)
    | OtherArg(token: int)

  type Kwargs = map<string, Arg>

  /** `kwargs.get(key, default)`. */
  function Get(kwargs: Kwargs, key: string, default: Arg): Arg
  {
    if key in kwargs then kwargs[key] else default
  }
}
