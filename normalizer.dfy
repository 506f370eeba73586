/** Turning the loosely typed answer of the remote `/inpaint` call into the
    path of an existing result file (app.py, lines 78-95). */
module Normalizer {
  import opened PyValues
  import opened LocalFs

  /** The exceptions the handler's outer `except` turns into a 500 answer. */
  datatype Fault =
    | UnexpectedFormat(result: Value)   // ValueError: no path can be read off the answer
    | ResultNotFound(path: Value)       // ValueError: the path is falsy or names nothing
    | CopiedNotFound(copy: Path)        // ValueError: the copy is not there after copy2
    | Raised(msg: string)               // any other exception, carried as str(e)
  {
    function Kind(): nat
    {
      match this
      case UnexpectedFormat(_) => 0
      case ResultNotFound(_) => 1
      case CopiedNotFound(_) => 2
      case Raised(_) => 3
    }
  }

  datatype Result<T> = Ok(value: T) | Err(fault: Fault)

  const UNEXPECTED_FORMAT := "Unexpected result format: "
  const RESULT_NOT_FOUND := "Result file not found: "
  const COPIED_NOT_FOUND := "Copied file not found: "

  /** `str(e)` for the exception a fault stands for. The three ValueErrors
      raised by the handler itself each start with their own fixed text,
      followed by `str()` of the offending value. */
  function Message(py: Python, f: Fault): (r: string)
    ensures f.UnexpectedFormat? ==> r == UNEXPECTED_FORMAT + ToStr(py, f.result)
    ensures f.ResultNotFound? ==> r == RESULT_NOT_FOUND + ToStr(py, f.path)
    ensures f.CopiedNotFound? ==> r == COPIED_NOT_FOUND + f.copy
    ensures f.Raised? ==> r == f.msg
  {
    match f
    case UnexpectedFormat(v) => UNEXPECTED_FORMAT + ToStr(py, v)
    case ResultNotFound(p) => RESULT_NOT_FOUND + ToStr(py, p)
    case CopiedNotFound(p) => COPIED_NOT_FOUND + p
    case Raised(msg) => msg
  }

  /** The handler's own faults are told apart by their messages: the fixed
      text each message starts with names its fault. */
  lemma MessagesDistinct(py: Python, f: Fault, g: Fault)
    requires !f.Raised? && !g.Raised? && f.Kind() != g.Kind()
    ensures Message(py, f) != Message(py, g)
  {
    // The three fixed texts already differ in their first character.
    assert Message(py, f)[0] == Initial(f);
    assert Message(py, g)[0] == Initial(g);
  }

  function Initial(f: Fault): char
  {
    match f
    case UnexpectedFormat(_) => 'U'
    case ResultNotFound(_) => 'R'
    case CopiedNotFound(_) => 'C'
    case Raised(_) => ' '
  }

  /** The answers from which a path can be read: a string, a non-empty list,
      a mapping with a "path" key, or a non-empty tuple. */
  predicate Accepted(v: Value)
  {
    v.Str? || (v.List? && v.items != []) || (v.Dict? && "path" in v.entries) ||
    (v.Tuple? && v.items != [])
  }

  /** The priority-ordered type tests of app.py:79-92. The chosen value is not
      necessarily a string: a mapping's "path" entry and a tuple's first item
      are taken as they are, only a list's first item that is not a mapping
      with "path" goes through `str`. */
  function Normalize(py: Python, result: Value): (r: Result<Value>)
    ensures r.Ok? <==> Accepted(result)
    ensures r.Err? ==> r.fault == UnexpectedFormat(result)
  {
    match result
    case Str(_) => Ok(result)
    case List(items) =>
      if items == [] then Err(UnexpectedFormat(result))
      else if items[0].Dict? && "path" in items[0].entries then Ok(items[0].entries["path"])
      else Ok(Str(ToStr(py, items[0])))
    case Dict(entries) =>
      if "path" in entries then Ok(entries["path"]) else Err(UnexpectedFormat(result))
    case Tuple(items) =>
      if items != [] then Ok(items[0]) else Err(UnexpectedFormat(result))
    case _ => Err(UnexpectedFormat(result))
  }

  /** `if not outpaint_result or not os.path.exists(outpaint_result)` (app.py:94-95).
      A falsy value is rejected before the filesystem is asked; a truthy value
      that is not a string makes `os.stat` raise a TypeError. */
  function CheckResultPath(py: Python, p: Value, fs: FsState): (r: Result<Path>)
    ensures r.Ok? <==> p.Str? && p.s != "" && Exists(fs, p.s)
    ensures r.Ok? ==> p == Str(r.value)
    ensures r.Err? && (p.Str? || p.NoneValue?) ==> r.fault == ResultNotFound(p)
    ensures !Truthy(p) ==> r == Err(ResultNotFound(p))
    ensures Truthy(p) && !p.Str? ==> r == Err(Raised(py.statTypeError(p)))
  {
    if !Truthy(p) then Err(ResultNotFound(p))
    else if !p.Str? then Err(Raised(py.statTypeError(p)))
    else if !Exists(fs, p.s) then Err(ResultNotFound(p))
    else Ok(p.s)
  }

  /** A list whose first item is not a mapping with "path" is stringified
      (app.py:86), so its value never makes `os.stat` raise: the check
      either accepts it or reports the result file as missing. */
  lemma StringifiedNeverRaises(py: Python, items: seq<Value>, fs: FsState)
    requires items != [] && !(items[0].Dict? && "path" in items[0].entries)
    ensures Normalize(py, List(items)).Ok?
    ensures var v := Normalize(py, List(items)).value;
            v.Str? && CheckResultPath(py, v, fs) != Err(Raised(py.statTypeError(v)))
  {
  }

  /** The five answer shapes known to carry a path `p`. */
  datatype Shape =
    | Bare                 // "p"
    | ListOfMapping        // [{"path": "p"}]
    | ListOfString         // ["p"]
    | Mapping              // {"path": "p"}
    | Pair(extra: Value)   // ("p", extra)

  function Wrap(shape: Shape, p: string): Value
  {
    match shape
    case Bare => Str(p)
    case ListOfMapping => List([Dict(map["path" := Str(p)])])
    case ListOfString => List([Str(p)])
    case Mapping => Dict(map["path" := Str(p)])
    case Pair(extra) => Tuple([Str(p), extra])
  }

  /** Every one of those shapes normalises back to the path it carries. */
  lemma NormalizeWrap(py: Python, shape: Shape, p: string)
    ensures Normalize(py, Wrap(shape, p)) == Ok(Str(p))
  {
  }

  /** A string answer is the path itself. */
  lemma NormalizeString(py: Python, s: string)
    ensures Normalize(py, Str(s)) == Ok(Str(s))
  {
  }

  /** A mapping answer yields its "path" entry uncoerced; without one it is rejected. */
  lemma NormalizeDict(py: Python, entries: map<string, Value>)
    ensures "path" in entries ==> Normalize(py, Dict(entries)) == Ok(entries["path"])
    ensures "path" !in entries ==> Normalize(py, Dict(entries)) == Err(UnexpectedFormat(Dict(entries)))
  {
  }

  /** A non-empty list yields the "path" entry of a leading mapping that has
      one, and otherwise the string form of its first item, so a leading
      mapping without "path" is stringified rather than rejected. */
  lemma NormalizeList(py: Python, items: seq<Value>)
    requires items != []
    ensures items[0].Dict? && "path" in items[0].entries ==>
              Normalize(py, List(items)) == Ok(items[0].entries["path"])
    ensures !(items[0].Dict? && "path" in items[0].entries) ==>
              Normalize(py, List(items)) == Ok(Str(ToStr(py, items[0])))
  {
  }

  /** A non-empty tuple yields its first item uncoerced. */
  lemma NormalizeTuple(py: Python, items: seq<Value>)
    requires items != []
    ensures Normalize(py, Tuple(items)) == Ok(items[0])
  {
  }

  /** Empty lists and tuples, None and non-container values are rejected. */
  lemma NormalizeRejects(py: Python, v: Value)
    requires v == List([]) || v == Tuple([]) || v.NoneValue? || v.Other?
    ensures Normalize(py, v) == Err(UnexpectedFormat(v))
  {
  }
}
