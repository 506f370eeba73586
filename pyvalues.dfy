/** Python values as the remote inference client hands them back to the relay,
    and the few behaviours of the Python runtime the relay depends on. */
module PyValues {

  /** A value returned by a remote call. The client decodes the service's JSON
      answer, so mapping keys are strings; `Other` stands for a remaining
      JSON scalar (a number or a boolean) with its Python truthiness. */
  datatype Value =
    | Str(s: string)
    | NoneValue
    | List(items: seq<Value>)
    | Dict(entries: map<string, Value>)
    | Tuple(items: seq<Value>)
    | Other(tag: nat, truthy: bool)

  /** Runtime behaviour whose exact text is not modelled: `str(x)` for values
      other than a string or None, the message of the TypeError `os.stat`
      raises for a value that is not a path, and the message of the error
      `shutil.copy2(src, dst)` raises when it refuses to copy. */
  datatype Python = Python(
    str: Value -> string,
    statTypeError: Value -> string,
    copyError: (string, string) -> string)

  /** `str(v)`: a string is its own text and None prints as "None"; every other
      value goes through the runtime's own conversion. */
  function ToStr(py: Python, v: Value): (r: string)
    ensures v.Str? ==> r == v.s
    ensures v.NoneValue? ==> r == "None"
  {
    match v
    case Str(s) => s
    case NoneValue => "None"
    case _ => py.str(v)
  }

  /** Python truthiness: empty strings and containers and None are false. */
  predicate Truthy(v: Value): (b: bool)
    ensures v.Str? ==> (b <==> |v.s| > 0)
    ensures v.List? || v.Tuple? ==> (b <==> |v.items| > 0)
    ensures v.Dict? ==> (b <==> |v.entries| > 0)
    ensures v.NoneValue? ==> !b
  {
    match v
    case Str(s) => s != ""
    case NoneValue => false
    case List(items) => items != []
    case Dict(entries) => entries != map[]
    case Tuple(items) => items != []
    case Other(_, truthy) => truthy
  }
}
