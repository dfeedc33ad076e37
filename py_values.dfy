/**
 * The few Python run-time notions the modelled code depends on: the dynamic
 * values carried by signals and returned by handlers, Python truthiness, and
 * the exceptions the code can raise.
 */
module PyValues {

  /** A Python value as it appears in signal data or as a handler's return value. */
  datatype Value =
    | Null                       // Python's None
    | Bool(b: bool)
    | Int(i: int)
    | Str(s: string)
    | List(items: seq<Value>)

  /** Python truthiness (`if x:` / `not x`) of a value: false exactly for the empty values of each kind. */
  predicate Truthy(v: Value)
    ensures !Truthy(v) <==> v == Null || v == Bool(false) || v == Int(0) || v == Str("") || v == List([])
  {
    match v
    case Null => false
    case Bool(b) => b
    case Int(i) => i != 0
    case Str(s) => s != ""
    case List(items) => items != []
  }

  /** A list of strings as a Python value. */
  function Strs(ss: seq<string>): (v: Value)
    ensures v.List? && |v.items| == |ss|
    ensures forall k :: 0 <= k < |ss| ==> v.items[k] == Str(ss[k])
  {
    if ss == [] then List([]) else List([Str(ss[0])] + Strs(ss[1..]).items)
  }

  /** The exceptions that the modelled code can raise. */
  datatype Exception =
    | AttributeError(message: string)
    | IndexError
    | KeyError(key: Value)
    | NameError(name: string)
}
