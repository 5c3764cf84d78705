/**
 * The dynamic JSON values the extraction code reads from the remote API,
 * the Python truthiness and equality it relies on, and the exceptions that
 * dynamic lookups raise when a payload has an unexpected shape.
 */
module Values {

  datatype Option<+T> = None | Some(value: T) {
    function GetOr(default: T): T {
      match this
      case Some(v) => v
      case None => default
    }
  }

  /** The Python exception classes the modelled code can raise. */
  datatype Fault = AttributeError | TypeError | ValueError | KeyError

  datatype Result<+T> = Success(value: T) | Failure(fault: Fault) {
    predicate IsFailure() { Failure? }
    function PropagateFailure<U>(): Result<U>
      requires Failure?
    {
      Failure(fault)
    }
    function Extract(): T
      requires Success?
    {
      value
    }
  }

  /** A decoded JSON document (floating-point numbers are not modelled). */
  datatype Value =
    | Null
    | Bool(b: bool)
    | Int(i: int)
    | Str(s: string)
    | Arr(items: seq<Value>)
    | Obj(fields: map<string, Value>)

  const EmptyObj: Value := Obj(map[])

  /** Python truthiness: None, False, 0, "", [] and {} are falsy. */
  predicate Truthy(v: Value) {
    match v
    case Null => false
    case Bool(b) => b
    case Int(i) => i != 0
    case Str(s) => s != ""
    case Arr(xs) => xs != []
    case Obj(m) => m != map[]
  }

  /** `d.get(key)` on a dict: the stored value, or None when the key is absent. */
  function Get(m: map<string, Value>, key: string): (r: Value)
    ensures key !in m ==> r == Null
    ensures key in m ==> r == m[key]
  {
    if key in m then m[key] else Null
  }

  /** `v.get(key)` on any value: a non-dict has no `get` and raises AttributeError. */
  function GetField(v: Value, key: string): (r: Result<Value>)
    ensures r.Success? <==> v.Obj?
    ensures v.Obj? ==> r.value == Get(v.fields, key)
  {
    match v
    case Obj(m) => Success(Get(m, key))
    case _ => Failure(AttributeError)
  }

  /** `v or w`: the first operand when it is truthy, else the second. */
  function Or(v: Value, w: Value): (r: Value)
    ensures Truthy(v) ==> r == v
    ensures !Truthy(v) ==> r == w
  {
    if Truthy(v) then v else w
  }

  /**
   * `(v or {})` followed by lookups on the result: the dict to read from.
   * A falsy value reads as the empty dict; a truthy non-dict fails on its
   * first `.get`.
   */
  function SubObject(v: Value): (r: Result<map<string, Value>>)
    ensures !Truthy(v) ==> r == Success(map[])
    ensures Truthy(v) && v.Obj? ==> r == Success(v.fields)
    ensures Truthy(v) && !v.Obj? ==> r.Failure?
  {
    if !Truthy(v) then Success(map[])
    else if v.Obj? then Success(v.fields)
    else Failure(AttributeError)
  }

  /** `for x in (v or [])`: the items iterated; a truthy non-list is refused. */
  function ItemsOf(v: Value): (r: Result<seq<Value>>)
    ensures !Truthy(v) ==> r == Success([])
    ensures v.Arr? ==> r == Success(v.items)
    ensures Truthy(v) && !v.Arr? ==> r.Failure?
  {
    if !Truthy(v) then Success([])
    else if v.Arr? then Success(v.items)
    else Failure(TypeError)
  }

  /** Python `v == n` for an int `n`: booleans compare as 0 and 1. */
  predicate EqualsInt(v: Value, n: int) {
    match v
    case Int(i) => i == n
    case Bool(b) => (if b then 1 else 0) == n
    case _ => false
  }
}
