/** Shared wrappers: optional values, results carrying an error, and the
    dynamically typed values that Python callers pass as keyword arguments. */
module Common {

  datatype Option<+T> = None | Some(value: T)

  /** The outcome of an operation that may raise: either its value or the
      error it raises. */
  datatype Result<+T, +E> = Success(value: T) | Failure(error: E) {
    predicate IsFailure() {
      Failure?
    }

    function PropagateFailure<U>(): Result<U, E>
      requires Failure?
    {
      Failure(error)
    }

    function Extract(): T
      requires Success?
    {
      value
    }
  }

  /** The Python exception classes the modelled code raises. */
  datatype PythonException =
    | ValueError | TypeError | IndexError | FileNotFoundError
    | OverflowError | OSError | AttributeError | ZeroDivisionError

  /** Concatenation regrouped. */
  lemma {:induction false} Reassociate<T>(x: seq<T>, y: seq<T>, z: seq<T>)
    ensures (x + y) + z == x + (y + z)
  {
  }

  /** A Python value as far as the modelled code inspects it: its type
      (for `isinstance` checks), its integer value and its truthiness. */
  datatype Value =
    | VNone
    | VBool(b: bool)
    | VInt(i: int)
    | VReal(r: real)
    | VStr(s: string)
    | VTuple(items: seq<Value>)
    | VList(elems: seq<Value>)
    | VDict(entries: seq<(string, Value)>)

  /** `isinstance(v, int)` holds for ints and, in Python, for bools too. */
  function AsInt(v: Value): (r: Option<int>)
    ensures r.Some? <==> (v.VInt? || v.VBool?)
    ensures v.VInt? ==> r == Some(v.i)
  {
    match v
    case VInt(i) => Some(i)
    case VBool(b) => Some(if b then 1 else 0)
    case _ => None
  }

  /** Python truthiness: zero, empty and None are false. */
  predicate Truthy(v: Value) {
    match v
    case VNone => false
    case VBool(b) => b
    case VInt(i) => i != 0
    case VReal(r) => r != 0.0
    case VStr(s) => s != ""
    case VTuple(items) => items != []
    case VList(elems) => elems != []
    case VDict(entries) => entries != []
  }
}
