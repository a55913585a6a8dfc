/**
 * The few Python objects the scripts inspect, and the built-in operations they
 * apply to them: `key in obj`, `obj[key]`, `obj.get(key, default)`, truthiness
 * and `str(obj)`. What `str()` prints for a dict, list or scalar is the
 * runtime's business, so those carry their rendering as a field.
 */
module PyValues {
  import opened Wrappers
  import opened Text

  datatype PyValue =
    | PyStr(s: string)
    | PyDict(entries: map<string, PyValue>, repr: string)
    | PyList(items: seq<PyValue>, repr: string)
      /** `None`, a bool or a number; `typeName` is what `type(obj).__name__` reports. */
    | PyScalar(typeName: string, repr: string, truthy: bool)

  /** A raised exception: its class name and `str(e)`. */
  datatype PyException = PyException(kind: string, message: string)

  function TypeName(v: PyValue): string {
    match v
    case PyStr(_) => "str"
    case PyDict(_, _) => "dict"
    case PyList(_, _) => "list"
    case PyScalar(t, _, _) => t
  }

  /** `str(v)` (also what an f-string substitutes). */
  function Str(v: PyValue): string {
    match v
    case PyStr(s) => s
    case PyDict(_, r) => r
    case PyList(_, r) => r
    case PyScalar(_, r, _) => r
  }

  /** `bool(v)`: empty strings, containers and falsy scalars are false. */
  predicate Truthy(v: PyValue) {
    match v
    case PyStr(s) => |s| > 0
    case PyDict(m, _) => |m| > 0
    case PyList(xs, _) => |xs| > 0
    case PyScalar(_, _, b) => b
  }

  /** `p` occurs somewhere in `s` (Python's `p in s` on two strings). */
  predicate IsSubstring(p: string, s: string)
    decreases |s|
  {
    IsPrefix(p, s) || (|s| > 0 && IsSubstring(p, s[1..]))
  }

  /** `key in c`: dict membership, substring test on a str, element test on a list. */
  function Contains(c: PyValue, key: string): (r: Result<bool, PyException>)
    ensures r.Failure? <==> c.PyScalar?
    ensures c.PyDict? ==> r == Success(key in c.entries)
  {
    match c
    case PyDict(m, _) => Success(key in m)
    case PyStr(s) => Success(IsSubstring(key, s))
    case PyList(xs, _) => Success(PyStr(key) in xs)
    case PyScalar(t, _, _) =>
      Failure(PyException("TypeError", "argument of type '" + t + "' is not iterable"))
  }

  /** `c[key]` with a string key: only a dict that holds the key answers. */
  function GetItem(c: PyValue, key: string): (r: Result<PyValue, PyException>)
    ensures r.Success? <==> c.PyDict? && key in c.entries
    ensures r.Success? ==> r.value == c.entries[key]
  {
    match c
    case PyDict(m, _) =>
      if key in m then Success(m[key])
      else Failure(PyException("KeyError", "'" + key + "'"))
    case PyStr(_) =>
      Failure(PyException("TypeError", "string indices must be integers, not 'str'"))
    case PyList(_, _) =>
      Failure(PyException("TypeError", "list indices must be integers or slices, not str"))
    case PyScalar(t, _, _) =>
      Failure(PyException("TypeError", "'" + t + "' object is not subscriptable"))
  }

  /** `c.get(key, default)`: only dicts have a `get` method. */
  function DictGet(c: PyValue, key: string, default: PyValue): (r: Result<PyValue, PyException>)
    ensures r.Success? <==> c.PyDict?
    ensures c.PyDict? && key in c.entries ==> r == Success(c.entries[key])
    ensures c.PyDict? && key !in c.entries ==> r == Success(default)
  {
    match c
    case PyDict(m, _) => Success(if key in m then m[key] else default)
    case _ => Failure(NoGet(c))
  }

  /** The AttributeError raised by calling `.get` on a value that is not a dict. */
  function NoGet(c: PyValue): PyException {
    PyException("AttributeError", "'" + TypeName(c) + "' object has no attribute 'get'")
  }
}
