/** JSON values as Python's `json` decoder hands them back, and the handful of
    Python operations the transcription client applies to them: `dict.get` with
    a default, indexing with `[0]`, `for` iteration and `float(...)`. Each of
    them is partial in Python (it raises); here it returns a `Result` whose
    error names the exception. */
module PyJson {

  datatype Option<+T> = None | Some(value: T) {
    predicate IsFailure() { None? }

    function PropagateFailure<U>(): Option<U>
      requires None?
    {
      None
    }

    function Extract(): T
      requires Some?
    {
      value
    }
  }

  /** The built-in exceptions the operations below can raise. */
  datatype PyError = AttributeError | IndexError | KeyError | TypeError | ValueError

  datatype Result<+T> = Ok(value: T) | Err(error: PyError) {
    predicate IsFailure() { Err? }

    function PropagateFailure<U>(): Result<U>
      requires Err?
    {
      Err(error)
    }

    function Extract(): T
      requires Ok?
    {
      value
    }
  }

  /** A decoded JSON document: `None`, `bool`, a number (`int` and `float`
      alike, as an exact real), `str`, `list` and `dict`. */
  datatype Json =
    | Null
    | Bool(boolean: bool)
    | Num(number: real)
    | Str(text: string)
    | Arr(elems: seq<Json>)
    | Obj(fields: map<string, Json>)

  /** Python's `float(s)` on a string. Its grammar is not modelled: callers
      supply it, and `None` stands for the `ValueError` it raises. */
  type FloatParser = string -> Option<real>

  /** `v.get(key, default)`: only a `dict` has a `get` method. */
  function Get(v: Json, key: string, default: Json): (r: Result<Json>)
    ensures r.Ok? <==> v.Obj?
    ensures !v.Obj? ==> r == Err(AttributeError)
    ensures v.Obj? && key in v.fields ==> r == Ok(v.fields[key])
    ensures v.Obj? && key !in v.fields ==> r == Ok(default)
  {
    match v
    case Obj(m) => Ok(if key in m then m[key] else default)
    case _ => Err(AttributeError)
  }

  /** `v[0]`. A list or a string yields its first element (a string's is a
      one-character string) or raises `IndexError` when empty; a `dict` has
      only string keys, so looking up `0` raises `KeyError`; `None`, a bool and
      a number are not subscriptable. */
  function Index0(v: Json): (r: Result<Json>)
    ensures r.Ok? <==> (v.Arr? && v.elems != []) || (v.Str? && v.text != [])
    ensures v.Arr? && v.elems != [] ==> r == Ok(v.elems[0])
    ensures v.Str? && v.text != [] ==> r == Ok(Str([v.text[0]]))
    ensures (v.Arr? || v.Str?) && r.Err? ==> r.error == IndexError
    ensures v.Obj? ==> r == Err(KeyError)
  {
    match v
    case Arr(a) => if a == [] then Err(IndexError) else Ok(a[0])
    case Str(s) => if s == [] then Err(IndexError) else Ok(Str([s[0]]))
    case Obj(_) => Err(KeyError)
    case _ => Err(TypeError)
  }

  /** The values `for w in v` visits, in order. A list visits its elements and
      a string its characters, each as a one-character string. A `dict` visits
      its keys; since a `map` has no key order, and every key is a string on
      which the loop body's first `.get` raises `AttributeError`, a non-empty
      `dict` is reported here with that error and an empty one visits nothing.
      Every other value is not iterable. */
  function Iterate(v: Json): (r: Result<seq<Json>>)
    ensures v.Arr? ==> r == Ok(v.elems)
    ensures v.Str? ==> r.Ok? && |r.value| == |v.text|
    ensures v.Str? ==> forall i :: 0 <= i < |v.text| ==> r.value[i] == Str([v.text[i]])
    ensures v.Obj? ==> r == if v.fields == map[] then Ok([]) else Err(AttributeError)
    ensures (v.Null? || v.Bool? || v.Num?) ==> r == Err(TypeError)
  {
    match v
    case Arr(a) => Ok(a)
    case Str(s) => Ok(seq(|s|, i requires 0 <= i < |s| => Str([s[i]])))
    case Obj(m) => if m == map[] then Ok([]) else Err(AttributeError)
    case _ => Err(TypeError)
  }

  /** `float(v)`. A number converts to itself, a bool to 1.0 or 0.0 (Python's
      `bool` is an `int`), a string through `parse`; `None`, a list and a
      `dict` raise `TypeError`. */
  function ToFloat(v: Json, parse: FloatParser): (r: Result<real>)
    ensures v.Num? ==> r == Ok(v.number)
    ensures v.Bool? ==> r == Ok(if v.boolean then 1.0 else 0.0)
    ensures v.Str? && parse(v.text).Some? ==> r == Ok(parse(v.text).value)
    ensures v.Str? && parse(v.text).None? ==> r == Err(ValueError)
    ensures (v.Null? || v.Arr? || v.Obj?) ==> r == Err(TypeError)
  {
    match v
    case Num(x) => Ok(x)
    case Bool(b) => Ok(if b then 1.0 else 0.0)
    case Str(s) =>
      (match parse(s)
       case Some(x) => Ok(x)
       case None => Err(ValueError))
    case _ => Err(TypeError)
  }
}
