/**
 * Decoded JSON values and the two Python operations the client applies to
 * them: the membership test `key in value` and the subscript `value[key]`,
 * both with Python's behaviour on values that are not objects.
 */
module Json {
  import opened Wrappers

  /** A decoded JSON document. Floating-point numbers are not modelled. */
  datatype Json =
    | Null
    | Bool(b: bool)
    | Num(n: int)
    | Str(s: string)
    | Arr(items: seq<Json>)
    | Obj(fields: map<string, Json>)

  /** The Python exceptions, other than the client's own error classes, that the modelled code can raise. */
  datatype Fault =
    | KeyError(key: string)
    | TypeError(reason: string)
    | ValueError(reason: string)
    | NameError(name: string)
    | AttributeError(attribute: string)
    | JsonDecodeError

  predicate IsPrefix(p: string, s: string) {
    |p| <= |s| && s[..|p|] == p
  }

  /** Python's `p in s` for two strings. */
  predicate IsSubstring(p: string, s: string)
    decreases |s|
  {
    IsPrefix(p, s) || (|s| > 0 && IsSubstring(p, s[1..]))
  }

  /**
   * Python's `key in value` for a decoded JSON value: key membership for an
   * object, element membership for an array, substring test for a string,
   * and a TypeError for null, booleans and numbers.
   */
  function Contains(j: Json, key: string): (r: Result<bool, Fault>)
    ensures r.Failure? <==> (j.Null? || j.Bool? || j.Num?)
    ensures j.Obj? ==> r == Success(key in j.fields)
    ensures j.Arr? ==> r == Success(Str(key) in j.items)
  {
    match j
    case Obj(fields) => Success(key in fields)
    case Arr(items) => Success(Str(key) in items)
    case Str(s) => Success(IsSubstring(key, s))
    case _ => Failure(TypeError("argument is not iterable"))
  }

  /**
   * Python's `value[key]` with a string key: the entry of an object, a
   * KeyError when the object lacks it, and a TypeError for every other value.
   */
  function Index(j: Json, key: string): (r: Result<Json, Fault>)
    ensures r.Success? <==> j.Obj? && key in j.fields
    ensures r.Success? ==> r.value == j.fields[key]
    ensures j.Obj? && key !in j.fields ==> r == Failure(KeyError(key))
  {
    match j
    case Obj(fields) => if key in fields then Success(fields[key]) else Failure(KeyError(key))
    case _ => Failure(TypeError("value is not subscriptable by a string"))
  }
}
