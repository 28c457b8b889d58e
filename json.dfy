/**
 * The decoded JSON document the converter works on, and the few pieces of
 * Python semantics the converter relies on: subscripting with a string key,
 * truthiness, and iterating over a value.
 */
module Json {
  import opened Wrappers

  /**
   * A decoded JSON value. Numbers are kept as exact reals: the converter only
   * copies them or tests them against zero, it never computes with them.
   */
  datatype Json =
    | JNull
    | JBool(b: bool)
    | JNum(n: real)
    | JStr(s: string)
    | JArr(items: seq<Json>)
    | JObj(fields: map<string, Json>)

  /** The exceptions a lookup or an iteration can raise. */
  datatype Error =
    | KeyError(key: string)   // `d[k]` on a dict without key k
    | TypeError               // subscripting or iterating a value that does not support it
    | InvalidResponse         // the caught KeyError of the `data` lookup

  type Path = seq<string>

  /** `j[key]`: a dict gives the value or raises KeyError; anything else raises TypeError. */
  function Lookup(j: Json, key: string): (r: Result<Json, Error>)
    ensures r.Success? <==> j.JObj? && key in j.fields
    ensures r.Success? ==> r.value == j.fields[key]
    ensures r.Failure? ==> r.error == (if j.JObj? then KeyError(key) else TypeError)
  {
    match j
    case JObj(m) => if key in m then Success(m[key]) else Failure(KeyError(key))
    case _ => Failure(TypeError)
  }

  /** `j[k0][k1]...[kn]`, evaluated left to right; the first failing subscript decides the error. */
  function LookupPath(j: Json, path: Path): Result<Json, Error>
    decreases |path|
  {
    if path == [] then Success(j)
    else
      var child :- Lookup(j, path[0]);
      LookupPath(child, path[1..])
  }

  predicate HasPath(j: Json, path: Path) {
    LookupPath(j, path).Success?
  }

  /** Looking up a longer path is looking up the prefix and then the last key. */
  lemma {:induction false} LookupPathAppend(j: Json, path: Path, key: string)
    ensures LookupPath(j, path + [key]) ==
            match LookupPath(j, path)
            case Success(v) => Lookup(v, key)
            case Failure(e) => Failure(e)
    decreases |path|
  {
    if path == [] {
      assert [] + [key] == [key];
    } else {
      assert (path + [key])[0] == path[0];
      assert (path + [key])[1..] == path[1..] + [key];
      match Lookup(j, path[0])
      case Success(child) => LookupPathAppend(child, path[1..], key);
      case Failure(_) =>
    }
  }

  /** Python's `bool(j)` for a decoded JSON value: false exactly for null, false, zero and empty containers. */
  function Truthy(j: Json): (t: bool)
    ensures !t <==> j == JNull || j == JBool(false) || j == JNum(0.0)
                    || j == JStr([]) || j == JArr([]) || j == JObj(map[])
  {
    match j
    case JNull => false
    case JBool(b) => b
    case JNum(n) => n != 0.0
    case JStr(s) => s != []
    case JArr(a) => a != []
    case JObj(m) => m != map[]
  }

  /**
   * The elements a `for x in j` loop visits before the first failing body can
   * use them. Iterating a non-empty dict or string yields strings, and the
   * loop body's first string-keyed subscript on such an element raises
   * TypeError, so those are modelled as failing up front; an empty dict or
   * string gives no iteration at all; null, booleans and numbers are not
   * iterable.
   */
  function Elements(j: Json): (r: Result<seq<Json>, Error>)
    ensures r.Success? <==> j.JArr? || j == JObj(map[]) || j == JStr([])
    ensures r.Success? && j.JArr? ==> r.value == j.items
    ensures r.Success? && !j.JArr? ==> r.value == []
    ensures r.Failure? ==> r.error == TypeError
  {
    match j
    case JArr(items) => Success(items)
    case JObj(m) => if m == map[] then Success([]) else Failure(TypeError)
    case JStr(s) => if s == [] then Success([]) else Failure(TypeError)
    case _ => Failure(TypeError)
  }
}
