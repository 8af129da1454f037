/** Python dictionaries as the YAML loader hands them over, and
    `filter_out_none` (atcoder_helper/repositories/utils.py). */
module PyDict {
  import opened Wrappers

  /** A YAML/Python value; floats are not represented. */
  datatype Value =
    | Null
    | Bool(b: bool)
    | Int(i: int)
    | Str(s: string)
    | List(items: seq<Value>)
    | Dict(entries: map<string, Value>)

  type PyMap = map<string, Value>

  /** Why a dictionary could not be turned into a record: a missing key
      (`KeyError`) or a value of the wrong type (`TypeError`). */
  datatype DictError = MissingKey(key: string) | WrongType(key: string)

  /** `bool(v)`: None, False, 0 and empty containers are false. */
  predicate Truthy(v: Value)
  {
    match v
    case Null => false
    case Bool(b) => b
    case Int(i) => i != 0
    case Str(s) => s != ""
    case List(items) => items != []
    case Dict(entries) => entries != map[]
  }

  /** `dict.get(key)`: the value, or None when the key is missing. */
  function Get(d: PyMap, key: string): (v: Value)
    ensures key !in d ==> v == Null
    ensures key in d ==> v == d[key]
  {
    if key in d then d[key] else Null
  }

  /** `filter_out_none(d)`: drops exactly the entries whose value is None. */
  function FilterOutNone<K, V>(d: map<K, Option<V>>): (r: map<K, Option<V>>)
    ensures forall k :: k in r ==> k in d && r[k] == d[k]
    ensures forall k :: k in r ==> r[k].Some?
    ensures forall k :: k in d && d[k].Some? ==> k in r
  {
    map k | k in d && d[k].Some? :: d[k]
  }

  lemma FilterOutNoneIdempotent<K, V>(d: map<K, Option<V>>)
    ensures FilterOutNone(FilterOutNone(d)) == FilterOutNone(d)
  {
  }

  /** A map without None values is left as it is. */
  lemma FilterOutNoneFixesNoneFree<K, V>(d: map<K, Option<V>>)
    requires forall k :: k in d ==> d[k].Some?
    ensures FilterOutNone(d) == d
  {
  }
}
