/**
 * Loosely typed values as the configuration and document arrays of the
 * indexer hold them, and the usual Option/Result wrappers.
 */
module Values {

  datatype Option<+T> = None | Some(value: T)

  datatype Result<+R, +E> = Ok(value: R) | Err(error: E)

  /**
   * A PHP value. PHP has one array type; the model keeps the two ways it is
   * used apart: `VList` for a list (keys 0, 1, ...) and `VMap` for a
   * string-keyed dictionary.
   */
  datatype Value =
    | VNull
    | VBool(b: bool)
    | VInt(i: int)
    | VString(s: string)
    | VList(items: seq<Value>)
    | VMap(entries: map<string, Value>)

  /** `is_array($v)` */
  predicate IsArray(v: Value) {
    v.VList? || v.VMap?
  }

  /**
   * `$v[$key]` as seen by `isset`: the entry when `v` is a dictionary
   * holding a non-null value under `key`, nothing otherwise.
   */
  function Lookup(v: Value, key: string): (r: Option<Value>)
    ensures r.Some? <==> v.VMap? && key in v.entries && v.entries[key] != VNull
    ensures r.Some? ==> r.value == v.entries[key]
  {
    if v.VMap? && key in v.entries && v.entries[key] != VNull then Some(v.entries[key]) else None
  }

  /** `$v[$k1][$k2]` as seen by `isset`. */
  function LookupPath(v: Value, k1: string, k2: string): (r: Option<Value>)
    ensures r.Some? ==> r.value != VNull
    ensures r.Some? <==> Lookup(v, k1).Some? && Lookup(Lookup(v, k1).value, k2).Some?
  {
    match Lookup(v, k1)
    case None => None
    case Some(inner) => Lookup(inner, k2)
  }

  /** Concatenation is associative. */
  lemma AppendAssoc<T>(a: seq<T>, b: seq<T>, c: seq<T>)
    ensures a + b + c == a + (b + c)
  {
  }
}
