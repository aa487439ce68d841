/**
 * The slice of PHP's value model that the scheduler relies on: untyped values,
 * array keys, boolean conversion ("truthiness") and the array union operator `+`.
 */
module PhpValues {

  datatype Option<T> = None | Some(value: T)

  /** The curl options the scheduler names explicitly; their numeric codes are not modelled. */
  datatype CurlOpt =
    | SslVerifyPeer | ReturnTransfer | FollowLocation | MaxRedirs | ConnectTimeout | Timeout
    | Url | Post | PostFields | Header | HttpHeader

  /**
   * A PHP array key. Named curl options are kept symbolic and distinct from plain
   * integer and string keys.
   */
  datatype Key = IntKey(i: int) | StrKey(s: string) | Opt(opt: CurlOpt)

  /** A PHP value; an array is a map from keys to values (key order is not modelled). */
  datatype Value =
    | Null
    | Bool(b: bool)
    | Int(i: int)
    | Str(s: string)
    | Arr(entries: map<Key, Value>)

  type PhpArray = map<Key, Value>

  /** PHP's conversion of a value to boolean, as used by `if ($x)`. */
  predicate Truthy(v: Value) {
    match v
    case Null => false
    case Bool(b) => b
    case Int(i) => i != 0
    case Str(s) => s != "" && s != "0"
    case Arr(m) => |m| > 0
  }

  /**
   * PHP's array union `left + right`: every key of `left` keeps its value from `left`,
   * and only keys missing from `left` are taken from `right`.
   */
  function Union<K, V>(left: map<K, V>, right: map<K, V>): (u: map<K, V>)
    ensures u.Keys == left.Keys + right.Keys
    ensures forall k :: k in left ==> u[k] == left[k]
    ensures forall k :: k in right && k !in left ==> u[k] == right[k]
  {
    right + left
  }

  /** Applying the same union twice adds nothing the first one did not. */
  lemma UnionAbsorbs<K, V>(left: map<K, V>, right: map<K, V>)
    ensures Union(Union(left, right), right) == Union(left, right)
  {
  }
}
