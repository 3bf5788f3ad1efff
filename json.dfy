/**
 * Decoded JSON values as Python holds them after `json.loads`: objects are
 * insertion-ordered dictionaries, written here as association lists so that
 * the order of keys (which decides the order of a comprehension over
 * `.items()`) is part of the value.
 */
module Json {
  import opened Wrappers
  import opened Text

  datatype JsonValue =
    | JNull
    | JBool(b: bool)
    | JNum(n: int)
    | JStr(s: string)
    | JArr(items: seq<JsonValue>)
    | JObj(fields: seq<(string, JsonValue)>)

  type Fields = seq<(string, JsonValue)>

  /** Python truthiness of a decoded value (`if v:`, `a or b`). */
  predicate Truthy(v: JsonValue) {
    match v
    case JNull => false
    case JBool(b) => b
    case JNum(n) => n != 0
    case JStr(s) => s != []
    case JArr(xs) => xs != []
    case JObj(fs) => fs != []
  }

  /** `type(v).__name__`, as Python's error messages print it. */
  function TypeName(v: JsonValue): string {
    match v
    case JNull => "NoneType"
    case JBool(_) => "bool"
    case JNum(_) => "int"
    case JStr(_) => "str"
    case JArr(_) => "list"
    case JObj(_) => "dict"
  }

  /** The keys of a dictionary, in insertion order. */
  function Keys(fs: Fields): seq<string> {
    if fs == [] then [] else [fs[0].0] + Keys(fs[1..])
  }

  /** The keys `ks` without `k`, the others in their order. */
  function Without(ks: seq<string>, k: string): seq<string> {
    if ks == [] then [] else (if ks[0] == k then [] else [ks[0]]) + Without(ks[1..], k)
  }

  /** `k in d`. */
  predicate HasKey(fs: Fields, k: string) {
    fs != [] && (fs[0].0 == k || HasKey(fs[1..], k))
  }

  /** Membership of a key is membership in the key list. */
  lemma {:induction false} HasKeyInKeys(fs: Fields, k: string)
    ensures HasKey(fs, k) <==> k in Keys(fs)
  {
    if fs != [] {
      HasKeyInKeys(fs[1..], k);
    }
  }

  /** `d.get(k)`: the value stored under `k`. */
  function Lookup(fs: Fields, k: string): (r: Option<JsonValue>)
    ensures r.None? <==> !HasKey(fs, k)
    ensures r.Some? ==> (k, r.value) in fs
  {
    if fs == [] then None
    else if fs[0].0 == k then Some(fs[0].1)
    else Lookup(fs[1..], k)
  }

  /** `d[k] = v`: overwrites the entry in its place when `k` is present, appends otherwise. */
  function Put(fs: Fields, k: string, v: JsonValue): (r: Fields)
    ensures Lookup(r, k) == Some(v)
    ensures forall k' :: k' != k ==> Lookup(r, k') == Lookup(fs, k')
    ensures HasKey(fs, k) ==> Keys(r) == Keys(fs)
    ensures !HasKey(fs, k) ==> r == fs + [(k, v)]
  {
    if fs == [] then [(k, v)]
    else if fs[0].0 == k then
      assert Keys(fs)[0] == k;
      assert Keys([(k, v)] + fs[1..]) == [k] + Keys(fs[1..]);
      [(k, v)] + fs[1..]
    else
      var rest := Put(fs[1..], k, v);
      assert Keys(fs) == [fs[0].0] + Keys(fs[1..]);
      assert Keys([fs[0]] + rest) == [fs[0].0] + Keys(rest);
      [fs[0]] + rest
  }

  /** `del d[k]` (or the removal half of `d.pop(k)`): drops the entry for `k`. */
  function Remove(fs: Fields, k: string): (r: Fields)
    ensures !HasKey(r, k)
    ensures forall k' :: k' != k ==> Lookup(r, k') == Lookup(fs, k')
    ensures |r| <= |fs|
    ensures Keys(r) == Without(Keys(fs), k)
  {
    if fs == [] then []
    else if fs[0].0 == k then Remove(fs[1..], k)
    else
      var rest := Remove(fs[1..], k);
      assert Keys([fs[0]] + rest) == [fs[0].0] + Keys(rest);
      [fs[0]] + rest
  }
}
