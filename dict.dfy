/**
 * Python dictionaries with string keys, kept in insertion order (as CPython
 * and a JSON round trip keep them): an association list with distinct keys.
 * Assigning to an existing key keeps its position; a new key goes last.
 */
module Dict {
  import opened Wrappers
  import Text

  type Dict<V> = seq<(string, V)>

  function Keys<V>(d: Dict<V>): (ks: seq<string>)
    ensures |ks| == |d|
    ensures forall i :: 0 <= i < |d| ==> ks[i] == d[i].0
  {
    if d == [] then [] else [d[0].0] + Keys(d[1..])
  }

  /** No key appears twice, as in every Python dict. */
  predicate DistinctKeys<V>(d: Dict<V>) {
    d == [] || (d[0].0 !in Keys(d[1..]) && DistinctKeys(d[1..]))
  }

  /** `d.get(k)`: the value stored under `k`, if any. */
  function Get<V>(d: Dict<V>, k: string): Option<V> {
    if d == [] then None
    else if d[0].0 == k then Some(d[0].1)
    else Get(d[1..], k)
  }

  /** The first entry with a key gives the key's value. */
  lemma {:induction false} GetAt<V>(d: Dict<V>, i: nat)
    requires i < |d|
    requires forall j :: 0 <= j < i ==> d[j].0 != d[i].0
    ensures Get(d, d[i].0) == Some(d[i].1)
  {
    if i > 0 {
      assert d[1..][i - 1] == d[i];
      GetAt(d[1..], i - 1);
    }
  }

  /** A key no entry has has no value. */
  lemma {:induction false} GetAbsent<V>(d: Dict<V>, k: string)
    requires forall j :: 0 <= j < |d| ==> d[j].0 != k
    ensures Get(d, k) == None
  {
    if d != [] {
      assert forall j :: 0 <= j < |d[1..]| ==> d[1..][j] == d[j + 1];
      GetAbsent(d[1..], k);
    }
  }

  /** A key has a value exactly when it is one of the keys. */
  lemma {:induction false} GetKeys<V>(d: Dict<V>, k: string)
    ensures Get(d, k).None? <==> k !in Keys(d)
  {
    if d != [] && d[0].0 != k {
      GetKeys(d[1..], k);
    }
  }

  /** `d.get(k, default)`. */
  function GetOr<V>(d: Dict<V>, k: string, default: V): V {
    Get(d, k).GetOr(default)
  }

  /** `d[k] = v`: overwrite in place, or append a new last entry. */
  function Put<V>(d: Dict<V>, k: string, v: V): (r: Dict<V>)
    ensures Get(r, k) == Some(v)
  {
    if d == [] then [(k, v)]
    else if d[0].0 == k then
      var r := [(k, v)] + d[1..];
      assert r[1..] == d[1..];
      r
    else
      var rest := Put(d[1..], k, v);
      var r := [d[0]] + rest;
      assert r[1..] == rest;
      r
  }

  /** Overwriting keeps the keys and their order; a new key goes last. */
  lemma {:induction false} PutKeys<V>(d: Dict<V>, k: string, v: V)
    ensures k in Keys(d) ==> Keys(Put(d, k, v)) == Keys(d)
    ensures k !in Keys(d) ==> Keys(Put(d, k, v)) == Keys(d) + [k]
  {
    if d != [] {
      var r := Put(d, k, v);
      if d[0].0 == k {
        assert r[1..] == d[1..];
      } else {
        PutKeys(d[1..], k, v);
        assert r[1..] == Put(d[1..], k, v);
      }
    }
  }

  /** Assignment leaves every other key's value alone. */
  lemma {:induction false} GetPutOtra<V>(d: Dict<V>, k: string, v: V, k': string)
    requires k' != k
    ensures Get(Put(d, k, v), k') == Get(d, k')
  {
    if d != [] && d[0].0 != k {
      GetPutOtra(d[1..], k, v, k');
      assert Put(d, k, v)[1..] == Put(d[1..], k, v);
    }
  }

  /** Assignment keeps keys distinct. */
  lemma {:induction false} PutDistinct<V>(d: Dict<V>, k: string, v: V)
    requires DistinctKeys(d)
    ensures DistinctKeys(Put(d, k, v))
  {
    var r := Put(d, k, v);
    if d == [] {
    } else if d[0].0 == k {
      assert r[0].0 == k && r[1..] == d[1..];
    } else {
      PutDistinct(d[1..], k, v);
      PutKeys(d[1..], k, v);
      assert r[1..] == Put(d[1..], k, v);
    }
  }

  /** A value read from a saved conversation record: the JSON scalars the
      service stores (text, booleans, integers, null). */
  datatype Value = Str(s: string) | Bool(b: bool) | Int(n: int) | Null

  /** Python's `str(v)`. */
  function ToStr(v: Value): string {
    match v
    case Str(s) => s
    case Bool(b) => if b then "True" else "False"
    case Int(n) => Text.IntToString(n)
    case Null => "None"
  }
}
