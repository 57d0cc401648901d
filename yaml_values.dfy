/** The parsed YAML values qvm handles, and the Python dict operations it
    applies to them: membership (`k in d`), indexing (`d[k]`), `del d[k]`
    and assignment `d[k] = v`.

    A dict is a sequence of (key, value) pairs in whatever order Python 2's
    `iteritems()` happens to produce; no statement below depends on that
    order. */
module YamlValues {
  import opened Wrappers
  import Strings

  /** A mapping, a boolean, an integer, a string, or any other YAML value
      (a float, a list, null) carried with the text `str()` gives for it. */
  datatype Value =
    | VMap(entries: seq<(string, Value)>)
    | VBool(b: bool)
    | VInt(i: int)
    | VStr(s: string)
    | VOther(shown: string)

  type Dict = seq<(string, Value)>

  /** `k in d` */
  predicate Has(d: Dict, k: string) {
    exists i | 0 <= i < |d| :: d[i].0 == k
  }

  /** `d[k]`, or None where Python raises KeyError. */
  function Lookup(d: Dict, k: string): (r: Option<Value>)
    ensures r.Some? <==> Has(d, k)
    ensures r.Some? ==> (k, r.value) in d
  {
    if d == [] then None
    else if d[0].0 == k then Some(d[0].1)
    else
      assert forall i | 1 <= i < |d| :: d[i] == d[1..][i - 1];
      Lookup(d[1..], k)
  }

  /** Looking a key up past an appended pair with another key. */
  lemma {:induction false} LookupAppend(d: Dict, k: string, v: Value, k': string)
    ensures Lookup(d + [(k, v)], k') == if Has(d, k') then Lookup(d, k') else if k == k' then Some(v) else None
  {
    if d != [] {
      assert (d + [(k, v)])[1..] == d[1..] + [(k, v)];
      LookupAppend(d[1..], k, v, k');
    }
  }

  /** `del d[k]`: `k` is gone and every other key keeps its value. */
  function Remove(d: Dict, k: string): (r: Dict)
    ensures !Has(r, k)
    ensures forall k' | k' != k :: Lookup(r, k') == Lookup(d, k')
    ensures forall e | e in r :: e in d
    ensures |r| <= |d|
  {
    if d == [] then []
    else if d[0].0 == k then Remove(d[1..], k)
    else [d[0]] + Remove(d[1..], k)
  }

  /** The pairs of `d`, with those for `k` replaced by `(k, v)`. */
  function Replace(d: Dict, k: string, v: Value): (r: Dict)
    ensures |r| == |d|
    ensures forall i | 0 <= i < |d| :: r[i] == if d[i].0 == k then (k, v) else d[i]
  {
    if d == [] then [] else [if d[0].0 == k then (k, v) else d[0]] + Replace(d[1..], k, v)
  }

  /** `d[k] = v`: an existing key keeps its place, a new one goes last. */
  function Put(d: Dict, k: string, v: Value): (r: Dict)
    ensures Lookup(r, k) == Some(v)
    ensures forall k' | k' != k :: Lookup(r, k') == Lookup(d, k')
    ensures Has(d, k) ==> |r| == |d|
    ensures !Has(d, k) ==> r == d + [(k, v)]
  {
    if Has(d, k) then
      var r := Replace(d, k, v);
      ReplaceLookup(d, k, v);
      r
    else
      forall k' ensures Lookup(d + [(k, v)], k') == if k' == k then Some(v) else Lookup(d, k') {
        LookupAppend(d, k, v, k');
      }
      d + [(k, v)]
  }

  lemma {:induction false} ReplaceLookup(d: Dict, k: string, v: Value)
    ensures Lookup(Replace(d, k, v), k) == if Has(d, k) then Some(v) else None
    ensures forall k' | k' != k :: Lookup(Replace(d, k, v), k') == Lookup(d, k')
  {
    if d != [] {
      ReplaceLookup(d[1..], k, v);
      assert Replace(d, k, v)[1..] == Replace(d[1..], k, v);
    }
  }

  /** The values `k in v` is modelled for: a mapping, where it tests the
      keys, and a string, where it tests substrings. */
  predicate Container(v: Value) {
    v.VMap? || v.VStr?
  }

  /** Python's `k in v`. */
  predicate In(k: string, v: Value)
    requires Container(v)
  {
    if v.VMap? then Has(v.entries, k) else Strings.Contains(v.s, k)
  }

  /** No value of `d` is itself a mapping. */
  predicate Flat(d: Dict) {
    forall i | 0 <= i < |d| :: !d[i].1.VMap?
  }

  /** Flat dictionaries stay flat when cut. */
  lemma FlatSlice(d: Dict, lo: nat, hi: nat)
    requires Flat(d) && lo <= hi <= |d|
    ensures Flat(d[lo..hi])
  {
    forall i | 0 <= i < hi - lo ensures !d[lo..hi][i].1.VMap? { assert d[lo..hi][i] == d[lo + i]; }
  }

  /** `str(v)` of a value that is not a mapping. */
  function Str(v: Value): string
    requires !v.VMap?
  {
    match v
    case VBool(b) => if b then "True" else "False"
    case VInt(i) => Strings.IntToString(i)
    case VStr(s) => s
    case VOther(shown) => shown
  }
}
