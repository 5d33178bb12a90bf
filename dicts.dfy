/** Python dictionaries built from literals, as association lists in insertion
    order, plus the Option and Result wrappers the rest of the model uses. */
module Dicts {

  datatype Option<T> = None | Some(value: T)

  datatype Result<T, E> = Success(value: T) | Failure(error: E)

  /** One `key: value` pair of a dict display. */
  datatype Entry<V> = Entry(key: string, value: V)

  /** No key appears twice, so the list is exactly the dict the display builds. */
  ghost predicate DistinctKeys<V>(d: seq<Entry<V>>) {
    forall i, j :: 0 <= i < j < |d| ==> d[i].key != d[j].key
  }

  /** The pair at position i has the given key. */
  ghost predicate KeyAt<V>(d: seq<Entry<V>>, i: int, key: string) {
    0 <= i < |d| && d[i].key == key
  }

  /** `key in d`: some pair of the display has that key. */
  ghost predicate HasKey<V>(d: seq<Entry<V>>, key: string) {
    exists i :: KeyAt(d, i, key)
  }

  /** `d[key]`: the value of the last pair with that key (a later pair of a
      dict display overwrites an earlier one), or None where Python raises
      KeyError. */
  function Lookup<V>(d: seq<Entry<V>>, key: string): (r: Option<V>)
    ensures r.None? <==> !HasKey(d, key)
    ensures r.Some? ==> exists i :: 0 <= i < |d| && d[i] == Entry(key, r.value)
  {
    if |d| == 0 then None
    else if d[|d| - 1].key == key then
      assert KeyAt(d, |d| - 1, key);
      Some(d[|d| - 1].value)
    else
      var d' := d[..|d| - 1];
      assert forall i :: 0 <= i < |d'| ==> d'[i] == d[i];
      assert HasKey(d, key) ==> HasKey(d', key) by {
        if HasKey(d, key) {
          var i :| KeyAt(d, i, key);
          assert KeyAt(d', i, key);
        }
      }
      assert HasKey(d', key) ==> HasKey(d, key) by {
        if HasKey(d', key) {
          var i :| KeyAt(d', i, key);
          assert KeyAt(d, i, key);
        }
      }
      Lookup(d', key)
  }

  /** With distinct keys, looking up the i-th key yields the i-th value. */
  lemma {:induction false} LookupAt<V>(d: seq<Entry<V>>, i: nat)
    requires DistinctKeys(d) && i < |d|
    ensures Lookup(d, d[i].key) == Some(d[i].value)
  {
    if i < |d| - 1 {
      var d' := d[..|d| - 1];
      assert d'[i] == d[i];
      LookupAt(d', i);
    }
  }
}
