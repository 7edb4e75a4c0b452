/** Python dictionaries with string keys: entries in insertion order (as in
    Python 3.7 and later), as `dict.keys()` and
    `random.choice(list(d.keys()))` see them. */
module Dicts {

  type Dict<V> = seq<(string, V)>

  /** `list(d.keys())`. */
  function Keys<V>(d: Dict<V>): seq<string>
  {
    seq(|d|, i requires 0 <= i < |d| => d[i].0)
  }

  predicate Distinct(ks: seq<string>)
  {
    forall i, j :: 0 <= i < j < |ks| ==> ks[i] != ks[j]
  }

  /** What every real dict satisfies: no key twice. */
  predicate Valid<V>(d: Dict<V>)
  {
    Distinct(Keys(d))
  }

  /** The position of the first occurrence of `k`. */
  function IndexOf(ks: seq<string>, k: string): (i: nat)
    requires k in ks
    ensures i < |ks| && ks[i] == k
    ensures forall j :: 0 <= j < i ==> ks[j] != k
  {
    if ks[0] == k then 0 else 1 + IndexOf(ks[1..], k)
  }

  /** `d[k]` for a key that is present. */
  function Get<V>(d: Dict<V>, k: string): V
    requires k in Keys(d)
  {
    d[IndexOf(Keys(d), k)].1
  }

  /** `d[k] = v`: a present key keeps its position and takes the new value,
      a new key is appended. */
  function Put<V>(d: Dict<V>, k: string, v: V): (r: Dict<V>)
    ensures k in Keys(d) ==> Keys(r) == Keys(d)
    ensures k !in Keys(d) ==> r == d + [(k, v)]
    ensures k in Keys(r) && Get(r, k) == v
    ensures forall k' :: k' in Keys(r) <==> k' == k || k' in Keys(d)
    ensures forall k' :: k' != k && k' in Keys(d) ==> Get(r, k') == Get(d, k')
    ensures Valid(d) ==> Valid(r)
  {
    if k in Keys(d) then
      var r := d[IndexOf(Keys(d), k) := (k, v)];
      assert Keys(r) == Keys(d);
      r
    else
      var r := d + [(k, v)];
      assert Keys(r) == Keys(d) + [k];
      GetAppend(d, k, v);
      r
  }

  lemma GetAppend<V>(d: Dict<V>, k: string, v: V)
    ensures Keys(d + [(k, v)]) == Keys(d) + [k]
    ensures forall k' :: k' in Keys(d) ==> Get(d + [(k, v)], k') == Get(d, k')
    ensures k !in Keys(d) ==> Get(d + [(k, v)], k) == v
  {
    var r := d + [(k, v)];
    assert Keys(r) == Keys(d) + [k];
    forall k' | k' in Keys(d) ensures Get(r, k') == Get(d, k') {
      IndexOfPrefix(Keys(d), [k], k');
    }
    if k !in Keys(d) {
      assert Keys(r)[|d|] == k;
      assert IndexOf(Keys(r), k) == |d|;
    }
  }

  lemma IndexOfPrefix(ks: seq<string>, more: seq<string>, k: string)
    requires k in ks
    ensures IndexOf(ks + more, k) == IndexOf(ks, k)
  {
    var i := IndexOf(ks, k);
    var j := IndexOf(ks + more, k);
    assert (ks + more)[i] == k;
    assert forall m :: 0 <= m < i ==> (ks + more)[m] == ks[m];
  }

  /** Some entry of `entries` has key `k`. */
  predicate HasEntry<V>(entries: seq<(string, V)>, k: string)
  {
    exists i :: 0 <= i < |entries| && entries[i].0 == k
  }

  /** `{k: v for (k, v) in entries}`: a later entry for a key replaces the
      value of an earlier one, the key keeps its first position. */
  function FromEntries<V>(entries: seq<(string, V)>): (r: Dict<V>)
    ensures Valid(r)
    ensures forall k :: k in Keys(r) <==> HasEntry(entries, k)
  {
    if |entries| == 0 then []
    else
      var init := entries[..|entries| - 1];
      var last := entries[|entries| - 1];
      var r := Put(FromEntries(init), last.0, last.1);
      assert forall k :: HasEntry(entries, k) <==> k == last.0 || HasEntry(init, k) by {
        forall k ensures HasEntry(entries, k) ==> k == last.0 || HasEntry(init, k) {
          if HasEntry(entries, k) {
            var i :| 0 <= i < |entries| && entries[i].0 == k;
            if i < |init| { assert init[i].0 == k; }
          }
        }
        forall k | HasEntry(init, k) ensures HasEntry(entries, k) {
          var i :| 0 <= i < |init| && init[i].0 == k;
          assert entries[i] == init[i];
        }
        assert entries[|entries| - 1] == last;
      }
      r
  }

  /** Entry `i` is the last entry of `entries` with key `k`. */
  predicate LastEntry<V>(entries: seq<(string, V)>, k: string, i: int)
  {
    0 <= i < |entries| && entries[i].0 == k && forall j :: i < j < |entries| ==> entries[j].0 != k
  }

  /** The value a comprehension keeps for a key is that of the key's LAST entry. */
  lemma {:induction false} FromEntriesLastWins<V>(entries: seq<(string, V)>, k: string)
    requires k in Keys(FromEntries(entries))
    ensures exists i :: LastEntry(entries, k, i) && Get(FromEntries(entries), k) == entries[i].1
  {
    var n := |entries| - 1;
    var init := entries[..n];
    var last := entries[n];
    var d := FromEntries(init);
    assert FromEntries(entries) == Put(d, last.0, last.1);
    if last.0 == k {
      assert LastEntry(entries, k, n);
    } else {
      assert k in Keys(d);
      FromEntriesLastWins(init, k);
      var i :| LastEntry(init, k, i) && Get(d, k) == init[i].1;
      LastEntryExtends(entries, k, i);
    }
  }

  /** The last entry for `k` before a final entry with another key stays the
      last one. */
  lemma LastEntryExtends<V>(entries: seq<(string, V)>, k: string, i: int)
    requires |entries| > 0 && entries[|entries| - 1].0 != k
    requires LastEntry(entries[..|entries| - 1], k, i)
    ensures LastEntry(entries, k, i) && entries[i] == entries[..|entries| - 1][i]
  {
    var init := entries[..|entries| - 1];
    forall j | i < j < |entries| ensures entries[j].0 != k {
      if j < |init| { assert entries[j] == init[j]; }
    }
  }
}
