/**
 A Python `dict` as the stores use it: a sequence of key/value pairs with
 distinct keys, in insertion order. Assigning to a present key keeps its
 position, assigning to an absent key appends, and deleting closes the gap.
 */
module OrderedDict {

  type Dict<K, V> = seq<(K, V)>

  ghost predicate Distinct<K, V>(d: Dict<K, V>) {
    forall i, j :: 0 <= i < j < |d| ==> d[i].0 != d[j].0
  }

  /** The position of the first pair with key `k`, or the length when there is none. */
  function Find<K(==), V>(d: Dict<K, V>, k: K): (i: nat)
    ensures i <= |d|
    ensures i < |d| ==> d[i].0 == k
    ensures forall j :: 0 <= j < i ==> d[j].0 != k
  {
    if d == [] || d[0].0 == k then 0 else 1 + Find(d[1..], k)
  }

  predicate Has<K(==), V>(d: Dict<K, V>, k: K)
    ensures Has(d, k) <==> exists i :: 0 <= i < |d| && d[i].0 == k
  {
    Find(d, k) < |d|
  }

  function Get<K(==), V>(d: Dict<K, V>, k: K): V
    requires Has(d, k)
  {
    d[Find(d, k)].1
  }

  function Put<K(==), V>(d: Dict<K, V>, k: K, v: V): (r: Dict<K, V>)
    ensures Has(d, k) ==> |r| == |d|
    ensures !Has(d, k) ==> r == d + [(k, v)]
  {
    if Has(d, k) then d[Find(d, k) := (k, v)] else d + [(k, v)]
  }

  function Remove<K(==), V>(d: Dict<K, V>, k: K): (r: Dict<K, V>)
    ensures Has(d, k) ==> |r| == |d| - 1
    ensures !Has(d, k) ==> r == d
  {
    if Has(d, k) then d[..Find(d, k)] + d[Find(d, k) + 1..] else d
  }

  function Values<K, V>(d: Dict<K, V>): (r: seq<V>)
    ensures |r| == |d| && forall i :: 0 <= i < |d| ==> r[i] == d[i].1
  {
    seq(|d|, i requires 0 <= i < |d| => d[i].1)
  }

  /** In a dictionary a key has one position only, so a lookup finds the pair stored there. */
  lemma {:induction false} FindAt<K, V>(d: Dict<K, V>, i: nat)
    requires Distinct(d) && i < |d|
    ensures Find(d, d[i].0) == i && Has(d, d[i].0) && Get(d, d[i].0) == d[i].1
  {
    var j := Find(d, d[i].0);
    assert !(j > i);
    assert j == i;
  }

  /** Assignment changes exactly one binding. */
  lemma {:induction false} PutLaws<K, V>(d: Dict<K, V>, k: K, v: V)
    requires Distinct(d)
    ensures Distinct(Put(d, k, v))
    ensures Has(Put(d, k, v), k) && Get(Put(d, k, v), k) == v
    ensures forall k' :: Has(Put(d, k, v), k') <==> k' == k || Has(d, k')
    ensures forall k' :: k' != k && Has(d, k') ==> Get(Put(d, k, v), k') == Get(d, k')
  {
    var r := Put(d, k, v);
    var n := Find(d, k);
    assert r[n] == (k, v);
    FindAt(r, n);
    forall k' ensures Has(r, k') <==> k' == k || Has(d, k')
    {
      if Has(d, k') && k' != k { assert r[Find(d, k')] == d[Find(d, k')]; }
    }
    forall k' | k' != k && Has(d, k') ensures Get(r, k') == Get(d, k')
    {
      assert r[Find(d, k')] == d[Find(d, k')];
      FindAt(r, Find(d, k'));
    }
  }

  /** What a deletion leaves at each position. */
  lemma {:induction false} RemoveAt<K, V>(d: Dict<K, V>, k: K, i: nat)
    requires Has(d, k) && i < |Remove(d, k)|
    ensures Remove(d, k)[i] == d[if i < Find(d, k) then i else i + 1]
  {
  }

  /** Deletion removes exactly one binding. */
  lemma {:induction false} RemoveLaws<K, V>(d: Dict<K, V>, k: K)
    requires Distinct(d)
    ensures Distinct(Remove(d, k))
    ensures forall k' :: Has(Remove(d, k), k') <==> k' != k && Has(d, k')
    ensures forall k' :: k' != k && Has(d, k') ==> Get(Remove(d, k), k') == Get(d, k')
  {
    if Has(d, k) {
      var r, n := Remove(d, k), Find(d, k);
      forall i, j | 0 <= i < j < |r| ensures r[i].0 != r[j].0 {
        RemoveAt(d, k, i);
        RemoveAt(d, k, j);
      }
      forall k' ensures Has(r, k') <==> k' != k && Has(d, k')
        ensures k' != k && Has(d, k') ==> Get(r, k') == Get(d, k')
      {
        RemoveFinds(d, k, k');
      }
    }
  }

  lemma {:induction false} RemoveFinds<K, V>(d: Dict<K, V>, k: K, k': K)
    requires Distinct(d) && Has(d, k) && Distinct(Remove(d, k))
    ensures Has(Remove(d, k), k') <==> k' != k && Has(d, k')
    ensures k' != k && Has(d, k') ==> Get(Remove(d, k), k') == Get(d, k')
  {
    var r, n, m := Remove(d, k), Find(d, k), Find(d, k');
    if Has(r, k') {
      RemoveAt(d, k, Find(r, k'));
    }
    if k' != k && Has(d, k') {
      var p := if m < n then m else m - 1;
      RemoveAt(d, k, p);
      FindAt(r, p);
    }
  }
}
