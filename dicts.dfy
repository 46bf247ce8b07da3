/** Python dictionaries with string keys, as the sequence of their items in insertion order:
    assigning to a known key replaces its value in place, a new key goes to the end. */
module Dicts {
  import opened Wrappers

  type Dict<V> = seq<(string, V)>

  function Keys<V>(d: Dict<V>): (r: seq<string>)
    ensures |r| == |d| && forall i :: 0 <= i < |d| ==> r[i] == d[i].0
  {
    seq(|d|, i requires 0 <= i < |d| => d[i].0)
  }

  /** Dictionary keys are distinct. */
  predicate DistinctKeys<V>(d: Dict<V>)
  {
    forall i, j :: 0 <= i < j < |d| ==> d[i].0 != d[j].0
  }

  /** `d[k]`, or None when k is not a key. */
  function Get<V>(d: Dict<V>, k: string): (r: Option<V>)
    ensures r.None? <==> k !in Keys(d)
  {
    if d == [] then None
    else if d[0].0 == k then Some(d[0].1)
    else
      assert Keys(d) == [d[0].0] + Keys(d[1..]);
      Get(d[1..], k)
  }

  /** `d[k] = v`. */
  function Put<V>(d: Dict<V>, k: string, v: V): (r: Dict<V>)
    ensures k in Keys(d) ==> Keys(r) == Keys(d)
    ensures k !in Keys(d) ==> r == d + [(k, v)]
  {
    if d == [] then [(k, v)]
    else if d[0].0 == k then
      KeysCons((k, v), d[1..]);
      KeysCons(d[0], d[1..]);
      [(k, v)] + d[1..]
    else
      var rest := Put(d[1..], k, v);
      KeysCons(d[0], d[1..]);
      KeysCons(d[0], rest);
      assert d == [d[0]] + d[1..];
      [d[0]] + rest
  }

  lemma KeysCons<V>(x: (string, V), d: Dict<V>)
    ensures Keys([x] + d) == [x.0] + Keys(d)
  {
  }

  /** The law of assignment: the assigned key reads the new value, every other key reads
      what it read before. */
  lemma {:induction false} PutGet<V>(d: Dict<V>, k: string, v: V, k': string)
    ensures Get(Put(d, k, v), k') == if k' == k then Some(v) else Get(d, k')
    decreases |d|
  {
    if d != [] && d[0].0 != k {
      PutGet(d[1..], k, v, k');
      assert Put(d, k, v)[1..] == Put(d[1..], k, v);
    }
  }

  /** Assignment keeps the keys distinct. */
  lemma PutDistinct<V>(d: Dict<V>, k: string, v: V)
    requires DistinctKeys(d)
    ensures DistinctKeys(Put(d, k, v))
  {
    var r := Put(d, k, v);
    if k in Keys(d) {
      assert forall i :: 0 <= i < |r| ==> r[i].0 == Keys(r)[i] == Keys(d)[i];
    }
  }

  /** Several assignments in a row. */
  function PutAll<V>(d: Dict<V>, items: seq<(string, V)>): Dict<V>
  {
    if items == [] then d
    else Put(PutAll(d, items[..|items| - 1]), items[|items| - 1].0, items[|items| - 1].1)
  }

  /** Assignments keep the keys distinct. */
  lemma {:induction false} PutAllDistinct<V>(d: Dict<V>, items: seq<(string, V)>)
    requires DistinctKeys(d)
    ensures DistinctKeys(PutAll(d, items))
    decreases |items|
  {
    if items != [] {
      var last := items[|items| - 1];
      PutAllDistinct(d, items[..|items| - 1]);
      PutDistinct(PutAll(d, items[..|items| - 1]), last.0, last.1);
    }
  }

  lemma {:induction false} PutAllConcat<V>(d: Dict<V>, a: seq<(string, V)>, b: seq<(string, V)>)
    ensures PutAll(d, a + b) == PutAll(PutAll(d, a), b)
    decreases |b|
  {
    if b == [] {
      assert a + b == a;
    } else {
      assert (a + b)[..|a + b| - 1] == a + b[..|b| - 1];
      assert (a + b)[|a + b| - 1] == b[|b| - 1];
      PutAllConcat(d, a, b[..|b| - 1]);
    }
  }

  /** Assignments to fresh, distinct keys append their items in order. */
  lemma {:induction false} PutAllFresh<V>(d: Dict<V>, items: seq<(string, V)>)
    requires DistinctKeys(d + items)
    ensures PutAll(d, items) == d + items
    decreases |items|
  {
    if items != [] {
      var init := items[..|items| - 1];
      var last := items[|items| - 1];
      assert DistinctKeys(d + init) by {
        forall i, j | 0 <= i < j < |d + init| ensures (d + init)[i].0 != (d + init)[j].0 {
          assert (d + init)[i] == (d + items)[i] && (d + init)[j] == (d + items)[j];
        }
      }
      PutAllFresh(d, init);
      forall i | 0 <= i < |d + init| ensures Keys(d + init)[i] != last.0 {
        assert (d + init)[i] == (d + items)[i];
        assert (d + items)[|d + items| - 1] == last;
      }
      assert d + init + [last] == d + items;
    }
  }

  /** `d.pop(k)`: the item with key k removed (for a dictionary there is at most one). */
  function Remove<V>(d: Dict<V>, k: string): (r: Dict<V>)
    ensures |r| <= |d|
  {
    if d == [] then []
    else (if d[0].0 == k then [] else [d[0]]) + Remove(d[1..], k)
  }

  /** Removing an absent key changes nothing. */
  lemma {:induction false} RemoveAbsent<V>(d: Dict<V>, k: string)
    requires k !in Keys(d)
    ensures Remove(d, k) == d
    decreases |d|
  {
    if d != [] {
      assert Keys(d) == [d[0].0] + Keys(d[1..]);
      RemoveAbsent(d[1..], k);
    }
  }

  lemma {:induction false} RemoveConcat<V>(a: Dict<V>, b: Dict<V>, k: string)
    ensures Remove(a + b, k) == Remove(a, k) + Remove(b, k)
    decreases |a|
  {
    if a == [] {
      assert a + b == b;
    } else {
      assert (a + b)[1..] == a[1..] + b;
      RemoveConcat(a[1..], b, k);
    }
  }

  /** Reading past a part that lacks the key. */
  lemma {:induction false} GetConcat<V>(a: Dict<V>, b: Dict<V>, k: string)
    requires k !in Keys(a)
    ensures Get(a + b, k) == Get(b, k)
    decreases |a|
  {
    if a == [] {
      assert a + b == b;
    } else {
      assert Keys(a) == [a[0].0] + Keys(a[1..]);
      assert (a + b)[1..] == a[1..] + b;
      GetConcat(a[1..], b, k);
    }
  }
}
