/**
 * The data logger keeps its columns in a `std::map<String, ...>`: assigning
 * under a key inserts or replaces, and iteration visits the keys in
 * ascending `std::string` order. This module models such a map as an
 * association list kept strictly sorted by key.
 */
module ColumnMap {
  import opened Optional

  datatype Entry<V> = Entry(key: string, value: V)

  /** `std::string::operator<`: lexicographic, a proper prefix comes first. */
  predicate Below(a: string, b: string) {
    if a == [] then b != []
    else if b == [] then false
    else if a[0] != b[0] then a[0] < b[0]
    else Below(a[1..], b[1..])
  }

  lemma {:induction false} BelowIrreflexive(a: string)
    ensures !Below(a, a)
  {
    if a != [] {
      BelowIrreflexive(a[1..]);
    }
  }

  lemma {:induction false} BelowTransitive(a: string, b: string, c: string)
    requires Below(a, b) && Below(b, c)
    ensures Below(a, c)
  {
    if a != [] && b != [] && c != [] && a[0] == b[0] == c[0] {
      BelowTransitive(a[1..], b[1..], c[1..]);
    }
  }

  lemma {:induction false} BelowTotal(a: string, b: string)
    requires a != b
    ensures Below(a, b) || Below(b, a)
  {
    if a != [] && b != [] && a[0] == b[0] {
      assert a == [a[0]] + a[1..] && b == [b[0]] + b[1..];
      BelowTotal(a[1..], b[1..]);
    }
  }

  /** Adjacent keys strictly ascend (the map's iteration order). */
  predicate Sorted<V>(es: seq<Entry<V>>) {
    |es| <= 1 || (Below(es[0].key, es[1].key) && Sorted(es[1..]))
  }

  function Keys<V>(es: seq<Entry<V>>): set<string> {
    if es == [] then {} else {es[0].key} + Keys(es[1..])
  }

  /** `find(key)` on the map. */
  function Lookup<V>(es: seq<Entry<V>>, key: string): Option<V> {
    if es == [] then None
    else if es[0].key == key then Some(es[0].value)
    else Lookup(es[1..], key)
  }

  /** No key occurs twice. */
  predicate DistinctKeys<V>(es: seq<Entry<V>>) {
    forall i, j :: 0 <= i < j < |es| ==> es[i].key != es[j].key
  }

  /** The keys in iteration order, as written into a header row. */
  function KeyList<V>(es: seq<Entry<V>>): (ks: seq<string>)
    ensures |ks| == |es|
    ensures forall i :: 0 <= i < |es| ==> ks[i] == es[i].key
  {
    if es == [] then [] else [es[0].key] + KeyList(es[1..])
  }

  lemma {:induction false} KeyAtIndex<V>(es: seq<Entry<V>>, i: nat)
    requires i < |es|
    ensures es[i].key in Keys(es)
  {
    if i > 0 {
      KeyAtIndex(es[1..], i - 1);
    }
  }

  lemma {:induction false} KeyHasIndex<V>(es: seq<Entry<V>>, k: string) returns (i: nat)
    requires k in Keys(es)
    ensures i < |es| && es[i].key == k
  {
    if es[0].key != k {
      i := KeyHasIndex(es[1..], k);
      i := i + 1;
    } else {
      i := 0;
    }
  }

  /** A key below the first key of a sorted map is not in the map. */
  lemma {:induction false} BelowHeadAbsent<V>(es: seq<Entry<V>>, k: string)
    requires Sorted(es) && es != [] && Below(k, es[0].key)
    ensures k !in Keys(es)
  {
    BelowIrreflexive(k);
    if |es| > 1 {
      BelowTransitive(k, es[0].key, es[1].key);
      BelowHeadAbsent(es[1..], k);
    }
  }

  /** `m[key] = v`: insert a new key in order, or replace the value of an existing one. */
  function Put<V>(es: seq<Entry<V>>, key: string, v: V): (r: seq<Entry<V>>)
    requires Sorted(es)
    ensures Sorted(r) && r != []
    ensures es != [] ==> r[0].key == key || r[0].key == es[0].key
    ensures Keys(r) == Keys(es) + {key}
    ensures Lookup(r, key) == Some(v)
    ensures forall k :: k != key ==> Lookup(r, k) == Lookup(es, k)
    ensures |r| == if key in Keys(es) then |es| else |es| + 1
  {
    if es == [] then [Entry(key, v)]
    else if es[0].key == key then [Entry(key, v)] + es[1..]
    else if Below(key, es[0].key) then
      BelowHeadAbsent(es, key);
      [Entry(key, v)] + es
    else
      BelowTotal(key, es[0].key);
      var rest := Put(es[1..], key, v);
      assert |es| > 1 ==> Below(es[0].key, es[1].key);
      var r := [es[0]] + rest;
      assert r[1..] == rest;
      r
  }

  /** Applies `m[key] = value` for every entry of `ps`, first to last. */
  function PutAll<V>(es: seq<Entry<V>>, ps: seq<Entry<V>>): (r: seq<Entry<V>>)
    requires Sorted(es)
    ensures Sorted(r)
    ensures Keys(r) == Keys(es) + Keys(ps)
    ensures DistinctKeys(ps) && Keys(es) !! Keys(ps) ==> |r| == |es| + |ps|
    decreases |ps|
  {
    if ps == [] then es
    else
      var n := |ps| - 1;
      var before := PutAll(es, ps[..n]);
      KeysSnoc(ps);
      LastKeyFresh(ps);
      Put(before, ps[n].key, ps[n].value)
  }

  lemma {:induction false} KeysSnoc<V>(ps: seq<Entry<V>>)
    requires ps != []
    ensures Keys(ps) == Keys(ps[..|ps| - 1]) + {ps[|ps| - 1].key}
  {
    if |ps| > 1 {
      assert ps[1..][..|ps| - 2] == ps[..|ps| - 1][1..];
      KeysSnoc(ps[1..]);
    }
  }

  /** In a list without repeated keys, the last key does not occur before it. */
  lemma LastKeyFresh<V>(ps: seq<Entry<V>>)
    requires ps != []
    ensures DistinctKeys(ps) ==> DistinctKeys(ps[..|ps| - 1]) && ps[|ps| - 1].key !in Keys(ps[..|ps| - 1])
  {
    var n := |ps| - 1;
    if DistinctKeys(ps) && ps[n].key in Keys(ps[..n]) {
      var i := KeyHasIndex(ps[..n], ps[n].key);
    }
  }

  /** A sorted map never holds a key twice, so its header has no repeated name. */
  lemma {:induction false} SortedDistinct<V>(es: seq<Entry<V>>)
    requires Sorted(es)
    ensures DistinctKeys(es)
    ensures forall j :: 0 < j < |es| ==> Below(es[0].key, es[j].key)
  {
    if |es| > 1 {
      SortedDistinct(es[1..]);
      forall j | 1 < j < |es|
        ensures Below(es[0].key, es[j].key)
      {
        BelowTransitive(es[0].key, es[1].key, es[j].key);
      }
      forall i, j | 0 <= i < j < |es|
        ensures es[i].key != es[j].key
      {
        if i == 0 {
          BelowIrreflexive(es[0].key);
        } else {
          assert es[i].key == es[1..][i - 1].key && es[j].key == es[1..][j - 1].key;
        }
      }
    }
  }

  /** Iterating a sorted map visits its keys in strictly ascending order. */
  lemma {:induction false} SortedAscending<V>(es: seq<Entry<V>>)
    requires Sorted(es)
    ensures forall i, j :: 0 <= i < j < |es| ==> Below(es[i].key, es[j].key)
  {
    if |es| > 1 {
      SortedDistinct(es);
      SortedAscending(es[1..]);
      forall i, j | 0 < i < j < |es|
        ensures Below(es[i].key, es[j].key)
      {
        assert es[i].key == es[1..][i - 1].key && es[j].key == es[1..][j - 1].key;
      }
    }
  }
}
