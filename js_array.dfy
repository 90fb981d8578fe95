/** `Array.prototype.find` and `Array.prototype.filter`, specialised to the
    comparisons the chat models use: an item's key against a wanted value. */
module JsArray {
  import opened Wrappers

  /** The index of the first item whose key equals `k` (what `find` returns
      the item at), or `None` when no item matches. */
  function FindIndex<T, K(==)>(s: seq<T>, key: T -> K, k: K): (r: Option<nat>)
    ensures r.Some? ==> r.value < |s| && key(s[r.value]) == k
    ensures r.Some? ==> forall j :: 0 <= j < r.value ==> key(s[j]) != k
    ensures r.None? <==> forall j :: 0 <= j < |s| ==> key(s[j]) != k
  {
    if |s| == 0 then None
    else if key(s[0]) == k then Some(0)
    else match FindIndex(s[1..], key, k)
      case None => None
      case Some(i) => Some(i + 1)
  }

  /** Two sequences whose items have the same keys, position by position, have
      the same first match: rewriting other fields of items never moves `find`. */
  lemma {:induction false} FindIndexSameKeys<T, K>(s: seq<T>, t: seq<T>, key: T -> K, k: K)
    requires |s| == |t|
    requires forall i :: 0 <= i < |s| ==> key(s[i]) == key(t[i])
    ensures FindIndex(s, key, k) == FindIndex(t, key, k)
  {
    if |s| > 0 {
      FindIndexSameKeys(s[1..], t[1..], key, k);
    }
  }

  /** `s.filter(x => key(x) === k)`: the items whose key equals `k`, in order. */
  function Filter<T, K(==)>(s: seq<T>, key: T -> K, k: K): (r: seq<T>)
    ensures |r| <= |s|
    ensures forall i :: 0 <= i < |r| ==> r[i] in s && key(r[i]) == k
    ensures forall i :: 0 <= i < |s| && key(s[i]) == k ==> s[i] in r
  {
    if |s| == 0 then []
    else if key(s[0]) == k then [s[0]] + Filter(s[1..], key, k)
    else Filter(s[1..], key, k)
  }

  /** Filtering keeps the relative order of the items: it distributes over
      concatenation. */
  lemma {:induction false} FilterAppend<T, K>(a: seq<T>, b: seq<T>, key: T -> K, k: K)
    ensures Filter(a + b, key, k) == Filter(a, key, k) + Filter(b, key, k)
  {
    if |a| > 0 {
      assert (a + b)[1..] == a[1..] + b;
      FilterAppend(a[1..], b, key, k);
    } else {
      assert a + b == b;
    }
  }

  /** When every item matches, filtering returns the whole sequence. */
  lemma {:induction false} FilterAll<T, K>(s: seq<T>, key: T -> K, k: K)
    requires forall i :: 0 <= i < |s| ==> key(s[i]) == k
    ensures Filter(s, key, k) == s
  {
    if |s| > 0 {
      FilterAll(s[1..], key, k);
    }
  }

  /** `const x = s.find(x => key(x) === k); if (x) { flip x in place }`: the
      first item with that key is replaced by its flipped form, and no other
      item changes. */
  function FlipFirst<T, K(==)>(s: seq<T>, key: T -> K, k: K, flip: T -> T): (r: seq<T>)
    ensures |r| == |s|
    ensures forall j :: 0 <= j < |s| ==> r[j] == if FindIndex(s, key, k) == Some(j) then flip(s[j]) else s[j]
  {
    match FindIndex(s, key, k)
    case None => s
    case Some(i) => s[i := flip(s[i])]
  }

  /** `s.filter(x => flag(x)).map(x => key(x))`: the keys of the flagged items,
      in list order. */
  function KeysWhere<T, K(==,!new)>(s: seq<T>, flag: T -> bool, key: T -> K): (r: seq<K>)
    ensures |r| <= |s|
    ensures forall x :: x in r <==> exists j :: 0 <= j < |s| && flag(s[j]) && key(s[j]) == x
  {
    var chosen := Filter(s, flag, true);
    var r := seq(|chosen|, i requires 0 <= i < |chosen| => key(chosen[i]));
    assert forall x :: x in r ==> exists j :: 0 <= j < |s| && flag(s[j]) && key(s[j]) == x by {
      forall x | x in r ensures exists j :: 0 <= j < |s| && flag(s[j]) && key(s[j]) == x {
        var i :| 0 <= i < |r| && r[i] == x;
        var j :| 0 <= j < |s| && s[j] == chosen[i];
        assert flag(s[j]) && key(s[j]) == x;
      }
    }
    assert forall j :: 0 <= j < |s| && flag(s[j]) ==> key(s[j]) in r by {
      forall j | 0 <= j < |s| && flag(s[j]) ensures key(s[j]) in r {
        var i :| 0 <= i < |chosen| && chosen[i] == s[j];
        assert r[i] == key(s[j]);
      }
    }
    r
  }

  /** `filter(...).map(...)` keeps list order: the keys of a concatenation are
      the keys of the first part followed by the keys of the second. */
  lemma KeysWhereAppend<T, K(!new)>(a: seq<T>, b: seq<T>, flag: T -> bool, key: T -> K)
    ensures KeysWhere(a + b, flag, key) == KeysWhere(a, flag, key) + KeysWhere(b, flag, key)
  {
    FilterAppend(a, b, flag, true);
  }

  /** A single item contributes its key exactly when it is flagged. */
  lemma KeysWhereOne<T, K(!new)>(x: T, flag: T -> bool, key: T -> K)
    ensures KeysWhere([x], flag, key) == if flag(x) then [key(x)] else []
  {
    assert [x][1..] == [];
  }

  /** No two items share a key. */
  predicate DistinctKeys<T, K(==)>(s: seq<T>, key: T -> K) {
    forall i, j :: 0 <= i < j < |s| ==> key(s[i]) != key(s[j])
  }
}
