/** JavaScript plain objects used as dictionaries (`const grouped = {}`), and the
    group-by loop the source writes twice: once in `groupByCategory` and once in
    the transactions list, which groups by day. */
module Dicts {
  import opened Seqs

  /** A dictionary object: its keys in insertion order (what `Object.keys` and
      `Object.entries` list) and its entries. */
  datatype Dict<K, V> = Dict(keys: seq<K>, entries: map<K, V>)

  predicate NoDuplicates<K(==)>(s: seq<K>) {
    forall i, j :: 0 <= i < j < |s| ==> s[i] != s[j]
  }

  /** A well-formed dictionary lists each of its keys exactly once. */
  ghost predicate Valid<K(!new), V>(d: Dict<K, V>) {
    NoDuplicates(d.keys) && forall k :: k in d.entries <==> k in d.keys
  }

  /** The keys of a sequence of items, item by item. */
  function KeysOf<T, K>(s: seq<T>, keyOf: T -> K): (r: seq<K>)
    ensures |r| == |s| && forall i :: 0 <= i < |s| ==> r[i] == keyOf(s[i])
  {
    seq(|s|, i requires 0 <= i < |s| => keyOf(s[i]))
  }

  /** The distinct elements of `ks` in order of first occurrence. */
  function Distinct<K(==,!new)>(ks: seq<K>): (r: seq<K>)
    ensures NoDuplicates(r)
    ensures forall k :: k in r <==> k in ks
  {
    if ks == [] then []
    else
      var front := Distinct(ks[..|ks| - 1]);
      assert forall k :: k in ks <==> k in ks[..|ks| - 1] || k == ks[|ks| - 1] by {
        assert ks == ks[..|ks| - 1] + [ks[|ks| - 1]];
      }
      if ks[|ks| - 1] in front then front else front + [ks[|ks| - 1]]
  }

  /** The items of `s` whose key is `k`, in order. */
  function Bucket<T(!new), K(==,!new)>(s: seq<T>, keyOf: T -> K, k: K): seq<T> {
    Filter(s, x => keyOf(x) == k)
  }

  lemma BucketSnoc<T(!new), K(!new)>(s: seq<T>, x: T, keyOf: T -> K, k: K)
    ensures Bucket(s + [x], keyOf, k) == Bucket(s, keyOf, k) + (if keyOf(x) == k then [x] else [])
  {
    FilterAppend(s, [x], y => keyOf(y) == k);
    assert [x][1..] == [];
  }

  /** A bucket of a descending sequence is descending. */
  lemma BucketKeepsSorted<T(!new), K(!new)>(s: seq<T>, keyOf: T -> K, k: K, key: T -> real)
    requires SortedDesc(s, key)
    ensures SortedDesc(Bucket(s, keyOf, k), key)
  {
    FilterKeepsSorted(s, x => keyOf(x) == k, key);
  }

  /** `d` is what the group-by loop leaves after visiting `s`: one key per distinct
      key of `s` in order of first occurrence, holding exactly that key's items. */
  ghost predicate IsGrouping<T(!new), K(!new)>(d: Dict<K, seq<T>>, s: seq<T>, keyOf: T -> K) {
    && d.keys == Distinct(KeysOf(s, keyOf))
    && (forall k :: k in d.entries <==> k in d.keys)
    && (forall k :: k in d.entries ==> d.entries[k] == Bucket(s, keyOf, k))
  }

  /** The sum of `f` over the entries of the listed keys. */
  function SumOver<K(==,!new), V>(keys: seq<K>, m: map<K, V>, f: V -> real): real {
    if keys == [] then 0.0
    else (if keys[0] in m then f(m[keys[0]]) else 0.0) + SumOver(keys[1..], m, f)
  }

  lemma {:induction false} SumOverSnoc<K(!new), V>(keys: seq<K>, m: map<K, V>, f: V -> real, k: K)
    requires k in m
    ensures SumOver(keys + [k], m, f) == SumOver(keys, m, f) + f(m[k])
  {
    if keys == [] {
      assert SumOver([k], m, f) == f(m[k]) + SumOver([], m, f);
    } else {
      assert (keys + [k])[1..] == keys[1..] + [k];
      SumOverSnoc(keys[1..], m, f, k);
    }
  }

  /** Setting a key that is not listed leaves the sum alone. */
  lemma {:induction false} SumOverUnlisted<K(!new), V>(keys: seq<K>, m: map<K, V>, f: V -> real, k: K, v: V)
    requires k !in keys
    ensures SumOver(keys, m[k := v], f) == SumOver(keys, m, f)
  {
    if keys != [] {
      SumOverUnlisted(keys[1..], m, f, k, v);
    }
  }

  /** Replacing the entry of a key listed once changes the sum by the difference. */
  lemma {:induction false} SumOverReplace<K(!new), V>(keys: seq<K>, m: map<K, V>, f: V -> real, k: K, v: V)
    requires NoDuplicates(keys) && k in keys && k in m
    ensures SumOver(keys, m[k := v], f) == SumOver(keys, m, f) - f(m[k]) + f(v)
  {
    if keys[0] == k {
      assert k !in keys[1..] by {
        forall j | 0 <= j < |keys[1..]| ensures keys[1..][j] != k {
          assert keys[1..][j] == keys[j + 1];
        }
      }
      SumOverUnlisted(keys[1..], m, f, k, v);
    } else {
      SumOverReplace(keys[1..], m, f, k, v);
    }
  }

  /** With no negative value, the entry of a listed key is at most the sum. */
  lemma {:induction false} SumOverBound<K(!new), V>(keys: seq<K>, m: map<K, V>, f: V -> real, k: K)
    requires k in keys && k in m
    requires forall k' :: k' in keys && k' in m ==> f(m[k']) >= 0.0
    ensures 0.0 <= f(m[k]) <= SumOver(keys, m, f)
  {
    SumOverNonNegative(keys[1..], m, f);
    if keys[0] != k {
      SumOverBound(keys[1..], m, f, k);
    }
  }

  lemma {:induction false} SumOverNonNegative<K(!new), V>(keys: seq<K>, m: map<K, V>, f: V -> real)
    requires forall k' :: k' in keys && k' in m ==> f(m[k']) >= 0.0
    ensures SumOver(keys, m, f) >= 0.0
  {
    if keys != [] {
      SumOverNonNegative(keys[1..], m, f);
    }
  }

  /** The length of a sequence, as a measure for `SumOver`. */
  function Size<T>(v: seq<T>): real {
    |v| as real
  }

  /** The number of items held in all the buckets of `d`. */
  function ItemCount<K(==,!new), T>(d: Dict<K, seq<T>>): real {
    SumOver(d.keys, d.entries, Size)
  }

  /** `if (!grouped[k]) grouped[k] = []; grouped[k].push(x)`: append `x` to the
      bucket of `k`, creating the bucket (and listing `k` last) if missing. */
  function Push<K, T>(d: Dict<K, seq<T>>, k: K, x: T): (r: Dict<K, seq<T>>)
    ensures r.keys == if k in d.entries then d.keys else d.keys + [k]
    ensures r.entries == d.entries[k := (if k in d.entries then d.entries[k] else []) + [x]]
  {
    Dict(if k in d.entries then d.keys else d.keys + [k],
         d.entries[k := (if k in d.entries then d.entries[k] else []) + [x]])
  }

  /** One step of the group-by loop: the grouping of `s` becomes the grouping of
      `s + [x]` once `x` is pushed onto its key's bucket. */
  lemma GroupStep<T(!new), K(!new)>(d: Dict<K, seq<T>>, s: seq<T>, x: T, keyOf: T -> K, next: seq<T>)
    requires IsGrouping(d, s, keyOf) && next == s + [x]
    ensures IsGrouping(Push(d, keyOf(x), x), next, keyOf)
  {
    var k := keyOf(x);
    assert KeysOf(s + [x], keyOf) == KeysOf(s, keyOf) + [k];
    assert (KeysOf(s, keyOf) + [k])[..|s|] == KeysOf(s, keyOf);
    var m := Push(d, k, x).entries;
    forall k' | k' in m ensures m[k'] == Bucket(s + [x], keyOf, k') {
      BucketSnoc(s, x, keyOf, k');
      if k' != k {
        assert k' in d.entries;
      } else if k !in d.entries {
        assert k !in Distinct(KeysOf(s, keyOf));
        FilterNone(s, y => keyOf(y) == k);
      }
    }
  }

  /** Pushing one item onto a bucket, creating it first if need be, adds one to the item count. */
  lemma ItemCountPush<K(!new), T>(d: Dict<K, seq<T>>, k: K, x: T)
    requires NoDuplicates(d.keys) && forall k' :: k' in d.entries <==> k' in d.keys
    ensures ItemCount(Push(d, k, x)) == ItemCount(d) + 1.0
  {
    if k in d.entries {
      SumOverReplace(d.keys, d.entries, Size, k, d.entries[k] + [x]);
    } else {
      assert [] + [x] == [x];
      SumOverUnlisted(d.keys, d.entries, Size, k, [x]);
      SumOverSnoc(d.keys, d.entries[k := [x]], Size, k);
    }
  }

  /** The group-by loop: for each item, create its key's bucket if missing, then push the item. */
  method GroupBy<T(!new), K(==,!new)>(s: seq<T>, keyOf: T -> K) returns (d: Dict<K, seq<T>>)
    ensures IsGrouping(d, s, keyOf)
    ensures ItemCount(d) == |s| as real
  {
    d := Dict([], map[]);
    for i := 0 to |s|
      invariant IsGrouping(d, s[..i], keyOf)
      invariant ItemCount(d) == i as real
    {
      var x, k := s[i], keyOf(s[i]);
      ghost var before := d;
      if k !in d.entries {
        d := Dict(d.keys + [k], d.entries[k := []]);
      }
      d := d.(entries := d.entries[k := d.entries[k] + [x]]);
      assert d == Push(before, k, x);
      SliceSnoc(s, i);
      GroupStep(before, s[..i], x, keyOf, s[..i + 1]);
      assert NoDuplicates(before.keys);
      ItemCountPush(before, k, x);
    }
    assert s[..|s|] == s;
  }

  /** What a grouping promises its caller: its keys are listed once each, every
      item sits in the bucket of its own key, no bucket is empty, and a key is
      present exactly when some item has it; an item is in a bucket exactly when
      the bucket's key is its own. */
  lemma GroupingCovers<T(!new), K(!new)>(d: Dict<K, seq<T>>, s: seq<T>, keyOf: T -> K)
    requires IsGrouping(d, s, keyOf)
    ensures Valid(d)
    ensures forall x :: x in s ==> keyOf(x) in d.entries && x in d.entries[keyOf(x)]
    ensures forall k :: k in d.entries ==> d.entries[k] != []
    ensures forall k :: k in d.entries <==> exists x :: x in s && keyOf(x) == k
    ensures forall x, k :: x in s && k in d.entries ==> (x in d.entries[k] <==> keyOf(x) == k)
  {
    var ks := KeysOf(s, keyOf);
    forall k | k in d.entries ensures exists x :: x in s && keyOf(x) == k {
      var i :| 0 <= i < |ks| && ks[i] == k;
      assert s[i] in s && keyOf(s[i]) == k;
    }
    forall x | x in s ensures keyOf(x) in d.entries {
      var i :| 0 <= i < |s| && s[i] == x;
      assert ks[i] == keyOf(x);
    }
  }
}
