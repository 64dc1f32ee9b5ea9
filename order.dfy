/**
 * Python's ordering of `str` values (code point by code point, a proper prefix first)
 * and `sorted` on dictionary keys.
 */
module Order {
  import opened Dict

  /** `a <= b` for Python strings. */
  predicate Le(a: string, b: string)
    decreases |a|
  {
    if a == [] then true
    else if b == [] then false
    else if a[0] != b[0] then a[0] < b[0]
    else Le(a[1..], b[1..])
  }

  lemma {:induction false} LeReflexive(a: string)
    ensures Le(a, a)
  {
    if a != [] { LeReflexive(a[1..]); }
  }

  lemma {:induction false} LeAntisymmetric(a: string, b: string)
    requires Le(a, b) && Le(b, a)
    ensures a == b
  {
    if a != [] && b != [] {
      LeAntisymmetric(a[1..], b[1..]);
      assert a == [a[0]] + a[1..] && b == [b[0]] + b[1..];
    }
  }

  lemma {:induction false} LeTransitive(a: string, b: string, c: string)
    requires Le(a, b) && Le(b, c)
    ensures Le(a, c)
  {
    if a != [] && b != [] && c != [] && a[0] == b[0] == c[0] {
      LeTransitive(a[1..], b[1..], c[1..]);
    }
  }

  lemma {:induction false} LeTotal(a: string, b: string)
    ensures Le(a, b) || Le(b, a)
  {
    if a != [] && b != [] && a[0] == b[0] {
      LeTotal(a[1..], b[1..]);
    }
  }

  /** Keys in ascending order. */
  predicate SortedByKey<V>(d: Entries<V>)
  {
    forall i, j :: 0 <= i < j < |d| ==> Le(d[i].0, d[j].0)
  }

  /** Insert `e` into a list sorted by key, after the entries whose keys are smaller. */
  function Insert<V>(e: (string, V), d: Entries<V>): (r: Entries<V>)
    requires SortedByKey(d)
    ensures SortedByKey(r)
    ensures multiset(r) == multiset(d) + multiset{e}
  {
    if d == [] then [e]
    else if Le(e.0, d[0].0) then
      assert forall j :: 0 <= j < |d| ==> Le(e.0, d[j].0) by {
        forall j | 0 <= j < |d| ensures Le(e.0, d[j].0) {
          if j > 0 { LeTransitive(e.0, d[0].0, d[j].0); }
        }
      }
      [e] + d
    else
      var rest := Insert(e, d[1..]);
      LeTotal(e.0, d[0].0);
      assert d == [d[0]] + d[1..];
      assert forall x :: x in multiset(rest) ==> Le(d[0].0, x.0) by {
        forall x | x in multiset(rest) ensures Le(d[0].0, x.0) {
          if x != e {
            assert x in multiset(d[1..]);
            var j :| 0 <= j < |d[1..]| && d[1..][j] == x;
            assert d[j + 1] == x;
          }
        }
      }
      assert forall j :: 0 <= j < |rest| ==> Le(d[0].0, rest[j].0) by {
        forall j | 0 <= j < |rest| ensures Le(d[0].0, rest[j].0) {
          assert rest[j] in multiset(rest);
        }
      }
      [d[0]] + rest
  }

  /** `sorted(d.items())` by key (insertion sort, stable). */
  function SortByKey<V>(d: Entries<V>): (r: Entries<V>)
    ensures SortedByKey(r)
    ensures multiset(r) == multiset(d)
    ensures |r| == |d|
  {
    if d == [] then []
    else
      assert d == [d[0]] + d[1..];
      Insert(d[0], SortByKey(d[1..]))
  }

  /** The first key of a sorted, non-empty list is the smallest key, the last one the largest. */
  lemma SortedEnds<V>(d: Entries<V>, r: Entries<V>)
    requires SortedByKey(r) && multiset(r) == multiset(d) && |r| > 0
    ensures r[0].0 in KeySet(d) && r[|r| - 1].0 in KeySet(d)
    ensures forall k :: k in KeySet(d) ==> Le(r[0].0, k) && Le(k, r[|r| - 1].0)
  {
    assert r[0] in multiset(d) && r[|r| - 1] in multiset(d);
    forall k | k in KeySet(d)
      ensures Le(r[0].0, k) && Le(k, r[|r| - 1].0)
    {
      var i :| 0 <= i < |d| && d[i].0 == k;
      assert d[i] in multiset(r);
      var j :| 0 <= j < |r| && r[j] == d[i];
      LeReflexive(k);
    }
  }

  /** `sorted(keys)` for a list of keys given as entries. */
  function SortedKeys<V>(d: Entries<V>): (ks: seq<string>)
    ensures |ks| == |d|
  {
    Keys(SortByKey(d))
  }

  /** `reversed(s)`. */
  function Reverse<T>(s: seq<T>): (r: seq<T>)
    ensures |r| == |s|
    ensures forall i :: 0 <= i < |s| ==> r[i] == s[|s| - 1 - i]
  {
    seq(|s|, i requires 0 <= i < |s| => s[|s| - 1 - i])
  }

  /** Multiset of a reversed sequence. */
  lemma {:induction false} ReverseMultiset<T>(s: seq<T>)
    ensures multiset(Reverse(s)) == multiset(s)
  {
    if s != [] {
      var init := s[..|s| - 1];
      ReverseMultiset(init);
      assert Reverse(s) == [s[|s| - 1]] + Reverse(init);
      assert s == init + [s[|s| - 1]];
    }
  }

  /** Keys in descending order. */
  predicate SortedByKeyDescending<V>(d: Entries<V>)
  {
    forall i, j :: 0 <= i < j < |d| ==> Le(d[j].0, d[i].0)
  }

  /** `sorted(d.items(), reverse=True)` by key. */
  function SortByKeyDescending<V>(d: Entries<V>): (r: Entries<V>)
    ensures SortedByKeyDescending(r)
    ensures multiset(r) == multiset(d)
    ensures |r| == |d|
  {
    var up := SortByKey(d);
    ReverseMultiset(up);
    Reverse(up)
  }

  /** A permutation of a list without repeated keys has no repeated keys. */
  lemma PermutationUniqueKeys<V>(d: Entries<V>, r: Entries<V>)
    requires UniqueKeys(d) && multiset(r) == multiset(d)
    ensures UniqueKeys(r)
    ensures KeySet(r) == KeySet(d)
    ensures forall k :: Get(r, k) == Get(d, k)
  {
    forall i, j | 0 <= i < j < |r|
      ensures r[i].0 != r[j].0
    {
      assert r[i] in multiset(d) && r[j] in multiset(d);
      var a :| 0 <= a < |d| && d[a] == r[i];
      var b :| 0 <= b < |d| && d[b] == r[j];
      if a == b {
        assert multiset(r)[r[i]] >= multiset{r[i], r[j]}[r[i]] by {
          assert multiset{r[i], r[j]} <= multiset(r) by {
            assert r == r[..i] + [r[i]] + r[i + 1..j] + [r[j]] + r[j + 1..];
          }
        }
        UniqueKeysCountOne(d, a);
        assert false;
      }
    }
    assert forall i :: 0 <= i < |r| ==> r[i].0 in KeySet(d) by {
      forall i | 0 <= i < |r| ensures r[i].0 in KeySet(d) {
        assert r[i] in multiset(d);
        var a :| 0 <= a < |d| && d[a] == r[i];
      }
    }
    forall k ensures Get(r, k) == Get(d, k) {
      if Get(d, k).Some? {
        assert (k, Get(d, k).value) in multiset(r);
        GetStored(r, k, Get(d, k).value);
      }
    }
    assert forall k :: k in KeySet(r) <==> k in KeySet(d) by {
      forall k ensures k in KeySet(r) <==> k in KeySet(d) {
        assert Get(r, k) == Get(d, k);
      }
    }
  }

  /** Without repeated keys, each entry occurs once. */
  lemma {:induction false} UniqueKeysCountOne<V>(d: Entries<V>, a: nat)
    requires UniqueKeys(d) && a < |d|
    ensures multiset(d)[d[a]] == 1
  {
    if |d| > 0 {
      var init := d[..|d| - 1];
      assert d == init + [d[|d| - 1]];
      if a < |d| - 1 {
        UniqueKeysCountOne(init, a);
        assert d[|d| - 1] != d[a];
      } else {
        assert d[a] !in init;
      }
    }
  }
}
