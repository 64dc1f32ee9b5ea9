/**
 * Python dictionaries with string keys, as insertion-ordered association lists.
 * The code iterates `.items()` and builds output in that order, so a Dafny `map`
 * (unordered) would lose behaviour; `Put` is `d[k] = v`: an existing key keeps its
 * position and gets the new value, a new key is appended.
 */
module Dict {
  import opened Wrappers

  type Entries<V> = seq<(string, V)>

  /** The keys in iteration order. */
  function Keys<V>(d: Entries<V>): (ks: seq<string>)
    ensures |ks| == |d|
    ensures forall i :: 0 <= i < |d| ==> ks[i] == d[i].0
  {
    seq(|d|, i requires 0 <= i < |d| => d[i].0)
  }

  /** The set of keys, `set(d.keys())`. */
  function KeySet<V>(d: Entries<V>): (s: set<string>)
    ensures forall i :: 0 <= i < |d| ==> d[i].0 in s
    ensures forall k :: k in s ==> exists i :: 0 <= i < |d| && d[i].0 == k
  {
    set i | 0 <= i < |d| :: d[i].0
  }

  /** What every real dictionary satisfies: no key twice. */
  predicate UniqueKeys<V>(d: Entries<V>)
  {
    forall i, j :: 0 <= i < j < |d| ==> d[i].0 != d[j].0
  }

  /** The position of key `k`, if present. */
  function Find<V>(d: Entries<V>, k: string): (r: Option<nat>)
    ensures r.Some? ==> r.value < |d| && d[r.value].0 == k
    ensures r.Some? ==> forall j :: 0 <= j < r.value ==> d[j].0 != k
    ensures r.None? <==> k !in KeySet(d)
  {
    if d == [] then None
    else if d[0].0 == k then Some(0)
    else match Find(d[1..], k)
      case None => None
      case Some(i) => Some(i + 1)
  }

  /** `d.get(k)`: the value stored under `k`, if any. */
  function Get<V>(d: Entries<V>, k: string): (r: Option<V>)
    ensures r.Some? <==> k in KeySet(d)
    ensures r.Some? ==> (k, r.value) in d
  {
    match Find(d, k)
    case None => None
    case Some(i) => Some(d[i].1)
  }

  /** `d.get(k, default)`. */
  function GetOr<V>(d: Entries<V>, k: string, default: V): (r: V)
    ensures k !in KeySet(d) ==> r == default
    ensures k in KeySet(d) ==> Some(r) == Get(d, k)
  {
    match Get(d, k)
    case None => default
    case Some(v) => v
  }

  /** A dictionary display written one entry at a time: `k` first, then `rest`. */
  function Cons<V>(k: string, v: V, rest: Entries<V>): (r: Entries<V>)
    ensures |r| == |rest| + 1 && r[0] == (k, v) && r[1..] == rest
  {
    [(k, v)] + rest
  }

  /** Looking up a key in a display: the first entry, or the rest. */
  lemma GetCons<V>(k: string, v: V, rest: Entries<V>, key: string)
    ensures Get(Cons(k, v, rest), key) == if key == k then Some(v) else Get(rest, key)
  {
    var r := Cons(k, v, rest);
    if key != k {
      match Find(rest, key)
      case None =>
      case Some(i) =>
    }
  }

  /** The value at the first position holding `k` is what `Get` finds. */
  lemma GetAt<V>(d: Entries<V>, i: nat, k: string)
    requires i < |d| && d[i].0 == k
    requires forall j :: 0 <= j < i ==> d[j].0 != k
    ensures Get(d, k) == Some(d[i].1)
  {
    var f := Find(d, k);
  }

  /** In a dictionary, a stored pair is what `Get` finds. */
  lemma GetStored<V>(d: Entries<V>, k: string, v: V)
    requires UniqueKeys(d)
    requires (k, v) in d
    ensures Get(d, k) == Some(v)
  {
    var i :| 0 <= i < |d| && d[i] == (k, v);
    var j := Find(d, k).value;
    assert j == i by {
      if j < i {
      } else if i < j {
      }
    }
  }

  /** `d[k] = v`. */
  function Put<V>(d: Entries<V>, k: string, v: V): (r: Entries<V>)
    ensures Get(r, k) == Some(v)
    ensures forall k' :: k' != k ==> Get(r, k') == Get(d, k')
    ensures k in KeySet(d) ==> Keys(r) == Keys(d)
    ensures k !in KeySet(d) ==> Keys(r) == Keys(d) + [k] && r == d + [(k, v)]
    ensures KeySet(r) == KeySet(d) + {k}
    ensures UniqueKeys(d) ==> UniqueKeys(r)
  {
    match Find(d, k)
    case Some(i) =>
      assert forall j :: 0 <= j < |d| ==> d[i := (k, v)][j].0 == d[j].0;
      SameKeys(d, d[i := (k, v)]);
      PutReplaces(d, i, k, v);
      d[i := (k, v)]
    case None => PutAppends(d, k, v); d + [(k, v)]
  }

  /** An existing key keeps its position and takes the new value. */
  lemma PutReplaces<V>(d: Entries<V>, i: nat, k: string, v: V)
    requires Find(d, k) == Some(i)
    ensures var r := d[i := (k, v)];
      && Get(r, k) == Some(v)
      && (forall k' :: k' != k ==> Get(r, k') == Get(d, k'))
  {
    var r := d[i := (k, v)];
    GetAt(r, i, k);
    PutKeepsOthers(d, r, k);
  }

  /** Two tables with the same keys position by position. */
  lemma SameKeys<V>(d: Entries<V>, r: Entries<V>)
    requires |r| == |d| && forall j :: 0 <= j < |r| ==> r[j].0 == d[j].0
    ensures Keys(r) == Keys(d) && KeySet(r) == KeySet(d) && (UniqueKeys(d) ==> UniqueKeys(r))
  {
    assert Keys(r) == Keys(d);
  }

  /** A new key goes last. */
  lemma PutAppends<V>(d: Entries<V>, k: string, v: V)
    requires k !in KeySet(d)
    ensures var r := d + [(k, v)];
      && Get(r, k) == Some(v)
      && (forall k' :: k' != k ==> Get(r, k') == Get(d, k'))
      && Keys(r) == Keys(d) + [k]
      && KeySet(r) == KeySet(d) + {k}
      && (UniqueKeys(d) ==> UniqueKeys(r))
  {
    var r := d + [(k, v)];
    assert Keys(r) == Keys(d) + [k];
    assert r[|d|].0 == k;
    GetAt(r, |d|, k);
    PutKeepsOthers(d, r, k);
  }

  /** Lookups of keys other than `k` only depend on the entries with those keys. */
  lemma PutKeepsOthers<V>(d: Entries<V>, r: Entries<V>, k: string)
    requires forall i :: 0 <= i < |d| && d[i].0 != k ==> i < |r| && r[i] == d[i]
    requires forall i :: 0 <= i < |r| && (i >= |d| || d[i].0 == k) ==> r[i].0 == k
    ensures forall k' :: k' != k ==> Get(r, k') == Get(d, k')
  {
    forall k' | k' != k
      ensures Get(r, k') == Get(d, k')
    {
      match Find(d, k')
      case Some(i) =>
        assert r[i] == d[i];
      case None =>
        forall j | 0 <= j < |r|
          ensures r[j].0 != k'
        {
          if j < |d| && d[j].0 != k {
            assert r[j] == d[j];
          }
        }
    }
  }
}
