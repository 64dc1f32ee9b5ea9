/**
 * Loops over lists that the agents write again and again: filtering with a step that
 * may raise, and de-duplication with a `seen` set (keep an element when its key has
 * not been seen yet, and remember the key).
 */
module Lists {
  import opened Wrappers

  /** The elements for which `keep` holds, in order. */
  function Filter<T>(items: seq<T>, keep: T -> bool): (p: seq<T>)
    ensures forall k :: 0 <= k < |p| ==> keep(p[k]) && p[k] in items
    ensures |p| <= |items|
    decreases |items|
  {
    if items == [] then []
    else
      var n := |items| - 1;
      Filter(items[..n], keep) + (if keep(items[n]) then [items[n]] else [])
  }

  /**
   * A loop that, for each element, skips it, appends a value, or raises; the first
   * exception ends the loop.
   */
  function Collect<T, U>(items: seq<T>, step: T -> Result<Option<U>, string>): Result<seq<U>, string>
    decreases |items|
  {
    if items == [] then Ok([])
    else
      var n := |items| - 1;
      match Collect(items[..n], step)
      case Err(e) => Err(e)
      case Ok(kept) =>
        match step(items[n])
        case Err(e) => Err(e)
        case Ok(None) => Ok(kept)
        case Ok(Some(x)) => Ok(kept + [x])
  }

  /** One more turn of the loop. */
  lemma CollectStep<T, U>(items: seq<T>, step: T -> Result<Option<U>, string>, i: nat, kept: seq<U>)
    requires i < |items| && Collect(items[..i], step) == Ok(kept)
    ensures Collect(items[..i + 1], step) ==
      match step(items[i])
      case Err(e) => Err(e)
      case Ok(None) => Ok(kept)
      case Ok(Some(x)) => Ok(kept + [x])
  {
    assert items[..i + 1][..i] == items[..i];
  }

  /** Once the loop has raised on a prefix, it raises on the whole list, with the same error. */
  lemma {:induction false} CollectErrStays<T, U>(items: seq<T>, step: T -> Result<Option<U>, string>, i: nat)
    requires i <= |items| && Collect(items[..i], step).Err?
    ensures Collect(items, step) == Collect(items[..i], step)
    decreases |items| - i
  {
    if i < |items| {
      assert items[..i + 1][..i] == items[..i];
      CollectErrStays(items, step, i + 1);
    } else {
      assert items[..i] == items;
    }
  }

  /** The loop raises nothing exactly when no step raises. */
  lemma {:induction false} CollectOkIff<T, U>(items: seq<T>, step: T -> Result<Option<U>, string>)
    ensures Collect(items, step).Ok? <==> forall i :: 0 <= i < |items| ==> step(items[i]).Ok?
    decreases |items|
  {
    if items != [] {
      var n := |items| - 1;
      CollectOkIff(items[..n], step);
      assert forall i :: 0 <= i < n ==> items[..n][i] == items[i];
    }
  }

  /** A loop that checks each element in turn: the failure of the first element that fails. */
  function FirstError<T, E>(items: seq<T>, check: T -> Option<E>): Option<E>
    decreases |items|
  {
    if items == [] then None
    else
      match FirstError(items[..|items| - 1], check)
      case Some(e) => Some(e)
      case None => check(items[|items| - 1])
  }

  /** A failure on a prefix is the failure of the whole list. */
  lemma {:induction false} FirstErrorStays<T, E>(items: seq<T>, check: T -> Option<E>, i: nat)
    requires i <= |items| && FirstError(items[..i], check).Some?
    ensures FirstError(items, check) == FirstError(items[..i], check)
    decreases |items| - i
  {
    if i < |items| {
      assert items[..i + 1][..i] == items[..i];
      FirstErrorStays(items, check, i + 1);
    } else {
      assert items[..i] == items;
    }
  }

  /** The loop fails exactly when some element fails its check. */
  lemma {:induction false} FirstErrorIff<T, E>(items: seq<T>, check: T -> Option<E>)
    ensures FirstError(items, check).None? <==> forall i :: 0 <= i < |items| ==> check(items[i]).None?
    decreases |items|
  {
    if items != [] {
      var n := |items| - 1;
      FirstErrorIff(items[..n], check);
      assert forall i :: 0 <= i < n ==> items[..n][i] == items[i];
    }
  }

  /**
   * When no step raises and a step appends exactly for the elements `keep` selects, the
   * loop's result is the value of each selected element, in order.
   */
  lemma {:induction false} CollectKeeps<T, U>(items: seq<T>, step: T -> Result<Option<U>, string>, keep: T -> bool)
    requires Collect(items, step).Ok?
    requires forall a :: step(a).Ok? ==> (step(a).value.Some? <==> keep(a))
    ensures var p := Filter(items, keep);
      var l := Collect(items, step).value;
      |l| == |p| && forall k :: 0 <= k < |l| ==> step(p[k]) == Ok(Some(l[k]))
    decreases |items|
  {
    if items != [] {
      var n := |items| - 1;
      assert Collect(items[..n], step).Ok?;
      CollectKeeps(items[..n], step, keep);
    }
  }

  /** A step that never skips appends one value per element, each element's own. */
  lemma {:induction false} CollectEach<T, U>(items: seq<T>, step: T -> Result<Option<U>, string>)
    requires Collect(items, step).Ok?
    requires forall a :: step(a).Ok? ==> step(a).value.Some?
    ensures var l := Collect(items, step).value;
      |l| == |items| && forall k :: 0 <= k < |l| ==> step(items[k]) == Ok(Some(l[k]))
    decreases |items|
  {
    if items != [] {
      var n := |items| - 1;
      assert Collect(items[..n], step).Ok?;
      CollectEach(items[..n], step);
    }
  }

  /** The loop appends at most one value per element. */
  lemma {:induction false} CollectLength<T, U>(items: seq<T>, step: T -> Result<Option<U>, string>)
    requires Collect(items, step).Ok?
    ensures |Collect(items, step).value| <= |items|
    decreases |items|
  {
    if items != [] {
      var n := |items| - 1;
      assert Collect(items[..n], step).Ok?;
      CollectLength(items[..n], step);
    }
  }

  /** The keys of a list's elements. */
  function KeysOf<T, K(==)>(items: seq<T>, key: T -> K): (ks: set<K>)
    ensures forall i :: 0 <= i < |items| ==> key(items[i]) in ks
    ensures forall k :: k in ks ==> exists i :: 0 <= i < |items| && key(items[i]) == k
    decreases |items|
  {
    if items == [] then {}
    else KeysOf(items[..|items| - 1], key) + {key(items[|items| - 1])}
  }

  /** The elements whose key does not occur earlier, in their original order. */
  function DedupBy<T, K(==)>(items: seq<T>, key: T -> K): seq<T>
    decreases |items|
  {
    if items == [] then []
    else
      var n := |items| - 1;
      DedupBy(items[..n], key) + (if key(items[n]) in KeysOf(items[..n], key) then [] else [items[n]])
  }

  /** The positions of the first occurrences of each key, ascending. */
  function FirstPositions<T, K(==)>(items: seq<T>, key: T -> K): (pos: seq<nat>)
    ensures forall k :: 0 <= k < |pos| ==> pos[k] < |items|
    decreases |items|
  {
    if items == [] then []
    else
      var n := |items| - 1;
      FirstPositions(items[..n], key) + (if key(items[n]) in KeysOf(items[..n], key) then [] else [n])
  }

  /**
   * The de-duplicated list is the subsequence of the input picked out by strictly
   * increasing positions.
   */
  lemma {:induction false} DedupByPositions<T, K>(items: seq<T>, key: T -> K)
    ensures var r := DedupBy(items, key); var pos := FirstPositions(items, key);
      && |pos| == |r|
      && (forall k :: 0 <= k < |pos| ==> r[k] == items[pos[k]])
      && (forall k, l :: 0 <= k < l < |pos| ==> pos[k] < pos[l])
    decreases |items|
  {
    if items != [] {
      var n := |items| - 1;
      var init := items[..n];
      DedupByPositions(init, key);
      var pos0 := FirstPositions(init, key);
      assert forall k :: 0 <= k < |pos0| ==> init[pos0[k]] == items[pos0[k]];
    }
  }

  /** Position `i` is picked exactly when it holds the first occurrence of its key. */
  lemma {:induction false} FirstPositionsFirst<T, K>(items: seq<T>, key: T -> K, i: nat)
    requires i < |items|
    ensures i in FirstPositions(items, key) <==> key(items[i]) !in KeysOf(items[..i], key)
    decreases |items|
  {
    var n := |items| - 1;
    var init := items[..n];
    var pos0 := FirstPositions(init, key);
    var tail: seq<nat> := if key(items[n]) in KeysOf(init, key) then [] else [n];
    assert FirstPositions(items, key) == pos0 + tail;
    if i < n {
      FirstPositionsFirst(init, key, i);
      assert init[..i] == items[..i];
      assert init[i] == items[i];
      assert i !in tail;
    } else {
      assert i !in pos0;
      assert items[..i] == init;
    }
  }

  /** No two kept elements share a key. */
  lemma {:induction false} DedupByUnique<T, K>(items: seq<T>, key: T -> K)
    ensures var r := DedupBy(items, key);
      forall i, j :: 0 <= i < j < |r| ==> key(r[i]) != key(r[j])
    decreases |items|
  {
    if items != [] {
      var n := |items| - 1;
      DedupByUnique(items[..n], key);
      DedupByKeys(items[..n], key);
    }
  }

  /** Every key of the input survives. */
  lemma {:induction false} DedupByKeys<T, K>(items: seq<T>, key: T -> K)
    ensures KeysOf(DedupBy(items, key), key) == KeysOf(items, key)
    decreases |items|
  {
    if items != [] {
      var n := |items| - 1;
      DedupByKeys(items[..n], key);
      var p := DedupBy(items[..n], key);
      var r := DedupBy(items, key);
      if key(items[n]) !in KeysOf(items[..n], key) {
        assert r[..|r| - 1] == p;
      } else {
        assert r == p;
      }
    }
  }

  /** A list without repeated keys comes through unchanged. */
  lemma {:induction false} DedupByDistinct<T, K>(items: seq<T>, key: T -> K)
    requires forall i, j :: 0 <= i < j < |items| ==> key(items[i]) != key(items[j])
    ensures DedupBy(items, key) == items
    decreases |items|
  {
    if items != [] {
      var n := |items| - 1;
      DedupByDistinct(items[..n], key);
      assert items[..n] + [items[n]] == items;
    }
  }
}
