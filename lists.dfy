/**
 * The array operations the stores are written with (`filter`, `map`, `find`,
 * `some`, `reduce`), as functions on sequences, with the facts about them that
 * the stores' proofs rest on.
 */
module Lists {
  import opened Wrappers

  /** No element occurs twice. */
  predicate NoDup<T(==)>(xs: seq<T>) {
    forall i, j :: 0 <= i < j < |xs| ==> xs[i] != xs[j]
  }

  /** No two elements share a key. */
  predicate DistinctBy<T, K(==)>(xs: seq<T>, key: T -> K) {
    forall i, j :: 0 <= i < j < |xs| ==> key(xs[i]) != key(xs[j])
  }

  /** `xs.filter(keep)`: the elements that satisfy `keep`, in their original order. */
  function Filter<T>(xs: seq<T>, keep: T -> bool): (r: seq<T>)
    ensures |r| <= |xs|
    ensures forall i :: 0 <= i < |r| ==> r[i] in xs && keep(r[i])
    ensures forall i :: 0 <= i < |xs| && keep(xs[i]) ==> xs[i] in r
  {
    if xs == [] then [] else (if keep(xs[0]) then [xs[0]] else []) + Filter(xs[1..], keep)
  }

  /** `xs.map(f)`. */
  function Map<T, U>(xs: seq<T>, f: T -> U): (r: seq<U>)
    ensures |r| == |xs|
    ensures forall i :: 0 <= i < |xs| ==> r[i] == f(xs[i])
  {
    if xs == [] then [] else [f(xs[0])] + Map(xs[1..], f)
  }

  /** `xs.find(p)`: the first element satisfying `p`, if there is one. */
  function Find<T>(xs: seq<T>, p: T -> bool): (r: Option<T>)
    ensures r.None? <==> forall i :: 0 <= i < |xs| ==> !p(xs[i])
    ensures r.Some? ==> exists i :: 0 <= i < |xs| && xs[i] == r.value && p(xs[i]) &&
                                    forall j :: 0 <= j < i ==> !p(xs[j])
  {
    if xs == [] then None
    else if p(xs[0]) then Some(xs[0])
    else
      var r := Find(xs[1..], p);
      assert r.Some? ==> exists i :: 0 <= i < |xs| - 1 && xs[1..][i] == r.value && p(xs[1..][i]) &&
                                     forall j :: 0 <= j < i ==> !p(xs[1..][j]);
      assert r.Some? ==> exists i :: 1 <= i < |xs| && xs[i] == r.value && p(xs[i]) &&
                                     forall j :: 0 <= j < i ==> !p(xs[j]) by {
        if r.Some? {
          var i :| 0 <= i < |xs| - 1 && xs[1..][i] == r.value && p(xs[1..][i]) &&
                   forall j :: 0 <= j < i ==> !p(xs[1..][j]);
          assert forall j :: 1 <= j < i + 1 ==> !p(xs[j]) by {
            forall j | 1 <= j < i + 1 ensures !p(xs[j]) { assert xs[j] == xs[1..][j - 1]; }
          }
        }
      }
      r
  }

  /** `xs.some(p)`. */
  function Any<T>(xs: seq<T>, p: T -> bool): (b: bool)
    ensures b <==> exists i :: 0 <= i < |xs| && p(xs[i])
  {
    if xs == [] then false
    else p(xs[0]) || (assert forall i :: 0 <= i < |xs| - 1 ==> xs[1..][i] == xs[i + 1]; Any(xs[1..], p))
  }

  /** Summing `f` over the elements, as the totals' `reduce` does. */
  function Sum<T>(xs: seq<T>, f: T -> int): int {
    if xs == [] then 0 else f(xs[0]) + Sum(xs[1..], f)
  }

  /** Filtering distributes over concatenation, so the kept elements stay in their order. */
  lemma {:induction false} FilterConcat<T>(xs: seq<T>, ys: seq<T>, keep: T -> bool)
    ensures Filter(xs + ys, keep) == Filter(xs, keep) + Filter(ys, keep)
  {
    if xs == [] {
      assert xs + ys == ys;
    } else {
      assert (xs + ys)[0] == xs[0];
      assert (xs + ys)[1..] == xs[1..] + ys;
      FilterConcat(xs[1..], ys, keep);
    }
  }

  /** A filter that drops nothing returns its input. */
  lemma {:induction false} FilterKeepsAll<T>(xs: seq<T>, keep: T -> bool)
    requires forall i :: 0 <= i < |xs| ==> keep(xs[i])
    ensures Filter(xs, keep) == xs
  {
    if xs != [] {
      FilterKeepsAll(xs[1..], keep);
    }
  }

  /** A filter that drops some element makes the list shorter. */
  lemma {:induction false} FilterShorter<T>(xs: seq<T>, keep: T -> bool, k: nat)
    requires k < |xs| && !keep(xs[k])
    ensures |Filter(xs, keep)| < |xs|
  {
    if k > 0 {
      FilterShorter(xs[1..], keep, k - 1);
    }
  }

  /** A filter that drops exactly the element at k cuts that element out. */
  lemma {:induction false} FilterDropOne<T>(xs: seq<T>, k: nat, keep: T -> bool)
    requires k < |xs| && !keep(xs[k])
    requires forall i :: 0 <= i < |xs| && i != k ==> keep(xs[i])
    ensures Filter(xs, keep) == xs[..k] + xs[k + 1..]
  {
    var tail := xs[1..];
    if k == 0 {
      assert forall i :: 0 <= i < |tail| ==> keep(tail[i]) by {
        forall i | 0 <= i < |tail| ensures keep(tail[i]) { assert tail[i] == xs[i + 1]; }
      }
      FilterKeepsAll(tail, keep);
    } else {
      assert tail[k - 1] == xs[k];
      assert forall i :: 0 <= i < |tail| && i != k - 1 ==> keep(tail[i]) by {
        forall i | 0 <= i < |tail| && i != k - 1 ensures keep(tail[i]) { assert tail[i] == xs[i + 1]; }
      }
      FilterDropOne(tail, k - 1, keep);
      assert keep(xs[0]);
      assert Filter(xs, keep) == [xs[0]] + (tail[..k - 1] + tail[k..]);
      assert [xs[0]] + tail[..k - 1] == xs[..k];
      assert tail[k..] == xs[k + 1..];
    }
  }

  /** Filtering keeps a duplicate-free list duplicate-free. */
  lemma {:induction false} FilterNoDup<T>(xs: seq<T>, keep: T -> bool)
    requires NoDup(xs)
    ensures NoDup(Filter(xs, keep))
  {
    if xs != [] {
      FilterNoDup(xs[1..], keep);
      var tail := Filter(xs[1..], keep);
      assert xs[0] !in xs[1..];
      if keep(xs[0]) {
        assert xs[0] !in tail;
        assert Filter(xs, keep) == [xs[0]] + tail;
      }
    }
  }

  /** Filtering keeps keys distinct. */
  lemma {:induction false} FilterDistinctBy<T, K>(xs: seq<T>, keep: T -> bool, key: T -> K)
    requires DistinctBy(xs, key)
    ensures DistinctBy(Filter(xs, keep), key)
  {
    if xs != [] {
      FilterDistinctBy(xs[1..], keep, key);
      var tail := Filter(xs[1..], keep);
      if keep(xs[0]) {
        var r := [xs[0]] + tail;
        assert Filter(xs, keep) == r;
        forall j | 0 < j < |r| ensures key(r[0]) != key(r[j]) {
          assert r[j] in xs[1..];
          var k :| 0 <= k < |xs| - 1 && xs[1..][k] == r[j];
          assert xs[k + 1] == r[j];
        }
      }
    }
  }

  /** Appending an element that does not occur keeps a list duplicate-free. */
  lemma AppendNoDup<T>(xs: seq<T>, x: T)
    requires NoDup(xs) && x !in xs
    ensures NoDup(xs + [x])
  {
  }

  /** The sum over a concatenation is the sum of the sums. */
  lemma {:induction false} SumConcat<T>(xs: seq<T>, ys: seq<T>, f: T -> int)
    ensures Sum(xs + ys, f) == Sum(xs, f) + Sum(ys, f)
  {
    if xs == [] {
      assert xs + ys == ys;
    } else {
      assert (xs + ys)[1..] == xs[1..] + ys;
      SumConcat(xs[1..], ys, f);
    }
  }
}
