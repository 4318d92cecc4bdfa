/**
  Sequence operations the client applies to its lists: `Array.filter`,
  `Array.findIndex`, and the "first occurrence of each key wins"
  de-duplication that both the connection list loader and the index
  grouping perform with a `Map`, and the sequential "await each step, the
  first throw aborts" loop the driver uses to build a schema snapshot.
 */
module Seqs {
  import opened Types

  // ---------------------------------------------------------------------
  // filter

  /** `s.filter(keep)`. */
  function Filter<T(!new)>(s: seq<T>, keep: T -> bool): (r: seq<T>)
    ensures |r| <= |s|
    ensures forall x :: x in r <==> x in s && keep(x)
  {
    if s == [] then [] else (if keep(s[0]) then [s[0]] else []) + Filter(s[1..], keep)
  }

  /** Filtering distributes over concatenation: the survivors keep their relative order. */
  lemma {:induction false} FilterConcat<T(!new)>(a: seq<T>, b: seq<T>, keep: T -> bool)
    ensures Filter(a + b, keep) == Filter(a, keep) + Filter(b, keep)
  {
    if a == [] {
      assert a + b == b;
    } else {
      assert (a + b)[1..] == a[1..] + b;
      FilterConcat(a[1..], b, keep);
    }
  }

  /** A filter that rejects nothing is the identity. */
  lemma {:induction false} FilterKeepsAll<T(!new)>(s: seq<T>, keep: T -> bool)
    requires forall i :: 0 <= i < |s| ==> keep(s[i])
    ensures Filter(s, keep) == s
  {
    if s != [] {
      FilterKeepsAll(s[1..], keep);
    }
  }

  /** The first survivor of a filter is the first element the predicate keeps. */
  lemma {:induction false} FilterHead<T(!new)>(s: seq<T>, keep: T -> bool)
    ensures Filter(s, keep) == [] <==> FirstIndex(s, keep) == -1
    ensures Filter(s, keep) != [] ==> Filter(s, keep)[0] == s[FirstIndex(s, keep)]
  {
    if s != [] && !keep(s[0]) {
      FilterHead(s[1..], keep);
      assert forall j :: 1 <= j < |s| ==> s[j] == s[1..][j - 1];
    }
  }

  // ---------------------------------------------------------------------
  // findIndex

  /** `s.findIndex(p)`: the first index satisfying `p`, or -1. */
  function FirstIndex<T>(s: seq<T>, p: T -> bool): (r: int)
    ensures -1 <= r < |s|
    ensures r >= 0 ==> p(s[r]) && forall j :: 0 <= j < r ==> !p(s[j])
    ensures r == -1 <==> forall j :: 0 <= j < |s| ==> !p(s[j])
  {
    if s == [] then -1
    else if p(s[0]) then 0
    else
      var k := FirstIndex(s[1..], p);
      if k == -1 then -1 else k + 1
  }

  // ---------------------------------------------------------------------
  // first occurrence of each key wins

  predicate HasKey<T, K(==)>(s: seq<T>, key: T -> K, k: K) {
    exists i :: 0 <= i < |s| && key(s[i]) == k
  }

  predicate DistinctKeys<T, K(==)>(s: seq<T>, key: T -> K) {
    forall i, j :: 0 <= i < j < |s| ==> key(s[i]) != key(s[j])
  }

  /** The element at `i` is the first of `s` that carries its key. */
  predicate FirstOfItsKey<T, K(==)>(s: seq<T>, key: T -> K, i: int)
    requires 0 <= i < |s|
  {
    forall j :: 0 <= j < i ==> key(s[j]) != key(s[i])
  }

  /** The running fold a `Map` performs when it is filled with `if (!m.has(k)) m.set(k, x)`
      and then read back in insertion order. */
  function KeepFirstBy<T(!new), K(==,!new)>(s: seq<T>, key: T -> K): (r: seq<T>)
    ensures |r| <= |s|
    ensures DistinctKeys(r, key)
    ensures forall k :: HasKey(r, key, k) <==> HasKey(s, key, k)
    ensures forall x :: x in r ==> x in s
    decreases |s|
  {
    if s == [] then []
    else
      var init := KeepFirstBy(s[..|s| - 1], key);
      var last := s[|s| - 1];
      assert forall k :: HasKey(s, key, k) <==> HasKey(s[..|s| - 1], key, k) || key(last) == k by {
        forall k | HasKey(s, key, k) && key(last) != k
          ensures HasKey(s[..|s| - 1], key, k)
        {
          var i :| 0 <= i < |s| && key(s[i]) == k;
          assert s[..|s| - 1][i] == s[i];
        }
        forall k | HasKey(s[..|s| - 1], key, k)
          ensures HasKey(s, key, k)
        {
          var i :| 0 <= i < |s| - 1 && key(s[..|s| - 1][i]) == k;
          assert s[i] == s[..|s| - 1][i];
        }
        assert key(s[|s| - 1]) == key(last);
      }
      if HasKey(init, key, key(last)) then init
      else
        var r := init + [last];
        assert forall k :: HasKey(r, key, k) <==> HasKey(init, key, k) || key(last) == k by {
          forall k | HasKey(r, key, k) && key(last) != k
            ensures HasKey(init, key, k)
          {
            var i :| 0 <= i < |r| && key(r[i]) == k;
            assert r[i] == init[i];
          }
          forall k | HasKey(init, key, k)
            ensures HasKey(r, key, k)
          {
            var i :| 0 <= i < |init| && key(init[i]) == k;
            assert r[i] == init[i];
          }
          assert r[|r| - 1] == last;
        }
        r
  }

  /** Reference definition: the elements of `s[..n]` that are the first of their key, in order. */
  function FirstOccurrences<T, K(==)>(s: seq<T>, key: T -> K, n: nat): seq<T>
    requires n <= |s|
  {
    if n == 0 then []
    else FirstOccurrences(s, key, n - 1) + (if FirstOfItsKey(s, key, n - 1) then [s[n - 1]] else [])
  }

  /** The fold keeps exactly the first occurrence of every key, in the order of `s`. */
  lemma {:induction false} KeepFirstByIsFirstOccurrences<T(!new), K(!new)>(s: seq<T>, key: T -> K)
    ensures KeepFirstBy(s, key) == FirstOccurrences(s, key, |s|)
  {
    var n := |s|;
    if n > 0 {
      var p := s[..n - 1];
      KeepFirstByIsFirstOccurrences(p, key);
      FirstOccurrencesPrefix(s, key, n - 1);
      var last := s[n - 1];
      if HasKey(p, key, key(last)) {
        var i :| 0 <= i < |p| && key(p[i]) == key(last);
        assert s[i] == p[i];
        assert !FirstOfItsKey(s, key, n - 1);
      } else {
        forall j | 0 <= j < n - 1
          ensures key(s[j]) != key(s[n - 1])
        {
          assert s[j] == p[j];
        }
        assert FirstOfItsKey(s, key, n - 1);
      }
    }
  }

  /** The reference definition on a prefix only looks at that prefix. */
  lemma {:induction false} FirstOccurrencesPrefix<T, K>(s: seq<T>, key: T -> K, n: nat)
    requires n <= |s|
    decreases n
    ensures FirstOccurrences(s[..n], key, n) == FirstOccurrences(s, key, n)
  {
    if n > 0 {
      FirstOccurrencesPrefix(s, key, n - 1);
      var t := s[..n];
      assert t[..n - 1] == s[..n - 1];
      FirstOccurrencesPrefix(t, key, n - 1);
      assert t[n - 1] == s[n - 1];
      assert FirstOfItsKey(t, key, n - 1) == FirstOfItsKey(s, key, n - 1) by {
        assert forall j :: 0 <= j < n - 1 ==> t[j] == s[j];
      }
    }
  }

  /** De-duplicating a list whose keys are already distinct changes nothing. */
  lemma {:induction false} KeepFirstByDistinct<T(!new), K(!new)>(s: seq<T>, key: T -> K)
    requires DistinctKeys(s, key)
    ensures KeepFirstBy(s, key) == s
  {
    if s != [] {
      var p := s[..|s| - 1];
      assert DistinctKeys(p, key) by {
        forall i, j | 0 <= i < j < |p| ensures key(p[i]) != key(p[j]) {
          assert p[i] == s[i] && p[j] == s[j];
        }
      }
      KeepFirstByDistinct(p, key);
      forall i | 0 <= i < |p| ensures key(p[i]) != key(s[|s| - 1]) {
        assert p[i] == s[i];
      }
      assert p + [s[|s| - 1]] == s;
    }
  }

  // ---------------------------------------------------------------------
  // sequential steps, the first failure aborts

  /** `for (const x of xs) { ys.push(await f(x)); }` where a throw in `f` aborts the loop. */
  function Traverse<A, B, E>(xs: seq<A>, f: A -> Result<B, E>): Result<seq<B>, E>
    decreases |xs|
  {
    if xs == [] then Ok([])
    else
      match Traverse(xs[..|xs| - 1], f)
      case Err(e) => Err(e)
      case Ok(ys) =>
        match f(xs[|xs| - 1])
        case Err(e) => Err(e)
        case Ok(y) => Ok(ys + [y])
  }

  /** Traversal succeeds exactly when every step does, and then yields each step's value, in order. */
  lemma {:induction false} TraverseOk<A, B, E>(xs: seq<A>, f: A -> Result<B, E>)
    ensures Traverse(xs, f).Ok? <==> forall i :: 0 <= i < |xs| ==> f(xs[i]).Ok?
    ensures Traverse(xs, f).Ok? ==>
      |Traverse(xs, f).value| == |xs| &&
      forall i :: 0 <= i < |xs| ==> f(xs[i]) == Ok(Traverse(xs, f).value[i])
  {
    if xs != [] {
      var p := xs[..|xs| - 1];
      TraverseOk(p, f);
      assert forall i :: 0 <= i < |p| ==> p[i] == xs[i];
    }
  }

  /** A failed traversal reports the error of the first failing step. */
  lemma {:induction false} TraverseFirstError<A, B, E>(xs: seq<A>, f: A -> Result<B, E>)
    requires Traverse(xs, f).Err?
    ensures exists i :: 0 <= i < |xs| && f(xs[i]) == Err(Traverse(xs, f).error) &&
                        forall j :: 0 <= j < i ==> f(xs[j]).Ok?
  {
    var p := xs[..|xs| - 1];
    assert forall i :: 0 <= i < |p| ==> p[i] == xs[i];
    if Traverse(p, f).Err? {
      TraverseFirstError(p, f);
    } else {
      TraverseOk(p, f);
    }
  }

  /** One more step of the loop. */
  lemma TraverseStep<A, B, E>(xs: seq<A>, k: nat, f: A -> Result<B, E>)
    requires k < |xs|
    ensures Traverse(xs[..k + 1], f) ==
      match Traverse(xs[..k], f)
      case Err(e) => Err(e)
      case Ok(ys) => (match f(xs[k]) case Err(e) => Err(e) case Ok(y) => Ok(ys + [y]))
  {
    assert xs[..k + 1][..k] == xs[..k];
  }

  /** Once a prefix has failed, the whole traversal fails with the same error. */
  lemma {:induction false} TraverseErrStays<A, B, E>(xs: seq<A>, k: nat, f: A -> Result<B, E>)
    requires k <= |xs| && Traverse(xs[..k], f).Err?
    ensures Traverse(xs, f) == Traverse(xs[..k], f)
    decreases |xs| - k
  {
    if k == |xs| {
      assert xs[..k] == xs;
    } else {
      TraverseStep(xs, k, f);
      TraverseErrStays(xs, k + 1, f);
    }
  }
}
