/**
 * Sequence combinators for the source's list comprehensions and filter/map
 * chains: Python's `[x for x in xs if p(x)]`, JavaScript's `xs.filter(p)` and
 * `xs.map(f)`, and first-occurrence de-duplication.
 */
module Seqs {

  /** The order-preserving subsequence of the elements `p` accepts. */
  function Filter<T>(xs: seq<T>, p: T -> bool): (r: seq<T>)
    ensures |r| <= |xs|
    decreases |xs|
  {
    if xs == [] then []
    else Filter(xs[..|xs| - 1], p) + (if p(xs[|xs| - 1]) then [xs[|xs| - 1]] else [])
  }

  function Map<T, U>(xs: seq<T>, f: T -> U): (r: seq<U>)
    ensures |r| == |xs|
    ensures forall i :: 0 <= i < |xs| ==> r[i] == f(xs[i])
  {
    seq(|xs|, i requires 0 <= i < |xs| => f(xs[i]))
  }

  lemma MapConcat<T, U>(xs: seq<T>, ys: seq<T>, f: T -> U)
    ensures Map(xs + ys, f) == Map(xs, f) + Map(ys, f)
  {
  }

  /** The complement of a predicate. */
  function Not<T>(p: T -> bool): T -> bool {
    x => !p(x)
  }

  /** Filtering one more element: the loop step of every "append if" loop. */
  lemma FilterSnoc<T>(xs: seq<T>, x: T, p: T -> bool)
    ensures Filter(xs + [x], p) == Filter(xs, p) + (if p(x) then [x] else [])
  {
    assert (xs + [x])[..|xs|] == xs;
  }

  lemma {:induction false} FilterMember<T>(xs: seq<T>, p: T -> bool, x: T)
    ensures x in Filter(xs, p) <==> x in xs && p(x)
    decreases |xs|
  {
    if xs != [] {
      var init := xs[..|xs| - 1];
      FilterMember(init, p, x);
      assert xs == init + [xs[|xs| - 1]];
    }
  }

  /** Every element of a filtered sequence satisfies the predicate. */
  lemma FilterAllSatisfy<T>(xs: seq<T>, p: T -> bool)
    ensures forall x :: x in Filter(xs, p) ==> p(x)
  {
    forall x | x in Filter(xs, p) ensures p(x) {
      FilterMember(xs, p, x);
    }
  }

  /** Filtering keeps everything exactly when every element satisfies the predicate. */
  lemma {:induction false} FilterKeepsAll<T>(xs: seq<T>, p: T -> bool)
    ensures Filter(xs, p) == xs <==> forall i :: 0 <= i < |xs| ==> p(xs[i])
    ensures |Filter(xs, p)| == |xs| <==> forall i :: 0 <= i < |xs| ==> p(xs[i])
    decreases |xs|
  {
    if xs != [] {
      var init := xs[..|xs| - 1];
      FilterKeepsAll(init, p);
      if !p(xs[|xs| - 1]) {
        assert |Filter(xs, p)| < |xs|;
      }
    }
  }

  /** Filtering drops everything exactly when no element satisfies the predicate. */
  lemma {:induction false} FilterDropsAll<T>(xs: seq<T>, p: T -> bool)
    ensures Filter(xs, p) == [] <==> forall i :: 0 <= i < |xs| ==> !p(xs[i])
    decreases |xs|
  {
    if xs != [] {
      FilterDropsAll(xs[..|xs| - 1], p);
    }
  }

  /** The kept and the dropped elements together are the input, as a multiset. */
  lemma {:induction false} FilterPartition<T>(xs: seq<T>, p: T -> bool)
    ensures multiset(Filter(xs, p)) + multiset(Filter(xs, Not(p))) == multiset(xs)
    ensures |Filter(xs, p)| + |Filter(xs, Not(p))| == |xs|
    decreases |xs|
  {
    if xs != [] {
      var init := xs[..|xs| - 1];
      FilterPartition(init, p);
      assert xs == init + [xs[|xs| - 1]];
      assert Not(p)(xs[|xs| - 1]) == !p(xs[|xs| - 1]);
    }
  }

  /** Filtering distributes over concatenation. */
  lemma {:induction false} FilterConcat<T>(xs: seq<T>, ys: seq<T>, p: T -> bool)
    ensures Filter(xs + ys, p) == Filter(xs, p) + Filter(ys, p)
    decreases |ys|
  {
    if ys == [] {
      assert xs + ys == xs;
    } else {
      var init := ys[..|ys| - 1];
      FilterConcat(xs, init, p);
      assert (xs + ys)[..|xs + ys| - 1] == xs + init;
    }
  }

  /** Filtering by a weaker predicate first changes nothing. */
  lemma {:induction false} FilterWeakerFirst<T>(xs: seq<T>, p: T -> bool, q: T -> bool)
    requires forall x :: p(x) ==> q(x)
    ensures Filter(Filter(xs, q), p) == Filter(xs, p)
    decreases |xs|
  {
    if xs != [] {
      var init := xs[..|xs| - 1];
      var x := xs[|xs| - 1];
      FilterWeakerFirst(init, p, q);
      FilterConcat(Filter(init, q), if q(x) then [x] else [], p);
      if q(x) {
        FilterSnoc([], x, p);
      }
    }
  }

  /** Predicates that agree on the elements filter alike. */
  lemma {:induction false} FilterCongruent<T>(xs: seq<T>, p: T -> bool, q: T -> bool)
    requires forall i :: 0 <= i < |xs| ==> p(xs[i]) == q(xs[i])
    ensures Filter(xs, p) == Filter(xs, q)
    decreases |xs|
  {
    if xs != [] {
      FilterCongruent(xs[..|xs| - 1], p, q);
    }
  }

  predicate NoDup<T(==)>(xs: seq<T>) {
    forall i, j :: 0 <= i < j < |xs| ==> xs[i] != xs[j]
  }

  /** Each distinct element once, in first-occurrence order. */
  function Dedup<T(==,!new)>(xs: seq<T>): (r: seq<T>)
    ensures NoDup(r)
    ensures forall x :: x in r <==> x in xs
    ensures |r| <= |xs|
    decreases |xs|
  {
    if xs == [] then []
    else
      var d := Dedup(xs[..|xs| - 1]);
      assert forall x :: x in xs <==> x in xs[..|xs| - 1] || x == xs[|xs| - 1] by {
        assert xs == xs[..|xs| - 1] + [xs[|xs| - 1]];
      }
      if xs[|xs| - 1] in d then d else d + [xs[|xs| - 1]]
  }

  /** A prefix of a duplicate-free sequence is duplicate-free. */
  lemma NoDupPrefix<T>(xs: seq<T>, n: nat)
    requires NoDup(xs) && n <= |xs|
    ensures NoDup(xs[..n])
  {
    assert forall i :: 0 <= i < n ==> xs[..n][i] == xs[i];
  }
  // ---------------------------------------------------------------- stable sorting by a key

  /** Places `x` before the first element whose key is not smaller, as in a stable insertion sort. */
  function InsertBy<T>(x: T, ys: seq<T>, key: T -> int): (r: seq<T>)
    ensures |r| == |ys| + 1
    decreases |ys|
  {
    if ys == [] || key(x) <= key(ys[0]) then [x] + ys
    else [ys[0]] + InsertBy(x, ys[1..], key)
  }

  /**
   * JavaScript's `Array.prototype.sort` with a comparator `(a, b) => key(a) - key(b)`.
   * The built-in sort is stable, and so is this insertion sort.
   */
  function SortBy<T>(xs: seq<T>, key: T -> int): (r: seq<T>)
    ensures |r| == |xs|
    decreases |xs|
  {
    if xs == [] then [] else InsertBy(xs[0], SortBy(xs[1..], key), key)
  }

  predicate SortedBy<T>(xs: seq<T>, key: T -> int) {
    forall i, j :: 0 <= i < j < |xs| ==> key(xs[i]) <= key(xs[j])
  }

  lemma {:induction false} InsertByMultiset<T>(x: T, ys: seq<T>, key: T -> int)
    ensures multiset(InsertBy(x, ys, key)) == multiset(ys) + multiset{x}
    decreases |ys|
  {
    if ys != [] && key(x) > key(ys[0]) {
      InsertByMultiset(x, ys[1..], key);
      assert ys == [ys[0]] + ys[1..];
    }
  }

  /** Every key of the result is at least the smaller of `x`'s key and the first key of `ys`. */
  lemma {:induction false} InsertByLowerBound<T>(x: T, ys: seq<T>, key: T -> int, bound: int)
    requires SortedBy(ys, key)
    requires bound <= key(x)
    requires forall k :: 0 <= k < |ys| ==> bound <= key(ys[k])
    ensures forall k :: 0 <= k < |InsertBy(x, ys, key)| ==> bound <= key(InsertBy(x, ys, key)[k])
    decreases |ys|
  {
    if ys != [] && key(x) > key(ys[0]) {
      var rest := ys[1..];
      assert forall k :: 0 <= k < |rest| ==> rest[k] == ys[k + 1];
      InsertByLowerBound(x, rest, key, bound);
    }
  }

  lemma {:induction false} InsertBySorted<T>(x: T, ys: seq<T>, key: T -> int)
    requires SortedBy(ys, key)
    ensures SortedBy(InsertBy(x, ys, key), key)
    decreases |ys|
  {
    if ys != [] && key(x) > key(ys[0]) {
      var rest := ys[1..];
      assert forall k :: 0 <= k < |rest| ==> rest[k] == ys[k + 1];
      InsertBySorted(x, rest, key);
      InsertByLowerBound(x, rest, key, key(ys[0]));
      var tail := InsertBy(x, rest, key);
      var r := [ys[0]] + tail;
      assert forall k :: 0 < k < |r| ==> r[k] == tail[k - 1];
    }
  }

  /** Sorting orders by the key and keeps every element, with its multiplicity. */
  lemma {:induction false} SortByFacts<T>(xs: seq<T>, key: T -> int)
    ensures SortedBy(SortBy(xs, key), key)
    ensures multiset(SortBy(xs, key)) == multiset(xs)
    decreases |xs|
  {
    if xs != [] {
      SortByFacts(xs[1..], key);
      InsertBySorted(xs[0], SortBy(xs[1..], key), key);
      InsertByMultiset(xs[0], SortBy(xs[1..], key), key);
      assert xs == [xs[0]] + xs[1..];
    }
  }

  /** Sorting keeps exactly the elements it was given. */
  lemma SortByMembers<T>(xs: seq<T>, key: T -> int, x: T)
    ensures x in SortBy(xs, key) <==> x in xs
  {
    SortByFacts(xs, key);
    assert x in SortBy(xs, key) <==> x in multiset(SortBy(xs, key));
    assert x in xs <==> x in multiset(xs);
  }

  // ---------------------------------------------------------------- sorting by a name

  /** Python's `<=` on strings: lexicographic by code point, a prefix first. */
  predicate LexLe(a: string, b: string)
    decreases |a|
  {
    a == [] || (b != [] && (a[0] < b[0] || (a[0] == b[0] && LexLe(a[1..], b[1..]))))
  }

  lemma {:induction false} LexLeTotal(a: string, b: string)
    ensures LexLe(a, b) || LexLe(b, a)
    decreases |a|
  {
    if a != [] && b != [] && a[0] == b[0] {
      LexLeTotal(a[1..], b[1..]);
    }
  }

  lemma {:induction false} LexLeAntisymmetric(a: string, b: string)
    requires LexLe(a, b) && LexLe(b, a)
    ensures a == b
    decreases |a|
  {
    if a != [] {
      LexLeAntisymmetric(a[1..], b[1..]);
      assert a == [a[0]] + a[1..] && b == [b[0]] + b[1..];
    }
  }

  lemma {:induction false} LexLeTransitive(a: string, b: string, c: string)
    requires LexLe(a, b) && LexLe(b, c)
    ensures LexLe(a, c)
    decreases |a|
  {
    if a != [] && a[0] == b[0] && b[0] == c[0] {
      LexLeTransitive(a[1..], b[1..], c[1..]);
    }
  }

  /** Places `x` before the first element whose name is not smaller. */
  function InsertByName<T>(x: T, ys: seq<T>, name: T -> string): (r: seq<T>)
    ensures |r| == |ys| + 1
    decreases |ys|
  {
    if ys == [] || LexLe(name(x), name(ys[0])) then [x] + ys
    else [ys[0]] + InsertByName(x, ys[1..], name)
  }

  /** An insertion sort on the names, as Python's `sorted` on dictionary keys. */
  function SortByName<T>(xs: seq<T>, name: T -> string): (r: seq<T>)
    ensures |r| == |xs|
    decreases |xs|
  {
    if xs == [] then [] else InsertByName(xs[0], SortByName(xs[1..], name), name)
  }

  predicate SortedByName<T>(xs: seq<T>, name: T -> string) {
    forall i, j :: 0 <= i < j < |xs| ==> LexLe(name(xs[i]), name(xs[j]))
  }

  /** Sorted with no name twice: the order of a dictionary's distinct keys. */
  predicate StrictlySortedByName<T>(xs: seq<T>, name: T -> string) {
    forall i, j :: 0 <= i < j < |xs| ==> LexLe(name(xs[i]), name(xs[j])) && name(xs[i]) != name(xs[j])
  }

  lemma {:induction false} InsertByNameMultiset<T>(x: T, ys: seq<T>, name: T -> string)
    ensures multiset(InsertByName(x, ys, name)) == multiset(ys) + multiset{x}
    decreases |ys|
  {
    if ys != [] && !LexLe(name(x), name(ys[0])) {
      InsertByNameMultiset(x, ys[1..], name);
      assert ys == [ys[0]] + ys[1..];
    }
  }

  /** Every name of the result is at least `bound` when `x`'s and all of `ys`'s are. */
  lemma {:induction false} InsertByNameLowerBound<T>(x: T, ys: seq<T>, name: T -> string, bound: string)
    requires LexLe(bound, name(x))
    requires forall k :: 0 <= k < |ys| ==> LexLe(bound, name(ys[k]))
    ensures forall k :: 0 <= k < |InsertByName(x, ys, name)| ==> LexLe(bound, name(InsertByName(x, ys, name)[k]))
    decreases |ys|
  {
    if ys != [] && !LexLe(name(x), name(ys[0])) {
      var rest := ys[1..];
      assert forall k :: 0 <= k < |rest| ==> rest[k] == ys[k + 1];
      InsertByNameLowerBound(x, rest, name, bound);
    }
  }

  lemma {:induction false} InsertByNameSorted<T>(x: T, ys: seq<T>, name: T -> string)
    requires SortedByName(ys, name)
    ensures SortedByName(InsertByName(x, ys, name), name)
    decreases |ys|
  {
    if ys == [] || LexLe(name(x), name(ys[0])) {
      var r := [x] + ys;
      forall i, j | 0 <= i < j < |r| ensures LexLe(name(r[i]), name(r[j])) {
        if i == 0 {
          if j > 1 {
            LexLeTransitive(name(x), name(ys[0]), name(ys[j - 1]));
          }
        } else {
          assert r[i] == ys[i - 1] && r[j] == ys[j - 1];
        }
      }
    } else {
      var rest := ys[1..];
      assert forall k :: 0 <= k < |rest| ==> rest[k] == ys[k + 1];
      InsertByNameSorted(x, rest, name);
      LexLeTotal(name(x), name(ys[0]));
      InsertByNameLowerBound(x, rest, name, name(ys[0]));
      var tail := InsertByName(x, rest, name);
      var r := [ys[0]] + tail;
      assert forall k :: 0 < k < |r| ==> r[k] == tail[k - 1];
    }
  }

  /** Sorting orders by the name and keeps every element, with its multiplicity. */
  lemma {:induction false} SortByNameFacts<T>(xs: seq<T>, name: T -> string)
    ensures SortedByName(SortByName(xs, name), name)
    ensures multiset(SortByName(xs, name)) == multiset(xs)
    decreases |xs|
  {
    if xs != [] {
      SortByNameFacts(xs[1..], name);
      InsertByNameSorted(xs[0], SortByName(xs[1..], name), name);
      InsertByNameMultiset(xs[0], SortByName(xs[1..], name), name);
      assert xs == [xs[0]] + xs[1..];
    }
  }

  /** Two such sequences with the same elements start with the same element. */
  lemma SortedHeadsAgree<T>(xs: seq<T>, ys: seq<T>, name: T -> string)
    requires SortedByName(xs, name) && StrictlySortedByName(ys, name)
    requires multiset(xs) == multiset(ys) && xs != []
    ensures ys != [] && xs[0] == ys[0]
  {
    assert xs[0] in multiset(ys) && ys[0] in multiset(xs);
    var j :| 0 <= j < |ys| && ys[j] == xs[0];
    var i :| 0 <= i < |xs| && xs[i] == ys[0];
    if j != 0 {
      assert LexLe(name(ys[0]), name(ys[j])) && name(ys[0]) != name(ys[j]);
      if i != 0 {
        assert LexLe(name(xs[0]), name(xs[i]));
        LexLeAntisymmetric(name(ys[0]), name(ys[j]));
      }
      assert false;
    }
  }

  /** Dropping a common first element leaves the same multiset. */
  lemma TailsAgree<T>(xs: seq<T>, ys: seq<T>)
    requires xs != [] && ys != [] && xs[0] == ys[0] && multiset(xs) == multiset(ys)
    ensures multiset(xs[1..]) == multiset(ys[1..])
  {
    assert xs == [xs[0]] + xs[1..] && ys == [ys[0]] + ys[1..];
    assert multiset(xs[1..]) == multiset(xs) - multiset{xs[0]};
    assert multiset(ys[1..]) == multiset(ys) - multiset{ys[0]};
  }

  lemma SortedTail<T>(xs: seq<T>, name: T -> string)
    requires xs != [] && SortedByName(xs, name)
    ensures SortedByName(xs[1..], name)
  {
    assert forall k :: 0 <= k < |xs[1..]| ==> xs[1..][k] == xs[k + 1];
  }

  lemma StrictlySortedTail<T>(xs: seq<T>, name: T -> string)
    requires xs != [] && StrictlySortedByName(xs, name)
    ensures StrictlySortedByName(xs[1..], name)
  {
    assert forall k :: 0 <= k < |xs[1..]| ==> xs[1..][k] == xs[k + 1];
  }

  /**
   * A sorted sequence is the only one with its elements in strictly increasing
   * name order: whatever the input order, sorting distinct names gives that one.
   */
  lemma {:induction false} SortedUnique<T>(xs: seq<T>, ys: seq<T>, name: T -> string)
    requires SortedByName(xs, name) && StrictlySortedByName(ys, name)
    requires multiset(xs) == multiset(ys)
    ensures xs == ys
    decreases |xs|
  {
    if xs == [] {
      assert |ys| == |multiset(ys)| == 0;
    } else {
      SortedHeadsAgree(xs, ys, name);
      TailsAgree(xs, ys);
      SortedTail(xs, name);
      StrictlySortedTail(ys, name);
      SortedUnique(xs[1..], ys[1..], name);
      assert xs == [xs[0]] + xs[1..] && ys == [ys[0]] + ys[1..];
    }
  }

  /** Sorting a sequence already strictly in name order changes nothing. */
  lemma SortKeepsStrictlySorted<T>(xs: seq<T>, ys: seq<T>, name: T -> string)
    requires StrictlySortedByName(ys, name) && multiset(xs) == multiset(ys)
    ensures SortByName(xs, name) == ys
  {
    SortByNameFacts(xs, name);
    SortedUnique(SortByName(xs, name), ys, name);
  }
}
