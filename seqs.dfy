/**
 * The array operations the pages use on fetched rows: `filter`, `reduce` to a sum,
 * the stable `sort` by a numeric key followed by `slice`, the keyed row update the
 * data store performs, and the dictionary filled by `forEach` in the manual joins.
 */
module Seqs {
  import opened Wrappers

  // ---------------------------------------------------------------- filter

  /** `s.filter(p)`. */
  function Filter<T>(s: seq<T>, p: T -> bool): (r: seq<T>)
    ensures |r| <= |s|
    ensures forall i :: 0 <= i < |r| ==> p(r[i])
    decreases |s|
  {
    if s == [] then []
    else if p(s[0]) then [s[0]] + Filter(s[1..], p)
    else Filter(s[1..], p)
  }

  /** `a` can be obtained from `b` by deleting elements, keeping the order of the rest. */
  ghost predicate IsSubsequence<T>(a: seq<T>, b: seq<T>)
    decreases |b|
  {
    if a == [] then true
    else if b == [] then false
    else (a[0] == b[0] && IsSubsequence(a[1..], b[1..])) || IsSubsequence(a, b[1..])
  }

  lemma {:induction false} FilterIsSubsequence<T>(s: seq<T>, p: T -> bool)
    ensures IsSubsequence(Filter(s, p), s)
    decreases |s|
  {
    if s != [] {
      FilterIsSubsequence(s[1..], p);
      var r := Filter(s, p);
      if p(s[0]) {
        assert r[0] == s[0] && r[1..] == Filter(s[1..], p);
      }
    }
  }

  /** An element survives the filter exactly when it is in the input and passes. */
  lemma {:induction false} FilterMembership<T>(s: seq<T>, p: T -> bool, x: T)
    ensures x in Filter(s, p) <==> x in s && p(x)
    decreases |s|
  {
    if s != [] {
      FilterMembership(s[1..], p, x);
      assert x in s <==> x == s[0] || x in s[1..];
    }
  }

  /** The filter keeps exactly the elements of the input that pass. */
  lemma FilterMembers<T>(s: seq<T>, p: T -> bool)
    ensures forall x :: x in Filter(s, p) <==> x in s && p(x)
  {
    forall x
      ensures x in Filter(s, p) <==> x in s && p(x)
    {
      FilterMembership(s, p, x);
    }
  }

  lemma {:induction false} FilterAllPass<T>(s: seq<T>, p: T -> bool)
    requires forall i :: 0 <= i < |s| ==> p(s[i])
    ensures Filter(s, p) == s
    decreases |s|
  {
    if s != [] {
      FilterAllPass(s[1..], p);
    }
  }

  lemma {:induction false} FilterNonePass<T>(s: seq<T>, p: T -> bool)
    requires forall i :: 0 <= i < |s| ==> !p(s[i])
    ensures Filter(s, p) == []
    decreases |s|
  {
    if s != [] {
      FilterNonePass(s[1..], p);
    }
  }

  /** Filters that agree on the input give the same output. */
  lemma {:induction false} FilterExt<T>(s: seq<T>, p: T -> bool, q: T -> bool)
    requires forall i :: 0 <= i < |s| ==> p(s[i]) == q(s[i])
    ensures Filter(s, p) == Filter(s, q)
    decreases |s|
  {
    if s != [] {
      FilterExt(s[1..], p, q);
    }
  }

  /** Two successive filters are one filter by the conjunction `r`. */
  lemma {:induction false} FilterFilter<T>(s: seq<T>, p: T -> bool, q: T -> bool, r: T -> bool)
    requires forall i :: 0 <= i < |s| ==> r(s[i]) == (p(s[i]) && q(s[i]))
    ensures Filter(Filter(s, p), q) == Filter(s, r)
    decreases |s|
  {
    if s != [] {
      FilterFilter(s[1..], p, q, r);
      if p(s[0]) {
        assert Filter(s, p) == [s[0]] + Filter(s[1..], p);
        assert Filter(s, p)[1..] == Filter(s[1..], p);
      }
    }
  }

  lemma {:induction false} FilterAppend<T>(a: seq<T>, b: seq<T>, p: T -> bool)
    ensures Filter(a + b, p) == Filter(a, p) + Filter(b, p)
    decreases |a|
  {
    if a == [] {
      assert a + b == b;
    } else {
      assert (a + b)[1..] == a[1..] + b;
      FilterAppend(a[1..], b, p);
    }
  }

  /** Every row either passes a test or passes its negation `q`. */
  lemma {:induction false} FilterComplement<T>(s: seq<T>, p: T -> bool, q: T -> bool)
    requires forall i :: 0 <= i < |s| ==> q(s[i]) == !p(s[i])
    ensures |Filter(s, p)| + |Filter(s, q)| == |s|
    decreases |s|
  {
    if s != [] {
      FilterComplement(s[1..], p, q);
    }
  }

  /** A stricter test keeps no more rows. */
  lemma {:induction false} FilterMonotone<T>(s: seq<T>, p: T -> bool, q: T -> bool)
    requires forall i :: 0 <= i < |s| && p(s[i]) ==> q(s[i])
    ensures |Filter(s, p)| <= |Filter(s, q)|
    decreases |s|
  {
    if s != [] {
      FilterMonotone(s[1..], p, q);
    }
  }

  /** Counts of two tests no row passes together add up to the count of their disjunction `r`. */
  lemma {:induction false} FilterDisjoint<T>(s: seq<T>, p: T -> bool, q: T -> bool, r: T -> bool)
    requires forall i :: 0 <= i < |s| ==> !(p(s[i]) && q(s[i]))
    requires forall i :: 0 <= i < |s| ==> r(s[i]) == (p(s[i]) || q(s[i]))
    ensures |Filter(s, p)| + |Filter(s, q)| == |Filter(s, r)|
    decreases |s|
  {
    if s != [] {
      FilterDisjoint(s[1..], p, q, r);
    }
  }

  // ---------------------------------------------------------------- sums

  /** `s.reduce((sum, x) => sum + f(x), 0)`. */
  function Sum<T>(s: seq<T>, f: T -> int): int
    decreases |s|
  {
    if s == [] then 0 else f(s[0]) + Sum(s[1..], f)
  }

  lemma {:induction false} SumAppend<T>(a: seq<T>, b: seq<T>, f: T -> int)
    ensures Sum(a + b, f) == Sum(a, f) + Sum(b, f)
    decreases |a|
  {
    if a == [] {
      assert a + b == b;
    } else {
      assert (a + b)[1..] == a[1..] + b;
      SumAppend(a[1..], b, f);
    }
  }

  /** Summing the filtered rows is summing every row with a `g` that counts the rejected ones as 0. */
  lemma {:induction false} SumFilter<T>(s: seq<T>, p: T -> bool, f: T -> int, g: T -> int)
    requires forall i :: 0 <= i < |s| ==> g(s[i]) == if p(s[i]) then f(s[i]) else 0
    ensures Sum(Filter(s, p), f) == Sum(s, g)
    decreases |s|
  {
    if s != [] {
      SumFilter(s[1..], p, f, g);
    }
  }

  lemma {:induction false} SumFilterDisjoint<T>(s: seq<T>, p: T -> bool, q: T -> bool, r: T -> bool, f: T -> int)
    requires forall i :: 0 <= i < |s| ==> !(p(s[i]) && q(s[i]))
    requires forall i :: 0 <= i < |s| ==> r(s[i]) == (p(s[i]) || q(s[i]))
    ensures Sum(Filter(s, r), f) == Sum(Filter(s, p), f) + Sum(Filter(s, q), f)
    decreases |s|
  {
    if s != [] {
      SumFilterDisjoint(s[1..], p, q, r, f);
    }
  }

  lemma {:induction false} SumExt<T>(s: seq<T>, f: T -> int, g: T -> int)
    requires forall i :: 0 <= i < |s| ==> f(s[i]) == g(s[i])
    ensures Sum(s, f) == Sum(s, g)
    decreases |s|
  {
    if s != [] {
      SumExt(s[1..], f, g);
    }
  }

  // ---------------------------------------------------------------- stable sort, newest first

  predicate SortedDesc<T>(s: seq<T>, key: T -> int)
  {
    forall i, j :: 0 <= i < j < |s| ==> key(s[i]) >= key(s[j])
  }

  /** Puts `x` before the first element whose key is not larger, so that `x` precedes its ties. */
  function InsertDesc<T>(x: T, s: seq<T>, key: T -> int): (r: seq<T>)
    ensures |r| == |s| + 1
    ensures multiset(r) == multiset(s) + multiset{x}
    decreases |s|
  {
    if s == [] then [x]
    else if key(x) >= key(s[0]) then [x] + s
    else
      assert s == [s[0]] + s[1..];
      [s[0]] + InsertDesc(x, s[1..], key)
  }

  lemma {:induction false} InsertDescSorted<T>(x: T, s: seq<T>, key: T -> int)
    requires SortedDesc(s, key)
    ensures SortedDesc(InsertDesc(x, s, key), key)
    decreases |s|
  {
    if s != [] && key(x) < key(s[0]) {
      var tail := s[1..];
      assert SortedDesc(tail, key);
      InsertDescSorted(x, tail, key);
      var t := InsertDesc(x, tail, key);
      assert forall k :: 0 <= k < |tail| ==> tail[k] == s[k + 1];
      InsertDescBounded(x, tail, key, key(s[0]));
      var r := InsertDesc(x, s, key);
      assert r == [s[0]] + t;
      forall i, j | 0 <= i < j < |r| ensures key(r[i]) >= key(r[j]) {
        if i == 0 {
          assert r[j] == t[j - 1];
        } else {
          assert r[i] == t[i - 1] && r[j] == t[j - 1];
        }
      }
    }
  }

  /** Inserting keeps every key under a bound that `x` and all of `s` are under. */
  lemma {:induction false} InsertDescBounded<T>(x: T, s: seq<T>, key: T -> int, b: int)
    requires key(x) <= b
    requires forall k :: 0 <= k < |s| ==> key(s[k]) <= b
    ensures forall k :: 0 <= k < |InsertDesc(x, s, key)| ==> key(InsertDesc(x, s, key)[k]) <= b
    decreases |s|
  {
    var r := InsertDesc(x, s, key);
    if s == [] {
    } else if key(x) >= key(s[0]) {
      assert r == [x] + s;
      forall k | 0 <= k < |r| ensures key(r[k]) <= b {
        if k > 0 {
          assert r[k] == s[k - 1];
        }
      }
    } else {
      var t := InsertDesc(x, s[1..], key);
      InsertDescBounded(x, s[1..], key, b);
      assert r == [s[0]] + t;
      forall k | 0 <= k < |r| ensures key(r[k]) <= b {
        if k > 0 {
          assert r[k] == t[k - 1];
        }
      }
    }
  }

  /**
   * `s.sort((a, b) => key(b) - key(a))`: newest first, and stable, as the runtime's sort is:
   * the head goes in front of the ties that come after it.
   */
  function SortDesc<T>(s: seq<T>, key: T -> int): (r: seq<T>)
    ensures |r| == |s|
    ensures multiset(r) == multiset(s)
    ensures SortedDesc(r, key)
    decreases |s|
  {
    if s == [] then []
    else
      assert s == [s[0]] + s[1..];
      var t := SortDesc(s[1..], key);
      InsertDescSorted(s[0], t, key);
      InsertDesc(s[0], t, key)
  }

  /** The elements of `s` whose key is `t`, in their order in `s`. */
  function WithKey<T>(s: seq<T>, key: T -> int, t: int): seq<T>
    decreases |s|
  {
    if s == [] then [] else (if key(s[0]) == t then [s[0]] else []) + WithKey(s[1..], key, t)
  }

  lemma {:induction false} WithKeyAppend<T>(a: seq<T>, b: seq<T>, key: T -> int, t: int)
    ensures WithKey(a + b, key, t) == WithKey(a, key, t) + WithKey(b, key, t)
    decreases |a|
  {
    if a == [] {
      assert a + b == b;
    } else {
      var head := if key(a[0]) == t then [a[0]] else [];
      assert (a + b)[0] == a[0] && (a + b)[1..] == a[1..] + b;
      assert WithKey(a + b, key, t) == head + WithKey(a[1..] + b, key, t);
      WithKeyAppend(a[1..], b, key, t);
      assert head + (WithKey(a[1..], key, t) + WithKey(b, key, t))
          == (head + WithKey(a[1..], key, t)) + WithKey(b, key, t);
    }
  }

  lemma {:induction false} InsertDescWithKey<T>(x: T, s: seq<T>, key: T -> int, t: int)
    ensures WithKey(InsertDesc(x, s, key), key, t) ==
            (if key(x) == t then [x] else []) + WithKey(s, key, t)
    decreases |s|
  {
    var r := InsertDesc(x, s, key);
    if s == [] {
    } else if key(x) >= key(s[0]) {
      assert r[0] == x && r[1..] == s;
    } else {
      var tail := s[1..];
      var hx := if key(x) == t then [x] else [];
      var hs := if key(s[0]) == t then [s[0]] else [];
      InsertDescWithKey(x, tail, key, t);
      assert r[0] == s[0] && r[1..] == InsertDesc(x, tail, key);
      assert WithKey(r, key, t) == hs + (hx + WithKey(tail, key, t));
      assert WithKey(s, key, t) == hs + WithKey(tail, key, t);
      if key(s[0]) == t {
        assert hx == [];
      } else {
        assert hs == [];
      }
    }
  }

  /** Stability: sorting keeps the relative order of the elements that share a key. */
  lemma {:induction false} SortDescStable<T>(s: seq<T>, key: T -> int, t: int)
    ensures WithKey(SortDesc(s, key), key, t) == WithKey(s, key, t)
    decreases |s|
  {
    if s != [] {
      SortDescStable(s[1..], key, t);
      InsertDescWithKey(s[0], SortDesc(s[1..], key), key, t);
    }
  }

  lemma {:induction false} InsertDescCount<T>(x: T, s: seq<T>, key: T -> int, p: T -> bool)
    ensures |Filter(InsertDesc(x, s, key), p)| == |Filter(s, p)| + (if p(x) then 1 else 0)
    decreases |s|
  {
    if s != [] && key(x) < key(s[0]) {
      InsertDescCount(x, s[1..], key, p);
    }
  }

  /** Sorting does not change how many elements pass a test. */
  lemma {:induction false} SortDescCount<T>(s: seq<T>, key: T -> int, p: T -> bool)
    ensures |Filter(SortDesc(s, key), p)| == |Filter(s, p)|
    decreases |s|
  {
    if s != [] {
      SortDescCount(s[1..], key, p);
      InsertDescCount(s[0], SortDesc(s[1..], key), key, p);
    }
  }

  /** `s.slice(0, n)`. */
  function Take<T>(s: seq<T>, n: nat): (r: seq<T>)
    ensures |r| == if |s| < n then |s| else n
    ensures r == s[..|r|]
  {
    if |s| < n then s else s[..n]
  }

  /** Cutting a sorted sequence leaves out only elements whose keys exceed none of those kept. */
  lemma SortedTakeOmitsSmaller<T>(s: seq<T>, key: T -> int, n: nat)
    requires SortedDesc(s, key)
    ensures forall x, i :: x in multiset(s) - multiset(Take(s, n)) && 0 <= i < |Take(s, n)|
              ==> key(x) <= key(Take(s, n)[i])
  {
    var kept := Take(s, n);
    TakeLeavesSuffix(s, n);
    SortedSuffixBelow(s, key, |kept|);
    assert forall i :: 0 <= i < |kept| ==> kept[i] == s[i];
  }

  /** A cut of a sorted sequence is sorted and takes its elements from it. */
  lemma SortedTake<T>(s: seq<T>, key: T -> int, n: nat)
    requires SortedDesc(s, key)
    ensures SortedDesc(Take(s, n), key)
    ensures multiset(Take(s, n)) <= multiset(s)
  {
    var kept := Take(s, n);
    assert s == kept + s[|kept|..];
    assert multiset(s) == multiset(kept) + multiset(s[|kept|..]);
    assert forall i :: 0 <= i < |kept| ==> kept[i] == s[i];
  }

  /** What a cut leaves out is the suffix after the part kept. */
  lemma TakeLeavesSuffix<T>(s: seq<T>, n: nat)
    ensures multiset(s) - multiset(Take(s, n)) == multiset(s[|Take(s, n)|..])
  {
    var kept := Take(s, n);
    assert s == kept + s[|kept|..];
    assert multiset(s) == multiset(kept) + multiset(s[|kept|..]);
  }

  /** In a sorted sequence, nothing after position `k` has a key above one before it. */
  lemma SortedSuffixBelow<T>(s: seq<T>, key: T -> int, k: nat)
    requires SortedDesc(s, key) && k <= |s|
    ensures forall x, i :: x in multiset(s[k..]) && 0 <= i < k ==> key(x) <= key(s[i])
  {
    forall x: T, i | x in multiset(s[k..]) && 0 <= i < k
      ensures key(x) <= key(s[i])
    {
      assert x in s[k..];
      var j :| 0 <= j < |s| - k && s[k..][j] == x;
      assert s[k + j] == x;
    }
  }

  // ---------------------------------------------------------------- map

  /** `s.map(f)`. */
  function Map<T, U>(s: seq<T>, f: T -> U): (r: seq<U>)
    ensures |r| == |s|
    ensures forall i :: 0 <= i < |s| ==> r[i] == f(s[i])
  {
    seq(|s|, i requires 0 <= i < |s| => f(s[i]))
  }

  /** Mapping one more element appends its image: what a `forEach` that pushes `f(x)` builds. */
  lemma MapPush<T, U>(s: seq<T>, f: T -> U, i: nat)
    requires i < |s|
    ensures Map(s[..i + 1], f) == Map(s[..i], f) + [f(s[i])]
  {
  }

  // ---------------------------------------------------------------- keyed update

  /** What an `update(...).eq(column, key)` leaves in a table: `f` applied to every row that `hit` selects. */
  function UpdateWhere<T>(s: seq<T>, hit: T -> bool, f: T -> T): (r: seq<T>)
    ensures |r| == |s|
    ensures forall i :: 0 <= i < |s| ==> r[i] == if hit(s[i]) then f(s[i]) else s[i]
  {
    seq(|s|, i requires 0 <= i < |s| => if hit(s[i]) then f(s[i]) else s[i])
  }

  /** With exactly one selected row, the update is a replacement at that position. */
  lemma UpdateOneShape<T>(s: seq<T>, hit: T -> bool, f: T -> T, j: int)
    requires 0 <= j < |s| && hit(s[j])
    requires forall i :: 0 <= i < |s| && i != j ==> !hit(s[i])
    ensures UpdateWhere(s, hit, f) == s[..j] + [f(s[j])] + s[j + 1..]
  {
    var r := UpdateWhere(s, hit, f);
    assert r[..j] == s[..j];
    assert r[j + 1..] == s[j + 1..];
    assert r == r[..j] + [r[j]] + r[j + 1..];
  }

  /** Updating one row changes a count only by that row's old and new verdicts. */
  lemma UpdateOneCount<T>(s: seq<T>, hit: T -> bool, f: T -> T, p: T -> bool, j: int)
    requires 0 <= j < |s| && hit(s[j])
    requires forall i :: 0 <= i < |s| && i != j ==> !hit(s[i])
    ensures |Filter(UpdateWhere(s, hit, f), p)|
         == |Filter(s, p)| - (if p(s[j]) then 1 else 0) + (if p(f(s[j])) then 1 else 0)
  {
    UpdateOneShape(s, hit, f, j);
    assert s == s[..j] + [s[j]] + s[j + 1..];
    FilterAppend(s[..j] + [s[j]], s[j + 1..], p);
    FilterAppend(s[..j], [s[j]], p);
    FilterAppend(s[..j] + [f(s[j])], s[j + 1..], p);
    FilterAppend(s[..j], [f(s[j])], p);
  }

  /** Updating one row changes a sum only by that row's old and new contributions. */
  lemma UpdateOneSum<T>(s: seq<T>, hit: T -> bool, f: T -> T, g: T -> int, j: int)
    requires 0 <= j < |s| && hit(s[j])
    requires forall i :: 0 <= i < |s| && i != j ==> !hit(s[i])
    ensures Sum(UpdateWhere(s, hit, f), g) == Sum(s, g) - g(s[j]) + g(f(s[j]))
  {
    UpdateOneShape(s, hit, f, j);
    assert s == s[..j] + [s[j]] + s[j + 1..];
    SumAppend(s[..j] + [s[j]], s[j + 1..], g);
    SumAppend(s[..j], [s[j]], g);
    SumAppend(s[..j] + [f(s[j])], s[j + 1..], g);
    SumAppend(s[..j], [f(s[j])], g);
  }

  // ---------------------------------------------------------------- id -> row dictionaries

  /** The row a dictionary filled by `rows.forEach(r => m[key(r)] = r)` holds for `k`: the last one. */
  function LastWithKey<T>(s: seq<T>, key: T -> string, k: string): Option<T>
    decreases |s|
  {
    if s == [] then None
    else if key(s[|s| - 1]) == k then Some(s[|s| - 1])
    else LastWithKey(s[..|s| - 1], key, k)
  }

  /** It is nothing exactly when no row has the key, and otherwise the row at the last position with it. */
  lemma {:induction false} LastWithKeyIsLast<T>(s: seq<T>, key: T -> string, k: string)
    ensures LastWithKey(s, key, k).None? <==> forall i :: 0 <= i < |s| ==> key(s[i]) != k
    ensures LastWithKey(s, key, k).Some? ==>
              exists j :: 0 <= j < |s| && key(s[j]) == k && LastWithKey(s, key, k).value == s[j]
                          && forall i :: j < i < |s| ==> key(s[i]) != k
    decreases |s|
  {
    if s != [] && key(s[|s| - 1]) != k {
      var s' := s[..|s| - 1];
      LastWithKeyIsLast(s', key, k);
      if LastWithKey(s', key, k).Some? {
        var j :| 0 <= j < |s'| && key(s'[j]) == k && LastWithKey(s', key, k).value == s'[j]
                 && forall i :: j < i < |s'| ==> key(s'[i]) != k;
        assert key(s[j]) == k && forall i :: j < i < |s| ==> key(s[i]) != k;
      }
    }
  }

  /** The dictionary built by the `forEach` loop of the manual joins. */
  method BuildIndex<T>(s: seq<T>, key: T -> string) returns (m: map<string, T>)
    ensures forall k :: k in m ==> LastWithKey(s, key, k) == Some(m[k])
    ensures forall k :: k !in m ==> LastWithKey(s, key, k) == None
  {
    m := map[];
    var i := 0;
    while i < |s|
      invariant 0 <= i <= |s|
      invariant forall k :: k in m ==> LastWithKey(s[..i], key, k) == Some(m[k])
      invariant forall k :: k !in m ==> LastWithKey(s[..i], key, k) == None
    {
      assert s[..i + 1][..i] == s[..i];
      m := m[key(s[i]) := s[i]];
      i := i + 1;
    }
    assert s[..|s|] == s;
  }

  /** `m[k] || null` with a nullable key. */
  function Lookup<T>(m: map<string, T>, k: Option<string>): Option<T>
  {
    if k.Some? && k.value in m then Some(m[k.value]) else None
  }
  // ---------------------------------------------------------------- rows decorated by a join

  /** A count over decorated rows is the count over the rows they decorate. */
  lemma {:induction false} FilterProject<T, U>(a: seq<T>, b: seq<U>, q: T -> bool, p: U -> bool)
    requires |a| == |b| && forall i :: 0 <= i < |a| ==> q(a[i]) == p(b[i])
    ensures |Filter(a, q)| == |Filter(b, p)|
    decreases |a|
  {
    if a != [] {
      FilterProject(a[1..], b[1..], q, p);
    }
  }

  /** A sum over decorated rows is the sum over the rows they decorate. */
  lemma {:induction false} SumProject<T, U>(a: seq<T>, b: seq<U>, g: T -> int, f: U -> int)
    requires |a| == |b| && forall i :: 0 <= i < |a| ==> g(a[i]) == f(b[i])
    ensures Sum(a, g) == Sum(b, f)
    decreases |a|
  {
    if a != [] {
      SumProject(a[1..], b[1..], g, f);
    }
  }
}
