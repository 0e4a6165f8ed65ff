/** Sequence operations shared by the table model and the admin page: the store's WHERE and
    ORDER BY, and the array helpers (`filter`, index removal, swap) of the page handlers. */
module Seqs {
  import opened Wrappers

  /** The elements of `s` for which `keep` holds, in their original order. */
  function Filter<T>(s: seq<T>, keep: T -> bool): (r: seq<T>)
    ensures |r| <= |s|
    ensures forall k :: 0 <= k < |r| ==> r[k] in s && keep(r[k])
    ensures forall k :: 0 <= k < |s| && keep(s[k]) ==> s[k] in r
    ensures multiset(r) <= multiset(s)
    ensures (forall k :: 0 <= k < |s| ==> keep(s[k])) ==> r == s
    decreases |s|
  {
    if s == [] then []
    else
      assert s == [s[0]] + s[1..];
      (if keep(s[0]) then [s[0]] else []) + Filter(s[1..], keep)
  }

  /** A filter that keeps nothing of `s` selects nothing. */
  lemma {:induction false} FilterNone<T>(s: seq<T>, keep: T -> bool)
    requires forall k :: 0 <= k < |s| ==> !keep(s[k])
    ensures Filter(s, keep) == []
    decreases |s|
  {
    if s != [] {
      assert forall k :: 0 <= k < |s[1..]| ==> s[1..][k] == s[k + 1];
      FilterNone(s[1..], keep);
    }
  }

  /** Two filters that agree on every element of `s` select the same subsequence. */
  lemma {:induction false} FilterSameKeep<T>(s: seq<T>, f: T -> bool, g: T -> bool)
    requires forall x :: x in s ==> f(x) == g(x)
    ensures Filter(s, f) == Filter(s, g)
    decreases |s|
  {
    if s != [] {
      FilterSameKeep(s[1..], f, g);
    }
  }

  /** Filtering a concatenation filters each part. */
  lemma {:induction false} FilterConcat<T>(a: seq<T>, b: seq<T>, keep: T -> bool)
    ensures Filter(a + b, keep) == Filter(a, keep) + Filter(b, keep)
    decreases |a|
  {
    if a == [] {
      assert a + b == b;
    } else {
      assert (a + b)[1..] == a[1..] + b;
      FilterConcat(a[1..], b, keep);
    }
  }

  /** Filtering a sequence extended by `x` extends the filtered sequence by `x` when `x` is kept. */
  lemma FilterSnoc<T>(s: seq<T>, x: T, keep: T -> bool)
    ensures Filter(s + [x], keep) == Filter(s, keep) + (if keep(x) then [x] else [])
  {
    FilterConcat(s, [x], keep);
    assert [x][1..] == [];
    assert Filter([x], keep) == (if keep(x) then [x] else []) + Filter([], keep);
  }

  /** `key` strictly increases along `s` (row ids in insertion order). */
  predicate Increasing<T>(s: seq<T>, key: T -> int)
  {
    forall i, j :: 0 <= i < j < |s| ==> key(s[i]) < key(s[j])
  }

  /** Deleting one row keeps the ids of the remaining rows increasing. */
  lemma IncreasingRemove<T>(s: seq<T>, k: int, key: T -> int)
    requires Increasing(s, key) && 0 <= k < |s|
    ensures Increasing(s[..k] + s[k + 1..], key)
  {
    var r := s[..k] + s[k + 1..];
    forall i, j | 0 <= i < j < |r|
      ensures key(r[i]) < key(r[j])
    {
      var i' := if i < k then i else i + 1;
      var j' := if j < k then j else j + 1;
      assert r[i] == s[i'] && r[j] == s[j'];
    }
  }

  /** A filter keeps the ids of the rows it selects increasing. */
  lemma {:induction false} FilterIncreasing<T>(s: seq<T>, keep: T -> bool, key: T -> int)
    requires Increasing(s, key)
    ensures Increasing(Filter(s, keep), key)
    decreases |s|
  {
    if s != [] {
      FilterIncreasing(s[1..], keep, key);
      if keep(s[0]) {
        FilterAbove(s, keep, key);
        IncreasingCons(s[0], Filter(s[1..], keep), key);
      }
    }
  }

  /** What a filter selects after the head of an increasing sequence lies above the head. */
  lemma FilterAbove<T>(s: seq<T>, keep: T -> bool, key: T -> int)
    requires Increasing(s, key) && s != []
    ensures forall k :: 0 <= k < |Filter(s[1..], keep)| ==> key(s[0]) < key(Filter(s[1..], keep)[k])
  {
    var rest := Filter(s[1..], keep);
    forall k | 0 <= k < |rest| ensures key(s[0]) < key(rest[k]) {
      var j :| 0 <= j < |s[1..]| && s[1..][j] == rest[k];
      assert s[j + 1] == rest[k];
    }
  }

  /** Putting an element below every element of an increasing sequence in front keeps it increasing. */
  lemma IncreasingCons<T>(x: T, s: seq<T>, key: T -> int)
    requires Increasing(s, key) && forall k :: 0 <= k < |s| ==> key(x) < key(s[k])
    ensures Increasing([x] + s, key)
  {
    var r := [x] + s;
    forall i, j | 0 <= i < j < |r| ensures key(r[i]) < key(r[j]) {
      assert r[j] == s[j - 1];
      if i > 0 {
        assert r[i] == s[i - 1];
      }
    }
  }

  /** `key` does not increase along `s`: the order of `.order(key, { ascending: false })`. */
  predicate SortedDesc<T>(s: seq<T>, key: T -> int)
  {
    forall i, j :: 0 <= i < j < |s| ==> key(s[i]) >= key(s[j])
  }

  /** Inserts `x` before the first element whose key is not larger than `x`'s. */
  function Insert<T>(x: T, s: seq<T>, key: T -> int): seq<T>
    decreases |s|
  {
    if s == [] || key(s[0]) <= key(x) then [x] + s else [s[0]] + Insert(x, s[1..], key)
  }

  /** Inserting an element no larger than a bound into elements no larger than it keeps the bound. */
  lemma {:induction false} InsertBounded<T>(x: T, s: seq<T>, key: T -> int, b: int)
    requires key(x) <= b && forall i :: 0 <= i < |s| ==> key(s[i]) <= b
    ensures forall i :: 0 <= i < |Insert(x, s, key)| ==> key(Insert(x, s, key)[i]) <= b
    decreases |s|
  {
    if s != [] && key(s[0]) > key(x) {
      InsertBounded(x, s[1..], key, b);
    }
  }

  /** Inserting adds exactly `x`. */
  lemma {:induction false} InsertMultiset<T>(x: T, s: seq<T>, key: T -> int)
    ensures multiset(Insert(x, s, key)) == multiset(s) + multiset{x}
    decreases |s|
  {
    if s != [] && key(s[0]) > key(x) {
      InsertMultiset(x, s[1..], key);
      assert s == [s[0]] + s[1..];
    }
  }

  /** Inserting into a descending sequence keeps it descending. */
  lemma {:induction false} InsertSorted<T>(x: T, s: seq<T>, key: T -> int)
    requires SortedDesc(s, key)
    ensures SortedDesc(Insert(x, s, key), key)
    decreases |s|
  {
    if s != [] && key(s[0]) > key(x) {
      InsertSorted(x, s[1..], key);
      InsertBounded(x, s[1..], key, key(s[0]));
    }
  }

  /** Stable sort on `key`, largest first (newest first when `key` is a timestamp). */
  function SortDesc<T>(s: seq<T>, key: T -> int): (r: seq<T>)
    ensures SortedDesc(r, key)
    ensures multiset(r) == multiset(s)
    ensures |r| == |s|
    decreases |s|
  {
    if s == [] then []
    else
      assert s == [s[0]] + s[1..];
      var rest := SortDesc(s[1..], key);
      InsertSorted(s[0], rest, key);
      InsertMultiset(s[0], rest, key);
      var r := Insert(s[0], rest, key);
      assert |r| == |multiset(r)|;
      r
  }

  /** `s.filter((_, i) => i !== k)`: every position except `k`. */
  function WithoutIndex<T>(s: seq<T>, k: int): seq<T>
    decreases |s|
  {
    if s == [] then [] else (if k == 0 then [] else [s[0]]) + WithoutIndex(s[1..], k - 1)
  }

  /** Removing index `k` leaves the elements before and after `k` in order; an index outside
      the sequence removes nothing. */
  lemma {:induction false} WithoutIndexSlices<T>(s: seq<T>, k: int)
    ensures WithoutIndex(s, k) == if 0 <= k < |s| then s[..k] + s[k + 1..] else s
    decreases |s|
  {
    if s != [] {
      var rest := WithoutIndex(s[1..], k - 1);
      WithoutIndexSlices(s[1..], k - 1);
      if k == 0 {
        assert WithoutIndex(s, k) == rest == s[1..];
        assert s[..k] + s[k + 1..] == s[1..];
      } else if 0 < k < |s| {
        assert WithoutIndex(s, k) == [s[0]] + rest;
        assert rest == s[1..][..k - 1] + s[1..][k..];
        assert s[1..][..k - 1] == s[1..k];
        assert s[1..][k..] == s[k + 1..];
        assert [s[0]] + s[1..k] == s[..k];
      } else {
        assert WithoutIndex(s, k) == [s[0]] + rest;
        assert rest == s[1..];
        assert [s[0]] + s[1..] == s;
      }
    }
  }

  /** `[s[i], s[j]] = [s[j], s[i]]` on a copy of `s`: positions `i` and `j` trade places. */
  function Swap<T>(s: seq<T>, i: nat, j: nat): (r: seq<T>)
    requires i < |s| && j < |s|
    ensures |r| == |s| && r[i] == s[j] && r[j] == s[i]
    ensures forall k :: 0 <= k < |s| && k != i && k != j ==> r[k] == s[k]
  {
    s[i := s[j]][j := s[i]]
  }

  /** A swap is a permutation, and swapping the same two positions again restores the sequence. */
  lemma SwapPermutation<T>(s: seq<T>, i: nat, j: nat)
    requires i < |s| && j < |s|
    ensures multiset(Swap(s, i, j)) == multiset(s)
    ensures Swap(Swap(s, i, j), i, j) == s
  {
  }

  /** The store's message when a `.single()` call finds no row. */
  const ERROR_SIN_FILAS := "JSON object requested, multiple (or no) rows returned"

  /** The index of the first element for which `p` holds (the row a `.eq(...).single()` reaches). */
  function FirstIndex<T>(s: seq<T>, p: T -> bool): (r: Option<nat>)
    ensures r.Some? ==> r.value < |s| && p(s[r.value]) && forall k :: 0 <= k < r.value ==> !p(s[k])
    ensures r.None? ==> forall k :: 0 <= k < |s| ==> !p(s[k])
    decreases |s|
  {
    if s == [] then None
    else if p(s[0]) then Some(0)
    else
      match FirstIndex(s[1..], p)
      case None => assert s == [s[0]] + s[1..]; None
      case Some(k) => Some(k + 1)
  }
}
