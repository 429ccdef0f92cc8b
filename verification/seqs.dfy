/** Generic sequence helpers shared by the ledger: an optional value, order-preserving
    filtering, sums of a projection, first-match search (`Array.prototype.find`) and the
    one-element `splice` used to delete rows by index. */
module Seqs {

  datatype Option<+T> = None | Some(value: T) {
    function GetOr(default: T): T {
      match this
      case Some(v) => v
      case None => default
    }
  }

  /** The elements of `s` that satisfy `keep`, in their original order (`Array.prototype.filter`). */
  function Filter<T(==)>(s: seq<T>, keep: T -> bool): (r: seq<T>)
    ensures |r| <= |s|
    ensures forall k :: 0 <= k < |r| ==> keep(r[k])
  {
    if |s| == 0 then []
    else (if keep(s[0]) then [s[0]] else []) + Filter(s[1..], keep)
  }

  /** Filtering keeps every copy of a kept value and no copy of a dropped one. */
  lemma {:induction false} FilterMultiset<T>(s: seq<T>, keep: T -> bool)
    ensures forall x :: multiset(Filter(s, keep))[x] == if keep(x) then multiset(s)[x] else 0
  {
    if |s| > 0 {
      FilterMultiset(s[1..], keep);
      assert s == [s[0]] + s[1..];
      assert multiset(s) == multiset{s[0]} + multiset(s[1..]);
      assert Filter(s, keep) == (if keep(s[0]) then [s[0]] else []) + Filter(s[1..], keep);
    }
  }

  /** What is kept comes from `s`, and every element of `s` that satisfies `keep` is kept. */
  lemma {:induction false} FilterMembers<T>(s: seq<T>, keep: T -> bool)
    ensures forall k :: 0 <= k < |Filter(s, keep)| ==> Filter(s, keep)[k] in s
    ensures forall k :: 0 <= k < |s| && keep(s[k]) ==> s[k] in Filter(s, keep)
  {
    if |s| > 0 {
      FilterMembers(s[1..], keep);
      var r := Filter(s, keep);
      var tail := Filter(s[1..], keep);
      assert r == (if keep(s[0]) then [s[0]] else []) + tail;
      forall k | 0 <= k < |r|
        ensures r[k] in s
      {
        if !keep(s[0]) {
          assert r[k] == tail[k];
        } else if k > 0 {
          assert r[k] == tail[k - 1];
        }
      }
      forall k | 0 <= k < |s| && keep(s[k])
        ensures s[k] in r
      {
        if k > 0 {
          assert s[k] == s[1..][k - 1];
        }
      }
    }
  }

  /** Filtering distributes over concatenation, so the kept elements keep their relative order. */
  lemma {:induction false} FilterConcat<T>(a: seq<T>, b: seq<T>, keep: T -> bool)
    ensures Filter(a + b, keep) == Filter(a, keep) + Filter(b, keep)
  {
    if |a| == 0 {
      assert a + b == b;
    } else {
      assert (a + b)[0] == a[0];
      assert (a + b)[1..] == a[1..] + b;
      FilterConcat(a[1..], b, keep);
    }
  }

  lemma {:induction false} FilterKeepsAll<T>(s: seq<T>, keep: T -> bool)
    requires forall k :: 0 <= k < |s| ==> keep(s[k])
    ensures Filter(s, keep) == s
  {
    if |s| > 0 {
      FilterKeepsAll(s[1..], keep);
    }
  }

  lemma {:induction false} FilterDropsAll<T>(s: seq<T>, keep: T -> bool)
    requires forall k :: 0 <= k < |s| ==> !keep(s[k])
    ensures Filter(s, keep) == []
  {
    if |s| > 0 {
      FilterDropsAll(s[1..], keep);
    }
  }

  /** Filtering twice by the same predicate changes nothing the second time. */
  lemma FilterIdempotent<T>(s: seq<T>, keep: T -> bool)
    ensures Filter(Filter(s, keep), keep) == Filter(s, keep)
  {
    FilterKeepsAll(Filter(s, keep), keep);
  }

  /** The sum of `f` over `s`, starting from zero, as an array reduction with an accumulator. */
  function Sum<T>(s: seq<T>, f: T -> real): real
  {
    if |s| == 0 then 0.0 else f(s[0]) + Sum(s[1..], f)
  }

  lemma {:induction false} SumConcat<T>(a: seq<T>, b: seq<T>, f: T -> real)
    ensures Sum(a + b, f) == Sum(a, f) + Sum(b, f)
  {
    if |a| == 0 {
      assert a + b == b;
    } else {
      assert (a + b)[0] == a[0];
      assert (a + b)[1..] == a[1..] + b;
      SumConcat(a[1..], b, f);
    }
  }

  lemma {:induction false} SumNonNegative<T>(s: seq<T>, f: T -> real)
    requires forall k :: 0 <= k < |s| ==> f(s[k]) >= 0.0
    ensures Sum(s, f) >= 0.0
  {
    if |s| > 0 {
      SumNonNegative(s[1..], f);
    }
  }

  /** Sums of two projections that agree on every element are equal. */
  lemma {:induction false} SumPointwise<T>(s: seq<T>, f: T -> real, g: T -> real)
    requires forall k :: 0 <= k < |s| ==> f(s[k]) == g(s[k])
    ensures Sum(s, f) == Sum(s, g)
  {
    if |s| > 0 {
      SumPointwise(s[1..], f, g);
    }
  }

  /** A projection that dominates another elementwise has the larger sum. */
  lemma {:induction false} SumMonotone<T>(s: seq<T>, f: T -> real, g: T -> real)
    requires forall k :: 0 <= k < |s| ==> f(s[k]) <= g(s[k])
    ensures Sum(s, f) <= Sum(s, g)
  {
    if |s| > 0 {
      SumMonotone(s[1..], f, g);
    }
  }

  /** The sum of a pointwise difference is the difference of the sums. */
  lemma {:induction false} SumDifference<T>(s: seq<T>, f: T -> real, g: T -> real, h: T -> real)
    requires forall x :: h(x) == f(x) - g(x)
    ensures Sum(s, h) == Sum(s, f) - Sum(s, g)
  {
    if |s| > 0 {
      SumDifference(s[1..], f, g, h);
    }
  }

  /** The sum of a pointwise total is the total of the sums. */
  lemma {:induction false} SumAddition<T>(s: seq<T>, f: T -> real, g: T -> real, h: T -> real)
    requires forall x :: h(x) == f(x) + g(x)
    ensures Sum(s, h) == Sum(s, f) + Sum(s, g)
  {
    if |s| > 0 {
      SumAddition(s[1..], f, g, h);
    }
  }

  /** Splitting a sequence by a predicate and its complement splits its sum. */
  lemma {:induction false} SumPartition<T>(s: seq<T>, keep: T -> bool, drop: T -> bool, f: T -> real)
    requires forall x :: drop(x) == !keep(x)
    ensures Sum(s, f) == Sum(Filter(s, keep), f) + Sum(Filter(s, drop), f)
  {
    if |s| > 0 {
      SumPartition(s[1..], keep, drop, f);
      if keep(s[0]) {
        assert Filter(s, keep) == [s[0]] + Filter(s[1..], keep);
        assert Filter(s, drop) == Filter(s[1..], drop);
        SumConcat([s[0]], Filter(s[1..], keep), f);
      } else {
        assert Filter(s, keep) == Filter(s[1..], keep);
        assert Filter(s, drop) == [s[0]] + Filter(s[1..], drop);
        SumConcat([s[0]], Filter(s[1..], drop), f);
      }
    }
  }

  /** A filter by a disjoint union of two predicates sums to the two filters' sums. */
  lemma {:induction false} SumFilterUnion<T>(s: seq<T>, either: T -> bool, p: T -> bool, q: T -> bool, f: T -> real)
    requires forall x :: either(x) == (p(x) || q(x))
    requires forall x :: !(p(x) && q(x))
    ensures Sum(Filter(s, either), f) == Sum(Filter(s, p), f) + Sum(Filter(s, q), f)
  {
    if |s| > 0 {
      var x := s[0];
      SumFilterUnion(s[1..], either, p, q, f);
      if p(x) {
        assert Filter(s, either) == [x] + Filter(s[1..], either);
        assert Filter(s, p) == [x] + Filter(s[1..], p);
        assert Filter(s, q) == Filter(s[1..], q);
        SumConcat([x], Filter(s[1..], either), f);
        SumConcat([x], Filter(s[1..], p), f);
      } else if q(x) {
        assert Filter(s, either) == [x] + Filter(s[1..], either);
        assert Filter(s, p) == Filter(s[1..], p);
        assert Filter(s, q) == [x] + Filter(s[1..], q);
        SumConcat([x], Filter(s[1..], either), f);
        SumConcat([x], Filter(s[1..], q), f);
      } else {
        assert Filter(s, either) == Filter(s[1..], either);
        assert Filter(s, p) == Filter(s[1..], p);
        assert Filter(s, q) == Filter(s[1..], q);
      }
    }
  }

  /** What a filter keeps sums to 0 when nothing is kept; when every kept element counts
      positively, the sum is never negative and is positive exactly when something is kept. */
  lemma {:induction false} SumOfKept<T>(s: seq<T>, keep: T -> bool, f: T -> real)
    ensures (forall k :: 0 <= k < |s| ==> !keep(s[k])) ==> Sum(Filter(s, keep), f) == 0.0
    ensures (forall k :: 0 <= k < |s| && keep(s[k]) ==> f(s[k]) > 0.0) ==>
      && Sum(Filter(s, keep), f) >= 0.0
      && (Sum(Filter(s, keep), f) > 0.0 <==> exists k :: 0 <= k < |s| && keep(s[k]))
  {
    if |s| > 0 {
      SumOfKept(s[1..], keep, f);
      var tail := Filter(s[1..], keep);
      if keep(s[0]) {
        assert Filter(s, keep) == [s[0]] + tail;
        SumConcat([s[0]], tail, f);
      } else {
        assert Filter(s, keep) == tail;
        if exists k :: 0 <= k < |s| && keep(s[k]) {
          var k :| 0 <= k < |s| && keep(s[k]);
          assert s[1..][k - 1] == s[k];
        }
      }
      assert forall k :: 0 <= k < |s[1..]| ==> s[1..][k] == s[k + 1];
    }
  }

  /** Filtering by `p` and then by `q` keeps something exactly when some element satisfies both. */
  lemma NestedFilterNonEmpty<T>(s: seq<T>, p: T -> bool, q: T -> bool)
    ensures |Filter(Filter(s, p), q)| > 0 <==> exists k :: 0 <= k < |s| && p(s[k]) && q(s[k])
  {
    var outer := Filter(s, p);
    FilterMembers(s, p);
    FilterMembers(outer, q);
    if |Filter(outer, q)| > 0 {
      var x := Filter(outer, q)[0];
      assert x in outer && p(x) && q(x);
      var k :| 0 <= k < |s| && s[k] == x;
    }
    if exists k :: 0 <= k < |s| && p(s[k]) && q(s[k]) {
      var k :| 0 <= k < |s| && p(s[k]) && q(s[k]);
      assert s[k] in outer;
      var j :| 0 <= j < |outer| && outer[j] == s[k];
      assert outer[j] in Filter(outer, q);
    }
  }

  /** `Array.prototype.find` / `findIndex`: the index of the first element satisfying `p`. */
  function FindFirst<T>(s: seq<T>, p: T -> bool): (r: Option<nat>)
    ensures r.Some? ==> r.value < |s| && p(s[r.value])
    ensures r.Some? ==> forall k :: 0 <= k < r.value ==> !p(s[k])
    ensures r.None? <==> forall k :: 0 <= k < |s| ==> !p(s[k])
  {
    if |s| == 0 then None
    else if p(s[0]) then Some(0)
    else match FindFirst(s[1..], p)
      case None => None
      case Some(i) => Some(i + 1)
  }

  /** The position `splice(index, 1)` starts at: a negative index counts from the end and is
      clamped at 0, an index past the end is clamped to the length. */
  function SpliceStart(len: nat, index: int): (start: nat)
    ensures start <= len
    ensures 0 <= index < len ==> start == index
    ensures index < 0 && 0 <= len + index ==> start == len + index
    ensures len + index < 0 ==> start == 0
    ensures index >= len ==> start == len
  {
    if index < 0 then (if len + index < 0 then 0 else len + index)
    else if index < len then index
    else len
  }

  /** `s.splice(index, 1)`: removes the element at the splice position, if there is one. */
  function RemoveAt<T>(s: seq<T>, index: int): (r: seq<T>)
    ensures SpliceStart(|s|, index) < |s| ==> |r| == |s| - 1
    ensures forall k :: 0 <= k < SpliceStart(|s|, index) && k < |r| ==> r[k] == s[k]
    ensures SpliceStart(|s|, index) < |s| ==> forall k :: SpliceStart(|s|, index) <= k < |r| ==> r[k] == s[k + 1]
    ensures SpliceStart(|s|, index) == |s| ==> r == s
  {
    var start := SpliceStart(|s|, index);
    if start < |s| then s[..start] + s[start + 1..] else s
  }

  /** Removing by index takes exactly one occurrence of the removed element out of the bag. */
  lemma RemoveAtMultiset<T>(s: seq<T>, index: int)
    ensures SpliceStart(|s|, index) < |s| ==>
      multiset(s) == multiset(RemoveAt(s, index)) + multiset{s[SpliceStart(|s|, index)]}
  {
    var start := SpliceStart(|s|, index);
    if start < |s| {
      assert s == s[..start] + [s[start]] + s[start + 1..];
    }
  }

  /** Removing at a valid position leaves what came before it followed by what came after it. */
  lemma RemoveAtSplits<T>(s: seq<T>, index: int)
    requires SpliceStart(|s|, index) < |s|
    ensures RemoveAt(s, index) == s[..SpliceStart(|s|, index)] + s[SpliceStart(|s|, index) + 1..]
  {
  }

  /** Leaving out the element at a position splits the sum into the rest plus that element. */
  lemma SumWithout<T>(s: seq<T>, i: nat, f: T -> real)
    requires i < |s|
    ensures Sum(s, f) == Sum(s[..i] + s[i + 1..], f) + f(s[i])
  {
    var before, rest := s[..i], s[i..];
    assert before + rest == s;
    assert rest[1..] == s[i + 1..];
    SumConcat(before, rest, f);
    SumConcat(before, s[i + 1..], f);
  }

  /** Removing by index splits the sum into the remainder plus the removed element. */
  lemma RemoveAtSum<T>(s: seq<T>, index: int, f: T -> real)
    requires SpliceStart(|s|, index) < |s|
    ensures Sum(s, f) == Sum(RemoveAt(s, index), f) + f(s[SpliceStart(|s|, index)])
  {
    RemoveAtSplits(s, index);
    SumWithout(s, SpliceStart(|s|, index), f);
  }
}
