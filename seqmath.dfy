/** Arithmetic over sequences of reals as the Python code uses it: sums and
    means (`np.mean`), `min`/`max`, `sorted`, powers, Python slicing from the
    end, and comparisons of quotients whose divisor may be zero. */
module SeqMath {

  function Sum(s: seq<real>): real
  {
    if s == [] then 0.0 else Sum(s[..|s| - 1]) + s[|s| - 1]
  }

  /** `np.mean` of a non-empty list (exact arithmetic). */
  function Mean(s: seq<real>): real
    requires |s| > 0
  {
    Sum(s) / |s| as real
  }

  lemma {:induction false} SumAppend(s: seq<real>, x: real)
    ensures Sum(s + [x]) == Sum(s) + x
  {
    assert (s + [x])[..|s + [x]| - 1] == s;
  }

  /** A sum of values in [lo, hi] lies between |s|·lo and |s|·hi. */
  lemma {:induction false} SumBounds(s: seq<real>, lo: real, hi: real)
    requires forall i :: 0 <= i < |s| ==> lo <= s[i] <= hi
    ensures |s| as real * lo <= Sum(s) <= |s| as real * hi
  {
    if s != [] {
      SumBounds(s[..|s| - 1], lo, hi);
      assert lo <= s[|s| - 1] <= hi;
    }
  }

  /** A mean of values in [lo, hi] lies in [lo, hi]. */
  lemma MeanBounds(s: seq<real>, lo: real, hi: real)
    requires |s| > 0
    requires forall i :: 0 <= i < |s| ==> lo <= s[i] <= hi
    ensures lo <= Mean(s) <= hi
  {
    SumBounds(s, lo, hi);
    QuotientBounds(lo, hi, Sum(s), |s| as real);
  }

  /** A quotient by a positive t of a value between lo·t and hi·t. */
  lemma QuotientBounds(lo: real, hi: real, s: real, t: real)
    requires t > 0.0 && lo * t <= s <= hi * t
    ensures lo <= s / t <= hi
  {
    var q := s / t;
    assert q * t == s;
    assert (q - lo) * t >= 0.0;
    assert (hi - q) * t >= 0.0;
  }

  function CountTrue(s: seq<bool>): nat
  {
    if s == [] then 0 else CountTrue(s[..|s| - 1]) + (if s[|s| - 1] then 1 else 0)
  }

  lemma {:induction false} CountTrueBound(s: seq<bool>)
    ensures CountTrue(s) <= |s|
  {
    if s != [] {
      CountTrueBound(s[..|s| - 1]);
    }
  }

  /** `min(s)` */
  function MinOf(s: seq<real>): (m: real)
    requires |s| > 0
    ensures m in s
    ensures forall i :: 0 <= i < |s| ==> m <= s[i]
  {
    if |s| == 1 then s[0]
    else
      var rest := MinOf(s[1..]);
      assert forall i :: 1 <= i < |s| ==> s[i] == s[1..][i - 1];
      if s[0] <= rest then s[0] else rest
  }

  /** `max(s)` */
  function MaxOf(s: seq<real>): (m: real)
    requires |s| > 0
    ensures m in s
    ensures forall i :: 0 <= i < |s| ==> s[i] <= m
  {
    if |s| == 1 then s[0]
    else
      var rest := MaxOf(s[1..]);
      assert forall i :: 1 <= i < |s| ==> s[i] == s[1..][i - 1];
      if s[0] >= rest then s[0] else rest
  }

  predicate SortedAsc(s: seq<real>)
  {
    forall i, j :: 0 <= i < j < |s| ==> s[i] <= s[j]
  }

  predicate SortedDesc(s: seq<real>)
  {
    forall i, j :: 0 <= i < j < |s| ==> s[i] >= s[j]
  }

  function Insert(x: real, s: seq<real>): seq<real>
  {
    if s == [] then [x]
    else if x <= s[0] then [x] + s
    else [s[0]] + Insert(x, s[1..])
  }

  /** `sorted(s)`: for real values Python's stable sort yields the unique
      ascending arrangement of the same multiset, which insertion sort also
      yields. */
  function Sort(s: seq<real>): seq<real>
  {
    if s == [] then [] else Insert(s[0], Sort(s[1..]))
  }

  lemma {:induction false} InsertMultiset(x: real, s: seq<real>)
    ensures multiset(Insert(x, s)) == multiset(s) + multiset{x}
    ensures |Insert(x, s)| == |s| + 1
  {
    if s != [] && x > s[0] {
      InsertMultiset(x, s[1..]);
      assert s == [s[0]] + s[1..];
    }
  }

  /** Inserting a value keeps every lower and upper bound the value and the
      sequence share. */
  lemma {:induction false} InsertBounds(x: real, s: seq<real>, lo: real, hi: real)
    requires lo <= x <= hi
    requires forall i :: 0 <= i < |s| ==> lo <= s[i] <= hi
    ensures forall i :: 0 <= i < |Insert(x, s)| ==> lo <= Insert(x, s)[i] <= hi
  {
    if s != [] && x > s[0] {
      InsertBounds(x, s[1..], lo, hi);
    }
  }

  lemma {:induction false} InsertSorted(x: real, s: seq<real>)
    requires SortedAsc(s)
    ensures SortedAsc(Insert(x, s))
  {
    if s != [] && x > s[0] {
      var tail := s[1..];
      InsertSorted(x, tail);
      InsertBounds(x, tail, s[0], if x <= s[|s| - 1] then s[|s| - 1] else x);
    }
  }

  /** Sorting keeps every bound of the elements. */
  lemma {:induction false} SortBounds(s: seq<real>, lo: real, hi: real)
    requires forall i :: 0 <= i < |s| ==> lo <= s[i] <= hi
    ensures forall i :: 0 <= i < |Sort(s)| ==> lo <= Sort(s)[i] <= hi
  {
    if s != [] {
      SortBounds(s[1..], lo, hi);
      InsertBounds(s[0], Sort(s[1..]), lo, hi);
    }
  }

  lemma SortProps(s: seq<real>)
    ensures SortedAsc(Sort(s))
    ensures multiset(Sort(s)) == multiset(s)
    ensures |Sort(s)| == |s|
  {
    SortSorted(s);
    SortMultiset(s);
  }

  lemma {:induction false} SortSorted(s: seq<real>)
    ensures SortedAsc(Sort(s))
  {
    if s != [] {
      SortSorted(s[1..]);
      InsertSorted(s[0], Sort(s[1..]));
    }
  }

  lemma {:induction false} SortMultiset(s: seq<real>)
    ensures multiset(Sort(s)) == multiset(s)
    ensures |Sort(s)| == |s|
  {
    if s != [] {
      SortMultiset(s[1..]);
      InsertMultiset(s[0], Sort(s[1..]));
      assert s == [s[0]] + s[1..];
    }
  }

  /** A sequence already in ascending order is its own sorted copy. */
  lemma {:induction false} SortOfSorted(s: seq<real>)
    requires SortedAsc(s)
    ensures Sort(s) == s
  {
    if s != [] {
      SortOfSorted(s[1..]);
      assert s == [s[0]] + s[1..];
    }
  }

  /** The ends of a sorted copy are the minimum and the maximum. */
  lemma SortEnds(s: seq<real>)
    requires |s| > 0
    ensures |Sort(s)| == |s|
    ensures Sort(s)[0] == MinOf(s)
    ensures Sort(s)[|s| - 1] == MaxOf(s)
  {
    SortProps(s);
    var t := Sort(s);
    var lo, hi := MinOf(s), MaxOf(s);
    SameElements(s, t, t[0]);
    SameElements(s, t, t[|t| - 1]);
    SameElements(t, s, lo);
    SameElements(t, s, hi);
    var i :| 0 <= i < |t| && t[i] == lo;
    var k :| 0 <= k < |t| && t[k] == hi;
    assert t[0] <= t[i] && t[k] <= t[|t| - 1];
  }

  /** An element of a sequence occurs in every permutation of it. */
  lemma SameElements(s: seq<real>, t: seq<real>, x: real)
    requires multiset(s) == multiset(t) && x in t
    ensures exists i :: 0 <= i < |s| && s[i] == x
  {
    assert x in multiset(t);
    assert x in s;
  }

  function Reverse<T>(s: seq<T>): (r: seq<T>)
    ensures |r| == |s|
    ensures forall i :: 0 <= i < |s| ==> r[i] == s[|s| - 1 - i]
  {
    if s == [] then [] else [s[|s| - 1]] + Reverse(s[..|s| - 1])
  }

  /** `sorted(s, reverse=True)` on reals: the descending arrangement. */
  function SortDesc(s: seq<real>): seq<real>
  {
    Reverse(Sort(s))
  }

  /** The descending copy is sorted descending, keeps the length and every
      bound of the elements, and starts at the maximum. */
  lemma SortDescProps(s: seq<real>, lo: real, hi: real)
    requires |s| > 0
    requires forall i :: 0 <= i < |s| ==> lo <= s[i] <= hi
    ensures SortedDesc(SortDesc(s)) && |SortDesc(s)| == |s|
    ensures forall i :: 0 <= i < |s| ==> lo <= SortDesc(s)[i] <= hi
    ensures SortDesc(s)[0] == MaxOf(s)
  {
    SortProps(s);
    SortEnds(s);
    SortBounds(s, lo, hi);
  }

  lemma AppendAssoc<T>(a: seq<T>, b: seq<T>, c: seq<T>)
    ensures a + (b + c) == (a + b) + c
  {
  }

  /** A slice grows by the element at its end. */
  lemma SliceGrows<T>(s: seq<T>, i: nat, j: nat)
    requires i <= j < |s|
    ensures s[i..j + 1] == s[i..j] + [s[j]]
  {
  }

  /** `s[:n]` for n >= 0 */
  function Take<T>(s: seq<T>, n: nat): (r: seq<T>)
    ensures |r| == if n < |s| then n else |s|
    ensures r == s[..|r|]
  {
    if n < |s| then s[..n] else s
  }

  function Pow(b: real, n: nat): real
  {
    if n == 0 then 1.0 else b * Pow(b, n - 1)
  }

  lemma {:induction false} PowPositive(b: real, n: nat)
    requires b > 0.0
    ensures Pow(b, n) > 0.0
  {
    if n > 0 {
      PowPositive(b, n - 1);
    }
  }

  /** `s[-w:]` with Python's slicing rules: a positive w keeps the last w
      elements (all of them when there are fewer), `s[-0:]` is the whole list,
      and a negative w drops the first -w elements. */
  function PyTail<T>(s: seq<T>, w: int): (r: seq<T>)
    ensures |r| <= |s|
    ensures r == s[|s| - |r|..]
    ensures w > 0 ==> |r| == if w < |s| then w else |s|
    ensures w == 0 ==> r == s
    ensures w < 0 ==> |r| == if -w < |s| then |s| + w else 0
  {
    if w > 0 then (if w < |s| then s[|s| - w..] else s)
    else if w == 0 then s
    else if -w < |s| then s[-w..] else []
  }

  /** `num / den < t` evaluated on IEEE doubles: with a zero divisor the
      quotient is +inf, -inf or NaN, and only -inf is below a finite t. */
  predicate QuotientBelow(num: real, den: real, t: real)
  {
    if den == 0.0 then num < 0.0 else num / den < t
  }

  lemma QuotientBelowPositive(num: real, den: real, t: real)
    requires den > 0.0
    ensures QuotientBelow(num, den, t) <==> num < t * den
  {
    if num / den < t {
      assert num == (num / den) * den;
    } else {
      assert num == (num / den) * den;
      assert (num / den) * den >= t * den;
    }
  }
}
