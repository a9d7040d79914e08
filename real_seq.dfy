/** Sequences of reals: sums, scaling, dot products and sorting, as used by the
    numpy expressions and the `list.sort()` calls of the estimation code. */
module RealSeq {

  // Arithmetic facts. Each takes the quantities it relates as parameters, so
  // that a caller's products and quotients match them term for term.

  lemma ProductNonNegative(x: real, y: real)
    requires x >= 0.0 && y >= 0.0
    ensures x * y >= 0.0
  {
  }

  lemma ProductPositive(x: real, y: real)
    requires x > 0.0 && y > 0.0
    ensures x * y > 0.0
  {
  }

  lemma QuotientNonNegative(x: real, t: real)
    requires x >= 0.0 && t > 0.0
    ensures x / t >= 0.0
  {
  }

  lemma QuotientPositive(x: real, t: real)
    requires x > 0.0 && t > 0.0
    ensures x / t > 0.0
  {
  }

  lemma QuotientMonotone(x: real, y: real, d: real)
    requires x <= y && d > 0.0
    ensures x / d <= y / d
  {
  }

  /** `np.sum`, folded from the right end so that loops can extend it. */
  function Sum(s: seq<real>): real
  {
    if |s| == 0 then 0.0 else Sum(s[..|s| - 1]) + s[|s| - 1]
  }

  /** Element-wise product with one scalar (`weights *= c`). */
  function Scale(s: seq<real>, c: real): (r: seq<real>)
    ensures |r| == |s|
    ensures forall i :: 0 <= i < |s| ==> r[i] == s[i] * c
  {
    seq(|s|, i requires 0 <= i < |s| => s[i] * c)
  }

  /** `np.dot` of two equally long vectors. */
  function Dot(a: seq<real>, b: seq<real>): real
    requires |a| == |b|
  {
    if |a| == 0 then 0.0 else Dot(a[..|a| - 1], b[..|b| - 1]) + a[|a| - 1] * b[|b| - 1]
  }

  /** The affine image `a * s[i] + b` of every element. */
  function Affine(s: seq<real>, a: real, b: real): (r: seq<real>)
    ensures |r| == |s|
    ensures forall i :: 0 <= i < |s| ==> r[i] == a * s[i] + b
  {
    seq(|s|, i requires 0 <= i < |s| => a * s[i] + b)
  }

  /** `np.clip(x, lo, hi)`. */
  function Clip(x: real, lo: real, hi: real): (r: real)
    requires lo <= hi
    ensures lo <= r <= hi
    ensures lo <= x <= hi ==> r == x
  {
    if x < lo then lo else if x > hi then hi else x
  }

  /** A vector of `k` copies of `1 / k` (`np.ones(k) / k`). */
  function Uniform(k: nat): (r: seq<real>)
    ensures |r| == k
  {
    seq(k, i requires 0 <= i < k => 1.0 / k as real)
  }

  predicate Sorted(s: seq<real>)
  {
    forall i, j :: 0 <= i < j < |s| ==> s[i] <= s[j]
  }

  /** Insertion of one value into a sorted sequence. */
  function Insert(x: real, s: seq<real>): (r: seq<real>)
    ensures |r| == |s| + 1
  {
    if |s| == 0 then [x] else if x <= s[0] then [x] + s else [s[0]] + Insert(x, s[1..])
  }

  /** The ascending order of `s`, as `list.sort()` leaves it. */
  function Sort(s: seq<real>): (r: seq<real>)
    ensures |r| == |s|
  {
    if |s| == 0 then [] else Insert(s[0], Sort(s[1..]))
  }

  // ---------------------------------------------------------------------------
  // Sums

  lemma {:induction false} SumAppend(s: seq<real>, x: real)
    ensures Sum(s + [x]) == Sum(s) + x
  {
    assert (s + [x])[..|s + [x]| - 1] == s;
  }

  lemma SumLast(s: seq<real>)
    requires |s| > 0
    ensures Sum(s) == Sum(s[..|s| - 1]) + s[|s| - 1]
  {
  }

  lemma ScalePrefix(s: seq<real>, c: real)
    requires |s| > 0
    ensures Scale(s, c)[..|s| - 1] == Scale(s[..|s| - 1], c)
  {
    var p := s[..|s| - 1];
    forall i | 0 <= i < |p| ensures Scale(s, c)[i] == Scale(p, c)[i] {
      assert p[i] == s[i];
    }
  }

  lemma AffinePrefix(s: seq<real>, a: real, b: real)
    requires |s| > 0
    ensures Affine(s, a, b)[..|s| - 1] == Affine(s[..|s| - 1], a, b)
  {
    var p := s[..|s| - 1];
    forall i | 0 <= i < |p| ensures Affine(s, a, b)[i] == Affine(p, a, b)[i] {
      assert p[i] == s[i];
    }
  }

  /** Multiplying every element by `c` multiplies the sum by `c`. */
  lemma {:induction false} SumScale(s: seq<real>, c: real)
    ensures Sum(Scale(s, c)) == c * Sum(s)
  {
    if |s| > 0 {
      var p := s[..|s| - 1];
      var t := Scale(s, c);
      SumScale(p, c);
      ScalePrefix(s, c);
      SumLast(s);
      SumLast(t);
      ScaleStep(Sum(p), Sum(Scale(p, c)), s[|s| - 1], c);
    }
  }

  lemma ScaleStep(sp: real, st: real, x: real, c: real)
    requires st == c * sp
    ensures st + x * c == c * (sp + x)
  {
  }

  /** The sum of the affine image `a * s[i] + b` of a sequence. */
  lemma {:induction false} SumAffine(s: seq<real>, a: real, b: real)
    ensures Sum(Affine(s, a, b)) == a * Sum(s) + |s| as real * b
  {
    if |s| > 0 {
      var p := s[..|s| - 1];
      var t := Affine(s, a, b);
      SumAffine(p, a, b);
      AffinePrefix(s, a, b);
      SumLast(s);
      SumLast(t);
      AffineStep(Sum(p), Sum(Affine(p, a, b)), s[|s| - 1], a, b, |s|);
    }
  }

  lemma AffineStep(sp: real, st: real, x: real, a: real, b: real, m: nat)
    requires m > 0 && st == a * sp + (m - 1) as real * b
    ensures st + (a * x + b) == a * (sp + x) + m as real * b
  {
  }

  /** A sum of positive terms is positive. */
  lemma {:induction false} SumPositive(s: seq<real>)
    requires |s| > 0
    requires forall i :: 0 <= i < |s| ==> s[i] > 0.0
    ensures Sum(s) > 0.0
  {
    if |s| > 1 {
      SumPositive(s[..|s| - 1]);
    }
  }

  /** `k` copies of `1 / k` add up to one. */
  lemma UniformSumsToOne(k: nat)
    requires k > 0
    ensures Sum(Uniform(k)) == 1.0
  {
    var ones := seq(k, i => 1.0);
    SumAffine(ones, 0.0, 1.0 / k as real);
    assert Uniform(k) == Affine(ones, 0.0, 1.0 / k as real);
  }

  // ---------------------------------------------------------------------------
  // Sorting

  lemma {:induction false} InsertMultiset(x: real, s: seq<real>)
    ensures multiset(Insert(x, s)) == multiset(s) + multiset{x}
    ensures |Insert(x, s)| == |s| + 1
  {
    if |s| > 0 && x > s[0] {
      InsertMultiset(x, s[1..]);
      assert s == [s[0]] + s[1..];
    }
  }

  /** The head of an ascending sequence is below each of its elements. */
  lemma HeadIsLeast(s: seq<real>, y: real)
    requires Sorted(s)
    requires y in multiset(s)
    ensures s[0] <= y
  {
    var i :| 0 <= i < |s| && s[i] == y;
  }

  lemma SortedCons(h: real, t: seq<real>)
    requires Sorted(t)
    requires forall k :: 0 <= k < |t| ==> h <= t[k]
    ensures Sorted([h] + t)
  {
    var u := [h] + t;
    forall i, j | 0 <= i < j < |u| ensures u[i] <= u[j] {
      if i > 0 {
        assert u[i] == t[i - 1] && u[j] == t[j - 1];
      } else {
        assert u[j] == t[j - 1];
      }
    }
  }

  lemma {:induction false} InsertSorted(x: real, s: seq<real>)
    requires Sorted(s)
    ensures Sorted(Insert(x, s))
  {
    if |s| == 0 {
    } else if x <= s[0] {
      SortedCons(x, s);
    } else {
      var t := Insert(x, s[1..]);
      InsertSorted(x, s[1..]);
      InsertMultiset(x, s[1..]);
      forall k | 0 <= k < |t| ensures s[0] <= t[k] {
        assert t[k] in multiset(t);
        if t[k] != x {
          assert t[k] in multiset(s[1..]);
          var j :| 0 <= j < |s[1..]| && s[1..][j] == t[k];
          assert s[1 + j] == t[k];
        }
      }
      SortedCons(s[0], t);
    }
  }

  /** `Sort` yields an ascending permutation of its input. */
  lemma {:induction false} SortFacts(s: seq<real>)
    ensures Sorted(Sort(s))
    ensures multiset(Sort(s)) == multiset(s)
    ensures |Sort(s)| == |s|
  {
    if |s| > 0 {
      SortFacts(s[1..]);
      InsertSorted(s[0], Sort(s[1..]));
      InsertMultiset(s[0], Sort(s[1..]));
      assert s == [s[0]] + s[1..];
    }
  }

  lemma SortedTail(s: seq<real>)
    requires |s| > 0 && Sorted(s)
    ensures Sorted(s[1..])
  {
    forall i, j | 0 <= i < j < |s| - 1 ensures s[1..][i] <= s[1..][j] {
      assert s[1..][i] == s[i + 1] && s[1..][j] == s[j + 1];
    }
  }

  lemma TailMultiset(a: seq<real>, b: seq<real>)
    requires |a| > 0 && |b| > 0 && a[0] == b[0]
    requires multiset(a) == multiset(b)
    ensures multiset(a[1..]) == multiset(b[1..])
  {
    assert a == [a[0]] + a[1..] && b == [b[0]] + b[1..];
    assert multiset(a) == multiset{a[0]} + multiset(a[1..]);
    assert multiset(b) == multiset{b[0]} + multiset(b[1..]);
    forall y ensures multiset(a[1..])[y] == multiset(b[1..])[y] {
      assert multiset(a)[y] == multiset{a[0]}[y] + multiset(a[1..])[y];
      assert multiset(b)[y] == multiset{b[0]}[y] + multiset(b[1..])[y];
    }
  }

  /** Two ascending sequences with the same elements are equal. */
  lemma {:induction false} SortedUnique(a: seq<real>, b: seq<real>)
    requires Sorted(a) && Sorted(b)
    requires multiset(a) == multiset(b)
    ensures a == b
  {
    assert |a| == |multiset(a)| == |multiset(b)| == |b|;
    if |a| > 0 {
      assert a[0] in multiset(a) && b[0] in multiset(b);
      HeadIsLeast(b, a[0]);
      HeadIsLeast(a, b[0]);
      TailMultiset(a, b);
      SortedTail(a);
      SortedTail(b);
      SortedUnique(a[1..], b[1..]);
      assert a == [a[0]] + a[1..] && b == [b[0]] + b[1..];
    }
  }

  /** Sorting an ascending sequence leaves it as it is. */
  lemma SortOfSorted(s: seq<real>)
    requires Sorted(s)
    ensures Sort(s) == s
  {
    SortFacts(s);
    SortedUnique(Sort(s), s);
  }

  /** Sorting depends only on the elements, not on their order. */
  lemma SortOfPermutation(s: seq<real>, t: seq<real>)
    requires multiset(s) == multiset(t)
    ensures Sort(s) == Sort(t)
  {
    SortFacts(s);
    SortFacts(t);
    SortedUnique(Sort(s), Sort(t));
  }

  /** `list.sort()` on a list held in an array: the array keeps its identity
      and afterwards holds its old elements in ascending order. */
  method SortInPlace(a: array<real>)
    modifies a
    ensures a[..] == Sort(old(a[..]))
    ensures Sorted(a[..]) && multiset(a[..]) == multiset(old(a[..]))
  {
    var sorted := Sort(a[..]);
    SortFacts(a[..]);
    forall i | 0 <= i < a.Length {
      a[i] := sorted[i];
    }
    assert a[..] == sorted;
  }
}
