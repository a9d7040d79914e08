/** Quantile intervals and their flattened form: a sequence of nested
    `(lower, upper)` quantile-level pairs, and the ascending list of all their
    levels. */
module Intervals {
  import opened Common
  import opened RealSeq

  datatype QuantileInterval = QuantileInterval(lower: real, upper: real)
  {
    /** `to_list`. */
    function ToList(): seq<real>
    {
      [lower, upper]
    }
  }

  /** Every interval's two levels, interval by interval, before sorting. */
  function Flatten(qs: seq<QuantileInterval>): (r: seq<real>)
    ensures |r| == 2 * |qs|
  {
    if |qs| == 0 then [] else qs[0].ToList() + Flatten(qs[1..])
  }

  /** Interval `i` supplies positions `2 * i` and `2 * i + 1` of the flattened list. */
  lemma {:induction false} FlattenPositions(qs: seq<QuantileInterval>, i: nat)
    requires i < |qs|
    ensures Flatten(qs)[2 * i] == qs[i].lower && Flatten(qs)[2 * i + 1] == qs[i].upper
  {
    if i > 0 {
      FlattenPositions(qs[1..], i - 1);
    }
  }

  /** Position `i` of `s` paired with position `|s| - 1 - i`, for the first
      `|s| / 2` positions: outermost pair first. */
  function PairUp(s: seq<real>): seq<QuantileInterval>
  {
    seq(|s| / 2, i requires 0 <= i < |s| / 2 => QuantileInterval(s[i], s[|s| - 1 - i]))
  }

  /** The lower levels ascending followed by the upper levels descending; the
      inverse of `PairUp` on even lengths. */
  function Unpair(qs: seq<QuantileInterval>): seq<real>
  {
    seq(2 * |qs|, j requires 0 <= j < 2 * |qs| =>
      if j < |qs| then qs[j].lower else qs[2 * |qs| - 1 - j].upper)
  }

  /** The element `PairUp` leaves unpaired: the middle one of an odd length. */
  function Middle(s: seq<real>): seq<real>
  {
    if |s| % 2 == 0 then [] else [s[|s| / 2]]
  }

  /** Every interval contains every later one: outermost first, each with
      `lower <= upper`. */
  ghost predicate Nested(qs: seq<QuantileInterval>)
  {
    forall i, j :: 0 <= i <= j < |qs| ==>
      qs[i].lower <= qs[j].lower && qs[j].lower <= qs[j].upper && qs[j].upper <= qs[i].upper
  }

  // ---------------------------------------------------------------------------
  // Pairing facts

  /** Pairing an ascending list yields nested intervals, each with
      `lower <= upper`. */
  lemma PairUpNested(s: seq<real>)
    requires Sorted(s)
    ensures Nested(PairUp(s))
  {
    var qs := PairUp(s);
    forall i, j | 0 <= i <= j < |qs|
      ensures qs[i].lower <= qs[j].lower && qs[j].lower <= qs[j].upper && qs[j].upper <= qs[i].upper
    {
      assert qs[i] == QuantileInterval(s[i], s[|s| - 1 - i]);
      assert qs[j] == QuantileInterval(s[j], s[|s| - 1 - j]);
    }
  }

  /** Removing the outermost pair leaves the pairing of the inner part. */
  lemma PairUpPeel(s: seq<real>)
    requires |s| >= 2
    ensures PairUp(s) == [QuantileInterval(s[0], s[|s| - 1])] + PairUp(s[1..|s| - 1])
  {
    var inner := s[1..|s| - 1];
    var l := [QuantileInterval(s[0], s[|s| - 1])] + PairUp(inner);
    assert |l| == |PairUp(s)|;
    forall i | 0 <= i < |l| ensures l[i] == PairUp(s)[i] {
      if i > 0 {
        assert l[i] == PairUp(inner)[i - 1];
        assert inner[i - 1] == s[i] && inner[|inner| - 1 - (i - 1)] == s[|s| - 1 - i];
      }
    }
  }

  lemma FlattenCons(q: QuantileInterval, rest: seq<QuantileInterval>)
    ensures Flatten([q] + rest) == [q.lower, q.upper] + Flatten(rest)
  {
    assert ([q] + rest)[1..] == rest;
  }

  lemma {:induction false} FlattenSnoc(qs: seq<QuantileInterval>, q: QuantileInterval)
    ensures Flatten(qs + [q]) == Flatten(qs) + [q.lower, q.upper]
  {
    if |qs| > 0 {
      assert (qs + [q])[1..] == qs[1..] + [q];
      FlattenSnoc(qs[1..], q);
    }
  }

  /** Flattening the pairs gives back every element except the unpaired
      middle one of an odd length. */
  lemma {:induction false} FlattenPairUpMultiset(s: seq<real>)
    ensures multiset(Flatten(PairUp(s))) + multiset(Middle(s)) == multiset(s)
    decreases |s|
  {
    if |s| < 2 {
      assert PairUp(s) == [];
      if |s| == 1 {
        assert s == [s[0]];
      }
    } else {
      var inner := s[1..|s| - 1];
      var ends := multiset{s[0], s[|s| - 1]};
      PairUpPeel(s);
      FlattenCons(QuantileInterval(s[0], s[|s| - 1]), PairUp(inner));
      FlattenPairUpMultiset(inner);
      MiddleOfInner(s);
      EndsAndInner(s);
      MultisetRegroup(multiset(Flatten(PairUp(s))), ends, multiset(Flatten(PairUp(inner))),
                      multiset(Middle(s)), multiset(inner), multiset(s));
    }
  }

  lemma MultisetRegroup(x: multiset<real>, ends: multiset<real>, rest: multiset<real>,
                        mid: multiset<real>, inner: multiset<real>, whole: multiset<real>)
    requires x == ends + rest && rest + mid == inner && whole == ends + inner
    ensures x + mid == whole
  {
  }

  lemma MiddleOfInner(s: seq<real>)
    requires |s| >= 2
    ensures Middle(s[1..|s| - 1]) == Middle(s)
  {
  }

  lemma EndsAndInner(s: seq<real>)
    requires |s| >= 2
    ensures multiset(s) == multiset{s[0], s[|s| - 1]} + multiset(s[1..|s| - 1])
  {
    assert s == [s[0]] + s[1..|s| - 1] + [s[|s| - 1]];
  }

  lemma PairUpUnpair(qs: seq<QuantileInterval>)
    ensures PairUp(Unpair(qs)) == qs
  {
    var u := Unpair(qs);
    assert |PairUp(u)| == |qs|;
    forall i | 0 <= i < |qs| ensures PairUp(u)[i] == qs[i] {
      assert u[i] == qs[i].lower;
      assert u[|u| - 1 - i] == qs[i].upper;
    }
  }

  lemma UnpairSorted(qs: seq<QuantileInterval>)
    requires Nested(qs)
    ensures Sorted(Unpair(qs))
  {
    var u := Unpair(qs);
    var n := |qs|;
    forall a, b | 0 <= a < b < |u| ensures u[a] <= u[b] {
      if b < n {
        assert u[a] == qs[a].lower && u[b] == qs[b].lower;
      } else if a >= n {
        assert u[a] == qs[2 * n - 1 - a].upper && u[b] == qs[2 * n - 1 - b].upper;
      } else {
        var j := 2 * n - 1 - b;
        assert u[a] == qs[a].lower && u[b] == qs[j].upper;
        if a <= j {
          assert qs[a].lower <= qs[j].lower <= qs[j].upper;
        } else {
          assert qs[a].lower <= qs[a].upper <= qs[j].upper;
        }
      }
    }
  }

  // ---------------------------------------------------------------------------
  // Round trips

  /** On an ascending list of even length, flattening the pairs and sorting
      restores the list. */
  lemma RoundTripSorted(s: seq<real>)
    requires Sorted(s) && |s| % 2 == 0
    ensures Sort(Flatten(PairUp(s))) == s
  {
    FlattenPairUpMultiset(s);
    SortOfPermutation(Flatten(PairUp(s)), s);
    SortOfSorted(s);
  }

  /** `to_flattened_list(from_flattened_list(l))` is `sorted(l)` for every
      list of even length. */
  lemma ToFromFlattened(l: seq<real>)
    requires |l| % 2 == 0
    ensures Sort(Flatten(PairUp(Sort(l)))) == Sort(l)
  {
    SortFacts(l);
    RoundTripSorted(Sort(l));
  }

  /** `from_flattened_list(to_flattened_list(qs))` is `qs` exactly when `qs`
      is nested: pairing a sorted list always yields a nested sequence, and a
      nested sequence is recovered. */
  lemma FromToFlattened(qs: seq<QuantileInterval>)
    ensures PairUp(Sort(Flatten(qs))) == qs <==> Nested(qs)
  {
    SortFacts(Flatten(qs));
    if Nested(qs) {
      var u := Unpair(qs);
      PairUpUnpair(qs);
      UnpairSorted(qs);
      assert |u| % 2 == 0;
      FlattenPairUpMultiset(u);
      SortOfPermutation(Flatten(qs), u);
      SortOfSorted(u);
    } else {
      PairUpNested(Sort(Flatten(qs)));
    }
  }

  /** On an odd length the middle element of the sorted list is dropped. */
  lemma OddDropsMiddle(l: seq<real>)
    requires |l| % 2 == 1
    ensures multiset(Flatten(PairUp(Sort(l)))) == multiset(l) - multiset{Sort(l)[|l| / 2]}
  {
    SortFacts(l);
    FlattenPairUpMultiset(Sort(l));
  }

  // ---------------------------------------------------------------------------
  // The class

  /** `QuantileIntervalSequence`: an optional list of intervals (the Python
      default is `None`, and operations on it then raise). */
  class QuantileIntervalSequence {
    var intervals: Option<seq<QuantileInterval>>

    constructor (intervals: Option<seq<QuantileInterval>>)
      ensures this.intervals == intervals
    {
      this.intervals := intervals;
    }

    method Append(q: QuantileInterval) returns (e: Option<Error>)
      modifies this
      ensures old(intervals).None? ==> e == Some(MissingSequence) && intervals == old(intervals)
      ensures old(intervals).Some? ==> e == None && intervals == Some(old(intervals).value + [q])
    {
      if intervals.None? {
        return Some(MissingSequence);
      }
      intervals := Some(intervals.value + [q]);
      e := None;
    }

    method Extend(qs: seq<QuantileInterval>) returns (e: Option<Error>)
      modifies this
      ensures old(intervals).None? ==> e == Some(MissingSequence) && intervals == old(intervals)
      ensures old(intervals).Some? ==> e == None && intervals == Some(old(intervals).value + qs)
    {
      if intervals.None? {
        return Some(MissingSequence);
      }
      intervals := Some(intervals.value + qs);
      e := None;
    }

    /** `to_flattened_list`: all levels, in ascending order. */
    method ToFlattenedList() returns (r: Result<seq<real>>)
      ensures intervals.None? <==> r == Err(MissingSequence)
      ensures intervals.Some? ==> r.Ok?
      ensures r.Ok? ==> r.value == Sort(Flatten(intervals.value))
      ensures r.Ok? ==> Sorted(r.value) && multiset(r.value) == multiset(Flatten(intervals.value))
    {
      if intervals.None? {
        return Err(MissingSequence);
      }
      var qs := intervals.value;
      var flat: seq<real> := [];
      var i := 0;
      while i < |qs|
        invariant 0 <= i <= |qs|
        invariant flat == Flatten(qs[..i])
      {
        FlattenSnoc(qs[..i], qs[i]);
        assert qs[..i + 1] == qs[..i] + [qs[i]];
        flat := flat + qs[i].ToList();
        i := i + 1;
      }
      assert qs[..i] == qs;
      SortFacts(flat);
      r := Ok(Sort(flat));
    }

    /** `from_flattened_list`: sorts the caller's list in place and pairs its
        ends inwards into a new sequence of `|list| / 2` nested intervals. */
    method FromFlattenedList(list: array<real>) returns (r: QuantileIntervalSequence)
      modifies list
      ensures list[..] == Sort(old(list[..]))
      ensures fresh(r) && r.intervals == Some(PairUp(list[..]))
      ensures |r.intervals.value| == list.Length / 2 && Nested(r.intervals.value)
    {
      SortInPlace(list);
      var res := PairEnds(list);
      PairUpNested(list[..]);
      r := new QuantileIntervalSequence(Some(res));
    }
  }

  /** The loop of `from_flattened_list`: position `i` paired with position
      `n - 1 - i` for `i < n / 2`. */
  method PairEnds(a: array<real>) returns (res: seq<QuantileInterval>)
    ensures res == PairUp(a[..])
  {
    var n := a.Length;
    res := [];
    var i := 0;
    while i < n / 2
      invariant 0 <= i <= n / 2
      invariant |res| == i
      invariant forall k :: 0 <= k < i ==> res[k] == QuantileInterval(a[k], a[n - 1 - k])
    {
      res := res + [QuantileInterval(a[i], a[n - 1 - i])];
      i := i + 1;
    }
  }
}
