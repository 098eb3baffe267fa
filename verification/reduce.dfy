/** Reference reductions over a sequence of unsigned samples: the sum and the
    maximum that a running accumulator starting at 0 arrives at. Both are
    folded from the FRONT of the sequence, independently of the left-to-right
    scan that the statistics pass performs, and the lemmas below connect the
    two orders. */
module Reduce {

  /** Sum of all samples. */
  function Sum(s: seq<nat>): nat
  {
    if |s| == 0 then 0 else s[0] + Sum(s[1..])
  }

  /** Largest sample, or 0 when there is none. */
  function Max(s: seq<nat>): nat
  {
    if |s| == 0 then 0
    else
      var m := Max(s[1..]);
      if s[0] > m then s[0] else m
  }

  /** Adding one sample at the end adds exactly that sample to the sum. */
  lemma {:induction false} SumSnoc(s: seq<nat>, x: nat)
    ensures Sum(s + [x]) == Sum(s) + x
  {
    if |s| == 0 {
      assert s + [x] == [x];
      assert [x][1..] == [];
    } else {
      assert (s + [x])[1..] == s[1..] + [x];
      SumSnoc(s[1..], x);
    }
  }

  /** Appending a sample changes the maximum only when the sample is strictly
      greater, and then the sample becomes the maximum. */
  lemma {:induction false} MaxSnoc(s: seq<nat>, x: nat)
    ensures Max(s + [x]) == if x > Max(s) then x else Max(s)
  {
    if |s| == 0 {
      assert s + [x] == [x];
      assert [x][1..] == [];
    } else {
      assert (s + [x])[1..] == s[1..] + [x];
      MaxSnoc(s[1..], x);
    }
  }

  /** The maximum is at least every sample. */
  lemma {:induction false} MaxIsUpperBound(s: seq<nat>)
    ensures forall i :: 0 <= i < |s| ==> s[i] <= Max(s)
  {
    if |s| > 0 {
      MaxIsUpperBound(s[1..]);
      forall i | 1 <= i < |s|
        ensures s[i] <= Max(s)
      {
        assert s[i] == s[1..][i - 1];
      }
    }
  }

  /** A non-empty sequence attains its maximum at some position. */
  lemma {:induction false} MaxIsAttained(s: seq<nat>)
    requires |s| > 0
    ensures exists i :: 0 <= i < |s| && s[i] == Max(s)
  {
    if |s| > 1 {
      MaxIsAttained(s[1..]);
      var i :| 0 <= i < |s[1..]| && s[1..][i] == Max(s[1..]);
      assert s[i + 1] == s[1..][i];
    } else {
      assert s[0] == Max(s);
    }
  }

  /** Any common bound of the samples bounds their maximum. */
  lemma {:induction false} MaxWithinBound(s: seq<nat>, bound: nat)
    requires forall i :: 0 <= i < |s| ==> s[i] <= bound
    ensures Max(s) <= bound
  {
    if |s| > 0 {
      MaxIsAttained(s);
    }
  }

  /** Any common bound of the samples, times their count, bounds their sum. */
  lemma {:induction false} SumWithinBound(s: seq<nat>, bound: nat)
    requires forall i :: 0 <= i < |s| ==> s[i] <= bound
    ensures Sum(s) <= |s| * bound
  {
    if |s| > 0 {
      forall i | 0 <= i < |s[1..]|
        ensures s[1..][i] <= bound
      {
        assert s[1..][i] == s[i + 1];
      }
      SumWithinBound(s[1..], bound);
      assert Sum(s) <= bound + (|s| - 1) * bound;
    }
  }

  /** The sum never exceeds count times maximum, so the mean never exceeds
      the maximum. */
  lemma {:induction false} SumAtMostCountTimesMax(s: seq<nat>)
    ensures Sum(s) <= |s| * Max(s)
  {
    MaxIsUpperBound(s);
    SumWithinBound(s, Max(s));
  }

  /** `m` is what a running maximum started at 0 ends with: an upper bound
      of every sample that is one of the samples, or 0 when there are none. */
  ghost predicate IsMaxOrZero(s: seq<nat>, m: nat)
  {
    && (forall i :: 0 <= i < |s| ==> s[i] <= m)
    && (|s| > 0 ==> exists i :: 0 <= i < |s| && s[i] == m)
    && (|s| == 0 ==> m == 0)
  }

  /** The front fold `Max` is exactly the value characterised by
      `IsMaxOrZero`, and no other value is. */
  lemma MaxCharacterised(s: seq<nat>, m: nat)
    ensures IsMaxOrZero(s, m) <==> m == Max(s)
  {
    MaxIsUpperBound(s);
    if |s| > 0 {
      MaxIsAttained(s);
      if IsMaxOrZero(s, m) {
        var i :| 0 <= i < |s| && s[i] == m;
        var j :| 0 <= j < |s| && s[j] == Max(s);
        assert m <= Max(s) && Max(s) <= m;
      }
    }
  }

  /** The arithmetic mean of a non-empty sequence lies between 0 and its
      maximum. */
  lemma MeanWithinMax(s: seq<nat>)
    requires |s| > 0
    ensures 0.0 <= Sum(s) as real / |s| as real <= Max(s) as real
  {
    SumAtMostCountTimesMax(s);
    QuotientAtMost(Sum(s) as real, |s| as real, Max(s) as real);
  }

  /** Dividing both sides of `x <= n * m` by a positive `n`. */
  lemma QuotientAtMost(x: real, n: real, m: real)
    requires 0.0 <= x && 0.0 < n && x <= n * m
    ensures 0.0 <= x / n <= m
  {
    assert (x / n) * n == x;
  }
}
