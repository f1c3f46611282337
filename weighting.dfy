/** Motion records and the weighted-time arithmetic that every automation-rate
    calculator of the repository shares: per-motion weighted time, the masked
    sums of automated and manual weighted time, and the guarded percentage. */
module Weighting {

  /** One measured step of a process. Only `auto`, `time` (seconds) and
      `weight` enter any calculation; the other fields are free text. */
  datatype Motion = Motion(
    motion: string,
    auto: bool,
    time: real,
    weight: real,
    deviceId: string,
    operator: string,
    remarks: string)

  /** The `weighted_time` column: duration times weight. */
  function WeightedTime(m: Motion): real
  {
    m.time * m.weight
  }

  /** What the number-input widgets guarantee: no negative duration or weight. */
  predicate NonNegative(s: seq<Motion>)
  {
    forall i :: 0 <= i < |s| ==> s[i].time >= 0.0 && s[i].weight >= 0.0
  }

  /** `df[df["auto"] == flag]["weighted_time"].sum()`: the weighted time of the
      motions whose flag equals `flag`, accumulated row by row. */
  function FilteredSum(s: seq<Motion>, flag: bool): real
  {
    if s == [] then 0.0
    else (if s[0].auto == flag then WeightedTime(s[0]) else 0.0) + FilteredSum(s[1..], flag)
  }

  /** The weighted time of every motion, automated or not. */
  function TotalWeightedTime(s: seq<Motion>): real
  {
    if s == [] then 0.0 else WeightedTime(s[0]) + TotalWeightedTime(s[1..])
  }

  /** The motions a generator `for d in data if d["auto"]` (flag true) or
      `if not d["auto"]` (flag false) visits, in their original order. */
  function Select(s: seq<Motion>, flag: bool): (r: seq<Motion>)
    ensures forall i :: 0 <= i < |r| ==> r[i].auto == flag
  {
    if s == [] then []
    else (if s[0].auto == flag then [s[0]] else []) + Select(s[1..], flag)
  }

  /** The chart figure `sum(d["time"]*d["weight"] for d in data if ...)`. */
  function ChartSum(s: seq<Motion>, flag: bool): real
  {
    TotalWeightedTime(Select(s, flag))
  }

  /** The guarded division shared by all calculators: the automated share of
      the weighted time in percent, and 0 when there is no weighted time. */
  function Rate(autoSum: real, manualSum: real): real
  {
    if autoSum + manualSum == 0.0 then 0.0
    else autoSum / (autoSum + manualSum) * 100.0
  }

  /** A zero total gives 0; otherwise the rate is the automated sum as a
      percentage of the total, and two non-negative sums give a rate in [0, 100]. */
  lemma RateMeaning(autoSum: real, manualSum: real)
    ensures autoSum + manualSum == 0.0 ==> Rate(autoSum, manualSum) == 0.0
    ensures autoSum + manualSum != 0.0 ==>
      Rate(autoSum, manualSum) * (autoSum + manualSum) == 100.0 * autoSum
    ensures autoSum >= 0.0 && manualSum >= 0.0 ==> 0.0 <= Rate(autoSum, manualSum) <= 100.0
  {
  }

  /** The rate of one group of motions, computed from its two masked sums. */
  function GroupRate(s: seq<Motion>): real
  {
    Rate(FilteredSum(s, true), FilteredSum(s, false))
  }

  /** What a group rate means: no weighted time gives 0 (and no division),
      otherwise the rate is the automated share of the total weighted time in
      percent, which with no negative inputs lies in [0, 100]. */
  lemma GroupRateMeaning(s: seq<Motion>)
    ensures TotalWeightedTime(s) == 0.0 ==> GroupRate(s) == 0.0
    ensures TotalWeightedTime(s) != 0.0 ==>
      GroupRate(s) * TotalWeightedTime(s) == 100.0 * FilteredSum(s, true)
    ensures NonNegative(s) ==> 0.0 <= GroupRate(s) <= 100.0
  {
    SplitSum(s);
    SumsNonNegative(s);
    RateMeaning(FilteredSum(s, true), FilteredSum(s, false));
  }

  lemma SumsNonNegative(s: seq<Motion>)
    ensures NonNegative(s) ==> FilteredSum(s, true) >= 0.0 && FilteredSum(s, false) >= 0.0
  {
    if NonNegative(s) {
      FilteredSumNonNegative(s, true);
      FilteredSumNonNegative(s, false);
    }
  }

  /** The automated and the manual sums together make up the total weighted time. */
  lemma {:induction false} SplitSum(s: seq<Motion>)
    ensures FilteredSum(s, true) + FilteredSum(s, false) == TotalWeightedTime(s)
  {
    if s != [] {
      SplitSum(s[1..]);
    }
  }

  lemma {:induction false} FilteredSumNonNegative(s: seq<Motion>, flag: bool)
    requires NonNegative(s)
    ensures FilteredSum(s, flag) >= 0.0
  {
    if s != [] {
      assert NonNegative(s[1..]) by {
        forall i | 0 <= i < |s[1..]| ensures s[1..][i].time >= 0.0 && s[1..][i].weight >= 0.0 {
          assert s[1..][i] == s[i + 1];
        }
      }
      FilteredSumNonNegative(s[1..], flag);
      assert WeightedTime(s[0]) >= 0.0 by {
        assert s[0].time >= 0.0 && s[0].weight >= 0.0;
      }
    }
  }

  /** With no negative inputs, a masked sum is zero exactly when every motion
      it covers has zero weighted time. */
  lemma {:induction false} FilteredSumZeroIff(s: seq<Motion>, flag: bool)
    requires NonNegative(s)
    ensures FilteredSum(s, flag) == 0.0
        <==> forall i :: 0 <= i < |s| && s[i].auto == flag ==> WeightedTime(s[i]) == 0.0
  {
    if s != [] {
      assert NonNegative(s[1..]) by {
        forall i | 0 <= i < |s[1..]| ensures s[1..][i].time >= 0.0 && s[1..][i].weight >= 0.0 {
          assert s[1..][i] == s[i + 1];
        }
      }
      FilteredSumZeroIff(s[1..], flag);
      FilteredSumNonNegative(s[1..], flag);
      assert s[0].time >= 0.0 && s[0].weight >= 0.0;
      assert WeightedTime(s[0]) >= 0.0;
      assert forall i :: 1 <= i < |s| ==> s[i] == s[1..][i - 1];
    }
  }

  /** The total is zero when every motion has zero weighted time, for instance
      when every duration or every weight is 0; with no negative inputs the
      converse holds too. */
  lemma {:induction false} TotalZeroIff(s: seq<Motion>)
    ensures (forall i :: 0 <= i < |s| ==> WeightedTime(s[i]) == 0.0) ==> TotalWeightedTime(s) == 0.0
    ensures NonNegative(s) && TotalWeightedTime(s) == 0.0 ==> forall i :: 0 <= i < |s| ==> WeightedTime(s[i]) == 0.0
  {
    SplitSum(s);
    if NonNegative(s) {
      FilteredSumNonNegative(s, true);
      FilteredSumNonNegative(s, false);
      FilteredSumZeroIff(s, true);
      FilteredSumZeroIff(s, false);
    }
    if forall i :: 0 <= i < |s| ==> WeightedTime(s[i]) == 0.0 {
      if s != [] {
        assert forall i :: 0 <= i < |s[1..]| ==> s[1..][i] == s[i + 1];
        TotalZeroIff(s[1..]);
      }
    }
  }

  /** Zero durations everywhere, or zero weights everywhere, give a rate of 0
      without any division. */
  lemma ZeroTimesOrWeights(s: seq<Motion>)
    requires (forall i :: 0 <= i < |s| ==> s[i].time == 0.0)
          || (forall i :: 0 <= i < |s| ==> s[i].weight == 0.0)
    ensures TotalWeightedTime(s) == 0.0
    ensures GroupRate(s) == 0.0
  {
    if forall i :: 0 <= i < |s| ==> s[i].time == 0.0 {
      forall i | 0 <= i < |s| ensures WeightedTime(s[i]) == 0.0 {
        assert s[i].time == 0.0;
      }
    } else {
      forall i | 0 <= i < |s| ensures WeightedTime(s[i]) == 0.0 {
        assert s[i].weight == 0.0;
      }
    }
    TotalZeroIff(s);
    GroupRateMeaning(s);
  }

  /** Every motion automated and some weighted time: the rate is 100. */
  lemma AllAutomated(s: seq<Motion>)
    requires forall i :: 0 <= i < |s| ==> s[i].auto
    requires TotalWeightedTime(s) != 0.0
    ensures GroupRate(s) == 100.0
  {
    NoMatchSumsToZero(s, false);
    SplitSum(s);
    FullShare(FilteredSum(s, true));
  }

  lemma FullShare(t: real)
    requires t != 0.0
    ensures Rate(t, 0.0) == 100.0
  {
    assert t / (t + 0.0) == 1.0;
  }

  /** No motion automated: the rate is 0, whatever the weighted time. */
  lemma NoneAutomated(s: seq<Motion>)
    requires forall i :: 0 <= i < |s| ==> !s[i].auto
    ensures GroupRate(s) == 0.0
  {
    NoMatchSumsToZero(s, true);
  }

  lemma {:induction false} NoMatchSumsToZero(s: seq<Motion>, flag: bool)
    requires forall i :: 0 <= i < |s| ==> s[i].auto != flag
    ensures FilteredSum(s, flag) == 0.0
  {
    if s != [] {
      assert forall i :: 0 <= i < |s[1..]| ==> s[1..][i] == s[i + 1];
      NoMatchSumsToZero(s[1..], flag);
    }
  }

  /** With no negative inputs and some weighted time, the rate is 100 exactly
      when no manual motion carries weighted time. */
  lemma HundredIff(s: seq<Motion>)
    requires NonNegative(s)
    requires TotalWeightedTime(s) > 0.0
    ensures GroupRate(s) == 100.0
        <==> forall i :: 0 <= i < |s| && !s[i].auto ==> WeightedTime(s[i]) == 0.0
  {
    var a, m := FilteredSum(s, true), FilteredSum(s, false);
    SplitSum(s);
    FilteredSumNonNegative(s, true);
    FilteredSumNonNegative(s, false);
    RateMeaning(a, m);
    assert GroupRate(s) == 100.0 <==> m == 0.0 by {
      HundredShare(a, m);
    }
    FilteredSumZeroIff(s, false);
  }

  lemma HundredShare(a: real, m: real)
    requires a >= 0.0 && m >= 0.0 && a + m > 0.0
    ensures Rate(a, m) == 100.0 <==> m == 0.0
  {
    RateMeaning(a, m);
  }

  /** With no negative inputs, the rate is 0 exactly when no automated motion
      carries weighted time. */
  lemma ZeroIff(s: seq<Motion>)
    requires NonNegative(s)
    ensures GroupRate(s) == 0.0
        <==> forall i :: 0 <= i < |s| && s[i].auto ==> WeightedTime(s[i]) == 0.0
  {
    SplitSum(s);
    FilteredSumNonNegative(s, true);
    FilteredSumNonNegative(s, false);
    FilteredSumZeroIff(s, true);
  }

  /** The generator-expression sums of the chart agree with the masked sums. */
  lemma {:induction false} ChartSumAgrees(s: seq<Motion>, flag: bool)
    ensures ChartSum(s, flag) == FilteredSum(s, flag)
  {
    if s != [] {
      ChartSumAgrees(s[1..], flag);
      TotalConcat(if s[0].auto == flag then [s[0]] else [], Select(s[1..], flag));
    }
  }

  lemma {:induction false} TotalConcat(a: seq<Motion>, b: seq<Motion>)
    ensures TotalWeightedTime(a + b) == TotalWeightedTime(a) + TotalWeightedTime(b)
  {
    if a != [] {
      assert (a + b)[0] == a[0];
      assert (a + b)[1..] == a[1..] + b;
      TotalConcat(a[1..], b);
    } else {
      assert a + b == b;
    }
  }

  lemma {:induction false} FilteredConcat(a: seq<Motion>, b: seq<Motion>, flag: bool)
    ensures FilteredSum(a + b, flag) == FilteredSum(a, flag) + FilteredSum(b, flag)
  {
    if a != [] {
      assert (a + b)[0] == a[0];
      assert (a + b)[1..] == a[1..] + b;
      FilteredConcat(a[1..], b, flag);
    } else {
      assert a + b == b;
    }
  }

  // ---------------------------------------------------------------------------
  // What the rate depends on: the multiset of (auto, weighted time) pairs.

  /** The only information about each motion the rate looks at. */
  function Profile(s: seq<Motion>): (p: seq<(bool, real)>)
    ensures |p| == |s|
    ensures forall i :: 0 <= i < |s| ==> p[i] == (s[i].auto, WeightedTime(s[i]))
  {
    seq(|s|, i requires 0 <= i < |s| => (s[i].auto, WeightedTime(s[i])))
  }

  /** A masked sum over profile entries. */
  function EntrySum(p: seq<(bool, real)>, flag: bool): real
  {
    if p == [] then 0.0
    else (if p[0].0 == flag then p[0].1 else 0.0) + EntrySum(p[1..], flag)
  }

  lemma {:induction false} ProfileSum(s: seq<Motion>, flag: bool)
    ensures FilteredSum(s, flag) == EntrySum(Profile(s), flag)
  {
    if s != [] {
      assert Profile(s)[1..] == Profile(s[1..]);
      ProfileSum(s[1..], flag);
    }
  }

  lemma {:induction false} EntrySumRemove(p: seq<(bool, real)>, j: nat, flag: bool)
    requires j < |p|
    ensures EntrySum(p, flag)
         == (if p[j].0 == flag then p[j].1 else 0.0) + EntrySum(p[..j] + p[j + 1..], flag)
  {
    if j == 0 {
      assert p[..0] + p[1..] == p[1..];
    } else {
      assert (p[..j] + p[j + 1..])[1..] == p[1..][..j - 1] + p[1..][j..];
      EntrySumRemove(p[1..], j - 1, flag);
    }
  }

  lemma {:induction false} EntrySumPermutation(p: seq<(bool, real)>, q: seq<(bool, real)>, flag: bool)
    requires multiset(p) == multiset(q)
    ensures EntrySum(p, flag) == EntrySum(q, flag)
    decreases |p|
  {
    if p == [] {
      assert |q| == |multiset(q)| == 0;
    } else {
      assert p[0] in multiset(q);
      var j :| 0 <= j < |q| && q[j] == p[0];
      RemoveMatching(p, q, j);
      EntrySumRemove(q, j, flag);
      EntrySumPermutation(p[1..], q[..j] + q[j + 1..], flag);
    }
  }

  /** Taking the first element off one sequence and a copy of it off another
      keeps two equal multisets equal. */
  lemma RemoveMatching<T>(p: seq<T>, q: seq<T>, j: nat)
    requires multiset(p) == multiset(q) && p != [] && j < |q| && q[j] == p[0]
    ensures multiset(p[1..]) == multiset(q[..j] + q[j + 1..])
  {
    assert q == q[..j] + [q[j]] + q[j + 1..];
    assert p == [p[0]] + p[1..];
    assert multiset(q) == multiset(q[..j]) + multiset([q[j]]) + multiset(q[j + 1..]);
    assert multiset(p) == multiset([p[0]]) + multiset(p[1..]);
    assert multiset(q[..j] + q[j + 1..]) == multiset(q[..j]) + multiset(q[j + 1..]);
    assert multiset(p[1..]) == multiset(p) - multiset{p[0]};
    assert multiset(q[..j] + q[j + 1..]) == multiset(q) - multiset{q[j]};
  }

  /** The rate depends only on the multiset of (auto, weighted time) pairs:
      reordering motions or changing their free-text fields leaves it alone. */
  lemma RateDependsOnlyOnProfile(s: seq<Motion>, t: seq<Motion>)
    requires multiset(Profile(s)) == multiset(Profile(t))
    ensures GroupRate(s) == GroupRate(t)
  {
    ProfileSum(s, true);
    ProfileSum(s, false);
    ProfileSum(t, true);
    ProfileSum(t, false);
    EntrySumPermutation(Profile(s), Profile(t), true);
    EntrySumPermutation(Profile(s), Profile(t), false);
  }

  lemma {:induction false} ProfilePermutation(s: seq<Motion>, t: seq<Motion>)
    requires multiset(s) == multiset(t)
    ensures multiset(Profile(s)) == multiset(Profile(t))
    decreases |s|
  {
    if s == [] {
      assert |t| == |multiset(t)| == 0;
    } else {
      assert s[0] in multiset(t);
      var j :| 0 <= j < |t| && t[j] == s[0];
      RemoveMatching(s, t, j);
      ProfilePermutation(s[1..], t[..j] + t[j + 1..]);
      ProfileMatching(s, t, j);
    }
  }

  /** Two sequences whose remainders have equal profile multisets, after taking
      off the first motion of one and the same motion from the other, have
      equal profile multisets. */
  lemma ProfileMatching(s: seq<Motion>, t: seq<Motion>, j: nat)
    requires s != [] && j < |t| && t[j] == s[0]
    requires multiset(Profile(s[1..])) == multiset(Profile(t[..j] + t[j + 1..]))
    ensures multiset(Profile(s)) == multiset(Profile(t))
  {
    var e := (s[0].auto, WeightedTime(s[0]));
    ProfileRemove(s, 0, s[1..]);
    ProfileRemove(t, j, t[..j] + t[j + 1..]);
    calc {
      multiset(Profile(s));
      multiset{e} + multiset(Profile(s[1..]));
      multiset{e} + multiset(Profile(t[..j] + t[j + 1..]));
      multiset(Profile(t));
    }
  }

  /** The profile of a sequence is the entry of one motion plus the profile of
      the others. */
  lemma ProfileRemove(s: seq<Motion>, j: nat, rest: seq<Motion>)
    requires j < |s| && rest == s[..j] + s[j + 1..]
    ensures multiset(Profile(s)) == multiset{(s[j].auto, WeightedTime(s[j]))} + multiset(Profile(rest))
  {
    var p := Profile(s);
    assert Profile(rest) == p[..j] + p[j + 1..];
    assert p == p[..j] + [p[j]] + p[j + 1..];
    assert multiset(p) == multiset(p[..j]) + multiset{p[j]} + multiset(p[j + 1..]);
    assert multiset(p[..j] + p[j + 1..]) == multiset(p[..j]) + multiset(p[j + 1..]);
  }

  /** Permuting the motions of a group does not change its rate. */
  lemma PermutationInvariant(s: seq<Motion>, t: seq<Motion>)
    requires multiset(s) == multiset(t)
    ensures GroupRate(s) == GroupRate(t)
  {
    ProfilePermutation(s, t);
    RateDependsOnlyOnProfile(s, t);
  }

  /** Rewriting the name, device id, operator or remarks of motions does not
      change the rate. */
  lemma FreeTextIrrelevant(s: seq<Motion>, t: seq<Motion>)
    requires |s| == |t|
    requires forall i :: 0 <= i < |s| ==>
      s[i].auto == t[i].auto && s[i].time == t[i].time && s[i].weight == t[i].weight
    ensures GroupRate(s) == GroupRate(t)
  {
    forall i | 0 <= i < |s| ensures Profile(s)[i] == Profile(t)[i] {
      assert WeightedTime(s[i]) == WeightedTime(t[i]);
    }
    assert Profile(s) == Profile(t);
    RateDependsOnlyOnProfile(s, t);
  }
}
