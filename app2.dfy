/** The single-list form with downloads: its calculator and the two weighted sums it charts. */
module App2 {
  import opened Weighting

  /** The calculator of the single-list form. The form always has at least one
      motion row, and an empty list would have no `time` column to read, so the
      list is required to be non-empty. */
  function CalculateAutomationRate(data: seq<Motion>): (r: real)
    requires |data| > 0
    ensures TotalWeightedTime(data) == 0.0 ==> r == 0.0
    ensures TotalWeightedTime(data) != 0.0 ==>
      r * TotalWeightedTime(data) == 100.0 * FilteredSum(data, true)
    ensures NonNegative(data) ==> 0.0 <= r <= 100.0
  {
    GroupRateMeaning(data);
    GroupRate(data)
  }

  /** The chart's automated and manual bars are the calculator's two sums,
      they make up the whole weighted time, and the rate is the guarded share
      of the automated bar in both bars. */
  lemma ChartSums(data: seq<Motion>)
    requires |data| > 0
    ensures ChartSum(data, true) == FilteredSum(data, true)
    ensures ChartSum(data, false) == FilteredSum(data, false)
    ensures ChartSum(data, true) + ChartSum(data, false) == TotalWeightedTime(data)
    ensures CalculateAutomationRate(data) == Rate(ChartSum(data, true), ChartSum(data, false))
  {
    ChartSumAgrees(data, true);
    ChartSumAgrees(data, false);
    SplitSum(data);
  }

  /** Reordering the motion list leaves the rate unchanged. */
  lemma PermutationInvariant(s: seq<Motion>, t: seq<Motion>)
    requires |s| > 0 && multiset(s) == multiset(t)
    ensures |t| > 0 && CalculateAutomationRate(s) == CalculateAutomationRate(t)
  {
    assert |t| == |multiset(t)| == |multiset(s)| == |s|;
    Weighting.PermutationInvariant(s, t);
  }

  /** All automated with some weighted time gives 100; none automated gives 0. */
  lemma Extremes(data: seq<Motion>)
    requires |data| > 0
    ensures (forall i :: 0 <= i < |data| ==> data[i].auto) && TotalWeightedTime(data) != 0.0
      ==> CalculateAutomationRate(data) == 100.0
    ensures (forall i :: 0 <= i < |data| ==> !data[i].auto) ==> CalculateAutomationRate(data) == 0.0
  {
    if (forall i :: 0 <= i < |data| ==> data[i].auto) && TotalWeightedTime(data) != 0.0 {
      AllAutomated(data);
    }
    if forall i :: 0 <= i < |data| ==> !data[i].auto {
      NoneAutomated(data);
    }
  }
}
