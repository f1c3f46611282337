/** The multi-process form: the per-group calculator with its empty-input
    guard, the rates of all process groups and their unweighted mean, and the
    sheet layout of the exported workbook. */
module Automate {
  import opened Weighting

  datatype Option<T> = None | Some(value: T)

  /** The per-group calculator: an empty motion list is answered with 0
      before any sum is formed; otherwise the guarded weighted share. */
  function CalculateAutomationRate(motionData: seq<Motion>): (r: real)
    ensures motionData == [] ==> r == 0.0
    ensures TotalWeightedTime(motionData) == 0.0 ==> r == 0.0
    ensures TotalWeightedTime(motionData) != 0.0 ==>
      r * TotalWeightedTime(motionData) == 100.0 * FilteredSum(motionData, true)
    ensures NonNegative(motionData) ==> 0.0 <= r <= 100.0
  {
    GroupRateMeaning(motionData);
    if |motionData| == 0 then 0.0 else GroupRate(motionData)
  }

  /** The empty-list guard changes nothing: an empty group has no weighted time,
      so the calculator always agrees with the shared group rate, and every
      property proved about `GroupRate` holds for it. */
  lemma CalculatorIsGroupRate(motionData: seq<Motion>)
    ensures CalculateAutomationRate(motionData) == GroupRate(motionData)
  {
    if motionData == [] {
      assert FilteredSum(motionData, true) == 0.0 && FilteredSum(motionData, false) == 0.0;
    }
  }

  // ---------------------------------------------------------------------------
  // Dictionaries keyed by process name

  /** A dict with string keys, as its items in insertion order. */
  type Dict<V> = seq<(string, V)>

  /** A dict never holds the same key twice. */
  predicate UniqueKeys<V>(d: Dict<V>)
  {
    forall i, j :: 0 <= i < j < |d| ==> d[i].0 != d[j].0
  }

  predicate HasKey<V>(d: Dict<V>, k: string)
  {
    exists i :: 0 <= i < |d| && d[i].0 == k
  }

  /** `d[k] = v`: an existing key keeps its place and gets the new value, a new
      key is appended at the end. */
  function Put<V>(d: Dict<V>, k: string, v: V): (r: Dict<V>)
    requires UniqueKeys(d)
    ensures UniqueKeys(r)
    ensures !HasKey(d, k) ==> r == d + [(k, v)]
    ensures HasKey(d, k) ==>
      |r| == |d| && forall i :: 0 <= i < |d| ==> r[i] == if d[i].0 == k then (k, v) else d[i]
  {
    if HasKey(d, k) then
      seq(|d|, i requires 0 <= i < |d| => if d[i].0 == k then (k, v) else d[i])
    else
      d + [(k, v)]
  }

  /** `d.values()`, in insertion order. */
  function Values<V>(d: Dict<V>): (vs: seq<V>)
    ensures |vs| == |d|
    ensures forall i :: 0 <= i < |d| ==> vs[i] == d[i].1
  {
    seq(|d|, i requires 0 <= i < |d| => d[i].1)
  }

  // ---------------------------------------------------------------------------
  // Overall rate

  /** Python's `sum` of a list of rates. */
  function Sum(xs: seq<real>): real
  {
    if xs == [] then 0.0 else xs[0] + Sum(xs[1..])
  }

  lemma {:induction false} SumBounds(xs: seq<real>)
    requires forall i :: 0 <= i < |xs| ==> 0.0 <= xs[i] <= 100.0
    ensures 0.0 <= Sum(xs) <= 100.0 * (|xs| as real)
  {
    if xs != [] {
      assert forall i :: 0 <= i < |xs[1..]| ==> xs[1..][i] == xs[i + 1];
      SumBounds(xs[1..]);
    }
  }

  /** The unweighted arithmetic mean, and 0 for no values at all. */
  function Mean(xs: seq<real>): (r: real)
    ensures |xs| == 0 ==> r == 0.0
    ensures |xs| > 0 ==> r * (|xs| as real) == Sum(xs)
    ensures (forall i :: 0 <= i < |xs| ==> 0.0 <= xs[i] <= 100.0) ==> 0.0 <= r <= 100.0
  {
    if |xs| > 0 then
      MeanBounds(xs);
      Sum(xs) / (|xs| as real)
    else 0.0
  }

  lemma MeanBounds(xs: seq<real>)
    requires |xs| > 0
    ensures (forall i :: 0 <= i < |xs| ==> 0.0 <= xs[i] <= 100.0) ==>
      0.0 <= Sum(xs) / (|xs| as real) <= 100.0
  {
    if forall i :: 0 <= i < |xs| ==> 0.0 <= xs[i] <= 100.0 {
      SumBounds(xs);
      QuotientBounds(Sum(xs), |xs| as real);
    }
  }

  lemma QuotientBounds(x: real, n: real)
    requires n > 0.0 && 0.0 <= x <= 100.0 * n
    ensures 0.0 <= x / n <= 100.0
  {
  }

  /** The rate of each process group, in the order of the groups. */
  function GroupRates(dataDict: Dict<seq<Motion>>): (rates: seq<real>)
    ensures |rates| == |dataDict|
  {
    seq(|dataDict|, i requires 0 <= i < |dataDict| => CalculateAutomationRate(dataDict[i].1))
  }

  /** The "calculate" action: one rate per process group, entered into a fresh
      dict in the groups' order, and their plain mean as the overall rate. */
  method ComputeRates(dataDict: Dict<seq<Motion>>) returns (autoRates: Dict<real>, totalRate: real)
    requires UniqueKeys(dataDict)
    ensures |autoRates| == |dataDict| && UniqueKeys(autoRates)
    ensures forall i :: 0 <= i < |dataDict| ==>
      autoRates[i] == (dataDict[i].0, CalculateAutomationRate(dataDict[i].1))
    ensures totalRate == Mean(Values(autoRates)) == Mean(GroupRates(dataDict))
    ensures |dataDict| == 0 ==> totalRate == 0.0
    ensures (forall i :: 0 <= i < |dataDict| ==> NonNegative(dataDict[i].1)) ==>
      0.0 <= totalRate <= 100.0
  {
    autoRates := [];
    for i := 0 to |dataDict|
      invariant |autoRates| == i
      invariant forall j :: 0 <= j < i ==>
        autoRates[j] == (dataDict[j].0, CalculateAutomationRate(dataDict[j].1))
      invariant UniqueKeys(autoRates)
    {
      var (processName, motions) := dataDict[i];
      var rate := CalculateAutomationRate(motions);
      assert !HasKey(autoRates, processName);
      autoRates := Put(autoRates, processName, rate);
    }
    if |autoRates| > 0 {
      totalRate := Sum(Values(autoRates)) / (|autoRates| as real);
    } else {
      totalRate := 0.0;
    }
    assert Values(autoRates) == GroupRates(dataDict);
  }

  /** With non-negative inputs in every group, the overall rate stays in [0, 100]. */
  lemma OverallRateBounds(dataDict: Dict<seq<Motion>>)
    requires forall i :: 0 <= i < |dataDict| ==> NonNegative(dataDict[i].1)
    ensures 0.0 <= Mean(GroupRates(dataDict)) <= 100.0
  {
  }

  /** The overall rate is the mean of the group rates and not the rate of all
      motions pooled: a group at 40% with 100 s of weighted time and a group at
      60% with 10 s give 50%, while the pooled rate is 46/110, about 41.8%. */
  lemma OverallRateIsNotPooled()
    ensures var a := [Motion("a1", true, 40.0, 1.0, "", "", ""), Motion("a2", false, 60.0, 1.0, "", "", "")];
            var b := [Motion("b1", true, 3.0, 2.0, "", "", ""), Motion("b2", false, 2.0, 2.0, "", "", "")];
            CalculateAutomationRate(a) == 40.0
            && CalculateAutomationRate(b) == 60.0
            && Mean(GroupRates([("A", a), ("B", b)])) == 50.0
            && CalculateAutomationRate(a + b) != 50.0
  {
    var a := [Motion("a1", true, 40.0, 1.0, "", "", ""), Motion("a2", false, 60.0, 1.0, "", "", "")];
    var b := [Motion("b1", true, 3.0, 2.0, "", "", ""), Motion("b2", false, 2.0, 2.0, "", "", "")];
    assert TotalWeightedTime(a) == 100.0 && FilteredSum(a, true) == 40.0;
    assert TotalWeightedTime(b) == 10.0 && FilteredSum(b, true) == 6.0;
    var rates := GroupRates([("A", a), ("B", b)]);
    assert rates == [40.0, 60.0];
    assert Sum(rates) == 100.0 by {
      assert rates[1..] == [60.0] && [60.0][1..] == [];
      assert Sum([60.0]) == 60.0 + Sum([]);
      assert Sum(rates) == 40.0 + Sum([60.0]);
    }
    TotalConcat(a, b);
    assert FilteredSum(a + b, true) == 46.0 by {
      FilteredConcat(a, b, true);
    }
  }

  // ---------------------------------------------------------------------------
  // Workbook layout

  /** One spreadsheet cell. */
  datatype Cell = Text(text: string) | Flag(flag: bool) | Number(value: real)

  /** One sheet: its name, its header row and its body rows. */
  datatype Sheet = Sheet(name: string, columns: seq<string>, rows: seq<seq<Cell>>)

  /** The columns of a process sheet, in the order every motion record has them. */
  const MotionColumns: seq<string> :=
    ["motion", "auto", "time", "weight", "device_id", "operator", "remarks"]

  /** The columns of the summary sheet: process name and automation rate (%). */
  const SummaryColumns: seq<string> := ["공정명", "자동화율(%)"]

  const SummarySheetName: string := "Summary"

  const TotalLabel: string := "TOTAL"

  /** Reads a motion record back from a process-sheet row. */
  function ReadMotion(row: seq<Cell>): (r: Option<Motion>)
    ensures r.Some? <==>
      (|row| == |MotionColumns| && row[0].Text? && row[1].Flag? && row[2].Number?
       && row[3].Number? && row[4].Text? && row[5].Text? && row[6].Text?)
  {
    if |row| == 7 && row[0].Text? && row[1].Flag? && row[2].Number? && row[3].Number?
       && row[4].Text? && row[5].Text? && row[6].Text?
    then Some(Motion(row[0].text, row[1].flag, row[2].value, row[3].value,
                     row[4].text, row[5].text, row[6].text))
    else None
  }

  /** The row a motion record becomes: one cell per column, in column order. */
  function MotionRow(m: Motion): (row: seq<Cell>)
    ensures |row| == |MotionColumns|
    ensures ReadMotion(row) == Some(m)
    ensures forall other :: ReadMotion(other) == Some(m) ==> other == row
  {
    [Text(m.motion), Flag(m.auto), Number(m.time), Number(m.weight),
     Text(m.deviceId), Text(m.operator), Text(m.remarks)]
  }

  /** The other half of the round trip: a row that reads as a record is the
      row that record is written as. */
  lemma ReadWriteRoundTrip(row: seq<Cell>)
    requires ReadMotion(row).Some?
    ensures MotionRow(ReadMotion(row).value) == row
  {
  }

  /** The body of a process sheet, one row per motion in list order. */
  function MotionRows(ms: seq<Motion>): (rows: seq<seq<Cell>>)
    ensures |rows| == |ms|
  {
    seq(|ms|, i requires 0 <= i < |ms| => MotionRow(ms[i]))
  }

  /** Reads the body of a process sheet back; None if some row is not a record. */
  function ReadMotions(rows: seq<seq<Cell>>): Option<seq<Motion>>
  {
    if rows == [] then Some([])
    else match (ReadMotion(rows[0]), ReadMotions(rows[1..]))
      case (Some(m), Some(ms)) => Some([m] + ms)
      case _ => None
  }

  /** A process sheet reads back as exactly the motions it was written from. */
  lemma {:induction false} SheetRoundTrip(ms: seq<Motion>)
    ensures ReadMotions(MotionRows(ms)) == Some(ms)
  {
    if ms != [] {
      assert MotionRows(ms)[1..] == MotionRows(ms[1..]);
      SheetRoundTrip(ms[1..]);
      assert ms == [ms[0]] + ms[1..];
    }
  }

  /** The export: one sheet per process group in dict order (header only for
      a group without motions) and a final Summary sheet. */
  method SaveToExcel(dataDict: Dict<seq<Motion>>, autoRates: Dict<real>, totalRate: real)
    returns (book: seq<Sheet>)
    ensures |book| == |dataDict| + 1
    ensures forall i :: 0 <= i < |dataDict| ==>
      book[i].name == dataDict[i].0 && book[i].columns == MotionColumns
      && |book[i].rows| == |dataDict[i].1|
      && ReadMotions(book[i].rows) == Some(dataDict[i].1)
    ensures var summary := book[|dataDict|];
      summary.name == SummarySheetName && summary.columns == SummaryColumns
      && |summary.rows| == |autoRates| + 1
      && (forall j :: 0 <= j < |autoRates| ==>
            summary.rows[j] == [Text(autoRates[j].0), Number(autoRates[j].1)])
      && summary.rows[|autoRates|] == [Text(TotalLabel), Number(totalRate)]
  {
    book := [];
    for i := 0 to |dataDict|
      invariant |book| == i
      invariant forall j :: 0 <= j < i ==>
        book[j].name == dataDict[j].0 && book[j].columns == MotionColumns
        && |book[j].rows| == |dataDict[j].1|
        && ReadMotions(book[j].rows) == Some(dataDict[j].1)
    {
      var (processName, motions) := dataDict[i];
      var sheet;
      if |motions| == 0 {
        sheet := Sheet(processName, MotionColumns, []);
        assert ReadMotions(sheet.rows) == Some(motions);
      } else {
        sheet := Sheet(processName, MotionColumns, MotionRows(motions));
        SheetRoundTrip(motions);
      }
      book := book + [sheet];
    }

    var summaryData: seq<seq<Cell>> := [];
    for j := 0 to |autoRates|
      invariant |summaryData| == j
      invariant forall k :: 0 <= k < j ==>
        summaryData[k] == [Text(autoRates[k].0), Number(autoRates[k].1)]
    {
      var (k, v) := autoRates[j];
      summaryData := summaryData + [[Text(k), Number(v)]];
    }
    summaryData := summaryData + [[Text(TotalLabel), Number(totalRate)]];
    book := book + [Sheet(SummarySheetName, SummaryColumns, summaryData)];
  }
}
