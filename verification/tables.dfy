/** The hand-entered data of the salary comparison: the years, the published
    inflation rates, and the yearly pay-rise rates of an average and of an
    above-average worker. All rates are percentages. The 2023 pay rise depends
    on whether the 2.5% "plus" awarded that year is read as an addition to the
    2.3% base rise. */
module Tables {

  /** The years compared; index 0 (2017) is the base year, when the starting
      salary is fixed. */
  const Years: seq<int> := [2017, 2018, 2019, 2020, 2021, 2022, 2023, 2024, 2025]

  /** Index of 2020 in `Years`, the last year in which both workers get the
      same rise. */
  const Index2020: nat := 3

  /** Index of 2023 in `Years`, the only year whose rises the toggle touches. */
  const Index2023: nat := 6

  /** The "plus" that the optimistic reading adds to the 2023 rise. */
  const Plus2023: real := 2.5

  /** Yearly inflation; the base-year entry is 0 because 2017 is the reference. */
  const Inflation: seq<real> := [0.0, 2.6, 2.3, 1.7, 1.0, 2.5, 8.8, 4.2, 3.9]

  /** Yearly rises of an average worker. */
  function AvgRaises(optimistic2023: bool): (r: seq<real>)
    ensures |r| == |Years|
    ensures forall i :: 0 <= i < |r| ==> 0.0 <= r[i]
  {
    [0.0, 2.25, 2.25, 2.15, 2.3, 3.3, if optimistic2023 then 4.8 else 2.3, 2.3, 2.3]
  }

  /** Yearly rises of an above-average worker: the same as the average worker
      in the early years, and never lower in any year. */
  function StrongRaises(optimistic2023: bool): (r: seq<real>)
    ensures |r| == |Years|
    ensures forall i :: 0 <= i < |r| ==> AvgRaises(optimistic2023)[i] <= r[i]
    ensures forall i :: 0 <= i <= Index2020 ==> r[i] == AvgRaises(optimistic2023)[i]
  {
    [0.0, 2.25, 2.25, 2.15, 2.75, 3.75, if optimistic2023 then 5.2 else 2.7, 2.7, 2.7]
  }

  /** The years run one by one from 2017, and the named indices point at the
      years their names say. */
  lemma YearIndices()
    ensures Years[0] == 2017
    ensures forall i :: 0 < i < |Years| ==> Years[i] == Years[i - 1] + 1
    ensures Years[Index2020] == 2020 && Years[Index2023] == 2023
  {
  }

  /** The inflation table has one non-negative rate per year. */
  lemma InflationWellFormed()
    ensures |Inflation| == |Years|
    ensures forall i :: 0 <= i < |Inflation| ==> 0.0 <= Inflation[i]
  {
  }

  /** The toggle changes only the 2023 entry of either rise table, and there
      it adds exactly the 2.5% plus. */
  lemma ToggleOnly2023()
    ensures Years[Index2023] == 2023
    ensures forall i :: 0 <= i < |Years| && i != Index2023 ==>
      AvgRaises(true)[i] == AvgRaises(false)[i] && StrongRaises(true)[i] == StrongRaises(false)[i]
    ensures AvgRaises(true)[Index2023] == AvgRaises(false)[Index2023] + Plus2023
    ensures StrongRaises(true)[Index2023] == StrongRaises(false)[Index2023] + Plus2023
  {
  }
}
