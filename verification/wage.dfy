/** The salary-versus-inflation comparison: from one starting salary, the
    year-by-year pay of an average and of an above-average worker next to the
    pay inflation alone would have required, and the final-year gap between
    the above-average worker's pay and that requirement. */
module Wage {
  import opened Compounding
  import opened Tables

  /** One row of the year-by-year table. */
  datatype YearRow = YearRow(year: int, inflationNeed: real, aboveAvgSalary: real, avgSalary: real)

  /** The year-by-year table for any list of years and any three rate
      tables: for every year, the three compounded series read at that year.
      Each table needs an entry for every year. */
  function Tabulate(startSalary: real, years: seq<int>, inflation: seq<real>,
                    strongRaises: seq<real>, avgRaises: seq<real>): (data: seq<YearRow>)
    requires |years| <= |inflation| && |years| <= |strongRaises| && |years| <= |avgRaises|
    ensures |data| == |years|
    ensures forall i :: 0 <= i < |data| ==> data[i].year == years[i]
  {
    var inf := Series(startSalary, inflation);
    var strong := Series(startSalary, strongRaises);
    var avg := Series(startSalary, avgRaises);
    seq(|years|, i requires 0 <= i < |years| => YearRow(years[i], inf[i], strong[i], avg[i]))
  }

  /** The table the program computes: its own years and tables, with the rise
      tables chosen by the 2023 toggle. */
  function Calculate(startSalary: real, optimistic2023: bool): (data: seq<YearRow>)
    ensures |data| == |Years|
    ensures forall i :: 0 <= i < |data| ==> data[i].year == Years[i]
    ensures data[0] == YearRow(2017, startSalary, startSalary, startSalary)
  {
    Tabulate(startSalary, Years, Inflation, StrongRaises(optimistic2023), AvgRaises(optimistic2023))
  }

  /** The loop that fills the table year by year, carrying the three running
      values from one year to the next and growing each by its own table's
      rate in every year but the first. */
  method TabulateLoop(startSalary: real, years: seq<int>, inflation: seq<real>,
                      strongRaises: seq<real>, avgRaises: seq<real>) returns (data: seq<YearRow>)
    requires |years| <= |inflation| && |years| <= |strongRaises| && |years| <= |avgRaises|
    ensures data == Tabulate(startSalary, years, inflation, strongRaises, avgRaises)
  {
    ghost var avgS := Series(startSalary, avgRaises);
    ghost var strongS := Series(startSalary, strongRaises);
    ghost var infS := Series(startSalary, inflation);
    var currAvg := startSalary;
    var currStrong := startSalary;
    var currInf := startSalary;
    data := [];
    var i := 0;
    while i < |years|
      invariant 0 <= i <= |years|
      invariant |data| == i
      invariant forall j :: 0 <= j < i ==> data[j] == YearRow(years[j], infS[j], strongS[j], avgS[j])
      invariant i == 0 ==> currAvg == currStrong == currInf == startSalary
      invariant i > 0 ==> currAvg == avgS[i - 1] && currStrong == strongS[i - 1] && currInf == infS[i - 1]
    {
      if i > 0 {
        SeriesStep(startSalary, avgRaises, i);
        SeriesStep(startSalary, strongRaises, i);
        SeriesStep(startSalary, inflation, i);
        currAvg := currAvg * Growth(avgRaises[i]);
        currStrong := currStrong * Growth(strongRaises[i]);
        currInf := currInf * Growth(inflation[i]);
      }
      data := data + [YearRow(years[i], currInf, currStrong, currAvg)];
      i := i + 1;
    }
  }

  /** The program's own run of the loop. */
  method CalculateLoop(startSalary: real, optimistic2023: bool) returns (data: seq<YearRow>)
    ensures data == Calculate(startSalary, optimistic2023)
  {
    data := TabulateLoop(startSalary, Years, Inflation, StrongRaises(optimistic2023), AvgRaises(optimistic2023));
  }

  /** The inflation requirement in the last year of a table. */
  function FinalInflation(data: seq<YearRow>): real
    requires |data| > 0
  {
    data[|data| - 1].inflationNeed
  }

  /** The above-average salary in the last year of a table. */
  function FinalStrong(data: seq<YearRow>): real
    requires |data| > 0
  {
    data[|data| - 1].aboveAvgSalary
  }

  /** The real-terms gap in the last year: what the above-average worker earns
      minus what inflation alone would have required. Negative is a loss. */
  function Loss(data: seq<YearRow>): real
    requires |data| > 0
  {
    FinalStrong(data) - FinalInflation(data)
  }

  /** Each year after the base year grows each column of the previous row by
      that year's rate from the column's own table. */
  lemma TabulateStep(startSalary: real, years: seq<int>, inflation: seq<real>,
                     strongRaises: seq<real>, avgRaises: seq<real>, i: nat)
    requires |years| <= |inflation| && |years| <= |strongRaises| && |years| <= |avgRaises|
    requires 0 < i < |years|
    ensures var data := Tabulate(startSalary, years, inflation, strongRaises, avgRaises);
      && data[i].avgSalary == data[i - 1].avgSalary * Growth(avgRaises[i])
      && data[i].aboveAvgSalary == data[i - 1].aboveAvgSalary * Growth(strongRaises[i])
      && data[i].inflationNeed == data[i - 1].inflationNeed * Growth(inflation[i])
  {
  }

  /** Closed form of the final row: each column is the starting salary times
      the product of its table's growth factors for 2018 to 2025. */
  lemma FinalClosedForm(startSalary: real, optimistic2023: bool)
    ensures var data := Calculate(startSalary, optimistic2023);
      && FinalStrong(data) == startSalary * Product(StrongRaises(optimistic2023)[1..])
      && FinalInflation(data) == startSalary * Product(Inflation[1..])
      && data[|data| - 1].avgSalary == startSalary * Product(AvgRaises(optimistic2023)[1..])
  {
    var n := |Years|;
    SeriesClosedForm(startSalary, StrongRaises(optimistic2023), n - 1);
    SeriesClosedForm(startSalary, Inflation, n - 1);
    SeriesClosedForm(startSalary, AvgRaises(optimistic2023), n - 1);
    assert StrongRaises(optimistic2023)[1..n] == StrongRaises(optimistic2023)[1..];
    assert AvgRaises(optimistic2023)[1..n] == AvgRaises(optimistic2023)[1..];
    assert Inflation[1..n] == Inflation[1..];
  }

  /** The loss is the starting salary times the gap between the two closed-form
      growth factors. */
  lemma LossClosedForm(startSalary: real, optimistic2023: bool)
    ensures Loss(Calculate(startSalary, optimistic2023))
      == startSalary * (Product(StrongRaises(optimistic2023)[1..]) - Product(Inflation[1..]))
  {
    FinalClosedForm(startSalary, optimistic2023);
    var a := Product(StrongRaises(optimistic2023)[1..]);
    var b := Product(Inflation[1..]);
    assert startSalary * a - startSalary * b == startSalary * (a - b);
  }

  /** From a start of 1, inflation's final factor exceeds the above-average
      worker's under either reading of 2023. */
  lemma InflationOutgrowsStrongPay(optimistic2023: bool)
    ensures Series(1.0, StrongRaises(optimistic2023))[|Years| - 1] < Series(1.0, Inflation)[|Years| - 1]
  {
    var r := StrongRaises(optimistic2023);
    var x2023 := if optimistic2023 then 1.052 else 1.027;
    assert ValueAt(1.0, r, 1) == 1.0225;
    assert ValueAt(1.0, r, 2) == 1.0225 * 1.0225;
    assert ValueAt(1.0, r, 3) == 1.0225 * 1.0225 * 1.0215;
    assert ValueAt(1.0, r, 4) == 1.0225 * 1.0225 * 1.0215 * 1.0275;
    assert ValueAt(1.0, r, 5) == 1.0225 * 1.0225 * 1.0215 * 1.0275 * 1.0375;
    assert ValueAt(1.0, r, 6) == 1.0225 * 1.0225 * 1.0215 * 1.0275 * 1.0375 * x2023;
    assert ValueAt(1.0, r, 7) == 1.0225 * 1.0225 * 1.0215 * 1.0275 * 1.0375 * x2023 * 1.027;
    assert ValueAt(1.0, r, 8) == 1.0225 * 1.0225 * 1.0215 * 1.0275 * 1.0375 * x2023 * 1.027 * 1.027;
    assert ValueAt(1.0, Inflation, 1) == 1.026;
    assert ValueAt(1.0, Inflation, 2) == 1.026 * 1.023;
    assert ValueAt(1.0, Inflation, 3) == 1.026 * 1.023 * 1.017;
    assert ValueAt(1.0, Inflation, 4) == 1.026 * 1.023 * 1.017 * 1.01;
    assert ValueAt(1.0, Inflation, 5) == 1.026 * 1.023 * 1.017 * 1.01 * 1.025;
    assert ValueAt(1.0, Inflation, 6) == 1.026 * 1.023 * 1.017 * 1.01 * 1.025 * 1.088;
    assert ValueAt(1.0, Inflation, 7) == 1.026 * 1.023 * 1.017 * 1.01 * 1.025 * 1.088 * 1.042;
    assert ValueAt(1.0, Inflation, 8) == 1.026 * 1.023 * 1.017 * 1.01 * 1.025 * 1.088 * 1.042 * 1.039;
  }

  /** Under either reading of 2023, a positive starting salary ends in a real-terms
      loss, a zero salary in no gap, and a negative one in a positive gap. */
  lemma RealTermsLoss(startSalary: real, optimistic2023: bool)
    ensures startSalary > 0.0 ==> Loss(Calculate(startSalary, optimistic2023)) < 0.0
    ensures startSalary == 0.0 ==> Loss(Calculate(startSalary, optimistic2023)) == 0.0
    ensures startSalary < 0.0 ==> Loss(Calculate(startSalary, optimistic2023)) > 0.0
  {
    var n := |Years| - 1;
    var r := StrongRaises(optimistic2023);
    InflationOutgrowsStrongPay(optimistic2023);
    SeriesScales(startSalary, r, n);
    SeriesScales(startSalary, Inflation, n);
    var gap := Series(1.0, r)[n] - Series(1.0, Inflation)[n];
    assert Loss(Calculate(startSalary, optimistic2023)) == startSalary * gap;
    if startSalary > 0.0 {
      ScaleStrict(gap, 0.0, startSalary);
    } else if startSalary < 0.0 {
      ScaleStrict(0.0, -gap, -startSalary);
    }
  }

  /** With a non-negative start, no column ever falls from one year to a later
      one or below the starting salary. */
  lemma ColumnsNeverFall(startSalary: real, optimistic2023: bool)
    requires startSalary >= 0.0
    ensures var data := Calculate(startSalary, optimistic2023);
      forall i, j :: 0 <= i <= j < |data| ==>
        && startSalary <= data[i].avgSalary <= data[j].avgSalary
        && startSalary <= data[i].aboveAvgSalary <= data[j].aboveAvgSalary
        && startSalary <= data[i].inflationNeed <= data[j].inflationNeed
  {
    InflationWellFormed();
    SeriesNonDecreasing(startSalary, AvgRaises(optimistic2023));
    SeriesNonDecreasing(startSalary, StrongRaises(optimistic2023));
    SeriesNonDecreasing(startSalary, Inflation);
  }

  /** The two workers are paid the same through 2020, whatever the start; with
      a non-negative start the above-average worker is never paid less. */
  lemma StrongNeverBelowAvg(startSalary: real, optimistic2023: bool)
    ensures var data := Calculate(startSalary, optimistic2023);
      forall i :: 0 <= i <= Index2020 ==> data[i].avgSalary == data[i].aboveAvgSalary
    ensures startSalary >= 0.0 ==> var data := Calculate(startSalary, optimistic2023);
      forall i :: 0 <= i < |data| ==> data[i].avgSalary <= data[i].aboveAvgSalary
  {
    var avg := AvgRaises(optimistic2023);
    var strong := StrongRaises(optimistic2023);
    SeriesAgreeOnPrefix(startSalary, avg, strong, Index2020 + 1);
    var data := Calculate(startSalary, optimistic2023);
    forall i | 0 <= i <= Index2020
      ensures data[i].avgSalary == data[i].aboveAvgSalary
    {
      assert Series(startSalary, avg)[..Index2020 + 1][i] == Series(startSalary, strong)[..Index2020 + 1][i];
    }
    if startSalary >= 0.0 {
      SeriesDominated(startSalary, avg, strong);
    }
  }

  /** The 2023 toggle leaves every row before 2023 and the whole inflation
      column unchanged; with a positive start, both salaries are strictly
      higher from 2023 on under the optimistic reading. */
  lemma ToggleAffectsFrom2023(startSalary: real)
    ensures Calculate(startSalary, true)[..Index2023] == Calculate(startSalary, false)[..Index2023]
    ensures forall i :: 0 <= i < |Years| ==>
      Calculate(startSalary, true)[i].inflationNeed == Calculate(startSalary, false)[i].inflationNeed
    ensures startSalary > 0.0 ==> forall i :: Index2023 <= i < |Years| ==>
      && Calculate(startSalary, false)[i].avgSalary < Calculate(startSalary, true)[i].avgSalary
      && Calculate(startSalary, false)[i].aboveAvgSalary < Calculate(startSalary, true)[i].aboveAvgSalary
  {
    ToggleOnly2023();
    var on := Calculate(startSalary, true);
    var off := Calculate(startSalary, false);
    SeriesAgreeOnPrefix(startSalary, AvgRaises(true), AvgRaises(false), Index2023);
    SeriesAgreeOnPrefix(startSalary, StrongRaises(true), StrongRaises(false), Index2023);
    forall i | 0 <= i < Index2023
      ensures on[i] == off[i]
    {
      assert Series(startSalary, AvgRaises(true))[..Index2023][i] == Series(startSalary, AvgRaises(false))[..Index2023][i];
      assert Series(startSalary, StrongRaises(true))[..Index2023][i] == Series(startSalary, StrongRaises(false))[..Index2023][i];
    }
    if startSalary > 0.0 {
      forall i | Index2023 <= i < |Years|
        ensures off[i].avgSalary < on[i].avgSalary
        ensures off[i].aboveAvgSalary < on[i].aboveAvgSalary
      {
        SeriesStrictlyDominatedFrom(startSalary, AvgRaises(false), AvgRaises(true), Index2023, i);
        SeriesStrictlyDominatedFrom(startSalary, StrongRaises(false), StrongRaises(true), Index2023, i);
      }
    }
  }

  /** Applying the base-year inflation entry to the starting salary, as a path
      that compounds in every year would, changes nothing: that entry is 0%. */
  lemma BaseYearInflationIsNeutral(startSalary: real)
    ensures Series(startSalary * Growth(Inflation[0]), Inflation) == Series(startSalary, Inflation)
  {
  }
}
