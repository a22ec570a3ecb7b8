/** The compounding engine behind the salary-versus-inflation comparison: a
    starting value carried through a list of years, each year after the first
    multiplying it by `1 + rate/100` for that year's percentage rate.

    Arithmetic is over `real` (exact rationals), an idealisation of the
    floating-point values the program computes with. */
module Compounding {

  /** The multiplier one year's percentage rate applies to a value. */
  function Growth(rate: real): real {
    1.0 + rate / 100.0
  }

  /** The product of the growth factors of all `rates`, taken in order: the
      reference definition of what a run of compounding years multiplies by. */
  function Product(rates: seq<real>): real
    decreases |rates|
  {
    if |rates| == 0 then 1.0
    else Product(rates[..|rates| - 1]) * Growth(rates[|rates| - 1])
  }

  /** The value reached in year `i` of the yearly loop for one rate table:
      the base year (`i == 0`) keeps `start` unchanged, whatever `rates[0]`
      says; every later year grows the previous year's value by its rate. */
  function ValueAt(start: real, rates: seq<real>, i: nat): real
    requires i < |rates|
    decreases i
  {
    if i == 0 then start else ValueAt(start, rates, i - 1) * Growth(rates[i])
  }

  /** The whole series the yearly loop produces: one value per entry of `rates`. */
  function Series(start: real, rates: seq<real>): (s: seq<real>)
    ensures |s| == |rates|
    ensures |rates| > 0 ==> s[0] == start
  {
    seq(|rates|, i requires 0 <= i < |rates| => ValueAt(start, rates, i))
  }

  /** Year `i`'s value depends only on the rates of years 1 to `i`: two tables
      that agree there give the same value, whatever they say about the base
      year or about later years. */
  lemma {:induction false} ValueAtAgree(start: real, r1: seq<real>, r2: seq<real>, i: nat)
    requires i < |r1| && i < |r2|
    requires forall j :: 0 < j <= i ==> r1[j] == r2[j]
    ensures ValueAt(start, r1, i) == ValueAt(start, r2, i)
  {
    if i > 0 {
      ValueAtAgree(start, r1, r2, i - 1);
    }
  }

  /** The series of the first `k` years is the first `k` entries of the full
      series: later years never change earlier values. */
  lemma SeriesPrefix(start: real, rates: seq<real>, k: nat)
    requires k <= |rates|
    ensures Series(start, rates[..k]) == Series(start, rates)[..k]
  {
    SeriesAgreeOnPrefix(start, rates[..k], rates, k);
    assert Series(start, rates[..k])[..k] == Series(start, rates[..k]);
  }

  /** Every year after the base year multiplies the previous year's value by
      that year's growth factor. */
  lemma SeriesStep(start: real, rates: seq<real>, i: nat)
    requires 0 < i < |rates|
    ensures Series(start, rates)[i] == Series(start, rates)[i - 1] * Growth(rates[i])
  {
  }

  /** The series is the only sequence with one entry per year that starts at
      `start` and grows by each later year's factor. */
  lemma {:induction false} SeriesCharacterised(start: real, rates: seq<real>, t: seq<real>)
    ensures t == Series(start, rates) <==>
      && |t| == |rates|
      && (|t| > 0 ==> t[0] == start)
      && (forall i :: 0 < i < |t| ==> t[i] == t[i - 1] * Growth(rates[i]))
  {
    if && |t| == |rates|
       && (|t| > 0 ==> t[0] == start)
       && (forall i :: 0 < i < |t| ==> t[i] == t[i - 1] * Growth(rates[i]))
    {
      forall i | 0 <= i < |t|
        ensures t[i] == ValueAt(start, rates, i)
      {
        MatchesValueAt(start, rates, t, i);
      }
    }
  }

  /** A sequence that starts at `start` and follows the recurrence holds
      `ValueAt` at every index. */
  lemma {:induction false} MatchesValueAt(start: real, rates: seq<real>, t: seq<real>, i: nat)
    requires |t| == |rates| && |t| > 0 && t[0] == start
    requires forall j :: 0 < j < |t| ==> t[j] == t[j - 1] * Growth(rates[j])
    requires i < |t|
    ensures t[i] == ValueAt(start, rates, i)
  {
    if i > 0 {
      MatchesValueAt(start, rates, t, i - 1);
    }
  }

  /** Closed form: entry `i` is `start` times the product of the growth
      factors of years 1 through `i`; the base year's rate takes no part. */
  lemma {:induction false} SeriesClosedForm(start: real, rates: seq<real>, i: nat)
    requires i < |rates|
    ensures Series(start, rates)[i] == start * Product(rates[1..i + 1])
  {
    var s := Series(start, rates);
    if i == 0 {
      assert rates[1..1] == [];
    } else {
      SeriesClosedForm(start, rates, i - 1);
      SeriesStep(start, rates, i);
      var window := rates[1..i + 1];
      assert window[..|window| - 1] == rates[1..i];
      assert window[|window| - 1] == rates[i];
      var p := Product(rates[1..i]);
      assert Product(window) == p * Growth(rates[i]);
      assert s[i] == (start * p) * Growth(rates[i]);
      assert (start * p) * Growth(rates[i]) == start * (p * Growth(rates[i]));
    }
  }

  /** Compounding is proportional to the start: every entry is `start` times
      the entry the same table gives from a start of 1. */
  lemma SeriesScales(start: real, rates: seq<real>, i: nat)
    requires i < |rates|
    ensures Series(start, rates)[i] == start * Series(1.0, rates)[i]
  {
    SeriesClosedForm(start, rates, i);
    SeriesClosedForm(1.0, rates, i);
  }

  /** The series depends only on the rates of years 1 to `k-1` for its first
      `k` entries: two tables that agree there give the same prefix, whatever
      they say about the base year or about later years. */
  lemma SeriesAgreeOnPrefix(start: real, r1: seq<real>, r2: seq<real>, k: nat)
    requires k <= |r1| && k <= |r2|
    requires forall i :: 0 < i < k ==> r1[i] == r2[i]
    ensures Series(start, r1)[..k] == Series(start, r2)[..k]
  {
    forall i | 0 <= i < k
      ensures Series(start, r1)[i] == Series(start, r2)[i]
    {
      ValueAtAgree(start, r1, r2, i);
    }
  }

  /** The base year's listed rate is never applied. */
  lemma SeriesIgnoresBaseRate(start: real, rates: seq<real>, other: real)
    requires |rates| > 0
    ensures Series(start, rates[0 := other]) == Series(start, rates)
  {
    var r := rates[0 := other];
    SeriesAgreeOnPrefix(start, r, rates, |rates|);
    assert Series(start, r)[..|rates|] == Series(start, r);
    assert Series(start, rates)[..|rates|] == Series(start, rates);
  }

  /** Scaling by a non-negative factor keeps order. */
  lemma ScaleMonotone(a: real, b: real, g: real)
    requires a <= b && 0.0 <= g
    ensures a * g <= b * g
  {
  }

  /** Scaling by a positive factor keeps strict order. */
  lemma ScaleStrict(a: real, b: real, g: real)
    requires a < b && 0.0 < g
    ensures a * g < b * g
  {
  }

  /** With a non-negative start and non-negative rates after the base year,
      every entry up to `j` lies between `start` and entry `j`. */
  lemma {:induction false} SeriesGrowsUpTo(start: real, rates: seq<real>, j: nat)
    requires start >= 0.0
    requires forall i :: 0 < i < |rates| ==> rates[i] >= 0.0
    requires j < |rates|
    ensures forall i :: 0 <= i <= j ==> start <= Series(start, rates)[i] <= Series(start, rates)[j]
  {
    var s := Series(start, rates);
    if j > 0 {
      SeriesGrowsUpTo(start, rates, j - 1);
      SeriesStep(start, rates, j);
      ScaleMonotone(1.0, Growth(rates[j]), s[j - 1]);
    }
  }

  /** With a non-negative start and non-negative rates, the series never
      decreases from one year to a later one and never falls below `start`. */
  lemma SeriesNonDecreasing(start: real, rates: seq<real>)
    requires start >= 0.0
    requires forall i :: 0 < i < |rates| ==> rates[i] >= 0.0
    ensures forall i :: 0 <= i < |rates| ==> start <= Series(start, rates)[i]
    ensures forall i, j :: 0 <= i <= j < |rates| ==> Series(start, rates)[i] <= Series(start, rates)[j]
  {
    forall j | 0 <= j < |rates|
      ensures forall i :: 0 <= i <= j ==> start <= Series(start, rates)[i] <= Series(start, rates)[j]
    {
      SeriesGrowsUpTo(start, rates, j);
    }
  }

  /** A table whose rates are no lower, year by year, gives a series that is
      no lower, provided the start is non-negative and no rate shrinks a value
      below zero. */
  lemma {:induction false} SeriesDominatedUpTo(start: real, lo: seq<real>, hi: seq<real>, j: nat)
    requires start >= 0.0
    requires |lo| == |hi|
    requires forall i :: 0 < i < |lo| ==> -100.0 <= lo[i] <= hi[i]
    requires j < |lo|
    ensures 0.0 <= Series(start, lo)[j] <= Series(start, hi)[j]
  {
    if j > 0 {
      SeriesDominatedUpTo(start, lo, hi, j - 1);
      SeriesStep(start, lo, j);
      SeriesStep(start, hi, j);
      var a := Series(start, lo)[j - 1];
      var b := Series(start, hi)[j - 1];
      var g := Growth(lo[j]);
      var h := Growth(hi[j]);
      ScaleMonotone(0.0, a, g);
      ScaleMonotone(a, b, g);
      ScaleMonotone(g, h, b);
    }
  }

  /** The year-by-year form of `SeriesDominatedUpTo`. */
  lemma SeriesDominated(start: real, lo: seq<real>, hi: seq<real>)
    requires start >= 0.0
    requires |lo| == |hi|
    requires forall i :: 0 < i < |lo| ==> -100.0 <= lo[i] <= hi[i]
    ensures forall i :: 0 <= i < |lo| ==> 0.0 <= Series(start, lo)[i] <= Series(start, hi)[i]
  {
    forall i | 0 <= i < |lo|
      ensures 0.0 <= Series(start, lo)[i] <= Series(start, hi)[i]
    {
      SeriesDominatedUpTo(start, lo, hi, i);
    }
  }

  /** With a positive start and rates above -100%, every value stays positive
      and the lower table's value stays at most the higher table's. */
  lemma {:induction false} SeriesPositiveUpTo(start: real, lo: seq<real>, hi: seq<real>, j: nat)
    requires start > 0.0
    requires |lo| == |hi|
    requires forall i :: 0 < i < |lo| ==> -100.0 < lo[i] <= hi[i]
    requires j < |lo|
    ensures 0.0 < Series(start, lo)[j] <= Series(start, hi)[j]
  {
    SeriesDominatedUpTo(start, lo, hi, j);
    if j > 0 {
      SeriesPositiveUpTo(start, lo, hi, j - 1);
      SeriesStep(start, lo, j);
      ScaleStrict(0.0, Series(start, lo)[j - 1], Growth(lo[j]));
    }
  }

  /** With a positive start and rates above -100%, a table that is no lower
      everywhere and strictly higher in year `k` gives a strictly higher value
      from year `k` on. */
  lemma {:induction false} SeriesStrictlyDominatedFrom(start: real, lo: seq<real>, hi: seq<real>, k: nat, j: nat)
    requires start > 0.0
    requires |lo| == |hi|
    requires forall i :: 0 < i < |lo| ==> -100.0 < lo[i] <= hi[i]
    requires 0 < k <= j < |lo|
    requires lo[k] < hi[k]
    ensures 0.0 < Series(start, lo)[j] < Series(start, hi)[j]
  {
    SeriesStep(start, lo, j);
    SeriesStep(start, hi, j);
    SeriesPositiveUpTo(start, lo, hi, j);
    var a := Series(start, lo)[j - 1];
    var b := Series(start, hi)[j - 1];
    var g := Growth(lo[j]);
    var h := Growth(hi[j]);
    SeriesPositiveUpTo(start, lo, hi, j - 1);
    if j == k {
      ScaleMonotone(a, b, g);
      ScaleStrict(g, h, b);
    } else {
      SeriesStrictlyDominatedFrom(start, lo, hi, k, j - 1);
      ScaleStrict(a, b, g);
      ScaleMonotone(g, h, b);
    }
  }
}
