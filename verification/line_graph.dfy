/** The older projection drawn by the line graph: linear balance and
    expense series read from storage, and an investment series that grows
    8 % a step and carries the ROUNDED previous value forward. */
module LineGraph {
  import opened Wrappers
  import opened Numbers

  /** The three series the graph draws; all empty until they are computed. */
  datatype LineSeries = LineSeries(balanceData: seq<real>, expensesData: seq<real>, investmentData: seq<real>)

  const NoSeries: LineSeries := LineSeries([], [], [])

  /** `Array.from({ length: 12 }, (_, i) => (i + 1) * x)`. */
  function Linear(x: real): (r: seq<real>)
    ensures |r| == MonthCount
  {
    seq(MonthCount, i requires 0 <= i < MonthCount => (i + 1) as real * x)
  }

  /** One step of the reduce: the previous rounded value plus this month's
      balance, grown by 8 %, rounded to cents. */
  function Grow(previous: real, balance: real): (r: real)
    ensures previous + balance >= 0.0 ==> r >= 0.0
    ensures previous + balance <= 0.0 ==> r <= 0.0
  {
    Round2((previous + balance) * 1.08)
  }

  /** `acc[index - 1] || 0`: the last value so far, 0 before the first. */
  function Previous(acc: seq<real>): (r: real)
    ensures acc == [] ==> r == 0.0
    ensures acc != [] ==> r == acc[|acc| - 1]
  {
    if acc == [] then 0.0 else acc[|acc| - 1]
  }

  /** The `investmentData` reduce over `balances`. */
  function InvestmentGrowth(balances: seq<real>): (r: seq<real>)
    ensures |r| == |balances|
    ensures |balances| > 0 ==> r[0] == Grow(0.0, balances[0])
    ensures forall i :: 0 < i < |balances| ==> r[i] == Grow(r[i - 1], balances[i])
  {
    if balances == [] then []
    else
      var acc := InvestmentGrowth(balances[..|balances| - 1]);
      acc + [Grow(Previous(acc), balances[|balances| - 1])]
  }

  /** The effect body, given the raw `remainingBalance` and `totalExpenses`
      entries of storage. */
  function LineGraphEffect(parse: Parser, storedBalance: Option<string>, storedTotal: Option<string>): (r: LineSeries)
    ensures var b, t := parse(StoredOrZero(storedBalance)), parse(StoredOrZero(storedTotal));
      if b.Val? && t.Val? then
        && r.balanceData == Linear(b.v)
        && r.expensesData == Linear(t.v)
        && r.investmentData == InvestmentGrowth(r.balanceData)
      else r == NoSeries
  {
    var storedBalanceValue := parse(StoredOrZero(storedBalance));
    var totalExpenses := parse(StoredOrZero(storedTotal));
    if storedBalanceValue.Val? && totalExpenses.Val? then
      var balanceData := Linear(storedBalanceValue.v);
      LineSeries(balanceData, Linear(totalExpenses.v), InvestmentGrowth(balanceData))
    else NoSeries
  }

  // ---------------------------------------------------------------------
  // Properties

  /** The growth series of a prefix of the balances is the same prefix of
      the growth series: each value depends only on earlier months. */
  lemma {:induction false} GrowthOfPrefix(balances: seq<real>, k: nat)
    requires k <= |balances|
    ensures InvestmentGrowth(balances[..k]) == InvestmentGrowth(balances)[..k]
    decreases |balances|
  {
    if k < |balances| {
      var shorter := balances[..|balances| - 1];
      assert balances[..k] == shorter[..k];
      GrowthOfPrefix(shorter, k);
    } else {
      assert balances[..k] == balances;
    }
  }

  /** Growing by 8 % from a non-negative start never loses value. */
  lemma GrowNeverFalls(previous: real, balance: real)
    requires previous >= 0.0 && balance >= 0.0
    ensures Grow(previous, balance) >= Round2(previous)
  {
    assert (previous + balance) * 1.08 >= previous;
    Round2Monotone(previous, (previous + balance) * 1.08);
  }

  /** With balances that are all non-negative the investment series is
      non-negative and never falls. */
  lemma {:induction false} GrowthNonDecreasing(balances: seq<real>)
    requires forall i :: 0 <= i < |balances| ==> balances[i] >= 0.0
    ensures var r := InvestmentGrowth(balances);
      && (forall i :: 0 <= i < |r| ==> r[i] >= 0.0)
      && (forall i :: 0 < i < |r| ==> r[i - 1] <= r[i])
  {
    var r := InvestmentGrowth(balances);
    forall i | 0 <= i < |r|
      ensures r[i] >= 0.0
    {
      GrowthNonNegative(balances, i);
    }
    forall i | 0 < i < |r|
      ensures r[i - 1] <= r[i]
    {
      GrowthNonNegative(balances, i - 1);
      GrowNeverFalls(r[i - 1], balances[i]);
      RoundedStaysPut(r, i - 1, balances);
    }
  }

  lemma {:induction false} GrowthNonNegative(balances: seq<real>, i: nat)
    requires forall i :: 0 <= i < |balances| ==> balances[i] >= 0.0
    requires i < |balances|
    ensures InvestmentGrowth(balances)[i] >= 0.0
  {
    var r := InvestmentGrowth(balances);
    if i == 0 {
      assert (0.0 + balances[0]) * 1.08 >= 0.0;
    } else {
      GrowthNonNegative(balances, i - 1);
      assert (r[i - 1] + balances[i]) * 1.08 >= 0.0;
    }
  }

  /** Every value of the series is already rounded to cents. */
  lemma RoundedStaysPut(r: seq<real>, i: nat, balances: seq<real>)
    requires r == InvestmentGrowth(balances) && i < |r|
    ensures Round2(r[i]) == r[i]
  {
    if i == 0 {
      Round2Idempotent((0.0 + balances[0]) * 1.08);
    } else {
      Round2Idempotent((r[i - 1] + balances[i]) * 1.08);
    }
  }

  /** A linear series starts at its step and grows by the step each month. */
  lemma LinearIsArithmetic(x: real)
    ensures Linear(x)[0] == x
    ensures forall i :: 0 < i < MonthCount ==> Linear(x)[i] == Linear(x)[i - 1] + x
  {
  }

  /** A balance or total that does not parse leaves all three series empty. */
  lemma UnparsableStorageDrawsNothing(parse: Parser, storedBalance: Option<string>, storedTotal: Option<string>)
    requires parse(StoredOrZero(storedBalance)).NaN? || parse(StoredOrZero(storedTotal)).NaN?
    ensures LineGraphEffect(parse, storedBalance, storedTotal) == NoSeries
  {
  }

  /** A missing `totalExpenses` entry reads as "0", so the expense line is flat at 0. */
  lemma MissingTotalDrawsZeroExpenses(parse: Parser, storedBalance: Option<string>)
    requires ParseFloatBasics(parse)
    requires parse(StoredOrZero(storedBalance)).Val?
    ensures var r := LineGraphEffect(parse, storedBalance, None);
      |r.expensesData| == MonthCount && forall i :: 0 <= i < MonthCount ==> r.expensesData[i] == 0.0
  {
  }

  /** When the series are drawn, the first investment value is the first
      month's balance grown by 8 %, and all three series have 12 entries. */
  lemma DrawnSeriesShape(parse: Parser, storedBalance: Option<string>, storedTotal: Option<string>)
    requires parse(StoredOrZero(storedBalance)).Val? && parse(StoredOrZero(storedTotal)).Val?
    ensures var r := LineGraphEffect(parse, storedBalance, storedTotal);
      && |r.balanceData| == MonthCount
      && |r.expensesData| == MonthCount
      && |r.investmentData| == MonthCount
      && r.investmentData[0] == Round2(parse(StoredOrZero(storedBalance)).v * 1.08)
  {
    var b := parse(StoredOrZero(storedBalance)).v;
    assert (0.0 + b) * 1.08 == b * 1.08;
  }
}
