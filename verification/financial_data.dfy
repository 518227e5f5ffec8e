/** The twelve-month projection behind the budget charts
    (`calculateFinancialData`): a flat monthly expense total, a savings
    balance and an investment balance that compounds monthly. */
module FinancialData {
  import opened Numbers
  import opened Expenses

  /** One month's interest at 8 % a year: the balance times 1 + 0.08 / 12. */
  function WithMonthlyInterest(x: real): (r: real)
    ensures r == x * (151.0 / 150.0)
  {
    x * (1.0 + 0.08 / 12.0)
  }

  function WithMonthlyInterestNum(x: Num): Num {
    if x.Val? then Val(WithMonthlyInterest(x.v)) else NaN
  }

  /** The three series the calculator returns, one entry per month. */
  datatype Projection = Projection(
    balanceData: seq<Num>,
    investmentData: seq<Num>,
    monthlyExpensesData: seq<Num>)

  /** What is left of the income each month; not clamped, so it may be negative. */
  function NetIncome(income: Num, total: Num): (r: Num)
    ensures r.NaN? <==> income.NaN? || total.NaN?
    ensures r.Val? ==> r.v + total.v == income.v
  {
    Sub(income, total)
  }

  /** The share of the net income that goes into the investment each month. */
  function InvestmentPortion(income: Num, total: Num, percentage: Num): (r: Num)
    ensures r.NaN? <==> income.NaN? || total.NaN? || percentage.NaN?
  {
    Mul(Div(percentage, 100.0), NetIncome(income, total))
  }

  /** The rest of the net income, which goes into savings each month. */
  function SavingsPortion(income: Num, total: Num, percentage: Num): (r: Num)
    ensures r.NaN? <==> income.NaN? || total.NaN? || percentage.NaN?
    ensures r.Val? ==> Add(r, InvestmentPortion(income, total, percentage)) == NetIncome(income, total)
  {
    Sub(NetIncome(income, total), InvestmentPortion(income, total, percentage))
  }

  /** `x` added to itself `n` times, starting from 0. */
  function Times(n: nat, x: Num): (r: Num)
    ensures r.NaN? <==> n > 0 && x.NaN?
  {
    if n == 0 then Val(0.0) else Add(Times(n - 1, x), x)
  }

  /** The investment balance after `n` monthly deposits: each month the
      deposit is added and the whole balance then earns a month's interest.
      Nothing is rounded along the way. */
  function InvestmentAfter(n: nat, deposit: Num): (r: Num)
    ensures r.NaN? <==> n > 0 && deposit.NaN?
  {
    if n == 0 then Val(0.0)
    else WithMonthlyInterestNum(Add(InvestmentAfter(n - 1, deposit), deposit))
  }

  /** The loop's running totals. */
  datatype Accumulators = Accumulators(cumulativeExpenses: Num, savings: Num, investment: Num)

  const Start: Accumulators := Accumulators(Val(0.0), Val(0.0), Val(0.0))

  /** The running totals after `n` months, in closed form. */
  ghost predicate AfterMonths(st: Accumulators, n: nat, income: Num, total: Num, percentage: Num) {
    && st.cumulativeExpenses == Times(n, total)
    && st.savings == Times(n, SavingsPortion(income, total, percentage))
    && st.investment == InvestmentAfter(n, InvestmentPortion(income, total, percentage))
  }

  /** The first `n` entries of each series, in closed form. */
  ghost predicate SeriesUpTo(out: Projection, n: nat, income: Num, total: Num, percentage: Num) {
    && |out.balanceData| == n
    && |out.investmentData| == n
    && |out.monthlyExpensesData| == n
    && (forall i :: 0 <= i < n ==>
          out.monthlyExpensesData[i] == Times(i + 1, total))
    && (forall i :: 0 <= i < n ==>
          out.balanceData[i] == RoundNum(Times(i + 1, SavingsPortion(income, total, percentage))))
    && (forall i :: 0 <= i < n ==>
          out.investmentData[i] == RoundNum(InvestmentAfter(i + 1, InvestmentPortion(income, total, percentage))))
  }

  /** Months `i` to 11 of the loop; `st` and `out` hold what months 0 to
      `i - 1` produced. */
  function Months(income: Num, total: Num, percentage: Num, i: nat, st: Accumulators, out: Projection): (r: Projection)
    requires i <= MonthCount
    requires AfterMonths(st, i, income, total, percentage)
    requires SeriesUpTo(out, i, income, total, percentage)
    ensures SeriesUpTo(r, MonthCount, income, total, percentage)
    decreases MonthCount - i
  {
    if i == MonthCount then out
    else
      var cumulativeExpenses := Add(st.cumulativeExpenses, total);
      var netIncome := Sub(income, total);
      var investmentPortion := Mul(Div(percentage, 100.0), netIncome);
      var savingsPortion := Sub(netIncome, investmentPortion);
      var savings := Add(st.savings, savingsPortion);
      var investment := WithMonthlyInterestNum(Add(st.investment, investmentPortion));
      var st' := Accumulators(cumulativeExpenses, savings, investment);
      var out' := Projection(
        out.balanceData + [RoundNum(savings)],
        out.investmentData + [RoundNum(investment)],
        out.monthlyExpensesData + [cumulativeExpenses]);
      Months(income, total, percentage, i + 1, st', out')
  }

  /** `calculateFinancialData(income, expenses, investmentPercentage)`. */
  function CalculateFinancialData(parse: Parser, income: Num, expenses: seq<Expense>, investmentPercentage: Num): (r: Projection)
    ensures |r.balanceData| == MonthCount
    ensures |r.investmentData| == MonthCount
    ensures |r.monthlyExpensesData| == MonthCount
    ensures forall i :: 0 <= i < MonthCount ==>
      r.monthlyExpensesData[i] == Times(i + 1, CostTotal(parse, expenses))
    ensures forall i :: 0 <= i < MonthCount ==>
      r.balanceData[i] == RoundNum(Times(i + 1,
        SavingsPortion(income, CostTotal(parse, expenses), investmentPercentage)))
    ensures forall i :: 0 <= i < MonthCount ==>
      r.investmentData[i] == RoundNum(InvestmentAfter(i + 1,
        InvestmentPortion(income, CostTotal(parse, expenses), investmentPercentage)))
  {
    var total := CostTotal(parse, expenses);
    Months(income, total, investmentPercentage, 0, Start, Projection([], [], []))
  }

  // ---------------------------------------------------------------------
  // Repeated sums and the compounding balance

  /** Adding a number to itself n times is multiplying it by n (in the
      real-number model; JavaScript's doubles can differ in the last bits). */
  lemma {:induction false} TimesOfValue(n: nat, a: real)
    ensures Times(n, Val(a)) == Val(n as real * a)
  {
    if n > 0 {
      TimesOfValue(n - 1, a);
      assert n as real * a == (n - 1) as real * a + a;
    }
  }

  lemma {:induction false} TimesOfZero(n: nat)
    ensures Times(n, Val(0.0)) == Val(0.0)
  {
    if n > 0 {
      TimesOfZero(n - 1);
    }
  }

  lemma {:induction false} TimesOfNaN(n: nat)
    requires n >= 1
    ensures Times(n, NaN) == NaN
  {
  }

  lemma ScaleMonotone(m: nat, n: nat, a: real)
    requires m <= n && a >= 0.0
    ensures m as real * a <= n as real * a
  {
    assert n as real * a == m as real * a + (n - m) as real * a;
  }

  /** n copies of a non-negative amount grow with n. */
  lemma TimesMonotone(m: nat, n: nat, a: real)
    requires m <= n && a >= 0.0
    ensures AtMost(Times(m, Val(a)), Times(n, Val(a)))
  {
    TimesOfValue(m, a);
    TimesOfValue(n, a);
    ScaleMonotone(m, n, a);
  }

  /** n copies of a non-positive amount shrink with n. */
  lemma TimesAntitone(m: nat, n: nat, a: real)
    requires m <= n && a <= 0.0
    ensures AtMost(Times(n, Val(a)), Times(m, Val(a)))
  {
    TimesOfValue(m, a);
    TimesOfValue(n, a);
    ScaleMonotone(m, n, -a);
  }

  /** (1 + 0.08 / 12) to the power n. */
  function GrowthPower(n: nat): real {
    if n == 0 then 1.0 else WithMonthlyInterest(GrowthPower(n - 1))
  }

  /** The investment balance in closed form: n deposits of a, each month
      compounding at 8 %/12, come to 151 * a * ((1 + 0.08/12)^n - 1), the
      geometric sum of the growth factors the deposits have seen. */
  lemma {:induction false} InvestmentClosedForm(n: nat, a: real)
    ensures InvestmentAfter(n, Val(a)) == Val(151.0 * a * (GrowthPower(n) - 1.0))
  {
    if n > 0 {
      InvestmentClosedForm(n - 1, a);
      var q := GrowthPower(n - 1);
      assert InvestmentAfter(n, Val(a)) == Val(WithMonthlyInterest(151.0 * a * (q - 1.0) + a));
      assert GrowthPower(n) == WithMonthlyInterest(q);
      GeometricStep(a, q);
    }
  }

  lemma GeometricStep(a: real, q: real)
    ensures WithMonthlyInterest(151.0 * a * (q - 1.0) + a) == 151.0 * a * (WithMonthlyInterest(q) - 1.0)
  {
    assert 151.0 * a * (q - 1.0) + a == a * (151.0 * q - 150.0);
    assert WithMonthlyInterest(a * (151.0 * q - 150.0)) == a * (151.0 * q - 150.0) * (151.0 / 150.0);
    assert WithMonthlyInterest(q) == q * (151.0 / 150.0);
  }

  /** A month's interest never lowers a non-negative balance. */
  lemma GrowthStep(x: real)
    requires x >= 0.0
    ensures WithMonthlyInterest(x) >= x
  {
  }

  lemma {:induction false} InvestmentIsValue(n: nat, a: real)
    ensures InvestmentAfter(n, Val(a)).Val?
  {
    if n > 0 {
      InvestmentIsValue(n - 1, a);
    }
  }

  /** One month of the investment recurrence on numeric values. */
  lemma InvestmentStep(n: nat, a: real)
    ensures InvestmentAfter(n, Val(a)).Val?
    ensures InvestmentAfter(n + 1, Val(a)) == Val(WithMonthlyInterest(InvestmentAfter(n, Val(a)).v + a))
  {
    InvestmentIsValue(n, a);
  }

  /** With non-negative deposits the balance is never negative. */
  lemma {:induction false} InvestmentNonNegative(n: nat, a: real)
    requires a >= 0.0
    ensures AtMost(Val(0.0), InvestmentAfter(n, Val(a)))
  {
    if n > 0 {
      InvestmentNonNegative(n - 1, a);
      InvestmentStep(n - 1, a);
      GrowthStep(InvestmentAfter(n - 1, Val(a)).v + a);
    }
  }

  /** With non-negative deposits the balance never falls from one month to the next. */
  lemma InvestmentStepsUp(n: nat, a: real)
    requires a >= 0.0
    ensures AtMost(InvestmentAfter(n, Val(a)), InvestmentAfter(n + 1, Val(a)))
  {
    InvestmentNonNegative(n, a);
    InvestmentStep(n, a);
    GrowthStep(InvestmentAfter(n, Val(a)).v + a);
  }

  lemma {:induction false} TimesIsValue(n: nat, a: real)
    ensures Times(n, Val(a)).Val?
  {
    if n > 0 {
      TimesIsValue(n - 1, a);
    }
  }

  /** With non-negative deposits the balance is never less than the deposits
      paid in: interest only ever adds to it. */
  lemma {:induction false} InvestmentCoversDeposits(n: nat, a: real)
    requires a >= 0.0
    ensures AtMost(Times(n, Val(a)), InvestmentAfter(n, Val(a)))
  {
    if n > 0 {
      InvestmentCoversDeposits(n - 1, a);
      InvestmentNonNegative(n - 1, a);
      InvestmentStep(n - 1, a);
      TimesIsValue(n - 1, a);
      GrowthStep(InvestmentAfter(n - 1, Val(a)).v + a);
    }
  }

  lemma {:induction false} InvestmentMonotone(m: nat, n: nat, a: real)
    requires m <= n && a >= 0.0
    ensures AtMost(InvestmentAfter(m, Val(a)), InvestmentAfter(n, Val(a)))
  {
    if m == n {
      InvestmentStepsUp(n, a);
    } else {
      InvestmentMonotone(m, n - 1, a);
      InvestmentStepsUp(n - 1, a);
    }
  }

  lemma {:induction false} InvestmentWithoutDeposits(n: nat)
    ensures InvestmentAfter(n, Val(0.0)) == Val(0.0)
  {
    if n > 0 {
      InvestmentWithoutDeposits(n - 1);
    }
  }

  lemma {:induction false} InvestmentOfNaN(n: nat)
    requires n >= 1
    ensures InvestmentAfter(n, NaN) == NaN
  {
  }

  // ---------------------------------------------------------------------
  // Single entries of a series

  lemma EntryTimes(s: seq<Num>, i: nat, x: real)
    requires i < |s| && s[i] == Times(i + 1, Val(x))
    ensures s[i] == Val((i + 1) as real * x)
  {
    TimesOfValue(i + 1, x);
  }

  lemma EntryRoundedTimes(s: seq<Num>, i: nat, x: real)
    requires i < |s| && s[i] == RoundNum(Times(i + 1, Val(x)))
    ensures s[i] == Val(Round2((i + 1) as real * x))
  {
    TimesOfValue(i + 1, x);
    assert Times(i + 1, Val(x)) == Val((i + 1) as real * x);
  }

  lemma EntriesRise(s: seq<Num>, i: nat, j: nat, x: real)
    requires i <= j < |s| && x >= 0.0
    requires s[i] == Times(i + 1, Val(x)) && s[j] == Times(j + 1, Val(x))
    ensures AtMost(s[i], s[j])
  {
    TimesMonotone(i + 1, j + 1, x);
  }

  lemma RoundedEntriesRise(s: seq<Num>, i: nat, j: nat, x: real)
    requires i <= j < |s| && x >= 0.0
    requires s[i] == RoundNum(Times(i + 1, Val(x))) && s[j] == RoundNum(Times(j + 1, Val(x)))
    ensures AtMost(s[i], s[j])
  {
    TimesMonotone(i + 1, j + 1, x);
    Round2Monotone(Times(i + 1, Val(x)).v, Times(j + 1, Val(x)).v);
  }

  lemma RoundedEntriesFall(s: seq<Num>, i: nat, j: nat, x: real)
    requires i <= j < |s| && x <= 0.0
    requires s[i] == RoundNum(Times(i + 1, Val(x))) && s[j] == RoundNum(Times(j + 1, Val(x)))
    ensures AtMost(s[j], s[i])
  {
    TimesAntitone(i + 1, j + 1, x);
    Round2Monotone(Times(j + 1, Val(x)).v, Times(i + 1, Val(x)).v);
  }

  lemma RoundedEntryNotPositive(s: seq<Num>, i: nat, x: real)
    requires i < |s| && x <= 0.0
    requires s[i] == RoundNum(Times(i + 1, Val(x)))
    ensures AtMost(s[i], Val(0.0))
  {
    TimesAntitone(0, i + 1, x);
    assert Times(0, Val(x)) == Val(0.0);
  }

  lemma InvestmentEntriesRise(s: seq<Num>, i: nat, j: nat, a: real)
    requires i <= j < |s| && a >= 0.0
    requires s[i] == RoundNum(InvestmentAfter(i + 1, Val(a)))
    requires s[j] == RoundNum(InvestmentAfter(j + 1, Val(a)))
    ensures AtMost(s[i], s[j])
  {
    InvestmentMonotone(i + 1, j + 1, a);
    Round2Monotone(InvestmentAfter(i + 1, Val(a)).v, InvestmentAfter(j + 1, Val(a)).v);
  }

  // ---------------------------------------------------------------------
  // Properties of the projection

  /** The expense series is a running total: month i holds i + 1 months of
      expenses, so it never falls when the monthly total is not negative. */
  lemma ExpensesAreRunningTotal(parse: Parser, income: Num, expenses: seq<Expense>, percentage: Num, t: real)
    requires CostTotal(parse, expenses) == Val(t)
    ensures var r := CalculateFinancialData(parse, income, expenses, percentage);
      && (forall i :: 0 <= i < MonthCount ==> r.monthlyExpensesData[i] == Val((i + 1) as real * t))
      && (t >= 0.0 ==> forall i, j :: 0 <= i <= j < MonthCount ==>
            AtMost(r.monthlyExpensesData[i], r.monthlyExpensesData[j]))
  {
    var r := CalculateFinancialData(parse, income, expenses, percentage);
    forall i | 0 <= i < MonthCount
      ensures r.monthlyExpensesData[i] == Val((i + 1) as real * t)
    {
      EntryTimes(r.monthlyExpensesData, i, t);
    }
    if t >= 0.0 {
      forall i, j | 0 <= i <= j < MonthCount
        ensures AtMost(r.monthlyExpensesData[i], r.monthlyExpensesData[j])
      {
        EntriesRise(r.monthlyExpensesData, i, j, t);
      }
    }
  }

  /** For numeric inputs the monthly savings share is (1 - p/100) of the
      net income m - t, which is not clamped at zero. */
  lemma InvestmentPortionValue(m: real, t: real, p: real)
    ensures InvestmentPortion(Val(m), Val(t), Val(p)) == Val(p / 100.0 * (m - t))
  {
  }

  lemma SavingsPortionValue(m: real, t: real, p: real)
    ensures SavingsPortion(Val(m), Val(t), Val(p)) == Val((1.0 - p / 100.0) * (m - t))
  {
  }

  /** The savings series in closed form: month i holds, rounded to cents,
      i + 1 times the monthly savings share. Only the pushed value is
      rounded; the running total is carried unrounded. */
  lemma SavingsClosedForm(parse: Parser, income: Num, expenses: seq<Expense>, percentage: Num, share: real)
    requires SavingsPortion(income, CostTotal(parse, expenses), percentage) == Val(share)
    ensures var r := CalculateFinancialData(parse, income, expenses, percentage);
      forall i :: 0 <= i < MonthCount ==> r.balanceData[i] == Val(Round2((i + 1) as real * share))
  {
    var r := CalculateFinancialData(parse, income, expenses, percentage);
    forall i | 0 <= i < MonthCount
      ensures r.balanceData[i] == Val(Round2((i + 1) as real * share))
    {
      EntryRoundedTimes(r.balanceData, i, share);
    }
  }

  /** When the monthly savings share is not negative the savings series never falls. */
  lemma SavingsNeverFall(parse: Parser, income: Num, expenses: seq<Expense>, percentage: Num, share: real)
    requires SavingsPortion(income, CostTotal(parse, expenses), percentage) == Val(share)
    requires share >= 0.0
    ensures var r := CalculateFinancialData(parse, income, expenses, percentage);
      forall i, j :: 0 <= i <= j < MonthCount ==> AtMost(r.balanceData[i], r.balanceData[j])
  {
    var r := CalculateFinancialData(parse, income, expenses, percentage);
    forall i, j | 0 <= i <= j < MonthCount
      ensures AtMost(r.balanceData[i], r.balanceData[j])
    {
      RoundedEntriesRise(r.balanceData, i, j, share);
    }
  }

  /** When the monthly savings share is not positive the savings series never rises. */
  lemma SavingsNeverRise(parse: Parser, income: Num, expenses: seq<Expense>, percentage: Num, share: real)
    requires SavingsPortion(income, CostTotal(parse, expenses), percentage) == Val(share)
    requires share <= 0.0
    ensures var r := CalculateFinancialData(parse, income, expenses, percentage);
      forall i, j :: 0 <= i <= j < MonthCount ==> AtMost(r.balanceData[j], r.balanceData[i])
  {
    var r := CalculateFinancialData(parse, income, expenses, percentage);
    forall i, j | 0 <= i <= j < MonthCount
      ensures AtMost(r.balanceData[j], r.balanceData[i])
    {
      RoundedEntriesFall(r.balanceData, i, j, share);
    }
  }

  lemma OverspendingShare(m: real, t: real, p: real)
    requires m < t && p < 100.0
    ensures SavingsPortion(Val(m), Val(t), Val(p)).Val?
    ensures SavingsPortion(Val(m), Val(t), Val(p)).v < 0.0
  {
    SavingsPortionValue(m, t, p);
    var u := 1.0 - p / 100.0;
    var w := m - t;
    assert u > 0.0 && w < 0.0;
    assert u * w < 0.0;
  }

  /** Spending more than the income with less than all of it invested makes
      the savings share negative: the savings balance never rises and never
      goes above zero. */
  lemma OverspendingDrainsSavings(parse: Parser, m: real, expenses: seq<Expense>, p: real, t: real)
    requires CostTotal(parse, expenses) == Val(t)
    requires m < t && p < 100.0
    ensures var r := CalculateFinancialData(parse, Val(m), expenses, Val(p));
      && (forall i :: 0 <= i < MonthCount ==> AtMost(r.balanceData[i], Val(0.0)))
      && (forall i, j :: 0 <= i <= j < MonthCount ==> AtMost(r.balanceData[j], r.balanceData[i]))
  {
    var r := CalculateFinancialData(parse, Val(m), expenses, Val(p));
    OverspendingShare(m, t, p);
    var share := SavingsPortion(Val(m), Val(t), Val(p)).v;
    SavingsNeverRise(parse, Val(m), expenses, Val(p), share);
    forall i | 0 <= i < MonthCount
      ensures AtMost(r.balanceData[i], Val(0.0))
    {
      RoundedEntryNotPositive(r.balanceData, i, share);
    }
  }

  /** With nothing invested the investment series stays at zero. */
  lemma ZeroPercentNoInvestment(parse: Parser, m: real, expenses: seq<Expense>)
    requires CostTotal(parse, expenses).Val?
    ensures var r := CalculateFinancialData(parse, Val(m), expenses, Val(0.0));
      forall i :: 0 <= i < MonthCount ==> r.investmentData[i] == Val(0.0)
  {
    var deposit := InvestmentPortion(Val(m), CostTotal(parse, expenses), Val(0.0));
    assert deposit == Val(0.0);
    forall n: nat | n <= MonthCount
      ensures InvestmentAfter(n, deposit) == Val(0.0)
    {
      InvestmentWithoutDeposits(n);
    }
    Round2OfCents(0);
  }

  /** With everything invested the savings series stays at zero. */
  lemma FullPercentNoSavings(parse: Parser, m: real, expenses: seq<Expense>)
    requires CostTotal(parse, expenses).Val?
    ensures var r := CalculateFinancialData(parse, Val(m), expenses, Val(100.0));
      forall i :: 0 <= i < MonthCount ==> r.balanceData[i] == Val(0.0)
  {
    assert SavingsPortion(Val(m), CostTotal(parse, expenses), Val(100.0)) == Val(0.0);
    forall n: nat | n <= MonthCount
      ensures Times(n, Val(0.0)) == Val(0.0)
    {
      TimesOfZero(n);
    }
    Round2OfCents(0);
  }

  /** With a non-negative monthly deposit the investment series never falls. */
  lemma InvestmentSeriesNonDecreasing(parse: Parser, income: Num, expenses: seq<Expense>, percentage: Num, a: real)
    requires InvestmentPortion(income, CostTotal(parse, expenses), percentage) == Val(a)
    requires a >= 0.0
    ensures var r := CalculateFinancialData(parse, income, expenses, percentage);
      forall i, j :: 0 <= i <= j < MonthCount ==> AtMost(r.investmentData[i], r.investmentData[j])
  {
    var r := CalculateFinancialData(parse, income, expenses, percentage);
    forall i, j | 0 <= i <= j < MonthCount
      ensures AtMost(r.investmentData[i], r.investmentData[j])
    {
      InvestmentEntriesRise(r.investmentData, i, j, a);
    }
  }

  /** One non-empty cost that does not parse turns every entry of all three
      series into NaN: only an empty cost falls back to "0". */
  lemma UnparsableCostPoisonsProjection(parse: Parser, income: Num, expenses: seq<Expense>, percentage: Num, k: int)
    requires 0 <= k < |expenses|
    requires expenses[k].cost != "" && parse(expenses[k].cost).NaN?
    ensures var r := CalculateFinancialData(parse, income, expenses, percentage);
      && (forall i :: 0 <= i < MonthCount ==> r.monthlyExpensesData[i] == NaN)
      && (forall i :: 0 <= i < MonthCount ==> r.balanceData[i] == NaN)
      && (forall i :: 0 <= i < MonthCount ==> r.investmentData[i] == NaN)
  {
    UnparsableCostMakesTotalNaN(parse, expenses, k);
    var deposit := InvestmentPortion(income, NaN, percentage);
    forall n: nat | 1 <= n <= MonthCount
      ensures Times(n, NaN) == NaN && InvestmentAfter(n, deposit) == NaN
    {
      TimesOfNaN(n);
      InvestmentOfNaN(n);
    }
  }

  /** A NaN income or percentage leaves the expense series alone but makes
      every savings and investment entry NaN. */
  lemma NaNIncomeOrPercentage(parse: Parser, income: Num, expenses: seq<Expense>, percentage: Num)
    requires income.NaN? || percentage.NaN?
    ensures var r := CalculateFinancialData(parse, income, expenses, percentage);
      && (forall i :: 0 <= i < MonthCount ==> r.balanceData[i] == NaN)
      && (forall i :: 0 <= i < MonthCount ==> r.investmentData[i] == NaN)
  {
    var total := CostTotal(parse, expenses);
    assert InvestmentPortion(income, total, percentage) == NaN;
    assert SavingsPortion(income, total, percentage) == NaN;
    forall n: nat | 1 <= n <= MonthCount
      ensures Times(n, NaN) == NaN && InvestmentAfter(n, NaN) == NaN
    {
      TimesOfNaN(n);
      InvestmentOfNaN(n);
    }
  }

  /** With no expenses the expense series is all zeros. */
  lemma NoExpensesNoExpenseSeries(parse: Parser, income: Num, percentage: Num)
    ensures var r := CalculateFinancialData(parse, income, [], percentage);
      forall i :: 0 <= i < MonthCount ==> r.monthlyExpensesData[i] == Val(0.0)
  {
    forall n: nat | n <= MonthCount
      ensures Times(n, Val(0.0)) == Val(0.0)
    {
      TimesOfZero(n);
    }
  }

  /** The projection reads only the costs of the expenses. */
  lemma ProjectionReadsOnlyCosts(parse: Parser, income: Num, xs: seq<Expense>, ys: seq<Expense>, percentage: Num)
    requires |xs| == |ys|
    requires forall i :: 0 <= i < |xs| ==> xs[i].cost == ys[i].cost
    ensures CalculateFinancialData(parse, income, xs, percentage) == CalculateFinancialData(parse, income, ys, percentage)
  {
    CostTotalReadsOnlyCosts(parse, xs, ys);
  }

  // ---------------------------------------------------------------------
  // Worked scenarios

  /** One month of compounding on a deposit of 1000, and two. */
  lemma ThousandAMonth()
    ensures RoundNum(InvestmentAfter(1, Val(1000.0))) == Val(1006.67)
    ensures RoundNum(InvestmentAfter(2, Val(1000.0))) == Val(2020.04)
  {
    var first := WithMonthlyInterest(1000.0);
    assert InvestmentAfter(1, Val(1000.0)) == Val(first);
    assert Cents(first) == 100667;
    var second := WithMonthlyInterest(first + 1000.0);
    assert InvestmentAfter(2, Val(1000.0)) == Val(second);
    assert Cents(second) == 202004;
  }

  /** An income of 1000, no expenses and everything invested: the investment
      reads 1006.67 after one month and 2020.04 after two, because the
      unrounded balance is carried forward; savings stay at 0. */
  lemma ScenarioAllInvested(parse: Parser)
    ensures var r := CalculateFinancialData(parse, Val(1000.0), [], Val(100.0));
      && r.investmentData[0] == Val(1006.67)
      && r.investmentData[1] == Val(2020.04)
      && (forall i :: 0 <= i < MonthCount ==> r.balanceData[i] == Val(0.0))
  {
    assert CostTotal(parse, []) == Val(0.0);
    assert InvestmentPortion(Val(1000.0), Val(0.0), Val(100.0)) == Val(1000.0);
    ThousandAMonth();
    FullPercentNoSavings(parse, 1000.0, []);
  }

  /** Had the loop carried the rounded 1006.67 into the second month, the
      second entry would read 2020.05 instead of 2020.04. */
  lemma RoundedCarryWouldDiffer()
    ensures var carried := RoundNum(InvestmentAfter(1, Val(1000.0))).v;
      && Round2(WithMonthlyInterest(carried + 1000.0)) == 2020.05
      && RoundNum(InvestmentAfter(2, Val(1000.0))) != Val(2020.05)
  {
    ThousandAMonth();
    assert Cents(WithMonthlyInterest(1006.67 + 1000.0)) == 202005;
  }
}
