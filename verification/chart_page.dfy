/** The chart page's summary: the stored remaining balance, the expense
    total recomputed from the stored expenses, and the balance left after
    subtracting that total, clamped at zero. */
module ChartPage {
  import opened Wrappers
  import opened Numbers
  import opened Expenses
  import opened EntryForm

  /** The page's state once its effect has run. `None` is React's `null`. */
  datatype ChartView = ChartView(
    remainingBalance: Option<real>,
    totalExpenses: Option<Num>,
    remainingAfterExpenses: Option<real>,
    redirectHome: bool)

  const Loading: ChartView := ChartView(None, None, None, false)

  /** `x >= 0 ? x : 0`: NaN fails the comparison and becomes 0 too. */
  function ClampAtZero(x: Num): (r: real)
    ensures r >= 0.0
    ensures x.Val? && x.v >= 0.0 ==> r == x.v
    ensures !(x.Val? && x.v >= 0.0) ==> r == 0.0
  {
    if x.Val? && x.v >= 0.0 then x.v else 0.0
  }

  /** The effect body, given the raw `remainingBalance` entry of storage and
      the expenses decoded from the `expenses` entry (`None` when the entry
      is missing or empty). */
  function ChartEffect(parse: Parser, storedBalance: Option<string>, storedExpenses: Option<seq<Expense>>): (v: ChartView)
    ensures v.redirectHome <==> storedExpenses.None?
    ensures storedExpenses.None? ==> v == Loading.(redirectHome := true)
    ensures storedExpenses.Some? ==> v.totalExpenses == Some(CostTotal(parse, storedExpenses.value))
    ensures v.remainingBalance.Some? <==> storedExpenses.Some? && parse(StoredOrZero(storedBalance)).Val?
    ensures v.remainingBalance.Some? ==> parse(StoredOrZero(storedBalance)) == Val(v.remainingBalance.value)
    ensures v.remainingAfterExpenses.Some? <==> v.remainingBalance.Some?
  {
    var storedRemainingBalance := parse(StoredOrZero(storedBalance));
    match storedExpenses
    case None => Loading.(redirectHome := true)
    case Some(parsedExpenses) =>
      var totalExpenses := CostTotal(parse, parsedExpenses);
      if storedRemainingBalance.Val? then
        var after := Sub(storedRemainingBalance, totalExpenses);
        ChartView(Some(storedRemainingBalance.v), Some(totalExpenses), Some(ClampAtZero(after)), false)
      else
        ChartView(None, Some(totalExpenses), None, false)
  }

  /** The page draws its content only once both the balance and the total are set. */
  predicate Renders(v: ChartView) {
    v.remainingBalance.Some? && v.totalExpenses.Some?
  }

  // ---------------------------------------------------------------------
  // Properties

  function Max(a: real, b: real): real {
    if a >= b then a else b
  }

  /** For a numeric difference the clamp is the larger of it and zero; a
      NaN difference shows as zero. */
  lemma ClampIsMaxWithZero(x: Num)
    ensures x.Val? ==> ClampAtZero(x) == Max(x.v, 0.0)
    ensures x.NaN? ==> ClampAtZero(x) == 0.0
  {
  }

  /** The balance after expenses is never negative, and it is exactly the
      stored balance minus the total whenever that difference is. */
  lemma AfterExpensesNeverNegative(parse: Parser, storedBalance: Option<string>, storedExpenses: Option<seq<Expense>>)
    ensures var v := ChartEffect(parse, storedBalance, storedExpenses);
      v.remainingAfterExpenses.Some? ==>
        && v.remainingAfterExpenses.value >= 0.0
        && v.remainingAfterExpenses.value == ClampAtZero(Sub(Val(v.remainingBalance.value), v.totalExpenses.value))
  {
  }

  /** The page renders exactly when the expenses are stored and the stored
      balance parses; a NaN balance renders nothing. */
  lemma RendersIffBalanceParses(parse: Parser, storedBalance: Option<string>, storedExpenses: Option<seq<Expense>>)
    ensures Renders(ChartEffect(parse, storedBalance, storedExpenses))
      <==> storedExpenses.Some? && parse(StoredOrZero(storedBalance)).Val?
  {
  }

  /** A missing balance entry reads as "0": the page shows a zero balance and
      nothing left after expenses unless the total is negative. */
  lemma MissingBalanceReadsAsZero(parse: Parser, expenses: seq<Expense>, t: real)
    requires ParseFloatBasics(parse)
    requires CostTotal(parse, expenses) == Val(t)
    ensures var v := ChartEffect(parse, None, Some(expenses));
      && v.remainingBalance == Some(0.0)
      && v.remainingAfterExpenses == Some(Max(-t, 0.0))
  {
  }

  /** The balance the entry form stores on submit already has the expenses
      taken off; the page subtracts their total again, so what it shows after
      expenses is the income less twice the total, clamped at zero. */
  lemma ExpensesSubtractedTwice(parse: Parser, storedBalance: Option<string>, xs: seq<Expense>,
                                incomeText: string, m: real, t: real)
    requires forall i :: 0 <= i < |xs| ==> xs[i].cost != ""
    requires parse(incomeText) == Val(m)
    requires CostTotal(parse, xs) == Val(t)
    requires parse(StoredOrZero(storedBalance)) == SubmitBalance(parse, incomeText, xs)
    ensures ChartEffect(parse, storedBalance, Some(xs)).remainingAfterExpenses
      == Some(Max(m - 2.0 * t, 0.0))
  {
    SubmitAgreesWithCostTotal(parse, incomeText, xs);
  }
}
