/** The donut chart of the stored expenses: one slice per expense, sized by
    its cost and labelled by its name, with fallbacks for bad values. */
module PieChart {
  import opened Wrappers
  import opened Numbers
  import opened Expenses

  /** The chart's expenses: the decoded `expenses` entry, or none. */
  function PieExpenses(stored: Option<seq<Expense>>): (r: seq<Expense>)
    ensures stored.None? ==> r == []
    ensures stored.Some? ==> r == stored.value
  {
    stored.GetOr([])
  }

  /** `parseFloat(expense.cost) || 0`: NaN (and 0) become 0. */
  function SliceSize(parse: Parser, e: Expense): (r: real)
    ensures parse(e.cost).Val? ==> r == parse(e.cost).v
    ensures parse(e.cost).NaN? ==> r == 0.0
  {
    if parse(e.cost).Val? then parse(e.cost).v else 0.0
  }

  /** `expense.name || "Unknown"`. */
  function SliceLabel(e: Expense): (r: string)
    ensures r != ""
    ensures e.name != "" ==> r == e.name
  {
    OrElse(e.name, "Unknown")
  }

  /** `series`: one slice size per expense. */
  function PieSeries(parse: Parser, xs: seq<Expense>): (r: seq<real>)
    ensures |r| == |xs|
    ensures forall i :: 0 <= i < |xs| ==> r[i] == SliceSize(parse, xs[i])
  {
    seq(|xs|, i requires 0 <= i < |xs| => SliceSize(parse, xs[i]))
  }

  /** `labels`: one label per expense. */
  function PieLabels(xs: seq<Expense>): (r: seq<string>)
    ensures |r| == |xs|
    ensures forall i :: 0 <= i < |xs| ==> r[i] == SliceLabel(xs[i])
  {
    seq(|xs|, i requires 0 <= i < |xs| => SliceLabel(xs[i]))
  }

  /** `labels.length > 0 ? labels : ["No Expenses"]`, the labels the chart shows. */
  function DisplayedLabels(xs: seq<Expense>): (r: seq<string>)
    ensures xs == [] ==> r == ["No Expenses"]
    ensures xs != [] ==> r == PieLabels(xs)
  {
    var labels := PieLabels(xs);
    if |labels| > 0 then labels else ["No Expenses"]
  }

  // ---------------------------------------------------------------------
  // Properties

  /** Slices and labels line up one to one with the expenses, and no label is empty. */
  lemma SeriesAndLabelsAligned(parse: Parser, xs: seq<Expense>)
    ensures |PieSeries(parse, xs)| == |PieLabels(xs)| == |xs|
    ensures forall i :: 0 <= i < |xs| ==> PieLabels(xs)[i] != ""
    ensures |DisplayedLabels(xs)| > 0
  {
  }

  /** A slice is labelled "Unknown" exactly when its expense has no name or
      is itself called "Unknown"; the two cannot be told apart on the chart. */
  lemma LabelsFallBackToUnknown(xs: seq<Expense>, i: int)
    requires 0 <= i < |xs|
    ensures PieLabels(xs)[i] == "Unknown" <==> xs[i].name == "" || xs[i].name == "Unknown"
  {
  }

  /** Whenever every non-empty cost parses, the slices add up to the total
      the projection and the chart page compute, since an empty cost counts
      as 0 on both sides. */
  lemma SlicesAddUpToCostTotal(parse: Parser, xs: seq<Expense>)
    requires ParseFloatBasics(parse)
    requires forall i :: 0 <= i < |xs| ==> xs[i].cost != "" ==> parse(xs[i].cost).Val?
    ensures CostTotal(parse, xs) == Val(RealSum(PieSeries(parse, xs)))
  {
    var ns := ParsedCosts(parse, xs);
    var series := PieSeries(parse, xs);
    forall i | 0 <= i < |ns|
      ensures ns[i] == Val(series[i])
    {
      if xs[i].cost == "" {
        assert CostOrZero(xs[i]) == "0";
      } else {
        assert CostOrZero(xs[i]) == xs[i].cost;
      }
    }
    SumOfValues(ns, series);
  }

  /** A cost that does not parse is drawn as an empty slice, while the same
      cost makes the projection's total NaN. */
  lemma UnparsableCostIsEmptySlice(parse: Parser, xs: seq<Expense>, k: int)
    requires 0 <= k < |xs|
    requires xs[k].cost != "" && parse(xs[k].cost).NaN?
    ensures PieSeries(parse, xs)[k] == 0.0
    ensures CostTotal(parse, xs) == NaN
  {
    UnparsableCostMakesTotalNaN(parse, xs, k);
  }
}
