/** The expense record shared by the entry form, the chart pages and the
    projection calculator, and the expense total they compute from it. */
module Expenses {
  import opened Numbers

  /** One monthly cost line. The cost is the text the user typed. */
  datatype Expense = Expense(name: string, cost: string, description: string)

  /** The row the entry form starts with and appends. */
  const Blank: Expense := Expense("", "", "")

  /** `expense.cost || "0"`: only an empty cost is replaced by "0". */
  function CostOrZero(e: Expense): (c: string)
    ensures c != ""
    ensures e.cost != "" ==> c == e.cost
    ensures e.cost == "" ==> c == "0"
  {
    OrElse(e.cost, "0")
  }

  /** Each cost read with the "0" fallback, in list order. */
  function ParsedCosts(parse: Parser, xs: seq<Expense>): seq<Num> {
    seq(|xs|, i requires 0 <= i < |xs| => parse(CostOrZero(xs[i])))
  }

  /** `expenses.reduce((t, e) => t + parseFloat(e.cost || "0"), 0)`. */
  function CostTotal(parse: Parser, xs: seq<Expense>): (r: Num)
    ensures r.NaN? <==> exists i :: 0 <= i < |xs| && parse(CostOrZero(xs[i])).NaN?
  {
    var ns := ParsedCosts(parse, xs);
    assert forall i :: 0 <= i < |xs| ==> ns[i] == parse(CostOrZero(xs[i]));
    Sum(ns)
  }

  /** The total of a concatenation is the sum of the totals. */
  lemma CostTotalAppend(parse: Parser, a: seq<Expense>, b: seq<Expense>)
    ensures CostTotal(parse, a + b) == Add(CostTotal(parse, a), CostTotal(parse, b))
  {
    ParsedCostsAppend(parse, a, b);
    SumAppend(ParsedCosts(parse, a), ParsedCosts(parse, b));
  }

  lemma ParsedCostsAppend(parse: Parser, a: seq<Expense>, b: seq<Expense>)
    ensures ParsedCosts(parse, a + b) == ParsedCosts(parse, a) + ParsedCosts(parse, b)
  {
    var pa, pb, pab := ParsedCosts(parse, a), ParsedCosts(parse, b), ParsedCosts(parse, a + b);
    forall i | 0 <= i < |pab|
      ensures pab[i] == (pa + pb)[i]
    {
      if i < |a| {
        assert (a + b)[i] == a[i];
      } else {
        assert (a + b)[i] == b[i - |a|];
      }
    }
  }

  /** An expense whose cost was left empty contributes 0 to the total. */
  lemma EmptyCostCountsAsZero(parse: Parser, xs: seq<Expense>, e: Expense)
    requires ParseFloatBasics(parse)
    requires e.cost == ""
    ensures CostTotal(parse, xs + [e]) == CostTotal(parse, xs)
  {
    CostTotalAppend(parse, xs, [e]);
    EmptyCostAlone(parse, e);
  }

  lemma EmptyCostAlone(parse: Parser, e: Expense)
    requires ParseFloatBasics(parse)
    requires e.cost == ""
    ensures CostTotal(parse, [e]) == Val(0.0)
  {
    assert CostOrZero(e) == "0";
    var single := ParsedCosts(parse, [e]);
    assert single == [Val(0.0)];
    assert single[..0] == [];
    assert Sum(single) == Add(Sum([]), Val(0.0));
  }

  /** A non-empty cost that does not parse makes the whole total NaN. */
  lemma UnparsableCostMakesTotalNaN(parse: Parser, xs: seq<Expense>, k: int)
    requires 0 <= k < |xs|
    requires xs[k].cost != "" && parse(xs[k].cost).NaN?
    ensures CostTotal(parse, xs) == NaN
  {
    assert parse(CostOrZero(xs[k])).NaN?;
  }

  /** The total reads only the costs: names and descriptions do not matter. */
  lemma CostTotalReadsOnlyCosts(parse: Parser, xs: seq<Expense>, ys: seq<Expense>)
    requires |xs| == |ys|
    requires forall i :: 0 <= i < |xs| ==> xs[i].cost == ys[i].cost
    ensures CostTotal(parse, xs) == CostTotal(parse, ys)
  {
    assert forall i :: 0 <= i < |xs| ==> CostOrZero(xs[i]) == CostOrZero(ys[i]);
    assert ParsedCosts(parse, xs) == ParsedCosts(parse, ys);
  }
}
