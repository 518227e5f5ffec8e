/** The expense entry form on the home page: the list of expense rows the
    user edits, and the remaining balance it stores on submit. */
module EntryForm {
  import opened Numbers
  import opened Expenses

  /** The three inputs of a row, named as in their `name` attribute. */
  datatype Field = Name | Cost | Description

  function Get(e: Expense, f: Field): string {
    match f
    case Name => e.name
    case Cost => e.cost
    case Description => e.description
  }

  /** `{ ...e, [field]: value }`. */
  function SetField(e: Expense, f: Field, value: string): (r: Expense)
    ensures Get(r, f) == value
    ensures forall g: Field :: g != f ==> Get(r, g) == Get(e, g)
  {
    match f
    case Name => e.(name := value)
    case Cost => e.(cost := value)
    case Description => e.(description := value)
  }

  /** The form starts with a single blank row. */
  function InitialExpenses(): (r: seq<Expense>)
    ensures |r| == 1
    ensures r[0].name == "" && r[0].cost == "" && r[0].description == ""
  {
    [Blank]
  }

  /** `handleChange`: the row at `index` gets `value` in `field`. The form
      only calls it with the index of a row it is displaying. */
  function HandleChange(xs: seq<Expense>, index: int, field: Field, value: string): (r: seq<Expense>)
    requires 0 <= index < |xs|
    ensures |r| == |xs|
    ensures Get(r[index], field) == value
    ensures forall g: Field :: g != field ==> Get(r[index], g) == Get(xs[index], g)
    ensures forall i :: 0 <= i < |xs| && i != index ==> r[i] == xs[i]
  {
    xs[index := SetField(xs[index], field, value)]
  }

  /** `addMoreExpenses`: one blank row at the end. */
  function AddMoreExpenses(xs: seq<Expense>): (r: seq<Expense>)
    ensures |r| == |xs| + 1
    ensures r[..|xs|] == xs
    ensures r[|xs|] == Blank
  {
    xs + [Blank]
  }

  /** `xs.filter((_, i) => i !== index)`, walking the rows with their
      position `at` in the full list. */
  function DropPosition(xs: seq<Expense>, index: int, at: int): (r: seq<Expense>)
    ensures at <= index < at + |xs| ==> r == xs[..index - at] + xs[index - at + 1..]
    ensures !(at <= index < at + |xs|) ==> r == xs
    decreases |xs|
  {
    if xs == [] then []
    else
      var rest := DropPosition(xs[1..], index, at + 1);
      if at == index then rest else [xs[0]] + rest
  }

  /** `removeExpense(index)`: every row except the one at `index`; an index
      outside the list removes nothing. */
  function RemoveExpense(xs: seq<Expense>, index: int): (r: seq<Expense>)
    ensures 0 <= index < |xs| ==> |r| == |xs| - 1
    ensures 0 <= index < |xs| ==> r[..index] == xs[..index]
    ensures 0 <= index < |xs| ==> r[index..] == xs[index + 1..]
    ensures !(0 <= index < |xs|) ==> r == xs
  {
    DropPosition(xs, index, 0)
  }

  /** The "Remove Last" button: `removeExpense(expenses.length - 1)`. */
  function RemoveLast(xs: seq<Expense>): (r: seq<Expense>)
    ensures xs != [] ==> r == xs[..|xs| - 1]
    ensures xs == [] ==> r == []
  {
    RemoveExpense(xs, |xs| - 1)
  }

  /** Removing the row just added gives back the list as it was. */
  lemma RemoveUndoesAdd(xs: seq<Expense>)
    ensures RemoveExpense(AddMoreExpenses(xs), |xs|) == xs
    ensures RemoveLast(AddMoreExpenses(xs)) == xs
  {
  }

  /** Setting a field back to its old value undoes an edit. */
  lemma HandleChangeUndo(xs: seq<Expense>, index: int, field: Field, value: string)
    requires 0 <= index < |xs|
    ensures HandleChange(HandleChange(xs, index, field, value), index, field, Get(xs[index], field)) == xs
  {
    var ys := HandleChange(xs, index, field, value);
    var zs := HandleChange(ys, index, field, Get(xs[index], field));
    assert zs[index] == xs[index] by {
      assert forall g: Field :: Get(zs[index], g) == Get(xs[index], g);
      assert Get(zs[index], Name) == Get(xs[index], Name);
      assert Get(zs[index], Cost) == Get(xs[index], Cost);
      assert Get(zs[index], Description) == Get(xs[index], Description);
    }
  }

  /** Editing a name or a description leaves the cost total as it was. */
  lemma HandleChangeKeepsTotal(parse: Parser, xs: seq<Expense>, index: int, field: Field, value: string)
    requires 0 <= index < |xs|
    requires field != Cost
    ensures CostTotal(parse, HandleChange(xs, index, field, value)) == CostTotal(parse, xs)
  {
    CostTotalReadsOnlyCosts(parse, HandleChange(xs, index, field, value), xs);
  }

  // ---------------------------------------------------------------------
  // Submitting the form

  /** Each cost parsed as typed, with no fallback for an empty cost. */
  function RawCosts(parse: Parser, xs: seq<Expense>): (r: seq<Num>)
    ensures |r| == |xs|
    ensures forall i :: 0 <= i < |xs| && xs[i].cost != "" ==> r[i] == ParsedCosts(parse, xs)[i]
    ensures ParseFloatBasics(parse) ==> forall i :: 0 <= i < |xs| && xs[i].cost == "" ==> r[i].NaN?
  {
    var r := seq(|xs|, i requires 0 <= i < |xs| => parse(xs[i].cost));
    assert forall i :: 0 <= i < |xs| && xs[i].cost != "" ==> CostOrZero(xs[i]) == xs[i].cost;
    r
  }

  /** `handleSubmit`'s remaining balance: the parsed income minus the sum of
      the costs parsed as typed. */
  function SubmitBalance(parse: Parser, income: string, xs: seq<Expense>): (r: Num)
    ensures r.NaN? <==> parse(income).NaN? || exists i :: 0 <= i < |xs| && parse(xs[i].cost).NaN?
  {
    var costs := RawCosts(parse, xs);
    assert forall i :: 0 <= i < |xs| ==> costs[i] == parse(xs[i].cost);
    Sub(parse(income), Sum(costs))
  }

  /** Unlike the totals on the other pages, a cost left empty makes the
      stored balance NaN. */
  lemma EmptyCostSpoilsSubmit(parse: Parser, income: string, xs: seq<Expense>, k: int)
    requires ParseFloatBasics(parse)
    requires 0 <= k < |xs| && xs[k].cost == ""
    ensures SubmitBalance(parse, income, xs) == NaN
  {
    assert parse(xs[k].cost).NaN?;
  }

  /** When no cost is empty, submit subtracts the same total the projection
      and the chart page use. */
  lemma SubmitAgreesWithCostTotal(parse: Parser, income: string, xs: seq<Expense>)
    requires forall i :: 0 <= i < |xs| ==> xs[i].cost != ""
    ensures SubmitBalance(parse, income, xs) == Sub(parse(income), CostTotal(parse, xs))
  {
    assert forall i :: 0 <= i < |xs| ==> CostOrZero(xs[i]) == xs[i].cost;
    assert RawCosts(parse, xs) == ParsedCosts(parse, xs);
  }

  /** The initial form, submitted without being edited, stores NaN. */
  lemma SubmitInitialForm(parse: Parser, income: string)
    requires ParseFloatBasics(parse)
    ensures SubmitBalance(parse, income, InitialExpenses()) == NaN
  {
    EmptyCostSpoilsSubmit(parse, income, InitialExpenses(), 0);
  }
}
