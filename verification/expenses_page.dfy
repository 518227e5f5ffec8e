/** The saved-expenses page: the list fetched from the server, the loading
    flag, and the removal of an expense after the server deletes it. */
module ExpensesPage {
  /** An expense as the server returns it, identified by `_id`. */
  datatype ServerExpense = ServerExpense(id: string, name: string, description: string, cost: real)

  datatype PageState = PageState(expenses: seq<ServerExpense>, loading: bool)

  /** How a request ended: the awaited call returned, or it threw. */
  datatype Outcome<T> = Succeeded(value: T) | Failed

  /** Before the fetch: no expenses, loading. */
  const Initial: PageState := PageState([], true)

  /** The fetch's `try … finally`: the fetched list on success, the list as
      it was on failure, and loading off either way. */
  function AfterFetch(s: PageState, response: Outcome<seq<ServerExpense>>): (r: PageState)
    ensures !r.loading
    ensures response.Succeeded? ==> r.expenses == response.value
    ensures response.Failed? ==> r.expenses == s.expenses
  {
    match response
    case Succeeded(list) => PageState(list, false)
    case Failed => s.(loading := false)
  }

  /** `expenses.filter((expense) => expense._id !== id)`. */
  function WithoutId(xs: seq<ServerExpense>, id: string): (r: seq<ServerExpense>)
    ensures |r| <= |xs|
    ensures forall i :: 0 <= i < |r| ==> r[i].id != id
    ensures forall e :: e in r <==> e in xs && e.id != id
  {
    if xs == [] then []
    else
      var rest := WithoutId(xs[..|xs| - 1], id);
      var last := xs[|xs| - 1];
      if last.id != id then rest + [last] else rest
  }

  /** `handleDelete(id)`: once the server has deleted the expense it is
      filtered out of the list; if the request throws nothing changes. */
  function HandleDelete(s: PageState, id: string, response: Outcome<()>): (r: PageState)
    ensures r.loading == s.loading
    ensures response.Succeeded? ==> r.expenses == WithoutId(s.expenses, id)
    ensures response.Failed? ==> r == s
  {
    match response
    case Succeeded(_) => s.(expenses := WithoutId(s.expenses, id))
    case Failed => s
  }

  // ---------------------------------------------------------------------
  // Properties

  /** The filter works piecewise, so the kept expenses stay in their
      original relative order. */
  lemma {:induction false} WithoutIdAppend(a: seq<ServerExpense>, b: seq<ServerExpense>, id: string)
    ensures WithoutId(a + b, id) == WithoutId(a, id) + WithoutId(b, id)
    decreases |b|
  {
    if b == [] {
      assert a + b == a;
    } else {
      var b' := b[..|b| - 1];
      assert (a + b)[..|a + b| - 1] == a + b';
      WithoutIdAppend(a, b', id);
    }
  }

  /** Each expense on its own is kept exactly when its id differs. */
  lemma WithoutIdSingle(e: ServerExpense, id: string)
    ensures WithoutId([e], id) == if e.id != id then [e] else []
  {
    assert [e][..0] == [];
  }

  /** Deleting an id that no expense has leaves the list unchanged. */
  lemma {:induction false} AbsentIdKeepsAll(xs: seq<ServerExpense>, id: string)
    requires forall i :: 0 <= i < |xs| ==> xs[i].id != id
    ensures WithoutId(xs, id) == xs
  {
    if xs != [] {
      AbsentIdKeepsAll(xs[..|xs| - 1], id);
      assert xs[..|xs| - 1] + [xs[|xs| - 1]] == xs;
    }
  }

  /** Deleting the same id twice is the same as deleting it once. */
  lemma DeleteIdempotent(s: PageState, id: string)
    ensures var once := HandleDelete(s, id, Succeeded(()));
      HandleDelete(once, id, Succeeded(())) == once
  {
    AbsentIdKeepsAll(WithoutId(s.expenses, id), id);
  }

  /** The first fetch ends loading; when it fails the page shows no expenses. */
  lemma FirstFetch(response: Outcome<seq<ServerExpense>>)
    ensures !AfterFetch(Initial, response).loading
    ensures response.Failed? ==> AfterFetch(Initial, response).expenses == []
  {
  }

  /** A second fetch decides the list on its own when it succeeds, and
      leaves the first fetch's result in place when it fails. */
  lemma RefetchReplaces(s: PageState, first: Outcome<seq<ServerExpense>>, second: Outcome<seq<ServerExpense>>)
    ensures AfterFetch(AfterFetch(s, first), second)
      == if second.Succeeded? then AfterFetch(s, second) else AfterFetch(s, first)
  {
  }

  /** A failed fetch changes nothing but the loading flag. */
  lemma FailedFetchKeepsList(s: PageState)
    ensures AfterFetch(s, Failed) == s.(loading := false)
  {
  }
}
