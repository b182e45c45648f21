/** `ExpenseProvider` of `src/contexts/ExpenseContext.jsx`: one `expenses` slot,
    starting empty, that only ever grows at the end. It offers `expenses` and
    `addExpense` and nothing that removes or replaces entries. */
module ExpenseContext {

  import opened Expenses

  class ExpenseProvider {
    var expenses: seq<Expense>

    /** `useState([])`. */
    constructor ()
      ensures expenses == []
    {
      expenses := [];
    }

    /** `addExpense(expense)`: `[...expenses, expense]`. */
    method AddExpense(e: Expense)
      modifies this
      ensures expenses == old(expenses) + [e]
    {
      expenses := expenses + [e];
    }
  }

  /** Expenses added one after another appear in the order they were added,
      each new one last, the earlier ones untouched. */
  method AddTwice(first: Expense, second: Expense) returns (afterFirst: seq<Expense>, afterSecond: seq<Expense>)
    ensures afterFirst == [first]
    ensures afterSecond == [first, second]
  {
    var p := new ExpenseProvider();
    p.AddExpense(first);
    afterFirst := p.expenses;
    p.AddExpense(second);
    afterSecond := p.expenses;
  }
}
