/** The `Dashboard` page of `src/pages/Dashboard.jsx`: the expense list it reads
    from the shared `ExpenseProvider`, the two form inputs, and the filter selection,
    with the handlers that update them.

    The page takes `setExpenses` from the context, but the provider offers only
    `expenses` and `addExpense`; `setExpenses` is therefore `undefined`, and the
    handlers as written throw a `TypeError` where they call it. Each handler comes
    in two versions here: `...AsWritten`, which reports that exception and changes
    nothing, and the version that performs the list replacement the page intends. */
module DashboardPage {

  import opened Expenses
  import opened ExpenseContext

  /** How a handler call ends: normally, or with the `TypeError` raised by calling
      the missing `setExpenses`. */
  datatype HandlerOutcome = Completed | TypeError

  class Dashboard {
    /** The context the page reads `expenses` from; the page re-renders from it. */
    const ctx: ExpenseProvider
    /** The description input. */
    var desc: string
    /** The amount input, as the text typed. */
    var amount: string
    /** The selected filter: "all", "high" or "low". */
    var filter: string

    /** Mounting under a provider: inputs start empty and the filter at "all". */
    constructor (ctx: ExpenseProvider)
      ensures this.ctx == ctx && desc == "" && amount == "" && filter == "all"
    {
      this.ctx := ctx;
      desc := "";
      amount := "";
      filter := "all";
    }

    /** `onChange` of the description input. */
    method SetDesc(text: string)
      modifies this`desc
      ensures desc == text
    {
      desc := text;
    }

    /** `onChange` of the amount input. */
    method SetAmount(text: string)
      modifies this`amount
      ensures amount == text
    {
      amount := text;
    }

    /** The three filter buttons. */
    method SetFilter(f: string)
      modifies this`filter
      ensures filter == f
    {
      filter := f;
    }

    /** `addExpense` as written: with either input empty it returns early; otherwise
        it reaches `setExpenses(...)`, which is `undefined`, and throws before the
        inputs are reset. Neither the list nor the inputs change on either path. */
    method AddExpenseAsWritten(id: int, parseFloat: string -> real) returns (outcome: HandlerOutcome)
      ensures outcome == TypeError <==> desc != "" && amount != ""
    {
      if desc == "" || amount == "" {
        return Completed;
      }
      return TypeError;
    }

    /** `deleteExpense` as written: it always calls the missing `setExpenses` and
        throws, so the list is never changed. */
    method DeleteExpenseAsWritten(id: int) returns (outcome: HandlerOutcome)
      ensures outcome == TypeError
    {
      return TypeError;
    }

    /** `addExpense` as intended: with either input empty nothing happens; otherwise
        one expense, carrying `id` (the clock reading) and the parsed amount, is
        appended after the existing ones and both inputs are cleared. */
    method AddExpense(id: int, parseFloat: string -> real)
      modifies this`desc, this`amount, ctx
      ensures old(desc) == "" || old(amount) == "" ==>
                ctx.expenses == old(ctx.expenses) && desc == old(desc) && amount == old(amount)
      ensures old(desc) != "" && old(amount) != "" ==>
                && ctx.expenses == old(ctx.expenses) + [Expense(id, old(desc), parseFloat(old(amount)))]
                && desc == "" && amount == ""
    {
      if desc == "" || amount == "" {
        return;
      }
      var newExpense := Expense(id, desc, parseFloat(amount));
      ctx.expenses := ctx.expenses + [newExpense];
      desc := "";
      amount := "";
    }

    /** `deleteExpense(id)` as intended. */
    method DeleteExpense(id: int)
      modifies ctx
      ensures ctx.expenses == WithoutId(old(ctx.expenses), id)
    {
      ctx.expenses := WithoutId(ctx.expenses, id);
    }

    /** `total`. */
    function ShownTotal(): real
      reads this, ctx
    {
      Total(ctx.expenses)
    }

    /** `filteredExpenses`. */
    function Shown(): seq<Expense>
      reads this, ctx
    {
      Filtered(ctx.expenses, filter)
    }
  }

  /** The two versions of `addExpense` part exactly when both inputs are filled:
      as written the call throws and the list and inputs stay as they were; as
      intended the expense is appended and the inputs are cleared. */
  method AddAsWrittenAndIntended(ctx: ExpenseProvider, text: string, typed: string, id: int, parseFloat: string -> real)
    returns (outcome: HandlerOutcome, writtenList: seq<Expense>, writtenInputs: (string, string),
             intendedList: seq<Expense>, intendedInputs: (string, string))
    requires text != "" && typed != ""
    modifies ctx
    ensures outcome == TypeError
    ensures writtenList == old(ctx.expenses) && writtenInputs == (text, typed)
    ensures intendedList == old(ctx.expenses) + [Expense(id, text, parseFloat(typed))]
    ensures intendedInputs == ("", "")
    ensures writtenList != intendedList
  {
    var d := new Dashboard(ctx);
    d.SetDesc(text);
    d.SetAmount(typed);
    outcome := d.AddExpenseAsWritten(id, parseFloat);
    writtenList, writtenInputs := ctx.expenses, (d.desc, d.amount);
    d.AddExpense(id, parseFloat);
    intendedList, intendedInputs := ctx.expenses, (d.desc, d.amount);
    assert |intendedList| == |writtenList| + 1;
  }

  /** The two versions of `deleteExpense` part whenever some expense carries the
      id: as written the call throws and the expense stays; as intended it is gone. */
  method DeleteAsWrittenAndIntended(ctx: ExpenseProvider, id: int)
    returns (outcome: HandlerOutcome, writtenList: seq<Expense>, intendedList: seq<Expense>)
    modifies ctx
    ensures outcome == TypeError && writtenList == old(ctx.expenses)
    ensures intendedList == WithoutId(old(ctx.expenses), id)
    ensures (exists i :: 0 <= i < |writtenList| && writtenList[i].id == id) ==> writtenList != intendedList
  {
    var d := new Dashboard(ctx);
    outcome := d.DeleteExpenseAsWritten(id);
    writtenList := ctx.expenses;
    d.DeleteExpense(id);
    intendedList := ctx.expenses;
    WithoutIdSpec(writtenList, id);
    if exists i :: 0 <= i < |writtenList| && writtenList[i].id == id {
      var i :| 0 <= i < |writtenList| && writtenList[i].id == id;
      assert writtenList[i] !in intendedList;
    }
  }

  /** The page reads the provider's list, so an expense added through the provider
      after the page mounted is part of what the page shows and totals. */
  method ProviderAddSeenByPage(first: Expense, later: Expense)
    returns (shown: seq<Expense>, total: real)
    ensures shown == [first, later]
    ensures total == first.amount + later.amount
  {
    var p := new ExpenseProvider();
    p.AddExpense(first);
    var d := new Dashboard(p);
    p.AddExpense(later);
    shown := d.Shown();
    total := d.ShownTotal();
    FilteredOther([first, later], "all");
    TotalCons(first, [later]);
    TotalCons(later, []);
    assert [later] + [] == [later];
  }

  /** Filling in both inputs and submitting (as intended) appends one expense at the
      end and raises the total by its amount; the earlier expenses keep their places. */
  method AddRaisesTotal(ctx: ExpenseProvider, text: string, typed: string, id: int, parseFloat: string -> real)
    returns (before: real, after: real, inputs: (string, string))
    requires text != "" && typed != ""
    modifies ctx
    ensures after == before + parseFloat(typed)
    ensures |ctx.expenses| == |old(ctx.expenses)| + 1 && ctx.expenses[..|old(ctx.expenses)|] == old(ctx.expenses)
    ensures ctx.expenses[|old(ctx.expenses)|] == Expense(id, text, parseFloat(typed))
    ensures inputs == ("", "")
  {
    var d := new Dashboard(ctx);
    before := d.ShownTotal();
    d.SetDesc(text);
    d.SetAmount(typed);
    d.AddExpense(id, parseFloat);
    after := d.ShownTotal();
    inputs := (d.desc, d.amount);
    TotalAppend(old(ctx.expenses), Expense(id, text, parseFloat(typed)));
  }

  /** Submitting with an empty description changes neither the list nor the inputs,
      in both versions. */
  method AddWithoutDescription(ctx: ExpenseProvider, typed: string, id: int, parseFloat: string -> real)
    returns (outcome: HandlerOutcome, inputs: (string, string))
    modifies ctx
    ensures outcome == Completed
    ensures ctx.expenses == old(ctx.expenses) && inputs == ("", typed)
  {
    var d := new Dashboard(ctx);
    d.SetAmount(typed);
    outcome := d.AddExpenseAsWritten(id, parseFloat);
    d.AddExpense(id, parseFloat);
    inputs := (d.desc, d.amount);
  }

  /** Deleting an expense (as intended) removes every entry with its id and lowers
      the total by exactly their amounts. */
  method DeleteLowersTotal(ctx: ExpenseProvider, id: int)
    returns (before: real, after: real)
    modifies ctx
    ensures forall i :: 0 <= i < |ctx.expenses| ==> ctx.expenses[i].id != id
    ensures after == before - Total(ArrayOps.Filter(old(ctx.expenses), IdIs(id)))
  {
    var d := new Dashboard(ctx);
    before := d.ShownTotal();
    d.DeleteExpense(id);
    after := d.ShownTotal();
    WithoutIdSpec(old(ctx.expenses), id);
  }

  /** Whatever the list, the "high" and "low" views shown together hold each
      expense once, and each view's total adds up to the page total. */
  method HighAndLowViews(ctx: ExpenseProvider)
    returns (high: seq<Expense>, low: seq<Expense>, total: real)
    ensures multiset(high) + multiset(low) == multiset(ctx.expenses)
    ensures Total(high) + Total(low) == total
    ensures forall i :: 0 <= i < |high| ==> high[i].amount > Threshold
    ensures forall i :: 0 <= i < |low| ==> low[i].amount <= Threshold
  {
    var d := new Dashboard(ctx);
    total := d.ShownTotal();
    d.SetFilter("high");
    high := d.Shown();
    d.SetFilter("low");
    low := d.Shown();
    HighLowPartition(ctx.expenses);
  }
}
