/** The expense list of `src/pages/Dashboard.jsx` as values: the running total
    (a `reduce`), the "high"/"low"/"all" filter, and removal by id (both `filter`). */
module Expenses {

  import opened ArrayOps

  /** One expense; `amount` is the value `parseFloat` produced, as a real number. */
  datatype Expense = Expense(id: int, description: string, amount: real)

  /** The boundary between the "high" and "low" filters. */
  const Threshold: real := 1000.0

  /** `es.reduce((sum, exp) => sum + exp.amount, acc)`: a left fold. */
  function SumFrom(acc: real, es: seq<Expense>): real
    decreases |es|
  {
    if es == [] then acc else SumFrom(acc + es[0].amount, es[1..])
  }

  /** `total`: the fold started at 0. */
  function Total(es: seq<Expense>): real
  {
    SumFrom(0.0, es)
  }

  /** The accumulator of the fold can be pulled out. */
  lemma {:induction false} SumFromShift(acc: real, es: seq<Expense>)
    ensures SumFrom(acc, es) == acc + Total(es)
    decreases |es|
  {
    if es != [] {
      SumFromShift(acc + es[0].amount, es[1..]);
      SumFromShift(es[0].amount, es[1..]);
    }
  }

  /** The total of an empty list is 0. */
  lemma TotalEmpty()
    ensures Total([]) == 0.0
  {
  }

  /** Total of a list with a first element. */
  lemma TotalCons(e: Expense, es: seq<Expense>)
    ensures Total([e] + es) == e.amount + Total(es)
  {
    assert ([e] + es)[1..] == es;
    SumFromShift(e.amount, es);
  }

  /** Total of a concatenation. */
  lemma {:induction false} TotalConcat(a: seq<Expense>, b: seq<Expense>)
    ensures Total(a + b) == Total(a) + Total(b)
  {
    if a != [] {
      TotalConcat(a[1..], b);
      assert a + b == [a[0]] + (a[1..] + b);
      TotalCons(a[0], a[1..] + b);
      TotalCons(a[0], a[1..]);
      assert a == [a[0]] + a[1..];
    } else {
      assert a + b == b;
    }
  }

  /** Appending one expense raises the total by exactly its amount. */
  lemma TotalAppend(es: seq<Expense>, e: Expense)
    ensures Total(es + [e]) == Total(es) + e.amount
  {
    TotalConcat(es, [e]);
    TotalCons(e, []);
    assert [e] + [] == [e];
  }

  /** The test applied by `filteredExpenses` to one expense. */
  function Keep(filter: string, e: Expense): bool
  {
    if filter == "high" then e.amount > Threshold
    else if filter == "low" then e.amount <= Threshold
    else true
  }

  /** `Keep` as the callback handed to `filter`. */
  function KeepFn(filter: string): Expense -> bool
  {
    e => Keep(filter, e)
  }

  /** `filteredExpenses`. */
  function Filtered(es: seq<Expense>, filter: string): seq<Expense>
  {
    Filter(es, KeepFn(filter))
  }

  /** "high" keeps exactly the expenses above 1000 and "low" exactly the others,
      each in the order of the list. */
  lemma FilteredContents(es: seq<Expense>, e: Expense)
    ensures e in Filtered(es, "high") <==> e in es && e.amount > Threshold
    ensures e in Filtered(es, "low") <==> e in es && e.amount <= Threshold
    ensures IsSubsequence(Filtered(es, "high"), es) && IsSubsequence(Filtered(es, "low"), es)
  {
    FilterIsSubsequence(es, KeepFn("high"));
    FilterIsSubsequence(es, KeepFn("low"));
  }

  /** Any filter value other than "high" and "low" keeps the whole list. */
  lemma FilteredOther(es: seq<Expense>, filter: string)
    requires filter != "high" && filter != "low"
    ensures Filtered(es, filter) == es
  {
    FilterKeepsAll(es, KeepFn(filter));
  }

  /** "high" and "low" together account for every expense exactly once, so their
      lengths and totals add up to those of the whole list. */
  lemma HighLowPartition(es: seq<Expense>)
    ensures multiset(Filtered(es, "high")) + multiset(Filtered(es, "low")) == multiset(es)
    ensures |Filtered(es, "high")| + |Filtered(es, "low")| == |es|
    ensures Total(Filtered(es, "high")) + Total(Filtered(es, "low")) == Total(es)
  {
    FilterPartition(es, KeepFn("high"), KeepFn("low"));
    TotalSplit(es, KeepFn("high"), KeepFn("low"));
  }

  /** Two complementary filters split the total. */
  lemma {:induction false} TotalSplit(es: seq<Expense>, p: Expense -> bool, q: Expense -> bool)
    requires forall x :: q(x) == !p(x)
    ensures Total(Filter(es, p)) + Total(Filter(es, q)) == Total(es)
  {
    if es != [] {
      TotalSplit(es[1..], p, q);
      TotalCons(es[0], es[1..]);
      assert es == [es[0]] + es[1..];
      if p(es[0]) {
        TotalCons(es[0], Filter(es[1..], p));
      } else {
        TotalCons(es[0], Filter(es[1..], q));
      }
    }
  }

  /** `exp => exp.id !== id`, the callback of `deleteExpense`. */
  function IdIsNot(id: int): Expense -> bool
  {
    (e: Expense) => e.id != id
  }

  /** `exp => exp.id === id`: the expenses that `deleteExpense` drops. */
  function IdIs(id: int): Expense -> bool
  {
    (e: Expense) => e.id == id
  }

  /** The list `deleteExpense(id)` leaves. */
  function WithoutId(es: seq<Expense>, id: int): seq<Expense>
  {
    Filter(es, IdIsNot(id))
  }

  /** After deletion no expense carries the id; every other expense is still there,
      in its original order; what was dropped is exactly the expenses with that id,
      and the total falls by their amounts. */
  lemma WithoutIdSpec(es: seq<Expense>, id: int)
    ensures forall i :: 0 <= i < |WithoutId(es, id)| ==> WithoutId(es, id)[i].id != id
    ensures forall i :: 0 <= i < |es| && es[i].id != id ==> es[i] in WithoutId(es, id)
    ensures IsSubsequence(WithoutId(es, id), es)
    ensures multiset(WithoutId(es, id)) + multiset(Filter(es, IdIs(id))) == multiset(es)
    ensures Total(WithoutId(es, id)) + Total(Filter(es, IdIs(id))) == Total(es)
  {
    FilterIsSubsequence(es, IdIsNot(id));
    FilterPartition(es, IdIsNot(id), IdIs(id));
    TotalSplit(es, IdIsNot(id), IdIs(id));
  }

  /** Deleting an id nobody carries leaves the list unchanged. */
  lemma WithoutAbsentId(es: seq<Expense>, id: int)
    requires forall i :: 0 <= i < |es| ==> es[i].id != id
    ensures WithoutId(es, id) == es
  {
    FilterKeepsAll(es, IdIsNot(id));
  }
}
