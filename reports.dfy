/** The reports screen (components/ReportsTab.tsx): today's and this month's
    sales and expenses, net profit, the recent-sales list, and adding an expense. */
module Reports {
  import opened Wrappers
  import Seqs
  import opened Text
  import opened Numbers
  import opened Store
  import opened Sorting

  /** `isSameDay`: the first 10 characters (`YYYY-MM-DD`) agree. */
  predicate IsSameDay(a: string, b: string)
  {
    Seqs.Take(a, 10) == Seqs.Take(b, 10)
  }

  /** `isSameMonth`: the first 7 characters (`YYYY-MM`) agree. */
  predicate IsSameMonth(a: string, b: string)
  {
    Seqs.Take(a, 7) == Seqs.Take(b, 7)
  }

  lemma SameDayIsSameMonth(a: string, b: string)
    requires IsSameDay(a, b)
    ensures IsSameMonth(a, b)
  {
    Seqs.TakeOfTake(a, 10, 7);
    Seqs.TakeOfTake(b, 10, 7);
  }

  /** A sale just before midnight on the last day of a month is in that month
      and not in the next. */
  lemma MonthBoundary()
    ensures IsSameMonth("2024-01-31T23:59:59.000Z", "2024-01-01T00:00:00.000Z")
    ensures !IsSameMonth("2024-01-31T23:59:59.000Z", "2024-02-01T00:00:00.000Z")
  {
    assert "2024-01-31T23:59:59.000Z"[..7] == "2024-01";
    assert "2024-02-01T00:00:00.000Z"[..7] == "2024-02";
    assert "2024-01-01T00:00:00.000Z"[..7] == "2024-01";
  }

  function SaleDate(s: Sale): string { s.date }
  function SaleTotal(s: Sale): real { s.total }
  function ExpenseAmount(e: Expense): real { e.amount }

  function TodaySales(sales: seq<Sale>, today: string): (r: seq<Sale>)
    ensures forall s :: s in r <==> s in sales && IsSameDay(s.date, today)
  {
    Seqs.Filter(sales, (s: Sale) => IsSameDay(s.date, today))
  }

  function MonthSales(sales: seq<Sale>, today: string): (r: seq<Sale>)
    ensures forall s :: s in r <==> s in sales && IsSameMonth(s.date, today)
  {
    Seqs.Filter(sales, (s: Sale) => IsSameMonth(s.date, today))
  }

  function TodayExpenses(expenses: seq<Expense>, today: string): (r: seq<Expense>)
    ensures forall e :: e in r <==> e in expenses && IsSameDay(e.date, today)
  {
    Seqs.Filter(expenses, (e: Expense) => IsSameDay(e.date, today))
  }

  function MonthExpenses(expenses: seq<Expense>, today: string): (r: seq<Expense>)
    ensures forall e :: e in r <==> e in expenses && IsSameMonth(e.date, today)
  {
    Seqs.Filter(expenses, (e: Expense) => IsSameMonth(e.date, today))
  }

  /** Revenue: the sum of the recorded totals. */
  function Revenue(sales: seq<Sale>): (r: real)
    ensures (forall s :: s in sales ==> s.total >= 0.0) ==> r >= 0.0
  {
    assert (forall s :: s in sales ==> s.total >= 0.0) ==> Seqs.Sum(sales, SaleTotal) >= 0.0 by {
      if forall s :: s in sales ==> s.total >= 0.0 {
        Seqs.SumNonNegative(sales, SaleTotal);
      }
    }
    Seqs.Sum(sales, SaleTotal)
  }

  /** The sum of the expense amounts. */
  function ExpenseTotal(expenses: seq<Expense>): (r: real)
    ensures (forall e :: e in expenses ==> e.amount >= 0.0) ==> r >= 0.0
  {
    assert (forall e :: e in expenses ==> e.amount >= 0.0) ==> Seqs.Sum(expenses, ExpenseAmount) >= 0.0 by {
      if forall e :: e in expenses ==> e.amount >= 0.0 {
        Seqs.SumNonNegative(expenses, ExpenseAmount);
      }
    }
    Seqs.Sum(expenses, ExpenseAmount)
  }

  /** This month's revenue less this month's expenses. */
  function NetProfit(sales: seq<Sale>, expenses: seq<Expense>, today: string): real
  {
    Revenue(MonthSales(sales, today)) - ExpenseTotal(MonthExpenses(expenses, today))
  }

  /** Today's sales are exactly the same-day sales among this month's sales,
      so they form an order-preserving subsequence of them. */
  lemma {:induction false} TodaySalesWithinMonth(sales: seq<Sale>, today: string)
    ensures TodaySales(sales, today) == Seqs.Filter(MonthSales(sales, today), (s: Sale) => IsSameDay(s.date, today))
    ensures Seqs.IsSubsequence(TodaySales(sales, today), MonthSales(sales, today))
  {
    forall s: Sale | IsSameDay(s.date, today) ensures IsSameMonth(s.date, today) {
      SameDayIsSameMonth(s.date, today);
    }
    Seqs.FilterFilter(sales, (s: Sale) => IsSameMonth(s.date, today), (s: Sale) => IsSameDay(s.date, today));
    Seqs.FilterIsSubsequence(MonthSales(sales, today), (s: Sale) => IsSameDay(s.date, today));
  }

  lemma {:induction false} TodayExpensesWithinMonth(expenses: seq<Expense>, today: string)
    ensures TodayExpenses(expenses, today) == Seqs.Filter(MonthExpenses(expenses, today), (e: Expense) => IsSameDay(e.date, today))
    ensures Seqs.IsSubsequence(TodayExpenses(expenses, today), MonthExpenses(expenses, today))
  {
    forall e: Expense | IsSameDay(e.date, today) ensures IsSameMonth(e.date, today) {
      SameDayIsSameMonth(e.date, today);
    }
    Seqs.FilterFilter(expenses, (e: Expense) => IsSameMonth(e.date, today), (e: Expense) => IsSameDay(e.date, today));
    Seqs.FilterIsSubsequence(MonthExpenses(expenses, today), (e: Expense) => IsSameDay(e.date, today));
  }

  /** With no negative sale totals, today's revenue never exceeds the month's. */
  lemma TodayRevenueAtMostMonth(sales: seq<Sale>, today: string)
    requires forall s :: s in sales ==> s.total >= 0.0
    ensures Revenue(TodaySales(sales, today)) <= Revenue(MonthSales(sales, today))
  {
    TodaySalesWithinMonth(sales, today);
    var month := MonthSales(sales, today);
    assert forall s :: s in month ==> SaleTotal(s) >= 0.0;
    Seqs.SumFilterBounded(month, (s: Sale) => IsSameDay(s.date, today), SaleTotal);
  }

  /** Net profit is negative when the month's expenses exceed its sales. */
  lemma NetProfitCanBeNegative()
    ensures NetProfit([], [Expense("e1", "2024-03-05T10:00:00.000Z", "Rent", 500.0)], "2024-03-20T09:00:00.000Z") == -500.0
  {
    var e := Expense("e1", "2024-03-05T10:00:00.000Z", "Rent", 500.0);
    assert IsSameMonth(e.date, "2024-03-20T09:00:00.000Z") by {
      assert e.date[..7] == "2024-03" == "2024-03-20T09:00:00.000Z"[..7];
    }
    var month := MonthExpenses([e], "2024-03-20T09:00:00.000Z");
    assert month == [e] by { assert [e][1..] == []; }
    assert ExpenseTotal([e]) == 500.0 by {
      assert [e][1..] == [];
      assert Seqs.Sum([e], ExpenseAmount) == ExpenseAmount(e) + Seqs.Sum([], ExpenseAmount);
    }
    assert Revenue([]) == 0.0;
  }

  /** `recentSales`: the ten newest sales (all of them when there are fewer),
      newest first: no sale left out is newer than one kept. */
  function RecentSales(sales: seq<Sale>): (r: seq<Sale>)
    ensures |r| == if |sales| < 10 then |sales| else 10
    ensures SortedByDateDesc(r, SaleDate)
    ensures multiset(r) <= multiset(sales)
    ensures forall s, t :: s in multiset(sales) - multiset(r) && t in r ==> LexLe(s.date, t.date)
  {
    var sorted := SortByDateDesc(sales, SaleDate);
    SortIsSorted(sales, SaleDate);
    var r := Seqs.Take(sorted, 10);
    Seqs.TakeMultiset(sorted, 10);
    PrefixIsNewest(sorted, |r|, SaleDate);
    r
  }

  /** The expense form: its two fields and whether its dialog is open. */
  class ReportsScreen {
    var expenseDialogOpen: bool
    var expDesc: string
    var expAmt: string

    constructor ()
      ensures !expenseDialogOpen && expDesc == "" && expAmt == ""
    {
      expenseDialogOpen, expDesc, expAmt := false, "", "";
    }

    /** `handleAddExpense`: refuses a blank description or an amount that is
        not a number above zero; otherwise records the trimmed description
        and the amount and resets the form. */
    method HandleAddExpense(store: EntityStore, id: string, now: string, ghost writeOk: bool) returns (outcome: Outcome)
      requires FreshId(store.expenses, ExpenseId, id)
      modifies this, store
      ensures IsBlank(old(expDesc)) || PositiveNumber(old(expAmt)).None? ==>
        && outcome == Fail("Enter valid description and amount")
        && store.expenses == old(store.expenses) && store.storage == old(store.storage)
        && expDesc == old(expDesc) && expAmt == old(expAmt) && expenseDialogOpen == old(expenseDialogOpen)
      ensures !IsBlank(old(expDesc)) && PositiveNumber(old(expAmt)).Some? ==>
        && outcome == Pass
        && store.expenses == old(store.expenses) + [Expense(id, now, Trim(old(expDesc)), PositiveNumber(old(expAmt)).value)]
        && store.storage == SaveToStorage(old(store.storage), ExpensesKey, ExpensesBlob(store.expenses), writeOk)
        && expDesc == "" && expAmt == "" && !expenseDialogOpen
      ensures store.items == old(store.items) && store.sales == old(store.sales)
      ensures store.udhaar == old(store.udhaar) && store.settings == old(store.settings)
    {
      var amount := ParseFloat(expAmt);
      if Trim(expDesc) == "" || amount.None? || amount.value <= 0.0 {
        return Fail("Enter valid description and amount");
      }
      var _ := store.AddExpense(Trim(expDesc), amount.value, id, now, writeOk);
      outcome := Pass;
      expDesc, expAmt, expenseDialogOpen := "", "", false;
    }
  }
}
