/**
 * The Finances section: total revenue, total expenses and net profit over
 * every transaction the store returned.
 */
module Finances {
  import opened Records
  import opened Sequences

  function Amount(t: Transaction): int { t.amount }

  predicate IsSale(t: Transaction) { t.kind == Sale }

  predicate IsExpense(t: Transaction) { t.kind == Expense }

  /** What a transaction adds to revenue: its amount if it is a sale, nothing otherwise. */
  function SaleAmount(t: Transaction): int { if t.kind == Sale then t.amount else 0 }

  /** What a transaction adds to expenses: its amount if it is an expense, nothing otherwise. */
  function ExpenseAmount(t: Transaction): int { if t.kind == Expense then t.amount else 0 }

  /** What a transaction adds to profit: the type alone decides the sign. */
  function Signed(t: Transaction): int { if t.kind == Sale then t.amount else -t.amount }

  /** `transactions.filter(t => t.type === 'sale').reduce(...)`. */
  function TotalRevenue(txs: seq<Transaction>): (r: Money)
    ensures r == Sum(txs, SaleAmount)
  {
    SumFilterMasked(txs, IsSale, Amount, SaleAmount);
    Sum(Filter(txs, IsSale), Amount)
  }

  /** `transactions.filter(t => t.type === 'expense').reduce(...)`. */
  function TotalExpenses(txs: seq<Transaction>): (r: Money)
    ensures r == Sum(txs, ExpenseAmount)
  {
    SumFilterMasked(txs, IsExpense, Amount, ExpenseAmount);
    Sum(Filter(txs, IsExpense), Amount)
  }

  /** Revenue less expenses is the signed sum of all amounts. */
  lemma {:induction false} SignedSum(txs: seq<Transaction>)
    ensures TotalRevenue(txs) - TotalExpenses(txs) == Sum(txs, Signed)
  {
    if txs != [] {
      SignedSum(txs[..|txs| - 1]);
    }
  }

  /** The "Net Profit" figure. */
  function NetProfit(txs: seq<Transaction>): (r: Money)
    ensures r + TotalExpenses(txs) == TotalRevenue(txs)
    ensures r == Sum(txs, Signed)
  {
    SignedSum(txs);
    TotalRevenue(txs) - TotalExpenses(txs)
  }

  /** No transactions: nothing earned, nothing spent. */
  lemma EmptyTotals()
    ensures TotalRevenue([]) == 0 && TotalExpenses([]) == 0 && NetProfit([]) == 0
  {
  }

  /** Revenue sums exactly the sale rows: a sale adds its amount to revenue and leaves expenses alone. */
  lemma {:induction false} SaleCountsAsRevenue(txs: seq<Transaction>, t: Transaction)
    requires t.kind == Sale
    ensures TotalRevenue(txs + [t]) == TotalRevenue(txs) + t.amount
    ensures TotalExpenses(txs + [t]) == TotalExpenses(txs)
  {
    FilterAppend(txs, [t], IsSale);
    FilterAppend(txs, [t], IsExpense);
    SumAppend(Filter(txs, IsSale), [t], Amount);
  }

  /** Expenses sum exactly the expense rows: an expense adds its amount to expenses and leaves revenue alone. */
  lemma {:induction false} ExpenseCountsAsExpense(txs: seq<Transaction>, t: Transaction)
    requires t.kind == Expense
    ensures TotalExpenses(txs + [t]) == TotalExpenses(txs) + t.amount
    ensures TotalRevenue(txs + [t]) == TotalRevenue(txs)
  {
    FilterAppend(txs, [t], IsSale);
    FilterAppend(txs, [t], IsExpense);
    SumAppend(Filter(txs, IsExpense), [t], Amount);
  }

  /** The two types are the only ones, so every transaction counts in exactly one of the two totals. */
  lemma {:induction false} TotalsCoverAllAmounts(txs: seq<Transaction>)
    ensures TotalRevenue(txs) + TotalExpenses(txs) == Sum(txs, Amount)
    ensures multiset(Filter(txs, IsSale)) + multiset(Filter(txs, IsExpense)) == multiset(txs)
  {
    SumSplit(txs, Amount, IsSale, IsExpense);
    FilterPartition(txs, IsSale, IsExpense);
  }

  /** The totals of a list split in two are the sums of the totals of the parts. */
  lemma {:induction false} TotalsAppend(a: seq<Transaction>, b: seq<Transaction>)
    ensures TotalRevenue(a + b) == TotalRevenue(a) + TotalRevenue(b)
    ensures TotalExpenses(a + b) == TotalExpenses(a) + TotalExpenses(b)
    ensures NetProfit(a + b) == NetProfit(a) + NetProfit(b)
  {
    FilterAppend(a, b, IsSale);
    FilterAppend(a, b, IsExpense);
    SumAppend(Filter(a, IsSale), Filter(b, IsSale), Amount);
    SumAppend(Filter(a, IsExpense), Filter(b, IsExpense), Amount);
  }
}
