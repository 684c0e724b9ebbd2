/**
 * The business overview cards: month-to-date revenue and expenses, net
 * profit, the number of overdue invoices and the top products. The filters
 * are run by the store; they are modelled here as functions of the table
 * contents. The month boundary ("day 1 of this month, at the current time of
 * day") is read from the clock separately for the revenue query and for the
 * expenses query, so it is two parameters.
 */
module Overview {
  import opened Records
  import opened Sequences
  import Finances

  /** The four queries the overview sends to the store, in the order it sends them. */
  datatype Query = SalesQuery | ExpensesQuery | OverdueQuery | ProductsQuery

  /** The `.limit(3)` on the products query. */
  const TopProductLimit: nat := 3

  /** The transactions dated on or after the boundary, of either type: `.gte('date', boundary)`. */
  function Since(table: seq<Transaction>, boundary: Timestamp): (r: seq<Transaction>)
    ensures forall t :: t in r <==> t in table && t.date >= boundary
    ensures forall t :: multiset(r)[t] == if t.date >= boundary then multiset(table)[t] else 0
    ensures IsSubsequence(r, table)
  {
    var recent := (t: Transaction) => t.date >= boundary;
    FilterMultiset(table, recent);
    Filter(table, recent)
  }

  /** The row test of `.eq('type', kind)`. */
  function OfKind(kind: TransactionType): Transaction -> bool
  {
    if kind == Sale then Finances.IsSale else Finances.IsExpense
  }

  /** `.eq('type', kind).gte('date', boundary)` on the transactions table. */
  function SelectSince(table: seq<Transaction>, kind: TransactionType, boundary: Timestamp): (r: seq<Transaction>)
    ensures forall t :: t in r <==> t in table && t.kind == kind && t.date >= boundary
    ensures forall t :: multiset(r)[t] == if t.kind == kind && t.date >= boundary then multiset(table)[t] else 0
  {
    FilterMultiset(Since(table, boundary), OfKind(kind));
    Filter(Since(table, boundary), OfKind(kind))
  }

  /** Sum of the amounts of the rows of one type dated on or after the boundary. */
  function MonthToDate(table: seq<Transaction>, kind: TransactionType, boundary: Timestamp): Money
  {
    Sum(SelectSince(table, kind, boundary), Finances.Amount)
  }

  /** The exact count returned for `.eq('status', 'overdue')` on the invoices table. */
  function OverdueCount(invoices: seq<Invoice>): (r: nat)
    ensures r <= |invoices|
    ensures r == 0 <==> forall inv :: inv in invoices ==> inv.status != Overdue
  {
    var overdue := Filter(invoices, IsOverdue);
    assert overdue != [] ==> overdue[0] in overdue;
    |overdue|
  }

  /** `.limit(n)`: the store hands back at most the first `n` rows. */
  function Limit<T>(rows: seq<T>, n: nat): (r: seq<T>)
    ensures |r| <= n && |r| <= |rows|
    ensures |r| == if |rows| <= n then |rows| else n
    ensures r == rows[..|r|]
    ensures |rows| <= n ==> r == rows
  {
    if |rows| <= n then rows else rows[..n]
  }

  /** The state of the overview component. */
  class OverviewState {
    var revenue: Money
    var expenses: Money
    var overdueInvoices: nat
    var topProducts: seq<Product>

    ghost predicate Valid()
      reads this
    {
      |topProducts| <= TopProductLimit
    }

    /** Every figure starts at 0 and the product list empty. */
    constructor ()
      ensures Valid()
      ensures revenue == 0 && expenses == 0 && overdueInvoices == 0 && topProducts == []
    {
      revenue, expenses, overdueInvoices, topProducts := 0, 0, 0, [];
    }

    /** The "Net Profit" card. */
    function NetProfit(): Money
      reads this
    {
      revenue - expenses
    }

    /**
     * `fetchOverviewData`: the four queries in order, each result written to its
     * own field. A query in `failed` returns no data (or no count); revenue,
     * expenses and the overdue count then fall back to 0 and the product list is
     * left as it was.
     */
    method FetchOverviewData(
      transactions: seq<Transaction>, invoices: seq<Invoice>, products: seq<Product>,
      salesBoundary: Timestamp, expensesBoundary: Timestamp, failed: set<Query>)
      requires Valid()
      modifies this
      ensures Valid()
      ensures revenue == if SalesQuery in failed then 0 else MonthToDate(transactions, Sale, salesBoundary)
      ensures expenses == if ExpensesQuery in failed then 0 else MonthToDate(transactions, Expense, expensesBoundary)
      ensures overdueInvoices == if OverdueQuery in failed then 0 else OverdueCount(invoices)
      ensures topProducts == if ProductsQuery in failed then old(topProducts) else Limit(products, TopProductLimit)
    {
      var salesData := if SalesQuery in failed then [] else SelectSince(transactions, Sale, salesBoundary);
      revenue := if SalesQuery in failed then 0 else Sum(salesData, Finances.Amount);

      var expensesData := if ExpensesQuery in failed then [] else SelectSince(transactions, Expense, expensesBoundary);
      expenses := if ExpensesQuery in failed then 0 else Sum(expensesData, Finances.Amount);

      overdueInvoices := if OverdueQuery in failed then 0 else OverdueCount(invoices);

      if ProductsQuery !in failed {
        topProducts := Limit(products, TopProductLimit);
      }
    }
  }

  /** Month-to-date revenue and expenses are the Finances totals over the rows dated on or after the boundary. */
  lemma MonthToDateIsFinanceTotal(table: seq<Transaction>, boundary: Timestamp)
    ensures MonthToDate(table, Sale, boundary) == Finances.TotalRevenue(Since(table, boundary))
    ensures MonthToDate(table, Expense, boundary) == Finances.TotalExpenses(Since(table, boundary))
  {
  }

  /** Appending one row to the table appends it to the rows since the boundary exactly when it is dated on or after it. */
  lemma SinceAppend(table: seq<Transaction>, t: Transaction, boundary: Timestamp)
    ensures Since(table + [t], boundary) == Since(table, boundary) + (if t.date >= boundary then [t] else [])
  {
    assert (table + [t])[..|table|] == table;
  }

  /** A row dated before the boundary contributes to neither figure, and a row of the other type to the figure it is not. */
  lemma {:induction false} RowIgnored(table: seq<Transaction>, t: Transaction, boundary: Timestamp, kind: TransactionType)
    requires t.date < boundary || t.kind != kind
    ensures MonthToDate(table + [t], kind, boundary) == MonthToDate(table, kind, boundary)
  {
    SinceAppend(table, t, boundary);
    if t.date >= boundary {
      FilterAppend(Since(table, boundary), [t], OfKind(kind));
    }
  }

  /** A row of the queried type dated on or after the boundary adds exactly its amount. */
  lemma {:induction false} CurrentRowCounted(table: seq<Transaction>, t: Transaction, boundary: Timestamp)
    requires t.date >= boundary
    ensures MonthToDate(table + [t], t.kind, boundary) == MonthToDate(table, t.kind, boundary) + t.amount
  {
    SinceAppend(table, t, boundary);
    FilterAppend(Since(table, boundary), [t], OfKind(t.kind));
    SumAppend(SelectSince(table, t.kind, boundary), [t], Finances.Amount);
  }

  /**
   * When both queries read the same boundary, the overview's net profit is the
   * Finances net profit over the rows of the current month.
   */
  lemma {:induction false} SharedBoundaryProfit(table: seq<Transaction>, boundary: Timestamp)
    ensures MonthToDate(table, Sale, boundary) - MonthToDate(table, Expense, boundary)
         == Finances.NetProfit(Since(table, boundary))
  {
    MonthToDateIsFinanceTotal(table, boundary);
  }

  /** A sale of 100 and an expense of 40 this month and a sale of 500 last month: 100, 40 and 60. */
  lemma {:induction false} ExampleLastMonthExcluded(thisMonth: Timestamp, lastMonth: Timestamp)
    requires lastMonth < thisMonth
    ensures var table := [
              Transaction("t1", "b", Sale, 100, "", thisMonth, thisMonth),
              Transaction("t2", "b", Expense, 40, "", thisMonth, thisMonth),
              Transaction("t3", "b", Sale, 500, "", lastMonth, lastMonth)];
            && MonthToDate(table, Sale, thisMonth) == 100
            && MonthToDate(table, Expense, thisMonth) == 40
            && MonthToDate(table, Sale, thisMonth) - MonthToDate(table, Expense, thisMonth) == 60
  {
    var t1 := Transaction("t1", "b", Sale, 100, "", thisMonth, thisMonth);
    var t2 := Transaction("t2", "b", Expense, 40, "", thisMonth, thisMonth);
    var t3 := Transaction("t3", "b", Sale, 500, "", lastMonth, lastMonth);
    assert [t1, t2, t3] == [t1, t2] + [t3];
    assert [t1, t2] == [t1] + [t2];
    assert [t1] == [] + [t1];
    RowIgnored([t1, t2], t3, thisMonth, Sale);
    RowIgnored([t1, t2], t3, thisMonth, Expense);
    RowIgnored([t1], t2, thisMonth, Sale);
    CurrentRowCounted([t1], t2, thisMonth);
    CurrentRowCounted([], t1, thisMonth);
    RowIgnored([], t1, thisMonth, Expense);
  }
}
