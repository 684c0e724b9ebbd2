/**
 * The Invoices section: a search on the customer name, a status filter
 * ("all" or one status) and two totals over what the filters leave.
 */
module Invoices {
  import opened Records
  import opened Sequences
  import Text

  /** The status drop-down: "all", or one concrete status. */
  datatype StatusFilter = AllStatuses | OnlyStatus(status: InvoiceStatus)

  /** `statusFilter === 'all' || invoice.status === statusFilter`. */
  predicate MatchesStatus(filter: StatusFilter, inv: Invoice)
  {
    filter.AllStatuses? || inv.status == filter.status
  }

  /** `invoice.customer_name.toLowerCase().includes(searchTerm.toLowerCase())`. */
  predicate MatchesSearch(term: string, inv: Invoice)
  {
    Text.Includes(inv.customerName, term)
  }

  /** The row test of `filteredInvoices`: the search and the status filter both match. */
  function Shown(term: string, filter: StatusFilter): Invoice -> bool
  {
    (inv: Invoice) => MatchesSearch(term, inv) && MatchesStatus(filter, inv)
  }

  /** `filteredInvoices`: the invoices matching both the search and the status filter, in their order. */
  function FilteredInvoices(invoices: seq<Invoice>, term: string, filter: StatusFilter): (r: seq<Invoice>)
    ensures forall inv :: inv in r <==> inv in invoices && MatchesSearch(term, inv) && MatchesStatus(filter, inv)
    ensures forall inv :: multiset(r)[inv] ==
              if MatchesSearch(term, inv) && MatchesStatus(filter, inv) then multiset(invoices)[inv] else 0
    ensures IsSubsequence(r, invoices)
  {
    FilterMultiset(invoices, Shown(term, filter));
    Filter(invoices, Shown(term, filter))
  }

  /** An invoice's amount when the filters show it, 0 when they hide it. */
  function ShownAmount(term: string, filter: StatusFilter): Invoice -> int
  {
    (inv: Invoice) => if MatchesSearch(term, inv) && MatchesStatus(filter, inv) then inv.amount else 0
  }

  /** The "Total Outstanding" card: the amounts of the filtered invoices; hidden invoices count for nothing. */
  function TotalAmount(invoices: seq<Invoice>, term: string, filter: StatusFilter): (r: Money)
    ensures r == Sum(invoices, ShownAmount(term, filter))
  {
    SumFilterMasked(invoices, Shown(term, filter), InvoiceAmount, ShownAmount(term, filter));
    Sum(FilteredInvoices(invoices, term, filter), InvoiceAmount)
  }

  /** The "Overdue Amount" card: the amounts of the filtered invoices whose status is overdue. */
  function OverdueAmount(invoices: seq<Invoice>, term: string, filter: StatusFilter): Money
  {
    Sum(Filter(FilteredInvoices(invoices, term, filter), IsOverdue), InvoiceAmount)
  }

  /** The "Total Invoices" card counts every invoice fetched, whatever the filters. */
  function TotalInvoices(invoices: seq<Invoice>): nat
  {
    |invoices|
  }

  /** Filter "all" with an empty search keeps the invoice list exactly as fetched. */
  lemma NoFilterKeepsAll(invoices: seq<Invoice>)
    ensures FilteredInvoices(invoices, "", AllStatuses) == invoices
    ensures TotalAmount(invoices, "", AllStatuses) == Sum(invoices, InvoiceAmount)
  {
    forall inv | inv in invoices ensures MatchesSearch("", inv) {
      Text.EmptyTermMatches(inv.customerName);
    }
    FilterKeepsAll(invoices, Shown("", AllStatuses));
  }

  /** With the filter set to overdue, the overdue amount is the whole total. */
  lemma OverdueFilterOverdueIsTotal(invoices: seq<Invoice>, term: string)
    ensures OverdueAmount(invoices, term, OnlyStatus(Overdue)) == TotalAmount(invoices, term, OnlyStatus(Overdue))
  {
    FilterKeepsAll(FilteredInvoices(invoices, term, OnlyStatus(Overdue)), IsOverdue);
  }

  /** With the filter set to paid or pending, nothing overdue is left to sum. */
  lemma OtherFilterNoOverdue(invoices: seq<Invoice>, term: string, status: InvoiceStatus)
    requires status != Overdue
    ensures OverdueAmount(invoices, term, OnlyStatus(status)) == 0
  {
    var shown := FilteredInvoices(invoices, term, OnlyStatus(status));
    FilterKeepsNone(shown, IsOverdue);
  }

  /** With non-negative amounts, the overdue amount never exceeds the total, nor the total the unfiltered sum. */
  lemma {:induction false} AmountsBounded(invoices: seq<Invoice>, term: string, filter: StatusFilter)
    requires forall inv :: inv in invoices ==> inv.amount >= 0
    ensures 0 <= OverdueAmount(invoices, term, filter) <= TotalAmount(invoices, term, filter) <= Sum(invoices, InvoiceAmount)
  {
    var shown := FilteredInvoices(invoices, term, filter);
    SumFilterBounded(shown, InvoiceAmount, IsOverdue);
    SumFilterBounded(invoices, InvoiceAmount, Shown(term, filter));
  }

  /**
   * The "Overdue Amount" card is the total of the overdue invoices the search
   * matches whenever the status filter lets overdue invoices through, and 0
   * when it does not.
   */
  lemma OverdueAmountIsOverdueTotal(invoices: seq<Invoice>, term: string, filter: StatusFilter)
    ensures OverdueAmount(invoices, term, filter) ==
              if filter.AllStatuses? || filter.status == Overdue
              then TotalAmount(invoices, term, OnlyStatus(Overdue))
              else 0
  {
    match filter
    case AllStatuses =>
      FilterTwice(invoices, Shown(term, AllStatuses), IsOverdue, Shown(term, OnlyStatus(Overdue)));
    case OnlyStatus(status) =>
      if status == Overdue {
        OverdueFilterOverdueIsTotal(invoices, term);
      } else {
        OtherFilterNoOverdue(invoices, term, status);
      }
  }

  /** A search and a status filter only ever remove invoices: the filtered list is never longer than the fetched one. */
  lemma FilteredNoLonger(invoices: seq<Invoice>, term: string, filter: StatusFilter)
    ensures |FilteredInvoices(invoices, term, filter)| <= TotalInvoices(invoices)
  {
  }

  /** The colour of a status badge. */
  datatype Tone = Green | Red | Yellow | Blue

  /** `getStatusColor`: paid is green, overdue red, anything else yellow. */
  function StatusTone(status: string): (r: Tone)
    ensures r == Green <==> status == "paid"
    ensures r == Red <==> status == "overdue"
    ensures r == Yellow <==> status != "paid" && status != "overdue"
  {
    match status
    case "paid" => Green
    case "overdue" => Red
    case _ => Yellow
  }

  /** Over the statuses an invoice can have: pending is the only yellow one. */
  lemma StatusTones()
    ensures StatusTone(Paid.Name()) == Green
    ensures StatusTone(Overdue.Name()) == Red
    ensures StatusTone(InvoicePending.Name()) == Yellow
  {
  }
}
