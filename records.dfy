/**
 * The rows the dashboard reads from the store: transactions, products,
 * inventory records, invoices and tasks. Every closed string union of the
 * record declarations becomes a datatype with the exact string the store
 * holds (`Name`) and its decoder (`Parse...`). Dates are timestamps
 * (milliseconds since the epoch) and money is an integer number of cents.
 */
module Records {
  import opened Wrappers

  type Id = string
  type Timestamp = int
  type Money = int

  /** `type: 'sale' | 'expense'` of a transaction. */
  datatype TransactionType = Sale | Expense {
    function Name(): string {
      match this
      case Sale => "sale"
      case Expense => "expense"
    }
  }

  function ParseTransactionType(s: string): (r: Option<TransactionType>)
    ensures r.Some? <==> s == "sale" || s == "expense"
    ensures r.Some? ==> r.value.Name() == s
  {
    if s == "sale" then Some(Sale)
    else if s == "expense" then Some(Expense)
    else None
  }

  /** `status: 'pending' | 'paid' | 'overdue'` of an invoice. */
  datatype InvoiceStatus = InvoicePending | Paid | Overdue {
    function Name(): string {
      match this
      case InvoicePending => "pending"
      case Paid => "paid"
      case Overdue => "overdue"
    }
  }

  function ParseInvoiceStatus(s: string): (r: Option<InvoiceStatus>)
    ensures r.Some? <==> s == "pending" || s == "paid" || s == "overdue"
    ensures r.Some? ==> r.value.Name() == s
  {
    if s == "pending" then Some(InvoicePending)
    else if s == "paid" then Some(Paid)
    else if s == "overdue" then Some(Overdue)
    else None
  }

  /** `priority: 'low' | 'medium' | 'high'` of a task. */
  datatype TaskPriority = Low | Medium | High {
    function Name(): string {
      match this
      case Low => "low"
      case Medium => "medium"
      case High => "high"
    }
  }

  function ParseTaskPriority(s: string): (r: Option<TaskPriority>)
    ensures r.Some? <==> s == "low" || s == "medium" || s == "high"
    ensures r.Some? ==> r.value.Name() == s
  {
    if s == "low" then Some(Low)
    else if s == "medium" then Some(Medium)
    else if s == "high" then Some(High)
    else None
  }

  /** `status: 'pending' | 'completed'` of a task. */
  datatype TaskStatus = TaskPending | Completed {
    function Name(): string {
      match this
      case TaskPending => "pending"
      case Completed => "completed"
    }
  }

  function ParseTaskStatus(s: string): (r: Option<TaskStatus>)
    ensures r.Some? <==> s == "pending" || s == "completed"
    ensures r.Some? ==> r.value.Name() == s
  {
    if s == "pending" then Some(TaskPending)
    else if s == "completed" then Some(Completed)
    else None
  }

  /** Decoding the stored string of any enumeration value gives that value back. */
  lemma NamesRoundTrip(k: TransactionType, st: InvoiceStatus, pr: TaskPriority, ts: TaskStatus)
    ensures ParseTransactionType(k.Name()) == Some(k)
    ensures ParseInvoiceStatus(st.Name()) == Some(st)
    ensures ParseTaskPriority(pr.Name()) == Some(pr)
    ensures ParseTaskStatus(ts.Name()) == Some(ts)
  {
  }

  /** A sale or an expense; only `kind` decides which total it counts in. */
  datatype Transaction = Transaction(
    id: Id,
    businessId: Id,
    kind: TransactionType,
    amount: Money,
    description: string,
    date: Timestamp,
    createdAt: Timestamp)

  datatype Product = Product(
    id: Id,
    businessId: Id,
    name: string,
    description: string,
    price: Money,
    createdAt: Timestamp,
    updatedAt: Timestamp)

  /** Stock of one product, which it refers to only by `productId`. */
  datatype Inventory = Inventory(
    id: Id,
    productId: Id,
    quantity: int,
    reorderThreshold: int,
    updatedAt: Timestamp)

  /** An invoice; `status` alone decides whether it is overdue, the due date is never consulted. */
  datatype Invoice = Invoice(
    id: Id,
    businessId: Id,
    customerName: string,
    amount: Money,
    status: InvoiceStatus,
    dueDate: Timestamp,
    createdAt: Timestamp)

  /** `Number(invoice.amount)`. */
  function InvoiceAmount(inv: Invoice): Money { inv.amount }

  /** `invoice.status === 'overdue'`. */
  predicate IsOverdue(inv: Invoice) { inv.status == Overdue }

  /** A task; its due date is the only date that may be absent. */
  datatype Task = Task(
    id: Id,
    businessId: Id,
    title: string,
    description: string,
    dueDate: Option<Timestamp>,
    priority: TaskPriority,
    status: TaskStatus,
    createdAt: Timestamp)

  /**
   * `if (data) setRows(data)`: a fetch replaces the rows held by a section
   * only when the store returned data (an empty list included); otherwise the
   * rows shown before are kept.
   */
  function Refreshed<T>(current: seq<T>, fetched: Option<seq<T>>): (r: seq<T>)
    ensures fetched.Some? ==> r == fetched.value
    ensures fetched.None? ==> r == current
  {
    fetched.GetOr(current)
  }
}
