# Business dashboard: aggregation and session logic in Dafny

This project models the logic layer of a small business-management web
application: a dashboard that turns rows from a remote store (transactions,
invoices, products with their inventory, tasks) into summary figures, a
session manager that keeps the signed-in user and the cached auth tokens
consistent with an external auth provider, and the testimonial carousel of the
landing page. The rendering, the store and the provider are outside the
model: the store's answers and the provider's answers are parameters.

Modules, one per source file:

| module | file | models |
|---|---|---|
| `Records` | `records.dfy` | the record declarations: transactions, products, inventory, invoices, tasks and their closed string enumerations |
| `Finances` | `finances.dfy` | revenue, expenses and net profit over every transaction |
| `Overview` | `overview.dfy` | the month-to-date cards, overdue count and top products, and the component state they are written to |
| `Customers` | `customers.dfy` | the customer rollup (a loop over a map, in place), the customer search and the three cards |
| `Invoices` | `invoices.dfy` | the invoice search and status filter, the two totals, the status colour |
| `InventoryView` | `inventory.dfy` | stock valuation, low-stock detection, the product search |
| `TasksPanel` | `tasks.dfy` | the status toggle, removal from the list, the priority colour |
| `Auth` | `auth.dfy` | the session manager: initial check, change notifications, sign-in, sign-up, sign-out, `useAuth` |
| `Testimonials` | `carousel.dfy` | the carousel index and its wrap-around |

Helper modules: `Wrappers` (Option, Result, Outcome), `Sequences` (the
`filter` and summing `reduce` every section uses, with their lemmas) and
`Text` (ASCII lower-casing and the substring test behind
`toLowerCase().includes(...)`).

Conventions: money is an integer number of cents (`Money`), dates are integer
timestamps (`Timestamp`), names and ids are strings. Each closed string union
of the records (`'sale' | 'expense'` and so on) is a datatype whose `Name()`
is the stored string; the components compare these strings, and the colour
helpers take any string.

The month-to-date boundary is computed by each query itself
(`BusinessOverview.tsx` lines 18 and 28 each read the clock), so the two
boundaries can differ and `Overview.OverviewState.FetchOverviewData` takes
both. `Overview.SharedBoundaryProfit` states what holds when they agree.

## Model

| member | source | states |
|---|---|---|
| `Records.ParseTransactionType` | project5/src/types/database.ts:12 | a stored transaction type decodes exactly when it is "sale" or "expense", and decodes to the value with that name |
| `Records.ParseInvoiceStatus` | project5/src/types/database.ts:42 | a stored invoice status decodes exactly when it is "pending", "paid" or "overdue", to the value with that name |
| `Records.ParseTaskPriority` | project5/src/types/database.ts:53 | a stored priority decodes exactly when it is "low", "medium" or "high", to the value with that name |
| `Records.ParseTaskStatus` | project5/src/types/database.ts:54 | a stored task status decodes exactly when it is "pending" or "completed", to the value with that name |
| `Records.NamesRoundTrip` | project5/src/types/database.ts:9-56 | decoding the stored name of any enumeration value gives that value back |
| `Records.Refreshed` | project5/src/components/dashboard/sections/FinancesSection.tsx:18-20 | a fetch replaces the rows exactly when the store returned data, an empty list included; otherwise the old rows stay |
| `Finances.TotalRevenue` | project5/src/components/dashboard/sections/FinancesSection.tsx:27-29 | the sum over all transactions of the amount of each sale, 0 for each expense |
| `Finances.TotalExpenses` | project5/src/components/dashboard/sections/FinancesSection.tsx:31-33 | the sum over all transactions of the amount of each expense, 0 for each sale |
| `Finances.NetProfit` | project5/src/components/dashboard/sections/FinancesSection.tsx:78 | the sum of all amounts signed by type alone: a sale adds its amount, an expense subtracts it |
| `Finances.EmptyTotals` | project5/src/components/dashboard/sections/FinancesSection.tsx:27-33 | no transactions give revenue 0, expenses 0 and profit 0 |
| `Finances.SaleCountsAsRevenue` | project5/src/components/dashboard/sections/FinancesSection.tsx:27-29 | a sale adds exactly its amount to revenue and nothing to expenses |
| `Finances.ExpenseCountsAsExpense` | project5/src/components/dashboard/sections/FinancesSection.tsx:31-33 | an expense adds exactly its amount to expenses and nothing to revenue |
| `Finances.TotalsCoverAllAmounts` | project5/src/components/dashboard/sections/FinancesSection.tsx:27-33 | revenue plus expenses is the sum of all amounts, and the sale rows and expense rows partition the list (as multisets) |
| `Finances.TotalsAppend` | project5/src/components/dashboard/sections/FinancesSection.tsx:27-33 | revenue, expenses and profit of a concatenation are the sums over the two parts |
| `Overview.Since` | project5/src/components/dashboard/BusinessOverview.tsx:18 | keeps exactly the rows dated on or after the boundary, each as often as in the table, in order |
| `Overview.SelectSince` | project5/src/components/dashboard/BusinessOverview.tsx:14-18 | keeps exactly the rows of the given type dated on or after the boundary, each as often as in the table |
| `Overview.MonthToDate` | project5/src/components/dashboard/BusinessOverview.tsx:14-30 | the sum of the selected rows' amounts; `MonthToDateIsFinanceTotal`, `RowIgnored` and `CurrentRowCounted` characterise it |
| `Overview.OverdueCount` | project5/src/components/dashboard/BusinessOverview.tsx:34-39 | the count is at most the number of invoices, and 0 exactly when no invoice is overdue |
| `Overview.Limit` | project5/src/components/dashboard/BusinessOverview.tsx:42-45 | exactly the first min(n, row count) rows: all of them when there are no more than n, the first n otherwise |
| `Overview.OverviewState.constructor` | project5/src/components/dashboard/BusinessOverview.tsx:6-9 | all figures start at 0 and the product list empty |
| `Overview.OverviewState.FetchOverviewData` | project5/src/components/dashboard/BusinessOverview.tsx:12-50 | revenue and expenses are the month-to-date sums of their type, each against its own boundary, or 0 when the query returned nothing; the overdue count is the count or 0; top products are replaced by at most three rows only when data came back |
| `Overview.OverviewState.NetProfit` | project5/src/components/dashboard/BusinessOverview.tsx:70 | revenue less expenses of the state; `SharedBoundaryProfit` ties it to the Finances net profit |
| `Overview.MonthToDateIsFinanceTotal` | project5/src/components/dashboard/BusinessOverview.tsx:14-30 | month-to-date revenue and expenses are the Finances totals over the rows on or after the boundary |
| `Overview.SinceAppend` | project5/src/components/dashboard/BusinessOverview.tsx:18 | one more row joins the rows since the boundary exactly when it is dated on or after it |
| `Overview.RowIgnored` | project5/src/components/dashboard/BusinessOverview.tsx:14-30 | a row dated before the boundary, or of the other type, changes neither figure |
| `Overview.CurrentRowCounted` | project5/src/components/dashboard/BusinessOverview.tsx:14-20 | a row of the queried type on or after the boundary adds exactly its amount |
| `Overview.SharedBoundaryProfit` | project5/src/components/dashboard/BusinessOverview.tsx:70 | with one boundary for both queries, the profit shown is the Finances net profit of the current month's rows |
| `Overview.ExampleLastMonthExcluded` | project5/src/components/dashboard/BusinessOverview.tsx:14-30 | sale 100 and expense 40 this month and sale 500 last month give 100, 40 and 60 |
| `Customers.Rollup` | project5/src/components/dashboard/sections/CustomersSection.tsx:27-51 | the specification of the rollup, one entry per distinct name; `RollUp` computes it and `NamesDistinct`, `NamesInFirstSeenOrder`, `LatestIsMaximum`, `RollupAppend` and `RollupTotals` characterise it |
| `Customers.RollUp` | project5/src/components/dashboard/sections/CustomersSection.tsx:26-51 | the map-and-loop fold returns one customer per distinct name in first-seen order, with that name's summed amounts, invoice count and latest date |
| `Customers.NamesHaveInvoices` | project5/src/components/dashboard/sections/CustomersSection.tsx:29-48 | a name is listed exactly when some invoice is made out to it |
| `Customers.NoPurchasesNothingSpent` | project5/src/components/dashboard/sections/CustomersSection.tsx:41-47 | a name with no invoice has a total of 0 |
| `Customers.NamesDistinct` | project5/src/components/dashboard/sections/CustomersSection.tsx:27-30 | no name is listed twice; names are compared exactly |
| `Customers.FirstSeen` | project5/src/components/dashboard/sections/CustomersSection.tsx:29-30 | the index of the first invoice for a name, or the length when there is none |
| `Customers.NamesInFirstSeenOrder` | project5/src/components/dashboard/sections/CustomersSection.tsx:27-51 | every listed name has an invoice, and names are listed in the order of their first invoices |
| `Customers.LatestIsMaximum` | project5/src/components/dashboard/sections/CustomersSection.tsx:36-46 | the last purchase is no earlier than any of the customer's invoices and equal to one of them |
| `Customers.LatestOrderIndependent` | project5/src/components/dashboard/sections/CustomersSection.tsx:36-39 | reordering the invoices does not change any customer's last purchase |
| `Customers.ExampleAcme` | project5/src/components/dashboard/sections/CustomersSection.tsx:29-49 | Acme 200 at d1 and Acme 50 at a later d2 roll up to one customer: 250, two invoices, d2 |
| `Customers.NamesAppend` | project5/src/components/dashboard/sections/CustomersSection.tsx:29-49 | the names of a concatenation are those of the first part followed by the new names of the second |
| `Customers.FiguresAppend` | project5/src/components/dashboard/sections/CustomersSection.tsx:32-40 | per name, totals and counts of a concatenation add up and the later last purchase wins |
| `Customers.RollupAppend` | project5/src/components/dashboard/sections/CustomersSection.tsx:29-49 | rolling up a concatenation equals merging the two rollups |
| `Customers.RollupTotals` | project5/src/components/dashboard/sections/CustomersSection.tsx:29-49 | the customers' totals sum to all invoice amounts and their counts to the number of invoices |
| `Customers.FilteredCustomers` | project5/src/components/dashboard/sections/CustomersSection.tsx:59-61 | keeps exactly the customers whose name contains the term, ignoring case, each as often as in the list, in order |
| `Customers.EmptySearchKeepsAll` | project5/src/components/dashboard/sections/CustomersSection.tsx:59-61 | an empty term keeps every customer |
| `Customers.TotalRevenue` | project5/src/components/dashboard/sections/CustomersSection.tsx:64 | the sum of the customers' totals; `CardsOverRollup` shows it is the sum of all invoice amounts |
| `Customers.AverageRevenue` | project5/src/components/dashboard/sections/CustomersSection.tsx:65 | 0 with no customers, otherwise the average times the count is the total revenue |
| `Customers.SectionView` | project5/src/components/dashboard/sections/CustomersSection.tsx:59-65 | the list shown and the three cards; `CardsIgnoreSearch` and `CardsOverRollup` characterise it |
| `Customers.CardsIgnoreSearch` | project5/src/components/dashboard/sections/CustomersSection.tsx:59-65 | the customer count, total revenue and average do not depend on the search term |
| `Customers.CardsOverRollup` | project5/src/components/dashboard/sections/CustomersSection.tsx:63-64 | over the rollup, the count is the number of distinct names and the revenue the sum of all invoice amounts |
| `Invoices.FilteredInvoices` | project5/src/components/dashboard/sections/InvoicesSection.tsx:40-44 | keeps an invoice exactly when its customer name contains the term, ignoring case, and the filter is "all" or equals its status; multiplicity and order are kept |
| `Invoices.TotalAmount` | project5/src/components/dashboard/sections/InvoicesSection.tsx:46 | the sum over every fetched invoice of its amount when the filters show it and 0 when they hide it |
| `Invoices.OverdueAmount` | project5/src/components/dashboard/sections/InvoicesSection.tsx:47-49 | the overdue invoices' amounts among those shown; `OverdueAmountIsOverdueTotal` characterises it |
| `Invoices.OverdueAmountIsOverdueTotal` | project5/src/components/dashboard/sections/InvoicesSection.tsx:47-49 | the overdue amount is the total of the overdue invoices the search matches when the status filter admits overdue invoices, and 0 otherwise |
| `Invoices.TotalInvoices` | project5/src/components/dashboard/sections/InvoicesSection.tsx:87 | the number of invoices fetched; `FilteredNoLonger` bounds the filtered list by it |
| `Invoices.NoFilterKeepsAll` | project5/src/components/dashboard/sections/InvoicesSection.tsx:40-46 | filter "all" with an empty term returns the list unchanged, and the total is the sum of all amounts |
| `Invoices.OverdueFilterOverdueIsTotal` | project5/src/components/dashboard/sections/InvoicesSection.tsx:46-49 | with the filter set to overdue, the overdue amount equals the total amount |
| `Invoices.OtherFilterNoOverdue` | project5/src/components/dashboard/sections/InvoicesSection.tsx:47-49 | with the filter set to paid or pending, the overdue amount is 0 |
| `Invoices.AmountsBounded` | project5/src/components/dashboard/sections/InvoicesSection.tsx:46-49 | with non-negative amounts, 0 ≤ overdue amount ≤ filtered total ≤ unfiltered total |
| `Invoices.FilteredNoLonger` | project5/src/components/dashboard/sections/InvoicesSection.tsx:87 | the filtered list is never longer than the unfiltered count shown on the card |
| `Invoices.StatusTone` | project5/src/components/dashboard/sections/InvoicesSection.tsx:29-38 | green exactly for "paid", red exactly for "overdue", yellow for any other string |
| `Invoices.StatusTones` | project5/src/components/dashboard/sections/InvoicesSection.tsx:29-38 | over the three statuses, pending is the yellow one |
| `InventoryView.StockOf` | project5/src/components/dashboard/sections/InventorySection.tsx:76 | the quantity of the stock record, 0 when it is missing |
| `InventoryView.RowValue` | project5/src/components/dashboard/sections/InventorySection.tsx:124 | a row without stock record is worth 0 |
| `InventoryView.LowStockItems` | project5/src/components/dashboard/sections/InventorySection.tsx:39-41 | keeps exactly the low-stock items, each as often as in the list, never more than the product count |
| `InventoryView.IsLowStock` | project5/src/components/dashboard/sections/InventorySection.tsx:40 | the low-stock test; `LowStockIffAtOrBelow` and `MissingStockIgnored` characterise it |
| `InventoryView.TotalValue` | project5/src/components/dashboard/sections/InventorySection.tsx:76 | the sum of the row values; `TotalValueAppend`, `TotalValueNonNegative` and `MissingStockIgnored` characterise it |
| `InventoryView.FilteredInventory` | project5/src/components/dashboard/sections/InventorySection.tsx:34-37 | keeps exactly the items whose name or description contains the term, ignoring case, each as often as in the list, in order |
| `InventoryView.LowStockIffAtOrBelow` | project5/src/components/dashboard/sections/InventorySection.tsx:39-41 | an item with stock is low exactly when quantity ≤ threshold; at the threshold it is low |
| `InventoryView.MissingStockIgnored` | project5/src/components/dashboard/sections/InventorySection.tsx:40 | an item without stock record is not low stock and adds nothing to the total value |
| `InventoryView.TotalValueAppend` | project5/src/components/dashboard/sections/InventorySection.tsx:76 | total value and low-stock count of a concatenation are the sums over the two parts |
| `InventoryView.TotalValueNonNegative` | project5/src/components/dashboard/sections/InventorySection.tsx:76 | with non-negative prices and quantities the total value is non-negative |
| `InventoryView.EmptySearchKeepsAll` | project5/src/components/dashboard/sections/InventorySection.tsx:34-37 | an empty term keeps every item |
| `TasksPanel.Toggled` | project5/src/components/dashboard/TasksPanel.tsx:37 | the new status differs from the current one, and is completed exactly when the current one is pending |
| `TasksPanel.ToggleTwice` | project5/src/components/dashboard/TasksPanel.tsx:37 | toggling twice gives the status back |
| `TasksPanel.Without` | project5/src/components/dashboard/TasksPanel.tsx:45 | keeps exactly the tasks with another id, each as often as before, in their order |
| `TasksPanel.WithoutIdempotent` | project5/src/components/dashboard/TasksPanel.tsx:45 | removing an id twice is removing it once |
| `TasksPanel.WithoutAbsent` | project5/src/components/dashboard/TasksPanel.tsx:45 | removing an id no task has changes nothing |
| `TasksPanel.PriorityTone` | project5/src/components/dashboard/TasksPanel.tsx:25-34 | red exactly for "high", yellow exactly for "medium", blue for any other string |
| `TasksPanel.PriorityTones` | project5/src/components/dashboard/TasksPanel.tsx:25-34 | over the three priorities, low is the blue one |
| `TasksPanel.Panel.constructor` | project5/src/components/dashboard/TasksPanel.tsx:7 | the panel starts with no tasks |
| `TasksPanel.Panel.ApplyFetch` | project5/src/components/dashboard/TasksPanel.tsx:17-19 | the list is replaced only when the fetch returned data |
| `TasksPanel.Panel.ToggleTaskStatus` | project5/src/components/dashboard/TasksPanel.tsx:36-46 | returns the opposite status; on success no task with that id remains and the others keep order and contents; on failure the list is unchanged |
| `Auth.UserOf` | project5/src/components/auth/AuthContext.tsx:22 | a user exactly when there is a session, and then the session's user |
| `Auth.ClearTokens` | project5/src/components/auth/AuthContext.tsx:63-64 | both token keys are gone and every other entry is kept with its value |
| `Auth.ClearTokensIdempotent` | project5/src/components/auth/AuthContext.tsx:63-64 | clearing twice is clearing once |
| `Auth.Raised` | project5/src/components/auth/AuthContext.tsx:36 | fails exactly when the provider reported an error, with that error |
| `Auth.UserAfter` | project5/src/components/auth/AuthContext.tsx:27-29 | the user after a series of change notifications; `LastNotificationWins` characterises it |
| `Auth.LastNotificationWins` | project5/src/components/auth/AuthContext.tsx:27-29 | after a series of change notifications the user is that of the last one |
| `Auth.SessionManager.constructor` | project5/src/components/auth/AuthContext.tsx:16-17 | no user, loading, storage as found |
| `Auth.SessionManager.InitialSessionCheck` | project5/src/components/auth/AuthContext.tsx:21-24 | when the provider answers, the user is the session's or none, loading ends and the phase is Authenticated or Anonymous accordingly; when `getSession()` throws, user and loading are left as they were |
| `Auth.SessionManager.OnAuthStateChange` | project5/src/components/auth/AuthContext.tsx:27-29 | the notified session overwrites the user; nothing else changes |
| `Auth.SessionManager.SignIn` | project5/src/components/auth/AuthContext.tsx:34-37 | the provider's error is raised as it is; no state changes |
| `Auth.SessionManager.SignUp` | project5/src/components/auth/AuthContext.tsx:39-42 | the provider's error is raised as it is; no state changes |
| `Auth.SessionManager.SignOut` | project5/src/components/auth/AuthContext.tsx:44-66 | on every path the user is none and exactly the two token keys are removed; revocation is attempted exactly when a session exists; each failure is logged, none raised |
| `Auth.UseAuth` | project5/src/components/auth/AuthContext.tsx:75-81 | fails exactly outside a provider, otherwise returns the provider's value |
| `Text.Contains` | project5/src/components/dashboard/sections/InvoicesSection.tsx:41 | true exactly when the term occurs at some position of the text |
| `Text.Includes` | project5/src/components/dashboard/sections/InvoicesSection.tsx:41 | the case-insensitive search; `IncludesIgnoresCase` and `EmptyTermMatches` characterise it |
| `Text.IncludesIgnoresCase` | project5/src/components/dashboard/sections/InvoicesSection.tsx:41 | lower-casing either side first does not change the search result |
| `Text.EmptyTermMatches` | project5/src/components/dashboard/sections/CustomersSection.tsx:60 | the empty term matches every field |
| `Testimonials.Next` | src/components/TestimonialsSection.tsx:80-84 | stays in range and is the index plus one, modulo the count |
| `Testimonials.Previous` | src/components/TestimonialsSection.tsx:74-78 | stays in range, and pressing next from the result gives the index back |
| `Testimonials.PreviousNextInverse` | src/components/TestimonialsSection.tsx:74-84 | previous undoes next and next undoes previous |
| `Testimonials.NextTimes` | src/components/TestimonialsSection.tsx:80-84 | any number of presses of next keeps the index in range |
| `Testimonials.NextTimesForward` | src/components/TestimonialsSection.tsx:80-84 | before wrapping, k presses move exactly k places |
| `Testimonials.NextTimesCompose` | src/components/TestimonialsSection.tsx:80-84 | a presses then b presses is a + b presses |
| `Testimonials.FullTurnReturns` | src/components/TestimonialsSection.tsx:80-84 | as many presses as testimonials return to the start |
| `Testimonials.PageWraps` | src/components/TestimonialsSection.tsx:13-38 | with the page's three testimonials, next on the last shows the first and previous on the first shows the last |
| `Testimonials.Carousel.constructor` | src/components/TestimonialsSection.tsx:72 | the first testimonial is shown |
| `Testimonials.Carousel.ShowPrevious` | src/components/TestimonialsSection.tsx:74-78 | from 0 to the last index, otherwise one back; stays in range |
| `Testimonials.Carousel.ShowNext` | src/components/TestimonialsSection.tsx:80-84 | from the last index to 0, otherwise one forward; stays in range |
| `Testimonials.Carousel.GoTo` | src/components/TestimonialsSection.tsx:139 | the dot of testimonial i shows exactly i |
| `Testimonials.NextThenPrevious` | src/components/TestimonialsSection.tsx:74-84 | on a carousel object, next followed by previous shows the same testimonial again |

## Left out

- Rendering: JSX, CSS classes, icons, the loading placeholders, and currency and date formatting (`toLocaleString`, `Intl.NumberFormat`, `toLocaleDateString`). The badge and label colours are reduced to a tone.
- The store itself: queries are modelled as functions of the table contents (`Overview.SelectSince`, `Overview.OverdueCount`, `Overview.Limit`) or as `Option` replies; a failed query is a parameter. `.limit(3)` without an order is taken as the first three rows in table order.
- The wall clock: the first-of-month boundary is a timestamp parameter, read once per query as in the code. Date parsing and `toISOString` are not modelled: dates are integers, so the rollup's `lastPurchase` is the maximum timestamp rather than a re-formatted string.
- Floating point: `Number(amount)` sums are exact integer sums of cents; the customers' average is a `real`.
- Unicode case mapping: `Text.Lower` lower-cases ASCII letters only.
- Asynchrony: promise ordering, the subscription handle and its `unsubscribe`, and races between fetches and notifications. `TasksPanel.Panel.ToggleTaskStatus` filters the current list, whereas the component filters the list captured when it rendered; the store update itself is a success/failure parameter.
- `console.warn`: `Auth.SessionManager.SignOut` returns the warning it would log instead of logging it.
- InventoryView.FilteredInventory: does not model a missing product description (the `?.` before `toLowerCase`), because the record declares the description a non-null string.
- The customers list is only rebuilt when invoices came back; the model gives the rollup of the invoices returned (`Customers.RollUp`) and does not repeat the keep-the-old-list case, which is `Records.Refreshed`.
- The `Business` and `ActivityLog` records, the settings form (its save always reports success), the navigation bars, landing sections, sidebar, layout, quick actions, recent activity and routing: markup or fetch-and-display with no logic.
