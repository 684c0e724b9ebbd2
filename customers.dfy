/**
 * The Customers section. Customers are not stored: they are rolled up from
 * the invoices, grouped by the exact `customer_name` string. The rollup walks
 * the invoices once, updating a map from name to customer in place; the map
 * hands its values back in the order their names were first inserted.
 */
module Customers {
  import opened Wrappers
  import opened Records
  import opened Sequences
  import Text

  /** One derived customer: the fields of the `Customer` interface. */
  datatype Customer = Customer(name: string, totalSpent: Money, invoiceCount: nat, lastPurchase: Timestamp)

  function Max(a: int, b: int): int { if a < b then b else a }

  // ---------------------------------------------------------------------------
  // Specification of the rollup, one customer name at a time

  /** The distinct customer names of `invs`, in the order each is first seen. */
  function Names(invs: seq<Invoice>): seq<string>
  {
    if invs == [] then []
    else
      var seen := Names(invs[..|invs| - 1]);
      var name := invs[|invs| - 1].customerName;
      if name in seen then seen else seen + [name]
  }

  /** The number of invoices made out to `name`. */
  function Purchases(invs: seq<Invoice>, name: string): nat
  {
    if invs == [] then 0
    else Purchases(invs[..|invs| - 1], name) + (if invs[|invs| - 1].customerName == name then 1 else 0)
  }

  /** The sum of the amounts of the invoices made out to `name`. */
  function Spent(invs: seq<Invoice>, name: string): Money
  {
    if invs == [] then 0
    else Spent(invs[..|invs| - 1], name) + (if invs[|invs| - 1].customerName == name then invs[|invs| - 1].amount else 0)
  }

  /**
   * The latest `created_at` among the invoices made out to `name` (0 when
   * there is none; `LatestIsMaximum` shows it is their maximum).
   */
  function Latest(invs: seq<Invoice>, name: string): Timestamp
  {
    if invs == [] then 0
    else
      var before := invs[..|invs| - 1];
      var inv := invs[|invs| - 1];
      if inv.customerName != name then Latest(before, name)
      else if Purchases(before, name) == 0 then inv.createdAt
      else Max(Latest(before, name), inv.createdAt)
  }

  /** The customer record the rollup holds for `name`. */
  function Entry(invs: seq<Invoice>, name: string): Customer
  {
    Customer(name, Spent(invs, name), Purchases(invs, name), Latest(invs, name))
  }

  /** The entries for the names `names`, in that order. */
  function Entries(invs: seq<Invoice>, names: seq<string>): (r: seq<Customer>)
    ensures |r| == |names|
    ensures forall i :: 0 <= i < |names| ==> r[i] == Entry(invs, names[i])
  {
    seq(|names|, i requires 0 <= i < |names| => Entry(invs, names[i]))
  }

  /** What the rollup produces: one customer per distinct name, in first-seen order. */
  function Rollup(invs: seq<Invoice>): seq<Customer>
  {
    Entries(invs, Names(invs))
  }

  // ---------------------------------------------------------------------------
  // The rollup as the source computes it

  /**
   * The `forEach` over the invoices inside `fetchCustomers`: a map from name
   * to customer updated in place, plus the insertion order of its keys, which
   * `Array.from(customerMap.values())` follows.
   */
  method RollUp(invoices: seq<Invoice>) returns (customers: seq<Customer>)
    ensures customers == Rollup(invoices)
  {
    var customerMap: map<string, Customer> := map[];
    var order: seq<string> := [];
    var i := 0;
    while i < |invoices|
      invariant 0 <= i <= |invoices|
      invariant order == Names(invoices[..i])
      invariant forall name :: name in customerMap <==> name in order
      invariant forall name :: name in customerMap ==> customerMap[name] == Entry(invoices[..i], name)
    {
      var invoice := invoices[i];
      var name := invoice.customerName;
      assert invoices[..i + 1][..i] == invoices[..i];
      NamesHaveInvoices(invoices[..i], name);
      if name in customerMap {
        var existing := customerMap[name];
        customerMap := customerMap[name := Customer(
          name,
          existing.totalSpent + invoice.amount,
          existing.invoiceCount + 1,
          Max(existing.lastPurchase, invoice.createdAt))];
      } else {
        NoPurchasesNothingSpent(invoices[..i], name);
        customerMap := customerMap[name := Customer(name, invoice.amount, 1, invoice.createdAt)];
        order := order + [name];
      }
      i := i + 1;
    }
    assert invoices[..i] == invoices;
    customers := seq(|order|, k requires 0 <= k < |order| => customerMap[order[k]]);
  }

  // ---------------------------------------------------------------------------
  // What the rollup means

  /** A name is listed exactly when some invoice is made out to it. */
  lemma {:induction false} NamesHaveInvoices(invs: seq<Invoice>, name: string)
    ensures name in Names(invs) <==> Purchases(invs, name) > 0
    ensures name in Names(invs) <==> exists i :: 0 <= i < |invs| && invs[i].customerName == name
  {
    if invs != [] {
      var before := invs[..|invs| - 1];
      NamesHaveInvoices(before, name);
      assert forall i :: 0 <= i < |before| ==> before[i] == invs[i];
    }
  }

  /** A customer with no invoice has spent nothing. */
  lemma {:induction false} NoPurchasesNothingSpent(invs: seq<Invoice>, name: string)
    requires Purchases(invs, name) == 0
    ensures Spent(invs, name) == 0
  {
    if invs != [] {
      NoPurchasesNothingSpent(invs[..|invs| - 1], name);
    }
  }

  /** No name is listed twice: names are compared exactly, so "Acme" and "acme" are two customers. */
  lemma {:induction false} NamesDistinct(invs: seq<Invoice>)
    ensures forall i, j :: 0 <= i < j < |Names(invs)| ==> Names(invs)[i] != Names(invs)[j]
  {
    if invs != [] {
      NamesDistinct(invs[..|invs| - 1]);
    }
  }

  /**
   * `lastPurchase` is the maximum `created_at` of the customer's invoices: no
   * invoice of theirs is later, and one of them has exactly that date. This
   * does not depend on the order of the input.
   */
  lemma {:induction false} LatestIsMaximum(invs: seq<Invoice>, name: string)
    requires Purchases(invs, name) > 0
    ensures forall i :: 0 <= i < |invs| && invs[i].customerName == name ==> invs[i].createdAt <= Latest(invs, name)
    ensures exists i :: 0 <= i < |invs| && invs[i].customerName == name && invs[i].createdAt == Latest(invs, name)
  {
    var before := invs[..|invs| - 1];
    var inv := invs[|invs| - 1];
    assert forall i :: 0 <= i < |before| ==> before[i] == invs[i];
    if Purchases(before, name) > 0 {
      LatestIsMaximum(before, name);
      if inv.customerName == name {
        assert invs[|invs| - 1].customerName == name;
      } else {
        var k :| 0 <= k < |before| && before[k].customerName == name && before[k].createdAt == Latest(before, name);
        assert invs[k].customerName == name && invs[k].createdAt == Latest(invs, name);
      }
    } else {
      NamesHaveInvoices(before, name);
      assert invs[|invs| - 1].customerName == name;
    }
  }

  /** Reordering the invoices does not change any customer's `lastPurchase`. */
  lemma {:induction false} LatestOrderIndependent(a: seq<Invoice>, b: seq<Invoice>, name: string)
    requires multiset(a) == multiset(b)
    requires Purchases(a, name) > 0
    ensures Purchases(b, name) > 0
    ensures Latest(a, name) == Latest(b, name)
  {
    LatestIsMaximum(a, name);
    var i :| 0 <= i < |a| && a[i].customerName == name && a[i].createdAt == Latest(a, name);
    assert a[i] in multiset(b);
    var j :| 0 <= j < |b| && b[j] == a[i];
    NamesHaveInvoices(b, name);
    LatestIsMaximum(b, name);
    var k :| 0 <= k < |b| && b[k].customerName == name && b[k].createdAt == Latest(b, name);
    assert b[k] in multiset(a);
    var l :| 0 <= l < |a| && a[l] == b[k];
  }

  /** The example: two invoices for "Acme", of 200 at d1 and of 50 at a later d2, give one customer (Acme, 250, 2, d2). */
  lemma ExampleAcme(d1: Timestamp, d2: Timestamp)
    requires d1 < d2
    ensures var invs := [
              Invoice("i1", "b", "Acme", 200, InvoicePending, d1, d1),
              Invoice("i2", "b", "Acme", 50, InvoicePending, d2, d2)];
            Rollup(invs) == [Customer("Acme", 250, 2, d2)]
  {
    var i1 := Invoice("i1", "b", "Acme", 200, InvoicePending, d1, d1);
    var i2 := Invoice("i2", "b", "Acme", 50, InvoicePending, d2, d2);
    assert [i1, i2][..1] == [i1];
    assert [i1][..0] == [];
    assert Purchases([i1], "Acme") == Purchases([], "Acme") + 1;
    assert Spent([i1], "Acme") == Spent([], "Acme") + 200;
    assert Names([i1]) == ["Acme"];
    assert Names([i1, i2]) == ["Acme"];
    assert Spent([i1, i2], "Acme") == 250 && Purchases([i1, i2], "Acme") == 2;
    assert Latest([i1, i2], "Acme") == d2;
  }

  // ---------------------------------------------------------------------------
  // Order of the output

  /** The index of the first invoice made out to `name`, or `|invs|` when there is none. */
  function FirstSeen(invs: seq<Invoice>, name: string): (r: nat)
    ensures r <= |invs|
    ensures r < |invs| ==> invs[r].customerName == name
    ensures forall k :: 0 <= k < r ==> invs[k].customerName != name
  {
    if invs == [] then 0
    else
      var before := invs[..|invs| - 1];
      var first := FirstSeen(before, name);
      if first < |before| then first
      else if invs[|invs| - 1].customerName == name then |before|
      else |invs|
  }

  /** Customers come out in the order their first invoice appears in the input. */
  lemma {:induction false} NamesInFirstSeenOrder(invs: seq<Invoice>)
    ensures forall i :: 0 <= i < |Names(invs)| ==> FirstSeen(invs, Names(invs)[i]) < |invs|
    ensures forall i, j :: 0 <= i < j < |Names(invs)| ==>
              FirstSeen(invs, Names(invs)[i]) < FirstSeen(invs, Names(invs)[j])
  {
    if invs != [] {
      var before := invs[..|invs| - 1];
      NamesInFirstSeenOrder(before);
      var name := invs[|invs| - 1].customerName;
      if name !in Names(before) {
        NamesHaveInvoices(before, name);
        assert FirstSeen(before, name) == |before|;
      }
    }
  }

  // ---------------------------------------------------------------------------
  // Rolling up a concatenation is merging the two rollups

  /** The entry for `name` in a list of customers, if it has one (the first one). */
  function Find(cs: seq<Customer>, name: string): (r: Option<Customer>)
    ensures r.Some? ==> r.value in cs && r.value.name == name
    ensures r.None? ==> forall c :: c in cs ==> c.name != name
  {
    if cs == [] then None
    else
      var before := cs[..|cs| - 1];
      var found := Find(before, name);
      assert cs == before + [cs[|cs| - 1]];
      if found.Some? then found
      else if cs[|cs| - 1].name == name then Some(cs[|cs| - 1])
      else None
  }

  /** Two records of one customer added together: totals and counts add up, the later purchase wins. */
  function Combine(c: Customer, d: Customer): Customer
  {
    Customer(c.name, c.totalSpent + d.totalSpent, c.invoiceCount + d.invoiceCount, Max(c.lastPurchase, d.lastPurchase))
  }

  /** `c` combined with the entry of the same name in `later`, if there is one. */
  function Absorb(c: Customer, later: seq<Customer>): Customer
  {
    match Find(later, c.name)
    case None => c
    case Some(d) => Combine(c, d)
  }

  /** The customers of `later` whose name has no entry in `earlier`, in their order. */
  function Unlisted(earlier: seq<Customer>, later: seq<Customer>): seq<Customer>
  {
    if later == [] then []
    else
      var rest := Unlisted(earlier, later[..|later| - 1]);
      var c := later[|later| - 1];
      if Find(earlier, c.name).None? then rest + [c] else rest
  }

  /** Merging two rollups: every earlier customer absorbs its later entry, then the new customers follow. */
  function Merge(earlier: seq<Customer>, later: seq<Customer>): seq<Customer>
  {
    seq(|earlier|, i requires 0 <= i < |earlier| => Absorb(earlier[i], later)) + Unlisted(earlier, later)
  }

  /** The names of `names` that are not in `seen`, in their order. */
  function Fresh(seen: seq<string>, names: seq<string>): (r: seq<string>)
    ensures forall n :: n in r <==> n in names && n !in seen
  {
    if names == [] then []
    else
      var rest := Fresh(seen, names[..|names| - 1]);
      var n := names[|names| - 1];
      assert names == names[..|names| - 1] + [n];
      if n in seen then rest else rest + [n]
  }

  /** The rollup's entry for `name`, if any, is the customer built from all of `name`'s invoices. */
  lemma {:induction false} FindEntries(invs: seq<Invoice>, names: seq<string>, name: string)
    ensures Find(Entries(invs, names), name) == if name in names then Some(Entry(invs, name)) else None
  {
    if names != [] {
      var before := names[..|names| - 1];
      assert Entries(invs, names)[..|before|] == Entries(invs, before);
      assert names == before + [names[|names| - 1]];
      FindEntries(invs, before, name);
    }
  }

  /** The names of a concatenation: those of the first part, then the new ones of the second. */
  lemma {:induction false} NamesAppend(a: seq<Invoice>, b: seq<Invoice>)
    ensures Names(a + b) == Names(a) + Fresh(Names(a), Names(b))
  {
    if b == [] {
      assert a + b == a;
    } else {
      var b' := b[..|b| - 1];
      var name := b[|b| - 1].customerName;
      var na, nb' := Names(a), Names(b');
      assert (a + b)[..|a + b| - 1] == a + b';
      assert (a + b)[|a + b| - 1].customerName == name;
      NamesAppend(a, b');
      assert Names(a + b') == na + Fresh(na, nb');
      if name in nb' {
        assert Names(b) == nb';
        assert name in Names(a + b');
      } else {
        var nb := nb' + [name];
        assert Names(b) == nb;
        assert nb[..|nb| - 1] == nb';
        if name in na {
          assert Fresh(na, nb) == Fresh(na, nb');
          assert name in Names(a + b');
        } else {
          assert Fresh(na, nb) == Fresh(na, nb') + [name];
          assert name !in Names(a + b');
        }
      }
    }
  }

  /** Per customer, the figures of a concatenation combine those of the two parts. */
  lemma {:induction false} FiguresAppend(a: seq<Invoice>, b: seq<Invoice>, name: string)
    ensures Spent(a + b, name) == Spent(a, name) + Spent(b, name)
    ensures Purchases(a + b, name) == Purchases(a, name) + Purchases(b, name)
    ensures Latest(a + b, name) ==
              if Purchases(b, name) == 0 then Latest(a, name)
              else if Purchases(a, name) == 0 then Latest(b, name)
              else Max(Latest(a, name), Latest(b, name))
  {
    if b == [] {
      assert a + b == a;
    } else {
      var b' := b[..|b| - 1];
      assert (a + b)[..|a + b| - 1] == a + b';
      FiguresAppend(a, b', name);
    }
  }

  /** The new customers of the second part keep exactly the entries they have in its own rollup. */
  lemma {:induction false} UnlistedEntries(a: seq<Invoice>, b: seq<Invoice>, names: seq<string>)
    ensures Unlisted(Rollup(a), Entries(b, names)) == Entries(b, Fresh(Names(a), names))
  {
    if names != [] {
      var before := names[..|names| - 1];
      var n := names[|names| - 1];
      assert Entries(b, names)[..|before|] == Entries(b, before);
      UnlistedEntries(a, b, before);
      FindEntries(a, Names(a), n);
      var f := Fresh(Names(a), names);
      if n !in Names(a) {
        assert f == Fresh(Names(a), before) + [n];
      }
    }
  }

  /**
   * Rolling up a concatenation equals merging the rollups of the two parts:
   * totals and counts add up, the later purchase date wins, customers of the
   * first part keep their place and new customers of the second part follow.
   */
  lemma {:induction false} RollupAppend(a: seq<Invoice>, b: seq<Invoice>)
    ensures Rollup(a + b) == Merge(Rollup(a), Rollup(b))
  {
    var na, nb := Names(a), Names(b);
    var newNames := Fresh(na, nb);
    NamesAppend(a, b);
    var whole := Rollup(a + b);
    var merged := Merge(Rollup(a), Rollup(b));
    UnlistedEntries(a, b, nb);
    assert |whole| == |merged|;
    forall i | 0 <= i < |whole| ensures whole[i] == merged[i] {
      if i < |na| {
        var n := na[i];
        FiguresAppend(a, b, n);
        FindEntries(b, nb, n);
        NamesHaveInvoices(a, n);
        NamesHaveInvoices(b, n);
        if n !in nb {
          NoPurchasesNothingSpent(b, n);
        }
      } else {
        var n := newNames[i - |na|];
        assert n in newNames;
        FiguresAppend(a, b, n);
        NamesHaveInvoices(a, n);
        NamesHaveInvoices(b, n);
        NoPurchasesNothingSpent(a, n);
      }
    }
  }

  // ---------------------------------------------------------------------------
  // Figures derived from the rollup

  function SpentOf(c: Customer): int { c.totalSpent }

  function CountOf(c: Customer): int { c.invoiceCount }

  /** One more invoice raises the summed figures over any list of distinct names by its amount and by one,
      when it is made out to one of them. */
  lemma {:induction false} EntriesSumStep(invs: seq<Invoice>, x: Invoice, names: seq<string>)
    requires forall i, j :: 0 <= i < j < |names| ==> names[i] != names[j]
    ensures Sum(Entries(invs + [x], names), SpentOf)
         == Sum(Entries(invs, names), SpentOf) + (if x.customerName in names then x.amount else 0)
    ensures Sum(Entries(invs + [x], names), CountOf)
         == Sum(Entries(invs, names), CountOf) + (if x.customerName in names then 1 else 0)
  {
    if names != [] {
      var before := names[..|names| - 1];
      var n := names[|names| - 1];
      assert names == before + [n];
      assert Entries(invs + [x], names)[..|before|] == Entries(invs + [x], before);
      assert Entries(invs, names)[..|before|] == Entries(invs, before);
      assert (invs + [x])[..|invs|] == invs;
      EntriesSumStep(invs, x, before);
    }
  }

  /** The customers' totals add up to all invoice amounts, and their counts to the number of invoices. */
  lemma {:induction false} RollupTotals(invs: seq<Invoice>)
    ensures Sum(Rollup(invs), SpentOf) == Sum(invs, InvoiceAmount)
    ensures Sum(Rollup(invs), CountOf) == |invs|
  {
    if invs != [] {
      var before := invs[..|invs| - 1];
      var x := invs[|invs| - 1];
      assert invs == before + [x];
      RollupTotals(before);
      NamesDistinct(before);
      EntriesSumStep(before, x, Names(before));
      if x.customerName !in Names(before) {
        var names := Names(invs);
        assert names[..|names| - 1] == Names(before);
        assert Entries(invs, names)[..|names| - 1] == Entries(invs, Names(before));
        NamesHaveInvoices(before, x.customerName);
        NoPurchasesNothingSpent(before, x.customerName);
      }
    }
  }

  /** The search box: customers whose name contains the search term, ignoring case. */
  function FilteredCustomers(customers: seq<Customer>, term: string): (r: seq<Customer>)
    ensures forall c :: c in r <==> c in customers && Text.Includes(c.name, term)
    ensures forall c :: multiset(r)[c] == if Text.Includes(c.name, term) then multiset(customers)[c] else 0
    ensures IsSubsequence(r, customers)
  {
    var matches := (c: Customer) => Text.Includes(c.name, term);
    FilterMultiset(customers, matches);
    Filter(customers, matches)
  }

  /** An empty search term keeps every customer. */
  lemma EmptySearchKeepsAll(customers: seq<Customer>)
    ensures FilteredCustomers(customers, "") == customers
  {
    forall c | c in customers ensures Text.Includes(c.name, "") {
      Text.EmptyTermMatches(c.name);
    }
    FilterKeepsAll(customers, (c: Customer) => Text.Includes(c.name, ""));
  }

  /** The "Total Revenue" card: the sum of every customer's total. */
  function TotalRevenue(customers: seq<Customer>): Money
  {
    Sum(customers, SpentOf)
  }

  /** The "Average Revenue" card: 0 with no customers, the mean total per customer otherwise. */
  function AverageRevenue(customers: seq<Customer>): (r: real)
    ensures |customers| == 0 ==> r == 0.0
    ensures |customers| > 0 ==> r * |customers| as real == TotalRevenue(customers) as real
  {
    if |customers| > 0 then TotalRevenue(customers) as real / |customers| as real else 0.0
  }

  /** What the section shows: the filtered list and three cards. */
  datatype View = View(shown: seq<Customer>, totalCustomers: nat, totalRevenue: Money, averageRevenue: real)

  function SectionView(customers: seq<Customer>, term: string): View
  {
    View(FilteredCustomers(customers, term), |customers|, TotalRevenue(customers), AverageRevenue(customers))
  }

  /** The three cards are computed over all customers: the search term changes only the list shown. */
  lemma CardsIgnoreSearch(customers: seq<Customer>, term1: string, term2: string)
    ensures SectionView(customers, term1).totalCustomers == SectionView(customers, term2).totalCustomers
    ensures SectionView(customers, term1).totalRevenue == SectionView(customers, term2).totalRevenue
    ensures SectionView(customers, term1).averageRevenue == SectionView(customers, term2).averageRevenue
  {
  }

  /** Over the rolled-up customers, the cards count the distinct names and total all invoice amounts. */
  lemma {:induction false} CardsOverRollup(invs: seq<Invoice>, term: string)
    ensures SectionView(Rollup(invs), term).totalCustomers == |Names(invs)|
    ensures SectionView(Rollup(invs), term).totalRevenue == Sum(invs, InvoiceAmount)
  {
    RollupTotals(invs);
  }
}
