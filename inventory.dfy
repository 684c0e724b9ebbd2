/**
 * The Inventory section: products joined with their stock record, a search,
 * the low-stock count and the stock valuation. The joined stock record may be
 * missing; the section then treats the quantity as 0 and the item as not low.
 */
module InventoryView {
  import opened Wrappers
  import opened Records
  import opened Sequences
  import Text

  /** A product row with its `inventory (*)` join, which may be absent. */
  datatype InventoryItem = InventoryItem(product: Product, inventory: Option<Inventory>)

  /** `item.inventory?.quantity || 0`. */
  function StockOf(item: InventoryItem): (r: int)
    ensures item.inventory.None? ==> r == 0
    ensures item.inventory.Some? ==> r == item.inventory.value.quantity
  {
    match item.inventory
    case None => 0
    case Some(inv) => inv.quantity
  }

  /**
   * `item.inventory?.quantity <= item.inventory?.reorder_threshold`: with no
   * stock record both sides are undefined and the comparison is false.
   */
  predicate IsLowStock(item: InventoryItem)
  {
    match item.inventory
    case None => false
    case Some(inv) => inv.quantity <= inv.reorderThreshold
  }

  /** `lowStockItems`. */
  function LowStockItems(items: seq<InventoryItem>): (r: seq<InventoryItem>)
    ensures forall item :: item in r <==> item in items && IsLowStock(item)
    ensures forall item :: multiset(r)[item] == if IsLowStock(item) then multiset(items)[item] else 0
    ensures |r| <= |items|
  {
    FilterMultiset(items, IsLowStock);
    Filter(items, IsLowStock)
  }

  /** The per-row "Value": price times the stock, a missing stock counting as 0. */
  function RowValue(item: InventoryItem): (r: Money)
    ensures item.inventory.None? ==> r == 0
  {
    item.product.price * StockOf(item)
  }

  /** The "Total Value" card: the sum of the row values. */
  function TotalValue(items: seq<InventoryItem>): Money
  {
    Sum(items, RowValue)
  }

  /** The search box: the term, ignoring case, in the product's name or in its description. */
  predicate MatchesSearch(term: string, item: InventoryItem)
  {
    Text.Includes(item.product.name, term) || Text.Includes(item.product.description, term)
  }

  /** `filteredInventory`. */
  function FilteredInventory(items: seq<InventoryItem>, term: string): (r: seq<InventoryItem>)
    ensures forall item :: item in r <==> item in items && MatchesSearch(term, item)
    ensures forall item :: multiset(r)[item] == if MatchesSearch(term, item) then multiset(items)[item] else 0
    ensures IsSubsequence(r, items)
  {
    var matches := (item: InventoryItem) => MatchesSearch(term, item);
    FilterMultiset(items, matches);
    Filter(items, matches)
  }

  /** Low stock is `quantity <= threshold`, inclusive: an item exactly at its threshold counts as low. */
  lemma LowStockIffAtOrBelow(item: InventoryItem, inv: Inventory)
    requires item.inventory == Some(inv)
    ensures IsLowStock(item) <==> inv.quantity <= inv.reorderThreshold
    ensures inv.quantity == inv.reorderThreshold ==> IsLowStock(item)
  {
  }

  /** An item with no stock record is never low stock and adds nothing to the total value. */
  lemma {:induction false} MissingStockIgnored(items: seq<InventoryItem>, item: InventoryItem)
    requires item.inventory.None?
    ensures LowStockItems(items + [item]) == LowStockItems(items)
    ensures TotalValue(items + [item]) == TotalValue(items)
  {
    FilterAppend(items, [item], IsLowStock);
    SumAppend(items, [item], RowValue);
  }

  /** The total value is the sum of the row values shown, so it splits over any division of the list. */
  lemma {:induction false} TotalValueAppend(a: seq<InventoryItem>, b: seq<InventoryItem>)
    ensures TotalValue(a + b) == TotalValue(a) + TotalValue(b)
    ensures |LowStockItems(a + b)| == |LowStockItems(a)| + |LowStockItems(b)|
  {
    SumAppend(a, b, RowValue);
    FilterAppend(a, b, IsLowStock);
  }

  /** With non-negative prices and quantities, no row and no total is negative. */
  lemma {:induction false} TotalValueNonNegative(items: seq<InventoryItem>)
    requires forall item :: item in items ==> item.product.price >= 0 && StockOf(item) >= 0
    ensures TotalValue(items) >= 0
  {
    if items != [] {
      var before := items[..|items| - 1];
      var last := items[|items| - 1];
      assert last in items;
      assert forall item :: item in before ==> item in items;
      TotalValueNonNegative(before);
    }
  }

  /** An empty search term keeps every item. */
  lemma EmptySearchKeepsAll(items: seq<InventoryItem>)
    ensures FilteredInventory(items, "") == items
  {
    forall item | item in items ensures MatchesSearch("", item) {
      Text.EmptyTermMatches(item.product.name);
    }
    FilterKeepsAll(items, (item: InventoryItem) => MatchesSearch("", item));
  }
}
