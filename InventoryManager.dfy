/**
 * The inventory manager (exercise_2/inventory_manager.py): a dictionary
 * from item name to its price, stock count and category, in the order the
 * items were added; adding items, adjusting stock, searching by category,
 * listing the items low on stock and valuing the whole inventory.
 *
 * Prices are exact reals, stock counts unbounded integers. Names and the
 * category of a new item arrive already stripped, as the prompts strip them.
 */
module InventoryManager {
  import opened Wrappers
  import opened Dicts
  import Text

  datatype Item = Item(price: real, stock: int, category: string)

  datatype AddStatus = ItemExists | InvalidInput | ItemAdded

  datatype UpdateStatus = ItemNotFound | InvalidQuantity | StockUpdated

  /** Items at or below this many units are reported as low on stock. */
  const LowStockLevel := 5

  class Inventory {
    var items: Dict<Item>

    ghost predicate Valid()
      reads this
    {
      Dicts.Valid(items)
    }

    /** `inventory = {}` */
    constructor ()
      ensures Valid() && items == Empty()
    {
      items := Empty();
    }

    /**
     * `add_item`: a name already present is refused and its record stays;
     * the item is stored, last, only once both its price and its stock have
     * parsed, so a parse failure leaves the inventory as it was.
     */
    method AddItem(name: string, price: Option<real>, stock: Option<int>, category: string) returns (status: AddStatus)
      requires Valid()
      modifies this
      ensures Valid()
      ensures status == (
        if name in old(items.vals) then ItemExists
        else if price.None? || stock.None? then InvalidInput
        else ItemAdded)
      ensures status != ItemAdded ==> items == old(items)
      ensures status == ItemAdded ==> items == Put(old(items), name, Item(price.value, stock.value, category))
    {
      if name in items.vals {
        return ItemExists;
      }
      if price.None? || stock.None? {
        return InvalidInput;
      }
      items := Put(items, name, Item(price.value, stock.value, category));
      status := ItemAdded;
    }

    /**
     * `update_stock`: an unknown name or an unparsable quantity changes
     * nothing; otherwise the quantity is added to the item's stock, with no
     * lower bound, and nothing else changes.
     */
    method UpdateStock(name: string, qty: Option<int>) returns (status: UpdateStatus)
      requires Valid()
      modifies this
      ensures Valid()
      ensures status == (if name !in old(items.vals) then ItemNotFound else if qty.None? then InvalidQuantity else StockUpdated)
      ensures status != StockUpdated ==> items == old(items)
      ensures status == StockUpdated ==>
        items == Put(old(items), name, Restocked(old(items.vals)[name], qty.value))
    {
      if name !in items.vals {
        return ItemNotFound;
      }
      if qty.None? {
        return InvalidQuantity;
      }
      var item := items.vals[name];
      items := Put(items, name, item.(stock := item.stock + qty.value));
      status := StockUpdated;
    }
  }

  /** An item after `qty` units are added (or, when negative, removed). */
  function Restocked(item: Item, qty: int): (r: Item)
    ensures r.price == item.price && r.category == item.category
    ensures r.stock - item.stock == qty
  {
    item.(stock := item.stock + qty)
  }

  /** Adding stock and then taking the same amount away restores the item. */
  lemma RestockedUndo(item: Item, qty: int)
    ensures Restocked(Restocked(item, qty), -qty) == item
  {
  }

  predicate IsLow(item: Item) {
    item.stock <= LowStockLevel
  }

  /** `check_low_stock`: the names of the items with at most 5 units, in order. */
  function LowStock(items: Dict<Item>): (r: seq<string>)
    requires Dicts.Valid(items)
    ensures forall k :: k in r <==> k in items.vals && items.vals[k].stock <= 5
    ensures Subsequence(r, items.keys)
  {
    Where(items, IsLow)
  }

  /**
   * `search_by_category`: the names of the items whose category is exactly
   * the stripped query (case matters), in order.
   */
  function SearchByCategory(items: Dict<Item>, query: string): (r: seq<string>)
    requires Dicts.Valid(items)
    ensures forall k :: k in r <==> k in items.vals && items.vals[k].category == Text.Strip(query)
    ensures Subsequence(r, items.keys)
  {
    var category := Text.Strip(query);
    Where(items, (item: Item) => item.category == category)
  }

  /** Surrounding white space in the query makes no difference. */
  lemma SearchIgnoresPadding(items: Dict<Item>, query: string)
    requires Dicts.Valid(items)
    ensures SearchByCategory(items, query) == SearchByCategory(items, Text.Strip(query))
  {
    Text.StripIdempotent(query);
  }

  /** What an item is worth: its price times its stock. */
  function Value(item: Item): real {
    item.price * (item.stock as real)
  }

  /**
   * `total_inventory_value`: the sum of price times stock over all items,
   * never negative while no price or stock count is.
   */
  function TotalValue(items: Dict<Item>): (total: real)
    ensures (forall k :: k in items.vals ==> items.vals[k].price >= 0.0 && items.vals[k].stock >= 0) ==> total >= 0.0
  {
    NoNegativeValues(items);
    Sum(items, Value)
  }

  /** Items with non-negative prices and counts add up to a non-negative value. */
  lemma NoNegativeValues(items: Dict<Item>)
    ensures (forall k :: k in items.vals ==> items.vals[k].price >= 0.0 && items.vals[k].stock >= 0) ==> Sum(items, Value) >= 0.0
  {
    if forall k :: k in items.vals ==> items.vals[k].price >= 0.0 && items.vals[k].stock >= 0 {
      assert forall k :: k in items.vals ==> Value(items.vals[k]) >= 0.0;
      SumOverNonNegative(items.keys, items.vals, Value);
    }
  }

  /** An empty inventory is worth nothing. */
  lemma EmptyWorthNothing()
    ensures TotalValue(Empty<Item>()) == 0.0
  {
  }

  /** Adding a new item adds its price times its stock to the total. */
  lemma TotalAfterAdd(items: Dict<Item>, name: string, item: Item)
    requires Dicts.Valid(items) && name !in items.vals
    ensures TotalValue(Put(items, name, item)) == TotalValue(items) + item.price * (item.stock as real)
  {
    PutSum(items, name, item, Value);
  }

  /** Adding `qty` units to an item changes the total by its price times `qty`. */
  lemma TotalAfterRestock(items: Dict<Item>, name: string, qty: int)
    requires Dicts.Valid(items) && name in items.vals
    ensures TotalValue(Put(items, name, Restocked(items.vals[name], qty)))
         == TotalValue(items) + items.vals[name].price * (qty as real)
  {
    var item := items.vals[name];
    PutSum(items, name, Restocked(item, qty), Value);
    assert Value(Restocked(item, qty)) - Value(item) == item.price * (qty as real);
  }

  /** After a restock the item is low on stock exactly when its new count is at most 5. */
  lemma LowStockAfterRestock(items: Dict<Item>, name: string, qty: int)
    requires Dicts.Valid(items) && name in items.vals
    ensures name in LowStock(Put(items, name, Restocked(items.vals[name], qty)))
        <==> items.vals[name].stock + qty <= 5
    ensures forall k :: k != name ==>
      (k in LowStock(Put(items, name, Restocked(items.vals[name], qty))) <==> k in LowStock(items))
  {
  }
}
