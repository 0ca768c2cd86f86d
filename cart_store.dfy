/** The cart store of `CartProvider`: one mutable list of cart lines, replaced
    by each operation with a value computed from the previous list, and two
    totals derived from the current list on every read. */
module CartStore {
  import opened Types
  import opened CartLines

  class Cart {
    /** The `items` state cell. */
    var items: seq<CartLine>

    /** At most one line per (product id, size), and every quantity positive. */
    ghost predicate Valid()
      reads this
    {
      WellFormed(items)
    }

    /** The provider starts with an empty list. */
    constructor ()
      ensures Valid() && items == []
    {
      items := [];
    }

    /** `totalItems`, recomputed from the current lines. */
    function TotalItems(): int
      reads this
    {
      CartLines.TotalItems(items)
    }

    /** `totalPrice`, recomputed from the current lines. */
    function TotalPrice(): int
      reads this
    {
      CartLines.TotalPrice(items)
    }

    /** `addItem(product, size, quantity = 1)`. Every caller passes a quantity of
        at least 1. An existing (product id, size) line gains `quantity`; otherwise
        a new line is appended. */
    method AddItem(product: Product, size: string, quantity: int := 1)
      requires Valid() && quantity > 0
      modifies this
      ensures Valid()
      ensures items == Added(old(items), product, size, quantity)
      ensures match Find(old(items), product.id, size)
        case Some(i) => items == old(items)[i := old(items)[i].(quantity := old(items)[i].quantity + quantity)]
        case None => items == old(items) + [CartLine(product, quantity, size)]
      ensures TotalItems() == old(TotalItems()) + quantity
    {
      AddedSpec(items, product, size, quantity);
      AddedWellFormed(items, product, size, quantity);
      AddedTotals(items, product, size, quantity);
      items := Added(items, product, size, quantity);
    }

    /** `removeItem(productId, size)`: drops the matching line, if any. */
    method RemoveItem(productId: string, size: string)
      requires Valid()
      modifies this
      ensures Valid()
      ensures items == Removed(old(items), productId, size)
      ensures match Find(old(items), productId, size)
        case Some(i) => items == old(items)[..i] + old(items)[i + 1..]
        case None => items == old(items)
      ensures Find(items, productId, size).None?
    {
      RemovedSpec(items, productId, size);
      RemovedWellFormed(items, productId, size);
      items := Removed(items, productId, size);
    }

    /** `updateQuantity(productId, size, quantity)`: a quantity of zero or less
        removes the line exactly as `removeItem` does; a positive one replaces the
        matching line's quantity and never adds a line. */
    method UpdateQuantity(productId: string, size: string, quantity: int)
      requires Valid()
      modifies this
      ensures Valid()
      ensures quantity <= 0 ==> items == Removed(old(items), productId, size)
      ensures quantity > 0 ==> items == Requantified(old(items), productId, size, quantity)
      ensures quantity > 0 ==> match Find(old(items), productId, size)
        case Some(i) => items == old(items)[i := old(items)[i].(quantity := quantity)]
        case None => items == old(items)
    {
      if quantity <= 0 {
        RemoveItem(productId, size);
        return;
      }
      RequantifiedSpec(items, productId, size, quantity);
      RequantifiedWellFormed(items, productId, size, quantity);
      items := Requantified(items, productId, size, quantity);
    }

    /** `clearCart()`: the list becomes empty and both totals are zero. */
    method ClearCart()
      modifies this
      ensures Valid() && items == []
      ensures TotalItems() == 0 && TotalPrice() == 0
    {
      items := [];
    }
  }
}
