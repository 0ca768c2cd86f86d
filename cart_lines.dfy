/** The cart's data and the pure list transformations behind each cart
    operation: `find`, `map` and `filter` over the line list, and the two
    `reduce` folds that give the totals. */
module CartLines {
  import opened Wrappers
  import opened Types
  import opened Lists

  /** The key comparison every operation uses: same product id and same size. */
  predicate Matches(line: CartLine, productId: string, size: string) {
    line.product.id == productId && line.size == size
  }

  /** At most one line per (product id, size). */
  ghost predicate UniqueKeys(lines: seq<CartLine>) {
    forall i, j :: 0 <= i < j < |lines| ==> !Matches(lines[i], lines[j].product.id, lines[j].size)
  }

  /** Every quantity is positive. */
  ghost predicate AllPositive(lines: seq<CartLine>) {
    forall i :: 0 <= i < |lines| ==> lines[i].quantity > 0
  }

  /** The invariant the cart operations keep. */
  ghost predicate WellFormed(lines: seq<CartLine>) {
    UniqueKeys(lines) && AllPositive(lines)
  }

  /** `lines.find(...)`, as the index of the first matching line. */
  function Find(lines: seq<CartLine>, productId: string, size: string): (r: Option<nat>)
    ensures r.Some? ==> r.value < |lines| && Matches(lines[r.value], productId, size)
    ensures r.Some? ==> forall j :: 0 <= j < r.value ==> !Matches(lines[j], productId, size)
    ensures r.None? ==> forall j :: 0 <= j < |lines| ==> !Matches(lines[j], productId, size)
  {
    if lines == [] then None
    else if Matches(lines[0], productId, size) then Some(0)
    else match Find(lines[1..], productId, size)
      case None => None
      case Some(i) => Some(i + 1)
  }

  /** The `map` of `addItem`: every matching line gets `quantity` more. */
  function Bumped(lines: seq<CartLine>, productId: string, size: string, quantity: int): seq<CartLine> {
    seq(|lines|, i requires 0 <= i < |lines| =>
      if Matches(lines[i], productId, size)
      then lines[i].(quantity := lines[i].quantity + quantity)
      else lines[i])
  }

  /** `addItem(product, size, quantity)`: bump the existing line of that key, or
      append a fresh line at the end. */
  function Added(lines: seq<CartLine>, product: Product, size: string, quantity: int): (r: seq<CartLine>)
    ensures Find(r, product.id, size).Some?
    ensures |r| == if Find(lines, product.id, size).Some? then |lines| else |lines| + 1
  {
    if Find(lines, product.id, size).Some? then
      var bumped := Bumped(lines, product.id, size, quantity);
      FindSameKeys(bumped, lines, product.id, size);
      bumped
    else
      var appended := lines + [CartLine(product, quantity, size)];
      assert Matches(appended[|lines|], product.id, size);
      appended
  }

  /** The predicate of `removeItem`'s `filter`: the line does not have the key. */
  function Kept(productId: string, size: string): CartLine -> bool {
    line => !Matches(line, productId, size)
  }

  /** `removeItem(productId, size)`: the `filter` that drops matching lines. */
  function Removed(lines: seq<CartLine>, productId: string, size: string): (r: seq<CartLine>)
    ensures forall j :: 0 <= j < |r| ==> !Matches(r[j], productId, size)
    ensures |r| <= |lines|
  {
    Filter(lines, Kept(productId, size))
  }

  /** The `map` of `updateQuantity` for a positive quantity: every matching line
      gets exactly `quantity`. */
  function Requantified(lines: seq<CartLine>, productId: string, size: string, quantity: int): (r: seq<CartLine>)
    ensures SameKeys(r, lines)
    ensures forall j :: 0 <= j < |r| ==> r[j].product == lines[j].product
  {
    var r := seq(|lines|, i requires 0 <= i < |lines| =>
      if Matches(lines[i], productId, size) then lines[i].(quantity := quantity) else lines[i]);
    r
  }

  function LineQuantity(line: CartLine): int {
    line.quantity
  }

  function LineAmount(line: CartLine): int {
    line.product.price * line.quantity
  }

  /** `totalItems`: the sum of the line quantities. */
  function TotalItems(lines: seq<CartLine>): (n: int)
    ensures AllPositive(lines) ==> n >= |lines| && (n == 0 <==> lines == [])
  {
    SumByAtLeast(lines, LineQuantity, 1);
    SumBy(lines, LineQuantity)
  }

  /** `totalPrice`: the sum of price times quantity over the lines. */
  function TotalPrice(lines: seq<CartLine>): int {
    SumBy(lines, LineAmount)
  }

  /** With non-negative prices and quantities the total price is never negative. */
  lemma {:induction false} TotalPriceNonNegative(lines: seq<CartLine>)
    requires forall j :: 0 <= j < |lines| ==> lines[j].product.price >= 0 && lines[j].quantity >= 0
    ensures TotalPrice(lines) >= 0
  {
    forall j | 0 <= j < |lines| ensures LineAmount(lines[j]) >= 0 {
      assert lines[j].product.price >= 0 && lines[j].quantity >= 0;
    }
    SumByAtLeast(lines, LineAmount, 0);
  }

  // ---------------------------------------------------------------------------
  // Keys

  /** Two sequences that agree on every line's key. */
  ghost predicate SameKeys(a: seq<CartLine>, b: seq<CartLine>) {
    |a| == |b| && forall j :: 0 <= j < |a| ==> a[j].product.id == b[j].product.id && a[j].size == b[j].size
  }

  /** Under unique keys the matching line is the only one. */
  lemma {:induction false} OnlyMatch(lines: seq<CartLine>, i: nat, productId: string, size: string)
    requires UniqueKeys(lines) && i < |lines| && Matches(lines[i], productId, size)
    ensures forall j :: 0 <= j < |lines| && j != i ==> !Matches(lines[j], productId, size)
  {
    forall j | 0 <= j < |lines| && j != i ensures !Matches(lines[j], productId, size) {
      KeysDiffer(lines, i, j);
    }
  }

  lemma {:induction false} KeysDiffer(lines: seq<CartLine>, i: nat, j: nat)
    requires UniqueKeys(lines) && i < |lines| && j < |lines| && i != j
    ensures lines[i].product.id != lines[j].product.id || lines[i].size != lines[j].size
  {
    if i < j {
      assert !Matches(lines[i], lines[j].product.id, lines[j].size);
    } else {
      assert !Matches(lines[j], lines[i].product.id, lines[i].size);
    }
  }

  lemma {:induction false} FindSameKeys(a: seq<CartLine>, b: seq<CartLine>, productId: string, size: string)
    requires SameKeys(a, b)
    ensures Find(a, productId, size) == Find(b, productId, size)
  {
    if a != [] {
      FindSameKeys(a[1..], b[1..], productId, size);
    }
  }

  /** `price * (new - old)` split into the two line amounts. */
  lemma {:induction false} AmountDifference(price: int, before: int, after: int)
    ensures price * after == price * before + price * (after - before)
  {
  }

  // ---------------------------------------------------------------------------
  // addItem

  lemma {:induction false} AddedExisting(lines: seq<CartLine>, i: nat, product: Product, size: string, quantity: int)
    requires UniqueKeys(lines) && Find(lines, product.id, size) == Some(i)
    ensures Added(lines, product, size, quantity) == lines[i := lines[i].(quantity := lines[i].quantity + quantity)]
  {
    OnlyMatch(lines, i, product.id, size);
    var r := Added(lines, product, size, quantity);
    assert |r| == |lines|;
    assert forall j :: 0 <= j < |lines| ==> r[j] == lines[i := lines[i].(quantity := lines[i].quantity + quantity)][j];
  }

  /** With unique keys, adding an existing key changes only that line's quantity
      (by `quantity`), keeps its product snapshot, and keeps every other line and
      the line count; adding a new key appends exactly one line at the end. */
  lemma {:induction false} AddedSpec(lines: seq<CartLine>, product: Product, size: string, quantity: int)
    requires UniqueKeys(lines)
    ensures match Find(lines, product.id, size)
      case Some(i) => Added(lines, product, size, quantity) == lines[i := lines[i].(quantity := lines[i].quantity + quantity)]
      case None => Added(lines, product, size, quantity) == lines + [CartLine(product, quantity, size)]
  {
    match Find(lines, product.id, size)
    case Some(i) => AddedExisting(lines, i, product, size, quantity);
    case None =>
  }

  /** `addItem` with a positive quantity keeps the cart well formed. */
  lemma {:induction false} AddedWellFormed(lines: seq<CartLine>, product: Product, size: string, quantity: int)
    requires WellFormed(lines) && quantity > 0
    ensures WellFormed(Added(lines, product, size, quantity))
  {
    match Find(lines, product.id, size)
    case Some(i) =>
      AddedExisting(lines, i, product, size, quantity);
    case None =>
  }

  /** Replacing one line moves each total by the difference of that line's share. */
  lemma {:induction false} TotalsReplace(lines: seq<CartLine>, i: nat, line: CartLine)
    requires i < |lines|
    ensures TotalItems(lines[i := line]) == TotalItems(lines) - lines[i].quantity + line.quantity
    ensures TotalPrice(lines[i := line]) == TotalPrice(lines) - LineAmount(lines[i]) + LineAmount(line)
  {
    SumByReplace(lines, i, line, LineQuantity);
    SumByReplace(lines, i, line, LineAmount);
  }

  /** Setting one line's quantity to `quantity` moves the totals by the change. */
  lemma {:induction false} TotalsRequantify(lines: seq<CartLine>, i: nat, quantity: int)
    requires i < |lines|
    ensures TotalItems(lines[i := lines[i].(quantity := quantity)]) == TotalItems(lines) - lines[i].quantity + quantity
    ensures TotalPrice(lines[i := lines[i].(quantity := quantity)])
      == TotalPrice(lines) + lines[i].product.price * (quantity - lines[i].quantity)
  {
    TotalsReplace(lines, i, lines[i].(quantity := quantity));
    AmountDifference(lines[i].product.price, lines[i].quantity, quantity);
  }

  lemma {:induction false} AddedTotalsExisting(lines: seq<CartLine>, i: nat, product: Product, size: string, quantity: int)
    requires UniqueKeys(lines) && Find(lines, product.id, size) == Some(i)
    ensures TotalItems(Added(lines, product, size, quantity)) == TotalItems(lines) + quantity
    ensures TotalPrice(Added(lines, product, size, quantity)) == TotalPrice(lines) + lines[i].product.price * quantity
  {
    AddedExisting(lines, i, product, size, quantity);
    TotalsRequantify(lines, i, lines[i].quantity + quantity);
  }

  lemma {:induction false} AddedTotalsNew(lines: seq<CartLine>, product: Product, size: string, quantity: int)
    requires Find(lines, product.id, size).None?
    ensures TotalItems(Added(lines, product, size, quantity)) == TotalItems(lines) + quantity
    ensures TotalPrice(Added(lines, product, size, quantity)) == TotalPrice(lines) + product.price * quantity
  {
    var line := CartLine(product, quantity, size);
    assert Added(lines, product, size, quantity) == lines + [line];
    SumByAppend(lines, [line], LineQuantity);
    SumByAppend(lines, [line], LineAmount);
    assert [line][..0] == [];
  }

  /** The totals after `addItem` go up by `quantity` items and by `quantity` times
      the price of the line that received them (the stored snapshot's price when
      the key already existed). */
  lemma {:induction false} AddedTotals(lines: seq<CartLine>, product: Product, size: string, quantity: int)
    requires UniqueKeys(lines)
    ensures var price := match Find(lines, product.id, size)
        case Some(i) => lines[i].product.price
        case None => product.price;
      && TotalItems(Added(lines, product, size, quantity)) == TotalItems(lines) + quantity
      && TotalPrice(Added(lines, product, size, quantity)) == TotalPrice(lines) + price * quantity
  {
    match Find(lines, product.id, size)
    case Some(i) => AddedTotalsExisting(lines, i, product, size, quantity);
    case None => AddedTotalsNew(lines, product, size, quantity);
  }

  lemma {:induction false} AddedTwiceExisting(lines: seq<CartLine>, i: nat, product: Product, size: string, a: int, b: int)
    requires UniqueKeys(lines) && Find(lines, product.id, size) == Some(i)
    ensures Added(Added(lines, product, size, a), product, size, b) == Added(lines, product, size, a + b)
  {
    var once := lines[i := lines[i].(quantity := lines[i].quantity + a)];
    AddedExisting(lines, i, product, size, a);
    AddedExisting(lines, i, product, size, a + b);
    assert SameKeys(lines, once);
    FindSameKeys(lines, once, product.id, size);
    assert UniqueKeys(once) by {
      forall p, q | 0 <= p < q < |once| ensures !Matches(once[p], once[q].product.id, once[q].size) {
        KeysDiffer(lines, p, q);
      }
    }
    AddedExisting(once, i, product, size, b);
  }

  lemma {:induction false} AddedTwiceNew(lines: seq<CartLine>, product: Product, size: string, a: int, b: int)
    requires UniqueKeys(lines) && Find(lines, product.id, size).None?
    ensures Added(Added(lines, product, size, a), product, size, b) == Added(lines, product, size, a + b)
  {
    var once := lines + [CartLine(product, a, size)];
    assert Added(lines, product, size, a) == once;
    assert UniqueKeys(once);
    assert Find(once, product.id, size) == Some(|lines|) by {
      assert Matches(once[|lines|], product.id, size);
    }
    AddedExisting(once, |lines|, product, size, b);
  }

  /** Two adds of the same key are one add of the summed quantity: repeated adds
      never create a second line for the key. */
  lemma {:induction false} AddedTwice(lines: seq<CartLine>, product: Product, size: string, a: int, b: int)
    requires UniqueKeys(lines)
    ensures Added(Added(lines, product, size, a), product, size, b) == Added(lines, product, size, a + b)
  {
    match Find(lines, product.id, size)
    case Some(i) => AddedTwiceExisting(lines, i, product, size, a, b);
    case None => AddedTwiceNew(lines, product, size, a, b);
  }

  // ---------------------------------------------------------------------------
  // removeItem

  lemma {:induction false} RemovedAbsent(lines: seq<CartLine>, productId: string, size: string)
    requires forall j :: 0 <= j < |lines| ==> !Matches(lines[j], productId, size)
    ensures Removed(lines, productId, size) == lines
  {
    FilterKeepsAll(lines, Kept(productId, size));
  }

  lemma {:induction false} RemovedExisting(lines: seq<CartLine>, i: nat, productId: string, size: string)
    requires UniqueKeys(lines) && Find(lines, productId, size) == Some(i)
    ensures Removed(lines, productId, size) == lines[..i] + lines[i + 1..]
  {
    var front, back := lines[..i], lines[i + 1..];
    assert Removed(front, productId, size) == front by {
      RemovedAbsent(front, productId, size);
    }
    assert Removed(back, productId, size) == back by {
      OnlyMatch(lines, i, productId, size);
      assert forall j :: 0 <= j < |back| ==> back[j] == lines[i + 1 + j];
      RemovedAbsent(back, productId, size);
    }
    assert Removed([lines[i]], productId, size) == [] by {
      assert Removed([lines[i]], productId, size) == [] + Removed([], productId, size);
    }
    calc {
      Removed(lines, productId, size);
      { assert lines == front + ([lines[i]] + back); }
      Removed(front + ([lines[i]] + back), productId, size);
      { FilterAppend(front, [lines[i]] + back, Kept(productId, size)); }
      Removed(front, productId, size) + Removed([lines[i]] + back, productId, size);
      { FilterAppend([lines[i]], back, Kept(productId, size)); }
      front + ([] + back);
    }
  }

  /** With unique keys, `removeItem` deletes exactly the matching line and keeps
      the others in order; it changes nothing when no line matches. */
  lemma {:induction false} RemovedSpec(lines: seq<CartLine>, productId: string, size: string)
    requires UniqueKeys(lines)
    ensures match Find(lines, productId, size)
      case Some(i) => Removed(lines, productId, size) == lines[..i] + lines[i + 1..]
      case None => Removed(lines, productId, size) == lines
  {
    match Find(lines, productId, size)
    case None => RemovedAbsent(lines, productId, size);
    case Some(i) => RemovedExisting(lines, i, productId, size);
  }

  /** After `removeItem` no line has the key, and the cart stays well formed. */
  lemma {:induction false} RemovedWellFormed(lines: seq<CartLine>, productId: string, size: string)
    requires WellFormed(lines)
    ensures WellFormed(Removed(lines, productId, size))
    ensures Find(Removed(lines, productId, size), productId, size).None?
  {
    match Find(lines, productId, size)
    case None =>
      RemovedAbsent(lines, productId, size);
    case Some(i) =>
      RemovedExisting(lines, i, productId, size);
      OnlyMatch(lines, i, productId, size);
      var r := Removed(lines, productId, size);
      assert forall j :: 0 <= j < |r| ==> r[j] == lines[if j < i then j else j + 1];
  }

  /** `removeItem` lowers the totals by exactly the removed line's share. */
  lemma {:induction false} RemovedTotals(lines: seq<CartLine>, productId: string, size: string)
    requires UniqueKeys(lines)
    ensures match Find(lines, productId, size)
      case Some(i) =>
        && TotalItems(Removed(lines, productId, size)) == TotalItems(lines) - lines[i].quantity
        && TotalPrice(Removed(lines, productId, size)) == TotalPrice(lines) - lines[i].product.price * lines[i].quantity
      case None =>
        && TotalItems(Removed(lines, productId, size)) == TotalItems(lines)
        && TotalPrice(Removed(lines, productId, size)) == TotalPrice(lines)
  {
    match Find(lines, productId, size)
    case None =>
      RemovedAbsent(lines, productId, size);
    case Some(i) =>
      RemovedExisting(lines, i, productId, size);
      SumByDelete(lines, i, LineQuantity);
      SumByDelete(lines, i, LineAmount);
  }

  // ---------------------------------------------------------------------------
  // updateQuantity

  lemma {:induction false} RequantifiedExisting(lines: seq<CartLine>, i: nat, productId: string, size: string, quantity: int)
    requires UniqueKeys(lines) && Find(lines, productId, size) == Some(i)
    ensures Requantified(lines, productId, size, quantity) == lines[i := lines[i].(quantity := quantity)]
  {
    OnlyMatch(lines, i, productId, size);
    var r := Requantified(lines, productId, size, quantity);
    assert |r| == |lines|;
    assert forall j :: 0 <= j < |lines| ==> r[j] == lines[i := lines[i].(quantity := quantity)][j];
  }

  lemma {:induction false} RequantifiedAbsent(lines: seq<CartLine>, productId: string, size: string, quantity: int)
    requires Find(lines, productId, size).None?
    ensures Requantified(lines, productId, size, quantity) == lines
  {
    var r := Requantified(lines, productId, size, quantity);
    assert forall j :: 0 <= j < |lines| ==> r[j] == lines[j];
  }

  /** With unique keys, a positive `updateQuantity` replaces only the matching
      line's quantity and never appends; it changes nothing when the key is absent. */
  lemma {:induction false} RequantifiedSpec(lines: seq<CartLine>, productId: string, size: string, quantity: int)
    requires UniqueKeys(lines)
    ensures match Find(lines, productId, size)
      case Some(i) => Requantified(lines, productId, size, quantity) == lines[i := lines[i].(quantity := quantity)]
      case None => Requantified(lines, productId, size, quantity) == lines
  {
    match Find(lines, productId, size)
    case Some(i) => RequantifiedExisting(lines, i, productId, size, quantity);
    case None => RequantifiedAbsent(lines, productId, size, quantity);
  }

  lemma {:induction false} RequantifiedWellFormed(lines: seq<CartLine>, productId: string, size: string, quantity: int)
    requires WellFormed(lines) && quantity > 0
    ensures WellFormed(Requantified(lines, productId, size, quantity))
  {
    RequantifiedSpec(lines, productId, size, quantity);
  }

  lemma {:induction false} RequantifiedTotalsExisting(lines: seq<CartLine>, i: nat, productId: string, size: string, quantity: int)
    requires UniqueKeys(lines) && Find(lines, productId, size) == Some(i)
    ensures TotalItems(Requantified(lines, productId, size, quantity)) == TotalItems(lines) - lines[i].quantity + quantity
    ensures TotalPrice(Requantified(lines, productId, size, quantity))
      == TotalPrice(lines) + lines[i].product.price * (quantity - lines[i].quantity)
  {
    RequantifiedExisting(lines, i, productId, size, quantity);
    TotalsRequantify(lines, i, quantity);
  }

  /** A positive `updateQuantity` moves the totals by the change in that line. */
  lemma {:induction false} RequantifiedTotals(lines: seq<CartLine>, productId: string, size: string, quantity: int)
    requires UniqueKeys(lines)
    ensures match Find(lines, productId, size)
      case Some(i) =>
        && TotalItems(Requantified(lines, productId, size, quantity)) == TotalItems(lines) - lines[i].quantity + quantity
        && TotalPrice(Requantified(lines, productId, size, quantity))
           == TotalPrice(lines) + lines[i].product.price * (quantity - lines[i].quantity)
      case None =>
        && TotalItems(Requantified(lines, productId, size, quantity)) == TotalItems(lines)
        && TotalPrice(Requantified(lines, productId, size, quantity)) == TotalPrice(lines)
  {
    match Find(lines, productId, size)
    case None => RequantifiedAbsent(lines, productId, size, quantity);
    case Some(i) => RequantifiedTotalsExisting(lines, i, productId, size, quantity);
  }
}
