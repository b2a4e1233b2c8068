/** The price of an order as get_order_price computes it
    (db/repository.py:387-395): the sum over the order's lines of the line's
    quantity times its unit price. Prices are integers (cents). */
module Pricing {
  import opened Schema
  import opened Consistency
  import opened Sums

  /** The catalogue price of a product; None when the products subquery finds no row (NULL). */
  function CataloguePrice(db: Db, product: ProductId): Option<int> {
    if product in db.products then Some(db.products[product]) else None
  }

  /** The unit price of a line: its price_change when that is set and non-zero
      (a Python truth test, so a price_change of 0 falls back too), otherwise
      the catalogue price of its product. None means the price is NULL, and the
      multiplication by the quantity then raises. */
  function UnitPrice(db: Db, key: LineKey): (r: Option<int>)
    requires key in db.lines
    ensures r.None? ==> key.product !in db.products
    ensures (db.lines[key].priceChange.Some? && db.lines[key].priceChange.value != 0) ==> r == db.lines[key].priceChange
    ensures (db.lines[key].priceChange.None? || db.lines[key].priceChange.value == 0) ==> r == CataloguePrice(db, key.product)
  {
    match db.lines[key].priceChange
    case Some(c) => if c != 0 then Some(c) else CataloguePrice(db, key.product)
    case None => CataloguePrice(db, key.product)
  }

  /** A price_change of 0 is falsy in Python: the line is priced, and costs,
      exactly as the same line without a price_change. */
  lemma ZeroPriceChangeFallsBack(db: Db, key: LineKey, quantity: int)
    ensures var z, n := db.(lines := db.lines[key := Line(quantity, Some(0))]), db.(lines := db.lines[key := Line(quantity, None)]);
      UnitPrice(z, key) == UnitPrice(n, key) && LineCost(z, key) == LineCost(n, key)
  {
  }

  /** A non-zero price_change overrides the catalogue: the line's unit price
      does not depend on the products table at all. */
  lemma PriceChangeOverridesCatalogue(db: Db, key: LineKey, products: map<ProductId, int>)
    requires key in db.lines && db.lines[key].priceChange.Some? && db.lines[key].priceChange.value != 0
    ensures UnitPrice(db.(products := products), key) == UnitPrice(db, key) == db.lines[key].priceChange
  {
  }

  /** A line has no unit price, and get_order_price raises on it, exactly when
      its price_change is unset or 0 and its product has no catalogue row. */
  lemma UnpricedExactly(db: Db, key: LineKey)
    requires key in db.lines
    ensures UnitPrice(db, key).None? <==>
      (db.lines[key].priceChange.None? || db.lines[key].priceChange.value == 0) && key.product !in db.products
  {
  }

  /** What one priced line adds to the order total; 0 for a line that is not priced. */
  function LineCost(db: Db, key: LineKey): int {
    if key in db.lines && UnitPrice(db, key).Some? then UnitPrice(db, key).value * db.lines[key].quantity else 0
  }

  function CostOf(db: Db): LineKey -> int {
    key => LineCost(db, key)
  }

  /** The lines of `order`. */
  ghost function OrderKeys(db: Db, order: OrderId): set<LineKey> {
    set key | key in db.lines && key.order == order
  }

  /** Every line of `order` has a unit price. */
  ghost predicate Priced(db: Db, order: OrderId) {
    forall key :: key in OrderKeys(db, order) ==> UnitPrice(db, key).Some?
  }

  /** The total get_order_price returns, or None when a line has no price and
      the call raises. */
  ghost function OrderPrice(db: Db, order: OrderId): Option<int> {
    if Priced(db, order) then Some(Sum(OrderKeys(db, order), CostOf(db))) else None
  }

  /** An order without lines costs 0. */
  lemma EmptyOrderCostsNothing(db: Db, order: OrderId)
    requires forall key :: key in db.lines ==> key.order != order
    ensures OrderPrice(db, order) == Some(0)
  {
    assert OrderKeys(db, order) == {};
  }

  /** Writing line `key` leaves the unit price and cost of every other line as they were. */
  lemma OtherLineKeepsCost(db: Db, r: Db, key: LineKey, v: Line, k: LineKey)
    requires r.products == db.products && r.lines == db.lines[key := v]
    requires k != key
    ensures k in r.lines <==> k in db.lines
    ensures k in db.lines ==> UnitPrice(r, k) == UnitPrice(db, k)
    ensures CostOf(r)(k) == CostOf(db)(k)
  {
  }

  /** Writing line `key` of a priced order moves its price by the change in
      that line's cost, or leaves it unpriced when the new line has no price. */
  lemma PriceAfterWrite(db: Db, r: Db, key: LineKey, v: Line, total: int)
    requires OrderPrice(db, key.order) == Some(total)
    requires r.products == db.products && r.lines == db.lines[key := v]
    ensures OrderPrice(r, key.order) ==
      if UnitPrice(r, key).Some? then Some(total - LineCost(db, key) + LineCost(r, key)) else None
  {
    var ks, ks' := OrderKeys(db, key.order), OrderKeys(r, key.order);
    OrderKeysAfterWrite(db, r, key, v);
    if UnitPrice(r, key).Some? {
      forall k | k in ks' ensures UnitPrice(r, k).Some? {
        if k != key {
          OtherLineKeepsCost(db, r, key, v, k);
        }
      }
      forall k | k in ks && k != key ensures CostOf(db)(k) == CostOf(r)(k) {
        OtherLineKeepsCost(db, r, key, v, k);
      }
      SumReplace(ks, CostOf(db), CostOf(r), key);
      assert key in ks <==> key in db.lines;
    }
  }

  /** Writing line `key` adds `key` to the lines of its order and no other. */
  lemma OrderKeysAfterWrite(db: Db, r: Db, key: LineKey, v: Line)
    requires r.lines == db.lines[key := v]
    ensures OrderKeys(r, key.order) == OrderKeys(db, key.order) + {key}
  {
  }

  /** Removing line `key` removes it from the lines of its order and changes no other. */
  lemma OrderKeysAfterRemove(db: Db, r: Db, key: LineKey)
    requires r.lines == db.lines - {key}
    ensures OrderKeys(r, key.order) == OrderKeys(db, key.order) - {key}
  {
  }

  /** Lines, other than those of `order`, may change without changing the price of `order`. */
  lemma PriceDependsOnOwnLines(db: Db, r: Db, order: OrderId)
    requires r.products == db.products
    requires forall k: LineKey :: k.order == order ==> (k in r.lines <==> k in db.lines)
    requires forall k: LineKey :: k.order == order && k in db.lines ==> r.lines[k] == db.lines[k]
    ensures OrderPrice(r, order) == OrderPrice(db, order)
  {
    assert OrderKeys(r, order) == OrderKeys(db, order);
    forall k | k in OrderKeys(db, order) ensures UnitPrice(r, k) == UnitPrice(db, k) && CostOf(r)(k) == CostOf(db)(k) {
    }
    SumCongruence(OrderKeys(db, order), CostOf(db), CostOf(r));
  }

  /** A committed insert into order `key.order` raises its price by the inserted
      quantity times the unit price of the resulting line. A merged line keeps
      its own unit price: the price_change given with the insert is discarded. */
  lemma InsertLineRaisesOrderPrice(db: Db, key: LineKey, quantity: int, priceChange: Option<int>, total: int)
    requires OrderPrice(db, key.order) == Some(total)
    requires InsertLine(db, key, quantity, priceChange).outcome == Done
    ensures var r := InsertLine(db, key, quantity, priceChange).db;
      OrderPrice(r, key.order) ==
        if UnitPrice(r, key).Some? then Some(total + UnitPrice(r, key).value * quantity) else None
    ensures key in db.lines ==> UnitPrice(InsertLine(db, key, quantity, priceChange).db, key) == UnitPrice(db, key)
  {
    var r := InsertLine(db, key, quantity, priceChange).db;
    PriceAfterWrite(db, r, key, r.lines[key], total);
    if key in db.lines && UnitPrice(r, key).Some? {
      var u, before := UnitPrice(r, key).value, db.lines[key].quantity;
      assert UnitPrice(db, key) == UnitPrice(r, key);
      assert LineCost(r, key) == u * (before + quantity);
      assert LineCost(db, key) == u * before;
      assert u * (before + quantity) == u * before + u * quantity;
    }
  }

  /** Deleting a line of `key.order` lowers its price by what that line cost. */
  lemma DeleteLineLowersOrderPrice(db: Db, key: LineKey, total: int)
    requires OrderPrice(db, key.order) == Some(total)
    ensures OrderPrice(DeleteLine(db, key), key.order) == Some(total - LineCost(db, key))
  {
    var r := DeleteLine(db, key);
    var ks, ks' := OrderKeys(db, key.order), OrderKeys(r, key.order);
    var c, c' := CostOf(db), CostOf(r);
    OrderKeysAfterRemove(db, r, key);
    forall k | k in ks' ensures c(k) == c'(k) {
    }
    SumCongruence(ks', c, c');
    if key in ks {
      SumRemove(ks, c, key);
    } else {
      assert ks' == ks;
    }
  }

  /** A statement on one order's line leaves the price of every other order as it was. */
  lemma OtherOrdersKeepTheirPrice(db: Db, key: LineKey, quantity: int, priceChange: Option<int>, order: OrderId)
    requires order != key.order
    ensures OrderPrice(InsertLine(db, key, quantity, priceChange).db, order) == OrderPrice(db, order)
    ensures OrderPrice(UpdateLine(db, key, quantity, priceChange).db, order) == OrderPrice(db, order)
    ensures OrderPrice(DeleteLine(db, key), order) == OrderPrice(db, order)
  {
    PriceDependsOnOwnLines(db, InsertLine(db, key, quantity, priceChange).db, order);
    PriceDependsOnOwnLines(db, UpdateLine(db, key, quantity, priceChange).db, order);
    PriceDependsOnOwnLines(db, DeleteLine(db, key), order);
  }
}
