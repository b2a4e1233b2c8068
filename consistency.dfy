/** The order-line / stock consistency triggers of add_triggers
    (db/repository.py:162-251) and the repository's stock, order and product
    inserts, each as one statement from a state to a Step.

    A statement that a trigger aborts with RAISE(ABORT, ...) is rolled back as a
    whole, so an aborted Step carries the state it started from. */
module Consistency {
  import opened Schema
  import opened Audit

  /** The quantity held by the line at `key`, 0 when there is none. */
  function LineQty(lines: map<LineKey, Line>, key: LineKey): int {
    if key in lines then lines[key].quantity else 0
  }

  /** The stock row a line is tied to: the one keyed by the bakery of the line's
      order and the line's product. None when the order is unknown (the bakery
      subquery yields NULL) or when that stock row does not exist; the UPDATE of
      stock then matches no row. */
  function StockRow(db: Db, key: LineKey): (r: Option<StockKey>)
    ensures r.Some? ==> r.value in db.stock && r.value.product == key.product
    ensures r.Some? <==> key.order in db.orders && StockKey(db.orders[key.order], key.product) in db.stock
  {
    if key.order in db.orders && StockKey(db.orders[key.order], key.product) in db.stock
    then Some(StockKey(db.orders[key.order], key.product))
    else None
  }

  /** `stock` with the row `row` (if any) moved by `delta` and every other row as it was. */
  function Adjusted(stock: map<StockKey, int>, row: Option<StockKey>, delta: int): map<StockKey, int>
    requires row.Some? ==> row.value in stock
  {
    if row.Some? then stock[row.value := stock[row.value] + delta] else stock
  }

  /** The log rows an UPDATE of `row` in table stock produces. */
  function StockLog(row: Option<StockKey>): seq<LogEntry> {
    if row.Some? then [LogEntry(Update, Stock)] else []
  }

  // The DDL of stock_update and stock_insert places the WHERE clause of the
  // UPDATE of stock inside its CASE ... END, which SQLite's grammar does not
  // accept. The two functions below model what the text evidently means:
  //   UPDATE stock SET quantity = CASE WHEN <current stock> >= NEW.quantity
  //     THEN <new value> ELSE RAISE(ABORT, 'Not enough products in stock') END
  //   WHERE product_id = NEW.product_id AND bakery_id = <bakery of NEW.order_id>;
  // When the WHERE part matches no row, the CASE is never evaluated: nothing
  // changes and nothing aborts.

  /** Trigger stock_update, BEFORE UPDATE ON order_product: the stock row of the
      line moves by OLD.quantity - NEW.quantity, provided the current stock is at
      least NEW.quantity (the whole new quantity, not the difference). */
  function StockUpdateTrigger(db: Db, key: LineKey, oldQty: int, newQty: int): (r: Step)
    ensures r.outcome != ConstraintFailed
    ensures r.outcome == NotEnoughStock <==> StockRow(db, key).Some? && db.stock[StockRow(db, key).value] < newQty
    ensures r.outcome != Done ==> r.db == db
    ensures r.db.lines == db.lines && r.db.orders == db.orders && r.db.products == db.products
    ensures r.db.logTriggers == db.logTriggers
    ensures r.outcome == Done ==> r.db.stock == Adjusted(db.stock, StockRow(db, key), oldQty - newQty)
    ensures r.outcome == Done && StockRow(db, key).Some? ==> r.db.stock[StockRow(db, key).value] >= oldQty
    ensures r.outcome == Done && LogReady(db) ==> r.db.log == db.log + StockLog(StockRow(db, key))
    ensures db.logTriggers == {} ==> r.db.log == db.log
  {
    match StockRow(db, key)
    case None => Step(db, Done)
    case Some(k) =>
      if db.stock[k] >= newQty
      then Step(Fire(db.(stock := db.stock[k := db.stock[k] + oldQty - newQty]), Update, Stock), Done)
      else Step(db, NotEnoughStock)
  }

  /** Trigger stock_insert, BEFORE INSERT ON order_product WHEN no line for
      (order, product) exists: the stock row drops by NEW.quantity, provided the
      current stock is at least NEW.quantity. */
  function StockInsertTrigger(db: Db, key: LineKey, qty: int): (r: Step)
    ensures r.outcome != ConstraintFailed
    ensures r.outcome == NotEnoughStock <==> StockRow(db, key).Some? && db.stock[StockRow(db, key).value] < qty
    ensures r.outcome != Done ==> r.db == db
    ensures r.db.lines == db.lines && r.db.orders == db.orders && r.db.products == db.products
    ensures r.db.logTriggers == db.logTriggers
    ensures r.outcome == Done ==> r.db.stock == Adjusted(db.stock, StockRow(db, key), -qty)
    ensures r.outcome == Done && StockRow(db, key).Some? ==> r.db.stock[StockRow(db, key).value] >= 0
    ensures r.outcome == Done && LogReady(db) ==> r.db.log == db.log + StockLog(StockRow(db, key))
    ensures db.logTriggers == {} ==> r.db.log == db.log
  {
    match StockRow(db, key)
    case None => Step(db, Done)
    case Some(k) =>
      if db.stock[k] >= qty
      then Step(Fire(db.(stock := db.stock[k := db.stock[k] - qty]), Update, Stock), Done)
      else Step(db, NotEnoughStock)
  }

  /** Trigger stock_delete, AFTER DELETE ON order_product: the stock row grows by
      OLD.quantity, without any guard. */
  function StockDeleteTrigger(db: Db, key: LineKey, qty: int): (r: Db)
    ensures r.lines == db.lines && r.orders == db.orders && r.products == db.products
    ensures r.logTriggers == db.logTriggers
    ensures r.stock == Adjusted(db.stock, StockRow(db, key), qty)
    ensures LogReady(db) ==> r.log == db.log + StockLog(StockRow(db, key))
    ensures db.logTriggers == {} ==> r.log == db.log
  {
    match StockRow(db, key)
    case None => db
    case Some(k) => Fire(db.(stock := db.stock[k := db.stock[k] + qty]), Update, Stock)
  }

  /** UPDATE order_product SET quantity = `quantity`, price_change = `priceChange`
      WHERE (order_id, product_id) = `key`. The BEFORE trigger stock_update runs
      first; if it aborts, nothing changes. */
  function UpdateLine(db: Db, key: LineKey, quantity: int, priceChange: Option<int>): (r: Step)
    ensures key !in db.lines ==> r == Step(db, Done)
    ensures r.outcome != ConstraintFailed
    ensures key in db.lines ==>
      (r.outcome == NotEnoughStock <==> StockRow(db, key).Some? && db.stock[StockRow(db, key).value] < quantity)
    ensures r.outcome != Done ==> r.db == db
    ensures r.db.orders == db.orders && r.db.products == db.products && r.db.logTriggers == db.logTriggers
    ensures r.outcome == Done && key in db.lines ==>
      && r.db.lines == db.lines[key := Line(quantity, priceChange)]
      && r.db.stock == Adjusted(db.stock, StockRow(db, key), db.lines[key].quantity - quantity)
    ensures r.outcome == Done && key in db.lines && LogReady(db) ==>
      r.db.log == db.log + StockLog(StockRow(db, key)) + [LogEntry(Update, OrderProduct)]
    ensures db.logTriggers == {} ==> r.db.log == db.log
  {
    if key !in db.lines then Step(db, Done)
    else
      var s := StockUpdateTrigger(db, key, db.lines[key].quantity, quantity);
      if s.outcome != Done then s
      else Step(Fire(s.db.(lines := s.db.lines[key := Line(quantity, priceChange)]), Update, OrderProduct), Done)
  }

  /** INSERT INTO order_product, as add_order_product issues it.
      When a line for (order, product) exists, trigger order_product_insert turns
      the insert into an UPDATE adding `quantity` to that line (which runs
      stock_update) and drops the insert itself with RAISE(IGNORE); otherwise
      trigger stock_insert checks and decrements stock and the row is inserted. */
  function InsertLine(db: Db, key: LineKey, quantity: int, priceChange: Option<int>): (r: Step)
    ensures r.outcome != ConstraintFailed
    ensures r.outcome == NotEnoughStock <==>
      StockRow(db, key).Some? && db.stock[StockRow(db, key).value] < LineQty(db.lines, key) + quantity
    ensures r.outcome != Done ==> r.db == db
    ensures r.db.orders == db.orders && r.db.products == db.products && r.db.logTriggers == db.logTriggers
    ensures r.outcome == Done && key in db.lines ==>
      r.db.lines == db.lines[key := Line(db.lines[key].quantity + quantity, db.lines[key].priceChange)]
    ensures r.outcome == Done && key !in db.lines ==>
      r.db.lines == db.lines[key := Line(quantity, priceChange)]
    ensures r.outcome == Done ==> r.db.lines.Keys == db.lines.Keys + {key}
    ensures r.outcome == Done ==> r.db.stock == Adjusted(db.stock, StockRow(db, key), -quantity)
    ensures r.outcome == Done && LogReady(db) ==>
      r.db.log == db.log + StockLog(StockRow(db, key)) + [LogEntry(if key in db.lines then Update else Insert, OrderProduct)]
    ensures db.logTriggers == {} ==> r.db.log == db.log
  {
    if key in db.lines then
      UpdateLine(db, key, db.lines[key].quantity + quantity, db.lines[key].priceChange)
    else
      var s := StockInsertTrigger(db, key, quantity);
      if s.outcome != Done then s
      else Step(Fire(s.db.(lines := s.db.lines[key := Line(quantity, priceChange)]), Insert, OrderProduct), Done)
  }

  /** DELETE FROM order_product WHERE (order_id, product_id) = `key`; the AFTER
      triggers then log the delete and return the line's quantity to stock.
      (Both are AFTER DELETE triggers; SQLite runs the one created later, the
      log trigger, first.) */
  function DeleteLine(db: Db, key: LineKey): (r: Db)
    ensures key !in db.lines ==> r == db
    ensures r.lines == db.lines - {key}
    ensures r.orders == db.orders && r.products == db.products && r.logTriggers == db.logTriggers
    ensures r.stock == Adjusted(db.stock, StockRow(db, key), LineQty(db.lines, key))
    ensures key in db.lines && LogReady(db) ==>
      r.log == db.log + [LogEntry(Delete, OrderProduct)] + StockLog(StockRow(db, key))
    ensures db.logTriggers == {} ==> r.log == db.log
  {
    if key !in db.lines then db
    else StockDeleteTrigger(Fire(db.(lines := db.lines - {key}), Delete, OrderProduct), key, db.lines[key].quantity)
  }

  /** add_stock: INSERT INTO stock; a second row for the same (bakery, product)
      violates the primary key and the statement fails. */
  function AddStock(db: Db, k: StockKey, quantity: int): (r: Step)
    ensures r.outcome != NotEnoughStock
    ensures r.outcome == ConstraintFailed <==> k in db.stock
    ensures r.outcome != Done ==> r.db == db
    ensures r.db.lines == db.lines && r.db.orders == db.orders && r.db.products == db.products
    ensures r.db.logTriggers == db.logTriggers
    ensures r.outcome == Done ==> r.db.stock == db.stock[k := quantity] && r.db.stock.Keys == db.stock.Keys + {k}
    ensures r.outcome == Done && LogReady(db) ==> r.db.log == db.log + [LogEntry(Insert, Stock)]
  {
    if k in db.stock then Step(db, ConstraintFailed)
    else Step(Fire(db.(stock := db.stock[k := quantity]), Insert, Stock), Done)
  }

  /** set_stock: UPDATE stock SET quantity WHERE (bakery_id, product_id) = `k`;
      no row matches when none exists, and nothing changes. No trigger guards
      this statement. */
  function SetStock(db: Db, k: StockKey, quantity: int): (r: Db)
    ensures k !in db.stock ==> r == db
    ensures r.lines == db.lines && r.orders == db.orders && r.products == db.products
    ensures r.logTriggers == db.logTriggers && r.stock.Keys == db.stock.Keys
    ensures k in r.stock ==> r.stock[k] == quantity
    ensures forall j :: j in db.stock && j != k ==> r.stock[j] == db.stock[j]
    ensures k in db.stock && LogReady(db) ==> r.log == db.log + [LogEntry(Update, Stock)]
  {
    if k in db.stock then Fire(db.(stock := db.stock[k := quantity]), Update, Stock) else db
  }

  /** add_order: INSERT INTO orders with the given id (the id the engine
      assigns when none is given is passed in the same way). A taken id
      violates the primary key. */
  function AddOrder(db: Db, id: OrderId, bakery: BakeryId): (r: Step)
    ensures r.outcome != NotEnoughStock
    ensures r.outcome == ConstraintFailed <==> id in db.orders
    ensures r.outcome != Done ==> r.db == db
    ensures r.db.lines == db.lines && r.db.stock == db.stock && r.db.products == db.products
    ensures r.db.logTriggers == db.logTriggers
    ensures r.outcome == Done ==> r.db.orders == db.orders[id := bakery] && r.db.orders.Keys == db.orders.Keys + {id}
    ensures r.outcome == Done && LogReady(db) ==> r.db.log == db.log + [LogEntry(Insert, Orders)]
  {
    if id in db.orders then Step(db, ConstraintFailed)
    else Step(Fire(db.(orders := db.orders[id := bakery]), Insert, Orders), Done)
  }

  /** add_product: INSERT INTO products with the given id and price in cents. */
  function AddProduct(db: Db, id: ProductId, price: int): (r: Step)
    ensures r.outcome != NotEnoughStock
    ensures r.outcome == ConstraintFailed <==> id in db.products
    ensures r.outcome != Done ==> r.db == db
    ensures r.db.lines == db.lines && r.db.stock == db.stock && r.db.orders == db.orders
    ensures r.db.logTriggers == db.logTriggers
    ensures r.outcome == Done ==> r.db.products == db.products[id := price] && r.db.products.Keys == db.products.Keys + {id}
    ensures r.outcome == Done && LogReady(db) ==> r.db.log == db.log + [LogEntry(Insert, Products)]
  {
    if id in db.products then Step(db, ConstraintFailed)
    else Step(Fire(db.(products := db.products[id := price]), Insert, Products), Done)
  }
}
