/** The methods of the repository object DBRepo (db/repository.py) modelled
    here, reduced to the tables the triggers work on. Each method other than
    AddLogTriggers (which issues one CREATE TRIGGER per tracked table and kind)
    and FireLog (the body of a log trigger) performs one SQL statement
    together with the triggers it sets off, changing the tables in place, and
    is proved to end in the state the corresponding function of Consistency or
    Audit describes. Apart from the bulk import in __insert_data, which is not
    part of this model, DBRepo's only write to order_product is
    add_order_product; UpdateOrderProduct is the UPDATE that trigger
    order_product_insert issues on a merge (or that another client sends), and
    DeleteOrderProduct is a DELETE sent from outside the repository. */
module Repository {
  import opened Schema
  import opened Audit
  import opened Consistency
  import opened Sums
  import opened Pricing

  class DbRepo {
    var stock: map<StockKey, int>
    var lines: map<LineKey, Line>
    var orders: map<OrderId, BakeryId>
    var products: map<ProductId, int>
    var logTriggers: set<LogTrigger>
    var log: seq<LogEntry>

    /** The tables as one value. */
    function State(): Db
      reads this
    {
      Db(stock, lines, orders, products, logTriggers, log)
    }

    /** A freshly created schema with the stock triggers of add_triggers in
        place and no log trigger yet, as _reset leaves it before importing. */
    constructor ()
      ensures State() == EmptyDb
    {
      stock, lines, orders, products := map[], map[], map[], map[];
      logTriggers, log := {}, [];
    }

    /** A row of `table` was written by a statement of kind `op`. */
    method FireLog(op: Op, table: Table)
      modifies this
      ensures State() == Fire(old(State()), op, table)
    {
      if LogTrigger(table, op) in logTriggers {
        log := log + [LogEntry(op, table)];
      }
    }

    /** _add_log_triggers: for each tracked table and each statement kind,
        CREATE TRIGGER IF NOT EXISTS <table>_<op>_log. */
    method AddLogTriggers()
      modifies this
      ensures State() == InstallLogTriggers(old(State()))
    {
      for i := 0 to |TrackedTables|
        invariant State() == old(State()).(logTriggers := logTriggers)
        invariant logTriggers == old(logTriggers) + set t, op | t in TrackedTables[..i] && op in Ops :: LogTrigger(t, op)
      {
        for j := 0 to |Ops|
          invariant State() == old(State()).(logTriggers := logTriggers)
          invariant logTriggers ==
            old(logTriggers)
            + (set t, op | t in TrackedTables[..i] && op in Ops :: LogTrigger(t, op))
            + (set op | op in Ops[..j] :: LogTrigger(TrackedTables[i], op))
        {
          logTriggers := logTriggers + {LogTrigger(TrackedTables[i], Ops[j])};
          assert Ops[..j + 1] == Ops[..j] + [Ops[j]];
        }
        assert Ops[..|Ops|] == Ops;
        assert TrackedTables[..i + 1] == TrackedTables[..i] + [TrackedTables[i]];
      }
      assert TrackedTables[..|TrackedTables|] == TrackedTables;
    }

    /** UPDATE order_product SET quantity, price_change for the line
        (order, product). The BEFORE trigger stock_update checks the current
        stock against the new quantity before anything is written. */
    method UpdateOrderProduct(order: OrderId, product: ProductId, quantity: int, priceChange: Option<int>)
      returns (outcome: Outcome)
      modifies this
      ensures var s := UpdateLine(old(State()), LineKey(order, product), quantity, priceChange);
        State() == s.db && outcome == s.outcome
    {
      var key := LineKey(order, product);
      if key !in lines {
        return Done;
      }
      var oldQty := lines[key].quantity;
      if order in orders && StockKey(orders[order], product) in stock {
        var row := StockKey(orders[order], product);
        if stock[row] < quantity {
          return NotEnoughStock;
        }
        stock := stock[row := stock[row] + oldQty - quantity];
        FireLog(Update, Stock);
      }
      lines := lines[key := Line(quantity, priceChange)];
      FireLog(Update, OrderProduct);
      return Done;
    }

    /** add_order_product: INSERT INTO order_product. An existing line for
        (order, product) is merged through an UPDATE (trigger
        order_product_insert, then RAISE(IGNORE)); a new line is stock-checked
        by trigger stock_insert and inserted. */
    method AddOrderProduct(order: OrderId, product: ProductId, quantity: int, priceChange: Option<int>)
      returns (outcome: Outcome)
      modifies this
      ensures var s := InsertLine(old(State()), LineKey(order, product), quantity, priceChange);
        State() == s.db && outcome == s.outcome
    {
      var key := LineKey(order, product);
      if key in lines {
        outcome := UpdateOrderProduct(order, product, lines[key].quantity + quantity, lines[key].priceChange);
        return;
      }
      if order in orders && StockKey(orders[order], product) in stock {
        var row := StockKey(orders[order], product);
        if stock[row] < quantity {
          return NotEnoughStock;
        }
        stock := stock[row := stock[row] - quantity];
        FireLog(Update, Stock);
      }
      lines := lines[key := Line(quantity, priceChange)];
      FireLog(Insert, OrderProduct);
      return Done;
    }

    /** DELETE FROM order_product for the line (order, product); the AFTER
        triggers log the delete and then return its quantity to stock. */
    method DeleteOrderProduct(order: OrderId, product: ProductId)
      modifies this
      ensures State() == DeleteLine(old(State()), LineKey(order, product))
    {
      var key := LineKey(order, product);
      if key !in lines {
        return;
      }
      var qty := lines[key].quantity;
      lines := lines - {key};
      FireLog(Delete, OrderProduct);
      if order in orders && StockKey(orders[order], product) in stock {
        var row := StockKey(orders[order], product);
        stock := stock[row := stock[row] + qty];
        FireLog(Update, Stock);
      }
    }

    /** add_stock (bakery 1 unless given). */
    method AddStock(product: ProductId, quantity: int, bakery: BakeryId)
      returns (outcome: Outcome)
      modifies this
      ensures var s := Consistency.AddStock(old(State()), StockKey(bakery, product), quantity);
        State() == s.db && outcome == s.outcome
    {
      var row := StockKey(bakery, product);
      if row in stock {
        return ConstraintFailed;
      }
      stock := stock[row := quantity];
      FireLog(Insert, Stock);
      return Done;
    }

    /** set_stock (bakery 1 unless given). */
    method SetStock(product: ProductId, quantity: int, bakery: BakeryId)
      modifies this
      ensures State() == Consistency.SetStock(old(State()), StockKey(bakery, product), quantity)
    {
      var row := StockKey(bakery, product);
      if row in stock {
        stock := stock[row := quantity];
        FireLog(Update, Stock);
      }
    }

    /** add_order for a given id; its date and time columns are not modelled. */
    method AddOrder(bakery: BakeryId, id: OrderId) returns (outcome: Outcome)
      modifies this
      ensures var s := Consistency.AddOrder(old(State()), id, bakery);
        State() == s.db && outcome == s.outcome
    {
      if id in orders {
        return ConstraintFailed;
      }
      orders := orders[id := bakery];
      FireLog(Insert, Orders);
      return Done;
    }

    /** add_product for a given id and price in cents; its name is not modelled. */
    method AddProduct(price: int, id: ProductId) returns (outcome: Outcome)
      modifies this
      ensures var s := Consistency.AddProduct(old(State()), id, price);
        State() == s.db && outcome == s.outcome
    {
      if id in products {
        return ConstraintFailed;
      }
      products := products[id := price];
      FireLog(Insert, Products);
      return Done;
    }

    /** get_order_price: walks the rows of the order's lines, in whatever order
        the query yields them, adding price * quantity for each. A row whose
        price is NULL makes the multiplication raise: None. */
    method GetOrderPrice(order: OrderId) returns (price: Option<int>)
      ensures price == OrderPrice(State(), order)
    {
      ghost var db := State();
      var rows := set key | key in lines && key.order == order;
      var total := 0;
      while rows != {}
        invariant rows <= OrderKeys(db, order)
        invariant forall key :: key in OrderKeys(db, order) - rows ==> UnitPrice(db, key).Some?
        invariant total + Sum(rows, CostOf(db)) == Sum(OrderKeys(db, order), CostOf(db))
        decreases rows
      {
        var key :| key in rows;
        var unit := UnitPrice(State(), key);
        if unit.None? {
          return None;
        }
        SumRemove(rows, CostOf(db), key);
        total := total + unit.value * lines[key].quantity;
        rows := rows - {key};
      }
      return Some(total);
    }
  }
}
