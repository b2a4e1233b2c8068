/** Consequences of the stock guard as the triggers write it: the current
    stock is compared with the whole new quantity of the line, not with the
    change in quantity. */
module Scenarios {
  import opened Schema
  import opened Consistency

  /** Bakery 1 holds 10 of product 7 (price 120 cents); order 5 belongs to bakery 1. */
  const Start: Db := Db(map[StockKey(1, 7) := 10], map[], map[5 := 1], map[7 := 120], {}, [])

  /** Inserting 4 of product 7 into order 5 leaves 6 in stock; inserting 3 more
      is refused although 6 would cover them, because the merged line would
      hold 7. Stock and the line stay as they were. */
  lemma MergeNeedsStockForWholeLine()
    ensures var a := InsertLine(Start, LineKey(5, 7), 4, None);
      && a.outcome == Done
      && a.db.stock == map[StockKey(1, 7) := 6]
      && a.db.lines == map[LineKey(5, 7) := Line(4, None)]
    ensures var a := InsertLine(Start, LineKey(5, 7), 4, None).db;
      var b := InsertLine(a, LineKey(5, 7), 3, None);
      && b.outcome == NotEnoughStock
      && b.db.stock == map[StockKey(1, 7) := 6]
      && b.db.lines == map[LineKey(5, 7) := Line(4, None)]
  {
  }

  /** An update that keeps a line's quantity and changes only its price_change
      still passes through stock_update: it is refused exactly when the stock
      row holds less than the line's quantity, and otherwise leaves stock as it was. */
  lemma PriceOnlyUpdateIsStockChecked(db: Db, key: LineKey, priceChange: Option<int>)
    requires key in db.lines
    ensures var r := UpdateLine(db, key, db.lines[key].quantity, priceChange);
      && (r.outcome == NotEnoughStock <==>
           StockRow(db, key).Some? && db.stock[StockRow(db, key).value] < db.lines[key].quantity)
      && (r.outcome == Done ==> r.db.stock == db.stock)
  {
  }

  /** Bakery 1's stock of product 7 was set to 2 after order 5 took 4: changing
      the price of that line is refused. */
  lemma PriceOnlyUpdateRefused()
    ensures var a := InsertLine(Start, LineKey(5, 7), 4, None).db;
      var b := SetStock(a, StockKey(1, 7), 2);
      UpdateLine(b, LineKey(5, 7), 4, Some(100)).outcome == NotEnoughStock
  {
  }

  /** Foreign keys are off. A line for order 5 inserted before add_order
      creates that order draws on no stock row; once add_order attaches the
      line to bakery 1, deleting it returns 4 that were never taken, and stock
      ends at 14. */
  lemma DeleteOfUnchargedLineReturnsStock()
    ensures var a := InsertLine(Start.(orders := map[]), LineKey(5, 7), 4, None);
      var b := AddOrder(a.db, 5, 1);
      && a.outcome == Done && a.db.stock == Start.stock
      && b.outcome == Done
      && DeleteLine(b.db, LineKey(5, 7)).stock == map[StockKey(1, 7) := 14]
  {
  }
}
