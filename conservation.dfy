/** What the stock triggers keep invariant: for every stock row, its quantity
    plus the quantities of the order lines drawing on it does not change under
    inserts, updates and deletes of order lines, committed or aborted; and no
    line operation with a non-negative quantity drives stock below zero. */
module Conservation {
  import opened Schema
  import opened Consistency
  import opened Sums

  /** The line at `key` draws on stock row `sk`: same product, and its order
      belongs to the bakery of the row. */
  predicate Attached(db: Db, key: LineKey, sk: StockKey) {
    key.product == sk.product && key.order in db.orders && db.orders[key.order] == sk.bakery
  }

  /** The lines drawing on stock row `sk`. */
  ghost function LinesAt(db: Db, sk: StockKey): set<LineKey> {
    set key | key in db.lines && Attached(db, key, sk)
  }

  function QtyOf(lines: map<LineKey, Line>): LineKey -> int {
    key => LineQty(lines, key)
  }

  /** Total quantity of the lines drawing on stock row `sk`. */
  ghost function Committed(db: Db, sk: StockKey): int {
    Sum(LinesAt(db, sk), QtyOf(db.lines))
  }

  /** Stock on hand plus stock committed to order lines. */
  ghost function Balance(db: Db, sk: StockKey): int
    requires sk in db.stock
  {
    db.stock[sk] + Committed(db, sk)
  }

  /** Writing line `key` moves the committed total of exactly the row it draws on. */
  lemma CommittedAfterWrite(db: Db, db': Db, key: LineKey, v: Line, sk: StockKey)
    requires db'.orders == db.orders && db'.lines == db.lines[key := v]
    ensures Committed(db', sk) == Committed(db, sk) + (if Attached(db, key, sk) then v.quantity - LineQty(db.lines, key) else 0)
  {
    var s, s' := LinesAt(db, sk), LinesAt(db', sk);
    var q, q' := QtyOf(db.lines), QtyOf(db'.lines);
    SumCongruence(s - {key}, q, q');
    if Attached(db, key, sk) {
      assert s' - {key} == s - {key};
      SumRemove(s', q', key);
      if key in s {
        SumRemove(s, q, key);
      } else {
        assert s - {key} == s;
      }
    } else {
      assert s' == s && s - {key} == s;
    }
  }

  /** Removing line `key` lowers the committed total of the row it draws on by its quantity. */
  lemma CommittedAfterRemove(db: Db, db': Db, key: LineKey, sk: StockKey)
    requires db'.orders == db.orders && db'.lines == db.lines - {key}
    ensures Committed(db', sk) == Committed(db, sk) - (if Attached(db, key, sk) then LineQty(db.lines, key) else 0)
  {
    var s, s' := LinesAt(db, sk), LinesAt(db', sk);
    var q, q' := QtyOf(db.lines), QtyOf(db'.lines);
    assert s' == s - {key};
    SumCongruence(s', q, q');
    if key in s {
      SumRemove(s, q, key);
    } else {
      assert s' == s;
    }
  }

  /** The row a line draws on is exactly the row its stock triggers update. */
  lemma AttachedIsStockRow(db: Db, key: LineKey, sk: StockKey)
    requires sk in db.stock
    ensures Attached(db, key, sk) <==> StockRow(db, key) == Some(sk)
  {
  }

  lemma InsertLineKeepsBalance(db: Db, key: LineKey, quantity: int, priceChange: Option<int>, sk: StockKey)
    requires sk in db.stock
    ensures var r := InsertLine(db, key, quantity, priceChange).db;
      sk in r.stock && Balance(r, sk) == Balance(db, sk)
  {
    var r := InsertLine(db, key, quantity, priceChange);
    if r.outcome == Done {
      AttachedIsStockRow(db, key, sk);
      CommittedAfterWrite(db, r.db, key, r.db.lines[key], sk);
    }
  }

  lemma UpdateLineKeepsBalance(db: Db, key: LineKey, quantity: int, priceChange: Option<int>, sk: StockKey)
    requires sk in db.stock
    ensures var r := UpdateLine(db, key, quantity, priceChange).db;
      sk in r.stock && Balance(r, sk) == Balance(db, sk)
  {
    var r := UpdateLine(db, key, quantity, priceChange);
    if r.outcome == Done && key in db.lines {
      AttachedIsStockRow(db, key, sk);
      CommittedAfterWrite(db, r.db, key, Line(quantity, priceChange), sk);
    }
  }

  lemma DeleteLineKeepsBalance(db: Db, key: LineKey, sk: StockKey)
    requires sk in db.stock
    ensures var r := DeleteLine(db, key);
      sk in r.stock && Balance(r, sk) == Balance(db, sk)
  {
    AttachedIsStockRow(db, key, sk);
    CommittedAfterRemove(db, DeleteLine(db, key), key, sk);
  }

  /** add_stock and set_stock write one stock row directly: the quantities
      committed to every row stay as they were, so the written row's balance is
      reset to the new quantity plus its committed quantity. */
  lemma StockWritesKeepCommitted(db: Db, k: StockKey, quantity: int, sk: StockKey)
    ensures Committed(SetStock(db, k, quantity), sk) == Committed(db, sk)
    ensures Committed(AddStock(db, k, quantity).db, sk) == Committed(db, sk)
    ensures k in db.stock ==> Balance(SetStock(db, k, quantity), k) == quantity + Committed(db, k)
    ensures k !in db.stock ==> Balance(AddStock(db, k, quantity).db, k) == quantity + Committed(db, k)
  {
    assert LinesAt(SetStock(db, k, quantity), sk) == LinesAt(db, sk);
    assert LinesAt(AddStock(db, k, quantity).db, sk) == LinesAt(db, sk);
    assert LinesAt(SetStock(db, k, quantity), k) == LinesAt(db, k);
    assert LinesAt(AddStock(db, k, quantity).db, k) == LinesAt(db, k);
  }

  /** Writing a non-negative quantity into stock keeps the database non-negative. */
  lemma StockWritesKeepNonNegative(db: Db, k: StockKey, quantity: int)
    requires NonNegative(db) && quantity >= 0
    ensures NonNegative(SetStock(db, k, quantity))
    ensures NonNegative(AddStock(db, k, quantity).db)
  {
  }

  /** Foreign keys are off, so a line may name an order that does not exist
      yet; no stock row is charged for it. add_order for that id then attaches
      the waiting line to its stock row without touching stock, so that row's
      balance grows by the line's quantity. Every other row keeps its balance. */
  lemma AddOrderAttachesWaitingLine(db: Db, id: OrderId, bakery: BakeryId, sk: StockKey)
    requires sk in db.stock
    ensures var r := AddOrder(db, id, bakery);
      sk in r.db.stock &&
      Balance(r.db, sk) == Balance(db, sk) + (if r.outcome == Done && sk.bakery == bakery then LineQty(db.lines, LineKey(id, sk.product)) else 0)
  {
    var r := AddOrder(db, id, bakery);
    if r.outcome == Done {
      var key := LineKey(id, sk.product);
      var s, s' := LinesAt(db, sk), LinesAt(r.db, sk);
      assert key !in s;
      if sk.bakery == bakery && key in db.lines {
        assert s' == s + {key};
        SumInsert(s, QtyOf(db.lines), key);
      } else {
        assert s' == s;
      }
    }
  }

  /** A statement on order_product, as a client issues it. */
  datatype LineOp =
    | InsertOp(key: LineKey, quantity: int, priceChange: Option<int>)
    | UpdateOp(key: LineKey, quantity: int, priceChange: Option<int>)
    | DeleteOp(key: LineKey)

  /** The state after one statement; an aborted statement leaves it as it was. */
  function Apply(db: Db, op: LineOp): Db {
    match op
    case InsertOp(key, q, pc) => InsertLine(db, key, q, pc).db
    case UpdateOp(key, q, pc) => UpdateLine(db, key, q, pc).db
    case DeleteOp(key) => DeleteLine(db, key)
  }

  /** The state after a sequence of statements, each committed or aborted on its own. */
  function Run(db: Db, ops: seq<LineOp>): Db
    decreases |ops|
  {
    if ops == [] then db else Run(Apply(db, ops[0]), ops[1..])
  }

  /** After any sequence of order-line statements, every stock row's quantity
      equals its starting quantity minus the change in the quantities of the
      lines drawing on it. */
  lemma {:induction false} RunKeepsBalance(db: Db, ops: seq<LineOp>, sk: StockKey)
    requires sk in db.stock
    ensures sk in Run(db, ops).stock
    ensures Run(db, ops).stock[sk] == db.stock[sk] + Committed(db, sk) - Committed(Run(db, ops), sk)
    decreases |ops|
  {
    if ops != [] {
      match ops[0] {
        case InsertOp(key, q, pc) => InsertLineKeepsBalance(db, key, q, pc, sk);
        case UpdateOp(key, q, pc) => UpdateLineKeepsBalance(db, key, q, pc, sk);
        case DeleteOp(key) => DeleteLineKeepsBalance(db, key, sk);
      }
      RunKeepsBalance(Apply(db, ops[0]), ops[1..], sk);
    }
  }

  /** No stock row and no line quantity is negative. */
  predicate NonNegative(db: Db) {
    && (forall sk :: sk in db.stock ==> db.stock[sk] >= 0)
    && (forall key :: key in db.lines ==> db.lines[key].quantity >= 0)
  }

  /** A statement whose own quantity is non-negative keeps stock and lines non-negative. */
  predicate NonNegativeOp(op: LineOp) {
    match op
    case InsertOp(_, q, _) => q >= 0
    case UpdateOp(_, q, _) => q >= 0
    case DeleteOp(_) => true
  }

  lemma ApplyKeepsNonNegative(db: Db, op: LineOp)
    requires NonNegative(db) && NonNegativeOp(op)
    ensures NonNegative(Apply(db, op))
  {
    match op
    case InsertOp(key, q, pc) =>
      var r := InsertLine(db, key, q, pc);
      if r.outcome == Done && key in db.lines {
        assert r.db.lines[key].quantity == db.lines[key].quantity + q;
      }
    case UpdateOp(key, q, pc) =>
    case DeleteOp(key) =>
  }

  lemma {:induction false} RunKeepsNonNegative(db: Db, ops: seq<LineOp>)
    requires NonNegative(db)
    requires forall i :: 0 <= i < |ops| ==> NonNegativeOp(ops[i])
    ensures NonNegative(Run(db, ops))
    decreases |ops|
  {
    if ops != [] {
      ApplyKeepsNonNegative(db, ops[0]);
      RunKeepsNonNegative(Apply(db, ops[0]), ops[1..]);
    }
  }
}
