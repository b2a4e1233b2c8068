/** The part of the bakery database that the stock, audit and pricing logic
    works on: the keys of the tables, the rows, and the whole state as one value. */
module Schema {

  datatype Option<T> = None | Some(value: T)

  type OrderId = int
  type ProductId = int
  type BakeryId = int

  /** Primary key (bakery_id, product_id) of table stock. */
  datatype StockKey = StockKey(bakery: BakeryId, product: ProductId)

  /** Primary key (order_id, product_id) of table order_product. */
  datatype LineKey = LineKey(order: OrderId, product: ProductId)

  /** One order line: its quantity and its optional per-line price (in cents). */
  datatype Line = Line(quantity: int, priceChange: Option<int>)

  /** The eight tables of the schema; logs is the audit table itself. */
  datatype Table = Bakeries | Products | Stock | Orders | OrderProduct | Users | Roles | Logs

  datatype Op = Insert | Update | Delete

  /** A row of table logs, without its id and change_date columns. */
  datatype LogEntry = LogEntry(op: Op, table: Table)

  /** The trigger named <table>_<op>_log, which runs AFTER <op> ON <table>. */
  datatype LogTrigger = LogTrigger(table: Table, op: Op)

  /** The tables a log trigger is created for, in the order they are listed. */
  const TrackedTables: seq<Table> := [Bakeries, Products, Stock, Orders, OrderProduct, Users, Roles]

  /** The statement kinds a log trigger is created for. */
  const Ops: seq<Op> := [Insert, Update, Delete]

  /** The whole state the triggers read and write.
      stock:    (bakery, product) -> quantity
      lines:    (order, product) -> line
      orders:   order -> bakery of the order
      products: product -> catalogue price in cents
      logTriggers: the log triggers created so far
      log:      the rows of logs, oldest first */
  datatype Db = Db(
    stock: map<StockKey, int>,
    lines: map<LineKey, Line>,
    orders: map<OrderId, BakeryId>,
    products: map<ProductId, int>,
    logTriggers: set<LogTrigger>,
    log: seq<LogEntry>)

  /** A database with all tables empty and no log trigger yet. */
  const EmptyDb: Db := Db(map[], map[], map[], map[], {}, [])

  /** How one statement ends: it takes effect, it is aborted by RAISE(ABORT,
      'Not enough products in stock'), or it violates a PRIMARY KEY. */
  datatype Outcome = Done | NotEnoughStock | ConstraintFailed

  /** The state after one statement together with how it ended. */
  datatype Step = Step(db: Db, outcome: Outcome)
}
