# Bakery stock consistency, modelled in Dafny

The point-of-sale application keeps its data in SQLite. The database's
triggers keep the `stock` table in step with the order lines in
`order_product`:

- inserting a line for an (order, product) pair that already has one merges
  it into that line;
- a new line takes its quantity from the stock of the order's bakery, or
  aborts when there is not enough stock;
- an update of a line moves stock by the old quantity minus the new one,
  under the same guard;
- deleting a line returns its quantity to stock.

A second set of triggers appends one `(operation, table)` row to the `logs`
table for every insert, update or delete on the seven business tables.
`get_order_price` adds up an order's lines.

The model has three layers.

- `Schema` (schema.dfy) holds the keys, the rows and the whole database as
  one value, `Db`: stock `(bakery, product) -> quantity`, lines
  `(order, product) -> (quantity, price_change)`, orders `order -> bakery`,
  products `product -> price`, the set of log triggers created so far, and
  the log.
- `Audit` (audit.dfy) and `Consistency` (consistency.dfy) give each SQL
  statement, together with the triggers it sets off, as a function from a
  `Db` to a `Db`, or to a `Step` when the statement can fail: the new state
  and how the statement ended (`Done`,
  `NotEnoughStock` for the trigger's `RAISE(ABORT, ...)`, `ConstraintFailed`
  for a primary-key clash). An aborted step returns the state it started
  from, because SQLite rolls the whole statement back, log rows included.
  The properties of each statement are these functions' postconditions.
- `Repository.DbRepo` (repository.dfy) is the repository object. Its fields
  are the tables, and its methods change them in place. Every method is
  proved to end in exactly the state the matching function describes.
  `GetOrderPrice` is the accumulating loop of `get_order_price`, proved
  against the specification `Pricing.OrderPrice`.

Three lemma files sit beside them. `Conservation` (conservation.dfy) proves
that, for every stock row, the quantity in stock plus the quantities of the
lines drawing on it never changes under any sequence of line inserts,
updates and deletes. It also proves that stock never goes negative, provided
no quantity in the starting state and no quantity given is negative. The
balance is about line statements only: because foreign keys are off, a line
can be inserted for an order that does not exist yet and is charged to no
stock row; a later `add_order` for that id then attaches the line to a row
without moving that row's stock, so the row's stock plus committed quantity
grows by the line's quantity (`Conservation.AddOrderAttachesWaitingLine`).
Deleting such a line afterwards returns stock that was never taken: with 10
in stock, a line of 4 inserted before its order exists, then `add_order`,
then the delete, leaves 14 in stock (`Scenarios.DeleteOfUnchargedLineReturnsStock`). `Pricing` (pricing.dfy) relates order prices
across line operations. `Scenarios` (scenarios.dfy) works through concrete
cases of the guard. `Sums` (sums.dfy) holds the order-independent sum over a
set of line keys. Both the committed quantity of a stock row and an order's
price are such sums.

Some functions are definitions the contracts above are stated against, and
carry no row of their own: `Consistency.StockRow` is the row selection of
every stock trigger, the bakery subquery and the outer `WHERE`
(db/repository.py:192-201, 223-232 and 247-248), None when the order is
unknown or the row is missing, so that nothing changes and nothing aborts;
`Pricing.CataloguePrice` is the products subquery (db/repository.py:388);
`Audit.Fire` is the body of every log trigger
(db/repository.py:150-157), appending one `(op, table)` row once that trigger
exists; `Pricing.UnitPrice` is the price test of `get_order_price`
(db/repository.py:393), and `Pricing.OrderPrice` is the total it returns
(db/repository.py:387-395), with None for a line whose price is NULL, where
the multiplication raises. `Repository.DbRepo.GetOrderPrice` is proved equal
to `OrderPrice`, and the `Pricing` lemmas relate it across statements.

Decisions where the text of the source needs reading:

- The DDL of `stock_update` and `stock_insert` puts the `WHERE` clause of
  the stock `UPDATE` inside `CASE ... END`. SQLite's grammar rejects this,
  and the return value of `exec` is not checked. The model gives the meaning
  the text plainly intends:
  - the guard is `current stock >= NEW.quantity`;
  - the new value is `stock + OLD - NEW` for an update and `stock - NEW` for
    an insert;
  - the statement updates one row, keyed by (bakery of the order, product);
  - the statement aborts otherwise.

  When no stock row matches, or the order is unknown, the `UPDATE` touches
  nothing and nothing aborts.
- The guard compares the current stock with the line's whole new quantity,
  not with the change. A merge is therefore accepted only when the stock
  covers the merged total, and an update that changes only `price_change` is
  refused when the stock is below the line's quantity. So the guard is not
  "the recomputed stock stays non-negative": with 10 in stock, inserting 4
  and then 3 more into the same line leaves stock 6 and refuses the second
  insert, because 6 < 7 (`Scenarios.MergeNeedsStockForWholeLine`).
  `Scenarios.PriceOnlyUpdateRefused` proves the price-only case.
- `stock_delete` and the delete log trigger are both `AFTER DELETE`
  triggers. SQLite's documentation promises no order among triggers on the
  same event; its implementation puts each new trigger at the head of the
  table's list, so the one created later runs first. `_reset` creates the
  log triggers after the stock triggers, so under that undocumented order a
  delete logs `DELETE order_product` before `UPDATE stock`, which is the
  order the model uses.
- Foreign keys are not enforced: SQLite leaves them off unless a pragma
  turns them on, and the repository sets none. A line whose order does not
  exist is inserted without touching stock.
- Prices are integers (cents), with no rounding; the source declares them
  `DECIMAL(10, 2)`.

## Model

| member | source | states |
|---|---|---|
| `Audit.InstallLogTriggers` | db/repository.py:146-159 | after installation a log trigger exists for every statement kind on every table except `logs`, and the existing ones are kept; nothing but the trigger set changes |
| `Audit.AllLogTriggersExact` | db/repository.py:147-149 | the installation loop creates exactly the (table, kind) pairs whose table is not `logs` |
| `Audit.InstallIsIdempotent` | db/repository.py:152 | `CREATE TRIGGER IF NOT EXISTS`: installing a second time changes nothing |
| `Audit.EachWriteLoggedOnce` | db/repository.py:150-157 | once the triggers exist, a write on any tracked table appends exactly one `(op, table)` row and changes nothing else; a write on `logs` appends nothing |
| `Audit.NothingLoggedBeforeInstall` | db/repository.py:489-496 | before `_add_log_triggers` runs, as during the import in `_reset`, writes append nothing |
| `Consistency.UpdateLine` | db/repository.py:182-207 | an update of a missing line does nothing; an update of a line aborts exactly when its stock row exists and holds less than the new quantity; on abort nothing changes; otherwise the line gets its new values and only that stock row moves, by old minus new; the log gains the stock row's entry, if any, then `UPDATE order_product` |
| `Consistency.StockUpdateTrigger` | db/repository.py:182-207 | aborts exactly when the line's stock row exists and holds less than NEW.quantity; on abort nothing changes; otherwise only that row moves, by OLD minus NEW, and it is left at least OLD.quantity; no row, no change; no table but stock changes; the log gains `UPDATE stock` when a row moved |
| `Consistency.StockInsertTrigger` | db/repository.py:209-238 | aborts exactly when the line's stock row exists and holds less than NEW.quantity; on abort nothing changes; otherwise only that row drops, by NEW.quantity, and it is left non-negative; no table but stock changes |
| `Consistency.StockDeleteTrigger` | db/repository.py:240-251 | never aborts; only the line's stock row, if any, grows by OLD.quantity; no table but stock changes; the log gains `UPDATE stock` when a row moved |
| `Consistency.InsertLine` | db/repository.py:164-238 | the insert aborts exactly when the stock row exists and holds less than the line's resulting quantity (the merged total for an existing line); on abort nothing changes; a merge adds no row, grows the line by exactly the inserted quantity and keeps its price_change; a new line is added as given; either way only that stock row drops, by exactly the inserted quantity; logging follows the merge (`UPDATE`) or insert (`INSERT`) path |
| `Consistency.DeleteLine` | db/repository.py:240-251 | the line is removed, and its stock row, if present, grows by exactly its quantity with no guard; nothing else changes; the log gains `DELETE order_product` then the stock entry |
| `Consistency.AddStock` | db/repository.py:338-343 | a second row for the same (bakery, product) fails on the primary key and changes nothing; otherwise exactly that row is added with the given quantity and logged |
| `Consistency.SetStock` | db/repository.py:345-350 | an existing row is set to the given quantity while every other row keeps its value; a missing row matches nothing and nothing changes |
| `Consistency.AddOrder` | db/repository.py:302-321 | a taken id fails and changes nothing; otherwise the order is added with its bakery and logged |
| `Consistency.AddProduct` | db/repository.py:287-300 | a taken id fails and changes nothing; otherwise the product is added with its price and logged |
| `Conservation.AttachedIsStockRow` | db/repository.py:192-201 | a line draws on a stock row exactly when its triggers' subquery selects that row |
| `Conservation.InsertLineKeepsBalance` | db/repository.py:164-238 | for every stock row, stock plus the quantities of the lines drawing on it is the same after an insert, committed or not |
| `Conservation.UpdateLineKeepsBalance` | db/repository.py:182-207 | the same for an update of a line |
| `Conservation.DeleteLineKeepsBalance` | db/repository.py:240-251 | the same for a delete of a line |
| `Conservation.RunKeepsBalance` | db/repository.py:162-251 | after any sequence of line statements, each stock row equals its starting quantity minus the growth of the quantities committed to it |
| `Conservation.ApplyKeepsNonNegative` | db/repository.py:189-204 | a line statement with a non-negative quantity keeps every stock quantity and line quantity non-negative |
| `Conservation.StockWritesKeepCommitted` | db/repository.py:338-350 | `add_stock` and `set_stock` leave every row's committed quantity unchanged, so the written row's stock plus committed quantity becomes the new quantity plus what its lines hold |
| `Conservation.StockWritesKeepNonNegative` | db/repository.py:338-350 | writing a non-negative quantity into stock keeps every stock and line quantity non-negative |
| `Conservation.AddOrderAttachesWaitingLine` | db/repository.py:302-321 | with foreign keys off, `add_order` attaches a line already waiting for that order id to its stock row without moving stock, so that row's stock plus committed quantity grows by the line's quantity and no other row's changes |
| `Conservation.RunKeepsNonNegative` | db/repository.py:162-251 | the same over any sequence of such statements |
| `Pricing.ZeroPriceChangeFallsBack` | db/repository.py:393 | a price_change of 0 is falsy: such a line has the unit price and cost of the same line without a price_change |
| `Pricing.PriceChangeOverridesCatalogue` | db/repository.py:393 | a line with a non-zero price_change is priced at it whatever the products table holds |
| `Pricing.UnpricedExactly` | db/repository.py:388-394 | a line has no unit price exactly when its price_change is unset or 0 and its product has no catalogue row |
| `Pricing.EmptyOrderCostsNothing` | db/repository.py:391-395 | an order without lines costs 0 |
| `Pricing.PriceAfterWrite` | db/repository.py:387-395 | writing one line of a priced order moves the price by the change in that line's cost |
| `Pricing.PriceDependsOnOwnLines` | db/repository.py:388-389 | an order's price depends only on its own lines and the catalogue |
| `Pricing.InsertLineRaisesOrderPrice` | db/repository.py:164-177 | a committed insert raises the order's price by the inserted quantity times the resulting line's unit price; a merged line keeps its old unit price |
| `Pricing.DeleteLineLowersOrderPrice` | db/repository.py:240-251 | deleting a line lowers the order's price by that line's cost |
| `Pricing.OtherOrdersKeepTheirPrice` | db/repository.py:387-395 | a statement on one order's line leaves every other order's price unchanged |
| `Scenarios.MergeNeedsStockForWholeLine` | db/repository.py:164-204 | with 10 in stock, inserting 4 leaves 6; inserting 3 more into the same line is refused, leaving stock 6 and the line at 4 |
| `Scenarios.PriceOnlyUpdateIsStockChecked` | db/repository.py:184-204 | an update that keeps the quantity is refused exactly when the stock row holds less than the line's quantity, and otherwise leaves stock unchanged |
| `Scenarios.PriceOnlyUpdateRefused` | db/repository.py:184-204 | after stock is set below a line's quantity, changing only that line's price is refused |
| `Scenarios.DeleteOfUnchargedLineReturnsStock` | db/repository.py:240-251 | with foreign keys off, a line inserted before its order exists is charged to no row; after `add_order` its delete returns 4 to a stock of 10, leaving 14 |
| `Repository.DbRepo.FireLog` | db/repository.py:152-157 | a write appends the trigger's log row exactly as `Audit.Fire` says |
| `Repository.DbRepo.AddLogTriggers` | db/repository.py:146-160 | the nested loop over tables and kinds leaves the trigger set as `InstallLogTriggers` describes |
| `Repository.DbRepo.UpdateOrderProduct` | db/repository.py:182-207 | the in-place update ends in the state and outcome of `UpdateLine` |
| `Repository.DbRepo.AddOrderProduct` | db/repository.py:323-336 | `add_order_product` ends in the state and outcome of `InsertLine`, and reaches stock on the merge path only through the update |
| `Repository.DbRepo.DeleteOrderProduct` | db/repository.py:240-251 | the delete ends in the state of `DeleteLine` |
| `Repository.DbRepo.AddStock` | db/repository.py:338-343 | ends in the state and outcome of `Consistency.AddStock` |
| `Repository.DbRepo.SetStock` | db/repository.py:345-350 | ends in the state of `Consistency.SetStock` |
| `Repository.DbRepo.AddOrder` | db/repository.py:315-320 | ends in the state and outcome of `Consistency.AddOrder` |
| `Repository.DbRepo.AddProduct` | db/repository.py:295-299 | ends in the state and outcome of `Consistency.AddProduct` |
| `Repository.DbRepo.GetOrderPrice` | db/repository.py:387-395 | the loop returns the sum over the order's lines of unit price times quantity, whatever order the rows come in, or None exactly when some line has no price |

## Left out

- Connection handling (`__init__`, `open`, `close`, `get_connection`) and the Qt query calls. These are I/O against a library outside the model.
- `create_tables` and `drop_tables`. They are used only to read off the keys and column types. The stock triggers of `add_triggers` are always in place in the model.
- `ON DELETE` / `ON UPDATE CASCADE` on the foreign keys, and so deletion of whole orders, bakeries or products. The commented-out `stock_clear` trigger is also left out.
- NULL quantities. The quantity columns allow NULL, and a NULL would make the guard's comparison NULL and abort. The model's quantities are always integers.
- Updates that change `order_id` or `product_id` of a line. `UpdateLine` sets only quantity and price_change, which is all the merge trigger does. The repository itself never updates or deletes a line: apart from the bulk import in `__insert_data` (left out below), its only write to `order_product` is `add_order_product`. `DbRepo.UpdateOrderProduct` stands for the UPDATE that `order_product_insert` issues on a merge (db/repository.py:173-175), or that another client sends, and `DbRepo.DeleteOrderProduct` for a DELETE sent from outside the repository.
- `get_product`, `get_orders`, `get_order` and `get_stock` only read rows for the GUI and write no log row. `add_bakery`, `add_role` and `add_user` insert into tables the model does not keep; their log rows are covered by `Audit.EachWriteLoggedOnce`. `add_user` hashes the password with Python's per-process salted `hash`.
- Ids chosen by `AUTOINCREMENT` when `add_order` or `add_product` gets no id. The id is a parameter.
- The order's date and time (including the `datetime.now()` defaults, which would fail given `import datetime`), the log's `datetime('now')` timestamp, and product names. These are clock reads or columns no trigger reads.
- `__insert_data`, `_reset` and the CSV preparation. These are pandas-driven import, f-string SQL and interactive input.
- Decimal and float arithmetic of prices. Prices are exact integers.
- SQLite's 64-bit INTEGER range. Quantities and prices are unbounded integers, so the model does not show a stock expression such as `quantity + OLD.quantity - NEW.quantity` overflowing into a REAL; the core never relies on that.
- Concurrent connections. The application issues one statement at a time.
