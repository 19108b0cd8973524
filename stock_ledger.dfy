/**
 * The stock table and its two version-guarded conditional updates
 * (`mapper/StockMapper.java`). Both updates select the row by its primary
 * key `id`; the parameter is called `skuId` in the source, and the model keeps
 * that name for the key.
 */
module StockLedger {
  import opened Wrappers

  /** One stock row. */
  datatype Stock = Stock(
    id: int,
    skuId: int,
    totalStock: int,
    availableStock: int,
    lockedStock: int,
    version: int)

  /** The number of rows an `UPDATE` affected and the table after it. */
  datatype Update = Update(rowsAffected: int, rows: map<int, Stock>)

  /** Every row's available stock is non-negative. */
  predicate NonNegative(rows: map<int, Stock>)
  {
    forall id :: id in rows ==> rows[id].availableStock >= 0
  }

  /**
   * `deductStockWithOptimisticLock`: applies only when the row exists, its
   * version is the one passed and it has at least `quantity` available.
   */
  function DeductUpdate(rows: map<int, Stock>, id: int, quantity: int, version: int): (u: Update)
    ensures u.rowsAffected == 1 <==>
              id in rows && rows[id].version == version && rows[id].availableStock >= quantity
    ensures u.rowsAffected != 1 ==> u.rowsAffected == 0 && u.rows == rows
    ensures u.rows.Keys == rows.Keys
    ensures forall k :: k in rows && k != id ==> u.rows[k] == rows[k]
    ensures u.rowsAffected == 1 ==>
              && u.rows[id].availableStock == rows[id].availableStock - quantity
              && u.rows[id].availableStock >= 0
              && u.rows[id].version == rows[id].version + 1
              && u.rows[id].totalStock == rows[id].totalStock
              && u.rows[id].lockedStock == rows[id].lockedStock
              && u.rows[id].id == rows[id].id && u.rows[id].skuId == rows[id].skuId
  {
    if id in rows && rows[id].version == version && rows[id].availableStock >= quantity then
      var row := rows[id];
      Update(1, rows[id := row.(availableStock := row.availableStock - quantity, version := row.version + 1)])
    else
      Update(0, rows)
  }

  /**
   * `compensateStockWithOptimisticLock`: applies whenever the row exists
   * with the version passed; there is no bound on the result.
   */
  function CompensateUpdate(rows: map<int, Stock>, id: int, quantity: int, version: int): (u: Update)
    ensures u.rowsAffected == 1 <==> id in rows && rows[id].version == version
    ensures u.rowsAffected != 1 ==> u.rowsAffected == 0 && u.rows == rows
    ensures u.rows.Keys == rows.Keys
    ensures forall k :: k in rows && k != id ==> u.rows[k] == rows[k]
    ensures u.rowsAffected == 1 ==>
              && u.rows[id].availableStock == rows[id].availableStock + quantity
              && u.rows[id].version == rows[id].version + 1
              && u.rows[id].totalStock == rows[id].totalStock
              && u.rows[id].lockedStock == rows[id].lockedStock
              && u.rows[id].id == rows[id].id && u.rows[id].skuId == rows[id].skuId
  {
    if id in rows && rows[id].version == version then
      var row := rows[id];
      Update(1, rows[id := row.(availableStock := row.availableStock + quantity, version := row.version + 1)])
    else
      Update(0, rows)
  }

  /** A deduction keeps a non-negative table non-negative, whatever its arguments. */
  lemma DeductKeepsNonNegative(rows: map<int, Stock>, id: int, quantity: int, version: int)
    requires NonNegative(rows)
    ensures NonNegative(DeductUpdate(rows, id, quantity, version).rows)
  {
  }

  /** The compensation guard ignores `totalStock`: it can push available stock past it. */
  lemma CompensateCanExceedTotal()
    ensures var rows := map[7 := Stock(7, 1007, 10, 10, 0, 3)];
            var u := CompensateUpdate(rows, 7, 5, 3);
            u.rowsAffected == 1 && u.rows[7].availableStock > u.rows[7].totalStock
  {
  }

  /** The stock table. */
  class StockTable {
    var rows: map<int, Stock>

    constructor (rows: map<int, Stock>)
      ensures this.rows == rows
    {
      this.rows := rows;
    }

    /** `selectById`: the row whose primary key is `id`, if any. */
    method SelectById(id: int) returns (r: Option<Stock>)
      ensures id in rows ==> r == Some(rows[id])
      ensures id !in rows ==> r == None
    {
      r := if id in rows then Some(rows[id]) else None;
    }

    method DeductStockWithOptimisticLock(id: int, quantity: int, version: int) returns (rowsAffected: int)
      modifies this
      ensures Update(rowsAffected, rows) == DeductUpdate(old(rows), id, quantity, version)
    {
      var u := DeductUpdate(rows, id, quantity, version);
      rows := u.rows;
      rowsAffected := u.rowsAffected;
    }

    method CompensateStockWithOptimisticLock(id: int, quantity: int, version: int) returns (rowsAffected: int)
      modifies this
      ensures Update(rowsAffected, rows) == CompensateUpdate(old(rows), id, quantity, version)
    {
      var u := CompensateUpdate(rows, id, quantity, version);
      rows := u.rows;
      rowsAffected := u.rowsAffected;
    }
  }
}
