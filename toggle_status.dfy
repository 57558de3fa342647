/** The paid toggle (app/_actions/toggleStatus.ts) over the transaction table,
    seen as a map from id to record. */
module ToggleStatus {
  import opened Transactions

  /** The action's reply: an error message, or the updated record. */
  datatype ToggleResult = Failure(error: string) | Success(transaction: Item)

  const NotFoundMessage := "Transação não encontrada"

  /** The table after toggling `id`: that record's paid flag negated, every
      other field and every other record as before; no change for an unknown id. */
  function Toggled(rows: map<Id, Item>, id: Id): (r: map<Id, Item>)
    ensures r.Keys == rows.Keys
    ensures forall k :: k in rows && k != id ==> r[k] == rows[k]
    ensures id in rows ==> r[id].paid == !rows[id].paid && r[id].(paid := rows[id].paid) == rows[id]
  {
    if id in rows then rows[id := rows[id].(paid := !rows[id].paid)] else rows
  }

  /** Toggling twice restores the table. */
  lemma ToggleTwice(rows: map<Id, Item>, id: Id)
    ensures Toggled(Toggled(rows, id), id) == rows
  {
  }

  class Store {
    var rows: map<Id, Item>

    constructor (rows: map<Id, Item>)
      ensures this.rows == rows
    {
      this.rows := rows;
    }

    /** togglePaymentStatus: look the record up, report "not found", or write
      the negated paid flag and return the updated record. */
    method TogglePaymentStatus(id: Id) returns (result: ToggleResult)
      modifies this
      ensures id !in old(rows) ==> result == Failure(NotFoundMessage) && rows == old(rows)
      ensures id in old(rows) ==> rows == Toggled(old(rows), id) && result == Success(rows[id])
    {
      if id !in rows {
        return Failure(NotFoundMessage);
      }
      var transaction := rows[id];
      rows := rows[id := transaction.(paid := !transaction.paid)];
      result := Success(rows[id]);
    }
  }
}
