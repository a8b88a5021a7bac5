/**
 The tables the services update in place, one field per table, and what it means
 for a transaction to commit or roll back.
 */
module Tables {
  import opened Common
  import opened Stock
  import opened Journal
  import opened Books

  class Database {
    var accounts: seq<Account>
    var entries: seq<Entry>
    var items: seq<Item>
    var movements: seq<Movement>
    var parties: seq<Party>
    var sales: seq<Invoice>
    var purchases: seq<Invoice>
    var payments: seq<Payment>
    var notes: seq<Note>
    var orderLines: seq<OrderLine>
    var receipts: seq<Receipt>

    /** The rows now in the tables. */
    function View(): Books
      reads this
    {
      Books(accounts, entries, Shelf(items, movements), parties, sales, purchases, payments, notes, orderLines, receipts)
    }

    /** An organization as registration leaves it. */
    constructor ()
      ensures View() == Registered()
    {
      accounts, entries, items, movements := SeededChart(), [], [], [];
      parties, sales, purchases, payments, notes, orderLines, receipts := [], [], [], [], [], [], [];
    }

    /** What the database does when a transaction throws. */
    method Rollback(saved: Books)
      modifies this
      ensures View() == saved
    {
      accounts, entries, items, movements := saved.accounts, saved.entries, saved.shelf.items, saved.shelf.movements;
      parties, sales, purchases, payments := saved.parties, saved.sales, saved.purchases, saved.payments;
      notes, orderLines, receipts := saved.notes, saved.orderLines, saved.receipts;
    }
  }

  /** Either the whole effect of the service is in the tables, or nothing is and the error says why. */
  predicate Committed(service: Result<Books>, before: Books, failure: Option<Error>, after: Books) {
    match service
    case Ok(b) => failure == None && after == b
    case Err(e) => failure == Some(e) && after == before
  }
}
