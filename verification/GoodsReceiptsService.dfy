/** Goods receipts, updated in place inside one transaction per call. */
module GoodsReceiptsService {
  import opened Common
  import opened Money
  import opened Stock
  import opened Books
  import opened Tables
  import ReceiptEffects

  lemma ReceivingKeepsItems(orderLines: seq<OrderLine>, lines: seq<ReceiptLine>, i: nat)
    requires i < |orderLines|
    ensures Receive(orderLines, lines)[i].item == orderLines[i].item
  {
  }

  lemma StockLinesStep(orderLines: seq<OrderLine>, lines: seq<ReceiptLine>, n: nat)
    requires n < |lines|
    ensures StockLines(orderLines, lines[..n + 1]) == StockLines(orderLines, lines[..n]) + [StockLine(orderLines, lines[n])]
    ensures lines[..n + 1][..n] == lines[..n]
  {
  }

  /** Each line moves the stock of its item and raises its order line. */
  method ReceiveLines(db: Database, lines: seq<ReceiptLine>, k: nat)
    requires forall j :: 0 <= j < |lines| ==> lines[j].orderLine < |db.orderLines|
    modifies db`items, db`movements, db`orderLines
    ensures Shelf(db.items, db.movements) == Restock(old(db.View()).shelf, StockLines(old(db.orderLines), lines), PurchaseIn, k).shelf
    ensures db.orderLines == Receive(old(db.orderLines), lines)
  {
    ghost var shelf := db.View().shelf;
    ghost var orderLines := db.orderLines;
    for j := 0 to |lines|
      invariant Shelf(db.items, db.movements) == Restock(shelf, StockLines(orderLines, lines[..j]), PurchaseIn, k).shelf
      invariant db.orderLines == Receive(orderLines, lines[..j])
    {
      var l := lines[j];
      StockLinesStep(orderLines, lines, j);
      ghost var more := StockLines(orderLines, lines[..j]) + [StockLine(orderLines, l)];
      assert more[..|more| - 1] == StockLines(orderLines, lines[..j]);
      ReceivingKeepsItems(orderLines, lines[..j], l.orderLine);
      var row := db.orderLines[l.orderLine];
      if row.item.Some? && row.item.value < |db.items| {
        var item := db.items[row.item.value];
        if !item.deleted && item.trackStock {
          db.items := db.items[row.item.value := item.(stock := item.stock + l.qty)];
          db.movements := db.movements + [Movement(row.item.value, l.qty, PurchaseIn, Some(k))];
        }
      }
      db.orderLines := db.orderLines[l.orderLine := row.(received := row.received + l.qty)];
    }
    assert lines[..|lines|] == lines;
  }

  /** All lines are checked first; then each line moves stock and raises its order line. */
  method ConfirmInTransaction(db: Database, k: nat) returns (failure: Option<Error>)
    modifies db
    ensures Committed(ConfirmReceipt(old(db.View()), k), old(db.View()), failure, db.View())
  {
    if k >= |db.receipts| {
      return Some(NotFound);
    }
    var receipt := db.receipts[k];
    if receipt.status != DraftReceipt {
      return Some(Conflict);
    }
    ghost var before := db.View();
    for j := 0 to |receipt.lines|
      invariant db.View() == before
      invariant forall m :: 0 <= m < j ==> ReceiptLineFits(db.orderLines, receipt.lines[m])
    {
      var l := receipt.lines[j];
      if l.orderLine >= |db.orderLines| || ToAmount(l.qty) <= 0
         || db.orderLines[l.orderLine].received + l.qty > db.orderLines[l.orderLine].ordered {
        assert !ReceiptLineFits(db.orderLines, receipt.lines[j]);
        return Some(BadRequest);
      }
    }
    ReceiveLines(db, receipt.lines, k);
    db.receipts := db.receipts[k := receipt.(status := ConfirmedReceipt)];
    failure := None;
  }

  /** Confirms exactly the receipts whose lines all pass, and shelves what their order lines name. */
  method Confirm(db: Database, k: nat) returns (failure: Option<Error>)
    modifies db
    ensures Committed(ConfirmReceipt(old(db.View()), k), old(db.View()), failure, db.View())
    ensures k >= |old(db.receipts)| ==> failure == Some(NotFound)
    ensures k < |old(db.receipts)| && old(db.receipts)[k].status != DraftReceipt ==> failure == Some(Conflict)
    ensures StockInv(old(db.View()).shelf) ==> (failure == None <==> ReceiptEffects.Confirmable(old(db.View()), k))
    ensures StockInv(old(db.View()).shelf) && failure == None ==>
              k < |old(db.receipts)| && ReceiptEffects.IsConfirmed(old(db.View()), db.View(), k)
  {
    ghost var before := db.View();
    failure := ConfirmInTransaction(db, k);
    if StockInv(before.shelf) {
      ReceiptEffects.ConfirmDoes(before, k);
    }
  }

  method AddOrderLine(db: Database, item: Option<nat>, ordered: nat) returns (failure: Option<Error>)
    modifies db`orderLines
    ensures Committed(CreateOrderLine(old(db.View()), item, ordered), old(db.View()), failure, db.View())
    ensures failure == None && db.orderLines == old(db.orderLines) + [OrderLine(item, ordered, 0)]
  {
    db.orderLines := db.orderLines + [OrderLine(item, ordered, 0)];
    failure := None;
  }

  method CreateDraft(db: Database, lines: seq<ReceiptLine>) returns (failure: Option<Error>)
    modifies db`receipts
    ensures Committed(CreateReceipt(old(db.View()), lines), old(db.View()), failure, db.View())
    ensures failure == None <==> forall j :: 0 <= j < |lines| ==> lines[j].orderLine < |db.orderLines| && lines[j].qty >= 5
    ensures failure == None ==> db.receipts == old(db.receipts) + [Receipt(lines, DraftReceipt)]
  {
    forall j | 0 <= j < |lines| ensures ToAmount(lines[j].qty) > 0 <==> lines[j].qty >= 5 {
      ReceiptEffects.SmallestAmount(lines[j].qty);
    }
    if exists j :: 0 <= j < |lines| && lines[j].orderLine >= |db.orderLines| {
      return Some(BadRequest);
    }
    if exists j :: 0 <= j < |lines| && ToAmount(lines[j].qty) <= 0 {
      return Some(BadRequest);
    }
    db.receipts := db.receipts + [Receipt(lines, DraftReceipt)];
    failure := None;
  }

  /** Only a draft is cancelled, so a cancelled receipt has moved no stock and never will. */
  method Cancel(db: Database, k: nat) returns (failure: Option<Error>)
    modifies db`receipts
    ensures Committed(CancelReceipt(old(db.View()), k), old(db.View()), failure, db.View())
    ensures k >= |old(db.receipts)| ==> failure == Some(NotFound)
    ensures k < |old(db.receipts)| && old(db.receipts)[k].status != DraftReceipt ==> failure == Some(Conflict)
    ensures failure == None <==> k < |old(db.receipts)| && old(db.receipts)[k].status == DraftReceipt
    ensures failure == None ==>
              k < |db.receipts| && db.receipts[k].status == CancelledReceipt && ConfirmReceipt(db.View(), k).Err?
    ensures StockInv(old(db.View()).shelf) ==> StockInv(db.View().shelf)
  {
    if k >= |db.receipts| {
      return Some(NotFound);
    }
    if db.receipts[k].status != DraftReceipt {
      return Some(Conflict);
    }
    db.receipts := db.receipts[k := db.receipts[k].(status := CancelledReceipt)];
    failure := None;
  }
}
