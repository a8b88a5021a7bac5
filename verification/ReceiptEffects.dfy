/** What confirming a goods receipt does, said over the rows of receipts, order lines and items. */
module ReceiptEffects {
  import opened Sums
  import opened Money
  import opened Stock
  import opened Books
  import opened StockEffects
  import Receipts

  /** What a receipt line puts on the shelf of item i: its quantity, if its order line names that item. */
  function DeliveredTo(orderLines: seq<OrderLine>, items: seq<Item>, i: nat): ReceiptLine -> int {
    (l: ReceiptLine) =>
      if l.orderLine < |orderLines| && Names(items, orderLines[l.orderLine].item, i) then l.qty else 0
  }

  /** What a receipt line delivers against one order line. */
  function Against(orderLine: nat): ReceiptLine -> int {
    (l: ReceiptLine) => if l.orderLine == orderLine then l.qty else 0
  }

  /** Every line names an order line, is at least half a hundredth, and alone does not exceed what is still open. */
  predicate LinesPass(orderLines: seq<OrderLine>, lines: seq<ReceiptLine>) {
    forall j :: 0 <= j < |lines| ==>
      && lines[j].orderLine < |orderLines|
      && lines[j].qty >= 5
      && orderLines[lines[j].orderLine].received + lines[j].qty <= orderLines[lines[j].orderLine].ordered
  }

  predicate Confirmable(b: Books, k: nat) {
    k < |b.receipts| && b.receipts[k].status == DraftReceipt && LinesPass(b.orderLines, b.receipts[k].lines)
  }

  /** Every tracked item rises by what the receipt delivers of it, every order line by what it delivers against it. */
  ghost predicate IsConfirmed(b: Books, after: Books, k: nat)
    requires k < |b.receipts|
  {
    var lines := b.receipts[k].lines;
    && after == b.(shelf := after.shelf, orderLines := after.orderLines, receipts := after.receipts)
    && after.receipts == b.receipts[k := Receipt(lines, ConfirmedReceipt)]
    && |after.orderLines| == |b.orderLines|
    && (forall j: nat :: j < |b.orderLines| ==>
          && after.orderLines[j] == b.orderLines[j].(received := after.orderLines[j].received)
          && after.orderLines[j].received == b.orderLines[j].received + Sum(lines, Against(j)))
    && |after.shelf.items| == |b.shelf.items|
    && MovesAdded(b.shelf.movements, after.shelf.movements, PurchaseIn, k)
    && (forall i: nat :: i < |b.shelf.items| ==>
          ItemMoved(b.shelf, after.shelf, i, Sum(lines, DeliveredTo(b.orderLines, b.shelf.items, i))))
  }

  lemma SmallestAmount(qty: nat)
    ensures ToAmount(qty) > 0 <==> qty >= 5
  {
    var r := RoundDiv(qty, 10);
    assert -10 <= 2 * qty - 20 * r < 10;
  }

  lemma FitsIsPass(orderLines: seq<OrderLine>, lines: seq<ReceiptLine>)
    ensures LinesPass(orderLines, lines) <==> forall j :: 0 <= j < |lines| ==> ReceiptLineFits(orderLines, lines[j])
  {
    forall j | 0 <= j < |lines| ensures ToAmount(lines[j].qty) > 0 <==> lines[j].qty >= 5 {
      SmallestAmount(lines[j].qty);
    }
  }

  /** The lines a receipt moves stock by deliver what the receipt lines deliver. */
  lemma StockLinesDeliver(orderLines: seq<OrderLine>, items: seq<Item>, lines: seq<ReceiptLine>, i: nat)
    ensures Sum(StockLines(orderLines, lines), QtyFor(items, i)) == Sum(lines, DeliveredTo(orderLines, items, i))
  {
    SumCongruent(StockLines(orderLines, lines), lines, QtyFor(items, i), DeliveredTo(orderLines, items, i));
  }

  lemma ConfirmDoes(b: Books, k: nat)
    requires StockInv(b.shelf)
    ensures ConfirmReceipt(b, k).Ok? <==> Confirmable(b, k)
    ensures ConfirmReceipt(b, k).Ok? ==> k < |b.receipts| && IsConfirmed(b, ConfirmReceipt(b, k).value, k)
  {
    if k < |b.receipts| && b.receipts[k].status == DraftReceipt {
      FitsIsPass(b.orderLines, b.receipts[k].lines);
      if ConfirmReceipt(b, k).Ok? {
        ConfirmedRows(b, k);
      }
    }
  }

  lemma ConfirmedRows(b: Books, k: nat)
    requires StockInv(b.shelf) && ConfirmReceipt(b, k).Ok?
    ensures k < |b.receipts| && IsConfirmed(b, ConfirmReceipt(b, k).value, k)
  {
    var lines := b.receipts[k].lines;
    var after := ConfirmReceipt(b, k).value;
    RestockEffect(b.shelf, StockLines(b.orderLines, lines), PurchaseIn, k);
    forall i: nat | i < |b.shelf.items|
      ensures ItemMoved(b.shelf, after.shelf, i, Sum(lines, DeliveredTo(b.orderLines, b.shelf.items, i)))
    {
      StockLinesDeliver(b.orderLines, b.shelf.items, lines, i);
    }
    forall j: nat | j < |b.orderLines|
      ensures after.orderLines[j] == b.orderLines[j].(received := after.orderLines[j].received)
      ensures after.orderLines[j].received == b.orderLines[j].received + Sum(lines, Against(j))
    {
      Receipts.ReceiveMeaning(b.orderLines, lines, j);
      SumCongruent(lines, lines, Receipts.Delivered(j), Against(j));
    }
  }
}
