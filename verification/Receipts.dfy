/**
 Goods receipts against order lines. Confirming checks every receipt line alone,
 against the quantities before the receipt, so an order line stays within its
 ordered quantity exactly when the receipt's lines for it fit together.
 */
module Receipts {
  import opened Common
  import opened Sums
  import Money
  import opened Books

  /** What a receipt delivers against one order line, over all of its lines. */
  function Delivered(orderLine: nat): ReceiptLine -> int {
    (l: ReceiptLine) => if l.orderLine == orderLine then l.qty else 0
  }

  predicate WithinOrder(o: OrderLine) {
    o.received <= o.ordered
  }

  predicate AllWithinOrder(orderLines: seq<OrderLine>) {
    forall i :: 0 <= i < |orderLines| ==> WithinOrder(orderLines[i])
  }

  predicate FitsTogether(orderLines: seq<OrderLine>, lines: seq<ReceiptLine>) {
    forall i :: 0 <= i < |orderLines| ==> orderLines[i].received + Sum(lines, Delivered(i)) <= orderLines[i].ordered
  }

  lemma {:induction false} ReceiveMeaning(orderLines: seq<OrderLine>, lines: seq<ReceiptLine>, i: nat)
    requires i < |orderLines|
    ensures Receive(orderLines, lines)[i]
            == orderLines[i].(received := Receive(orderLines, lines)[i].received)
    ensures Receive(orderLines, lines)[i].received == orderLines[i].received + Sum(lines, Delivered(i))
  {
    if lines != [] {
      ReceiveMeaning(orderLines, lines[..|lines| - 1], i);
    }
  }

  /** Confirming leaves every order line within its order if and only if the lines fit together. */
  lemma ConfirmStaysWithin(b: Books, k: nat)
    requires ConfirmReceipt(b, k).Ok?
    ensures AllWithinOrder(ConfirmReceipt(b, k).value.orderLines) <==> FitsTogether(b.orderLines, b.receipts[k].lines)
  {
    var lines := b.receipts[k].lines;
    forall i | 0 <= i < |b.orderLines|
      ensures WithinOrder(Receive(b.orderLines, lines)[i])
              <==> b.orderLines[i].received + Sum(lines, Delivered(i)) <= b.orderLines[i].ordered
    {
      ReceiveMeaning(b.orderLines, lines, i);
    }
  }

  predicate DistinctLines(lines: seq<ReceiptLine>) {
    forall i, j :: 0 <= i < j < |lines| ==> lines[i].orderLine != lines[j].orderLine
  }

  /** The per-line check is enough when no two lines name the same order line. */
  lemma DistinctLinesFit(orderLines: seq<OrderLine>, lines: seq<ReceiptLine>)
    requires AllWithinOrder(orderLines) && DistinctLines(lines)
    requires forall j :: 0 <= j < |lines| ==> ReceiptLineFits(orderLines, lines[j])
    ensures FitsTogether(orderLines, lines)
  {
    forall i | 0 <= i < |orderLines|
      ensures orderLines[i].received + Sum(lines, Delivered(i)) <= orderLines[i].ordered
    {
      assert WithinOrder(orderLines[i]);
      if k :| 0 <= k < |lines| && lines[k].orderLine == i {
        SumSingle(lines, k, Delivered(i));
        assert ReceiptLineFits(orderLines, lines[k]);
      } else {
        SumZero(lines, Delivered(i));
      }
    }
  }

  /* ------------------------------------ runs -------------------------------- */

  predicate ReceiptsSound(b: Books) {
    && AllWithinOrder(b.orderLines)
    && forall k :: 0 <= k < |b.receipts| ==> DistinctLines(b.receipts[k].lines)
  }

  predicate NamesLinesOnce(c: Command) {
    c.DoCreateReceipt? ==> DistinctLines(c.receiptLines)
  }

  lemma ReceiptTablesUntouched(b: Books, c: Command)
    requires !c.DoCreateOrderLine? && !c.DoCreateReceipt? && !c.DoConfirmReceipt? && !c.DoCancelReceipt?
    ensures Step(b, c).orderLines == b.orderLines && Step(b, c).receipts == b.receipts
  {
    if c.DoConfirmSale? || c.DoPaySale? || c.DoVoidSale? || c.DoIssueNote? {
      SalesLeaveReceipts(b, c);
    } else if c.DoConfirmPurchase? || c.DoPayPurchase? || c.DoVoidPurchase? {
      PurchasesLeaveReceipts(b, c);
    }
  }

  lemma SalesLeaveReceipts(b: Books, c: Command)
    requires c.DoConfirmSale? || c.DoPaySale? || c.DoVoidSale? || c.DoIssueNote?
    ensures Step(b, c).orderLines == b.orderLines && Step(b, c).receipts == b.receipts
  {
  }

  lemma PurchasesLeaveReceipts(b: Books, c: Command)
    requires c.DoConfirmPurchase? || c.DoPayPurchase? || c.DoVoidPurchase?
    ensures Step(b, c).orderLines == b.orderLines && Step(b, c).receipts == b.receipts
  {
  }

  lemma ReceiptStep(b: Books, c: Command)
    requires ReceiptsSound(b) && NamesLinesOnce(c)
    ensures ReceiptsSound(Step(b, c))
  {
    if c.DoConfirmReceipt? {
      if ConfirmReceipt(b, c.receipt).Ok? {
        DistinctLinesFit(b.orderLines, b.receipts[c.receipt].lines);
        ConfirmStaysWithin(b, c.receipt);
      }
    } else if !c.DoCreateOrderLine? && !c.DoCreateReceipt? && !c.DoCancelReceipt? {
      ReceiptTablesUntouched(b, c);
    }
  }

  /** If no receipt names an order line twice, no order line is ever over-received. */
  lemma {:induction false} NeverOverReceived(cs: seq<Command>)
    requires forall k :: 0 <= k < |cs| ==> NamesLinesOnce(cs[k])
    ensures ReceiptsSound(Run(Registered(), cs))
  {
    if cs != [] {
      NeverOverReceived(cs[..|cs| - 1]);
      ReceiptStep(Run(Registered(), cs[..|cs| - 1]), cs[|cs| - 1]);
    }
  }

  /** Two lines of six against an order of ten both pass the check, and twelve are received. */
  lemma RepeatedLineOverReceives(b: Books)
    requires b.orderLines == [OrderLine(None, 10000, 0)]
    requires b.receipts == [Receipt([ReceiptLine(0, 6000), ReceiptLine(0, 6000)], DraftReceipt)]
    ensures ConfirmReceipt(b, 0).Ok?
    ensures !AllWithinOrder(ConfirmReceipt(b, 0).value.orderLines)
  {
    var lines := b.receipts[0].lines;
    Money.RoundDivUnique(6000, 10, 600);
    assert forall j :: 0 <= j < 2 ==> ReceiptLineFits(b.orderLines, lines[j]);
    ConfirmStaysWithin(b, 0);
    SumOfTwo(lines[0], lines[1], Delivered(0));
    assert b.orderLines[0].received + Sum(lines, Delivered(0)) > b.orderLines[0].ordered;
  }

}
