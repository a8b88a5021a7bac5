/** What the purchasing services do, said over the rows of the tables and the account codes. */
module PurchaseEffects {
  import opened Stock
  import opened Journal
  import opened Books
  import opened Invariant
  import opened PurchaseProof
  import opened StockEffects
  import SalesEffects

  /** The books with only the tables different that purchasing writes. */
  predicate OnlyTables(b: Books, after: Books) {
    after == b.(shelf := after.shelf, purchases := after.purchases, payments := after.payments, entries := after.entries)
  }

  predicate Confirmable(b: Books, i: nat) {
    && i < |b.purchases| && b.purchases[i].status == DraftDoc
    && 0 < b.purchases[i].taxTotal < b.purchases[i].total
    && OnChart(b.accounts, 1300) && OnChart(b.accounts, 1400) && OnChart(b.accounts, 2100)
  }

  /** Goods on the shelf, the row CONFIRMED, and inventory, input tax and payable booked. */
  ghost predicate IsConfirmed(b: Books, after: Books, i: nat, date: int)
    requires i < |b.purchases|
  {
    var p := b.purchases[i];
    && OnlyTables(b, after) && after.payments == b.payments
    && after.purchases == b.purchases[i := p.(status := Confirmed)]
    && PutOn(b.shelf, after.shelf, p.lines, PurchaseIn, i)
    && after.entries == b.entries
        + [SalesEffects.Auto(date, PurchaseInvoice(i),
             [Line(1300, p.total - p.taxTotal, 0), Line(1400, p.taxTotal, 0), Line(2100, 0, p.total)])]
  }

  lemma ConfirmDoes(b: Books, i: nat, date: int)
    requires Inv(b)
    ensures ConfirmPurchase(b, i, date).Ok? <==> Confirmable(b, i)
    ensures ConfirmPurchase(b, i, date).Ok? ==>
              i < |b.purchases| && IsConfirmed(b, ConfirmPurchase(b, i, date).value, i, date)
  {
    if i < |b.purchases| && b.purchases[i].status == DraftDoc {
      var p := b.purchases[i];
      assert PurchaseInv(b, i);
      RestockEffect(b.shelf, p.lines, PurchaseIn, i);
      var b1 := b.(shelf := Restock(b.shelf, p.lines, PurchaseIn, i).shelf,
                   purchases := b.purchases[i := p.(status := Confirmed)]);
      PostFresh(b1, date, PurchaseInvoice(i), PurchaseInvoiceLines(p));
      PurchaseLinesSound(b.accounts, p);
    }
  }

  predicate Payable(b: Books, i: nat, amount: int) {
    && amount > 0 && i < |b.purchases|
    && (b.purchases[i].status == Confirmed || b.purchases[i].status == PartiallyPaid)
    && OnChart(b.accounts, 2100) && OnChart(b.accounts, 1100)
  }

  /** A payment row, the balance up by the amount, PAID once it reaches the total, and payable against cash. */
  predicate IsPaid(b: Books, after: Books, i: nat, amount: int, date: int)
    requires i < |b.purchases|
  {
    var p := b.purchases[i];
    && OnlyTables(b, after) && after.shelf == b.shelf
    && after.payments == b.payments + [Payment(OnPurchase(i), amount)]
    && after.purchases == b.purchases[i := p.(amountPaid := p.amountPaid + amount,
                                              status := if p.amountPaid + amount >= p.total then Paid else PartiallyPaid)]
    && after.entries == b.entries
        + [SalesEffects.Auto(date, PurchasePayment(|b.payments|), [Line(2100, amount, 0), Line(1100, 0, amount)])]
  }

  lemma PayDoes(b: Books, i: nat, amount: int, date: int)
    requires Inv(b)
    ensures PayPurchase(b, i, amount, date).Ok? <==> Payable(b, i, amount)
    ensures PayPurchase(b, i, amount, date).Ok? ==>
              i < |b.purchases| && IsPaid(b, PayPurchase(b, i, amount, date).value, i, amount, date)
  {
    if i < |b.purchases| && amount > 0 {
      var p := b.purchases[i];
      var paid := p.amountPaid + amount;
      var b1 := b.(payments := b.payments + [Payment(OnPurchase(i), amount)],
                   purchases := b.purchases[i := p.(amountPaid := paid, status := PaidStatus(paid, p.total))]);
      NewPaymentUnbooked(b);
      PostFresh(b1, date, PurchasePayment(|b.payments|), PurchasePaymentLines(amount));
      PurchasePaymentLinesSound(b.accounts, amount);
    }
  }

  /** One entry for every payment of the purchase, in order, that puts it back on cash and on the payable. */
  function PaymentsBack(payments: seq<Payment>, i: nat, date: int): seq<Entry> {
    if payments == [] then []
    else
      var p := |payments| - 1;
      PaymentsBack(payments[..p], i, date)
      + if payments[p].target == OnPurchase(i)
        then [SalesEffects.Auto(date, PurchasePaymentReversal(p),
                [Line(1100, payments[p].amount, 0), Line(2100, 0, payments[p].amount)])]
        else []
  }

  /** The row becomes VOID; a released purchase also gives back the goods still on hand and every entry it had is reversed. */
  ghost predicate IsVoided(b: Books, after: Books, i: nat, date: int)
    requires i < |b.purchases|
  {
    var p := b.purchases[i];
    && OnlyTables(b, after) && after.payments == b.payments
    && after.purchases == b.purchases[i := p.(status := Void)]
    && (!SalesEffects.IsReleased(p.status) ==> after.shelf == b.shelf && after.entries == b.entries)
    && (SalesEffects.IsReleased(p.status) ==>
          && TakenBack(b.shelf, after.shelf, p.lines, i)
          && after.entries == b.entries
              + [SalesEffects.Auto(date, PurchaseVoid(i),
                   [Line(2100, p.total, 0), Line(1300, 0, p.total - p.taxTotal), Line(1400, 0, p.taxTotal)])]
              + PaymentsBack(b.payments, i, date))
  }

  lemma {:induction false} ReversalsAre(payments: seq<Payment>, i: nat, date: int, n: nat)
    requires n <= |payments|
    ensures ReversalEntries(payments, i, date, n) == PaymentsBack(payments[..n], i, date)
  {
    if n > 0 {
      ReversalsAre(payments, i, date, n - 1);
      assert payments[..n][..n - 1] == payments[..n - 1];
    }
  }

  lemma VoidEntriesAre(b: Books, i: nat, date: int)
    requires i < |b.purchases|
    ensures var p := b.purchases[i];
      b.entries + VoidEntries(b, i, date)
      == b.entries
         + [SalesEffects.Auto(date, PurchaseVoid(i),
              [Line(2100, p.total, 0), Line(1300, 0, p.total - p.taxTotal), Line(1400, 0, p.taxTotal)])]
         + PaymentsBack(b.payments, i, date)
  {
    ReversalsAre(b.payments, i, date, |b.payments|);
    assert b.payments[..|b.payments|] == b.payments;
  }

  /** In any books at all, a successful void makes the row VOID and touches no other invoice. */
  lemma VoidWrites(b: Books, i: nat, date: int)
    requires VoidPurchase(b, i, date).Ok?
    ensures i < |b.purchases| && b.purchases[i].status != Void
    ensures VoidPurchase(b, i, date).value.purchases == b.purchases[i := b.purchases[i].(status := Void)]
  {
  }

  /** Every purchase that is not void yet can be voided, and this is exactly what it does. */
  lemma VoidDoes(b: Books, i: nat, date: int)
    requires Inv(b)
    ensures VoidPurchase(b, i, date).Ok? <==> i < |b.purchases| && b.purchases[i].status != Void
    ensures VoidPurchase(b, i, date).Ok? ==>
              i < |b.purchases| && IsVoided(b, VoidPurchase(b, i, date).value, i, date)
  {
    if i < |b.purchases| && SalesEffects.IsReleased(b.purchases[i].status) {
      assert PurchaseInv(b, i);
      PurchasePostable(b, i);
      VoidEffect(b, i, date);
      WithdrawEffect(b.shelf, b.purchases[i].lines, i);
      VoidEntriesAre(b, i, date);
    }
  }
}
