/** Each purchasing service keeps the invariant of the books. */
module PurchaseProof {
  import opened Common
  import opened Sums
  import opened Stock
  import opened Journal
  import opened Books
  import opened Invariant

  lemma PurchaseTemplates(p: Invoice, amount: int, code: nat)
    ensures Sum(PurchaseInvoiceLines(p), OnAccount(code))
            == if code == INVENTORY then p.total - p.taxTotal else if code == VAT_INPUT then p.taxTotal
               else if code == AP then -p.total else 0
    ensures Sum(PurchaseVoidLines(p), OnAccount(code)) == -Sum(PurchaseInvoiceLines(p), OnAccount(code))
    ensures Sum(PurchasePaymentLines(amount), OnAccount(code))
            == if code == AP then amount else if code == CASH then -amount else 0
    ensures Sum(PurchasePaymentReversalLines(amount), OnAccount(code)) == -Sum(PurchasePaymentLines(amount), OnAccount(code))
  {
    var f := OnAccount(code);
    SumOfThree(Debit(INVENTORY, p.total - p.taxTotal), Debit(VAT_INPUT, p.taxTotal), Credit(AP, p.total), f);
    SumOfThree(Debit(AP, p.total), Credit(INVENTORY, p.total - p.taxTotal), Credit(VAT_INPUT, p.taxTotal), f);
    SumOfTwo(Debit(AP, amount), Credit(CASH, amount), f);
    SumOfTwo(Debit(CASH, amount), Credit(AP, amount), f);
  }

  lemma PurchaseLinesSound(accounts: seq<Account>, p: Invoice)
    ensures LinesSound(accounts, PurchaseInvoiceLines(p))
            <==> Sellable(p.total, p.taxTotal) && OnChart(accounts, INVENTORY) && OnChart(accounts, VAT_INPUT) && OnChart(accounts, AP)
    ensures LinesSound(accounts, PurchaseVoidLines(p)) <==> LinesSound(accounts, PurchaseInvoiceLines(p))
  {
    var l, v := PurchaseInvoiceLines(p), PurchaseVoidLines(p);
    SumOfThree(l[0], l[1], l[2], Signed());
    SumOfThree(v[0], v[1], v[2], Signed());
    assert LinesSound(accounts, l) ==> LineSound(accounts, l[0]) && LineSound(accounts, l[1]) && LineSound(accounts, l[2]);
    assert LinesSound(accounts, v) ==> LineSound(accounts, v[0]) && LineSound(accounts, v[1]) && LineSound(accounts, v[2]);
  }

  lemma PurchasePaymentLinesSound(accounts: seq<Account>, amount: int)
    ensures LinesSound(accounts, PurchasePaymentLines(amount))
            <==> amount > 0 && OnChart(accounts, CASH) && OnChart(accounts, AP)
    ensures LinesSound(accounts, PurchasePaymentReversalLines(amount)) <==> LinesSound(accounts, PurchasePaymentLines(amount))
  {
    var l, v := PurchasePaymentLines(amount), PurchasePaymentReversalLines(amount);
    SumOfTwo(l[0], l[1], Signed());
    SumOfTwo(v[0], v[1], Signed());
    assert LinesSound(accounts, l) ==> LineSound(accounts, l[0]) && LineSound(accounts, l[1]);
    assert LinesSound(accounts, v) ==> LineSound(accounts, v[0]) && LineSound(accounts, v[1]);
  }

  /* --------------------------------- confirm -------------------------------- */

  function ConfirmEntry(b: Books, i: nat, date: int): Entry
    requires i < |b.purchases|
  {
    Entry(date, Posted, PurchaseInvoice(i), None, PurchaseInvoiceLines(b.purchases[i]))
  }

  function AfterConfirm(b: Books, i: nat, shelf: Shelf, date: int): Books
    requires i < |b.purchases|
  {
    b.(shelf := shelf,
       purchases := b.purchases[i := b.purchases[i].(status := Confirmed)],
       entries := b.entries + [ConfirmEntry(b, i, date)])
  }

  lemma ConfirmEffect(b: Books, i: nat, date: int)
    requires BaseInv(b) && i < |b.purchases| && PurchasePostings(b, i)
    requires ConfirmPurchase(b, i, date).Ok?
    ensures b.purchases[i].status == DraftDoc && Sellable(b.purchases[i].total, b.purchases[i].taxTotal)
    ensures var after := ConfirmPurchase(b, i, date).value;
      && after == AfterConfirm(b, i, Restock(b.shelf, b.purchases[i].lines, PurchaseIn, i).shelf, date)
      && JournalInv(after.accounts, after.entries)
      && StockInv(after.shelf)
  {
    var p := b.purchases[i];
    RestockMeaning(b.shelf, p.lines, PurchaseIn, i);
    var b1 := b.(shelf := Restock(b.shelf, p.lines, PurchaseIn, i).shelf,
                 purchases := b.purchases[i := p.(status := Confirmed)]);
    PostFresh(b1, date, PurchaseInvoice(i), PurchaseInvoiceLines(p));
    PurchaseLinesSound(b.accounts, p);
  }

  lemma ConfirmLedger(b: Books, i: nat, shelf: Shelf, date: int)
    requires SourcesKnown(b) && i < |b.purchases| && PurchaseLedger(b, i) && b.purchases[i].status == DraftDoc
    requires PaidRows(b.payments, OnPurchase(i)) == 0
    ensures PurchaseLedger(AfterConfirm(b, i, shelf, date), i)
  {
    var after := AfterConfirm(b, i, shelf, date);
    var e := ConfirmEntry(b, i, date);
    forall code: nat
      ensures DocNet(after.payments, after.entries, PurchaseDoc(i), code) == PurchaseNet(after.purchases[i], 0, code)
    {
      NetExtended(b, after, [e], PurchaseDoc(i), code);
      SumOfOne(e, Effect(after.payments, PurchaseDoc(i), code));
      PurchaseTemplates(b.purchases[i], 0, code);
    }
  }

  lemma ConfirmPostings(b: Books, i: nat, shelf: Shelf, date: int)
    requires i < |b.purchases| && PurchasePostings(b, i) && b.purchases[i].status == DraftDoc
    ensures PurchasePostings(AfterConfirm(b, i, shelf, date), i)
  {
    var es := [ConfirmEntry(b, i, date)];
    BookedAsNew(b.entries, es, 0);
    NotBookedAfter(b.entries, es, PurchaseVoid(i));
    forall p | 0 <= p < |b.payments| && b.payments[p].target == OnPurchase(i)
      ensures !Booked(b.entries + es, PurchasePaymentReversal(p))
    {
      NotBookedAfter(b.entries, es, PurchasePaymentReversal(p));
    }
  }

  lemma ConfirmPurchaseKeeps(b: Books, i: nat, date: int)
    requires Inv(b) && ConfirmPurchase(b, i, date).Ok?
    ensures Inv(ConfirmPurchase(b, i, date).value)
  {
    assert PurchaseInv(b, i);
    ConfirmEffect(b, i, date);
    var shelf := Restock(b.shelf, b.purchases[i].lines, PurchaseIn, i).shelf;
    ConfirmLedger(b, i, shelf, date);
    ConfirmPostings(b, i, shelf, date);
    AssemblePurchase(b, AfterConfirm(b, i, shelf, date), i, [ConfirmEntry(b, i, date)]);
  }

  /* --------------------------------- payment -------------------------------- */

  function PayEntry(b: Books, amount: int, date: int): Entry {
    Entry(date, Posted, PurchasePayment(|b.payments|), None, PurchasePaymentLines(amount))
  }

  function AfterPay(b: Books, i: nat, amount: int, date: int): Books
    requires i < |b.purchases|
  {
    var p := b.purchases[i];
    b.(payments := b.payments + [Payment(OnPurchase(i), amount)],
       purchases := b.purchases[i := p.(amountPaid := p.amountPaid + amount, status := PaidStatus(p.amountPaid + amount, p.total))],
       entries := b.entries + [PayEntry(b, amount, date)])
  }

  lemma PayEffect(b: Books, i: nat, amount: int, date: int)
    requires BaseInv(b) && PayPurchase(b, i, amount, date).Ok?
    ensures amount > 0 && i < |b.purchases|
    ensures b.purchases[i].status == Confirmed || b.purchases[i].status == PartiallyPaid
    ensures var after := PayPurchase(b, i, amount, date).value;
      after == AfterPay(b, i, amount, date) && JournalInv(after.accounts, after.entries)
  {
    var p := b.purchases[i];
    var paid := p.amountPaid + amount;
    var b1 := b.(payments := b.payments + [Payment(OnPurchase(i), amount)],
                 purchases := b.purchases[i := p.(amountPaid := paid, status := PaidStatus(paid, p.total))]);
    NewPaymentUnbooked(b);
    PostFresh(b1, date, PurchasePayment(|b.payments|), PurchasePaymentLines(amount));
  }

  lemma PayLedger(b: Books, i: nat, amount: int, date: int)
    requires SourcesKnown(b) && i < |b.purchases| && PurchaseLedger(b, i) && Released(b.purchases[i].status)
    ensures PurchaseLedger(AfterPay(b, i, amount, date), i)
  {
    var after := AfterPay(b, i, amount, date);
    var e := PayEntry(b, amount, date);
    SumAppend(b.payments, Payment(OnPurchase(i), amount), PaidInto(OnPurchase(i)));
    forall code: nat
      ensures DocNet(after.payments, after.entries, PurchaseDoc(i), code)
              == DocNet(b.payments, b.entries, PurchaseDoc(i), code)
                 + if code == AP then amount else if code == CASH then -amount else 0
    {
      NetExtended(b, after, [e], PurchaseDoc(i), code);
      SumOfOne(e, Effect(after.payments, PurchaseDoc(i), code));
      PurchaseTemplates(b.purchases[i], amount, code);
    }
  }

  lemma PayPostings(b: Books, i: nat, amount: int, date: int)
    requires SourcesKnown(b) && i < |b.purchases| && PurchasePostings(b, i) && Released(b.purchases[i].status)
    ensures PurchasePostings(AfterPay(b, i, amount, date), i)
  {
    NewPaymentUnbooked(b);
    var after := AfterPay(b, i, amount, date);
    var es := [PayEntry(b, amount, date)];
    BookedAsAppended(b.entries, es, PurchaseInvoice(i), PurchaseInvoiceLines(b.purchases[i]));
    NotBookedAfter(b.entries, es, PurchaseVoid(i));
    forall p | 0 <= p < |after.payments| && after.payments[p].target == OnPurchase(i)
      ensures !Booked(after.entries, PurchasePaymentReversal(p))
    {
      if p < |b.payments| {
        assert b.payments[p] == after.payments[p];
      }
      NotBookedAfter(b.entries, es, PurchasePaymentReversal(p));
    }
  }

  lemma PayRow(b: Books, i: nat, amount: int, date: int)
    requires i < |b.purchases| && PurchaseRow(b, i) && Released(b.purchases[i].status) && amount > 0
    ensures PurchaseRow(AfterPay(b, i, amount, date), i)
  {
    SumAppend(b.payments, Payment(OnPurchase(i), amount), PaidInto(OnPurchase(i)));
  }

  lemma PayOwned(b: Books, i: nat, amount: int, date: int)
    requires i < |b.purchases| && amount > 0
    ensures var after := AfterPay(b, i, amount, date);
      && AllOwned(after, [PayEntry(b, amount, date)], PurchaseDoc(i))
      && b.payments <= after.payments
      && (forall p :: |b.payments| <= p < |after.payments| ==>
            PaymentSound(after, p) && after.payments[p].target == OnPurchase(i))
  {
    BookedAsNew(b.entries, [PayEntry(b, amount, date)], 0);
  }

  lemma PayPurchaseKeeps(b: Books, i: nat, amount: int, date: int)
    requires Inv(b) && PayPurchase(b, i, amount, date).Ok?
    ensures Inv(PayPurchase(b, i, amount, date).value)
  {
    PayEffect(b, i, amount, date);
    assert PurchaseInv(b, i);
    PayRow(b, i, amount, date);
    PayPostings(b, i, amount, date);
    PayLedger(b, i, amount, date);
    PayOwned(b, i, amount, date);
    AssemblePurchase(b, AfterPay(b, i, amount, date), i, [PayEntry(b, amount, date)]);
  }

  /* ----------------------------------- void --------------------------------- */

  function ReversalEntries(payments: seq<Payment>, i: nat, date: int, n: nat): seq<Entry>
    requires n <= |payments|
  {
    if n == 0 then []
    else
      ReversalEntries(payments, i, date, n - 1)
      + if payments[n - 1].target == OnPurchase(i)
        then [Entry(date, Posted, PurchasePaymentReversal(n - 1), None, PurchasePaymentReversalLines(payments[n - 1].amount))]
        else []
  }

  /** Unwinding books one reversal per payment of the purchase and never fails on acceptable lines. */
  lemma {:induction false} UnwindEffect(b: Books, i: nat, date: int, n: nat)
    requires JournalInv(b.accounts, b.entries) && n <= |b.payments|
    requires forall p :: 0 <= p < |b.payments| && b.payments[p].target == OnPurchase(i) ==>
               && !Booked(b.entries, PurchasePaymentReversal(p))
               && LinesSound(b.accounts, PurchasePaymentReversalLines(b.payments[p].amount))
    ensures UnwindPurchasePayments(b, i, date, n).Ok?
    ensures var u := UnwindPurchasePayments(b, i, date, n).value;
      && u == b.(entries := b.entries + ReversalEntries(b.payments, i, date, n))
      && JournalInv(u.accounts, u.entries)
      && (forall p :: n <= p < |b.payments| && b.payments[p].target == OnPurchase(i) ==>
            !Booked(u.entries, PurchasePaymentReversal(p)))
  {
    if n == 0 {
      assert b.entries + [] == b.entries;
    } else {
      UnwindEffect(b, i, date, n - 1);
      var u := UnwindPurchasePayments(b, i, date, n - 1).value;
      var p := b.payments[n - 1];
      var more := ReversalEntries(b.payments, i, date, n - 1);
      if p.target == OnPurchase(i) {
        PostFresh(u, date, PurchasePaymentReversal(n - 1), PurchasePaymentReversalLines(p.amount));
        var e := Entry(date, Posted, PurchasePaymentReversal(n - 1), None, PurchasePaymentReversalLines(p.amount));
        assert (b.entries + more) + [e] == b.entries + (more + [e]);
      } else {
        assert more + [] == more;
      }
    }
  }

  lemma {:induction false} ReversalSources(payments: seq<Payment>, i: nat, date: int, n: nat)
    requires n <= |payments|
    ensures forall k :: 0 <= k < |ReversalEntries(payments, i, date, n)| ==>
              var source := ReversalEntries(payments, i, date, n)[k].source;
              source.PurchasePaymentReversal? && source.payment < n && payments[source.payment].target == OnPurchase(i)
  {
    if n > 0 {
      ReversalSources(payments, i, date, n - 1);
    }
  }

  lemma ReversalOfOne(payments: seq<Payment>, i: nat, date: int, p: nat, code: nat)
    requires p < |payments| && payments[p].target == OnPurchase(i)
    ensures Effect(payments, PurchaseDoc(i), code)(
              Entry(date, Posted, PurchasePaymentReversal(p), None, PurchasePaymentReversalLines(payments[p].amount)))
            == OnApAndCash(code, payments[p].amount)
  {
    PurchaseTemplates(Invoice(0, [], 0, 0, 0, Void), payments[p].amount, code);
  }

  function OnApAndCash(code: nat, amount: int): int {
    if code == AP then -amount else if code == CASH then amount else 0
  }

  lemma ReversalStep(payments: seq<Payment>, i: nat, date: int, n: nat, code: nat)
    requires 0 < n <= |payments|
    ensures Sum(ReversalEntries(payments, i, date, n), Effect(payments, PurchaseDoc(i), code))
            == Sum(ReversalEntries(payments, i, date, n - 1), Effect(payments, PurchaseDoc(i), code))
               + OnApAndCash(code, PaidInto(OnPurchase(i))(payments[n - 1]))
  {
    var p := n - 1;
    var before := ReversalEntries(payments, i, date, p);
    if payments[p].target == OnPurchase(i) {
      ReversalOfOne(payments, i, date, p, code);
      SumAppend(before, Entry(date, Posted, PurchasePaymentReversal(p), None, PurchasePaymentReversalLines(payments[p].amount)),
                Effect(payments, PurchaseDoc(i), code));
    } else {
      assert before + [] == before;
    }
  }

  lemma {:induction false} ReversalNet(payments: seq<Payment>, i: nat, date: int, n: nat, code: nat)
    requires n <= |payments|
    ensures Sum(ReversalEntries(payments, i, date, n), Effect(payments, PurchaseDoc(i), code))
            == OnApAndCash(code, PaidRows(payments[..n], OnPurchase(i)))
  {
    if n > 0 {
      ReversalNet(payments, i, date, n - 1, code);
      PaidRowsStep(payments, OnPurchase(i), n);
      ReversalStep(payments, i, date, n, code);
    }
  }

  function VoidEntries(b: Books, i: nat, date: int): seq<Entry>
    requires i < |b.purchases|
  {
    [Entry(date, Posted, PurchaseVoid(i), None, PurchaseVoidLines(b.purchases[i]))]
    + ReversalEntries(b.payments, i, date, |b.payments|)
  }

  function AfterVoid(b: Books, i: nat, shelf: Shelf, date: int): Books
    requires i < |b.purchases|
  {
    b.(shelf := shelf,
       purchases := b.purchases[i := b.purchases[i].(status := Void)],
       entries := b.entries + VoidEntries(b, i, date))
  }

  ghost predicate Reversible(b: Books, i: nat) {
    forall p :: 0 <= p < |b.payments| && b.payments[p].target == OnPurchase(i) ==>
      LinesSound(b.accounts, PurchasePaymentReversalLines(b.payments[p].amount))
  }

  lemma PurchasePostable(b: Books, i: nat)
    requires BaseInv(b) && i < |b.purchases| && PurchasePostings(b, i) && Released(b.purchases[i].status)
    ensures LinesSound(b.accounts, PurchaseVoidLines(b.purchases[i]))
    ensures Reversible(b, i)
  {
    var k :| 0 <= k < |b.entries| && b.entries[k].source == PurchaseInvoice(i)
             && b.entries[k].lines == PurchaseInvoiceLines(b.purchases[i]);
    assert LinesSound(b.accounts, b.entries[k].lines);
    PurchaseLinesSound(b.accounts, b.purchases[i]);
    forall p | 0 <= p < |b.payments| && b.payments[p].target == OnPurchase(i)
      ensures LinesSound(b.accounts, PurchasePaymentReversalLines(b.payments[p].amount))
    {
      assert PaymentSound(b, p);
      var m :| 0 <= m < |b.entries| && b.entries[m].source == PurchasePayment(p)
               && b.entries[m].lines == PurchasePaymentLines(b.payments[p].amount);
      assert LinesSound(b.accounts, b.entries[m].lines);
      PurchasePaymentLinesSound(b.accounts, b.payments[p].amount);
    }
  }

  /** A released purchase can always be voided, and this is exactly what changes. */
  lemma VoidEffect(b: Books, i: nat, date: int)
    requires BaseInv(b) && i < |b.purchases| && PurchasePostings(b, i) && Released(b.purchases[i].status)
    requires LinesSound(b.accounts, PurchaseVoidLines(b.purchases[i])) && Reversible(b, i)
    ensures VoidPurchase(b, i, date).Ok?
    ensures var after := VoidPurchase(b, i, date).value;
      && after == AfterVoid(b, i, Withdraw(b.shelf, b.purchases[i].lines, i), date)
      && JournalInv(after.accounts, after.entries)
      && StockInv(after.shelf)
  {
    var p := b.purchases[i];
    WithdrawMeaning(b.shelf, p.lines, i);
    var b1 := b.(shelf := Withdraw(b.shelf, p.lines, i), purchases := b.purchases[i := p.(status := Void)]);
    PostFresh(b1, date, PurchaseVoid(i), PurchaseVoidLines(p));
    var v := Entry(date, Posted, PurchaseVoid(i), None, PurchaseVoidLines(p));
    var b2 := PostAuto(b1, date, PurchaseVoid(i), PurchaseVoidLines(p)).value;
    forall q | 0 <= q < |b.payments| && b.payments[q].target == OnPurchase(i)
      ensures !Booked(b2.entries, PurchasePaymentReversal(q))
    {
      NotBookedAfter(b.entries, [v], PurchasePaymentReversal(q));
    }
    UnwindEffect(b2, i, date, |b.payments|);
    assert (b.entries + [v]) + ReversalEntries(b.payments, i, date, |b.payments|) == b.entries + VoidEntries(b, i, date);
  }

  lemma VoidNet(b: Books, i: nat, date: int, code: nat)
    requires i < |b.purchases|
    ensures Sum(VoidEntries(b, i, date), Effect(b.payments, PurchaseDoc(i), code))
            == -Sum(PurchaseInvoiceLines(b.purchases[i]), OnAccount(code))
               + OnApAndCash(code, PaidRows(b.payments, OnPurchase(i)))
  {
    var f := Effect(b.payments, PurchaseDoc(i), code);
    var v := Entry(date, Posted, PurchaseVoid(i), None, PurchaseVoidLines(b.purchases[i]));
    SumConcat([v], ReversalEntries(b.payments, i, date, |b.payments|), f);
    SumOfOne(v, f);
    PurchaseTemplates(b.purchases[i], 0, code);
    assert b.payments[..|b.payments|] == b.payments;
    ReversalNet(b.payments, i, date, |b.payments|, code);
  }

  /** A voided purchase nets to zero on every account. */
  lemma VoidLedger(b: Books, i: nat, shelf: Shelf, date: int)
    requires SourcesKnown(b) && i < |b.purchases| && PurchaseLedger(b, i) && Released(b.purchases[i].status)
    ensures var after := AfterVoid(b, i, shelf, date);
      forall code: nat :: DocNet(after.payments, after.entries, PurchaseDoc(i), code) == 0
  {
    var after := AfterVoid(b, i, shelf, date);
    forall code: nat ensures DocNet(after.payments, after.entries, PurchaseDoc(i), code) == 0 {
      NetExtended(b, after, VoidEntries(b, i, date), PurchaseDoc(i), code);
      VoidNet(b, i, date, code);
      PurchaseTemplates(b.purchases[i], 0, code);
    }
  }

  lemma VoidOwned(b: Books, after: Books, i: nat, date: int)
    requires i < |b.purchases| && |after.purchases| == |b.purchases| && after.payments == b.payments
    ensures AllOwned(after, VoidEntries(b, i, date), PurchaseDoc(i))
  {
    var es := VoidEntries(b, i, date);
    ReversalSources(b.payments, i, date, |b.payments|);
    forall k | 0 <= k < |es|
      ensures Known(after, es[k].source) && Owner(after.payments, es[k].source) == Some(PurchaseDoc(i))
    {
      if k > 0 {
        assert es[k] == ReversalEntries(b.payments, i, date, |b.payments|)[k - 1];
      }
    }
  }

  lemma VoidReleasedKeeps(b: Books, i: nat, date: int)
    requires Inv(b) && i < |b.purchases| && Released(b.purchases[i].status)
    ensures VoidPurchase(b, i, date).Ok? && Inv(VoidPurchase(b, i, date).value)
  {
    assert PurchaseInv(b, i);
    PurchasePostable(b, i);
    VoidEffect(b, i, date);
    var shelf := Withdraw(b.shelf, b.purchases[i].lines, i);
    var after := AfterVoid(b, i, shelf, date);
    VoidLedger(b, i, shelf, date);
    VoidOwned(b, after, i, date);
    assert PurchaseRow(after, i) && PurchasePostings(after, i) && PurchaseLedger(after, i);
    AssemblePurchase(b, after, i, VoidEntries(b, i, date));
  }

  lemma VoidPurchaseKeeps(b: Books, i: nat, date: int)
    requires Inv(b) && VoidPurchase(b, i, date).Ok?
    ensures Inv(VoidPurchase(b, i, date).value)
  {
    if Released(b.purchases[i].status) {
      VoidReleasedKeeps(b, i, date);
    } else {
      var after := VoidPurchase(b, i, date).value;
      assert PurchaseInv(b, i);
      assert b.entries + [] == b.entries;
      assert PurchaseRow(after, i) && PurchasePostings(after, i) && PurchaseLedger(after, i);
      AssemblePurchase(b, after, i, []);
    }
  }
}
