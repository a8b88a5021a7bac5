/** Each sales service keeps the invariant of the books. */
module SalesProof {
  import opened Common
  import opened Sums
  import opened Stock
  import opened Journal
  import opened Books
  import opened Invariant

  /* ------------------------- what the templates book ------------------------ */

  lemma SaleTemplates(s: Invoice, amount: int, cost: int, code: nat)
    ensures Sum(SaleInvoiceLines(s), OnAccount(code))
            == if code == AR then s.total else if code == REVENUE then s.taxTotal - s.total
               else if code == VAT_OUTPUT then -s.taxTotal else 0
    ensures Sum(SaleVoidLines(s), OnAccount(code)) == -Sum(SaleInvoiceLines(s), OnAccount(code))
    ensures Sum(SalePaymentLines(amount), OnAccount(code))
            == if code == CASH then amount else if code == AR then -amount else 0
    ensures Sum(SalePaymentReversalLines(amount), OnAccount(code)) == -Sum(SalePaymentLines(amount), OnAccount(code))
    ensures Sum(CogsLines(cost), OnAccount(code))
            == if code == COGS then cost else if code == INVENTORY then -cost else 0
    ensures Sum(CogsReversalLines(cost), OnAccount(code)) == -Sum(CogsLines(cost), OnAccount(code))
  {
    var f := OnAccount(code);
    SumOfThree(Debit(AR, s.total), Credit(REVENUE, s.total - s.taxTotal), Credit(VAT_OUTPUT, s.taxTotal), f);
    SumOfThree(Credit(AR, s.total), Debit(REVENUE, s.total - s.taxTotal), Debit(VAT_OUTPUT, s.taxTotal), f);
    SumOfTwo(Debit(CASH, amount), Credit(AR, amount), f);
    SumOfTwo(Debit(AR, amount), Credit(CASH, amount), f);
    SumOfTwo(Debit(COGS, cost), Credit(INVENTORY, cost), f);
    SumOfTwo(Debit(INVENTORY, cost), Credit(COGS, cost), f);
  }

  /** post refuses a sale unless there is tax and something besides tax. */
  lemma SaleLinesSound(accounts: seq<Account>, s: Invoice)
    ensures LinesSound(accounts, SaleInvoiceLines(s))
            <==> Sellable(s.total, s.taxTotal) && OnChart(accounts, AR) && OnChart(accounts, REVENUE) && OnChart(accounts, VAT_OUTPUT)
    ensures LinesSound(accounts, SaleVoidLines(s)) <==> LinesSound(accounts, SaleInvoiceLines(s))
  {
    var l, v := SaleInvoiceLines(s), SaleVoidLines(s);
    SumOfThree(l[0], l[1], l[2], Signed());
    SumOfThree(v[0], v[1], v[2], Signed());
    assert LinesSound(accounts, l) ==> LineSound(accounts, l[0]) && LineSound(accounts, l[1]) && LineSound(accounts, l[2]);
    assert LinesSound(accounts, v) ==> LineSound(accounts, v[0]) && LineSound(accounts, v[1]) && LineSound(accounts, v[2]);
  }

  lemma PaymentLinesSound(accounts: seq<Account>, amount: int)
    ensures LinesSound(accounts, SalePaymentLines(amount))
            <==> amount > 0 && OnChart(accounts, CASH) && OnChart(accounts, AR)
    ensures LinesSound(accounts, SalePaymentReversalLines(amount)) <==> LinesSound(accounts, SalePaymentLines(amount))
  {
    var l, v := SalePaymentLines(amount), SalePaymentReversalLines(amount);
    SumOfTwo(l[0], l[1], Signed());
    SumOfTwo(v[0], v[1], Signed());
    assert LinesSound(accounts, l) ==> LineSound(accounts, l[0]) && LineSound(accounts, l[1]);
    assert LinesSound(accounts, v) ==> LineSound(accounts, v[0]) && LineSound(accounts, v[1]);
  }

  lemma CostLinesSound(accounts: seq<Account>, cost: int)
    ensures LinesSound(accounts, CogsLines(cost))
            <==> cost > 0 && OnChart(accounts, COGS) && OnChart(accounts, INVENTORY)
    ensures LinesSound(accounts, CogsReversalLines(cost)) <==> LinesSound(accounts, CogsLines(cost))
  {
    var l, v := CogsLines(cost), CogsReversalLines(cost);
    SumOfTwo(l[0], l[1], Signed());
    SumOfTwo(v[0], v[1], Signed());
    assert LinesSound(accounts, l) ==> LineSound(accounts, l[0]) && LineSound(accounts, l[1]);
    assert LinesSound(accounts, v) ==> LineSound(accounts, v[0]) && LineSound(accounts, v[1]);
  }

  /* --------------------------------- confirm -------------------------------- */

  function CostEntries(date: int, source: Source, cost: int, lines: seq<Line>): seq<Entry> {
    if cost > 0 then [Entry(date, Posted, source, None, lines)] else []
  }

  function ConfirmEntries(b: Books, i: nat, date: int, cost: int): seq<Entry>
    requires i < |b.sales|
  {
    [Entry(date, Posted, SaleInvoice(i), None, SaleInvoiceLines(b.sales[i]))]
    + CostEntries(date, SaleCogs(i), cost, CogsLines(cost))
  }

  /** The cost of a sale's tracked lines at the current item cards. */
  function SaleCost(b: Books, i: nat): int
    requires i < |b.sales|
  {
    Sum(b.sales[i].lines, LineCost(b.shelf.items))
  }

  lemma PostCostFresh(b: Books, date: int, source: Source, cost: int, lines: seq<Line>)
    requires JournalInv(b.accounts, b.entries)
    requires source != Manual && !source.Reversal? && !Booked(b.entries, source)
    ensures PostCost(b, date, source, cost, lines).Ok? <==> cost <= 0 || LinesSound(b.accounts, lines)
    ensures PostCost(b, date, source, cost, lines).Ok? ==>
              var after := PostCost(b, date, source, cost, lines).value;
              && after == b.(entries := b.entries + CostEntries(date, source, cost, lines))
              && JournalInv(after.accounts, after.entries)
  {
    PostFresh(b, date, source, lines);
    assert b.entries + [] == b.entries;
  }

  function AfterConfirm(b: Books, i: nat, shelf: Shelf, date: int, cost: int): Books
    requires i < |b.sales|
  {
    b.(shelf := shelf,
       sales := b.sales[i := b.sales[i].(status := Confirmed)],
       entries := b.entries + ConfirmEntries(b, i, date, cost))
  }

  /** Exactly what a confirmation changes. */
  lemma ConfirmEffect(b: Books, i: nat, date: int)
    requires BaseInv(b) && i < |b.sales| && SalePostings(b, i)
    requires ConfirmSale(b, i, date).Ok?
    ensures b.sales[i].status == DraftDoc && Sellable(b.sales[i].total, b.sales[i].taxTotal)
    ensures Dispatch(b.shelf, b.sales[i].lines, i).Ok?
    ensures var after := ConfirmSale(b, i, date).value;
      && after == AfterConfirm(b, i, Dispatch(b.shelf, b.sales[i].lines, i).value.shelf, date, SaleCost(b, i))
      && JournalInv(after.accounts, after.entries)
      && StockInv(after.shelf)
  {
    var s := b.sales[i];
    DispatchMeaning(b.shelf, s.lines, i);
    var out := Dispatch(b.shelf, s.lines, i).value;
    var b1 := b.(shelf := out.shelf, sales := b.sales[i := s.(status := Confirmed)]);
    PostFresh(b1, date, SaleInvoice(i), SaleInvoiceLines(s));
    SaleLinesSound(b.accounts, s);
    var e := Entry(date, Posted, SaleInvoice(i), None, SaleInvoiceLines(s));
    var b2 := PostAuto(b1, date, SaleInvoice(i), SaleInvoiceLines(s)).value;
    NotBookedAfter(b.entries, [e], SaleCogs(i));
    PostCostFresh(b2, date, SaleCogs(i), out.cost, CogsLines(out.cost));
    assert b.entries + ConfirmEntries(b, i, date, out.cost)
        == b2.entries + CostEntries(date, SaleCogs(i), out.cost, CogsLines(out.cost));
  }

  lemma ConfirmNet(b: Books, i: nat, date: int, cost: int, code: nat, payments: seq<Payment>)
    requires i < |b.sales| && cost >= 0
    ensures Sum(ConfirmEntries(b, i, date, cost), Effect(payments, SaleDoc(i), code))
            == Sum(SaleInvoiceLines(b.sales[i]), OnAccount(code)) + Sum(CogsLines(cost), OnAccount(code))
  {
    var f := Effect(payments, SaleDoc(i), code);
    var e := Entry(date, Posted, SaleInvoice(i), None, SaleInvoiceLines(b.sales[i]));
    var c := Entry(date, Posted, SaleCogs(i), None, CogsLines(cost));
    SaleTemplates(b.sales[i], 0, cost, code);
    if cost > 0 {
      assert ConfirmEntries(b, i, date, cost) == [e, c];
      SumOfTwo(e, c, f);
    } else {
      assert ConfirmEntries(b, i, date, cost) == [e];
      SumOfOne(e, f);
    }
  }

  lemma SaleCostNonNegative(b: Books, i: nat)
    requires i < |b.sales|
    ensures SaleCost(b, i) >= 0
  {
    var items := b.shelf.items;
    forall k | 0 <= k < |b.sales[i].lines| ensures LineCost(items)(b.sales[i].lines[k]) >= 0 {
      var l := b.sales[i].lines[k];
      if Tracked(items, l) {
        Money.RoundDivBounds(l.qty * UnitCost(items[l.item.value]), 1000, l.qty * UnitCost(items[l.item.value]));
      }
    }
    SumNonNegative(b.sales[i].lines, LineCost(items));
  }

  lemma ConfirmLedger(b: Books, i: nat, shelf: Shelf, date: int, cost: int)
    requires SourcesKnown(b) && i < |b.sales| && SaleLedger(b, i) && b.sales[i].status == DraftDoc && cost >= 0
    requires PaidRows(b.payments, OnSale(i)) == 0
    ensures var after := AfterConfirm(b, i, shelf, date, cost);
      SaleLedger(after, i) && DocNet(after.payments, after.entries, SaleDoc(i), COGS) == cost
  {
    var after := AfterConfirm(b, i, shelf, date, cost);
    forall code: nat
      ensures DocNet(after.payments, after.entries, SaleDoc(i), code)
              == DocNet(b.payments, b.entries, SaleDoc(i), code)
                 + if CostAccount(code) then (if code == COGS then cost else -cost) else SaleNet(after.sales[i], 0, code)
    {
      NetExtended(b, after, ConfirmEntries(b, i, date, cost), SaleDoc(i), code);
      ConfirmNet(b, i, date, cost, code, after.payments);
      SaleTemplates(b.sales[i], 0, cost, code);
    }
  }

  lemma ConfirmPostings(b: Books, i: nat, shelf: Shelf, date: int, cost: int)
    requires i < |b.sales| && SalePostings(b, i) && b.sales[i].status == DraftDoc
    ensures SalePostings(AfterConfirm(b, i, shelf, date, cost), i)
  {
    var after := AfterConfirm(b, i, shelf, date, cost);
    var es := ConfirmEntries(b, i, date, cost);
    BookedAsNew(b.entries, es, 0);
    NotBookedAfter(b.entries, es, SaleVoid(i));
    NotBookedAfter(b.entries, es, SaleCogsReversal(i));
    forall p | 0 <= p < |b.payments| && b.payments[p].target == OnSale(i)
      ensures !Booked(after.entries, SalePaymentReversal(p))
    {
      NotBookedAfter(b.entries, es, SalePaymentReversal(p));
    }
  }

  lemma ConfirmedSound(b: Books, i: nat, date: int, shelf: Shelf)
    requires Inv(b) && ConfirmSale(b, i, date).Ok?
    ensures i < |b.sales| && SaleInv(AfterConfirm(b, i, shelf, date, SaleCost(b, i)), i)
  {
    assert SaleInv(b, i);
    ConfirmEffect(b, i, date);
    SaleCostNonNegative(b, i);
    ConfirmLedger(b, i, shelf, date, SaleCost(b, i));
    ConfirmPostings(b, i, shelf, date, SaleCost(b, i));
  }

  lemma ConfirmSaleKeeps(b: Books, i: nat, date: int)
    requires Inv(b) && ConfirmSale(b, i, date).Ok?
    ensures Inv(ConfirmSale(b, i, date).value)
  {
    assert SaleInv(b, i);
    ConfirmEffect(b, i, date);
    SaleCostNonNegative(b, i);
    var shelf := Dispatch(b.shelf, b.sales[i].lines, i).value.shelf;
    ConfirmedSound(b, i, date, shelf);
    AssembleSale(b, AfterConfirm(b, i, shelf, date, SaleCost(b, i)), i, ConfirmEntries(b, i, date, SaleCost(b, i)));
  }

  /* --------------------------------- payment -------------------------------- */

  function PayEntry(b: Books, amount: int, date: int): Entry {
    Entry(date, Posted, SalePayment(|b.payments|), None, SalePaymentLines(amount))
  }

  function AfterPay(b: Books, i: nat, amount: int, date: int): Books
    requires i < |b.sales|
  {
    var s := b.sales[i];
    b.(payments := b.payments + [Payment(OnSale(i), amount)],
       sales := b.sales[i := s.(amountPaid := s.amountPaid + amount, status := PaidStatus(s.amountPaid + amount, s.total))],
       entries := b.entries + [PayEntry(b, amount, date)])
  }

  lemma PayEffect(b: Books, i: nat, amount: int, date: int)
    requires BaseInv(b) && PaySale(b, i, amount, date).Ok?
    ensures amount > 0 && i < |b.sales| && (b.sales[i].status == Confirmed || b.sales[i].status == PartiallyPaid)
    ensures var after := PaySale(b, i, amount, date).value;
      after == AfterPay(b, i, amount, date) && JournalInv(after.accounts, after.entries)
  {
    var s := b.sales[i];
    var paid := s.amountPaid + amount;
    var b1 := b.(payments := b.payments + [Payment(OnSale(i), amount)],
                 sales := b.sales[i := s.(amountPaid := paid, status := PaidStatus(paid, s.total))]);
    NewPaymentUnbooked(b);
    PostFresh(b1, date, SalePayment(|b.payments|), SalePaymentLines(amount));
  }

  lemma PayLedger(b: Books, i: nat, amount: int, date: int)
    requires SourcesKnown(b) && i < |b.sales| && SaleLedger(b, i) && Released(b.sales[i].status)
    ensures SaleLedger(AfterPay(b, i, amount, date), i)
  {
    var after := AfterPay(b, i, amount, date);
    var e := PayEntry(b, amount, date);
    SumAppend(b.payments, Payment(OnSale(i), amount), PaidInto(OnSale(i)));
    forall code: nat
      ensures DocNet(after.payments, after.entries, SaleDoc(i), code)
              == DocNet(b.payments, b.entries, SaleDoc(i), code)
                 + if code == CASH then amount else if code == AR then -amount else 0
    {
      NetExtended(b, after, [e], SaleDoc(i), code);
      SumOfOne(e, Effect(after.payments, SaleDoc(i), code));
      SaleTemplates(b.sales[i], amount, 0, code);
    }
  }

  lemma PayPostings(b: Books, i: nat, amount: int, date: int)
    requires SourcesKnown(b) && i < |b.sales| && SalePostings(b, i) && Released(b.sales[i].status)
    ensures SalePostings(AfterPay(b, i, amount, date), i)
  {
    NewPaymentUnbooked(b);
    var after := AfterPay(b, i, amount, date);
    var es := [PayEntry(b, amount, date)];
    BookedAsAppended(b.entries, es, SaleInvoice(i), SaleInvoiceLines(b.sales[i]));
    NotBookedAfter(b.entries, es, SaleVoid(i));
    NotBookedAfter(b.entries, es, SaleCogsReversal(i));
    forall p | 0 <= p < |after.payments| && after.payments[p].target == OnSale(i)
      ensures !Booked(after.entries, SalePaymentReversal(p))
    {
      if p < |b.payments| {
        assert b.payments[p] == after.payments[p];
      }
      NotBookedAfter(b.entries, es, SalePaymentReversal(p));
    }
  }

  lemma PayRow(b: Books, i: nat, amount: int, date: int)
    requires i < |b.sales| && SaleRow(b, i) && Released(b.sales[i].status) && amount > 0
    ensures SaleRow(AfterPay(b, i, amount, date), i)
  {
    SumAppend(b.payments, Payment(OnSale(i), amount), PaidInto(OnSale(i)));
  }

  lemma PaySaleKeeps(b: Books, i: nat, amount: int, date: int)
    requires Inv(b) && PaySale(b, i, amount, date).Ok?
    ensures Inv(PaySale(b, i, amount, date).value)
  {
    PayEffect(b, i, amount, date);
    assert SaleInv(b, i);
    PayRow(b, i, amount, date);
    PayPostings(b, i, amount, date);
    PayLedger(b, i, amount, date);
    PayOwned(b, i, amount, date);
    AssembleSale(b, AfterPay(b, i, amount, date), i, [PayEntry(b, amount, date)]);
  }

  lemma PayOwned(b: Books, i: nat, amount: int, date: int)
    requires i < |b.sales| && amount > 0
    ensures var after := AfterPay(b, i, amount, date);
      && AllOwned(after, [PayEntry(b, amount, date)], SaleDoc(i))
      && b.payments <= after.payments
      && (forall p :: |b.payments| <= p < |after.payments| ==>
            PaymentSound(after, p) && after.payments[p].target == OnSale(i))
  {
    BookedAsNew(b.entries, [PayEntry(b, amount, date)], 0);
  }

  /* ----------------------------------- void --------------------------------- */

  function ReversalEntries(payments: seq<Payment>, i: nat, date: int, n: nat): seq<Entry>
    requires n <= |payments|
  {
    if n == 0 then []
    else
      ReversalEntries(payments, i, date, n - 1)
      + if payments[n - 1].target == OnSale(i)
        then [Entry(date, Posted, SalePaymentReversal(n - 1), None, SalePaymentReversalLines(payments[n - 1].amount))]
        else []
  }

  ghost predicate Reversible(b: Books, i: nat, n: nat)
    requires n <= |b.payments|
  {
    forall p :: 0 <= p < n && b.payments[p].target == OnSale(i) ==>
      LinesSound(b.accounts, SalePaymentReversalLines(b.payments[p].amount))
  }

  /** Unwinding succeeds exactly when every reversal is acceptable, and books one per payment of the sale. */
  lemma {:induction false} UnwindEffect(b: Books, i: nat, date: int, n: nat)
    requires JournalInv(b.accounts, b.entries) && n <= |b.payments|
    requires forall p :: 0 <= p < |b.payments| && b.payments[p].target == OnSale(i) ==>
               !Booked(b.entries, SalePaymentReversal(p))
    ensures UnwindSalePayments(b, i, date, n).Ok? <==> Reversible(b, i, n)
    ensures UnwindSalePayments(b, i, date, n).Ok? ==>
              var u := UnwindSalePayments(b, i, date, n).value;
              && u == b.(entries := b.entries + ReversalEntries(b.payments, i, date, n))
              && JournalInv(u.accounts, u.entries)
              && (forall p :: n <= p < |b.payments| && b.payments[p].target == OnSale(i) ==>
                    !Booked(u.entries, SalePaymentReversal(p)))
  {
    if n == 0 {
      assert b.entries + [] == b.entries;
    } else {
      UnwindEffect(b, i, date, n - 1);
      var r := UnwindSalePayments(b, i, date, n - 1);
      if r.Ok? {
        var u := r.value;
        var p := b.payments[n - 1];
        var more := ReversalEntries(b.payments, i, date, n - 1);
        if p.target == OnSale(i) {
          PostFresh(u, date, SalePaymentReversal(n - 1), SalePaymentReversalLines(p.amount));
          var e := Entry(date, Posted, SalePaymentReversal(n - 1), None, SalePaymentReversalLines(p.amount));
          assert (b.entries + more) + [e] == b.entries + (more + [e]);
        } else {
          assert more + [] == more;
        }
      }
    }
  }

  lemma {:induction false} ReversalSources(payments: seq<Payment>, i: nat, date: int, n: nat)
    requires n <= |payments|
    ensures forall k :: 0 <= k < |ReversalEntries(payments, i, date, n)| ==>
              var source := ReversalEntries(payments, i, date, n)[k].source;
              source.SalePaymentReversal? && source.payment < n && payments[source.payment].target == OnSale(i)
  {
    if n > 0 {
      ReversalSources(payments, i, date, n - 1);
    }
  }

  lemma ReversalOfOne(payments: seq<Payment>, i: nat, date: int, p: nat, code: nat)
    requires p < |payments| && payments[p].target == OnSale(i)
    ensures Effect(payments, SaleDoc(i), code)(
              Entry(date, Posted, SalePaymentReversal(p), None, SalePaymentReversalLines(payments[p].amount)))
            == OnArAndCash(code, payments[p].amount)
  {
    SaleTemplates(Invoice(0, [], 0, 0, 0, Void), payments[p].amount, 0, code);
  }

  function OnArAndCash(code: nat, amount: int): int {
    if code == AR then amount else if code == CASH then -amount else 0
  }

  lemma ReversalStep(payments: seq<Payment>, i: nat, date: int, n: nat, code: nat)
    requires 0 < n <= |payments|
    ensures Sum(ReversalEntries(payments, i, date, n), Effect(payments, SaleDoc(i), code))
            == Sum(ReversalEntries(payments, i, date, n - 1), Effect(payments, SaleDoc(i), code))
               + OnArAndCash(code, PaidInto(OnSale(i))(payments[n - 1]))
  {
    var p := n - 1;
    var before := ReversalEntries(payments, i, date, p);
    if payments[p].target == OnSale(i) {
      ReversalOfOne(payments, i, date, p, code);
      SumAppend(before, Entry(date, Posted, SalePaymentReversal(p), None, SalePaymentReversalLines(payments[p].amount)),
                Effect(payments, SaleDoc(i), code));
    } else {
      assert before + [] == before;
    }
  }

  lemma {:induction false} ReversalNet(payments: seq<Payment>, i: nat, date: int, n: nat, code: nat)
    requires n <= |payments|
    ensures Sum(ReversalEntries(payments, i, date, n), Effect(payments, SaleDoc(i), code))
            == OnArAndCash(code, PaidRows(payments[..n], OnSale(i)))
  {
    if n > 0 {
      ReversalNet(payments, i, date, n - 1, code);
      PaidRowsStep(payments, OnSale(i), n);
      ReversalStep(payments, i, date, n, code);
    }
  }

  function VoidEntries(b: Books, i: nat, date: int, cost: int): seq<Entry>
    requires i < |b.sales|
  {
    [Entry(date, Posted, SaleVoid(i), None, SaleVoidLines(b.sales[i]))]
    + CostEntries(date, SaleCogsReversal(i), cost, CogsReversalLines(cost))
    + ReversalEntries(b.payments, i, date, |b.payments|)
  }

  function AfterVoid(b: Books, i: nat, shelf: Shelf, date: int, cost: int): Books
    requires i < |b.sales|
  {
    b.(shelf := shelf,
       sales := b.sales[i := b.sales[i].(status := Void)],
       entries := b.entries + VoidEntries(b, i, date, cost))
  }

  /** Exactly what voiding a released sale changes; only a missing cost account can stop it. */
  lemma VoidEffect(b: Books, i: nat, date: int)
    requires BaseInv(b) && i < |b.sales| && SalePostings(b, i) && Released(b.sales[i].status)
    requires LinesSound(b.accounts, SaleVoidLines(b.sales[i])) && Reversible(b, i, |b.payments|)
    ensures VoidSale(b, i, date).Ok? <==>
              SaleCost(b, i) <= 0 || LinesSound(b.accounts, CogsReversalLines(SaleCost(b, i)))
    ensures VoidSale(b, i, date).Ok? ==>
              var after := VoidSale(b, i, date).value;
              && after == AfterVoid(b, i, Restock(b.shelf, b.sales[i].lines, VoidMove, i).shelf, date, SaleCost(b, i))
              && JournalInv(after.accounts, after.entries)
              && StockInv(after.shelf)
  {
    var s := b.sales[i];
    RestockMeaning(b.shelf, s.lines, VoidMove, i);
    var back := Restock(b.shelf, s.lines, VoidMove, i);
    var b1 := b.(shelf := back.shelf, sales := b.sales[i := s.(status := Void)]);
    PostFresh(b1, date, SaleVoid(i), SaleVoidLines(s));
    var v := Entry(date, Posted, SaleVoid(i), None, SaleVoidLines(s));
    var b2 := PostAuto(b1, date, SaleVoid(i), SaleVoidLines(s)).value;
    NotBookedAfter(b.entries, [v], SaleCogsReversal(i));
    PostCostFresh(b2, date, SaleCogsReversal(i), back.cost, CogsReversalLines(back.cost));
    var r := PostCost(b2, date, SaleCogsReversal(i), back.cost, CogsReversalLines(back.cost));
    if r.Ok? {
      VoidTail(b, r.value, i, date, back.cost);
    }
  }

  /** The payment reversals that follow the void entry and the cost reversal. */
  lemma VoidTail(b: Books, b3: Books, i: nat, date: int, cost: int)
    requires i < |b.sales| && SalePostings(b, i) && b.sales[i].status != Void
    requires b3.accounts == b.accounts && b3.payments == b.payments && Reversible(b, i, |b.payments|)
    requires JournalInv(b3.accounts, b3.entries)
    requires b3.entries == b.entries + [Entry(date, Posted, SaleVoid(i), None, SaleVoidLines(b.sales[i]))]
                           + CostEntries(date, SaleCogsReversal(i), cost, CogsReversalLines(cost))
    ensures UnwindSalePayments(b3, i, date, |b3.payments|).Ok?
    ensures var u := UnwindSalePayments(b3, i, date, |b3.payments|).value;
      u == b3.(entries := b.entries + VoidEntries(b, i, date, cost)) && JournalInv(u.accounts, u.entries)
  {
    VoidTailUnbooked(b, b3.entries, i, date, cost);
    UnwindEffect(b3, i, date, |b.payments|);
    VoidEntriesJoin(b, b3.entries, i, date, cost);
  }

  lemma VoidEntriesJoin(b: Books, entries: seq<Entry>, i: nat, date: int, cost: int)
    requires i < |b.sales|
    requires entries == b.entries + [Entry(date, Posted, SaleVoid(i), None, SaleVoidLines(b.sales[i]))]
                        + CostEntries(date, SaleCogsReversal(i), cost, CogsReversalLines(cost))
    ensures entries + ReversalEntries(b.payments, i, date, |b.payments|) == b.entries + VoidEntries(b, i, date, cost)
  {
  }

  /** No payment of the sale has been reversed before the unwinding starts. */
  lemma VoidTailUnbooked(b: Books, entries: seq<Entry>, i: nat, date: int, cost: int)
    requires i < |b.sales| && SalePostings(b, i) && b.sales[i].status != Void
    requires entries == b.entries + [Entry(date, Posted, SaleVoid(i), None, SaleVoidLines(b.sales[i]))]
                        + CostEntries(date, SaleCogsReversal(i), cost, CogsReversalLines(cost))
    ensures forall p :: 0 <= p < |b.payments| && b.payments[p].target == OnSale(i) ==>
              !Booked(entries, SalePaymentReversal(p))
  {
    var v := Entry(date, Posted, SaleVoid(i), None, SaleVoidLines(b.sales[i]));
    var ce := CostEntries(date, SaleCogsReversal(i), cost, CogsReversalLines(cost));
    forall p | 0 <= p < |b.payments| && b.payments[p].target == OnSale(i)
      ensures !Booked(entries, SalePaymentReversal(p))
    {
      NotBookedAfter(b.entries, [v], SalePaymentReversal(p));
      NotBookedAfter(b.entries + [v], ce, SalePaymentReversal(p));
    }
  }

  /** Everything a void of a released sale needs on the chart is pinned there by what the sale already booked. */
  lemma SalePostable(b: Books, i: nat)
    requires BaseInv(b) && i < |b.sales| && SalePostings(b, i) && Released(b.sales[i].status)
    ensures LinesSound(b.accounts, SaleVoidLines(b.sales[i]))
    ensures Reversible(b, i, |b.payments|)
  {
    var k :| 0 <= k < |b.entries| && b.entries[k].source == SaleInvoice(i) && b.entries[k].lines == SaleInvoiceLines(b.sales[i]);
    assert LinesSound(b.accounts, b.entries[k].lines);
    SaleLinesSound(b.accounts, b.sales[i]);
    forall p | 0 <= p < |b.payments| && b.payments[p].target == OnSale(i)
      ensures LinesSound(b.accounts, SalePaymentReversalLines(b.payments[p].amount))
    {
      assert PaymentSound(b, p);
      var m :| 0 <= m < |b.entries| && b.entries[m].source == SalePayment(p)
               && b.entries[m].lines == SalePaymentLines(b.payments[p].amount);
      assert LinesSound(b.accounts, b.entries[m].lines);
      PaymentLinesSound(b.accounts, b.payments[p].amount);
    }
  }

  lemma VoidNet(b: Books, i: nat, date: int, cost: int, code: nat)
    requires i < |b.sales| && cost >= 0
    ensures Sum(VoidEntries(b, i, date, cost), Effect(b.payments, SaleDoc(i), code))
            == -Sum(SaleInvoiceLines(b.sales[i]), OnAccount(code)) - Sum(CogsLines(cost), OnAccount(code))
               + OnArAndCash(code, PaidRows(b.payments, OnSale(i)))
  {
    var f := Effect(b.payments, SaleDoc(i), code);
    var v := Entry(date, Posted, SaleVoid(i), None, SaleVoidLines(b.sales[i]));
    var ce := CostEntries(date, SaleCogsReversal(i), cost, CogsReversalLines(cost));
    var rs := ReversalEntries(b.payments, i, date, |b.payments|);
    SumConcat([v] + ce, rs, f);
    SumConcat([v], ce, f);
    SumOfOne(v, f);
    SaleTemplates(b.sales[i], 0, cost, code);
    if cost > 0 {
      SumOfOne(ce[0], f);
    }
    assert b.payments[..|b.payments|] == b.payments;
    ReversalNet(b.payments, i, date, |b.payments|, code);
  }

  /**
   Voiding a released sale with any payments takes its ledger footprint to zero
   on every account but the cost accounts; those move by the cost at the item
   cards in force when the void runs.
   */
  lemma VoidLedger(b: Books, i: nat, shelf: Shelf, date: int, cost: int)
    requires SourcesKnown(b) && i < |b.sales| && SaleLedger(b, i) && Released(b.sales[i].status) && cost >= 0
    ensures var after := AfterVoid(b, i, shelf, date, cost);
      && (forall code: nat :: !CostAccount(code) ==> DocNet(after.payments, after.entries, SaleDoc(i), code) == 0)
      && DocNet(after.payments, after.entries, SaleDoc(i), COGS)
         == DocNet(b.payments, b.entries, SaleDoc(i), COGS) - cost
      && DocNet(after.payments, after.entries, SaleDoc(i), INVENTORY)
         == -DocNet(after.payments, after.entries, SaleDoc(i), COGS)
  {
    var after := AfterVoid(b, i, shelf, date, cost);
    var paid := PaidRows(b.payments, OnSale(i));
    forall code: nat
      ensures DocNet(after.payments, after.entries, SaleDoc(i), code)
              == DocNet(b.payments, b.entries, SaleDoc(i), code)
                 - (if CostAccount(code) then (if code == COGS then cost else -cost) else SaleNet(b.sales[i], paid, code))
    {
      NetExtended(b, after, VoidEntries(b, i, date, cost), SaleDoc(i), code);
      VoidNet(b, i, date, cost, code);
      SaleTemplates(b.sales[i], 0, cost, code);
    }
  }

  lemma VoidOwned(b: Books, after: Books, i: nat, date: int, cost: int)
    requires i < |b.sales| && |after.sales| == |b.sales| && after.payments == b.payments
    ensures AllOwned(after, VoidEntries(b, i, date, cost), SaleDoc(i))
  {
    var es := VoidEntries(b, i, date, cost);
    var head := 1 + |CostEntries(date, SaleCogsReversal(i), cost, CogsReversalLines(cost))|;
    ReversalSources(b.payments, i, date, |b.payments|);
    forall k | 0 <= k < |es| ensures Known(after, es[k].source) && Owner(after.payments, es[k].source) == Some(SaleDoc(i)) {
      if k >= head {
        assert es[k] == ReversalEntries(b.payments, i, date, |b.payments|)[k - head];
      }
    }
  }

  lemma VoidReleasedKeeps(b: Books, i: nat, date: int)
    requires Inv(b) && i < |b.sales| && Released(b.sales[i].status) && VoidSale(b, i, date).Ok?
    ensures Inv(VoidSale(b, i, date).value)
  {
    assert SaleInv(b, i);
    SalePostable(b, i);
    VoidEffect(b, i, date);
    SaleCostNonNegative(b, i);
    var shelf := Restock(b.shelf, b.sales[i].lines, VoidMove, i).shelf;
    var after := AfterVoid(b, i, shelf, date, SaleCost(b, i));
    VoidLedger(b, i, shelf, date, SaleCost(b, i));
    VoidOwned(b, after, i, date, SaleCost(b, i));
    assert SaleRow(after, i) && SalePostings(after, i) && SaleLedger(after, i);
    AssembleSale(b, after, i, VoidEntries(b, i, date, SaleCost(b, i)));
  }

  lemma VoidSaleKeeps(b: Books, i: nat, date: int)
    requires Inv(b) && VoidSale(b, i, date).Ok?
    ensures Inv(VoidSale(b, i, date).value)
  {
    if Released(b.sales[i].status) {
      VoidReleasedKeeps(b, i, date);
    } else {
      var after := VoidSale(b, i, date).value;
      assert SaleInv(b, i);
      assert b.entries + [] == b.entries;
      assert SaleRow(after, i) && SalePostings(after, i) && SaleLedger(after, i);
      AssembleSale(b, after, i, []);
    }
  }
}
