/**
 What the sales services do, said over the rows of the tables and the account
 codes: when a call succeeds, which rows it writes, and which entries it books.
 */
module SalesEffects {
  import opened Common
  import opened Sums
  import opened Stock
  import opened Journal
  import opened Books
  import opened Invariant
  import opened SalesProof
  import opened StockEffects

  predicate IsReleased(s: DocStatus) {
    s == Confirmed || s == PartiallyPaid || s == Paid
  }

  function Owing(party: nat): Invoice -> int {
    (s: Invoice) => if s.party == party && IsReleased(s.status) then s.total - s.amountPaid else 0
  }

  /** The party's open balance and this sale stay within the credit limit, if there is one. */
  predicate WithinLimit(b: Books, s: Invoice) {
    s.party < |b.parties| && b.parties[s.party].creditLimit.Some? ==>
      Sum(b.sales, Owing(s.party)) + s.total <= b.parties[s.party].creditLimit.value
  }

  /** The books with only the named tables different. */
  predicate OnlyTables(b: Books, after: Books) {
    after == b.(shelf := after.shelf, sales := after.sales, payments := after.payments, entries := after.entries)
  }

  /** An automatic entry: posted on the given date, reversing nothing. */
  function Auto(date: int, source: Source, lines: seq<Line>): Entry {
    Entry(date, Posted, source, None, lines)
  }

  /** The cost entry, if there is any cost. */
  function CostEntry(date: int, source: Source, cost: int, debited: nat, credited: nat): seq<Entry> {
    if cost > 0 then [Auto(date, source, [Line(debited, cost, 0), Line(credited, 0, cost)])] else []
  }

  /** What the tracked lines of sale i cost at the buy prices now on the cards. */
  function Cost(b: Books, i: nat): int
    requires i < |b.sales|
  {
    Sum(b.sales[i].lines, CentsFor(b.shelf.items))
  }

  /* --------------------------------- confirm -------------------------------- */

  predicate Confirmable(b: Books, i: nat) {
    && i < |b.sales| && b.sales[i].status == DraftDoc
    && WithinLimit(b, b.sales[i])
    && InStock(b.shelf, b.sales[i].lines)
    && 0 < b.sales[i].taxTotal < b.sales[i].total
    && OnChart(b.accounts, 1200) && OnChart(b.accounts, 4100) && OnChart(b.accounts, 2200)
    && (Cost(b, i) > 0 ==> OnChart(b.accounts, 5100) && OnChart(b.accounts, 1300))
  }

  /** Goods off the shelf, the row CONFIRMED, and receivable, revenue, tax and cost booked. */
  ghost predicate IsConfirmed(b: Books, after: Books, i: nat, date: int)
    requires i < |b.sales|
  {
    var s := b.sales[i];
    && OnlyTables(b, after) && after.payments == b.payments
    && after.sales == b.sales[i := s.(status := Confirmed)]
    && TakenOff(b.shelf, after.shelf, s.lines, i)
    && after.entries == b.entries
        + [Auto(date, SaleInvoice(i), [Line(1200, s.total, 0), Line(4100, 0, s.total - s.taxTotal), Line(2200, 0, s.taxTotal)])]
        + CostEntry(date, SaleCogs(i), Cost(b, i), 5100, 1300)
    && DocNet(after.payments, after.entries, SaleDoc(i), 5100) == Cost(b, i)
    && DocNet(after.payments, after.entries, SaleDoc(i), 1300) == -Cost(b, i)
  }

  lemma LimitIsSame(b: Books, s: Invoice)
    ensures OverLimit(b, s) <==> !WithinLimit(b, s)
  {
    SumCongruent(b.sales, b.sales, OwedBy(s.party), Owing(s.party));
  }

  lemma CostIsSame(b: Books, i: nat)
    requires i < |b.sales|
    ensures SaleCost(b, i) == Cost(b, i)
  {
    CostIsCents(b.shelf.items, b.sales[i].lines);
  }

  /** When the invoice entry of a draft is accepted, and when its cost entry is. */
  lemma ConfirmAccepts(b: Books, i: nat, date: int)
    requires BaseInv(b) && i < |b.sales| && SalePostings(b, i) && b.sales[i].status == DraftDoc
    ensures ConfirmSale(b, i, date).Ok? <==>
              && !OverLimit(b, b.sales[i])
              && Dispatch(b.shelf, b.sales[i].lines, i).Ok?
              && LinesSound(b.accounts, SaleInvoiceLines(b.sales[i]))
              && (SaleCost(b, i) > 0 ==> LinesSound(b.accounts, CogsLines(SaleCost(b, i))))
  {
    var s := b.sales[i];
    DispatchMeaning(b.shelf, s.lines, i);
    if Dispatch(b.shelf, s.lines, i).Ok? {
      var out := Dispatch(b.shelf, s.lines, i).value;
      var b1 := b.(shelf := out.shelf, sales := b.sales[i := s.(status := Confirmed)]);
      var e := Entry(date, Posted, SaleInvoice(i), None, SaleInvoiceLines(s));
      PostFresh(b1, date, SaleInvoice(i), SaleInvoiceLines(s));
      if LinesSound(b.accounts, SaleInvoiceLines(s)) {
        var b2 := PostAuto(b1, date, SaleInvoice(i), SaleInvoiceLines(s)).value;
        NotBookedAfter(b.entries, [e], SaleCogs(i));
        PostCostFresh(b2, date, SaleCogs(i), out.cost, CogsLines(out.cost));
      }
    }
  }

  lemma ConfirmCondition(b: Books, i: nat, date: int)
    requires Inv(b)
    ensures ConfirmSale(b, i, date).Ok? <==> Confirmable(b, i)
  {
    if i < |b.sales| && b.sales[i].status == DraftDoc {
      assert SaleInv(b, i);
      ConfirmAccepts(b, i, date);
      LimitIsSame(b, b.sales[i]);
      DispatchEffect(b.shelf, b.sales[i].lines, i);
      CostIsSame(b, i);
      SaleLinesSound(b.accounts, b.sales[i]);
      CostLinesSound(b.accounts, SaleCost(b, i));
    }
  }

  /** What the confirmed sale has on the cost accounts. */
  lemma ConfirmedCost(b: Books, i: nat, date: int)
    requires Inv(b) && ConfirmSale(b, i, date).Ok?
    ensures i < |b.sales|
    ensures var after := ConfirmSale(b, i, date).value;
      && DocNet(after.payments, after.entries, SaleDoc(i), COGS) == Cost(b, i)
      && DocNet(after.payments, after.entries, SaleDoc(i), INVENTORY) == -Cost(b, i)
  {
    assert SaleInv(b, i);
    var after := ConfirmSale(b, i, date).value;
    ConfirmEffect(b, i, date);
    CostIsSame(b, i);
    SaleCostNonNegative(b, i);
    forall code: nat
      ensures DocNet(after.payments, after.entries, SaleDoc(i), code)
              == DocNet(b.payments, b.entries, SaleDoc(i), code)
                 + Sum(SaleInvoiceLines(b.sales[i]), OnAccount(code)) + Sum(CogsLines(Cost(b, i)), OnAccount(code))
    {
      NetExtended(b, after, ConfirmEntries(b, i, date, Cost(b, i)), SaleDoc(i), code);
      ConfirmNet(b, i, date, Cost(b, i), code, after.payments);
    }
    SaleTemplates(b.sales[i], 0, Cost(b, i), COGS);
    SaleTemplates(b.sales[i], 0, Cost(b, i), INVENTORY);
  }

  /** Confirming succeeds exactly when the sale is confirmable, and does exactly this. */
  lemma ConfirmDoes(b: Books, i: nat, date: int)
    requires Inv(b)
    ensures ConfirmSale(b, i, date).Ok? <==> Confirmable(b, i)
    ensures ConfirmSale(b, i, date).Ok? ==> i < |b.sales| && IsConfirmed(b, ConfirmSale(b, i, date).value, i, date)
  {
    ConfirmCondition(b, i, date);
    if ConfirmSale(b, i, date).Ok? {
      assert SaleInv(b, i);
      ConfirmEffect(b, i, date);
      CostIsSame(b, i);
      DispatchEffect(b.shelf, b.sales[i].lines, i);
      ConfirmedCost(b, i, date);
      var s := b.sales[i];
      var e := [Auto(date, SaleInvoice(i), [Line(1200, s.total, 0), Line(4100, 0, s.total - s.taxTotal), Line(2200, 0, s.taxTotal)])];
      assert ConfirmEntries(b, i, date, Cost(b, i)) == e + CostEntry(date, SaleCogs(i), Cost(b, i), 5100, 1300);
      assert b.entries + (e + CostEntry(date, SaleCogs(i), Cost(b, i), 5100, 1300))
          == b.entries + e + CostEntry(date, SaleCogs(i), Cost(b, i), 5100, 1300);
    }
  }

  /* --------------------------------- payment -------------------------------- */

  predicate Payable(b: Books, i: nat, amount: int) {
    && amount > 0 && i < |b.sales|
    && (b.sales[i].status == Confirmed || b.sales[i].status == PartiallyPaid)
    && OnChart(b.accounts, 1100) && OnChart(b.accounts, 1200)
  }

  /** A payment row, the balance up by the amount, PAID once it reaches the total, and cash against receivable. */
  predicate IsPaid(b: Books, after: Books, i: nat, amount: int, date: int)
    requires i < |b.sales|
  {
    var s := b.sales[i];
    && OnlyTables(b, after) && after.shelf == b.shelf
    && after.payments == b.payments + [Payment(OnSale(i), amount)]
    && after.sales == b.sales[i := s.(amountPaid := s.amountPaid + amount,
                                      status := if s.amountPaid + amount >= s.total then Paid else PartiallyPaid)]
    && after.entries == b.entries
        + [Auto(date, SalePayment(|b.payments|), [Line(1100, amount, 0), Line(1200, 0, amount)])]
  }

  lemma PayDoes(b: Books, i: nat, amount: int, date: int)
    requires Inv(b)
    ensures PaySale(b, i, amount, date).Ok? <==> Payable(b, i, amount)
    ensures PaySale(b, i, amount, date).Ok? ==>
              i < |b.sales| && IsPaid(b, PaySale(b, i, amount, date).value, i, amount, date)
  {
    if i < |b.sales| && amount > 0 {
      var s := b.sales[i];
      var paid := s.amountPaid + amount;
      var b1 := b.(payments := b.payments + [Payment(OnSale(i), amount)],
                   sales := b.sales[i := s.(amountPaid := paid, status := PaidStatus(paid, s.total))]);
      NewPaymentUnbooked(b);
      PostFresh(b1, date, SalePayment(|b.payments|), SalePaymentLines(amount));
      PaymentLinesSound(b.accounts, amount);
    }
  }

  /* ----------------------------------- void --------------------------------- */

  predicate Voidable(b: Books, i: nat) {
    && i < |b.sales| && b.sales[i].status != Void
    && (IsReleased(b.sales[i].status) && Cost(b, i) > 0 ==> OnChart(b.accounts, 5100) && OnChart(b.accounts, 1300))
  }

  /** One entry for every payment of the sale, in order, that takes it off cash and puts it back on the receivable. */
  function PaymentsBack(payments: seq<Payment>, i: nat, date: int): seq<Entry> {
    if payments == [] then []
    else
      var p := |payments| - 1;
      PaymentsBack(payments[..p], i, date)
      + if payments[p].target == OnSale(i)
        then [Auto(date, SalePaymentReversal(p), [Line(1200, payments[p].amount, 0), Line(1100, 0, payments[p].amount)])]
        else []
  }

  /** The row becomes VOID; a released sale also gets its goods back and every entry it had reversed. */
  ghost predicate IsVoided(b: Books, after: Books, i: nat, date: int)
    requires i < |b.sales|
  {
    var s := b.sales[i];
    && OnlyTables(b, after) && after.payments == b.payments
    && after.sales == b.sales[i := s.(status := Void)]
    && (!IsReleased(s.status) ==> after.shelf == b.shelf && after.entries == b.entries)
    && (IsReleased(s.status) ==>
          && PutOn(b.shelf, after.shelf, s.lines, VoidMove, i)
          && after.entries == b.entries
              + [Auto(date, SaleVoid(i), [Line(1200, 0, s.total), Line(4100, s.total - s.taxTotal, 0), Line(2200, s.taxTotal, 0)])]
              + CostEntry(date, SaleCogsReversal(i), Cost(b, i), 1300, 5100)
              + PaymentsBack(b.payments, i, date)
          && DocNet(after.payments, after.entries, SaleDoc(i), 5100)
             == DocNet(b.payments, b.entries, SaleDoc(i), 5100) - Cost(b, i)
          && DocNet(after.payments, after.entries, SaleDoc(i), 1300)
             == DocNet(b.payments, b.entries, SaleDoc(i), 1300) + Cost(b, i))
  }

  lemma {:induction false} ReversalsAre(payments: seq<Payment>, i: nat, date: int, n: nat)
    requires n <= |payments|
    ensures ReversalEntries(payments, i, date, n) == PaymentsBack(payments[..n], i, date)
  {
    if n > 0 {
      ReversalsAre(payments, i, date, n - 1);
      assert payments[..n][..n - 1] == payments[..n - 1];
    }
  }

  /** The entries a void books are the ones spelled out. */
  lemma VoidEntriesAre(b: Books, i: nat, date: int, cost: int)
    requires i < |b.sales|
    ensures var s := b.sales[i];
      b.entries + VoidEntries(b, i, date, cost)
      == b.entries
         + [Auto(date, SaleVoid(i), [Line(1200, 0, s.total), Line(4100, s.total - s.taxTotal, 0), Line(2200, s.taxTotal, 0)])]
         + CostEntry(date, SaleCogsReversal(i), cost, 1300, 5100)
         + PaymentsBack(b.payments, i, date)
  {
    ReversalsAre(b.payments, i, date, |b.payments|);
    assert b.payments[..|b.payments|] == b.payments;
  }

  lemma VoidReleasedDoes(b: Books, i: nat, date: int)
    requires Inv(b) && i < |b.sales| && IsReleased(b.sales[i].status)
    ensures VoidSale(b, i, date).Ok? <==> Voidable(b, i)
    ensures VoidSale(b, i, date).Ok? ==> IsVoided(b, VoidSale(b, i, date).value, i, date)
  {
    assert SaleInv(b, i);
    SalePostable(b, i);
    VoidEffect(b, i, date);
    CostIsSame(b, i);
    SaleCostNonNegative(b, i);
    CostLinesSound(b.accounts, Cost(b, i));
    RestockEffect(b.shelf, b.sales[i].lines, VoidMove, i);
    VoidEntriesAre(b, i, date, Cost(b, i));
    VoidLedger(b, i, Restock(b.shelf, b.sales[i].lines, VoidMove, i).shelf, date, Cost(b, i));
  }

  /** In any books at all, a successful void makes the row VOID and touches no other invoice. */
  lemma VoidWrites(b: Books, i: nat, date: int)
    requires VoidSale(b, i, date).Ok?
    ensures i < |b.sales| && b.sales[i].status != Void
    ensures VoidSale(b, i, date).value.sales == b.sales[i := b.sales[i].(status := Void)]
  {
  }

  /** Voiding succeeds exactly when the sale is voidable, and does exactly this; a draft becomes VOID and nothing else. */
  lemma VoidDoes(b: Books, i: nat, date: int)
    requires Inv(b)
    ensures VoidSale(b, i, date).Ok? <==> Voidable(b, i)
    ensures VoidSale(b, i, date).Ok? ==> i < |b.sales| && IsVoided(b, VoidSale(b, i, date).value, i, date)
  {
    if i < |b.sales| && IsReleased(b.sales[i].status) {
      VoidReleasedDoes(b, i, date);
    }
  }
}
