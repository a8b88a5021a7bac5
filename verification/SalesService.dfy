/** Sales invoices, updated in place inside one transaction per call. */
module SalesService {
  import opened Common
  import opened Stock
  import opened Journal
  import opened Books
  import opened Tables
  import opened LedgerService
  import opened StockLoops
  import Drafts
  import Invariant
  import RunProof
  import SalesEffects

  /** Stores an unpaid, unposted invoice whose totals are the sums over its lines. */
  method CreateDraft(db: Database, party: nat, lines: seq<LineRequest>) returns (failure: Option<Error>)
    modifies db`sales
    ensures Committed(CreateSale(old(db.View()), party, lines), old(db.View()), failure, db.View())
    ensures party >= |db.parties| ==> failure == Some(NotFound)
    ensures party < |db.parties| && db.parties[party].kind == Supplier ==> failure == Some(BadRequest)
    ensures failure == None <==>
              party < |db.parties| && db.parties[party].kind != Supplier && Drafts.ItemsExist(db.items, lines)
    ensures failure == None ==>
              && |db.sales| == |old(db.sales)| + 1 && old(db.sales) <= db.sales
              && Drafts.FreshInvoice(db.sales[|old(db.sales)|], party, lines)
    ensures Invariant.Inv(old(db.View())) ==> Invariant.Inv(db.View())
  {
    Drafts.DraftIsFresh(party, lines);
    if Invariant.Inv(db.View()) && CreateSale(db.View(), party, lines).Ok? {
      RunProof.CreateSaleKeeps(db.View(), DraftInvoice(party, lines));
    }
    if party >= |db.parties| {
      return Some(NotFound);
    }
    if db.parties[party].kind == Supplier {
      return Some(BadRequest);
    }
    if !ItemsKnown(db.View(), lines) {
      return Some(NotFound);
    }
    db.sales := db.sales + [DraftInvoice(party, lines)];
    failure := None;
  }

  /** Credit check, stock out, DRAFT to CONFIRMED, revenue and cost entries: all of it or none. */
  method ConfirmInTransaction(db: Database, i: nat, date: int) returns (failure: Option<Error>)
    modifies db
    ensures Committed(ConfirmSale(old(db.View()), i, date), old(db.View()), failure, db.View())
  {
    var saved := db.View();
    if i >= |db.sales| {
      return Some(NotFound);
    }
    var invoice := db.sales[i];
    if invoice.status != DraftDoc {
      return Some(Conflict);
    }
    if OverLimit(saved, invoice) {
      return Some(Conflict);
    }
    var cost;
    failure, cost := TakeOut(db, invoice.lines, i);
    if failure.Some? {
      db.Rollback(saved);
      return;
    }
    db.sales := db.sales[i := invoice.(status := Confirmed)];
    failure := PostAutomatic(db, date, SaleInvoice(i), SaleInvoiceLines(invoice));
    if failure.Some? {
      db.Rollback(saved);
      return;
    }
    failure := PostCostLines(db, date, SaleCogs(i), cost, CogsLines(cost));
    if failure.Some? {
      db.Rollback(saved);
    }
  }

  /** Confirms exactly the drafts that can be, takes the goods, and books receivable, revenue, tax and cost. */
  method ConfirmInvoice(db: Database, i: nat, date: int) returns (failure: Option<Error>)
    modifies db
    ensures Committed(ConfirmSale(old(db.View()), i, date), old(db.View()), failure, db.View())
    ensures i >= |old(db.sales)| ==> failure == Some(NotFound)
    ensures i < |old(db.sales)| && old(db.sales)[i].status != DraftDoc ==> failure == Some(Conflict)
    ensures Invariant.Inv(old(db.View())) ==> (failure == None <==> SalesEffects.Confirmable(old(db.View()), i))
    ensures Invariant.Inv(old(db.View())) && failure == None ==>
              i < |old(db.sales)| && SalesEffects.IsConfirmed(old(db.View()), db.View(), i, date)
  {
    ghost var before := db.View();
    failure := ConfirmInTransaction(db, i, date);
    if Invariant.Inv(before) {
      SalesEffects.ConfirmDoes(before, i, date);
    }
  }

  lemma {:induction false} UnwindFailsEarly(b: Books, i: nat, date: int, k: nat, n: nat)
    requires k <= n <= |b.payments| && UnwindSalePayments(b, i, date, k).Err?
    ensures UnwindSalePayments(b, i, date, n) == UnwindSalePayments(b, i, date, k)
  {
    if k < n {
      UnwindFailsEarly(b, i, date, k, n - 1);
    }
  }

  /** Reverses the ledger entry of every payment of the sale. */
  method UnwindPayments(db: Database, i: nat, date: int) returns (failure: Option<Error>)
    modifies db`entries
    ensures match UnwindSalePayments(old(db.View()), i, date, |old(db.payments)|)
            case Ok(b) => failure == None && db.View() == b
            case Err(error) => failure == Some(error)
  {
    ghost var before := db.View();
    for p := 0 to |db.payments|
      invariant UnwindSalePayments(before, i, date, p) == Ok(db.View())
    {
      if db.payments[p].target == OnSale(i) {
        failure := PostAutomatic(db, date, SalePaymentReversal(p), SalePaymentReversalLines(db.payments[p].amount));
        if failure.Some? {
          UnwindFailsEarly(before, i, date, p + 1, |before.payments|);
          return;
        }
      }
    }
    failure := None;
  }

  method VoidInTransaction(db: Database, i: nat, date: int) returns (failure: Option<Error>)
    modifies db
    ensures Committed(VoidSale(old(db.View()), i, date), old(db.View()), failure, db.View())
  {
    var saved := db.View();
    if i >= |db.sales| {
      return Some(NotFound);
    }
    var invoice := db.sales[i];
    if invoice.status == Void {
      return Some(Conflict);
    }
    var wasReleased := Released(invoice.status);
    var cost := 0;
    if wasReleased {
      cost := PutBack(db, invoice.lines, VoidMove, i);
    }
    db.sales := db.sales[i := invoice.(status := Void)];
    failure := None;
    if wasReleased {
      failure := PostAutomatic(db, date, SaleVoid(i), SaleVoidLines(invoice));
      if failure.Some? {
        db.Rollback(saved);
        return;
      }
      failure := PostCostLines(db, date, SaleCogsReversal(i), cost, CogsReversalLines(cost));
      if failure.Some? {
        db.Rollback(saved);
        return;
      }
      failure := UnwindPayments(db, i, date);
      if failure.Some? {
        db.Rollback(saved);
      }
    }
  }

  /** Makes the invoice VOID; if it was released, the goods come back and every entry it had is reversed. */
  method VoidInvoice(db: Database, i: nat, date: int) returns (failure: Option<Error>)
    modifies db
    ensures Committed(VoidSale(old(db.View()), i, date), old(db.View()), failure, db.View())
    ensures i >= |old(db.sales)| ==> failure == Some(NotFound)
    ensures i < |old(db.sales)| && old(db.sales)[i].status == Void ==> failure == Some(Conflict)
    ensures failure == None ==>
              i < |old(db.sales)| && db.sales == old(db.sales)[i := old(db.sales)[i].(status := Void)]
    ensures Invariant.Inv(old(db.View())) ==> (failure == None <==> SalesEffects.Voidable(old(db.View()), i))
    ensures Invariant.Inv(old(db.View())) && failure == None ==>
              i < |old(db.sales)| && SalesEffects.IsVoided(old(db.View()), db.View(), i, date)
  {
    ghost var before := db.View();
    failure := VoidInTransaction(db, i, date);
    if failure.None? {
      SalesEffects.VoidWrites(before, i, date);
    }
    if Invariant.Inv(before) {
      SalesEffects.VoidDoes(before, i, date);
    }
  }

  method PayInTransaction(db: Database, i: nat, amount: int, date: int) returns (failure: Option<Error>)
    modifies db
    ensures Committed(PaySale(old(db.View()), i, amount, date), old(db.View()), failure, db.View())
  {
    if amount <= 0 {
      return Some(BadRequest);
    }
    var saved := db.View();
    if i >= |db.sales| {
      return Some(NotFound);
    }
    var invoice := db.sales[i];
    if invoice.status != Confirmed && invoice.status != PartiallyPaid {
      return Some(Conflict);
    }
    var newPaid := invoice.amountPaid + amount;
    var newStatus := if newPaid >= invoice.total then Paid else PartiallyPaid;
    var payment := |db.payments|;
    db.payments := db.payments + [Payment(OnSale(i), amount)];
    db.sales := db.sales[i := invoice.(amountPaid := newPaid, status := newStatus)];
    assert db.View() == saved.(payments := db.payments, sales := db.sales);
    failure := PostAutomatic(db, date, SalePayment(payment), SalePaymentLines(amount));
    if failure.Some? {
      db.Rollback(saved);
    }
  }

  /** Adds the payment, raises the balance, and books cash against the receivable. */
  method RecordPayment(db: Database, i: nat, amount: int, date: int) returns (failure: Option<Error>)
    modifies db
    ensures Committed(PaySale(old(db.View()), i, amount, date), old(db.View()), failure, db.View())
    ensures amount <= 0 ==> failure == Some(BadRequest)
    ensures amount > 0 && i >= |old(db.sales)| ==> failure == Some(NotFound)
    ensures amount > 0 && i < |old(db.sales)| && old(db.sales)[i].status != Confirmed && old(db.sales)[i].status != PartiallyPaid ==> failure == Some(Conflict)
    ensures Invariant.Inv(old(db.View())) ==> (failure == None <==> SalesEffects.Payable(old(db.View()), i, amount))
    ensures Invariant.Inv(old(db.View())) && failure == None ==>
              i < |old(db.sales)| && SalesEffects.IsPaid(old(db.View()), db.View(), i, amount, date)
  {
    ghost var before := db.View();
    failure := PayInTransaction(db, i, amount, date);
    if Invariant.Inv(before) {
      SalesEffects.PayDoes(before, i, amount, date);
    }
  }
}
