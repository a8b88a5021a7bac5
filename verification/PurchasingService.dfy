/** Purchase invoices, updated in place inside one transaction per call. */
module PurchasingService {
  import opened Common
  import opened Stock
  import opened Journal
  import opened Books
  import opened Tables
  import opened LedgerService
  import opened StockLoops
  import Drafts
  import Invariant
  import RunProof
  import PurchaseEffects

  /** Stores an unpaid, unposted invoice whose totals are the sums over its lines. */
  method CreateDraft(db: Database, party: nat, lines: seq<LineRequest>) returns (failure: Option<Error>)
    modifies db`purchases
    ensures Committed(CreatePurchase(old(db.View()), party, lines), old(db.View()), failure, db.View())
    ensures party >= |db.parties| ==> failure == Some(NotFound)
    ensures party < |db.parties| && db.parties[party].kind == Customer ==> failure == Some(BadRequest)
    ensures failure == None <==>
              party < |db.parties| && db.parties[party].kind != Customer && Drafts.ItemsExist(db.items, lines)
    ensures failure == None ==>
              && |db.purchases| == |old(db.purchases)| + 1 && old(db.purchases) <= db.purchases
              && Drafts.FreshInvoice(db.purchases[|old(db.purchases)|], party, lines)
    ensures Invariant.Inv(old(db.View())) ==> Invariant.Inv(db.View())
  {
    Drafts.DraftIsFresh(party, lines);
    if Invariant.Inv(db.View()) && CreatePurchase(db.View(), party, lines).Ok? {
      RunProof.CreatePurchaseKeeps(db.View(), DraftInvoice(party, lines));
    }
    if party >= |db.parties| {
      return Some(NotFound);
    }
    if db.parties[party].kind == Customer {
      return Some(BadRequest);
    }
    if !ItemsKnown(db.View(), lines) {
      return Some(NotFound);
    }
    db.purchases := db.purchases + [DraftInvoice(party, lines)];
    failure := None;
  }

  method ConfirmInTransaction(db: Database, i: nat, date: int) returns (failure: Option<Error>)
    modifies db
    ensures Committed(ConfirmPurchase(old(db.View()), i, date), old(db.View()), failure, db.View())
  {
    var saved := db.View();
    if i >= |db.purchases| {
      return Some(NotFound);
    }
    var purchase := db.purchases[i];
    if purchase.status != DraftDoc {
      return Some(Conflict);
    }
    var cost := PutBack(db, purchase.lines, PurchaseIn, i);
    db.purchases := db.purchases[i := purchase.(status := Confirmed)];
    failure := PostAutomatic(db, date, PurchaseInvoice(i), PurchaseInvoiceLines(purchase));
    if failure.Some? {
      db.Rollback(saved);
    }
  }

  /** Confirms exactly the drafts that can be, shelves the goods, and books inventory, input tax and payable. */
  method ConfirmInvoice(db: Database, i: nat, date: int) returns (failure: Option<Error>)
    modifies db
    ensures Committed(ConfirmPurchase(old(db.View()), i, date), old(db.View()), failure, db.View())
    ensures i >= |old(db.purchases)| ==> failure == Some(NotFound)
    ensures i < |old(db.purchases)| && old(db.purchases)[i].status != DraftDoc ==> failure == Some(Conflict)
    ensures Invariant.Inv(old(db.View())) ==> (failure == None <==> PurchaseEffects.Confirmable(old(db.View()), i))
    ensures Invariant.Inv(old(db.View())) && failure == None ==>
              i < |old(db.purchases)| && PurchaseEffects.IsConfirmed(old(db.View()), db.View(), i, date)
  {
    ghost var before := db.View();
    failure := ConfirmInTransaction(db, i, date);
    if Invariant.Inv(before) {
      PurchaseEffects.ConfirmDoes(before, i, date);
    }
  }

  lemma {:induction false} UnwindFailsEarly(b: Books, i: nat, date: int, k: nat, n: nat)
    requires k <= n <= |b.payments| && UnwindPurchasePayments(b, i, date, k).Err?
    ensures UnwindPurchasePayments(b, i, date, n) == UnwindPurchasePayments(b, i, date, k)
  {
    if k < n {
      UnwindFailsEarly(b, i, date, k, n - 1);
    }
  }

  /** Reverses the ledger entry of every payment of the purchase. */
  method UnwindPayments(db: Database, i: nat, date: int) returns (failure: Option<Error>)
    modifies db`entries
    ensures match UnwindPurchasePayments(old(db.View()), i, date, |old(db.payments)|)
            case Ok(b) => failure == None && db.View() == b
            case Err(error) => failure == Some(error)
  {
    ghost var before := db.View();
    for p := 0 to |db.payments|
      invariant UnwindPurchasePayments(before, i, date, p) == Ok(db.View())
    {
      if db.payments[p].target == OnPurchase(i) {
        failure := PostAutomatic(db, date, PurchasePaymentReversal(p), PurchasePaymentReversalLines(db.payments[p].amount));
        if failure.Some? {
          UnwindFailsEarly(before, i, date, p + 1, |before.payments|);
          return;
        }
      }
    }
    failure := None;
  }

  method VoidInTransaction(db: Database, i: nat, date: int) returns (failure: Option<Error>)
    modifies db
    ensures Committed(VoidPurchase(old(db.View()), i, date), old(db.View()), failure, db.View())
  {
    var saved := db.View();
    if i >= |db.purchases| {
      return Some(NotFound);
    }
    var purchase := db.purchases[i];
    if purchase.status == Void {
      return Some(Conflict);
    }
    var wasReleased := Released(purchase.status);
    if wasReleased {
      TakeBack(db, purchase.lines, i);
    }
    db.purchases := db.purchases[i := purchase.(status := Void)];
    failure := None;
    if wasReleased {
      failure := PostAutomatic(db, date, PurchaseVoid(i), PurchaseVoidLines(purchase));
      if failure.Some? {
        db.Rollback(saved);
        return;
      }
      failure := UnwindPayments(db, i, date);
      if failure.Some? {
        db.Rollback(saved);
      }
    }
  }

  /** Makes the invoice VOID; if it was released, what is left of the goods goes back and every entry it had is reversed. */
  method VoidInvoice(db: Database, i: nat, date: int) returns (failure: Option<Error>)
    modifies db
    ensures Committed(VoidPurchase(old(db.View()), i, date), old(db.View()), failure, db.View())
    ensures i >= |old(db.purchases)| ==> failure == Some(NotFound)
    ensures i < |old(db.purchases)| && old(db.purchases)[i].status == Void ==> failure == Some(Conflict)
    ensures failure == None ==>
              i < |old(db.purchases)| && db.purchases == old(db.purchases)[i := old(db.purchases)[i].(status := Void)]
    ensures Invariant.Inv(old(db.View())) ==> (failure == None <==> (i < |old(db.purchases)| && old(db.purchases)[i].status != Void))
    ensures Invariant.Inv(old(db.View())) && failure == None ==>
              i < |old(db.purchases)| && PurchaseEffects.IsVoided(old(db.View()), db.View(), i, date)
  {
    ghost var before := db.View();
    failure := VoidInTransaction(db, i, date);
    if failure.None? {
      PurchaseEffects.VoidWrites(before, i, date);
    }
    if Invariant.Inv(before) {
      PurchaseEffects.VoidDoes(before, i, date);
    }
  }

  method PayInTransaction(db: Database, i: nat, amount: int, date: int) returns (failure: Option<Error>)
    modifies db
    ensures Committed(PayPurchase(old(db.View()), i, amount, date), old(db.View()), failure, db.View())
  {
    if amount <= 0 {
      return Some(BadRequest);
    }
    var saved := db.View();
    if i >= |db.purchases| {
      return Some(NotFound);
    }
    var purchase := db.purchases[i];
    if purchase.status != Confirmed && purchase.status != PartiallyPaid {
      return Some(Conflict);
    }
    var newPaid := purchase.amountPaid + amount;
    var newStatus := if newPaid >= purchase.total then Paid else PartiallyPaid;
    var payment := |db.payments|;
    db.payments := db.payments + [Payment(OnPurchase(i), amount)];
    db.purchases := db.purchases[i := purchase.(amountPaid := newPaid, status := newStatus)];
    assert db.View() == saved.(payments := db.payments, purchases := db.purchases);
    failure := PostAutomatic(db, date, PurchasePayment(payment), PurchasePaymentLines(amount));
    if failure.Some? {
      db.Rollback(saved);
    }
  }

  /** Adds the payment, raises the balance, and books the payable against cash. */
  method RecordPayment(db: Database, i: nat, amount: int, date: int) returns (failure: Option<Error>)
    modifies db
    ensures Committed(PayPurchase(old(db.View()), i, amount, date), old(db.View()), failure, db.View())
    ensures amount <= 0 ==> failure == Some(BadRequest)
    ensures amount > 0 && i >= |old(db.purchases)| ==> failure == Some(NotFound)
    ensures amount > 0 && i < |old(db.purchases)| && old(db.purchases)[i].status != Confirmed && old(db.purchases)[i].status != PartiallyPaid ==> failure == Some(Conflict)
    ensures Invariant.Inv(old(db.View())) ==> (failure == None <==> PurchaseEffects.Payable(old(db.View()), i, amount))
    ensures Invariant.Inv(old(db.View())) && failure == None ==>
              i < |old(db.purchases)| && PurchaseEffects.IsPaid(old(db.View()), db.View(), i, amount, date)
  {
    ghost var before := db.View();
    failure := PayInTransaction(db, i, amount, date);
    if Invariant.Inv(before) {
      PurchaseEffects.PayDoes(before, i, amount, date);
    }
  }
}
