/**
 What a void undoes. Between confirming and voiding a document anything else may
 happen: other documents, payments, credit notes, manual entries, reversals.
 */
module RoundTrip {
  import opened Common
  import opened Sums
  import opened Stock
  import opened Journal
  import opened Books
  import opened Invariant
  import SalesProof
  import PurchaseProof
  import opened NoteProof
  import opened RunProof

  /** The document a command books entries and payments for. */
  function BooksFor(c: Command): Option<Doc> {
    match c
    case DoConfirmSale(i, _) => Some(SaleDoc(i))
    case DoPaySale(i, _, _) => Some(SaleDoc(i))
    case DoVoidSale(i, _) => Some(SaleDoc(i))
    case DoConfirmPurchase(i, _) => Some(PurchaseDoc(i))
    case DoPayPurchase(i, _, _) => Some(PurchaseDoc(i))
    case DoVoidPurchase(i, _) => Some(PurchaseDoc(i))
    case DoIssueNote(k) => Some(NoteDoc(k))
    case _ => None
  }

  lemma AppendedFor(b: Books, after: Books, es: seq<Entry>, d: Doc, other: Doc)
    requires after.entries == b.entries + es && AllOwned(after, es, d) && b.payments <= after.payments && other != d
    requires forall p :: |b.payments| <= p < |after.payments| ==> PaymentOwner(after.payments, p) == Some(d)
    ensures Undisturbed(b, after, other)
  {
    forall k | |b.entries| <= k < |after.entries|
      ensures Owner(after.payments, after.entries[k].source) != Some(other)
    {
      assert after.entries[k] == es[k - |b.entries|];
    }
  }

  lemma ConfirmIsolated(b: Books, i: nat, date: int, other: Doc)
    requires Inv(b) && ConfirmSale(b, i, date).Ok? && other != SaleDoc(i)
    ensures Undisturbed(b, ConfirmSale(b, i, date).value, other)
  {
    assert SaleInv(b, i);
    SalesProof.ConfirmEffect(b, i, date);
    AppendedFor(b, ConfirmSale(b, i, date).value, SalesProof.ConfirmEntries(b, i, date, SalesProof.SaleCost(b, i)), SaleDoc(i), other);
  }

  lemma PayIsolated(b: Books, i: nat, amount: int, date: int, other: Doc)
    requires Inv(b) && PaySale(b, i, amount, date).Ok? && other != SaleDoc(i)
    ensures Undisturbed(b, PaySale(b, i, amount, date).value, other)
  {
    SalesProof.PayEffect(b, i, amount, date);
    SalesProof.PayOwned(b, i, amount, date);
    AppendedFor(b, SalesProof.AfterPay(b, i, amount, date), [SalesProof.PayEntry(b, amount, date)], SaleDoc(i), other);
  }

  lemma VoidIsolated(b: Books, i: nat, date: int, other: Doc)
    requires Inv(b) && VoidSale(b, i, date).Ok? && other != SaleDoc(i)
    ensures Undisturbed(b, VoidSale(b, i, date).value, other)
  {
    assert SaleInv(b, i);
    if Released(b.sales[i].status) {
      SalesProof.SalePostable(b, i);
      SalesProof.VoidEffect(b, i, date);
      var after := VoidSale(b, i, date).value;
      SalesProof.VoidOwned(b, after, i, date, SalesProof.SaleCost(b, i));
      AppendedFor(b, after, SalesProof.VoidEntries(b, i, date, SalesProof.SaleCost(b, i)), SaleDoc(i), other);
    }
  }

  lemma PurchaseConfirmIsolated(b: Books, i: nat, date: int, other: Doc)
    requires Inv(b) && ConfirmPurchase(b, i, date).Ok? && other != PurchaseDoc(i)
    ensures Undisturbed(b, ConfirmPurchase(b, i, date).value, other)
  {
    assert PurchaseInv(b, i);
    PurchaseProof.ConfirmEffect(b, i, date);
    AppendedFor(b, ConfirmPurchase(b, i, date).value, [PurchaseProof.ConfirmEntry(b, i, date)], PurchaseDoc(i), other);
  }

  lemma PurchasePayIsolated(b: Books, i: nat, amount: int, date: int, other: Doc)
    requires Inv(b) && PayPurchase(b, i, amount, date).Ok? && other != PurchaseDoc(i)
    ensures Undisturbed(b, PayPurchase(b, i, amount, date).value, other)
  {
    PurchaseProof.PayEffect(b, i, amount, date);
    PurchaseProof.PayOwned(b, i, amount, date);
    AppendedFor(b, PurchaseProof.AfterPay(b, i, amount, date), [PurchaseProof.PayEntry(b, amount, date)], PurchaseDoc(i), other);
  }

  lemma PurchaseVoidIsolated(b: Books, i: nat, date: int, other: Doc)
    requires Inv(b) && VoidPurchase(b, i, date).Ok? && other != PurchaseDoc(i)
    ensures Undisturbed(b, VoidPurchase(b, i, date).value, other)
  {
    assert PurchaseInv(b, i);
    if Released(b.purchases[i].status) {
      PurchaseProof.PurchasePostable(b, i);
      PurchaseProof.VoidEffect(b, i, date);
      var after := VoidPurchase(b, i, date).value;
      PurchaseProof.VoidOwned(b, after, i, date);
      AppendedFor(b, after, PurchaseProof.VoidEntries(b, i, date), PurchaseDoc(i), other);
    }
  }

  lemma NoteIsolated(b: Books, k: nat, other: Doc)
    requires Inv(b) && IssueNote(b, k).Ok? && other != NoteDoc(k)
    ensures Undisturbed(b, IssueNote(b, k).value, other)
  {
    assert NoteInv(b, k);
    IssueEffect(b, k);
    AppendedFor(b, IssueNote(b, k).value, [NoteEntry(b, k)], NoteDoc(k), other);
  }

  lemma JournalCommandIsolated(b: Books, c: Command, other: Doc)
    requires Inv(b) && Execute(b, c).Ok? && (c.DoCreateEntry? || c.DoApproveEntry? || c.DoReverseEntry?)
    ensures Undisturbed(b, Execute(b, c).value, other)
  {
    match c
    case DoCreateEntry(date, posting) => PostAccepts(b.accounts, b.entries, Entry(date, Draft, Manual, None, posting));
    case DoApproveEntry(k) => assert ReversalSound(b.entries, k);
    case DoReverseEntry(k, date) => ReversalIsolated(b, k, date, other);
  }

  lemma ReversalIsolated(b: Books, k: nat, date: int, other: Doc)
    requires Inv(b) && ReverseEntry(b, k, date).Ok?
    ensures Undisturbed(b, ReverseEntry(b, k, date).value, other)
  {
    ReverseKeeps(b.accounts, b.entries, k, date);
    assert ReversalSound(b.entries, k);
  }

  lemma SaleCommandIsolated(b: Books, c: Command, other: Doc)
    requires Inv(b) && Execute(b, c).Ok? && Some(other) != BooksFor(c)
    requires c.DoConfirmSale? || c.DoPaySale? || c.DoVoidSale?
    ensures Undisturbed(b, Execute(b, c).value, other)
  {
    match c
    case DoConfirmSale(i, date) => ConfirmIsolated(b, i, date, other);
    case DoPaySale(i, amount, date) => PayIsolated(b, i, amount, date, other);
    case DoVoidSale(i, date) => VoidIsolated(b, i, date, other);
  }

  lemma PurchaseCommandIsolated(b: Books, c: Command, other: Doc)
    requires Inv(b) && Execute(b, c).Ok? && Some(other) != BooksFor(c)
    requires c.DoConfirmPurchase? || c.DoPayPurchase? || c.DoVoidPurchase?
    ensures Undisturbed(b, Execute(b, c).value, other)
  {
    match c
    case DoConfirmPurchase(i, date) => PurchaseConfirmIsolated(b, i, date, other);
    case DoPayPurchase(i, amount, date) => PurchasePayIsolated(b, i, amount, date, other);
    case DoVoidPurchase(i, date) => PurchaseVoidIsolated(b, i, date, other);
  }

  predicate BooksNothing(c: Command) {
    BooksFor(c).None? && !c.DoCreateEntry? && !c.DoApproveEntry? && !c.DoReverseEntry?
  }

  /** Commands that book nothing leave journal and payments as they are. */
  lemma NothingBooked(b: Books, c: Command)
    requires BooksNothing(c)
    ensures Step(b, c).entries == b.entries && Step(b, c).payments == b.payments
  {
  }

  /** No command disturbs the ledger of any document but its own. */
  lemma StepIsolated(b: Books, c: Command, other: Doc)
    requires Inv(b) && Some(other) != BooksFor(c)
    ensures Undisturbed(b, Step(b, c), other)
  {
    if BooksNothing(c) {
      NothingBooked(b, c);
    } else if Execute(b, c).Ok? {
      if c.DoConfirmSale? || c.DoPaySale? || c.DoVoidSale? {
        SaleCommandIsolated(b, c, other);
      } else if c.DoConfirmPurchase? || c.DoPayPurchase? || c.DoVoidPurchase? {
        PurchaseCommandIsolated(b, c, other);
      } else if c.DoIssueNote? {
        NoteIsolated(b, c.note, other);
      } else {
        JournalCommandIsolated(b, c, other);
      }
    }
  }

  function CostBooked(b: Books, i: nat): int {
    DocNet(b.payments, b.entries, SaleDoc(i), COGS)
  }

  /** Until it is voided, a released sale stays released with the same lines and the same booked cost. */
  lemma StepKeepsCost(b: Books, c: Command, i: nat)
    requires Inv(b) && Disciplined(b, c)
    requires i < |b.sales| && Released(b.sales[i].status)
    requires !(c.DoVoidSale? && c.doc == i)
    ensures i < |Step(b, c).sales| && Released(Step(b, c).sales[i].status) && Step(b, c).sales[i].lines == b.sales[i].lines
    ensures CostBooked(Step(b, c), i) == CostBooked(b, i)
  {
    var after := Step(b, c);
    if c.DoPaySale? && c.doc == i && Execute(b, c).Ok? {
      SalesProof.PayEffect(b, i, c.amount, c.date);
      PaymentHasNoCost(b, i, c.amount, c.date);
    } else {
      assert Execute(b, c).Ok? ==> Some(SaleDoc(i)) != BooksFor(c);
      if Execute(b, c).Ok? {
        StepIsolated(b, c, SaleDoc(i));
        NetStable(b, after, SaleDoc(i), COGS);
      }
      SaleRowAfter(b, c, i);
    }
  }

  lemma PaymentHasNoCost(b: Books, i: nat, amount: int, date: int)
    requires SourcesKnown(b) && i < |b.sales|
    ensures CostBooked(SalesProof.AfterPay(b, i, amount, date), i) == CostBooked(b, i)
  {
    var e := SalesProof.PayEntry(b, amount, date);
    var after := SalesProof.AfterPay(b, i, amount, date);
    NetExtended(b, after, [e], SaleDoc(i), COGS);
    SumOfOne(e, Effect(after.payments, SaleDoc(i), COGS));
    SalesProof.SaleTemplates(b.sales[i], amount, 0, COGS);
  }

  predicate TouchesSales(c: Command) {
    c.DoCreateSale? || c.DoConfirmSale? || c.DoPaySale? || c.DoVoidSale? || c.DoIssueNote?
  }

  predicate PurchasePosting(c: Command) {
    c.DoConfirmPurchase? || c.DoPayPurchase? || c.DoVoidPurchase?
  }

  /** Commands outside sales and credit notes leave the sales table alone. */
  lemma SalesUntouched(b: Books, c: Command)
    requires !TouchesSales(c)
    ensures Step(b, c).sales == b.sales
  {
    if PurchasePosting(c) {
      PurchasingLeavesSales(b, c);
    } else {
      OthersLeaveSales(b, c);
    }
  }

  lemma PurchasingLeavesSales(b: Books, c: Command)
    requires PurchasePosting(c)
    ensures Step(b, c).sales == b.sales
  {
  }

  lemma OthersLeaveSales(b: Books, c: Command)
    requires !TouchesSales(c) && !PurchasePosting(c)
    ensures Step(b, c).sales == b.sales
  {
  }

  /** Sale i is still released, with the same lines. */
  predicate StillReleased(b: Books, after: Books, i: nat)
    requires i < |b.sales|
  {
    i < |after.sales| && Released(after.sales[i].status) && after.sales[i].lines == b.sales[i].lines
  }

  lemma PayLeavesReleased(b: Books, c: Command, i: nat)
    requires i < |b.sales| && Released(b.sales[i].status) && (c.DoPaySale? || c.DoConfirmSale? || c.DoCreateSale?)
    ensures StillReleased(b, Step(b, c), i)
  {
  }

  lemma IssueLeavesReleased(b: Books, k: nat, i: nat)
    requires i < |b.sales| && Released(b.sales[i].status)
    ensures StillReleased(b, Step(b, DoIssueNote(k)), i)
  {
  }

  lemma SaleRowAfter(b: Books, c: Command, i: nat)
    requires i < |b.sales| && Released(b.sales[i].status)
    requires !(c.DoVoidSale? && c.doc == i)
    ensures StillReleased(b, Step(b, c), i)
  {
    if c.DoVoidSale? {
      if VoidSale(b, c.doc, c.date).Ok? {
        VoidLeavesOthers(b, c.doc, c.date, i);
      }
    } else if c.DoIssueNote? {
      IssueLeavesReleased(b, c.note, i);
    } else if TouchesSales(c) {
      PayLeavesReleased(b, c, i);
    } else {
      SalesUntouched(b, c);
    }
  }

  lemma VoidLeavesOthers(b: Books, j: nat, date: int, i: nat)
    requires i < |b.sales| && i != j && VoidSale(b, j, date).Ok?
    ensures i < |VoidSale(b, j, date).value.sales| && VoidSale(b, j, date).value.sales[i] == b.sales[i]
  {
  }

  predicate NeverVoided(cs: seq<Command>, i: nat) {
    forall k :: 0 <= k < |cs| ==> !(cs[k].DoVoidSale? && cs[k].doc == i)
  }

  lemma {:induction false} RunKeepsCost(b: Books, cs: seq<Command>, i: nat)
    requires Inv(b) && DisciplinedRun(b, cs) && NeverVoided(cs, i)
    requires i < |b.sales| && Released(b.sales[i].status)
    ensures Inv(Run(b, cs)) && i < |Run(b, cs).sales| && Released(Run(b, cs).sales[i].status)
    ensures Run(b, cs).sales[i].lines == b.sales[i].lines
    ensures CostBooked(Run(b, cs), i) == CostBooked(b, i)
  {
    if cs != [] {
      var n := |cs| - 1;
      RunKeepsCost(b, cs[..n], i);
      StepKeeps(Run(b, cs[..n]), cs[n]);
      StepKeepsCost(Run(b, cs[..n]), cs[n], i);
    }
  }

  /**
   Confirm a sale, let anything happen (any payments included), void it: the sale
   then nets to zero on every account outside the cost accounts, and there too
   exactly when its lines cost the same at both times.
   */
  lemma SaleVoidUndoes(b: Books, i: nat, date: int, cs: seq<Command>, voidDate: int)
    requires Inv(b) && ConfirmSale(b, i, date).Ok?
    requires DisciplinedRun(ConfirmSale(b, i, date).value, cs) && NeverVoided(cs, i)
    requires VoidSale(Run(ConfirmSale(b, i, date).value, cs), i, voidDate).Ok?
    ensures i < |b.sales| && i < |Run(ConfirmSale(b, i, date).value, cs).sales|
    ensures
      var before := Run(ConfirmSale(b, i, date).value, cs);
      var after := VoidSale(before, i, voidDate).value;
      && (forall code: nat :: !CostAccount(code) ==> DocNet(after.payments, after.entries, SaleDoc(i), code) == 0)
      && ((forall code: nat :: DocNet(after.payments, after.entries, SaleDoc(i), code) == 0)
          <==> SalesProof.SaleCost(before, i) == SalesProof.SaleCost(b, i))
  {
    var confirmed := ConfirmSale(b, i, date).value;
    ConfirmBooksCost(b, i, date);
    RunKeepsCost(confirmed, cs, i);
    var before := Run(confirmed, cs);
    VoidNetsOut(before, i, voidDate);
    var after := VoidSale(before, i, voidDate).value;
    if forall code: nat :: DocNet(after.payments, after.entries, SaleDoc(i), code) == 0 {
      assert DocNet(after.payments, after.entries, SaleDoc(i), COGS) == 0;
    }
  }

  lemma ConfirmBooksCost(b: Books, i: nat, date: int)
    requires Inv(b) && ConfirmSale(b, i, date).Ok?
    ensures i < |b.sales| == |ConfirmSale(b, i, date).value.sales|
    ensures Inv(ConfirmSale(b, i, date).value) && ConfirmSale(b, i, date).value.sales[i].status == Confirmed
    ensures CostBooked(ConfirmSale(b, i, date).value, i) == SalesProof.SaleCost(b, i)
  {
    assert SaleInv(b, i);
    SalesProof.ConfirmEffect(b, i, date);
    SalesProof.SaleCostNonNegative(b, i);
    SalesProof.ConfirmLedger(b, i, Dispatch(b.shelf, b.sales[i].lines, i).value.shelf, date, SalesProof.SaleCost(b, i));
    SalesProof.ConfirmSaleKeeps(b, i, date);
  }

  lemma VoidNetsOut(b: Books, i: nat, date: int)
    requires Inv(b) && i < |b.sales| && Released(b.sales[i].status) && VoidSale(b, i, date).Ok?
    ensures var after := VoidSale(b, i, date).value;
      && (forall code: nat :: !CostAccount(code) ==> DocNet(after.payments, after.entries, SaleDoc(i), code) == 0)
      && DocNet(after.payments, after.entries, SaleDoc(i), COGS) == CostBooked(b, i) - SalesProof.SaleCost(b, i)
      && DocNet(after.payments, after.entries, SaleDoc(i), INVENTORY)
         == -DocNet(after.payments, after.entries, SaleDoc(i), COGS)
  {
    assert SaleInv(b, i);
    SalesProof.SalePostable(b, i);
    SalesProof.VoidEffect(b, i, date);
    SalesProof.SaleCostNonNegative(b, i);
    SalesProof.VoidLedger(b, i, Restock(b.shelf, b.sales[i].lines, VoidMove, i).shelf, date, SalesProof.SaleCost(b, i));
  }

  /** Unchanged item cards are enough for the cost to come back in full. */
  lemma SameCardsSameCost(b: Books, later: Books, i: nat)
    requires i < |b.sales| && i < |later.sales| && later.sales[i].lines == b.sales[i].lines
    requires SameCards(b.shelf.items, later.shelf.items)
    ensures SalesProof.SaleCost(later, i) == SalesProof.SaleCost(b, i)
  {
    CardsDecide(b.shelf.items, later.shelf.items, b.sales[i].lines, 0);
  }

  /**
   post never rejects the void entry of a released sale or any of its payment
   reversals; the only entry it can reject is a cost reversal whose accounts are
   no longer on the chart.
   */
  lemma ReleasedSaleCanBeVoided(b: Books, i: nat, date: int)
    requires Inv(b) && i < |b.sales| && Released(b.sales[i].status)
    ensures VoidSale(b, i, date).Ok? <==>
              SalesProof.SaleCost(b, i) == 0 || (OnChart(b.accounts, COGS) && OnChart(b.accounts, INVENTORY))
  {
    assert SaleInv(b, i);
    SalesProof.SalePostable(b, i);
    SalesProof.VoidEffect(b, i, date);
    SalesProof.SaleCostNonNegative(b, i);
    SalesProof.CostLinesSound(b.accounts, SalesProof.SaleCost(b, i));
  }

  /** A released purchase can always be voided and then nets to zero on every account. */
  lemma PurchaseVoidUndoes(b: Books, i: nat, date: int)
    requires Inv(b) && i < |b.purchases| && Released(b.purchases[i].status)
    ensures VoidPurchase(b, i, date).Ok?
    ensures var after := VoidPurchase(b, i, date).value;
      forall code: nat :: DocNet(after.payments, after.entries, PurchaseDoc(i), code) == 0
  {
    assert PurchaseInv(b, i);
    PurchaseProof.PurchasePostable(b, i);
    PurchaseProof.VoidEffect(b, i, date);
    PurchaseProof.VoidLedger(b, i, Withdraw(b.shelf, b.purchases[i].lines, i), date);
  }
}
