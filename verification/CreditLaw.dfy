/**
 What is left of the payments of an invoice, over every run: an issued credit
 note takes off what was paid no more than its total, and nothing else does.
 */
module CreditLaw {
  import opened Common
  import opened Sums
  import opened Books
  import opened Invariant
  import NoteEffects

  function IssuedAgainst(i: nat): Note -> int {
    (n: Note) => if n.status == Issued && n.reference == Some(i) then n.total else 0
  }

  /** Payments and notes name invoices that exist. */
  predicate RefsKnown(b: Books) {
    && (forall p :: 0 <= p < |b.payments| && b.payments[p].target.OnSale? ==> b.payments[p].target.doc < |b.sales|)
    && (forall k :: 0 <= k < |b.notes| && b.notes[k].reference.Some? ==> b.notes[k].reference.value < |b.sales|)
  }

  /** What is recorded as paid is at least the payment rows less the issued notes of the invoice. */
  predicate Covered(b: Books, i: nat)
    requires i < |b.sales|
  {
    b.sales[i].amountPaid >= PaidRows(b.payments, OnSale(i)) - Sum(b.notes, IssuedAgainst(i))
  }

  predicate AllCovered(b: Books) {
    RefsKnown(b) && forall i :: 0 <= i < |b.sales| ==> Covered(b, i)
  }

  predicate SameCredits(b: Books, after: Books) {
    after.sales == b.sales && after.payments == b.payments && after.notes == b.notes
  }

  lemma ChartLeavesCredits(b: Books, c: Command)
    requires c.DoCreateAccount? || c.DoUpdateAccount? || c.DoRemoveAccount? || c.DoCreateEntry? || c.DoApproveEntry?
             || c.DoReverseEntry?
    ensures SameCredits(b, Step(b, c))
  {
  }

  lemma TablesLeaveCredits(b: Books, c: Command)
    requires c.DoCreateParty? || c.DoCreateItem? || c.DoUpdateItem? || c.DoRemoveItem? || c.DoAdjustStock?
             || c.DoCreateOrderLine? || c.DoCreateReceipt? || c.DoConfirmReceipt? || c.DoCancelReceipt?
    ensures SameCredits(b, Step(b, c))
  {
  }

  lemma PurchasesLeaveCredits(b: Books, c: Command)
    requires c.DoCreatePurchase? || c.DoConfirmPurchase? || c.DoVoidPurchase?
    ensures SameCredits(b, Step(b, c))
  {
  }

  /** A status moved and nothing else about the invoices. */
  predicate OnlyStatus(before: seq<Invoice>, after: seq<Invoice>) {
    |after| == |before| && forall j :: 0 <= j < |before| ==> after[j].amountPaid == before[j].amountPaid
  }

  lemma StatusMoves(b: Books, c: Command)
    requires c.DoConfirmSale? || c.DoVoidSale?
    ensures OnlyStatus(b.sales, Step(b, c).sales) && Step(b, c).payments == b.payments && Step(b, c).notes == b.notes
  {
  }

  lemma PurchasePaid(b: Books, i: nat, amount: int, date: int)
    requires AllCovered(b) && PayPurchase(b, i, amount, date).Ok?
    ensures AllCovered(PayPurchase(b, i, amount, date).value)
  {
    var after := PayPurchase(b, i, amount, date).value;
    forall j | 0 <= j < |b.sales| ensures Covered(after, j) {
      assert Covered(b, j);
      SumAppend(b.payments, Payment(OnPurchase(i), amount), PaidInto(OnSale(j)));
    }
  }

  lemma SalePaid(b: Books, i: nat, amount: int, date: int)
    requires AllCovered(b) && PaySale(b, i, amount, date).Ok?
    ensures AllCovered(PaySale(b, i, amount, date).value)
  {
    var after := PaySale(b, i, amount, date).value;
    forall j | 0 <= j < |b.sales| ensures Covered(after, j) {
      assert Covered(b, j);
      SumAppend(b.payments, Payment(OnSale(i), amount), PaidInto(OnSale(j)));
    }
  }

  lemma SaleDrafted(b: Books, s: Invoice)
    requires AllCovered(b) && s.amountPaid == 0
    ensures AllCovered(b.(sales := b.sales + [s]))
  {
    var after := b.(sales := b.sales + [s]);
    forall j | 0 <= j < |after.sales| ensures Covered(after, j) {
      if j < |b.sales| {
        assert Covered(b, j);
      } else {
        SumZero(b.payments, PaidInto(OnSale(j)));
        SumZero(b.notes, IssuedAgainst(j));
      }
    }
  }

  lemma NoteDrafted(b: Books, n: Note)
    requires AllCovered(b) && n.status == DraftNote && (n.reference.Some? ==> n.reference.value < |b.sales|)
    ensures AllCovered(b.(notes := b.notes + [n]))
  {
    var after := b.(notes := b.notes + [n]);
    forall j | 0 <= j < |b.sales| ensures Covered(after, j) {
      assert Covered(b, j);
      SumAppend(b.notes, n, IssuedAgainst(j));
    }
  }

  lemma NoteCancelled(b: Books, k: nat)
    requires AllCovered(b) && CancelNote(b, k).Ok?
    ensures AllCovered(CancelNote(b, k).value)
  {
    var after := CancelNote(b, k).value;
    forall j | 0 <= j < |b.sales| ensures Covered(after, j) {
      assert Covered(b, j);
      SumUpdate(b.notes, k, b.notes[k].(status := Cancelled), IssuedAgainst(j));
    }
  }

  lemma NoteIssued(b: Books, k: nat)
    requires AllCovered(b) && IssueNote(b, k).Ok?
    ensures AllCovered(IssueNote(b, k).value)
  {
    var after := IssueNote(b, k).value;
    NoteEffects.IssueWrites(b, k);
    forall j | 0 <= j < |b.sales| ensures Covered(after, j) {
      assert Covered(b, j);
      SumUpdate(b.notes, k, b.notes[k].(status := Issued), IssuedAgainst(j));
    }
  }

  lemma StepCovered(b: Books, c: Command)
    requires AllCovered(b)
    ensures AllCovered(Step(b, c))
  {
    if c.DoCreateAccount? || c.DoUpdateAccount? || c.DoRemoveAccount? || c.DoCreateEntry? || c.DoApproveEntry?
       || c.DoReverseEntry? {
      ChartLeavesCredits(b, c);
      Unmoved(b, Step(b, c));
    } else if c.DoCreatePurchase? || c.DoConfirmPurchase? || c.DoVoidPurchase? {
      PurchasesLeaveCredits(b, c);
      Unmoved(b, Step(b, c));
    } else if c.DoConfirmSale? || c.DoVoidSale? {
      StatusMoves(b, c);
      Unmoved(b, Step(b, c));
    } else if c.DoCreateSale? || c.DoPaySale? || c.DoPayPurchase? {
      MoneyCovered(b, c);
    } else if c.DoCreateNote? || c.DoIssueNote? || c.DoCancelNote? {
      NotesCovered(b, c);
    } else {
      TablesLeaveCredits(b, c);
      Unmoved(b, Step(b, c));
    }
  }

  lemma Unmoved(b: Books, after: Books)
    requires AllCovered(b) && OnlyStatus(b.sales, after.sales) && after.payments == b.payments && after.notes == b.notes
    ensures AllCovered(after)
  {
    forall j | 0 <= j < |after.sales| ensures Covered(after, j) {
      assert Covered(b, j);
    }
  }

  lemma MoneyCovered(b: Books, c: Command)
    requires AllCovered(b) && (c.DoCreateSale? || c.DoPaySale? || c.DoPayPurchase?)
    ensures AllCovered(Step(b, c))
  {
    if Execute(b, c).Ok? {
      match c
      case DoCreateSale(party, lines) => SaleDrafted(b, DraftInvoice(party, lines));
      case DoPaySale(i, amount, date) => SalePaid(b, i, amount, date);
      case DoPayPurchase(i, amount, date) => PurchasePaid(b, i, amount, date);
    }
  }

  lemma NotesCovered(b: Books, c: Command)
    requires AllCovered(b) && (c.DoCreateNote? || c.DoIssueNote? || c.DoCancelNote?)
    ensures AllCovered(Step(b, c))
  {
    if Execute(b, c).Ok? {
      match c
      case DoCreateNote(party, reference, date, lines) =>
        NoteDrafted(b, CreateNote(b, party, reference, date, lines).value.notes[|b.notes|]);
      case DoIssueNote(k) => NoteIssued(b, k);
      case DoCancelNote(k) => NoteCancelled(b, k);
    }
  }

  /** After every run, disciplined or not, no invoice has lost more of its payments than its issued notes credit. */
  lemma {:induction false} EveryRunCovered(cs: seq<Command>)
    ensures AllCovered(Run(Registered(), cs))
  {
    if cs != [] {
      EveryRunCovered(cs[..|cs| - 1]);
      StepCovered(Run(Registered(), cs[..|cs| - 1]), cs[|cs| - 1]);
    }
  }
}
