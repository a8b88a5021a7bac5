/**
 The control accounts: what the journal says about receivables and payables in
 total, against the documents and against the receivables and payables reports.
 */
module ControlAccounts {
  import opened Common
  import opened Sums
  import opened Journal
  import opened Books
  import opened Invariant
  import SalesProof

  datatype DocKind = Sales | Purchases | Notes

  function DocOf(kind: DocKind, i: nat): Doc {
    match kind
    case Sales => SaleDoc(i)
    case Purchases => PurchaseDoc(i)
    case Notes => NoteDoc(i)
  }

  function KindOf(d: Doc): DocKind {
    match d
    case SaleDoc(_) => Sales
    case PurchaseDoc(_) => Purchases
    case NoteDoc(_) => Notes
  }

  /** Debit less credit of an entry on an account, if it was booked for some document of the kind. */
  function KindEffect(payments: seq<Payment>, kind: DocKind, code: nat): Entry -> int {
    (e: Entry) =>
      var owner := Owner(payments, e.source);
      if owner.Some? && KindOf(owner.value) == kind && e.status != Draft then Sum(e.lines, OnAccount(code)) else 0
  }

  /** The balance all documents of one kind have put on an account. */
  function KindNet(b: Books, kind: DocKind, code: nat): int {
    Sum(b.entries, KindEffect(b.payments, kind, code))
  }

  function DocNets(payments: seq<Payment>, entries: seq<Entry>, kind: DocKind, code: nat): nat -> int {
    (i: nat) => DocNet(payments, entries, DocOf(kind, i), code)
  }

  function EntryOn(payments: seq<Payment>, e: Entry, kind: DocKind, code: nat): nat -> int {
    (i: nat) => Effect(payments, DocOf(kind, i), code)(e)
  }

  predicate OwnersBelow(payments: seq<Payment>, entries: seq<Entry>, kind: DocKind, n: nat) {
    forall k :: 0 <= k < |entries| ==>
      var owner := Owner(payments, entries[k].source);
      owner.Some? && KindOf(owner.value) == kind ==> owner.value.id < n
  }

  lemma OneEntry(payments: seq<Payment>, e: Entry, kind: DocKind, code: nat, n: nat)
    requires var owner := Owner(payments, e.source);
      owner.Some? && KindOf(owner.value) == kind ==> owner.value.id < n
    ensures SumTo(n, EntryOn(payments, e, kind, code)) == KindEffect(payments, kind, code)(e)
  {
    var owner := Owner(payments, e.source);
    forall i: nat
      ensures EntryOn(payments, e, kind, code)(i)
              == if owner.Some? && KindOf(owner.value) == kind && owner.value.id == i
                 then KindEffect(payments, kind, code)(e) else 0
    {
      assert EntryOn(payments, e, kind, code)(i) == Effect(payments, DocOf(kind, i), code)(e);
      if owner == Some(DocOf(kind, i)) {
        assert KindOf(DocOf(kind, i)) == kind && DocOf(kind, i).id == i;
      } else {
        assert owner.Some? ==> owner.value == DocOf(KindOf(owner.value), owner.value.id);
        assert Effect(payments, DocOf(kind, i), code)(e) == 0;
      }
    }
    if owner.Some? && KindOf(owner.value) == kind {
      SumToSingle(n, owner.value.id, EntryOn(payments, e, kind, code));
    } else {
      SumToZero(n, EntryOn(payments, e, kind, code));
    }
  }

  /** Summing entry by entry and summing document by document agree. */
  lemma {:induction false} SumByDocument(payments: seq<Payment>, entries: seq<Entry>, kind: DocKind, code: nat, n: nat)
    requires OwnersBelow(payments, entries, kind, n)
    ensures Sum(entries, KindEffect(payments, kind, code)) == SumTo(n, DocNets(payments, entries, kind, code))
  {
    if entries == [] {
      SumToZero(n, DocNets(payments, entries, kind, code));
    } else {
      var m := |entries| - 1;
      SumByDocument(payments, entries[..m], kind, code, n);
      OneEntry(payments, entries[m], kind, code, n);
      SumToAdd(n, DocNets(payments, entries[..m], kind, code), EntryOn(payments, entries[m], kind, code),
               DocNets(payments, entries, kind, code));
    }
  }

  function At<T>(s: seq<T>, f: T -> int): nat -> int {
    (i: nat) => if i < |s| then f(s[i]) else 0
  }

  lemma {:induction false} SumToIsSum<T>(s: seq<T>, f: T -> int)
    ensures SumTo(|s|, At(s, f)) == Sum(s, f)
  {
    if s != [] {
      var n := |s| - 1;
      SumToIsSum(s[..n], f);
      SumToCongruent(n, At(s, f), At(s[..n], f));
    }
  }

  lemma KindsBelow(b: Books, kind: DocKind)
    requires BaseInv(b)
    ensures OwnersBelow(b.payments, b.entries, kind,
              match kind case Sales => |b.sales| case Purchases => |b.purchases| case Notes => |b.notes|)
  {
    forall k | 0 <= k < |b.entries| && Owner(b.payments, b.entries[k].source).Some?
      ensures OwnerInTable(b, Owner(b.payments, b.entries[k].source).value)
    {
      assert Known(b, b.entries[k].source);
      OwnerKnown(b, b.entries[k].source);
    }
  }

  lemma OwnerKnown(b: Books, source: Source)
    requires Known(b, source) && Owner(b.payments, source).Some?
    requires forall p :: 0 <= p < |b.payments| ==> PaymentSound(b, p)
    ensures OwnerInTable(b, Owner(b.payments, source).value)
  {
    match source
    case SalePayment(p) => assert PaymentSound(b, p);
    case SalePaymentReversal(p) => assert PaymentSound(b, p);
    case PurchasePayment(p) => assert PaymentSound(b, p);
    case PurchasePaymentReversal(p) => assert PaymentSound(b, p);
    case _ =>
  }

  predicate OwnerInTable(b: Books, d: Doc) {
    match d
    case SaleDoc(i) => i < |b.sales|
    case PurchaseDoc(i) => i < |b.purchases|
    case NoteDoc(k) => k < |b.notes|
  }

  /* ------------------------------- receivables ------------------------------ */

  function SaleDues(b: Books): nat -> int {
    (i: nat) =>
      if i < |b.sales| && Released(b.sales[i].status)
      then b.sales[i].total - PaidRows(b.payments, OnSale(i)) else 0
  }

  function IssuedTotal(): Note -> int {
    (n: Note) => if n.status == Issued then -n.total else 0
  }

  /**
   Accounts receivable: what sales and credit notes have on account 1200 is the
   released totals less their payment rows, less the issued credit notes.
   */
  lemma ArControl(b: Books)
    requires Inv(b)
    ensures KindNet(b, Sales, AR) + KindNet(b, Notes, AR) == SumTo(|b.sales|, SaleDues(b)) + Sum(b.notes, IssuedTotal())
  {
    KindsBelow(b, Sales);
    SumByDocument(b.payments, b.entries, Sales, AR, |b.sales|);
    forall i: nat | i < |b.sales| ensures DocNets(b.payments, b.entries, Sales, AR)(i) == SaleDues(b)(i) {
      assert SaleInv(b, i);
      assert SaleLedger(b, i);
    }
    SumToCongruent(|b.sales|, DocNets(b.payments, b.entries, Sales, AR), SaleDues(b));
    KindsBelow(b, Notes);
    SumByDocument(b.payments, b.entries, Notes, AR, |b.notes|);
    forall k: nat | k < |b.notes| ensures DocNets(b.payments, b.entries, Notes, AR)(k) == At(b.notes, IssuedTotal())(k) {
      assert NoteInv(b, k);
    }
    SumToCongruent(|b.notes|, DocNets(b.payments, b.entries, Notes, AR), At(b.notes, IssuedTotal()));
    SumToIsSum(b.notes, IssuedTotal());
  }

  /* ---------------------------------- reports ------------------------------- */

  predicate OpenStatus(s: DocStatus) {
    s == Confirmed || s == PartiallyPaid
  }

  /** total - amountPaid over one party's open invoices: a row of the grouped query. */
  function OpenOf(party: nat): Invoice -> int {
    (s: Invoice) => if s.party == party && OpenStatus(s.status) then s.total - s.amountPaid else 0
  }

  /** HAVING drops the groups that are not positive. */
  function Groups(docs: seq<Invoice>): nat -> int {
    (party: nat) => Max(0, Sum(docs, OpenOf(party)))
  }

  function Receivables(b: Books): int {
    SumTo(|b.parties|, Groups(b.sales))
  }

  function Payables(b: Books): int {
    SumTo(|b.parties|, Groups(b.purchases))
  }

  function OpenDue(): Invoice -> int {
    (s: Invoice) => if OpenStatus(s.status) then s.total - s.amountPaid else 0
  }

  /** What was paid beyond the total of a fully paid invoice. */
  function Overpaid(): Invoice -> int {
    (s: Invoice) => if s.status == Paid then s.amountPaid - s.total else 0
  }

  function ReleasedDue(): Invoice -> int {
    (s: Invoice) => if Released(s.status) then s.total - s.amountPaid else 0
  }

  function GroupSums(docs: seq<Invoice>): nat -> int {
    (party: nat) => Sum(docs, OpenOf(party))
  }

  function PartyShare(s: Invoice): nat -> int {
    (party: nat) => OpenOf(party)(s)
  }

  predicate DocsOpenPositive(docs: seq<Invoice>, parties: nat) {
    forall i :: 0 <= i < |docs| ==>
      docs[i].party < parties && (OpenStatus(docs[i].status) ==> docs[i].amountPaid < docs[i].total)
  }

  lemma {:induction false} GroupingIsTotal(docs: seq<Invoice>, parties: nat)
    requires DocsOpenPositive(docs, parties)
    ensures SumTo(parties, GroupSums(docs)) == Sum(docs, OpenDue())
  {
    if docs == [] {
      SumToZero(parties, GroupSums(docs));
    } else {
      var n := |docs| - 1;
      GroupingIsTotal(docs[..n], parties);
      SumToSingle(parties, docs[n].party, PartyShare(docs[n]));
      SumToAdd(parties, GroupSums(docs[..n]), PartyShare(docs[n]), GroupSums(docs));
    }
  }

  /** Open invoices all have a positive balance, so the report never drops a group that matters. */
  lemma ReportIsOpenDue(docs: seq<Invoice>, parties: nat)
    requires DocsOpenPositive(docs, parties)
    ensures SumTo(parties, Groups(docs)) == Sum(docs, OpenDue())
  {
    forall party: nat | party < parties ensures Groups(docs)(party) == GroupSums(docs)(party) {
      SumNonNegative(docs, OpenOf(party));
    }
    SumToCongruent(parties, Groups(docs), GroupSums(docs));
    GroupingIsTotal(docs, parties);
  }

  lemma {:induction false} DueSplits(docs: seq<Invoice>)
    ensures Sum(docs, ReleasedDue()) == Sum(docs, OpenDue()) - Sum(docs, Overpaid())
  {
    if docs != [] {
      DueSplits(docs[..|docs| - 1]);
    }
  }

  /* --------------------------------- payables ------------------------------- */

  /**
   Accounts payable: the purchase side of account 2100 is what is unpaid on
   released purchases, which is the payables report less overpayments.
   */
  lemma ApControl(b: Books)
    requires Inv(b)
    ensures -KindNet(b, Purchases, AP) == Sum(b.purchases, ReleasedDue())
    ensures -KindNet(b, Purchases, AP) == Payables(b) - Sum(b.purchases, Overpaid())
  {
    KindsBelow(b, Purchases);
    SumByDocument(b.payments, b.entries, Purchases, AP, |b.purchases|);
    forall i: nat | i < |b.purchases|
      ensures DocNets(b.payments, b.entries, Purchases, AP)(i) == At(b.purchases, Negated(ReleasedDue()))(i)
    {
      assert PurchaseInv(b, i);
      assert PurchaseLedger(b, i);
    }
    SumToCongruent(|b.purchases|, DocNets(b.payments, b.entries, Purchases, AP), At(b.purchases, Negated(ReleasedDue())));
    SumToIsSum(b.purchases, Negated(ReleasedDue()));
    NegatedSum(b.purchases, ReleasedDue());
    forall i | 0 <= i < |b.purchases|
      ensures b.purchases[i].party < |b.parties|
      ensures OpenStatus(b.purchases[i].status) ==> b.purchases[i].amountPaid < b.purchases[i].total
    {
      assert PurchaseInv(b, i);
    }
    ReportIsOpenDue(b.purchases, |b.parties|);
    DueSplits(b.purchases);
  }

  function Negated<T>(f: T -> int): T -> int {
    (x: T) => -f(x)
  }

  lemma {:induction false} NegatedSum<T>(s: seq<T>, f: T -> int)
    ensures Sum(s, Negated(f)) == -Sum(s, f)
  {
    if s != [] {
      NegatedSum(s[..|s| - 1], f);
    }
  }

  predicate NoIssuedNotes(b: Books) {
    forall k :: 0 <= k < |b.notes| ==> b.notes[k].status != Issued
  }

  /** As long as no credit note was issued, account 1200 is the receivables report less overpayments. */
  lemma ArMatchesReport(b: Books)
    requires Inv(b) && NoIssuedNotes(b)
    ensures KindNet(b, Sales, AR) + KindNet(b, Notes, AR) == Receivables(b) - Sum(b.sales, Overpaid())
  {
    ArControl(b);
    SumZero(b.notes, IssuedTotal());
    forall i: nat | i < |b.sales| ensures SaleDues(b)(i) == At(b.sales, ReleasedDue())(i) {
      assert SaleInv(b, i);
      assert !Noted(b.notes, i);
    }
    SumToCongruent(|b.sales|, SaleDues(b), At(b.sales, ReleasedDue()));
    SumToIsSum(b.sales, ReleasedDue());
    forall i | 0 <= i < |b.sales|
      ensures b.sales[i].party < |b.parties|
      ensures OpenStatus(b.sales[i].status) ==> b.sales[i].amountPaid < b.sales[i].total
    {
      assert SaleInv(b, i);
    }
    ReportIsOpenDue(b.sales, |b.parties|);
    DueSplits(b.sales);
  }

  /* -------------------------------- credit limit ---------------------------- */

  /**
   A sale is refused for credit exactly when it would take what the party owes
   above the limit; a confirmed sale leaves the party at or below it.
   */
  lemma CreditLimitHonoured(b: Books, i: nat, date: int)
    requires Inv(b) && i < |b.sales| && b.sales[i].status == DraftDoc
    requires b.sales[i].party < |b.parties| && b.parties[b.sales[i].party].creditLimit.Some?
    ensures var s := b.sales[i];
      OverLimit(b, s) <==> Sum(b.sales[i := s.(status := Confirmed)], OwedBy(s.party)) > b.parties[s.party].creditLimit.value
    ensures var s := b.sales[i];
      ConfirmSale(b, i, date).Ok? ==>
        Sum(ConfirmSale(b, i, date).value.sales, OwedBy(s.party)) <= b.parties[s.party].creditLimit.value
  {
    var s := b.sales[i];
    assert SaleInv(b, i);
    SumUpdate(b.sales, i, s.(status := Confirmed), OwedBy(s.party));
    if ConfirmSale(b, i, date).Ok? {
      SalesProof.ConfirmEffect(b, i, date);
    }
  }
}
