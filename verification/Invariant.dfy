/**
 The invariant that ties the journal, the stock ledger and the documents
 together: what a document has on the ledger is a function of its own row.
 */
module Invariant {
  import opened Common
  import opened Sums
  import opened Stock
  import opened Journal
  import opened Books

  datatype Doc = SaleDoc(id: nat) | PurchaseDoc(id: nat) | NoteDoc(id: nat)

  /** The document an automatic entry was booked for; a payment's entries belong to the invoice it settles. */
  function Owner(payments: seq<Payment>, source: Source): Option<Doc> {
    match source
    case Manual => None
    case Reversal(_) => None
    case SaleInvoice(i) => Some(SaleDoc(i))
    case SaleVoid(i) => Some(SaleDoc(i))
    case SaleCogs(i) => Some(SaleDoc(i))
    case SaleCogsReversal(i) => Some(SaleDoc(i))
    case SalePayment(p) => PaymentOwner(payments, p)
    case SalePaymentReversal(p) => PaymentOwner(payments, p)
    case PurchaseInvoice(i) => Some(PurchaseDoc(i))
    case PurchaseVoid(i) => Some(PurchaseDoc(i))
    case PurchasePayment(p) => PaymentOwner(payments, p)
    case PurchasePaymentReversal(p) => PaymentOwner(payments, p)
    case CreditNote(k) => Some(NoteDoc(k))
  }

  function PaymentOwner(payments: seq<Payment>, p: nat): Option<Doc> {
    if p >= |payments| then None
    else match payments[p].target
      case OnSale(i) => Some(SaleDoc(i))
      case OnPurchase(i) => Some(PurchaseDoc(i))
  }

  /** Every source names a row that exists. */
  predicate Known(b: Books, source: Source) {
    match source
    case Manual => true
    case Reversal(k) => k < |b.entries|
    case SaleInvoice(i) => i < |b.sales|
    case SaleVoid(i) => i < |b.sales|
    case SaleCogs(i) => i < |b.sales|
    case SaleCogsReversal(i) => i < |b.sales|
    case SalePayment(p) => p < |b.payments| && b.payments[p].target.OnSale?
    case SalePaymentReversal(p) => p < |b.payments| && b.payments[p].target.OnSale?
    case PurchaseInvoice(i) => i < |b.purchases|
    case PurchaseVoid(i) => i < |b.purchases|
    case PurchasePayment(p) => p < |b.payments| && b.payments[p].target.OnPurchase?
    case PurchasePaymentReversal(p) => p < |b.payments| && b.payments[p].target.OnPurchase?
    case CreditNote(k) => k < |b.notes|
  }

  /** Debit less credit of one entry on an account, if it is booked for document d (drafts do not count). */
  function Effect(payments: seq<Payment>, d: Doc, code: nat): Entry -> int {
    (e: Entry) =>
      if Owner(payments, e.source) == Some(d) && e.status != Draft then Sum(e.lines, OnAccount(code)) else 0
  }

  /** What document d has on an account over POSTED and REVERSED entries. */
  function DocNet(payments: seq<Payment>, entries: seq<Entry>, d: Doc, code: nat): int {
    Sum(entries, Effect(payments, d, code))
  }

  function PaidInto(t: Target): Payment -> int {
    (p: Payment) => if p.target == t then p.amount else 0
  }

  function PaidRows(payments: seq<Payment>, t: Target): int {
    Sum(payments, PaidInto(t))
  }

  lemma PaidRowsStep(payments: seq<Payment>, t: Target, n: nat)
    requires 0 < n <= |payments|
    ensures PaidRows(payments[..n], t) == PaidRows(payments[..n - 1], t) + PaidInto(t)(payments[n - 1])
  {
    assert payments[..n][..n - 1] == payments[..n - 1];
  }

  predicate BookedAs(entries: seq<Entry>, source: Source, lines: seq<Line>) {
    exists k :: 0 <= k < |entries| && entries[k].source == source && entries[k].lines == lines
  }

  predicate Noted(notes: seq<Note>, i: nat) {
    exists k :: 0 <= k < |notes| && notes[k].status == Issued && notes[k].reference == Some(i)
  }

  /** The status a released document must have. */
  function StatusOf(paid: int, total: int): DocStatus {
    if paid == 0 then Confirmed else PaidStatus(paid, total)
  }

  predicate Sellable(total: int, taxTotal: int) {
    0 < taxTotal < total
  }

  /* ---------------------------------- sales --------------------------------- */

  /** The ledger footprint of a sale outside the cost accounts. */
  function SaleNet(s: Invoice, paid: int, code: nat): int {
    if !Released(s.status) then 0
    else if code == AR then s.total - paid
    else if code == REVENUE then -(s.total - s.taxTotal)
    else if code == VAT_OUTPUT then -s.taxTotal
    else if code == CASH then paid
    else 0
  }

  predicate CostAccount(code: nat) {
    code == COGS || code == INVENTORY
  }

  ghost predicate SaleLedger(b: Books, i: nat)
    requires i < |b.sales|
  {
    var paid := PaidRows(b.payments, OnSale(i));
    && (forall code: nat :: !CostAccount(code) ==>
          DocNet(b.payments, b.entries, SaleDoc(i), code) == SaleNet(b.sales[i], paid, code))
    && DocNet(b.payments, b.entries, SaleDoc(i), COGS) == -DocNet(b.payments, b.entries, SaleDoc(i), INVENTORY)
    && (b.sales[i].status == DraftDoc ==> DocNet(b.payments, b.entries, SaleDoc(i), COGS) == 0)
  }

  /** Which postings a sale has had, and therefore which ones it can still make. */
  predicate SalePostings(b: Books, i: nat)
    requires i < |b.sales|
  {
    var s := b.sales[i];
    && (s.status == DraftDoc ==> !Booked(b.entries, SaleInvoice(i)) && !Booked(b.entries, SaleCogs(i)))
    && (s.status != Void ==> !Booked(b.entries, SaleVoid(i)) && !Booked(b.entries, SaleCogsReversal(i)))
    && (s.status != Void ==>
          forall p :: 0 <= p < |b.payments| && b.payments[p].target == OnSale(i) ==>
            !Booked(b.entries, SalePaymentReversal(p)))
    && (Released(s.status) ==> BookedAs(b.entries, SaleInvoice(i), SaleInvoiceLines(s)))
  }

  predicate SaleRow(b: Books, i: nat)
    requires i < |b.sales|
  {
    var s := b.sales[i];
    var paid := PaidRows(b.payments, OnSale(i));
    && s.party < |b.parties|
    && 0 <= s.amountPaid <= paid
    && (!Noted(b.notes, i) ==> s.amountPaid == paid)
    && (s.status == DraftDoc ==> s.amountPaid == 0 && paid == 0)
    && (Released(s.status) ==> Sellable(s.total, s.taxTotal) && s.status == StatusOf(s.amountPaid, s.total))
  }

  ghost predicate SaleInv(b: Books, i: nat)
    requires i < |b.sales|
  {
    SaleRow(b, i) && SalePostings(b, i) && SaleLedger(b, i)
  }

  /* -------------------------------- purchases ------------------------------- */

  function PurchaseNet(p: Invoice, paid: int, code: nat): int {
    if !Released(p.status) then 0
    else if code == AP then paid - p.total
    else if code == INVENTORY then p.total - p.taxTotal
    else if code == VAT_INPUT then p.taxTotal
    else if code == CASH then -paid
    else 0
  }

  ghost predicate PurchaseLedger(b: Books, i: nat)
    requires i < |b.purchases|
  {
    forall code: nat ::
      DocNet(b.payments, b.entries, PurchaseDoc(i), code)
      == PurchaseNet(b.purchases[i], PaidRows(b.payments, OnPurchase(i)), code)
  }

  predicate PurchasePostings(b: Books, i: nat)
    requires i < |b.purchases|
  {
    var p := b.purchases[i];
    && (p.status == DraftDoc ==> !Booked(b.entries, PurchaseInvoice(i)))
    && (p.status != Void ==> !Booked(b.entries, PurchaseVoid(i)))
    && (p.status != Void ==>
          forall q :: 0 <= q < |b.payments| && b.payments[q].target == OnPurchase(i) ==>
            !Booked(b.entries, PurchasePaymentReversal(q)))
    && (Released(p.status) ==> BookedAs(b.entries, PurchaseInvoice(i), PurchaseInvoiceLines(p)))
  }

  predicate PurchaseRow(b: Books, i: nat)
    requires i < |b.purchases|
  {
    var p := b.purchases[i];
    && p.party < |b.parties|
    && 0 <= p.amountPaid == PaidRows(b.payments, OnPurchase(i))
    && (p.status == DraftDoc ==> p.amountPaid == 0)
    && (Released(p.status) ==> Sellable(p.total, p.taxTotal) && p.status == StatusOf(p.amountPaid, p.total))
  }

  ghost predicate PurchaseInv(b: Books, i: nat)
    requires i < |b.purchases|
  {
    PurchaseRow(b, i) && PurchasePostings(b, i) && PurchaseLedger(b, i)
  }

  /* ------------------------------- credit notes ----------------------------- */

  function NoteNet(n: Note, code: nat): int {
    if n.status != Issued then 0
    else if code == AR then -n.total
    else if code == REVENUE then n.total - n.taxTotal
    else if code == VAT_OUTPUT then n.taxTotal
    else 0
  }

  ghost predicate NoteInv(b: Books, k: nat)
    requires k < |b.notes|
  {
    var n := b.notes[k];
    && (n.reference.Some? ==> n.reference.value < |b.sales|)
    && (n.status == DraftNote ==> !Booked(b.entries, CreditNote(k)))
    && (n.status == Issued ==> Sellable(n.total, n.taxTotal))
    && (forall code: nat :: DocNet(b.payments, b.entries, NoteDoc(k), code) == NoteNet(n, code))
  }

  /* ------------------------------- whole books ------------------------------ */

  predicate SourcesKnown(b: Books) {
    forall k :: 0 <= k < |b.entries| ==> Known(b, b.entries[k].source)
  }

  predicate PaymentSound(b: Books, p: nat)
    requires p < |b.payments|
  {
    && b.payments[p].amount > 0
    && match b.payments[p].target
       case OnSale(i) =>
         i < |b.sales| && BookedAs(b.entries, SalePayment(p), SalePaymentLines(b.payments[p].amount))
       case OnPurchase(i) =>
         i < |b.purchases| && BookedAs(b.entries, PurchasePayment(p), PurchasePaymentLines(b.payments[p].amount))
  }

  /** The parts of the invariant that are about shared tables. */
  predicate BaseInv(b: Books) {
    && JournalInv(b.accounts, b.entries)
    && StockInv(b.shelf)
    && SourcesKnown(b)
    && (forall p :: 0 <= p < |b.payments| ==> PaymentSound(b, p))
  }

  ghost predicate Inv(b: Books) {
    && BaseInv(b)
    && (forall i :: 0 <= i < |b.sales| ==> SaleInv(b, i))
    && (forall i :: 0 <= i < |b.purchases| ==> PurchaseInv(b, i))
    && (forall k :: 0 <= k < |b.notes| ==> NoteInv(b, k))
  }

  /* ---------------------------------- frames -------------------------------- */

  /** The old entries are still there with their source and lines; only their status may have moved. */
  predicate EntriesGrow(before: seq<Entry>, after: seq<Entry>) {
    && |before| <= |after|
    && (forall k :: 0 <= k < |before| ==>
          && after[k].source == before[k].source
          && after[k].lines == before[k].lines
          && (before[k].source != Manual ==> (after[k].status == Draft <==> before[k].status == Draft)))
  }

  /** From b to b' nothing is booked for, or paid into, document d. */
  predicate Undisturbed(b: Books, after: Books, d: Doc) {
    && EntriesGrow(b.entries, after.entries)
    && b.payments <= after.payments
    && (forall k :: |b.entries| <= k < |after.entries| ==> Owner(after.payments, after.entries[k].source) != Some(d))
    && (forall p :: |b.payments| <= p < |after.payments| ==> PaymentOwner(after.payments, p) != Some(d))
  }

  lemma OwnerStable(b: Books, after: Books, source: Source)
    requires Known(b, source) && b.payments <= after.payments
    ensures Owner(after.payments, source) == Owner(b.payments, source)
  {
  }

  /** Old entries weigh the same for every document, whatever payments were added since. */
  lemma {:induction false} NetOfOld(b: Books, after: Books, d: Doc, code: nat)
    requires SourcesKnown(b) && EntriesGrow(b.entries, after.entries) && b.payments <= after.payments
    ensures DocNet(after.payments, after.entries[..|b.entries|], d, code) == DocNet(b.payments, b.entries, d, code)
  {
    var old' := after.entries[..|b.entries|];
    forall k | 0 <= k < |b.entries|
      ensures Effect(b.payments, d, code)(b.entries[k]) == Effect(after.payments, d, code)(old'[k])
    {
      assert Known(b, b.entries[k].source);
      OwnerStable(b, after, b.entries[k].source);
    }
    SumCongruent(b.entries, old', Effect(b.payments, d, code), Effect(after.payments, d, code));
  }

  lemma {:induction false} NetStable(b: Books, after: Books, d: Doc, code: nat)
    requires SourcesKnown(b) && Undisturbed(b, after, d)
    ensures DocNet(after.payments, after.entries, d, code) == DocNet(b.payments, b.entries, d, code)
  {
    var n := |b.entries|;
    var new' := after.entries[n..];
    NetOfOld(b, after, d, code);
    assert after.entries == after.entries[..n] + new';
    SumConcat(after.entries[..n], new', Effect(after.payments, d, code));
    forall k | 0 <= k < |new'| ensures Effect(after.payments, d, code)(new'[k]) == 0 {
      assert new'[k] == after.entries[n + k];
    }
    SumZero(new', Effect(after.payments, d, code));
  }

  /** Appending entries adds their effects. */
  lemma NetExtended(b: Books, after: Books, es: seq<Entry>, d: Doc, code: nat)
    requires SourcesKnown(b) && after.entries == b.entries + es && b.payments <= after.payments
    ensures DocNet(after.payments, after.entries, d, code)
            == DocNet(b.payments, b.entries, d, code) + Sum(es, Effect(after.payments, d, code))
  {
    NetOfOld(b, after, d, code);
    assert after.entries[..|b.entries|] == b.entries;
    SumConcat(b.entries, es, Effect(after.payments, d, code));
  }

  lemma BookedStable(b: Books, after: Books, d: Doc, source: Source)
    requires EntriesGrow(b.entries, after.entries)
    requires forall k :: |b.entries| <= k < |after.entries| ==> Owner(after.payments, after.entries[k].source) != Some(d)
    requires Owner(after.payments, source) == Some(d)
    ensures Booked(after.entries, source) <==> Booked(b.entries, source)
  {
    if Booked(b.entries, source) {
      var k :| 0 <= k < |b.entries| && b.entries[k].source == source;
      assert after.entries[k].source == source;
    }
    if Booked(after.entries, source) {
      var k :| 0 <= k < |after.entries| && after.entries[k].source == source;
      assert k < |b.entries|;
      assert b.entries[k].source == source;
    }
  }

  lemma BookedAsGrows(before: seq<Entry>, after: seq<Entry>, source: Source, lines: seq<Line>)
    requires EntriesGrow(before, after) && BookedAs(before, source, lines)
    ensures BookedAs(after, source, lines)
  {
    var k :| 0 <= k < |before| && before[k].source == source && before[k].lines == lines;
    assert after[k].source == source && after[k].lines == lines;
  }

  lemma {:induction false} PaidRowsStable(b: Books, after: Books, t: Target)
    requires b.payments <= after.payments
    requires forall p :: |b.payments| <= p < |after.payments| ==> after.payments[p].target != t
    ensures PaidRows(after.payments, t) == PaidRows(b.payments, t)
  {
    var n := |b.payments|;
    assert after.payments == b.payments + after.payments[n..];
    SumConcat(b.payments, after.payments[n..], PaidInto(t));
    SumZero(after.payments[n..], PaidInto(t));
  }

  lemma KeepSale(b: Books, after: Books, i: nat)
    requires SourcesKnown(b) && i < |b.sales| && SaleInv(b, i)
    requires i < |after.sales| && after.sales[i] == b.sales[i]
    requires |b.parties| <= |after.parties|
    requires Noted(after.notes, i) == Noted(b.notes, i)
    requires Undisturbed(b, after, SaleDoc(i))
    ensures SaleInv(after, i)
  {
    var d := SaleDoc(i);
    PaidRowsFrame(b, after, i);
    BookedStable(b, after, d, SaleInvoice(i));
    BookedStable(b, after, d, SaleCogs(i));
    BookedStable(b, after, d, SaleVoid(i));
    BookedStable(b, after, d, SaleCogsReversal(i));
    forall p | 0 <= p < |after.payments| && after.payments[p].target == OnSale(i)
      ensures p < |b.payments| && b.payments[p].target == OnSale(i)
      ensures Booked(after.entries, SalePaymentReversal(p)) <==> Booked(b.entries, SalePaymentReversal(p))
    {
      assert PaymentOwner(after.payments, p) == Some(d);
      BookedStable(b, after, d, SalePaymentReversal(p));
    }
    if Released(b.sales[i].status) {
      BookedAsGrows(b.entries, after.entries, SaleInvoice(i), SaleInvoiceLines(b.sales[i]));
    }
    forall code: nat
      ensures DocNet(after.payments, after.entries, d, code) == DocNet(b.payments, b.entries, d, code)
    {
      NetStable(b, after, d, code);
    }
  }

  lemma PaidRowsFrame(b: Books, after: Books, i: nat)
    requires Undisturbed(b, after, SaleDoc(i)) || Undisturbed(b, after, PurchaseDoc(i))
    ensures Undisturbed(b, after, SaleDoc(i)) ==> PaidRows(after.payments, OnSale(i)) == PaidRows(b.payments, OnSale(i))
    ensures Undisturbed(b, after, PurchaseDoc(i)) ==>
              PaidRows(after.payments, OnPurchase(i)) == PaidRows(b.payments, OnPurchase(i))
  {
    if Undisturbed(b, after, SaleDoc(i)) {
      forall p | |b.payments| <= p < |after.payments| ensures after.payments[p].target != OnSale(i) {
        assert PaymentOwner(after.payments, p) != Some(SaleDoc(i));
      }
      PaidRowsStable(b, after, OnSale(i));
    }
    if Undisturbed(b, after, PurchaseDoc(i)) {
      forall p | |b.payments| <= p < |after.payments| ensures after.payments[p].target != OnPurchase(i) {
        assert PaymentOwner(after.payments, p) != Some(PurchaseDoc(i));
      }
      PaidRowsStable(b, after, OnPurchase(i));
    }
  }

  lemma KeepPurchase(b: Books, after: Books, i: nat)
    requires SourcesKnown(b) && i < |b.purchases| && PurchaseInv(b, i)
    requires i < |after.purchases| && after.purchases[i] == b.purchases[i]
    requires |b.parties| <= |after.parties|
    requires Undisturbed(b, after, PurchaseDoc(i))
    ensures PurchaseInv(after, i)
  {
    var d := PurchaseDoc(i);
    PaidRowsFrame(b, after, i);
    BookedStable(b, after, d, PurchaseInvoice(i));
    BookedStable(b, after, d, PurchaseVoid(i));
    forall q | 0 <= q < |after.payments| && after.payments[q].target == OnPurchase(i)
      ensures q < |b.payments| && b.payments[q].target == OnPurchase(i)
      ensures Booked(after.entries, PurchasePaymentReversal(q)) <==> Booked(b.entries, PurchasePaymentReversal(q))
    {
      assert PaymentOwner(after.payments, q) == Some(d);
      BookedStable(b, after, d, PurchasePaymentReversal(q));
    }
    if Released(b.purchases[i].status) {
      BookedAsGrows(b.entries, after.entries, PurchaseInvoice(i), PurchaseInvoiceLines(b.purchases[i]));
    }
    forall code: nat
      ensures DocNet(after.payments, after.entries, d, code) == DocNet(b.payments, b.entries, d, code)
    {
      NetStable(b, after, d, code);
    }
  }

  lemma KeepNote(b: Books, after: Books, k: nat)
    requires SourcesKnown(b) && k < |b.notes| && NoteInv(b, k)
    requires k < |after.notes| && after.notes[k] == b.notes[k]
    requires |b.sales| <= |after.sales|
    requires Undisturbed(b, after, NoteDoc(k))
    ensures NoteInv(after, k)
  {
    var d := NoteDoc(k);
    BookedStable(b, after, d, CreditNote(k));
    forall code: nat
      ensures DocNet(after.payments, after.entries, d, code) == DocNet(b.payments, b.entries, d, code)
    {
      NetStable(b, after, d, code);
    }
  }

  /** Rows only get added, and every booked source stays known. */
  predicate TablesGrow(b: Books, after: Books) {
    && EntriesGrow(b.entries, after.entries)
    && b.payments <= after.payments
    && |b.sales| <= |after.sales|
    && |b.purchases| <= |after.purchases|
    && |b.notes| <= |after.notes|
    && |b.parties| <= |after.parties|
  }

  lemma KnownGrows(b: Books, after: Books, source: Source)
    requires TablesGrow(b, after) && Known(b, source)
    ensures Known(after, source)
  {
  }

  lemma PaymentGrows(b: Books, after: Books, p: nat)
    requires TablesGrow(b, after) && p < |b.payments| && PaymentSound(b, p)
    ensures PaymentSound(after, p)
  {
    match b.payments[p].target
    case OnSale(i) =>
      BookedAsGrows(b.entries, after.entries, SalePayment(p), SalePaymentLines(b.payments[p].amount));
    case OnPurchase(i) =>
      BookedAsGrows(b.entries, after.entries, PurchasePayment(p), PurchasePaymentLines(b.payments[p].amount));
  }

  /* -------------------------------- assembling ------------------------------ */

  /** The documents a step touches re-establish their invariant; all others keep it. */
  lemma Assemble(b: Books, after: Books, touched: set<Doc>)
    requires Inv(b) && TablesGrow(b, after)
    requires JournalInv(after.accounts, after.entries) && StockInv(after.shelf)
    requires forall k :: |b.entries| <= k < |after.entries| ==>
               && Known(after, after.entries[k].source)
               && (Owner(after.payments, after.entries[k].source).Some? ==>
                     Owner(after.payments, after.entries[k].source).value in touched)
    requires forall p :: |b.payments| <= p < |after.payments| ==>
               && PaymentSound(after, p)
               && PaymentOwner(after.payments, p).value in touched
    requires forall i :: 0 <= i < |after.sales| ==>
               if SaleDoc(i) in touched then SaleInv(after, i)
               else i < |b.sales| && after.sales[i] == b.sales[i] && Noted(after.notes, i) == Noted(b.notes, i)
    requires forall i :: 0 <= i < |after.purchases| ==>
               if PurchaseDoc(i) in touched then PurchaseInv(after, i)
               else i < |b.purchases| && after.purchases[i] == b.purchases[i]
    requires forall k :: 0 <= k < |after.notes| ==>
               if NoteDoc(k) in touched then NoteInv(after, k)
               else k < |b.notes| && after.notes[k] == b.notes[k]
    ensures Inv(after)
  {
    forall k | 0 <= k < |after.entries| ensures Known(after, after.entries[k].source) {
      if k < |b.entries| {
        KnownGrows(b, after, b.entries[k].source);
      }
    }
    forall p | 0 <= p < |after.payments| ensures PaymentSound(after, p) {
      if p < |b.payments| {
        PaymentGrows(b, after, p);
      }
    }
    forall d | d !in touched ensures Undisturbed(b, after, d) {
    }
    forall i | 0 <= i < |after.sales| ensures SaleInv(after, i) {
      if SaleDoc(i) !in touched {
        KeepSale(b, after, i);
      }
    }
    forall i | 0 <= i < |after.purchases| ensures PurchaseInv(after, i) {
      if PurchaseDoc(i) !in touched {
        KeepPurchase(b, after, i);
      }
    }
    forall k | 0 <= k < |after.notes| ensures NoteInv(after, k) {
      if NoteDoc(k) !in touched {
        KeepNote(b, after, k);
      }
    }
  }

  /** A fresh source is booked exactly when its lines are sound, and then it is appended. */
  lemma PostFresh(b: Books, date: int, source: Source, lines: seq<Line>)
    requires JournalInv(b.accounts, b.entries)
    requires source != Manual && !source.Reversal? && !Booked(b.entries, source)
    ensures PostAuto(b, date, source, lines).Ok? <==> LinesSound(b.accounts, lines)
    ensures PostAuto(b, date, source, lines).Ok? ==>
              var after := PostAuto(b, date, source, lines).value;
              && after == b.(entries := b.entries + [Entry(date, Posted, source, None, lines)])
              && JournalInv(after.accounts, after.entries)
  {
    var e := Entry(date, Posted, source, None, lines);
    PostAccepts(b.accounts, b.entries, e);
    if LinesSound(b.accounts, lines) {
      AppendKeeps(b.accounts, b.entries, e);
    }
  }

  /** Entries booked for document d only. */
  predicate AllOwned(after: Books, es: seq<Entry>, d: Doc) {
    forall k :: 0 <= k < |es| ==> Known(after, es[k].source) && Owner(after.payments, es[k].source) == Some(d)
  }

  /** A step that touches one sale and appends entries for it. */
  lemma AssembleSale(b: Books, after: Books, i: nat, es: seq<Entry>)
    requires Inv(b) && i < |b.sales| == |after.sales|
    requires after == b.(shelf := after.shelf, payments := after.payments, sales := b.sales[i := after.sales[i]],
                         entries := b.entries + es)
    requires AllOwned(after, es, SaleDoc(i))
    requires b.payments <= after.payments
    requires forall p :: |b.payments| <= p < |after.payments| ==>
               PaymentSound(after, p) && after.payments[p].target == OnSale(i)
    requires JournalInv(after.accounts, after.entries) && StockInv(after.shelf)
    requires SaleInv(after, i)
    ensures Inv(after)
  {
    forall k | |b.entries| <= k < |after.entries|
      ensures Known(after, after.entries[k].source) && Owner(after.payments, after.entries[k].source) == Some(SaleDoc(i))
    {
      assert after.entries[k] == es[k - |b.entries|];
    }
    Assemble(b, after, {SaleDoc(i)});
  }

  /** A step that touches one purchase and appends entries for it. */
  lemma AssemblePurchase(b: Books, after: Books, i: nat, es: seq<Entry>)
    requires Inv(b) && i < |b.purchases| == |after.purchases|
    requires after == b.(shelf := after.shelf, payments := after.payments, purchases := b.purchases[i := after.purchases[i]],
                         entries := b.entries + es)
    requires AllOwned(after, es, PurchaseDoc(i))
    requires b.payments <= after.payments
    requires forall p :: |b.payments| <= p < |after.payments| ==>
               PaymentSound(after, p) && after.payments[p].target == OnPurchase(i)
    requires JournalInv(after.accounts, after.entries) && StockInv(after.shelf)
    requires PurchaseInv(after, i)
    ensures Inv(after)
  {
    forall k | |b.entries| <= k < |after.entries|
      ensures Known(after, after.entries[k].source) && Owner(after.payments, after.entries[k].source) == Some(PurchaseDoc(i))
    {
      assert after.entries[k] == es[k - |b.entries|];
    }
    Assemble(b, after, {PurchaseDoc(i)});
  }

  lemma NotBookedAfter(entries: seq<Entry>, es: seq<Entry>, source: Source)
    requires !Booked(entries, source)
    requires forall k :: 0 <= k < |es| ==> es[k].source != source
    ensures !Booked(entries + es, source)
  {
  }

  lemma BookedAsAppended(entries: seq<Entry>, es: seq<Entry>, source: Source, lines: seq<Line>)
    requires BookedAs(entries, source, lines)
    ensures BookedAs(entries + es, source, lines)
  {
    var k :| 0 <= k < |entries| && entries[k].source == source && entries[k].lines == lines;
    assert (entries + es)[k] == entries[k];
  }

  lemma BookedAsNew(entries: seq<Entry>, es: seq<Entry>, k: nat)
    requires k < |es|
    ensures BookedAs(entries + es, es[k].source, es[k].lines)
  {
    assert (entries + es)[|entries| + k] == es[k];
  }

  lemma NewPaymentUnbooked(b: Books)
    requires SourcesKnown(b)
    ensures !Booked(b.entries, SalePayment(|b.payments|))
    ensures !Booked(b.entries, SalePaymentReversal(|b.payments|))
    ensures !Booked(b.entries, PurchasePayment(|b.payments|))
    ensures !Booked(b.entries, PurchasePaymentReversal(|b.payments|))
  {
    forall k | 0 <= k < |b.entries| ensures Known(b, b.entries[k].source) {
    }
  }
}
