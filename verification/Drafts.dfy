/** What the calls that create and discard drafts promise about the rows they write. */
module Drafts {
  import opened Common
  import opened Sums
  import opened Money
  import opened Stock
  import opened Books
  import opened Invariant
  import RunProof

  function NetOn(): DocLine -> int {
    (l: DocLine) => l.net
  }

  function TaxOn(): DocLine -> int {
    (l: DocLine) => l.tax
  }

  /** A stored line is the requested one, its quantity in thousandths, priced half up. */
  ghost predicate LineStored(l: DocLine, r: LineRequest) {
    && l.item == r.item && l.qty == r.input.qty * 10
    && exists amount :: Priced(r.input, amount, l.net, l.tax)
  }

  /** Stored lines are the requested ones, priced, and the stored totals are the sums over them. */
  ghost predicate LinesTieOut(docLines: seq<DocLine>, requested: seq<LineRequest>, total: int, taxTotal: int) {
    && |docLines| == |requested|
    && (forall k :: 0 <= k < |requested| ==> LineStored(docLines[k], requested[k]))
    && taxTotal == Sum(docLines, TaxOn())
    && total == Sum(docLines, NetOn()) + taxTotal
  }

  lemma TotalsAreLineSums(requested: seq<LineRequest>)
    ensures var t := ComputeTotals(InputsOf(requested));
      LinesTieOut(DocLinesOf(requested), requested, t.total, t.taxTotal)
  {
    forall k | 0 <= k < |requested| ensures LineStored(DocLinesOf(requested)[k], requested[k]) {
      LineIsPriced(requested[k].input);
    }
    SumCongruent(InputsOf(requested), DocLinesOf(requested), TaxOf(), TaxOn());
    SumCongruent(InputsOf(requested), DocLinesOf(requested), TotalOf(), NetOn());
  }

  /** Every item a line names is there and not deleted. */
  predicate ItemsExist(items: seq<Item>, requested: seq<LineRequest>) {
    forall k :: 0 <= k < |requested| && requested[k].item.Some? ==>
      requested[k].item.value < |items| && !items[requested[k].item.value].deleted
  }

  /** A fresh invoice: unpaid, unposted, with totals that tie out. */
  ghost predicate FreshInvoice(s: Invoice, party: nat, requested: seq<LineRequest>) {
    && s.party == party && s.status == DraftDoc && s.amountPaid == 0
    && LinesTieOut(s.lines, requested, s.total, s.taxTotal)
  }

  lemma DraftIsFresh(party: nat, requested: seq<LineRequest>)
    ensures FreshInvoice(DraftInvoice(party, requested), party, requested)
  {
    TotalsAreLineSums(requested);
  }

  ghost predicate FreshNote(n: Note, party: nat, reference: Option<nat>, date: int, requested: seq<LineRequest>) {
    && n.party == party && n.reference == reference && n.date == date && n.status == DraftNote
    && LinesTieOut(n.lines, requested, n.total, n.taxTotal)
  }

  /** A note may only credit an invoice of the same party that is not void. */
  predicate MayReference(b: Books, party: nat, reference: Option<nat>) {
    reference.Some? ==>
      reference.value < |b.sales| && b.sales[reference.value].party == party && b.sales[reference.value].status != Void
  }

  lemma CreateNoteKeepsInv(b: Books, party: nat, reference: Option<nat>, date: int, lines: seq<LineRequest>)
    requires Inv(b) && CreateNote(b, party, reference, date, lines).Ok?
    ensures Inv(CreateNote(b, party, reference, date, lines).value)
  {
    var after := CreateNote(b, party, reference, date, lines).value;
    RunProof.CreateNoteKeeps(b, after.notes[|b.notes|]);
  }

  /** A cancelled note has never put anything on the ledger. */
  lemma CancelledBooksNothing(b: Books, k: nat)
    requires Inv(b) && CancelNote(b, k).Ok?
    ensures var after := CancelNote(b, k).value;
      && Inv(after)
      && forall code: nat :: DocNet(after.payments, after.entries, NoteDoc(k), code) == 0
  {
    RunProof.CancelNoteKeeps(b, k);
    assert NoteInv(CancelNote(b, k).value, k);
  }

  /* ------------------------- decided rows never change ---------------------- */

  lemma SalesLeaveNotes(b: Books, c: Command)
    requires c.DoCreateSale? || c.DoConfirmSale? || c.DoPaySale? || c.DoVoidSale?
    ensures Step(b, c).notes == b.notes && Step(b, c).receipts == b.receipts
  {
  }

  lemma PurchasesLeaveNotes(b: Books, c: Command)
    requires c.DoCreatePurchase? || c.DoConfirmPurchase? || c.DoPayPurchase? || c.DoVoidPurchase?
    ensures Step(b, c).notes == b.notes && Step(b, c).receipts == b.receipts
  {
  }

  predicate IsNoteCommand(c: Command) {
    c.DoCreateNote? || c.DoIssueNote? || c.DoCancelNote?
  }

  predicate IsReceiptCommand(c: Command) {
    c.DoCreateReceipt? || c.DoConfirmReceipt? || c.DoCancelReceipt?
  }

  lemma TablesLeaveNotes(b: Books, c: Command)
    requires c.DoCreateAccount? || c.DoUpdateAccount? || c.DoRemoveAccount? || c.DoCreateEntry? || c.DoApproveEntry?
             || c.DoReverseEntry? || c.DoCreateParty? || c.DoCreateItem? || c.DoUpdateItem? || c.DoRemoveItem?
             || c.DoAdjustStock? || c.DoCreateOrderLine?
    ensures Step(b, c).notes == b.notes && Step(b, c).receipts == b.receipts
  {
  }

  lemma NoteStep(b: Books, c: Command, k: nat)
    requires k < |b.notes| && b.notes[k].status != DraftNote
    ensures k < |Step(b, c).notes| && Step(b, c).notes[k] == b.notes[k]
  {
    if IsNoteCommand(c) {
      DecidedNote(b, c, k);
    } else if IsReceiptCommand(c) {
      ReceiptsLeaveNotes(b, c);
    } else if c.DoCreateSale? || c.DoConfirmSale? || c.DoPaySale? || c.DoVoidSale? {
      SalesLeaveNotes(b, c);
    } else if c.DoCreatePurchase? || c.DoConfirmPurchase? || c.DoPayPurchase? || c.DoVoidPurchase? {
      PurchasesLeaveNotes(b, c);
    } else {
      TablesLeaveNotes(b, c);
    }
  }

  lemma DecidedNote(b: Books, c: Command, k: nat)
    requires IsNoteCommand(c) && k < |b.notes| && b.notes[k].status != DraftNote
    ensures k < |Step(b, c).notes| && Step(b, c).notes[k] == b.notes[k]
  {
  }

  lemma ReceiptsLeaveNotes(b: Books, c: Command)
    requires IsReceiptCommand(c)
    ensures Step(b, c).notes == b.notes
  {
  }

  lemma NotesLeaveReceipts(b: Books, c: Command)
    requires IsNoteCommand(c)
    ensures Step(b, c).receipts == b.receipts
  {
  }

  lemma DecidedReceipt(b: Books, c: Command, k: nat)
    requires IsReceiptCommand(c) && k < |b.receipts| && b.receipts[k].status != DraftReceipt
    ensures k < |Step(b, c).receipts| && Step(b, c).receipts[k] == b.receipts[k]
  {
  }

  lemma ReceiptStep(b: Books, c: Command, k: nat)
    requires k < |b.receipts| && b.receipts[k].status != DraftReceipt
    ensures k < |Step(b, c).receipts| && Step(b, c).receipts[k] == b.receipts[k]
  {
    if IsReceiptCommand(c) {
      DecidedReceipt(b, c, k);
    } else if IsNoteCommand(c) {
      NotesLeaveReceipts(b, c);
    } else if c.DoCreateSale? || c.DoConfirmSale? || c.DoPaySale? || c.DoVoidSale? {
      SalesLeaveNotes(b, c);
    } else if c.DoCreatePurchase? || c.DoConfirmPurchase? || c.DoPayPurchase? || c.DoVoidPurchase? {
      PurchasesLeaveNotes(b, c);
    } else {
      TablesLeaveNotes(b, c);
    }
  }

  /** Once issued or cancelled, a credit note is never touched again, whatever is called later. */
  lemma {:induction false} DecidedNotesStay(b: Books, cs: seq<Command>, k: nat)
    requires k < |b.notes| && b.notes[k].status != DraftNote
    ensures k < |Run(b, cs).notes| && Run(b, cs).notes[k] == b.notes[k]
  {
    if cs != [] {
      DecidedNotesStay(b, cs[..|cs| - 1], k);
      NoteStep(Run(b, cs[..|cs| - 1]), cs[|cs| - 1], k);
    }
  }

  /** Once confirmed or cancelled, a goods receipt is never touched again: it is received at most once. */
  lemma {:induction false} DecidedReceiptsStay(b: Books, cs: seq<Command>, k: nat)
    requires k < |b.receipts| && b.receipts[k].status != DraftReceipt
    ensures k < |Run(b, cs).receipts| && Run(b, cs).receipts[k] == b.receipts[k]
  {
    if cs != [] {
      DecidedReceiptsStay(b, cs[..|cs| - 1], k);
      ReceiptStep(Run(b, cs[..|cs| - 1]), cs[|cs| - 1], k);
    }
  }
}
