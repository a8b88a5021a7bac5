/**
 What issuing a credit note does, said over the rows of the tables and the
 account codes, and what it means for the balances over every run.
 */
module NoteEffects {
  import opened Common
  import opened Sums
  import opened Stock
  import opened Journal
  import opened Books
  import opened Invariant
  import opened StockEffects
  import SalesEffects

  /**
   The credit comes off what was paid, down to nothing; an invoice that stays fully
   paid keeps its status, else it is PARTIALLY_PAID or CONFIRMED by what is left.
   */
  predicate CreditTaken(s: Invoice, after: Invoice, credit: int) {
    && after == s.(amountPaid := after.amountPaid, status := after.status)
    && after.amountPaid == (if s.amountPaid >= credit then s.amountPaid - credit else 0)
    && after.status == (if after.amountPaid >= s.total then s.status
                        else if after.amountPaid > 0 then PartiallyPaid else Confirmed)
  }

  /** The invoice a note references, if any, has the credit taken off; every other invoice is as it was. */
  predicate SalesCredited(before: seq<Invoice>, after: seq<Invoice>, n: Note) {
    && |after| == |before|
    && (forall j :: 0 <= j < |before| ==>
          if n.reference == Some(j) then CreditTaken(before[j], after[j], n.total) else after[j] == before[j])
  }

  predicate Issuable(b: Books, k: nat) {
    && k < |b.notes| && b.notes[k].status == DraftNote
    && 0 < b.notes[k].taxTotal < b.notes[k].total
    && OnChart(b.accounts, 2200) && OnChart(b.accounts, 4100) && OnChart(b.accounts, 1200)
  }

  /** What issue writes to the rows of notes and invoices, whatever state the books are in. */
  predicate RowsIssued(b: Books, after: Books, k: nat)
    requires k < |b.notes|
  {
    && after == b.(shelf := after.shelf, sales := after.sales, notes := after.notes, entries := after.entries)
    && after.notes == b.notes[k := b.notes[k].(status := Issued)]
    && SalesCredited(b.sales, after.sales, b.notes[k])
  }

  /** Goods back, the invoice credited, the note ISSUED, and tax and revenue given back on the receivable. */
  ghost predicate IsIssued(b: Books, after: Books, k: nat)
    requires k < |b.notes|
  {
    var n := b.notes[k];
    && RowsIssued(b, after, k)
    && PutOn(b.shelf, after.shelf, n.lines, VoidMove, if n.reference.Some? then n.reference.value else k)
    && after.entries == b.entries
        + [SalesEffects.Auto(n.date, CreditNote(k),
             [Line(2200, n.taxTotal, 0), Line(4100, n.total - n.taxTotal, 0), Line(1200, 0, n.total)])]
  }

  /** In any books at all, a successful issue writes exactly these rows. */
  lemma IssueWrites(b: Books, k: nat)
    requires IssueNote(b, k).Ok?
    ensures k < |b.notes| && b.notes[k].status == DraftNote
    ensures b.notes[k].reference.Some? ==> b.notes[k].reference.value < |b.sales|
    ensures RowsIssued(b, IssueNote(b, k).value, k)
  {
  }

  lemma NoteLinesSound(accounts: seq<Account>, n: Note)
    ensures LinesSound(accounts, CreditNoteLines(n)) <==>
              0 < n.taxTotal < n.total && OnChart(accounts, 2200) && OnChart(accounts, 4100) && OnChart(accounts, 1200)
  {
    var l := CreditNoteLines(n);
    SumOfThree(l[0], l[1], l[2], Signed());
    assert LinesSound(accounts, l) ==> LineSound(accounts, l[0]) && LineSound(accounts, l[1]) && LineSound(accounts, l[2]);
  }

  /** Issuing succeeds exactly when the note is issuable, and does exactly this. */
  lemma IssueDoes(b: Books, k: nat)
    requires Inv(b)
    ensures IssueNote(b, k).Ok? <==> Issuable(b, k)
    ensures IssueNote(b, k).Ok? ==> k < |b.notes| && IsIssued(b, IssueNote(b, k).value, k)
  {
    if k < |b.notes| && b.notes[k].status == DraftNote {
      assert NoteInv(b, k);
      var n := b.notes[k];
      var reference := if n.reference.Some? then n.reference.value else k;
      RestockEffect(b.shelf, n.lines, VoidMove, reference);
      var b1 := b.(shelf := Restock(b.shelf, n.lines, VoidMove, reference).shelf,
                   sales := UnwindReference(b, n).value, notes := b.notes[k := n.(status := Issued)]);
      PostFresh(b1, n.date, CreditNote(k), CreditNoteLines(n));
      NoteLinesSound(b.accounts, n);
      if IssueNote(b, k).Ok? {
        IssueWrites(b, k);
      }
    }
  }
}
