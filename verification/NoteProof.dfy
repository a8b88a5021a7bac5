/**
 Issuing a credit note. The service does not look at the status of the invoice
 it references, so it keeps the books exactly under the guard below.
 */
module NoteProof {
  import opened Common
  import opened Sums
  import opened Stock
  import opened Journal
  import opened Books
  import opened Invariant

  /**
   The referenced invoice is released, or it is not but the branch that rewrites
   its status is not taken.
   */
  predicate NoteGuard(b: Books, k: nat) {
    k < |b.notes| && b.notes[k].reference.Some? && b.notes[k].reference.value < |b.sales| ==>
      var s := b.sales[b.notes[k].reference.value];
      Released(s.status) || PaidAfterNote(s, b.notes[k]) >= s.total
  }

  lemma NoteTemplate(n: Note, code: nat)
    ensures Sum(CreditNoteLines(n), OnAccount(code)) == NoteNet(n.(status := Issued), code)
  {
    SumOfThree(Debit(VAT_OUTPUT, n.taxTotal), Debit(REVENUE, n.total - n.taxTotal), Credit(AR, n.total), OnAccount(code));
  }

  lemma NoteLinesSellable(accounts: seq<Account>, n: Note)
    requires LinesSound(accounts, CreditNoteLines(n))
    ensures Sellable(n.total, n.taxTotal)
  {
    var l := CreditNoteLines(n);
    assert LineSound(accounts, l[0]) && LineSound(accounts, l[1]);
  }

  function NoteEntry(b: Books, k: nat): Entry
    requires k < |b.notes|
  {
    Entry(b.notes[k].date, Posted, CreditNote(k), None, CreditNoteLines(b.notes[k]))
  }

  function AfterIssue(b: Books, k: nat, shelf: Shelf, sales: seq<Invoice>): Books
    requires k < |b.notes|
  {
    b.(shelf := shelf, sales := sales, notes := b.notes[k := b.notes[k].(status := Issued)],
       entries := b.entries + [NoteEntry(b, k)])
  }

  function GoodsBack(b: Books, k: nat): Shelf
    requires k < |b.notes|
  {
    Restock(b.shelf, b.notes[k].lines, VoidMove,
            if b.notes[k].reference.Some? then b.notes[k].reference.value else k).shelf
  }

  lemma IssueEffect(b: Books, k: nat)
    requires BaseInv(b) && IssueNote(b, k).Ok?
    requires k < |b.notes| && NoteInv(b, k)
    ensures b.notes[k].status == DraftNote && Sellable(b.notes[k].total, b.notes[k].taxTotal)
    ensures UnwindReference(b, b.notes[k]).Ok?
    ensures var after := IssueNote(b, k).value;
      && after == AfterIssue(b, k, GoodsBack(b, k), UnwindReference(b, b.notes[k]).value)
      && JournalInv(after.accounts, after.entries)
      && StockInv(after.shelf)
  {
    var n := b.notes[k];
    RestockMeaning(b.shelf, n.lines, VoidMove, if n.reference.Some? then n.reference.value else k);
    var sales := UnwindReference(b, n).value;
    var b1 := b.(shelf := GoodsBack(b, k), sales := sales, notes := b.notes[k := n.(status := Issued)]);
    PostFresh(b1, n.date, CreditNote(k), CreditNoteLines(n));
    NoteLinesSellable(b.accounts, n);
  }

  lemma IssueKeepsNote(b: Books, k: nat, shelf: Shelf, sales: seq<Invoice>)
    requires SourcesKnown(b) && k < |b.notes| && NoteInv(b, k) && b.notes[k].status == DraftNote
    requires Sellable(b.notes[k].total, b.notes[k].taxTotal) && |sales| == |b.sales|
    ensures NoteInv(AfterIssue(b, k, shelf, sales), k)
  {
    var after := AfterIssue(b, k, shelf, sales);
    var e := NoteEntry(b, k);
    forall code: nat
      ensures DocNet(after.payments, after.entries, NoteDoc(k), code) == NoteNet(after.notes[k], code)
    {
      NetExtended(b, after, [e], NoteDoc(k), code);
      SumOfOne(e, Effect(after.payments, NoteDoc(k), code));
      NoteTemplate(b.notes[k], code);
    }
  }

  /** The credit only moves the balance and the status, and the status only among the released ones. */
  predicate Unwound(s: Invoice, n: Note, after: Invoice) {
    var paid := PaidAfterNote(s, n);
    && after == s.(amountPaid := paid, status := StatusAfterNote(s, paid))
    && (Released(s.status) || paid >= s.total)
  }

  lemma UnwoundFootprint(s: Invoice, n: Note, after: Invoice, paid: int, code: nat)
    requires Unwound(s, n, after)
    ensures SaleNet(after, paid, code) == SaleNet(s, paid, code)
  {
  }

  lemma UnwoundRow(b: Books, after: Books, n: Note, i: nat)
    requires i < |b.sales| && SaleRow(b, i) && i < |after.sales| && Unwound(b.sales[i], n, after.sales[i])
    requires after == b.(sales := after.sales, notes := after.notes) && Noted(after.notes, i) && n.total > 0
    ensures SaleRow(after, i)
  {
  }

  /** An unwound invoice still meets its part of the invariant. */
  lemma UnwoundSound(b: Books, after: Books, n: Note, i: nat)
    requires i < |b.sales| && SaleInv(b, i) && i < |after.sales| && Unwound(b.sales[i], n, after.sales[i])
    requires after == b.(sales := after.sales, notes := after.notes) && Noted(after.notes, i) && n.total > 0
    ensures SaleInv(after, i)
  {
    UnwoundRow(b, after, n, i);
    forall code: nat ensures SaleNet(after.sales[i], PaidRows(b.payments, OnSale(i)), code)
                             == SaleNet(b.sales[i], PaidRows(b.payments, OnSale(i)), code)
    {
      UnwoundFootprint(b.sales[i], n, after.sales[i], PaidRows(b.payments, OnSale(i)), code);
    }
    assert SaleInvoiceLines(after.sales[i]) == SaleInvoiceLines(b.sales[i]);
  }

  /** The unwound invoice keeps its ledger and gets the status its new balance calls for. */
  lemma IssueKeepsSale(b: Books, k: nat, shelf: Shelf, i: nat)
    requires SourcesKnown(b) && k < |b.notes| && b.notes[k].reference == Some(i) && i < |b.sales| && SaleInv(b, i)
    requires b.notes[k].total > 0 && NoteGuard(b, k)
    ensures UnwindReference(b, b.notes[k]).Ok?
    ensures SaleInv(AfterIssue(b, k, shelf, UnwindReference(b, b.notes[k]).value), i)
  {
    var after := AfterIssue(b, k, shelf, UnwindReference(b, b.notes[k]).value);
    assert after.notes[k].reference == Some(i) && after.notes[k].status == Issued;
    var mid := after.(sales := b.sales, notes := b.notes);
    assert after.entries[|b.entries|] == NoteEntry(b, k);
    KeepSale(b, mid, i);
    UnwoundSound(mid, after, b.notes[k], i);
  }

  lemma IssueNoteKeeps(b: Books, k: nat)
    requires Inv(b) && IssueNote(b, k).Ok? && NoteGuard(b, k)
    ensures Inv(IssueNote(b, k).value)
  {
    assert NoteInv(b, k);
    IssueEffect(b, k);
    var n := b.notes[k];
    IssueKeepsNote(b, k, GoodsBack(b, k), UnwindReference(b, n).value);
    if n.reference.Some? {
      assert SaleInv(b, n.reference.value);
      IssueKeepsSale(b, k, GoodsBack(b, k), n.reference.value);
      AssembleWithSale(b, k, n.reference.value, GoodsBack(b, k));
    } else {
      AssembleAlone(b, k, GoodsBack(b, k));
    }
  }

  lemma AssembleWithSale(b: Books, k: nat, i: nat, shelf: Shelf)
    requires Inv(b) && k < |b.notes| && b.notes[k].reference == Some(i) && i < |b.sales| && b.notes[k].status == DraftNote
    requires StockInv(shelf) && JournalInv(b.accounts, b.entries + [NoteEntry(b, k)])
    requires var after := AfterIssue(b, k, shelf, UnwindReference(b, b.notes[k]).value);
      NoteInv(after, k) && SaleInv(after, i)
    ensures Inv(AfterIssue(b, k, shelf, UnwindReference(b, b.notes[k]).value))
  {
    var after := AfterIssue(b, k, shelf, UnwindReference(b, b.notes[k]).value);
    assert after.entries[|b.entries|].source == CreditNote(k);
    NotedElsewhere(b, after, k);
    Assemble(b, after, {NoteDoc(k), SaleDoc(i)});
  }

  lemma AssembleAlone(b: Books, k: nat, shelf: Shelf)
    requires Inv(b) && k < |b.notes| && b.notes[k].reference == None && b.notes[k].status == DraftNote
    requires StockInv(shelf) && JournalInv(b.accounts, b.entries + [NoteEntry(b, k)])
    requires NoteInv(AfterIssue(b, k, shelf, b.sales), k)
    ensures Inv(AfterIssue(b, k, shelf, b.sales))
  {
    var after := AfterIssue(b, k, shelf, b.sales);
    assert after.entries[|b.entries|].source == CreditNote(k);
    NotedElsewhere(b, after, k);
    Assemble(b, after, {NoteDoc(k)});
  }

  lemma NotedElsewhere(b: Books, after: Books, k: nat)
    requires k < |b.notes| && b.notes[k].status == DraftNote
    requires |after.notes| == |b.notes| && after.notes == b.notes[k := after.notes[k]]
    requires after.notes[k].reference == b.notes[k].reference
    ensures forall i: nat :: Some(i) != b.notes[k].reference ==> Noted(after.notes, i) == Noted(b.notes, i)
  {
    forall i: nat | Some(i) != b.notes[k].reference ensures Noted(after.notes, i) == Noted(b.notes, i) {
      if Noted(b.notes, i) {
        var m :| 0 <= m < |b.notes| && b.notes[m].status == Issued && b.notes[m].reference == Some(i);
        assert after.notes[m] == b.notes[m];
      }
      if Noted(after.notes, i) {
        var m :| 0 <= m < |after.notes| && after.notes[m].status == Issued && after.notes[m].reference == Some(i);
        assert after.notes[m] == b.notes[m];
      }
    }
  }

  /** An invoice cannot become released while nothing is booked for it. */
  lemma ReleasedUnbooked(b: Books, after: Books, i: nat)
    requires SourcesKnown(b) && i < |b.sales| && i < |after.sales|
    requires SaleLedger(b, i) && !Released(b.sales[i].status) && Released(after.sales[i].status)
    requires Undisturbed(b, after, SaleDoc(i))
    ensures !SaleInv(after, i)
  {
    NetStable(b, after, SaleDoc(i), REVENUE);
    assert DocNet(after.payments, after.entries, SaleDoc(i), REVENUE) == 0;
    if Sellable(after.sales[i].total, after.sales[i].taxTotal) {
      assert SaleNet(after.sales[i], PaidRows(after.payments, OnSale(i)), REVENUE) < 0;
      assert !SaleLedger(after, i);
    } else {
      assert !SaleRow(after, i);
    }
  }

  /** Without the guard, issuing "releases" an invoice that has nothing on the ledger. */
  lemma UnguardedIssueBreaks(b: Books, k: nat)
    requires Inv(b) && IssueNote(b, k).Ok? && !NoteGuard(b, k)
    ensures !Inv(IssueNote(b, k).value)
  {
    assert NoteInv(b, k);
    IssueEffect(b, k);
    var i := b.notes[k].reference.value;
    var after := IssueNote(b, k).value;
    assert SaleInv(b, i);
    assert after.entries[|b.entries|] == NoteEntry(b, k);
    ReleasedUnbooked(b, after, i);
  }

  /** Exactly when an issued note leaves the books sound. */
  lemma IssueNoteExactly(b: Books, k: nat)
    requires Inv(b) && IssueNote(b, k).Ok?
    ensures Inv(IssueNote(b, k).value) <==> NoteGuard(b, k)
  {
    if NoteGuard(b, k) {
      IssueNoteKeeps(b, k);
    } else {
      UnguardedIssueBreaks(b, k);
    }
  }
}
