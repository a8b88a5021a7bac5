/** Credit notes, updated in place inside one transaction per call. */
module CreditNotesService {
  import opened Common
  import opened Money
  import opened Stock
  import opened Journal
  import opened Books
  import opened Tables
  import opened LedgerService
  import opened StockLoops
  import Drafts
  import Invariant
  import NoteEffects

  /** Stores a draft note, on its own or against an invoice of the same party that is not void. */
  method CreateDraft(db: Database, party: nat, reference: Option<nat>, date: int, lines: seq<LineRequest>)
    returns (failure: Option<Error>)
    modifies db`notes
    ensures Committed(CreateNote(old(db.View()), party, reference, date, lines), old(db.View()), failure, db.View())
    ensures party >= |db.parties| ==> failure == Some(NotFound)
    ensures party < |db.parties| && db.parties[party].kind == Supplier ==> failure == Some(BadRequest)
    ensures failure == None <==>
              && party < |db.parties| && db.parties[party].kind != Supplier
              && Drafts.MayReference(old(db.View()), party, reference) && Drafts.ItemsExist(db.items, lines)
    ensures failure == None ==>
              && |db.notes| == |old(db.notes)| + 1 && old(db.notes) <= db.notes
              && Drafts.FreshNote(db.notes[|old(db.notes)|], party, reference, date, lines)
    ensures Invariant.Inv(old(db.View())) ==> Invariant.Inv(db.View())
  {
    Drafts.TotalsAreLineSums(lines);
    if Invariant.Inv(db.View()) && CreateNote(db.View(), party, reference, date, lines).Ok? {
      Drafts.CreateNoteKeepsInv(db.View(), party, reference, date, lines);
    }
    if party >= |db.parties| {
      return Some(NotFound);
    }
    if db.parties[party].kind == Supplier {
      return Some(BadRequest);
    }
    if reference.Some? {
      if reference.value >= |db.sales| {
        return Some(NotFound);
      }
      if db.sales[reference.value].party != party {
        return Some(BadRequest);
      }
      if db.sales[reference.value].status == Void {
        return Some(Conflict);
      }
    }
    if !ItemsKnown(db.View(), lines) {
      return Some(NotFound);
    }
    var t := ComputeTotals(InputsOf(lines));
    db.notes := db.notes + [Note(party, reference, date, DocLinesOf(lines), t.total, t.taxTotal, DraftNote)];
    failure := None;
  }

  /** Takes the credit off what was paid on the referenced invoice, never below zero. */
  method UnwindInvoice(db: Database, note: Note) returns (failure: Option<Error>)
    modifies db`sales
    ensures match UnwindReference(old(db.View()), note)
            case Ok(sales) => failure == None && db.sales == sales
            case Err(error) => failure == Some(error)
  {
    failure := None;
    if note.reference.Some? {
      var i := note.reference.value;
      if i >= |db.sales| {
        return Some(NotFound);
      }
      var invoice := db.sales[i];
      var newPaid := Max(0, invoice.amountPaid - note.total);
      var newStatus :=
        if newPaid >= invoice.total then invoice.status else if newPaid > 0 then PartiallyPaid else Confirmed;
      db.sales := db.sales[i := invoice.(amountPaid := newPaid, status := newStatus)];
    }
  }

  /** The tables after the goods are back, the balance unwound and the note ISSUED, before the entry is posted. */
  function Applied(b: Books, k: nat, sales: seq<Invoice>): Books
    requires k < |b.notes|
  {
    var n := b.notes[k];
    b.(shelf := Restock(b.shelf, n.lines, VoidMove, if n.reference.Some? then n.reference.value else k).shelf,
       sales := sales, notes := b.notes[k := n.(status := Issued)])
  }

  method Apply(db: Database, k: nat) returns (failure: Option<Error>)
    requires k < |db.notes|
    modifies db
    ensures match UnwindReference(old(db.View()), old(db.notes)[k])
            case Ok(sales) => failure == None && db.View() == Applied(old(db.View()), k, sales)
            case Err(error) => failure == Some(error)
  {
    var note := db.notes[k];
    var cost := PutBack(db, note.lines, VoidMove, if note.reference.Some? then note.reference.value else k);
    failure := UnwindInvoice(db, note);
    db.notes := db.notes[k := note.(status := Issued)];
  }

  /** Goods back, the referenced invoice's balance unwound, DRAFT to ISSUED, one entry: all of it or none. */
  method IssueInTransaction(db: Database, k: nat) returns (failure: Option<Error>)
    modifies db
    ensures Committed(IssueNote(old(db.View()), k), old(db.View()), failure, db.View())
  {
    var saved := db.View();
    if k >= |db.notes| {
      return Some(NotFound);
    }
    var note := db.notes[k];
    if note.status != DraftNote {
      return Some(Conflict);
    }
    failure := Apply(db, k);
    if failure.Some? {
      db.Rollback(saved);
      return;
    }
    failure := PostAutomatic(db, note.date, CreditNote(k), CreditNoteLines(note));
    if failure.Some? {
      db.Rollback(saved);
    }
  }

  /** Issues exactly the notes that can be; in any books the referenced invoice has the credit taken off, down to nothing. */
  method Issue(db: Database, k: nat) returns (failure: Option<Error>)
    modifies db
    ensures Committed(IssueNote(old(db.View()), k), old(db.View()), failure, db.View())
    ensures k >= |old(db.notes)| ==> failure == Some(NotFound)
    ensures k < |old(db.notes)| && old(db.notes)[k].status != DraftNote ==> failure == Some(Conflict)
    ensures failure == None ==> k < |old(db.notes)| && NoteEffects.RowsIssued(old(db.View()), db.View(), k)
    ensures Invariant.Inv(old(db.View())) ==> (failure == None <==> NoteEffects.Issuable(old(db.View()), k))
    ensures Invariant.Inv(old(db.View())) && failure == None ==>
              k < |old(db.notes)| && NoteEffects.IsIssued(old(db.View()), db.View(), k)
  {
    ghost var before := db.View();
    failure := IssueInTransaction(db, k);
    if failure.None? {
      NoteEffects.IssueWrites(before, k);
    }
    if Invariant.Inv(before) {
      NoteEffects.IssueDoes(before, k);
    }
  }

  /** Only a draft is cancelled, so a cancelled note has nothing on the ledger and is never issued. */
  method Cancel(db: Database, k: nat) returns (failure: Option<Error>)
    modifies db`notes
    ensures Committed(CancelNote(old(db.View()), k), old(db.View()), failure, db.View())
    ensures k >= |old(db.notes)| ==> failure == Some(NotFound)
    ensures k < |old(db.notes)| && old(db.notes)[k].status != DraftNote ==> failure == Some(Conflict)
    ensures failure == None <==> k < |old(db.notes)| && old(db.notes)[k].status == DraftNote
    ensures failure == None ==> k < |db.notes| && db.notes[k].status == Cancelled && IssueNote(db.View(), k).Err?
    ensures failure == None && Invariant.Inv(old(db.View())) ==>
              && Invariant.Inv(db.View())
              && forall code: nat :: Invariant.DocNet(db.payments, db.entries, Invariant.NoteDoc(k), code) == 0
  {
    if Invariant.Inv(db.View()) && CancelNote(db.View(), k).Ok? {
      Drafts.CancelledBooksNothing(db.View(), k);
    }
    if k >= |db.notes| {
      return Some(NotFound);
    }
    if db.notes[k].status != DraftNote {
      return Some(Conflict);
    }
    db.notes := db.notes[k := db.notes[k].(status := Cancelled)];
    failure := None;
  }
}
