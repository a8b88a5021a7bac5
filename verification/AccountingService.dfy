/** The chart of accounts and the manual journal, updated in place. */
module AccountingService {
  import opened Common
  import opened Journal
  import opened Books
  import opened Tables
  import Chart
  import LedgerService

  method AddAccount(db: Database, code: nat, kind: Kind) returns (failure: Option<Error>)
    modifies db`accounts
    ensures Committed(CreateAccount(old(db.View()), code, kind), old(db.View()), failure, db.View())
    ensures failure.Some? ==> failure == Some(Conflict)
    ensures failure == None <==> forall i :: 0 <= i < |old(db.accounts)| ==> old(db.accounts)[i].code != code
    ensures failure == None ==> db.accounts == old(db.accounts) + [Account(code, kind, true, false)]
  {
    if CodeTaken(db.accounts, code) {
      return Some(Conflict);
    }
    db.accounts := db.accounts + [Account(code, kind, true, false)];
    failure := None;
  }

  /** An account may be re-typed at any time, but is only switched off while nothing was ever booked to it. */
  method ChangeAccount(db: Database, i: nat, kind: Kind, active: Option<bool>) returns (failure: Option<Error>)
    modifies db`accounts
    ensures Committed(UpdateAccount(old(db.View()), i, kind, active), old(db.View()), failure, db.View())
    ensures i >= |old(db.accounts)| || old(db.accounts)[i].deleted ==> failure == Some(NotFound)
    ensures failure == None <==>
              && i < |old(db.accounts)| && !old(db.accounts)[i].deleted
              && (active == Some(false) ==> !HasActivity(old(db.entries), old(db.accounts)[i].code))
    ensures failure == None ==>
              var a := old(db.accounts)[i];
              db.accounts == old(db.accounts)[i := Account(a.code, kind, if active.Some? then active.value else a.active, false)]
    ensures failure == None ==> Chart.LinesStay(old(db.View()), db.View())
  {
    if UpdateAccount(db.View(), i, kind, active).Ok? {
      Chart.UpdateKeepsLines(db.View(), i, kind, active);
    }
    if i >= |db.accounts| || db.accounts[i].deleted {
      return Some(NotFound);
    }
    var row := db.accounts[i];
    if active == Some(false) && HasActivity(db.entries, row.code) {
      return Some(Conflict);
    }
    row := row.(kind := kind);
    if active.Some? {
      row := row.(active := active.value);
    }
    db.accounts := db.accounts[i := row];
    failure := None;
  }

  /** An account with any line, posted or not, stays; a deleted one is off the chart for good. */
  method DeleteAccount(db: Database, i: nat) returns (failure: Option<Error>)
    modifies db`accounts
    ensures Committed(RemoveAccount(old(db.View()), i), old(db.View()), failure, db.View())
    ensures i >= |old(db.accounts)| || old(db.accounts)[i].deleted ==> failure == Some(NotFound)
    ensures failure == None <==>
              && i < |old(db.accounts)| && !old(db.accounts)[i].deleted
              && !HasActivity(old(db.entries), old(db.accounts)[i].code)
    ensures failure == None ==> db.accounts == old(db.accounts)[i := old(db.accounts)[i].(deleted := true)]
    ensures failure == None ==> Chart.LinesStay(old(db.View()), db.View())
    ensures failure == None && UniqueCodes(old(db.accounts)) ==> !OnChart(db.accounts, old(db.accounts)[i].code)
  {
    if RemoveAccount(db.View(), i).Ok? {
      Chart.RemoveKeepsLines(db.View(), i);
    }
    if i >= |db.accounts| || db.accounts[i].deleted {
      return Some(NotFound);
    }
    if HasActivity(db.entries, db.accounts[i].code) {
      return Some(Conflict);
    }
    db.accounts := db.accounts[i := db.accounts[i].(deleted := true)];
    failure := None;
  }

  /** A manual entry starts as a draft and may only use active accounts. */
  method AddEntry(db: Database, date: int, lines: seq<Line>) returns (failure: Option<Error>)
    modifies db`entries
    ensures Committed(CreateEntry(old(db.View()), date, lines), old(db.View()), failure, db.View())
    ensures failure == None <==> Chart.Postable(db.accounts, lines)
    ensures failure == None ==> db.entries == old(db.entries) + [Entry(date, Draft, Manual, None, lines)]
  {
    Chart.DraftDoes(db.View(), date, lines);
    for j := 0 to |lines|
      invariant forall m :: 0 <= m < j ==> ActiveOnChart(db.accounts, lines[m].account)
      invariant db.View() == old(db.View())
    {
      if !ActiveOnChart(db.accounts, lines[j].account) {
        return Some(NotFound);
      }
    }
    var created;
    failure, created := LedgerService.PostEntry(db, Entry(date, Draft, Manual, None, lines));
  }

  /** Turns a draft into a posted entry, which from then on counts and can be reversed. */
  method Approve(db: Database, k: nat) returns (failure: Option<Error>)
    modifies db`entries
    ensures Committed(ApproveEntry(old(db.View()), k), old(db.View()), failure, db.View())
    ensures k >= |old(db.entries)| ==> failure == Some(NotFound)
    ensures k < |old(db.entries)| && old(db.entries)[k].status != Draft ==> failure == Some(Conflict)
    ensures failure == None <==> k < |old(db.entries)| && old(db.entries)[k].status == Draft
    ensures failure == None ==> db.entries == old(db.entries)[k := old(db.entries)[k].(status := Posted)]
    ensures failure == None && JournalInv(db.accounts, old(db.entries)) ==>
              && JournalInv(db.accounts, db.entries)
              && Chart.BecameReversible(old(db.View()), db.View(), k)
  {
    if k >= |db.entries| {
      return Some(NotFound);
    }
    if db.entries[k].status != Draft {
      return Some(Conflict);
    }
    if JournalInv(db.accounts, db.entries) {
      Chart.ApprovedIsReversible(db.View(), k);
    }
    db.entries := db.entries[k := db.entries[k].(status := Posted)];
    failure := None;
  }

  /** Books the exact mirror of a posted entry, then marks the original as reversed. */
  method ReverseInTransaction(db: Database, k: nat, date: int) returns (failure: Option<Error>)
    modifies db`entries
    ensures Committed(ReverseEntry(old(db.View()), k, date), old(db.View()), failure, db.View())
  {
    if k >= |db.entries| {
      return Some(NotFound);
    }
    var original := db.entries[k];
    if original.status != Posted || original.reversalOf.Some? {
      return Some(Conflict);
    }
    var mirrored: seq<Line> := [];
    for j := 0 to |original.lines|
      invariant db.View() == old(db.View())
      invariant mirrored == Mirror(original.lines)[..j]
    {
      mirrored := mirrored + [Line(original.lines[j].account, original.lines[j].credit, original.lines[j].debit)];
    }
    assert mirrored == Mirror(original.lines);
    var created;
    failure, created := LedgerService.PostEntry(db, Entry(date, Posted, Reversal(k), Some(k), mirrored));
    if failure.Some? {
      return;
    }
    if !created {
      return Some(Conflict);
    }
    db.entries := db.entries[k := db.entries[k].(status := Reversed)];
  }

  /** Reverses exactly the posted entries that reverse nothing: each line swaps its sides, on the given date. */
  method ReversePosted(db: Database, k: nat, date: int) returns (failure: Option<Error>)
    modifies db`entries
    ensures Committed(ReverseEntry(old(db.View()), k, date), old(db.View()), failure, db.View())
    ensures k >= |old(db.entries)| ==> failure == Some(NotFound)
    ensures k < |old(db.entries)| && (old(db.entries)[k].status != Posted || old(db.entries)[k].reversalOf.Some?) ==> failure == Some(Conflict)
    ensures JournalInv(db.accounts, old(db.entries)) ==>
              (failure == None <==>
                 k < |old(db.entries)| && old(db.entries)[k].status == Posted && old(db.entries)[k].reversalOf == None)
    ensures JournalInv(db.accounts, old(db.entries)) && failure == None ==>
              k < |old(db.entries)| && Chart.IsReversed(old(db.entries), db.entries, k, date)
  {
    ghost var before := db.View();
    failure := ReverseInTransaction(db, k, date);
    if JournalInv(before.accounts, before.entries) {
      Chart.ReverseDoes(before, k, date);
    }
  }
}
