/** The posting service, writing to the journal table in place. */
module LedgerService {
  import opened Common
  import opened Sums
  import opened Journal
  import opened Books
  import opened Tables

  /** The first bad line of a prefix is the first bad line of the whole list. */
  lemma {:induction false} FirstErrorOfPrefix(accounts: seq<Account>, lines: seq<Line>, k: nat)
    requires k <= |lines| && FirstError(accounts, lines[..k]).Some?
    ensures FirstError(accounts, lines) == FirstError(accounts, lines[..k])
  {
    if k == |lines| {
      assert lines[..k] == lines;
    } else {
      var n := |lines| - 1;
      assert lines[..n][..k] == lines[..k];
      FirstErrorOfPrefix(accounts, lines[..n], k);
    }
  }

  /**
   Books one entry: nothing happens when its source was booked before, the first
   unacceptable line or an imbalance refuses it, otherwise it is appended.
   */
  method PostEntry(db: Database, e: Entry) returns (failure: Option<Error>, created: bool)
    modifies db`entries
    ensures match Post(db.accounts, old(db.entries), e)
            case Ok(entries) => failure == None && db.entries == entries
            case Err(error) => failure == Some(error) && db.entries == old(db.entries)
    ensures created <==> failure == None && !(e.source != Manual && Booked(old(db.entries), e.source))
  {
    failure, created := None, false;
    if e.source != Manual && Booked(db.entries, e.source) {
      return;
    }
    var totalDebit, totalCredit := 0, 0;
    var resolved: seq<Line> := [];
    for k := 0 to |e.lines|
      invariant failure == None && !created && db.entries == old(db.entries)
      invariant FirstError(db.accounts, e.lines[..k]) == None
      invariant totalDebit == Sum(e.lines[..k], Debits()) && totalCredit == Sum(e.lines[..k], Credits())
      invariant resolved == e.lines[..k]
    {
      var line := e.lines[k];
      assert e.lines[..k + 1] == e.lines[..k] + [line];
      SumAppend(e.lines[..k], line, Debits());
      SumAppend(e.lines[..k], line, Credits());
      if !OnChart(db.accounts, line.account) {
        FirstErrorOfPrefix(db.accounts, e.lines, k + 1);
        return Some(NotFound), false;
      }
      if line.debit < 0 || line.credit < 0 {
        FirstErrorOfPrefix(db.accounts, e.lines, k + 1);
        return Some(BadRequest), false;
      }
      if (line.debit > 0 && line.credit > 0) || (line.debit == 0 && line.credit == 0) {
        FirstErrorOfPrefix(db.accounts, e.lines, k + 1);
        return Some(BadRequest), false;
      }
      totalDebit := totalDebit + line.debit;
      totalCredit := totalCredit + line.credit;
      resolved := resolved + [line];
    }
    assert e.lines[..|e.lines|] == e.lines;
    if totalDebit != totalCredit {
      return Some(BadRequest), false;
    }
    db.entries := db.entries + [e.(lines := resolved)];
    created := true;
  }

  /** An automatic posting of a document service. */
  method PostAutomatic(db: Database, date: int, source: Source, lines: seq<Line>) returns (failure: Option<Error>)
    modifies db`entries
    ensures Committed(PostAuto(old(db.View()), date, source, lines), old(db.View()), failure, db.View())
  {
    var created;
    failure, created := PostEntry(db, Entry(date, Posted, source, None, lines));
  }

  /** postSaleCogs and postSaleCogsReversal book nothing for a cost that is not positive. */
  method PostCostLines(db: Database, date: int, source: Source, cost: int, lines: seq<Line>) returns (failure: Option<Error>)
    modifies db`entries
    ensures Committed(PostCost(old(db.View()), date, source, cost, lines), old(db.View()), failure, db.View())
  {
    failure := None;
    if cost > 0 {
      failure := PostAutomatic(db, date, source, lines);
    }
  }
}
