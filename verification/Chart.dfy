/** What changes of the chart of accounts and of drafts of the journal leave intact. */
module Chart {
  import opened Common
  import opened Sums
  import opened Journal
  import opened Books
  import opened EveryRun
  import ReportedBalances
  import Reports

  /** The journal stays sound and every line stays on an active account, if it was. */
  predicate LinesStay(b: Books, after: Books) {
    && (JournalInv(b.accounts, b.entries) ==> JournalInv(after.accounts, after.entries))
    && (LinesVisible(b.accounts, b.entries) ==> LinesVisible(after.accounts, after.entries))
  }

  /** Switching an account off or re-typing it never strands a journal line. */
  lemma UpdateKeepsLines(b: Books, i: nat, kind: Kind, active: Option<bool>)
    requires UpdateAccount(b, i, kind, active).Ok?
    ensures LinesStay(b, UpdateAccount(b, i, kind, active).value)
  {
    ChartGrows(b.accounts, UpdateAccount(b, i, kind, active).value.accounts, b.entries);
  }

  lemma RemoveKeepsLines(b: Books, i: nat)
    requires RemoveAccount(b, i).Ok?
    ensures LinesStay(b, RemoveAccount(b, i).value)
  {
    ChartGrows(b.accounts, RemoveAccount(b, i).value.accounts, b.entries);
  }

  /** A removed account is off the chart: codes are unique, so nothing can be posted to its code again. */
  lemma RemovedTakesNoPosting(b: Books, i: nat, e: Entry, j: nat)
    requires UniqueCodes(b.accounts) && RemoveAccount(b, i).Ok?
    requires j < |e.lines| && e.lines[j].account == b.accounts[i].code
    requires e.source == Manual || !Booked(b.entries, e.source)
    ensures var after := RemoveAccount(b, i).value;
      !OnChart(after.accounts, b.accounts[i].code) && Post(after.accounts, after.entries, e).Err?
  {
    var after := RemoveAccount(b, i).value;
    var code := b.accounts[i].code;
    forall m | 0 <= m < |after.accounts| && after.accounts[m].code == code ensures after.accounts[m].deleted {
      assert b.accounts[m].code == code;
    }
    assert !LineSound(after.accounts, e.lines[j]);
    PostAccepts(after.accounts, after.entries, e);
  }

  /** An account of the code is active and not deleted. */
  predicate ListedCode(accounts: seq<Account>, code: nat) {
    exists i :: 0 <= i < |accounts| && accounts[i].code == code && accounts[i].active && !accounts[i].deleted
  }

  /** Every line is on a listed account and has exactly one positive side, and debits equal credits. */
  predicate Postable(accounts: seq<Account>, lines: seq<Line>) {
    && (forall j :: 0 <= j < |lines| ==>
          && ListedCode(accounts, lines[j].account)
          && ((lines[j].debit > 0 && lines[j].credit == 0) || (lines[j].debit == 0 && lines[j].credit > 0)))
    && Sum(lines, Debits()) == Sum(lines, Credits())
  }

  lemma ListedIsOnChart(accounts: seq<Account>, code: nat)
    ensures ListedCode(accounts, code) <==> ActiveOnChart(accounts, code)
    ensures ListedCode(accounts, code) ==> OnChart(accounts, code)
  {
  }

  /** A manual entry is taken exactly when it is postable, and is stored as a draft of the given date. */
  lemma DraftDoes(b: Books, date: int, lines: seq<Line>)
    ensures CreateEntry(b, date, lines).Ok? <==> Postable(b.accounts, lines)
    ensures CreateEntry(b, date, lines).Ok? ==>
              CreateEntry(b, date, lines).value == b.(entries := b.entries + [Entry(date, Draft, Manual, None, lines)])
  {
    PostAccepts(b.accounts, b.entries, Entry(date, Draft, Manual, None, lines));
    SignedIsDebitsLessCredits(lines);
    forall j | 0 <= j < |lines|
      ensures ListedCode(b.accounts, lines[j].account) <==> ActiveOnChart(b.accounts, lines[j].account)
      ensures ListedCode(b.accounts, lines[j].account) ==> OnChart(b.accounts, lines[j].account)
    {
      ListedIsOnChart(b.accounts, lines[j].account);
    }
  }

  /** The original is marked, and a posted entry of the given date that swaps the sides of its lines is added. */
  predicate IsReversed(before: seq<Entry>, after: seq<Entry>, k: nat, date: int)
    requires k < |before|
  {
    && |after| == |before| + 1
    && after[..|before|] == before[k := before[k].(status := Reversed)]
    && after[|before|] == Entry(date, Posted, Reversal(k), Some(k), after[|before|].lines)
    && |after[|before|].lines| == |before[k].lines|
    && (forall j :: 0 <= j < |before[k].lines| ==>
          after[|before|].lines[j] == Line(before[k].lines[j].account, before[k].lines[j].credit, before[k].lines[j].debit))
  }

  lemma ReverseDoes(b: Books, k: nat, date: int)
    requires JournalInv(b.accounts, b.entries)
    ensures ReverseEntry(b, k, date).Ok? <==>
              k < |b.entries| && b.entries[k].status == Posted && b.entries[k].reversalOf == None
    ensures ReverseEntry(b, k, date).Ok? ==>
              && k < |b.entries| && IsReversed(b.entries, ReverseEntry(b, k, date).value.entries, k, date)
              && ReverseEntry(b, k, date).value == b.(entries := ReverseEntry(b, k, date).value.entries)
  {
    ReverseKeeps(b.accounts, b.entries, k, date);
  }

  /** Approving turns a draft into an entry that counts in the reports and that can be reversed, once. */
  lemma ApprovalMeaning(b: Books, k: nat, date: int, code: nat, from: int, to: int)
    requires JournalInv(b.accounts, b.entries) && ApproveEntry(b, k).Ok?
    ensures var after := ApproveEntry(b, k).value;
      && JournalInv(after.accounts, after.entries)
      && Reverse(b.accounts, b.entries, k, date).Err? && Reverse(after.accounts, after.entries, k, date).Ok?
      && Reports.Net(after.entries, code, from, to)
         == Reports.Net(b.entries, code, from, to)
            + if from <= b.entries[k].date <= to then Sum(b.entries[k].lines, OnAccount(code)) else 0
  {
    var posted := b.entries[k].(status := Posted);
    ApprovalKeepsJournal(b, k);
    assert ReversalSound(b.entries, k);
    ReverseKeeps(b.accounts, b.entries[k := posted], k, date);
    ReportedBalances.NetIsCounted(b.entries, code, from, to);
    ReportedBalances.NetIsCounted(b.entries[k := posted], code, from, to);
    SumUpdate(b.entries, k, posted, ReportedBalances.Counted(code, from, to));
  }

  /** Entry k could not be reversed on any date, and now it can on every date. */
  ghost predicate BecameReversible(b: Books, after: Books, k: nat) {
    forall date ::
      Reverse(b.accounts, b.entries, k, date).Err? && Reverse(after.accounts, after.entries, k, date).Ok?
  }

  lemma ApprovedIsReversible(b: Books, k: nat)
    requires JournalInv(b.accounts, b.entries) && ApproveEntry(b, k).Ok?
    ensures JournalInv(ApproveEntry(b, k).value.accounts, ApproveEntry(b, k).value.entries)
    ensures BecameReversible(b, ApproveEntry(b, k).value, k)
  {
    ApprovalKeepsJournal(b, k);
    forall date
      ensures Reverse(b.accounts, b.entries, k, date).Err?
      ensures Reverse(b.accounts, ApproveEntry(b, k).value.entries, k, date).Ok?
    {
      ApprovalMeaning(b, k, date, 0, 0, 0);
    }
  }

  lemma ApprovalKeepsJournal(b: Books, k: nat)
    requires JournalInv(b.accounts, b.entries) && ApproveEntry(b, k).Ok?
    ensures JournalInv(ApproveEntry(b, k).value.accounts, ApproveEntry(b, k).value.entries)
  {
    var entries := b.entries[k := b.entries[k].(status := Posted)];
    assert ReversalSound(b.entries, k);
    forall m | 0 <= m < |entries| ensures ReversalSound(entries, m) {
      assert ReversalSound(b.entries, m);
      if entries[m].status == Reversed {
        var r :| 0 <= r < |b.entries| && b.entries[r].source == Reversal(m);
        assert entries[r].source == Reversal(m);
      }
    }
  }
}
