/**
 What the reports show on an account. They count POSTED entries only, while a
 reversal marks the original REVERSED: a reversal therefore moves a reported
 balance by minus twice the original, and the control accounts agree with their
 subledgers exactly when manual entries and reversals leave them alone.
 */
module ReportedBalances {
  import opened Common
  import opened Sums
  import opened Journal
  import opened Books
  import opened Invariant
  import opened ControlAccounts
  import Reports

  /** Debit less credit of an entry on an account, if the reports count it. */
  function Counted(code: nat, from: int, to: int): Entry -> int {
    (e: Entry) => if e.status == Posted && from <= e.date <= to then Sum(e.lines, OnAccount(code)) else 0
  }

  lemma {:induction false} LineSides(lines: seq<Line>, code: nat)
    ensures Sum(lines, Reports.DebitOn(code)) - Sum(lines, Reports.CreditOn(code)) == Sum(lines, OnAccount(code))
  {
    if lines != [] {
      LineSides(lines[..|lines| - 1], code);
    }
  }

  lemma {:induction false} NetIsCounted(entries: seq<Entry>, code: nat, from: int, to: int)
    ensures Reports.Net(entries, code, from, to) == Sum(entries, Counted(code, from, to))
  {
    if entries != [] {
      var n := |entries| - 1;
      NetIsCounted(entries[..n], code, from, to);
      LineSides(entries[n].lines, code);
    }
  }

  /**
   Reversing an entry moves every reported balance that covers both dates by minus
   twice what the entry had booked, so a report is unchanged exactly on the accounts
   where the entry nets to nothing.
   */
  lemma ReversalMovesReports(accounts: seq<Account>, entries: seq<Entry>, k: nat, date: int, code: nat, from: int, to: int)
    requires JournalInv(accounts, entries) && Reverse(accounts, entries, k, date).Ok?
    requires from <= date <= to && k < |entries| && from <= entries[k].date <= to
    ensures var after := Reverse(accounts, entries, k, date).value;
      && Reports.Net(after, code, from, to)
         == Reports.Net(entries, code, from, to) - 2 * Sum(entries[k].lines, OnAccount(code))
      && (Reports.Net(after, code, from, to) == Reports.Net(entries, code, from, to)
          <==> Sum(entries[k].lines, OnAccount(code)) == 0)
  {
    ReverseKeeps(accounts, entries, k, date);
    var flipped := entries[k := entries[k].(status := Reversed)];
    var mirror := Entry(date, Posted, Reversal(k), Some(k), Mirror(entries[k].lines));
    NetIsCounted(entries, code, from, to);
    NetIsCounted(flipped + [mirror], code, from, to);
    SumUpdate(entries, k, entries[k].(status := Reversed), Counted(code, from, to));
    SumAppend(flipped, mirror, Counted(code, from, to));
    MirrorCancels(entries[k].lines, code);
  }

  /* --------------------- reversals against what they reverse ---------------- */

  /** Manual entries that were approved, reversed since or not. */
  function ManualOn(code: nat): Entry -> int {
    (e: Entry) => if e.source == Manual && e.status != Draft then Sum(e.lines, OnAccount(code)) else 0
  }

  /** Entries that were reversed. */
  function ReversedOn(code: nat): Entry -> int {
    (e: Entry) => if e.status == Reversed then Sum(e.lines, OnAccount(code)) else 0
  }

  function ReversalOn(code: nat): Entry -> int {
    (e: Entry) => if e.source.Reversal? then Sum(e.lines, OnAccount(code)) else 0
  }

  function ReversalOf(k: nat, code: nat): Entry -> int {
    (e: Entry) => if e.source == Reversal(k) then Sum(e.lines, OnAccount(code)) else 0
  }

  function ReversalsByEntry(entries: seq<Entry>, code: nat): nat -> int {
    (k: nat) => Sum(entries, ReversalOf(k, code))
  }

  function OneReversal(e: Entry, code: nat): nat -> int {
    (k: nat) => ReversalOf(k, code)(e)
  }

  predicate ReversalsBelow(entries: seq<Entry>, n: nat) {
    forall m :: 0 <= m < |entries| && entries[m].source.Reversal? ==> entries[m].source.entry < n
  }

  /** Summing the reversal entries and summing them by the entry they reverse agree. */
  lemma {:induction false} SumByReversed(entries: seq<Entry>, code: nat, n: nat)
    requires ReversalsBelow(entries, n)
    ensures Sum(entries, ReversalOn(code)) == SumTo(n, ReversalsByEntry(entries, code))
  {
    if entries == [] {
      SumToZero(n, ReversalsByEntry(entries, code));
    } else {
      var m := |entries| - 1;
      var e := entries[m];
      SumByReversed(entries[..m], code, n);
      if e.source.Reversal? {
        SumToSingle(n, e.source.entry, OneReversal(e, code));
      } else {
        SumToZero(n, OneReversal(e, code));
      }
      SumToAdd(n, ReversalsByEntry(entries[..m], code), OneReversal(e, code), ReversalsByEntry(entries, code));
    }
  }

  lemma ReversalsOfOne(accounts: seq<Account>, entries: seq<Entry>, code: nat, k: nat)
    requires JournalInv(accounts, entries) && k < |entries|
    ensures Sum(entries, ReversalOf(k, code)) == -ReversedOn(code)(entries[k])
  {
    assert ReversalSound(entries, k);
    if entries[k].status == Reversed {
      var m :| 0 <= m < |entries| && entries[m].source == Reversal(k);
      SumSingle(entries, m, ReversalOf(k, code));
      assert ReversalSound(entries, m);
      MirrorCancels(entries[k].lines, code);
    } else {
      forall m | 0 <= m < |entries| ensures ReversalOf(k, code)(entries[m]) == 0 {
        assert ReversalSound(entries, m);
      }
      SumZero(entries, ReversalOf(k, code));
    }
  }

  /** All reversals together undo all reversed entries, account by account. */
  lemma ReversalsUndo(accounts: seq<Account>, entries: seq<Entry>, code: nat)
    requires JournalInv(accounts, entries)
    ensures Sum(entries, ReversalOn(code)) == -Sum(entries, ReversedOn(code))
  {
    forall m | 0 <= m < |entries| && entries[m].source.Reversal? ensures entries[m].source.entry < |entries| {
      assert ReversalSound(entries, m);
    }
    SumByReversed(entries, code, |entries|);
    forall k: nat | k < |entries|
      ensures ReversalsByEntry(entries, code)(k) == At(entries, Negated(ReversedOn(code)))(k)
    {
      ReversalsOfOne(accounts, entries, code, k);
    }
    SumToCongruent(|entries|, ReversalsByEntry(entries, code), At(entries, Negated(ReversedOn(code))));
    SumToIsSum(entries, Negated(ReversedOn(code)));
    NegatedSum(entries, ReversedOn(code));
  }

  /* ---------------------------- reported balances --------------------------- */

  predicate Covers(entries: seq<Entry>, from: int, to: int) {
    forall k :: 0 <= k < |entries| ==> from <= entries[k].date <= to
  }

  /** What was booked for some document. */
  function OwnedOn(payments: seq<Payment>, code: nat): Entry -> int {
    (e: Entry) =>
      if Owner(payments, e.source).Some? && e.status != Draft then Sum(e.lines, OnAccount(code)) else 0
  }

  lemma {:induction false} OwnedByKind(entries: seq<Entry>, payments: seq<Payment>, code: nat)
    ensures Sum(entries, OwnedOn(payments, code))
            == Sum(entries, KindEffect(payments, Sales, code)) + Sum(entries, KindEffect(payments, Purchases, code))
               + Sum(entries, KindEffect(payments, Notes, code))
  {
    if entries != [] {
      OwnedByKind(entries[..|entries| - 1], payments, code);
    }
  }

  /** A source is a document's, or manual, or a reversal. */
  lemma SourceOwned(b: Books, source: Source)
    requires Known(b, source)
    ensures Owner(b.payments, source).Some? <==> source != Manual && !source.Reversal?
  {
  }

  lemma OneCounted(b: Books, k: nat, code: nat, from: int, to: int)
    requires BaseInv(b) && k < |b.entries| && Covers(b.entries, from, to)
    ensures var e := b.entries[k];
      Counted(code, from, to)(e)
      == OwnedOn(b.payments, code)(e) + ManualOn(code)(e) - ReversedOn(code)(e) + ReversalOn(code)(e)
  {
    var e := b.entries[k];
    assert ReversalSound(b.entries, k);
    assert Known(b, e.source);
    SourceOwned(b, e.source);
  }

  lemma {:induction false} SumsSplit(entries: seq<Entry>, payments: seq<Payment>, code: nat, from: int, to: int)
    requires forall k :: 0 <= k < |entries| ==>
               Counted(code, from, to)(entries[k])
               == OwnedOn(payments, code)(entries[k]) + ManualOn(code)(entries[k]) - ReversedOn(code)(entries[k])
                  + ReversalOn(code)(entries[k])
    ensures Sum(entries, Counted(code, from, to))
            == Sum(entries, OwnedOn(payments, code)) + Sum(entries, ManualOn(code)) - Sum(entries, ReversedOn(code))
               + Sum(entries, ReversalOn(code))
  {
    if entries != [] {
      SumsSplit(entries[..|entries| - 1], payments, code, from, to);
    }
  }

  /**
   The balance the reports show over all dates: what the documents booked, plus the
   approved manual entries, less twice everything that was reversed.
   */
  lemma ReportedBalance(b: Books, code: nat, from: int, to: int)
    requires BaseInv(b) && Covers(b.entries, from, to)
    ensures Reports.Net(b.entries, code, from, to)
            == KindNet(b, Sales, code) + KindNet(b, Purchases, code) + KindNet(b, Notes, code)
               + Sum(b.entries, ManualOn(code)) - 2 * Sum(b.entries, ReversedOn(code))
  {
    NetIsCounted(b.entries, code, from, to);
    forall k | 0 <= k < |b.entries|
      ensures Counted(code, from, to)(b.entries[k])
              == OwnedOn(b.payments, code)(b.entries[k]) + ManualOn(code)(b.entries[k])
                 - ReversedOn(code)(b.entries[k]) + ReversalOn(code)(b.entries[k])
    {
      OneCounted(b, k, code, from, to);
    }
    SumsSplit(b.entries, b.payments, code, from, to);
    OwnedByKind(b.entries, b.payments, code);
    ReversalsUndo(b.accounts, b.entries, code);
  }

  lemma PurchaseOffReceivables(b: Books, i: nat)
    requires Inv(b) && i < |b.purchases|
    ensures DocNet(b.payments, b.entries, PurchaseDoc(i), AR) == 0
  {
    assert PurchaseInv(b, i);
  }

  lemma SaleOffPayables(b: Books, i: nat)
    requires Inv(b) && i < |b.sales|
    ensures DocNet(b.payments, b.entries, SaleDoc(i), AP) == 0
  {
    assert SaleInv(b, i);
  }

  /** Purchases book nothing on receivables. */
  lemma PurchasesOffReceivables(b: Books)
    requires Inv(b)
    ensures KindNet(b, Purchases, AR) == 0
  {
    KindsBelow(b, Purchases);
    SumByDocument(b.payments, b.entries, Purchases, AR, |b.purchases|);
    forall i: nat | i < |b.purchases| ensures DocNets(b.payments, b.entries, Purchases, AR)(i) == 0 {
      PurchaseOffReceivables(b, i);
    }
    SumToZero(|b.purchases|, DocNets(b.payments, b.entries, Purchases, AR));
  }

  /** Sales and credit notes book nothing on payables. */
  lemma SalesOffPayables(b: Books)
    requires Inv(b)
    ensures KindNet(b, Sales, AP) == 0
  {
    KindsBelow(b, Sales);
    SumByDocument(b.payments, b.entries, Sales, AP, |b.sales|);
    forall i: nat | i < |b.sales| ensures DocNets(b.payments, b.entries, Sales, AP)(i) == 0 {
      SaleOffPayables(b, i);
    }
    SumToZero(|b.sales|, DocNets(b.payments, b.entries, Sales, AP));
  }

  lemma NotesOffPayables(b: Books)
    requires Inv(b)
    ensures KindNet(b, Notes, AP) == 0
  {
    KindsBelow(b, Notes);
    SumByDocument(b.payments, b.entries, Notes, AP, |b.notes|);
    forall k: nat | k < |b.notes| ensures DocNets(b.payments, b.entries, Notes, AP)(k) == 0 {
      assert NoteInv(b, k);
    }
    SumToZero(|b.notes|, DocNets(b.payments, b.entries, Notes, AP));
  }

  /**
   The balance reported on account 1200 is the released totals less their payment
   rows, less the issued notes, plus manual entries, less twice what was reversed.
   */
  lemma ReportedReceivable(b: Books, from: int, to: int)
    requires Inv(b) && Covers(b.entries, from, to)
    ensures Reports.Net(b.entries, AR, from, to)
            == SumTo(|b.sales|, SaleDues(b)) + Sum(b.notes, IssuedTotal())
               + Sum(b.entries, ManualOn(AR)) - 2 * Sum(b.entries, ReversedOn(AR))
    ensures NoIssuedNotes(b) ==>
              (Reports.Net(b.entries, AR, from, to) == Receivables(b) - Sum(b.sales, Overpaid())
               <==> Sum(b.entries, ManualOn(AR)) == 2 * Sum(b.entries, ReversedOn(AR)))
  {
    ReportedBalance(b, AR, from, to);
    PurchasesOffReceivables(b);
    ArControl(b);
    if NoIssuedNotes(b) {
      ArMatchesReport(b);
    }
  }

  /**
   The balance reported on account 2100 is the payables report less overpayments
   exactly when manual entries on it amount to twice what was reversed on it.
   */
  lemma ReportedPayable(b: Books, from: int, to: int)
    requires Inv(b) && Covers(b.entries, from, to)
    ensures -Reports.Net(b.entries, AP, from, to)
            == Payables(b) - Sum(b.purchases, Overpaid())
               - Sum(b.entries, ManualOn(AP)) + 2 * Sum(b.entries, ReversedOn(AP))
    ensures -Reports.Net(b.entries, AP, from, to) == Payables(b) - Sum(b.purchases, Overpaid())
            <==> Sum(b.entries, ManualOn(AP)) == 2 * Sum(b.entries, ReversedOn(AP))
  {
    ReportedBalance(b, AP, from, to);
    SalesOffPayables(b);
    NotesOffPayables(b);
    ApControl(b);
  }

  /** The row the trial balance returns for an account shows its net on the account's normal side. */
  lemma RowShowsNet(accounts: seq<Account>, entries: seq<Entry>, from: int, to: int,
                    rows: seq<Reports.TrialRow>, k: nat, i: nat)
    requires UniqueCodes(accounts) && Reports.RowsReport(rows, accounts, entries, from, to)
    requires k < |rows| && i < |accounts| && rows[k].code == accounts[i].code
    ensures var net := Reports.Net(entries, accounts[i].code, from, to);
      rows[k].balance == if accounts[i].kind == Asset || accounts[i].kind == Expense then net else -net
  {
    assert rows[k] in rows;
    var a :| a in accounts && Reports.RowReports(rows[k], a, entries, from, to);
    var j :| 0 <= j < |accounts| && accounts[j] == a;
    assert i == j;
  }

  /**
   A trial balance over all dates shows the payables report, less overpayments, on a
   liability account 2100 exactly when manual entries there offset the reversals.
   */
  lemma TrialBalancePayable(b: Books, from: int, to: int, rows: seq<Reports.TrialRow>, k: nat, i: nat)
    requires Inv(b) && Covers(b.entries, from, to) && Reports.RowsReport(rows, b.accounts, b.entries, from, to)
    requires i < |b.accounts| && b.accounts[i].code == AP && b.accounts[i].kind == Liability
    requires k < |rows| && rows[k].code == AP
    ensures rows[k].balance == Payables(b) - Sum(b.purchases, Overpaid())
            <==> Sum(b.entries, ManualOn(AP)) == 2 * Sum(b.entries, ReversedOn(AP))
  {
    RowShowsNet(b.accounts, b.entries, from, to, rows, k, i);
    ReportedPayable(b, from, to);
  }

  /** The same for the receivables report and an asset account 1200, as long as no credit note was issued. */
  lemma TrialBalanceReceivable(b: Books, from: int, to: int, rows: seq<Reports.TrialRow>, k: nat, i: nat)
    requires Inv(b) && Covers(b.entries, from, to) && Reports.RowsReport(rows, b.accounts, b.entries, from, to)
    requires i < |b.accounts| && b.accounts[i].code == AR && b.accounts[i].kind == Asset
    requires k < |rows| && rows[k].code == AR && NoIssuedNotes(b)
    ensures rows[k].balance == Receivables(b) - Sum(b.sales, Overpaid())
            <==> Sum(b.entries, ManualOn(AR)) == 2 * Sum(b.entries, ReversedOn(AR))
  {
    RowShowsNet(b.accounts, b.entries, from, to, rows, k, i);
    ReportedReceivable(b, from, to);
  }
}
