/**
 Chart of accounts and double-entry journal. Accounts are identified by their
 code, which is unique in an organization and never updated; entries are
 identified by their position in the append-only table. Amounts are cents.
 */
module Journal {
  import opened Common
  import opened Sums

  const CASH: nat := 1100
  const AR: nat := 1200
  const INVENTORY: nat := 1300
  const VAT_INPUT: nat := 1400
  const AP: nat := 2100
  const VAT_OUTPUT: nat := 2200
  const REVENUE: nat := 4100
  const COGS: nat := 5100

  datatype Kind = Asset | Liability | Equity | Income | Expense

  datatype Account = Account(code: nat, kind: Kind, active: bool, deleted: bool)

  datatype Line = Line(account: nat, debit: int, credit: int)

  datatype EntryStatus = Draft | Posted | Reversed

  /** The (sourceType, sourceId) pair; a manual entry has no source id. */
  datatype Source =
    | Manual
    | Reversal(entry: nat)
    | SaleInvoice(sale: nat)
    | SaleVoid(sale: nat)
    | SaleCogs(sale: nat)
    | SaleCogsReversal(sale: nat)
    | SalePayment(payment: nat)
    | SalePaymentReversal(payment: nat)
    | PurchaseInvoice(purchase: nat)
    | PurchaseVoid(purchase: nat)
    | PurchasePayment(payment: nat)
    | PurchasePaymentReversal(payment: nat)
    | CreditNote(note: nat)

  datatype Entry = Entry(date: int, status: EntryStatus, source: Source, reversalOf: Option<nat>, lines: seq<Line>)

  /* --------------------------------- posting -------------------------------- */

  /** The chart lookup of post: by code, skipping soft-deleted accounts, whether active or not. */
  predicate OnChart(accounts: seq<Account>, code: nat) {
    exists i :: 0 <= i < |accounts| && accounts[i].code == code && !accounts[i].deleted
  }

  predicate OneSided(l: Line) {
    l.debit >= 0 && l.credit >= 0 && (l.debit > 0) != (l.credit > 0)
  }

  function LineError(accounts: seq<Account>, l: Line): Option<Error> {
    if !OnChart(accounts, l.account) then Some(NotFound)
    else if !OneSided(l) then Some(BadRequest)
    else None
  }

  /** The error of the first offending line. */
  function FirstError(accounts: seq<Account>, lines: seq<Line>): Option<Error> {
    if lines == [] then None
    else
      var earlier := FirstError(accounts, lines[..|lines| - 1]);
      if earlier.Some? then earlier else LineError(accounts, lines[|lines| - 1])
  }

  function Debits(): Line -> int {
    (l: Line) => l.debit
  }

  function Credits(): Line -> int {
    (l: Line) => l.credit
  }

  predicate Booked(entries: seq<Entry>, source: Source) {
    exists k :: 0 <= k < |entries| && entries[k].source == source
  }

  /** Posting: idempotent per source, refused unless every line is one-sided on the chart and the entry balances. */
  function Post(accounts: seq<Account>, entries: seq<Entry>, e: Entry): Result<seq<Entry>> {
    if e.source != Manual && Booked(entries, e.source) then Ok(entries)
    else
      var bad := FirstError(accounts, e.lines);
      if bad.Some? then Err(bad.value)
      else if Sum(e.lines, Debits()) != Sum(e.lines, Credits()) then Err(BadRequest)
      else Ok(entries + [e])
  }

  /* ------------------------------- invariants ------------------------------- */

  function Signed(): Line -> int {
    (l: Line) => l.debit - l.credit
  }

  /** Debit less credit on one account. */
  function OnAccount(code: nat): Line -> int {
    (l: Line) => if l.account == code then l.debit - l.credit else 0
  }

  predicate Balanced(lines: seq<Line>) {
    Sum(lines, Signed()) == 0
  }

  predicate LineSound(accounts: seq<Account>, l: Line) {
    OnChart(accounts, l.account) && OneSided(l)
  }

  predicate LinesSound(accounts: seq<Account>, lines: seq<Line>) {
    && (forall j :: 0 <= j < |lines| ==> LineSound(accounts, lines[j]))
    && Balanced(lines)
  }

  predicate UniqueCodes(accounts: seq<Account>) {
    forall i, j :: 0 <= i < j < |accounts| ==> accounts[i].code != accounts[j].code
  }

  predicate UniqueSources(entries: seq<Entry>) {
    forall i, j :: 0 <= i < j < |entries| && entries[i].source != Manual ==> entries[i].source != entries[j].source
  }

  function MirrorLine(l: Line): Line {
    Line(l.account, l.credit, l.debit)
  }

  function Mirror(lines: seq<Line>): seq<Line> {
    seq(|lines|, i requires 0 <= i < |lines| => MirrorLine(lines[i]))
  }

  /** Entry k is a live, untouched mirror of the earlier entry it reverses, or reverses nothing. */
  predicate ReversalSound(entries: seq<Entry>, k: nat)
    requires k < |entries|
  {
    var e := entries[k];
    && (e.reversalOf.Some? <==> e.source.Reversal?)
    && (e.reversalOf.Some? ==>
          var j := e.reversalOf.value;
          && e.source == Reversal(j)
          && j < k
          && e.status == Posted
          && entries[j].status == Reversed
          && entries[j].reversalOf == None
          && e.lines == Mirror(entries[j].lines))
    && (e.status == Reversed ==> Booked(entries, Reversal(k)))
    && (e.status == Draft ==> e.source == Manual)
  }

  predicate JournalInv(accounts: seq<Account>, entries: seq<Entry>) {
    && UniqueCodes(accounts)
    && (forall k :: 0 <= k < |entries| ==> LinesSound(accounts, entries[k].lines))
    && UniqueSources(entries)
    && (forall k :: 0 <= k < |entries| ==> ReversalSound(entries, k))
  }

  /* ------------------------------ what post keeps --------------------------- */

  lemma {:induction false} NoErrorMeansSound(accounts: seq<Account>, lines: seq<Line>)
    ensures FirstError(accounts, lines).None?
            <==> forall j :: 0 <= j < |lines| ==> LineSound(accounts, lines[j])
  {
    if lines != [] {
      var n := |lines| - 1;
      NoErrorMeansSound(accounts, lines[..n]);
    }
  }

  lemma {:induction false} SignedIsDebitsLessCredits(lines: seq<Line>)
    ensures Sum(lines, Signed()) == Sum(lines, Debits()) - Sum(lines, Credits())
  {
    if lines != [] {
      SignedIsDebitsLessCredits(lines[..|lines| - 1]);
    }
  }

  /**
   Post accepts an entry exactly when its source is new and its lines are sound;
   an accepted entry is appended once and a repeated source changes nothing.
   */
  lemma PostAccepts(accounts: seq<Account>, entries: seq<Entry>, e: Entry)
    ensures e.source != Manual && Booked(entries, e.source) ==> Post(accounts, entries, e) == Ok(entries)
    ensures !(e.source != Manual && Booked(entries, e.source)) ==>
              (Post(accounts, entries, e) == Ok(entries + [e]) <==> LinesSound(accounts, e.lines))
    ensures !(e.source != Manual && Booked(entries, e.source)) && !LinesSound(accounts, e.lines) ==>
              Post(accounts, entries, e).Err?
  {
    NoErrorMeansSound(accounts, e.lines);
    SignedIsDebitsLessCredits(e.lines);
  }

  /** Appending a sound entry of a fresh source keeps the journal sound. */
  lemma AppendKeeps(accounts: seq<Account>, entries: seq<Entry>, e: Entry)
    requires JournalInv(accounts, entries)
    requires LinesSound(accounts, e.lines)
    requires e.source == Manual || (!e.source.Reversal? && e.status == Posted && !Booked(entries, e.source))
    requires e.reversalOf == None && e.status != Reversed
    ensures JournalInv(accounts, entries + [e])
  {
    var after := entries + [e];
    forall k | 0 <= k < |after| ensures ReversalSound(after, k) {
      if k < |entries| {
        assert ReversalSound(entries, k);
        if entries[k].status == Reversed {
          var m :| 0 <= m < |entries| && entries[m].source == Reversal(k);
          assert after[m].source == Reversal(k);
        }
      }
    }
  }

  /* -------------------------------- reversal -------------------------------- */

  /** reverseEntry: book the mirror, then flip the original. */
  function Reverse(accounts: seq<Account>, entries: seq<Entry>, k: nat, date: int): Result<seq<Entry>> {
    if k >= |entries| then Err(NotFound)
    else if entries[k].status != Posted || entries[k].reversalOf.Some? then Err(Conflict)
    else if Booked(entries, Reversal(k)) then Err(Conflict)
    else
      var posted :- Post(accounts, entries, Entry(date, Posted, Reversal(k), Some(k), Mirror(entries[k].lines)));
      if k < |posted| then Ok(posted[k := posted[k].(status := Reversed)]) else Err(Conflict)
  }

  lemma {:induction false} MirrorCancels(lines: seq<Line>, code: nat)
    ensures Sum(Mirror(lines), OnAccount(code)) == -Sum(lines, OnAccount(code))
    ensures Sum(Mirror(lines), Signed()) == -Sum(lines, Signed())
  {
    if lines != [] {
      var n := |lines| - 1;
      MirrorCancels(lines[..n], code);
      assert Mirror(lines)[..n] == Mirror(lines[..n]);
    }
  }

  lemma MirrorSound(accounts: seq<Account>, lines: seq<Line>)
    requires LinesSound(accounts, lines)
    ensures LinesSound(accounts, Mirror(lines))
  {
    MirrorCancels(lines, 0);
    forall j | 0 <= j < |lines| ensures LineSound(accounts, Mirror(lines)[j]) {
      assert LineSound(accounts, lines[j]);
    }
  }

  /**
   A posted entry that is not itself a reversal can always be reversed, exactly
   once; nothing else can. The two entries cancel on every account.
   */
  lemma ReverseKeeps(accounts: seq<Account>, entries: seq<Entry>, k: nat, date: int)
    requires JournalInv(accounts, entries)
    ensures Reverse(accounts, entries, k, date).Ok?
            <==> k < |entries| && entries[k].status == Posted && entries[k].reversalOf == None
    ensures Reverse(accounts, entries, k, date).Ok? ==>
              var after := Reverse(accounts, entries, k, date).value;
              && JournalInv(accounts, after)
              && after == entries[k := entries[k].(status := Reversed)]
                          + [Entry(date, Posted, Reversal(k), Some(k), Mirror(entries[k].lines))]
              && Reverse(accounts, after, k, date).Err?
              && Reverse(accounts, after, |entries|, date).Err?
              && forall code :: Sum(after[|entries|].lines, OnAccount(code)) == -Sum(after[k].lines, OnAccount(code))
  {
    if k < |entries| && entries[k].status == Posted && entries[k].reversalOf == None {
      NotYetReversed(accounts, entries, k);
      MirrorSound(accounts, entries[k].lines);
      var e := Entry(date, Posted, Reversal(k), Some(k), Mirror(entries[k].lines));
      PostAccepts(accounts, entries, e);
      var flipped := entries[k := entries[k].(status := Reversed)];
      var after := flipped + [e];
      assert (entries + [e])[k := entries[k].(status := Reversed)] == after;
      ReversalShape(accounts, entries, k, date);
      forall code ensures Sum(after[|entries|].lines, OnAccount(code)) == -Sum(after[k].lines, OnAccount(code)) {
        MirrorCancels(entries[k].lines, code);
      }
    }
  }

  lemma NotYetReversed(accounts: seq<Account>, entries: seq<Entry>, k: nat)
    requires JournalInv(accounts, entries)
    requires k < |entries| && entries[k].status == Posted
    ensures !Booked(entries, Reversal(k))
  {
    forall m | 0 <= m < |entries| ensures entries[m].source != Reversal(k) {
      assert ReversalSound(entries, m);
    }
  }

  lemma ReversalShape(accounts: seq<Account>, entries: seq<Entry>, k: nat, date: int)
    requires JournalInv(accounts, entries)
    requires k < |entries| && entries[k].status == Posted && entries[k].reversalOf == None
    ensures JournalInv(accounts, entries[k := entries[k].(status := Reversed)]
                                 + [Entry(date, Posted, Reversal(k), Some(k), Mirror(entries[k].lines))])
  {
    var e := Entry(date, Posted, Reversal(k), Some(k), Mirror(entries[k].lines));
    var after := entries[k := entries[k].(status := Reversed)] + [e];
    NotYetReversed(accounts, entries, k);
    MirrorSound(accounts, entries[k].lines);
    forall i | 0 <= i < |after| ensures ReversalSound(after, i) {
      if i < |entries| {
        assert ReversalSound(entries, i);
        assert after[|entries|].source == Reversal(k);
        if entries[i].status == Reversed {
          var m :| 0 <= m < |entries| && entries[m].source == Reversal(i);
          assert after[m].source == Reversal(i);
        }
      }
    }
    forall i, j | 0 <= i < j < |after| && after[i].source != Manual ensures after[i].source != after[j].source {
      assert i < |entries|;
      if j == |entries| {
        assert entries[i].source != Reversal(k);
      }
    }
  }

  /** Reversed status and reversal entries are one-to-one in every sound journal. */
  lemma ReversalsPairUp(accounts: seq<Account>, entries: seq<Entry>, k: nat)
    requires JournalInv(accounts, entries) && k < |entries|
    ensures entries[k].status == Reversed
            <==> exists m :: 0 <= m < |entries| && entries[m].reversalOf == Some(k)
    ensures forall m, n :: (0 <= m < |entries| && 0 <= n < |entries|
                            && entries[m].reversalOf == Some(k) && entries[n].reversalOf == Some(k)) ==> m == n
    ensures forall m, code :: 0 <= m < |entries| && entries[m].reversalOf == Some(k) ==>
              entries[m].status == Posted && Sum(entries[m].lines, OnAccount(code)) == -Sum(entries[k].lines, OnAccount(code))
  {
    assert ReversalSound(entries, k);
    forall m | 0 <= m < |entries| && entries[m].reversalOf == Some(k) ensures entries[k].status == Reversed {
      assert ReversalSound(entries, m);
    }
    if entries[k].status == Reversed {
      var m :| 0 <= m < |entries| && entries[m].source == Reversal(k);
      assert ReversalSound(entries, m);
    }
    forall m, code | 0 <= m < |entries| && entries[m].reversalOf == Some(k)
      ensures entries[m].status == Posted && Sum(entries[m].lines, OnAccount(code)) == -Sum(entries[k].lines, OnAccount(code))
    {
      assert ReversalSound(entries, m);
      MirrorCancels(entries[k].lines, code);
    }
    forall m, n | 0 <= m < |entries| && 0 <= n < |entries|
                  && entries[m].reversalOf == Some(k) && entries[n].reversalOf == Some(k)
      ensures m == n
    {
      assert ReversalSound(entries, m) && ReversalSound(entries, n);
    }
  }
}
