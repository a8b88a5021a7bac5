/**
 Runs that reach states the services should not reach. Each one breaks the
 condition under which the corresponding result is proved.
 */
module Counterexamples {
  import opened Common
  import opened Sums
  import opened Money
  import opened Stock
  import opened Journal
  import opened Books
  import opened EveryRun
  import opened ControlAccounts
  import Reports
  import ReportedBalances

  lemma RunSnoc(b: Books, cs: seq<Command>, c: Command)
    ensures Run(b, cs + [c]) == Step(Run(b, cs), c)
  {
    assert (cs + [c])[..|cs|] == cs;
  }

  /** One unit at 100.00 with 16% tax: 116.00 in all. */
  function OneLine(): seq<LineRequest> {
    [LineRequest(None, LineInput(100, 10000, 1600, 0, 0))]
  }

  lemma OneLineAmounts()
    ensures ComputeLine(LineInput(100, 10000, 1600, 0, 0)) == LineAmounts(10000, 10000, 1600)
  {
    RoundDivUnique(100 * 10000, 100, 10000);
    RoundDivUnique(10000 * 10000, 10000, 10000);
    RoundDivUnique(10000 * 1600, 10000, 1600);
    assert LineAmount(100, 10000) == 10000;
    assert LineTotal(10000, 0, 0) == 10000;
    assert TaxAmount(10000, 1600) == 1600;
  }

  lemma OneLineTotals()
    ensures DraftInvoice(0, OneLine()) == Invoice(0, [DocLine(None, 1000, 10000, 1600)], 11600, 1600, 0, DraftDoc)
  {
    var l := LineInput(100, 10000, 1600, 0, 0);
    OneLineAmounts();
    assert InputsOf(OneLine()) == [l];
    SumOfOne(l, TotalOf());
    SumOfOne(l, TaxOf());
    assert DocLinesOf(OneLine()) == [DocLine(None, 1000, 10000, 1600)];
  }

  /* ------------------- a credit note against a draft invoice ---------------- */

  const DRAFTED := [DoCreateParty(Customer, None), DoCreateSale(0, OneLine())]

  const NOTE_ON_DRAFT := DRAFTED + [DoCreateNote(0, Some(0), 0, OneLine())] + [DoIssueNote(0)]

  function Drafted(accounts: seq<Account>): Books {
    Registered().(accounts := accounts, parties := [Party(Customer, None)], sales := [DraftInvoice(0, OneLine())])
  }

  lemma PartyStep(b: Books)
    requires b.parties == []
    ensures Step(b, DoCreateParty(Customer, None)) == b.(parties := [Party(Customer, None)])
  {
  }

  lemma SaleStep(b: Books)
    requires b.parties == [Party(Customer, None)] && b.sales == []
    ensures Step(b, DoCreateSale(0, OneLine())) == b.(sales := [DraftInvoice(0, OneLine())])
  {
  }

  lemma DraftedRun(b: Books)
    requires b == Registered().(accounts := b.accounts)
    ensures Run(b, DRAFTED) == Drafted(b.accounts)
  {
    var first, second := DoCreateParty(Customer, None), DoCreateSale(0, OneLine());
    assert DRAFTED == [first] + [second];
    assert [] + [first] == [first];
    RunSnoc(b, [], first);
    RunSnoc(b, [first], second);
    PartyStep(b);
    SaleStep(b.(parties := [Party(Customer, None)]));
  }

  function DraftedSale(): Invoice {
    Invoice(0, [DocLine(None, 1000, 10000, 1600)], 11600, 1600, 0, DraftDoc)
  }

  function NoteOnDraft(): Note {
    Note(0, Some(0), 0, DraftedSale().lines, 11600, 1600, DraftNote)
  }

  function NoteIssued(b: Books): Books
    requires |b.sales| == 1
  {
    b.(sales := [DraftedSale().(status := Confirmed)], notes := [NoteOnDraft().(status := Issued)],
       entries := [Entry(0, Posted, CreditNote(0), None, CreditNoteLines(NoteOnDraft()))])
  }

  lemma NoteStep(b: Books)
    requires b == Drafted(SeededChart())
    ensures Step(b, DoCreateNote(0, Some(0), 0, OneLine())) == b.(notes := [NoteOnDraft()])
  {
    OneLineTotals();
  }

  lemma NothingMoves(sh: Shelf, reference: nat)
    ensures Restock(sh, DraftedSale().lines, VoidMove, reference).shelf == sh
    ensures Dispatch(sh, DraftedSale().lines, reference) == Ok(Moved(sh, 0))
  {
    var lines := DraftedSale().lines;
    assert lines[..0] == [];
    assert Restock(sh, lines[..0], VoidMove, reference) == Moved(sh, 0);
  }

  lemma IssueStep(b: Books)
    requires b.entries == [] && b.sales == [DraftedSale()] && b.notes == [NoteOnDraft()]
    requires LinesSound(b.accounts, CreditNoteLines(NoteOnDraft()))
    ensures Step(b, DoIssueNote(0)) == NoteIssued(b)
  {
    var n := NoteOnDraft();
    var e := Entry(0, Posted, CreditNote(0), None, CreditNoteLines(n));
    NothingMoves(b.shelf, 0);
    PostAccepts(b.accounts, b.entries, e);
    assert b.entries + [e] == [e];
  }

  lemma IssuedBalances(b: Books)
    requires b.parties == [Party(Customer, None)] && |b.sales| == 1
    ensures Receivables(NoteIssued(b)) == 11600
    ensures KindNet(NoteIssued(b), ControlAccounts.Sales, AR) == 0
  {
    var after := NoteIssued(b);
    SumOfOne(after.sales[0], OpenOf(0));
    assert SumTo(1, Groups(after.sales)) == SumTo(0, Groups(after.sales)) + Groups(after.sales)(0);
    SumOfOne(after.entries[0], KindEffect(after.payments, ControlAccounts.Sales, AR));
  }

  /**
   Issuing a credit note that references a draft invoice confirms the invoice
   without posting it: the receivables report then claims 116.00 that no sale
   entry ever booked.
   */
  lemma NoteOnDraftConfirmsUnposted()
    ensures var b := Run(Registered(), NOTE_ON_DRAFT);
      && |b.sales| == 1 && b.sales[0].status == Confirmed
      && !Booked(b.entries, SaleInvoice(0))
      && Receivables(b) == 11600
      && KindNet(b, ControlAccounts.Sales, AR) == 0
  {
    var r := Registered();
    var draft := Drafted(r.accounts);
    var create := DoCreateNote(0, Some(0), 0, OneLine());
    DraftedRun(r);
    RunSnoc(r, DRAFTED, create);
    RunSnoc(r, DRAFTED + [create], DoIssueNote(0));
    OneLineTotals();
    NoteStep(draft);
    NotePosts(draft.accounts, NoteOnDraft());
    IssueStep(draft.(notes := [NoteOnDraft()]));
    IssuedBalances(draft.(notes := [NoteOnDraft()]));
  }

  lemma NotePosts(accounts: seq<Account>, n: Note)
    requires accounts == SeededChart() && n.total == 11600 && n.taxTotal == 1600
    ensures LinesSound(accounts, CreditNoteLines(n))
  {
    var l := CreditNoteLines(n);
    assert accounts[2].code == AR && accounts[7].code == VAT_OUTPUT && accounts[11].code == REVENUE;
    SumOfThree(l[0], l[1], l[2], Signed());
    assert LineSound(accounts, l[0]) && LineSound(accounts, l[1]) && LineSound(accounts, l[2]);
  }

  /* ------------------ posting to an account that was switched off ----------- */

  const REVENUE_OFF := [DoUpdateAccount(11, Income, Some(false))]

  const POST_TO_INACTIVE := REVENUE_OFF + DRAFTED + [DoConfirmSale(0, 0)]

  function RevenueOff(): seq<Account> {
    SeededChart()[11 := Account(REVENUE, Income, false, false)]
  }

  function SaleEntry(): Entry {
    Entry(0, Posted, SaleInvoice(0), None, SaleInvoiceLines(DraftedSale()))
  }

  lemma SwitchOffStep()
    ensures Step(Registered(), DoUpdateAccount(11, Income, Some(false))) == Registered().(accounts := RevenueOff())
  {
    assert SeededChart()[11] == Account(REVENUE, Income, true, false);
  }

  /** The accounts a sale posts to are where registration put them. */
  predicate SalesChart(accounts: seq<Account>) {
    && |accounts| == 15
    && accounts[2].code == AR && accounts[7].code == VAT_OUTPUT && accounts[11].code == REVENUE
    && !accounts[2].deleted && !accounts[7].deleted && !accounts[11].deleted
  }

  lemma ConfirmStep(b: Books)
    requires SalesChart(b.accounts) && b == Drafted(b.accounts) && b.sales == [DraftedSale()]
    ensures Step(b, DoConfirmSale(0, 0))
            == b.(sales := [DraftedSale().(status := Confirmed)], entries := [SaleEntry()])
  {
    NothingMoves(b.shelf, 0);
    InvoicePosts(b.accounts, DraftedSale());
  }

  lemma RevenueNet()
    ensures Reports.HiddenNet(RevenueOff(), [SaleEntry()], 0, 0) == -10000
  {
    var e := SaleEntry();
    var l := e.lines;
    SumOfOne(e, Reports.Windowed(0, 0, Reports.DebitOn(REVENUE)));
    SumOfOne(e, Reports.Windowed(0, 0, Reports.CreditOn(REVENUE)));
    SumOfThree(l[0], l[1], l[2], Reports.DebitOn(REVENUE));
    SumOfThree(l[0], l[1], l[2], Reports.CreditOn(REVENUE));
    forall i | 0 <= i < 15 && i != 11 ensures Reports.HiddenIn([e], 0, 0)(RevenueOff()[i]) == 0 {
      assert Visible(RevenueOff()[i]);
    }
    SumSingle(RevenueOff(), 11, Reports.HiddenIn([e], 0, 0));
  }

  /**
   Revenue is deactivated while it has no activity, then a sale is confirmed: post
   books to it anyway, the reports skip it, and the books stop balancing by 100.00.
   */
  lemma InactiveAccountUnbalances()
    ensures var b := Run(Registered(), POST_TO_INACTIVE);
      JournalInv(b.accounts, b.entries) && Reports.HiddenNet(b.accounts, b.entries, 0, 0) == -10000
  {
    var r := Registered();
    var off := r.(accounts := RevenueOff());
    assert REVENUE_OFF == [] + [DoUpdateAccount(11, Income, Some(false))];
    RunSnoc(r, [], DoUpdateAccount(11, Income, Some(false)));
    SwitchOffStep();
    RunAppend(r, REVENUE_OFF, DRAFTED);
    DraftedRun(off);
    RunSnoc(r, REVENUE_OFF + DRAFTED, DoConfirmSale(0, 0));
    OneLineTotals();
    ConfirmStep(Drafted(RevenueOff()));
    RevenueNet();
    EveryRunSound(POST_TO_INACTIVE);
  }

  lemma InvoicePosts(accounts: seq<Account>, s: Invoice)
    requires SalesChart(accounts) && s.total == 11600 && s.taxTotal == 1600
    ensures Post(accounts, [], Entry(0, Posted, SaleInvoice(0), None, SaleInvoiceLines(s)))
            == Ok([Entry(0, Posted, SaleInvoice(0), None, SaleInvoiceLines(s))])
  {
    var l := SaleInvoiceLines(s);
    SumOfThree(l[0], l[1], l[2], Signed());
    var e := Entry(0, Posted, SaleInvoice(0), None, l);
    assert LineSound(accounts, l[0]) && LineSound(accounts, l[1]) && LineSound(accounts, l[2]);
    assert !Booked([], e.source);
    assert [] + [e] == [e];
    PostAccepts(accounts, [], e);
  }

  /* --------------------- reversing the entry of an invoice ------------------ */

  const REVERSED_SALE := DRAFTED + [DoConfirmSale(0, 0)] + [DoReverseEntry(0, 0)]

  function ConfirmedOnce(): Books {
    Drafted(SeededChart()).(sales := [DraftedSale().(status := Confirmed)], entries := [SaleEntry()])
  }

  lemma SaleEntryOnAr()
    ensures Sum(SaleEntry().lines, OnAccount(AR)) == 11600
    ensures Reports.Net([SaleEntry()], AR, 0, 0) == 11600
  {
    var e := SaleEntry();
    var l := e.lines;
    SumOfThree(l[0], l[1], l[2], OnAccount(AR));
    ReportedBalances.NetIsCounted([e], AR, 0, 0);
    SumOfOne(e, ReportedBalances.Counted(AR, 0, 0));
  }

  lemma ReverseStep()
    requires JournalInv(ConfirmedOnce().accounts, ConfirmedOnce().entries)
    ensures var b := Step(ConfirmedOnce(), DoReverseEntry(0, 0));
      b.sales == ConfirmedOnce().sales && b.parties == ConfirmedOnce().parties
      && Reports.Net(b.entries, AR, 0, 0) == -11600
  {
    var b := ConfirmedOnce();
    SaleEntryOnAr();
    ReverseKeeps(b.accounts, b.entries, 0, 0);
    ReportedBalances.ReversalMovesReports(b.accounts, b.entries, 0, 0, AR, 0, 0);
  }

  lemma OneOpenSale(b: Books)
    requires b.sales == [DraftedSale().(status := Confirmed)] && b.parties == [Party(Customer, None)]
    ensures Receivables(b) == 11600
  {
    SumOfOne(b.sales[0], OpenOf(0));
    assert SumTo(1, Groups(b.sales)) == SumTo(0, Groups(b.sales)) + Groups(b.sales)(0);
  }

  /**
   Reversing the posted entry of an open invoice: the receivables report still says
   116.00 is owed, and account 1200 is reported at -116.00, not at zero.
   */
  lemma ReversalDetachesReceivable()
    ensures var b := Run(Registered(), REVERSED_SALE);
      Receivables(b) == 11600 && Reports.Net(b.entries, AR, 0, 0) == -11600
  {
    var r := Registered();
    DraftedRun(r);
    OneLineTotals();
    assert SalesChart(r.accounts);
    RunSnoc(r, DRAFTED, DoConfirmSale(0, 0));
    RunSnoc(r, DRAFTED + [DoConfirmSale(0, 0)], DoReverseEntry(0, 0));
    ConfirmStep(Drafted(r.accounts));
    EveryRunSound(DRAFTED + [DoConfirmSale(0, 0)]);
    ReverseStep();
    OneOpenSale(Run(r, REVERSED_SALE));
  }

  lemma {:induction false} RunAppend(b: Books, first: seq<Command>, then': seq<Command>)
    ensures Run(b, first + then') == Run(Run(b, first), then')
  {
    if then' == [] {
      assert first + then' == first;
    } else {
      var n := |then'| - 1;
      RunAppend(b, first, then'[..n]);
      assert (first + then')[..|first + then'| - 1] == first + then'[..n];
    }
  }
}
