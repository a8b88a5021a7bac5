/**
 What holds after every run with no discipline at all: the journal and the stock
 ledger are sound, and as long as no posting account is switched off, every
 journal line sits on an account the reports list.
 */
module EveryRun {
  import opened Common
  import opened Stock
  import opened Journal
  import opened Books
  import RunProof

  /** The accounts the posting templates use. */
  predicate IsCore(code: nat) {
    code == CASH || code == AR || code == INVENTORY || code == VAT_INPUT
    || code == AP || code == VAT_OUTPUT || code == REVENUE || code == COGS
  }

  predicate CoreLines(lines: seq<Line>) {
    forall j :: 0 <= j < |lines| ==> IsCore(lines[j].account)
  }

  predicate Visible(a: Account) {
    a.active && !a.deleted
  }

  /** Every account that carries a line is active. */
  predicate LinesVisible(accounts: seq<Account>, entries: seq<Entry>) {
    forall k, j :: 0 <= k < |entries| && 0 <= j < |entries[k].lines| ==> ActiveOnChart(accounts, entries[k].lines[j].account)
  }

  predicate CoreActive(accounts: seq<Account>) {
    forall i :: 0 <= i < |accounts| && IsCore(accounts[i].code) ==> accounts[i].active
  }

  predicate Sound(b: Books) {
    JournalInv(b.accounts, b.entries) && StockInv(b.shelf)
  }

  predicate AllVisible(b: Books) {
    CoreActive(b.accounts) && LinesVisible(b.accounts, b.entries)
  }

  /** A predicate chain for one posting: soundness always, visibility when it was there. */
  predicate Carries(b: Books, after: Books) {
    (Sound(b) ==> Sound(after)) && (Sound(b) && AllVisible(b) ==> AllVisible(after))
  }

  lemma PostCarries(b: Books, date: int, source: Source, lines: seq<Line>)
    requires source != Manual && !source.Reversal? && CoreLines(lines)
    requires PostAuto(b, date, source, lines).Ok?
    ensures Carries(b, PostAuto(b, date, source, lines).value)
  {
    var e := Entry(date, Posted, source, None, lines);
    PostAccepts(b.accounts, b.entries, e);
    if Sound(b) && !Booked(b.entries, source) {
      AppendKeeps(b.accounts, b.entries, e);
      if AllVisible(b) {
        forall j | 0 <= j < |lines| ensures ActiveOnChart(b.accounts, lines[j].account) {
          assert LineSound(b.accounts, lines[j]);
        }
      }
    }
  }

  lemma PostCostCarries(b: Books, date: int, source: Source, cost: int, lines: seq<Line>)
    requires source != Manual && !source.Reversal? && CoreLines(lines)
    requires PostCost(b, date, source, cost, lines).Ok?
    ensures Carries(b, PostCost(b, date, source, cost, lines).value)
  {
    if cost > 0 {
      PostCarries(b, date, source, lines);
    }
  }

  lemma {:induction false} UnwindSaleCarries(b: Books, i: nat, date: int, n: nat)
    requires n <= |b.payments| && UnwindSalePayments(b, i, date, n).Ok?
    ensures Carries(b, UnwindSalePayments(b, i, date, n).value)
  {
    if n > 0 {
      UnwindSaleCarries(b, i, date, n - 1);
      var u := UnwindSalePayments(b, i, date, n - 1).value;
      if b.payments[n - 1].target == OnSale(i) {
        PostCarries(u, date, SalePaymentReversal(n - 1), SalePaymentReversalLines(b.payments[n - 1].amount));
      }
    }
  }

  lemma {:induction false} UnwindPurchaseCarries(b: Books, i: nat, date: int, n: nat)
    requires n <= |b.payments| && UnwindPurchasePayments(b, i, date, n).Ok?
    ensures Carries(b, UnwindPurchasePayments(b, i, date, n).value)
  {
    if n > 0 {
      UnwindPurchaseCarries(b, i, date, n - 1);
      var u := UnwindPurchasePayments(b, i, date, n - 1).value;
      if b.payments[n - 1].target == OnPurchase(i) {
        PostCarries(u, date, PurchasePaymentReversal(n - 1), PurchasePaymentReversalLines(b.payments[n - 1].amount));
      }
    }
  }

  lemma ConfirmSaleCarries(b: Books, i: nat, date: int)
    requires Sound(b) && ConfirmSale(b, i, date).Ok?
    ensures Carries(b, ConfirmSale(b, i, date).value)
  {
    var s := b.sales[i];
    DispatchMeaning(b.shelf, s.lines, i);
    var out := Dispatch(b.shelf, s.lines, i).value;
    var b1 := b.(shelf := out.shelf, sales := b.sales[i := s.(status := Confirmed)]);
    PostCarries(b1, date, SaleInvoice(i), SaleInvoiceLines(s));
    PostCostCarries(PostAuto(b1, date, SaleInvoice(i), SaleInvoiceLines(s)).value, date, SaleCogs(i), out.cost, CogsLines(out.cost));
  }

  lemma VoidSaleCarries(b: Books, i: nat, date: int)
    requires Sound(b) && VoidSale(b, i, date).Ok?
    ensures Carries(b, VoidSale(b, i, date).value)
  {
    var s := b.sales[i];
    if Released(s.status) {
      RestockMeaning(b.shelf, s.lines, VoidMove, i);
      var back := Restock(b.shelf, s.lines, VoidMove, i);
      var b1 := b.(shelf := back.shelf, sales := b.sales[i := s.(status := Void)]);
      PostCarries(b1, date, SaleVoid(i), SaleVoidLines(s));
      var b2 := PostAuto(b1, date, SaleVoid(i), SaleVoidLines(s)).value;
      PostCostCarries(b2, date, SaleCogsReversal(i), back.cost, CogsReversalLines(back.cost));
      var b3 := PostCost(b2, date, SaleCogsReversal(i), back.cost, CogsReversalLines(back.cost)).value;
      UnwindSaleCarries(b3, i, date, |b3.payments|);
    }
  }

  lemma PaySaleCarries(b: Books, i: nat, amount: int, date: int)
    requires Sound(b) && PaySale(b, i, amount, date).Ok?
    ensures Carries(b, PaySale(b, i, amount, date).value)
  {
    var s := b.sales[i];
    var paid := s.amountPaid + amount;
    var b1 := b.(payments := b.payments + [Payment(OnSale(i), amount)],
                 sales := b.sales[i := s.(amountPaid := paid, status := PaidStatus(paid, s.total))]);
    PostCarries(b1, date, SalePayment(|b.payments|), SalePaymentLines(amount));
  }

  lemma ConfirmPurchaseCarries(b: Books, i: nat, date: int)
    requires Sound(b) && ConfirmPurchase(b, i, date).Ok?
    ensures Carries(b, ConfirmPurchase(b, i, date).value)
  {
    var p := b.purchases[i];
    RestockMeaning(b.shelf, p.lines, PurchaseIn, i);
    var b1 := b.(shelf := Restock(b.shelf, p.lines, PurchaseIn, i).shelf,
                 purchases := b.purchases[i := p.(status := Confirmed)]);
    PostCarries(b1, date, PurchaseInvoice(i), PurchaseInvoiceLines(p));
  }

  lemma VoidPurchaseCarries(b: Books, i: nat, date: int)
    requires Sound(b) && VoidPurchase(b, i, date).Ok?
    ensures Carries(b, VoidPurchase(b, i, date).value)
  {
    var p := b.purchases[i];
    if Released(p.status) {
      WithdrawMeaning(b.shelf, p.lines, i);
      var b1 := b.(shelf := Withdraw(b.shelf, p.lines, i), purchases := b.purchases[i := p.(status := Void)]);
      PostCarries(b1, date, PurchaseVoid(i), PurchaseVoidLines(p));
      var b2 := PostAuto(b1, date, PurchaseVoid(i), PurchaseVoidLines(p)).value;
      UnwindPurchaseCarries(b2, i, date, |b2.payments|);
    }
  }

  lemma PayPurchaseCarries(b: Books, i: nat, amount: int, date: int)
    requires Sound(b) && PayPurchase(b, i, amount, date).Ok?
    ensures Carries(b, PayPurchase(b, i, amount, date).value)
  {
    var p := b.purchases[i];
    var paid := p.amountPaid + amount;
    var b1 := b.(payments := b.payments + [Payment(OnPurchase(i), amount)],
                 purchases := b.purchases[i := p.(amountPaid := paid, status := PaidStatus(paid, p.total))]);
    PostCarries(b1, date, PurchasePayment(|b.payments|), PurchasePaymentLines(amount));
  }

  lemma IssueNoteCarries(b: Books, k: nat)
    requires Sound(b) && IssueNote(b, k).Ok?
    ensures Carries(b, IssueNote(b, k).value)
  {
    var n := b.notes[k];
    var reference := if n.reference.Some? then n.reference.value else k;
    RestockMeaning(b.shelf, n.lines, VoidMove, reference);
    var b1 := b.(shelf := Restock(b.shelf, n.lines, VoidMove, reference).shelf,
                 sales := UnwindReference(b, n).value, notes := b.notes[k := n.(status := Issued)]);
    PostCarries(b1, n.date, CreditNote(k), CreditNoteLines(n));
  }

  /* ----------------------- manual entries and the chart --------------------- */

  lemma CreateEntryCarries(b: Books, date: int, lines: seq<Line>)
    requires Sound(b) && CreateEntry(b, date, lines).Ok?
    ensures Carries(b, CreateEntry(b, date, lines).value)
  {
    var e := Entry(date, Draft, Manual, None, lines);
    PostAccepts(b.accounts, b.entries, e);
    AppendKeeps(b.accounts, b.entries, e);
  }

  lemma ApproveEntryCarries(b: Books, k: nat)
    requires Sound(b) && ApproveEntry(b, k).Ok?
    ensures Carries(b, ApproveEntry(b, k).value)
  {
    var entries := b.entries[k := b.entries[k].(status := Posted)];
    assert ReversalSound(b.entries, k);
    forall m | 0 <= m < |entries| ensures ReversalSound(entries, m) {
      assert ReversalSound(b.entries, m);
      if entries[m].status == Reversed {
        var r :| 0 <= r < |b.entries| && b.entries[r].source == Reversal(m);
        assert entries[r].source == Reversal(m);
      }
    }
  }

  lemma ReverseEntryCarries(b: Books, k: nat, date: int)
    requires Sound(b) && ReverseEntry(b, k, date).Ok?
    ensures Carries(b, ReverseEntry(b, k, date).value)
  {
    ReverseKeeps(b.accounts, b.entries, k, date);
  }

  lemma CreateAccountCarries(b: Books, code: nat, kind: Kind)
    requires Sound(b) && CreateAccount(b, code, kind).Ok?
    ensures Carries(b, CreateAccount(b, code, kind).value)
  {
    var accounts := b.accounts + [Account(code, kind, true, false)];
    ChartGrows(b.accounts, accounts, b.entries);
  }

  lemma ChartGrows(before: seq<Account>, after: seq<Account>, entries: seq<Entry>)
    requires |before| <= |after|
    requires forall i :: 0 <= i < |before| && HasActivity(entries, before[i].code) ==>
               && after[i].code == before[i].code
               && (!before[i].deleted ==> !after[i].deleted)
               && (Visible(before[i]) ==> Visible(after[i]))
    ensures forall code :: HasActivity(entries, code) && OnChart(before, code) ==> OnChart(after, code)
    ensures forall code :: HasActivity(entries, code) && ActiveOnChart(before, code) ==> ActiveOnChart(after, code)
    ensures JournalInv(before, entries) && UniqueCodes(after) ==> JournalInv(after, entries)
    ensures LinesVisible(before, entries) ==> LinesVisible(after, entries)
  {
    forall code | HasActivity(entries, code) && OnChart(before, code) ensures OnChart(after, code) {
      var i :| 0 <= i < |before| && before[i].code == code && !before[i].deleted;
      assert after[i].code == code && !after[i].deleted;
    }
    forall code | HasActivity(entries, code) && ActiveOnChart(before, code) ensures ActiveOnChart(after, code) {
      var i :| 0 <= i < |before| && before[i].code == code && !before[i].deleted && before[i].active;
      assert after[i].code == code && Visible(after[i]);
    }
    forall k, j | 0 <= k < |entries| && 0 <= j < |entries[k].lines|
      ensures HasActivity(entries, entries[k].lines[j].account)
    {
    }
    if JournalInv(before, entries) && UniqueCodes(after) {
      forall k | 0 <= k < |entries| ensures LinesSound(after, entries[k].lines) {
        assert LinesSound(before, entries[k].lines);
        forall j | 0 <= j < |entries[k].lines| ensures LineSound(after, entries[k].lines[j]) {
          assert LineSound(before, entries[k].lines[j]);
        }
      }
    }
  }

  predicate SwitchesOffCore(b: Books, c: Command) {
    c.DoUpdateAccount? && c.active == Some(false) && c.account < |b.accounts| && IsCore(b.accounts[c.account].code)
  }

  lemma ChartCommandCarries(b: Books, c: Command)
    requires Sound(b) && Execute(b, c).Ok? && (c.DoUpdateAccount? || c.DoRemoveAccount?)
    ensures Sound(Execute(b, c).value)
    ensures AllVisible(b) && !SwitchesOffCore(b, c) ==> AllVisible(Execute(b, c).value)
  {
    ChartGrows(b.accounts, Execute(b, c).value.accounts, b.entries);
  }

  /* ------------------------------------ runs -------------------------------- */

  lemma ShelfCommandCarries(b: Books, c: Command)
    requires Sound(b) && Execute(b, c).Ok?
    requires c.DoCreateItem? || c.DoUpdateItem? || c.DoRemoveItem? || c.DoAdjustStock? || c.DoConfirmReceipt?
    ensures Carries(b, Execute(b, c).value)
  {
    match c
    case DoCreateItem(price, track) => RunProof.NewItemSound(b.shelf, Item(price, track, 0, false));
    case DoUpdateItem(i, price, track) =>
    case DoRemoveItem(i) =>
    case DoAdjustStock(i, delta) => RunProof.AdjustKeeps(b.shelf, i, delta);
    case DoConfirmReceipt(k) => RestockMeaning(b.shelf, StockLines(b.orderLines, b.receipts[k].lines), PurchaseIn, k);
  }

  lemma DraftCommandCarries(b: Books, c: Command)
    requires Sound(b) && Execute(b, c).Ok?
    requires c.DoCreateSale? || c.DoCreatePurchase?
    ensures Carries(b, Execute(b, c).value)
  {
  }

  lemma NoteCommandCarries(b: Books, c: Command)
    requires Sound(b) && Execute(b, c).Ok?
    requires c.DoCreateNote? || c.DoCancelNote?
    ensures Carries(b, Execute(b, c).value)
  {
  }

  lemma TableCommandCarries(b: Books, c: Command)
    requires Sound(b) && Execute(b, c).Ok?
    requires c.DoCreateParty? || c.DoCreateOrderLine?
    ensures Carries(b, Execute(b, c).value)
  {
  }

  lemma ReceiptCommandCarries(b: Books, c: Command)
    requires Sound(b) && Execute(b, c).Ok?
    requires c.DoCreateReceipt? || c.DoCancelReceipt?
    ensures Carries(b, Execute(b, c).value)
  {
  }

  lemma JournalCommandCarries(b: Books, c: Command)
    requires Sound(b) && Execute(b, c).Ok?
    requires c.DoCreateAccount? || c.DoCreateEntry? || c.DoApproveEntry? || c.DoReverseEntry?
    ensures Carries(b, Execute(b, c).value)
  {
    match c
    case DoCreateAccount(code, kind) => CreateAccountCarries(b, code, kind);
    case DoCreateEntry(date, posting) => CreateEntryCarries(b, date, posting);
    case DoApproveEntry(k) => ApproveEntryCarries(b, k);
    case DoReverseEntry(k, date) => ReverseEntryCarries(b, k, date);
  }

  lemma DocumentCommandCarries(b: Books, c: Command)
    requires Sound(b) && Execute(b, c).Ok?
    requires c.DoConfirmSale? || c.DoPaySale? || c.DoVoidSale? || c.DoIssueNote?
             || c.DoConfirmPurchase? || c.DoPayPurchase? || c.DoVoidPurchase?
    ensures Carries(b, Execute(b, c).value)
  {
    match c
    case DoConfirmSale(i, date) => ConfirmSaleCarries(b, i, date);
    case DoPaySale(i, amount, date) => PaySaleCarries(b, i, amount, date);
    case DoVoidSale(i, date) => VoidSaleCarries(b, i, date);
    case DoIssueNote(k) => IssueNoteCarries(b, k);
    case DoConfirmPurchase(i, date) => ConfirmPurchaseCarries(b, i, date);
    case DoPayPurchase(i, amount, date) => PayPurchaseCarries(b, i, amount, date);
    case DoVoidPurchase(i, date) => VoidPurchaseCarries(b, i, date);
  }

  lemma StepSound(b: Books, c: Command)
    requires Sound(b)
    ensures Sound(Step(b, c))
    ensures AllVisible(b) && !SwitchesOffCore(b, c) ==> AllVisible(Step(b, c))
  {
    if Execute(b, c).Ok? {
      if c.DoUpdateAccount? || c.DoRemoveAccount? {
        ChartCommandCarries(b, c);
      } else if c.DoCreateItem? || c.DoUpdateItem? || c.DoRemoveItem? || c.DoAdjustStock? || c.DoConfirmReceipt? {
        ShelfCommandCarries(b, c);
      } else if c.DoCreateAccount? || c.DoCreateEntry? || c.DoApproveEntry? || c.DoReverseEntry? {
        JournalCommandCarries(b, c);
      } else if c.DoConfirmSale? || c.DoPaySale? || c.DoVoidSale? || c.DoIssueNote?
                || c.DoConfirmPurchase? || c.DoPayPurchase? || c.DoVoidPurchase? {
        DocumentCommandCarries(b, c);
      } else if c.DoCreateSale? || c.DoCreatePurchase? {
        DraftCommandCarries(b, c);
      } else if c.DoCreateNote? || c.DoCancelNote? {
        NoteCommandCarries(b, c);
      } else if c.DoCreateReceipt? || c.DoCancelReceipt? {
        ReceiptCommandCarries(b, c);
      } else {
        TableCommandCarries(b, c);
      }
    }
  }

  predicate CoreStaysOn(b: Books, cs: seq<Command>) {
    cs != [] ==> CoreStaysOn(b, cs[..|cs| - 1]) && !SwitchesOffCore(Run(b, cs[..|cs| - 1]), cs[|cs| - 1])
  }

  /**
   After every run the journal is balanced and properly reversed, and every
   quantity on hand is non-negative and equals the sum of its movements.
   */
  lemma {:induction false} EveryRunSound(cs: seq<Command>)
    ensures Sound(Run(Registered(), cs))
    ensures CoreStaysOn(Registered(), cs) ==> AllVisible(Run(Registered(), cs))
  {
    if cs == [] {
      RunProof.RegisteredSound();
    } else {
      EveryRunSound(cs[..|cs| - 1]);
      StepSound(Run(Registered(), cs[..|cs| - 1]), cs[|cs| - 1]);
    }
  }
}
