/** An organization served call by call: the in-place services follow Books.Run, so its theorems are theirs. */
module Organization {
  import opened Common
  import opened Journal
  import opened Books
  import opened Tables
  import opened EveryRun
  import Invariant
  import Sums
  import ControlAccounts
  import RunProof
  import Reports
  import ReportedBalances
  import AccountingService
  import InventoryService
  import SalesService
  import PurchasingService
  import CreditNotesService
  import GoodsReceiptsService

  method PerformAccounting(db: Database, c: Command) returns (failure: Option<Error>)
    requires c.DoCreateAccount? || c.DoUpdateAccount? || c.DoRemoveAccount?
             || c.DoCreateEntry? || c.DoApproveEntry? || c.DoReverseEntry?
    modifies db
    ensures Committed(Execute(old(db.View()), c), old(db.View()), failure, db.View())
  {
    match c
    case DoCreateAccount(code, kind) => failure := AccountingService.AddAccount(db, code, kind);
    case DoUpdateAccount(i, kind, active) => failure := AccountingService.ChangeAccount(db, i, kind, active);
    case DoRemoveAccount(i) => failure := AccountingService.DeleteAccount(db, i);
    case DoCreateEntry(date, posting) => failure := AccountingService.AddEntry(db, date, posting);
    case DoApproveEntry(k) => failure := AccountingService.Approve(db, k);
    case DoReverseEntry(k, date) => failure := AccountingService.ReversePosted(db, k, date);
  }

  method PerformSelling(db: Database, c: Command) returns (failure: Option<Error>)
    requires c.DoCreateSale?
    modifies db
    ensures Committed(Execute(old(db.View()), c), old(db.View()), failure, db.View())
  {
    failure := SalesService.CreateDraft(db, c.party, c.lines);
  }

  method PerformBuying(db: Database, c: Command) returns (failure: Option<Error>)
    requires c.DoCreatePurchase?
    modifies db
    ensures Committed(Execute(old(db.View()), c), old(db.View()), failure, db.View())
  {
    failure := PurchasingService.CreateDraft(db, c.party, c.lines);
  }

  method PerformCrediting(db: Database, c: Command) returns (failure: Option<Error>)
    requires c.DoCreateNote?
    modifies db
    ensures Committed(Execute(old(db.View()), c), old(db.View()), failure, db.View())
  {
    failure := CreditNotesService.CreateDraft(db, c.party, c.reference, c.date, c.lines);
  }

  method PerformSales(db: Database, c: Command) returns (failure: Option<Error>)
    requires c.DoConfirmSale? || c.DoVoidSale?
    modifies db
    ensures Committed(Execute(old(db.View()), c), old(db.View()), failure, db.View())
  {
    match c
    case DoConfirmSale(i, date) => failure := SalesService.ConfirmInvoice(db, i, date);
    case DoVoidSale(i, date) => failure := SalesService.VoidInvoice(db, i, date);
  }

  method PerformPaying(db: Database, c: Command) returns (failure: Option<Error>)
    requires c.DoPaySale? || c.DoPayPurchase?
    modifies db
    ensures Committed(Execute(old(db.View()), c), old(db.View()), failure, db.View())
  {
    match c
    case DoPaySale(i, amount, date) => failure := SalesService.RecordPayment(db, i, amount, date);
    case DoPayPurchase(i, amount, date) => failure := PurchasingService.RecordPayment(db, i, amount, date);
  }

  method PerformPurchasing(db: Database, c: Command) returns (failure: Option<Error>)
    requires c.DoConfirmPurchase? || c.DoVoidPurchase?
    modifies db
    ensures Committed(Execute(old(db.View()), c), old(db.View()), failure, db.View())
  {
    match c
    case DoConfirmPurchase(i, date) => failure := PurchasingService.ConfirmInvoice(db, i, date);
    case DoVoidPurchase(i, date) => failure := PurchasingService.VoidInvoice(db, i, date);
  }

  method PerformNotes(db: Database, c: Command) returns (failure: Option<Error>)
    requires c.DoIssueNote? || c.DoCancelNote?
    modifies db
    ensures Committed(Execute(old(db.View()), c), old(db.View()), failure, db.View())
  {
    match c
    case DoIssueNote(k) => failure := CreditNotesService.Issue(db, k);
    case DoCancelNote(k) => failure := CreditNotesService.Cancel(db, k);
  }

  method PerformInventory(db: Database, c: Command) returns (failure: Option<Error>)
    requires c.DoCreateParty? || c.DoCreateItem? || c.DoUpdateItem? || c.DoRemoveItem? || c.DoAdjustStock?
    modifies db
    ensures Committed(Execute(old(db.View()), c), old(db.View()), failure, db.View())
  {
    match c
    case DoCreateParty(kind, limit) => failure := InventoryService.AddParty(db, kind, limit);
    case DoCreateItem(price, track) => failure := InventoryService.AddItem(db, price, track);
    case DoUpdateItem(i, price, track) => failure := InventoryService.ChangeItem(db, i, price, track);
    case DoRemoveItem(i) => failure := InventoryService.DeleteItem(db, i);
    case DoAdjustStock(i, delta) => failure := InventoryService.Adjust(db, i, delta);
  }

  method PerformOrdering(db: Database, c: Command) returns (failure: Option<Error>)
    requires c.DoCreateOrderLine? || c.DoCreateReceipt?
    modifies db
    ensures Committed(Execute(old(db.View()), c), old(db.View()), failure, db.View())
  {
    match c
    case DoCreateOrderLine(item, ordered) => failure := GoodsReceiptsService.AddOrderLine(db, item, ordered);
    case DoCreateReceipt(lines) => failure := GoodsReceiptsService.CreateDraft(db, lines);
  }

  method PerformReceiving(db: Database, c: Command) returns (failure: Option<Error>)
    requires c.DoConfirmReceipt? || c.DoCancelReceipt?
    modifies db
    ensures Committed(Execute(old(db.View()), c), old(db.View()), failure, db.View())
  {
    match c
    case DoConfirmReceipt(k) => failure := GoodsReceiptsService.Confirm(db, k);
    case DoCancelReceipt(k) => failure := GoodsReceiptsService.Cancel(db, k);
  }

  /** One call: the tables take the step the specification takes, and the caller sees its error. */
  method Perform(db: Database, c: Command) returns (failure: Option<Error>)
    modifies db
    ensures Committed(Execute(old(db.View()), c), old(db.View()), failure, db.View())
    ensures db.View() == Step(old(db.View()), c)
  {
    if c.DoCreateAccount? || c.DoUpdateAccount? || c.DoRemoveAccount?
       || c.DoCreateEntry? || c.DoApproveEntry? || c.DoReverseEntry? {
      failure := PerformAccounting(db, c);
    } else if c.DoCreateSale? {
      failure := PerformSelling(db, c);
    } else if c.DoCreatePurchase? {
      failure := PerformBuying(db, c);
    } else if c.DoCreateNote? {
      failure := PerformCrediting(db, c);
    } else if c.DoConfirmSale? || c.DoVoidSale? {
      failure := PerformSales(db, c);
    } else if c.DoPaySale? || c.DoPayPurchase? {
      failure := PerformPaying(db, c);
    } else if c.DoConfirmPurchase? || c.DoVoidPurchase? {
      failure := PerformPurchasing(db, c);
    } else if c.DoIssueNote? || c.DoCancelNote? {
      failure := PerformNotes(db, c);
    } else if c.DoCreateParty? || c.DoCreateItem? || c.DoUpdateItem? || c.DoRemoveItem? || c.DoAdjustStock? {
      failure := PerformInventory(db, c);
    } else if c.DoCreateOrderLine? || c.DoCreateReceipt? {
      failure := PerformOrdering(db, c);
    } else {
      failure := PerformReceiving(db, c);
    }
  }

  /** A new organization after any list of calls, some of which may have been refused. */
  method Serve(cs: seq<Command>) returns (db: Database)
    ensures fresh(db)
    ensures db.View() == Run(Registered(), cs)
    ensures Sound(db.View())
  {
    db := new Database();
    for k := 0 to |cs|
      invariant fresh(db) && db.View() == Run(Registered(), cs[..k])
    {
      var failure := Perform(db, cs[k]);
      assert cs[..k + 1][..k] == cs[..k];
    }
    assert cs[..|cs|] == cs;
    EveryRunSound(cs);
  }

  /**
   Whatever was served, the balance sheet of every date and the trial balance of
   every window tie out, as long as no posting account was ever switched off.
   */
  method Close(cs: seq<Command>, from: int, to: int)
    returns (totalAssets: int, totalLiabilities: int, totalEquity: int, netIncome: int, balanced: bool)
    ensures CoreStaysOn(Registered(), cs) ==> totalAssets == totalLiabilities + totalEquity + netIncome
    ensures CoreStaysOn(Registered(), cs) ==> balanced
    ensures var b := Run(Registered(), cs);
      && totalAssets - (totalLiabilities + totalEquity + netIncome) == -Reports.HiddenNet(b.accounts, b.entries, 0, to)
      && (balanced <==> Reports.HiddenNet(b.accounts, b.entries, from, to) == 0)
  {
    EveryRunSound(cs);
    var db := Serve(cs);
    var rows, totalDebit, totalCredit;
    rows, totalDebit, totalCredit, balanced := Reports.TrialBalance(db.accounts, db.entries, from, to);
    totalAssets, totalLiabilities, totalEquity, netIncome := Reports.BalanceSheet(db.accounts, db.entries, to);
  }

  /**
   After every disciplined run what the documents booked on 1200 and 2100 agrees with
   the subledgers, and so do the reported balances up to manual entries and reversals.
   */
  lemma ControlsAgree(cs: seq<Command>, from: int, to: int)
    requires RunProof.DisciplinedRun(Registered(), cs)
    ensures var b := Run(Registered(), cs);
      && ControlAccounts.KindNet(b, ControlAccounts.Sales, AR) + ControlAccounts.KindNet(b, ControlAccounts.Notes, AR)
         == Sums.SumTo(|b.sales|, ControlAccounts.SaleDues(b)) + Sums.Sum(b.notes, ControlAccounts.IssuedTotal())
      && -ControlAccounts.KindNet(b, ControlAccounts.Purchases, AP)
         == ControlAccounts.Payables(b) - Sums.Sum(b.purchases, ControlAccounts.Overpaid())
    ensures var b := Run(Registered(), cs);
      ReportedBalances.Covers(b.entries, from, to) ==>
        && Reports.Net(b.entries, AR, from, to)
           == Sums.SumTo(|b.sales|, ControlAccounts.SaleDues(b)) + Sums.Sum(b.notes, ControlAccounts.IssuedTotal())
              + Sums.Sum(b.entries, ReportedBalances.ManualOn(AR))
              - 2 * Sums.Sum(b.entries, ReportedBalances.ReversedOn(AR))
        && -Reports.Net(b.entries, AP, from, to)
           == ControlAccounts.Payables(b) - Sums.Sum(b.purchases, ControlAccounts.Overpaid())
              - Sums.Sum(b.entries, ReportedBalances.ManualOn(AP))
              + 2 * Sums.Sum(b.entries, ReportedBalances.ReversedOn(AP))
  {
    var b := Run(Registered(), cs);
    RunProof.EveryRunKeeps(cs);
    ControlAccounts.ArControl(b);
    ControlAccounts.ApControl(b);
    if ReportedBalances.Covers(b.entries, from, to) {
      ReportedBalances.ReportedReceivable(b, from, to);
      ReportedBalances.ReportedPayable(b, from, to);
    }
  }

  predicate ReleasedSound(s: Invoice) {
    Released(s.status) ==>
      && 0 < s.taxTotal < s.total
      && (s.status == Confirmed <==> s.amountPaid == 0)
      && (s.status == PartiallyPaid <==> 0 < s.amountPaid < s.total)
      && (s.status == Paid <==> s.amountPaid >= s.total)
  }

  /** After every disciplined run the status of a released document is the one its balance calls for. */
  lemma ReleasedDocumentsSound(cs: seq<Command>)
    requires RunProof.DisciplinedRun(Registered(), cs)
    ensures forall s :: s in Run(Registered(), cs).sales + Run(Registered(), cs).purchases ==> ReleasedSound(s)
  {
    var b := Run(Registered(), cs);
    RunProof.EveryRunKeeps(cs);
    forall i | 0 <= i < |b.sales| ensures ReleasedSound(b.sales[i]) {
      assert Invariant.SaleInv(b, i);
    }
    forall i | 0 <= i < |b.purchases| ensures ReleasedSound(b.purchases[i]) {
      assert Invariant.PurchaseInv(b, i);
    }
  }
}
