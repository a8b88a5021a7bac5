/** Every command keeps the invariant, so it holds after every run. */
module RunProof {
  import opened Common
  import opened Sums
  import opened Stock
  import opened Journal
  import opened Books
  import opened Invariant
  import SalesProof
  import PurchaseProof
  import opened NoteProof

  /* ----------------------------- chart of accounts -------------------------- */

  /** Accounts with journal lines are never taken off the chart. */
  lemma ChartChangeKeeps(b: Books, accounts: seq<Account>)
    requires Inv(b) && UniqueCodes(accounts)
    requires forall code :: OnChart(b.accounts, code) && HasActivity(b.entries, code) ==> OnChart(accounts, code)
    ensures Inv(b.(accounts := accounts))
  {
    var after := b.(accounts := accounts);
    forall k | 0 <= k < |b.entries| ensures LinesSound(accounts, b.entries[k].lines) {
      assert LinesSound(b.accounts, b.entries[k].lines);
      forall j | 0 <= j < |b.entries[k].lines| ensures LineSound(accounts, b.entries[k].lines[j]) {
        assert LineSound(b.accounts, b.entries[k].lines[j]);
        assert HasActivity(b.entries, b.entries[k].lines[j].account);
      }
    }
    Assemble(b, after, {});
  }

  lemma CreateAccountKeeps(b: Books, code: nat, kind: Kind)
    requires Inv(b) && CreateAccount(b, code, kind).Ok?
    ensures Inv(CreateAccount(b, code, kind).value)
  {
    var accounts := b.accounts + [Account(code, kind, true, false)];
    forall c | OnChart(b.accounts, c) ensures OnChart(accounts, c) {
      var i :| 0 <= i < |b.accounts| && b.accounts[i].code == c && !b.accounts[i].deleted;
      assert accounts[i] == b.accounts[i];
    }
    ChartChangeKeeps(b, accounts);
  }

  lemma UpdateAccountKeeps(b: Books, i: nat, kind: Kind, active: Option<bool>)
    requires Inv(b) && UpdateAccount(b, i, kind, active).Ok?
    ensures Inv(UpdateAccount(b, i, kind, active).value)
  {
    var accounts := UpdateAccount(b, i, kind, active).value.accounts;
    forall c | OnChart(b.accounts, c) ensures OnChart(accounts, c) {
      var j :| 0 <= j < |b.accounts| && b.accounts[j].code == c && !b.accounts[j].deleted;
      assert accounts[j].code == c && !accounts[j].deleted;
    }
    ChartChangeKeeps(b, accounts);
  }

  lemma RemoveAccountKeeps(b: Books, i: nat)
    requires Inv(b) && RemoveAccount(b, i).Ok?
    ensures Inv(RemoveAccount(b, i).value)
  {
    var accounts := RemoveAccount(b, i).value.accounts;
    forall c | OnChart(b.accounts, c) && HasActivity(b.entries, c) ensures OnChart(accounts, c) {
      var j :| 0 <= j < |b.accounts| && b.accounts[j].code == c && !b.accounts[j].deleted;
      assert j != i;
      assert accounts[j] == b.accounts[j];
    }
    ChartChangeKeeps(b, accounts);
  }

  /* ------------------------------ journal entries --------------------------- */

  lemma JournalChangeKeeps(b: Books, entries: seq<Entry>)
    requires Inv(b) && EntriesGrow(b.entries, entries) && JournalInv(b.accounts, entries)
    requires forall k :: |b.entries| <= k < |entries| ==>
               entries[k].source == Manual || (entries[k].source.Reversal? && entries[k].source.entry < |entries|)
    ensures Inv(b.(entries := entries))
  {
    Assemble(b, b.(entries := entries), {});
  }

  lemma CreateEntryKeeps(b: Books, date: int, lines: seq<Line>)
    requires Inv(b) && CreateEntry(b, date, lines).Ok?
    ensures Inv(CreateEntry(b, date, lines).value)
  {
    var e := Entry(date, Draft, Manual, None, lines);
    PostAccepts(b.accounts, b.entries, e);
    AppendKeeps(b.accounts, b.entries, e);
    JournalChangeKeeps(b, b.entries + [e]);
  }

  lemma ApproveEntryKeeps(b: Books, k: nat)
    requires Inv(b) && ApproveEntry(b, k).Ok?
    ensures Inv(ApproveEntry(b, k).value)
  {
    var entries := b.entries[k := b.entries[k].(status := Posted)];
    assert ReversalSound(b.entries, k);
    forall m | 0 <= m < |entries| ensures ReversalSound(entries, m) {
      assert ReversalSound(b.entries, m);
      if entries[m].status == Reversed {
        var r :| 0 <= r < |b.entries| && b.entries[r].source == Reversal(m);
        assert entries[r].source == Reversal(m);
      }
    }
    JournalChangeKeeps(b, entries);
  }

  lemma ReverseEntryKeeps(b: Books, k: nat, date: int)
    requires Inv(b) && ReverseEntry(b, k, date).Ok?
    ensures Inv(ReverseEntry(b, k, date).value)
  {
    ReverseKeeps(b.accounts, b.entries, k, date);
    assert ReversalSound(b.entries, k);
    JournalChangeKeeps(b, Reverse(b.accounts, b.entries, k, date).value);
  }

  /* --------------------------- items, drafts, receipts ---------------------- */

  /** Changes to tables the ledger does not look at. */
  lemma ShelfChangeKeeps(b: Books, after: Books)
    requires Inv(b) && StockInv(after.shelf)
    requires after == b.(shelf := after.shelf, parties := after.parties,
                         orderLines := after.orderLines, receipts := after.receipts)
    requires |b.parties| <= |after.parties|
    ensures Inv(after)
  {
    Assemble(b, after, {});
  }

  lemma NewItemSound(sh: Shelf, item: Item)
    requires StockInv(sh) && item.stock == 0
    ensures StockInv(Shelf(sh.items + [item], sh.movements))
  {
    SumZero(sh.movements, OfItem(|sh.items|));
  }

  lemma AdjustKeeps(sh: Shelf, i: nat, delta: int)
    requires StockInv(sh) && Adjust(sh, i, delta).Ok?
    ensures StockInv(Adjust(sh, i, delta).value)
  {
    MoveKeeps(sh, i, delta, Adjustment, None);
  }

  /** A fresh draft has no payments and nothing on the ledger. */
  lemma NothingBooked(b: Books, d: Doc, code: nat)
    requires BaseInv(b)
    requires match d case SaleDoc(i) => i >= |b.sales| case PurchaseDoc(i) => i >= |b.purchases| case NoteDoc(k) => k >= |b.notes|
    ensures DocNet(b.payments, b.entries, d, code) == 0
    ensures d.SaleDoc? ==> PaidRows(b.payments, OnSale(d.id)) == 0
    ensures d.PurchaseDoc? ==> PaidRows(b.payments, OnPurchase(d.id)) == 0
    ensures forall source :: Owner(b.payments, source) == Some(d) ==> !Booked(b.entries, source)
    ensures forall p :: 0 <= p < |b.payments| ==> PaymentOwner(b.payments, p) != Some(d)
  {
    forall p | 0 <= p < |b.payments| ensures PaymentOwner(b.payments, p) != Some(d) {
      assert PaymentSound(b, p);
    }
    forall k | 0 <= k < |b.entries| ensures Owner(b.payments, b.entries[k].source) != Some(d) {
      assert Known(b, b.entries[k].source);
    }
    SumZero(b.entries, Effect(b.payments, d, code));
    forall p | 0 <= p < |b.payments|
      ensures d.SaleDoc? ==> PaidInto(OnSale(d.id))(b.payments[p]) == 0
      ensures d.PurchaseDoc? ==> PaidInto(OnPurchase(d.id))(b.payments[p]) == 0
    {
      assert PaymentOwner(b.payments, p) != Some(d);
    }
    if d.SaleDoc? {
      SumZero(b.payments, PaidInto(OnSale(d.id)));
    }
    if d.PurchaseDoc? {
      SumZero(b.payments, PaidInto(OnPurchase(d.id)));
    }
  }

  lemma NewSaleSound(b: Books, s: Invoice)
    requires BaseInv(b) && s.status == DraftDoc && s.amountPaid == 0 && s.party < |b.parties|
    ensures SaleInv(b.(sales := b.sales + [s]), |b.sales|)
  {
    var after := b.(sales := b.sales + [s]);
    var i := |b.sales|;
    forall code: nat ensures DocNet(b.payments, b.entries, SaleDoc(i), code) == 0 {
      NothingBooked(b, SaleDoc(i), code);
    }
    NothingBooked(b, SaleDoc(i), 0);
    assert SalePostings(after, i);
  }

  lemma CreateSaleKeeps(b: Books, s: Invoice)
    requires Inv(b) && s.status == DraftDoc && s.amountPaid == 0 && s.party < |b.parties|
    ensures Inv(b.(sales := b.sales + [s]))
  {
    NewSaleSound(b, s);
    Assemble(b, b.(sales := b.sales + [s]), {SaleDoc(|b.sales|)});
  }

  lemma NewPurchaseSound(b: Books, p: Invoice)
    requires BaseInv(b) && p.status == DraftDoc && p.amountPaid == 0 && p.party < |b.parties|
    ensures PurchaseInv(b.(purchases := b.purchases + [p]), |b.purchases|)
  {
    var after := b.(purchases := b.purchases + [p]);
    var i := |b.purchases|;
    forall code: nat ensures DocNet(b.payments, b.entries, PurchaseDoc(i), code) == 0 {
      NothingBooked(b, PurchaseDoc(i), code);
    }
    NothingBooked(b, PurchaseDoc(i), 0);
    assert PurchasePostings(after, i);
  }

  lemma CreatePurchaseKeeps(b: Books, p: Invoice)
    requires Inv(b) && p.status == DraftDoc && p.amountPaid == 0 && p.party < |b.parties|
    ensures Inv(b.(purchases := b.purchases + [p]))
  {
    NewPurchaseSound(b, p);
    Assemble(b, b.(purchases := b.purchases + [p]), {PurchaseDoc(|b.purchases|)});
  }

  lemma CreateNoteKeeps(b: Books, n: Note)
    requires Inv(b) && n.status == DraftNote && (n.reference.Some? ==> n.reference.value < |b.sales|)
    ensures Inv(b.(notes := b.notes + [n]))
  {
    var after := b.(notes := b.notes + [n]);
    var k := |b.notes|;
    forall code: nat ensures DocNet(b.payments, b.entries, NoteDoc(k), code) == 0 {
      NothingBooked(b, NoteDoc(k), code);
    }
    NothingBooked(b, NoteDoc(k), 0);
    forall i: nat ensures Noted(after.notes, i) == Noted(b.notes, i) {
      NotedGrows(b.notes, n, i);
    }
    Assemble(b, after, {NoteDoc(k)});
  }

  lemma NotedGrows(notes: seq<Note>, n: Note, i: nat)
    requires n.status != Issued
    ensures Noted(notes + [n], i) == Noted(notes, i)
  {
    if Noted(notes, i) {
      var m :| 0 <= m < |notes| && notes[m].status == Issued && notes[m].reference == Some(i);
      assert (notes + [n])[m] == notes[m];
    }
  }

  lemma CancelNoteKeeps(b: Books, k: nat)
    requires Inv(b) && CancelNote(b, k).Ok?
    ensures Inv(CancelNote(b, k).value)
  {
    var after := CancelNote(b, k).value;
    assert NoteInv(b, k);
    forall i: nat ensures Noted(after.notes, i) == Noted(b.notes, i) {
      if Noted(b.notes, i) {
        var m :| 0 <= m < |b.notes| && b.notes[m].status == Issued && b.notes[m].reference == Some(i);
        assert after.notes[m] == b.notes[m];
      }
    }
    Assemble(b, after, {NoteDoc(k)});
  }

  lemma ConfirmReceiptKeeps(b: Books, k: nat)
    requires Inv(b) && ConfirmReceipt(b, k).Ok?
    ensures Inv(ConfirmReceipt(b, k).value)
  {
    RestockMeaning(b.shelf, StockLines(b.orderLines, b.receipts[k].lines), PurchaseIn, k);
    ShelfChangeKeeps(b, ConfirmReceipt(b, k).value);
  }

  lemma ItemChangeKeeps(b: Books, i: nat, item: Item)
    requires Inv(b) && i < |b.shelf.items| && item.stock == b.shelf.items[i].stock
    ensures Inv(WithItems(b, b.shelf.items[i := item]))
  {
    ShelfChangeKeeps(b, WithItems(b, b.shelf.items[i := item]));
  }

  /* ------------------------------------ runs -------------------------------- */

  /** The one discipline a run must keep: credit notes are issued under their guard. */
  predicate Disciplined(b: Books, c: Command) {
    c.DoIssueNote? ==> NoteGuard(b, c.note)
  }

  predicate DisciplinedRun(b: Books, cs: seq<Command>) {
    cs != [] ==>
      DisciplinedRun(b, cs[..|cs| - 1]) && Disciplined(Run(b, cs[..|cs| - 1]), cs[|cs| - 1])
  }

  lemma ChartCommandKeeps(b: Books, c: Command)
    requires Inv(b) && Execute(b, c).Ok?
    requires c.DoCreateAccount? || c.DoUpdateAccount? || c.DoRemoveAccount? || c.DoCreateEntry? || c.DoApproveEntry? || c.DoReverseEntry?
    ensures Inv(Execute(b, c).value)
  {
    match c
    case DoCreateAccount(code, kind) => CreateAccountKeeps(b, code, kind);
    case DoUpdateAccount(i, kind, active) => UpdateAccountKeeps(b, i, kind, active);
    case DoRemoveAccount(i) => RemoveAccountKeeps(b, i);
    case DoCreateEntry(date, posting) => CreateEntryKeeps(b, date, posting);
    case DoApproveEntry(k) => ApproveEntryKeeps(b, k);
    case DoReverseEntry(k, date) => ReverseEntryKeeps(b, k, date);
  }

  lemma UpdateItemKeeps(b: Books, i: nat, buyPrice: Option<nat>, trackStock: bool)
    requires Inv(b) && UpdateItem(b, i, buyPrice, trackStock).Ok?
    ensures Inv(UpdateItem(b, i, buyPrice, trackStock).value)
  {
    ItemChangeKeeps(b, i, b.shelf.items[i].(buyPrice := buyPrice, trackStock := trackStock));
  }

  lemma RemoveItemKeeps(b: Books, i: nat)
    requires Inv(b) && RemoveItem(b, i).Ok?
    ensures Inv(RemoveItem(b, i).value)
  {
    ItemChangeKeeps(b, i, b.shelf.items[i].(deleted := true));
  }

  lemma CreateItemKeeps(b: Books, buyPrice: Option<nat>, trackStock: bool)
    requires Inv(b)
    ensures Inv(CreateItem(b, buyPrice, trackStock).value)
  {
    NewItemSound(b.shelf, Item(buyPrice, trackStock, 0, false));
    ShelfChangeKeeps(b, CreateItem(b, buyPrice, trackStock).value);
  }

  lemma AdjustStockKeeps(b: Books, i: nat, delta: int)
    requires Inv(b) && AdjustStock(b, i, delta).Ok?
    ensures Inv(AdjustStock(b, i, delta).value)
  {
    AdjustKeeps(b.shelf, i, delta);
    ShelfChangeKeeps(b, AdjustStock(b, i, delta).value);
  }

  predicate IsItemCommand(c: Command) {
    c.DoCreateItem? || c.DoUpdateItem? || c.DoRemoveItem? || c.DoAdjustStock?
  }

  lemma ItemCommandKeeps(b: Books, c: Command)
    requires Inv(b) && Execute(b, c).Ok? && IsItemCommand(c)
    ensures Inv(Execute(b, c).value)
  {
    match c
    case DoCreateItem(price, track) => CreateItemKeeps(b, price, track);
    case DoUpdateItem(i, price, track) => UpdateItemKeeps(b, i, price, track);
    case DoRemoveItem(i) => RemoveItemKeeps(b, i);
    case DoAdjustStock(i, delta) => AdjustStockKeeps(b, i, delta);
  }

  predicate IsReceivingCommand(c: Command) {
    c.DoCreateParty? || c.DoCreateOrderLine? || c.DoCreateReceipt? || c.DoConfirmReceipt? || c.DoCancelReceipt?
  }

  lemma CreateReceiptKeeps(b: Books, lines: seq<ReceiptLine>)
    requires Inv(b) && CreateReceipt(b, lines).Ok?
    ensures Inv(CreateReceipt(b, lines).value)
  {
    ShelfChangeKeeps(b, CreateReceipt(b, lines).value);
  }

  lemma CancelReceiptKeeps(b: Books, k: nat)
    requires Inv(b) && CancelReceipt(b, k).Ok?
    ensures Inv(CancelReceipt(b, k).value)
  {
    ShelfChangeKeeps(b, CancelReceipt(b, k).value);
  }

  lemma ReceivingCommandKeeps(b: Books, c: Command)
    requires Inv(b) && Execute(b, c).Ok? && IsReceivingCommand(c)
    ensures Inv(Execute(b, c).value)
  {
    match c
    case DoCreateParty(kind, limit) => ShelfChangeKeeps(b, CreateParty(b, kind, limit).value);
    case DoCreateOrderLine(item, ordered) => ShelfChangeKeeps(b, CreateOrderLine(b, item, ordered).value);
    case DoCreateReceipt(lines) => CreateReceiptKeeps(b, lines);
    case DoConfirmReceipt(k) => ConfirmReceiptKeeps(b, k);
    case DoCancelReceipt(k) => CancelReceiptKeeps(b, k);
  }

  predicate IsSaleCommand(c: Command) {
    c.DoCreateSale? || c.DoConfirmSale? || c.DoPaySale? || c.DoVoidSale?
  }

  lemma SaleCommandKeeps(b: Books, c: Command)
    requires Inv(b) && Execute(b, c).Ok? && IsSaleCommand(c)
    ensures Inv(Execute(b, c).value)
  {
    match c
    case DoCreateSale(party, lines) => CreateSaleKeeps(b, DraftInvoice(party, lines));
    case DoConfirmSale(i, date) => SalesProof.ConfirmSaleKeeps(b, i, date);
    case DoPaySale(i, amount, date) => SalesProof.PaySaleKeeps(b, i, amount, date);
    case DoVoidSale(i, date) => SalesProof.VoidSaleKeeps(b, i, date);
  }

  predicate IsPurchaseCommand(c: Command) {
    c.DoCreatePurchase? || c.DoConfirmPurchase? || c.DoPayPurchase? || c.DoVoidPurchase?
  }

  lemma PurchaseCommandKeeps(b: Books, c: Command)
    requires Inv(b) && Execute(b, c).Ok? && IsPurchaseCommand(c)
    ensures Inv(Execute(b, c).value)
  {
    match c
    case DoCreatePurchase(party, lines) => CreatePurchaseKeeps(b, DraftInvoice(party, lines));
    case DoConfirmPurchase(i, date) => PurchaseProof.ConfirmPurchaseKeeps(b, i, date);
    case DoPayPurchase(i, amount, date) => PurchaseProof.PayPurchaseKeeps(b, i, amount, date);
    case DoVoidPurchase(i, date) => PurchaseProof.VoidPurchaseKeeps(b, i, date);
  }

  predicate IsNoteCommand(c: Command) {
    c.DoCreateNote? || c.DoIssueNote? || c.DoCancelNote?
  }

  function DraftNoteOf(party: nat, reference: Option<nat>, date: int, lines: seq<LineRequest>): Note {
    var t := Money.ComputeTotals(InputsOf(lines));
    Note(party, reference, date, DocLinesOf(lines), t.total, t.taxTotal, DraftNote)
  }

  lemma NoteCommandKeeps(b: Books, c: Command)
    requires Inv(b) && Execute(b, c).Ok? && Disciplined(b, c) && IsNoteCommand(c)
    ensures Inv(Execute(b, c).value)
  {
    match c
    case DoCreateNote(party, reference, date, lines) => CreateNoteKeeps(b, DraftNoteOf(party, reference, date, lines));
    case DoIssueNote(k) => IssueNoteKeeps(b, k);
    case DoCancelNote(k) => CancelNoteKeeps(b, k);
  }

  lemma StepKeeps(b: Books, c: Command)
    requires Inv(b) && Disciplined(b, c)
    ensures Inv(Step(b, c))
  {
    if Execute(b, c).Ok? {
      if IsItemCommand(c) {
        ItemCommandKeeps(b, c);
      } else if IsReceivingCommand(c) {
        ReceivingCommandKeeps(b, c);
      } else if IsSaleCommand(c) {
        SaleCommandKeeps(b, c);
      } else if IsPurchaseCommand(c) {
        PurchaseCommandKeeps(b, c);
      } else if IsNoteCommand(c) {
        NoteCommandKeeps(b, c);
      } else {
        ChartCommandKeeps(b, c);
      }
    }
  }

  lemma RegisteredSound()
    ensures Inv(Registered())
  {
  }

  /** The invariant holds after every disciplined run of a registered organization. */
  lemma {:induction false} EveryRunKeeps(cs: seq<Command>)
    requires DisciplinedRun(Registered(), cs)
    ensures Inv(Run(Registered(), cs))
  {
    if cs == [] {
      RegisteredSound();
    } else {
      EveryRunKeeps(cs[..|cs| - 1]);
      StepKeeps(Run(Registered(), cs[..|cs| - 1]), cs[|cs| - 1]);
    }
  }
}
