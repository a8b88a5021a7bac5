/**
 The tables of one organization and the services as functions on them. Every
 service is one transaction: Ok carries the committed tables, Err means the
 transaction rolled back. Rows are identified by their position.
 */
module Books {
  import opened Common
  import opened Sums
  import opened Money
  import opened Stock
  import opened Journal

  datatype PartyKind = Customer | Supplier | Both

  datatype Party = Party(kind: PartyKind, creditLimit: Option<int>)

  datatype DocStatus = DraftDoc | Confirmed | PartiallyPaid | Paid | Void

  /** A sale or a purchase invoice. */
  datatype Invoice = Invoice(
    party: nat, lines: seq<DocLine>, total: int, taxTotal: int, amountPaid: int, status: DocStatus)

  datatype Target = OnSale(doc: nat) | OnPurchase(doc: nat)

  datatype Payment = Payment(target: Target, amount: int)

  datatype NoteStatus = DraftNote | Issued | Cancelled

  datatype Note = Note(
    party: nat, reference: Option<nat>, date: int, lines: seq<DocLine>, total: int, taxTotal: int, status: NoteStatus)

  datatype OrderLine = OrderLine(item: Option<nat>, ordered: nat, received: nat)

  datatype ReceiptLine = ReceiptLine(orderLine: nat, qty: nat)

  datatype ReceiptStatus = DraftReceipt | ConfirmedReceipt | CancelledReceipt

  datatype Receipt = Receipt(lines: seq<ReceiptLine>, status: ReceiptStatus)

  datatype Books = Books(
    accounts: seq<Account>,
    entries: seq<Entry>,
    shelf: Shelf,
    parties: seq<Party>,
    sales: seq<Invoice>,
    purchases: seq<Invoice>,
    payments: seq<Payment>,
    notes: seq<Note>,
    orderLines: seq<OrderLine>,
    receipts: seq<Receipt>)

  /* --------------------------------- postings ------------------------------- */

  function PostAuto(b: Books, date: int, source: Source, lines: seq<Line>): Result<Books> {
    var entries :- Post(b.accounts, b.entries, Entry(date, Posted, source, None, lines));
    Ok(b.(entries := entries))
  }

  function Debit(code: nat, amount: int): Line {
    Line(code, amount, 0)
  }

  function Credit(code: nat, amount: int): Line {
    Line(code, 0, amount)
  }

  function SaleInvoiceLines(s: Invoice): seq<Line> {
    [Debit(AR, s.total), Credit(REVENUE, s.total - s.taxTotal), Credit(VAT_OUTPUT, s.taxTotal)]
  }

  function SaleVoidLines(s: Invoice): seq<Line> {
    [Credit(AR, s.total), Debit(REVENUE, s.total - s.taxTotal), Debit(VAT_OUTPUT, s.taxTotal)]
  }

  function CogsLines(cost: int): seq<Line> {
    [Debit(COGS, cost), Credit(INVENTORY, cost)]
  }

  function CogsReversalLines(cost: int): seq<Line> {
    [Debit(INVENTORY, cost), Credit(COGS, cost)]
  }

  function SalePaymentLines(amount: int): seq<Line> {
    [Debit(CASH, amount), Credit(AR, amount)]
  }

  function SalePaymentReversalLines(amount: int): seq<Line> {
    [Debit(AR, amount), Credit(CASH, amount)]
  }

  function PurchaseInvoiceLines(p: Invoice): seq<Line> {
    [Debit(INVENTORY, p.total - p.taxTotal), Debit(VAT_INPUT, p.taxTotal), Credit(AP, p.total)]
  }

  function PurchaseVoidLines(p: Invoice): seq<Line> {
    [Debit(AP, p.total), Credit(INVENTORY, p.total - p.taxTotal), Credit(VAT_INPUT, p.taxTotal)]
  }

  function PurchasePaymentLines(amount: int): seq<Line> {
    [Debit(AP, amount), Credit(CASH, amount)]
  }

  function PurchasePaymentReversalLines(amount: int): seq<Line> {
    [Debit(CASH, amount), Credit(AP, amount)]
  }

  function CreditNoteLines(n: Note): seq<Line> {
    [Debit(VAT_OUTPUT, n.taxTotal), Debit(REVENUE, n.total - n.taxTotal), Credit(AR, n.total)]
  }

  /** postSaleCogs and its caller: nothing is booked for a zero cost. */
  function PostCost(b: Books, date: int, source: Source, cost: int, lines: seq<Line>): Result<Books> {
    if cost > 0 then PostAuto(b, date, source, lines) else Ok(b)
  }

  /* ----------------------------- chart of accounts -------------------------- */

  predicate HasActivity(entries: seq<Entry>, code: nat) {
    exists k, j :: 0 <= k < |entries| && 0 <= j < |entries[k].lines| && entries[k].lines[j].account == code
  }

  predicate CodeTaken(accounts: seq<Account>, code: nat) {
    exists i :: 0 <= i < |accounts| && accounts[i].code == code
  }

  predicate ActiveOnChart(accounts: seq<Account>, code: nat) {
    exists i :: 0 <= i < |accounts| && accounts[i].code == code && !accounts[i].deleted && accounts[i].active
  }

  function CreateAccount(b: Books, code: nat, kind: Kind): Result<Books> {
    if CodeTaken(b.accounts, code) then Err(Conflict)
    else Ok(b.(accounts := b.accounts + [Account(code, kind, true, false)]))
  }

  function UpdateAccount(b: Books, i: nat, kind: Kind, active: Option<bool>): Result<Books> {
    if i >= |b.accounts| || b.accounts[i].deleted then Err(NotFound)
    else if active == Some(false) && HasActivity(b.entries, b.accounts[i].code) then Err(Conflict)
    else
      var a := b.accounts[i];
      Ok(b.(accounts := b.accounts[i := a.(kind := kind, active := if active.Some? then active.value else a.active)]))
  }

  function RemoveAccount(b: Books, i: nat): Result<Books> {
    if i >= |b.accounts| || b.accounts[i].deleted then Err(NotFound)
    else if HasActivity(b.entries, b.accounts[i].code) then Err(Conflict)
    else Ok(b.(accounts := b.accounts[i := b.accounts[i].(deleted := true)]))
  }

  /* ------------------------------ journal entries --------------------------- */

  function CreateEntry(b: Books, date: int, lines: seq<Line>): Result<Books> {
    if exists j :: 0 <= j < |lines| && !ActiveOnChart(b.accounts, lines[j].account) then Err(NotFound)
    else
      var entries :- Post(b.accounts, b.entries, Entry(date, Draft, Manual, None, lines));
      Ok(b.(entries := entries))
  }

  function ApproveEntry(b: Books, k: nat): Result<Books> {
    if k >= |b.entries| then Err(NotFound)
    else if b.entries[k].status != Draft then Err(Conflict)
    else Ok(b.(entries := b.entries[k := b.entries[k].(status := Posted)]))
  }

  function ReverseEntry(b: Books, k: nat, date: int): Result<Books> {
    var entries :- Reverse(b.accounts, b.entries, k, date);
    Ok(b.(entries := entries))
  }

  /* ------------------------------ items and parties ------------------------- */

  function CreateParty(b: Books, kind: PartyKind, limit: Option<int>): Result<Books> {
    Ok(b.(parties := b.parties + [Party(kind, limit)]))
  }

  function WithItems(b: Books, items: seq<Item>): Books {
    b.(shelf := Shelf(items, b.shelf.movements))
  }

  function CreateItem(b: Books, buyPrice: Option<nat>, trackStock: bool): Result<Books> {
    Ok(WithItems(b, b.shelf.items + [Item(buyPrice, trackStock, 0, false)]))
  }

  predicate LiveItem(b: Books, i: nat) {
    i < |b.shelf.items| && !b.shelf.items[i].deleted
  }

  function UpdateItem(b: Books, i: nat, buyPrice: Option<nat>, trackStock: bool): Result<Books> {
    if !LiveItem(b, i) then Err(NotFound)
    else Ok(WithItems(b, b.shelf.items[i := b.shelf.items[i].(buyPrice := buyPrice, trackStock := trackStock)]))
  }

  function RemoveItem(b: Books, i: nat): Result<Books> {
    if !LiveItem(b, i) then Err(NotFound)
    else Ok(WithItems(b, b.shelf.items[i := b.shelf.items[i].(deleted := true)]))
  }

  function AdjustStock(b: Books, i: nat, delta: int): Result<Books> {
    var shelf :- Adjust(b.shelf, i, delta);
    Ok(b.(shelf := shelf))
  }

  /* ----------------------------------- drafts ------------------------------- */

  datatype LineRequest = LineRequest(item: Option<nat>, input: LineInput)

  function InputsOf(lines: seq<LineRequest>): seq<LineInput> {
    seq(|lines|, k requires 0 <= k < |lines| => lines[k].input)
  }

  function DocLineOf(l: LineRequest): DocLine {
    var c := ComputeLine(l.input);
    DocLine(l.item, l.input.qty * 10, c.total, c.tax)
  }

  function DocLinesOf(lines: seq<LineRequest>): seq<DocLine> {
    seq(|lines|, k requires 0 <= k < |lines| => DocLineOf(lines[k]))
  }

  predicate ItemsKnown(b: Books, lines: seq<LineRequest>) {
    forall k :: 0 <= k < |lines| && lines[k].item.Some? ==> LiveItem(b, lines[k].item.value)
  }

  function DraftInvoice(party: nat, lines: seq<LineRequest>): Invoice {
    var t := ComputeTotals(InputsOf(lines));
    Invoice(party, DocLinesOf(lines), t.total, t.taxTotal, 0, DraftDoc)
  }

  function CreateSale(b: Books, party: nat, lines: seq<LineRequest>): Result<Books> {
    if party >= |b.parties| then Err(NotFound)
    else if b.parties[party].kind == Supplier then Err(BadRequest)
    else if !ItemsKnown(b, lines) then Err(NotFound)
    else Ok(b.(sales := b.sales + [DraftInvoice(party, lines)]))
  }

  function CreatePurchase(b: Books, party: nat, lines: seq<LineRequest>): Result<Books> {
    if party >= |b.parties| then Err(NotFound)
    else if b.parties[party].kind == Customer then Err(BadRequest)
    else if !ItemsKnown(b, lines) then Err(NotFound)
    else Ok(b.(purchases := b.purchases + [DraftInvoice(party, lines)]))
  }

  function CreateNote(b: Books, party: nat, reference: Option<nat>, date: int, lines: seq<LineRequest>): Result<Books> {
    if party >= |b.parties| then Err(NotFound)
    else if b.parties[party].kind == Supplier then Err(BadRequest)
    else if reference.Some? && reference.value >= |b.sales| then Err(NotFound)
    else if reference.Some? && b.sales[reference.value].party != party then Err(BadRequest)
    else if reference.Some? && b.sales[reference.value].status == Void then Err(Conflict)
    else if !ItemsKnown(b, lines) then Err(NotFound)
    else
      var t := ComputeTotals(InputsOf(lines));
      Ok(b.(notes := b.notes + [Note(party, reference, date, DocLinesOf(lines), t.total, t.taxTotal, DraftNote)]))
  }

  /* ----------------------------------- sales -------------------------------- */

  predicate Released(s: DocStatus) {
    s == Confirmed || s == PartiallyPaid || s == Paid
  }

  /** What a party owes on its released invoices. */
  function OwedBy(party: nat): Invoice -> int {
    (s: Invoice) => if s.party == party && Released(s.status) then s.total - s.amountPaid else 0
  }

  predicate OverLimit(b: Books, s: Invoice) {
    && s.party < |b.parties|
    && b.parties[s.party].creditLimit.Some?
    && Sum(b.sales, OwedBy(s.party)) + s.total > b.parties[s.party].creditLimit.value
  }

  function ConfirmSale(b: Books, i: nat, date: int): Result<Books> {
    if i >= |b.sales| then Err(NotFound)
    else if b.sales[i].status != DraftDoc then Err(Conflict)
    else if OverLimit(b, b.sales[i]) then Err(Conflict)
    else
      var s := b.sales[i];
      var out :- Dispatch(b.shelf, s.lines, i);
      var b1 := b.(shelf := out.shelf, sales := b.sales[i := s.(status := Confirmed)]);
      var b2 :- PostAuto(b1, date, SaleInvoice(i), SaleInvoiceLines(s));
      PostCost(b2, date, SaleCogs(i), out.cost, CogsLines(out.cost))
  }

  /** Payment reversals of the first n payments that settle sale i. */
  function UnwindSalePayments(b: Books, i: nat, date: int, n: nat): Result<Books>
    requires n <= |b.payments|
    ensures UnwindSalePayments(b, i, date, n).Ok? ==>
              var u := UnwindSalePayments(b, i, date, n).value; u == b.(entries := u.entries)
  {
    if n == 0 then Ok(b)
    else
      var u :- UnwindSalePayments(b, i, date, n - 1);
      if b.payments[n - 1].target == OnSale(i)
      then PostAuto(u, date, SalePaymentReversal(n - 1), SalePaymentReversalLines(b.payments[n - 1].amount))
      else Ok(u)
  }

  function VoidSale(b: Books, i: nat, date: int): Result<Books> {
    if i >= |b.sales| then Err(NotFound)
    else if b.sales[i].status == Void then Err(Conflict)
    else
      var s := b.sales[i];
      var sales := b.sales[i := s.(status := Void)];
      if !Released(s.status) then Ok(b.(sales := sales))
      else
        var back := Restock(b.shelf, s.lines, VoidMove, i);
        var b1 := b.(shelf := back.shelf, sales := sales);
        var b2 :- PostAuto(b1, date, SaleVoid(i), SaleVoidLines(s));
        var b3 :- PostCost(b2, date, SaleCogsReversal(i), back.cost, CogsReversalLines(back.cost));
        UnwindSalePayments(b3, i, date, |b3.payments|)
  }

  /** The status recordPayment writes for an amount paid so far. */
  function PaidStatus(paid: int, total: int): DocStatus {
    if paid >= total then Paid else PartiallyPaid
  }

  function PaySale(b: Books, i: nat, amount: int, date: int): Result<Books> {
    if amount <= 0 then Err(BadRequest)
    else if i >= |b.sales| then Err(NotFound)
    else if b.sales[i].status != Confirmed && b.sales[i].status != PartiallyPaid then Err(Conflict)
    else
      var s := b.sales[i];
      var paid := s.amountPaid + amount;
      var b1 := b.(payments := b.payments + [Payment(OnSale(i), amount)],
                   sales := b.sales[i := s.(amountPaid := paid, status := PaidStatus(paid, s.total))]);
      PostAuto(b1, date, SalePayment(|b.payments|), SalePaymentLines(amount))
  }

  /* --------------------------------- purchases ------------------------------ */

  function ConfirmPurchase(b: Books, i: nat, date: int): Result<Books> {
    if i >= |b.purchases| then Err(NotFound)
    else if b.purchases[i].status != DraftDoc then Err(Conflict)
    else
      var p := b.purchases[i];
      var goods := Restock(b.shelf, p.lines, PurchaseIn, i);
      var b1 := b.(shelf := goods.shelf, purchases := b.purchases[i := p.(status := Confirmed)]);
      PostAuto(b1, date, PurchaseInvoice(i), PurchaseInvoiceLines(p))
  }

  /** Payment reversals of the first n payments that settle purchase i. */
  function UnwindPurchasePayments(b: Books, i: nat, date: int, n: nat): Result<Books>
    requires n <= |b.payments|
    ensures UnwindPurchasePayments(b, i, date, n).Ok? ==>
              var u := UnwindPurchasePayments(b, i, date, n).value; u == b.(entries := u.entries)
  {
    if n == 0 then Ok(b)
    else
      var u :- UnwindPurchasePayments(b, i, date, n - 1);
      if b.payments[n - 1].target == OnPurchase(i)
      then PostAuto(u, date, PurchasePaymentReversal(n - 1), PurchasePaymentReversalLines(b.payments[n - 1].amount))
      else Ok(u)
  }

  function VoidPurchase(b: Books, i: nat, date: int): Result<Books> {
    if i >= |b.purchases| then Err(NotFound)
    else if b.purchases[i].status == Void then Err(Conflict)
    else
      var p := b.purchases[i];
      var purchases := b.purchases[i := p.(status := Void)];
      if !Released(p.status) then Ok(b.(purchases := purchases))
      else
        var b1 := b.(shelf := Withdraw(b.shelf, p.lines, i), purchases := purchases);
        var b2 :- PostAuto(b1, date, PurchaseVoid(i), PurchaseVoidLines(p));
        UnwindPurchasePayments(b2, i, date, |b2.payments|)
  }

  function PayPurchase(b: Books, i: nat, amount: int, date: int): Result<Books> {
    if amount <= 0 then Err(BadRequest)
    else if i >= |b.purchases| then Err(NotFound)
    else if b.purchases[i].status != Confirmed && b.purchases[i].status != PartiallyPaid then Err(Conflict)
    else
      var p := b.purchases[i];
      var paid := p.amountPaid + amount;
      var b1 := b.(payments := b.payments + [Payment(OnPurchase(i), amount)],
                   purchases := b.purchases[i := p.(amountPaid := paid, status := PaidStatus(paid, p.total))]);
      PostAuto(b1, date, PurchasePayment(|b.payments|), PurchasePaymentLines(amount))
  }

  /* -------------------------------- credit notes ---------------------------- */

  function PaidAfterNote(s: Invoice, n: Note): int {
    Max(0, s.amountPaid - n.total)
  }

  /** The status issue writes back: it never looks at whether the invoice was released. */
  function StatusAfterNote(s: Invoice, paid: int): DocStatus {
    if paid >= s.total then s.status else if paid > 0 then PartiallyPaid else Confirmed
  }

  function UnwindReference(b: Books, n: Note): Result<seq<Invoice>> {
    if n.reference.None? then Ok(b.sales)
    else if n.reference.value >= |b.sales| then Err(NotFound)
    else
      var s := b.sales[n.reference.value];
      var paid := PaidAfterNote(s, n);
      Ok(b.sales[n.reference.value := s.(amountPaid := paid, status := StatusAfterNote(s, paid))])
  }

  function IssueNote(b: Books, k: nat): Result<Books> {
    if k >= |b.notes| then Err(NotFound)
    else if b.notes[k].status != DraftNote then Err(Conflict)
    else
      var n := b.notes[k];
      var goods := Restock(b.shelf, n.lines, VoidMove, if n.reference.Some? then n.reference.value else k);
      var sales :- UnwindReference(b, n);
      var b1 := b.(shelf := goods.shelf, sales := sales, notes := b.notes[k := n.(status := Issued)]);
      PostAuto(b1, n.date, CreditNote(k), CreditNoteLines(n))
  }

  function CancelNote(b: Books, k: nat): Result<Books> {
    if k >= |b.notes| then Err(NotFound)
    else if b.notes[k].status != DraftNote then Err(Conflict)
    else Ok(b.(notes := b.notes[k := b.notes[k].(status := Cancelled)]))
  }

  /* -------------------------------- goods receipts -------------------------- */

  function CreateOrderLine(b: Books, item: Option<nat>, ordered: nat): Result<Books> {
    Ok(b.(orderLines := b.orderLines + [OrderLine(item, ordered, 0)]))
  }

  function CreateReceipt(b: Books, lines: seq<ReceiptLine>): Result<Books> {
    if exists k :: 0 <= k < |lines| && lines[k].orderLine >= |b.orderLines| then Err(BadRequest)
    else if exists k :: 0 <= k < |lines| && ToAmount(lines[k].qty) <= 0 then Err(BadRequest)
    else Ok(b.(receipts := b.receipts + [Receipt(lines, DraftReceipt)]))
  }

  /** The over-receipt check looks at each line alone, against the quantities before the receipt. */
  predicate ReceiptLineFits(orderLines: seq<OrderLine>, l: ReceiptLine) {
    && l.orderLine < |orderLines|
    && ToAmount(l.qty) > 0
    && orderLines[l.orderLine].received + l.qty <= orderLines[l.orderLine].ordered
  }

  /** A receipt line moves the item its order line names. */
  function StockLine(orderLines: seq<OrderLine>, l: ReceiptLine): DocLine {
    DocLine(if l.orderLine < |orderLines| then orderLines[l.orderLine].item else None, l.qty, 0, 0)
  }

  function StockLines(orderLines: seq<OrderLine>, lines: seq<ReceiptLine>): seq<DocLine> {
    seq(|lines|, k requires 0 <= k < |lines| => StockLine(orderLines, lines[k]))
  }

  function Receive(orderLines: seq<OrderLine>, lines: seq<ReceiptLine>): (r: seq<OrderLine>)
    ensures |r| == |orderLines|
  {
    if lines == [] then orderLines
    else
      var l := lines[|lines| - 1];
      var r := Receive(orderLines, lines[..|lines| - 1]);
      if l.orderLine < |r| then r[l.orderLine := r[l.orderLine].(received := r[l.orderLine].received + l.qty)] else r
  }

  function ConfirmReceipt(b: Books, k: nat): Result<Books> {
    if k >= |b.receipts| then Err(NotFound)
    else if b.receipts[k].status != DraftReceipt then Err(Conflict)
    else if exists j :: 0 <= j < |b.receipts[k].lines| && !ReceiptLineFits(b.orderLines, b.receipts[k].lines[j])
    then Err(BadRequest)
    else
      var r := b.receipts[k];
      Ok(b.(shelf := Restock(b.shelf, StockLines(b.orderLines, r.lines), PurchaseIn, k).shelf,
            orderLines := Receive(b.orderLines, r.lines),
            receipts := b.receipts[k := r.(status := ConfirmedReceipt)]))
  }

  function CancelReceipt(b: Books, k: nat): Result<Books> {
    if k >= |b.receipts| then Err(NotFound)
    else if b.receipts[k].status != DraftReceipt then Err(Conflict)
    else Ok(b.(receipts := b.receipts[k := b.receipts[k].(status := CancelledReceipt)]))
  }

  /* ------------------------------------ runs -------------------------------- */

  datatype Command =
    | DoCreateAccount(code: nat, kind: Kind)
    | DoUpdateAccount(account: nat, kind: Kind, active: Option<bool>)
    | DoRemoveAccount(account: nat)
    | DoCreateEntry(date: int, posting: seq<Line>)
    | DoApproveEntry(entry: nat)
    | DoReverseEntry(entry: nat, date: int)
    | DoCreateParty(partyKind: PartyKind, limit: Option<int>)
    | DoCreateItem(price: Option<nat>, track: bool)
    | DoUpdateItem(item: nat, price: Option<nat>, track: bool)
    | DoRemoveItem(item: nat)
    | DoAdjustStock(item: nat, delta: int)
    | DoCreateSale(party: nat, lines: seq<LineRequest>)
    | DoConfirmSale(doc: nat, date: int)
    | DoPaySale(doc: nat, amount: int, date: int)
    | DoVoidSale(doc: nat, date: int)
    | DoCreatePurchase(party: nat, lines: seq<LineRequest>)
    | DoConfirmPurchase(doc: nat, date: int)
    | DoPayPurchase(doc: nat, amount: int, date: int)
    | DoVoidPurchase(doc: nat, date: int)
    | DoCreateNote(party: nat, reference: Option<nat>, date: int, lines: seq<LineRequest>)
    | DoIssueNote(note: nat)
    | DoCancelNote(note: nat)
    | DoCreateOrderLine(ofItem: Option<nat>, ordered: nat)
    | DoCreateReceipt(receiptLines: seq<ReceiptLine>)
    | DoConfirmReceipt(receipt: nat)
    | DoCancelReceipt(receipt: nat)

  function Execute(b: Books, c: Command): Result<Books> {
    match c
    case DoCreateAccount(code, kind) => CreateAccount(b, code, kind)
    case DoUpdateAccount(i, kind, active) => UpdateAccount(b, i, kind, active)
    case DoRemoveAccount(i) => RemoveAccount(b, i)
    case DoCreateEntry(date, posting) => CreateEntry(b, date, posting)
    case DoApproveEntry(k) => ApproveEntry(b, k)
    case DoReverseEntry(k, date) => ReverseEntry(b, k, date)
    case DoCreateParty(kind, limit) => CreateParty(b, kind, limit)
    case DoCreateItem(price, track) => CreateItem(b, price, track)
    case DoUpdateItem(i, price, track) => UpdateItem(b, i, price, track)
    case DoRemoveItem(i) => RemoveItem(b, i)
    case DoAdjustStock(i, delta) => AdjustStock(b, i, delta)
    case DoCreateSale(party, lines) => CreateSale(b, party, lines)
    case DoConfirmSale(i, date) => ConfirmSale(b, i, date)
    case DoPaySale(i, amount, date) => PaySale(b, i, amount, date)
    case DoVoidSale(i, date) => VoidSale(b, i, date)
    case DoCreatePurchase(party, lines) => CreatePurchase(b, party, lines)
    case DoConfirmPurchase(i, date) => ConfirmPurchase(b, i, date)
    case DoPayPurchase(i, amount, date) => PayPurchase(b, i, amount, date)
    case DoVoidPurchase(i, date) => VoidPurchase(b, i, date)
    case DoCreateNote(party, reference, date, lines) => CreateNote(b, party, reference, date, lines)
    case DoIssueNote(k) => IssueNote(b, k)
    case DoCancelNote(k) => CancelNote(b, k)
    case DoCreateOrderLine(item, ordered) => CreateOrderLine(b, item, ordered)
    case DoCreateReceipt(lines) => CreateReceipt(b, lines)
    case DoConfirmReceipt(k) => ConfirmReceipt(b, k)
    case DoCancelReceipt(k) => CancelReceipt(b, k)
  }

  function Step(b: Books, c: Command): Books {
    var r := Execute(b, c);
    if r.Ok? then r.value else b
  }

  /** The tables after a list of calls, some of which may have failed. */
  function Run(b: Books, cs: seq<Command>): Books {
    if cs == [] then b else Step(Run(b, cs[..|cs| - 1]), cs[|cs| - 1])
  }

  /** The chart seeded for every organization at registration. */
  function SeededChart(): seq<Account> {
    [Account(1000, Asset, true, false), Account(CASH, Asset, true, false), Account(AR, Asset, true, false),
     Account(INVENTORY, Asset, true, false), Account(VAT_INPUT, Asset, true, false),
     Account(2000, Liability, true, false), Account(AP, Liability, true, false), Account(VAT_OUTPUT, Liability, true, false),
     Account(3000, Equity, true, false), Account(3100, Equity, true, false),
     Account(4000, Income, true, false), Account(REVENUE, Income, true, false),
     Account(5000, Expense, true, false), Account(COGS, Expense, true, false), Account(5200, Expense, true, false)]
  }

  function Registered(): Books {
    Books(SeededChart(), [], Shelf([], []), [], [], [], [], [], [], [])
  }
}
