/**
 Withholding tax deducted from supplier payments, and supplier credit notes that
 take part of it back. Amounts are cents, rates hundredths of a percent.
 */
module Withholding {
  import opened Common
  import opened Sums
  import opened Money

  datatype PaymentType = ProfessionalFees | Rent | Commission | Royalty | Dividend | Interest | ContractualFees | Other

  datatype SupplierPayment = SupplierPayment(party: nat, toCustomer: bool, amount: nat)

  datatype Deduction = Deduction(
    supplier: nat, payment: nat, kind: PaymentType, gross: nat, wht: int, net: int, createdAt: int)

  datatype Offset = Offset(deduction: nat, amount: int)

  datatype CreditNote = CreditNote(
    supplier: nat, total: nat, matched: bool, invoice: Option<nat>, purchase: Option<nat>, offset: Option<Offset>)

  datatype EtimsInvoice = EtimsInvoice(supplier: nat, purchase: Option<nat>, amount: nat)

  datatype Purchase = Purchase(party: nat, total: nat)

  /** A PARTIAL_AMOUNT_MISMATCH flag on a purchase. */
  datatype Flag = Flag(purchase: nat, resolved: bool)

  datatype Files = Files(
    payments: seq<SupplierPayment>, deductions: seq<Deduction>, notes: seq<CreditNote>,
    invoices: seq<EtimsInvoice>, purchases: seq<Purchase>, flags: seq<Flag>)

  /* ---------------------------------- amounts ------------------------------- */

  function WhtOf(gross: nat, rate: nat): int {
    RoundDiv(gross * rate, 10000)
  }

  /** The withheld tax in proportion to the credited part of the payment, never more than all of it. */
  function OffsetAmount(total: nat, gross: nat, wht: int): int {
    var capped := if total < gross then total else gross;
    if gross > 0 then RoundDiv(wht * capped, gross) else 0
  }

  lemma WhtRange(gross: nat, rate: nat)
    ensures 0 <= WhtOf(gross, rate)
    ensures rate <= 10000 ==> WhtOf(gross, rate) <= gross
  {
    if rate <= 10000 {
      MulMonotone(gross, rate, 10000);
      RoundDivBounds(gross * rate, 10000, gross);
    } else {
      RoundDivBounds(gross * rate, 10000, gross * rate);
    }
  }

  /** The offset is between nothing and the tax withheld; a credit of the whole payment takes all of it back. */
  lemma OffsetRange(total: nat, gross: nat, wht: nat)
    ensures 0 <= OffsetAmount(total, gross, wht) <= wht
    ensures total == 0 ==> OffsetAmount(total, gross, wht) == 0
    ensures total >= gross > 0 ==> OffsetAmount(total, gross, wht) == wht
  {
    if gross > 0 {
      var capped := if total < gross then total else gross;
      MulMonotone(wht, capped, gross);
      RoundDivBounds(wht * capped, gross, wht);
      RoundDivUnique(wht * gross, gross, wht);
      RoundDivUnique(wht * 0, gross, 0);
    }
  }

  lemma OffsetMonotone(smaller: nat, larger: nat, gross: nat, wht: nat)
    requires smaller <= larger
    ensures OffsetAmount(smaller, gross, wht) <= OffsetAmount(larger, gross, wht)
  {
    if gross > 0 {
      var a := if smaller < gross then smaller else gross;
      var b := if larger < gross then larger else gross;
      MulMonotone(wht, a, b);
      RoundDivMonotone(wht * a, wht * b, gross);
    }
  }

  lemma RoundDivMonotone(m: int, n: int, d: int)
    requires d > 0 && m <= n
    ensures RoundDiv(m, d) <= RoundDiv(n, d)
  {
    if RoundDiv(n, d) + 1 <= RoundDiv(m, d) {
      MulMonotone(2 * d, RoundDiv(n, d) + 1, RoundDiv(m, d));
    }
  }

  /* --------------------------------- services ------------------------------- */

  predicate Recorded(f: Files, payment: nat) {
    exists d :: 0 <= d < |f.deductions| && f.deductions[d].payment == payment
  }

  /** record: one deduction per payment, however often it is called. */
  function Record(f: Files, payment: nat, rate: Option<nat>, now: int): Result<Files> {
    if payment >= |f.payments| then Err(NotFound)
    else if f.payments[payment].toCustomer then Err(BadRequest)
    else if Recorded(f, payment) then Ok(f)
    else if rate.None? then Err(NotFound)
    else
      var p := f.payments[payment];
      var wht := WhtOf(p.amount, rate.value);
      Ok(f.(deductions := f.deductions + [Deduction(p.party, payment, ProfessionalFees, p.amount, wht, p.amount - wht, now)]))
  }

  predicate Used(notes: seq<CreditNote>, deduction: nat) {
    exists k :: 0 <= k < |notes| && notes[k].offset.Some? && notes[k].offset.value.deduction == deduction
  }

  datatype Match = Match(invoice: Option<nat>, purchase: Option<nat>, deduction: Option<nat>)

  /** The purchase a note ends up with: the one named, else the one its original invoice was matched to. */
  function PurchaseOf(f: Files, m: Match): Option<nat> {
    if m.purchase.Some? then m.purchase
    else if m.invoice.Some? && m.invoice.value < |f.invoices| then f.invoices[m.invoice.value].purchase
    else None
  }

  function MatchError(f: Files, supplier: nat, m: Match): Option<Error> {
    if m.invoice.Some? && (m.invoice.value >= |f.invoices| || f.invoices[m.invoice.value].supplier != supplier)
    then Some(BadRequest)
    else
      var purchase := PurchaseOf(f, m);
      if purchase.Some? && purchase.value >= |f.purchases| then Some(NotFound)
      else if purchase.Some? && f.purchases[purchase.value].party != supplier then Some(BadRequest)
      else if m.deduction.Some?
              && (m.deduction.value >= |f.deductions| || f.deductions[m.deduction.value].supplier != supplier)
      then Some(BadRequest)
      else if m.deduction.Some? && Used(f.notes, m.deduction.value) then Some(Conflict)
      else None
  }

  function OffsetOf(f: Files, total: nat, m: Match): Option<Offset> {
    if m.deduction.Some? && m.deduction.value < |f.deductions| then
      var d := f.deductions[m.deduction.value];
      Some(Offset(m.deduction.value, OffsetAmount(total, d.gross, d.wht)))
    else None
  }

  /** The captured invoice and the credit together reach the purchase total. */
  predicate Bridges(f: Files, total: nat, m: Match) {
    var purchase := PurchaseOf(f, m);
    && m.invoice.Some? && m.invoice.value < |f.invoices|
    && purchase.Some? && purchase.value < |f.purchases|
    && f.invoices[m.invoice.value].amount + total >= f.purchases[purchase.value].total
  }

  function ResolveFlag(g: Flag, purchase: nat): Flag {
    if g.purchase == purchase then g.(resolved := true) else g
  }

  function ResolveFlags(flags: seq<Flag>, purchase: nat): seq<Flag> {
    seq(|flags|, i requires 0 <= i < |flags| => ResolveFlag(flags[i], purchase))
  }

  function MatchNote(f: Files, k: nat, m: Match): Result<Files> {
    if k >= |f.notes| then Err(NotFound)
    else if f.notes[k].matched then Err(Conflict)
    else
      var n := f.notes[k];
      var error := MatchError(f, n.supplier, m);
      if error.Some? then Err(error.value)
      else
        var offset := OffsetOf(f, n.total, m);
        var row := n.(matched := true, invoice := m.invoice, purchase := PurchaseOf(f, m),
                      offset := if offset.Some? then offset else n.offset);
        Ok(f.(notes := f.notes[k := row],
              flags := if Bridges(f, n.total, m) then ResolveFlags(f.flags, PurchaseOf(f, m).value) else f.flags))
  }

  datatype Command =
    | DoPay(paid: SupplierPayment)
    | DoRecord(payment: nat, rate: Option<nat>, now: int)
    | DoCapture(supplier: nat, total: nat)
    | DoInvoice(captured: EtimsInvoice)
    | DoPurchase(bought: Purchase)
    | DoFlag(purchase: nat)
    | DoMatch(note: nat, to: Match)

  function Execute(f: Files, c: Command): Result<Files> {
    match c
    case DoPay(p) => Ok(f.(payments := f.payments + [p]))
    case DoRecord(payment, rate, now) => Record(f, payment, rate, now)
    case DoCapture(supplier, total) => Ok(f.(notes := f.notes + [CreditNote(supplier, total, false, None, None, None)]))
    case DoInvoice(i) => Ok(f.(invoices := f.invoices + [i]))
    case DoPurchase(p) => Ok(f.(purchases := f.purchases + [p]))
    case DoFlag(p) => Ok(f.(flags := f.flags + [Flag(p, false)]))
    case DoMatch(k, m) => MatchNote(f, k, m)
  }

  function Step(f: Files, c: Command): Files {
    var r := Execute(f, c);
    if r.Ok? then r.value else f
  }

  function Run(f: Files, cs: seq<Command>): Files {
    if cs == [] then f else Step(Run(f, cs[..|cs| - 1]), cs[|cs| - 1])
  }

  const EMPTY := Files([], [], [], [], [], [])

  /* -------------------------------- invariant ------------------------------- */

  predicate NoteSound(deductions: seq<Deduction>, n: CreditNote) {
    && (n.offset.Some? ==> n.matched)
    && (n.offset.Some? ==>
          var o := n.offset.value;
          && o.deduction < |deductions|
          && deductions[o.deduction].supplier == n.supplier
          && 0 <= o.amount <= deductions[o.deduction].wht)
  }

  predicate OneUse(notes: seq<CreditNote>) {
    forall j, k :: 0 <= j < k < |notes| && notes[j].offset.Some? && notes[k].offset.Some? ==>
      notes[j].offset.value.deduction != notes[k].offset.value.deduction
  }

  predicate Sound(f: Files) {
    && (forall d :: 0 <= d < |f.deductions| ==> f.deductions[d].wht >= 0)
    && (forall c, d :: 0 <= c < d < |f.deductions| ==> f.deductions[c].payment != f.deductions[d].payment)
    && (forall k :: 0 <= k < |f.notes| ==> NoteSound(f.deductions, f.notes[k]))
    && OneUse(f.notes)
  }

  lemma RecordKeeps(f: Files, payment: nat, rate: Option<nat>, now: int)
    requires Sound(f) && Record(f, payment, rate, now).Ok?
    ensures Sound(Record(f, payment, rate, now).value)
    ensures Record(Record(f, payment, rate, now).value, payment, rate, now) == Record(f, payment, rate, now)
  {
    var after := Record(f, payment, rate, now).value;
    if !Recorded(f, payment) {
      WhtRange(f.payments[payment].amount, rate.value);
      forall k | 0 <= k < |f.notes| ensures NoteSound(after.deductions, f.notes[k]) {
        assert NoteSound(f.deductions, f.notes[k]);
      }
      assert after.deductions[|f.deductions|].payment == payment;
    }
  }

  lemma MatchKeeps(f: Files, k: nat, m: Match)
    requires Sound(f) && MatchNote(f, k, m).Ok?
    ensures Sound(MatchNote(f, k, m).value)
  {
    var n := f.notes[k];
    var after := MatchNote(f, k, m).value;
    assert NoteSound(f.deductions, n);
    if m.deduction.Some? {
      var d := f.deductions[m.deduction.value];
      OffsetRange(n.total, d.gross, d.wht);
    }
    forall j | 0 <= j < |after.notes| ensures NoteSound(after.deductions, after.notes[j]) {
      assert NoteSound(f.deductions, f.notes[j]);
    }
  }

  lemma StepKeeps(f: Files, c: Command)
    requires Sound(f)
    ensures Sound(Step(f, c))
  {
    if Execute(f, c).Ok? {
      match c
      case DoRecord(payment, rate, now) => RecordKeeps(f, payment, rate, now);
      case DoMatch(k, m) => MatchKeeps(f, k, m);
      case _ =>
    }
  }

  /** After every run each payment has one deduction and each deduction at most one offset, within what was withheld. */
  lemma {:induction false} EveryRunSound(cs: seq<Command>)
    ensures Sound(Run(EMPTY, cs))
  {
    if cs != [] {
      EveryRunSound(cs[..|cs| - 1]);
      StepKeeps(Run(EMPTY, cs[..|cs| - 1]), cs[|cs| - 1]);
    }
  }

  /* -------------------------------- remittance ------------------------------ */

  predicate InRange(d: Deduction, from: int, to: int) {
    from <= d.createdAt <= to
  }

  function WhtIn(from: int, to: int): Deduction -> int {
    (d: Deduction) => if InRange(d, from, to) then d.wht else 0
  }

  function GrossIn(from: int, to: int): Deduction -> int {
    (d: Deduction) => if InRange(d, from, to) then d.gross else 0
  }

  /** What matched notes take back from the deductions of a range. */
  function OffsetIn(deductions: seq<Deduction>, from: int, to: int): CreditNote -> int {
    (n: CreditNote) =>
      if n.matched && n.offset.Some? && n.offset.value.deduction < |deductions|
         && InRange(deductions[n.offset.value.deduction], from, to)
      then n.offset.value.amount else 0
  }

  function OffsetOn(d: nat): CreditNote -> int {
    (n: CreditNote) => if n.matched && n.offset.Some? && n.offset.value.deduction == d then n.offset.value.amount else 0
  }

  lemma OffsetOnBounded(f: Files, d: nat)
    requires Sound(f) && d < |f.deductions|
    ensures 0 <= Sum(f.notes, OffsetOn(d)) <= f.deductions[d].wht
  {
    if k :| 0 <= k < |f.notes| && f.notes[k].offset.Some? && f.notes[k].offset.value.deduction == d {
      SumSingle(f.notes, k, OffsetOn(d));
      assert NoteSound(f.deductions, f.notes[k]);
    } else {
      SumZero(f.notes, OffsetOn(d));
    }
  }

  lemma {:induction false} SplitLast(notes: seq<CreditNote>, deductions: seq<Deduction>, from: int, to: int)
    requires deductions != []
    ensures var n := |deductions| - 1;
      Sum(notes, OffsetIn(deductions, from, to))
      == Sum(notes, OffsetIn(deductions[..n], from, to)) + if InRange(deductions[n], from, to) then Sum(notes, OffsetOn(n)) else 0
  {
    if notes != [] {
      SplitLast(notes[..|notes| - 1], deductions, from, to);
    }
  }

  lemma {:induction false} OffsetsCovered(f: Files, n: nat, from: int, to: int)
    requires Sound(f) && n <= |f.deductions|
    ensures 0 <= Sum(f.notes, OffsetIn(f.deductions[..n], from, to)) <= Sum(f.deductions[..n], WhtIn(from, to))
  {
    if n == 0 {
      SumZero(f.notes, OffsetIn(f.deductions[..0], from, to));
    } else {
      var some := f.deductions[..n];
      assert some[..n - 1] == f.deductions[..n - 1];
      OffsetsCovered(f, n - 1, from, to);
      SplitLast(f.notes, some, from, to);
      OffsetOnBounded(f, n - 1);
    }
  }

  function Remittable(f: Files, from: int, to: int): int {
    Sum(f.deductions, WhtIn(from, to)) - Sum(f.notes, OffsetIn(f.deductions, from, to))
  }

  /** In no range, after no run, is more taken back than was withheld. */
  lemma RemittableNeverNegative(cs: seq<Command>, from: int, to: int)
    ensures Remittable(Run(EMPTY, cs), from, to) >= 0
  {
    var f := Run(EMPTY, cs);
    EveryRunSound(cs);
    OffsetsCovered(f, |f.deductions|, from, to);
    assert f.deductions[..|f.deductions|] == f.deductions;
  }

  datatype Group = Group(gross: int, wht: int, count: nat)

  function GroupOf(m: map<PaymentType, Group>, kind: PaymentType): Group {
    if kind in m then m[kind] else Group(0, 0, 0)
  }

  function WhtOfKind(kind: PaymentType, from: int, to: int): Deduction -> int {
    (d: Deduction) => if d.kind == kind && InRange(d, from, to) then d.wht else 0
  }

  function GrossOfKind(kind: PaymentType, from: int, to: int): Deduction -> int {
    (d: Deduction) => if d.kind == kind && InRange(d, from, to) then d.gross else 0
  }

  function OneOfKind(kind: PaymentType, from: int, to: int): Deduction -> int {
    (d: Deduction) => if d.kind == kind && InRange(d, from, to) then 1 else 0
  }

  function OneIn(from: int, to: int): Deduction -> int {
    (d: Deduction) => if InRange(d, from, to) then 1 else 0
  }

  ghost predicate GroupsAre(m: map<PaymentType, Group>, deductions: seq<Deduction>, from: int, to: int) {
    forall kind: PaymentType ::
      && GroupOf(m, kind).wht == Sum(deductions, WhtOfKind(kind, from, to))
      && GroupOf(m, kind).gross == Sum(deductions, GrossOfKind(kind, from, to))
      && GroupOf(m, kind).count == Sum(deductions, OneOfKind(kind, from, to))
  }

  /** One for every matched offset against a deduction of the range. */
  function OneOffset(deductions: seq<Deduction>, from: int, to: int): CreditNote -> int {
    (n: CreditNote) =>
      if n.matched && n.offset.Some? && n.offset.value.deduction < |deductions|
         && InRange(deductions[n.offset.value.deduction], from, to)
      then 1 else 0
  }

  lemma OneMoreOfKind(deductions: seq<Deduction>, d: Deduction, kind: PaymentType, from: int, to: int)
    ensures Sum(deductions + [d], WhtOfKind(kind, from, to))
            == Sum(deductions, WhtOfKind(kind, from, to)) + WhtOfKind(kind, from, to)(d)
    ensures Sum(deductions + [d], GrossOfKind(kind, from, to))
            == Sum(deductions, GrossOfKind(kind, from, to)) + GrossOfKind(kind, from, to)(d)
    ensures Sum(deductions + [d], OneOfKind(kind, from, to))
            == Sum(deductions, OneOfKind(kind, from, to)) + OneOfKind(kind, from, to)(d)
  {
    SumAppend(deductions, d, WhtOfKind(kind, from, to));
    SumAppend(deductions, d, GrossOfKind(kind, from, to));
    SumAppend(deductions, d, OneOfKind(kind, from, to));
  }

  function AddToGroup(m: map<PaymentType, Group>, d: Deduction, from: int, to: int): map<PaymentType, Group> {
    if from <= d.createdAt <= to then
      var g := GroupOf(m, d.kind);
      m[d.kind := Group(g.gross + d.gross, g.wht + d.wht, g.count + 1)]
    else m
  }

  lemma GroupsGrow(m: map<PaymentType, Group>, deductions: seq<Deduction>, d: Deduction, from: int, to: int)
    requires GroupsAre(m, deductions, from, to)
    ensures GroupsAre(AddToGroup(m, d, from, to), deductions + [d], from, to)
  {
    var after := AddToGroup(m, d, from, to);
    forall kind: PaymentType
      ensures GroupOf(after, kind).wht == Sum(deductions + [d], WhtOfKind(kind, from, to))
      ensures GroupOf(after, kind).gross == Sum(deductions + [d], GrossOfKind(kind, from, to))
      ensures GroupOf(after, kind).count == Sum(deductions + [d], OneOfKind(kind, from, to))
    {
      OneMoreOfKind(deductions, d, kind, from, to);
    }
  }

  /**
   The tax withheld is the payment times the rate, half up to the cent, and what is
   left makes up the payment; a rate of up to 100% withholds no more than all of it.
   */
  predicate Withheld(d: Deduction, p: SupplierPayment, rate: nat) {
    && d.supplier == p.party
    && d.wht + d.net == d.gross == p.amount
    && -10000 <= 2 * p.amount * rate - 20000 * d.wht < 10000
    && 0 <= d.wht && (rate <= 10000 ==> 0 <= d.net)
  }

  /* --------------------------- what a match does ---------------------------- */

  /** The purchase named, else the one the original invoice was matched to. */
  function ChosenPurchase(f: Files, m: Match): Option<nat> {
    if m.purchase.Some? then m.purchase
    else if m.invoice.Some? && m.invoice.value < |f.invoices| then f.invoices[m.invoice.value].purchase
    else None
  }

  /** Everything the match names exists and is the note's supplier's, and the deduction is not used yet. */
  predicate MayMatch(f: Files, k: nat, m: Match) {
    && k < |f.notes| && !f.notes[k].matched
    && (m.invoice.Some? ==>
          m.invoice.value < |f.invoices| && f.invoices[m.invoice.value].supplier == f.notes[k].supplier)
    && (ChosenPurchase(f, m).Some? ==>
          && ChosenPurchase(f, m).value < |f.purchases|
          && f.purchases[ChosenPurchase(f, m).value].party == f.notes[k].supplier)
    && (m.deduction.Some? ==>
          && m.deduction.value < |f.deductions| && f.deductions[m.deduction.value].supplier == f.notes[k].supplier
          && (forall j :: 0 <= j < |f.notes| && f.notes[j].offset.Some? ==>
                f.notes[j].offset.value.deduction != m.deduction.value))
  }

  /** The share of the tax, half up to the cent, that the credit is of the payment, the credit counted up to the payment. */
  predicate IsShare(amount: int, credit: nat, d: Deduction) {
    var counted := if credit < d.gross then credit else d.gross;
    if d.gross == 0 then amount == 0 else 0 - d.gross <= 2 * d.wht * counted - 2 * d.gross * amount < d.gross
  }

  /** The invoice amount and the credit together reach the total of the purchase. */
  predicate ClosesGap(f: Files, credit: nat, m: Match) {
    && m.invoice.Some? && m.invoice.value < |f.invoices|
    && ChosenPurchase(f, m).Some? && ChosenPurchase(f, m).value < |f.purchases|
    && f.invoices[m.invoice.value].amount + credit >= f.purchases[ChosenPurchase(f, m).value].total
  }

  /** The note's row, its offset, and the flags of the purchase as a match leaves them; nothing else moved. */
  predicate IsMatched(f: Files, after: Files, k: nat, m: Match)
    requires k < |f.notes|
  {
    var n := f.notes[k];
    && after == f.(notes := after.notes, flags := after.flags)
    && |after.notes| == |f.notes| && |after.flags| == |f.flags|
    && (forall j :: 0 <= j < |f.notes| && j != k ==> after.notes[j] == f.notes[j])
    && after.notes[k] == n.(matched := true, invoice := m.invoice, purchase := ChosenPurchase(f, m), offset := after.notes[k].offset)
    && (m.deduction.None? ==> after.notes[k].offset == n.offset)
    && (m.deduction.Some? && m.deduction.value < |f.deductions| ==>
          && after.notes[k].offset.Some? && after.notes[k].offset.value.deduction == m.deduction.value
          && IsShare(after.notes[k].offset.value.amount, n.total, f.deductions[m.deduction.value]))
    && (forall j :: 0 <= j < |f.flags| ==>
          after.flags[j] == f.flags[j].(resolved := f.flags[j].resolved
                                        || (ClosesGap(f, n.total, m) && ChosenPurchase(f, m) == Some(f.flags[j].purchase))))
  }

  lemma ShareOf(credit: nat, d: Deduction)
    ensures IsShare(OffsetAmount(credit, d.gross, d.wht), credit, d)
  {
    var counted := if credit < d.gross then credit else d.gross;
    if d.gross > 0 {
      RoundDivUnique(d.wht * counted, d.gross, OffsetAmount(credit, d.gross, d.wht));
      assert 2 * (d.wht * counted) == 2 * d.wht * counted;
    }
  }

  /** A match succeeds exactly when it may, and does exactly this. */
  lemma MatchDoes(f: Files, k: nat, m: Match)
    ensures MatchNote(f, k, m).Ok? <==> MayMatch(f, k, m)
    ensures MatchNote(f, k, m).Ok? ==> k < |f.notes| && IsMatched(f, MatchNote(f, k, m).value, k, m)
  {
    assert PurchaseOf(f, m) == ChosenPurchase(f, m);
    if m.deduction.Some? && m.deduction.value < |f.deductions| && k < |f.notes| {
      ShareOf(f.notes[k].total, f.deductions[m.deduction.value]);
    }
  }

  class ComplianceService {
    var payments: seq<SupplierPayment>
    var deductions: seq<Deduction>
    var notes: seq<CreditNote>
    var invoices: seq<EtimsInvoice>
    var purchases: seq<Purchase>
    var flags: seq<Flag>

    function View(): Files
      reads this
    {
      Files(payments, deductions, notes, invoices, purchases, flags)
    }

    method RecordDeduction(payment: nat, rate: Option<nat>, now: int) returns (failure: Option<Error>)
      modifies `deductions
      ensures match Record(old(View()), payment, rate, now)
              case Ok(f) => failure == None && View() == f
              case Err(error) => failure == Some(error) && View() == old(View())
      ensures failure == None <==>
                payment < |payments| && !payments[payment].toCustomer && (Recorded(old(View()), payment) || rate.Some?)
      ensures failure == None ==> Recorded(View(), payment)
      ensures failure == None && !Recorded(old(View()), payment) ==>
                && |deductions| == |old(deductions)| + 1 && old(deductions) <= deductions
                && deductions[|old(deductions)|].payment == payment
                && deductions[|old(deductions)|].kind == ProfessionalFees
                && deductions[|old(deductions)|].createdAt == now
                && Withheld(deductions[|old(deductions)|], payments[payment], rate.value)
      ensures Recorded(old(View()), payment) ==> deductions == old(deductions)
      ensures Sound(old(View())) ==> Sound(View())
    {
      if Sound(View()) && Record(View(), payment, rate, now).Ok? {
        RecordKeeps(View(), payment, rate, now);
      }
      if payment >= |payments| {
        return Some(NotFound);
      }
      var p := payments[payment];
      if p.toCustomer {
        return Some(BadRequest);
      }
      if Recorded(View(), payment) {
        return None;
      }
      if rate.None? {
        return Some(NotFound);
      }
      var wht := WhtOf(p.amount, rate.value);
      WhtRange(p.amount, rate.value);
      RoundDivUnique(p.amount * rate.value, 10000, wht);
      assert 2 * (p.amount * rate.value) == 2 * p.amount * rate.value;
      deductions := deductions + [Deduction(p.party, payment, ProfessionalFees, p.amount, wht, p.amount - wht, now)];
      failure := None;
      assert deductions[|old(deductions)|].payment == payment;
    }

    /** Resolves the open mismatch flags of a purchase. */
    method Resolve(purchase: nat)
      modifies `flags
      ensures flags == ResolveFlags(old(flags), purchase)
    {
      for i := 0 to |flags|
        invariant |flags| == |old(flags)|
        invariant forall j :: 0 <= j < |flags| ==> flags[j] == if j < i then ResolveFlag(old(flags)[j], purchase) else old(flags)[j]
      {
        if flags[i].purchase == purchase && !flags[i].resolved {
          flags := flags[i := flags[i].(resolved := true)];
        }
      }
    }

    /** Matches exactly what may be matched, stores the share offset, and resolves the flags of a purchase it closes. */
    method MatchCreditNote(k: nat, m: Match) returns (failure: Option<Error>)
      modifies `notes, `flags
      ensures match MatchNote(old(View()), k, m)
              case Ok(f) => failure == None && View() == f
              case Err(error) => failure == Some(error) && View() == old(View())
      ensures failure == None <==> MayMatch(old(View()), k, m)
      ensures failure == None ==> k < |old(notes)| && IsMatched(old(View()), View(), k, m)
    {
      ghost var before := View();
      failure := StoreMatch(k, m);
      MatchDoes(before, k, m);
    }

    method StoreMatch(k: nat, m: Match) returns (failure: Option<Error>)
      modifies `notes, `flags
      ensures match MatchNote(old(View()), k, m)
              case Ok(f) => failure == None && View() == f
              case Err(error) => failure == Some(error) && View() == old(View())
    {
      if k >= |notes| {
        return Some(NotFound);
      }
      var credit := notes[k];
      if credit.matched {
        return Some(Conflict);
      }
      var purchase := m.purchase;
      if m.invoice.Some? {
        if m.invoice.value >= |invoices| || invoices[m.invoice.value].supplier != credit.supplier {
          return Some(BadRequest);
        }
        if purchase.None? {
          purchase := invoices[m.invoice.value].purchase;
        }
      }
      if purchase.Some? {
        if purchase.value >= |purchases| {
          return Some(NotFound);
        }
        if purchases[purchase.value].party != credit.supplier {
          return Some(BadRequest);
        }
      }
      var offset := credit.offset;
      if m.deduction.Some? {
        if m.deduction.value >= |deductions| || deductions[m.deduction.value].supplier != credit.supplier {
          return Some(BadRequest);
        }
        if Used(notes, m.deduction.value) {
          return Some(Conflict);
        }
        var d := deductions[m.deduction.value];
        var capped := if credit.total < d.gross then credit.total else d.gross;
        offset := Some(Offset(m.deduction.value, if d.gross > 0 then RoundDiv(d.wht * capped, d.gross) else 0));
      }
      notes := notes[k := credit.(matched := true, invoice := m.invoice, purchase := purchase, offset := offset)];
      if m.invoice.Some? && purchase.Some?
         && invoices[m.invoice.value].amount + credit.total >= purchases[purchase.value].total {
        Resolve(purchase.value);
      }
      failure := None;
    }

    /** The summary of a range: totals, counts, groups by payment type, and what remains to be remitted. */
    method RemittanceSummary(from: int, to: int)
      returns (byType: map<PaymentType, Group>, gross: int, wht: int, count: int,
               offset: int, offsetCount: int, remittable: int)
      ensures GroupsAre(byType, deductions, from, to)
      ensures gross == Sum(deductions, GrossIn(from, to)) && count == Sum(deductions, OneIn(from, to))
      ensures wht == Sum(deductions, WhtIn(from, to)) && offset == Sum(notes, OffsetIn(deductions, from, to))
      ensures offsetCount == Sum(notes, OneOffset(deductions, from, to))
      ensures remittable == Remittable(View(), from, to)
      ensures Sound(View()) ==> remittable >= 0
    {
      byType := GroupDeductions(from, to);
      gross, wht, count := 0, 0, 0;
      for i := 0 to |deductions|
        invariant wht == Sum(deductions[..i], WhtIn(from, to)) && gross == Sum(deductions[..i], GrossIn(from, to))
        invariant count == Sum(deductions[..i], OneIn(from, to))
      {
        var d := deductions[i];
        assert deductions[..i + 1] == deductions[..i] + [d];
        SumAppend(deductions[..i], d, WhtIn(from, to));
        SumAppend(deductions[..i], d, GrossIn(from, to));
        SumAppend(deductions[..i], d, OneIn(from, to));
        if from <= d.createdAt && d.createdAt <= to {
          gross, wht, count := gross + d.gross, wht + d.wht, count + 1;
        }
      }
      assert deductions[..|deductions|] == deductions;
      offset, offsetCount := SumOffsets(from, to);
      remittable := wht - offset;
      if Sound(View()) {
        OffsetsCovered(View(), |deductions|, from, to);
      }
    }

    method GroupDeductions(from: int, to: int) returns (byType: map<PaymentType, Group>)
      ensures GroupsAre(byType, deductions, from, to)
    {
      byType := map[];
      for i := 0 to |deductions|
        invariant GroupsAre(byType, deductions[..i], from, to)
      {
        assert deductions[..i + 1] == deductions[..i] + [deductions[i]];
        GroupsGrow(byType, deductions[..i], deductions[i], from, to);
        byType := AddToGroup(byType, deductions[i], from, to);
      }
      assert deductions[..|deductions|] == deductions;
    }

    method SumOffsets(from: int, to: int) returns (offset: int, offsetCount: int)
      ensures offset == Sum(notes, OffsetIn(deductions, from, to))
      ensures offsetCount == Sum(notes, OneOffset(deductions, from, to))
    {
      offset, offsetCount := 0, 0;
      for k := 0 to |notes|
        invariant offset == Sum(notes[..k], OffsetIn(deductions, from, to))
        invariant offsetCount == Sum(notes[..k], OneOffset(deductions, from, to))
      {
        assert notes[..k + 1] == notes[..k] + [notes[k]];
        SumAppend(notes[..k], notes[k], OffsetIn(deductions, from, to));
        SumAppend(notes[..k], notes[k], OneOffset(deductions, from, to));
        var o := notes[k].offset;
        if notes[k].matched && o.Some? && o.value.deduction < |deductions|
           && from <= deductions[o.value.deduction].createdAt && deductions[o.value.deduction].createdAt <= to {
          offset, offsetCount := offset + o.value.amount, offsetCount + 1;
        }
      }
      assert notes[..|notes|] == notes;
    }
  }
}
