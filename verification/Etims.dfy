/** The tax groups of an eTIMS payload: stored invoice lines folded into one entry per rate. */
module Etims {
  import opened Sums
  import opened Money

  /** A stored line as the payload sees it; rates are hundredths of a percent. */
  datatype PayloadLine = PayloadLine(rate: nat, total: int, tax: int)

  datatype Entry = Entry(taxable: int, tax: int)

  datatype TaxType = Taxed | Untaxed

  datatype TaxGroup = TaxGroup(kind: TaxType, rate: nat, taxable: int, tax: int)

  function TaxableAt(rate: nat): PayloadLine -> int {
    (l: PayloadLine) => if l.rate == rate then l.total else 0
  }

  function TaxAt(rate: nat): PayloadLine -> int {
    (l: PayloadLine) => if l.rate == rate then l.tax else 0
  }

  function PayloadTotal(): PayloadLine -> int {
    (l: PayloadLine) => l.total
  }

  function PayloadTax(): PayloadLine -> int {
    (l: PayloadLine) => l.tax
  }

  function GroupTaxable(): TaxGroup -> int {
    (g: TaxGroup) => g.taxable
  }

  function GroupTax(): TaxGroup -> int {
    (g: TaxGroup) => g.tax
  }

  predicate Distinct(rates: seq<nat>) {
    forall i, j :: 0 <= i < j < |rates| ==> rates[i] != rates[j]
  }

  predicate Occurs(lines: seq<PayloadLine>, rate: nat) {
    exists k :: 0 <= k < |lines| && lines[k].rate == rate
  }

  predicate HasGroup(groups: seq<TaxGroup>, rate: nat) {
    exists i :: 0 <= i < |groups| && groups[i].rate == rate
  }

  predicate GroupSums(g: TaxGroup, lines: seq<PayloadLine>) {
    && Occurs(lines, g.rate)
    && g.taxable == Sum(lines, TaxableAt(g.rate))
    && g.tax == Sum(lines, TaxAt(g.rate))
    && (g.kind == Taxed <==> g.rate > 0)
  }

  /** One group per rate that occurs, holding the sums of exactly that rate's lines. */
  predicate GroupsOf(groups: seq<TaxGroup>, lines: seq<PayloadLine>) {
    && (forall i, j :: 0 <= i < j < |groups| ==> groups[i].rate != groups[j].rate)
    && (forall k :: 0 <= k < |lines| ==> HasGroup(groups, lines[k].rate))
    && (forall i :: 0 <= i < |groups| ==> GroupSums(groups[i], lines))
  }

  function GroupFor(rate: nat, e: Entry): TaxGroup {
    TaxGroup(if rate > 0 then Taxed else Untaxed, rate, e.taxable, e.tax)
  }

  ghost predicate Grouped(taxes: map<nat, Entry>, order: seq<nat>, lines: seq<PayloadLine>) {
    && Distinct(order)
    && (forall i :: 0 <= i < |order| ==> order[i] in taxes)
    && (forall rate: nat :: rate in taxes ==> rate in order)
    && (forall rate: nat :: rate in taxes <==> Occurs(lines, rate))
    && (forall rate: nat :: rate in taxes ==>
          taxes[rate] == Entry(Sum(lines, TaxableAt(rate)), Sum(lines, TaxAt(rate))))
  }

  lemma UnseenRateSumsToZero(lines: seq<PayloadLine>, rate: nat)
    requires !Occurs(lines, rate)
    ensures Sum(lines, TaxableAt(rate)) == 0 == Sum(lines, TaxAt(rate))
  {
    SumZero(lines, TaxableAt(rate));
    SumZero(lines, TaxAt(rate));
  }

  lemma OccursStep(lines: seq<PayloadLine>, l: PayloadLine, rate: nat)
    ensures Occurs(lines + [l], rate) <==> Occurs(lines, rate) || l.rate == rate
  {
    if Occurs(lines, rate) {
      var j :| 0 <= j < |lines| && lines[j].rate == rate;
      assert (lines + [l])[j].rate == rate;
    }
    if l.rate == rate {
      assert (lines + [l])[|lines|].rate == rate;
    }
  }

  function Added(taxes: map<nat, Entry>, l: PayloadLine): Entry {
    var entry := if l.rate in taxes then taxes[l.rate] else Entry(0, 0);
    Entry(entry.taxable + l.total, entry.tax + l.tax)
  }

  lemma GroupStep(taxes: map<nat, Entry>, order: seq<nat>, lines: seq<PayloadLine>, l: PayloadLine)
    requires Grouped(taxes, order, lines)
    ensures Grouped(taxes[l.rate := Added(taxes, l)], if l.rate in taxes then order else order + [l.rate], lines + [l])
  {
    var order' := if l.rate in taxes then order else order + [l.rate];
    if l.rate !in taxes {
      UnseenRateSumsToZero(lines, l.rate);
      assert forall i :: 0 <= i < |order| ==> order[i] != l.rate;
      assert order'[|order|] == l.rate;
    }
    forall rate: nat | rate in taxes[l.rate := Added(taxes, l)] ensures rate in order' {
      if rate in taxes {
        var i :| 0 <= i < |order| && order[i] == rate;
        assert order'[i] == rate;
      }
    }
    forall rate: nat
      ensures Occurs(lines + [l], rate) <==> Occurs(lines, rate) || l.rate == rate
      ensures Sum(lines + [l], TaxableAt(rate)) == Sum(lines, TaxableAt(rate)) + TaxableAt(rate)(l)
      ensures Sum(lines + [l], TaxAt(rate)) == Sum(lines, TaxAt(rate)) + TaxAt(rate)(l)
    {
      OccursStep(lines, l, rate);
      SumAppend(lines, l, TaxableAt(rate));
      SumAppend(lines, l, TaxAt(rate));
    }
  }

  function Listed(taxes: map<nat, Entry>, order: seq<nat>): seq<TaxGroup>
    requires forall i :: 0 <= i < |order| ==> order[i] in taxes
  {
    seq(|order|, i requires 0 <= i < |order| => GroupFor(order[i], taxes[order[i]]))
  }

  lemma ListedGroups(taxes: map<nat, Entry>, order: seq<nat>, lines: seq<PayloadLine>)
    requires Grouped(taxes, order, lines)
    ensures GroupsOf(Listed(taxes, order), lines)
  {
    var groups := Listed(taxes, order);
    forall i | 0 <= i < |groups| ensures GroupSums(groups[i], lines) {
      assert order[i] in taxes;
    }
    forall i, j | 0 <= i < j < |groups| ensures groups[i].rate != groups[j].rate {
      assert order[i] != order[j];
    }
    forall k | 0 <= k < |lines| ensures HasGroup(groups, lines[k].rate) {
      var rate := lines[k].rate;
      assert Occurs(lines, rate);
      assert rate in taxes;
      var i :| 0 <= i < |order| && order[i] == rate;
      assert groups[i].rate == rate;
    }
  }

  lemma StartsGrouped()
    ensures Grouped(map[], [], [])
  {
  }

  /** The loop of buildPayload, keeping the rates in the order they were first seen. */
  method GroupLines(lines: seq<PayloadLine>) returns (taxes: map<nat, Entry>, order: seq<nat>)
    ensures Grouped(taxes, order, lines)
  {
    taxes, order := map[], [];
    StartsGrouped();
    ghost var seen: seq<PayloadLine> := [];
    for k := 0 to |lines|
      invariant seen == lines[..k] && Grouped(taxes, order, seen)
    {
      var l := lines[k];
      GroupStep(taxes, order, seen, l);
      seen := seen + [l];
      order := if l.rate in taxes then order else order + [l.rate];
      taxes := taxes[l.rate := Added(taxes, l)];
    }
    assert seen == lines;
  }

  /** The tax groups of a payload: one for each rate. */
  method BuildGroups(lines: seq<PayloadLine>) returns (groups: seq<TaxGroup>)
    ensures GroupsOf(groups, lines)
  {
    var taxes, order := GroupLines(lines);
    groups := Listed(taxes, order);
    ListedGroups(taxes, order, lines);
  }

  /* ------------------------------ conservation ------------------------------ */

  function GroupShare(l: PayloadLine, f: PayloadLine -> int): TaxGroup -> int {
    (g: TaxGroup) => if g.rate == l.rate then f(l) else 0
  }

  function SharesOf(lines: seq<PayloadLine>, f: PayloadLine -> int): TaxGroup -> int {
    (g: TaxGroup) => Sum(lines, AtRate(g.rate, f))
  }

  function AtRate(rate: nat, f: PayloadLine -> int): PayloadLine -> int {
    (l: PayloadLine) => if l.rate == rate then f(l) else 0
  }

  /** Summing rate by rate loses no line and counts none twice. */
  lemma {:induction false} EveryLineOnce(groups: seq<TaxGroup>, lines: seq<PayloadLine>, f: PayloadLine -> int)
    requires forall i, j :: 0 <= i < j < |groups| ==> groups[i].rate != groups[j].rate
    requires forall k :: 0 <= k < |lines| ==> HasGroup(groups, lines[k].rate)
    ensures Sum(groups, SharesOf(lines, f)) == Sum(lines, f)
  {
    if lines == [] {
      SumZero(groups, SharesOf(lines, f));
    } else {
      var n := |lines| - 1;
      var l := lines[n];
      EveryLineOnce(groups, lines[..n], f);
      var i :| 0 <= i < |groups| && groups[i].rate == l.rate;
      SumSingle(groups, i, GroupShare(l, f));
      SumAdd(groups, SharesOf(lines[..n], f), GroupShare(l, f), SharesOf(lines, f));
    }
  }

  lemma GroupsConserve(groups: seq<TaxGroup>, lines: seq<PayloadLine>)
    requires GroupsOf(groups, lines)
    ensures Sum(groups, GroupTaxable()) == Sum(lines, PayloadTotal())
    ensures Sum(groups, GroupTax()) == Sum(lines, PayloadTax())
  {
    forall i | 0 <= i < |groups|
      ensures GroupTaxable()(groups[i]) == SharesOf(lines, PayloadTotal())(groups[i])
      ensures GroupTax()(groups[i]) == SharesOf(lines, PayloadTax())(groups[i])
    {
      var rate := groups[i].rate;
      SumCongruent(lines, lines, TaxableAt(rate), AtRate(rate, PayloadTotal()));
      SumCongruent(lines, lines, TaxAt(rate), AtRate(rate, PayloadTax()));
    }
    SumCongruent(groups, groups, GroupTaxable(), SharesOf(lines, PayloadTotal()));
    SumCongruent(groups, groups, GroupTax(), SharesOf(lines, PayloadTax()));
    EveryLineOnce(groups, lines, PayloadTotal());
    EveryLineOnce(groups, lines, PayloadTax());
  }

  function StoredLine(l: LineInput): PayloadLine {
    PayloadLine(l.taxRate, ComputeLine(l).total, ComputeLine(l).tax)
  }

  function StoredLines(lines: seq<LineInput>): seq<PayloadLine> {
    seq(|lines|, k requires 0 <= k < |lines| => StoredLine(lines[k]))
  }

  /** What KRA receives agrees with the invoice: group tax is the invoice's tax, taxable plus tax its total. */
  lemma PayloadMatchesInvoice(lines: seq<LineInput>, groups: seq<TaxGroup>)
    requires GroupsOf(groups, StoredLines(lines))
    ensures Sum(groups, GroupTax()) == ComputeTotals(lines).taxTotal
    ensures Sum(groups, GroupTaxable()) + Sum(groups, GroupTax()) == ComputeTotals(lines).total
  {
    GroupsConserve(groups, StoredLines(lines));
    SumCongruent(StoredLines(lines), lines, PayloadTotal(), TotalOf());
    SumCongruent(StoredLines(lines), lines, PayloadTax(), TaxOf());
  }
}
