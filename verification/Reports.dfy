/**
 The accounting reports, as loops over the chart and the ledger rows the
 database returns. They count POSTED entries only and list accounts that are
 active and not deleted. Dates are milliseconds since 1970.
 */
module Reports {
  import opened Sums
  import opened Journal
  import opened Books
  import opened EveryRun

  predicate InWindow(e: Entry, from: int, to: int) {
    e.status == Posted && from <= e.date <= to
  }

  /** A line measure summed over the entries of the window. */
  function Windowed(from: int, to: int, f: Line -> int): Entry -> int {
    (e: Entry) => if e.status == Posted && from <= e.date <= to then Sum(e.lines, f) else 0
  }

  function DebitOn(code: nat): Line -> int {
    (l: Line) => if l.account == code then l.debit else 0
  }

  function CreditOn(code: nat): Line -> int {
    (l: Line) => if l.account == code then l.credit else 0
  }

  function DebitIn(entries: seq<Entry>, code: nat, from: int, to: int): int {
    Sum(entries, Windowed(from, to, DebitOn(code)))
  }

  function CreditIn(entries: seq<Entry>, code: nat, from: int, to: int): int {
    Sum(entries, Windowed(from, to, CreditOn(code)))
  }

  /* ------------------------------ accountBalances --------------------------- */

  datatype Balance = Balance(debit: int, credit: int)

  function BalanceOf(m: map<nat, Balance>, code: nat): Balance {
    if code in m then m[code] else Balance(0, 0)
  }

  function AddLine(m: map<nat, Balance>, l: Line): map<nat, Balance> {
    var old' := BalanceOf(m, l.account);
    m[l.account := Balance(old'.debit + l.debit, old'.credit + l.credit)]
  }

  ghost predicate BalancesAre(m: map<nat, Balance>, entries: seq<Entry>, from: int, to: int) {
    forall code: nat ::
      BalanceOf(m, code) == Balance(DebitIn(entries, code, from, to), CreditIn(entries, code, from, to))
  }

  /** Map m is map before with the lines added account by account. */
  ghost predicate LinesAdded(m: map<nat, Balance>, before: map<nat, Balance>, lines: seq<Line>) {
    forall code: nat ::
      BalanceOf(m, code) == Balance(BalanceOf(before, code).debit + Sum(lines, DebitOn(code)),
                                    BalanceOf(before, code).credit + Sum(lines, CreditOn(code)))
  }

  lemma LineAdded(m: map<nat, Balance>, before: map<nat, Balance>, lines: seq<Line>, l: Line)
    requires LinesAdded(m, before, lines)
    ensures LinesAdded(AddLine(m, l), before, lines + [l])
  {
    forall code: nat
      ensures BalanceOf(AddLine(m, l), code)
              == Balance(BalanceOf(before, code).debit + Sum(lines + [l], DebitOn(code)),
                         BalanceOf(before, code).credit + Sum(lines + [l], CreditOn(code)))
    {
      SumAppend(lines, l, DebitOn(code));
      SumAppend(lines, l, CreditOn(code));
    }
  }

  method AddLines(before: map<nat, Balance>, lines: seq<Line>) returns (m: map<nat, Balance>)
    ensures LinesAdded(m, before, lines)
  {
    m := before;
    for j := 0 to |lines|
      invariant LinesAdded(m, before, lines[..j])
    {
      LineAdded(m, before, lines[..j], lines[j]);
      assert lines[..j + 1] == lines[..j] + [lines[j]];
      m := AddLine(m, lines[j]);
    }
    assert lines[..|lines|] == lines;
  }

  lemma WindowStep(entries: seq<Entry>, e: Entry, from: int, to: int, code: nat)
    ensures DebitIn(entries + [e], code, from, to)
            == DebitIn(entries, code, from, to) + if InWindow(e, from, to) then Sum(e.lines, DebitOn(code)) else 0
    ensures CreditIn(entries + [e], code, from, to)
            == CreditIn(entries, code, from, to) + if InWindow(e, from, to) then Sum(e.lines, CreditOn(code)) else 0
  {
    SumAppend(entries, e, Windowed(from, to, DebitOn(code)));
    SumAppend(entries, e, Windowed(from, to, CreditOn(code)));
  }

  /** The grouped sums per account, built line by line. */
  method AccountBalances(entries: seq<Entry>, from: int, to: int) returns (m: map<nat, Balance>)
    ensures BalancesAre(m, entries, from, to)
  {
    m := map[];
    for k := 0 to |entries|
      invariant BalancesAre(m, entries[..k], from, to)
    {
      var e := entries[k];
      assert entries[..k + 1] == entries[..k] + [e];
      forall code: nat
        ensures DebitIn(entries[..k + 1], code, from, to)
                == DebitIn(entries[..k], code, from, to) + if InWindow(e, from, to) then Sum(e.lines, DebitOn(code)) else 0
        ensures CreditIn(entries[..k + 1], code, from, to)
                == CreditIn(entries[..k], code, from, to) + if InWindow(e, from, to) then Sum(e.lines, CreditOn(code)) else 0
      {
        WindowStep(entries[..k], e, from, to, code);
      }
      if InWindow(e, from, to) {
        m := AddLines(m, e.lines);
      }
    }
    assert entries[..|entries|] == entries;
  }

  /* --------------------------- every account, no filter --------------------- */

  function Net(entries: seq<Entry>, code: nat, from: int, to: int): int {
    DebitIn(entries, code, from, to) - CreditIn(entries, code, from, to)
  }

  function NetIn(entries: seq<Entry>, from: int, to: int): Account -> int {
    (a: Account) => Net(entries, a.code, from, to)
  }

  /** Net of the accounts the reports leave out. */
  function HiddenIn(entries: seq<Entry>, from: int, to: int): Account -> int {
    (a: Account) => if a.active && !a.deleted then 0 else Net(entries, a.code, from, to)
  }

  function HiddenNet(accounts: seq<Account>, entries: seq<Entry>, from: int, to: int): int {
    Sum(accounts, HiddenIn(entries, from, to))
  }

  function LineOnAccount(l: Line): Account -> int {
    (a: Account) => if l.account == a.code then l.debit - l.credit else 0
  }

  function LinesOnAccount(lines: seq<Line>): Account -> int {
    (a: Account) => Sum(lines, DebitOn(a.code)) - Sum(lines, CreditOn(a.code))
  }

  /** A line on the chart belongs to exactly one account. */
  lemma LineCountsOnce(accounts: seq<Account>, l: Line)
    requires UniqueCodes(accounts) && OnChart(accounts, l.account)
    ensures Sum(accounts, LineOnAccount(l)) == l.debit - l.credit
  {
    var i :| 0 <= i < |accounts| && accounts[i].code == l.account;
    SumSingle(accounts, i, LineOnAccount(l));
  }

  lemma {:induction false} LinesCountOnce(accounts: seq<Account>, lines: seq<Line>)
    requires UniqueCodes(accounts) && forall j :: 0 <= j < |lines| ==> OnChart(accounts, lines[j].account)
    ensures Sum(accounts, LinesOnAccount(lines)) == Sum(lines, Signed())
  {
    if lines == [] {
      SumZero(accounts, LinesOnAccount(lines));
    } else {
      var n := |lines| - 1;
      LinesCountOnce(accounts, lines[..n]);
      LineCountsOnce(accounts, lines[n]);
      SumAdd(accounts, LinesOnAccount(lines[..n]), LineOnAccount(lines[n]), LinesOnAccount(lines));
    }
  }

  function EntryOnAccount(e: Entry, from: int, to: int): Account -> int {
    (a: Account) => if InWindow(e, from, to) then LinesOnAccount(e.lines)(a) else 0
  }

  /** Over every account, in any window, the journal nets to nothing. */
  lemma {:induction false} WholeChartNetsToZero(accounts: seq<Account>, entries: seq<Entry>, from: int, to: int)
    requires UniqueCodes(accounts) && forall k :: 0 <= k < |entries| ==> LinesSound(accounts, entries[k].lines)
    ensures Sum(accounts, NetIn(entries, from, to)) == 0
  {
    if entries == [] {
      SumZero(accounts, NetIn(entries, from, to));
    } else {
      var n := |entries| - 1;
      var e := entries[n];
      WholeChartNetsToZero(accounts, entries[..n], from, to);
      assert LinesSound(accounts, e.lines);
      forall j | 0 <= j < |e.lines| ensures OnChart(accounts, e.lines[j].account) {
        assert LineSound(accounts, e.lines[j]);
      }
      LinesCountOnce(accounts, e.lines);
      if InWindow(e, from, to) {
        SumCongruent(accounts, accounts, EntryOnAccount(e, from, to), LinesOnAccount(e.lines));
      } else {
        SumZero(accounts, EntryOnAccount(e, from, to));
      }
      SumAdd(accounts, NetIn(entries[..n], from, to), EntryOnAccount(e, from, to), NetIn(entries, from, to));
    }
  }

  /* ------------------------------- trial balance ---------------------------- */

  predicate NormalDebit(kind: Kind) {
    kind == Asset || kind == Expense
  }

  datatype TrialRow = TrialRow(code: nat, debit: int, credit: int, balance: int)

  function TrialRowOf(a: Account, b: Balance): TrialRow {
    TrialRow(a.code, b.debit, b.credit, SignedBalance(a.kind, b.debit, b.credit))
  }

  function TrialRows(accounts: seq<Account>, m: map<nat, Balance>): seq<TrialRow> {
    if accounts == [] then []
    else
      var a := accounts[|accounts| - 1];
      TrialRows(accounts[..|accounts| - 1], m) + if Visible(a) then [TrialRowOf(a, BalanceOf(m, a.code))] else []
  }

  function RowDebit(): TrialRow -> int {
    (r: TrialRow) => r.debit
  }

  function RowCredit(): TrialRow -> int {
    (r: TrialRow) => r.credit
  }

  lemma {:induction false} TrialColumns(accounts: seq<Account>, m: map<nat, Balance>, entries: seq<Entry>, from: int, to: int)
    requires BalancesAre(m, entries, from, to)
    ensures var rows := TrialRows(accounts, m);
      Sum(rows, RowDebit()) - Sum(rows, RowCredit())
      == Sum(accounts, NetIn(entries, from, to)) - HiddenNet(accounts, entries, from, to)
  {
    if accounts != [] {
      var n := |accounts| - 1;
      var a := accounts[n];
      var rows := TrialRows(accounts[..n], m);
      TrialColumns(accounts[..n], m, entries, from, to);
      var b := BalanceOf(m, a.code);
      assert b == Balance(DebitIn(entries, a.code, from, to), CreditIn(entries, a.code, from, to));
      if Visible(a) {
        SumAppend(rows, TrialRowOf(a, b), RowDebit());
        SumAppend(rows, TrialRowOf(a, b), RowCredit());
      } else {
        assert rows + [] == rows;
      }
    }
  }

  /** A row is an active account with its two column sums and its balance on the account's normal side. */
  predicate RowReports(r: TrialRow, a: Account, entries: seq<Entry>, from: int, to: int) {
    && a.active && !a.deleted
    && r.code == a.code
    && r.debit == DebitIn(entries, a.code, from, to)
    && r.credit == CreditIn(entries, a.code, from, to)
    && r.balance == (if a.kind == Asset || a.kind == Expense then r.debit - r.credit else r.credit - r.debit)
  }

  predicate HasRow(rows: seq<TrialRow>, a: Account, entries: seq<Entry>, from: int, to: int) {
    exists k :: 0 <= k < |rows| && RowReports(rows[k], a, entries, from, to)
  }

  function IsListed(): Account -> int {
    (a: Account) => if a.active && !a.deleted then 1 else 0
  }

  /** One row for each active account, and no other row. */
  predicate RowsReport(rows: seq<TrialRow>, accounts: seq<Account>, entries: seq<Entry>, from: int, to: int) {
    && |rows| == Sum(accounts, IsListed())
    && (forall a :: a in accounts && a.active && !a.deleted ==> HasRow(rows, a, entries, from, to))
    && (forall r :: r in rows ==> exists a :: a in accounts && RowReports(r, a, entries, from, to))
  }

  /** The two columns differ by exactly what sits on the accounts the report leaves out. */
  method TrialBalance(accounts: seq<Account>, entries: seq<Entry>, from: int, to: int)
    returns (rows: seq<TrialRow>, totalDebit: int, totalCredit: int, balanced: bool)
    ensures RowsReport(rows, accounts, entries, from, to)
    ensures totalDebit == Sum(rows, RowDebit()) && totalCredit == Sum(rows, RowCredit())
    ensures balanced <==> totalDebit == totalCredit
    ensures JournalInv(accounts, entries) ==> totalDebit - totalCredit == -HiddenNet(accounts, entries, from, to)
    ensures JournalInv(accounts, entries) && LinesVisible(accounts, entries) ==> balanced
  {
    var m := AccountBalances(entries, from, to);
    rows := TrialRows(accounts, m);
    totalDebit := Sum(rows, RowDebit());
    totalCredit := Sum(rows, RowCredit());
    balanced := totalDebit == totalCredit;
    TrialColumns(accounts, m, entries, from, to);
    if JournalInv(accounts, entries) {
      WholeChartNetsToZero(accounts, entries, from, to);
      if LinesVisible(accounts, entries) {
        NothingHidden(accounts, entries, from, to);
      }
    }
    RowsAreAccounts(accounts, m, entries, from, to);
  }

  lemma {:induction false} RowsAreAccounts(accounts: seq<Account>, m: map<nat, Balance>, entries: seq<Entry>, from: int, to: int)
    requires BalancesAre(m, entries, from, to)
    ensures RowsReport(TrialRows(accounts, m), accounts, entries, from, to)
  {
    if accounts != [] {
      var n := |accounts| - 1;
      var a := accounts[n];
      var rows := TrialRows(accounts[..n], m);
      var all := TrialRows(accounts, m);
      RowsAreAccounts(accounts[..n], m, entries, from, to);
      var b := BalanceOf(m, a.code);
      assert b == Balance(DebitIn(entries, a.code, from, to), CreditIn(entries, a.code, from, to));
      forall c | c in accounts && Visible(c) ensures HasRow(all, c, entries, from, to) {
        if c in accounts[..n] {
          var k :| 0 <= k < |rows| && RowReports(rows[k], c, entries, from, to);
          assert all[k] == rows[k];
        } else {
          assert all[|rows|] == TrialRowOf(a, b);
          assert RowReports(all[|rows|], a, entries, from, to);
        }
      }
      forall r | r in all ensures exists c :: c in accounts && RowReports(r, c, entries, from, to) {
        if r in rows {
          var c :| c in accounts[..n] && RowReports(r, c, entries, from, to);
          assert c in accounts;
        } else {
          assert RowReports(r, a, entries, from, to) && a in accounts;
        }
      }
    }
  }

  /** When lines only sit on active accounts, the reports leave nothing out. */
  lemma NothingHidden(accounts: seq<Account>, entries: seq<Entry>, from: int, to: int)
    requires UniqueCodes(accounts) && LinesVisible(accounts, entries)
    ensures HiddenNet(accounts, entries, from, to) == 0
  {
    forall i | 0 <= i < |accounts| ensures HiddenIn(entries, from, to)(accounts[i]) == 0 {
      if !Visible(accounts[i]) {
        NoLinesNoNet(accounts, entries, i, from, to);
      }
    }
    SumZero(accounts, HiddenIn(entries, from, to));
  }

  lemma NoLinesNoNet(accounts: seq<Account>, entries: seq<Entry>, i: nat, from: int, to: int)
    requires UniqueCodes(accounts) && LinesVisible(accounts, entries) && i < |accounts| && !Visible(accounts[i])
    ensures DebitIn(entries, accounts[i].code, from, to) == 0 == CreditIn(entries, accounts[i].code, from, to)
  {
    var code := accounts[i].code;
    forall k | 0 <= k < |entries|
      ensures Windowed(from, to, DebitOn(code))(entries[k]) == 0 == Windowed(from, to, CreditOn(code))(entries[k])
    {
      forall j | 0 <= j < |entries[k].lines| ensures entries[k].lines[j].account != code {
        assert ActiveOnChart(accounts, entries[k].lines[j].account);
      }
      SumZero(entries[k].lines, DebitOn(code));
      SumZero(entries[k].lines, CreditOn(code));
    }
    SumZero(entries, Windowed(from, to, DebitOn(code)));
    SumZero(entries, Windowed(from, to, CreditOn(code)));
  }

  /* ----------------------- profit and loss, balance sheet ------------------- */

  /** Net of the listed accounts of one kind, debit positive. */
  function ListedNet(kind: Kind, entries: seq<Entry>, from: int, to: int): Account -> int {
    (a: Account) => if a.active && !a.deleted && a.kind == kind then Net(entries, a.code, from, to) else 0
  }

  method ProfitLoss(accounts: seq<Account>, entries: seq<Entry>, from: int, to: int)
    returns (totalIncome: int, totalExpenses: int, netIncome: int)
    ensures totalIncome == -Sum(accounts, ListedNet(Income, entries, from, to))
    ensures totalExpenses == Sum(accounts, ListedNet(Expense, entries, from, to))
    ensures netIncome == totalIncome - totalExpenses
  {
    var m := AccountBalances(entries, from, to);
    totalIncome, totalExpenses := 0, 0;
    for i := 0 to |accounts|
      invariant totalIncome == -Sum(accounts[..i], ListedNet(Income, entries, from, to))
      invariant totalExpenses == Sum(accounts[..i], ListedNet(Expense, entries, from, to))
    {
      var a := accounts[i];
      assert accounts[..i + 1] == accounts[..i] + [a];
      SumAppend(accounts[..i], a, ListedNet(Income, entries, from, to));
      SumAppend(accounts[..i], a, ListedNet(Expense, entries, from, to));
      if Visible(a) && (a.kind == Income || a.kind == Expense) {
        var b := BalanceOf(m, a.code);
        assert b == Balance(DebitIn(entries, a.code, from, to), CreditIn(entries, a.code, from, to));
        if a.kind == Income {
          totalIncome := totalIncome + (b.credit - b.debit);
        } else {
          totalExpenses := totalExpenses + (b.debit - b.credit);
        }
      }
    }
    assert accounts[..|accounts|] == accounts;
    netIncome := totalIncome - totalExpenses;
  }

  /** Every listed account has one of the five kinds. */
  lemma {:induction false} KindsPartition(accounts: seq<Account>, entries: seq<Entry>, from: int, to: int)
    ensures Sum(accounts, NetIn(entries, from, to))
            == Sum(accounts, ListedNet(Asset, entries, from, to)) + Sum(accounts, ListedNet(Liability, entries, from, to))
               + Sum(accounts, ListedNet(Equity, entries, from, to)) + Sum(accounts, ListedNet(Income, entries, from, to))
               + Sum(accounts, ListedNet(Expense, entries, from, to)) + HiddenNet(accounts, entries, from, to)
  {
    if accounts != [] {
      KindsPartition(accounts[..|accounts| - 1], entries, from, to);
    }
  }

  /**
   The balance sheet as of a date. Its two sides differ by exactly the net of the
   accounts it leaves out, so it balances if and only if that net is zero, and
   certainly when every line sits on an active account.
   */
  method BalanceSheet(accounts: seq<Account>, entries: seq<Entry>, asOf: int)
    returns (totalAssets: int, totalLiabilities: int, totalEquity: int, netIncome: int)
    ensures totalAssets == Sum(accounts, ListedNet(Asset, entries, 0, asOf))
    ensures totalLiabilities == -Sum(accounts, ListedNet(Liability, entries, 0, asOf))
    ensures totalEquity == -Sum(accounts, ListedNet(Equity, entries, 0, asOf))
    ensures JournalInv(accounts, entries) ==>
              totalAssets - (totalLiabilities + totalEquity + netIncome) == -HiddenNet(accounts, entries, 0, asOf)
    ensures JournalInv(accounts, entries) && LinesVisible(accounts, entries) ==>
              totalAssets == totalLiabilities + totalEquity + netIncome
  {
    var m := AccountBalances(entries, 0, asOf);
    totalAssets, totalLiabilities, totalEquity := 0, 0, 0;
    for i := 0 to |accounts|
      invariant totalAssets == Sum(accounts[..i], ListedNet(Asset, entries, 0, asOf))
      invariant totalLiabilities == -Sum(accounts[..i], ListedNet(Liability, entries, 0, asOf))
      invariant totalEquity == -Sum(accounts[..i], ListedNet(Equity, entries, 0, asOf))
    {
      var a := accounts[i];
      assert accounts[..i + 1] == accounts[..i] + [a];
      SumAppend(accounts[..i], a, ListedNet(Asset, entries, 0, asOf));
      SumAppend(accounts[..i], a, ListedNet(Liability, entries, 0, asOf));
      SumAppend(accounts[..i], a, ListedNet(Equity, entries, 0, asOf));
      if Visible(a) {
        var b := BalanceOf(m, a.code);
        assert b == Balance(DebitIn(entries, a.code, 0, asOf), CreditIn(entries, a.code, 0, asOf));
        match a.kind
        case Asset => totalAssets := totalAssets + (b.debit - b.credit);
        case Liability => totalLiabilities := totalLiabilities + (b.credit - b.debit);
        case Equity => totalEquity := totalEquity + (b.credit - b.debit);
        case _ =>
      }
    }
    assert accounts[..|accounts|] == accounts;
    var income, expenses, net := ProfitLoss(accounts, entries, 0, asOf);
    netIncome := net;
    KindsPartition(accounts, entries, 0, asOf);
    if JournalInv(accounts, entries) {
      WholeChartNetsToZero(accounts, entries, 0, asOf);
      if LinesVisible(accounts, entries) {
        NothingHidden(accounts, entries, 0, asOf);
      }
    }
  }

  /* ------------------------------- general ledger --------------------------- */

  datatype LedgerRow = LedgerRow(account: nat, kind: Kind, debit: int, credit: int)

  function MovementOf(r: LedgerRow): int {
    if NormalDebit(r.kind) then r.debit - r.credit else r.credit - r.debit
  }

  function MovementOn(code: nat): LedgerRow -> int {
    (r: LedgerRow) => if r.account == code then MovementOf(r) else 0
  }

  /** What a row adds to the balance of an account: assets and expenses grow by debits, all other kinds by credits. */
  function SidedOn(code: nat): LedgerRow -> int {
    (r: LedgerRow) =>
      if r.account != code then 0
      else if r.kind == Asset || r.kind == Expense then r.debit - r.credit else r.credit - r.debit
  }

  /** Each running balance is the signed prefix sum of its own account. */
  predicate Runs(rows: seq<LedgerRow>, running: seq<int>) {
    && |running| == |rows|
    && forall k :: 0 <= k < |rows| ==> running[k] == Sum(rows[..k + 1], SidedOn(rows[k].account))
  }

  lemma MovementIsSided(rows: seq<LedgerRow>, code: nat)
    ensures Sum(rows, MovementOn(code)) == Sum(rows, SidedOn(code))
  {
    SumCongruent(rows, rows, MovementOn(code), SidedOn(code));
  }

  function PriorOf(balances: map<nat, int>, code: nat): int {
    if code in balances then balances[code] else 0
  }

  /** Running balances kept per account while the rows of all accounts are interleaved. */
  method GeneralLedger(rows: seq<LedgerRow>) returns (running: seq<int>)
    ensures Runs(rows, running)
  {
    var balances: map<nat, int> := map[];
    running := [];
    for k := 0 to |rows|
      invariant |running| == k
      invariant forall j :: 0 <= j < k ==> running[j] == Sum(rows[..j + 1], MovementOn(rows[j].account))
      invariant forall code: nat :: PriorOf(balances, code) == Sum(rows[..k], MovementOn(code))
    {
      var r := rows[k];
      var balance := PriorOf(balances, r.account) + MovementOf(r);
      balances := balances[r.account := balance];
      running := running + [balance];
      assert rows[..k + 1] == rows[..k] + [r];
      forall code: nat ensures Sum(rows[..k + 1], MovementOn(code)) == Sum(rows[..k], MovementOn(code)) + MovementOn(code)(r) {
        SumAppend(rows[..k], r, MovementOn(code));
      }
    }
    forall k | 0 <= k < |rows| ensures running[k] == Sum(rows[..k + 1], SidedOn(rows[k].account)) {
      MovementIsSided(rows[..k + 1], rows[k].account);
    }
  }

  function KindOf(accounts: seq<Account>, code: nat): Kind {
    if accounts == [] then Asset
    else if accounts[|accounts| - 1].code == code then accounts[|accounts| - 1].kind
    else KindOf(accounts[..|accounts| - 1], code)
  }

  function RowOf(accounts: seq<Account>, l: Line): LedgerRow {
    LedgerRow(l.account, KindOf(accounts, l.account), l.debit, l.credit)
  }

  function RowsOfLines(accounts: seq<Account>, lines: seq<Line>): seq<LedgerRow> {
    seq(|lines|, j requires 0 <= j < |lines| => RowOf(accounts, lines[j]))
  }

  /** The rows of a window, in table order. */
  function RowsOf(accounts: seq<Account>, entries: seq<Entry>, from: int, to: int): seq<LedgerRow> {
    if entries == [] then []
    else
      var e := entries[|entries| - 1];
      RowsOf(accounts, entries[..|entries| - 1], from, to)
      + if InWindow(e, from, to) then RowsOfLines(accounts, e.lines) else []
  }

  function SignedBalance(kind: Kind, debit: int, credit: int): int {
    if NormalDebit(kind) then debit - credit else credit - debit
  }

  lemma {:induction false} LinesMovement(accounts: seq<Account>, lines: seq<Line>, code: nat)
    ensures Sum(RowsOfLines(accounts, lines), MovementOn(code))
            == SignedBalance(KindOf(accounts, code), Sum(lines, DebitOn(code)), Sum(lines, CreditOn(code)))
  {
    if lines != [] {
      var n := |lines| - 1;
      LinesMovement(accounts, lines[..n], code);
      assert RowsOfLines(accounts, lines)[..n] == RowsOfLines(accounts, lines[..n]);
    }
  }

  lemma {:induction false} RowsMovement(accounts: seq<Account>, entries: seq<Entry>, from: int, to: int, code: nat)
    ensures Sum(RowsOf(accounts, entries, from, to), MovementOn(code))
            == SignedBalance(KindOf(accounts, code), DebitIn(entries, code, from, to), CreditIn(entries, code, from, to))
  {
    if entries != [] {
      var n := |entries| - 1;
      RowsMovement(accounts, entries[..n], from, to, code);
      LinesMovement(accounts, entries[n].lines, code);
      var more := if InWindow(entries[n], from, to) then RowsOfLines(accounts, entries[n].lines) else [];
      SumConcat(RowsOf(accounts, entries[..n], from, to), more, MovementOn(code));
    }
  }

  lemma {:induction false} KindOfAccount(accounts: seq<Account>, i: nat)
    requires UniqueCodes(accounts) && i < |accounts|
    ensures KindOf(accounts, accounts[i].code) == accounts[i].kind
  {
    if i < |accounts| - 1 {
      KindOfAccount(accounts[..|accounts| - 1], i);
    }
  }

  /**
   Whatever order the query returns the rows in, the last running balance the
   general ledger shows for an account is the balance on its trial-balance row,
   provided the row limit cut nothing.
   */
  lemma LastRunningBalance(accounts: seq<Account>, entries: seq<Entry>, from: int, to: int,
                           rows: seq<LedgerRow>, running: seq<int>, k: nat, i: nat, row: TrialRow)
    requires UniqueCodes(accounts) && i < |accounts| && RowReports(row, accounts[i], entries, from, to)
    requires multiset(rows) == multiset(RowsOf(accounts, entries, from, to)) && Runs(rows, running)
    requires k < |rows| && rows[k].account == accounts[i].code
    requires forall j :: k < j < |rows| ==> rows[j].account != rows[k].account
    ensures running[k] == row.balance
  {
    var code := rows[k].account;
    KindOfAccount(accounts, i);
    assert rows == rows[..k + 1] + rows[k + 1..];
    MovementIsSided(rows[..k + 1], code);
    SumConcat(rows[..k + 1], rows[k + 1..], MovementOn(code));
    SumZero(rows[k + 1..], MovementOn(code));
    SumOrderFree(rows, RowsOf(accounts, entries, from, to), MovementOn(code));
    RowsMovement(accounts, entries, from, to, code);
  }
}
