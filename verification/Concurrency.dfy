/**
 Any number of calls that pay or confirm one sale invoice at the same time. Each
 transaction reads the row, and later commits only if a compare-and-set on that
 row succeeds; the steps of different calls interleave freely.
 */
module Concurrency {
  import opened Sums
  import opened Books
  import opened Invariant

  datatype Call =
    | PayStart(amount: int)
    | PayRead(amount: int, seen: int)
    | PayDone(amount: int)
    | ConfirmStart
    | ConfirmRead
    | ConfirmDone
    | Refused

  /** The invoice row, the committed payment rows and entries, and how often its goods left the shelf. */
  datatype System = System(
    status: DocStatus, amountPaid: int, total: int, taxTotal: int,
    payments: seq<int>, paymentEntries: seq<int>, saleEntries: nat, dispatches: nat,
    calls: seq<Call>)

  /** A commit whose ledger posting or stock check is refused rolls back like one that lost. */
  datatype Action = Read(call: nat) | Commit(call: nat, accepted: bool)

  predicate Payable(status: DocStatus) {
    status == Confirmed || status == PartiallyPaid
  }

  function ReadRow(s: System, c: Call): Call {
    match c
    case PayStart(amount) => if amount > 0 && Payable(s.status) then PayRead(amount, s.amountPaid) else Refused
    case ConfirmStart => if s.status == DraftDoc then ConfirmRead else Refused
    case _ => c
  }

  function CommitPayment(s: System, i: nat, accepted: bool): System
    requires i < |s.calls| && s.calls[i].PayRead?
  {
    var c := s.calls[i];
    if s.amountPaid == c.seen && accepted then
      s.(amountPaid := c.seen + c.amount, status := PaidStatus(c.seen + c.amount, s.total),
         payments := s.payments + [c.amount], paymentEntries := s.paymentEntries + [c.amount],
         calls := s.calls[i := PayDone(c.amount)])
    else s.(calls := s.calls[i := Refused])
  }

  function CommitConfirm(s: System, i: nat, accepted: bool): System
    requires i < |s.calls| && s.calls[i].ConfirmRead?
  {
    if s.status == DraftDoc && accepted && Sellable(s.total, s.taxTotal) then
      s.(status := Confirmed, saleEntries := s.saleEntries + 1, dispatches := s.dispatches + 1,
         calls := s.calls[i := ConfirmDone])
    else s.(calls := s.calls[i := Refused])
  }

  function Next(s: System, a: Action): System {
    if a.call >= |s.calls| then s
    else match a
      case Read(i) => s.(calls := s.calls[i := ReadRow(s, s.calls[i])])
      case Commit(i, accepted) =>
        if s.calls[i].PayRead? then CommitPayment(s, i, accepted)
        else if s.calls[i].ConfirmRead? then CommitConfirm(s, i, accepted)
        else s
  }

  function Run(s: System, actions: seq<Action>): System {
    if actions == [] then s else Next(Run(s, actions[..|actions| - 1]), actions[|actions| - 1])
  }

  /* -------------------------------- invariant ------------------------------- */

  function Amount(): int -> int {
    (x: int) => x
  }

  function Committed(): Call -> int {
    (c: Call) => if c.PayDone? then c.amount else 0
  }

  function Confirms(): Call -> int {
    (c: Call) => if c.ConfirmDone? then 1 else 0
  }

  predicate CallSound(s: System, c: Call) {
    c.PayRead? ==> c.amount > 0 && 0 <= c.seen < s.total && Released(s.status)
  }

  /** The balance is the start value plus what committed; nothing else left a trace. */
  predicate Sound(s: System, start: int) {
    && s.amountPaid == start + Sum(s.payments, Amount())
    && Sum(s.payments, Amount()) == Sum(s.calls, Committed())
    && s.paymentEntries == s.payments
    && s.dispatches == s.saleEntries == Sum(s.calls, Confirms())
    && 0 <= s.amountPaid
    && (s.status == DraftDoc ==> s.amountPaid == 0 && s.saleEntries == 0)
    && (Released(s.status) ==> Sellable(s.total, s.taxTotal) && s.status == StatusOf(s.amountPaid, s.total))
    && (s.saleEntries > 0 ==> s.saleEntries == 1 && s.status != DraftDoc)
    && (forall i :: 0 <= i < |s.calls| ==> CallSound(s, s.calls[i]))
  }

  /** One invoice as some run of the services left it, and calls that are about to start. */
  predicate Fresh(s: System) {
    && s.payments == [] == s.paymentEntries && s.saleEntries == 0 == s.dispatches
    && 0 <= s.amountPaid && (s.status == DraftDoc ==> s.amountPaid == 0)
    && (Released(s.status) ==> Sellable(s.total, s.taxTotal) && s.status == StatusOf(s.amountPaid, s.total))
    && forall i :: 0 <= i < |s.calls| ==> s.calls[i].PayStart? || s.calls[i].ConfirmStart?
  }

  lemma CallMoves(s: System, i: nat, c: Call)
    requires i < |s.calls|
    ensures Sum(s.calls[i := c], Committed()) == Sum(s.calls, Committed()) - Committed()(s.calls[i]) + Committed()(c)
    ensures Sum(s.calls[i := c], Confirms()) == Sum(s.calls, Confirms()) - Confirms()(s.calls[i]) + Confirms()(c)
  {
    SumUpdate(s.calls, i, c, Committed());
    SumUpdate(s.calls, i, c, Confirms());
  }

  lemma CallsStaySound(s: System, after: System, i: nat)
    requires i < |s.calls| == |after.calls| && after.calls == s.calls[i := after.calls[i]] && after.total == s.total
    requires Released(s.status) ==> Released(after.status)
    requires forall j :: 0 <= j < |s.calls| ==> CallSound(s, s.calls[j])
    requires CallSound(after, after.calls[i])
    ensures forall j :: 0 <= j < |after.calls| ==> CallSound(after, after.calls[j])
  {
    forall j | 0 <= j < |after.calls| ensures CallSound(after, after.calls[j]) {
      assert j != i ==> CallSound(s, s.calls[j]);
    }
  }

  lemma ReadSound(s: System, start: int, i: nat)
    requires Sound(s, start) && i < |s.calls|
    ensures Sound(Next(s, Read(i)), start)
  {
    var after := Next(s, Read(i));
    assert CallSound(s, s.calls[i]);
    CallMoves(s, i, after.calls[i]);
    CallsStaySound(s, after, i);
  }

  lemma PaymentSound(s: System, start: int, i: nat, accepted: bool)
    requires Sound(s, start) && i < |s.calls| && s.calls[i].PayRead?
    ensures Sound(CommitPayment(s, i, accepted), start)
  {
    var after := CommitPayment(s, i, accepted);
    assert CallSound(s, s.calls[i]);
    CallMoves(s, i, after.calls[i]);
    SumAppend(s.payments, s.calls[i].amount, Amount());
    CallsStaySound(s, after, i);
  }

  lemma ConfirmSound(s: System, start: int, i: nat, accepted: bool)
    requires Sound(s, start) && i < |s.calls| && s.calls[i].ConfirmRead?
    ensures Sound(CommitConfirm(s, i, accepted), start)
  {
    var after := CommitConfirm(s, i, accepted);
    CallMoves(s, i, after.calls[i]);
    CallsStaySound(s, after, i);
  }

  lemma StepSound(s: System, start: int, a: Action)
    requires Sound(s, start)
    ensures Sound(Next(s, a), start)
  {
    if a.call < |s.calls| {
      match a
      case Read(i) => ReadSound(s, start, i);
      case Commit(i, accepted) =>
        if s.calls[i].PayRead? {
          PaymentSound(s, start, i, accepted);
        } else if s.calls[i].ConfirmRead? {
          ConfirmSound(s, start, i, accepted);
        }
    }
  }

  /**
   In every interleaving the balance is its start value plus the payments that
   committed, calls that lost left no payment row and no entry, the status is the
   one the balance calls for, and of all confirms at most one commits.
   */
  lemma {:induction false} EveryInterleavingSound(s: System, actions: seq<Action>)
    requires Fresh(s)
    ensures Sound(Run(s, actions), s.amountPaid)
    ensures Run(s, actions).total == s.total && Run(s, actions).taxTotal == s.taxTotal
  {
    if actions == [] {
      SumZero(s.calls, Committed());
      SumZero(s.calls, Confirms());
    } else {
      EveryInterleavingSound(s, actions[..|actions| - 1]);
      StepSound(Run(s, actions[..|actions| - 1]), s.amountPaid, actions[|actions| - 1]);
    }
  }

  /**
   The compare-and-set looks at amountPaid alone, yet a payment only ever commits
   while the invoice still accepts payments.
   */
  lemma CommitsWhilePayable(s: System, actions: seq<Action>, i: nat)
    requires Fresh(s)
    requires i < |Run(s, actions).calls| && Run(s, actions).calls[i].PayRead?
    requires Run(s, actions).amountPaid == Run(s, actions).calls[i].seen
    ensures Payable(Run(s, actions).status)
  {
    EveryInterleavingSound(s, actions);
    assert CallSound(Run(s, actions), Run(s, actions).calls[i]);
  }

  /** Of calls that read the same balance, the first commit wins and every later one is refused. */
  lemma SameReadOneWins(s: System, actions: seq<Action>, i: nat, j: nat)
    requires Fresh(s) && i != j
    requires var r := Run(s, actions);
      && i < |r.calls| && j < |r.calls| && r.calls[i].PayRead? && r.calls[j].PayRead?
      && r.calls[i].seen == r.calls[j].seen == r.amountPaid
    ensures var r := Next(Next(Run(s, actions), Commit(i, true)), Commit(j, true));
      && |r.calls| == |Run(s, actions).calls|
      && r.calls[i] == PayDone(Run(s, actions).calls[i].amount) && r.calls[j] == Refused
      && r.payments == Run(s, actions).payments + [Run(s, actions).calls[i].amount]
  {
    EveryInterleavingSound(s, actions);
    var r := Run(s, actions);
    assert CallSound(r, r.calls[i]);
  }

  /** A read goes on exactly when the amount is positive and the invoice accepts payments, or is still a draft. */
  lemma ReadsGoOn(s: System, i: nat)
    requires i < |s.calls|
    ensures var after := Next(s, Read(i)).calls[i];
      && (s.calls[i].PayStart? ==>
            after == (if s.calls[i].amount > 0 && (s.status == Confirmed || s.status == PartiallyPaid)
                      then PayRead(s.calls[i].amount, s.amountPaid) else Refused))
      && (s.calls[i].ConfirmStart? ==> after == (if s.status == DraftDoc then ConfirmRead else Refused))
  {
  }

  /** A payment commits exactly when the balance is the one it read and the ledger takes it; it adds its amount. */
  lemma PaymentCommits(s: System, i: nat, accepted: bool)
    requires i < |s.calls| && s.calls[i].PayRead?
    ensures var c, after := s.calls[i], Next(s, Commit(i, accepted));
      if s.amountPaid == c.seen && accepted
      then && after.calls == s.calls[i := PayDone(c.amount)]
           && after.amountPaid == s.amountPaid + c.amount
           && after.status == (if s.amountPaid + c.amount >= s.total then Paid else PartiallyPaid)
           && after.payments == s.payments + [c.amount] && after.paymentEntries == s.paymentEntries + [c.amount]
           && after.saleEntries == s.saleEntries && after.dispatches == s.dispatches
      else after == s.(calls := s.calls[i := Refused])
  {
  }

  lemma {:induction false} NeverDraftAgain(s: System, actions: seq<Action>)
    requires s.status != DraftDoc
    ensures Run(s, actions).status != DraftDoc
  {
    if actions != [] {
      NeverDraftAgain(s, actions[..|actions| - 1]);
      LeavesDraft(Run(s, actions[..|actions| - 1]), actions[|actions| - 1]);
    }
  }

  lemma LeavesDraft(s: System, a: Action)
    requires s.status != DraftDoc
    ensures Next(s, a).status != DraftDoc
  {
  }

  /**
   The first accepted commit on a draft that can be sold confirms it, takes its
   goods and books it once; every later confirm is refused, whatever came between.
   */
  lemma FirstConfirmWins(s: System, actions: seq<Action>, i: nat, more: seq<Action>, j: nat, accepted: bool)
    requires Fresh(s)
    requires var r := Run(s, actions);
      && i < |r.calls| && r.calls[i].ConfirmRead? && r.status == DraftDoc && 0 < r.taxTotal < r.total
    ensures var r := Run(s, actions);
      Next(r, Commit(i, true)) == r.(status := Confirmed, saleEntries := 1, dispatches := 1,
                                     calls := r.calls[i := ConfirmDone])
    ensures var later := Run(Next(Run(s, actions), Commit(i, true)), more);
      j < |later.calls| && later.calls[j].ConfirmRead? ==>
        Next(later, Commit(j, accepted)) == later.(calls := later.calls[j := Refused])
    ensures var later := Run(Next(Run(s, actions), Commit(i, true)), more);
      j < |later.calls| && later.calls[j].ConfirmStart? ==>
        Next(later, Read(j)) == later.(calls := later.calls[j := Refused])
  {
    EveryInterleavingSound(s, actions);
    NeverDraftAgain(Next(Run(s, actions), Commit(i, true)), more);
  }
}
