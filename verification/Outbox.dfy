/**
 The outbox table and any number of workers polling it. Every database call of a
 worker is a step of its own, so the steps of different workers interleave
 freely; rows a worker has read stay with it as snapshots. Which due or stale
 rows a query returns, and whether a handler succeeds, is left open.
 */
module Outbox {
  datatype Status = Pending | Processing | Done | Failed

  /**
   A row, with counters that only the model keeps: handler calls, tries that
   threw, handler calls that returned, and results that a crash lost.
   */
  datatype Row = Row(
    status: Status, attempts: nat, maxAttempts: int,
    dispatched: nat, failures: nat, successes: nat, lost: nat)

  /** What the claim query selects. */
  datatype Snapshot = Snapshot(id: nat, attempts: nat, maxAttempts: int)

  /** Where a worker is between two database calls. */
  datatype Worker =
    | Idle
    | Reclaiming(reclaim: set<nat>, exhausted: set<nat>)
    | Expiring(exhausted: set<nat>)
    | Reaped
    | Claiming(due: seq<Snapshot>)
    | Rereading(due: seq<Snapshot>)
    | Working(queue: seq<Snapshot>)
    | Finalising(row: Snapshot, ok: bool, rest: seq<Snapshot>)

  datatype System = System(rows: seq<Row>, workers: seq<Worker>)

  datatype Action =
    | Enqueue(maxAttempts: int)
    | ReapRead(w: nat, stale: set<nat>)
    | Reclaim(w: nat)
    | Expire(w: nat)
    | ClaimRead(w: nat, ids: seq<nat>)
    | Flip(w: nat)
    | Reread(w: nat)
    | Dispatch(w: nat, ok: bool)
    | WriteThrows(w: nat)
    | Finalise(w: nat)
    | Crash(w: nat)

  function NewRow(maxAttempts: int): Row {
    Row(Pending, 0, maxAttempts, 0, 0, 0, 0)
  }

  function Start(workers: nat): System {
    System([], seq(workers, _ => Idle))
  }

  /* ------------------------------ database calls ---------------------------- */

  /** updateMany: every named row in one status moves to another. */
  function Move(rows: seq<Row>, ids: set<nat>, from: Status, to: Status): seq<Row> {
    seq(|rows|, i requires 0 <= i < |rows| =>
      if i in ids && rows[i].status == from then rows[i].(status := to) else rows[i])
  }

  predicate AllInStatus(rows: seq<Row>, ids: set<nat>, status: Status) {
    forall i :: i in ids ==> i < |rows| && rows[i].status == status
  }

  function Ids(due: seq<Snapshot>): set<nat> {
    set s | s in due :: s.id
  }

  function Read(rows: seq<Row>, ids: seq<nat>): seq<Snapshot>
    requires forall k :: 0 <= k < |ids| ==> ids[k] < |rows|
  {
    seq(|ids|, k requires 0 <= k < |ids| => Snapshot(ids[k], rows[ids[k]].attempts, rows[ids[k]].maxAttempts))
  }

  predicate Due(rows: seq<Row>, ids: seq<nat>) {
    && (forall k :: 0 <= k < |ids| ==> ids[k] < |rows| && rows[ids[k]].status == Pending)
    && (forall j, k :: 0 <= j < k < |ids| ==> ids[j] != ids[k])
  }

  /** The candidates that are PROCESSING now, whoever flipped them. */
  function StillProcessing(rows: seq<Row>, due: seq<Snapshot>): seq<Snapshot> {
    if due == [] then []
    else
      var s := due[|due| - 1];
      StillProcessing(rows, due[..|due| - 1])
      + if IsProcessing(rows, s) then [s] else []
  }

  predicate IsProcessing(rows: seq<Row>, s: Snapshot) {
    s.id < |rows| && rows[s.id].status == Processing
  }

  predicate AnyPending(rows: seq<Row>, due: seq<Snapshot>) {
    exists k :: 0 <= k < |due| && due[k].id < |rows| && rows[due[k].id].status == Pending
  }

  /** The write after a try that threw: attempts come from the snapshot, not from the row. */
  function FailureWrite(r: Row, s: Snapshot): Row {
    r.(attempts := s.attempts + 1, status := if s.attempts + 1 >= s.maxAttempts then Failed else Pending)
  }

  /** The row after its handler was called: only the model's counters move. */
  function Called(r: Row, ok: bool): Row {
    r.(dispatched := r.dispatched + 1,
       successes := r.successes + if ok then 1 else 0,
       failures := r.failures + if ok then 0 else 1)
  }

  /** The success write threw, and is handled like a failure of the handler. */
  function Thrown(r: Row): Row {
    r.(failures := r.failures + 1)
  }

  function Written(r: Row, s: Snapshot, ok: bool): Row {
    if ok then r.(status := Done) else FailureWrite(r, s)
  }

  /** The worker died between the handler call and the write of its result. */
  function ResultLost(r: Row): Row {
    r.(lost := r.lost + 1)
  }

  function Continue(queue: seq<Snapshot>): Worker {
    if queue == [] then Idle else Working(queue)
  }

  /* ---------------------------------- steps --------------------------------- */

  function Set(s: System, w: nat, worker: Worker): System
    requires w < |s.workers|
  {
    s.(workers := s.workers[w := worker])
  }

  function UpdateRow(s: System, i: nat, r: Row): System
    requires i < |s.rows|
  {
    s.(rows := s.rows[i := r])
  }

  function StepReap(s: System, w: nat, a: Action): System
    requires w < |s.workers|
  {
    var p := s.workers[w];
    match a
    case ReapRead(_, stale) =>
      if p.Idle? && AllInStatus(s.rows, stale, Processing)
      then Set(s, w, Reclaiming(set i | i in stale && s.rows[i].attempts < s.rows[i].maxAttempts,
                                set i | i in stale && s.rows[i].attempts >= s.rows[i].maxAttempts))
      else s
    case Reclaim(_) =>
      if p.Reclaiming?
      then System(Move(s.rows, p.reclaim, Processing, Pending), s.workers[w := Expiring(p.exhausted)])
      else s
    case Expire(_) =>
      if p.Expiring?
      then System(Move(s.rows, p.exhausted, Processing, Failed), s.workers[w := Reaped])
      else s
    case _ => s
  }

  function StepClaim(s: System, w: nat, a: Action): System
    requires w < |s.workers|
  {
    var p := s.workers[w];
    match a
    case ClaimRead(_, ids) =>
      if p.Reaped? && Due(s.rows, ids)
      then Set(s, w, if ids == [] then Idle else Claiming(Read(s.rows, ids)))
      else s
    case Flip(_) =>
      if !p.Claiming? then s
      else System(Move(s.rows, Ids(p.due), Pending, Processing),
                  s.workers[w := if AnyPending(s.rows, p.due) then Rereading(p.due) else Idle])
    case Reread(_) =>
      if p.Rereading? then Set(s, w, Continue(StillProcessing(s.rows, p.due))) else s
    case _ => s
  }

  function StepProcess(s: System, w: nat, a: Action): System
    requires w < |s.workers|
  {
    var p := s.workers[w];
    match a
    case Dispatch(_, ok) =>
      if p.Working? && p.queue != [] && p.queue[0].id < |s.rows| then
        UpdateRow(Set(s, w, Finalising(p.queue[0], ok, p.queue[1..])), p.queue[0].id, Called(s.rows[p.queue[0].id], ok))
      else s
    case WriteThrows(_) =>
      if p.Finalising? && p.ok && p.row.id < |s.rows| then
        UpdateRow(Set(s, w, p.(ok := false)), p.row.id, Thrown(s.rows[p.row.id]))
      else s
    case Finalise(_) =>
      if p.Finalising? && p.row.id < |s.rows| then
        UpdateRow(Set(s, w, Continue(p.rest)), p.row.id, Written(s.rows[p.row.id], p.row, p.ok))
      else s
    case Crash(_) =>
      if p.Finalising? && p.row.id < |s.rows|
      then UpdateRow(Set(s, w, Idle), p.row.id, ResultLost(s.rows[p.row.id]))
      else Set(s, w, Idle)
    case _ => s
  }

  /** A step that is not enabled changes nothing. */
  function Next(s: System, a: Action): System {
    if a.Enqueue? then s.(rows := s.rows + [NewRow(a.maxAttempts)])
    else if a.w >= |s.workers| then s
    else if a.ReapRead? || a.Reclaim? || a.Expire? then StepReap(s, a.w, a)
    else if a.ClaimRead? || a.Flip? || a.Reread? then StepClaim(s, a.w, a)
    else StepProcess(s, a.w, a)
  }

  function Run(s: System, actions: seq<Action>): System {
    if actions == [] then s else Next(Run(s, actions[..|actions| - 1]), actions[|actions| - 1])
  }

  /* ---------------------------------- safety -------------------------------- */

  predicate Open(status: Status) {
    status == Pending || status == Processing
  }

  predicate RowSafe(r: Row) {
    && r.attempts <= r.failures
    && (r.status == Done ==> r.successes >= 1)
    && (r.maxAttempts >= 1 ==>
          && r.attempts <= r.maxAttempts
          && (Open(r.status) ==> r.attempts < r.maxAttempts)
          && (r.status == Failed ==> r.attempts == r.maxAttempts))
  }

  predicate SnapshotSafe(rows: seq<Row>, s: Snapshot) {
    && s.id < |rows|
    && s.maxAttempts == rows[s.id].maxAttempts
    && s.attempts <= rows[s.id].failures
    && (s.maxAttempts >= 1 ==> s.attempts < s.maxAttempts)
  }

  function Held(p: Worker): seq<Snapshot> {
    match p
    case Claiming(due) => due
    case Rereading(due) => due
    case Working(queue) => queue
    case Finalising(row, _, rest) => [row] + rest
    case _ => []
  }

  predicate WorkerSafe(rows: seq<Row>, p: Worker) {
    && (forall s :: s in Held(p) ==> SnapshotSafe(rows, s))
    && (p.Finalising? ==>
          && p.row.id < |rows|
          && (p.ok ==> rows[p.row.id].successes >= 1)
          && (!p.ok ==> p.row.attempts + 1 <= rows[p.row.id].failures))
    && (p.Reclaiming? || p.Expiring? ==>
          forall i :: i in p.exhausted ==> i < |rows| && rows[i].maxAttempts < 1)
  }

  predicate Safe(s: System) {
    && (forall i :: 0 <= i < |s.rows| ==> RowSafe(s.rows[i]))
    && (forall w :: 0 <= w < |s.workers| ==> WorkerSafe(s.rows, s.workers[w]))
  }

  /** Rows only get added; limits are fixed and the counters never go down. */
  predicate RowsGrow(before: seq<Row>, after: seq<Row>) {
    && |before| <= |after|
    && forall i :: 0 <= i < |before| ==>
         && after[i].maxAttempts == before[i].maxAttempts
         && after[i].failures >= before[i].failures
         && after[i].successes >= before[i].successes
  }

  lemma WorkerStaysSafe(before: seq<Row>, after: seq<Row>, p: Worker)
    requires RowsGrow(before, after) && WorkerSafe(before, p)
    ensures WorkerSafe(after, p)
  {
    forall s | s in Held(p) ensures SnapshotSafe(after, s) {
      assert SnapshotSafe(before, s);
    }
    if p.Finalising? {
      assert p.row in Held(p);
    }
  }

  lemma SafeAfter(s: System, after: System, w: nat)
    requires Safe(s) && w < |s.workers| && RowsGrow(s.rows, after.rows)
    requires |after.workers| == |s.workers| && after.workers == s.workers[w := after.workers[w]]
    requires WorkerSafe(after.rows, after.workers[w])
    requires forall i :: 0 <= i < |after.rows| ==> RowSafe(after.rows[i])
    ensures Safe(after)
  {
    forall v | 0 <= v < |after.workers| ensures WorkerSafe(after.rows, after.workers[v]) {
      if v != w {
        WorkerStaysSafe(s.rows, after.rows, s.workers[v]);
      }
    }
  }

  lemma ReapSafe(s: System, w: nat, a: Action)
    requires Safe(s) && w < |s.workers|
    ensures Safe(StepReap(s, w, a))
  {
    assert WorkerSafe(s.rows, s.workers[w]);
    var after := StepReap(s, w, a);
    forall i | 0 <= i < |after.rows| ensures RowSafe(after.rows[i]) {
      assert RowSafe(s.rows[i]);
    }
    if a.ReapRead? && s.workers[w].Idle? && AllInStatus(s.rows, a.stale, Processing) {
      forall i | i in after.workers[w].exhausted ensures s.rows[i].maxAttempts < 1 {
        assert RowSafe(s.rows[i]);
      }
    }
    SafeAfter(s, after, w);
  }

  lemma {:induction false} StillProcessingIsPart(rows: seq<Row>, due: seq<Snapshot>)
    ensures forall s :: s in StillProcessing(rows, due) <==> s in due && IsProcessing(rows, s)
  {
    if due != [] {
      var n := |due| - 1;
      StillProcessingIsPart(rows, due[..n]);
      assert due == due[..n] + [due[n]];
    }
  }

  lemma ClaimSafe(s: System, w: nat, a: Action)
    requires Safe(s) && w < |s.workers|
    ensures Safe(StepClaim(s, w, a))
  {
    var p := s.workers[w];
    assert WorkerSafe(s.rows, p);
    var after := StepClaim(s, w, a);
    forall i | 0 <= i < |after.rows| ensures RowSafe(after.rows[i]) {
      assert RowSafe(s.rows[i]);
    }
    if a.ClaimRead? && p.Reaped? && Due(s.rows, a.ids) {
      forall t | t in Held(after.workers[w]) ensures SnapshotSafe(s.rows, t) {
        assert RowSafe(s.rows[t.id]);
      }
    }
    if a.Reread? && p.Rereading? {
      StillProcessingIsPart(s.rows, p.due);
    }
    WorkerStaysSafe(s.rows, after.rows, p);
    SafeAfter(s, after, w);
  }

  /** One row was rewritten and one worker moved on with some of the snapshots it held. */
  lemma RewriteSafe(s: System, after: System, w: nat, i: nat)
    requires Safe(s) && w < |s.workers| && i < |s.rows| == |after.rows|
    requires |after.workers| == |s.workers| && after.workers == s.workers[w := after.workers[w]]
    requires after.rows == s.rows[i := after.rows[i]]
    requires RowsGrow(s.rows, after.rows) && RowSafe(after.rows[i])
    requires forall t :: t in Held(after.workers[w]) ==> t in Held(s.workers[w])
    requires var p := after.workers[w];
      && !p.Reclaiming? && !p.Expiring?
      && (p.Finalising? ==>
            p.row.id == i
            && (if p.ok then after.rows[i].successes >= 1 else p.row.attempts + 1 <= after.rows[i].failures))
    ensures Safe(after)
  {
    WorkerStaysSafe(s.rows, after.rows, s.workers[w]);
    SafeAfter(s, after, w);
  }

  lemma ProcessSafe(s: System, w: nat, a: Action)
    requires Safe(s) && w < |s.workers|
    ensures Safe(StepProcess(s, w, a))
  {
    var p := s.workers[w];
    assert WorkerSafe(s.rows, p);
    var after := StepProcess(s, w, a);
    if a.Dispatch? && p.Working? && p.queue != [] && p.queue[0].id < |s.rows| {
      assert SnapshotSafe(s.rows, p.queue[0]) && RowSafe(s.rows[p.queue[0].id]);
      RewriteSafe(s, after, w, p.queue[0].id);
    } else if (a.WriteThrows? || a.Finalise? || a.Crash?) && p.Finalising? {
      assert p.row in Held(p) && SnapshotSafe(s.rows, p.row) && RowSafe(s.rows[p.row.id]);
      if !a.WriteThrows? || p.ok {
        RewriteSafe(s, after, w, p.row.id);
      }
    }
  }

  lemma StepSafe(s: System, a: Action)
    requires Safe(s)
    ensures Safe(Next(s, a))
  {
    if a.Enqueue? {
      var after := Next(s, a);
      forall v | 0 <= v < |s.workers| ensures WorkerSafe(after.rows, s.workers[v]) {
        WorkerStaysSafe(s.rows, after.rows, s.workers[v]);
      }
    } else if a.w < |s.workers| {
      if a.ReapRead? || a.Reclaim? || a.Expire? {
        ReapSafe(s, a.w, a);
      } else if a.ClaimRead? || a.Flip? || a.Reread? {
        ClaimSafe(s, a.w, a);
      } else {
        ProcessSafe(s, a.w, a);
      }
    }
  }

  /**
   Over every interleaving of any number of workers, with crashes and reaps
   anywhere: an open row has attempts left, a FAILED row has used them all, every
   counted attempt is a try that threw, and a DONE row was handled.
   */
  lemma {:induction false} EveryInterleavingSafe(workers: nat, actions: seq<Action>)
    ensures Safe(Run(Start(workers), actions))
  {
    if actions != [] {
      EveryInterleavingSafe(workers, actions[..|actions| - 1]);
      StepSafe(Run(Start(workers), actions[..|actions| - 1]), actions[|actions| - 1]);
    }
  }

  /** The reaper's branch that marks exhausted rows FAILED has nothing to do as long as every row may be tried once. */
  lemma ReaperNeverExpires(workers: nat, actions: seq<Action>, w: nat)
    requires w < |Run(Start(workers), actions).workers|
    requires forall i :: 0 <= i < |Run(Start(workers), actions).rows| ==> Run(Start(workers), actions).rows[i].maxAttempts >= 1
    ensures var p := Run(Start(workers), actions).workers[w];
      p.Reclaiming? || p.Expiring? ==> p.exhausted == {}
  {
    EveryInterleavingSafe(workers, actions);
    assert WorkerSafe(Run(Start(workers), actions).rows, Run(Start(workers), actions).workers[w]);
  }

  /** Open rows have tries left and FAILED rows have used them up. */
  predicate LimitKept(r: Row) {
    && r.attempts <= r.maxAttempts
    && (Open(r.status) ==> r.attempts < r.maxAttempts)
    && (r.status == Failed ==> r.attempts == r.maxAttempts)
  }

  ghost predicate AlwaysKept(maxAttempts: int) {
    forall workers: nat, actions: seq<Action>, r: Row ::
      r in Run(Start(workers), actions).rows && r.maxAttempts == maxAttempts ==> LimitKept(r)
  }

  /**
   enqueue takes any limit. Rows of a limit keep to it over every run if and only if
   it is at least one; otherwise the first failure leaves FAILED with a try too many.
   */
  lemma LimitMustBePositive(maxAttempts: int)
    ensures AlwaysKept(maxAttempts) <==> maxAttempts >= 1
    ensures maxAttempts < 1 ==>
              FailureWrite(NewRow(maxAttempts), Snapshot(0, 0, maxAttempts)).status == Failed
              && FailureWrite(NewRow(maxAttempts), Snapshot(0, 0, maxAttempts)).attempts != maxAttempts
  {
    if maxAttempts >= 1 {
      forall workers: nat, actions: seq<Action>, r: Row
        | r in Run(Start(workers), actions).rows && r.maxAttempts == maxAttempts
        ensures LimitKept(r)
      {
        EveryInterleavingSafe(workers, actions);
        assert RowSafe(r);
      }
    } else {
      var actions := [Enqueue(maxAttempts)];
      assert Run(Start(0), actions) == Next(Start(0), Enqueue(maxAttempts)) by {
        assert actions[..0] == [];
      }
      assert Run(Start(0), actions).rows == [NewRow(maxAttempts)];
      assert NewRow(maxAttempts) in Run(Start(0), actions).rows && !LimitKept(NewRow(maxAttempts));
    }
  }
}
