/**
 One worker alone on the table. Its statements are the steps of the protocol, so
 what holds of every orderly run holds here; on top of that every poll that
 claims something makes progress, and polling until nothing is open terminates.
 */
module OutboxWorker {
  import opened Sums
  import opened Outbox
  import opened OutboxClaims

  /* --------------------------------- backoff -------------------------------- */

  const MAX_WAIT_MS: nat := 300000

  function Pow2(n: nat): nat {
    if n == 0 then 1 else 2 * Pow2(n - 1)
  }

  function Backoff(pollInterval: nat, attempt: nat): nat
    requires attempt >= 1
  {
    var wait := pollInterval * Pow2(attempt - 1);
    if wait <= MAX_WAIT_MS then wait else MAX_WAIT_MS
  }

  /** Waits start at the poll interval, double until the cap, and never shrink. */
  lemma BackoffDoubles(pollInterval: nat, attempt: nat)
    requires attempt >= 1
    ensures Backoff(pollInterval, 1) == if pollInterval <= MAX_WAIT_MS then pollInterval else MAX_WAIT_MS
    ensures Backoff(pollInterval, attempt + 1)
            == if 2 * Backoff(pollInterval, attempt) <= MAX_WAIT_MS then 2 * Backoff(pollInterval, attempt) else MAX_WAIT_MS
  {
    assert pollInterval * Pow2(attempt) == 2 * (pollInterval * Pow2(attempt - 1));
  }

  lemma {:induction false} BackoffMonotone(pollInterval: nat, earlier: nat, later: nat)
    requires 1 <= earlier <= later
    ensures Backoff(pollInterval, earlier) <= Backoff(pollInterval, later) <= MAX_WAIT_MS
  {
    if earlier < later {
      BackoffMonotone(pollInterval, earlier, later - 1);
      BackoffDoubles(pollInterval, later - 1);
    }
  }

  /* --------------------------------- progress ------------------------------- */

  /** Tries a row still has. */
  function Remaining(): Row -> int {
    (r: Row) => if Open(r.status) then r.maxAttempts - r.attempts else 0
  }

  function Measure(rows: seq<Row>): int {
    Sum(rows, Remaining())
  }

  predicate Limits(rows: seq<Row>) {
    forall i :: 0 <= i < |rows| ==> rows[i].maxAttempts >= 1
  }

  predicate NoneProcessing(rows: seq<Row>) {
    forall i :: 0 <= i < |rows| ==> rows[i].status != Processing
  }

  lemma MeasureMoved(rows: seq<Row>, ids: set<nat>, from: Status, to: Status)
    requires Open(from) && Open(to)
    ensures Measure(Move(rows, ids, from, to)) == Measure(rows)
  {
    SumCongruent(Move(rows, ids, from, to), rows, Remaining(), Remaining());
  }

  lemma MeasureNonNegative(rows: seq<Row>)
    requires Limits(rows) && forall i :: 0 <= i < |rows| ==> RowSafe(rows[i])
    ensures Measure(rows) >= 0
  {
    forall i | 0 <= i < |rows| ensures Remaining()(rows[i]) >= 0 {
      assert RowSafe(rows[i]);
    }
    SumNonNegative(rows, Remaining());
  }

  lemma NothingNegative(rows: seq<Row>, steps: seq<Action>)
    requires Reached(Lone(rows, Idle), steps) && Limits(rows)
    ensures Measure(rows) >= 0
  {
    Guards(Lone(rows, Idle), steps);
    MeasureNonNegative(rows);
  }

  /** Everything the protocol guarantees of an orderly run. */
  ghost predicate Guarded(s: System) {
    Safe(s) && Exclusive(s) && AllAccounted(s)
  }

  /** Names the steps whose run is to be looked at. */
  ghost predicate Replayed(steps: seq<Action>) {
    true
  }

  /** A lone worker's system after the listed steps; the run itself only matters where its steps are replayed. */
  ghost predicate Reached(s: System, steps: seq<Action>) {
    forall taken {:trigger Replayed(taken)} :: taken == steps ==>
      s == Run(Start(1), taken) && OrderlyRun(Start(1), taken) && |s.workers| == 1
  }

  lemma WorkersStay(s: System, a: Action)
    ensures |Next(s, a).workers| == |s.workers|
  {
  }

  lemma Reaches(s: System, steps: seq<Action>, a: Action)
    requires Reached(s, steps) && Orderly(s, a)
    ensures Reached(Next(s, a), steps + [a])
  {
    assert Replayed(steps);
    WorkersStay(s, a);
    forall taken | taken == steps + [a]
      ensures Next(s, a) == Run(Start(1), taken) && OrderlyRun(Start(1), taken)
    {
      assert taken[..|taken| - 1] == steps;
    }
  }

  lemma StartReached()
    ensures Reached(Lone([], Idle), [])
  {
    assert Lone([], Idle) == Start(1);
    forall taken: seq<Action> | taken == []
      ensures Lone([], Idle) == Run(Start(1), taken) && OrderlyRun(Start(1), taken)
    {
    }
  }

  lemma Guards(s: System, steps: seq<Action>)
    requires Reached(s, steps)
    ensures Guarded(s) && s == Run(Start(1), steps) && OrderlyRun(Start(1), steps)
  {
    assert Replayed(steps);
    EveryInterleavingSafe(1, steps);
    OrderlyRunsAreExclusive(1, steps);
  }

  function Lone(rows: seq<Row>, worker: Outbox.Worker): System {
    System(rows, [worker])
  }

  /** With no other worker around nothing is held elsewhere. */
  lemma LoneIsOrderly(rows: seq<Row>, worker: Outbox.Worker, a: Action)
    requires Held(worker) == [] && !InClaim(worker)
    ensures Orderly(Lone(rows, worker), a)
  {
    forall i ensures !HeldBySome(Lone(rows, worker), i) {
    }
  }

  /** The table after one reap: exhausted rows expire, the other stale rows go back to PENDING. */
  function AfterReap(rows: seq<Row>, reclaim: set<nat>, exhausted: set<nat>): seq<Row> {
    Move(Move(rows, reclaim, Processing, Pending), exhausted, Processing, Failed)
  }

  function Restamp(times: seq<int>, rows: seq<Row>, ids: set<nat>, from: Status, now: int): (r: seq<int>)
    requires |times| == |rows|
    ensures |r| == |times|
  {
    seq(|times|, i requires 0 <= i < |times| => if i in ids && rows[i].status == from then now else times[i])
  }

  lemma LoneReap(rows: seq<Row>, steps: seq<Action>, stale: set<nat>, reclaim: set<nat>, exhausted: set<nat>)
    requires Reached(Lone(rows, Idle), steps) && AllInStatus(rows, stale, Processing)
    requires forall i :: i in reclaim <==> i in stale && rows[i].attempts < rows[i].maxAttempts
    requires forall i :: i in exhausted <==> i in stale && rows[i].attempts >= rows[i].maxAttempts
    ensures Reached(Lone(AfterReap(rows, reclaim, exhausted), Reaped),
                    steps + [ReapRead(0, stale)] + [Reclaim(0)] + [Expire(0)])
  {
    var s := Lone(rows, Idle);
    LoneIsOrderly(rows, Idle, ReapRead(0, stale));
    Reaches(s, steps, ReapRead(0, stale));
    var s1 := Next(s, ReapRead(0, stale));
    assert s1.workers[0].reclaim == reclaim && s1.workers[0].exhausted == exhausted;
    assert s1 == Lone(rows, Reclaiming(reclaim, exhausted));
    LoneIsOrderly(rows, Reclaiming(reclaim, exhausted), Reclaim(0));
    Reaches(s1, steps + [ReapRead(0, stale)], Reclaim(0));
    var moved := Move(rows, reclaim, Processing, Pending);
    var s2 := Next(s1, Reclaim(0));
    assert s2 == Lone(moved, Expiring(exhausted));
    LoneIsOrderly(moved, Expiring(exhausted), Expire(0));
    Reaches(s2, steps + [ReapRead(0, stale)] + [Reclaim(0)], Expire(0));
    assert Next(s2, Expire(0)) == Lone(AfterReap(rows, reclaim, exhausted), Reaped);
  }

  /** What a reap makes of one stale row. */
  function Returned(r: Row): Row {
    r.(status := if r.attempts < r.maxAttempts then Pending else Failed)
  }

  lemma AfterReapRows(rows: seq<Row>, stale: set<nat>, reclaim: set<nat>, exhausted: set<nat>, i: nat)
    requires i < |rows| && AllInStatus(rows, stale, Processing)
    requires forall i :: i in reclaim <==> i in stale && rows[i].attempts < rows[i].maxAttempts
    requires forall i :: i in exhausted <==> i in stale && rows[i].attempts >= rows[i].maxAttempts
    ensures AfterReap(rows, reclaim, exhausted)[i] == if i in stale then Returned(rows[i]) else rows[i]
  {
    var moved := Move(rows, reclaim, Processing, Pending);
    assert moved[i] == if i in reclaim then rows[i].(status := Pending) else rows[i];
  }

  lemma ReapKeepsMeasure(rows: seq<Row>, steps: seq<Action>, stale: set<nat>, reclaim: set<nat>, exhausted: set<nat>)
    requires Reached(Lone(rows, Idle), steps) && AllInStatus(rows, stale, Processing) && Limits(rows)
    requires forall i :: i in reclaim <==> i in stale && rows[i].attempts < rows[i].maxAttempts
    requires forall i :: i in exhausted <==> i in stale && rows[i].attempts >= rows[i].maxAttempts
    ensures Limits(AfterReap(rows, reclaim, exhausted))
    ensures Measure(AfterReap(rows, reclaim, exhausted)) == Measure(rows)
  {
    Guards(Lone(rows, Idle), steps);
    forall i | i in stale ensures i !in exhausted {
      assert RowSafe(rows[i]);
    }
    assert exhausted == {};
    MeasureMoved(rows, reclaim, Processing, Pending);
    assert AfterReap(rows, reclaim, exhausted) == Move(rows, reclaim, Processing, Pending);
  }

  /** Only rows of the queue are PROCESSING. */
  predicate ProcessingOnly(rows: seq<Row>, queue: seq<Snapshot>) {
    forall i :: 0 <= i < |rows| && rows[i].status == Processing ==> i in Ids(queue)
  }

  lemma OneLess(before: seq<Row>, after: seq<Row>, row: Snapshot, rest: seq<Snapshot>)
    requires row.id < |before| && |after| == |before| && after == before[row.id := after[row.id]]
    requires after[row.id].status != Processing
    ensures ProcessingOnly(before, [row] + rest) ==> ProcessingOnly(after, rest)
  {
    if ProcessingOnly(before, [row] + rest) {
      forall i | 0 <= i < |after| && after[i].status == Processing ensures i in Ids(rest) {
        assert i in Ids([row] + rest);
        var t :| t in [row] + rest && t.id == i;
      }
    }
  }

  /* ---------------------------------- a claim ------------------------------- */

  function ClaimSteps(ids: seq<nat>): seq<Action> {
    [ClaimRead(0, ids)] + if ids == [] then [] else [Flip(0), Reread(0)]
  }

  lemma LoneFlip(rows: seq<Row>, claimed: seq<Snapshot>)
    requires AnyPending(rows, claimed)
    ensures Next(Lone(rows, Claiming(claimed)), Flip(0))
            == Lone(Move(rows, Ids(claimed), Pending, Processing), Rereading(claimed))
  {
  }

  lemma LoneReread(rows: seq<Row>, claimed: seq<Snapshot>, steps: seq<Action>)
    requires Reached(Lone(rows, Rereading(claimed)), steps)
    ensures Reached(Lone(rows, Continue(claimed)), steps + [Reread(0)])
  {
    var s := Lone(rows, Rereading(claimed));
    LoneHeld(rows, Rereading(claimed), steps);
    RereadStep(s, 0);
    Reaches(s, steps, Reread(0));
    assert Next(s, Reread(0)) == StepClaim(s, 0, Reread(0));
    assert Set(s, 0, Continue(claimed)) == Lone(rows, Continue(claimed));
  }

  /** Alone, a worker claims exactly the rows it selected. */
  lemma LoneClaim(rows: seq<Row>, steps: seq<Action>, ids: seq<nat>)
    requires Reached(Lone(rows, Reaped), steps) && Due(rows, ids)
    ensures var claimed := Read(rows, ids);
      Reached(Lone(Move(rows, Ids(claimed), Pending, Processing), Continue(claimed)), steps + ClaimSteps(ids))
  {
    var s := Lone(rows, Reaped);
    var claimed := Read(rows, ids);
    LoneIsOrderly(rows, Reaped, ClaimRead(0, ids));
    Reaches(s, steps, ClaimRead(0, ids));
    assert Next(s, ClaimRead(0, ids)) == Lone(rows, if ids == [] then Idle else Claiming(claimed));
    if ids == [] {
      assert Move(rows, Ids(claimed), Pending, Processing) == rows;
      assert steps + ClaimSteps(ids) == steps + [ClaimRead(0, ids)];
    } else {
      LoneClaimSome(rows, steps + [ClaimRead(0, ids)], ids);
      assert steps + ClaimSteps(ids) == steps + [ClaimRead(0, ids)] + [Flip(0)] + [Reread(0)];
    }
  }

  lemma LoneClaimSome(rows: seq<Row>, steps: seq<Action>, ids: seq<nat>)
    requires Due(rows, ids) && ids != [] && Reached(Lone(rows, Claiming(Read(rows, ids))), steps)
    ensures var claimed := Read(rows, ids);
      Reached(Lone(Move(rows, Ids(claimed), Pending, Processing), Continue(claimed)), steps + [Flip(0)] + [Reread(0)])
  {
    var claimed := Read(rows, ids);
    assert claimed[0].id == ids[0] && AnyPending(rows, claimed);
    LoneFlip(rows, claimed);
    Reaches(Lone(rows, Claiming(claimed)), steps, Flip(0));
    LoneReread(Move(rows, Ids(claimed), Pending, Processing), claimed, steps + [Flip(0)]);
  }

  /* --------------------------------- one row -------------------------------- */

  function Outcome(r: Row, s: Snapshot, ok: bool): Row {
    Written(Called(r, ok), s, ok)
  }

  /** The rows a worker leaves behind when it dies: a handler's result is lost if it was not written yet. */
  function AfterCrash(rows: seq<Row>, worker: Outbox.Worker): seq<Row> {
    if worker.Finalising? && worker.row.id < |rows|
    then rows[worker.row.id := ResultLost(rows[worker.row.id])]
    else rows
  }

  lemma LoneHeld(rows: seq<Row>, worker: Outbox.Worker, steps: seq<Action>)
    requires Reached(Lone(rows, worker), steps)
    ensures HeldFresh(rows, worker)
    ensures forall i :: 0 <= i < |rows| ==> RowSafe(rows[i])
  {
    Guards(Lone(rows, worker), steps);
    assert Lone(rows, worker).workers[0] == worker;
  }

  lemma LoneCall(rows: seq<Row>, steps: seq<Action>, row: Snapshot, rest: seq<Snapshot>, ok: bool)
    requires Reached(Lone(rows, Working([row] + rest)), steps) && row.id < |rows|
    ensures Reached(Lone(rows[row.id := Called(rows[row.id], ok)], Finalising(row, ok, rest)), steps + [Dispatch(0, ok)])
  {
    var s := Lone(rows, Working([row] + rest));
    Reaches(s, steps, Dispatch(0, ok));
    assert ([row] + rest)[1..] == rest;
    assert Next(s, Dispatch(0, ok)).workers == [Finalising(row, ok, rest)];
  }

  lemma LoneWrite(rows: seq<Row>, steps: seq<Action>, row: Snapshot, rest: seq<Snapshot>, ok: bool)
    requires Reached(Lone(rows, Finalising(row, ok, rest)), steps) && row.id < |rows|
    ensures Reached(Lone(rows[row.id := Written(rows[row.id], row, ok)], Continue(rest)), steps + [Finalise(0)])
  {
    var s := Lone(rows, Finalising(row, ok, rest));
    Reaches(s, steps, Finalise(0));
    assert Next(s, Finalise(0)) == Lone(rows[row.id := Written(rows[row.id], row, ok)], Continue(rest));
  }

  lemma LoneCrash(rows: seq<Row>, worker: Outbox.Worker, steps: seq<Action>)
    requires Reached(Lone(rows, worker), steps)
    ensures Reached(Lone(AfterCrash(rows, worker), Idle), steps + [Crash(0)])
  {
    Reaches(Lone(rows, worker), steps, Crash(0));
    assert Next(Lone(rows, worker), Crash(0)) == Lone(AfterCrash(rows, worker), Idle);
  }

  /** A call costs no try; the write costs at least one. */
  lemma CallKeepsMeasure(rows: seq<Row>, i: nat, ok: bool)
    requires i < |rows|
    ensures Measure(rows[i := Called(rows[i], ok)]) == Measure(rows)
  {
    SumUpdate(rows, i, Called(rows[i], ok), Remaining());
  }

  lemma WriteFalls(rows: seq<Row>, steps: seq<Action>, row: Snapshot, rest: seq<Snapshot>, ok: bool)
    requires Reached(Lone(rows, Finalising(row, ok, rest)), steps) && row.id < |rows| && rows[row.id].maxAttempts >= 1
    ensures Measure(rows[row.id := Written(rows[row.id], row, ok)]) < Measure(rows)
  {
    LoneHeld(rows, Finalising(row, ok, rest), steps);
    assert Held(Finalising(row, ok, rest))[0] == row;
    assert RowSafe(rows[row.id]);
    SumUpdate(rows, row.id, Written(rows[row.id], row, ok), Remaining());
  }

  /* ------------------------------ results lost ------------------------------ */

  function LostOf(): Row -> int {
    (r: Row) => r.lost
  }

  /** Handler results that crashes lost, over the whole table. */
  function Lost(rows: seq<Row>): int {
    Sum(rows, LostOf())
  }

  predicate SameLost(before: seq<Row>, after: seq<Row>) {
    |before| == |after| && forall i :: 0 <= i < |before| ==> after[i].lost == before[i].lost
  }

  lemma SameLostTotal(before: seq<Row>, after: seq<Row>)
    requires SameLost(before, after)
    ensures Lost(after) == Lost(before)
  {
    SumCongruent(after, before, LostOf(), LostOf());
  }

  lemma CrashLosesOne(rows: seq<Row>, worker: Outbox.Worker)
    ensures Lost(rows) <= Lost(AfterCrash(rows, worker)) <= Lost(rows) + 1
    ensures Measure(AfterCrash(rows, worker)) == Measure(rows)
    ensures Limits(rows) ==> Limits(AfterCrash(rows, worker))
  {
    if worker.Finalising? && worker.row.id < |rows| {
      var i := worker.row.id;
      SumUpdate(rows, i, ResultLost(rows[i]), LostOf());
      SumUpdate(rows, i, ResultLost(rows[i]), Remaining());
    }
  }

  lemma LostCovers(rows: seq<Row>, i: nat)
    requires i < |rows|
    ensures rows[i].lost <= Lost(rows)
  {
    SumOfRow(rows, i, LostOf());
    SumNonNegative(rows[..i] + rows[i + 1..], LostOf());
  }

  /* ------------------------------ query results ----------------------------- */

  predicate IsStale(rows: seq<Row>, updatedAt: seq<int>, before: int, i: nat)
    requires |updatedAt| == |rows|
  {
    i < |rows| && rows[i].status == Processing && updatedAt[i] < before
  }

  /** Rows PROCESSING since before the threshold: all of them, or as many as the batch takes. */
  ghost predicate StaleBatch(rows: seq<Row>, updatedAt: seq<int>, before: int, batch: nat, stale: set<nat>)
    requires |updatedAt| == |rows|
  {
    && (forall i :: i in stale ==> IsStale(rows, updatedAt, before, i))
    && |stale| <= batch
    && (|stale| < batch ==> forall i: nat :: IsStale(rows, updatedAt, before, i) ==> i in stale)
  }

  predicate IsDue(rows: seq<Row>, nextAttemptAt: seq<int>, now: int, i: nat)
    requires |nextAttemptAt| == |rows|
  {
    i < |rows| && rows[i].status == Pending && nextAttemptAt[i] <= now
  }

  /** Distinct due rows, earliest next attempt first. */
  predicate InOrder(rows: seq<Row>, nextAttemptAt: seq<int>, now: int, ids: seq<nat>)
    requires |nextAttemptAt| == |rows|
  {
    && (forall k :: 0 <= k < |ids| ==> IsDue(rows, nextAttemptAt, now, ids[k]))
    && (forall j, k :: 0 <= j < k < |ids| ==> ids[j] != ids[k] && nextAttemptAt[ids[j]] <= nextAttemptAt[ids[k]])
  }

  /** The earliest due rows: nothing due is left out unless the batch is full of rows no later. */
  ghost predicate Earliest(rows: seq<Row>, nextAttemptAt: seq<int>, now: int, batch: nat, ids: seq<nat>)
    requires |nextAttemptAt| == |rows|
  {
    && InOrder(rows, nextAttemptAt, now, ids)
    && |ids| <= batch
    && (forall i: nat :: IsDue(rows, nextAttemptAt, now, i) && i !in ids ==>
          |ids| == batch && forall k :: 0 <= k < |ids| ==> nextAttemptAt[ids[k]] <= nextAttemptAt[i])
  }

  lemma InOrderIsDue(rows: seq<Row>, nextAttemptAt: seq<int>, now: int, ids: seq<nat>)
    requires |nextAttemptAt| == |rows| && InOrder(rows, nextAttemptAt, now, ids)
    ensures Due(rows, ids)
  {
    forall k | 0 <= k < |ids| ensures ids[k] < |rows| && rows[ids[k]].status == Pending {
      assert IsDue(rows, nextAttemptAt, now, ids[k]);
    }
  }

  lemma InsertKeepsOrder(rows: seq<Row>, nextAttemptAt: seq<int>, now: int, ids: seq<nat>, k: nat, i: nat)
    requires |nextAttemptAt| == |rows| && InOrder(rows, nextAttemptAt, now, ids) && k <= |ids|
    requires IsDue(rows, nextAttemptAt, now, i) && i !in ids
    requires forall j :: k <= j < |ids| ==> nextAttemptAt[ids[j]] > nextAttemptAt[i]
    requires k > 0 ==> nextAttemptAt[ids[k - 1]] <= nextAttemptAt[i]
    ensures InOrder(rows, nextAttemptAt, now, ids[..k] + [i] + ids[k..])
  {
    var all := ids[..k] + [i] + ids[k..];
    forall j | 0 <= j < |all| ensures all[j] == if j < k then ids[j] else if j == k then i else ids[j - 1] {
    }
    forall j | 0 <= j < k ensures nextAttemptAt[ids[j]] <= nextAttemptAt[i] && ids[j] != i {
      assert ids[j] in ids;
      assert j < k - 1 ==> nextAttemptAt[ids[j]] <= nextAttemptAt[ids[k - 1]];
    }
  }

  lemma PrefixIsEarliest(rows: seq<Row>, nextAttemptAt: seq<int>, now: int, batch: nat, all: seq<nat>)
    requires |nextAttemptAt| == |rows| && InOrder(rows, nextAttemptAt, now, all)
    requires forall i: nat :: IsDue(rows, nextAttemptAt, now, i) ==> i in all
    ensures Earliest(rows, nextAttemptAt, now, batch, if batch < |all| then all[..batch] else all)
  {
    if batch < |all| {
      forall i: nat | IsDue(rows, nextAttemptAt, now, i) && i !in all[..batch]
        ensures forall k :: 0 <= k < batch ==> nextAttemptAt[all[k]] <= nextAttemptAt[i]
      {
        assert forall k :: 0 <= k < batch ==> all[..batch][k] == all[k];
        var m :| 0 <= m < |all| && all[m] == i;
      }
    }
  }

  ghost predicate AnyDue(rows: seq<Row>, nextAttemptAt: seq<int>, now: int)
    requires |nextAttemptAt| == |rows|
  {
    exists i: nat :: IsDue(rows, nextAttemptAt, now, i)
  }

  /** Stale rows came back, PENDING and due now if they have tries left, else FAILED; all other rows are as they were. */
  predicate CameBack(before: seq<Row>, next: seq<int>, after: seq<Row>, nextAfter: seq<int>, now: int, stale: set<nat>) {
    && |before| == |next| == |after| == |nextAfter|
    && (forall i :: 0 <= i < |after| ==> after[i] == if i in stale then Returned(before[i]) else before[i])
    && (forall i :: 0 <= i < |after| ==>
          nextAfter[i] == if i in stale && after[i].status == Pending then now else next[i])
  }

  function IdList(claimed: seq<Snapshot>): seq<nat> {
    seq(|claimed|, k requires 0 <= k < |claimed| => claimed[k].id)
  }

  /** Whether a poll finds something to do: a row is due now, or PROCESSING since before the threshold. */
  ghost predicate SomethingToDo(rows: seq<Row>, nextAttemptAt: seq<int>, updatedAt: seq<int>, now: int, before: int)
    requires |rows| == |nextAttemptAt| == |updatedAt|
  {
    AnyDue(rows, nextAttemptAt, now) || exists i: nat :: IsStale(rows, updatedAt, before, i)
  }

  lemma DueStaysDue(old': seq<Row>, next: seq<int>, updated: seq<int>, after: seq<Row>, nextAfter: seq<int>,
                    now: int, before: int, batch: nat, stale: set<nat>)
    requires CameBack(old', next, after, nextAfter, now, stale) && |updated| == |old'|
    requires StaleBatch(old', updated, before, batch, stale) && AnyDue(old', next, now)
    ensures AnyDue(after, nextAfter, now)
  {
    var i: nat :| IsDue(old', next, now, i);
    assert IsDue(after, nextAfter, now, i);
  }

  /** After a reap something is due whenever something was due, or stale with tries left. */
  lemma DueAfterReap(old': seq<Row>, next: seq<int>, updated: seq<int>, after: seq<Row>, nextAfter: seq<int>,
                     now: int, before: int, batch: nat, stale: set<nat>)
    requires CameBack(old', next, after, nextAfter, now, stale) && |updated| == |old'|
    requires StaleBatch(old', updated, before, batch, stale)
    requires forall i :: i in stale ==> i < |after| && after[i].status == Pending
    requires batch >= 1 && SomethingToDo(old', next, updated, now, before)
    ensures AnyDue(after, nextAfter, now)
  {
    if AnyDue(old', next, now) {
      DueStaysDue(old', next, updated, after, nextAfter, now, before, batch, stale);
    } else {
      var i: nat :| IsStale(old', updated, before, i);
      assert |stale| == 0 ==> i in stale;
      var j :| j in stale;
      assert IsDue(after, nextAfter, now, j);
    }
  }

  /** A batch of stale rows, split by whether they have tries left. */
  ghost predicate SplitBatch(rows: seq<Row>, updatedAt: seq<int>, before: int, batch: nat,
                             stale: set<nat>, reclaim: set<nat>, exhausted: set<nat>)
    requires |updatedAt| == |rows|
  {
    && StaleBatch(rows, updatedAt, before, batch, stale)
    && AllInStatus(rows, stale, Processing)
    && (forall i :: i in reclaim <==> i in stale && rows[i].attempts < rows[i].maxAttempts)
    && (forall i :: i in exhausted <==> i in stale && rows[i].attempts >= rows[i].maxAttempts)
  }

  method FindStale(rows: seq<Row>, updatedAt: seq<int>, before: int, batch: nat)
    returns (stale: set<nat>, reclaim: set<nat>, exhausted: set<nat>)
    requires |updatedAt| == |rows|
    ensures SplitBatch(rows, updatedAt, before, batch, stale, reclaim, exhausted)
  {
    stale := SelectStale(rows, updatedAt, before, batch);
    assert forall i :: i in stale ==> IsStale(rows, updatedAt, before, i);
    reclaim := set i | i in stale && rows[i].attempts < rows[i].maxAttempts;
    exhausted := set i | i in stale && rows[i].attempts >= rows[i].maxAttempts;
  }

  /** Collects the stale rows of one batch. */
  method SelectStale(rows: seq<Row>, updatedAt: seq<int>, before: int, batch: nat) returns (stale: set<nat>)
    requires |updatedAt| == |rows|
    ensures StaleBatch(rows, updatedAt, before, batch, stale)
  {
    stale := {};
    for i := 0 to |rows|
      invariant forall j :: j in stale ==> j < i && IsStale(rows, updatedAt, before, j)
      invariant |stale| <= batch
      invariant |stale| < batch ==> forall j: nat :: j < i && IsStale(rows, updatedAt, before, j) ==> j in stale
    {
      if rows[i].status == Processing && updatedAt[i] < before && |stale| < batch {
        stale := stale + {i};
      }
    }
  }

  /** Collects the due rows of one batch, earliest next attempt first. */
  method SelectDue(rows: seq<Row>, nextAttemptAt: seq<int>, now: int, batch: nat) returns (ids: seq<nat>)
    requires |nextAttemptAt| == |rows|
    ensures Earliest(rows, nextAttemptAt, now, batch, ids)
  {
    var all: seq<nat> := [];
    for i := 0 to |rows|
      invariant InOrder(rows, nextAttemptAt, now, all)
      invariant forall j :: j in all ==> j < i
      invariant forall j: nat :: j < i && IsDue(rows, nextAttemptAt, now, j) ==> j in all
    {
      if rows[i].status == Pending && nextAttemptAt[i] <= now {
        all := InsertDue(rows, nextAttemptAt, now, all, i);
      }
    }
    PrefixIsEarliest(rows, nextAttemptAt, now, batch, all);
    ids := if batch < |all| then all[..batch] else all;
  }

  method InsertDue(rows: seq<Row>, nextAttemptAt: seq<int>, now: int, ids: seq<nat>, i: nat) returns (r: seq<nat>)
    requires |nextAttemptAt| == |rows| && InOrder(rows, nextAttemptAt, now, ids)
    requires IsDue(rows, nextAttemptAt, now, i) && i !in ids
    ensures InOrder(rows, nextAttemptAt, now, r)
    ensures forall j :: j in r <==> j in ids || j == i
  {
    var k := |ids|;
    while k > 0 && nextAttemptAt[ids[k - 1]] > nextAttemptAt[i]
      invariant 0 <= k <= |ids|
      invariant forall j :: k <= j < |ids| ==> nextAttemptAt[ids[j]] > nextAttemptAt[i]
    {
      k := k - 1;
    }
    InsertKeepsOrder(rows, nextAttemptAt, now, ids, k, i);
    assert ids == ids[..k] + ids[k..];
    r := ids[..k] + [i] + ids[k..];
  }

  /** What a reap of a batch does to the tables. */
  lemma ReapEffect(rows: seq<Row>, next: seq<int>, now: int, stale: set<nat>, reclaim: set<nat>, exhausted: set<nat>)
    requires |next| == |rows| && AllInStatus(rows, stale, Processing)
    requires forall i :: i in reclaim <==> i in stale && rows[i].attempts < rows[i].maxAttempts
    requires forall i :: i in exhausted <==> i in stale && rows[i].attempts >= rows[i].maxAttempts
    ensures CameBack(rows, next, AfterReap(rows, reclaim, exhausted), Restamp(next, rows, reclaim, Processing, now), now, stale)
    ensures SameLost(rows, AfterReap(rows, reclaim, exhausted))
    ensures NoneProcessing(rows) ==>
              AfterReap(rows, reclaim, exhausted) == rows && Restamp(next, rows, reclaim, Processing, now) == next
  {
    forall i | 0 <= i < |rows|
      ensures AfterReap(rows, reclaim, exhausted)[i] == if i in stale then Returned(rows[i]) else rows[i]
    {
      AfterReapRows(rows, stale, reclaim, exhausted, i);
    }
  }

  /** A row with a limit has tries left as long as it is PROCESSING, so the reaper never fails it. */
  lemma ReclaimsAll(rows: seq<Row>, steps: seq<Action>, stale: set<nat>)
    requires Reached(Lone(rows, Idle), steps) && AllInStatus(rows, stale, Processing) && Limits(rows)
    ensures forall i :: i in stale ==> Returned(rows[i]).status == Pending
  {
    LoneHeld(rows, Idle, steps);
    forall i | i in stale ensures Returned(rows[i]).status == Pending {
      assert RowSafe(rows[i]);
    }
  }

  /** All a reap does, to the tables and to what is left to try. */
  ghost predicate Reap(rows: seq<Row>, next: seq<int>, after: seq<Row>, nextAfter: seq<int>, now: int, stale: set<nat>) {
    && CameBack(rows, next, after, nextAfter, now, stale)
    && SameLost(rows, after)
    && (NoneProcessing(rows) ==> after == rows && nextAfter == next)
    && (Limits(rows) ==>
          && Limits(after) && Measure(after) == Measure(rows)
          && forall i :: i in stale ==> i < |after| && after[i].status == Pending)
  }

  function ReapSteps(stale: set<nat>): seq<Action> {
    [ReapRead(0, stale), Reclaim(0), Expire(0)]
  }

  lemma ReapBatch(rows: seq<Row>, next: seq<int>, updatedAt: seq<int>, steps: seq<Action>, now: int, before: int, batch: nat,
                  stale: set<nat>, reclaim: set<nat>, exhausted: set<nat>)
    requires Reached(Lone(rows, Idle), steps) && |rows| == |next| == |updatedAt|
    requires SplitBatch(rows, updatedAt, before, batch, stale, reclaim, exhausted)
    ensures StaleBatch(rows, updatedAt, before, batch, stale)
    ensures Reached(Lone(AfterReap(rows, reclaim, exhausted), Reaped), steps + ReapSteps(stale))
    ensures Reap(rows, next, AfterReap(rows, reclaim, exhausted), Restamp(next, rows, reclaim, Processing, now), now, stale)
  {
    LoneReap(rows, steps, stale, reclaim, exhausted);
    assert steps + ReapSteps(stale) == steps + [ReapRead(0, stale)] + [Reclaim(0)] + [Expire(0)];
    ReapEffect(rows, next, now, stale, reclaim, exhausted);
    if Limits(rows) {
      ReapKeepsMeasure(rows, steps, stale, reclaim, exhausted);
      ReclaimsAll(rows, steps, stale);
    }
  }

  /** Reads the stale rows, gives back those with tries left, and fails the others. */
  method ReapTables(rows: seq<Row>, next: seq<int>, updatedAt: seq<int>, now: int, before: int, batch: nat,
                    ghost steps: seq<Action>)
    returns (after: seq<Row>, nextAfter: seq<int>, updatedAfter: seq<int>, ghost stale: set<nat>)
    requires Reached(Lone(rows, Idle), steps) && |rows| == |next| == |updatedAt|
    ensures |after| == |rows| == |updatedAfter|
    ensures StaleBatch(rows, updatedAt, before, batch, stale)
    ensures Reached(Lone(after, Reaped), steps + ReapSteps(stale))
    ensures Reap(rows, next, after, nextAfter, now, stale)
    ensures forall i :: 0 <= i < |rows| ==> updatedAfter[i] == if i in stale then now else updatedAt[i]
  {
    var found, reclaim, exhausted := FindStale(rows, updatedAt, before, batch);
    stale := found;
    ReapBatch(rows, next, updatedAt, steps, now, before, batch, stale, reclaim, exhausted);
    after := AfterReap(rows, reclaim, exhausted);
    nextAfter := Restamp(next, rows, reclaim, Processing, now);
    updatedAfter := Restamp(updatedAt, rows, found, Processing, now);
  }

  /** What a claim does: exactly the earliest due rows are PROCESSING now, as they were read. */
  ghost predicate Claim(rows: seq<Row>, next: seq<int>, now: int, batch: nat, after: seq<Row>, claimed: seq<Snapshot>)
    requires |next| == |rows|
  {
    && Earliest(rows, next, now, batch, IdList(claimed))
    && Due(rows, IdList(claimed))
    && claimed == Read(rows, IdList(claimed))
    && after == Move(rows, Ids(claimed), Pending, Processing)
  }

  /** What a claim keeps: tries left, limits and lost results; and it takes something if anything is due. */
  ghost predicate ClaimKeeps(rows: seq<Row>, next: seq<int>, now: int, batch: nat, after: seq<Row>, claimed: seq<Snapshot>)
    requires |next| == |rows|
  {
    && Measure(after) == Measure(rows)
    && (Limits(rows) ==> Limits(after))
    && SameLost(rows, after)
    && |claimed| <= batch
    && (NoneProcessing(rows) ==> ProcessingOnly(after, claimed))
    && (batch >= 1 && AnyDue(rows, next, now) ==> claimed != [])
  }

  lemma ClaimBatch(rows: seq<Row>, next: seq<int>, steps: seq<Action>, now: int, batch: nat, ids: seq<nat>)
    requires Reached(Lone(rows, Reaped), steps) && |next| == |rows|
    requires Earliest(rows, next, now, batch, ids)
    ensures Due(rows, ids)
    ensures var claimed := Read(rows, ids); var after := Move(rows, Ids(claimed), Pending, Processing);
      && Reached(Lone(after, Continue(claimed)), steps + ClaimSteps(ids))
      && Claim(rows, next, now, batch, after, claimed)
      && ClaimKeeps(rows, next, now, batch, after, claimed)
  {
    InOrderIsDue(rows, next, now, ids);
    LoneClaim(rows, steps, ids);
    assert IdList(Read(rows, ids)) == ids;
    MeasureMoved(rows, Ids(Read(rows, ids)), Pending, Processing);
  }

  /** What the write of an outcome does. */
  lemma WriteEffect(rows: seq<Row>, steps: seq<Action>, row: Snapshot, rest: seq<Snapshot>, ok: bool)
    requires Reached(Lone(rows, Finalising(row, ok, rest)), steps)
    ensures row.id < |rows| && row.maxAttempts == rows[row.id].maxAttempts
    ensures Reached(Lone(rows[row.id := Written(rows[row.id], row, ok)], Continue(rest)), steps + [Finalise(0)])
    ensures rows[row.id].maxAttempts >= 1 ==> Measure(rows[row.id := Written(rows[row.id], row, ok)]) < Measure(rows)
  {
    LoneHeld(rows, Finalising(row, ok, rest), steps);
    assert Held(Finalising(row, ok, rest))[0] == row;
    LoneWrite(rows, steps, row, rest, ok);
    if rows[row.id].maxAttempts >= 1 {
      WriteFalls(rows, steps, row, rest, ok);
    }
  }

  /** What a reap and a claim together do for a poll. */
  ghost predicate Taken(old': seq<Row>, next: seq<int>, updated: seq<int>, now: int, before: int, batch: nat,
                        after: seq<Row>, claimed: seq<Snapshot>)
    requires |old'| == |next| == |updated|
  {
    && SameLost(old', after)
    && |claimed| <= batch
    && (Limits(old') ==> Limits(after) && Measure(after) == Measure(old'))
    && (NoneProcessing(old') ==> ProcessingOnly(after, claimed))
    && (batch >= 1 && AnyDue(old', next, now) ==> claimed != [])
    && ((Limits(old') && batch >= 1 && SomethingToDo(old', next, updated, now, before)) ==> claimed != [])
  }

  lemma TakenByPoll(old': seq<Row>, next: seq<int>, updated: seq<int>, now: int, before: int, batch: nat, stale: set<nat>,
                    mid: seq<Row>, nextMid: seq<int>, after: seq<Row>, claimed: seq<Snapshot>)
    requires |old'| == |next| == |updated| && Reap(old', next, mid, nextMid, now, stale)
    requires StaleBatch(old', updated, before, batch, stale)
    requires ClaimKeeps(mid, nextMid, now, batch, after, claimed)
    ensures Taken(old', next, updated, now, before, batch, after, claimed)
  {
    if AnyDue(old', next, now) {
      DueStaysDue(old', next, updated, mid, nextMid, now, before, batch, stale);
    } else if Limits(old') && batch >= 1 && SomethingToDo(old', next, updated, now, before) {
      DueAfterReap(old', next, updated, mid, nextMid, now, before, batch, stale);
    }
  }

  lemma Bounded(rows: seq<Row>, steps: seq<Action>)
    requires Reached(Lone(rows, Idle), steps) && Limits(rows)
    ensures forall i :: 0 <= i < |rows| ==>
              && rows[i].dispatched <= rows[i].maxAttempts + rows[i].lost
              && (rows[i].status == Failed ==> rows[i].dispatched == rows[i].maxAttempts + rows[i].lost)
              && (rows[i].status == Done ==> rows[i].successes >= 1)
  {
    LoneHeld(rows, Idle, steps);
    Guards(Lone(rows, Idle), steps);
    forall i | 0 <= i < |rows|
      ensures rows[i].dispatched <= rows[i].maxAttempts + rows[i].lost
      ensures rows[i].status == Failed ==> rows[i].dispatched == rows[i].maxAttempts + rows[i].lost
    {
      DispatchesBounded(1, steps, i);
      assert !InFlight(Lone(rows, Idle), i);
    }
  }

  class Worker {
    const pollInterval: nat
    const batchSize: nat
    const staleAfter: nat
    var rows: seq<Row>
    var nextAttemptAt: seq<int>
    var updatedAt: seq<int>
    var state: Outbox.Worker
    ghost var steps: seq<Action>

    /** The table is what the protocol reaches by the steps taken so far. */
    ghost predicate Valid()
      reads this
    {
      && |rows| == |nextAttemptAt| == |updatedAt|
      && Reached(Lone(rows, state), steps)
    }

    constructor (pollInterval: nat, batchSize: nat, staleAfter: nat)
      ensures Valid() && rows == [] && state == Idle
      ensures this.batchSize == batchSize && this.pollInterval == pollInterval
    {
      this.pollInterval, this.batchSize, this.staleAfter := pollInterval, batchSize, staleAfter;
      rows, nextAttemptAt, updatedAt := [], [], [];
      state, steps := Idle, [];
      new;
      StartReached();
    }

    method Enqueue(maxAttempts: int, now: int)
      requires Valid()
      modifies this
      ensures Valid() && rows == old(rows) + [NewRow(maxAttempts)] && state == old(state)
      ensures nextAttemptAt == old(nextAttemptAt) + [now] && updatedAt == old(updatedAt) + [now]
    {
      Reaches(Lone(rows, state), steps, Action.Enqueue(maxAttempts));
      rows, nextAttemptAt, updatedAt := rows + [NewRow(maxAttempts)], nextAttemptAt + [now], updatedAt + [now];
      steps := steps + [Action.Enqueue(maxAttempts)];
    }

    /**
     Gives rows that have been PROCESSING for too long back to the poll: those of the
     batch come back PENDING and due now if they have tries left, else FAILED.
     */
    method ReapStale(now: int) returns (ghost stale: set<nat>)
      requires Valid() && state == Idle
      modifies this
      ensures Valid() && state == Reaped && |rows| == |old(rows)|
      ensures StaleBatch(old(rows), old(updatedAt), now - staleAfter, batchSize, stale)
      ensures Reap(old(rows), old(nextAttemptAt), rows, nextAttemptAt, now, stale)
      ensures forall i :: 0 <= i < |rows| ==> updatedAt[i] == if i in stale then now else old(updatedAt)[i]
    {
      rows, nextAttemptAt, updatedAt, stale := ReapTables(rows, nextAttemptAt, updatedAt, now, now - staleAfter, batchSize, steps);
      state, steps := Reaped, steps + ReapSteps(stale);
    }

    /** Selects the earliest due rows, flips them and re-reads which of them are PROCESSING. */
    method ClaimDue(now: int) returns (claimed: seq<Snapshot>)
      requires Valid() && state == Reaped
      modifies this
      ensures Valid() && state == Continue(claimed) && |rows| == |old(rows)|
      ensures nextAttemptAt == old(nextAttemptAt)
      ensures forall i :: 0 <= i < |rows| ==> updatedAt[i] == if i in Ids(claimed) then now else old(updatedAt)[i]
      ensures Claim(old(rows), old(nextAttemptAt), now, batchSize, rows, claimed)
      ensures ClaimKeeps(old(rows), old(nextAttemptAt), now, batchSize, rows, claimed)
    {
      var ids := SelectDue(rows, nextAttemptAt, now, batchSize);
      ClaimBatch(rows, nextAttemptAt, steps, now, batchSize, ids);
      claimed := Read(rows, ids);
      updatedAt := Restamp(updatedAt, rows, Ids(claimed), Pending, now);
      rows := Move(rows, Ids(claimed), Pending, Processing);
      state := Continue(claimed);
      steps := steps + ClaimSteps(ids);
    }

    /** Hands a claimed row to its handler. */
    method CallHandler(row: Snapshot, rest: seq<Snapshot>, handler: (nat, nat) -> bool) returns (ok: bool)
      requires Valid() && state == Working([row] + rest)
      modifies this
      ensures Valid() && state == Finalising(row, ok, rest)
      ensures nextAttemptAt == old(nextAttemptAt) && updatedAt == old(updatedAt)
      ensures row.id < |old(rows)| && ok == handler(row.id, old(rows)[row.id].dispatched)
      ensures rows == old(rows)[row.id := Called(old(rows)[row.id], ok)]
    {
      LoneHeld(rows, state, steps);
      assert Held(state)[0] == row;
      ok := handler(row.id, rows[row.id].dispatched);
      LoneCall(rows, steps, row, rest, ok);
      rows := rows[row.id := Called(rows[row.id], ok)];
      state, steps := Finalising(row, ok, rest), steps + [Action.Dispatch(0, ok)];
    }

    /** Writes the outcome: DONE, FAILED when this was the last attempt, else PENDING again after the backoff. */
    method WriteOutcome(row: Snapshot, ok: bool, rest: seq<Snapshot>, now: int)
      requires Valid() && state == Finalising(row, ok, rest)
      modifies this
      ensures Valid() && state == Continue(rest)
      ensures row.id < |old(rows)| && rows == old(rows)[row.id := Written(old(rows)[row.id], row, ok)]
      ensures nextAttemptAt
              == if rows[row.id].status == Pending
                 then old(nextAttemptAt)[row.id := now + Backoff(pollInterval, row.attempts + 1)] else old(nextAttemptAt)
      ensures rows[row.id].status == if ok then Done else if row.attempts + 1 >= row.maxAttempts then Failed else Pending
      ensures rows[row.id].attempts == if ok then old(rows)[row.id].attempts else row.attempts + 1
      ensures updatedAt == old(updatedAt)[row.id := now]
      ensures old(rows)[row.id].maxAttempts >= 1 ==> Measure(rows) < Measure(old(rows))
    {
      WriteEffect(rows, steps, row, rest, ok);
      var attempts := row.attempts + 1;
      var failed := attempts >= row.maxAttempts;
      if !ok && !failed {
        nextAttemptAt := nextAttemptAt[row.id := now + Backoff(pollInterval, attempts)];
      }
      updatedAt := updatedAt[row.id := now];
      rows := rows[row.id := Written(rows[row.id], row, ok)];
      state, steps := Continue(rest), steps + [Action.Finalise(0)];
    }

    /** Hands one claimed row to its handler and writes the outcome. */
    method ProcessRow(row: Snapshot, rest: seq<Snapshot>, now: int, handler: (nat, nat) -> bool)
      requires Valid() && state == Working([row] + rest)
      modifies this
      ensures Valid() && state == Continue(rest) && |rows| == |old(rows)|
      ensures row.id < |rows| && rows == old(rows)[row.id := rows[row.id]]
      ensures rows[row.id] == Outcome(old(rows)[row.id], row, handler(row.id, old(rows)[row.id].dispatched))
      ensures nextAttemptAt
              == if rows[row.id].status == Pending
                 then old(nextAttemptAt)[row.id := now + Backoff(pollInterval, row.attempts + 1)] else old(nextAttemptAt)
      ensures Limits(old(rows)) ==> Limits(rows) && Measure(rows) < Measure(old(rows))
      ensures SameLost(old(rows), rows)
    {
      var ok := CallHandler(row, rest, handler);
      CallKeepsMeasure(old(rows), row.id, ok);
      WriteOutcome(row, ok, rest, now);
    }

    /** Processes the first n claimed rows. */
    method ProcessFirst(claimed: seq<Snapshot>, n: nat, now: int, handler: (nat, nat) -> bool)
      requires Valid() && state == Continue(claimed) && n <= |claimed|
      modifies this
      ensures Valid() && state == Continue(claimed[n..]) && |rows| == |old(rows)|
      ensures Limits(old(rows)) ==> Limits(rows) && Measure(rows) + n <= Measure(old(rows))
      ensures ProcessingOnly(old(rows), claimed) ==> ProcessingOnly(rows, claimed[n..])
      ensures SameLost(old(rows), rows)
    {
      for k := 0 to n
        invariant Valid() && |rows| == |old(rows)| && state == Continue(claimed[k..])
        invariant Limits(old(rows)) ==> Limits(rows) && Measure(rows) + k <= Measure(old(rows))
        invariant ProcessingOnly(old(rows), claimed) ==> ProcessingOnly(rows, claimed[k..])
        invariant SameLost(old(rows), rows)
      {
        assert claimed[k..] == [claimed[k]] + claimed[k + 1..];
        ghost var before := rows;
        ProcessRow(claimed[k], claimed[k + 1..], now, handler);
        OneLess(before, rows, claimed[k], claimed[k + 1..]);
      }
    }

    /** The first half of a poll: reap, then claim. */
    method Prepare(now: int) returns (claimed: seq<Snapshot>)
      requires Valid() && state == Idle
      modifies this
      ensures Valid() && state == Continue(claimed) && |rows| == |old(rows)|
      ensures Taken(old(rows), old(nextAttemptAt), old(updatedAt), now, now - staleAfter, batchSize, rows, claimed)
    {
      ghost var before, next, updated := rows, nextAttemptAt, updatedAt;
      ghost var stale := ReapStale(now);
      ghost var mid, nextMid := rows, nextAttemptAt;
      assert Reap(before, next, mid, nextMid, now, stale);
      claimed := ClaimDue(now);
      assert ClaimKeeps(mid, nextMid, now, batchSize, rows, claimed);
      TakenByPoll(before, next, updated, now, now - staleAfter, batchSize, stale, mid, nextMid, rows, claimed);
    }

    /** One poll: reap, claim, then process every claimed row. */
    method RunOnce(now: int, handler: (nat, nat) -> bool) returns (processed: nat)
      requires Valid() && state == Idle
      modifies this
      ensures Valid() && state == Idle && |rows| == |old(rows)| && processed <= batchSize
      ensures Limits(old(rows)) ==> Limits(rows) && Measure(rows) + processed <= Measure(old(rows))
      ensures NoneProcessing(old(rows)) ==> NoneProcessing(rows)
      ensures (Limits(old(rows)) && batchSize >= 1
               && SomethingToDo(old(rows), old(nextAttemptAt), old(updatedAt), now, now - staleAfter)) ==> processed > 0
      ensures batchSize >= 1 && AnyDue(old(rows), old(nextAttemptAt), now) ==> processed > 0
      ensures SameLost(old(rows), rows)
    {
      var claimed := Prepare(now);
      ProcessFirst(claimed, |claimed|, now, handler);
      assert claimed[|claimed|..] == [];
      processed := |claimed|;
    }

    /** The process dies, wherever it is: the rows it had claimed stay PROCESSING. */
    method Restart()
      requires Valid()
      modifies this
      ensures Valid() && state == Idle && rows == AfterCrash(old(rows), old(state))
      ensures nextAttemptAt == old(nextAttemptAt) && updatedAt == old(updatedAt)
    {
      LoneCrash(rows, state, steps);
      rows := AfterCrash(rows, state);
      state, steps := Idle, steps + [Action.Crash(0)];
    }

    /** Dies with claimed rows in hand, or between the return of a handler and the write of its outcome. */
    method Die(left: seq<Snapshot>, calling: bool, handler: (nat, nat) -> bool)
      requires Valid() && state == Continue(left)
      modifies this
      ensures Valid() && state == Idle && |rows| == |old(rows)|
      ensures forall k :: 0 <= k < |left| ==> IsProcessing(rows, left[k])
      ensures Limits(old(rows)) ==> Limits(rows)
      ensures Measure(rows) == Measure(old(rows))
      ensures Lost(rows) <= Lost(old(rows)) + if calling && left != [] then 1 else 0
    {
      if calling && left != [] {
        assert left == [left[0]] + left[1..];
        var ok := CallHandler(left[0], left[1..], handler);
        CallKeepsMeasure(old(rows), left[0].id, ok);
        SameLostTotal(old(rows), rows);
      }
      LoneHeld(rows, state, steps);
      assert Held(state) == left;
      CrashLosesOne(rows, state);
      Restart();
    }

    /**
     A poll that is killed after some rows, possibly between a handler's return and the
     write of its outcome: the rows it did not finish are left PROCESSING.
     */
    method RunKilled(now: int, handler: (nat, nat) -> bool, finished: nat, calling: bool) returns (left: seq<Snapshot>)
      requires Valid() && state == Idle
      modifies this
      ensures Valid() && state == Idle && |rows| == |old(rows)|
      ensures forall k :: 0 <= k < |left| ==> IsProcessing(rows, left[k])
      ensures Limits(old(rows)) ==> Limits(rows) && Measure(rows) <= Measure(old(rows))
      ensures Lost(rows) <= Lost(old(rows)) + if calling && left != [] then 1 else 0
    {
      var claimed := Prepare(now);
      var n := if finished <= |claimed| then finished else |claimed|;
      ProcessFirst(claimed, n, now, handler);
      SameLostTotal(old(rows), rows);
      left := claimed[n..];
      Die(left, calling, handler);
    }

    /** A time at which a poll has something to do with some open row. */
    method NextPoll() returns (now: int)
      requires Valid() && exists i :: 0 <= i < |rows| && Open(rows[i].status)
      ensures SomethingToDo(rows, nextAttemptAt, updatedAt, now, now - staleAfter)
    {
      var i :| 0 <= i < |rows| && Open(rows[i].status);
      now := if rows[i].status == Pending then nextAttemptAt[i] else updatedAt[i] + staleAfter + 1;
      assert IsDue(rows, nextAttemptAt, now, i) || IsStale(rows, updatedAt, now - staleAfter, i);
    }

    /**
     Polling whenever a row is due or stale closes every row, whatever dead workers
     left behind: each ends DONE or FAILED, handed to its handler at most its limit
     of times plus once for every result a crash had lost.
     */
    method Drain(handler: (nat, nat) -> bool)
      requires Valid() && state == Idle && Limits(rows) && batchSize >= 1
      modifies this
      ensures Valid() && state == Idle && |rows| == |old(rows)|
      ensures forall i :: 0 <= i < |rows| ==> rows[i].status == Done || rows[i].status == Failed
      ensures forall i :: 0 <= i < |rows| ==>
                && rows[i].dispatched <= rows[i].maxAttempts + rows[i].lost
                && (rows[i].status == Failed ==> rows[i].dispatched == rows[i].maxAttempts + rows[i].lost)
                && (rows[i].status == Done ==> rows[i].successes >= 1)
      ensures SameLost(old(rows), rows)
    {
      while exists i :: 0 <= i < |rows| && Open(rows[i].status)
        invariant Valid() && state == Idle && Limits(rows) && |rows| == |old(rows)| && SameLost(old(rows), rows)
        decreases Measure(rows)
      {
        NothingNegative(rows, steps);
        var now := NextPoll();
        var processed := RunOnce(now, handler);
      }
      Bounded(rows, steps);
    }

    /** Any number of killed polls, then polling on: every row closes, with at most one extra call per death in all. */
    method Outlive(deaths: seq<Death>, handler: (nat, nat) -> bool)
      requires Valid() && state == Idle && Limits(rows) && batchSize >= 1
      modifies this
      ensures Valid() && state == Idle && |rows| == |old(rows)|
      ensures forall i :: 0 <= i < |rows| ==>
                && (rows[i].status == Done || rows[i].status == Failed)
                && rows[i].dispatched <= rows[i].maxAttempts + Lost(old(rows)) + |deaths|
    {
      for k := 0 to |deaths|
        invariant Valid() && state == Idle && Limits(rows) && |rows| == |old(rows)|
        invariant Lost(rows) <= Lost(old(rows)) + k
      {
        var left := RunKilled(deaths[k].now, handler, deaths[k].finished, deaths[k].calling);
      }
      ghost var before := rows;
      Drain(handler);
      SameLostTotal(before, rows);
      forall i | 0 <= i < |rows| ensures rows[i].lost <= Lost(rows) {
        LostCovers(rows, i);
      }
    }
  }

  /** When a poll is killed, after how many rows, and whether a handler was just being called. */
  datatype Death = Death(now: int, finished: nat, calling: bool)
}
