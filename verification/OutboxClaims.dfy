/**
 When is a claimed row held by one worker only? The re-read cannot tell who
 flipped a row, so it depends on claims not overlapping and on the reaper
 leaving the rows of live workers alone.
 */
module OutboxClaims {
  import opened Outbox

  predicate InClaim(p: Worker) {
    p.Claiming? || p.Rereading?
  }

  predicate Holds(p: Worker, i: nat) {
    exists k :: 0 <= k < |Held(p)| && Held(p)[k].id == i
  }

  predicate HeldBySome(s: System, i: nat) {
    exists v :: 0 <= v < |s.workers| && Holds(s.workers[v], i)
  }

  predicate NoneLive(s: System, ids: set<nat>) {
    forall i :: i in ids && i < |s.rows| && s.rows[i].status == Processing ==> !HeldBySome(s, i)
  }

  /** A claim starts only while no other claim is under way, and the reaper only takes rows nobody works on. */
  predicate Orderly(s: System, a: Action) {
    match a
    case ClaimRead(w, _) => forall v :: 0 <= v < |s.workers| && v != w ==> !InClaim(s.workers[v])
    case Reclaim(w) => w < |s.workers| && s.workers[w].Reclaiming? ==> NoneLive(s, s.workers[w].reclaim)
    case Expire(w) => w < |s.workers| && s.workers[w].Expiring? ==> NoneLive(s, s.workers[w].exhausted)
    case _ => true
  }

  predicate OrderlyRun(s: System, actions: seq<Action>) {
    actions != [] ==>
      && OrderlyRun(s, actions[..|actions| - 1])
      && Orderly(Run(s, actions[..|actions| - 1]), actions[|actions| - 1])
  }

  /* -------------------------------- invariant ------------------------------- */

  /** What a worker holds are distinct rows, still as it read them. */
  predicate HeldFresh(rows: seq<Row>, p: Worker) {
    ListFresh(rows, Held(p), if p.Claiming? then Pending else Processing)
  }

  predicate ListFresh(rows: seq<Row>, held: seq<Snapshot>, status: Status) {
    && (forall k :: 0 <= k < |held| ==>
          && held[k].id < |rows|
          && rows[held[k].id].status == status
          && held[k].attempts == rows[held[k].id].attempts
          && held[k].maxAttempts == rows[held[k].id].maxAttempts)
    && (forall j, k :: 0 <= j < k < |held| ==> held[j].id != held[k].id)
  }

  ghost predicate Apart(p: Worker, q: Worker) {
    && (forall i :: !(Holds(p, i) && Holds(q, i)))
    && !(InClaim(p) && InClaim(q))
  }

  predicate InFlight(s: System, i: nat) {
    exists w :: 0 <= w < |s.workers| && s.workers[w].Finalising? && s.workers[w].row.id == i
  }

  function One(b: bool): int {
    if b then 1 else 0
  }

  predicate Balances(r: Row, inFlight: bool) {
    && r.dispatched == r.attempts + r.lost + One(r.status == Done) + One(inFlight)
    && (r.status == Done && r.maxAttempts >= 1 ==> r.attempts < r.maxAttempts)
  }

  /** Every handler call is a counted attempt, the success that closed the row, in flight, or lost to a crash. */
  predicate Accounted(s: System, i: nat)
    requires i < |s.rows|
  {
    Balances(s.rows[i], InFlight(s, i))
  }

  ghost predicate Exclusive(s: System) {
    && (forall w :: 0 <= w < |s.workers| ==> HeldFresh(s.rows, s.workers[w]))
    && (forall v, w :: 0 <= v < w < |s.workers| ==> Apart(s.workers[v], s.workers[w]))
  }

  predicate AllAccounted(s: System) {
    forall i :: 0 <= i < |s.rows| ==> Accounted(s, i)
  }

  /* --------------------------- one worker moves on --------------------------- */

  lemma Symmetric(p: Worker, q: Worker)
    ensures Apart(p, q) <==> Apart(q, p)
  {
  }

  lemma ApartFrom(s: System, w: nat, v: nat)
    requires Exclusive(s) && v < |s.workers| && w < |s.workers| && v != w
    ensures Apart(s.workers[v], s.workers[w])
  {
    if v < w {
    } else {
      Symmetric(s.workers[w], s.workers[v]);
    }
  }

  /** Worker w moved on; the rows the other workers hold are untouched. */
  lemma ExclusiveAfter(s: System, after: System, w: nat)
    requires Exclusive(s) && w < |s.workers| == |after.workers|
    requires after.workers == s.workers[w := after.workers[w]]
    requires HeldFresh(after.rows, after.workers[w])
    requires forall v :: 0 <= v < |s.workers| && v != w ==> Apart(s.workers[v], after.workers[w])
    requires forall v :: 0 <= v < |s.workers| && v != w ==> HeldFresh(after.rows, s.workers[v])
    ensures Exclusive(after)
  {
    forall v, u | 0 <= v < u < |after.workers| ensures Apart(after.workers[v], after.workers[u]) {
      if v == w {
        Symmetric(after.workers[w], s.workers[u]);
      }
    }
  }

  lemma OthersUntouched(s: System, after: System, w: nat)
    requires Exclusive(s) && w < |s.workers| && |s.rows| <= |after.rows|
    requires forall i :: 0 <= i < |s.rows| && after.rows[i] != s.rows[i] ==>
               Holds(s.workers[w], i) || !HeldBySome(s, i)
    ensures forall v :: 0 <= v < |s.workers| && v != w ==> HeldFresh(after.rows, s.workers[v])
  {
    forall v | 0 <= v < |s.workers| && v != w ensures HeldFresh(after.rows, s.workers[v]) {
      ApartFrom(s, w, v);
      forall k | 0 <= k < |Held(s.workers[v])|
        ensures after.rows[Held(s.workers[v])[k].id] == s.rows[Held(s.workers[v])[k].id]
      {
        assert Holds(s.workers[v], Held(s.workers[v])[k].id);
      }
    }
  }

  lemma SameFlights(s: System, after: System, w: nat, i: nat)
    requires w < |s.workers| == |after.workers| && after.workers == s.workers[w := after.workers[w]]
    requires (s.workers[w].Finalising? && s.workers[w].row.id == i)
             == (after.workers[w].Finalising? && after.workers[w].row.id == i)
    ensures InFlight(after, i) == InFlight(s, i)
  {
    if InFlight(s, i) {
      var v :| 0 <= v < |s.workers| && s.workers[v].Finalising? && s.workers[v].row.id == i;
      assert after.workers[v].Finalising? && after.workers[v].row.id == i;
    }
    if InFlight(after, i) {
      var v :| 0 <= v < |after.workers| && after.workers[v].Finalising? && after.workers[v].row.id == i;
      assert s.workers[v].Finalising? && s.workers[v].row.id == i;
    }
  }

  lemma HolderIsUnique(s: System, v: nat, w: nat, i: nat)
    requires Exclusive(s) && v < |s.workers| && w < |s.workers| && Holds(s.workers[w], i)
    requires s.workers[v].Finalising? && s.workers[v].row.id == i
    ensures v == w
  {
    assert Held(s.workers[v])[0].id == i;
    assert Holds(s.workers[v], i);
    if v != w {
      ApartFrom(s, v, w);
    }
  }

  /** In an exclusive state only the holder can have a row in flight. */
  lemma FlightIsHolder(s: System, w: nat, i: nat)
    requires Exclusive(s) && w < |s.workers| && Holds(s.workers[w], i)
    ensures InFlight(s, i) <==> s.workers[w].Finalising? && s.workers[w].row.id == i
  {
    forall v | 0 <= v < |s.workers| && s.workers[v].Finalising? && s.workers[v].row.id == i ensures v == w {
      HolderIsUnique(s, v, w, i);
    }
  }

  /* ---------------------------------- steps --------------------------------- */

  /** Rows nobody works on move, and the worker that moved them holds nothing. */
  lemma MoveExclusive(s: System, w: nat, ids: set<nat>, to: Status, q: Worker)
    requires Exclusive(s) && w < |s.workers| && NoneLive(s, ids) && Held(q) == [] && !InClaim(q)
    ensures Exclusive(System(Move(s.rows, ids, Processing, to), s.workers[w := q]))
  {
    var after := System(Move(s.rows, ids, Processing, to), s.workers[w := q]);
    OthersUntouched(s, after, w);
    ExclusiveAfter(s, after, w);
  }

  lemma QuietExclusive(s: System, w: nat, q: Worker)
    requires Exclusive(s) && w < |s.workers| && Held(q) == [] && !InClaim(q)
    ensures Exclusive(Set(s, w, q))
  {
    ExclusiveAfter(s, Set(s, w, q), w);
  }

  lemma ReapExclusive(s: System, w: nat, a: Action)
    requires Exclusive(s) && w < |s.workers|
    requires a.ReapRead? || a.Reclaim? || a.Expire?
    requires a.w == w && Orderly(s, a)
    ensures Exclusive(StepReap(s, w, a))
  {
    var p := s.workers[w];
    if StepReap(s, w, a) != s {
      match a
      case ReapRead(_, _) => QuietExclusive(s, w, StepReap(s, w, a).workers[w]);
      case Reclaim(_) => MoveExclusive(s, w, p.reclaim, Pending, Expiring(p.exhausted));
      case Expire(_) => MoveExclusive(s, w, p.exhausted, Failed, Reaped);
    }
  }

  lemma ReapOrderly(s: System, w: nat, a: Action)
    requires Exclusive(s) && AllAccounted(s) && w < |s.workers|
    requires a.ReapRead? || a.Reclaim? || a.Expire?
    requires a.w == w && Orderly(s, a)
    ensures Exclusive(StepReap(s, w, a)) && AllAccounted(StepReap(s, w, a))
  {
    var after := StepReap(s, w, a);
    ReapExclusive(s, w, a);
    if after != s {
      forall i | 0 <= i < |after.rows| ensures Accounted(after, i) {
        assert Accounted(s, i);
        SameFlights(s, after, w, i);
      }
    }
  }

  lemma {:induction false} RereadKeepsAll(rows: seq<Row>, due: seq<Snapshot>)
    requires forall k :: 0 <= k < |due| ==> IsProcessing(rows, due[k])
    ensures StillProcessing(rows, due) == due
  {
    if due != [] {
      RereadKeepsAll(rows, due[..|due| - 1]);
    }
  }

  lemma NewlyRead(rows: seq<Row>, p: Worker, q: Worker, ids: seq<nat>)
    requires HeldFresh(rows, p) && !InClaim(p) && Due(rows, ids)
    requires q == if ids == [] then Idle else Claiming(Read(rows, ids))
    ensures Apart(p, q)
  {
    forall i: nat | Holds(q, i) ensures !Holds(p, i) {
      var k :| 0 <= k < |Held(q)| && Held(q)[k].id == i;
      assert ids[k] == i && rows[i].status == Pending;
    }
  }

  lemma ClaimReadOrderly(s: System, w: nat, ids: seq<nat>)
    requires Exclusive(s) && w < |s.workers| && Orderly(s, ClaimRead(w, ids))
    ensures Exclusive(StepClaim(s, w, ClaimRead(w, ids)))
  {
    var after := StepClaim(s, w, ClaimRead(w, ids));
    if s.workers[w].Reaped? && Due(s.rows, ids) {
      forall v | 0 <= v < |s.workers| && v != w ensures Apart(s.workers[v], after.workers[w]) {
        NewlyRead(s.rows, s.workers[v], after.workers[w], ids);
      }
      ExclusiveAfter(s, after, w);
    }
  }

  predicate HoldsNoMore(p: Worker, q: Worker) {
    forall k :: 0 <= k < |Held(q)| ==> Held(q)[k] in Held(p)
  }

  lemma NoMoreIds(p: Worker, q: Worker, i: nat)
    requires HoldsNoMore(p, q) && Holds(q, i)
    ensures Holds(p, i)
  {
    var k :| 0 <= k < |Held(q)| && Held(q)[k].id == i;
    var j :| 0 <= j < |Held(p)| && Held(p)[j] == Held(q)[k];
    assert Held(p)[j].id == i;
  }

  /** Taking up no more rows than before keeps a worker apart from the others. */
  lemma StaysApart(s: System, w: nat, q: Worker)
    requires Exclusive(s) && w < |s.workers|
    requires InClaim(q) ==> InClaim(s.workers[w])
    requires HoldsNoMore(s.workers[w], q)
    ensures forall v :: 0 <= v < |s.workers| && v != w ==> Apart(s.workers[v], q)
  {
    forall v | 0 <= v < |s.workers| && v != w ensures Apart(s.workers[v], q) {
      ApartFrom(s, w, v);
      forall i | Holds(q, i) ensures Holds(s.workers[w], i) {
        NoMoreIds(s.workers[w], q, i);
      }
    }
  }

  lemma FlipOrderly(s: System, w: nat)
    requires Exclusive(s) && w < |s.workers|
    ensures Exclusive(StepClaim(s, w, Flip(w)))
  {
    var p := s.workers[w];
    var after := StepClaim(s, w, Flip(w));
    if p.Claiming? {
      assert HeldFresh(s.rows, p);
      forall i | 0 <= i < |s.rows| && after.rows[i] != s.rows[i] ensures Holds(p, i) {
        var t :| t in p.due && t.id == i;
        var k :| 0 <= k < |p.due| && p.due[k] == t;
        assert Held(p)[k].id == i;
      }
      OthersUntouched(s, after, w);
      forall k | 0 <= k < |p.due| ensures p.due[k].id in Ids(p.due) {
      }
      StaysApart(s, w, after.workers[w]);
      ExclusiveAfter(s, after, w);
    }
  }

  /** A re-read of rows nobody else touched hands back exactly the candidates. */
  lemma RereadFinds(rows: seq<Row>, due: seq<Snapshot>)
    requires ListFresh(rows, due, Processing)
    ensures StillProcessing(rows, due) == due
  {
    RereadKeepsAll(rows, due);
  }

  lemma QueueFresh(rows: seq<Row>, due: seq<Snapshot>)
    requires ListFresh(rows, due, Processing)
    ensures Held(Continue(due)) == due && HeldFresh(rows, Continue(due))
  {
  }

  lemma RereadGives(s: System, w: nat, taken: seq<Snapshot>)
    requires w < |s.workers| && s.workers[w].Rereading? && StillProcessing(s.rows, s.workers[w].due) == taken
    ensures StepClaim(s, w, Reread(w)) == Set(s, w, Continue(taken))
  {
  }

  lemma RereadStep(s: System, w: nat)
    requires w < |s.workers| && s.workers[w].Rereading? && HeldFresh(s.rows, s.workers[w])
    ensures StepClaim(s, w, Reread(w)) == Set(s, w, Continue(s.workers[w].due))
  {
    RereadFinds(s.rows, s.workers[w].due);
    RereadGives(s, w, s.workers[w].due);
  }

  lemma QueueOrderly(s: System, w: nat, q: Worker)
    requires Exclusive(s) && w < |s.workers|
    requires HeldFresh(s.rows, q) && Held(q) == Held(s.workers[w]) && !InClaim(q)
    ensures Exclusive(Set(s, w, q))
  {
    StaysApart(s, w, q);
    ExclusiveAfter(s, Set(s, w, q), w);
  }

  /** Under the discipline the re-read finds exactly the rows this worker flipped. */
  lemma RereadOrderly(s: System, w: nat)
    requires Exclusive(s) && w < |s.workers|
    ensures Exclusive(StepClaim(s, w, Reread(w)))
    ensures s.workers[w].Rereading? ==> StepClaim(s, w, Reread(w)).workers[w] == Continue(s.workers[w].due)
  {
    if s.workers[w].Rereading? {
      RereadStep(s, w);
      QueueFresh(s.rows, s.workers[w].due);
      QueueOrderly(s, w, Continue(s.workers[w].due));
    }
  }

  lemma ClaimOrderly(s: System, w: nat, a: Action)
    requires Exclusive(s) && AllAccounted(s) && w < |s.workers|
    requires a.ClaimRead? || a.Flip? || a.Reread?
    requires a.w == w && Orderly(s, a)
    ensures Exclusive(StepClaim(s, w, a)) && AllAccounted(StepClaim(s, w, a))
  {
    var after := StepClaim(s, w, a);
    match a {
      case ClaimRead(_, ids) => ClaimReadOrderly(s, w, ids);
      case Flip(_) => FlipOrderly(s, w);
      case Reread(_) => RereadOrderly(s, w);
    }
    forall i | 0 <= i < |after.rows| ensures Accounted(after, i) {
      assert Accounted(s, i);
      SameFlights(s, after, w, i);
    }
  }

  /** One held row is rewritten and its holder moves on. */
  lemma HolderStep(s: System, w: nat, i: nat, r: Row, q: Worker)
    requires Exclusive(s) && AllAccounted(s) && w < |s.workers| && i < |s.rows|
    requires Holds(s.workers[w], i) && !InClaim(q)
    requires HeldFresh(s.rows[i := r], q) && HoldsNoMore(s.workers[w], q)
    requires s.workers[w].Finalising? ==> s.workers[w].row.id == i
    requires q.Finalising? ==> q.row.id == i
    requires Balances(s.rows[i], s.workers[w].Finalising?) ==> Balances(r, q.Finalising?)
    ensures var after := System(s.rows[i := r], s.workers[w := q]); Exclusive(after) && AllAccounted(after)
  {
    var after := System(s.rows[i := r], s.workers[w := q]);
    HolderExclusive(s, w, i, r, q);
    forall j | 0 <= j < |after.rows| ensures Accounted(after, j) {
      assert Accounted(s, j);
      if j == i {
        FlightIsHolder(s, w, i);
        FlightAfter(s, after, w, i);
      } else {
        SameFlights(s, after, w, j);
      }
    }
  }

  lemma HolderExclusive(s: System, w: nat, i: nat, r: Row, q: Worker)
    requires Exclusive(s) && w < |s.workers| && i < |s.rows|
    requires Holds(s.workers[w], i) && !InClaim(q)
    requires HeldFresh(s.rows[i := r], q) && HoldsNoMore(s.workers[w], q)
    ensures Exclusive(System(s.rows[i := r], s.workers[w := q]))
  {
    var after := System(s.rows[i := r], s.workers[w := q]);
    OthersUntouched(s, after, w);
    StaysApart(s, w, q);
    ExclusiveAfter(s, after, w);
  }

  lemma FlightAfter(s: System, after: System, w: nat, i: nat)
    requires Exclusive(s) && w < |s.workers| == |after.workers|
    requires after.workers == s.workers[w := after.workers[w]] && Holds(s.workers[w], i)
    ensures InFlight(after, i) <==> after.workers[w].Finalising? && after.workers[w].row.id == i
  {
    forall v | 0 <= v < |s.workers| && s.workers[v].Finalising? && s.workers[v].row.id == i ensures v == w {
      HolderIsUnique(s, v, w, i);
    }
  }

  /** Counting on a held row does not change what was read of it. */
  lemma SameHeldFresh(rows: seq<Row>, p: Worker, q: Worker, i: nat, r: Row)
    requires HeldFresh(rows, p) && Held(q) == Held(p) && !p.Claiming? && !q.Claiming? && i < |rows|
    requires r.status == rows[i].status && r.attempts == rows[i].attempts && r.maxAttempts == rows[i].maxAttempts
    ensures HeldFresh(rows[i := r], q)
  {
  }

  lemma CallBalances(r: Row, ok: bool)
    requires r.status == Processing && Balances(r, false)
    ensures Balances(Called(r, ok), true)
  {
  }

  lemma WriteBalances(r: Row, t: Snapshot, ok: bool)
    requires r.status == Processing && t.attempts == r.attempts && t.maxAttempts == r.maxAttempts
    requires Balances(r, true) && RowSafe(r)
    ensures Balances(Written(r, t, ok), false)
  {
  }

  /** Calling the handler holds the same rows as before. */
  lemma DispatchHolds(rows: seq<Row>, p: Worker, ok: bool)
    requires p.Working? && p.queue != [] && HeldFresh(rows, p)
    ensures var i, q := p.queue[0].id, Finalising(p.queue[0], ok, p.queue[1..]);
      && i < |rows| && rows[i].status == Processing && Holds(p, i)
      && HeldFresh(rows[i := Called(rows[i], ok)], q) && HoldsNoMore(p, q)
  {
    var i, q := p.queue[0].id, Finalising(p.queue[0], ok, p.queue[1..]);
    assert Held(p)[0].id == i;
    assert Held(q) == Held(p);
    SameHeldFresh(rows, p, q, i, Called(rows[i], ok));
  }

  lemma DispatchOrderly(s: System, w: nat, ok: bool)
    requires Exclusive(s) && AllAccounted(s) && w < |s.workers|
    ensures var after := StepProcess(s, w, Dispatch(w, ok)); Exclusive(after) && AllAccounted(after)
  {
    var p := s.workers[w];
    if p.Working? && p.queue != [] && p.queue[0].id < |s.rows| {
      var i := p.queue[0].id;
      DispatchHolds(s.rows, p, ok);
      if Balances(s.rows[i], false) {
        CallBalances(s.rows[i], ok);
      }
      HolderStep(s, w, i, Called(s.rows[i], ok), Finalising(p.queue[0], ok, p.queue[1..]));
    }
  }

  lemma ThrowHolds(rows: seq<Row>, p: Worker)
    requires p.Finalising? && HeldFresh(rows, p)
    ensures p.row.id < |rows| && Holds(p, p.row.id)
    ensures HeldFresh(rows[p.row.id := Thrown(rows[p.row.id])], p.(ok := false)) && HoldsNoMore(p, p.(ok := false))
  {
    assert Held(p)[0].id == p.row.id;
    assert Held(p.(ok := false)) == Held(p);
    SameHeldFresh(rows, p, p.(ok := false), p.row.id, Thrown(rows[p.row.id]));
  }

  lemma WriteThrowsOrderly(s: System, w: nat)
    requires Exclusive(s) && AllAccounted(s) && w < |s.workers|
    ensures var after := StepProcess(s, w, WriteThrows(w)); Exclusive(after) && AllAccounted(after)
  {
    var p := s.workers[w];
    if p.Finalising? && p.ok && p.row.id < |s.rows| {
      ThrowHolds(s.rows, p);
      HolderStep(s, w, p.row.id, Thrown(s.rows[p.row.id]), p.(ok := false));
    }
  }

  /** Writing the outcome lets go of the row and keeps the rest of the queue. */
  lemma WriteHolds(rows: seq<Row>, p: Worker, r: Row)
    requires p.Finalising? && HeldFresh(rows, p)
    ensures var i := p.row.id;
      && i < |rows| && Holds(p, i) && rows[i].status == Processing
      && p.row.attempts == rows[i].attempts && p.row.maxAttempts == rows[i].maxAttempts
      && HeldFresh(rows[i := r], Continue(p.rest)) && HoldsNoMore(p, Continue(p.rest))
  {
    assert Held(p)[0] == p.row;
    RestFresh(rows, p, r);
    RestHeld(p);
  }

  lemma RestFresh(rows: seq<Row>, p: Worker, r: Row)
    requires p.Finalising? && HeldFresh(rows, p)
    ensures p.row.id < |rows| && HeldFresh(rows[p.row.id := r], Continue(p.rest))
  {
    assert Held(Continue(p.rest)) == p.rest;
    TailFresh(rows, p.row, p.rest, r);
  }

  /** Rewriting the first row of a list leaves the rest as it was read. */
  lemma TailFresh(rows: seq<Row>, row: Snapshot, rest: seq<Snapshot>, r: Row)
    requires ListFresh(rows, [row] + rest, Processing)
    ensures row.id < |rows| && ListFresh(rows[row.id := r], rest, Processing)
  {
    var all := [row] + rest;
    assert all[0] == row;
    assert forall k :: 0 <= k < |rest| ==> rest[k] == all[k + 1];
  }

  lemma RestHeld(p: Worker)
    requires p.Finalising?
    ensures HoldsNoMore(p, Continue(p.rest))
  {
    assert Held(Continue(p.rest)) == p.rest;
    forall k | 0 <= k < |p.rest| ensures p.rest[k] in Held(p) {
      assert Held(p)[k + 1] == p.rest[k];
    }
  }

  lemma FinaliseOrderly(s: System, w: nat)
    requires Exclusive(s) && AllAccounted(s) && w < |s.workers|
    requires forall i :: 0 <= i < |s.rows| ==> RowSafe(s.rows[i])
    ensures var after := StepProcess(s, w, Finalise(w)); Exclusive(after) && AllAccounted(after)
  {
    var p := s.workers[w];
    if p.Finalising? && p.row.id < |s.rows| {
      var i := p.row.id;
      var r := Written(s.rows[i], p.row, p.ok);
      WriteHolds(s.rows, p, r);
      if Balances(s.rows[i], true) {
        WriteBalances(s.rows[i], p.row, p.ok);
      }
      HolderStep(s, w, i, r, Continue(p.rest));
    }
  }

  lemma CrashHolds(rows: seq<Row>, p: Worker, r: Row)
    requires p.Finalising? && p.row.id < |rows|
    ensures Holds(p, p.row.id) && HeldFresh(rows[p.row.id := r], Idle) && HoldsNoMore(p, Idle)
  {
    assert Held(p)[0].id == p.row.id;
  }

  lemma CrashOrderly(s: System, w: nat)
    requires Exclusive(s) && AllAccounted(s) && w < |s.workers|
    ensures var after := StepProcess(s, w, Crash(w)); Exclusive(after) && AllAccounted(after)
  {
    var p := s.workers[w];
    if p.Finalising? && p.row.id < |s.rows| {
      CrashHolds(s.rows, p, ResultLost(s.rows[p.row.id]));
      HolderStep(s, w, p.row.id, ResultLost(s.rows[p.row.id]), Idle);
    } else {
      IdleOrderly(s, StepProcess(s, w, Crash(w)), w);
    }
  }

  lemma IdleOrderly(s: System, after: System, w: nat)
    requires Exclusive(s) && AllAccounted(s) && w < |s.workers| && after == Set(s, w, Idle)
    requires !(s.workers[w].Finalising? && s.workers[w].row.id < |s.rows|)
    ensures Exclusive(after) && AllAccounted(after)
  {
    ExclusiveAfter(s, after, w);
    forall i | 0 <= i < |after.rows| ensures Accounted(after, i) {
      assert Accounted(s, i);
      SameFlights(s, after, w, i);
    }
  }

  lemma StepOrderly(s: System, a: Action)
    requires Safe(s) && Exclusive(s) && AllAccounted(s) && Orderly(s, a)
    ensures Exclusive(Next(s, a)) && AllAccounted(Next(s, a))
  {
    if a.Enqueue? {
      EnqueueOrderly(s, a.maxAttempts);
    } else if a.w < |s.workers| {
      if a.ReapRead? || a.Reclaim? || a.Expire? {
        ReapOrderly(s, a.w, a);
      } else if a.ClaimRead? || a.Flip? || a.Reread? {
        ClaimOrderly(s, a.w, a);
      } else if a.Dispatch? {
        DispatchOrderly(s, a.w, a.ok);
      } else if a.WriteThrows? {
        WriteThrowsOrderly(s, a.w);
      } else if a.Finalise? {
        FinaliseOrderly(s, a.w);
      } else {
        CrashOrderly(s, a.w);
      }
    }
  }

  lemma EnqueueOrderly(s: System, maxAttempts: int)
    requires Exclusive(s) && AllAccounted(s)
    ensures var after := Next(s, Enqueue(maxAttempts)); Exclusive(after) && AllAccounted(after)
  {
    var after := Next(s, Enqueue(maxAttempts));
    forall w | 0 <= w < |s.workers| ensures HeldFresh(after.rows, s.workers[w]) {
      assert HeldFresh(s.rows, s.workers[w]);
    }
    forall i | 0 <= i < |after.rows| ensures Accounted(after, i) {
      if i < |s.rows| {
        assert Accounted(s, i);
        assert InFlight(after, i) == InFlight(s, i);
      } else {
        forall w | 0 <= w < |s.workers| && s.workers[w].Finalising? ensures s.workers[w].row.id != i {
          assert HeldFresh(s.rows, s.workers[w]);
          assert Held(s.workers[w])[0].id < |s.rows|;
        }
      }
    }
  }

  /**
   When claims do not overlap and no live row is reaped, no row is ever held
   twice, and a row is handed to its handler at most maxAttempts times plus once
   for every result a crash lost; a FAILED row was tried exactly that often.
   */
  lemma {:induction false} OrderlyRunsAreExclusive(workers: nat, actions: seq<Action>)
    requires OrderlyRun(Start(workers), actions)
    ensures Exclusive(Run(Start(workers), actions)) && AllAccounted(Run(Start(workers), actions))
  {
    if actions != [] {
      OrderlyRunsAreExclusive(workers, actions[..|actions| - 1]);
      EveryInterleavingSafe(workers, actions[..|actions| - 1]);
      StepOrderly(Run(Start(workers), actions[..|actions| - 1]), actions[|actions| - 1]);
    }
  }

  lemma BoundedHere(s: System, i: nat)
    requires Safe(s) && Exclusive(s) && AllAccounted(s) && i < |s.rows| && s.rows[i].maxAttempts >= 1
    ensures var r := s.rows[i];
      && r.dispatched <= r.maxAttempts + r.lost
      && (r.status == Failed && !InFlight(s, i) ==> r.dispatched == r.maxAttempts + r.lost)
  {
    assert Accounted(s, i) && RowSafe(s.rows[i]);
    if w :| 0 <= w < |s.workers| && s.workers[w].Finalising? && s.workers[w].row.id == i {
      assert HeldFresh(s.rows, s.workers[w]);
      assert Held(s.workers[w])[0].id == i;
    }
  }

  lemma DispatchesBounded(workers: nat, actions: seq<Action>, i: nat)
    requires OrderlyRun(Start(workers), actions) && i < |Run(Start(workers), actions).rows|
    requires Run(Start(workers), actions).rows[i].maxAttempts >= 1
    ensures var r := Run(Start(workers), actions).rows[i];
      && r.dispatched <= r.maxAttempts + r.lost
      && (r.status == Failed && !InFlight(Run(Start(workers), actions), i) ==> r.dispatched == r.maxAttempts + r.lost)
  {
    OrderlyRunsAreExclusive(workers, actions);
    EveryInterleavingSafe(workers, actions);
    BoundedHere(Run(Start(workers), actions), i);
  }

  /* --------------------------- overlapping claims --------------------------- */

  /** The rows a worker will hand to their handlers. */
  predicate Works(p: Worker, i: nat) {
    (p.Working? || p.Finalising?) && Holds(p, i)
  }

  ghost predicate NoSharing(s: System) {
    forall v, u, i :: 0 <= v < u < |s.workers| ==> !(Works(s.workers[v], i) && Works(s.workers[u], i))
  }

  /** A re-read that finds one of its candidates PROCESSING in another worker's hands. */
  predicate ContendedReread(s: System, a: Action) {
    a.Reread? && a.w < |s.workers| && s.workers[a.w].Rereading?
    && exists v, k :: 0 <= v < |s.workers| && v != a.w && 0 <= k < |s.workers[a.w].due|
                      && IsProcessing(s.rows, s.workers[a.w].due[k]) && Works(s.workers[v], s.workers[a.w].due[k].id)
  }

  /** Only a re-read gives a worker rows it did not work on before. */
  lemma WorksNoMore(s: System, a: Action, v: nat, i: nat)
    requires v < |s.workers| == |Next(s, a).workers| && !a.Reread? && Works(Next(s, a).workers[v], i)
    ensures Works(s.workers[v], i)
  {
    var p, q := s.workers[v], Next(s, a).workers[v];
    var k :| 0 <= k < |Held(q)| && Held(q)[k].id == i;
    if p != q {
      if a.Dispatch? {
        assert Held(q) == Held(p);
        assert Held(p)[k].id == i;
      } else if a.WriteThrows? {
        assert Held(p)[k].id == i;
      } else {
        assert a.Finalise? && Held(q) == p.rest;
        assert Held(p)[k + 1].id == i;
      }
    }
  }

  /** A re-read takes exactly its candidates that are PROCESSING. */
  lemma RereadTakes(s: System, w: nat, i: nat)
    requires w < |s.workers| && s.workers[w].Rereading?
    ensures var due := s.workers[w].due;
      Works(Next(s, Reread(w)).workers[w], i)
      <==> exists k :: 0 <= k < |due| && due[k].id == i && IsProcessing(s.rows, due[k])
  {
    var due := s.workers[w].due;
    var taken := StillProcessing(s.rows, due);
    StillProcessingIsPart(s.rows, due);
    if k :| 0 <= k < |due| && due[k].id == i && IsProcessing(s.rows, due[k]) {
      assert due[k] in taken;
      var j :| 0 <= j < |taken| && taken[j] == due[k];
      assert Held(Continue(taken))[j].id == i;
    }
    if Works(Continue(taken), i) {
      var j :| 0 <= j < |taken| && taken[j].id == i;
      assert taken[j] in due;
    }
  }

  lemma RereadSharesExactly(s: System, w: nat)
    requires NoSharing(s) && w < |s.workers| && s.workers[w].Rereading?
    ensures NoSharing(Next(s, Reread(w))) <==> !ContendedReread(s, Reread(w))
  {
    var due := s.workers[w].due;
    var after := Next(s, Reread(w));
    assert forall v :: 0 <= v < |s.workers| && v != w ==> after.workers[v] == s.workers[v];
    if ContendedReread(s, Reread(w)) {
      var v, k :| 0 <= v < |s.workers| && v != w && 0 <= k < |due|
                  && IsProcessing(s.rows, due[k]) && Works(s.workers[v], due[k].id);
      RereadTakes(s, w, due[k].id);
      assert Works(after.workers[w], due[k].id) && Works(after.workers[v], due[k].id);
    } else {
      forall v, i: nat | 0 <= v < |s.workers| && v != w ensures !(Works(s.workers[v], i) && Works(after.workers[w], i)) {
        RereadTakes(s, w, i);
      }
    }
  }

  /**
   Whatever the other workers are in the middle of: a step makes two workers handle
   one row if and only if it is a re-read that finds a row another worker has.
   */
  lemma StepSharesExactly(s: System, a: Action)
    requires NoSharing(s)
    ensures NoSharing(Next(s, a)) <==> !ContendedReread(s, a)
  {
    if a.Reread? {
      if a.w < |s.workers| && s.workers[a.w].Rereading? {
        RereadSharesExactly(s, a.w);
      }
    } else {
      forall v, i: nat | 0 <= v < |s.workers| && Works(Next(s, a).workers[v], i) ensures Works(s.workers[v], i) {
        WorksNoMore(s, a, v, i);
      }
    }
  }

  /** No two workers ever handle the same row in the first n steps. */
  ghost predicate NeverShares(workers: nat, actions: seq<Action>, n: nat)
    requires n <= |actions|
  {
    forall k :: 0 <= k <= n ==> NoSharing(Run(Start(workers), actions[..k]))
  }

  predicate NeverContends(workers: nat, actions: seq<Action>, n: nat)
    requires n <= |actions|
  {
    forall k :: 0 <= k < n ==> !ContendedReread(Run(Start(workers), actions[..k]), actions[k])
  }

  lemma StepAt(workers: nat, actions: seq<Action>, k: nat)
    requires k < |actions|
    ensures Run(Start(workers), actions[..k + 1]) == Next(Run(Start(workers), actions[..k]), actions[k])
  {
    assert actions[..k + 1][..k] == actions[..k];
  }

  /**
   Over every interleaving of any number of workers, crashes and reaps: no row is
   ever handled by two workers if and only if no re-read is ever contended.
   */
  lemma {:induction false} RunSharesExactly(workers: nat, actions: seq<Action>, n: nat)
    requires n <= |actions|
    ensures NeverShares(workers, actions, n) <==> NeverContends(workers, actions, n)
  {
    if n == 0 {
      assert actions[..0] == [];
    } else {
      RunSharesExactly(workers, actions, n - 1);
      StepAt(workers, actions, n - 1);
      var s := Run(Start(workers), actions[..n - 1]);
      if NoSharing(s) {
        StepSharesExactly(s, actions[n - 1]);
      }
      assert NeverShares(workers, actions, n) ==> NoSharing(s) && NeverShares(workers, actions, n - 1);
      assert NeverContends(workers, actions, n) <==>
             NeverContends(workers, actions, n - 1) && !ContendedReread(s, actions[n - 1]);
    }
  }

  /** Orderly runs are among those whose re-reads are never contended. */
  lemma {:induction false} OrderlyNeverContends(workers: nat, actions: seq<Action>)
    requires OrderlyRun(Start(workers), actions)
    ensures NeverContends(workers, actions, |actions|)
  {
    forall k: nat | k <= |actions| ensures NoSharing(Run(Start(workers), actions[..k])) {
      OrderlyPrefixShares(workers, actions, k);
    }
    RunSharesExactly(workers, actions, |actions|);
  }

  lemma ExclusiveNoSharing(s: System)
    requires Exclusive(s)
    ensures NoSharing(s)
  {
    forall v, u, i: nat | 0 <= v < u < |s.workers| ensures !(Works(s.workers[v], i) && Works(s.workers[u], i)) {
      assert Apart(s.workers[v], s.workers[u]);
    }
  }

  lemma OrderlyPrefixShares(workers: nat, actions: seq<Action>, k: nat)
    requires OrderlyRun(Start(workers), actions) && k <= |actions|
    ensures NoSharing(Run(Start(workers), actions[..k]))
  {
    PrefixOrderly(workers, actions, k);
    OrderlyRunsAreExclusive(workers, actions[..k]);
    ExclusiveNoSharing(Run(Start(workers), actions[..k]));
  }

  lemma {:induction false} PrefixOrderly(workers: nat, actions: seq<Action>, k: nat)
    requires OrderlyRun(Start(workers), actions) && k <= |actions|
    ensures OrderlyRun(Start(workers), actions[..k])
  {
    if k == |actions| {
      assert actions[..k] == actions;
    } else {
      PrefixOrderly(workers, actions[..|actions| - 1], k);
      assert actions[..|actions| - 1][..k] == actions[..k];
    }
  }

  /** Some candidate that the claim will take is already worked on by another worker. */
  predicate Contended(s: System, w: nat, due: seq<Snapshot>) {
    exists v, k :: 0 <= v < |s.workers| && v != w && 0 <= k < |due| && due[k].id < |s.rows|
                   && Open(s.rows[due[k].id].status) && Works(s.workers[v], due[k].id)
  }

  function ClaimNow(s: System, w: nat): System
    requires w < |s.workers|
  {
    StepClaim(StepClaim(s, w, Flip(w)), w, Reread(w))
  }

  /** A claim takes the candidates that are open when it flips, provided it flips at least one. */
  lemma ClaimTakes(s: System, w: nat, i: nat)
    requires w < |s.workers| && s.workers[w].Claiming?
    ensures var due := s.workers[w].due;
      Works(ClaimNow(s, w).workers[w], i)
      <==> AnyPending(s.rows, due) && i < |s.rows| && Open(s.rows[i].status) && i in Ids(due)
  {
    var due := s.workers[w].due;
    var flipped := StepClaim(s, w, Flip(w));
    StillProcessingIsPart(flipped.rows, due);
    var taken := StillProcessing(flipped.rows, due);
    if AnyPending(s.rows, due) {
      assert ClaimNow(s, w).workers[w] == Continue(taken);
      if i < |s.rows| && Open(s.rows[i].status) && i in Ids(due) {
        var t :| t in due && t.id == i;
        assert t in taken;
        var k :| 0 <= k < |taken| && taken[k] == t;
        assert Held(Continue(taken))[k].id == i;
      }
      if Works(Continue(taken), i) {
        var k :| 0 <= k < |taken| && taken[k].id == i;
        assert taken[k] in due && IsProcessing(flipped.rows, taken[k]);
      }
    }
  }

  /**
   Flipping and re-reading without interruption keeps every row with one worker
   if and only if it flips nothing or meets no candidate another worker has.
   */
  lemma ClaimSharesExactly(s: System, w: nat)
    requires w < |s.workers| && s.workers[w].Claiming? && NoSharing(s)
    ensures NoSharing(ClaimNow(s, w))
            <==> !AnyPending(s.rows, s.workers[w].due) || !Contended(s, w, s.workers[w].due)
  {
    var due := s.workers[w].due;
    var after := ClaimNow(s, w);
    assert forall v :: 0 <= v < |s.workers| && v != w ==> after.workers[v] == s.workers[v];
    if AnyPending(s.rows, due) && Contended(s, w, due) {
      var v, k :| 0 <= v < |s.workers| && v != w && 0 <= k < |due| && due[k].id < |s.rows|
                  && Open(s.rows[due[k].id].status) && Works(s.workers[v], due[k].id);
      assert due[k].id in Ids(due);
      ClaimTakes(s, w, due[k].id);
      assert Works(after.workers[w], due[k].id) && Works(after.workers[v], due[k].id);
    } else {
      forall v, i: nat | 0 <= v < |s.workers| && v != w ensures !(Works(s.workers[v], i) && Works(after.workers[w], i)) {
        ClaimTakes(s, w, i);
        if Works(after.workers[w], i) {
          var t :| t in due && t.id == i;
          var k :| 0 <= k < |due| && due[k] == t;
        }
      }
    }
  }

  lemma RunSnoc(s: System, actions: seq<Action>, a: Action)
    ensures Run(s, actions + [a]) == Next(Run(s, actions), a)
  {
    assert (actions + [a])[..|actions|] == actions;
  }

  lemma {:induction false} RunConcat(s: System, first: seq<Action>, rest: seq<Action>)
    ensures Run(s, first + rest) == Run(Run(s, first), rest)
  {
    if rest == [] {
      assert first + rest == first;
    } else {
      var n := |rest| - 1;
      RunConcat(s, first, rest[..n]);
      RunSnoc(s, first + rest[..n], rest[n]);
      assert first + rest == first + rest[..n] + [rest[n]];
    }
  }

  lemma RunOne(s: System, a: Action)
    ensures Run(s, [a]) == Next(s, a)
  {
    assert [a][..0] == [];
  }

  lemma {:induction false} RunFirst(s: System, a: Action, rest: seq<Action>)
    ensures Run(s, [a] + rest) == Run(Next(s, a), rest)
  {
    RunConcat(s, [a], rest);
    RunOne(s, a);
  }

  function ReapNothing(w: nat): seq<Action> {
    [ReapRead(w, {})] + ([Reclaim(w)] + [Expire(w)])
  }

  lemma ReapingNothing(s: System, w: nat)
    requires w < |s.workers| && s.workers[w].Idle?
    ensures Run(s, ReapNothing(w)) == Set(s, w, Reaped)
  {
    RunFirst(s, ReapRead(w, {}), [Reclaim(w)] + [Expire(w)]);
    var s1 := Set(s, w, Reclaiming({}, {}));
    assert Next(s, ReapRead(w, {})).workers[w].reclaim == {} == Next(s, ReapRead(w, {})).workers[w].exhausted;
    assert Next(s, ReapRead(w, {})) == s1;
    RunFirst(s1, Reclaim(w), [Expire(w)]);
    var s2 := Set(s, w, Expiring({}));
    assert Move(s.rows, {}, Processing, Pending) == s.rows;
    assert Next(s1, Reclaim(w)) == s2;
    RunOne(s2, Expire(w));
    assert Move(s.rows, {}, Processing, Failed) == s.rows;
  }

  function OverlapRun(): seq<Action> {
    [Enqueue(5)] + (ReapNothing(0) + ([ClaimRead(0, [0])] + ([Enqueue(5)] + (ReapNothing(1) + OverlapTail()))))
  }

  function OverlapTail(): seq<Action> {
    [ClaimRead(1, [0, 1])] + ([Flip(0)] + ([Flip(1)] + ([Reread(0)] + [Reread(1)])))
  }

  /** Two rows of limit five, and two workers. */
  function Two(first: Status, second: Status, w0: Worker, w1: Worker): System {
    System([NewRow(5).(status := first), NewRow(5).(status := second)], [w0, w1])
  }

  function A(): Snapshot {
    Snapshot(0, 0, 5)
  }

  function B(): Snapshot {
    Snapshot(1, 0, 5)
  }

  lemma SecondReads()
    ensures Next(Two(Pending, Pending, Claiming([A()]), Reaped), ClaimRead(1, [0, 1]))
            == Two(Pending, Pending, Claiming([A()]), Claiming([A(), B()]))
  {
    var s := Two(Pending, Pending, Claiming([A()]), Reaped);
    assert Due(s.rows, [0, 1]);
    assert Read(s.rows, [0, 1]) == [A(), B()];
  }

  lemma FirstFlips()
    ensures Next(Two(Pending, Pending, Claiming([A()]), Claiming([A(), B()])), Flip(0))
            == Two(Processing, Pending, Rereading([A()]), Claiming([A(), B()]))
  {
    var s := Two(Pending, Pending, Claiming([A()]), Claiming([A(), B()]));
    assert A() in [A()] && Ids([A()]) == {0};
    assert [A()][0].id == 0 && AnyPending(s.rows, [A()]);
  }

  lemma SecondFlips()
    ensures Next(Two(Processing, Pending, Rereading([A()]), Claiming([A(), B()])), Flip(1))
            == Two(Processing, Processing, Rereading([A()]), Rereading([A(), B()]))
  {
    var s := Two(Processing, Pending, Rereading([A()]), Claiming([A(), B()]));
    assert B() in [A(), B()] && A() in [A(), B()] && Ids([A(), B()]) == {0, 1};
    assert [A(), B()][1].id == 1 && AnyPending(s.rows, [A(), B()]);
  }

  lemma RereadAll(s: System, w: nat)
    requires w < |s.workers| && s.workers[w].Rereading?
    requires forall k :: 0 <= k < |s.workers[w].due| ==> IsProcessing(s.rows, s.workers[w].due[k])
    ensures Next(s, Reread(w)) == Set(s, w, Continue(s.workers[w].due))
  {
    RereadKeepsAll(s.rows, s.workers[w].due);
  }

  lemma FirstRereads(w1: Worker)
    ensures Next(Two(Processing, Processing, Rereading([A()]), w1), Reread(0))
            == Two(Processing, Processing, Working([A()]), w1)
  {
    RereadAll(Two(Processing, Processing, Rereading([A()]), w1), 0);
  }

  lemma SecondRereads(w0: Worker)
    ensures Next(Two(Processing, Processing, w0, Rereading([A(), B()])), Reread(1))
            == Two(Processing, Processing, w0, Working([A(), B()]))
  {
    RereadAll(Two(Processing, Processing, w0, Rereading([A(), B()])), 1);
  }

  lemma OverlapTailShares()
    ensures Run(Two(Pending, Pending, Claiming([A()]), Reaped), OverlapTail())
            == Two(Processing, Processing, Working([A()]), Working([A(), B()]))
  {
    SecondReads();
    FirstFlips();
    SecondFlips();
    FirstRereads(Rereading([A(), B()]));
    SecondRereads(Working([A()]));
    RunFirst(Two(Pending, Pending, Claiming([A()]), Reaped), ClaimRead(1, [0, 1]),
             [Flip(0)] + ([Flip(1)] + ([Reread(0)] + [Reread(1)])));
    RunFirst(Two(Pending, Pending, Claiming([A()]), Claiming([A(), B()])), Flip(0),
             [Flip(1)] + ([Reread(0)] + [Reread(1)]));
    RunFirst(Two(Processing, Pending, Rereading([A()]), Claiming([A(), B()])), Flip(1), [Reread(0)] + [Reread(1)]);
    RunFirst(Two(Processing, Processing, Rereading([A()]), Rereading([A(), B()])), Reread(0), [Reread(1)]);
    RunOne(Two(Processing, Processing, Working([A()]), Rereading([A(), B()])), Reread(1));
  }

  function OneRow(w0: Worker): System {
    System([NewRow(5)], [w0, Idle])
  }

  lemma FirstReads()
    ensures Run(Start(2), [Enqueue(5)]) == OneRow(Idle)
    ensures Run(OneRow(Idle), ReapNothing(0)) == OneRow(Reaped)
    ensures Next(OneRow(Reaped), ClaimRead(0, [0])) == OneRow(Claiming([A()]))
  {
    RunOne(Start(2), Enqueue(5));
    assert Start(2).rows + [NewRow(5)] == [NewRow(5)];
    assert Start(2).workers == [Idle, Idle];
    ReapingNothing(OneRow(Idle), 0);
    assert Due(OneRow(Reaped).rows, [0]);
    assert Read(OneRow(Reaped).rows, [0]) == [A()];
  }

  lemma SecondArrives()
    ensures Next(OneRow(Claiming([A()])), Enqueue(5)) == Two(Pending, Pending, Claiming([A()]), Idle)
    ensures Run(Two(Pending, Pending, Claiming([A()]), Idle), ReapNothing(1)) == Two(Pending, Pending, Claiming([A()]), Reaped)
  {
    ReapingNothing(Two(Pending, Pending, Claiming([A()]), Idle), 1);
  }

  /**
   Two workers that read the same due row, one of them together with a later row,
   both flip something and both keep the first row: it will be handled twice.
   */
  lemma OverlappingClaimsShareARow()
    ensures var s := Run(Start(2), OverlapRun());
      |s.workers| == 2 && Works(s.workers[0], 0) && Works(s.workers[1], 0)
  {
    var tail := OverlapTail();
    FirstReads();
    SecondArrives();
    OverlapTailShares();
    RunConcat(Start(2), [Enqueue(5)], ReapNothing(0) + ([ClaimRead(0, [0])] + ([Enqueue(5)] + (ReapNothing(1) + tail))));
    RunConcat(OneRow(Idle), ReapNothing(0), [ClaimRead(0, [0])] + ([Enqueue(5)] + (ReapNothing(1) + tail)));
    RunFirst(OneRow(Reaped), ClaimRead(0, [0]), [Enqueue(5)] + (ReapNothing(1) + tail));
    RunFirst(OneRow(Claiming([A()])), Enqueue(5), ReapNothing(1) + tail);
    RunConcat(Two(Pending, Pending, Claiming([A()]), Idle), ReapNothing(1), tail);
    var s := Run(Start(2), OverlapRun());
    assert s.workers == [Working([A()]), Working([A(), B()])];
    assert Held(s.workers[0])[0].id == 0 && Held(s.workers[1])[0].id == 0;
  }

  /** That run takes a contended re-read, as every run that shares a row must. */
  lemma OverlapIsContended()
    ensures !NeverContends(2, OverlapRun(), |OverlapRun()|)
  {
    var actions := OverlapRun();
    OverlappingClaimsShareARow();
    assert actions[..|actions|] == actions;
    assert !NoSharing(Run(Start(2), actions));
    RunSharesExactly(2, actions, |actions|);
  }
}
