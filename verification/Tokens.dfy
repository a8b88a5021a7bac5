/**
 Refresh tokens. A token is the row it was issued for, so a token nobody was
 issued names no row; a session family is named after its first row.
 */
module Tokens {
  import opened Common

  datatype Row = Row(
    user: nat, org: nat, family: nat, expiresAt: int, revokedAt: Option<int>, replacedBy: Option<nat>)

  datatype Store = Store(rows: seq<Row>, deletedUsers: set<nat>)

  /** Rotation is not a transaction: a refused token may still cost the family its live row. */
  datatype Rotation = Rotation(store: Store, outcome: Result<nat>)

  function Issue(rows: seq<Row>, user: nat, org: nat, family: nat, expiresAt: int): seq<Row> {
    rows + [Row(user, org, family, expiresAt, None, None)]
  }

  function SignIn(s: Store, user: nat, org: nat, expiresAt: int): Store {
    s.(rows := Issue(s.rows, user, org, |s.rows|, expiresAt))
  }

  function KillRow(r: Row, family: nat, now: int): Row {
    if r.family == family then r.(revokedAt := Some(now)) else r
  }

  /** Every row of the family, revoked or not, gets the new time. */
  function Kill(rows: seq<Row>, family: nat, now: int): seq<Row> {
    seq(|rows|, i requires 0 <= i < |rows| => KillRow(rows[i], family, now))
  }

  function Rotate(s: Store, token: nat, now: int, expiresAt: int): Rotation {
    if token >= |s.rows| || s.rows[token].user in s.deletedUsers then Rotation(s, Err(Unauthorized))
    else
      var r := s.rows[token];
      if r.revokedAt.Some? || r.expiresAt < now
      then Rotation(s.(rows := Kill(s.rows, r.family, now)), Err(Unauthorized))
      else
        var next := |s.rows|;
        var issued := Issue(s.rows, r.user, r.org, r.family, expiresAt);
        Rotation(s.(rows := issued[token := issued[token].(replacedBy := Some(next), revokedAt := Some(now))]), Ok(next))
  }

  predicate Live(r: Row) {
    r.revokedAt.None?
  }

  function RevokeIf(r: Row, matches: bool, now: int): Row {
    if matches && Live(r) then r.(revokedAt := Some(now)) else r
  }

  function Revoke(s: Store, token: nat, now: int): Store {
    s.(rows := seq(|s.rows|, i requires 0 <= i < |s.rows| => RevokeIf(s.rows[i], i == token, now)))
  }

  function RevokeSession(s: Store, row: nat, org: nat, now: int): Store {
    s.(rows := seq(|s.rows|, i requires 0 <= i < |s.rows| => RevokeIf(s.rows[i], i == row && s.rows[i].org == org, now)))
  }

  function RevokeAll(s: Store, user: nat, org: nat, now: int): Store {
    s.(rows := seq(|s.rows|, i requires 0 <= i < |s.rows| =>
         RevokeIf(s.rows[i], s.rows[i].user == user && s.rows[i].org == org, now)))
  }

  /** The live rows of a user. */
  function Sessions(rows: seq<Row>, user: nat, org: nat): set<nat> {
    set i: nat | i < |rows| && rows[i].user == user && rows[i].org == org && Live(rows[i])
  }

  datatype Command =
    | DoSignIn(user: nat, org: nat, expiresAt: int)
    | DoRotate(token: nat, now: int, expiresAt: int)
    | DoRevoke(token: nat, now: int)
    | DoRevokeSession(row: nat, org: nat, now: int)
    | DoRevokeAll(user: nat, org: nat, now: int)
    | DoDeleteUser(user: nat)

  function Step(s: Store, c: Command): Store {
    match c
    case DoSignIn(user, org, expiresAt) => SignIn(s, user, org, expiresAt)
    case DoRotate(token, now, expiresAt) => Rotate(s, token, now, expiresAt).store
    case DoRevoke(token, now) => Revoke(s, token, now)
    case DoRevokeSession(row, org, now) => RevokeSession(s, row, org, now)
    case DoRevokeAll(user, org, now) => RevokeAll(s, user, org, now)
    case DoDeleteUser(user) => s.(deletedUsers := s.deletedUsers + {user})
  }

  function Run(s: Store, cs: seq<Command>): Store {
    if cs == [] then s else Step(Run(s, cs[..|cs| - 1]), cs[|cs| - 1])
  }

  const EMPTY := Store([], {})

  /* --------------------------------- families ------------------------------- */

  predicate NoneBetween(rows: seq<Row>, i: nat, j: nat) {
    forall k :: i < k < j && k < |rows| && i < |rows| ==> rows[k].family != rows[i].family
  }

  /** Row j follows row i in their family. */
  predicate Follows(rows: seq<Row>, i: nat, j: nat) {
    i < j < |rows| && rows[j].family == rows[i].family && NoneBetween(rows, i, j)
  }

  ghost predicate RowChained(rows: seq<Row>, i: nat)
    requires i < |rows|
  {
    && rows[i].family <= i && rows[rows[i].family].family == rows[i].family
    && rows[rows[i].family].user == rows[i].user && rows[rows[i].family].org == rows[i].org
    && (rows[i].replacedBy.Some? ==> Follows(rows, i, rows[i].replacedBy.value) && !Live(rows[i]))
    && (forall j: nat :: Follows(rows, i, j) ==> rows[i].replacedBy == Some(j))
  }

  /** Each family is one chain in order of issue, linked by replacedBy from each row to the next. */
  ghost predicate Chained(rows: seq<Row>) {
    forall i :: 0 <= i < |rows| ==> RowChained(rows, i)
  }

  predicate Last(rows: seq<Row>, i: nat) {
    i < |rows| && forall j :: i < j < |rows| ==> rows[j].family != rows[i].family
  }

  lemma {:induction false} HasFollower(rows: seq<Row>, i: nat, j: nat)
    requires i < j < |rows| && rows[j].family == rows[i].family
    ensures exists k :: i < k <= j && Follows(rows, i, k)
    decreases j - i
  {
    if k :| i < k < j && rows[k].family == rows[i].family {
      HasFollower(rows, i, k);
    } else {
      assert Follows(rows, i, j);
    }
  }

  /** Only the last row of a family can be live, so a family has at most one live row. */
  lemma LiveIsLast(rows: seq<Row>, i: nat)
    requires Chained(rows) && i < |rows| && Live(rows[i])
    ensures Last(rows, i) && rows[i].replacedBy == None
  {
    assert RowChained(rows, i);
    forall j | i < j < |rows| ensures rows[j].family != rows[i].family {
      if rows[j].family == rows[i].family {
        HasFollower(rows, i, j);
      }
    }
  }

  lemma OneLivePerFamily(rows: seq<Row>, i: nat, j: nat)
    requires Chained(rows) && i < |rows| && j < |rows|
    requires Live(rows[i]) && Live(rows[j]) && rows[i].family == rows[j].family
    ensures i == j
  {
    LiveIsLast(rows, i);
    LiveIsLast(rows, j);
  }

  /** Following replacedBy any number of times only ever moves forward, so a chain cannot loop. */
  function Chase(rows: seq<Row>, i: nat, n: nat): Option<nat> {
    if n == 0 then Some(i)
    else
      var at := Chase(rows, i, n - 1);
      if at.Some? && at.value < |rows| then rows[at.value].replacedBy else None
  }

  lemma {:induction false} ChainsNeverLoop(rows: seq<Row>, i: nat, n: nat)
    requires Chained(rows) && i < |rows| && n > 0
    ensures Chase(rows, i, n).Some? ==>
              var j := Chase(rows, i, n).value; i + n <= j < |rows| && rows[j].family == rows[i].family
  {
    if n > 1 {
      ChainsNeverLoop(rows, i, n - 1);
    }
    var at := Chase(rows, i, n - 1);
    if at.Some? && at.value < |rows| {
      assert RowChained(rows, at.value);
    }
  }

  /** Same rows up to being revoked. */
  predicate OnlyRevoked(before: seq<Row>, after: seq<Row>) {
    && |before| == |after|
    && forall i :: 0 <= i < |before| ==>
         after[i] == before[i].(revokedAt := after[i].revokedAt) && (!Live(before[i]) ==> !Live(after[i]))
  }

  /** Who follows whom depends on the families alone. */
  lemma FollowsSame(before: seq<Row>, after: seq<Row>, i: nat, j: nat)
    requires |before| <= |after| && i < j < |before|
    requires forall k :: 0 <= k < |before| ==> after[k].family == before[k].family
    ensures Follows(before, i, j) <==> Follows(after, i, j)
  {
    if NoneBetween(after, i, j) {
      forall k | i < k < j ensures before[k].family != before[i].family {
        assert after[k].family != after[i].family;
      }
    }
    if NoneBetween(before, i, j) {
      forall k | i < k < j ensures after[k].family != after[i].family {
        assert before[k].family != before[i].family;
      }
    }
  }

  lemma RevokingKeepsChains(before: seq<Row>, after: seq<Row>)
    requires Chained(before) && OnlyRevoked(before, after)
    ensures Chained(after)
  {
    forall i | 0 <= i < |after| ensures RowChained(after, i) {
      assert RowChained(before, i);
      forall j: nat | Follows(after, i, j) ensures after[i].replacedBy == Some(j) {
        FollowsSame(before, after, i, j);
      }
      if after[i].replacedBy.Some? {
        FollowsSame(before, after, i, after[i].replacedBy.value);
      }
    }
  }

  lemma SignInKeepsChains(rows: seq<Row>, user: nat, org: nat, expiresAt: int)
    requires Chained(rows)
    ensures Chained(Issue(rows, user, org, |rows|, expiresAt))
  {
    var after := Issue(rows, user, org, |rows|, expiresAt);
    forall i | 0 <= i < |after| ensures RowChained(after, i) {
      if i < |rows| {
        assert RowChained(rows, i);
        forall j: nat | Follows(after, i, j) ensures after[i].replacedBy == Some(j) {
          FollowsSame(rows, after, i, j);
        }
        if after[i].replacedBy.Some? {
          FollowsSame(rows, after, i, after[i].replacedBy.value);
        }
      }
    }
  }

  lemma RotationKeepsChains(s: Store, token: nat, now: int, expiresAt: int)
    requires Chained(s.rows) && Rotate(s, token, now, expiresAt).outcome.Ok?
    ensures Chained(Rotate(s, token, now, expiresAt).store.rows)
  {
    var rows := s.rows;
    var after := Rotate(s, token, now, expiresAt).store.rows;
    LiveIsLast(rows, token);
    assert RowChained(rows, token);
    forall i | 0 <= i < |after| ensures RowChained(after, i) {
      if i < |rows| {
        assert RowChained(rows, i);
        if i != token {
          NewFollowsLast(rows, after, i, token);
          forall j: nat | Follows(after, i, j) ensures after[i].replacedBy == Some(j) {
            FollowsSame(rows, after, i, j);
          }
          if after[i].replacedBy.Some? {
            FollowsSame(rows, after, i, after[i].replacedBy.value);
          }
        } else {
          assert Follows(after, token, |rows|);
        }
      }
    }
  }

  /** A new row of a family follows its last row and no other. */
  lemma NewFollowsLast(rows: seq<Row>, after: seq<Row>, i: nat, last: nat)
    requires Last(rows, last) && i < |rows| && i != last && |after| == |rows| + 1
    requires forall k :: 0 <= k < |rows| ==> after[k].family == rows[k].family
    requires after[|rows|].family == rows[last].family
    ensures !Follows(after, i, |rows|)
  {
    if rows[i].family == rows[last].family {
      assert after[last].family == after[i].family;
    }
  }

  lemma StepKeepsChains(s: Store, c: Command)
    requires Chained(s.rows)
    ensures Chained(Step(s, c).rows)
  {
    match c
    case DoSignIn(user, org, expiresAt) => SignInKeepsChains(s.rows, user, org, expiresAt);
    case DoRotate(token, now, expiresAt) =>
      if Rotate(s, token, now, expiresAt).outcome.Ok? {
        RotationKeepsChains(s, token, now, expiresAt);
      } else {
        RevokingKeepsChains(s.rows, Step(s, c).rows);
      }
    case _ => RevokingKeepsChains(s.rows, Step(s, c).rows);
  }

  /** After every run each family is one chain with at most its last row live. */
  lemma {:induction false} EveryRunChained(cs: seq<Command>)
    ensures Chained(Run(EMPTY, cs).rows)
  {
    if cs != [] {
      EveryRunChained(cs[..|cs| - 1]);
      StepKeepsChains(Run(EMPTY, cs[..|cs| - 1]), cs[|cs| - 1]);
    }
  }

  /* ------------------------------- dead families ---------------------------- */

  predicate Dead(rows: seq<Row>, family: nat) {
    family < |rows| && forall i :: 0 <= i < |rows| && rows[i].family == family ==> !Live(rows[i])
  }

  lemma {:induction false} DeadStaysDead(s: Store, cs: seq<Command>, family: nat)
    requires Dead(s.rows, family)
    ensures Dead(Run(s, cs).rows, family)
  {
    if cs != [] {
      DeadStaysDead(s, cs[..|cs| - 1], family);
      StepKeepsDead(Run(s, cs[..|cs| - 1]), cs[|cs| - 1], family);
    }
  }

  lemma StepKeepsDead(s: Store, c: Command, family: nat)
    requires Dead(s.rows, family)
    ensures Dead(Step(s, c).rows, family)
  {
  }

  /** A token is exchanged exactly when it was issued to a user who still exists, is live, and has not expired. */
  predicate Exchangeable(s: Store, token: nat, now: int) {
    token < |s.rows| && s.rows[token].user !in s.deletedUsers && Live(s.rows[token]) && now <= s.rows[token].expiresAt
  }

  /**
   Once a token is presented after it was rotated or revoked, or after it expired,
   its family has no live row, and never again has one whatever happens later.
   */
  lemma MisuseKillsFamilyForGood(s: Store, token: nat, now: int, expiresAt: int, cs: seq<Command>)
    requires token < |s.rows| && s.rows[token].family < |s.rows| && s.rows[token].user !in s.deletedUsers
    requires !Exchangeable(s, token, now)
    ensures Rotate(s, token, now, expiresAt).outcome == Err(Unauthorized)
    ensures Dead(Run(Rotate(s, token, now, expiresAt).store, cs).rows, s.rows[token].family)
  {
    DeadStaysDead(Rotate(s, token, now, expiresAt).store, cs, s.rows[token].family);
  }

  lemma {:induction false} RevokedStaysRevoked(s: Store, cs: seq<Command>, i: nat)
    requires i < |s.rows| && !Live(s.rows[i])
    ensures i < |Run(s, cs).rows| && !Live(Run(s, cs).rows[i])
  {
    if cs != [] {
      RevokedStaysRevoked(s, cs[..|cs| - 1], i);
      RevokedAfterStep(Run(s, cs[..|cs| - 1]), cs[|cs| - 1], i);
    }
  }

  lemma RevokedAfterStep(s: Store, c: Command, i: nat)
    requires i < |s.rows| && !Live(s.rows[i])
    ensures i < |Step(s, c).rows| && !Live(Step(s, c).rows[i])
  {
  }

  /** No token is ever exchanged twice, however much time and however many calls lie between. */
  lemma ExchangedAtMostOnce(s: Store, token: nat, now: int, expiresAt: int, cs: seq<Command>, later: int, laterExpiry: int)
    requires Chained(s.rows)
    ensures Rotate(s, token, now, expiresAt).outcome.Ok? <==> Exchangeable(s, token, now)
    ensures Exchangeable(s, token, now) ==>
              var after := Rotate(s, token, now, expiresAt).store;
              && Exchangeable(after, |s.rows|, expiresAt)
              && after.rows[|s.rows|].family == s.rows[token].family
              && Rotate(Run(after, cs), token, later, laterExpiry).outcome == Err(Unauthorized)
  {
    if Exchangeable(s, token, now) {
      RevokedStaysRevoked(Rotate(s, token, now, expiresAt).store, cs, token);
    }
  }

  /** The row is not live any more; if it already was not, it keeps its time, else it has the new one. */
  predicate LoggedOut(before: Row, after: Row, now: int) {
    after == before.(revokedAt := if before.revokedAt.Some? then before.revokedAt else Some(now))
  }

  /** However many calls come first, exchanging the token is refused. */
  ghost predicate RefusedForGood(s: Store, token: nat) {
    forall cs: seq<Command>, now: int, expiresAt: int ::
      Rotate(Run(s, cs), token, now, expiresAt).outcome == Err(Unauthorized)
  }

  lemma LoggedOutForGood(s: Store, token: nat)
    requires token < |s.rows| && s.rows[token].revokedAt.Some?
    ensures RefusedForGood(s, token)
  {
    forall cs: seq<Command>, now: int, expiresAt: int
      ensures Rotate(Run(s, cs), token, now, expiresAt).outcome == Err(Unauthorized)
    {
      RevokedStaysRevoked(s, cs, token);
    }
  }

  /** Families are named after rows, so a new row's name is not taken. */
  lemma FamiliesAreRows(rows: seq<Row>)
    requires Chained(rows)
    ensures forall i :: 0 <= i < |rows| ==> rows[i].family < |rows|
  {
    forall i | 0 <= i < |rows| ensures rows[i].family < |rows| {
      assert RowChained(rows, i);
    }
  }

  /* ------------------------------- the service ------------------------------ */

  class TokensService {
    const ttl: nat
    var rows: seq<Row>
    var deletedUsers: set<nat>

    function View(): Store
      reads this
    {
      Store(rows, deletedUsers)
    }

    constructor (ttl: nat)
      ensures View() == EMPTY && this.ttl == ttl
    {
      this.ttl, rows, deletedUsers := ttl, [], {};
    }

    /** Issues a token, for a new family unless one is given. */
    method IssueToken(user: nat, org: nat, family: Option<nat>, now: int) returns (token: nat)
      modifies `rows
      ensures token == |old(rows)|
      ensures rows == Issue(old(rows), user, org, if family.Some? then family.value else token, now + ttl)
      ensures Live(rows[token]) && Last(rows, token)
      ensures forall later :: Exchangeable(View(), token, later) <==> user !in deletedUsers && later <= now + ttl
      ensures Chained(old(rows)) && family.None? ==> Chained(rows) && forall i :: 0 <= i < token ==> rows[i].family != token
    {
      if Chained(rows) && family.None? {
        SignInKeepsChains(rows, user, org, now + ttl);
        FamiliesAreRows(rows);
      }
      token := |rows|;
      rows := rows + [Row(user, org, if family.Some? then family.value else token, now + ttl, None, None)];
    }

    method KillFamily(family: nat, now: int)
      modifies `rows
      ensures rows == Kill(old(rows), family, now)
      ensures |rows| == |old(rows)|
      ensures forall i :: 0 <= i < |rows| ==>
                rows[i] == if old(rows)[i].family == family then old(rows)[i].(revokedAt := Some(now)) else old(rows)[i]
    {
      for i := 0 to |rows|
        invariant |rows| == |old(rows)|
        invariant forall j :: 0 <= j < |rows| ==> rows[j] == if j < i then KillRow(old(rows)[j], family, now) else old(rows)[j]
      {
        if rows[i].family == family {
          rows := rows[i := rows[i].(revokedAt := Some(now))];
        }
      }
    }

    /**
     Exchanges a token for a new one, exactly while it is live and unexpired and its
     user exists; a known token that is revoked or expired costs its family every row.
     */
    method RotateToken(token: nat, now: int) returns (outcome: Result<nat>)
      modifies `rows
      ensures Rotation(View(), outcome) == Rotate(old(View()), token, now, now + ttl)
      ensures outcome == (if Exchangeable(old(View()), token, now) then Ok(|old(rows)|) else Err(Unauthorized))
      ensures outcome.Ok? ==>
                var r := old(rows)[token];
                && rows == old(rows)[token := r.(revokedAt := Some(now), replacedBy := Some(|old(rows)|))]
                           + [Row(r.user, r.org, r.family, now + ttl, None, None)]
      ensures outcome.Err? && (token >= |old(rows)| || old(rows)[token].user in deletedUsers) ==> rows == old(rows)
      ensures outcome.Err? && token < |old(rows)| && old(rows)[token].user !in deletedUsers ==>
                && |rows| == |old(rows)|
                && (forall i :: 0 <= i < |rows| ==>
                      rows[i] == if old(rows)[i].family == old(rows)[token].family
                                 then old(rows)[i].(revokedAt := Some(now)) else old(rows)[i])
    {
      if token >= |rows| {
        return Err(Unauthorized);
      }
      var existing := rows[token];
      if existing.user in deletedUsers {
        return Err(Unauthorized);
      }
      if existing.revokedAt.Some? {
        KillFamily(existing.family, now);
        return Err(Unauthorized);
      }
      if existing.expiresAt < now {
        KillFamily(existing.family, now);
        return Err(Unauthorized);
      }
      var next := IssueToken(existing.user, existing.org, Some(existing.family), now);
      rows := rows[token := rows[token].(replacedBy := Some(next), revokedAt := Some(now))];
      outcome := Ok(next);
    }

    /** Logs a token out: it is refused from now on, whatever is called later, and no other row changes. */
    method RevokeToken(token: nat, now: int)
      modifies `rows
      ensures View() == Revoke(old(View()), token, now)
      ensures |rows| == |old(rows)|
      ensures forall i :: 0 <= i < |rows| && i != token ==> rows[i] == old(rows)[i]
      ensures token < |rows| ==> LoggedOut(old(rows)[token], rows[token], now)
      ensures token < |rows| ==> RefusedForGood(View(), token)
    {
      if token < |rows| && rows[token].revokedAt.None? {
        rows := rows[token := rows[token].(revokedAt := Some(now))];
      }
      if token < |rows| {
        LoggedOutForGood(View(), token);
      }
    }

    /** Logs one session of an organization out; a row of another organization stays as it is. */
    method RevokeDevice(row: nat, org: nat, now: int)
      modifies `rows
      ensures View() == RevokeSession(old(View()), row, org, now)
      ensures |rows| == |old(rows)|
      ensures forall i :: 0 <= i < |rows| && (i != row || old(rows)[i].org != org) ==> rows[i] == old(rows)[i]
      ensures row < |rows| && old(rows)[row].org == org ==>
                LoggedOut(old(rows)[row], rows[row], now) && RefusedForGood(View(), row)
    {
      if row < |rows| && rows[row].org == org && rows[row].revokedAt.None? {
        rows := rows[row := rows[row].(revokedAt := Some(now))];
      }
      if row < |rows| && rows[row].org == org {
        LoggedOutForGood(View(), row);
      }
    }

    /** Signs a user out everywhere and counts the sessions that were live. */
    method RevokeEverything(user: nat, org: nat, now: int) returns (count: nat)
      modifies `rows
      ensures View() == RevokeAll(old(View()), user, org, now)
      ensures count == |Sessions(old(rows), user, org)|
      ensures Sessions(rows, user, org) == {}
      ensures |rows| == |old(rows)|
      ensures forall i :: 0 <= i < |rows| ==>
                if old(rows)[i].user == user && old(rows)[i].org == org
                then LoggedOut(old(rows)[i], rows[i], now) else rows[i] == old(rows)[i]
    {
      count := 0;
      ghost var ended: set<nat> := {};
      for i := 0 to |rows|
        invariant |rows| == |old(rows)|
        invariant forall j :: 0 <= j < |rows| ==>
                    rows[j] == RevokeIf(old(rows)[j], j < i && old(rows)[j].user == user && old(rows)[j].org == org, now)
        invariant count == |ended| && ended == set j | j in Sessions(old(rows), user, org) && j < i
      {
        if rows[i].user == user && rows[i].org == org && rows[i].revokedAt.None? {
          rows := rows[i := rows[i].(revokedAt := Some(now))];
          count := count + 1;
          ended := ended + {i};
        }
      }
      assert ended == Sessions(old(rows), user, org);
    }
  }
}
