/** The token table and the store gateway that reads and writes it. Each
    gateway operation runs its storage action inside the same bounded retry
    loop: attempt; on an exception count it, (roll back,) and either close
    the session, wait and reconnect, or, after the third failure, raise. */
module TokenStore {
  import opened Common

  /** One row of the token table: `estado` is 1 while the token is active
      and 0 once it is retired; `expiry` is `fecha_vencimiento` in seconds. */
  datatype TokenRow = TokenRow(id: nat, token: string, expiry: Option<int>, estado: int)

  const MaxRetries: nat := 3

  /** What a retry loop does to the session, in order. The one-second wait
      between `Close` and `Reconnect` is not modelled. */
  datatype Event = Attempt | Rollback | Close | Reconnect

  // ----- The fault oracle and the retry loop -----

  /** `faults[k]` says whether attempt k (from 0) of the operations still to
      come raises; every attempt past the end of the list succeeds. */
  predicate Fails(faults: seq<bool>, k: nat)
  {
    k < |faults| && faults[k]
  }

  /** The outcomes left after `n` attempts. */
  function Drop(faults: seq<bool>, n: nat): seq<bool>
  {
    if n <= |faults| then faults[n..] else []
  }

  /** Taking the next outcome off what is left after `n` attempts. */
  lemma DropNext(faults: seq<bool>, n: nat)
    ensures (|Drop(faults, n)| > 0 && Drop(faults, n)[0]) == Fails(faults, n)
    ensures Drop(Drop(faults, n), 1) == Drop(faults, n + 1)
  {
  }

  /** How many attempts a retry loop makes once `done` attempts have failed:
      it stops at the first success or after the last allowed attempt. */
  function AttemptsFrom(faults: seq<bool>, done: nat): (n: nat)
    requires done < MaxRetries
    ensures done < n <= MaxRetries
    ensures forall j :: done <= j < n - 1 ==> Fails(faults, j)
    ensures n < MaxRetries ==> !Fails(faults, n - 1)
    decreases MaxRetries - done
  {
    if !Fails(faults, done) || done + 1 == MaxRetries then done + 1
    else AttemptsFrom(faults, done + 1)
  }

  function Attempts(faults: seq<bool>): nat
  {
    AttemptsFrom(faults, 0)
  }

  /** The loop returns a result (rather than raising) when its last attempt
      did not fail. */
  predicate Succeeds(faults: seq<bool>)
  {
    !Fails(faults, Attempts(faults) - 1)
  }

  function RollbackIf(rollback: bool): seq<Event>
  {
    if rollback then [Rollback] else []
  }

  /** The events of one failed attempt that is not the last allowed one. */
  function Round(rollback: bool): seq<Event>
  {
    [Attempt] + RollbackIf(rollback) + [Close, Reconnect]
  }

  /** The session events of a retry loop from attempt `done` on; `rollback`
      says whether the operation rolls back after a failed attempt. */
  function TraceFrom(faults: seq<bool>, done: nat, rollback: bool): seq<Event>
    requires done < MaxRetries
    decreases MaxRetries - done
  {
    if !Fails(faults, done) then [Attempt]
    else if done + 1 == MaxRetries then [Attempt] + RollbackIf(rollback)
    else Round(rollback) + TraceFrom(faults, done + 1, rollback)
  }

  function Trace(faults: seq<bool>, rollback: bool): seq<Event>
  {
    TraceFrom(faults, 0, rollback)
  }

  /** The loop raises exactly when all three attempts fail. */
  lemma RaisesIffAllFail(faults: seq<bool>)
    ensures !Succeeds(faults) <==> Fails(faults, 0) && Fails(faults, 1) && Fails(faults, 2)
  {
    var n := Attempts(faults);
    if !Succeeds(faults) {
      assert n == MaxRetries;
    }
  }

  /** A first success on attempt `k` (from 0) returns at once: `k + 1`
      attempts in all, and the result of that attempt. */
  lemma {:induction false} FirstSuccessReturns(faults: seq<bool>, k: nat)
    requires k < MaxRetries && !Fails(faults, k)
    requires forall j :: 0 <= j < k ==> Fails(faults, j)
    ensures Attempts(faults) == k + 1 && Succeeds(faults)
  {
    FirstSuccessFrom(faults, 0, k);
  }

  lemma {:induction false} FirstSuccessFrom(faults: seq<bool>, done: nat, k: nat)
    requires done <= k < MaxRetries && !Fails(faults, k)
    requires forall j :: done <= j < k ==> Fails(faults, j)
    ensures AttemptsFrom(faults, done) == k + 1
    decreases k - done
  {
    if done < k {
      FirstSuccessFrom(faults, done + 1, k);
    }
  }

  /** Three failures in a row: three attempts separated by exactly two
      close-and-reconnect pairs, and nothing after the last attempt but its
      rollback. No fourth attempt is made. */
  lemma TotalFailureTrace(faults: seq<bool>, rollback: bool)
    requires Fails(faults, 0) && Fails(faults, 1) && Fails(faults, 2)
    ensures Attempts(faults) == 3 && !Succeeds(faults)
    ensures var r := RollbackIf(rollback);
      Trace(faults, rollback)
      == [Attempt] + r + [Close, Reconnect] + [Attempt] + r + [Close, Reconnect] + [Attempt] + r
  {
  }

  /** A loop ends with its last attempt: nothing follows it but that
      attempt's rollback, and no session is closed or reopened after it. */
  lemma TraceEndsWithLastAttempt(faults: seq<bool>, rollback: bool)
    ensures var t := Trace(faults, rollback);
      t != [] && t[|t| - 1] == if rollback && !Succeeds(faults) then Rollback else Attempt
  {
    LastEventFrom(faults, 0, rollback);
  }

  lemma {:induction false} LastEventFrom(faults: seq<bool>, done: nat, rollback: bool)
    requires done < MaxRetries
    ensures var t, n := TraceFrom(faults, done, rollback), AttemptsFrom(faults, done);
      t != [] && t[|t| - 1] == if rollback && Fails(faults, n - 1) then Rollback else Attempt
    decreases MaxRetries - done
  {
    if Fails(faults, done) && done + 1 < MaxRetries {
      LastEventFrom(faults, done + 1, rollback);
    }
  }

  /** How many attempts of a loop failed, from attempt `done` on. */
  function FailuresFrom(faults: seq<bool>, done: nat): nat
    requires done < MaxRetries
    decreases MaxRetries - done
  {
    if !Fails(faults, done) then 0
    else if done + 1 == MaxRetries then 1
    else 1 + FailuresFrom(faults, done + 1)
  }

  function Failures(faults: seq<bool>): nat
  {
    FailuresFrom(faults, 0)
  }

  /** Every attempt but a successful last one failed. */
  lemma {:induction false} FailuresFromAttempts(faults: seq<bool>, done: nat)
    requires done < MaxRetries
    ensures var n := AttemptsFrom(faults, done);
      FailuresFrom(faults, done) == if Fails(faults, n - 1) then n - done else n - done - 1
    decreases MaxRetries - done
  {
    if Fails(faults, done) && done + 1 < MaxRetries {
      FailuresFromAttempts(faults, done + 1);
    }
  }

  /** In the trace of a loop: one `Attempt` per attempt, one `Close` and one
      `Reconnect` per failure except the last allowed attempt's, and a
      `Rollback` per failure exactly when the operation rolls back. */
  lemma TraceCounts(faults: seq<bool>, rollback: bool)
    ensures multiset(Trace(faults, rollback))[Attempt] == Attempts(faults)
    ensures multiset(Trace(faults, rollback))[Close] == Attempts(faults) - 1
    ensures multiset(Trace(faults, rollback))[Reconnect] == Attempts(faults) - 1
    ensures multiset(Trace(faults, rollback))[Rollback] == if rollback then Failures(faults) else 0
    ensures Failures(faults) == if Succeeds(faults) then Attempts(faults) - 1 else Attempts(faults)
  {
    TraceSessionCounts(faults, 0, rollback);
    TraceRollbackCount(faults, 0, rollback);
    FailuresFromAttempts(faults, 0);
  }

  lemma {:induction false} TraceSessionCounts(faults: seq<bool>, done: nat, rollback: bool)
    requires done < MaxRetries
    ensures var m, n := multiset(TraceFrom(faults, done, rollback)), AttemptsFrom(faults, done);
      m[Attempt] == n - done && m[Close] == n - done - 1 && m[Reconnect] == n - done - 1
    decreases MaxRetries - done
  {
    if Fails(faults, done) && done + 1 < MaxRetries {
      TraceSessionCounts(faults, done + 1, rollback);
      assert multiset(TraceFrom(faults, done, rollback))
        == multiset(Round(rollback)) + multiset(TraceFrom(faults, done + 1, rollback));
    }
  }

  lemma {:induction false} TraceRollbackCount(faults: seq<bool>, done: nat, rollback: bool)
    requires done < MaxRetries
    ensures multiset(TraceFrom(faults, done, rollback))[Rollback] == if rollback then FailuresFrom(faults, done) else 0
    decreases MaxRetries - done
  {
    if Fails(faults, done) && done + 1 < MaxRetries {
      TraceRollbackCount(faults, done + 1, rollback);
      assert multiset(TraceFrom(faults, done, rollback))
        == multiset(Round(rollback)) + multiset(TraceFrom(faults, done + 1, rollback));
    }
  }

  // ----- The token table -----

  /** The row `get_token` selects: among the rows with `estado == 1`, the one
      with the largest id. */
  function LatestActive(rows: seq<TokenRow>): (r: Option<TokenRow>)
    ensures r.Some? ==> r.value in rows && r.value.estado == 1
    ensures r.Some? ==> forall row :: row in rows && row.estado == 1 ==> row.id <= r.value.id
    ensures r.None? <==> forall row :: row in rows ==> row.estado != 1
  {
    if rows == [] then None
    else
      var rest := LatestActive(rows[1..]);
      if rows[0].estado == 1 && (rest.None? || rest.value.id < rows[0].id) then Some(rows[0])
      else rest
  }

  function Ids(rows: seq<TokenRow>): set<nat>
  {
    set row | row in rows :: row.id
  }

  function ActiveIds(rows: seq<TokenRow>): set<nat>
  {
    set row | row in rows && row.estado == 1 :: row.id
  }

  /** The primary key: no two rows share an id. */
  ghost predicate DistinctIds(rows: seq<TokenRow>)
  {
    forall i, j :: 0 <= i < j < |rows| ==> rows[i].id != rows[j].id
  }

  /** `token_record.estado = 0` on the row whose id matches. */
  function Deactivate(rows: seq<TokenRow>, id: nat): (r: seq<TokenRow>)
    ensures |r| == |rows|
  {
    seq(|rows|, i requires 0 <= i < |rows| => if rows[i].id == id then rows[i].(estado := 0) else rows[i])
  }

  /** Deactivation retires exactly the matching id, by setting only its
      `estado` to 0, and leaves every other row as it was. */
  lemma DeactivateRetiresOnlyTarget(rows: seq<TokenRow>, id: nat)
    ensures Ids(Deactivate(rows, id)) == Ids(rows)
    ensures ActiveIds(Deactivate(rows, id)) == ActiveIds(rows) - {id}
    ensures forall i :: 0 <= i < |rows| && rows[i].id != id ==> Deactivate(rows, id)[i] == rows[i]
    ensures forall i :: 0 <= i < |rows| && rows[i].id == id ==> Deactivate(rows, id)[i] == rows[i].(estado := 0)
  {
    var d := Deactivate(rows, id);
    forall x | x in Ids(rows) ensures x in Ids(d) {
      var row :| row in rows && row.id == x;
      var i :| 0 <= i < |rows| && rows[i] == row;
      assert d[i].id == x;
    }
    forall x | x in ActiveIds(rows) - {id} ensures x in ActiveIds(d) {
      var row :| row in rows && row.estado == 1 && row.id == x;
      var i :| 0 <= i < |rows| && rows[i] == row;
      assert d[i] == row;
    }
  }

  /** A row appended with an id above every stored id is what `get_token`
      selects from then on. */
  lemma {:induction false} AppendedIsLatest(rows: seq<TokenRow>, row: TokenRow)
    requires forall r :: r in rows ==> r.id < row.id
    requires row.estado == 1
    ensures LatestActive(rows + [row]) == Some(row)
  {
    if rows == [] {
      assert rows + [row] == [row];
    } else {
      assert (rows + [row])[1..] == rows[1..] + [row];
      AppendedIsLatest(rows[1..], row);
    }
  }

  /** Once a row is retired, `get_token` never selects it again. */
  lemma RetiredIsNotSelected(rows: seq<TokenRow>, id: nat)
    ensures var r := LatestActive(Deactivate(rows, id)); r.Some? ==> r.value.id != id
  {
    var d := Deactivate(rows, id);
    var r := LatestActive(d);
    if r.Some? {
      var i :| 0 <= i < |d| && d[i] == r.value;
    }
  }

  // ----- The gateway as pure steps over the store's state -----

  /** Everything the gateway can observe or change: the token rows, the next
      identity value, the outcomes of upcoming attempts, the number of
      sessions opened so far, and the session events. */
  datatype Db = Db(rows: seq<TokenRow>, nextId: nat, faults: seq<bool>, session: nat, trace: seq<Event>)

  /** The table's own invariant: the primary key, and an identity counter
      above every stored id. */
  ghost predicate ValidTable(rows: seq<TokenRow>, nextId: nat)
  {
    DistinctIds(rows) && forall row :: row in rows ==> row.id < nextId
  }

  ghost predicate ValidDb(db: Db)
  {
    ValidTable(db.rows, db.nextId)
  }

  /** The state of an operation's `Step` and its result. */
  datatype Step<+T> = Step(result: Outcome<T>, db: Db)

  /** The effect of a retry loop on the session, whatever the action. */
  function AfterRetries(db: Db, rollback: bool): (d: Db)
    ensures d.rows == db.rows && d.nextId == db.nextId
  {
    var n := Attempts(db.faults);
    db.(faults := Drop(db.faults, n), session := db.session + n - 1, trace := db.trace + Trace(db.faults, rollback))
  }

  function FailedRounds(k: nat, rollback: bool): seq<Event>
  {
    if k == 0 then [] else FailedRounds(k - 1, rollback) + Round(rollback)
  }

  /** A loop's trace is its failed rounds followed by the rest of the loop. */
  lemma {:induction false} TraceAfterRounds(faults: seq<bool>, k: nat, rollback: bool)
    requires k < MaxRetries && FirstFailed(faults, k)
    ensures Trace(faults, rollback) == FailedRounds(k, rollback) + TraceFrom(faults, k, rollback)
  {
    if k > 0 {
      var before, round, rest := FailedRounds(k - 1, rollback), Round(rollback), TraceFrom(faults, k, rollback);
      calc {
        Trace(faults, rollback);
      == { TraceAfterRounds(faults, k - 1, rollback); }
        before + TraceFrom(faults, k - 1, rollback);
      == { assert Fails(faults, k - 1); }
        before + (round + rest);
      ==
        (before + round) + rest;
      }
    }
  }

  /** Failed attempts before `k` leave the count to the rest of the loop. */
  lemma {:induction false} AttemptsAfterRounds(faults: seq<bool>, k: nat)
    requires k < MaxRetries && FirstFailed(faults, k)
    ensures Attempts(faults) == AttemptsFrom(faults, k)
  {
    if k > 0 {
      AttemptsAfterRounds(faults, k - 1);
      assert Fails(faults, k - 1);
    }
  }

  ghost predicate FirstFailed(faults: seq<bool>, k: nat)
  {
    k == 0 || (FirstFailed(faults, k - 1) && Fails(faults, k - 1))
  }

  lemma {:induction false} FirstFailedAll(faults: seq<bool>, k: nat)
    requires FirstFailed(faults, k)
    ensures forall j :: 0 <= j < k ==> Fails(faults, j)
  {
    if k > 0 { FirstFailedAll(faults, k - 1); }
  }

  /** A failed attempt `k` that is not the last adds one round to the
      trace, in the order the loop records it. */
  lemma RoundStep(t: seq<Event>, k: nat, rollback: bool)
    ensures t + FailedRounds(k + 1, rollback) ==
      if rollback then t + FailedRounds(k, rollback) + [Attempt] + [Rollback] + [Close, Reconnect]
      else t + FailedRounds(k, rollback) + [Attempt] + [Close, Reconnect]
  {
    var before, r := FailedRounds(k, rollback), Round(rollback);
    assert FailedRounds(k + 1, rollback) == before + r;
    assert t + (before + r) == (t + before) + r;
    if rollback {
      assert r == [Attempt] + [Rollback] + [Close, Reconnect];
      assert (t + before) + r == t + before + [Attempt] + [Rollback] + [Close, Reconnect];
    } else {
      assert r == [Attempt] + [Close, Reconnect];
      assert (t + before) + r == t + before + [Attempt] + [Close, Reconnect];
    }
  }

  /** A first success on attempt `k`, after `k` failed rounds, ends the loop
      as `AfterRetries` says. */
  lemma RetryingSucceeds(db: Db, k: nat, rollback: bool)
    requires k < MaxRetries && !Fails(db.faults, k)
    requires FirstFailed(db.faults, k)
    ensures Succeeds(db.faults)
    ensures AfterRetries(db, rollback)
      == Db(db.rows, db.nextId, Drop(db.faults, k + 1), db.session + k, db.trace + FailedRounds(k, rollback) + [Attempt])
  {
    FirstFailedAll(db.faults, k);
    TraceAfterRounds(db.faults, k, rollback);
    AttemptsAfterRounds(db.faults, k);
    FirstSuccessFrom(db.faults, k, k);
    assert db.trace + (FailedRounds(k, rollback) + [Attempt]) == db.trace + FailedRounds(k, rollback) + [Attempt];
  }

  /** The last allowed failure, after two failed rounds, ends the loop as
      `AfterRetries` says. */
  lemma RetryingGivesUp(db: Db, rollback: bool)
    requires FirstFailed(db.faults, MaxRetries - 1) && Fails(db.faults, MaxRetries - 1)
    ensures !Succeeds(db.faults)
    ensures var t := db.trace + FailedRounds(MaxRetries - 1, rollback) + [Attempt];
      AfterRetries(db, rollback)
      == Db(db.rows, db.nextId, Drop(db.faults, MaxRetries), db.session + MaxRetries - 1,
            if rollback then t + [Rollback] else t)
  {
    TraceAfterRounds(db.faults, MaxRetries - 1, rollback);
    AttemptsAfterRounds(db.faults, MaxRetries - 1);
    var before := FailedRounds(MaxRetries - 1, rollback);
    assert db.trace + (before + ([Attempt] + RollbackIf(rollback))) == db.trace + before + [Attempt] + RollbackIf(rollback);
  }

  function Exhausted(): Error
  {
    StoreUnavailable(MaxRetries)
  }

  /** `Querys.get_token`. */
  function GetTokenStep(db: Db): Step<Option<TokenRow>>
  {
    var after := AfterRetries(db, false);
    if Succeeds(db.faults) then Step(Done(LatestActive(db.rows)), after)
    else Step(Raised(Exhausted()), after)
  }

  /** `Querys.desactivar_token`: `False` when no row has the id. */
  function DeactivateStep(db: Db, id: nat): Step<bool>
  {
    var after := AfterRetries(db, true);
    if Succeeds(db.faults) then Step(Done(id in Ids(db.rows)), after.(rows := Deactivate(db.rows, id)))
    else Step(Raised(Exhausted()), after)
  }

  /** The row `insertar_datos` writes for a new token: the next identity
      value, and `estado` at its column default 1. */
  function NewRow(db: Db, token: string, expiry: int): TokenRow
  {
    TokenRow(db.nextId, token, Some(expiry), 1)
  }

  /** `Querys.insertar_datos` on the token table. */
  function InsertStep(db: Db, token: string, expiry: int): Step<TokenRow>
  {
    var after := AfterRetries(db, true);
    if Succeeds(db.faults) then
      Step(Done(NewRow(db, token, expiry)), after.(rows := db.rows + [NewRow(db, token, expiry)], nextId := db.nextId + 1))
    else Step(Raised(Exhausted()), after)
  }

  /** A failed operation (all attempts raised, each rolled back) leaves the
      table as it was; `get_token` never changes it. */
  lemma FailureLeavesTable(db: Db, id: nat, token: string, expiry: int)
    requires !Succeeds(db.faults)
    ensures DeactivateStep(db, id).db.rows == db.rows
    ensures InsertStep(db, token, expiry).db.rows == db.rows
    ensures GetTokenStep(db).db.rows == db.rows
    ensures DeactivateStep(db, id).result.Raised? && InsertStep(db, token, expiry).result.Raised?
  {
  }

  /** Deactivating an id that no row has answers `False` and changes no row. */
  lemma DeactivateAbsent(db: Db, id: nat)
    requires Succeeds(db.faults) && id !in Ids(db.rows)
    ensures DeactivateStep(db, id) == Step(Done(false), AfterRetries(db, true))
  {
    var d := Deactivate(db.rows, id);
    forall i | 0 <= i < |db.rows| ensures d[i] == db.rows[i] {
      assert db.rows[i].id in Ids(db.rows);
    }
    assert d == db.rows;
  }

  /** Every gateway operation keeps the primary key and the identity counter
      above every stored id; a successful insert adds exactly one row. */
  lemma StepsKeepValid(db: Db, id: nat, token: string, expiry: int)
    requires ValidDb(db)
    ensures ValidDb(GetTokenStep(db).db)
    ensures ValidDb(DeactivateStep(db, id).db)
    ensures ValidDb(InsertStep(db, token, expiry).db)
    ensures Succeeds(db.faults) ==>
      var rows' := InsertStep(db, token, expiry).db.rows;
      |rows'| == |db.rows| + 1 && rows'[..|db.rows|] == db.rows
  {
    DeactivateKeepsValid(db.rows, db.nextId, id);
    AppendKeepsValid(db.rows, db.nextId, NewRow(db, token, expiry));
  }

  lemma DeactivateKeepsValid(rows: seq<TokenRow>, nextId: nat, id: nat)
    requires ValidTable(rows, nextId)
    ensures ValidTable(Deactivate(rows, id), nextId)
  {
    var d := Deactivate(rows, id);
    forall row | row in d ensures row.id < nextId {
      var i :| 0 <= i < |d| && d[i] == row;
      assert rows[i] in rows;
    }
  }

  lemma AppendKeepsValid(rows: seq<TokenRow>, nextId: nat, row: TokenRow)
    requires ValidTable(rows, nextId) && row.id == nextId
    ensures ValidTable(rows + [row], nextId + 1)
  {
    var rows' := rows + [row];
    forall i, j | 0 <= i < j < |rows'| ensures rows'[i].id != rows'[j].id {
      if j == |rows| {
        assert rows'[i] in rows;
      }
    }
  }

  /** A first success on attempt `k` of `get_token`: the selected row. */
  lemma GetTokenSucceeds(db: Db, k: nat)
    requires k < MaxRetries && !Fails(db.faults, k) && FirstFailed(db.faults, k)
    ensures GetTokenStep(db) == Step(Done(LatestActive(db.rows)),
      Db(db.rows, db.nextId, Drop(db.faults, k + 1), db.session + k, db.trace + FailedRounds(k, false) + [Attempt]))
  {
    RetryingSucceeds(db, k, false);
  }

  /** A first success on attempt `k` of `desactivar_token`. */
  lemma DeactivateSucceeds(db: Db, id: nat, k: nat)
    requires k < MaxRetries && !Fails(db.faults, k) && FirstFailed(db.faults, k)
    requires ValidDb(db)
    ensures DeactivateStep(db, id) == Step(Done(id in Ids(db.rows)),
      Db(Deactivate(db.rows, id), db.nextId, Drop(db.faults, k + 1), db.session + k, db.trace + FailedRounds(k, true) + [Attempt]))
    ensures ValidTable(Deactivate(db.rows, id), db.nextId)
  {
    RetryingSucceeds(db, k, true);
    DeactivateKeepsValid(db.rows, db.nextId, id);
  }

  /** A first success on attempt `k` of `insertar_datos`. */
  lemma InsertSucceeds(db: Db, token: string, expiry: int, k: nat)
    requires k < MaxRetries && !Fails(db.faults, k) && FirstFailed(db.faults, k)
    requires ValidDb(db)
    ensures var row := TokenRow(db.nextId, token, Some(expiry), 1);
      InsertStep(db, token, expiry) == Step(Done(row),
        Db(db.rows + [row], db.nextId + 1, Drop(db.faults, k + 1), db.session + k, db.trace + FailedRounds(k, true) + [Attempt]))
    ensures ValidTable(db.rows + [TokenRow(db.nextId, token, Some(expiry), 1)], db.nextId + 1)
  {
    RetryingSucceeds(db, k, true);
    AppendKeepsValid(db.rows, db.nextId, NewRow(db, token, expiry));
  }

  // ----- The gateway object -----

  /** `Querys`: a session on the store, replaced on every reconnect. */
  class Querys {
    var rows: seq<TokenRow>
    var nextId: nat
    var faults: seq<bool>
    var session: nat
    var trace: seq<Event>

    function State(): Db
      reads this
    {
      Db(rows, nextId, faults, session, trace)
    }

    ghost predicate Valid()
      reads this
    {
      ValidTable(rows, nextId)
    }

    constructor (rows: seq<TokenRow>, nextId: nat, faults: seq<bool>)
      requires ValidTable(rows, nextId)
      ensures Valid() && State() == Db(rows, nextId, faults, 0, [])
    {
      this.rows, this.nextId, this.faults := rows, nextId, faults;
      session, trace := 0, [];
    }

    /** `get_token`: no rollback after a failure. */
    method GetToken() returns (r: Outcome<Option<TokenRow>>)
      requires Valid()
      modifies this
      ensures Valid()
      ensures Step(r, State()) == GetTokenStep(old(State()))
    {
      ghost var db0 := State();
      var retryCount: nat := 0;
      while retryCount < MaxRetries
        invariant retryCount < MaxRetries && FirstFailed(db0.faults, retryCount)
        invariant rows == db0.rows && nextId == db0.nextId
        invariant faults == Drop(db0.faults, retryCount) && session == db0.session + retryCount
        invariant trace == db0.trace + FailedRounds(retryCount, false)
        decreases MaxRetries - retryCount
      {
        // the attempt: its outcome is the next one the oracle holds
        DropNext(db0.faults, retryCount);
        var failed := |faults| > 0 && faults[0];
        faults := Drop(faults, 1);
        trace := trace + [Attempt];
        if !failed {
          GetTokenSucceeds(db0, retryCount);
          r := Done(LatestActive(rows));
          return;
        }
        retryCount := retryCount + 1;
        if retryCount < MaxRetries {
          RoundStep(db0.trace, retryCount - 1, false);
          // close the session, wait, and open a new one
          trace := trace + [Close, Reconnect];
          session := session + 1;
        } else {
          RetryingGivesUp(db0, false);
          r := Raised(Exhausted());
          return;
        }
      }
      assert false;
    }
  
    /** `desactivar_token`: sets `estado = 0` on the row with the id and
        answers `True`, or answers `False` when there is none; a failed
        attempt is rolled back. */
    method DeactivateToken(id: nat) returns (r: Outcome<bool>)
      requires Valid()
      modifies this
      ensures Valid()
      ensures Step(r, State()) == DeactivateStep(old(State()), id)
    {
      ghost var db0 := State();
      var retryCount: nat := 0;
      while retryCount < MaxRetries
        invariant retryCount < MaxRetries && FirstFailed(db0.faults, retryCount)
        invariant rows == db0.rows && nextId == db0.nextId
        invariant faults == Drop(db0.faults, retryCount) && session == db0.session + retryCount
        invariant trace == db0.trace + FailedRounds(retryCount, true)
        decreases MaxRetries - retryCount
      {
        // the attempt: its outcome is the next one the oracle holds
        DropNext(db0.faults, retryCount);
        var failed := |faults| > 0 && faults[0];
        faults := Drop(faults, 1);
        trace := trace + [Attempt];
        if !failed {
          DeactivateSucceeds(db0, id, retryCount);
          var found := id in Ids(rows);
          rows := Deactivate(rows, id);
          r := Done(found);
          return;
        }
        retryCount := retryCount + 1;
        trace := trace + [Rollback];
        if retryCount < MaxRetries {
          RoundStep(db0.trace, retryCount - 1, true);
          // close the session, wait, and open a new one
          trace := trace + [Close, Reconnect];
          session := session + 1;
        } else {
          RetryingGivesUp(db0, true);
          r := Raised(Exhausted());
          return;
        }
      }
      assert false;
    }

    /** `insertar_datos` on the token table: appends one active row under
        the next identity value and returns it; a failed attempt is rolled
        back. */
    method InsertToken(token: string, expiry: int) returns (r: Outcome<TokenRow>)
      requires Valid()
      modifies this
      ensures Valid()
      ensures Step(r, State()) == InsertStep(old(State()), token, expiry)
    {
      ghost var db0 := State();
      var retryCount: nat := 0;
      while retryCount < MaxRetries
        invariant retryCount < MaxRetries && FirstFailed(db0.faults, retryCount)
        invariant rows == db0.rows && nextId == db0.nextId
        invariant faults == Drop(db0.faults, retryCount) && session == db0.session + retryCount
        invariant trace == db0.trace + FailedRounds(retryCount, true)
        decreases MaxRetries - retryCount
      {
        // the attempt: its outcome is the next one the oracle holds
        DropNext(db0.faults, retryCount);
        var failed := |faults| > 0 && faults[0];
        faults := Drop(faults, 1);
        trace := trace + [Attempt];
        if !failed {
          InsertSucceeds(db0, token, expiry, retryCount);
          var record := TokenRow(nextId, token, Some(expiry), 1);
          rows, nextId := rows + [record], nextId + 1;
          r := Done(record);
          return;
        }
        retryCount := retryCount + 1;
        trace := trace + [Rollback];
        if retryCount < MaxRetries {
          RoundStep(db0.trace, retryCount - 1, true);
          // close the session, wait, and open a new one
          trace := trace + [Close, Reconnect];
          session := session + 1;
        } else {
          RetryingGivesUp(db0, true);
          r := Raised(Exhausted());
          return;
        }
      }
      assert false;
    }
  }
}
