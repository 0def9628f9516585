/** The transactional save of a battle result with bounded retry, against a database session
    in which every call may fail.

    DBConnector is the environment: its bodies choose nondeterministically among everything a
    MySQL session may do, so the contracts proved for BattleDB hold for every fault schedule.
    Two assumptions about the server are constants of the connector, so that each result says
    whether it needs them:
    - rollbackDrops: a failed ROLLBACK means the session is gone, its open work discarded;
    - commitTellsTruth: a COMMIT that fails with anything but a lost connection did not happen.

    For the question whether a save gets through at all, the field transientLeft may bound the
    faults still to come: Some(n) means that on a live session nothing fails any more but a
    statement of a transaction, because a unique key refuses it or, at most n times, by a
    deadlock or a lock timeout. */
module BattleDB {
  import opened BattleTables
  import opened Wrappers

  datatype ErrorCategory =
    NoError | DuplicateKey | Deadlock | LockTimeout | ConnectionLost | QueryFormatError | Unknown

  datatype Stage = NoStage | BeginTransaction | BattleHistory | PlayerBattleRecord | PlayerBattleStat | CommitStage

  datatype SaveResult = SaveResult(
    succeeded: bool,
    stage: Stage,
    error: ErrorCategory,
    rollbackAttempted: bool,
    rollbackSucceeded: bool,
    commitOutcomeUnknown: bool,
    attemptCount: nat,
    retryExhausted: bool)

  const DEFAULT_RESULT := SaveResult(false, NoStage, NoError, false, false, false, 1, false)

  const MAX_SAVE_ATTEMPTS: nat := 3

  /** Quiet: no transaction, statements commit by themselves. Open: one transaction with its
      uncommitted tables. Dropped: the connection is gone. */
  datatype Session = Quiet | Open(work: Tables) | Dropped

  /** One call on the connection, and whether it succeeded. */
  datatype Call = Began(ok: bool) | Ran(stmt: Statement, ok: bool) | Committed(ok: bool) | RolledBack(ok: bool)

  class DBConnector {
    var committed: Tables
    var session: Session
    var lastError: ErrorCategory
    var transientLeft: Option<nat>
    const rollbackDrops: bool
    const commitTellsTruth: bool
    /** All calls so far, in order. */
    ghost var calls: seq<Call>

    constructor (tables: Tables, transientLeft: Option<nat>, rollbackDrops: bool, commitTellsTruth: bool)
      ensures committed == tables && session == Quiet && this.transientLeft == transientLeft && calls == []
      ensures this.rollbackDrops == rollbackDrops && this.commitTellsTruth == commitTellsTruth
    {
      committed := tables;
      session := Quiet;
      lastError := NoError;
      this.transientLeft := transientLeft;
      this.rollbackDrops := rollbackDrops;
      this.commitTellsTruth := commitTellsTruth;
      calls := [];
    }

    /** Any error a failing call may report. */
    method Fail()
      modifies this`lastError
      ensures lastError != NoError
    {
      if {
        case true => lastError := DuplicateKey;
        case true => lastError := Deadlock;
        case true => lastError := LockTimeout;
        case true => lastError := ConnectionLost;
        case true => lastError := QueryFormatError;
        case true => lastError := Unknown;
      }
    }

    /** BEGIN. A transaction still open is committed first, as MySQL does. */
    method BeginTransaction() returns (ok: bool)
      modifies this`committed, this`session, this`lastError, this`calls
      ensures calls == old(calls) + [Began(ok)]
      ensures transientLeft.Some? && old(session) != Dropped ==> ok
      ensures ok ==> old(session) != Dropped && session == Open(committed)
      ensures old(session) == Dropped ==> session == Dropped
      ensures !ok ==> session == Quiet || session == Dropped || session == old(session)
      ensures !ok && session.Open? ==> session == old(session) && committed == old(committed)
      ensures committed == old(committed) || (old(session).Open? && committed == old(session).work)
      ensures ok && old(session).Open? ==> committed == old(session).work
      ensures !ok ==> lastError != NoError
    {
      lastError := NoError;
      ok := false;
      var passes: bool := *;
      if session == Dropped {
        Fail();
      } else if passes || transientLeft.Some? {
        if session.Open? {
          committed := session.work;
        }
        session := Open(committed);
        ok := true;
      } else {
        var done: bool := *;
        if session.Open? && done {
          committed := session.work;
          session := Quiet;
        } else if * {
          session := Quiet;
        }
        if * {
          session := Dropped;
        }
        Fail();
      }
      calls := calls + [Began(ok)];
    }

    /** One statement. If it fails, its own effect is undone and the transaction may survive,
        be rolled back as a whole, or die with the connection. */
    method QuerySave(stmt: Statement) returns (ok: bool)
      modifies this
      ensures calls == old(calls) + [Ran(stmt, ok)]
      ensures ok && old(session).Open? ==>
        && Effect(old(session).work, stmt).Some? && session == Open(Effect(old(session).work, stmt).value)
        && committed == old(committed)
      ensures ok && old(session) == Quiet ==>
        Effect(old(committed), stmt) == Some(committed) && session == Quiet
      ensures old(session) == Dropped ==> !ok && session == Dropped
      ensures !ok ==> committed == old(committed) && (session == old(session) || session == Quiet || session == Dropped)
      ensures !ok ==> lastError != NoError
      ensures transientLeft.Some? <==> old(transientLeft).Some?
      ensures transientLeft.Some? && old(session).Open? ==>
        StatementCalm(old(session).work, stmt, ok, session, lastError, old(transientLeft).value, transientLeft.value)
    {
      lastError := NoError;
      ok := false;
      match session {
        case Dropped =>
        case Open(work) =>
          var passes: bool := *;
          if transientLeft.Some? && Effect(work, stmt).None? {
            lastError := DuplicateKey;
            calls := calls + [Ran(stmt, false)];
            return;
          }
          if transientLeft.Some? && transientLeft.value > 0 && !passes {
            transientLeft := Some(transientLeft.value - 1);
            if * {
              lastError := Deadlock;
              session := Quiet;
            } else {
              lastError := LockTimeout;
            }
            calls := calls + [Ran(stmt, false)];
            return;
          }
          if Effect(work, stmt).Some? && (passes || transientLeft.Some?) {
            session := Open(Effect(work, stmt).value);
            ok := true;
          } else if * {
            session := Quiet;
          } else if * {
            session := Dropped;
          }
        case Quiet =>
          var passes: bool := *;
          if Effect(committed, stmt).Some? && passes {
            committed := Effect(committed, stmt).value;
            ok := true;
          } else if * {
            session := Dropped;
          }
      }
      if !ok {
        Fail();
      }
      calls := calls + [Ran(stmt, ok)];
    }

    /** COMMIT. When it fails the work may be committed all the same, still open, or lost. */
    method Commit() returns (ok: bool)
      modifies this`committed, this`session, this`lastError, this`calls
      ensures calls == old(calls) + [Committed(ok)]
      ensures transientLeft.Some? && old(session) != Dropped ==> ok
      ensures old(session) == Dropped ==> !ok && session == Dropped
      ensures ok ==> session == Quiet && committed == if old(session).Open? then old(session).work else old(committed)
      ensures committed == old(committed) || (old(session).Open? && committed == old(session).work && !session.Open?)
      ensures session == old(session) || session == Quiet || session == Dropped
      ensures !ok ==> lastError != NoError
      ensures !ok && commitTellsTruth && committed != old(committed) ==> lastError == ConnectionLost
    {
      lastError := NoError;
      ok := false;
      var passes: bool := *;
      if session == Dropped {
        Fail();
      } else if passes || transientLeft.Some? {
        if session.Open? {
          committed := session.work;
        }
        session := Quiet;
        ok := true;
      } else {
        Fail();
        var done: bool := *;
        if session.Open? && (!commitTellsTruth || lastError == ConnectionLost) && done {
          committed := session.work;
          session := Quiet;
        }
        if * {
          session := Quiet;
        } else if * {
          session := Dropped;
        }
      }
      calls := calls + [Committed(ok)];
    }

    /** ROLLBACK. */
    method Rollback() returns (ok: bool)
      modifies this`session, this`lastError, this`calls
      ensures calls == old(calls) + [RolledBack(ok)]
      ensures transientLeft.Some? && old(session) != Dropped ==> ok
      ensures ok ==> old(session) != Dropped && session == Quiet
      ensures !ok ==> session == Dropped || (!rollbackDrops && session == old(session))
    {
      lastError := NoError;
      var passes: bool := *;
      if session != Dropped && (passes || transientLeft.Some?) {
        session := Quiet;
        ok := true;
      } else {
        var dies: bool := *;
        if rollbackDrops || dies {
          session := Dropped;
        }
        Fail();
        ok := false;
      }
      calls := calls + [RolledBack(ok)];
    }
  }

  /** IsRetryableSaveError. */
  predicate IsRetryable(r: SaveResult) {
    if r.commitOutcomeUnknown then false
    else if r.rollbackAttempted && !r.rollbackSucceeded then false
    else if r.stage == CommitStage then false
    else r.error == Deadlock || r.error == LockTimeout
  }

  /** What one attempt guarantees about the committed tables, from `before` to `after`. */
  ghost predicate AllOrNothing(before: Tables, result: BattleResult, r: SaveResult, after: Tables) {
    && (after == before || ApplyResult(before, result) == Some(after))
    && (r.succeeded ==> ApplyResult(before, result) == Some(after))
    && (!r.succeeded && r.stage != CommitStage ==> after == before)
    && (IsRetryable(r) && !r.succeeded ==> after == before)
  }

  class BattleDB {
    const db: DBConnector

    constructor (db: DBConnector)
      ensures this.db == db
    {
      this.db := db;
    }

    method InsertBattleHistory(result: BattleResult) returns (ok: bool)
      requires db.session.Open?
      modifies db
      ensures db.calls == old(db.calls) + [Ran(InsertHistory(result), ok)]
      ensures StatementPost(old(db.session).work, InsertHistory(result), ok, db.session, db.lastError)
      ensures db.committed == old(db.committed)
      ensures db.transientLeft.Some? <==> old(db.transientLeft).Some?
      ensures db.transientLeft.Some? ==>
        StatementCalm(old(db.session).work, InsertHistory(result), ok, db.session, db.lastError,
                      old(db.transientLeft).value, db.transientLeft.value)
    {
      ok := db.QuerySave(InsertHistory(result));
    }

    method InsertPlayerBattleRecords(result: BattleResult) returns (ok: bool)
      requires db.session.Open?
      modifies db
      ensures db.calls == old(db.calls) + [Ran(InsertRecords(result), ok)]
      ensures StatementPost(old(db.session).work, InsertRecords(result), ok, db.session, db.lastError)
      ensures db.committed == old(db.committed)
      ensures db.transientLeft.Some? <==> old(db.transientLeft).Some?
      ensures db.transientLeft.Some? ==>
        StatementCalm(old(db.session).work, InsertRecords(result), ok, db.session, db.lastError,
                      old(db.transientLeft).value, db.transientLeft.value)
    {
      ok := db.QuerySave(InsertRecords(result));
    }

    method UpsertPlayerBattleStats(result: BattleResult) returns (ok: bool)
      requires db.session.Open?
      modifies db
      ensures db.calls == old(db.calls) + [Ran(UpsertStats(result), ok)]
      ensures StatementPost(old(db.session).work, UpsertStats(result), ok, db.session, db.lastError)
      ensures db.committed == old(db.committed)
      ensures db.transientLeft.Some? <==> old(db.transientLeft).Some?
      ensures db.transientLeft.Some? ==>
        StatementCalm(old(db.session).work, UpsertStats(result), ok, db.session, db.lastError,
                      old(db.transientLeft).value, db.transientLeft.value)
    {
      ok := db.QuerySave(UpsertStats(result));
    }

    /** A failed statement: note the error, roll back, report the stage. */
    method Abandon(stage: Stage) returns (r: SaveResult)
      requires db.lastError != NoError
      modifies db`session, db`lastError, db`calls
      ensures db.calls == old(db.calls) + [RolledBack(r.rollbackSucceeded)]
      ensures db.transientLeft.Some? && old(db.session) != Dropped ==> r.rollbackSucceeded
      ensures r.rollbackSucceeded ==> db.session == Quiet
      ensures !r.rollbackSucceeded ==> db.session == Dropped || (!db.rollbackDrops && db.session == old(db.session))
      ensures r == DEFAULT_RESULT.(stage := stage, error := old(db.lastError), rollbackAttempted := true,
                                   rollbackSucceeded := r.rollbackSucceeded)
    {
      var originalError := db.lastError;
      var rollbackSucceeded := db.Rollback();
      r := DEFAULT_RESULT.(stage := stage, error := originalError, rollbackAttempted := true,
                           rollbackSucceeded := rollbackSucceeded);
    }

    /** The part of an attempt behind BEGIN: three statements and COMMIT. */
    method Transact(result: BattleResult) returns (r: SaveResult)
      requires db.session == Open(db.committed)
      modifies db
      ensures r.stage != BeginTransaction && db.calls == Behind(old(db.calls), result, r)
      ensures AllOrNothing(old(db.committed), result, r, db.committed)
      ensures Reported(r) && r.attemptCount == 1 && !r.retryExhausted
      ensures db.transientLeft.Some? <==> old(db.transientLeft).Some?
      ensures db.transientLeft.Some? ==>
        && db.session == Quiet
        && AttemptCalm(old(db.committed), result, r, old(db.transientLeft).value, db.transientLeft.value)
      ensures db.session.Open? ==> !db.rollbackDrops && r.rollbackAttempted && !r.rollbackSucceeded
      ensures db.commitTellsTruth && !r.succeeded && !r.commitOutcomeUnknown ==> db.committed == old(db.committed)
    {
      var ok := InsertBattleHistory(result);
      if !ok {
        r := Abandon(BattleHistory);
        return;
      }
      ok := InsertPlayerBattleRecords(result);
      if !ok {
        r := Abandon(PlayerBattleRecord);
        return;
      }
      ok := UpsertPlayerBattleStats(result);
      if !ok {
        r := Abandon(PlayerBattleStat);
        return;
      }
      ok := db.Commit();
      if !ok {
        r := Abandon(CommitStage);
        r := r.(commitOutcomeUnknown := r.error == ConnectionLost || !r.rollbackSucceeded);
        return;
      }
      return DEFAULT_RESULT.(succeeded := true);
    }

    /** One attempt: the result is stored whole or not at all, on top of the committed tables or,
        if an earlier failed ROLLBACK left a transaction open and BEGIN committed it, on top of
        that one's work. */
    method SaveBattleResultOnce(result: BattleResult) returns (r: SaveResult)
      modifies db
      ensures db.calls == old(db.calls) + Attempt(result, r)
      ensures AllOrNothing(Base(old(db.committed), old(db.session), r, db.committed), result, r, db.committed)
      ensures r.stage == BeginTransaction ==>
        db.committed == old(db.committed) || (old(db.session).Open? && db.committed == old(db.session).work)
      ensures Reported(r) && r.attemptCount == 1 && !r.retryExhausted
      ensures db.transientLeft.Some? <==> old(db.transientLeft).Some?
      ensures old(db.session) == Quiet && db.transientLeft.Some? ==>
        && db.session == Quiet
        && AttemptCalm(old(db.committed), result, r, old(db.transientLeft).value, db.transientLeft.value)
      ensures db.session.Open? ==>
        || (r.stage == BeginTransaction && db.session == old(db.session) && db.committed == old(db.committed))
        || (!db.rollbackDrops && r.rollbackAttempted && !r.rollbackSucceeded)
      ensures db.commitTellsTruth && !r.succeeded && !r.commitOutcomeUnknown ==>
        db.committed == Base(old(db.committed), old(db.session), r, db.committed)
    {
      var ok := db.BeginTransaction();
      if !ok {
        return DEFAULT_RESULT.(stage := BeginTransaction, error := db.lastError);
      }
      r := Transact(result);
      BehindBegin(old(db.calls), result, r);
    }

    /** The bounded retry: whatever faults hit which attempt, the result is stored at most once
        and completely; success means stored; a failure outside COMMIT, and an exhausted retry,
        mean not stored. `base` is what it is stored on: the committed tables, unless the call
        found a transaction open and a BEGIN committed its work first. On a live session with
        fewer transient faults to come than attempts, exactly the results that the unique keys
        admit are saved, with one attempt per fault and one more. */
    method SaveBattleResult(result: BattleResult) returns (r: SaveResult, ghost base: Tables, ghost tries: seq<SaveResult>)
      modifies db
      ensures db.calls == Attempts(old(db.calls), result, tries)
      ensures |tries| == r.attemptCount && Retried(tries) && LastTry(tries[|tries| - 1], r)
      ensures base == old(db.committed) || (old(db.session).Open? && base == old(db.session).work)
      ensures r.attemptCount == 1 ==> base == Base(old(db.committed), old(db.session), r, db.committed)
      ensures AllOrNothing(base, result, r, db.committed)
      ensures Reported(r) && 1 <= r.attemptCount <= MAX_SAVE_ATTEMPTS
      ensures db.session.Open? ==>
        || (r.stage == BeginTransaction && db.session == old(db.session) && db.committed == old(db.committed))
        || (!db.rollbackDrops && r.rollbackAttempted && !r.rollbackSucceeded)
      ensures db.commitTellsTruth && !r.succeeded && !r.commitOutcomeUnknown ==> db.committed == base
      ensures result.matchID in base.history ==> !r.succeeded && db.committed == base
      ensures r.retryExhausted <==> !r.succeeded && IsRetryable(r)
      ensures r.retryExhausted ==> r.attemptCount == MAX_SAVE_ATTEMPTS && db.committed == base
      ensures old(db.session) == Quiet && old(db.transientLeft).Some? && old(db.transientLeft).value < MAX_SAVE_ATTEMPTS ==>
        && db.session == Quiet && db.transientLeft.Some?
        && (r.succeeded <==> ApplyResult(old(db.committed), result).Some?)
        && r.attemptCount == 1 + old(db.transientLeft).value - db.transientLeft.value
    {
      var attempt := 1;
      tries := [];
      while attempt <= MAX_SAVE_ATTEMPTS
        invariant 1 <= attempt <= MAX_SAVE_ATTEMPTS
        invariant attempt == 1 ==> db.committed == old(db.committed) && db.session == old(db.session)
        invariant db.calls == Attempts(old(db.calls), result, tries)
        invariant |tries| == attempt - 1 && AllRetryable(tries)
        invariant db.session.Open? ==> db.session == old(db.session) && db.committed == old(db.committed)
        invariant db.committed == old(db.committed) || (old(db.session).Open? && db.committed == old(db.session).work)
        invariant db.transientLeft.Some? <==> old(db.transientLeft).Some?
        invariant old(db.session) == Quiet && db.transientLeft.Some? ==>
          db.session == Quiet && db.transientLeft.value + attempt == old(db.transientLeft).value + 1
        decreases MAX_SAVE_ATTEMPTS - attempt
      {
        ghost var before, session := db.committed, db.session;
        r := SaveBattleResultOnce(result);
        base := Base(before, session, r, db.committed);
        AttemptsSnoc(old(db.calls), result, tries, r);
        RetriedSnoc(tries, r);
        tries := tries + [r];
        r := r.(attemptCount := attempt);
        if r.succeeded {
          return;
        }
        if !IsRetryable(r) {
          return;
        }
        if attempt == MAX_SAVE_ATTEMPTS {
          r := r.(retryExhausted := true);
          return;
        }
        attempt := attempt + 1;
      }
      assert false;
    }

    /** A DB worker serving its queue of requests in order. The tables end up as if the requests
        marked in `stored`, in this order, had been applied one after another, each match at most
        once; every request reported as saved is marked, so no two of the same match are, and
        every other marked one failed at COMMIT. */
    method Serve(requests: seq<BattleResult>) returns (outcomes: seq<SaveResult>, ghost stored: seq<bool>)
      requires !db.session.Open? && db.rollbackDrops && Consistent(db.committed)
      modifies db
      ensures |outcomes| == |requests| && Consistent(db.committed)
      ensures Served(old(db.committed), requests, outcomes, stored, db.committed)
    {
      outcomes, stored := [], [];
      var n := 0;
      while n < |requests|
        invariant 0 <= n <= |requests| && |outcomes| == n && !db.session.Open?
        invariant Served(old(db.committed), requests, outcomes, stored, db.committed)
      {
        ghost var before := db.committed;
        var r;
        ghost var base, tries;
        r, base, tries := SaveBattleResult(requests[n]);
        ServedNext(old(db.committed), requests, outcomes, stored, before, r, db.committed);
        stored := stored + [db.committed != before];
        outcomes := outcomes + [r];
        n := n + 1;
      }
      ApplyAllConsistent(old(db.committed), Kept(requests, stored));
    }
  }

  /** The marked requests, in order. */
  function Kept(requests: seq<BattleResult>, stored: seq<bool>): seq<BattleResult>
    requires |stored| <= |requests|
    decreases |stored|
  {
    if stored == [] then []
    else
      var n := |stored| - 1;
      Kept(requests, stored[..n]) + if stored[n] then [requests[n]] else []
  }

  lemma KeptSnoc(requests: seq<BattleResult>, stored: seq<bool>, more: bool)
    requires |stored| < |requests|
    ensures Kept(requests, stored + [more]) == Kept(requests, stored) + if more then [requests[|stored|]] else []
  {
    assert (stored + [more])[..|stored|] == stored;
  }

  /** The marked requests applied to t0 in order give the present tables; their matches differ;
      every success is marked, and what else is marked failed at COMMIT. */
  ghost predicate Served(t0: Tables, requests: seq<BattleResult>, outcomes: seq<SaveResult>, stored: seq<bool>, now: Tables) {
    && |stored| == |outcomes| <= |requests|
    && ApplyAll(t0, Kept(requests, stored)) == Some(now)
    && Marked(requests, outcomes, stored, now.history)
  }

  ghost predicate Marked(requests: seq<BattleResult>, outcomes: seq<SaveResult>, stored: seq<bool>, history: map<int, int>)
    requires |stored| == |outcomes| <= |requests|
  {
    && (forall i :: 0 <= i < |stored| && outcomes[i].succeeded ==> stored[i])
    && (forall i :: 0 <= i < |stored| && stored[i] ==> outcomes[i].succeeded || outcomes[i].stage == CommitStage)
    && (forall i :: 0 <= i < |stored| && stored[i] ==> requests[i].matchID in history)
    && (forall i, j :: 0 <= i < j < |stored| && stored[i] && stored[j] ==> requests[i].matchID != requests[j].matchID)
  }

  lemma MarkedNext(requests: seq<BattleResult>, outcomes: seq<SaveResult>, stored: seq<bool>, history: map<int, int>,
                   r: SaveResult, more: bool, history': map<int, int>)
    requires |stored| == |outcomes| < |requests| && Marked(requests, outcomes, stored, history)
    requires (r.succeeded ==> more) && (more ==> r.succeeded || r.stage == CommitStage)
    requires history.Keys <= history'.Keys
    requires more ==> requests[|stored|].matchID !in history && requests[|stored|].matchID in history'
    ensures Marked(requests, outcomes + [r], stored + [more], history')
  {
  }

  /** How one save changes the history. */
  lemma SaveAdds(before: Tables, b: BattleResult, r: SaveResult, after: Tables)
    requires AllOrNothing(before, b, r, after)
    ensures r.succeeded ==> after != before
    ensures after != before ==> b.matchID !in before.history && after.history == before.history[b.matchID := b.winnerTeam]
  {
    if ApplyResult(before, b) == Some(after) {
      ApplyHistory(before, b);
    }
  }

  lemma ServedNext(t0: Tables, requests: seq<BattleResult>, outcomes: seq<SaveResult>, stored: seq<bool>,
                   before: Tables, r: SaveResult, after: Tables)
    requires Served(t0, requests, outcomes, stored, before) && |outcomes| < |requests|
    requires AllOrNothing(before, requests[|outcomes|], r, after)
    ensures Served(t0, requests, outcomes + [r], stored + [after != before], after)
  {
    SaveAdds(before, requests[|outcomes|], r, after);
    MarkedNext(requests, outcomes, stored, before.history, r, after != before, after.history);
    KeptSnoc(requests, stored, after != before);
    if after != before {
      ApplyAllSnoc(t0, Kept(requests, stored), requests[|outcomes|]);
    } else {
      assert Kept(requests, stored) + [] == Kept(requests, stored);
    }
  }

  /** The calls of one attempt, by the stage it reports: everything up to the first call that fails,
      then ROLLBACK, unless it was BEGIN that failed. */
  function Attempt(b: BattleResult, r: SaveResult): seq<Call> {
    var history, records, stats := Ran(InsertHistory(b), true), Ran(InsertRecords(b), true), Ran(UpsertStats(b), true);
    match r.stage
    case BeginTransaction => [Began(false)]
    case BattleHistory => [Began(true), Ran(InsertHistory(b), false), RolledBack(r.rollbackSucceeded)]
    case PlayerBattleRecord => [Began(true), history, Ran(InsertRecords(b), false), RolledBack(r.rollbackSucceeded)]
    case PlayerBattleStat => [Began(true), history, records, Ran(UpsertStats(b), false), RolledBack(r.rollbackSucceeded)]
    case CommitStage => [Began(true), history, records, stats, Committed(false), RolledBack(r.rollbackSucceeded)]
    case NoStage => [Began(true), history, records, stats, Committed(true)]
  }

  /** The same behind BEGIN, added to earlier calls one by one. */
  function Behind(calls: seq<Call>, b: BattleResult, r: SaveResult): seq<Call>
    requires r.stage != BeginTransaction
  {
    var end := RolledBack(r.rollbackSucceeded);
    var one := calls + [Ran(InsertHistory(b), r.stage != BattleHistory)];
    if r.stage == BattleHistory then one + [end]
    else
      var two := one + [Ran(InsertRecords(b), r.stage != PlayerBattleRecord)];
      if r.stage == PlayerBattleRecord then two + [end]
      else
        var three := two + [Ran(UpsertStats(b), r.stage != PlayerBattleStat)];
        if r.stage == PlayerBattleStat then three + [end]
        else if r.stage == CommitStage then three + [Committed(false)] + [end]
        else three + [Committed(true)]
  }

  lemma BehindBegin(calls: seq<Call>, b: BattleResult, r: SaveResult)
    requires r.stage != BeginTransaction
    ensures Behind(calls + [Began(true)], b, r) == calls + Attempt(b, r)
  {
  }

  /** Earlier calls, then those of several attempts, one after another. */
  function Attempts(calls: seq<Call>, b: BattleResult, tries: seq<SaveResult>): seq<Call>
    decreases |tries|
  {
    if tries == [] then calls
    else Attempts(calls, b, tries[..|tries| - 1]) + Attempt(b, tries[|tries| - 1])
  }

  lemma AttemptsSnoc(calls: seq<Call>, b: BattleResult, tries: seq<SaveResult>, r: SaveResult)
    ensures Attempts(calls, b, tries + [r]) == Attempts(calls, b, tries) + Attempt(b, r)
  {
    assert (tries + [r])[..|tries|] == tries;
  }

  predicate AllRetryable(tries: seq<SaveResult>) {
    forall i :: 0 <= i < |tries| ==> !tries[i].succeeded && IsRetryable(tries[i])
  }

  lemma RetriedSnoc(tries: seq<SaveResult>, r: SaveResult)
    requires AllRetryable(tries) && |tries| < MAX_SAVE_ATTEMPTS
    ensures !r.succeeded && IsRetryable(r) ==> AllRetryable(tries + [r])
    ensures r.succeeded || !IsRetryable(r) || |tries| + 1 == MAX_SAVE_ATTEMPTS ==> Retried(tries + [r])
  {
    assert (tries + [r])[..|tries|] == tries;
  }

  /** Every attempt but the last failed with an error that may be retried, and the last one did not,
      or was the last that is allowed. */
  predicate Retried(tries: seq<SaveResult>) {
    && 1 <= |tries| <= MAX_SAVE_ATTEMPTS
    && AllRetryable(tries[..|tries| - 1])
    && var last := tries[|tries| - 1];
       last.succeeded || !IsRetryable(last) || |tries| == MAX_SAVE_ATTEMPTS
  }

  /** What is reported is the last attempt, but for the fields about the retry. */
  predicate LastTry(last: SaveResult, r: SaveResult) {
    r == last.(attemptCount := r.attemptCount, retryExhausted := r.retryExhausted)
  }

  /** What a call that returned r is built on: a transaction it found open is committed by BEGIN,
      unless BEGIN itself failed and left the committed tables alone. */
  function Base(before: Tables, session: Session, r: SaveResult, after: Tables): Tables {
    if session.Open? && (r.stage != BeginTransaction || after != before) then session.work else before
  }

  /** A statement while the remaining faults are bounded: refused by a unique key, or hit by one
      of the transient faults, or done. */
  ghost predicate StatementCalm(work: Tables, stmt: Statement, ok: bool, session: Session, error: ErrorCategory,
                                left: nat, left': nat)
  {
    if Effect(work, stmt).None? then !ok && error == DuplicateKey && session == Open(work) && left' == left
    else if ok then left' == left
    else (error == Deadlock || error == LockTimeout) && session != Dropped && left' + 1 == left
  }

  /** One attempt while the remaining faults are bounded: saved, refused for good, or hit by a
      transient fault. */
  ghost predicate AttemptCalm(before: Tables, result: BattleResult, r: SaveResult, left: nat, left': nat) {
    if r.succeeded then left' == left
    else if IsRetryable(r) then left' + 1 == left
    else ApplyResult(before, result).None? && left' == left
  }

  /** What a statement of an open transaction leaves behind. */
  ghost predicate StatementPost(work: Tables, stmt: Statement, ok: bool, session: Session, error: ErrorCategory) {
    && (ok ==> Effect(work, stmt).Some? && session == Open(Effect(work, stmt).value))
    && (!ok ==> (session == Open(work) || session == Quiet || session == Dropped) && error != NoError)
  }

  /** How the fields of a report hang together. */
  predicate Reported(r: SaveResult) {
    && (r.succeeded <==> r.stage == NoStage)
    && (r.rollbackAttempted <==> r.stage != NoStage && r.stage != BeginTransaction)
    && (r.rollbackSucceeded ==> r.rollbackAttempted)
    && (r.commitOutcomeUnknown <==> r.stage == CommitStage && (r.error == ConnectionLost || !r.rollbackSucceeded))
    && (!r.succeeded <==> r.error != NoError)
  }
}
