/**
 * The PostgreSQL transaction wrapper (`src/database/postgres/transaction.js`).
 *
 * `transaction(perform, txClient)` either opens a savepoint on a client that
 * is already inside a transaction, or takes a new connection and runs
 * BEGIN/COMMIT around the unit of work, rolling back on any failure.
 *
 * The unit of work is abstract: the statements it issues on the client it
 * is handed and how it ends. Server failures of the wrapper's own statements
 * are given as a map from statement to error; each of them is issued at most
 * once per call.
 */
module PgTransaction {
  import opened Lists

  datatype Statement =
    | Begin | Commit | Rollback
    | Savepoint | RollbackToSavepoint | ReleaseSavepoint
    | Sql(text: string)   // a statement of the unit of work itself

  const SavepointName: string := "nodebb_subtx"

  /** The text sent to the server. */
  function SqlText(s: Statement): string {
    match s
    case Begin => "BEGIN"
    case Commit => "COMMIT"
    case Rollback => "ROLLBACK"
    case Savepoint => "SAVEPOINT " + SavepointName
    case RollbackToSavepoint => "ROLLBACK TO SAVEPOINT " + SavepointName
    case ReleaseSavepoint => "RELEASE SAVEPOINT " + SavepointName
    case Sql(text) => text
  }

  datatype Error = Error(message: string)

  /** How an async call settles: it returns a value or throws. */
  datatype Outcome<T> = Returned(value: T) | Threw(error: Error)

  /** `perform(client)`: the statements it issues and how it settles. */
  datatype Work<T> = Work(statements: seq<Statement>, outcome: Outcome<T>)

  /** Errors the server reports for the wrapper's own statements. */
  type Faults = map<Statement, Error>

  /** What one call issues on its client, in order, and how it settles. */
  datatype Run<T> = Run(log: seq<Statement>, outcome: Outcome<T>)

  /** A wrapper statement either fails with its fault or goes through. */
  function Check(s: Statement, faults: Faults): Option<Error> {
    if s in faults then Some(faults[s]) else None
  }

  /**
   * The nested path: SAVEPOINT, the work, then RELEASE on success or
   * ROLLBACK TO and a rethrow on failure. A failing SAVEPOINT or RELEASE
   * propagates; a failing ROLLBACK TO replaces the work's error.
   */
  function Nested<T>(work: Work<T>, faults: Faults): (r: Run<T>)
    ensures |r.log| > 0 && r.log[0] == Savepoint
    ensures forall st :: st in r.log ==>
      st in work.statements || st in {Savepoint, RollbackToSavepoint, ReleaseSavepoint}
    ensures Savepoint in faults ==> r == Run([Savepoint], Threw(faults[Savepoint]))
    ensures Savepoint !in faults && work.outcome.Threw? ==>
      r.log == [Savepoint] + work.statements + [RollbackToSavepoint] &&
      r.outcome == Threw(if RollbackToSavepoint in faults then faults[RollbackToSavepoint] else work.outcome.error)
    ensures Savepoint !in faults && work.outcome.Returned? ==>
      r.log == [Savepoint] + work.statements + [ReleaseSavepoint] &&
      r.outcome == (if ReleaseSavepoint in faults then Threw(faults[ReleaseSavepoint]) else work.outcome)
    ensures r.log[|r.log| - 1] == ReleaseSavepoint <==> Savepoint !in faults && work.outcome.Returned?
    ensures r.outcome.Returned? <==> Savepoint !in faults && ReleaseSavepoint !in faults && work.outcome.Returned?
  {
    match Check(Savepoint, faults)
    case Some(e) => Run([Savepoint], Threw(e))
    case None =>
      match work.outcome
      case Threw(e) =>
        Run([Savepoint] + work.statements + [RollbackToSavepoint],
            match Check(RollbackToSavepoint, faults) case Some(e2) => Threw(e2) case None => Threw(e))
      case Returned(v) =>
        Run([Savepoint] + work.statements + [ReleaseSavepoint],
            match Check(ReleaseSavepoint, faults) case Some(e2) => Threw(e2) case None => Returned(v))
  }

  /**
   * The top-level path once a connection is held: BEGIN, the work, COMMIT;
   * a failure of any of the three issues ROLLBACK and rethrows (a failing
   * ROLLBACK throws its own error instead).
   */
  function TopLevel<T>(work: Work<T>, faults: Faults): (r: Run<T>)
    ensures |r.log| > 1 && r.log[0] == Begin && r.log[|r.log| - 1] in {Commit, Rollback}
    ensures forall st :: st in r.log ==> st in work.statements || st in {Begin, Commit, Rollback}
    ensures r.outcome.Threw? <==> r.log[|r.log| - 1] == Rollback
    ensures r.outcome.Returned? <==> Begin !in faults && Commit !in faults && work.outcome.Returned?
    ensures r.outcome.Returned? ==> r.outcome == work.outcome && r.log == [Begin] + work.statements + [Commit]
    ensures Begin in faults ==>
      r.log == [Begin, Rollback] &&
      r.outcome == Threw(if Rollback in faults then faults[Rollback] else faults[Begin])
    ensures Begin !in faults && work.outcome.Threw? ==>
      r.log == [Begin] + work.statements + [Rollback] &&
      r.outcome == Threw(if Rollback in faults then faults[Rollback] else work.outcome.error)
    ensures Begin !in faults && work.outcome.Returned? && Commit in faults ==>
      r.log == [Begin] + work.statements + [Commit, Rollback] &&
      r.outcome == Threw(if Rollback in faults then faults[Rollback] else faults[Commit])
  {
    match Check(Begin, faults)
    case Some(e) => Run([Begin, Rollback], AfterRollback(e, faults))
    case None =>
      match work.outcome
      case Threw(e) => Run([Begin] + work.statements + [Rollback], AfterRollback(e, faults))
      case Returned(v) =>
        match Check(Commit, faults)
        case Some(e) => Run([Begin] + work.statements + [Commit, Rollback], AfterRollback(e, faults))
        case None => Run([Begin] + work.statements + [Commit], Returned(v))
  }

  /** The catch block of the top-level path: ROLLBACK, then rethrow; a failing ROLLBACK throws instead. */
  function AfterRollback<T>(e: Error, faults: Faults): Outcome<T> {
    match Check(Rollback, faults)
    case Some(e2) => Threw(e2)
    case None => Threw(e)
  }

  /** A pooled connection; `log` is every statement issued on it, in order. */
  class Client {
    var log: seq<Statement>

    constructor ()
      ensures log == []
    {
      log := [];
    }

    /** `client.query(sql)`: issued, then settles with the server's answer. */
    method Query(s: Statement, faults: Faults) returns (failure: Option<Error>)
      modifies this
      ensures log == old(log) + [s]
      ensures failure == Check(s, faults)
    {
      log := log + [s];
      failure := Check(s, faults);
    }

    /** `perform(client)`: the unit of work issues its statements on this client. */
    method Perform<T>(work: Work<T>) returns (outcome: Outcome<T>)
      modifies this
      ensures log == old(log) + work.statements
      ensures outcome == work.outcome
    {
      log := log + work.statements;
      outcome := work.outcome;
    }
  }

  /**
   * `transaction(perform, txClient)`. With a client the nested path runs on
   * it and no connection is taken; without one, `db.connect()` either fails
   * (nothing is issued) or yields a fresh client for the top-level path.
   * `client` is the connection the work ran on.
   */
  method Transaction<T>(work: Work<T>, txClient: Client?, connectFailure: Option<Error>, faults: Faults)
    returns (outcome: Outcome<T>, client: Client?)
    modifies txClient
    ensures txClient != null ==> client == txClient
    ensures txClient != null ==> txClient.log == old(txClient.log) + Nested(work, faults).log
    ensures txClient != null ==> outcome == Nested(work, faults).outcome
    ensures txClient == null && connectFailure.Some? ==> client == null && outcome == Threw(connectFailure.value)
    ensures txClient == null && connectFailure.None? ==>
      client != null && fresh(client) && client.log == TopLevel(work, faults).log &&
      outcome == TopLevel(work, faults).outcome
  {
    if txClient != null {
      var failure := txClient.Query(Savepoint, faults);
      if failure.Some? {
        return Threw(failure.value), txClient;
      }
      var res := txClient.Perform(work);
      if res.Threw? {
        failure := txClient.Query(RollbackToSavepoint, faults);
        if failure.Some? {
          return Threw(failure.value), txClient;
        }
        return Threw(res.error), txClient;
      }
      failure := txClient.Query(ReleaseSavepoint, faults);
      if failure.Some? {
        return Threw(failure.value), txClient;
      }
      return res, txClient;
    }

    if connectFailure.Some? {
      return Threw(connectFailure.value), null;
    }
    var c := new Client();
    client := c;
    var thrown: Option<Error> := None;
    var res: Outcome<T>;
    var failure := c.Query(Begin, faults);
    if failure.Some? {
      thrown := failure;
    } else {
      res := c.Perform(work);
      if res.Threw? {
        thrown := Some(res.error);
      } else {
        failure := c.Query(Commit, faults);
        thrown := failure;
      }
    }
    if thrown.Some? {
      failure := c.Query(Rollback, faults);
      if failure.Some? {
        return Threw(failure.value), c;
      }
      return Threw(thrown.value), c;
    }
    outcome := res;
  }

  // ---------------------------------------------------------------------
  // What the issued statements mean to the server

  /**
   * A connection's server-side state: the work committed so far, the
   * uncommitted work of the open transaction, one frame per savepoint level
   * (innermost last), and whether an error has aborted that transaction.
   */
  datatype Session = Session(committed: seq<string>, open: Option<seq<seq<string>>>, aborted: bool)

  /** All uncommitted work of the open transaction, in order. */
  function Pending(s: Session): seq<string> {
    match s.open
    case None => []
    case Some(frames) => Flatten(frames)
  }

  /** Adds work to the innermost frame. */
  function AddToInnermost(frames: seq<seq<string>>, work: seq<string>): (r: seq<seq<string>>)
    ensures |r| == if frames == [] then 1 else |frames|
  {
    if frames == [] then [work]
    else frames[..|frames| - 1] + [frames[|frames| - 1] + work]
  }

  /**
   * One statement that the server did not reject. ROLLBACK TO keeps its
   * savepoint open (emptied); RELEASE folds it into the level below. An
   * aborted transaction carries out only ROLLBACK, ROLLBACK TO, which
   * clears the abort, and COMMIT, which rolls back; it refuses the rest.
   */
  function Apply(s: Session, stmt: Statement): Session {
    if s.aborted then
      match stmt
      case Rollback => Session(s.committed, None, false)
      case Commit => Session(s.committed, None, false)
      case RollbackToSavepoint =>
        if s.open.Some? && |s.open.value| >= 2 then
          Session(s.committed, Some(s.open.value[..|s.open.value| - 1] + [[]]), false)
        else s
      case _ => s
    else
    match stmt
    case Begin => if s.open.None? then s.(open := Some([[]])) else s
    case Commit => if s.open.Some? then Session(s.committed + Pending(s), None, false) else s
    case Rollback => s.(open := None)
    case Savepoint => if s.open.Some? then s.(open := Some(s.open.value + [[]])) else s
    case RollbackToSavepoint =>
      if s.open.Some? && |s.open.value| >= 2 then
        s.(open := Some(s.open.value[..|s.open.value| - 1] + [[]]))
      else s
    case ReleaseSavepoint =>
      if s.open.Some? && |s.open.value| >= 2 then
        var f := s.open.value;
        s.(open := Some(AddToInnermost(f[..|f| - 1], f[|f| - 1])))
      else s
    case Sql(text) =>
      match s.open
      case None => s.(committed := s.committed + [text])
      case Some(f) => s.(open := Some(AddToInnermost(f, [text])))
  }

  /** A statement the server rejects aborts the open transaction; outside one it changes nothing. */
  function Reject(s: Session): Session {
    if s.open.Some? then s.(aborted := true) else s
  }

  /** The state after a log, where the statements in `faults` are the ones the server rejects. */
  function Replay(s: Session, log: seq<Statement>, faults: Faults): Session {
    if log == [] then s
    else
      var before := Replay(s, log[..|log| - 1], faults);
      var last := log[|log| - 1];
      if last in faults then Reject(before) else Apply(before, last)
  }

  /** Work made only of its own SQL; the server may reject some of it. */
  predicate SqlWork<T>(work: Work<T>) {
    forall i :: 0 <= i < |work.statements| ==> work.statements[i].Sql?
  }

  /** Work made only of its own SQL, which the server accepts. */
  predicate PlainWork<T>(work: Work<T>, faults: Faults) {
    forall i :: 0 <= i < |work.statements| ==> work.statements[i].Sql? && work.statements[i] !in faults
  }

  function Texts(statements: seq<Statement>): seq<string>
    requires forall i :: 0 <= i < |statements| ==> statements[i].Sql?
  {
    if statements == [] then []
    else Texts(statements[..|statements| - 1]) + [statements[|statements| - 1].text]
  }

  lemma ReplayOne(s: Session, st: Statement, faults: Faults)
    ensures Replay(s, [st], faults) == if st in faults then Reject(s) else Apply(s, st)
  {
    assert [st][..0] == [];
  }

  lemma {:induction false} ReplayAppend(s: Session, a: seq<Statement>, b: seq<Statement>, faults: Faults)
    ensures Replay(s, a + b, faults) == Replay(Replay(s, a, faults), b, faults)
  {
    if b != [] {
      ReplayAppend(s, a, b[..|b| - 1], faults);
      assert (a + b)[..|a + b| - 1] == a + b[..|b| - 1];
    } else {
      assert a + b == a;
    }
  }

  lemma FlattenSnoc(frames: seq<seq<string>>, last: seq<string>)
    ensures Flatten(frames + [last]) == Flatten(frames) + last
  {
    assert (frames + [last])[..|frames|] == frames;
  }

  lemma PendingOfAdd(frames: seq<seq<string>>, work: seq<string>)
    ensures Flatten(AddToInnermost(frames, work)) == Flatten(frames) + work
  {
    if frames == [] {
      FlattenSnoc([], work);
      assert [] + [work] == [work];
    } else {
      var n := |frames| - 1;
      FlattenSnoc(frames[..n], frames[n] + work);
      FlattenSnoc(frames[..n], frames[n]);
      assert frames[..n] + [frames[n]] == frames;
    }
  }

  lemma AddNothing(frames: seq<seq<string>>)
    requires frames != []
    ensures AddToInnermost(frames, []) == frames
  {
    assert frames[|frames| - 1] + [] == frames[|frames| - 1];
    assert frames[..|frames| - 1] + [frames[|frames| - 1]] == frames;
  }

  /** Inside a transaction, plain work lands in the innermost frame and nowhere else. */
  lemma {:induction false} ReplayPlainWork<T>(s: Session, work: Work<T>, faults: Faults)
    requires s.open.Some? && s.open.value != [] && !s.aborted
    requires PlainWork(work, faults)
    ensures Replay(s, work.statements, faults) ==
      s.(open := Some(AddToInnermost(s.open.value, Texts(work.statements))))
    decreases |work.statements|
  {
    var f := s.open.value;
    var st := work.statements;
    if st == [] {
      AddNothing(f);
    } else {
      var n := |st| - 1;
      var init := Work(st[..n], work.outcome);
      ReplayPlainWork(s, init, faults);
      var g := AddToInnermost(f, Texts(st[..n]));
      assert AddToInnermost(g, [st[n].text]) == AddToInnermost(f, Texts(st)) by {
        assert Texts(st) == Texts(st[..n]) + [st[n].text];
        assert g[..|g| - 1] == f[..|f| - 1];
        assert f[|f| - 1] + Texts(st[..n]) + [st[n].text] == f[|f| - 1] + Texts(st);
      }
    }
  }

  /** SAVEPOINT then plain work: a new innermost frame holding exactly that work. */
  lemma SavepointThenWork<T>(s: Session, work: Work<T>, faults: Faults)
    requires s.open.Some? && s.open.value != [] && !s.aborted
    requires PlainWork(work, faults) && Savepoint !in faults
    ensures Replay(s, [Savepoint] + work.statements, faults) ==
      s.(open := Some(s.open.value + [Texts(work.statements)]))
  {
    var f := s.open.value;
    ReplayAppend(s, [Savepoint], work.statements, faults);
    ReplayOne(s, Savepoint, faults);
    var started := s.(open := Some(f + [[]]));
    ReplayPlainWork(started, work, faults);
    assert (f + [[]])[..|f|] == f;
    assert [] + Texts(work.statements) == Texts(work.statements);
  }

  /** After a successful SAVEPOINT, the nested log replays as the work in a new frame, then its last statement. */
  lemma NestedLogReplay<T>(s: Session, work: Work<T>, faults: Faults)
    requires s.open.Some? && s.open.value != [] && !s.aborted
    requires PlainWork(work, faults) && Savepoint !in faults
    ensures var tail := if work.outcome.Threw? then RollbackToSavepoint else ReleaseSavepoint;
      var mid := s.(open := Some(s.open.value + [Texts(work.statements)]));
      Replay(s, Nested(work, faults).log, faults) == Replay(mid, [tail], faults)
  {
    var tail := if work.outcome.Threw? then RollbackToSavepoint else ReleaseSavepoint;
    assert Nested(work, faults).log == [Savepoint] + work.statements + [tail];
    ReplayAppend(s, [Savepoint] + work.statements, [tail], faults);
    SavepointThenWork(s, work, faults);
  }

  /**
   * Inside a transaction, SQL only ever touches the innermost frame, whether
   * the server takes it or rejects it (and so aborts the transaction).
   */
  lemma {:induction false} ReplaySqlInFrame(s: Session, statements: seq<Statement>, faults: Faults)
    requires s.open.Some? && s.open.value != []
    requires forall i :: 0 <= i < |statements| ==> statements[i].Sql?
    ensures var r := Replay(s, statements, faults);
      r.committed == s.committed && r.open.Some? && |r.open.value| == |s.open.value| &&
      r.open.value[..|r.open.value| - 1] == s.open.value[..|s.open.value| - 1]
  {
    if statements != [] {
      var n := |statements| - 1;
      ReplaySqlInFrame(s, statements[..n], faults);
      var before := Replay(s, statements[..n], faults);
      var g := before.open.value;
      if statements[n] !in faults && !before.aborted {
        assert AddToInnermost(g, [statements[n].text])[..|g| - 1] == g[..|g| - 1];
      }
    }
  }

  /**
   * A unit of work that threw is rolled back to its savepoint, which stays
   * open and empty, even when the server rejected some of the work's own SQL.
   */
  lemma NestedThrewFrames<T>(s: Session, work: Work<T>, faults: Faults)
    requires s.open.Some? && s.open.value != [] && !s.aborted
    requires SqlWork(work) && Savepoint !in faults && RollbackToSavepoint !in faults
    requires work.outcome.Threw?
    ensures Replay(s, Nested(work, faults).log, faults) == s.(open := Some(s.open.value + [[]]))
  {
    var f := s.open.value;
    var started := s.(open := Some(f + [[]]));
    assert Nested(work, faults).log == [Savepoint] + work.statements + [RollbackToSavepoint];
    ReplayAppend(s, [Savepoint] + work.statements, [RollbackToSavepoint], faults);
    ReplayAppend(s, [Savepoint], work.statements, faults);
    ReplayOne(s, Savepoint, faults);
    ReplaySqlInFrame(started, work.statements, faults);
    var mid := Replay(started, work.statements, faults);
    assert (f + [[]])[..|f|] == f;
    ReplayOne(mid, RollbackToSavepoint, faults);
  }

  /** A unit of work that returned is released into the level below, unless RELEASE fails. */
  lemma NestedReturnedFrames<T>(s: Session, work: Work<T>, faults: Faults)
    requires s.open.Some? && s.open.value != [] && !s.aborted
    requires PlainWork(work, faults) && Savepoint !in faults
    requires work.outcome.Returned?
    ensures var f := s.open.value;
      var texts := Texts(work.statements);
      Replay(s, Nested(work, faults).log, faults) ==
        if ReleaseSavepoint in faults then s.(open := Some(f + [texts]), aborted := true)
        else s.(open := Some(AddToInnermost(f, texts)))
  {
    var f := s.open.value;
    var texts := Texts(work.statements);
    var mid := s.(open := Some(f + [texts]));
    NestedLogReplay(s, work, faults);
    ReplayOne(mid, ReleaseSavepoint, faults);
    assert (f + [texts])[..|f|] == f;
  }

  /**
   * A nested call commits nothing and keeps the outer transaction's work.
   * When its SAVEPOINT and RELEASE go through, the outer transaction stays
   * usable and gains exactly the work's statements if the work returned: a
   * failed unit of work, even one whose own SQL the server rejected, is
   * undone back to its savepoint only. A failing SAVEPOINT or RELEASE
   * leaves the outer transaction aborted.
   */
  lemma NestedKeepsOuterWork<T>(s: Session, work: Work<T>, faults: Faults)
    requires s.open.Some? && s.open.value != [] && !s.aborted
    requires SqlWork(work) && (work.outcome.Returned? ==> PlainWork(work, faults))
    requires RollbackToSavepoint !in faults
    ensures var after := Replay(s, Nested(work, faults).log, faults);
      after.committed == s.committed && after.open.Some? &&
      (after.aborted <==> Savepoint in faults || (work.outcome.Returned? && ReleaseSavepoint in faults))
    ensures var after := Replay(s, Nested(work, faults).log, faults);
      !after.aborted ==>
        Pending(after) == Pending(s) + (if work.outcome.Returned? then Texts(work.statements) else []) &&
        Nested(work, faults).outcome == work.outcome
  {
    var f := s.open.value;
    var texts := Texts(work.statements);
    if Savepoint in faults {
      assert Nested(work, faults).log == [Savepoint];
      ReplayOne(s, Savepoint, faults);
    } else if work.outcome.Threw? {
      NestedThrewFrames(s, work, faults);
      FlattenSnoc(f, []);
      assert Flatten(f) + [] == Flatten(f);
    } else if ReleaseSavepoint in faults {
      NestedReturnedFrames(s, work, faults);
    } else {
      NestedReturnedFrames(s, work, faults);
      PendingOfAdd(f, texts);
    }
  }

  /**
   * After a nested call whose SAVEPOINT or RELEASE failed, the outer
   * transaction can no longer commit: its COMMIT rolls back all of its work.
   */
  lemma NestedFailureDoomsOuter<T>(s: Session, work: Work<T>, faults: Faults)
    requires s.open.Some? && s.open.value != [] && !s.aborted
    requires SqlWork(work) && (work.outcome.Returned? ==> PlainWork(work, faults))
    requires RollbackToSavepoint !in faults && Commit !in faults
    requires Savepoint in faults || (work.outcome.Returned? && ReleaseSavepoint in faults)
    ensures Replay(s, Nested(work, faults).log + [Commit], faults) == Session(s.committed, None, false)
  {
    var log := Nested(work, faults).log;
    NestedKeepsOuterWork(s, work, faults);
    ReplayAppend(s, log, [Commit], faults);
    ReplayOne(Replay(s, log, faults), Commit, faults);
  }

  /**
   * Inside a transaction, once the server has rejected some of the SQL, the
   * transaction stays aborted to the end of it: later SQL is refused.
   */
  lemma {:induction false} ReplaySqlAborts(s: Session, statements: seq<Statement>, faults: Faults)
    requires s.open.Some? && s.open.value != []
    requires forall i :: 0 <= i < |statements| ==> statements[i].Sql?
    requires exists i :: 0 <= i < |statements| && statements[i] in faults
    ensures Replay(s, statements, faults).aborted
  {
    var n := |statements| - 1;
    var init := statements[..n];
    ReplaySqlInFrame(s, init, faults);
    if statements[n] !in faults {
      var i :| 0 <= i < |statements| && statements[i] in faults;
      assert init[i] in faults;
      ReplaySqlAborts(s, init, faults);
    }
  }

  /** After a successful BEGIN, the top-level log replays as the work in one fresh frame, then COMMIT and/or ROLLBACK. */
  lemma TopLevelLogReplay<T>(s: Session, work: Work<T>, faults: Faults)
    requires s.open.None? && !s.aborted && Begin !in faults
    ensures var log := TopLevel(work, faults).log;
      var mid := Replay(s.(open := Some([[]])), work.statements, faults);
      |log| > |work.statements| + 1 &&
      Replay(s, log, faults) == Replay(mid, log[1 + |work.statements|..], faults)
  {
    var log := TopLevel(work, faults).log;
    ReplayOne(s, Begin, faults);
    ReplayAppend(s, [Begin], work.statements, faults);
    var tail := log[1 + |work.statements|..];
    assert log == [Begin] + work.statements + tail;
    ReplayAppend(s, [Begin] + work.statements, tail, faults);
  }

  /**
   * A top-level transaction is all or nothing: from an idle connection it
   * ends idle again, having committed exactly the work's statements when the
   * call returned and the server took every one of them, and nothing
   * otherwise: not when the call threw, and not when it returned after the
   * server rejected some of its SQL.
   */
  lemma TopLevelAllOrNothing<T>(s: Session, work: Work<T>, faults: Faults)
    requires s.open.None? && !s.aborted
    requires SqlWork(work)
    requires Rollback !in faults
    ensures var r := TopLevel(work, faults);
      var after := Replay(s, r.log, faults);
      after.open.None? && !after.aborted &&
      after.committed == s.committed +
        (if r.outcome.Returned? && PlainWork(work, faults) then Texts(work.statements) else [])
  {
    var r := TopLevel(work, faults);
    assert s.committed + [] == s.committed;
    if Begin in faults {
      assert r.log == [Begin] + [Rollback];
      ReplayAppend(s, [Begin], [Rollback], faults);
      ReplayOne(s, Begin, faults);
      ReplayOne(s, Rollback, faults);
    } else if work.outcome.Returned? && Commit !in faults && PlainWork(work, faults) {
      TopLevelCommits(s, work, faults);
    } else {
      TopLevelRollsBack(s, work, faults);
    }
  }

  /** Work that returned and a COMMIT that went through: the work is committed and the transaction closed. */
  lemma TopLevelCommits<T>(s: Session, work: Work<T>, faults: Faults)
    requires s.open.None? && !s.aborted
    requires PlainWork(work, faults) && Begin !in faults && Commit !in faults
    requires work.outcome.Returned?
    ensures Replay(s, TopLevel(work, faults).log, faults) == Session(s.committed + Texts(work.statements), None, false)
  {
    var texts := Texts(work.statements);
    var mid := s.(open := Some([texts]));
    TopLevelLogReplay(s, work, faults);
    ReplayPlainWork(s.(open := Some([[]])), work, faults);
    assert AddToInnermost([[]], texts) == [texts] by {
      var empty: seq<seq<string>> := [[]];
      assert empty[..0] == [];
      assert [] + texts == texts;
    }
    assert Pending(mid) == texts by {
      FlattenSnoc([], texts);
      assert [] + [texts] == [texts];
    }
    assert TopLevel(work, faults).log[1 + |work.statements|..] == [Commit];
    ReplayOne(mid, Commit, faults);
  }

  /**
   * Work that threw, a COMMIT that failed, or work some of whose SQL the
   * server rejected: the transaction closes and nothing is committed.
   */
  lemma TopLevelRollsBack<T>(s: Session, work: Work<T>, faults: Faults)
    requires s.open.None? && !s.aborted
    requires SqlWork(work) && Begin !in faults && Rollback !in faults
    requires work.outcome.Threw? || Commit in faults || !PlainWork(work, faults)
    ensures Replay(s, TopLevel(work, faults).log, faults) == s
  {
    var started := s.(open := Some([[]]));
    var mid := Replay(started, work.statements, faults);
    var tail := TopLevel(work, faults).log[1 + |work.statements|..];
    TopLevelLogReplay(s, work, faults);
    ReplaySqlInFrame(started, work.statements, faults);
    assert s == Session(s.committed, None, false);
    if work.outcome.Threw? {
      assert tail == [Rollback];
      ReplayOne(mid, Rollback, faults);
    } else if Commit in faults {
      assert tail == [Commit] + [Rollback];
      ReplayAppend(mid, [Commit], [Rollback], faults);
      ReplayOne(mid, Commit, faults);
      ReplayOne(Reject(mid), Rollback, faults);
    } else {
      assert tail == [Commit];
      ReplaySqlAborts(started, work.statements, faults);
      ReplayOne(mid, Commit, faults);
    }
  }

  /**
   * Work that returns after the server rejected some of its SQL: the call
   * still returns the work's result, yet COMMIT rolls the transaction back
   * and nothing of the work is committed.
   */
  lemma TopLevelSwallowedRejection<T>(s: Session, work: Work<T>, faults: Faults)
    requires s.open.None? && !s.aborted
    requires SqlWork(work) && !PlainWork(work, faults) && work.outcome.Returned?
    requires Begin !in faults && Commit !in faults && Rollback !in faults
    ensures TopLevel(work, faults).outcome == work.outcome
    ensures Replay(s, TopLevel(work, faults).log, faults) == s
  {
    TopLevelRollsBack(s, work, faults);
  }
}
