/** A command that runs alone, statement by statement, ends where the service method ends. */
module EngineSolo {
  import opened Model
  import opened Sessions
  import opened CommandIdempotency
  import opened Commands
  import opened CommandExecution
  import opened Invariants
  import opened Engine
  import opened EngineMoves
  import opened EngineSteps
  import opened EngineTheorems
  import AttemptStart
  import StartAi = StartAiInterpretationCommand
  import Intake

  /** The world after a call that ran alone and whose reply was received. */
  function Finished(db: Db, log: seq<Entry>, received: seq<nat>, e: Entry): World {
    World(db, map[], log + [e], received + [|log|])
  }

  /** The last two steps of a call that runs alone: its transaction ends, its reply is received. */
  lemma FinishAlone(h: Hashing, db: Db, log: seq<Entry>, received: seq<nat>, p: Process, ids: Ids,
                    intakeIds: Intake.IntakeIds, token: Option<string>, e: Entry)
    requires !p.pc.Delivering? && EntryOf(h, p) == Some(e)
    ensures
      var go := Advance(0, ids, intakeIds, token);
      Run(h, Alone(db, log, received, p), [go] + [go]) == Finished(Apply(db, EffectsOf(h, p)), log, received, e)
  {
    hide Step, Run, Apply, EffectsOf, EntryOf;
    var go, w := Advance(0, ids, intakeIds, token), Alone(db, log, received, p);
    MoveEndAndDeliver(h, w, 0, ids, intakeIds, token, e);
    assert w.processes - {0} == map[];
    TwoSteps(h, w, go);
  }

  // ------------------------------------------------------------------ reading under lock

  function Flag(b: bool): nat { if b then 1 else 0 }

  /** The number of reads still to come. */
  function Unreads(rows: Rows): nat {
    Flag(rows.attempt.Unread?) + Flag(rows.operation.Unread?) + Flag(rows.request.Unread?) + Flag(rows.siblings.Unread?)
    + Flag(rows.credentials.Unread?)
  }

  lemma NextReadsMore(h: Hashing, db: Db, c: Command, now: Time, rows: Rows)
    requires Agrees(rows, RowsIn(h, db, c)) && VerdictOf(h, c, now, rows).None?
    ensures Agrees(NextRows(h, db, c, rows), RowsIn(h, db, c)) && Unreads(NextRows(h, db, c, rows)) < Unreads(rows)
  {
    hide AttemptStart.GraphVerdict, AttemptStart.CredentialVerdict, StartAi.ExistingOperationVerdict;
  }

  /** In a sound database both commands reach a decision, and not a structural failure. */
  lemma DecisionReached(h: Hashing, db: Db, c: Command, now: Time, rows: Rows)
    requires GraphSound(h, db) && Agrees(rows, RowsIn(h, db, c)) && VerdictOf(h, c, now, rows).Some?
    ensures VerdictOf(h, c, now, RowsIn(h, db, c)) == VerdictOf(h, c, now, rows)
    ensures !VerdictOf(h, c, now, rows).value.Broken?
  {
    hide GraphSound, AttemptStart.ClaimVerdict, StartAi.StartVerdict;
    VerdictMonotone(h, c, now, rows, RowsIn(h, db, c));
    if c.StartAi? { StartDecided(h, db, c); } else { ClaimDecided(h, db, c, now); }
  }

  /** A granted decision has read the row it will write. */
  lemma GrantedHasRead(h: Hashing, db: Db, c: Command, now: Time, rows: Rows)
    requires Agrees(rows, RowsIn(h, db, c)) && VerdictOf(h, c, now, rows) == Some(Granted)
    ensures c.StartAi? ==> c.requestId in db.requests && rows.request == Read(db.requests[c.requestId])
    ensures c.ClaimStart? ==> c.attemptId in db.attempts && rows.attempt == Read(db.attempts[c.attemptId])
  {
    hide AttemptStart.GraphVerdict, AttemptStart.CredentialVerdict, StartAi.ExistingOperationVerdict;
  }

  // ------------------------------------------------------------------ the commit

  /** A call about to commit writes and answers what the whole execution does. */
  lemma CommitAlone(h: Hashing, db: Db, c: Command, p: Process, token: Option<string>)
    requires p.call == CommandCall(c) && p.pc.Completing? && !p.pc.verdict.Broken?
    requires Agrees(p.pc.rows, RowsIn(h, db, c)) && VerdictOf(h, c, p.now, p.pc.rows) == Some(p.pc.verdict)
    requires VerdictOf(h, c, p.now, RowsIn(h, db, c)) == Some(p.pc.verdict)
    requires p.pc.verdict.Granted? && c.StartAi? ==>
               && token == Some(p.pc.token) && StartAi.OpaqueCredential(p.pc.token) && c.requestId in db.requests
               && StartAi.Insertable(db, StartAi.NewOperation(h, c, db.requests[c.requestId], p.pc.ids),
                                     StartAi.NewAttempt(c, p.pc.ids, p.now),
                                     StartAi.NewCredential(h, c, p.pc.ids, p.now, p.pc.token))
    ensures Committable(p)
    ensures (CommittedReply(h, p), EffectsOf(h, p)) == Execution(h, db, c, p.pc.record, p.now, p.pc.ids, token)
  {
    hide StartAi.Insertable, StartAi.OpaqueCredential, StartAi.StartVerdict, AttemptStart.ClaimVerdict;
    if p.pc.verdict.Granted? { GrantedHasRead(h, db, c, p.now, p.pc.rows); }
  }

  /** The rest of a call that has reserved its key. */
  lemma {:induction false} WorkAlone(h: Hashing, db: Db, log: seq<Entry>, received: seq<nat>, c: Command,
                                     p: Process, ids: Ids, intakeIds: Intake.IntakeIds, token: Option<string>)
    returns (events: seq<Event>)
    requires GraphSound(h, db) && p.call == CommandCall(c) && p.pc.Working? && Agrees(p.pc.rows, RowsIn(h, db, c))
    ensures
      var (reply, e) := Execution(h, db, c, p.pc.record, p.now, ids, token);
      Run(h, Alone(db, log, received, p), events) == Finished(Apply(db, e), log, received, CommandEntry(c, reply))
    decreases Unreads(p.pc.rows)
  {
    hide GraphSound, Execution, VerdictOf, NextRows, RowsIn, LocksOf, Apply, Agrees, Unreads, Step, Run;
    var go := Advance(0, ids, intakeIds, token);
    var rows := p.pc.rows;
    var v := VerdictOf(h, c, p.now, rows);
    StepAlone(h, db, log, received, p, ids, intakeIds, token);
    if v.None? {
      NextReadsMore(h, db, c, p.now, rows);
      var next := NextRows(h, db, c, rows);
      assert LocksOf(next) * {} == {};
      var q := p.(held := p.held + LocksOf(next), pc := Working(p.pc.record, next));
      assert Step(h, Alone(db, log, received, p), go) == Alone(db, log, received, q);
      var rest := WorkAlone(h, db, log, received, c, q, ids, intakeIds, token);
      events := [go] + rest;
      RunFrom(h, Alone(db, log, received, p), go, rest);
    } else {
      DecisionReached(h, db, c, p.now, rows);
      events := DecideAlone(h, db, log, received, c, p, ids, intakeIds, token);
    }
  }

  /** The inserts of a granted Start AI, with nobody else holding their keys. */
  lemma InsertAlone(h: Hashing, db: Db, c: Command, p: Process, ids: Ids, intakeIds: Intake.IntakeIds,
                    token: Option<string>)
    requires p.call == CommandCall(c) && p.pc.Working? && c.StartAi?
             && VerdictOf(h, c, p.now, p.pc.rows) == Some(Granted)
    requires VerdictOf(h, c, p.now, RowsIn(h, db, c)) == Some(Granted)
    requires c.requestId in db.requests && p.pc.rows.request == Read(db.requests[c.requestId])
    ensures
      var q := StepProcess(h, db, {}, p, ids, intakeIds, token);
      && q.call == p.call && q.now == p.now && (q.pc.Failing? || q.pc.Completing?)
      && (q.pc.Failing? ==> Execution(h, db, c, p.pc.record, p.now, ids, token) == (Failed(q.pc.error), NoEffects))
      && (q.pc.Completing? ==>
            && token.Some? && q.pc == Completing(p.pc.record, p.pc.rows, Granted, ids, token.value)
            && StartAi.OpaqueCredential(token.value)
            && StartAi.Insertable(db, StartAi.NewOperation(h, c, db.requests[c.requestId], ids),
                                  StartAi.NewAttempt(c, ids, p.now),
                                  StartAi.NewCredential(h, c, ids, p.now, token.value)))
  {
    hide StartAi.Insertable, StartAi.OpaqueCredential, StartAi.StartVerdict, InsertLocks;
    if token.Some? {
      var locks := InsertLocks(StartAi.NewOperation(h, c, db.requests[c.requestId], ids),
                               StartAi.NewAttempt(c, ids, p.now),
                               StartAi.NewCredential(h, c, ids, p.now, token.value));
      assert locks * {} == {};
    }
  }

  /** The last two steps: the decision with its inserts, and the commit or the failure. */
  lemma DecideAlone(h: Hashing, db: Db, log: seq<Entry>, received: seq<nat>, c: Command, p: Process, ids: Ids,
                    intakeIds: Intake.IntakeIds, token: Option<string>)
    returns (events: seq<Event>)
    requires p.call == CommandCall(c) && p.pc.Working? && Agrees(p.pc.rows, RowsIn(h, db, c))
    requires VerdictOf(h, c, p.now, p.pc.rows).Some? && !VerdictOf(h, c, p.now, p.pc.rows).value.Broken?
    requires VerdictOf(h, c, p.now, RowsIn(h, db, c)) == VerdictOf(h, c, p.now, p.pc.rows)
    ensures
      var (reply, e) := Execution(h, db, c, p.pc.record, p.now, ids, token);
      Run(h, Alone(db, log, received, p), events) == Finished(Apply(db, e), log, received, CommandEntry(c, reply))
  {
    hide Execution, VerdictOf, RowsIn, LocksOf, Apply, Agrees, Step, Run, StartAi.Insertable,
         StartAi.OpaqueCredential, CommittedEffects, CommittedReply;
    var go := Advance(0, ids, intakeIds, token);
    var rows, v := p.pc.rows, VerdictOf(h, c, p.now, p.pc.rows).value;
    StepAlone(h, db, log, received, p, ids, intakeIds, token);
    var q := StepProcess(h, db, {}, p, ids, intakeIds, token);
    if v.Granted? && c.StartAi? {
      GrantedHasRead(h, db, c, p.now, rows);
      InsertAlone(h, db, c, p, ids, intakeIds, token);
      if q.pc.Completing? { CommitAlone(h, db, c, q, token); }
    } else {
      CommitAlone(h, db, c, q, token);
    }
    var (reply, e) := Execution(h, db, c, p.pc.record, p.now, ids, token);
    FinishAlone(h, db, log, received, q, ids, intakeIds, token, CommandEntry(c, reply));
    events := [go] + ([go] + [go]);
    RunFrom(h, Alone(db, log, received, p), go, [go] + [go]);
  }

  // ------------------------------------------------------------------ the whole call

  /** In a sound database a failed execution is an API error, so reporting it changes nothing. */
  lemma FailuresAreReported(h: Hashing, db: Db, c: Command, record: Record, now: Time, ids: Ids, token: Option<string>)
    requires GraphSound(h, db)
    ensures var reply := Execution(h, db, c, record, now, ids, token).0; ReportedReply(reply) == reply
  {
    hide GraphSound, StartAi.Insertable, StartAi.OpaqueCredential, StartAi.StartVerdict, AttemptStart.ClaimVerdict;
    if c.StartAi? { StartDecided(h, db, c); } else { ClaimDecided(h, db, c, now); }
  }

  /** A call whose key has a record is answered from it. */
  lemma ReplayAlone(h: Hashing, db: Db, log: seq<Entry>, received: seq<nat>, c: Command, now: Time, e: Surroundings,
                    intakeIds: Intake.IntakeIds)
    returns (events: seq<Event>)
    requires RecordsComplete(db.records) && ScopeOf(c) in db.records && e.arrived == map[] && IsSha256Hex(c.bodyHash)
    ensures
      var (reply, after) := AfterCall(h, db, c, now, e);
      Run(h, Alone(db, log, received, Process(CommandCall(c), now, {}, Opened)), events) ==
        Finished(after, log, received, CommandEntry(c, reply))
  {
    hide Execution, AfterCall, Step, Run, IsSha256Hex, IdentifierTaken;
    CallCases(h, db, c, now, e);
    var go := Advance(0, e.ids, intakeIds, e.token);
    var p := Process(CommandCall(c), now, {}, Opened);
    var q := p.(pc := AfterLookup(Classify(db.records[ScopeOf(c)], c.bodyHash)));
    StepAlone(h, db, log, received, p, e.ids, intakeIds, e.token);
    FinishAlone(h, db, log, received, q, e.ids, intakeIds, e.token, EntryOf(h, q).value);
    events := [go] + ([go] + [go]);
    RunFrom(h, Alone(db, log, received, p), go, [go] + [go]);
  }

  /** A call whose key is free but whose identifiers are taken gives up. */
  lemma ClashAlone(h: Hashing, db: Db, log: seq<Entry>, received: seq<nat>, c: Command, now: Time, e: Surroundings,
                   intakeIds: Intake.IntakeIds)
    returns (events: seq<Event>)
    requires ScopeOf(c) !in db.records && IdentifierTaken(db.records, e.ids.recordId, e.ids.commandId)
    requires e.arrived == map[] && IsSha256Hex(c.bodyHash)
    ensures
      var (reply, after) := AfterCall(h, db, c, now, e);
      Run(h, Alone(db, log, received, Process(CommandCall(c), now, {}, Opened)), events) ==
        Finished(after, log, received, CommandEntry(c, reply))
  {
    hide Execution, AfterCall, Step, Run, IsSha256Hex, IdentifierTaken, ReservationLocks;
    CallCases(h, db, c, now, e);
    assert db.records + e.arrived == db.records && db.(records := db.records) == db;
    var go := Advance(0, e.ids, intakeIds, e.token);
    var p := Process(CommandCall(c), now, {}, Opened);
    var q, r, t := p.(pc := KeyMissing), p.(pc := KeyLost(e.ids)),
                   p.(pc := Failing(ApiError(503, DependencyUnavailable), NoWinner(e.ids)));
    assert ReservationLocks(ScopeOf(c), e.ids.recordId, e.ids.commandId) * {} == {};
    StepAlone(h, db, log, received, p, e.ids, intakeIds, e.token);
    StepAlone(h, db, log, received, q, e.ids, intakeIds, e.token);
    StepAlone(h, db, log, received, r, e.ids, intakeIds, e.token);
    FinishAlone(h, db, log, received, t, e.ids, intakeIds, e.token, EntryOf(h, t).value);
    events := [go] + ([go] + ([go] + ([go] + [go])));
    RunFrom(h, Alone(db, log, received, p), go, [go] + ([go] + ([go] + [go])));
    RunFrom(h, Alone(db, log, received, q), go, [go] + ([go] + [go]));
    RunFrom(h, Alone(db, log, received, r), go, [go] + [go]);
  }

  /** A call whose key and identifiers are free executes. */
  lemma ExecuteAlone(h: Hashing, db: Db, log: seq<Entry>, received: seq<nat>, c: Command, now: Time,
                     e: Surroundings, intakeIds: Intake.IntakeIds)
    returns (events: seq<Event>)
    requires GraphSound(h, db) && ScopeOf(c) !in db.records
             && !IdentifierTaken(db.records, e.ids.recordId, e.ids.commandId)
    requires e.arrived == map[] && IsSha256Hex(c.bodyHash)
    ensures
      var (reply, after) := AfterCall(h, db, c, now, e);
      Run(h, Alone(db, log, received, Process(CommandCall(c), now, {}, Opened)), events) ==
        Finished(after, log, received, CommandEntry(c, reply))
  {
    hide GraphSound, Execution, AfterCall, Step, Run, IsSha256Hex, IdentifierTaken, ReservationLocks, RowsIn, Apply;
    CallCases(h, db, c, now, e);
    assert db.records + e.arrived == db.records && db.(records := db.records) == db;
    var go := Advance(0, e.ids, intakeIds, e.token);
    var locks := ReservationLocks(ScopeOf(c), e.ids.recordId, e.ids.commandId);
    var record := ProcessingRecord(e.ids.recordId, e.ids.commandId, c.correlationId, c.bodyHash, now);
    var p := Process(CommandCall(c), now, {}, Opened);
    var q, r := p.(pc := KeyMissing), p.(held := {} + locks, pc := Working(record, NOTHING_READ));
    assert locks * {} == {};
    StepAlone(h, db, log, received, p, e.ids, intakeIds, e.token);
    StepAlone(h, db, log, received, q, e.ids, intakeIds, e.token);
    var rest := WorkAlone(h, db, log, received, c, r, e.ids, intakeIds, e.token);
    events := [go] + ([go] + rest);
    RunFrom(h, Alone(db, log, received, p), go, [go] + rest);
    RunFrom(h, Alone(db, log, received, q), go, rest);
    FailuresAreReported(h, db, c, record, now, e.ids, e.token);
  }

  /** From any reachable world with nothing open, a command that runs alone through its statements and
      row locks leaves the tables and delivers the reply of one call of the service method: the
      concurrent engine and `CommandExecution.Execute` agree on every sequential call. */
  lemma SoloCallIsExecute(h: Hashing, past: seq<Event>, c: Command, now: Time, e: Surroundings,
                          intakeIds: Intake.IntakeIds)
    returns (events: seq<Event>)
    requires Run(h, EMPTY_WORLD, past).processes == map[] && e.arrived == map[] && IsSha256Hex(c.bodyHash)
    ensures
      var w := Run(h, EMPTY_WORLD, past);
      var (reply, after) := AfterCall(h, w.db, c, now, e);
      Run(h, w, events) == World(after, map[], w.log + [CommandEntry(c, reply)], w.received + [|w.log|])
  {
    hide AfterCall, IsSha256Hex, IdentifierTaken, GraphSound, RecordsComplete, Run;
    var w := Run(h, EMPTY_WORLD, past);
    ReachableTables(h, past);
    var begin, p := Begin(0, CommandCall(c), now), Process(CommandCall(c), now, {}, Opened);
    assert Step(h, w, begin) == Alone(w.db, w.log, w.received, p);
    var rest;
    if ScopeOf(c) in w.db.records { rest := ReplayAlone(h, w.db, w.log, w.received, c, now, e, intakeIds); }
    else if IdentifierTaken(w.db.records, e.ids.recordId, e.ids.commandId) {
      rest := ClashAlone(h, w.db, w.log, w.received, c, now, e, intakeIds);
    }
    else { rest := ExecuteAlone(h, w.db, w.log, w.received, c, now, e, intakeIds); }
    events := [begin] + rest;
    RunFrom(h, w, begin, rest);
  }
}
