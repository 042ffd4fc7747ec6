/** Every step of a process keeps what it knows, and acquires only free resources. */
module EngineSteps {
  import opened Model
  import opened CommandIdempotency
  import opened CallbackVerifier
  import opened Commands
  import opened Invariants
  import opened Engine
  import opened EngineProcesses
  import AttemptStart
  import StartAi = StartAiInterpretationCommand
  import Intake

  // ------------------------------------------------------------------ locks

  ghost predicate Acquires(p: Process, q: Process, taken: set<Resource>) {
    q.call == p.call && q.now == p.now && (q.held - p.held) !! taken
  }

  lemma StepAcquires(h: Hashing, db: Db, taken: set<Resource>, p: Process, ids: Ids, intakeIds: Intake.IntakeIds,
                     token: Option<string>)
    ensures Acquires(p, StepProcess(h, db, taken, p, ids, intakeIds, token), taken)
  {
    hide StepCommand, StepIntake, StepVerify, Acquires;
    match p.call {
      case CommandCall(c) => StepCommandAcquires(h, db, taken, p, c, ids, token);
      case IntakeCall(s) => StepIntakeAcquires(db, taken, p, s, intakeIds);
      case VerifyCall(k) => StepVerifyAcquires(h, db, taken, p, k);
    }
  }

  lemma StepVerifyAcquires(h: Hashing, db: Db, taken: set<Resource>, p: Process, k: Check)
    ensures Acquires(p, StepVerify(h, db, taken, p, k), taken)
  {
    hide NextRows, LocksOf, ReadingDone, VerifyRows;
    var rows := if p.pc.Verifying? then p.pc.rows else NOTHING_READ;
    OnlyFreeLocks(p.held, {}, taken);
    OnlyFreeLocks(p.held, LocksOf(NextRows(h, db, AsClaim(k), rows)), taken);
  }

  lemma StepIntakeAcquires(db: Db, taken: set<Resource>, p: Process, s: Intake.Submission, ids: Intake.IntakeIds)
    ensures Acquires(p, StepIntake(db, taken, p, s, ids), taken)
  {
    hide CreateLocks, Intake.Insertable, Intake.AgainstKey;
    OnlyFreeLocks(p.held, {}, taken);
    OnlyFreeLocks(p.held, {DeliveryRow(ids.deliveryId)}, taken);
    OnlyFreeLocks(p.held, CreateLocks(s, ids), taken);
    OneFreeLock(DeliveryRow(ids.deliveryId), taken);
  }

  lemma OneFreeLock(r: Resource, taken: set<Resource>)
    ensures {r} * taken == {} <==> r !in taken
  {
    if {r} * taken == {} { assert r !in {r} * taken; }
  }

  lemma StepCommandAcquires(h: Hashing, db: Db, taken: set<Resource>, p: Process, c: Command, ids: Ids,
                            token: Option<string>)
    ensures Acquires(p, StepCommand(h, db, taken, p, c, ids, token), taken)
  {
    hide VerdictOf, NextRows, RowsIn, LocksOf, StartAi.Insertable, IdentifierTaken, StepWork, ReservationLocks,
         Classify;
    OnlyFreeLocks(p.held, {}, taken);
    match p.pc {
      case KeyMissing => OnlyFreeLocks(p.held, ReservationLocks(ScopeOf(c), ids.recordId, ids.commandId), taken);
      case KeyLost(_) =>
        OnlyFreeLocks(p.held, {RecordKey(ScopeOf(c))}, taken);
        OneFreeLock(RecordKey(ScopeOf(c)), taken);
      case Working(record, rows) => StepWorkAcquires(h, db, taken, p, c, record, rows, ids, token);
      case _ =>
    }
  }

  lemma StepWorkAcquires(h: Hashing, db: Db, taken: set<Resource>, p: Process, c: Command, record: Record,
                         rows: Rows, ids: Ids, token: Option<string>)
    ensures Acquires(p, StepWork(h, db, taken, p, c, record, rows, ids, token), taken)
  {
    hide NextRows, RowsIn, LocksOf, InsertLocks, StartAi.Insertable, AttemptStart.ClaimVerdict,
         StartAi.ExistingOperationVerdict;
    OnlyFreeLocks(p.held, {}, taken);
    var v := VerdictOf(h, c, p.now, rows);
    if v.None? {
      OnlyFreeLocks(p.held, LocksOf(NextRows(h, db, c, rows)), taken);
    } else if v.value.Granted? && c.StartAi? && token.Some? {
      var o, a := StartAi.NewOperation(h, c, rows.request.row, ids), StartAi.NewAttempt(c, ids, p.now);
      OnlyFreeLocks(p.held, InsertLocks(o, a, StartAi.NewCredential(h, c, ids, p.now, token.value)), taken);
    }
  }

  lemma OnlyFreeLocks(held: set<Resource>, locks: set<Resource>, taken: set<Resource>)
    ensures locks * taken == {} ==> (held + locks - held) !! taken
    ensures (held - held) !! taken
  {
    forall r | r in held + locks - held && r in taken
      ensures locks * taken != {}
    {
      var both := locks * taken;
      assert r in both;
    }
  }

  // ------------------------------------------------------------------ reading rows

  /** A decision taken on part of the rows is the decision on all of them. */
  lemma VerdictMonotone(h: Hashing, c: Command, now: Time, rows: Rows, full: Rows)
    requires VerdictOf(h, c, now, rows).Some? && Agrees(rows, full)
    ensures VerdictOf(h, c, now, full) == VerdictOf(h, c, now, rows)
  {
    hide AttemptStart.GraphVerdict, AttemptStart.CredentialVerdict, StartAi.ExistingOperationVerdict;
  }

  /** No structural failure can be decided from rows of a sound database. */
  lemma NeverBroken(h: Hashing, db: Db, c: Command, now: Time, held: set<Resource>, rows: Rows)
    requires GraphSound(h, db) && RowsHeld(h, db, c, held, rows)
    requires VerdictOf(h, c, now, rows).Some?
    ensures !VerdictOf(h, c, now, rows).value.Broken?
  {
    hide GraphSound, AttemptStart.GraphVerdict, AttemptStart.CredentialVerdict, StartAi.ExistingOperationVerdict;
    if !TargetAbsent(c, rows) {
      VerdictMonotone(h, c, now, rows, RowsIn(h, db, c));
      if c.StartAi? { StartDecided(h, db, c); } else { ClaimDecided(h, db, c, now); }
    }
  }

  lemma NextRowsHeld(h: Hashing, db: Db, c: Command, now: Time, held: set<Resource>, rows: Rows)
    requires GraphSound(h, db) && RowsHeld(h, db, c, held, rows) && VerdictOf(h, c, now, rows).None?
    ensures RowsHeld(h, db, c, held + LocksOf(NextRows(h, db, c, rows)), NextRows(h, db, c, rows))
  {
    if c.StartAi? { NextStartRows(h, db, c, now, held, rows); } else { NextClaimRows(h, db, c, held, rows); }
  }

  lemma NextStartRows(h: Hashing, db: Db, c: Command, now: Time, held: set<Resource>, rows: Rows)
    requires c.StartAi? && AllRequestsFit(db.requests)
    requires RowsHeld(h, db, c, held, rows) && VerdictOf(h, c, now, rows).None?
    ensures RowsHeld(h, db, c, held + LocksOf(NextRows(h, db, c, rows)), NextRows(h, db, c, rows))
  {
    hide StartAi.ExistingOperationVerdict;
    var next := NextRows(h, db, c, rows);
    if rows.request.Unread? {
      assert rows == NOTHING_READ;
    } else {
      assert rows.request.Read?;
    }
  }

  lemma NextClaimRows(h: Hashing, db: Db, c: Command, held: set<Resource>, rows: Rows)
    requires c.ClaimStart? && GraphSound(h, db)
    requires RowsHeld(h, db, c, held, rows) && !rows.attempt.Absent?
    ensures RowsHeld(h, db, c, held + LocksOf(NextRows(h, db, c, rows)), NextRows(h, db, c, rows))
  {
    hide GraphSound;
    var next := NextRows(h, db, c, rows);
    if c.attemptId in db.attempts {
      var k := AroundAttempt(h, db, c.attemptId);
      assert InOrder(c, next);
      assert Agrees(next, RowsIn(h, db, c));
    } else {
      assert rows == NOTHING_READ;
    }
  }

  // ------------------------------------------------------------------ steps of a command

  lemma LookupKeeps(h: Hashing, db: Db, p: Process, c: Command, held: set<Resource>)
    requires RecordsComplete(db.records) && ScopeOf(c) in db.records
    ensures
      var pc := AfterLookup(Classify(db.records[ScopeOf(c)], c.bodyHash));
      CommandInv(h, db, Process(p.call, p.now, held, pc), c)
  {
    hide HoldsKey, RowsHeld, InsertsHeld, VerdictOf;
  }

  lemma RefindKeeps(h: Hashing, db: Db, taken: set<Resource>, p: Process, c: Command, ids: Ids)
    requires RecordsComplete(db.records) && CommandInv(h, db, p, c) && p.pc == KeyLost(ids)
    ensures CommandInv(h, db, StepRefind(db, taken, p, c, ids), c)
  {
    hide RecordsComplete, IdentifierTaken, Classify;
    if ScopeOf(c) in db.records { LookupKeeps(h, db, p, c, p.held + {RecordKey(ScopeOf(c))}); }
  }

  lemma ReserveKeeps(h: Hashing, db: Db, taken: set<Resource>, p: Process, c: Command, ids: Ids)
    requires CommandInv(h, db, p, c) && p.pc.KeyMissing?
    ensures CommandInv(h, db, StepReserve(db, taken, p, c, ids), c)
  {
    hide InsertsHeld, VerdictOf, RowsIn, StartAi.StartRows, AttemptStart.ClaimRows;
    assert InOrder(c, NOTHING_READ) && LocksOf(NOTHING_READ) == {};
  }

  lemma InsertKeeps(h: Hashing, db: Db, taken: set<Resource>, p: Process, c: Command, record: Record, rows: Rows,
                    ids: Ids, token: Option<string>)
    requires CommandInv(h, db, p, c) && p.pc == Working(record, rows)
    requires c.StartAi? && VerdictOf(h, c, p.now, rows) == Some(Granted)
    ensures rows.request.Read?
    ensures CommandInv(h, db, StepInsert(h, db, taken, p, c, record, rows, ids, token), c)
  {
    hide StartAi.ExistingOperationVerdict, AttemptStart.ClaimVerdict, RowsIn, StartAi.StartRows,
         AttemptStart.ClaimRows, IdentifierTaken, LocksOf,
         StartAi.Insertable, StartAi.OpaqueCredential;
  }

  lemma WorkKeeps(h: Hashing, db: Db, taken: set<Resource>, p: Process, c: Command, record: Record, rows: Rows,
                  ids: Ids, token: Option<string>)
    requires GraphSound(h, db) && CommandInv(h, db, p, c) && p.pc == Working(record, rows)
    ensures CommandInv(h, db, StepWork(h, db, taken, p, c, record, rows, ids, token), c)
  {
    hide GraphSound, VerdictOf, RowsIn, NextRows, LocksOf, IdentifierTaken, StepInsert, InsertsHeld, RowsHeld;
    var v := VerdictOf(h, c, p.now, rows);
    if v.None? {
      NextRowsHeld(h, db, c, p.now, p.held, rows);
    } else {
      NeverBroken(h, db, c, p.now, p.held, rows);
      if v.value.Granted? && c.StartAi? {
        InsertKeeps(h, db, taken, p, c, record, rows, ids, token);
      }
    }
  }

  lemma CommandKeeps(h: Hashing, db: Db, taken: set<Resource>, p: Process, c: Command, ids: Ids, token: Option<string>)
    requires RecordsComplete(db.records) && GraphSound(h, db) && CommandInv(h, db, p, c)
    ensures CommandInv(h, db, StepCommand(h, db, taken, p, c, ids, token), c)
  {
    hide GraphSound, RecordsComplete, HoldsKey, RowsHeld, InsertsHeld, VerdictOf, StepWork, StepReserve, StepRefind,
         Classify, FailureInv, IdentifierTaken;
    match p.pc {
      case Opened => if ScopeOf(c) in db.records { LookupKeeps(h, db, p, c, p.held); }
      case KeyMissing => ReserveKeeps(h, db, taken, p, c, ids);
      case KeyLost(drawn) => RefindKeeps(h, db, taken, p, c, drawn);
      case Working(record, rows) => WorkKeeps(h, db, taken, p, c, record, rows, ids, token);
      case _ =>
    }
  }

  lemma IntakeKeeps(db: Db, taken: set<Resource>, p: Process, s: Intake.Submission, ids: Intake.IntakeIds)
    requires IntakeInv(db, p, s)
    ensures IntakeInv(db, StepIntake(db, taken, p, s, ids), s)
  {
  }

  lemma NothingHeld()
    ensures LocksOf(NOTHING_READ) == {}
  {
  }

  lemma VerifyKeeps(h: Hashing, db: Db, taken: set<Resource>, p: Process, k: Check)
    requires GraphSound(h, db) && VerifyInv(h, db, p, k)
    ensures VerifyInv(h, db, StepVerify(h, db, taken, p, k), k)
  {
    hide GraphSound, RowsIn, NextRows, LocksOf, VerifyRows;
    NothingHeld();
    var rows := if p.pc.Verifying? then p.pc.rows else NOTHING_READ;
    if (p.pc.Opened? || p.pc.Verifying?) && !ReadingDone(rows, k.machine) {
      NextClaimRows(h, db, AsClaim(k), p.held, rows);
    }
  }

  /** One step of one process in a sound database. */
  lemma ProcessKeeps(h: Hashing, db: Db, taken: set<Resource>, p: Process, ids: Ids, intakeIds: Intake.IntakeIds,
                     token: Option<string>)
    requires RecordsComplete(db.records) && GraphSound(h, db) && ProcessInv(h, db, p)
    ensures ProcessInv(h, db, StepProcess(h, db, taken, p, ids, intakeIds, token))
  {
    StepAcquires(h, db, taken, p, ids, intakeIds, token);
    hide GraphSound, RecordsComplete, CommandInv, IntakeInv, VerifyInv, StepCommand, StepIntake, StepVerify;
    match p.call {
      case CommandCall(c) => CommandKeeps(h, db, taken, p, c, ids, token);
      case IntakeCall(s) => IntakeKeeps(db, taken, p, s, intakeIds);
      case VerifyCall(k) => VerifyKeeps(h, db, taken, p, k);
    }
  }
}
