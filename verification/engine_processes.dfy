/** What every open process knows about the committed database, and that no step and no other
    process's commit takes it away. */
module EngineProcesses {
  import opened Model
  import opened Sessions
  import opened CommandIdempotency
  import opened Commands
  import opened CallbackVerifier
  import opened Engine
  import opened EngineFrames
  import StartAi = StartAiInterpretationCommand
  import Intake

  // ------------------------------------------------------------------ the invariant

  /** The reservation is this transaction's own uncommitted insert. */
  ghost predicate HoldsKey(db: Db, c: Command, now: Time, held: set<Resource>, record: Record) {
    && record == ProcessingRecord(record.id, record.commandId, c.correlationId, c.bodyHash, now)
    && ScopeOf(c) !in db.records
    && !IdentifierTaken(db.records, record.id, record.commandId)
    && ReservationLocks(ScopeOf(c), record.id, record.commandId) <= held
  }

  /** The command's target did not exist when it was looked up; there was no row to lock. */
  predicate TargetAbsent(c: Command, rows: Rows) {
    rows == if c.StartAi? then NOTHING_READ.(request := Absent) else NOTHING_READ.(attempt := Absent)
  }

  /** Rows are read in order, each located by the rows before it. */
  predicate InOrder(c: Command, rows: Rows) {
    match c
    case StartAi(requestId, _, _, _, _, _, _) =>
      && rows.attempt.Unread? && rows.credentials.Unread? && !rows.request.Absent? && !rows.siblings.Absent?
      && (rows.request.Read? ==> rows.request.row.id == requestId)
      && (!rows.operation.Unread? ==> rows.request.Read?)
      && (rows.siblings.Read? ==> rows.operation.Read?)
    case ClaimStart(attemptId, _, _, _, _, _) =>
      && !rows.attempt.Absent? && !rows.operation.Absent? && !rows.request.Absent? && !rows.siblings.Absent?
      && !rows.credentials.Absent?
      && (rows.attempt.Read? ==> rows.attempt.row.id == attemptId)
      && (rows.operation.Read? ==> rows.attempt.Read? && rows.operation.row.id == rows.attempt.row.operationId)
      && (rows.request.Read? ==> rows.operation.Read? && rows.request.row.id == rows.attempt.row.requestId)
      && (rows.siblings.Read? ==> rows.request.Read?)
      && (rows.credentials.Read? ==> rows.siblings.Read?)
  }

  /** The rows read are locked, and are what the committed database still holds. */
  ghost predicate RowsHeld(h: Hashing, db: Db, c: Command, held: set<Resource>, rows: Rows) {
    TargetAbsent(c, rows) || (InOrder(c, rows) && Agrees(rows, RowsIn(h, db, c)) && LocksOf(rows) <= held)
  }

  /** The three inserts of Start AI hold their unique keys and stay insertable. */
  ghost predicate InsertsHeld(h: Hashing, db: Db, p: Process, c: Command, rows: Rows, ids: Ids, token: string)
    requires c.StartAi?
  {
    rows.request.Read? && StartAi.OpaqueCredential(token) &&
    var o := StartAi.NewOperation(h, c, rows.request.row, ids);
    var a, k := StartAi.NewAttempt(c, ids, p.now), StartAi.NewCredential(h, c, ids, p.now, token);
    StartAi.Insertable(db, o, a, k) && InsertLocks(o, a, k) <= p.held
  }

  /** The failures a command can report: none of them is a structural RuntimeError. */
  predicate OrdinaryFailure(e: Exception) {
    || e == ApiError(409, CommandIdempotencyConflict)
    || e == ApiError(503, DependencyUnavailable)
    || e == ApiError(500, InternalError)      // an insert violated a constraint
  }

  /** The three inserts of Start AI fail: there is no usable token, or they violate a constraint. */
  predicate InsertsFail(h: Hashing, db: Db, c: Command, now: Time, r: ServiceRequest, ids: Ids, token: Option<string>,
                        e: Exception)
    requires c.StartAi?
  {
    if token.None? || !StartAi.OpaqueCredential(token.value) then e == ApiError(503, DependencyUnavailable)
    else
      && e == ApiError(500, InternalError)
      && !StartAi.Insertable(db, StartAi.NewOperation(h, c, r, ids), StartAi.NewAttempt(c, ids, now),
                             StartAi.NewCredential(h, c, ids, now, token.value))
  }

  /** A failing command knows why it fails. */
  ghost predicate FailureInv(h: Hashing, db: Db, p: Process, c: Command, e: Exception, cause: Cause) {
    match cause
    case OtherBody =>
      && e == ApiError(409, CommandIdempotencyConflict)
      && ScopeOf(c) in db.records && db.records[ScopeOf(c)].bodyHash != c.bodyHash
    case NoWinner(ids) =>
      && e == ApiError(503, DependencyUnavailable)
      && IdentifierTaken(db.records, ids.recordId, ids.commandId)
    case Undone(record, rows, ids, token) =>
      && c.StartAi? && HoldsKey(db, c, p.now, p.held, record) && RowsHeld(h, db, c, p.held, rows)
      && VerdictOf(h, c, p.now, rows) == Some(Granted) && rows.request.Read?
      && InsertsFail(h, db, c, p.now, rows.request.row, ids, token, e)
  }

  ghost predicate CommandInv(h: Hashing, db: Db, p: Process, c: Command) {
    match p.pc
    case Opened => true
    case KeyMissing => true
    case KeyLost(ids) => ScopeOf(c) in db.records || IdentifierTaken(db.records, ids.recordId, ids.commandId)
    case Working(record, rows) => HoldsKey(db, c, p.now, p.held, record) && RowsHeld(h, db, c, p.held, rows)
    case Completing(record, rows, v, ids, token) =>
      && HoldsKey(db, c, p.now, p.held, record) && RowsHeld(h, db, c, p.held, rows)
      && VerdictOf(h, c, p.now, rows) == Some(v) && !v.Broken?
      && (v.Granted? && c.StartAi? ==> InsertsHeld(h, db, p, c, rows, ids, token))
    case Replaying(result) =>
      && ScopeOf(c) in db.records && db.records[ScopeOf(c)].bodyHash == c.bodyHash
      && RecordChecks(db.records[ScopeOf(c)]) && db.records[ScopeOf(c)].status == Completed
      && result == ResultOf(db.records[ScopeOf(c)], true)
    case Failing(e, cause) => FailureInv(h, db, p, c, e, cause)
    case Delivering(_) => true
    case _ => false
  }

  /** The private writes of a submission are what `Submit` makes of the committed database; the
      exception is one that found no key, whose key another transaction has accepted since. */
  ghost predicate RecordedInv(db: Db, s: Intake.Submission, held: set<Resource>, reply: Intake.IntakeReply,
                              e: Effects, ids: Intake.IntakeIds, seen: Seen<AcceptedKey>) {
    || (reply == Intake.IntakeFailed && e == NoEffects && SubmissionFails(db, s, ids, seen))
    || (DeliveryRow(ids.deliveryId) in held && ids.deliveryId !in db.deliveries
        && (|| RecordedAgainstKey(db, s, reply, e, ids, seen)
            || RecordedAsInvalid(s, reply, e, ids, seen)
            || RecordedAsNew(db, s, held, reply, e, ids, seen)))
  }

  /** One of the primary keys it inserts is taken. */
  predicate SubmissionFails(db: Db, s: Intake.Submission, ids: Intake.IntakeIds, seen: Seen<AcceptedKey>) {
    && (seen.Read? ==> s.keyDigest in db.keys)
    && (ids.deliveryId in db.deliveries || (s.Valid? && seen.Absent? && !Intake.Insertable(db, ids)))
  }

  predicate RecordedAgainstKey(db: Db, s: Intake.Submission, reply: Intake.IntakeReply, e: Effects,
                               ids: Intake.IntakeIds, seen: Seen<AcceptedKey>) {
    && s.keyDigest in db.keys && seen == Read(db.keys[s.keyDigest])
    && var (answer, d) := Intake.AgainstKey(s, db.keys[s.keyDigest], ids);
       reply == answer && e == Intake.RecordEffects(d, ids.deliveryAuditId)
  }

  predicate RecordedAsInvalid(s: Intake.Submission, reply: Intake.IntakeReply, e: Effects, ids: Intake.IntakeIds,
                              seen: Seen<AcceptedKey>) {
    && s.Unusable? && seen == Absent && reply == Intake.Refused(ids.deliveryId)
    && e == Intake.RecordEffects(Intake.RejectedDelivery(s.keyDigest, s.correlationId, ids.deliveryId),
                                 ids.deliveryAuditId)
  }

  predicate RecordedAsNew(db: Db, s: Intake.Submission, held: set<Resource>, reply: Intake.IntakeReply, e: Effects,
                          ids: Intake.IntakeIds, seen: Seen<AcceptedKey>) {
    && s.Valid? && seen == Absent && s.keyDigest !in db.keys && Intake.Insertable(db, ids)
    && CreateLocks(s, ids) <= held
    && reply == Intake.Created(ids.deliveryId, ids.requestId) && e == Intake.CreateEffects(s, ids)
  }

  ghost predicate IntakeInv(db: Db, p: Process, s: Intake.Submission) {
    match p.pc
    case Opened => true
    case KeyMissing => true
    case AcceptLost(ids) => s.Valid? && (s.keyDigest in db.keys || !Intake.Insertable(db, ids))
    case KeyFound(key) => s.keyDigest in db.keys && db.keys[s.keyDigest] == key
    case Recorded(reply, e, ids, seen) => RecordedInv(db, s, p.held, reply, e, ids, seen)
    case Delivering(_) => true
    case _ => false
  }

  /** The rows the verifier has read are locked and unchanged, and its answer is theirs. */
  ghost predicate VerifyInv(h: Hashing, db: Db, p: Process, k: Check) {
    match p.pc
    case Opened => true
    case Verifying(rows) => RowsHeld(h, db, AsClaim(k), p.held, rows)
    case Checked(rows, result) =>
      && RowsHeld(h, db, AsClaim(k), p.held, rows) && ReadingDone(rows, k.machine)
      && result == VerifyRows(rows, k.machine, k.digest, p.now)
    case Delivering(_) => true
    case _ => false
  }

  ghost predicate ProcessInv(h: Hashing, db: Db, p: Process) {
    match p.call
    case CommandCall(c) => CommandInv(h, db, p, c)
    case IntakeCall(s) => IntakeInv(db, p, s)
    case VerifyCall(k) => VerifyInv(h, db, p, k)
  }

  // ------------------------------------------------------------------ other transactions' commits

  /** Committed records, accepted keys, operations and credentials stay, and no other row goes away. */
  ghost predicate RowsPersist(db: Db, after: Db) {
    && (forall k :: k in db.records ==> k in after.records && after.records[k] == db.records[k])
    && (forall d :: d in db.keys ==> d in after.keys && after.keys[d] == db.keys[d])
    && (forall o :: o in db.operations ==> o in after.operations && after.operations[o] == db.operations[o])
    && (forall c :: c in db.credentials ==> c in after.credentials && after.credentials[c] == db.credentials[c])
    && db.attempts.Keys <= after.attempts.Keys && db.requests.Keys <= after.requests.Keys
    && db.contacts.Keys <= after.contacts.Keys && db.deliveries.Keys <= after.deliveries.Keys
  }

  lemma RowsStable(h: Hashing, db: Db, after: Db, c: Command, held: set<Resource>, rows: Rows)
    requires RowsHeld(h, db, c, held, rows) && Stable(db, after, held)
    ensures RowsHeld(h, after, c, held, rows)
  {
    if !TargetAbsent(c, rows) {
      if c.StartAi? {
        if rows.request.Read? { assert ViewOf(after, RequestRow(c.requestId)) == ViewOf(db, RequestRow(c.requestId)); }
        if rows.operation.Read? {
          var o := OperationRow(rows.operation.row.id);
          assert ViewOf(after, o) == ViewOf(db, o);
        }
      } else {
        if rows.attempt.Read? { assert ViewOf(after, AttemptRow(c.attemptId)) == ViewOf(db, AttemptRow(c.attemptId)); }
        if rows.operation.Read? {
          var o := OperationRow(rows.operation.row.id);
          assert ViewOf(after, o) == ViewOf(db, o);
        }
        if rows.request.Read? {
          var r := RequestRow(rows.request.row.id);
          assert ViewOf(after, r) == ViewOf(db, r);
        }
      }
    }
  }

  lemma KeyStable(db: Db, after: Db, c: Command, now: Time, held: set<Resource>, record: Record)
    requires HoldsKey(db, c, now, held, record) && Stable(db, after, held)
    ensures HoldsKey(after, c, now, held, record)
  {
    var key, id, command := RecordKey(ScopeOf(c)), RecordId(record.id), CommandId(record.commandId);
    assert key in held && id in held && command in held;
    assert ViewOf(after, key) == ViewOf(db, key);
    assert ViewOf(after, id) == ViewOf(db, id);
    assert ViewOf(after, command) == ViewOf(db, command);
  }

  lemma InsertableStable(db: Db, after: Db, held: set<Resource>, o: Operation, a: Attempt, k: Credential)
    requires StartAi.Insertable(db, o, a, k) && Stable(db, after, held)
    requires InsertLocks(o, a, k) <= held && RequestRow(o.requestId) in held
    ensures StartAi.Insertable(after, o, a, k)
  {
    var r1, r2, r3 := OperationRow(o.id), AttemptRow(a.id), CredentialRow(k.id);
    var r4, r5 := CredentialHash(k.hash), RequestRow(o.requestId);
    assert r1 in InsertLocks(o, a, k) && r2 in InsertLocks(o, a, k) && r3 in InsertLocks(o, a, k)
           && r4 in InsertLocks(o, a, k);
    assert ViewOf(after, r1) == ViewOf(db, r1) && ViewOf(after, r2) == ViewOf(db, r2)
           && ViewOf(after, r3) == ViewOf(db, r3);
    assert ViewOf(after, r4) == ViewOf(db, r4) && ViewOf(after, r5) == ViewOf(db, r5);
    assert !HashTaken(db.credentials, k.hash);
    forall p | p in after.operations
      ensures !StartAi.HasIdentity(after.operations[p], o.requestId, o.inputHash, o.configurationHash)
    {
      if after.operations[p].requestId == o.requestId {
        assert p in StartAi.OperationsFor(after.operations, o.requestId);
        assert p in StartAi.OperationsFor(db.operations, o.requestId);
      }
    }
  }

  lemma CommandStable(h: Hashing, db: Db, after: Db, p: Process, c: Command)
    requires CommandInv(h, db, p, c) && Stable(db, after, p.held) && RowsPersist(db, after)
    ensures CommandInv(h, after, p, c)
  {
    hide HoldsKey, RowsHeld, Stable, StartAi.Insertable, VerdictOf, RecordChecks, FailureInv, IdentifierTaken;
    match p.pc {
      case KeyLost(ids) =>
        if ScopeOf(c) !in db.records { TakenPersists(db, after, ids.recordId, ids.commandId); }
      case Working(record, rows) =>
        KeyStable(db, after, c, p.now, p.held, record);
        RowsStable(h, db, after, c, p.held, rows);
      case Completing(record, rows, v, ids, token) =>
        KeyStable(db, after, c, p.now, p.held, record);
        RowsStable(h, db, after, c, p.held, rows);
        if v.Granted? && c.StartAi? {
          RequestLocked(h, db, c, p.held, rows);
          InsertableStable(db, after, p.held, StartAi.NewOperation(h, c, rows.request.row, ids),
                           StartAi.NewAttempt(c, ids, p.now), StartAi.NewCredential(h, c, ids, p.now, token));
        }
      case Failing(e, cause) => FailureStable(h, db, after, p, c, e, cause);
      case _ =>
    }
  }

  lemma TakenPersists(db: Db, after: Db, id: Uuid, commandId: Uuid)
    requires RowsPersist(db, after) && IdentifierTaken(db.records, id, commandId)
    ensures IdentifierTaken(after.records, id, commandId)
  {
    var k :| k in db.records && (db.records[k].id == id || db.records[k].commandId == commandId);
    assert k in after.records && after.records[k] == db.records[k];
  }

  /** What an insert collides with stays in its way. */
  lemma CollisionPersists(db: Db, after: Db, o: Operation, a: Attempt, k: Credential)
    requires RowsPersist(db, after) && StartAi.Insertable(after, o, a, k)
    ensures StartAi.Insertable(db, o, a, k)
  {
    hide OperationChecks, AttemptChecks, CredentialChecks;
  }

  lemma FailureStable(h: Hashing, db: Db, after: Db, p: Process, c: Command, e: Exception, cause: Cause)
    requires FailureInv(h, db, p, c, e, cause) && Stable(db, after, p.held) && RowsPersist(db, after)
    ensures FailureInv(h, after, p, c, e, cause)
  {
    hide HoldsKey, RowsHeld, Stable, StartAi.Insertable, VerdictOf, IdentifierTaken, StartAi.OpaqueCredential;
    match cause {
      case OtherBody =>
      case NoWinner(ids) => TakenPersists(db, after, ids.recordId, ids.commandId);
      case Undone(record, rows, ids, token) =>
        KeyStable(db, after, c, p.now, p.held, record);
        RowsStable(h, db, after, c, p.held, rows);
        if token.Some? {
          var o, a := StartAi.NewOperation(h, c, rows.request.row, ids), StartAi.NewAttempt(c, ids, p.now);
          var k := StartAi.NewCredential(h, c, ids, p.now, token.value);
          if StartAi.Insertable(after, o, a, k) { CollisionPersists(db, after, o, a, k); }
        }
    }
  }

  lemma RequestLocked(h: Hashing, db: Db, c: Command, held: set<Resource>, rows: Rows)
    requires c.StartAi? && RowsHeld(h, db, c, held, rows) && rows.request.Read?
    ensures RequestRow(c.requestId) in held
    ensures c.requestId in db.requests && rows.request.row == db.requests[c.requestId]
            && rows.request.row.id == c.requestId
  {
    assert RequestRow(rows.request.row.id) in LocksOf(rows);
  }

  lemma SubmissionStable(db: Db, after: Db, held: set<Resource>, s: Intake.Submission, ids: Intake.IntakeIds)
    requires Stable(db, after, held) && CreateLocks(s, ids) <= held
    ensures Intake.Insertable(db, ids) ==> Intake.Insertable(after, ids)
    ensures s.keyDigest in after.keys <==> s.keyDigest in db.keys
  {
    var r1, r2, r3 := DeliveryRow(ids.deliveryId), IntakeKey(s.keyDigest), IntakeKeyId(ids.keyId);
    var r4, r5 := RequestRow(ids.requestId), ContactRow(ids.contactId);
    assert {r1, r2, r3, r4, r5} <= CreateLocks(s, ids);
    assert r1 in held && r2 in held && r3 in held && r4 in held && r5 in held;
    assert ViewOf(after, r1) == ViewOf(db, r1) && ViewOf(after, r2) == ViewOf(db, r2)
           && ViewOf(after, r3) == ViewOf(db, r3);
    assert ViewOf(after, r4) == ViewOf(db, r4) && ViewOf(after, r5) == ViewOf(db, r5);
    assert Intake.Insertable(db, ids) ==> !KeyIdTaken(db.keys, ids.keyId);
  }

  lemma DeliveryRowStable(db: Db, after: Db, held: set<Resource>, id: Uuid)
    requires Stable(db, after, held) && DeliveryRow(id) in held
    ensures id in after.deliveries <==> id in db.deliveries
  {
    assert ViewOf(after, DeliveryRow(id)) == ViewOf(db, DeliveryRow(id));
  }

  lemma ClashPersists(db: Db, after: Db, ids: Intake.IntakeIds)
    requires RowsPersist(db, after)
    ensures Intake.Insertable(after, ids) ==> Intake.Insertable(db, ids)
  {
  }

  lemma IntakeStable(db: Db, after: Db, p: Process, s: Intake.Submission)
    requires IntakeInv(db, p, s) && Stable(db, after, p.held) && RowsPersist(db, after)
    ensures IntakeInv(after, p, s)
  {
    hide Stable, Intake.Insertable, CreateLocks, Intake.AgainstKey, Intake.RecordEffects, Intake.CreateEffects;
    if p.pc.AcceptLost? || p.pc.Recorded? { ClashPersists(db, after, p.pc.intakeIds); }
    if p.pc.Recorded? && DeliveryRow(p.pc.intakeIds.deliveryId) in p.held {
      DeliveryRowStable(db, after, p.held, p.pc.intakeIds.deliveryId);
      if CreateLocks(s, p.pc.intakeIds) <= p.held { SubmissionStable(db, after, p.held, s, p.pc.intakeIds); }
    }
  }

  /** A commit elsewhere keeps everything a process knows. */
  lemma ProcessStable(h: Hashing, db: Db, after: Db, p: Process)
    requires ProcessInv(h, db, p) && Stable(db, after, p.held) && RowsPersist(db, after)
    ensures ProcessInv(h, after, p)
  {
    hide CommandInv, IntakeInv, RowsHeld, Stable, RowsPersist, ReadingDone, VerifyRows;
    match p.call {
      case CommandCall(c) => CommandStable(h, db, after, p, c);
      case IntakeCall(s) => IntakeStable(db, after, p, s);
      case VerifyCall(k) =>
        if p.pc.Verifying? || p.pc.Checked? { RowsStable(h, db, after, AsClaim(k), p.held, p.pc.rows); }
    }
  }
}
