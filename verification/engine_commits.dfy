/** Every commit keeps the database sound, only evolves it, and is the atomic execution of its call. */
module EngineCommits {
  import opened Model
  import opened CommandIdempotency
  import opened Commands
  import opened Evidence
  import opened Invariants
  import opened Preservation
  import opened Engine
  import opened EngineProcesses
  import opened EngineSteps
  import AttemptStart
  import StartAi = StartAiInterpretationCommand
  import Intake

  // ------------------------------------------------------------------ evolution

  /** An attempt row stays as it is, or takes the one transition from Pending to Running, which
      leaves every other field alone. */
  predicate AttemptEvolves(a: Attempt, b: Attempt) {
    || b == a
    || (a.state == AttemptState.Pending && b.startedAt.Some? && b == AttemptStart.RunningAttempt(a, b.startedAt.value))
  }

  predicate RequestEvolves(r: ServiceRequest, q: ServiceRequest) {
    q == r.(version := q.version) && q.version >= r.version
  }

  ghost predicate Grows<K, V>(table: map<K, V>, after: map<K, V>) {
    forall k :: k in table ==> k in after && after[k] == table[k]
  }

  ghost predicate RequestsEvolve(requests: map<Uuid, ServiceRequest>, after: map<Uuid, ServiceRequest>) {
    forall r :: r in requests ==> r in after && RequestEvolves(requests[r], after[r])
  }

  ghost predicate AttemptsEvolve(attempts: map<Uuid, Attempt>, after: map<Uuid, Attempt>) {
    forall a :: a in attempts ==> a in after && AttemptEvolves(attempts[a], after[a])
  }

  /** Rows are never removed; records, keys, operations, credentials, contacts and deliveries are
      immutable; the audit log and the outbox only grow at the end. */
  ghost predicate Evolves(db: Db, after: Db) {
    && Grows(db.records, after.records) && Grows(db.keys, after.keys)
    && Grows(db.operations, after.operations) && Grows(db.credentials, after.credentials)
    && Grows(db.contacts, after.contacts) && Grows(db.deliveries, after.deliveries)
    && RequestsEvolve(db.requests, after.requests) && AttemptsEvolve(db.attempts, after.attempts)
    && db.audit <= after.audit && db.outbox <= after.outbox
  }

  lemma EvolvesTransitive(a: Db, b: Db, c: Db)
    requires Evolves(a, b) && Evolves(b, c)
    ensures Evolves(a, c)
  {
  }

  // ------------------------------------------------------------------ what a command commits

  lemma CompletedIsValid(c: Command, db: Db, now: Time, held: set<Resource>, record: Record, status: int,
                         snapshot: Snapshot, delivery: Option<SecretDelivery>)
    requires RecordsComplete(db.records) && HoldsKey(db, c, now, held, record) && 200 <= status <= 599
    ensures RecordsComplete(db.records[ScopeOf(c) := CompletedRecord(record, status, snapshot, delivery, None, now)])
  {
    RecordsAfter(db.records, ScopeOf(c), CompletedRecord(record, status, snapshot, delivery, None, now));
  }

  predicate RefusalStatus(v: Verdict) { v.Refused? ==> v.status == 404 || v.status == 409 }

  lemma RefusalStatuses(h: Hashing, c: Command, now: Time, rows: Rows)
    requires VerdictOf(h, c, now, rows).Some?
    ensures RefusalStatus(VerdictOf(h, c, now, rows).value)
  {
    hide AttemptStart.GraphVerdict, AttemptStart.CredentialVerdict;
  }

  /** The request row a granted Start AI commits against is still the row it read. */
  lemma GrantedStart(h: Hashing, db: Db, p: Process, c: Command)
    requires c.StartAi? && GraphSound(h, db) && CommandInv(h, db, p, c) && p.pc.Completing? && p.pc.verdict.Granted?
    ensures p.pc.rows.request.Read? && c.requestId in db.requests && p.pc.rows.request.row == db.requests[c.requestId]
    ensures RequestRow(c.requestId) in p.held && StartAi.StartDecision(h, db, c) == Some(Granted)
  {
    hide GraphSound, HoldsKey, StartAi.Insertable, StartAi.ExistingOperationVerdict, StartAi.OpaqueCredential;
    RequestLocked(h, db, c, p.held, p.pc.rows);
    VerdictMonotone(h, c, p.now, p.pc.rows, RowsIn(h, db, c));
  }

  lemma GrantedClaim(h: Hashing, db: Db, p: Process, c: Command)
    requires c.ClaimStart? && GraphSound(h, db) && CommandInv(h, db, p, c) && p.pc.Completing? && p.pc.verdict.Granted?
    ensures p.pc.rows.attempt.Read? && c.attemptId in db.attempts && p.pc.rows.attempt.row == db.attempts[c.attemptId]
    ensures db.attempts[c.attemptId].state == AttemptState.Pending && db.attempts[c.attemptId].id == c.attemptId
    ensures {AttemptRow(c.attemptId), OperationRow(db.attempts[c.attemptId].operationId)} <= p.held
    ensures AttemptStart.ClaimDecision(h, db, c, p.now) == Some(Granted)
  {
    hide GraphSound, HoldsKey, AttemptStart.GraphVerdict, AttemptStart.CredentialVerdict;
    VerdictMonotone(h, c, p.now, p.pc.rows, RowsIn(h, db, c));
    ClaimDecided(h, db, c, p.now);
    assert AttemptRow(p.pc.rows.attempt.row.id) in LocksOf(p.pc.rows);
    assert OperationRow(p.pc.rows.operation.row.id) in LocksOf(p.pc.rows);
  }

  // ------------------------------------------------------------------ soundness of each commit

  lemma GuardKeepsSound(h: Hashing, db: Db, p: Process, c: Command)
    requires Sound(h, db) && CommandInv(h, db, p, c) && p.call == CommandCall(c) && p.pc.Completing?
             && p.pc.verdict.Refused?
    ensures Sound(h, Apply(db, EffectsOf(h, p)))
  {
    hide GraphSound, IntakeConserved, EvidenceComplete, RecordsComplete, RowsHeld, HoldsKey, VerdictOf;
    RefusalStatuses(h, c, p.now, p.pc.rows);
    CompletedIsValid(c, db, p.now, p.held, p.pc.record, p.pc.verdict.status, GuardSnapshot(p.pc.verdict), None);
    OtherTablesUntouched(h, db, ScopeOf(c), EffectsOf(h, p).record);
  }

  lemma OtherTablesUntouched(h: Hashing, db: Db, scope: ScopeKey, r: Record)
    requires GraphSound(h, db) && IntakeConserved(db) && EvidenceComplete(db)
    ensures var after := db.(records := db.records[scope := r]);
            GraphSound(h, after) && IntakeConserved(after) && EvidenceComplete(after)
  {
    hide Graph, IntakeLinked;
    var after := db.(records := db.records[scope := r]);
    forall g ensures Fold(after.audit, g) == Current(after, g) {
      assert Fold(db.audit, g) == Current(db, g);
    }
  }

  lemma StartKeepsSound(h: Hashing, db: Db, p: Process, c: Command)
    requires Sound(h, db) && CommandInv(h, db, p, c) && p.call == CommandCall(c)
    requires c.StartAi? && p.pc.Completing? && p.pc.verdict.Granted?
    ensures Sound(h, Apply(db, EffectsOf(h, p)))
  {
    hide GraphSound, IntakeConserved, EvidenceComplete, RecordsComplete, RowsHeld, HoldsKey, VerdictOf, Graph,
         StartAi.Insertable, RequestFits;
    GrantedStart(h, db, p, c);
    var r, ids, token := db.requests[c.requestId], p.pc.ids, p.pc.token;
    var o := StartAi.NewOperation(h, c, r, ids);
    var a, k := StartAi.NewAttempt(c, ids, p.now), StartAi.NewCredential(h, c, ids, p.now, token);
    var record := StartAi.StartedRecord(c, p.pc.record, r, p.now, ids);
    SoundRequest(h, db, c.requestId);
    CompletedIsValid(c, db, p.now, p.held, p.pc.record, 202, record.snapshot.value, record.delivery);
    NewGraphRowsFit(h, db, c, r, ids, p.now, token);
    GraphAfterStart(h, db, r.(version := r.version + 1), o, a, k);
    InsertableIsNew(db, o, a, k);
    EvidenceAfterStart(h, db, c, p.pc.record, p.now, ids, token);
    var after := Apply(db, EffectsOf(h, p));
    GraphOfTables(h, after);
    IntakeEventsAppend2(db.audit, StartAi.RequestEvent(c, p.pc.record.commandId, r.version + 1, ids),
                        StartAi.AttemptEvent(c, p.pc.record.commandId, ids));
    IntakeAfterCommand(db, after);
  }

  lemma SoundRequest(h: Hashing, db: Db, id: Uuid)
    requires GraphSound(h, db) && id in db.requests
    ensures db.requests[id].id == id && db.requests[id].version >= 1
  {
    assert RequestFits(id, db.requests[id]);
  }

  lemma InsertableIsNew(db: Db, o: Operation, a: Attempt, k: Credential)
    requires StartAi.Insertable(db, o, a, k)
    ensures o.id !in db.operations && a.id !in db.attempts && k.id !in db.credentials
  {
  }

  lemma GraphOfTables(h: Hashing, db: Db)
    requires Graph(h, db.requests, db.operations, db.attempts, db.credentials)
    ensures GraphSound(h, db)
  {
  }

  lemma NewGraphRowsFit(h: Hashing, db: Db, c: Command, r: ServiceRequest, ids: Ids, now: Time, token: string)
    requires c.StartAi? && c.requestId in db.requests && r == db.requests[c.requestId]
    ensures
      var o := StartAi.NewOperation(h, c, r, ids);
      var a, k := StartAi.NewAttempt(c, ids, now), StartAi.NewCredential(h, c, ids, now, token);
      OperationFits(h, db.requests, o) && AttemptFits(map[o.id := o], a) && CredentialFits(map[a.id := a], k)
  {
  }

  lemma ClaimKeepsSound(h: Hashing, db: Db, p: Process, c: Command)
    requires Sound(h, db) && CommandInv(h, db, p, c) && p.call == CommandCall(c)
    requires c.ClaimStart? && p.pc.Completing? && p.pc.verdict.Granted?
    ensures Sound(h, Apply(db, EffectsOf(h, p)))
  {
    hide GraphSound, IntakeConserved, EvidenceComplete, RecordsComplete, RowsHeld, HoldsKey, VerdictOf, Graph;
    GrantedClaim(h, db, p, c);
    var a := db.attempts[c.attemptId];
    CompletedIsValid(c, db, p.now, p.held, p.pc.record, 200,
                     AttemptStart.StartedSnapshot(AttemptStart.RunningAttempt(a, p.now), p.now), None);
    GraphAfterClaim(h, db, c.attemptId, p.now);
    EvidenceAfterClaim(db, c, p.pc.record, p.now, p.pc.ids.attemptAuditId);
    var after := Apply(db, EffectsOf(h, p));
    GraphOfTables(h, after);
    IntakeEventsAppend(db.audit, EffectsOf(h, p).attemptEvent);
    IntakeAfterCommand(db, after);
  }

  lemma IntakeKeepsSound(h: Hashing, db: Db, p: Process, s: Intake.Submission)
    requires Sound(h, db) && IntakeInv(db, p, s) && p.call == IntakeCall(s) && p.pc.Recorded?
    ensures Sound(h, Apply(db, EffectsOf(h, p)))
  {
    hide Sound, Intake.Insertable, Intake.RecordEffects;
    RecordedShape(db, s, p.held, p.pc.reply, p.pc.effects, p.pc.intakeIds, p.pc.seen);
    if p.pc.effects.DeliveryRecorded? {
      SoundAfterDelivery(h, db, s, p.pc.effects.delivery, p.pc.intakeIds);
    } else if p.pc.effects.RequestAccepted? {
      SoundAfterCreate(h, db, s, p.pc.intakeIds);
    }
  }

  /** The delivery a submission records when it creates no request. */
  predicate DeliveryOf(db: Db, s: Intake.Submission, ids: Intake.IntakeIds, d: Delivery) {
    || (s.keyDigest in db.keys && d == Intake.AgainstKey(s, db.keys[s.keyDigest], ids).1)
    || (s.Unusable? && d == Intake.RejectedDelivery(s.keyDigest, s.correlationId, ids.deliveryId))
  }

  lemma RecordedShape(db: Db, s: Intake.Submission, held: set<Resource>, reply: Intake.IntakeReply, e: Effects,
                      ids: Intake.IntakeIds, seen: Seen<AcceptedKey>)
    requires RecordedInv(db, s, held, reply, e, ids, seen)
    ensures e.NoEffects? || e.DeliveryRecorded? || e.RequestAccepted?
    ensures e.DeliveryRecorded? ==>
              && e == Intake.RecordEffects(e.delivery, ids.deliveryAuditId) && DeliveryOf(db, s, ids, e.delivery)
              && e.delivery.id == ids.deliveryId && ids.deliveryId !in db.deliveries
              && DeliveryRow(ids.deliveryId) in held
    ensures e.RequestAccepted? ==>
              && s.Valid? && e == Intake.CreateEffects(s, ids) && s.keyDigest !in db.keys && Intake.Insertable(db, ids)
              && CreateLocks(s, ids) <= held
  {
    hide Intake.Insertable;
  }

  lemma SoundAfterDelivery(h: Hashing, db: Db, s: Intake.Submission, d: Delivery, ids: Intake.IntakeIds)
    requires Sound(h, db) && DeliveryOf(db, s, ids, d) && d.id !in db.deliveries
    ensures Sound(h, Apply(db, Intake.RecordEffects(d, ids.deliveryAuditId)))
  {
    hide GraphSound, IntakeConserved, EvidenceComplete, RecordsComplete, DeliveryOf, DeliveryFits;
    AcceptedKeyFits(db, s.keyDigest);
    DeliveryOfFits(db, s, ids, d);
    IntakeAfterDelivery(db, d, ids.deliveryAuditId);
    EvidenceAfterDelivery(db, d, ids.deliveryAuditId);
    GraphUnaffected(h, db, Apply(db, Intake.RecordEffects(d, ids.deliveryAuditId)));
  }

  lemma AcceptedKeyFits(db: Db, digest: Digest)
    requires IntakeConserved(db)
    ensures digest in db.keys ==> KeyFits(db.requests, db.deliveries, digest, db.keys[digest])
  {
  }

  lemma DeliveryOfFits(db: Db, s: Intake.Submission, ids: Intake.IntakeIds, d: Delivery)
    requires DeliveryOf(db, s, ids, d)
    requires s.keyDigest in db.keys ==> KeyFits(db.requests, db.deliveries, s.keyDigest, db.keys[s.keyDigest])
    ensures DeliveryFits(db.keys, d.id, d) && d.outcome != NewDelivery && d.version == 1
  {
  }

  lemma SoundAfterCreate(h: Hashing, db: Db, s: Intake.Submission, ids: Intake.IntakeIds)
    requires Sound(h, db) && s.Valid? && s.keyDigest !in db.keys && Intake.Insertable(db, ids)
    ensures Sound(h, Apply(db, Intake.CreateEffects(s, ids)))
  {
    hide GraphSound, IntakeConserved, EvidenceComplete, RecordsComplete, Intake.Insertable, Graph;
    IntakeAfterCreate(db, s, ids);
    EvidenceAfterCreate(db, s, ids);
    NewRequestIsNew(db, ids);
    GraphAfterIntake(h, db, Intake.NewRequest(s.payload, ids));
    GraphOfTables(h, Apply(db, Intake.CreateEffects(s, ids)));
  }

  lemma NewRequestIsNew(db: Db, ids: Intake.IntakeIds)
    requires Intake.Insertable(db, ids)
    ensures ids.requestId !in db.requests && ids.deliveryId !in db.deliveries && ids.contactId !in db.contacts
  {
  }

  lemma GraphUnaffected(h: Hashing, db: Db, after: Db)
    requires GraphSound(h, db) && after.requests == db.requests && after.operations == db.operations
    requires after.attempts == db.attempts && after.credentials == db.credentials
    ensures GraphSound(h, after)
  {
    hide Graph;
  }

  /** Whatever a process commits, the database stays sound. */
  lemma CommitKeepsSound(h: Hashing, db: Db, p: Process)
    requires Sound(h, db) && ProcessInv(h, db, p) && EntryOf(h, p).Some?
    ensures Sound(h, Apply(db, EffectsOf(h, p)))
  {
    hide Sound, CommandInv, IntakeInv;
    match p.call {
      case CommandCall(c) =>
        CommandEnds(h, db, p, c);
        if p.pc.Completing? {
          if p.pc.verdict.Refused? { GuardKeepsSound(h, db, p, c); }
          else if c.StartAi? { StartKeepsSound(h, db, p, c); }
          else { ClaimKeepsSound(h, db, p, c); }
        }
      case IntakeCall(s) => IntakeKeepsSound(h, db, p, s);
    }
  }

  lemma CommandEnds(h: Hashing, db: Db, p: Process, c: Command)
    requires CommandInv(h, db, p, c) && EntryOf(h, p).Some? && p.call == CommandCall(c)
    ensures p.pc.Completing? || p.pc.Replaying? || p.pc.Failing?
    ensures p.pc.Completing? ==> !p.pc.verdict.Broken? && Committable(p)
    ensures !p.pc.Completing? ==> EffectsOf(h, p) == NoEffects
  {
    hide HoldsKey, RowsHeld, InsertsHeld, VerdictOf;
  }
}
