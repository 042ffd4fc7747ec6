/** Every effect a transaction commits keeps the database sound. */
module Preservation {
  import opened Model
  import opened CommandIdempotency
  import opened Commands
  import opened Evidence
  import opened Invariants
  import AttemptStart
  import StartAi = StartAiInterpretationCommand
  import Intake

  // ------------------------------------------------------------------ the execution graph

  lemma OperationsAfterStart(operations: map<Uuid, Operation>, o: Operation)
    requires OperationConstraints(operations) && OperationChecks(o) && o.id !in operations
    requires forall p :: p in operations ==> !SameIdentity(operations[p], o)
    ensures OperationConstraints(operations[o.id := o])
  {
    var after := operations[o.id := o];
    forall p, q | p in after && q in after && p != q
      ensures !SameIdentity(after[p], after[q])
    {
      if p != o.id && q != o.id { assert !SameIdentity(operations[p], operations[q]); }
    }
  }

  lemma AttemptsAfterStart(operations: map<Uuid, Operation>, attempts: map<Uuid, Attempt>, o: Operation, a: Attempt)
    requires AttemptConstraints(attempts) && OneAttemptEach(operations, attempts)
    requires AllAttemptsFit(operations, attempts)
    requires AttemptChecks(a) && a.id !in attempts && o.id !in operations && a.operationId == o.id
    ensures AttemptConstraints(attempts[a.id := a])
    ensures OneAttemptEach(operations[o.id := o], attempts[a.id := a])
  {
    var after := attempts[a.id := a];
    forall b, d | b in after && d in after && b != d
      ensures AttemptsCompatible(after[b], after[d]) && after[b].operationId != after[d].operationId
    {
      if b != a.id && d != a.id {
        assert AttemptsCompatible(attempts[b], attempts[d]);
      } else {
        var other := if b == a.id then d else b;
        assert AttemptFits(operations, attempts[other]);
      }
    }
    var allOperations := operations[o.id := o];
    forall p | p in allOperations
      ensures exists b :: b in after && after[b].operationId == p
    {
      if p == o.id {
        assert after[a.id].operationId == p;
      } else {
        var b :| b in attempts && attempts[b].operationId == p;
        assert after[b].operationId == p;
      }
    }
  }

  lemma CredentialsAfterStart(attempts: map<Uuid, Attempt>, credentials: map<Uuid, Credential>, a: Attempt,
                              k: Credential)
    requires CredentialConstraints(credentials) && OneCredentialEach(attempts, credentials)
    requires AllCredentialsFit(attempts, credentials)
    requires CredentialChecks(k) && k.id !in credentials && a.id !in attempts && k.attemptId == a.id
    requires forall c :: c in credentials ==> credentials[c].hash != k.hash
    ensures CredentialConstraints(credentials[k.id := k])
    ensures OneCredentialEach(attempts[a.id := a], credentials[k.id := k])
  {
    var after := credentials[k.id := k];
    forall c, d | c in after && d in after && c != d
      ensures CredentialsCompatible(after[c], after[d]) && after[c].attemptId != after[d].attemptId
    {
      if c != k.id && d != k.id {
        assert CredentialsCompatible(credentials[c], credentials[d]);
      } else {
        var other := if c == k.id then d else c;
        assert CredentialFits(attempts, credentials[other]);
      }
    }
    var allAttempts := attempts[a.id := a];
    forall b | b in allAttempts
      ensures exists c :: c in after && after[c].attemptId == b
    {
      if b == a.id {
        assert after[k.id].attemptId == b;
      } else {
        var c :| c in credentials && credentials[c].attemptId == b;
        assert after[c].attemptId == b;
      }
    }
  }

  lemma FitsAfterStart(h: Hashing, db: Db, r: ServiceRequest, o: Operation, a: Attempt, k: Credential)
    requires AllRequestsFit(db.requests) && AllOperationsFit(h, db.requests, db.operations)
    requires AllAttemptsFit(db.operations, db.attempts) && AllCredentialsFit(db.attempts, db.credentials)
    requires r.id in db.requests && r == db.requests[r.id].(version := db.requests[r.id].version + 1)
    requires o.id !in db.operations && a.id !in db.attempts && k.id !in db.credentials
    requires OperationFits(h, db.requests, o)
    requires AttemptFits(map[o.id := o], a) && CredentialFits(map[a.id := a], k)
    ensures AllRequestsFit(db.requests[r.id := r])
    ensures AllOperationsFit(h, db.requests[r.id := r], db.operations[o.id := o])
    ensures AllAttemptsFit(db.operations[o.id := o], db.attempts[a.id := a])
    ensures AllCredentialsFit(db.attempts[a.id := a], db.credentials[k.id := k])
  {
  }

  /** `r` is the stored request one version on. */
  predicate NextVersion(requests: map<Uuid, ServiceRequest>, r: ServiceRequest) {
    r.id in requests && r == requests[r.id].(version := requests[r.id].version + 1)
  }

  /** The full success graph of Start AI. */
  lemma GraphAfterStart(h: Hashing, db: Db, r: ServiceRequest, o: Operation, a: Attempt, k: Credential)
    requires NextVersion(db.requests, r)
    requires OperationFits(h, db.requests, o) && AttemptFits(map[o.id := o], a) && CredentialFits(map[a.id := a], k)
    requires StartAi.Insertable(db, o, a, k) && GraphSound(h, db)
    ensures Graph(h, db.requests[r.id := r], db.operations[o.id := o], db.attempts[a.id := a],
                  db.credentials[k.id := k])
  {
    OperationsAfterStart(db.operations, o);
    AttemptsAfterStart(db.operations, db.attempts, o, a);
    CredentialsAfterStart(db.attempts, db.credentials, a, k);
    FitsAfterStart(h, db, r, o, a, k);
  }

  lemma AttemptsFitAfterClaim(operations: map<Uuid, Operation>, attempts: map<Uuid, Attempt>, id: Uuid, b: Attempt)
    requires AllAttemptsFit(operations, attempts) && OneAttemptEach(operations, attempts) && id in attempts
    requires b.operationId == attempts[id].operationId && AttemptFits(operations, b)
    ensures AllAttemptsFit(operations, attempts[id := b]) && OneAttemptEach(operations, attempts[id := b])
  {
    var after := attempts[id := b];
    forall o | o in operations ensures exists a :: a in after && after[a].operationId == o {
      var a :| a in attempts && attempts[a].operationId == o;
      assert after[a].operationId == o;
    }
  }

  lemma CredentialsFitAfterClaim(attempts: map<Uuid, Attempt>, credentials: map<Uuid, Credential>, id: Uuid, b: Attempt)
    requires AllCredentialsFit(attempts, credentials) && OneCredentialEach(attempts, credentials) && id in attempts
    requires b.service == attempts[id].service && b.environment == attempts[id].environment
             && b.deadline == attempts[id].deadline
    ensures AllCredentialsFit(attempts[id := b], credentials) && OneCredentialEach(attempts[id := b], credentials)
  {
  }

  lemma GraphAfterClaim(h: Hashing, db: Db, id: Uuid, now: Time)
    requires GraphSound(h, db) && id in db.attempts && db.attempts[id].state == Pending
    ensures Graph(h, db.requests, db.operations, db.attempts[id := AttemptStart.RunningAttempt(db.attempts[id], now)],
                  db.credentials)
  {
    hide OperationConstraints, AttemptConstraints, CredentialConstraints, AllRequestsFit, AllOperationsFit,
         AllCredentialsFit,
         OneAttemptEach, OneCredentialEach;
    AttemptStart.RunningKeepsConstraints(db.attempts, id, now);
    var b := AttemptStart.RunningAttempt(db.attempts[id], now);
    assert AttemptFits(db.operations, db.attempts[id]);
    AttemptsFitAfterClaim(db.operations, db.attempts, id, b);
    CredentialsFitAfterClaim(db.attempts, db.credentials, id, b);
  }

  lemma FitsAfterIntake(h: Hashing, requests: map<Uuid, ServiceRequest>, operations: map<Uuid, Operation>,
                        r: ServiceRequest)
    requires AllRequestsFit(requests) && AllOperationsFit(h, requests, operations)
    requires r.id !in requests && RequestFits(r.id, r)
    ensures AllRequestsFit(requests[r.id := r]) && AllOperationsFit(h, requests[r.id := r], operations)
  {
  }

  lemma GraphAfterIntake(h: Hashing, db: Db, r: ServiceRequest)
    requires GraphSound(h, db) && r.id !in db.requests && RequestFits(r.id, r)
    ensures Graph(h, db.requests[r.id := r], db.operations, db.attempts, db.credentials)
  {
    FitsAfterIntake(h, db.requests, db.operations, r);
  }

  // ------------------------------------------------------------------ records

  lemma RecordsAfter(records: map<ScopeKey, Record>, scope: ScopeKey, r: Record)
    requires RecordsComplete(records) && scope !in records
    requires r.status == Completed && RecordChecks(r) && !IdentifierTaken(records, r.id, r.commandId)
    ensures RecordsComplete(records[scope := r])
  {
  }

  // ------------------------------------------------------------------ evidence

  lemma EvidenceAfterStart(h: Hashing, db: Db, c: Command, record: Record, now: Time, ids: Ids, token: string)
    requires c.StartAi? && EvidenceComplete(db)
    requires c.requestId in db.requests && db.requests[c.requestId].id == c.requestId
             && db.requests[c.requestId].version >= 1
    requires ids.attemptId !in db.attempts
    ensures EvidenceComplete(Apply(db, StartAi.StartEffects(h, c, record, db.requests[c.requestId], now, ids, token)))
  {
    var e := StartAi.StartEffects(h, c, record, db.requests[c.requestId], now, ids, token);
    var after := Apply(db, e);
    forall g ensures Fold(after.audit, g) == Current(after, g) {
      FoldAppend2(db.audit, e.requestEvent, e.attemptEvent, g);
      assert Fold(db.audit, g) == Current(db, g);
    }
    MessagesAppend2(db.audit, e.requestEvent, e.attemptEvent);
  }

  lemma EvidenceAfterClaim(db: Db, c: Command, record: Record, now: Time, auditId: Uuid)
    requires c.ClaimStart? && EvidenceComplete(db)
    requires c.attemptId in db.attempts && db.attempts[c.attemptId].id == c.attemptId
    ensures
      var e := AttemptStart.ClaimEffects(ScopeOf(c), record, db.attempts[c.attemptId], c.machine, c.correlationId, now,
                                         auditId);
      EvidenceComplete(Apply(db, e))
  {
    var e := AttemptStart.ClaimEffects(ScopeOf(c), record, db.attempts[c.attemptId], c.machine, c.correlationId, now,
                                       auditId);
    var after := Apply(db, e);
    forall g ensures Fold(after.audit, g) == Current(after, g) {
      FoldAppend(db.audit, e.attemptEvent, g);
      assert Fold(db.audit, g) == Current(db, g);
    }
    MessagesAppend(db.audit, e.attemptEvent);
  }

  lemma EvidenceAfterDelivery(db: Db, d: Delivery, auditId: Uuid)
    requires EvidenceComplete(db) && d.id !in db.deliveries && d.version == 1
    ensures EvidenceComplete(Apply(db, Intake.RecordEffects(d, auditId)))
  {
    var e := Intake.RecordEffects(d, auditId);
    var after := Apply(db, e);
    forall g ensures Fold(after.audit, g) == Current(after, g) {
      FoldAppend(db.audit, e.deliveryEvent, g);
      assert Fold(db.audit, g) == Current(db, g);
    }
    MessagesAppend(db.audit, e.deliveryEvent);
  }

  lemma EvidenceAfterCreate(db: Db, s: Intake.Submission, ids: Intake.IntakeIds)
    requires s.Valid? && EvidenceComplete(db) && Intake.Insertable(db, ids)
    ensures EvidenceComplete(Apply(db, Intake.CreateEffects(s, ids)))
  {
    var e := Intake.CreateEffects(s, ids);
    var after := Apply(db, e);
    forall g ensures Fold(after.audit, g) == Current(after, g) {
      FoldAppend2(db.audit, e.deliveryEvent, e.requestEvent, g);
      assert Fold(db.audit, g) == Current(db, g);
    }
    MessagesAppend2(db.audit, e.deliveryEvent, e.requestEvent);
  }

  // ------------------------------------------------------------------ intake

  lemma LinkedAfterDelivery(db: Db, d: Delivery)
    requires IntakeLinked(db.keys, db.contacts, db.deliveries, db.requests)
    requires d.id !in db.deliveries && DeliveryFits(db.keys, d.id, d)
    ensures IntakeLinked(db.keys, db.contacts, db.deliveries[d.id := d], db.requests)
  {
    hide DeliveryFits;
  }

  lemma NewDeliveriesAfter(deliveries: map<Uuid, Delivery>, d: Delivery)
    requires d.id !in deliveries
    ensures |NewDeliveries(deliveries[d.id := d])| ==
              |NewDeliveries(deliveries)| + if d.outcome == NewDelivery then 1 else 0
  {
    var added := if d.outcome == NewDelivery then {d.id} else {};
    assert NewDeliveries(deliveries[d.id := d]) == NewDeliveries(deliveries) + added;
  }

  lemma IntakeAfterDelivery(db: Db, d: Delivery, auditId: Uuid)
    requires IntakeConserved(db) && d.id !in db.deliveries
    requires DeliveryFits(db.keys, d.id, d) && d.outcome != NewDelivery
    ensures IntakeConserved(Apply(db, Intake.RecordEffects(d, auditId)))
  {
    hide IntakeLinked, DeliveryFits;
    LinkedAfterDelivery(db, d);
    NewDeliveriesAfter(db.deliveries, d);
    IntakeEventsAppend(db.audit, Intake.DeliveryEvent(d, auditId));
  }

  lemma LinkedAfterCreate(db: Db, digest: Digest, k: AcceptedKey, contact: Contact, d: Delivery, r: ServiceRequest)
    requires IntakeLinked(db.keys, db.contacts, db.deliveries, db.requests)
    requires d.id !in db.deliveries && r.id !in db.requests && contact.id !in db.contacts && digest !in db.keys
    requires KeyFits(map[r.id := r], map[d.id := d], digest, k)
    requires DeliveryFits(map[digest := k], d.id, d)
    requires OriginFits(map[contact.id := contact], map[d.id := d], r)
    ensures IntakeLinked(db.keys[digest := k], db.contacts[contact.id := contact], db.deliveries[d.id := d],
                         db.requests[r.id := r])
  {
    hide AllKeysFit, AllDeliveriesFit, AllOriginsFit, KeyFits, DeliveryFits, OriginFits;
    KeysAfterCreate(db, digest, k, d, r);
    DeliveriesAfterCreate(db, digest, k, d);
    OriginsAfterCreate(db, contact, d, r);
  }

  lemma KeysAfterCreate(db: Db, digest: Digest, k: AcceptedKey, d: Delivery, r: ServiceRequest)
    requires AllKeysFit(db.requests, db.deliveries, db.keys) && d.id !in db.deliveries && r.id !in db.requests
    requires KeyFits(map[r.id := r], map[d.id := d], digest, k)
    ensures AllKeysFit(db.requests[r.id := r], db.deliveries[d.id := d], db.keys[digest := k])
  {
  }

  lemma DeliveriesAfterCreate(db: Db, digest: Digest, k: AcceptedKey, d: Delivery)
    requires AllDeliveriesFit(db.keys, db.deliveries) && d.id !in db.deliveries && digest !in db.keys
    requires DeliveryFits(map[digest := k], d.id, d)
    ensures AllDeliveriesFit(db.keys[digest := k], db.deliveries[d.id := d])
  {
  }

  lemma OriginsAfterCreate(db: Db, contact: Contact, d: Delivery, r: ServiceRequest)
    requires AllOriginsFit(db.contacts, db.deliveries, db.requests)
    requires d.id !in db.deliveries && r.id !in db.requests && contact.id !in db.contacts
    requires OriginFits(map[contact.id := contact], map[d.id := d], r)
    ensures AllOriginsFit(db.contacts[contact.id := contact], db.deliveries[d.id := d], db.requests[r.id := r])
  {
  }

  lemma NewRowsFit(s: Intake.Submission, ids: Intake.IntakeIds)
    requires s.Valid?
    ensures
      var k, contact := Intake.NewKey(s, ids), Intake.NewContact(s.payload, ids);
      var d, r := Intake.AcceptedDelivery(s, ids), Intake.NewRequest(s.payload, ids);
      && KeyFits(map[r.id := r], map[d.id := d], s.keyDigest, k)
      && DeliveryFits(map[s.keyDigest := k], d.id, d)
      && OriginFits(map[contact.id := contact], map[d.id := d], r)
  {
  }

  lemma IntakeAfterCreate(db: Db, s: Intake.Submission, ids: Intake.IntakeIds)
    requires s.Valid? && IntakeConserved(db) && Intake.Insertable(db, ids) && s.keyDigest !in db.keys
    ensures IntakeConserved(Apply(db, Intake.CreateEffects(s, ids)))
  {
    var d, r := Intake.AcceptedDelivery(s, ids), Intake.NewRequest(s.payload, ids);
    NewRowsFit(s, ids);
    LinkedAfterCreate(db, s.keyDigest, Intake.NewKey(s, ids), Intake.NewContact(s.payload, ids), d, r);
    NewDeliveriesAfter(db.deliveries, d);
    IntakeEventsAppend2(db.audit, Intake.DeliveryEvent(d, ids.deliveryAuditId),
                        Intake.RequestEvent(r, d, ids.requestAuditId));
  }

  /** Commands leave intake alone: they only raise a request's version and add their own events. */
  lemma IntakeAfterCommand(db: Db, after: Db)
    requires IntakeConserved(db)
    requires after.keys == db.keys && after.deliveries == db.deliveries && after.contacts == db.contacts
    requires after.requests.Keys == db.requests.Keys
    requires forall r :: r in db.requests ==> after.requests[r] == db.requests[r].(version := after.requests[r].version)
    requires IntakeEvents(after.audit) == IntakeEvents(db.audit)
    ensures IntakeConserved(after)
  {
    LinkedAfterCommand(db, after.requests);
    assert |after.requests| == |after.requests.Keys| == |db.requests.Keys| == |db.requests|;
  }

  lemma LinkedAfterCommand(db: Db, requests: map<Uuid, ServiceRequest>)
    requires IntakeLinked(db.keys, db.contacts, db.deliveries, db.requests)
    requires requests.Keys == db.requests.Keys
    requires forall r :: r in db.requests ==> requests[r] == db.requests[r].(version := requests[r].version)
    ensures IntakeLinked(db.keys, db.contacts, db.deliveries, requests)
  {
  }
}
