/** Public intake: accepted, replayed, conflicting and rejected deliveries. */
module Intake {
  import opened Model
  import opened Sessions
  import opened Evidence

  datatype Payload = Payload(displayName: string, email: Option<string>, phone: Option<string>,
                             preferredChannel: Option<string>, description: string,
                             location: Option<string>, timing: Option<string>)

  /** A submission that passed validation, or one that did not. */
  datatype Submission =
    | Valid(payload: Payload, keyDigest: Digest, payloadHash: Digest, correlationId: Uuid)
    | Unusable(keyDigest: Digest, correlationId: Uuid)

  datatype IntakeIds = IntakeIds(deliveryId: Uuid, requestId: Uuid, contactId: Uuid, keyId: Uuid,
                                 deliveryAuditId: Uuid, requestAuditId: Uuid)

  datatype IntakeReply =
    | Created(deliveryId: Uuid, requestId: Uuid)                                      // 201
    | Replayed(deliveryId: Uuid, requestId: Uuid, originalDeliveryId: Uuid, requestVersion: int)  // 200
    | Conflicting(deliveryId: Uuid)                                                   // 409
    | Refused(deliveryId: Uuid)                                                       // 400 or 422
    | IntakeFailed                                                                    // the IntegrityError propagates

  function DeliveryEvent(d: Delivery, auditId: Uuid): AuditEvent {
    AuditEvent(auditId, if d.processing == Accepted then DeliveryAccepted else DeliveryRejected,
               DeliveryAggregate(d.id), 1, Customer, d.id, DeliveryOutcome(d.outcome), d.correlationId, None)
  }

  function RequestEvent(r: ServiceRequest, d: Delivery, auditId: Uuid): AuditEvent {
    AuditEvent(auditId, RequestCreated, RequestAggregate(r.id), 1, Customer, d.id, RequestCreatedOutcome,
               d.correlationId, None)
  }

  function ReplayDelivery(digest: Digest, k: AcceptedKey, correlationId: Uuid, id: Uuid): Delivery {
    Delivery(id, digest, Accepted, correlationId, Some(k.payloadHash), IdempotentReplay, Some(k.snapshotDeliveryId),
             None, Some(k.snapshotRequestId), Some(k.id), 1)
  }

  function ConflictDelivery(digest: Digest, k: AcceptedKey, correlationId: Uuid, id: Uuid): Delivery {
    Delivery(id, digest, Rejected, correlationId, None, IdempotencyConflict, Some(k.originalDeliveryId), None, None,
             Some(k.id), 1)
  }

  function RejectedDelivery(digest: Digest, correlationId: Uuid, id: Uuid): Delivery {
    Delivery(id, digest, Rejected, correlationId, None, Invalid, None, None, None, None, 1)
  }

  function NewKey(s: Submission, ids: IntakeIds): AcceptedKey
    requires s.Valid?
  {
    AcceptedKey(ids.keyId, s.payloadHash, ids.deliveryId, ids.requestId, 201, ids.deliveryId, ids.requestId, 1)
  }

  function NewContact(p: Payload, ids: IntakeIds): Contact {
    Contact(ids.contactId, p.displayName, p.email, p.phone, p.preferredChannel)
  }

  function AcceptedDelivery(s: Submission, ids: IntakeIds): Delivery
    requires s.Valid?
  {
    Delivery(ids.deliveryId, s.keyDigest, Accepted, s.correlationId, Some(s.payloadHash), NewDelivery, None,
             Some(ids.requestId), Some(ids.requestId), Some(ids.keyId), 1)
  }

  function NewRequest(p: Payload, ids: IntakeIds): ServiceRequest {
    ServiceRequest(ids.requestId, ids.deliveryId, ids.contactId, p.description, p.location, p.timing, TriagePending, 1)
  }

  function CreateEffects(s: Submission, ids: IntakeIds): Effects
    requires s.Valid?
  {
    var d, r := AcceptedDelivery(s, ids), NewRequest(s.payload, ids);
    var e, f := DeliveryEvent(d, ids.deliveryAuditId), RequestEvent(r, d, ids.requestAuditId);
    RequestAccepted(s.keyDigest, NewKey(s, ids), NewContact(s.payload, ids), d, r, e, f, MessageOf(e), MessageOf(f))
  }

  function RecordEffects(d: Delivery, auditId: Uuid): Effects {
    var e := DeliveryEvent(d, auditId);
    DeliveryRecorded(d, e, MessageOf(e))
  }

  /** The delivery recorded against a key that was already accepted, and the reply. */
  function AgainstKey(s: Submission, k: AcceptedKey, ids: IntakeIds): (IntakeReply, Delivery) {
    if s.Valid? && k.payloadHash == s.payloadHash then
      (Replayed(ids.deliveryId, k.snapshotRequestId, k.snapshotDeliveryId, k.snapshotRequestVersion),
       ReplayDelivery(s.keyDigest, k, s.correlationId, ids.deliveryId))
    else
      (Conflicting(ids.deliveryId), ConflictDelivery(s.keyDigest, k, s.correlationId, ids.deliveryId))
  }

  /** No primary key of the inserts of an accepted submission is taken. */
  predicate Insertable(db: Db, ids: IntakeIds) {
    && ids.deliveryId !in db.deliveries && ids.requestId !in db.requests && ids.contactId !in db.contacts
    && (forall d :: d in db.keys ==> db.keys[d].id != ids.keyId)
  }

  /** One submission against `db`: reply and private writes. */
  function Submit(db: Db, s: Submission, ids: IntakeIds): (IntakeReply, Effects) {
    if s.keyDigest in db.keys then
      var (reply, d) := AgainstKey(s, db.keys[s.keyDigest], ids);
      if ids.deliveryId in db.deliveries then (IntakeFailed, NoEffects)
      else (reply, RecordEffects(d, ids.deliveryAuditId))
    else if s.Unusable? then
      if ids.deliveryId in db.deliveries then (IntakeFailed, NoEffects)
      else (Refused(ids.deliveryId),
            RecordEffects(RejectedDelivery(s.keyDigest, s.correlationId, ids.deliveryId), ids.deliveryAuditId))
    else if !Insertable(db, ids) then (IntakeFailed, NoEffects)
    else (Created(ids.deliveryId, ids.requestId), CreateEffects(s, ids))
  }

  // ------------------------------------------------------------------ the service

  method AddEvent(s: Session, e: AuditEvent)
    modifies s`audit, s`outbox
    ensures s.audit == old(s.audit) + [e] && s.outbox == old(s.outbox) + [MessageOf(e)]
  {
    s.audit := s.audit + [e];
    s.outbox := s.outbox + [OutboxMessage(e.name, e.aggregate, e.version, e.id, e.correlationId, e.commandId)];
  }

  method RecordDelivery(s: Session, d: Delivery, auditId: Uuid)
    modifies s`deliveries, s`audit, s`outbox
    ensures s.State() == Apply(old(s.State()), RecordEffects(d, auditId))
  {
    s.deliveries := s.deliveries[d.id := d];
    AddEvent(s, DeliveryEvent(d, auditId));
  }

  method CreateNew(s: Session, sub: Submission, ids: IntakeIds)
    requires sub.Valid?
    modifies s`keys, s`contacts, s`deliveries, s`requests, s`audit, s`outbox
    ensures s.State() == Apply(old(s.State()), CreateEffects(sub, ids))
  {
    s.keys := s.keys[sub.keyDigest := NewKey(sub, ids)];
    s.contacts := s.contacts[ids.contactId := NewContact(sub.payload, ids)];
    var delivery :=
      AcceptedDelivery(sub, ids).(createdRequestId := None, logicalRequestId := None, acceptedKeyId := None);
    s.deliveries := s.deliveries[delivery.id := delivery];
    var request := NewRequest(sub.payload, ids);
    s.requests := s.requests[request.id := request];
    delivery := delivery.(createdRequestId := Some(ids.requestId));
    delivery := delivery.(logicalRequestId := Some(ids.requestId));
    delivery := delivery.(acceptedKeyId := Some(ids.keyId));
    s.deliveries := s.deliveries[delivery.id := delivery];
    AddEvent(s, DeliveryEvent(delivery, ids.deliveryAuditId));
    AddEvent(s, RequestEvent(request, delivery, ids.requestAuditId));
    assert s.deliveries == old(s.deliveries)[ids.deliveryId := AcceptedDelivery(sub, ids)];
    ghost var e := CreateEffects(sub, ids);
    assert s.audit == old(s.audit) + [e.deliveryEvent, e.requestEvent];
    assert s.outbox == old(s.outbox) + [e.message, e.requestMessage];
  }

  /** `arrived` holds the keys other transactions accept after the first lookup found none: the
      insert of the reservation then fails and the submission is resolved against the winner. */
  method Process(s: Session, sub: Submission, ids: IntakeIds, arrived: map<Digest, AcceptedKey>)
    returns (reply: IntakeReply)
    requires s.keys.Keys !! arrived.Keys
    modifies s`keys, s`contacts, s`deliveries, s`requests, s`audit, s`outbox
    ensures
      var seen := if sub.Unusable? || sub.keyDigest in old(s.keys) then old(s.State())
                  else old(s.State()).(keys := old(s.keys) + arrived);
      && reply == Submit(seen, sub, ids).0
      && s.State() == Apply(seen, Submit(seen, sub, ids).1)
  {
    if sub.keyDigest in s.keys {
      reply := ResolveAgainst(s, sub, s.keys[sub.keyDigest], ids);
      return;
    }
    if sub.Unusable? {
      if ids.deliveryId in s.deliveries { return IntakeFailed; }
      RecordDelivery(s, RejectedDelivery(sub.keyDigest, sub.correlationId, ids.deliveryId), ids.deliveryAuditId);
      return Refused(ids.deliveryId);
    }
    s.keys := s.keys + arrived;
    var free :=
      && ids.deliveryId !in s.deliveries && ids.requestId !in s.requests && ids.contactId !in s.contacts
      && (forall d :: d in s.keys ==> s.keys[d].id != ids.keyId);
    if sub.keyDigest !in s.keys && free {
      CreateNew(s, sub, ids);
      return Created(ids.deliveryId, ids.requestId);
    }
    if sub.keyDigest !in s.keys { return IntakeFailed; }
    reply := ResolveAgainst(s, sub, s.keys[sub.keyDigest], ids);
  }

  method ResolveAgainst(s: Session, sub: Submission, k: AcceptedKey, ids: IntakeIds) returns (reply: IntakeReply)
    modifies s`deliveries, s`audit, s`outbox
    ensures var (answer, d) := AgainstKey(sub, k, ids);
            if ids.deliveryId in old(s.deliveries) then reply == IntakeFailed && s.State() == old(s.State())
            else reply == answer && s.State() == Apply(old(s.State()), RecordEffects(d, ids.deliveryAuditId))
  {
    if ids.deliveryId in s.deliveries { return IntakeFailed; }
    if sub.Valid? && k.payloadHash == sub.payloadHash {
      RecordDelivery(s, ReplayDelivery(sub.keyDigest, k, sub.correlationId, ids.deliveryId), ids.deliveryAuditId);
      return Replayed(ids.deliveryId, k.snapshotRequestId, k.snapshotDeliveryId, k.snapshotRequestVersion);
    }
    RecordDelivery(s, ConflictDelivery(sub.keyDigest, k, sub.correlationId, ids.deliveryId), ids.deliveryAuditId);
    reply := Conflicting(ids.deliveryId);
  }
}
