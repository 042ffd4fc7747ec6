/** What holding a resource guarantees: the rows it stands for cannot change under its holder. */
module EngineFrames {
  import opened Model
  import opened CommandIdempotency
  import StartAi = StartAiInterpretationCommand
  import opened Engine

  /** The committed facts a resource stands for: the row itself, and the rows no other transaction
      can add while it is held, because their foreign keys would need a lock on it. */
  datatype View =
    | RecordView(record: Seen<Record>)
    | RequestView(request: Seen<ServiceRequest>, operations: map<Uuid, Operation>)
    | OperationView(operation: Seen<Operation>, siblings: map<Uuid, Attempt>)
    | AttemptView(attempt: Seen<Attempt>, credentials: map<Uuid, Credential>)
    | CredentialView(credential: Seen<Credential>)
    | KeyView(key: Seen<AcceptedKey>)
    | RowExists(present: bool)

  ghost predicate HashTaken(credentials: map<Uuid, Credential>, digest: Digest) {
    exists c :: c in credentials && credentials[c].hash == digest
  }

  ghost predicate KeyIdTaken(keys: map<Digest, AcceptedKey>, id: Uuid) {
    exists k :: k in keys && keys[k].id == id
  }

  ghost function ViewOf(db: Db, r: Resource): View {
    match r
    case RecordKey(k) => RecordView(Lookup(db.records, k))
    case RecordId(id) => RowExists(RecordIdTaken(db.records, id))
    case CommandId(id) => RowExists(CommandIdTaken(db.records, id))
    case RequestRow(id) => RequestView(Lookup(db.requests, id), StartAi.OperationsFor(db.operations, id))
    case OperationRow(id) => OperationView(Lookup(db.operations, id), Siblings(db.attempts, id))
    case AttemptRow(id) => AttemptView(Lookup(db.attempts, id), CredentialsOf(db.credentials, id))
    case CredentialRow(id) => CredentialView(Lookup(db.credentials, id))
    case CredentialHash(digest) => RowExists(HashTaken(db.credentials, digest))
    case IntakeKey(digest) => KeyView(Lookup(db.keys, digest))
    case IntakeKeyId(id) => RowExists(KeyIdTaken(db.keys, id))
    case DeliveryRow(id) => RowExists(id in db.deliveries)
    case ContactRow(id) => RowExists(id in db.contacts)
  }

  /** Every held resource still shows the same facts. */
  ghost predicate Stable(db: Db, after: Db, held: set<Resource>) {
    forall r :: r in held ==> ViewOf(after, r) == ViewOf(db, r)
  }

  /** The resources a commit of `e` writes. */
  function Footprint(e: Effects): set<Resource> {
    match e
    case NoEffects => {}
    case GuardCompleted(scope, r) => ReservationLocks(scope, r.id, r.commandId)
    case InterpretationStarted(scope, r, request, o, a, k, _, _, _) =>
      ReservationLocks(scope, r.id, r.commandId) + {RequestRow(request.id)} + InsertLocks(o, a, k)
    case AttemptClaimed(scope, r, a, _, _) =>
      ReservationLocks(scope, r.id, r.commandId) + {AttemptRow(a.id), OperationRow(a.operationId)}
    case DeliveryRecorded(d, _, _) => {DeliveryRow(d.id)}
    case RequestAccepted(digest, k, contact, d, r, _, _, _, _) =>
      {IntakeKey(digest), IntakeKeyId(k.id), ContactRow(contact.id), DeliveryRow(d.id), RequestRow(r.id)}
  }

  /** Inserts are of new rows, and the rows of one success graph refer to one another. */
  ghost predicate Fits(db: Db, e: Effects) {
    match e
    case NoEffects => true
    case GuardCompleted(scope, r) => scope !in db.records
    case InterpretationStarted(scope, r, request, o, a, k, _, _, _) =>
      && scope !in db.records && o.id !in db.operations && a.id !in db.attempts && k.id !in db.credentials
      && o.requestId == request.id && a.operationId == o.id && k.attemptId == a.id
      && request.id in db.requests
    case AttemptClaimed(scope, r, a, _, _) =>
      scope !in db.records && a.id in db.attempts && db.attempts[a.id].operationId == a.operationId
    case DeliveryRecorded(d, _, _) => d.id !in db.deliveries
    case RequestAccepted(digest, k, contact, d, r, _, _, _, _) =>
      digest !in db.keys && contact.id !in db.contacts && d.id !in db.deliveries && r.id !in db.requests
  }

  lemma RecordFrame(records: map<ScopeKey, Record>, scope: ScopeKey, added: Record, id: Uuid)
    requires scope !in records
    ensures id != added.id ==> RecordIdTaken(records[scope := added], id) == RecordIdTaken(records, id)
    ensures id != added.commandId ==> CommandIdTaken(records[scope := added], id) == CommandIdTaken(records, id)
  {
    var after := records[scope := added];
    forall k | k in records ensures k in after && after[k] == records[k] {}
  }

  lemma HashFrame(credentials: map<Uuid, Credential>, k: Credential, digest: Digest)
    requires k.id !in credentials && k.hash != digest
    ensures HashTaken(credentials[k.id := k], digest) == HashTaken(credentials, digest)
  {
    var after := credentials[k.id := k];
    forall c | c in credentials ensures c in after && after[c] == credentials[c] {}
  }

  lemma KeyFrame(keys: map<Digest, AcceptedKey>, digest: Digest, k: AcceptedKey, id: Uuid)
    requires digest !in keys && k.id != id
    ensures KeyIdTaken(keys[digest := k], id) == KeyIdTaken(keys, id)
  {
    var after := keys[digest := k];
    forall d | d in keys ensures d in after && after[d] == keys[d] {}
  }

  /** A commit changes no fact behind a resource outside its footprint. */
  lemma ViewFrame(db: Db, e: Effects, r: Resource)
    requires Fits(db, e) && r !in Footprint(e)
    ensures ViewOf(Apply(db, e), r) == ViewOf(db, r)
  {
    match e {
      case NoEffects =>
      case GuardCompleted(scope, record) => RecordViewFrame(db, scope, record, r);
      case InterpretationStarted(scope, record, request, o, a, k, _, _, _) =>
        RecordViewFrame(db, scope, record, r);
        if !r.RecordKey? && !r.RecordId? && !r.CommandId? { StartViewFrame(db, Apply(db, e), request, o, a, k, r); }
      case AttemptClaimed(scope, record, a, _, _) =>
        RecordViewFrame(db, scope, record, r);
        if r.OperationRow? {
          assert Siblings(db.attempts[a.id := a], r.id) == Siblings(db.attempts, r.id);
        }
      case DeliveryRecorded(_, _, _) =>
      case RequestAccepted(digest, k, _, _, _, _, _, _, _) =>
        if r.IntakeKeyId? { KeyFrame(db.keys, digest, k, r.id); }
    }
  }

  lemma RecordViewFrame(db: Db, scope: ScopeKey, record: Record, r: Resource)
    requires scope !in db.records && r !in ReservationLocks(scope, record.id, record.commandId)
    ensures ViewOf(db.(records := db.records[scope := record]), r) == ViewOf(db, r)
  {
    if r.RecordId? || r.CommandId? { RecordFrame(db.records, scope, record, r.id); }
  }

  lemma StartViewFrame(db: Db, after: Db, request: ServiceRequest, o: Operation, a: Attempt, k: Credential, r: Resource)
    requires o.id !in db.operations && a.id !in db.attempts && k.id !in db.credentials
    requires o.requestId == request.id && a.operationId == o.id && k.attemptId == a.id
    requires after.requests == db.requests[request.id := request] && after.operations == db.operations[o.id := o]
    requires after.attempts == db.attempts[a.id := a] && after.credentials == db.credentials[k.id := k]
    requires after.keys == db.keys && after.deliveries == db.deliveries && after.contacts == db.contacts
    requires r != RequestRow(request.id) && r !in InsertLocks(o, a, k)
    requires !r.RecordKey? && !r.RecordId? && !r.CommandId?
    ensures ViewOf(after, r) == ViewOf(db, r)
  {
    hide RecordIdTaken, CommandIdTaken, KeyIdTaken, HashTaken, StartAi.OperationsFor, Siblings, CredentialsOf;
    match r {
      case RequestRow(id) => OperationsFrame(db.operations, o, id);
      case OperationRow(id) => SiblingsFrame(db.attempts, a, id);
      case AttemptRow(id) => CredentialsFrame(db.credentials, k, id);
      case CredentialHash(digest) => HashFrame(db.credentials, k, digest);
      case _ =>
    }
  }

  lemma OperationsFrame(operations: map<Uuid, Operation>, o: Operation, id: Uuid)
    requires o.id !in operations && o.requestId != id
    ensures StartAi.OperationsFor(operations[o.id := o], id) == StartAi.OperationsFor(operations, id)
  {
  }

  lemma SiblingsFrame(attempts: map<Uuid, Attempt>, a: Attempt, id: Uuid)
    requires a.id !in attempts && a.operationId != id
    ensures Siblings(attempts[a.id := a], id) == Siblings(attempts, id)
  {
  }

  lemma CredentialsFrame(credentials: map<Uuid, Credential>, k: Credential, id: Uuid)
    requires k.id !in credentials && k.attemptId != id
    ensures CredentialsOf(credentials[k.id := k], id) == CredentialsOf(credentials, id)
  {
  }

  /** A commit leaves every other transaction's locked rows as that transaction read them. */
  lemma CommitIsStable(db: Db, e: Effects, held: set<Resource>)
    requires Fits(db, e) && Footprint(e) !! held
    ensures Stable(db, Apply(db, e), held)
  {
    forall r | r in held ensures ViewOf(Apply(db, e), r) == ViewOf(db, r) {
      ViewFrame(db, e, r);
    }
  }
}
