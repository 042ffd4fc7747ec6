/** The relational rows, the database they live in, and the private writes of a transaction.

    Every table is a map from primary key to row, except that command records are keyed by
    their unique scope key and accepted intake keys by their unique digest.  The audit log and
    the outbox are sequences in commit order. */
module Model {
  datatype Option<+T> = None | Some(value: T)

  /** What a statement of a transaction has learned about one row (or one set of rows). */
  datatype Seen<+T> = Unread | Absent | Read(row: T)

  type Uuid = nat
  type Time = int
  type Digest = string

  // ------------------------------------------------------------------ command records

  datatype ActorClass = HumanActor | MachineService | BackendService
  datatype CommandIntent = StartAiInterpretation | StartIntegrationAttempt | OtherIntent(name: string)

  /** The unique constraint uq_command_idempotency_scope_key. */
  datatype ScopeKey = ScopeKey(
    actorClass: ActorClass, actorId: Uuid, intent: CommandIntent, routeTemplate: string,
    targetType: string, targetId: Uuid, keyDigest: Digest)

  datatype RecordStatus = Processing | Completed

  datatype ErrorCode =
    | ResourceNotFound | AttemptNotFound | ConcurrencyConflict | InvalidStateTransition
    | ActiveAttemptExists | LogicalOperationAlreadySucceeded | RetryNotAllowed
    | CommandIdempotencyConflict | DependencyUnavailable | InternalError

  /** The safe response snapshots the two commands store. */
  datatype Snapshot =
    | ErrorSnapshot(code: ErrorCode, currentVersion: Option<int>)
    | StartAiSnapshot(requestId: Uuid, operationId: Uuid, attemptId: Uuid, credentialId: Uuid,
                      credentialVersion: int, credentialExpiresAt: Time, requestVersion: int)
    | AttemptStartSnapshot(requestId: Uuid, operationId: Uuid, attemptId: Uuid, attemptNumber: int,
                           startedAt: Time, adapterName: string, adapterVersion: string,
                           attemptVersion: int)

  datatype SecretDelivery = SecretDelivery(credentialId: Uuid, credentialVersion: int, expiresAt: Time)
  datatype CallbackAuthorization = CallbackAuthorization(credentialId: Uuid, credentialVersion: int)

  datatype Record = Record(
    id: Uuid, commandId: Uuid, correlationId: Uuid, bodyHash: Digest, status: RecordStatus,
    httpStatus: Option<int>, snapshot: Option<Snapshot>, completedAt: Option<Time>,
    delivery: Option<SecretDelivery>, authorization: Option<CallbackAuthorization>, createdAt: Time)

  // ------------------------------------------------------------------ domain rows

  datatype RequestStatus =
    | TriagePending | HumanReview | DuplicateReview | ReadyForAction | AwaitingApproval
    | ActionRevisionRequired | ActionPendingExecution | RequestRetryableFailure | RequestCompleted
    | RequestTerminalFailure | ClosedDuplicate

  datatype ServiceRequest = ServiceRequest(
    id: Uuid, originatingDeliveryId: Uuid, contactId: Uuid, description: string,
    location: Option<string>, timing: Option<string>, status: RequestStatus, version: int)

  datatype OperationKind = AIInterpretation | OtherKind(name: string)

  datatype Operation = Operation(
    id: Uuid, requestId: Uuid, kind: OperationKind, inputHash: Digest, configurationHash: Digest,
    promptVersion: string, resultSchemaVersion: string, providerName: string, modelName: string,
    adapterName: string, adapterVersion: string, version: int, succeededAttemptId: Option<Uuid>)

  datatype AttemptState = Pending | Running | Succeeded | RetryableFailure | TerminalFailure

  datatype Attempt = Attempt(
    id: Uuid, operationId: Uuid, requestId: Uuid, kind: OperationKind, number: int,
    state: AttemptState, version: int, adapterName: string, adapterVersion: string,
    service: string, environment: string, deadline: Time, createdAt: Time,
    startedAt: Option<Time>, completedAt: Option<Time>, resultHash: Option<Digest>,
    errorCode: Option<string>)

  datatype CredentialState = Active | Consumed | Replaced | Revoked

  datatype Credential = Credential(
    id: Uuid, attemptId: Uuid, kind: OperationKind, service: string, environment: string,
    version: int, hash: Digest, state: CredentialState, issuedAt: Time, expiresAt: Time,
    consumedAt: Option<Time>, replacedAt: Option<Time>, revokedAt: Option<Time>,
    replacementId: Option<Uuid>)

  // ------------------------------------------------------------------ intake rows

  datatype AcceptedKey = AcceptedKey(
    id: Uuid, payloadHash: Digest, originalDeliveryId: Uuid, requestId: Uuid, httpStatus: int,
    snapshotDeliveryId: Uuid, snapshotRequestId: Uuid, snapshotRequestVersion: int)

  datatype Contact = Contact(id: Uuid, displayLabel: string, email: Option<string>,
                             phone: Option<string>, preferredChannel: Option<string>)

  datatype ProcessingStatus = Accepted | Rejected
  datatype IntakeOutcome = NewDelivery | IdempotentReplay | Invalid | IdempotencyConflict

  datatype Delivery = Delivery(
    id: Uuid, keyDigest: Digest, processing: ProcessingStatus, correlationId: Uuid,
    payloadHash: Option<Digest>, outcome: IntakeOutcome, originalDeliveryId: Option<Uuid>,
    createdRequestId: Option<Uuid>, logicalRequestId: Option<Uuid>, acceptedKeyId: Option<Uuid>,
    version: int)

  // ------------------------------------------------------------------ evidence

  datatype Aggregate =
    | RequestAggregate(id: Uuid)
    | AttemptAggregate(id: Uuid)
    | DeliveryAggregate(id: Uuid)

  datatype EventName =
    | DeliveryAccepted | DeliveryRejected | RequestCreated
    | AiInterpretationStarted | AttemptCreated | AttemptStarted

  datatype ActorType = Customer | WorkflowService

  /** The `outcome` column of an audit event. */
  datatype EventOutcome =
    | RequestCreatedOutcome | StartedOutcome | AttemptOutcome(state: AttemptState)
    | DeliveryOutcome(outcome: IntakeOutcome)

  datatype AuditEvent = AuditEvent(
    id: Uuid, name: EventName, aggregate: Aggregate, version: int, actor: ActorType, actorId: Uuid,
    outcome: EventOutcome, correlationId: Uuid, commandId: Option<Uuid>)

  datatype OutboxMessage = OutboxMessage(
    name: EventName, aggregate: Aggregate, version: int, auditEventId: Uuid, correlationId: Uuid,
    causationId: Option<Uuid>)

  // ------------------------------------------------------------------ the database

  datatype Db = Db(
    records: map<ScopeKey, Record>,
    requests: map<Uuid, ServiceRequest>,
    operations: map<Uuid, Operation>,
    attempts: map<Uuid, Attempt>,
    credentials: map<Uuid, Credential>,
    keys: map<Digest, AcceptedKey>,
    contacts: map<Uuid, Contact>,
    deliveries: map<Uuid, Delivery>,
    audit: seq<AuditEvent>,
    outbox: seq<OutboxMessage>)

  const EMPTY_DB := Db(map[], map[], map[], map[], map[], map[], map[], map[], [], [])

  /** The private rows one transaction has inserted or updated; a commit makes them visible at once. */
  datatype Effects =
    | NoEffects
    | GuardCompleted(scope: ScopeKey, record: Record)
    | InterpretationStarted(scope: ScopeKey, record: Record, request: ServiceRequest, operation: Operation,
                            attempt: Attempt, credential: Credential, requestEvent: AuditEvent,
                            attemptEvent: AuditEvent, message: OutboxMessage)
    | AttemptClaimed(scope: ScopeKey, record: Record, attempt: Attempt, attemptEvent: AuditEvent,
                     message: OutboxMessage)
    | DeliveryRecorded(delivery: Delivery, deliveryEvent: AuditEvent, message: OutboxMessage)
    | RequestAccepted(digest: Digest, key: AcceptedKey, contact: Contact, delivery: Delivery,
                      request: ServiceRequest, deliveryEvent: AuditEvent, requestEvent: AuditEvent,
                      message: OutboxMessage, requestMessage: OutboxMessage)

  function Apply(db: Db, e: Effects): Db {
    match e
    case NoEffects => db
    case GuardCompleted(scope, record) => db.(records := db.records[scope := record])
    case InterpretationStarted(scope, record, request, operation, attempt, credential, event1, event2, message) =>
      db.(records := db.records[scope := record],
          requests := db.requests[request.id := request],
          operations := db.operations[operation.id := operation],
          attempts := db.attempts[attempt.id := attempt],
          credentials := db.credentials[credential.id := credential],
          audit := db.audit + [event1, event2],
          outbox := db.outbox + [message])
    case AttemptClaimed(scope, record, attempt, event, message) =>
      db.(records := db.records[scope := record],
          attempts := db.attempts[attempt.id := attempt],
          audit := db.audit + [event],
          outbox := db.outbox + [message])
    case DeliveryRecorded(delivery, event, message) =>
      db.(deliveries := db.deliveries[delivery.id := delivery],
          audit := db.audit + [event],
          outbox := db.outbox + [message])
    case RequestAccepted(digest, key, contact, delivery, request, event1, event2, message1, message2) =>
      db.(keys := db.keys[digest := key],
          contacts := db.contacts[contact.id := contact],
          deliveries := db.deliveries[delivery.id := delivery],
          requests := db.requests[request.id := request],
          audit := db.audit + [event1, event2],
          outbox := db.outbox + [message1, message2])
  }

  /** SELECT ... WHERE logical_operation_id = operationId */
  function Siblings(attempts: map<Uuid, Attempt>, operationId: Uuid): map<Uuid, Attempt> {
    map a | a in attempts && attempts[a].operationId == operationId :: attempts[a]
  }

  /** SELECT ... WHERE integration_attempt_id = attemptId */
  function CredentialsOf(credentials: map<Uuid, Credential>, attemptId: Uuid): map<Uuid, Credential> {
    map c | c in credentials && credentials[c].attemptId == attemptId :: credentials[c]
  }

  /** SELECT ... WHERE id = key */
  function Lookup<K, V>(table: map<K, V>, key: K): Seen<V> {
    if key in table then Read(table[key]) else Absent
  }

  // ------------------------------------------------------------------ settings and hashing

  datatype Settings = Settings(
    promptVersion: string, resultSchemaVersion: string, providerName: string, modelName: string,
    adapterName: string, adapterVersion: string, callbackSeconds: int)

  datatype InputMaterial = InputMaterial(location: Option<string>, description: string, timing: Option<string>)
  datatype ConfigurationMaterial = ConfigurationMaterial(
    adapterName: string, adapterVersion: string, modelName: string, promptVersion: string,
    providerName: string, resultSchemaVersion: string)

  /** SHA-256 over the canonical JSON of each material, left uninterpreted. */
  datatype Hashing = Hashing(
    input: InputMaterial -> Digest,
    configuration: ConfigurationMaterial -> Digest,
    credential: string -> Digest)
  {
    function InputHash(r: ServiceRequest): Digest {
      input(InputMaterial(r.location, r.description, r.timing))
    }
    function ConfigurationHash(s: Settings): Digest {
      configuration(ConfigurationMaterial(s.adapterName, s.adapterVersion, s.modelName,
                                          s.promptVersion, s.providerName, s.resultSchemaVersion))
    }
  }

  datatype Machine = Machine(identityId: Uuid, serviceId: string, environment: string)

  // ------------------------------------------------------------------ CHECK constraints

  predicate NotBlank(s: string) { exists i :: 0 <= i < |s| && s[i] != ' ' }

  predicate AllNotBlank(fields: seq<string>) { forall i :: 0 <= i < |fields| ==> NotBlank(fields[i]) }

  predicate OperationChecks(o: Operation) {
    && o.kind == AIInterpretation && o.version > 0
    && AllNotBlank([o.promptVersion, o.resultSchemaVersion, o.providerName, o.modelName, o.adapterName,
                    o.adapterVersion])
  }

  /** state_fields_consistent: whether completed_at, result_hash and the error code are present. */
  predicate AttemptStateFields(a: Attempt) {
    && (a.completedAt.Some?, a.resultHash.Some?, a.errorCode.Some?) ==
         (match a.state
          case Pending => (false, false, false)
          case Running => (false, false, false)
          case Succeeded => (true, true, false)
          case RetryableFailure => (true, false, true)
          case TerminalFailure => (true, false, true))
    && (a.state == Pending ==> a.startedAt == None)
    && (a.state == Running || a.state == Succeeded ==> a.startedAt.Some?)
  }

  predicate AttemptChecks(a: Attempt) {
    && a.kind == AIInterpretation && 1 <= a.number <= 3 && a.version > 0
    && a.deadline > a.createdAt
    && AttemptStateFields(a)
    && AllNotBlank([a.adapterName, a.adapterVersion, a.service, a.environment])
  }

  /** An operation has at most three attempts: their numbers are 1, 2 and 3. */
  lemma AttemptNumbers(a: Attempt, number: int)
    requires AttemptChecks(a)
    ensures AttemptChecks(a.(number := number)) <==> number in {1, 2, 3}
  {
    hide NotBlank;
  }

  /** state_fields_consistent: whether consumed_at, replaced_at, revoked_at and the replacement are present. */
  predicate CredentialStateFields(c: Credential) {
    (c.consumedAt.Some?, c.replacedAt.Some?, c.revokedAt.Some?, c.replacementId.Some?) ==
      match c.state
      case Active => (false, false, false, false)
      case Consumed => (true, false, false, false)
      case Replaced => (false, true, false, true)
      case Revoked => (false, false, true, false)
  }

  predicate CredentialChecks(c: Credential) {
    && c.kind == AIInterpretation && c.version > 0 && c.expiresAt > c.issuedAt
    && AllNotBlank([c.service, c.environment])
    && c.replacementId != Some(c.id)
    && CredentialStateFields(c)
  }

  ghost predicate OperationConstraints(operations: map<Uuid, Operation>) {
    && (forall o :: o in operations ==> operations[o].id == o && OperationChecks(operations[o]))
    && (forall o, p :: o in operations && p in operations && o != p ==> !SameIdentity(operations[o], operations[p]))
  }

  predicate SameIdentity(o: Operation, p: Operation) {
    o.requestId == p.requestId && o.inputHash == p.inputHash && o.configurationHash == p.configurationHash
  }

  ghost predicate AttemptConstraints(attempts: map<Uuid, Attempt>) {
    && (forall a :: a in attempts ==> attempts[a].id == a && AttemptChecks(attempts[a]))
    && (forall a, b :: a in attempts && b in attempts && a != b ==> AttemptsCompatible(attempts[a], attempts[b]))
  }

  /** The unique attempt number and the one-active and one-succeeded partial indexes. */
  predicate AttemptsCompatible(a: Attempt, b: Attempt) {
    a.operationId == b.operationId ==>
      && a.number != b.number
      && !(IsActive(a) && IsActive(b))
      && !(a.state == Succeeded && b.state == Succeeded)
  }

  ghost predicate CredentialConstraints(credentials: map<Uuid, Credential>) {
    && (forall c :: c in credentials ==> credentials[c].id == c && CredentialChecks(credentials[c]))
    && (forall c, d :: c in credentials && d in credentials && c != d ==>
        CredentialsCompatible(credentials[c], credentials[d]))
  }

  /** The unique hash, the unique version per attempt and the one-active partial index. */
  predicate CredentialsCompatible(c: Credential, d: Credential) {
    && c.hash != d.hash
    && (c.attemptId == d.attemptId ==> c.version != d.version && !(c.state == Active && d.state == Active))
  }

  /** The CHECK, unique and partial-unique constraints of operations, attempts and credentials. */
  ghost predicate ExecutionConstraints(db: Db) {
    OperationConstraints(db.operations) && AttemptConstraints(db.attempts) && CredentialConstraints(db.credentials)
  }

  predicate IsActive(a: Attempt) { a.state == Pending || a.state == Running }
}
