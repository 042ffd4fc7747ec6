/** The Start AI interpretation command. */
module StartAiInterpretationCommand {
  import opened Model
  import opened Sessions
  import opened CommandIdempotency
  import opened Commands

  // ------------------------------------------------------------------ the guard chain

  predicate HasIdentity(o: Operation, requestId: Uuid, inputHash: Digest, configurationHash: Digest) {
    o.requestId == requestId && o.inputHash == inputHash && o.configurationHash == configurationHash
  }

  /** The unique constraint uq_logical_operations_ai_identity. */
  ghost predicate UniqueIdentity(operations: map<Uuid, Operation>) {
    forall o, p :: o in operations && p in operations
                   && HasIdentity(operations[o], operations[p].requestId, operations[p].inputHash,
                                  operations[p].configurationHash)
                   ==> o == p
  }

  /** SELECT ... WHERE the identity columns match: the row, if there is one. */
  ghost function FindOperation(operations: map<Uuid, Operation>, requestId: Uuid, inputHash: Digest,
                               configurationHash: Digest): (found: Seen<Operation>)
    ensures !found.Unread?
    ensures found.Read? ==> exists o :: o in operations && operations[o] == found.row
    ensures found.Read? ==> HasIdentity(found.row, requestId, inputHash, configurationHash)
    ensures found.Absent? <==>
              forall o :: o in operations ==> !HasIdentity(operations[o], requestId, inputHash, configurationHash)
  {
    if o :| o in operations && HasIdentity(operations[o], requestId, inputHash, configurationHash)
      then Read(operations[o])
    else Absent
  }

  function OperationsFor(operations: map<Uuid, Operation>, requestId: Uuid): map<Uuid, Operation> {
    map o | o in operations && operations[o].requestId == requestId :: operations[o]
  }

  function RequestVerdict(r: ServiceRequest, expectedVersion: int): Option<Verdict> {
    if r.version != expectedVersion then Some(Refused(409, ConcurrencyConflict, Some(r.version)))
    else if r.status != TriagePending then Some(Refused(409, InvalidStateTransition, None))
    else None
  }

  /** Why an operation that already exists refuses a new Start AI. */
  function ExistingOperationVerdict(o: Operation, attempts: map<Uuid, Attempt>): Verdict {
    if attempts == map[] || !SuccessReferenceOk(o, attempts) || (SomeSucceeded(attempts) && SomeActive(attempts)) then
      Broken("inconsistent existing logical operation")
    else if SomeActive(attempts) then Refused(409, ActiveAttemptExists, None)
    else if o.succeededAttemptId.Some? || SomeSucceeded(attempts) then
      Refused(409, LogicalOperationAlreadySucceeded, None)
    else Refused(409, RetryNotAllowed, None)
  }

  predicate HasFailed(a: Attempt) { a.state == RetryableFailure || a.state == TerminalFailure }

  /** The refusals of an existing operation by the states of its attempts: one is open and none succeeded; one
      succeeded, none is open and a success reference names a succeeded one; or there are some and all failed. */
  lemma ExistingOperationExact(o: Operation, attempts: map<Uuid, Attempt>)
    ensures ExistingOperationVerdict(o, attempts) == Refused(409, ActiveAttemptExists, None) <==>
              && o.succeededAttemptId == None
              && (exists b :: b in attempts && attempts[b].state in {AttemptState.Pending, Running})
              && forall b :: b in attempts ==> attempts[b].state != Succeeded
    ensures ExistingOperationVerdict(o, attempts) == Refused(409, LogicalOperationAlreadySucceeded, None) <==>
              && (exists b :: b in attempts && attempts[b].state == Succeeded)
              && (forall b :: b in attempts ==> attempts[b].state == Succeeded || HasFailed(attempts[b]))
              && (o.succeededAttemptId.Some? ==>
                    o.succeededAttemptId.value in attempts && attempts[o.succeededAttemptId.value].state == Succeeded)
    ensures ExistingOperationVerdict(o, attempts) == Refused(409, RetryNotAllowed, None) <==>
              attempts != map[] && o.succeededAttemptId == None && forall b :: b in attempts ==> HasFailed(attempts[b])
  {
    if attempts != map[] { var b :| b in attempts; }
  }

  /** The decision of Start AI, None while it needs a row it has not read. */
  function StartVerdict(expectedVersion: int, rows: Rows): Option<Verdict> {
    match rows.request
    case Unread => None
    case Absent => Some(Refused(404, ResourceNotFound, None))
    case Read(r) =>
      var guard := RequestVerdict(r, expectedVersion);
      if guard.Some? then guard
      else match rows.operation
        case Unread => None
        case Absent => Some(Granted)
        case Read(o) =>
          if !rows.siblings.Read? then None else Some(ExistingOperationVerdict(o, rows.siblings.row))
  }

  /** Every row the command would read in `db`. */
  ghost function StartRows(h: Hashing, db: Db, requestId: Uuid, settings: Settings): Rows {
    if requestId !in db.requests then NOTHING_READ.(request := Absent)
    else
      var r := db.requests[requestId];
      var found := FindOperation(OperationsFor(db.operations, requestId), requestId, h.InputHash(r),
                                 h.ConfigurationHash(settings));
      NOTHING_READ.(
        request := Read(r), operation := found,
        siblings := if found.Read? then Read(Siblings(db.attempts, found.row.id)) else Unread)
  }

  // ------------------------------------------------------------------ the effects

  /** ^[A-Za-z0-9_-]{43,256}$ */
  predicate OpaqueCredential(s: string) {
    && 43 <= |s| <= 256
    && forall i :: 0 <= i < |s| ==>
         'A' <= s[i] <= 'Z' || 'a' <= s[i] <= 'z' || '0' <= s[i] <= '9' || s[i] == '_' || s[i] == '-'
  }

  predicate UrlSafe(c: char) {
    c == '-' || c == '_' || 'a' <= c <= 'z' || 'A' <= c <= 'Z' || '0' <= c <= '9'
  }

  /** A usable token: 43 to 256 characters of the URL-safe base64 alphabet. */
  predicate Usable(token: Option<string>) {
    token.Some? && 42 < |token.value| < 257 && forall c :: c in token.value ==> UrlSafe(c)
  }

  lemma TokenExact(token: Option<string>)
    ensures Usable(token) <==> token.Some? && OpaqueCredential(token.value)
  {
    if Usable(token) {
      forall i | 0 <= i < |token.value| ensures UrlSafe(token.value[i]) { assert token.value[i] in token.value; }
    }
  }

  /** now + timedelta(seconds = callbackSeconds), in microseconds. */
  function Deadline(s: Settings, now: Time): Time {
    now + s.callbackSeconds * 1_000_000
  }

  function NewOperation(h: Hashing, c: Command, r: ServiceRequest, ids: Ids): Operation
    requires c.StartAi?
  {
    var s := c.settings;
    Operation(ids.operationId, c.requestId, AIInterpretation, h.InputHash(r), h.ConfigurationHash(s),
              s.promptVersion, s.resultSchemaVersion, s.providerName, s.modelName, s.adapterName, s.adapterVersion,
              1, None)
  }

  function NewAttempt(c: Command, ids: Ids, now: Time): Attempt
    requires c.StartAi?
  {
    Attempt(ids.attemptId, ids.operationId, c.requestId, AIInterpretation, 1, AttemptState.Pending, 1,
            c.settings.adapterName, c.settings.adapterVersion, c.machine.serviceId, c.machine.environment,
            Deadline(c.settings, now), now, None, None, None, None)
  }

  function NewCredential(h: Hashing, c: Command, ids: Ids, now: Time, token: string): Credential
    requires c.StartAi?
  {
    Credential(ids.credentialId, ids.attemptId, AIInterpretation, c.machine.serviceId, c.machine.environment, 1,
               h.credential(token), Active, now, Deadline(c.settings, now), None, None, None, None)
  }

  /** The three inserts violate no CHECK and no unique constraint. */
  predicate Insertable(db: Db, o: Operation, a: Attempt, k: Credential) {
    && OperationChecks(o) && AttemptChecks(a) && CredentialChecks(k)
    && o.id !in db.operations && a.id !in db.attempts && k.id !in db.credentials
    && (forall p :: p in db.operations ==>
        !HasIdentity(db.operations[p], o.requestId, o.inputHash, o.configurationHash))
    && (forall d :: d in db.credentials ==> db.credentials[d].hash != k.hash)
  }

  predicate Blank(s: string) { forall c :: c in s ==> c == ' ' }

  /** A column that must not be blank is, or the deadline does not lie ahead. */
  predicate Unfit(c: Command)
    requires c.StartAi?
  {
    || c.settings.callbackSeconds <= 0
    || Blank(c.settings.promptVersion) || Blank(c.settings.resultSchemaVersion)
    || Blank(c.settings.providerName) || Blank(c.settings.modelName)
    || Blank(c.settings.adapterName) || Blank(c.settings.adapterVersion)
    || Blank(c.machine.serviceId) || Blank(c.machine.environment)
  }

  /** One of the new identifiers, the hash of the new credential or the identity of the new operation is taken. */
  predicate Collides(h: Hashing, db: Db, c: Command, r: ServiceRequest, ids: Ids, token: string)
    requires c.StartAi?
  {
    || ids.operationId in db.operations || ids.attemptId in db.attempts || ids.credentialId in db.credentials
    || (exists k :: k in db.credentials && db.credentials[k].hash == h.credential(token))
    || (exists o :: o in db.operations && db.operations[o].requestId == c.requestId
                    && db.operations[o].inputHash == h.InputHash(r)
                    && db.operations[o].configurationHash == h.ConfigurationHash(c.settings))
  }

  /** The three inserts of Start AI pass exactly when no column is unfit and nothing collides. */
  lemma InsertsExact(h: Hashing, db: Db, c: Command, r: ServiceRequest, ids: Ids, now: Time, token: string)
    requires c.StartAi?
    ensures Insertable(db, NewOperation(h, c, r, ids), NewAttempt(c, ids, now),
                       NewCredential(h, c, ids, now, token)) <==>
              !Unfit(c) && !Collides(h, db, c, r, ids, token)
  {
    ColumnsExact(h, c, r, ids, now, token);
    hide OperationChecks, AttemptChecks, CredentialChecks, Unfit;
  }

  lemma ColumnsExact(h: Hashing, c: Command, r: ServiceRequest, ids: Ids, now: Time, token: string)
    requires c.StartAi?
    ensures !Unfit(c) <==>
              && OperationChecks(NewOperation(h, c, r, ids)) && AttemptChecks(NewAttempt(c, ids, now))
              && CredentialChecks(NewCredential(h, c, ids, now, token))
  {
    hide NotBlank, Blank;
    var s := c.settings;
    BlankExact(s.promptVersion);
    BlankExact(s.resultSchemaVersion);
    BlankExact(s.providerName);
    BlankExact(s.modelName);
    BlankExact(s.adapterName);
    BlankExact(s.adapterVersion);
    BlankExact(c.machine.serviceId);
    BlankExact(c.machine.environment);
    SixColumns(s.promptVersion, s.resultSchemaVersion, s.providerName, s.modelName, s.adapterName, s.adapterVersion);
    FourColumns(s.adapterName, s.adapterVersion, c.machine.serviceId, c.machine.environment);
    TwoColumns(c.machine.serviceId, c.machine.environment);
    hide AllNotBlank;
  }

  lemma BlankExact(s: string)
    ensures NotBlank(s) <==> !Blank(s)
  {
    if NotBlank(s) {
      var i :| 0 <= i < |s| && s[i] != ' ';
      assert s[i] in s;
    } else {
      forall c | c in s ensures c == ' ' { var i :| 0 <= i < |s| && s[i] == c; }
    }
  }

  lemma SixColumns(a: string, b: string, c: string, d: string, e: string, f: string)
    ensures AllNotBlank([a, b, c, d, e, f]) <==>
              NotBlank(a) && NotBlank(b) && NotBlank(c) && NotBlank(d) && NotBlank(e) && NotBlank(f)
  {
    hide NotBlank;
    var l := [a, b, c, d, e, f];
    assert l[0] == a && l[1] == b && l[2] == c && l[3] == d && l[4] == e && l[5] == f;
  }

  lemma FourColumns(a: string, b: string, c: string, d: string)
    ensures AllNotBlank([a, b, c, d]) <==> NotBlank(a) && NotBlank(b) && NotBlank(c) && NotBlank(d)
  {
    hide NotBlank;
    var l := [a, b, c, d];
    assert l[0] == a && l[1] == b && l[2] == c && l[3] == d;
  }

  lemma TwoColumns(a: string, b: string)
    ensures AllNotBlank([a, b]) <==> NotBlank(a) && NotBlank(b)
  {
    hide NotBlank;
    var l := [a, b];
    assert l[0] == a && l[1] == b;
  }

  /** The foreign keys of attempts and credentials. */
  ghost predicate ForeignKeys(db: Db) {
    && (forall a :: a in db.attempts ==> db.attempts[a].operationId in db.operations)
    && (forall c :: c in db.credentials ==> db.credentials[c].attemptId in db.attempts)
  }

  function WithRows(db: Db, o: Operation, a: Attempt, k: Credential): Db {
    db.(operations := db.operations[o.id := o], attempts := db.attempts[a.id := a],
        credentials := db.credentials[k.id := k])
  }

  /** The inserts pass exactly when their primary keys are free and the tables with the three rows satisfy
      every CHECK, unique and partial-unique constraint. */
  lemma InsertableExact(db: Db, o: Operation, a: Attempt, k: Credential)
    requires ExecutionConstraints(db) && ForeignKeys(db)
    requires a.operationId == o.id && k.attemptId == a.id
    ensures Insertable(db, o, a, k) <==>
              && o.id !in db.operations && a.id !in db.attempts && k.id !in db.credentials
              && ExecutionConstraints(WithRows(db, o, a, k))
  {
    hide OperationChecks, AttemptChecks, CredentialChecks;
    if o.id !in db.operations && a.id !in db.attempts && k.id !in db.credentials {
      OperationInsert(db.operations, o);
      AttemptInsert(db.attempts, a);
      CredentialInsert(db.credentials, k);
    }
  }

  lemma OperationInsert(operations: map<Uuid, Operation>, o: Operation)
    requires OperationConstraints(operations) && o.id !in operations
    ensures OperationConstraints(operations[o.id := o]) <==>
              && OperationChecks(o)
              && forall p :: p in operations ==>
                  !HasIdentity(operations[p], o.requestId, o.inputHash, o.configurationHash)
  {
    hide OperationChecks;
    var after := operations[o.id := o];
    forall p | p in operations
      ensures SameIdentity(after[p], after[o.id]) <==>
                HasIdentity(operations[p], o.requestId, o.inputHash, o.configurationHash)
    {
    }
  }

  lemma AttemptInsert(attempts: map<Uuid, Attempt>, a: Attempt)
    requires AttemptConstraints(attempts) && a.id !in attempts
    requires forall b :: b in attempts ==> attempts[b].operationId != a.operationId
    ensures AttemptConstraints(attempts[a.id := a]) <==> AttemptChecks(a)
  {
    hide AttemptChecks;
    var after := attempts[a.id := a];
    assert after[a.id] == a;
    forall b, d | b in after && d in after && b != d ensures AttemptsCompatible(after[b], after[d]) {
      if b != a.id && d != a.id { assert AttemptsCompatible(attempts[b], attempts[d]); }
    }
  }

  lemma CredentialInsert(credentials: map<Uuid, Credential>, k: Credential)
    requires CredentialConstraints(credentials) && k.id !in credentials
    requires forall c :: c in credentials ==> credentials[c].attemptId != k.attemptId
    ensures CredentialConstraints(credentials[k.id := k]) <==>
              CredentialChecks(k) && forall c :: c in credentials ==> credentials[c].hash != k.hash
  {
    hide CredentialChecks;
    var after := credentials[k.id := k];
    forall c | c in credentials
      ensures CredentialsCompatible(after[c], after[k.id]) <==> credentials[c].hash != k.hash {}
  }

  function StartedSnapshot(c: Command, r: ServiceRequest, ids: Ids, now: Time): Snapshot
    requires c.StartAi?
  {
    StartAiSnapshot(c.requestId, ids.operationId, ids.attemptId, ids.credentialId, 1,
                    Deadline(c.settings, now), r.version + 1)
  }

  function RequestEvent(c: Command, commandId: Uuid, version: int, ids: Ids): AuditEvent
    requires c.StartAi?
  {
    AuditEvent(ids.requestAuditId, AiInterpretationStarted, RequestAggregate(c.requestId), version, WorkflowService,
               c.machine.identityId, StartedOutcome, c.correlationId, Some(commandId))
  }

  function AttemptEvent(c: Command, commandId: Uuid, ids: Ids): AuditEvent {
    AuditEvent(ids.attemptAuditId, AttemptCreated, AttemptAggregate(ids.attemptId), 1, WorkflowService,
               c.machine.identityId, AttemptOutcome(AttemptState.Pending), c.correlationId, Some(commandId))
  }

  function AttemptMessage(c: Command, commandId: Uuid, ids: Ids): OutboxMessage {
    OutboxMessage(AttemptCreated, AttemptAggregate(ids.attemptId), 1, ids.attemptAuditId, c.correlationId,
                  Some(commandId))
  }

  function StartedRecord(c: Command, record: Record, r: ServiceRequest, now: Time, ids: Ids): Record
    requires c.StartAi?
  {
    CompletedRecord(record, 202, StartedSnapshot(c, r, ids, now),
                    Some(SecretDelivery(ids.credentialId, 1, Deadline(c.settings, now))), None, now)
  }

  function StartEffects(h: Hashing, c: Command, record: Record, r: ServiceRequest, now: Time, ids: Ids,
                        token: string): Effects
    requires c.StartAi?
  {
    InterpretationStarted(
      ScopeOf(c), StartedRecord(c, record, r, now, ids), r.(version := r.version + 1),
      NewOperation(h, c, r, ids), NewAttempt(c, ids, now), NewCredential(h, c, ids, now, token),
      RequestEvent(c, record.commandId, r.version + 1, ids), AttemptEvent(c, record.commandId, ids),
      AttemptMessage(c, record.commandId, ids))
  }

  function StartReply(c: Command, record: Record, r: ServiceRequest, now: Time, ids: Ids, token: string): Reply
    requires c.StartAi?
  {
    Answered(Outcome(202, record.commandId, StartedSnapshot(c, r, ids, now), false, Some(token)))
  }

  /** The decision of Start AI on the rows of `db`. */
  ghost function StartDecision(h: Hashing, db: Db, c: Command): Option<Verdict>
    requires c.StartAi?
  {
    StartVerdict(c.expectedVersion, StartRows(h, db, c.requestId, c.settings))
  }

  /** The request is there, at the version the caller expects, and still in triage. */
  predicate Startable(db: Db, c: Command)
    requires c.StartAi?
  {
    && c.requestId in db.requests && db.requests[c.requestId].version == c.expectedVersion
    && db.requests[c.requestId].status == TriagePending
  }

  /** `o` is an operation for the request as it now reads and for the settings of the command. */
  predicate StartedBefore(h: Hashing, db: Db, c: Command, o: Uuid)
    requires c.StartAi? && c.requestId in db.requests
  {
    && o in db.operations && db.operations[o].requestId == c.requestId
    && db.operations[o].inputHash == h.InputHash(db.requests[c.requestId])
    && db.operations[o].configurationHash == h.ConfigurationHash(c.settings)
  }

  /** The decision on every database whose operations have distinct identities: a missing request first, then another
      version, then another status, then an operation that is there already. */
  lemma DecisionExact(h: Hashing, db: Db, c: Command)
    requires c.StartAi? && UniqueIdentity(db.operations)
    ensures StartDecision(h, db, c) == Some(Refused(404, ResourceNotFound, None)) <==> c.requestId !in db.requests
    ensures forall v :: StartDecision(h, db, c) == Some(Refused(409, ConcurrencyConflict, v)) <==>
              && c.requestId in db.requests && db.requests[c.requestId].version != c.expectedVersion
              && v == Some(db.requests[c.requestId].version)
    ensures StartDecision(h, db, c) == Some(Refused(409, InvalidStateTransition, None)) <==>
              && c.requestId in db.requests && db.requests[c.requestId].version == c.expectedVersion
              && db.requests[c.requestId].status != TriagePending
    ensures StartDecision(h, db, c) == Some(Granted) <==>
              Startable(db, c) && forall o :: o in db.operations ==> !StartedBefore(h, db, c, o)
    ensures Startable(db, c) ==>
              forall o :: o in db.operations && StartedBefore(h, db, c, o) ==>
                            StartDecision(h, db, c) ==
                            Some(ExistingOperationVerdict(db.operations[o],
                                                          Siblings(db.attempts, db.operations[o].id)))
  {
    if Startable(db, c) {
      var found := StartRows(h, db, c.requestId, c.settings).operation;
      var mine := OperationsFor(db.operations, c.requestId);
      if o :| o in db.operations && StartedBefore(h, db, c, o) {
        assert o in mine;
        var p :| p in mine && mine[p] == found.row;
        assert p == o;
      }
    }
  }

  /** What a decision makes of `db`: the reply and the private writes. */
  ghost function StartBranch(v: Option<Verdict>, h: Hashing, db: Db, c: Command, record: Record, now: Time,
                             ids: Ids, token: Option<string>): (Reply, Effects)
    requires c.StartAi?
    requires v == Some(Granted) ==> c.requestId in db.requests
  {
    if v == Some(Granted) then
      if token.None? || !OpaqueCredential(token.value) then (Failed(ApiError(503, DependencyUnavailable)), NoEffects)
      else
        var r := db.requests[c.requestId];
        if !Insertable(db, NewOperation(h, c, r, ids), NewAttempt(c, ids, now),
                       NewCredential(h, c, ids, now, token.value)) then
          (Failed(ApiError(500, InternalError)), NoEffects)
        else (StartReply(c, record, r, now, ids, token.value), StartEffects(h, c, record, r, now, ids, token.value))
    else if v.Some? && v.value.Refused? then
      (GuardReply(record, v.value), GuardEffects(ScopeOf(c), record, v.value, now))
    else (Failed(RuntimeFailure), NoEffects)
  }

  /** One whole execution of Start AI against `db`. */
  ghost function StartExecution(h: Hashing, db: Db, c: Command, record: Record, now: Time, ids: Ids,
                                token: Option<string>): (Reply, Effects)
    requires c.StartAi?
  {
    StartBranch(StartDecision(h, db, c), h, db, c, record, now, ids, token)
  }

  // ------------------------------------------------------------------ the service

  method SelectOperation(operations: map<Uuid, Operation>, requestId: Uuid, inputHash: Digest,
                         configurationHash: Digest)
    returns (found: Seen<Operation>)
    requires UniqueIdentity(operations)
    ensures found == FindOperation(OperationsFor(operations, requestId), requestId, inputHash, configurationHash)
  {
    ghost var candidates := OperationsFor(operations, requestId);
    var todo := operations.Keys;
    while todo != {}
      invariant todo <= operations.Keys
      invariant forall o :: o in operations.Keys - todo ==>
                  !HasIdentity(operations[o], requestId, inputHash, configurationHash)
      decreases |todo|
    {
      var o :| o in todo;
      if HasIdentity(operations[o], requestId, inputHash, configurationHash) {
        assert candidates[o] == operations[o];
        return Read(operations[o]);
      }
      todo := todo - {o};
    }
    found := Absent;
  }

  method Decide(s: Session, h: Hashing, c: Command) returns (v: Verdict)
    requires c.StartAi? && UniqueIdentity(s.operations)
    ensures Some(v) == StartDecision(h, s.State(), c)
  {
    if c.requestId !in s.requests { return Refused(404, ResourceNotFound, None); }
    var request := s.requests[c.requestId];
    var guard := RequestVerdict(request, c.expectedVersion);
    if guard.Some? { return guard.value; }
    var inputDigest := h.InputHash(request);
    var configurationDigest := h.ConfigurationHash(c.settings);
    var operation := SelectOperation(s.operations, c.requestId, inputDigest, configurationDigest);
    if operation.Read? {
      var attempts := Siblings(s.attempts, operation.row.id);
      return ExistingOperationVerdict(operation.row, attempts);
    }
    v := Granted;
  }

  /** The inserts, the version bump, the evidence rows and the completed record. */
  method Create(s: Session, h: Hashing, c: Command, reservation: Reservation, ghost record: Record, ids: Ids,
                token: string)
    returns (reply: Reply)
    requires c.StartAi? && ReservationOpen(s, ScopeOf(c), record, reservation)
    requires c.requestId in s.requests && s.requests[c.requestId].id == c.requestId
    modifies s`records, s`requests, s`operations, s`attempts, s`credentials, s`audit, s`outbox
    ensures var r := old(s.requests)[c.requestId];
            && reply == StartReply(c, record, r, s.now, ids, token)
            && s.State() == Apply(old(s.State()), StartEffects(h, c, record, r, s.now, ids, token))
  {
    hide RecordChecks;
    var request := s.requests[c.requestId];
    var deadline := Deadline(c.settings, s.now);
    var requestVersion := request.version + 1;
    var operation := NewOperation(h, c, request, ids);
    var attempt := NewAttempt(c, ids, s.now);
    var credential := NewCredential(h, c, ids, s.now, token);
    var snapshot :=
      StartAiSnapshot(c.requestId, ids.operationId, ids.attemptId, ids.credentialId, 1, deadline, requestVersion);
    ghost var r := request;
    request := request.(version := requestVersion);
    s.requests := s.requests[request.id := request];
    s.operations := s.operations[operation.id := operation];
    s.attempts := s.attempts[attempt.id := attempt];
    s.credentials := s.credentials[credential.id := credential];
    s.audit := s.audit + [RequestEvent(c, reservation.commandId, requestVersion, ids),
                          AttemptEvent(c, reservation.commandId, ids)];
    s.outbox := s.outbox + [AttemptMessage(c, reservation.commandId, ids)];
    CompletedChecks(record, 202, snapshot, Some(SecretDelivery(ids.credentialId, 1, deadline)), None, s.now);
    var done := Complete(s, reservation, 202, snapshot, Some(SecretDelivery(ids.credentialId, 1, deadline)), None);
    assert s.records == old(s.records)[ScopeOf(c) := StartedRecord(c, record, r, s.now, ids)];
    assert s.requests == old(s.requests)[c.requestId := r.(version := r.version + 1)];
    reply := Answered(Outcome(202, done.result.commandId, done.result.snapshot, false, Some(token)));
  }

  /** One execution inside the caller's transaction.  `token` is what the credential generator
      produced, None when it raised. */
  method ExecuteNew(s: Session, h: Hashing, c: Command, reservation: Reservation, ghost record: Record, ids: Ids,
                    token: Option<string>)
    returns (reply: Reply)
    requires c.StartAi? && ReservationOpen(s, ScopeOf(c), record, reservation)
    requires UniqueIdentity(s.operations)
    requires forall r :: r in s.requests ==> s.requests[r].id == r
    modifies s`records, s`requests, s`operations, s`attempts, s`credentials, s`audit, s`outbox
    ensures reply == StartExecution(h, old(s.State()), c, record, s.now, ids, token).0
    ensures s.State() == Apply(old(s.State()), StartExecution(h, old(s.State()), c, record, s.now, ids, token).1)
  {
    var decision := Decide(s, h, c);
    if decision.Broken? { return Failed(RuntimeFailure); }
    if decision.Refused? {
      reply := CompleteGuard(s, ScopeOf(c), reservation, record, decision);
      return;
    }
    if token == None || !OpaqueCredential(token.value) { return Failed(ApiError(503, DependencyUnavailable)); }
    var insertable := CheckInserts(s, h, c, ids, token.value);
    if !insertable { return Failed(ApiError(500, InternalError)); }
    reply := Create(s, h, c, reservation, record, ids, token.value);
  }

  /** The flushes: each insert is checked against its table's constraints. */
  method CheckInserts(s: Session, h: Hashing, c: Command, ids: Ids, token: string) returns (ok: bool)
    requires c.StartAi? && c.requestId in s.requests
    ensures ok == Insertable(s.State(), NewOperation(h, c, s.requests[c.requestId], ids), NewAttempt(c, ids, s.now),
                             NewCredential(h, c, ids, s.now, token))
  {
    var o := NewOperation(h, c, s.requests[c.requestId], ids);
    var a := NewAttempt(c, ids, s.now);
    var k := NewCredential(h, c, ids, s.now, token);
    ok :=
      && OperationChecks(o) && AttemptChecks(a) && CredentialChecks(k)
      && o.id !in s.operations && a.id !in s.attempts && k.id !in s.credentials
      && (forall p :: p in s.operations ==>
          !HasIdentity(s.operations[p], o.requestId, o.inputHash, o.configurationHash))
      && (forall d :: d in s.credentials ==> s.credentials[d].hash != k.hash);
  }
}
