/** The cross-table invariants every committed database satisfies, and what they make of the
    decisions of the two commands. */
module Invariants {
  import opened Model
  import opened CommandIdempotency
  import opened CredentialHistory
  import opened Commands
  import AttemptStart
  import StartAi = StartAiInterpretationCommand
  import opened Evidence

  // ------------------------------------------------------------------ command records

  /** Only completed records are ever committed, and record and command ids are unique. */
  ghost predicate RecordsComplete(records: map<ScopeKey, Record>) {
    && (forall k :: k in records ==> records[k].status == Completed && RecordChecks(records[k]))
    && (forall k, l :: k in records && l in records && k != l ==>
          records[k].id != records[l].id && records[k].commandId != records[l].commandId)
  }

  // ------------------------------------------------------------------ the execution graph

  predicate RequestFits(id: Uuid, r: ServiceRequest) {
    r.id == id && r.version >= 1 && r.status == TriagePending
  }

  predicate OperationFits(h: Hashing, requests: map<Uuid, ServiceRequest>, o: Operation) {
    && o.version == 1 && o.succeededAttemptId == None
    && o.requestId in requests && o.inputHash == h.InputHash(requests[o.requestId])
  }

  predicate AttemptFits(operations: map<Uuid, Operation>, a: Attempt) {
    && a.operationId in operations
    && a.requestId == operations[a.operationId].requestId
    && a.adapterName == operations[a.operationId].adapterName
    && a.adapterVersion == operations[a.operationId].adapterVersion
    && a.number == 1
    && ((a.state == Pending && a.version == 1) || (a.state == Running && a.version == 2))
  }

  predicate CredentialFits(attempts: map<Uuid, Attempt>, c: Credential) {
    && c.attemptId in attempts
    && c.state == Active && c.version == 1
    && c.service == attempts[c.attemptId].service && c.environment == attempts[c.attemptId].environment
    && c.expiresAt == attempts[c.attemptId].deadline
  }

  ghost predicate OneAttemptEach(operations: map<Uuid, Operation>, attempts: map<Uuid, Attempt>) {
    && (forall a, b :: a in attempts && b in attempts && attempts[a].operationId == attempts[b].operationId ==> a == b)
    && (forall o :: o in operations ==> exists a :: a in attempts && attempts[a].operationId == o)
  }

  ghost predicate OneCredentialEach(attempts: map<Uuid, Attempt>, credentials: map<Uuid, Credential>) {
    && (forall c, d :: c in credentials && d in credentials && credentials[c].attemptId == credentials[d].attemptId ==>
        c == d)
    && (forall a :: a in attempts ==> exists c :: c in credentials && credentials[c].attemptId == a)
  }

  ghost predicate AllRequestsFit(requests: map<Uuid, ServiceRequest>) {
    forall r :: r in requests ==> RequestFits(r, requests[r])
  }

  ghost predicate AllOperationsFit(h: Hashing, requests: map<Uuid, ServiceRequest>, operations: map<Uuid, Operation>) {
    forall o :: o in operations ==> OperationFits(h, requests, operations[o])
  }

  ghost predicate AllAttemptsFit(operations: map<Uuid, Operation>, attempts: map<Uuid, Attempt>) {
    forall a :: a in attempts ==> AttemptFits(operations, attempts[a])
  }

  ghost predicate AllCredentialsFit(attempts: map<Uuid, Attempt>, credentials: map<Uuid, Credential>) {
    forall c :: c in credentials ==> CredentialFits(attempts, credentials[c])
  }

  /** Each operation has exactly one attempt, with its request and adapter; each attempt has exactly
      one Active version-1 credential with its scope and deadline; input hashes match. */
  ghost predicate Graph(h: Hashing, requests: map<Uuid, ServiceRequest>, operations: map<Uuid, Operation>,
                        attempts: map<Uuid, Attempt>, credentials: map<Uuid, Credential>) {
    && OperationConstraints(operations) && AttemptConstraints(attempts) && CredentialConstraints(credentials)
    && AllRequestsFit(requests)
    && AllOperationsFit(h, requests, operations)
    && AllAttemptsFit(operations, attempts)
    && AllCredentialsFit(attempts, credentials)
    && OneAttemptEach(operations, attempts)
    && OneCredentialEach(attempts, credentials)
  }

  ghost predicate GraphSound(h: Hashing, db: Db) {
    Graph(h, db.requests, db.operations, db.attempts, db.credentials)
  }

  // ------------------------------------------------------------------ intake

  predicate KeyFits(requests: map<Uuid, ServiceRequest>, deliveries: map<Uuid, Delivery>, digest: Digest,
                    k: AcceptedKey) {
    && k.originalDeliveryId in deliveries && k.requestId in requests
    && k.snapshotDeliveryId == k.originalDeliveryId && k.snapshotRequestId == k.requestId
    && k.snapshotRequestVersion == 1 && k.httpStatus == 201
    && requests[k.requestId].originatingDeliveryId == k.originalDeliveryId
    && var d := deliveries[k.originalDeliveryId];
    && d.outcome == NewDelivery && d.keyDigest == digest && d.payloadHash == Some(k.payloadHash)
    && d.createdRequestId == Some(k.requestId) && d.acceptedKeyId == Some(k.id)
  }

  /** The references a delivery carries. */
  datatype Links = Links(original: Option<Uuid>, logicalRequest: Option<Uuid>, createdRequest: Option<Uuid>,
                         key: Option<Uuid>)

  function LinksOf(d: Delivery): Links {
    Links(d.originalDeliveryId, d.logicalRequestId, d.createdRequestId, d.acceptedKeyId)
  }

  /** A New delivery created the key's request, a replay names the winner's request and original
      delivery, a conflict names the original delivery only. */
  function LinksFor(outcome: IntakeOutcome, k: AcceptedKey): Links {
    match outcome
    case NewDelivery => Links(None, Some(k.requestId), Some(k.requestId), Some(k.id))
    case IdempotentReplay => Links(Some(k.originalDeliveryId), Some(k.requestId), None, Some(k.id))
    case IdempotencyConflict => Links(Some(k.originalDeliveryId), None, None, Some(k.id))
    case Invalid => Links(None, None, None, None)
  }

  predicate AgreesWithKey(id: Uuid, d: Delivery, k: AcceptedKey) {
    && LinksOf(d) == LinksFor(d.outcome, k)
    && (d.outcome == NewDelivery ==> k.originalDeliveryId == id)
    && (d.outcome != IdempotencyConflict ==> d.payloadHash == Some(k.payloadHash))
  }

  /** Every delivery agrees with the key it was resolved against. */
  predicate DeliveryFits(keys: map<Digest, AcceptedKey>, id: Uuid, d: Delivery) {
    && d.id == id && d.version == 1
    && if d.outcome == Invalid then LinksOf(d) == Links(None, None, None, None)
       else d.keyDigest in keys && AgreesWithKey(id, d, keys[d.keyDigest])
  }

  predicate OriginFits(contacts: map<Uuid, Contact>, deliveries: map<Uuid, Delivery>, r: ServiceRequest) {
    && r.contactId in contacts
    && r.originatingDeliveryId in deliveries
    && deliveries[r.originatingDeliveryId].outcome == NewDelivery
    && deliveries[r.originatingDeliveryId].createdRequestId == Some(r.id)
  }

  function NewDeliveries(deliveries: map<Uuid, Delivery>): set<Uuid> {
    set d | d in deliveries && deliveries[d].outcome == NewDelivery
  }

  ghost predicate AllKeysFit(requests: map<Uuid, ServiceRequest>, deliveries: map<Uuid, Delivery>,
                             keys: map<Digest, AcceptedKey>) {
    forall k :: k in keys ==> KeyFits(requests, deliveries, k, keys[k])
  }

  ghost predicate AllDeliveriesFit(keys: map<Digest, AcceptedKey>, deliveries: map<Uuid, Delivery>) {
    forall d :: d in deliveries ==> DeliveryFits(keys, d, deliveries[d])
  }

  ghost predicate AllOriginsFit(contacts: map<Uuid, Contact>, deliveries: map<Uuid, Delivery>,
                                requests: map<Uuid, ServiceRequest>) {
    && (forall r :: r in requests ==> requests[r].id == r && OriginFits(contacts, deliveries, requests[r]))
    && (forall q, r :: q in requests && r in requests && requests[q].contactId == requests[r].contactId ==> q == r)
  }

  /** Accepted keys, contacts, requests and New deliveries refer to one another in bijection. */
  ghost predicate IntakeLinked(keys: map<Digest, AcceptedKey>, contacts: map<Uuid, Contact>,
                               deliveries: map<Uuid, Delivery>, requests: map<Uuid, ServiceRequest>) {
    && AllKeysFit(requests, deliveries, keys)
    && AllDeliveriesFit(keys, deliveries)
    && AllOriginsFit(contacts, deliveries, requests)
  }

  /** As many keys as requests, contacts and New deliveries; one intake event per delivery and one
      more per New delivery, and as many messages. */
  predicate IntakeCounted(keys: nat, requests: nat, contacts: nat, accepted: nat, deliveries: nat, events: nat) {
    keys == requests == contacts == accepted && events == deliveries + accepted
  }

  ghost predicate IntakeConserved(db: Db) {
    && IntakeLinked(db.keys, db.contacts, db.deliveries, db.requests)
    && IntakeCounted(|db.keys|, |db.requests|, |db.contacts|, |NewDeliveries(db.deliveries)|, |db.deliveries|,
                     IntakeEvents(db.audit))
  }

  /** The invariant of every committed database. */
  ghost predicate Sound(h: Hashing, db: Db) {
    && RecordsComplete(db.records)
    && GraphSound(h, db)
    && IntakeConserved(db)
    && EvidenceComplete(db)
  }

  lemma EmptyIsSound(h: Hashing)
    ensures Sound(h, EMPTY_DB)
  {
    assert NewDeliveries(map[]) == {};
  }

  // ------------------------------------------------------------------ consequences for the commands

  lemma SiblingsOfAttempt(operations: map<Uuid, Operation>, attempts: map<Uuid, Attempt>, a: Uuid)
    requires OneAttemptEach(operations, attempts) && a in attempts
    ensures Siblings(attempts, attempts[a].operationId) == map[a := attempts[a]]
  {
  }

  lemma CredentialOfAttempt(attempts: map<Uuid, Attempt>, credentials: map<Uuid, Credential>, a: Uuid) returns (c: Uuid)
    requires OneCredentialEach(attempts, credentials) && a in attempts
    ensures c in credentials && credentials[c].attemptId == a
    ensures CredentialsOf(credentials, a) == map[c := credentials[c]]
  {
    c :| c in credentials && credentials[c].attemptId == a;
  }

  /** Everything the graph invariant says about one attempt and the rows around it. */
  lemma AroundAttempt(h: Hashing, db: Db, id: Uuid) returns (k: Uuid)
    requires GraphSound(h, db) && id in db.attempts
    ensures var a := db.attempts[id];
            && a.id == id && AttemptChecks(a) && AttemptFits(db.operations, a)
            && var o := db.operations[a.operationId];
            && OperationChecks(o) && OperationFits(h, db.requests, o) && o.id == a.operationId
            && RequestFits(a.requestId, db.requests[a.requestId])
    ensures Siblings(db.attempts, db.attempts[id].operationId) == map[id := db.attempts[id]]
    ensures k in db.credentials && CredentialsOf(db.credentials, id) == map[k := db.credentials[k]]
    ensures db.credentials[k].attemptId == id && db.credentials[k].id == k
    ensures CredentialChecks(db.credentials[k]) && CredentialFits(db.attempts, db.credentials[k])
  {
    SiblingsOfAttempt(db.operations, db.attempts, id);
    k := CredentialOfAttempt(db.attempts, db.credentials, id);
  }

  predicate CallersAttempt(db: Db, c: Command)
    requires c.ClaimStart?
  {
    && c.attemptId in db.attempts
    && db.attempts[c.attemptId].service == c.machine.serviceId
    && db.attempts[c.attemptId].environment == c.machine.environment
  }

  /** Claim/start without its structural checks. */
  function ClaimOutcome(db: Db, c: Command, now: Time): Verdict
    requires c.ClaimStart?
  {
    if !CallersAttempt(db, c) then Refused(404, AttemptNotFound, None)
    else
      var a := db.attempts[c.attemptId];
      if a.version != c.expectedVersion then Refused(409, ConcurrencyConflict, Some(a.version))
      else if a.state == Running || a.deadline <= now then Refused(409, InvalidStateTransition, None)
      else Granted
  }

  /** In a sound database claim/start meets no structural failure, and its guard chain decides what four
      questions decide: is the attempt the caller's, at the expected version, not yet Running, and not
      past its deadline. */
  lemma ClaimDecided(h: Hashing, db: Db, c: Command, now: Time)
    requires c.ClaimStart? && GraphSound(h, db)
    ensures AttemptStart.ClaimDecision(h, db, c, now) == Some(ClaimOutcome(db, c, now))
    ensures AttemptStart.ClaimGranted(h, db, c, now) <==>
              c.attemptId in db.attempts && Claimable(db.attempts[c.attemptId], c, now)
  {
    hide GraphSound, AttemptStart.GraphVerdict, AttemptStart.CredentialVerdict, OperationChecks;
    if c.attemptId in db.attempts {
      var k := AroundAttempt(h, db, c.attemptId);
      hide AttemptStart.ClaimVerdict;
      LoneAttempt(h, AttemptStart.ClaimRows(db, c.attemptId), c, k, now);
    }
  }

  predicate Claimable(a: Attempt, c: Command, now: Time)
    requires c.ClaimStart?
  {
    && a.service == c.machine.serviceId && a.environment == c.machine.environment
    && a.state == Pending && c.expectedVersion == a.version
    && now < a.deadline
  }

  lemma LoneAttempt(h: Hashing, rows: Rows, c: Command, k: Uuid, now: Time)
    requires c.ClaimStart?
    requires rows.attempt.Read? && rows.operation.Read? && rows.request.Read? && rows.siblings.Read?
             && rows.credentials.Read?
    requires var a, o, r := rows.attempt.row, rows.operation.row, rows.request.row;
             && AttemptChecks(a) && o.kind == AIInterpretation
             && a.adapterName == o.adapterName && a.adapterVersion == o.adapterVersion
             && o.requestId == r.id == a.requestId && o.succeededAttemptId == None
             && r.status == TriagePending && h.InputHash(r) == o.inputHash
             && rows.siblings.row == map[a.id := a]
             && k in rows.credentials.row && rows.credentials.row == map[k := rows.credentials.row[k]]
             && var d := rows.credentials.row[k];
             && CredentialChecks(d) && d.attemptId == a.id && d.state == Active && d.version == 1
             && d.expiresAt == a.deadline && d.service == a.service && d.environment == a.environment
    ensures
      var a := rows.attempt.row;
      AttemptStart.ClaimVerdict(h, c.machine, c.expectedVersion, now, rows) == Some(
        if a.service != c.machine.serviceId || a.environment != c.machine.environment then
          Refused(404, AttemptNotFound, None)
        else if a.version != c.expectedVersion then Refused(409, ConcurrencyConflict, Some(a.version))
        else if a.state != Pending || a.deadline <= now then Refused(409, InvalidStateTransition, None)
        else Granted)
  {
    var a := rows.attempt.row;
    if a.service == c.machine.serviceId && a.environment == c.machine.environment {
      LoneCredential(a, c.machine, rows.credentials.row, k, now);
      LoneSibling(h, a, rows.operation.row, rows.request.row, rows.siblings.row);
    }
  }

  lemma LoneSibling(h: Hashing, a: Attempt, o: Operation, r: ServiceRequest, siblings: map<Uuid, Attempt>)
    requires siblings == map[a.id := a] && AttemptChecks(a) && o.kind == AIInterpretation
    requires a.adapterName == o.adapterName && a.adapterVersion == o.adapterVersion
    requires o.requestId == r.id == a.requestId && o.succeededAttemptId == None
    requires r.status == TriagePending && h.InputHash(r) == o.inputHash
    ensures AttemptStart.GraphVerdict(h, a, o, r, siblings) ==
              if a.state == Pending then None else Some(Refused(409, InvalidStateTransition, None))
  {
  }

  lemma LoneCredential(a: Attempt, machine: Machine, creds: map<Uuid, Credential>, k: Uuid, now: Time)
    requires k in creds && creds == map[k := creds[k]]
    requires CredentialChecks(creds[k]) && creds[k].attemptId == a.id
    requires creds[k].state == Active && creds[k].version == 1 && creds[k].expiresAt == a.deadline
    requires creds[k].service == a.service && creds[k].environment == a.environment
    requires a.service == machine.serviceId && a.environment == machine.environment
    ensures AttemptStart.CredentialVerdict(a, machine, creds, now) ==
              if now < a.deadline then Granted else Refused(409, InvalidStateTransition, None)
  {
    assert ActiveIds(creds) == {k};
    assert TheActive(creds) == k;
  }

  /** Start AI without its structural checks. */
  ghost function StartOutcome(h: Hashing, db: Db, c: Command): Verdict
    requires c.StartAi?
  {
    if c.requestId !in db.requests then Refused(404, ResourceNotFound, None)
    else if db.requests[c.requestId].version != c.expectedVersion then
      Refused(409, ConcurrencyConflict, Some(db.requests[c.requestId].version))
    else if !NoOperationFor(h, db, c) then Refused(409, ActiveAttemptExists, None)
    else Granted
  }

  /** In a sound database Start AI meets no structural failure, and decides what three questions
      decide: does the request exist, is it at the expected version, and is there no operation yet for
      its input and this configuration. */
  lemma StartDecided(h: Hashing, db: Db, c: Command)
    requires c.StartAi? && GraphSound(h, db)
    ensures StartAi.StartDecision(h, db, c) == Some(StartOutcome(h, db, c))
  {
    if c.requestId in db.requests {
      FoundOperation(h, db, c);
      StartRowsDecided(StartAi.StartRows(h, db, c.requestId, c.settings), c);
    }
  }

  lemma FoundOperation(h: Hashing, db: Db, c: Command)
    requires c.StartAi? && GraphSound(h, db) && c.requestId in db.requests
    ensures var rows := StartAi.StartRows(h, db, c.requestId, c.settings);
            && rows.request == Read(db.requests[c.requestId]) && rows.request.row.status == TriagePending
            && !rows.operation.Unread? && (rows.operation.Absent? <==> NoOperationFor(h, db, c))
            && (rows.operation.Read? ==> RefusesAsActive(rows))
  {
    var r := db.requests[c.requestId];
    var found := StartAi.FindOperation(StartAi.OperationsFor(db.operations, c.requestId), c.requestId,
                                       h.InputHash(r), h.ConfigurationHash(c.settings));
    forall o | o in db.operations
               && StartAi.HasIdentity(db.operations[o], c.requestId, h.InputHash(r), h.ConfigurationHash(c.settings))
      ensures found.Read?
    {
      assert o in StartAi.OperationsFor(db.operations, c.requestId);
    }
    if found.Read? {
      var o :| o in db.operations && db.operations[o] == found.row;
      AroundOperation(db.operations, db.attempts, o);
    }
  }

  predicate RefusesAsActive(rows: Rows) {
    && rows.operation.Read? && rows.siblings.Read?
    && StartAi.ExistingOperationVerdict(rows.operation.row, rows.siblings.row) ==
        Refused(409, ActiveAttemptExists, None)
  }

  lemma StartRowsDecided(rows: Rows, c: Command)
    requires c.StartAi?
    requires rows.request.Read? && rows.request.row.status == TriagePending && !rows.operation.Unread?
    requires rows.operation.Read? ==> RefusesAsActive(rows)
    ensures StartAi.StartVerdict(c.expectedVersion, rows) ==
              if rows.request.row.version != c.expectedVersion then
                Some(Refused(409, ConcurrencyConflict, Some(rows.request.row.version)))
              else if rows.operation.Absent? then Some(Granted)
              else Some(Refused(409, ActiveAttemptExists, None))
  {
  }

  ghost predicate NoOperationFor(h: Hashing, db: Db, c: Command)
    requires c.StartAi? && c.requestId in db.requests
  {
    forall o :: o in db.operations ==>
      !StartAi.HasIdentity(db.operations[o], c.requestId, h.InputHash(db.requests[c.requestId]),
                           h.ConfigurationHash(c.settings))
  }

  lemma AroundOperation(operations: map<Uuid, Operation>, attempts: map<Uuid, Attempt>, o: Uuid)
    requires OneAttemptEach(operations, attempts) && AllAttemptsFit(operations, attempts)
    requires o in operations && operations[o].id == o && operations[o].succeededAttemptId == None
    ensures StartAi.ExistingOperationVerdict(operations[o], Siblings(attempts, o)) ==
              Refused(409, ActiveAttemptExists, None)
  {
    var a :| a in attempts && attempts[a].operationId == o;
    SiblingsOfAttempt(operations, attempts, a);
    var m := Siblings(attempts, o);
    assert a in m && AttemptFits(operations, attempts[a]);
    assert IsActive(m[a]);
  }
}
