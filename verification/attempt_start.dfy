/** Claim/start of one assigned AI integration attempt. */
module AttemptStart {
  import opened Model
  import opened Sessions
  import opened CommandIdempotency
  import opened CredentialHistory
  import opened Commands

  // ------------------------------------------------------------------ the guard chain

  function TargetVerdict(a: Attempt, machine: Machine, expectedVersion: int): Option<Verdict> {
    if a.service != machine.serviceId || a.environment != machine.environment then
      Some(Refused(404, AttemptNotFound, None))
    else if a.version != expectedVersion then
      Some(Refused(409, ConcurrencyConflict, Some(a.version)))
    else None
  }

  predicate OwnershipConsistent(a: Attempt, o: Operation, r: ServiceRequest) {
    && a.kind == AIInterpretation && o.kind == AIInterpretation
    && a.adapterName == o.adapterName && a.adapterVersion == o.adapterVersion
    && a.startedAt == None && a.completedAt == None && a.resultHash == None && a.errorCode == None
    && o.requestId == r.id && o.requestId == a.requestId
  }

  predicate NoActiveOther(a: Attempt, siblings: map<Uuid, Attempt>) {
    forall b :: b in siblings && b != a.id ==> !IsActive(siblings[b])
  }

  function GraphVerdict(h: Hashing, a: Attempt, o: Operation, r: ServiceRequest,
                        siblings: map<Uuid, Attempt>): (v: Option<Verdict>)
    ensures v != Some(Granted)
    ensures v.Some? && v.value.Refused? ==> v.value.status == 409
  {
    if a.state != AttemptState.Pending then Some(Refused(409, InvalidStateTransition, None))
    else if !OwnershipConsistent(a, o, r) then Some(Broken("attempt ownership or lifecycle structure is inconsistent"))
    else if a.id !in siblings || !NoActiveOther(a, siblings) then
      Some(Broken("logical operation has contradictory active attempts"))
    else if !SuccessReferenceOk(o, siblings) then Some(Broken("logical operation success reference is inconsistent"))
    else if o.succeededAttemptId.Some? then Some(Refused(409, LogicalOperationAlreadySucceeded, None))
    else if SomeSucceeded(siblings) then Some(Broken("successful sibling lacks a valid operation success reference"))
    else if r.status != TriagePending || h.InputHash(r) != o.inputHash then
      Some(Refused(409, InvalidStateTransition, None))
    else None
  }

  predicate ScopeOk(a: Attempt, c: Credential) {
    && c.attemptId == a.id && c.kind == AIInterpretation
    && c.service == a.service && c.environment == a.environment && c.expiresAt == a.deadline
  }

  predicate ActiveScopeOk(a: Attempt, machine: Machine, c: Credential) {
    && ScopeOk(a, c)
    && c.service == machine.serviceId && c.environment == machine.environment
    && c.version > 0 && c.state == Active
    && c.consumedAt == None && c.replacedAt == None && c.revokedAt == None && c.replacementId == None
  }

  /** The check of the history loop on one row that is not the active credential. */
  predicate HistoricalRowOk(a: Attempt, creds: map<Uuid, Credential>, c: Credential) {
    LinkOk(creds, c) && ScopeOk(a, c)
  }

  predicate HistoryOk(a: Attempt, creds: map<Uuid, Credential>, active: Uuid) {
    forall c :: c in creds && c != active ==> HistoricalRowOk(a, creds, creds[c])
  }

  ghost function CredentialVerdict(a: Attempt, machine: Machine, creds: map<Uuid, Credential>, now: Time): (v: Verdict)
    ensures v.Refused? ==> v.status == 409
  {
    if |ActiveIds(creds)| != 1 || !VersionsConsistent(creds) then
      Broken("attempt callback credential metadata is inconsistent")
    else
      var active := TheActive(creds);
      if !IsCurrent(creds, active) then Broken("active attempt callback credential is not current")
      else if !HistoryOk(a, creds, active) then Broken("attempt callback credential history is inconsistent")
      else if !ActiveScopeOk(a, machine, creds[active]) then Broken("attempt callback credential scope is inconsistent")
      else if creds[active].expiresAt <= now then Refused(409, InvalidStateTransition, None)
      else Granted
  }

  /** The decision of claim/start, None while it needs a row it has not read. */
  ghost function ClaimVerdict(h: Hashing, machine: Machine, expectedVersion: int, now: Time,
                              rows: Rows): Option<Verdict> {
    match rows.attempt
    case Unread => None
    case Absent => Some(Refused(404, AttemptNotFound, None))
    case Read(a) =>
      var target := TargetVerdict(a, machine, expectedVersion);
      if target.Some? then target
      else if rows.operation.Unread? then None
      else if rows.operation.Absent? then Some(Broken("attempt has no logical operation"))
      else if rows.request.Unread? then None
      else if rows.request.Absent? then Some(Broken("attempt has no owning service request"))
      else if !rows.siblings.Read? || !rows.credentials.Read? then None
      else
        var graph := GraphVerdict(h, a, rows.operation.row, rows.request.row, rows.siblings.row);
        if graph.Some? then graph else Some(CredentialVerdict(a, machine, rows.credentials.row, now))
  }

  /** Every row the command would read in `db`. */
  function ClaimRows(db: Db, attemptId: Uuid): Rows {
    if attemptId !in db.attempts then NOTHING_READ.(attempt := Absent)
    else
      var a := db.attempts[attemptId];
      Rows(Read(a), Lookup(db.operations, a.operationId), Lookup(db.requests, a.requestId),
           Read(Siblings(db.attempts, a.operationId)), Read(CredentialsOf(db.credentials, attemptId)))
  }

  // ------------------------------------------------------------------ the effects

  function RunningAttempt(a: Attempt, now: Time): Attempt {
    a.(state := Running, version := a.version + 1, startedAt := Some(now))
  }

  function StartedEvent(a: Attempt, machine: Machine, correlationId: Uuid, commandId: Uuid, auditId: Uuid): AuditEvent {
    AuditEvent(auditId, AttemptStarted, AttemptAggregate(a.id), a.version, WorkflowService, machine.identityId,
               AttemptOutcome(a.state), correlationId, Some(commandId))
  }

  function StartedMessage(a: Attempt, correlationId: Uuid, commandId: Uuid, auditId: Uuid): OutboxMessage {
    OutboxMessage(AttemptStarted, AttemptAggregate(a.id), a.version, auditId, correlationId, Some(commandId))
  }

  function StartedSnapshot(a: Attempt, now: Time): Snapshot {
    AttemptStartSnapshot(a.requestId, a.operationId, a.id, a.number, now, a.adapterName, a.adapterVersion, a.version)
  }

  function ClaimEffects(scope: ScopeKey, record: Record, a: Attempt, machine: Machine, correlationId: Uuid,
                        now: Time, auditId: Uuid): Effects {
    var b := RunningAttempt(a, now);
    AttemptClaimed(
      scope, CompletedRecord(record, 200, StartedSnapshot(b, now), None, None, now), b,
      StartedEvent(b, machine, correlationId, record.commandId, auditId),
      StartedMessage(b, correlationId, record.commandId, auditId))
  }

  function ClaimReply(record: Record, a: Attempt, now: Time): Reply {
    Answered(Outcome(200, record.commandId, StartedSnapshot(RunningAttempt(a, now), now), false, None))
  }

  /** The decision of claim/start on the rows of `db`. */
  ghost function ClaimDecision(h: Hashing, db: Db, c: Command, now: Time): Option<Verdict>
    requires c.ClaimStart?
  {
    ClaimVerdict(h, c.machine, c.expectedVersion, now, ClaimRows(db, c.attemptId))
  }

  /** The claim passes every guard. */
  ghost predicate ClaimGranted(h: Hashing, db: Db, c: Command, now: Time)
    requires c.ClaimStart?
  {
    ClaimDecision(h, db, c, now) == Some(Granted)
  }

  /** What a decision makes of `db`: the reply and the private writes. */
  ghost function ClaimBranch(v: Option<Verdict>, db: Db, c: Command, record: Record, now: Time,
                             auditId: Uuid): (Reply, Effects)
    requires c.ClaimStart?
    requires v == Some(Granted) ==> c.attemptId in db.attempts
  {
    if v == Some(Granted) then
      var a := db.attempts[c.attemptId];
      (ClaimReply(record, a, now), ClaimEffects(ScopeOf(c), record, a, c.machine, c.correlationId, now, auditId))
    else if v.Some? && v.value.Refused? then
      (GuardReply(record, v.value), GuardEffects(ScopeOf(c), record, v.value, now))
    else (Failed(RuntimeFailure), NoEffects)
  }

  /** One whole execution of claim/start against `db`. */
  ghost function ClaimExecution(h: Hashing, db: Db, c: Command, record: Record, now: Time,
                                auditId: Uuid): (Reply, Effects)
    requires c.ClaimStart?
  {
    GrantedIsPending(h, db, c, now);
    ClaimBranch(ClaimDecision(h, db, c, now), db, c, record, now, auditId)
  }

  lemma GrantedIsPending(h: Hashing, db: Db, c: Command, now: Time)
    requires c.ClaimStart?
    ensures ClaimGranted(h, db, c, now) ==>
              && c.attemptId in db.attempts && db.attempts[c.attemptId].state == AttemptState.Pending
              && db.attempts[c.attemptId].version == c.expectedVersion
  {
  }

  // ------------------------------------------------------------------ when a claim is granted

  /** The credential is the attempt's Active one, at the end of an accepted history, and every credential of the
      attempt is for its service and environment until its deadline. */
  predicate Opens(a: Attempt, creds: map<Uuid, Credential>, k: Uuid) {
    && AcceptedHistory(creds, k)
    && forall d :: d in creds ==>
         creds[d].service == a.service && creds[d].environment == a.environment && creds[d].expiresAt == a.deadline
  }

  /** No other attempt of the operation is open or has succeeded. */
  predicate AloneInOperation(db: Db, a: Attempt) {
    forall b :: b in db.attempts && b != a.id && db.attempts[b].operationId == a.operationId ==>
      db.attempts[b].state == RetryableFailure || db.attempts[b].state == TerminalFailure
  }

  /** The attempt's operation and request are there and fit it: same request, same adapter, no success yet. */
  predicate OwnedConsistently(db: Db, a: Attempt) {
    && a.operationId in db.operations && a.requestId in db.requests
    && var o, r := db.operations[a.operationId], db.requests[a.requestId];
       && o.requestId == a.requestId && r.id == a.requestId
       && o.adapterName == a.adapterName && o.adapterVersion == a.adapterVersion && o.succeededAttemptId == None
  }

  /** What claim/start needs: the caller's attempt at the expected version, Pending, alone and owned consistently, on
      a request still in triage with the input that was frozen, and an open credential before the deadline. */
  ghost predicate Startable(h: Hashing, db: Db, c: Command, now: Time)
    requires c.ClaimStart?
  {
    c.attemptId in db.attempts &&
    var a := db.attempts[c.attemptId];
    && a.service == c.machine.serviceId && a.environment == c.machine.environment
    && a.version == c.expectedVersion && a.state == AttemptState.Pending
    && AloneInOperation(db, a) && OwnedConsistently(db, a)
    && db.requests[a.requestId].status == TriagePending
    && db.operations[a.operationId].inputHash == h.InputHash(db.requests[a.requestId])
    && now < a.deadline && exists k :: Opens(a, CredentialsOf(db.credentials, c.attemptId), k)
  }

  /** On every database that meets the table constraints, with any siblings and any credential history, the guard
      chain grants a claim exactly when that holds. */
  lemma GrantedExact(h: Hashing, db: Db, c: Command, now: Time)
    requires c.ClaimStart? && ExecutionConstraints(db)
    ensures ClaimGranted(h, db, c, now) <==> Startable(h, db, c, now)
  {
    hide GraphVerdict, CredentialVerdict, Opens, AloneInOperation, OwnedConsistently, OperationConstraints,
         AttemptConstraints, CredentialConstraints;
    if c.attemptId in db.attempts {
      var a := db.attempts[c.attemptId];
      AttemptRow(db.attempts, c.attemptId);
      if a.operationId in db.operations && a.requestId in db.requests { GraphExact(h, db, a); }
      else { NotOwned(db, a); }
      CredentialsExact(db, a, c.machine, now);
    }
  }

  /** The caller's attempt at the expected version. */
  predicate Targeted(db: Db, c: Command)
    requires c.ClaimStart?
  {
    && c.attemptId in db.attempts && db.attempts[c.attemptId].version == c.expectedVersion
    && db.attempts[c.attemptId].service == c.machine.serviceId
    && db.attempts[c.attemptId].environment == c.machine.environment
  }

  /** Nothing is out of order, but the attempt cannot start any more: it is not Pending, its request has left triage
      or changed, or the deadline of its open credential has passed. */
  ghost predicate TooLate(h: Hashing, db: Db, a: Attempt, now: Time) {
    && a.operationId in db.operations && a.requestId in db.requests
    && (|| a.state != AttemptState.Pending
        || (&& AloneInOperation(db, a) && OwnedConsistently(db, a)
            && (|| db.requests[a.requestId].status != TriagePending
                || db.operations[a.operationId].inputHash != h.InputHash(db.requests[a.requestId])
                || (a.deadline <= now && exists k :: Opens(a, CredentialsOf(db.credentials, a.id), k)))))
  }

  /** The refusals, on every database that meets the table constraints: 404 for an attempt that is not the caller's,
      the version conflict with the version found, and the state refusal for the reasons above. */
  lemma RefusedExact(h: Hashing, db: Db, c: Command, now: Time)
    requires c.ClaimStart? && ExecutionConstraints(db)
    ensures ClaimDecision(h, db, c, now) == Some(Refused(404, AttemptNotFound, None)) <==>
              !(&& c.attemptId in db.attempts && db.attempts[c.attemptId].service == c.machine.serviceId
                && db.attempts[c.attemptId].environment == c.machine.environment)
    ensures forall v :: ClaimDecision(h, db, c, now) == Some(Refused(409, ConcurrencyConflict, v)) <==>
              && c.attemptId in db.attempts && db.attempts[c.attemptId].service == c.machine.serviceId
              && db.attempts[c.attemptId].environment == c.machine.environment
              && db.attempts[c.attemptId].version != c.expectedVersion && v == Some(db.attempts[c.attemptId].version)
    ensures ClaimDecision(h, db, c, now) == Some(Refused(409, InvalidStateTransition, None)) <==>
              Targeted(db, c) && TooLate(h, db, db.attempts[c.attemptId], now)
  {
    hide GraphVerdict, CredentialVerdict, Opens, AloneInOperation, OwnedConsistently, OperationConstraints,
         AttemptConstraints, CredentialConstraints;
    if c.attemptId in db.attempts {
      var a := db.attempts[c.attemptId];
      AttemptRow(db.attempts, c.attemptId);
      if a.operationId in db.operations && a.requestId in db.requests {
        GraphExact(h, db, a);
        GraphRefuses(h, db, a);
      }
      CredentialsExact(db, a, c.machine, now);
    }
  }

  /** The graph checks on a Pending attempt, with the rows around it. */
  lemma GraphWhenPending(h: Hashing, a: Attempt, o: Operation, r: ServiceRequest, siblings: map<Uuid, Attempt>)
    requires a.state == AttemptState.Pending && AttemptStateFields(a)
    requires a.kind == AIInterpretation && o.kind == AIInterpretation
    requires a.id in siblings && siblings[a.id] == a
    ensures
      var v := GraphVerdict(h, a, o, r, siblings);
      var consistent :=
        && o.requestId == a.requestId && r.id == a.requestId
        && o.adapterName == a.adapterName && o.adapterVersion == a.adapterVersion && o.succeededAttemptId == None
        && NoActiveOther(a, siblings) && !SomeSucceeded(siblings);
      var asFrozen := r.status == TriagePending && o.inputHash == h.InputHash(r);
      && (v == None <==> consistent && asFrozen)
      && (v == Some(Refused(409, InvalidStateTransition, None)) <==> consistent && !asFrozen)
      && (v.Some? && v.value.Refused? ==> v.value.code in {InvalidStateTransition, LogicalOperationAlreadySucceeded})
  {
    hide NoActiveOther;
  }

  /** A row and the rows of its operation, as the table constraints leave them. */
  lemma AroundRow(db: Db, a: Attempt)
    requires OperationConstraints(db.operations) && AttemptConstraints(db.attempts)
    requires a.id in db.attempts && db.attempts[a.id] == a && a.operationId in db.operations
    ensures a.kind == AIInterpretation && AttemptStateFields(a) && db.operations[a.operationId].kind == AIInterpretation
    ensures
      var siblings := Siblings(db.attempts, a.operationId);
      a.id in siblings && siblings[a.id] == a
  {
    hide AllNotBlank;
    assert AttemptChecks(a) && OperationChecks(db.operations[a.operationId]);
  }

  lemma GraphRefuses(h: Hashing, db: Db, a: Attempt)
    requires ExecutionConstraints(db) && a.id in db.attempts && db.attempts[a.id] == a
    requires a.operationId in db.operations && a.requestId in db.requests
    ensures
      var o, r := db.operations[a.operationId], db.requests[a.requestId];
      var v := GraphVerdict(h, a, o, r, Siblings(db.attempts, a.operationId));
      && (v.Some? && v.value.Refused? ==> v.value.code in {InvalidStateTransition, LogicalOperationAlreadySucceeded})
      && (v == Some(Refused(409, InvalidStateTransition, None)) <==>
            || a.state != AttemptState.Pending
            || (AloneInOperation(db, a) && OwnedConsistently(db, a)
                && (r.status != TriagePending || o.inputHash != h.InputHash(r))))
  {
    AroundRow(db, a);
    hide OperationConstraints, AttemptConstraints, CredentialConstraints, AttemptStateFields, NoActiveOther,
         SomeSucceeded, AloneInOperation, Siblings;
    if a.state == AttemptState.Pending {
      SiblingsExact(db, a);
      hide GraphVerdict;
      GraphWhenPending(h, a, db.operations[a.operationId], db.requests[a.requestId],
                       Siblings(db.attempts, a.operationId));
    }
  }

  lemma AttemptRow(attempts: map<Uuid, Attempt>, id: Uuid)
    requires AttemptConstraints(attempts) && id in attempts
    ensures attempts[id].id == id && AttemptChecks(attempts[id])
  {
    hide AttemptChecks;
  }

  lemma NotOwned(db: Db, a: Attempt)
    ensures a.operationId !in db.operations || a.requestId !in db.requests ==> !OwnedConsistently(db, a)
  {
  }

  lemma GraphExact(h: Hashing, db: Db, a: Attempt)
    requires ExecutionConstraints(db) && a.id in db.attempts && db.attempts[a.id] == a
    requires a.operationId in db.operations && a.requestId in db.requests
    ensures
      var o, r := db.operations[a.operationId], db.requests[a.requestId];
      GraphVerdict(h, a, o, r, Siblings(db.attempts, a.operationId)) == None <==>
        && a.state == AttemptState.Pending && AloneInOperation(db, a) && OwnedConsistently(db, a)
        && r.status == TriagePending && o.inputHash == h.InputHash(r)
  {
    AroundRow(db, a);
    hide OperationConstraints, AttemptConstraints, CredentialConstraints, AttemptStateFields, NoActiveOther,
         SomeSucceeded, AloneInOperation, Siblings;
    if a.state == AttemptState.Pending {
      SiblingsExact(db, a);
      hide GraphVerdict;
      GraphWhenPending(h, a, db.operations[a.operationId], db.requests[a.requestId],
                       Siblings(db.attempts, a.operationId));
    }
  }

  lemma SiblingsExact(db: Db, a: Attempt)
    requires a.id in db.attempts && db.attempts[a.id] == a && a.state == AttemptState.Pending
    ensures
      var siblings := Siblings(db.attempts, a.operationId);
      NoActiveOther(a, siblings) && !SomeSucceeded(siblings) <==> AloneInOperation(db, a)
  {
    var siblings := Siblings(db.attempts, a.operationId);
    forall b | b in db.attempts && db.attempts[b].operationId == a.operationId
      ensures b in siblings && siblings[b] == db.attempts[b]
    {
    }
  }

  lemma CredentialsExact(db: Db, a: Attempt, machine: Machine, now: Time)
    requires CredentialConstraints(db.credentials)
    ensures
      var creds := CredentialsOf(db.credentials, a.id);
      var v := CredentialVerdict(a, machine, creds, now);
      a.service == machine.serviceId && a.environment == machine.environment ==>
        && (v == Granted <==> now < a.deadline && exists k :: Opens(a, creds, k))
        && (v == Refused(409, InvalidStateTransition, None) <==> a.deadline <= now && exists k :: Opens(a, creds, k))
        && (v.Refused? ==> v.code == InvalidStateTransition)
  {
    if a.service == machine.serviceId && a.environment == machine.environment {
      var creds := CredentialsOf(db.credentials, a.id);
      forall d | d in creds
        ensures creds[d].attemptId == a.id && creds[d].kind == AIInterpretation && CredentialChecks(creds[d])
      {
      }
      OpensExact(a, machine, creds, now);
    }
  }

  lemma OpensExact(a: Attempt, machine: Machine, creds: map<Uuid, Credential>, now: Time)
    requires forall d :: d in creds ==>
               creds[d].attemptId == a.id && creds[d].kind == AIInterpretation && CredentialChecks(creds[d])
    requires a.service == machine.serviceId && a.environment == machine.environment
    ensures CredentialVerdict(a, machine, creds, now) == Granted <==> now < a.deadline && exists k :: Opens(a, creds, k)
    ensures CredentialVerdict(a, machine, creds, now) == Refused(409, InvalidStateTransition, None) <==>
              a.deadline <= now && exists k :: Opens(a, creds, k)
    ensures CredentialVerdict(a, machine, creds, now).Refused? ==>
              CredentialVerdict(a, machine, creds, now).code == InvalidStateTransition
  {
    if exists k :: Opens(a, creds, k) {
      var k: Uuid :| Opens(a, creds, k);
      assert ActiveIds(creds) == {k};
      assert |ActiveIds(creds)| == 1 && TheActive(creds) == k;
    }
    if !CredentialVerdict(a, machine, creds, now).Broken? {
      var k := TheActive(creds);
      assert k in ActiveIds(creds);
      forall d | d in creds && d != k
        ensures LinkOk(creds, creds[d]) && ScopeOk(a, creds[d])
      {
        assert HistoricalRowOk(a, creds, creds[d]);
      }
      assert Opens(a, creds, k);
    }
  }

  /** Every table after a decision: at most the one attempt row and one record are written. */
  lemma TablesAfterBranch(v: Option<Verdict>, db: Db, c: Command, record: Record, now: Time, auditId: Uuid)
    requires c.ClaimStart? && (v == Some(Granted) ==> c.attemptId in db.attempts)
    requires forall a :: a in db.attempts ==> db.attempts[a].id == a
    ensures
      var after := Apply(db, ClaimBranch(v, db, c, record, now, auditId).1);
      && after.attempts ==
          (if v == Some(Granted) then db.attempts[c.attemptId := RunningAttempt(db.attempts[c.attemptId], now)]
                            else db.attempts)
      && after.operations == db.operations && after.requests == db.requests && after.credentials == db.credentials
  {
  }

  /** The tables after an execution: the one Pending row moved to Running, or nothing. */
  lemma TablesAfterClaim(h: Hashing, db: Db, c: Command, record: Record, now: Time, auditId: Uuid)
    requires c.ClaimStart? && AttemptConstraints(db.attempts)
    ensures
      var after := Apply(db, ClaimExecution(h, db, c, record, now, auditId).1);
      && (ClaimGranted(h, db, c, now) ==>
            && c.attemptId in db.attempts && db.attempts[c.attemptId].state == AttemptState.Pending
            && after.attempts == db.attempts[c.attemptId := RunningAttempt(db.attempts[c.attemptId], now)])
      && (!ClaimGranted(h, db, c, now) ==> after.attempts == db.attempts)
      && after.operations == db.operations && after.requests == db.requests && after.credentials == db.credentials
  {
    GrantedIsPending(h, db, c, now);
    TablesAfterBranch(ClaimDecision(h, db, c, now), db, c, record, now, auditId);
  }

  /** Taking the claim keeps every CHECK, unique and partial-unique constraint. */
  lemma ClaimKeepsConstraints(h: Hashing, db: Db, c: Command, record: Record, now: Time, auditId: Uuid)
    requires c.ClaimStart? && ExecutionConstraints(db)
    ensures ExecutionConstraints(Apply(db, ClaimExecution(h, db, c, record, now, auditId).1))
  {
    TablesAfterClaim(h, db, c, record, now, auditId);
    if ClaimGranted(h, db, c, now) {
      RunningKeepsConstraints(db.attempts, c.attemptId, now);
    }
  }

  lemma RunningKeepsConstraints(attempts: map<Uuid, Attempt>, id: Uuid, now: Time)
    requires AttemptConstraints(attempts) && id in attempts && attempts[id].state == AttemptState.Pending
    ensures AttemptConstraints(attempts[id := RunningAttempt(attempts[id], now)])
  {
    var after := attempts[id := RunningAttempt(attempts[id], now)];
    forall a, b | a in after && b in after && a != b
      ensures AttemptsCompatible(after[a], after[b])
    {
      assert AttemptsCompatible(attempts[a], attempts[b]);
    }
  }

  // ------------------------------------------------------------------ the service

  /** The loop over the credential rows: every row except the active one must be valid history. */
  method CheckHistory(a: Attempt, creds: map<Uuid, Credential>, active: Uuid) returns (ok: bool)
    ensures ok == HistoryOk(a, creds, active)
  {
    var todo := creds.Keys;
    while todo != {}
      invariant todo <= creds.Keys
      invariant forall c :: c in creds.Keys - todo && c != active ==> HistoricalRowOk(a, creds, creds[c])
      decreases |todo|
    {
      var id :| id in todo;
      todo := todo - {id};
      if id == active { continue; }
      var historical := creds[id];
      var validHistory := false;
      match historical.state {
        case Replaced =>
          validHistory :=
            && historical.consumedAt == None && historical.replacedAt != None && historical.revokedAt == None
            && historical.replacementId != None
            && historical.replacementId.value in creds
            && creds[historical.replacementId.value].version == historical.version + 1;
        case Revoked =>
          validHistory :=
            && historical.consumedAt == None && historical.replacedAt == None
            && historical.revokedAt != None && historical.replacementId == None;
        case Consumed =>
          validHistory :=
            && historical.consumedAt != None && historical.replacedAt == None
            && historical.revokedAt == None && historical.replacementId == None;
        case Active =>
      }
      if !validHistory || !ScopeOk(a, historical) {
        assert !HistoricalRowOk(a, creds, creds[id]);
        return false;
      }
    }
    ok := true;
  }

  method DecideCredentials(a: Attempt, machine: Machine, creds: map<Uuid, Credential>, now: Time) returns (v: Verdict)
    ensures v == CredentialVerdict(a, machine, creds, now)
  {
    var activeIds := ActiveIds(creds);
    if |activeIds| != 1 || !VersionsConsistent(creds) {
      return Broken("attempt callback credential metadata is inconsistent");
    }
    var active :| active in activeIds;
    assert active == TheActive(creds);
    if !IsCurrent(creds, active) { return Broken("active attempt callback credential is not current"); }
    var history := CheckHistory(a, creds, active);
    if !history { return Broken("attempt callback credential history is inconsistent"); }
    if !ActiveScopeOk(a, machine, creds[active]) { return Broken("attempt callback credential scope is inconsistent"); }
    if creds[active].expiresAt <= now { return Refused(409, InvalidStateTransition, None); }
    v := Granted;
  }

  /** The reads and guards, in the order the service makes them. */
  method Decide(s: Session, h: Hashing, c: Command) returns (v: Verdict)
    requires c.ClaimStart?
    ensures Some(v) == ClaimVerdict(h, c.machine, c.expectedVersion, s.now, ClaimRows(s.State(), c.attemptId))
    ensures v.Refused? ==> v.status == 404 || v.status == 409
  {
    hide GraphVerdict, CredentialVerdict;
    if c.attemptId !in s.attempts { return Refused(404, AttemptNotFound, None); }
    var attempt := s.attempts[c.attemptId];
    var target := TargetVerdict(attempt, c.machine, c.expectedVersion);
    if target.Some? { return target.value; }
    if attempt.operationId !in s.operations { return Broken("attempt has no logical operation"); }
    if attempt.requestId !in s.requests { return Broken("attempt has no owning service request"); }
    var operation := s.operations[attempt.operationId];
    var request := s.requests[attempt.requestId];
    var siblings := Siblings(s.attempts, attempt.operationId);
    var credentials := CredentialsOf(s.credentials, c.attemptId);
    var graph := GraphVerdict(h, attempt, operation, request, siblings);
    if graph.Some? { return graph.value; }
    v := DecideCredentials(attempt, c.machine, credentials, s.now);
  }

  /** The in-place transition, its audit event and outbox message, and the completed record. */
  method Transition(s: Session, c: Command, reservation: Reservation, ghost record: Record, auditId: Uuid)
    returns (reply: Reply)
    requires c.ClaimStart? && ReservationOpen(s, ScopeOf(c), record, reservation)
    requires c.attemptId in s.attempts
    requires s.attempts[c.attemptId].id == c.attemptId && s.attempts[c.attemptId].version == c.expectedVersion
    modifies s`records, s`attempts, s`audit, s`outbox
    ensures var a := old(s.attempts)[c.attemptId];
            && reply == ClaimReply(record, a, s.now)
            && s.State() ==
                Apply(old(s.State()), ClaimEffects(ScopeOf(c), record, a, c.machine, c.correlationId, s.now, auditId))
  {
    hide RecordChecks;
    var attempt := s.attempts[c.attemptId];
    attempt := attempt.(state := Running);
    attempt := attempt.(version := c.expectedVersion + 1);
    attempt := attempt.(startedAt := Some(s.now));
    s.attempts := s.attempts[attempt.id := attempt];
    s.audit := s.audit + [StartedEvent(attempt, c.machine, c.correlationId, reservation.commandId, auditId)];
    s.outbox := s.outbox + [StartedMessage(attempt, c.correlationId, reservation.commandId, auditId)];
    CompletedChecks(record, 200, StartedSnapshot(attempt, s.now), None, None, s.now);
    var done := Complete(s, reservation, 200, StartedSnapshot(attempt, s.now), None, None);
    reply := Answered(Outcome(200, done.result.commandId, done.result.snapshot, false, None));
  }

  /** One execution inside the caller's transaction: a completed guard, an internal failure that
      leaves every table alone, or the whole transition. */
  method ExecuteNew(s: Session, h: Hashing, c: Command, reservation: Reservation, ghost record: Record, auditId: Uuid)
    returns (reply: Reply)
    requires c.ClaimStart? && ReservationOpen(s, ScopeOf(c), record, reservation)
    requires forall a :: a in s.attempts ==> s.attempts[a].id == a
    modifies s`records, s`attempts, s`audit, s`outbox
    ensures reply == ClaimExecution(h, old(s.State()), c, record, s.now, auditId).0
    ensures s.State() == Apply(old(s.State()), ClaimExecution(h, old(s.State()), c, record, s.now, auditId).1)
  {
    hide ClaimVerdict, ClaimRows;
    GrantedIsPending(h, s.State(), c, s.now);
    var decision := Decide(s, h, c);
    if decision.Broken? { return Failed(RuntimeFailure); }
    if decision.Refused? {
      reply := CompleteGuard(s, ScopeOf(c), reservation, record, decision);
    } else {
      reply := Transition(s, c, reservation, record, auditId);
    }
  }
}
