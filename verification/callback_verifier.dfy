/** Transactional proof of callback authority over one Running attempt. */
module CallbackVerifier {
  import opened Model
  import opened Sessions
  import opened CredentialHistory
  import opened Commands
  import opened AttemptStart

  datatype Context = Context(
    machineIdentityId: Uuid, serviceId: string, environment: string, attemptId: Uuid, attemptVersion: int,
    operationId: Uuid, requestId: Uuid, credentialId: Uuid, credentialVersion: int, expiresAt: Time,
    transaction: Transaction)
  {
    /** assert_transaction_bound: the authority holds only inside the very transaction that
        established it, while that transaction is active. */
    predicate BoundTo(s: Session)
      reads s
    {
      s.transaction.Some? && s.transaction.value == transaction && transaction.active
    }
  }

  datatype Verification =
    | Verified(credentialId: Uuid)
    | Forbidden                        // 403 CALLBACK_FORBIDDEN
    | NotFound                         // 404 ATTEMPT_NOT_FOUND
    | Internal(reason: string)         // a RuntimeError

  predicate IntentMatches(a: Attempt, o: Operation) {
    && a.kind == AIInterpretation && o.kind == AIInterpretation
    && a.adapterName == o.adapterName && a.adapterVersion == o.adapterVersion
  }

  predicate NoContradictorySibling(a: Attempt, siblings: map<Uuid, Attempt>) {
    forall b :: b in siblings && b != a.id ==> !IsActive(siblings[b]) && siblings[b].state != Succeeded
  }

  /** _validate_graph: None when the graph is consistent. */
  function GraphFault(a: Attempt, o: Operation, r: ServiceRequest, siblings: map<Uuid, Attempt>): Option<string> {
    if !IntentMatches(a, o) then Some("attempt does not match frozen operation intent")
    else if o.requestId != r.id || o.requestId != a.requestId then Some("attempt ownership graph is inconsistent")
    else if a.id !in siblings || !NoContradictorySibling(a, siblings) || o.succeededAttemptId.Some? then
      Some("logical operation attempt graph is inconsistent")
    else None
  }

  predicate LifecycleOk(a: Attempt) {
    a.version > 0 && a.startedAt != None && a.completedAt == None && a.resultHash == None && a.errorCode == None
  }

  predicate HistoricalOk(a: Attempt, creds: map<Uuid, Credential>, c: Credential, now: Time) {
    && LinkOk(creds, c)
    && c.kind == AIInterpretation && c.service == a.service && c.environment == a.environment
    && c.expiresAt == a.deadline && c.issuedAt <= now
  }

  predicate HistoryValid(a: Attempt, creds: map<Uuid, Credential>, current: Uuid, now: Time) {
    forall c :: c in creds && c != current ==> HistoricalOk(a, creds, creds[c], now)
  }

  function Matches(creds: map<Uuid, Credential>, digest: Digest): set<Uuid> {
    set c | c in creds && creds[c].hash == digest
  }

  ghost function CredentialVerification(a: Attempt, machine: Machine, creds: map<Uuid, Credential>, digest: Digest,
                                        now: Time): Verification {
    if ActiveIds(creds) == {} then Forbidden
    else if |ActiveIds(creds)| != 1 then Internal("attempt has multiple active callback credentials")
    else if !VersionsConsistent(creds) then Internal("callback credential versions are inconsistent")
    else
      var current := TheActive(creds);
      if !IsCurrent(creds, current) then Internal("active callback credential is not current")
      else if !ActiveScopeOk(a, machine, creds[current]) then
        Internal("active callback credential scope is inconsistent")
      else if creds[current].issuedAt > now || creds[current].expiresAt <= now then Forbidden
      else if !HistoryValid(a, creds, current, now) then Internal("callback credential history is inconsistent")
      else if Matches(creds, digest) != {current} then Forbidden
      else Verified(current)
  }

  ghost function VerifyRows(rows: Rows, machine: Machine, digest: Digest, now: Time): Verification {
    match rows.attempt
    case Unread => NotFound
    case Absent => NotFound
    case Read(a) =>
      if a.service != machine.serviceId || a.environment != machine.environment then NotFound
      else if !rows.operation.Read? then Internal("attempt has no logical operation")
      else if !rows.request.Read? then Internal("attempt has no owning service request")
      else if !rows.siblings.Read? || !rows.credentials.Read? then Internal("attempt rows were not read")
      else
        var fault := GraphFault(a, rows.operation.row, rows.request.row, rows.siblings.row);
        if fault.Some? then Internal(fault.value)
        else if a.state != Running then Forbidden
        else if !LifecycleOk(a) then Internal("running attempt lifecycle fields are inconsistent")
        else CredentialVerification(a, machine, rows.credentials.row, digest, now)
  }

  // ------------------------------------------------------------------ the service

  /** Compare every loaded credential, without a hash predicate in the query. */
  method MatchingCallbackCredentials(creds: map<Uuid, Credential>, digest: Digest) returns (matches: set<Uuid>)
    ensures matches == Matches(creds, digest)
  {
    matches := {};
    var todo := creds.Keys;
    while todo != {}
      invariant todo <= creds.Keys
      invariant matches == set c | c in creds.Keys - todo && creds[c].hash == digest
      decreases |todo|
    {
      var c :| c in todo;
      if creds[c].hash == digest { matches := matches + {c}; }
      todo := todo - {c};
    }
  }

  method CheckHistory(a: Attempt, creds: map<Uuid, Credential>, current: Uuid, now: Time) returns (ok: bool)
    ensures ok == HistoryValid(a, creds, current, now)
  {
    var todo := creds.Keys;
    while todo != {}
      invariant todo <= creds.Keys
      invariant forall c :: c in creds.Keys - todo && c != current ==> HistoricalOk(a, creds, creds[c], now)
      decreases |todo|
    {
      var c :| c in todo;
      todo := todo - {c};
      if c != current && !HistoricalOk(a, creds, creds[c], now) { return false; }
    }
    ok := true;
  }

  method VerifyCredentials(a: Attempt, machine: Machine, creds: map<Uuid, Credential>, digest: Digest, now: Time)
    returns (v: Verification)
    ensures v == CredentialVerification(a, machine, creds, digest, now)
  {
    var active := ActiveIds(creds);
    if active == {} { return Forbidden; }
    if |active| != 1 { return Internal("attempt has multiple active callback credentials"); }
    if !VersionsConsistent(creds) { return Internal("callback credential versions are inconsistent"); }
    var current :| current in active;
    assert current == TheActive(creds);
    if !IsCurrent(creds, current) { return Internal("active callback credential is not current"); }
    if !ActiveScopeOk(a, machine, creds[current]) {
      return Internal("active callback credential scope is inconsistent");
    }
    if creds[current].issuedAt > now || creds[current].expiresAt <= now { return Forbidden; }
    var history := CheckHistory(a, creds, current, now);
    if !history { return Internal("callback credential history is inconsistent"); }
    var matches := MatchingCallbackCredentials(creds, digest);
    if matches != {current} { return Forbidden; }
    v := Verified(current);
  }

  /** A verified credential is a current row with the digest, and the other results name none. */
  lemma OnlyVerifiedMatches(a: Attempt, machine: Machine, creds: map<Uuid, Credential>, digest: Digest, now: Time)
    ensures
      var v := CredentialVerification(a, machine, creds, digest, now);
      v.Verified? ==>
        && v.credentialId in creds && creds[v.credentialId].hash == digest
        && creds[v.credentialId].issuedAt <= now < creds[v.credentialId].expiresAt
  {
    var v := CredentialVerification(a, machine, creds, digest, now);
    if v.Verified? { assert v.credentialId in Matches(creds, digest); }
  }

  /** Verify without changing a row; the context is bound to the caller's transaction. */
  method Verify(s: Session, attemptId: Uuid, machine: Machine, digest: Digest)
    returns (v: Verification, context: Option<Context>)
    ensures s.InOuterTransaction() ==> v == VerifyRows(ClaimRows(s.State(), attemptId), machine, digest, s.now)
    ensures !s.InOuterTransaction() ==> v.Internal?
    ensures s.transaction == None || !s.transaction.value.active || !s.transaction.value.explicitBegin ==> v.Internal?
    ensures v.Verified? <==> context.Some?
    ensures context.Some? ==>
              && context.value.BoundTo(s)
              && context.value.credentialId == v.credentialId && v.credentialId in s.credentials
              && s.credentials[v.credentialId].hash == digest
              && s.credentials[v.credentialId].issuedAt <= s.now < s.credentials[v.credentialId].expiresAt
              && context.value.expiresAt == s.credentials[v.credentialId].expiresAt
              && context.value.attemptId == attemptId && attemptId in s.attempts
              && s.attempts[attemptId].state == Running
              && context.value.attemptVersion == s.attempts[attemptId].version
              && context.value.operationId == s.attempts[attemptId].operationId
              && context.value.requestId == s.attempts[attemptId].requestId
              && context.value.credentialVersion == s.credentials[v.credentialId].version
              && Machine(context.value.machineIdentityId, context.value.serviceId, context.value.environment) == machine
  {
    hide GraphFault, CredentialVerification, LifecycleOk;
    if !s.InOuterTransaction() { return Internal("no caller-owned transaction"), None; }
    if attemptId !in s.attempts { return NotFound, None; }
    var a := s.attempts[attemptId];
    if a.service != machine.serviceId || a.environment != machine.environment { return NotFound, None; }
    if a.operationId !in s.operations { return Internal("attempt has no logical operation"), None; }
    if a.requestId !in s.requests { return Internal("attempt has no owning service request"), None; }
    var siblings := Siblings(s.attempts, a.operationId);
    var fault := GraphFault(a, s.operations[a.operationId], s.requests[a.requestId], siblings);
    if fault.Some? { return Internal(fault.value), None; }
    if a.state != Running { return Forbidden, None; }
    if !LifecycleOk(a) { return Internal("running attempt lifecycle fields are inconsistent"), None; }
    var creds := CredentialsOf(s.credentials, attemptId);
    v := VerifyCredentials(a, machine, creds, digest, s.now);
    context := None;
    OnlyVerifiedMatches(a, machine, creds, digest, s.now);
    if v.Verified? {
      var current := creds[v.credentialId];
      context := Some(Context(machine.identityId, machine.serviceId, machine.environment, attemptId, a.version,
                              a.operationId, a.requestId, v.credentialId, current.version, current.expiresAt,
                              s.transaction.value));
    }
  }

  /** Authority ends with its transaction: once the session is in no transaction, or in another one, or in
      this one no longer active, the context is bound to it no more. */
  twostate lemma AuthorityEnds(s: Session, context: Context)
    requires old(context.BoundTo(s)) && s.transaction != old(s.transaction)
    ensures !context.BoundTo(s)
  {
  }

  /** assert_transaction_bound */
  method AssertTransactionBound(s: Session, context: Context) returns (error: Option<Exception>)
    ensures error == if context.BoundTo(s) then None else Some(RuntimeFailure)
    ensures error == None <==> s.transaction == Some(context.transaction) && context.transaction.active
  {
    if s.transaction == None || s.transaction.value != context.transaction || !context.transaction.active {
      return Some(RuntimeFailure);
    }
    error := None;
  }

  // ------------------------------------------------------------------ claim/start enables the verifier

  /** A granted claim accepted the whole credential history of the attempt. */
  lemma GrantedHistory(h: Hashing, db: Db, c: Command, now: Time)
    requires c.ClaimStart?
    requires ClaimGranted(h, db, c, now)
    ensures c.attemptId in db.attempts && db.attempts[c.attemptId].state == AttemptState.Pending
    ensures
      var creds := CredentialsOf(db.credentials, c.attemptId);
      && |ActiveIds(creds)| == 1 && AcceptedHistory(creds, TheActive(creds))
      && creds[TheActive(creds)].expiresAt > now
  {
    hide CredentialVerdict, AcceptedHistory;
    GrantedCredentials(h, db, c, now);
    AcceptedCredentials(db.attempts[c.attemptId], c.machine, CredentialsOf(db.credentials, c.attemptId), now);
  }

  lemma GrantedCredentials(h: Hashing, db: Db, c: Command, now: Time)
    requires c.ClaimStart? && ClaimGranted(h, db, c, now)
    ensures c.attemptId in db.attempts && db.attempts[c.attemptId].state == AttemptState.Pending
    ensures CredentialVerdict(db.attempts[c.attemptId], c.machine, CredentialsOf(db.credentials, c.attemptId), now) ==
              Granted
  {
    hide CredentialVerdict;
  }

  lemma AcceptedCredentials(a: Attempt, machine: Machine, creds: map<Uuid, Credential>, now: Time)
    requires CredentialVerdict(a, machine, creds, now) == Granted
    ensures |ActiveIds(creds)| == 1 && AcceptedHistory(creds, TheActive(creds))
    ensures creds[TheActive(creds)].expiresAt > now
  {
    forall d | d in creds && d != TheActive(creds)
      ensures LinkOk(creds, creds[d])
    {
      assert HistoricalRowOk(a, creds, creds[d]);
    }
  }

  /** After a granted claim on any database that satisfies the table constraints, with any
      credential history, a verification by the same machine of the same rows at any time not
      before an issue time is decided by the supplied digest and the clock alone: it succeeds
      exactly when the digest is the Active credential's and the deadline has not passed, and is
      forbidden otherwise.  It is never an internal error. */
  lemma ClaimEnablesVerification(h: Hashing, db: Db, c: Command, record: Record, now: Time, auditId: Uuid,
                                 later: Db, digest: Digest, at: Time)
    requires c.ClaimStart? && ExecutionConstraints(db)
    requires ClaimGranted(h, db, c, now)
    requires var after := Apply(db, ClaimExecution(h, db, c, record, now, auditId).1);
             ClaimRows(later, c.attemptId) == ClaimRows(after, c.attemptId)
    requires forall d :: d in db.credentials && db.credentials[d].attemptId == c.attemptId ==>
               db.credentials[d].issuedAt <= at
    ensures
      var creds := CredentialsOf(db.credentials, c.attemptId);
      |ActiveIds(creds)| == 1 &&
      var active := creds[TheActive(creds)];
      VerifyRows(ClaimRows(later, c.attemptId), c.machine, digest, at) ==
        if digest == active.hash && at < active.expiresAt then Verified(TheActive(creds)) else Forbidden
  {
    var creds := CredentialsOf(db.credentials, c.attemptId);
    var a := db.attempts[c.attemptId];
    GrantedHistory(h, db, c, now);
    RowsAfterClaim(h, db, c, record, now, auditId);
    OneMatch(db, creds, TheActive(creds), digest);
    VerifyClaimedRows(h, c.machine, c.expectedVersion, now, ClaimRows(db, c.attemptId), digest, at);
  }

  lemma VerifyClaimedRows(h: Hashing, machine: Machine, expectedVersion: int, now: Time, rows: Rows, digest: Digest,
                          at: Time)
    requires ClaimVerdict(h, machine, expectedVersion, now, rows) == Some(Granted)
    requires rows.credentials.Read? && |ActiveIds(rows.credentials.row)| == 1
    requires var creds := rows.credentials.row;
             && (forall d :: d in creds ==> creds[d].issuedAt <= at)
             && (Matches(creds, digest) == {TheActive(creds)} <==> digest == creds[TheActive(creds)].hash)
    requires rows.attempt.Read? && rows.siblings.Read? && rows.attempt.row.version > 0
    ensures
      var a := rows.attempt.row;
      var b := RunningAttempt(a, now);
      var creds := rows.credentials.row;
      VerifyRows(rows.(attempt := Read(b), siblings := Read(rows.siblings.row[a.id := b])), machine, digest, at) ==
        if digest == creds[TheActive(creds)].hash && at < creds[TheActive(creds)].expiresAt
          then Verified(TheActive(creds)) else Forbidden
  {
    hide GraphVerdict, CredentialVerdict, GraphFault, CredentialVerification, LifecycleOk, Matches;
    var a := rows.attempt.row;
    GraphAfterClaim(h, a, RunningAttempt(a, now), now, rows.operation.row, rows.request.row, rows.siblings.row);
    CredentialsAfterClaim(a, RunningAttempt(a, now), machine, rows.credentials.row, now, digest, at);
  }

  /** What the verifier reads after the claim: only the attempt row changed. */
  lemma RowsAfterClaim(h: Hashing, db: Db, c: Command, record: Record, now: Time, auditId: Uuid)
    requires c.ClaimStart? && AttemptConstraints(db.attempts)
    requires ClaimGranted(h, db, c, now)
    ensures
      var after := Apply(db, ClaimExecution(h, db, c, record, now, auditId).1);
      c.attemptId in db.attempts &&
      var a := db.attempts[c.attemptId];
      var b := RunningAttempt(a, now);
      ClaimRows(after, c.attemptId) ==
           ClaimRows(db, c.attemptId).(attempt := Read(b),
                                       siblings := Read(Siblings(db.attempts, a.operationId)[a.id := b]))
  {
    TablesAfterClaim(h, db, c, record, now, auditId);
    ReadAfterUpdate(db, Apply(db, ClaimExecution(h, db, c, record, now, auditId).1), c.attemptId, now);
  }

  lemma ReadAfterUpdate(db: Db, after: Db, id: Uuid, now: Time)
    requires AttemptConstraints(db.attempts) && id in db.attempts
    requires after.attempts == db.attempts[id := RunningAttempt(db.attempts[id], now)]
    requires after.operations == db.operations && after.requests == db.requests && after.credentials == db.credentials
    ensures
      var a := db.attempts[id];
      var b := RunningAttempt(a, now);
      ClaimRows(after, id) ==
        ClaimRows(db, id).(attempt := Read(b), siblings := Read(Siblings(db.attempts, a.operationId)[a.id := b]))
  {
    var a := db.attempts[id];
    assert Siblings(after.attempts, a.operationId) ==
             Siblings(db.attempts, a.operationId)[a.id := RunningAttempt(a, now)];
  }

  /** The credential checks of claim/start leave the verifier only the clock and the digest. */
  lemma CredentialsAfterClaim(a: Attempt, b: Attempt, machine: Machine, creds: map<Uuid, Credential>, now: Time,
                              digest: Digest, at: Time)
    requires CredentialVerdict(a, machine, creds, now) == Granted && b == RunningAttempt(a, now)
    requires forall d :: d in creds ==> creds[d].issuedAt <= at
    requires Matches(creds, digest) == {TheActive(creds)} <==> digest == creds[TheActive(creds)].hash
    ensures CredentialVerification(b, machine, creds, digest, at) ==
              if digest == creds[TheActive(creds)].hash && at < creds[TheActive(creds)].expiresAt
                then Verified(TheActive(creds)) else Forbidden
  {
    var active := TheActive(creds);
    forall d | d in creds && d != active
      ensures HistoricalOk(b, creds, creds[d], at)
    {
      assert HistoricalRowOk(a, creds, creds[d]);
    }
    assert HistoryValid(b, creds, active, at);
  }

  lemma GraphAfterClaim(h: Hashing, a: Attempt, b: Attempt, now: Time, o: Operation, r: ServiceRequest,
                        siblings: map<Uuid, Attempt>)
    requires GraphVerdict(h, a, o, r, siblings) == None
    requires b == RunningAttempt(a, now) && a.version > 0
    ensures GraphFault(b, o, r, siblings[a.id := b]) == None && LifecycleOk(b)
  {
  }

  /** Credential hashes are unique, so at most one row matches a digest. */
  lemma OneMatch(db: Db, creds: map<Uuid, Credential>, active: Uuid, digest: Digest)
    requires ExecutionConstraints(db)
    requires forall c :: c in creds ==> c in db.credentials && creds[c] == db.credentials[c]
    requires active in creds
    ensures Matches(creds, digest) == {active} <==> digest == creds[active].hash
  {
    assert active in Matches(creds, digest) <==> digest == creds[active].hash;
    if digest == creds[active].hash {
      forall d | d in Matches(creds, digest) ensures d == active {}
      assert Matches(creds, digest) == {active};
    }
  }

  // ------------------------------------------------------------------ when a verification succeeds

  /** What verification needs: the caller's attempt, Running with its lifecycle fields in order, alone in its operation
      and owned consistently; and a credential that opens it, is the one with the digest, and was issued, like
      all the others, by now, which is before its deadline. */
  ghost predicate Verifiable(db: Db, attemptId: Uuid, machine: Machine, digest: Digest, now: Time, k: Uuid) {
    attemptId in db.attempts &&
    var a, creds := db.attempts[attemptId], CredentialsOf(db.credentials, attemptId);
    && a.service == machine.serviceId && a.environment == machine.environment && a.state == Running
    && AloneInOperation(db, a) && OwnedConsistently(db, a)
    && Opens(a, creds, k) && creds[k].hash == digest && now < a.deadline
    && forall d :: d in creds ==> creds[d].issuedAt <= now
  }

  /** On every database that meets the table constraints, with any siblings and any credential history, the
      verifier succeeds with a credential exactly when that holds. */
  lemma VerifiedExact(db: Db, attemptId: Uuid, machine: Machine, digest: Digest, now: Time, k: Uuid)
    requires ExecutionConstraints(db)
    ensures VerifyRows(ClaimRows(db, attemptId), machine, digest, now) == Verified(k) <==>
              Verifiable(db, attemptId, machine, digest, now, k)
  {
    hide GraphFault, CredentialVerification, LifecycleOk, Opens, AloneInOperation, OwnedConsistently,
         OperationConstraints, AttemptConstraints, CredentialConstraints;
    if attemptId in db.attempts {
      var a := db.attempts[attemptId];
      AttemptRow(db.attempts, attemptId);
      if a.state == Running { RunningLifecycle(a); }
      if a.operationId in db.operations && a.requestId in db.requests && a.state == Running { FaultExact(db, a); }
      else { NotOwned(db, a); }
      CredentialExact(db, a, machine, digest, now, k);
    }
  }

  lemma RunningLifecycle(a: Attempt)
    requires AttemptChecks(a) && a.state == Running
    ensures LifecycleOk(a)
  {
  }

  lemma FaultExact(db: Db, a: Attempt)
    requires ExecutionConstraints(db) && a.id in db.attempts && db.attempts[a.id] == a
    requires a.operationId in db.operations && a.requestId in db.requests
    ensures
      var siblings := Siblings(db.attempts, a.operationId);
      GraphFault(a, db.operations[a.operationId], db.requests[a.requestId], siblings) == None <==>
        AloneInOperation(db, a) && OwnedConsistently(db, a)
  {
    hide CredentialConstraints, NotBlank;
    var siblings := Siblings(db.attempts, a.operationId);
    assert a.id in siblings && siblings[a.id] == a;
    assert db.operations[a.operationId].kind == AIInterpretation && AttemptChecks(a);
    forall b | b in db.attempts && db.attempts[b].operationId == a.operationId
      ensures b in siblings && siblings[b] == db.attempts[b]
    {
    }
  }

  lemma CredentialExact(db: Db, a: Attempt, machine: Machine, digest: Digest, now: Time, k: Uuid)
    requires ExecutionConstraints(db)
    ensures
      var creds := CredentialsOf(db.credentials, a.id);
      a.service == machine.serviceId && a.environment == machine.environment ==>
        (CredentialVerification(a, machine, creds, digest, now) == Verified(k) <==>
           && Opens(a, creds, k) && creds[k].hash == digest && now < a.deadline
           && forall d :: d in creds ==> creds[d].issuedAt <= now)
  {
    if a.service == machine.serviceId && a.environment == machine.environment {
      var creds := CredentialsOf(db.credentials, a.id);
      forall d | d in creds
        ensures creds[d].attemptId == a.id && creds[d].kind == AIInterpretation && CredentialChecks(creds[d])
      {
      }
      if k in creds { OneMatch(db, creds, k, digest); }
      hide ExecutionConstraints;
      AdmittedExact(a, machine, creds, digest, now, k);
    }
  }

  lemma AdmittedExact(a: Attempt, machine: Machine, creds: map<Uuid, Credential>, digest: Digest, now: Time, k: Uuid)
    requires forall d :: d in creds ==>
               creds[d].attemptId == a.id && creds[d].kind == AIInterpretation && CredentialChecks(creds[d])
    requires a.service == machine.serviceId && a.environment == machine.environment
    requires k in creds ==> (Matches(creds, digest) == {k} <==> digest == creds[k].hash)
    ensures CredentialVerification(a, machine, creds, digest, now) == Verified(k) <==>
              && Opens(a, creds, k) && creds[k].hash == digest && now < a.deadline
              && forall d :: d in creds ==> creds[d].issuedAt <= now
  {
    hide Matches;
    if Opens(a, creds, k) {
      assert |ActiveIds(creds)| == 1 && TheActive(creds) == k;
      assert creds[k].state == Active;
    }
    if CredentialVerification(a, machine, creds, digest, now) == Verified(k) {
      assert k in ActiveIds(creds);
      forall d | d in creds && d != k ensures LinkOk(creds, creds[d]) { assert HistoricalOk(a, creds, creds[d], now); }
    }
  }

  predicate BelongsTo(db: Db, attemptId: Uuid, machine: Machine) {
    && attemptId in db.attempts
    && db.attempts[attemptId].service == machine.serviceId && db.attempts[attemptId].environment == machine.environment
  }

  /** The Active credential is the newest one, for the attempt's service and environment until its deadline. */
  predicate Newest(a: Attempt, creds: map<Uuid, Credential>, k: Uuid) {
    && k in creds && creds[k].state == Active && IsCurrent(creds, k)
    && creds[k].service == a.service && creds[k].environment == a.environment && creds[k].expiresAt == a.deadline
  }

  /** Why a caller is forbidden although nothing is out of order: the attempt is not Running, it has no Active
      credential, the newest is outside its time, or its history is in order and the digest is another one. */
  ghost predicate Forbids(db: Db, attemptId: Uuid, machine: Machine, digest: Digest, now: Time) {
    BelongsTo(db, attemptId, machine) &&
    var a, creds := db.attempts[attemptId], CredentialsOf(db.credentials, attemptId);
    && AloneInOperation(db, a) && OwnedConsistently(db, a)
    && (|| a.state != Running
        || (forall k :: k in creds ==> creds[k].state != Active)
        || (exists k :: Newest(a, creds, k) && !(creds[k].issuedAt <= now < a.deadline))
        || (exists k :: Opens(a, creds, k) && creds[k].hash != digest && now < a.deadline
                        && forall d :: d in creds ==> creds[d].issuedAt <= now))
  }

  /** On every database that meets the table constraints the verifier answers 404 exactly when the attempt is not
      the caller's, and 403 exactly for the reasons above; with `VerifiedExact`, what remains is an internal error. */
  lemma RefusedExact(db: Db, attemptId: Uuid, machine: Machine, digest: Digest, now: Time)
    requires ExecutionConstraints(db)
    ensures VerifyRows(ClaimRows(db, attemptId), machine, digest, now) == NotFound <==>
              !BelongsTo(db, attemptId, machine)
    ensures VerifyRows(ClaimRows(db, attemptId), machine, digest, now) == Forbidden <==>
              Forbids(db, attemptId, machine, digest, now)
  {
    hide GraphFault, CredentialVerification, LifecycleOk, Opens, Newest, AloneInOperation, OwnedConsistently,
         OperationConstraints, AttemptConstraints, CredentialConstraints;
    if BelongsTo(db, attemptId, machine) {
      var a := db.attempts[attemptId];
      AttemptRow(db.attempts, attemptId);
      NotOwned(db, a);
      if a.operationId in db.operations && a.requestId in db.requests { FaultExact(db, a); }
      if a.state == Running { RunningLifecycle(a); }
      ForbiddenExact(db, a, machine, digest, now);
    }
  }

  lemma ForbiddenExact(db: Db, a: Attempt, machine: Machine, digest: Digest, now: Time)
    requires ExecutionConstraints(db) && a.service == machine.serviceId && a.environment == machine.environment
    ensures
      var creds := CredentialsOf(db.credentials, a.id);
      && CredentialVerification(a, machine, creds, digest, now) != NotFound
      && (CredentialVerification(a, machine, creds, digest, now) == Forbidden <==>
            || (forall k :: k in creds ==> creds[k].state != Active)
            || (exists k :: Newest(a, creds, k) && !(creds[k].issuedAt <= now < a.deadline))
            || (exists k :: Opens(a, creds, k) && creds[k].hash != digest && now < a.deadline
                            && forall d :: d in creds ==> creds[d].issuedAt <= now))
  {
    var creds := CredentialsOf(db.credentials, a.id);
    forall d | d in creds
      ensures creds[d].attemptId == a.id && creds[d].kind == AIInterpretation && CredentialChecks(creds[d])
    {
    }
    forall k | k in creds && creds[k].state == Active ensures ActiveIds(creds) == {k} { OnlyActive(db, a.id, k); }
    forall c, d | c in creds && d in creds && c != d ensures creds[c].version != creds[d].version {
      assert CredentialsCompatible(db.credentials[c], db.credentials[d]);
    }
    if k: Uuid :| k in creds && creds[k].state == Active {
      OneMatch(db, creds, k, digest);
      hide ExecutionConstraints;
      ForbiddenWith(a, machine, creds, digest, now, k);
    }
  }

  lemma OnlyActive(db: Db, id: Uuid, k: Uuid)
    requires CredentialConstraints(db.credentials)
    requires var creds := CredentialsOf(db.credentials, id); k in creds && creds[k].state == Active
    ensures ActiveIds(CredentialsOf(db.credentials, id)) == {k}
  {
    var creds := CredentialsOf(db.credentials, id);
    forall c | c in ActiveIds(creds) ensures c == k {
      assert c == k || CredentialsCompatible(db.credentials[c], db.credentials[k]);
    }
  }

  lemma ForbiddenWith(a: Attempt, machine: Machine, creds: map<Uuid, Credential>, digest: Digest, now: Time, k: Uuid)
    requires forall d :: d in creds ==>
               creds[d].attemptId == a.id && creds[d].kind == AIInterpretation && CredentialChecks(creds[d])
    requires forall c, d :: c in creds && d in creds && c != d ==> creds[c].version != creds[d].version
    requires k in creds && creds[k].state == Active && ActiveIds(creds) == {k}
    requires Matches(creds, digest) == {k} <==> digest == creds[k].hash
    requires a.service == machine.serviceId && a.environment == machine.environment
    ensures CredentialVerification(a, machine, creds, digest, now) != NotFound
    ensures CredentialVerification(a, machine, creds, digest, now) == Forbidden <==>
              || (Newest(a, creds, k) && !(creds[k].issuedAt <= now < a.deadline))
              || (Opens(a, creds, k) && creds[k].hash != digest && now < a.deadline
                  && forall d :: d in creds ==> creds[d].issuedAt <= now)
    ensures forall c :: Newest(a, creds, c) || Opens(a, creds, c) ==> c == k
  {
    hide Matches;
    assert TheActive(creds) == k;
    assert VersionsConsistent(creds);
    forall c | Newest(a, creds, c) || Opens(a, creds, c) ensures c == k { assert c in ActiveIds(creds); }
    if HistoryValid(a, creds, k, now) {
      forall d | d in creds && d != k ensures LinkOk(creds, creds[d]) { assert HistoricalOk(a, creds, creds[d], now); }
    }
  }

  // ------------------------------------------------------------------ a replaced credential

  lemma Named(s: string)
    requires s != "" && s[0] != ' '
    ensures NotBlank(s)
  {
  }

  lemma ReplacedHistory(a: Attempt, machine: Machine) returns (creds: map<Uuid, Credential>)
    requires AllNotBlank([a.service, a.environment]) && a.service == machine.serviceId
             && a.environment == machine.environment
    requires a.deadline == 100
    ensures CredentialConstraints(creds) && CredentialVerdict(a, machine, creds, 50) == Granted
    ensures |creds| == 2 && forall c :: c in creds ==> creds[c].attemptId == a.id
  {
    hide NotBlank;
    var first := Credential(10, a.id, AIInterpretation, a.service, a.environment, 1, "one", Replaced, 0, 100, None,
                            Some(5), None, Some(11));
    var second := Credential(11, a.id, AIInterpretation, a.service, a.environment, 2, "two", Active, 5, 100, None,
                             None, None, None);
    creds := map[10 := first, 11 := second];
    assert "one"[0] != "two"[0];
    assert ActiveIds(creds) == {11};
    assert TheActive(creds) == 11;
  }

  lemma PendingGraph(h: Hashing) returns (r: ServiceRequest, o: Operation, a: Attempt)
    ensures (r.id, o.id, a.id, a.operationId, a.requestId, a.version, a.deadline) == (3, 2, 1, 2, 3, 1, 100)
    ensures (a.service, a.environment) == ("n8n", "prod") && AllNotBlank([a.service, a.environment])
    ensures OperationConstraints(map[o.id := o]) && AttemptConstraints(map[a.id := a])
    ensures GraphVerdict(h, a, o, r, map[a.id := a]) == None
  {
    hide NotBlank;
    r := ServiceRequest(3, 4, 5, "leak", None, None, TriagePending, 1);
    o := Operation(2, 3, AIInterpretation, h.InputHash(r), "configuration", "p", "s", "v", "m", "a", "1", 1, None);
    a := Attempt(1, 2, 3, AIInterpretation, 1, AttemptState.Pending, 1, "a", "1", "n8n", "prod", 100, 0, None, None,
                 None, None);
    Named("p"); Named("s"); Named("v"); Named("m"); Named("a"); Named("1"); Named("n8n"); Named("prod");
  }

  /** The conditions of `ClaimEnablesVerification` can be met by more than the histories the services
      write themselves: here the first credential was replaced by the second. */
  lemma ClaimWithReplacedCredential(h: Hashing) returns (db: Db, c: Command, now: Time)
    ensures c.ClaimStart? && ExecutionConstraints(db) && ClaimGranted(h, db, c, now)
    ensures |CredentialsOf(db.credentials, c.attemptId)| == 2
  {
    hide OperationConstraints, AttemptConstraints, CredentialConstraints, GraphVerdict, CredentialVerdict, AllNotBlank;
    var r, o, a := PendingGraph(h);
    c, now := ClaimStart(1, 1, "key", "body", 9, Machine(8, "n8n", "prod")), 50;
    var creds := ReplacedHistory(a, c.machine);
    db := EMPTY_DB.(requests := map[3 := r], operations := map[2 := o], attempts := map[1 := a], credentials := creds);
    assert CredentialsOf(creds, 1) == creds && Siblings(db.attempts, 2) == map[1 := a];
  }
}
