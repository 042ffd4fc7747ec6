/** What the two WorkflowService commands share: their inputs, the rows they read under lock, the
    verdict on those rows, and the completed records they leave. */
module Commands {
  import opened Model
  import opened Sessions
  import opened CommandIdempotency

  datatype Command =
    | StartAi(requestId: Uuid, expectedVersion: int, keyDigest: Digest, bodyHash: Digest,
              correlationId: Uuid, machine: Machine, settings: Settings)
    | ClaimStart(attemptId: Uuid, expectedVersion: int, keyDigest: Digest, bodyHash: Digest,
                 correlationId: Uuid, machine: Machine)

  const START_AI_ROUTE := "/api/v1/service-requests/{request_id}/commands/start-ai-interpretation"
  const CLAIM_START_ROUTE := "/api/v1/integration-attempts/{attempt_id}/commands/start"

  function ScopeOf(c: Command): ScopeKey {
    match c
    case StartAi(requestId, _, digest, _, _, m, _) =>
      ScopeKey(MachineService, m.identityId, StartAiInterpretation, START_AI_ROUTE, "ServiceRequest", requestId, digest)
    case ClaimStart(attemptId, _, digest, _, _, m) =>
      ScopeKey(MachineService, m.identityId, StartIntegrationAttempt, CLAIM_START_ROUTE, "IntegrationAttempt",
               attemptId, digest)
  }

  /** The same actor sends the same command for the same target under the same idempotency key. */
  predicate SameCall(c: Command, d: Command) {
    match c
    case StartAi(request, _, key, _, _, machine, _) =>
      d.StartAi? && d.requestId == request && d.keyDigest == key && d.machine.identityId == machine.identityId
    case ClaimStart(attempt, _, key, _, _, machine) =>
      d.ClaimStart? && d.attemptId == attempt && d.keyDigest == key && d.machine.identityId == machine.identityId
  }

  /** Two commands meet the same record exactly when they agree on kind, actor, target and key; versions,
      bodies, correlations, settings and the rest of the machine play no part. */
  lemma ScopeExact(c: Command, d: Command)
    ensures ScopeOf(c) == ScopeOf(d) <==> SameCall(c, d)
  {
    assert |"ServiceRequest"| != |"IntegrationAttempt"|;
  }

  /** The random identifiers one execution may draw. */
  datatype Ids = Ids(recordId: Uuid, commandId: Uuid, operationId: Uuid, attemptId: Uuid, credentialId: Uuid,
                     requestAuditId: Uuid, attemptAuditId: Uuid)

  datatype Outcome = Outcome(httpStatus: int, commandId: Uuid, snapshot: Snapshot, isReplay: bool,
                             plaintext: Option<string>)

  datatype Reply = Answered(outcome: Outcome) | Failed(error: Exception)

  /** The decision of a command on the rows it has read. */
  datatype Verdict =
    | Refused(status: int, code: ErrorCode, currentVersion: Option<int>)  // a completed guard
    | Broken(reason: string)                                              // a RuntimeError
    | Granted

  /** The rows a command has read so far, each under its row lock. */
  datatype Rows = Rows(
    attempt: Seen<Attempt>, operation: Seen<Operation>, request: Seen<ServiceRequest>,
    siblings: Seen<map<Uuid, Attempt>>, credentials: Seen<map<Uuid, Credential>>)

  const NOTHING_READ := Rows(Unread, Unread, Unread, Unread, Unread)

  /** Every row read so far agrees with `full`. */
  predicate Agrees(rows: Rows, full: Rows) {
    && (rows.attempt.Unread? || rows.attempt == full.attempt)
    && (rows.operation.Unread? || rows.operation == full.operation)
    && (rows.request.Unread? || rows.request == full.request)
    && (rows.siblings.Unread? || rows.siblings == full.siblings)
    && (rows.credentials.Unread? || rows.credentials == full.credentials)
  }

  predicate SomeSucceeded(siblings: map<Uuid, Attempt>) {
    exists b :: b in siblings && siblings[b].state == Succeeded
  }

  predicate SomeActive(siblings: map<Uuid, Attempt>) {
    exists b :: b in siblings && IsActive(siblings[b])
  }

  predicate SuccessReferenceOk(o: Operation, siblings: map<Uuid, Attempt>) {
    o.succeededAttemptId.Some? ==>
      o.succeededAttemptId.value in siblings && siblings[o.succeededAttemptId.value].state == Succeeded
  }

  function GuardSnapshot(v: Verdict): Snapshot
    requires v.Refused?
  {
    ErrorSnapshot(v.code, v.currentVersion)
  }

  function GuardEffects(scope: ScopeKey, record: Record, v: Verdict, now: Time): Effects
    requires v.Refused?
  {
    GuardCompleted(scope, CompletedRecord(record, v.status, GuardSnapshot(v), None, None, now))
  }

  function GuardReply(record: Record, v: Verdict): Reply
    requires v.Refused?
  {
    Answered(Outcome(v.status, record.commandId, GuardSnapshot(v), false, None))
  }

  /** Both commands answer a replay with the stored status, command id and snapshot. */
  function ReplayReply(result: CommandResult): Reply {
    Answered(Outcome(result.httpStatus, result.commandId, result.snapshot, true, None))
  }

  /** The reservation `reservation` made by this session's transaction still awaits completion. */
  ghost predicate ReservationOpen(s: Session, scope: ScopeKey, record: Record, reservation: Reservation)
    reads s
  {
    && s.InOuterTransaction()
    && scope in s.records && s.records[scope] == record
    && record == ProcessingRecord(record.id, record.commandId, record.correlationId, record.bodyHash, s.now)
    && reservation == Reservation(record.id, scope, record.commandId, record.correlationId, s.transaction.value)
  }

  /** Complete a reservation with a domain guard. */
  method CompleteGuard(s: Session, scope: ScopeKey, reservation: Reservation, ghost record: Record, v: Verdict)
    returns (reply: Reply)
    requires ReservationOpen(s, scope, record, reservation)
    requires v.Refused? && 200 <= v.status <= 599
    modifies s`records
    ensures s.State() == Apply(old(s.State()), GuardEffects(scope, record, v, s.now))
    ensures reply == GuardReply(record, v)
  {
    hide RecordChecks;
    CompletedChecks(record, v.status, GuardSnapshot(v), None, None, s.now);
    var done := Complete(s, reservation, v.status, GuardSnapshot(v), None, None);
    reply := Answered(Outcome(v.status, done.result.commandId, done.result.snapshot, false, None));
  }
}
