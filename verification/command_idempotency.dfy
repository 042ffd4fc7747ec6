/** Reservation, classification and completion of one command key. */
module CommandIdempotency {
  import opened Model
  import opened Sessions

  datatype CommandResult = CommandResult(
    recordId: Uuid, commandId: Uuid, correlationId: Uuid, httpStatus: int, snapshot: Snapshot,
    completedAt: Time, delivery: Option<SecretDelivery>, authorization: Option<CallbackAuthorization>,
    alreadyIssued: bool)

  datatype Reservation = Reservation(recordId: Uuid, scope: ScopeKey, commandId: Uuid,
                                     correlationId: Uuid, transaction: Transaction)

  datatype Resolution =
    | Reserved(reservation: Reservation)
    | Replay(result: CommandResult)
    | Raised(error: Exception)

  /** The CHECK constraints of command_idempotency_records on status and its fields. */
  predicate RecordChecks(r: Record) {
    match r.status
    case Processing =>
      && r.httpStatus == None && r.snapshot == None && r.completedAt == None
      && r.delivery == None && r.authorization == None
    case Completed =>
      && r.httpStatus.Some? && 200 <= r.httpStatus.value <= 599
      && r.snapshot.Some?
      && r.completedAt.Some? && r.completedAt.value >= r.createdAt
  }

  predicate IsSha256Hex(s: string) {
    |s| == 64 && forall i :: 0 <= i < |s| ==> '0' <= s[i] <= '9' || 'a' <= s[i] <= 'f'
  }

  /** What a body hash looks like: 64 digits, in lower case. */
  lemma Sha256HexExact(s: string)
    ensures IsSha256Hex(s) <==>
              |s| == 64 && forall c :: c in s ==> '0' <= c <= '9' || c in {'a', 'b', 'c', 'd', 'e', 'f'}
  {
    if forall c :: c in s ==> '0' <= c <= '9' || c in {'a', 'b', 'c', 'd', 'e', 'f'} {
      forall i | 0 <= i < |s| ensures '0' <= s[i] <= '9' || 'a' <= s[i] <= 'f' { assert s[i] in s; }
    }
  }

  function ResultOf(r: Record, isReplay: bool): CommandResult
    requires r.httpStatus.Some? && r.snapshot.Some? && r.completedAt.Some?
  {
    CommandResult(r.id, r.commandId, r.correlationId, r.httpStatus.value, r.snapshot.value,
                  r.completedAt.value, r.delivery, r.authorization, isReplay && r.delivery.Some?)
  }

  /** A different body conflicts; an unfinished record is an internal error; a completed record whose
      result fields are missing fails the result model's validation. */
  function Classify(r: Record, bodyHash: Digest): (resolution: Resolution)
    ensures !resolution.Reserved?
  {
    if r.bodyHash != bodyHash then Raised(ApiError(409, CommandIdempotencyConflict))
    else if r.status != Completed then Raised(ApiError(500, InternalError))
    else if r.httpStatus.None? || r.snapshot.None? || r.completedAt.None? then Raised(ValueFailure)
    else Replay(ResultOf(r, true))
  }

  function ProcessingRecord(id: Uuid, commandId: Uuid, correlationId: Uuid, bodyHash: Digest, now: Time): Record {
    Record(id, commandId, correlationId, bodyHash, Processing, None, None, None, None, None, now)
  }

  function CompletedRecord(r: Record, status: int, snapshot: Snapshot, delivery: Option<SecretDelivery>,
                           authorization: Option<CallbackAuthorization>, now: Time): Record {
    r.(status := Completed, httpStatus := Some(status), snapshot := Some(snapshot), completedAt := Some(now),
       delivery := delivery, authorization := authorization)
  }

  /** Completing a record leaves a valid record exactly when the status is one of HTTP and the time is no earlier
      than the record's creation. */
  lemma CompletedChecks(r: Record, status: int, snapshot: Snapshot, delivery: Option<SecretDelivery>,
                        authorization: Option<CallbackAuthorization>, now: Time)
    ensures RecordChecks(CompletedRecord(r, status, snapshot, delivery, authorization, now)) <==>
              200 <= status <= 599 && r.createdAt <= now
  {
  }

  /** The primary key or the unique command id of a new record is already in the table. */
  ghost predicate IdentifierTaken(records: map<ScopeKey, Record>, id: Uuid, commandId: Uuid) {
    RecordIdTaken(records, id) || CommandIdTaken(records, commandId)
  }

  ghost predicate RecordIdTaken(records: map<ScopeKey, Record>, id: Uuid) {
    exists k :: k in records && records[k].id == id
  }

  ghost predicate CommandIdTaken(records: map<ScopeKey, Record>, commandId: Uuid) {
    exists k :: k in records && records[k].commandId == commandId
  }

  ghost predicate TableChecks(records: map<ScopeKey, Record>) {
    forall k :: k in records ==> RecordChecks(records[k])
  }

  method IdentifierClash(records: map<ScopeKey, Record>, id: Uuid, commandId: Uuid) returns (clash: bool)
    ensures clash == IdentifierTaken(records, id, commandId)
  {
    var todo := records.Keys;
    clash := false;
    while todo != {}
      invariant todo <= records.Keys
      invariant clash == exists k :: k in records.Keys - todo
                                     && (records[k].id == id || records[k].commandId == commandId)
      decreases |todo|
    {
      var k :| k in todo;
      if records[k].id == id || records[k].commandId == commandId {
        clash := true;
      }
      todo := todo - {k};
    }
  }

  /** Resolve one command key inside the caller's transaction.

      `arrived` holds the records other transactions commit between the first lookup and the
      insert: the insert then violates the unique constraint, the savepoint rolls back and the
      winner is read again. */
  method Reserve(s: Session, scope: ScopeKey, bodyHash: Digest, correlationId: Uuid, recordId: Uuid,
                 commandId: Uuid, arrived: map<ScopeKey, Record>)
    returns (resolution: Resolution)
    requires TableChecks(s.records) && TableChecks(arrived) && s.records.Keys !! arrived.Keys
    modifies s`records
    ensures !s.InOuterTransaction() ==> resolution == Raised(RuntimeFailure) && s.records == old(s.records)
    ensures s.transaction == None || !s.transaction.value.active || !s.transaction.value.explicitBegin ==>
              resolution == Raised(RuntimeFailure)
    ensures s.InOuterTransaction() && !IsSha256Hex(bodyHash) ==>
              resolution == Raised(ValueFailure) && s.records == old(s.records)
    ensures s.InOuterTransaction() && IsSha256Hex(bodyHash) ==>
              var all := old(s.records) + arrived;
              if scope in old(s.records) then
                resolution == Classify(old(s.records)[scope], bodyHash) && s.records == old(s.records)
              else if scope in arrived then
                resolution == Classify(arrived[scope], bodyHash) && s.records == all
              else if IdentifierTaken(all, recordId, commandId) then
                resolution == Raised(ApiError(503, DependencyUnavailable)) && s.records == all
              else
                && resolution == Reserved(Reservation(recordId, scope, commandId, correlationId, s.transaction.value))
                && s.records == all[scope := ProcessingRecord(recordId, commandId, correlationId, bodyHash, s.now)]
    ensures TableChecks(s.records)
  {
    if !s.InOuterTransaction() { return Raised(RuntimeFailure); }
    if !IsSha256Hex(bodyHash) { return Raised(ValueFailure); }
    if scope in s.records { return Classify(s.records[scope], bodyHash); }
    var record := ProcessingRecord(recordId, commandId, correlationId, bodyHash, s.now);
    s.records := s.records + arrived;
    var clash := IdentifierClash(s.records, recordId, commandId);
    if scope in s.records || clash {
      if scope !in s.records { return Raised(ApiError(503, DependencyUnavailable)); }
      return Classify(s.records[scope], bodyHash);
    }
    s.records := s.records[scope := record];
    resolution := Reserved(Reservation(record.id, scope, record.commandId, record.correlationId, s.transaction.value));
  }

  /** Complete a reservation in place.  Only the transaction that reserved may complete, once.  The flush
      fails when the completed row would violate its CHECK constraints. */
  method Complete(s: Session, reservation: Reservation, status: int, snapshot: Snapshot,
                  delivery: Option<SecretDelivery>, authorization: Option<CallbackAuthorization>)
    returns (outcome: Resolution)
    modifies s`records
    ensures
      var eligible :=
        && s.InOuterTransaction() && reservation.transaction == s.transaction.value
        && 200 <= status <= 599
        && reservation.scope in old(s.records)
        && old(s.records)[reservation.scope].id == reservation.recordId
        && old(s.records)[reservation.scope].status == Processing;
      if eligible then
        var done :=
          CompletedRecord(old(s.records)[reservation.scope], status, snapshot, delivery, authorization, s.now);
        if RecordChecks(done) then
          s.records == old(s.records)[reservation.scope := done] && outcome == Replay(ResultOf(done, false))
        else s.records == old(s.records) && outcome == Raised(ApiError(503, DependencyUnavailable))
      else
        && s.records == old(s.records)
        && outcome == Raised(if s.InOuterTransaction() then ValueFailure else RuntimeFailure)
  {
    if !s.InOuterTransaction() { return Raised(RuntimeFailure); }
    if reservation.transaction != s.transaction.value || !(200 <= status <= 599) { return Raised(ValueFailure); }
    if reservation.scope !in s.records { return Raised(ValueFailure); }
    var record := s.records[reservation.scope];
    if record.id != reservation.recordId || record.status != Processing { return Raised(ValueFailure); }
    record := record.(status := Completed, httpStatus := Some(status), snapshot := Some(snapshot),
                      completedAt := Some(s.now));
    record := record.(delivery := delivery);
    record := record.(authorization := authorization);
    if !RecordChecks(record) { return Raised(ApiError(503, DependencyUnavailable)); }
    s.records := s.records[reservation.scope := record];
    outcome := Replay(ResultOf(record, false));
  }

  /** A record that was never completed answers nobody. */
  lemma UnfinishedIsInternal(r: Record, bodyHash: Digest)
    requires r.status == Processing
    ensures r.bodyHash == bodyHash ==> Classify(r, bodyHash) == Raised(ApiError(500, InternalError))
    ensures r.bodyHash != bodyHash ==> Classify(r, bodyHash) == Raised(ApiError(409, CommandIdempotencyConflict))
  {
  }

  /** Completing and then replaying the same key returns the stored result to the same body, marks
      a delivered secret as already issued, and refuses every other body. */
  lemma ReplayOfCompleted(r: Record, bodyHash: Digest)
    requires r.status == Completed && RecordChecks(r)
    ensures Classify(r, bodyHash).Replay? <==> bodyHash == r.bodyHash
    ensures Classify(r, bodyHash).Raised? ==>
              Classify(r, bodyHash).error == ApiError(409, CommandIdempotencyConflict)
    ensures Classify(r, bodyHash).Replay? ==>
              var first, again := ResultOf(r, false), Classify(r, bodyHash).result;
              && again == first.(alreadyIssued := r.delivery.Some?)
              && !first.alreadyIssued
  {
  }
}
