/** One call of a command service: begin, reserve, replay or execute, then commit or roll back. */
module CommandExecution {
  import opened Model
  import opened Sessions
  import opened CommandIdempotency
  import opened Commands
  import AttemptStart
  import StartAi = StartAiInterpretationCommand

  /** API errors pass through; every other exception is reported as a 500. */
  function Reported(e: Exception): Reply {
    Failed(if e.ApiError? then e else ApiError(500, InternalError))
  }

  function ReportedReply(r: Reply): Reply {
    if r.Failed? then Reported(r.error) else r
  }

  /** What the random draws, the credential generator and other transactions contribute to one call.
      `arrived` are the records committed between the key lookup and the insert. */
  datatype Surroundings = Surroundings(ids: Ids, token: Option<string>, transactionId: nat,
                                       arrived: map<ScopeKey, Record>)

  /** One execution of the command on `db`. */
  ghost function Execution(h: Hashing, db: Db, c: Command, record: Record, now: Time, ids: Ids,
                           token: Option<string>): (Reply, Effects) {
    if c.StartAi? then StartAi.StartExecution(h, db, c, record, now, ids, token)
    else AttemptStart.ClaimExecution(h, db, c, record, now, ids.attemptAuditId)
  }

  /** The committed rows the call decides on: a lost race shows it the records that arrived. */
  function Visible(db: Db, c: Command, e: Surroundings): Db {
    if IsSha256Hex(c.bodyHash) && ScopeOf(c) !in db.records then db.(records := db.records + e.arrived) else db
  }

  /** The reply of one call on the rows visible to it, and the rows it commits, for a body hash that is one. */
  ghost function Served(h: Hashing, db: Db, c: Command, now: Time, ids: Ids, token: Option<string>): (Reply, Effects) {
    if ScopeOf(c) in db.records then (Classified(Classify(db.records[ScopeOf(c)], c.bodyHash)), NoEffects)
    else if IdentifierTaken(db.records, ids.recordId, ids.commandId) then
      (Failed(ApiError(503, DependencyUnavailable)), NoEffects)
    else
      var record := ProcessingRecord(ids.recordId, ids.commandId, c.correlationId, c.bodyHash, now);
      var (reply, effects) := Execution(h, db, c, record, now, ids, token);
      (ReportedReply(reply), effects)
  }

  ghost function Called(h: Hashing, db: Db, c: Command, now: Time, e: Surroundings): (Reply, Effects) {
    if !IsSha256Hex(c.bodyHash) then (Reported(ValueFailure), NoEffects)
    else Served(h, db, c, now, e.ids, e.token)
  }

  /** The reply of one call and the rows it leaves behind. */
  ghost function AfterCall(h: Hashing, db: Db, c: Command, now: Time, e: Surroundings): (Reply, Db) {
    var seen := Visible(db, c, e);
    var (reply, effects) := Called(h, seen, c, now, e);
    (reply, Apply(seen, effects))
  }

  /** Without a reservation a call writes nothing; with one it is the execution on the visible rows. */
  lemma CallCases(h: Hashing, db: Db, c: Command, now: Time, e: Surroundings)
    ensures
      var all := db.(records := db.records + e.arrived);
      AfterCall(h, db, c, now, e) ==
        if !IsSha256Hex(c.bodyHash) then (Reported(ValueFailure), db)
        else if ScopeOf(c) in db.records then (Classified(Classify(db.records[ScopeOf(c)], c.bodyHash)), db)
        else if ScopeOf(c) in e.arrived then (Classified(Classify(e.arrived[ScopeOf(c)], c.bodyHash)), all)
        else if IdentifierTaken(all.records, e.ids.recordId, e.ids.commandId) then
          (Failed(ApiError(503, DependencyUnavailable)), all)
        else
          var record := ProcessingRecord(e.ids.recordId, e.ids.commandId, c.correlationId, c.bodyHash, now);
          var (reply, effects) := Execution(h, all, c, record, now, e.ids, e.token);
          (ReportedReply(reply), Apply(all, effects))
  {
    hide Execution, IdentifierTaken, IsSha256Hex, Classify;
  }

  function Classified(r: Resolution): Reply {
    match r
    case Replay(result) => ReplayReply(result)
    case Raised(error) => Reported(error)
    case Reserved(_) => Reported(RuntimeFailure)
  }

  /** The command records are not among the tables an execution depends on. */
  lemma ExecutionIgnoresRecords(h: Hashing, db: Db, records: map<ScopeKey, Record>, c: Command, record: Record,
                                now: Time, ids: Ids, token: Option<string>)
    ensures Execution(h, db.(records := records), c, record, now, ids, token) ==
              Execution(h, db, c, record, now, ids, token)
  {
  }

  /** Writing a record under the key of a completed effect first changes nothing. */
  predicate Overwrites(db: Db, scope: ScopeKey, p: Record, e: Effects) {
    e != NoEffects ==> Apply(db.(records := db.records[scope := p]), e) == Apply(db, e)
  }

  lemma StartOverwrites(v: Option<Verdict>, h: Hashing, db: Db, c: Command, p: Record, record: Record, now: Time,
                        ids: Ids, token: Option<string>)
    requires c.StartAi? && (v == Some(Granted) ==> c.requestId in db.requests)
    ensures
      var (reply, e) := StartAi.StartBranch(v, h, db, c, record, now, ids, token);
      (reply.Failed? <==> e == NoEffects) && Overwrites(db, ScopeOf(c), p, e)
  {
    hide StartAi.Insertable, StartAi.OpaqueCredential, StartAi.NewOperation, StartAi.NewAttempt, StartAi.NewCredential,
         StartAi.StartedRecord;
  }

  lemma ClaimOverwrites(v: Option<Verdict>, db: Db, c: Command, p: Record, record: Record, now: Time, auditId: Uuid)
    requires c.ClaimStart? && (v == Some(Granted) ==> c.attemptId in db.attempts)
    ensures
      var (reply, e) := AttemptStart.ClaimBranch(v, db, c, record, now, auditId);
      (reply.Failed? <==> e == NoEffects) && Overwrites(db, ScopeOf(c), p, e)
  {
    hide AttemptStart.RunningAttempt, AttemptStart.StartedSnapshot;
  }

  /** The reservation row never survives: a completed effect overwrites it, and a failed execution
      writes nothing else. */
  lemma ReservationOverwritten(h: Hashing, db: Db, c: Command, p: Record, record: Record, now: Time, ids: Ids,
                               token: Option<string>)
    ensures
      var (reply, e) := Execution(h, db, c, record, now, ids, token);
      (reply.Failed? <==> e == NoEffects) && Overwrites(db, ScopeOf(c), p, e)
  {
    hide StartAi.ExistingOperationVerdict, AttemptStart.ClaimVerdict, StartAi.StartBranch, AttemptStart.ClaimBranch,
         Overwrites;
    if c.StartAi? {
      StartOverwrites(StartAi.StartDecision(h, db, c), h, db, c, p, record, now, ids, token);
    } else {
      AttemptStart.GrantedIsPending(h, db, c, now);
      ClaimOverwrites(AttemptStart.ClaimDecision(h, db, c, now), db, c, p, record, now, ids.attemptAuditId);
    }
  }

  method ExecuteNew(s: Session, h: Hashing, c: Command, e: Surroundings, reservation: Reservation, ghost record: Record)
    returns (reply: Reply)
    requires ReservationOpen(s, ScopeOf(c), record, reservation) && OperationConstraints(s.operations)
    requires (forall r :: r in s.requests ==> s.requests[r].id == r)
             && (forall a :: a in s.attempts ==> s.attempts[a].id == a)
    modifies s`records, s`requests, s`operations, s`attempts, s`credentials, s`audit, s`outbox
    ensures reply == Execution(h, old(s.State()), c, record, s.now, e.ids, e.token).0
    ensures s.State() == Apply(old(s.State()), Execution(h, old(s.State()), c, record, s.now, e.ids, e.token).1)
  {
    match c {
      case StartAi(_, _, _, _, _, _, _) => reply := StartAi.ExecuteNew(s, h, c, reservation, record, e.ids, e.token);
      case ClaimStart(_, _, _, _, _, _) =>
        reply := AttemptStart.ExecuteNew(s, h, c, reservation, record, e.ids.attemptAuditId);
    }
  }

  /** Execute under an open reservation; a failure rolls back to the rows without the reservation. */
  method ExecuteOrRollBack(s: Session, h: Hashing, c: Command, e: Surroundings, reservation: Reservation,
                           committed: Db, ghost record: Record)
    returns (reply: Reply)
    requires ReservationOpen(s, ScopeOf(c), record, reservation) && OperationConstraints(s.operations)
    requires (forall r :: r in s.requests ==> s.requests[r].id == r)
             && (forall a :: a in s.attempts ==> s.attempts[a].id == a)
    requires s.State() == committed.(records := committed.records[ScopeOf(c) := record])
    modifies s
    ensures s.now == old(s.now)
    ensures var (r, effects) := Execution(h, committed, c, record, s.now, e.ids, e.token);
            reply == ReportedReply(r) && s.State() == Apply(committed, effects)
  {
    hide Execution, OperationConstraints;
    ExecutionIgnoresRecords(h, committed, s.records, c, record, s.now, e.ids, e.token);
    ReservationOverwritten(h, committed, c, record, record, s.now, e.ids, e.token);
    reply := ExecuteNew(s, h, c, e, reservation, record);
    if reply.Failed? {
      s.Rollback(committed);
    }
    reply := ReportedReply(reply);
  }

  /** The service method of both commands, on a new session whose transaction it begins and ends.  The
      tables end as the visible rows plus the effects of the call: after a failure, exactly the visible
      rows; the reservation itself is never left behind. */
  method Execute(s: Session, h: Hashing, c: Command, e: Surroundings) returns (reply: Reply)
    requires TableChecks(s.records) && TableChecks(e.arrived) && s.records.Keys !! e.arrived.Keys
    requires OperationConstraints(s.operations)
    requires (forall r :: r in s.requests ==> s.requests[r].id == r)
             && (forall a :: a in s.attempts ==> s.attempts[a].id == a)
    modifies s
    ensures s.now == old(s.now) && s.transaction == None
    ensures (reply, s.State()) == AfterCall(h, old(s.State()), c, s.now, e)
  {
    hide Execution, AfterCall, Apply, OperationConstraints, IdentifierTaken, IsSha256Hex, RecordChecks, Classify,
         ReplayReply, ReportedReply;
    CallCases(h, s.State(), c, s.now, e);
    s.transaction := Some(Transaction(e.transactionId, true, true));
    var resolution := Reserve(s, ScopeOf(c), c.bodyHash, c.correlationId, e.ids.recordId, e.ids.commandId, e.arrived);
    match resolution {
      case Raised(error) => reply := Reported(error);
      case Replay(result) => reply := ReplayReply(result);
      case Reserved(reservation) =>
        var committed := s.State().(records := s.records - {ScopeOf(c)});
        assert committed.records == old(s.records) + e.arrived;
        ghost var record := ProcessingRecord(e.ids.recordId, e.ids.commandId, c.correlationId, c.bodyHash, s.now);
        reply := ExecuteOrRollBack(s, h, c, e, reservation, committed, record);
    }
    s.transaction := None;
  }

  /** The completed record `r` is what `o` told the caller. */
  predicate Stores(r: Record, c: Command, o: Outcome) {
    && r.status == Completed && r.bodyHash == c.bodyHash && r.commandId == o.commandId
    && r.httpStatus == Some(o.httpStatus) && r.snapshot == Some(o.snapshot) && r.completedAt.Some?
  }

  lemma StartIsStored(v: Option<Verdict>, h: Hashing, db: Db, c: Command, record: Record, now: Time, ids: Ids,
                      token: Option<string>)
    requires c.StartAi? && record.bodyHash == c.bodyHash && (v == Some(Granted) ==> c.requestId in db.requests)
    ensures
      var (reply, e) := StartAi.StartBranch(v, h, db, c, record, now, ids, token);
      reply.Answered? ==>
        && !reply.outcome.isReplay && ScopeOf(c) in Apply(db, e).records
        && Stores(Apply(db, e).records[ScopeOf(c)], c, reply.outcome)
  {
    hide StartAi.Insertable, StartAi.OpaqueCredential, StartAi.NewOperation, StartAi.NewAttempt, StartAi.NewCredential;
  }

  lemma ClaimIsStored(v: Option<Verdict>, db: Db, c: Command, record: Record, now: Time, auditId: Uuid)
    requires c.ClaimStart? && record.bodyHash == c.bodyHash && (v == Some(Granted) ==> c.attemptId in db.attempts)
    ensures
      var (reply, e) := AttemptStart.ClaimBranch(v, db, c, record, now, auditId);
      reply.Answered? ==>
        && !reply.outcome.isReplay && ScopeOf(c) in Apply(db, e).records
        && Stores(Apply(db, e).records[ScopeOf(c)], c, reply.outcome)
  {
    hide AttemptStart.RunningAttempt, AttemptStart.StartedSnapshot, AttemptStart.StartedEvent,
         AttemptStart.StartedMessage;
  }

  /** The record an answered execution leaves under its key. */
  lemma AnswerIsStored(h: Hashing, db: Db, c: Command, record: Record, now: Time, ids: Ids, token: Option<string>)
    requires record.bodyHash == c.bodyHash && Execution(h, db, c, record, now, ids, token).0.Answered?
    ensures
      var (reply, e) := Execution(h, db, c, record, now, ids, token);
      && !reply.outcome.isReplay && ScopeOf(c) in Apply(db, e).records
      && Stores(Apply(db, e).records[ScopeOf(c)], c, reply.outcome)
  {
    hide AttemptStart.ClaimVerdict, StartAi.ExistingOperationVerdict, StartAi.StartBranch, AttemptStart.ClaimBranch,
         Stores, Apply;
    if c.StartAi? {
      StartIsStored(StartAi.StartDecision(h, db, c), h, db, c, record, now, ids, token);
    } else {
      AttemptStart.GrantedIsPending(h, db, c, now);
      ClaimIsStored(AttemptStart.ClaimDecision(h, db, c, now), db, c, record, now, ids.attemptAuditId);
    }
  }

  /** Calling again under the same key changes nothing: the same body is answered with the first
      outcome, marked as a replay and without its plaintext, and every other body with a 409. */
  lemma CallTwice(h: Hashing, db: Db, c: Command, now: Time, e: Surroundings, again: Command, later: Time,
                  f: Surroundings)
    requires AfterCall(h, db, c, now, e).0.Answered? && !AfterCall(h, db, c, now, e).0.outcome.isReplay
    requires SameCall(again, c) && IsSha256Hex(again.bodyHash)
    ensures
      var (first, after) := AfterCall(h, db, c, now, e);
      AfterCall(h, after, again, later, f) ==
        (if again.bodyHash == c.bodyHash then Answered(first.outcome.(isReplay := true, plaintext := None))
         else Failed(ApiError(409, CommandIdempotencyConflict)), after)
  {
    hide Execution, AfterCall, Apply, IdentifierTaken, IsSha256Hex;
    ScopeExact(again, c);
    CallCases(h, db, c, now, e);
    var all := db.(records := db.records + e.arrived);
    var record := ProcessingRecord(e.ids.recordId, e.ids.commandId, c.correlationId, c.bodyHash, now);
    assert Execution(h, all, c, record, now, e.ids, e.token).0.Answered?;
    AnswerIsStored(h, all, c, record, now, e.ids, e.token);
    CallCases(h, AfterCall(h, db, c, now, e).1, again, later, f);
  }
}
