/** A whole life in one run: a request is submitted, its interpretation started, the attempt claimed, and the
    callback verified with the plaintext that the start handed out. */
module EngineLifecycle {
  import opened Model
  import opened CallbackVerifier
  import opened CommandExecution
  import opened CommandIdempotency
  import opened Commands
  import opened Invariants
  import opened Engine
  import opened EngineAtomicity
  import opened EngineMoves
  import opened EngineSolo
  import opened EngineTheorems
  import opened EngineVerifier
  import AttemptStart
  import StartAi = StartAiInterpretationCommand
  import Intake

  /** Settings and machine fill every column that must not be blank, and the deadline lies ahead. */
  predicate Fillable(c: Command)
    requires c.StartAi?
  {
    var s := c.settings;
    && AllNotBlank([s.promptVersion, s.resultSchemaVersion, s.providerName, s.modelName, s.adapterName,
                    s.adapterVersion])
    && AllNotBlank([s.adapterName, s.adapterVersion, c.machine.serviceId, c.machine.environment])
    && AllNotBlank([c.machine.serviceId, c.machine.environment])
    && s.callbackSeconds > 0
  }

  /** The start, the claim and the check follow one another: same request, attempt, caller and credential. */
  predicate Chained(h: Hashing, s: Intake.Submission, iids: Intake.IntakeIds, c: Command, e: Surroundings, d: Command,
                    f: Surroundings, k: Check)
  {
    && s.Valid? && c.StartAi? && d.ClaimStart? && e.arrived == map[] && f.arrived == map[]
    && c.requestId == iids.requestId && c.expectedVersion == 1 && IsSha256Hex(c.bodyHash) && Fillable(c)
    && e.token.Some? && StartAi.OpaqueCredential(e.token.value)
    && d.attemptId == e.ids.attemptId && d.expectedVersion == 1 && IsSha256Hex(d.bodyHash) && d.machine == c.machine
    && f.ids.recordId != e.ids.recordId && f.ids.commandId != e.ids.commandId
    && k == Check(e.ids.attemptId, c.machine, h.credential(e.token.value))
  }

  // ------------------------------------------------------------------ the three commits

  function Submitted(s: Intake.Submission, iids: Intake.IntakeIds): Db
    requires s.Valid?
  {
    Apply(EMPTY_DB, Intake.CreateEffects(s, iids))
  }

  function Reserved(c: Command, now: Time, e: Surroundings): Record {
    ProcessingRecord(e.ids.recordId, e.ids.commandId, c.correlationId, c.bodyHash, now)
  }

  function StartedOn(h: Hashing, db: Db, c: Command, now: Time, e: Surroundings): Db
    requires c.StartAi? && c.requestId in db.requests && e.token.Some?
  {
    Apply(db, StartAi.StartEffects(h, c, Reserved(c, now, e), db.requests[c.requestId], now, e.ids, e.token.value))
  }

  function ClaimedOn(db: Db, d: Command, now: Time, f: Surroundings): Db
    requires d.ClaimStart? && d.attemptId in db.attempts
  {
    Apply(db, AttemptStart.ClaimEffects(ScopeOf(d), Reserved(d, now, f), db.attempts[d.attemptId], d.machine,
                                        d.correlationId, now, f.ids.attemptAuditId))
  }

  lemma SubmissionAlone(h: Hashing, s: Intake.Submission, ids: Ids, iids: Intake.IntakeIds)
    returns (events: seq<Event>, e: Entry)
    requires s.Valid?
    ensures Run(h, EMPTY_WORLD, events) == World(Submitted(s, iids), map[], [e], [0])
  {
    hide Run, Step, Intake.CreateEffects, CreateLocks, Apply;
    var begun := Process(IntakeCall(s), 0, {}, Opened);
    var reply, effects := Intake.Created(iids.deliveryId, iids.requestId), Intake.CreateEffects(s, iids);
    var created := begun.(held := CreateLocks(s, iids), pc := Recorded(reply, effects, iids, Absent));
    events := AloneBegins(h, IntakeCall(s));
    events := AloneNext(h, events, begun, ids, iids, begun.(pc := KeyMissing));
    CreateIsFree({}, s, begun.(pc := KeyMissing), iids);
    events := AloneNext(h, events, begun.(pc := KeyMissing), ids, iids, created);
    e := IntakeEntry(s, reply);
    FinishAlone(h, EMPTY_DB, [], [], created, ids, iids, None, e);
    var go := Advance(0, ids, iids, None);
    RunConcat(h, EMPTY_WORLD, events, [go] + [go]);
    events := events + ([go] + [go]);
  }

  /** On a database with a request at its first version and no execution yet, Start AI succeeds. */
  lemma StartSucceeds(h: Hashing, db: Db, c: Command, now: Time, e: Surroundings)
    requires GraphSound(h, db) && c.StartAi? && c.requestId in db.requests
             && db.requests[c.requestId].version == c.expectedVersion
    requires db.records == map[] && db.operations == map[] && db.attempts == map[] && db.credentials == map[]
    requires IsSha256Hex(c.bodyHash) && Fillable(c) && e.arrived == map[]
    requires e.token.Some? && StartAi.OpaqueCredential(e.token.value)
    ensures AfterCall(h, db, c, now, e) ==
              (StartAi.StartReply(c, Reserved(c, now, e), db.requests[c.requestId], now, e.ids, e.token.value),
               StartedOn(h, db, c, now, e))
  {
    hide GraphSound, AfterCall, Apply, StartAi.StartDecision, StartAi.OpaqueCredential, AllNotBlank, IsSha256Hex;
    StartDecided(h, db, c);
    CallCases(h, db, c, now, e);
    assert db.records + e.arrived == db.records && db.(records := db.records) == db;
  }

  lemma ClaimSucceeds(h: Hashing, db: Db, d: Command, now: Time, f: Surroundings)
    requires GraphSound(h, db) && d.ClaimStart? && d.attemptId in db.attempts
    requires Claimable(db.attempts[d.attemptId], d, now)
    requires ScopeOf(d) !in db.records && !IdentifierTaken(db.records, f.ids.recordId, f.ids.commandId)
    requires IsSha256Hex(d.bodyHash) && f.arrived == map[]
    ensures AfterCall(h, db, d, now, f) ==
              (AttemptStart.ClaimReply(Reserved(d, now, f), db.attempts[d.attemptId], now), ClaimedOn(db, d, now, f))
  {
    hide GraphSound, AfterCall, Apply, AttemptStart.ClaimDecision, IsSha256Hex, IdentifierTaken;
    ClaimDecided(h, db, d, now);
    CallCases(h, db, d, now, f);
    assert db.records + f.arrived == db.records && db.(records := db.records) == db;
  }

  /** What the first two commits leave for the claim. */
  lemma ClaimReady(h: Hashing, s: Intake.Submission, iids: Intake.IntakeIds, c: Command, e: Surroundings, d: Command,
                   f: Surroundings, k: Check, start: Time, claim: Time)
    requires Chained(h, s, iids, c, e, d, f, k) && claim < StartAi.Deadline(c.settings, start)
    ensures c.requestId in Submitted(s, iids).requests && Submitted(s, iids).requests[c.requestId].version == 1
    ensures
      var db := StartedOn(h, Submitted(s, iids), c, start, e);
      && d.attemptId in db.attempts && db.attempts[d.attemptId].id == d.attemptId
      && Claimable(db.attempts[d.attemptId], d, claim)
      && ScopeOf(d) !in db.records && !IdentifierTaken(db.records, f.ids.recordId, f.ids.commandId)
  {
    hide StartAi.OpaqueCredential, IsSha256Hex, Fillable;
  }

  /** What all three leave for the check. */
  lemma CheckReady(h: Hashing, s: Intake.Submission, iids: Intake.IntakeIds, c: Command, e: Surroundings, d: Command,
                   f: Surroundings, k: Check, start: Time, claim: Time, at: Time)
    requires Chained(h, s, iids, c, e, d, f, k) && claim < StartAi.Deadline(c.settings, start)
    requires start <= at < StartAi.Deadline(c.settings, start)
    requires c.requestId in Submitted(s, iids).requests
    requires d.attemptId in StartedOn(h, Submitted(s, iids), c, start, e).attempts
    requires var db := ClaimedOn(StartedOn(h, Submitted(s, iids), c, start, e), d, claim, f); GraphSound(h, db)
    ensures
      var db := ClaimedOn(StartedOn(h, Submitted(s, iids), c, start, e), d, claim, f);
      VerificationOn(db, k, at) == Verified(e.ids.credentialId)
  {
    hide StartAi.OpaqueCredential, IsSha256Hex, Fillable, GraphSound, VerificationOn;
    OwnVerification(h, ClaimedOn(StartedOn(h, Submitted(s, iids), c, start, e), d, claim, f), k, e.ids.credentialId,
                    at);
  }

  // ------------------------------------------------------------------ the run

  /** From the empty database the whole life runs, one call after another: the submission is accepted, the start
      hands out its plaintext, the claim sets the attempt Running, and a check with that plaintext, at any
      time from the start to the deadline, is verified. */
  lemma LifeRuns(h: Hashing, s: Intake.Submission, iids: Intake.IntakeIds, c: Command, e: Surroundings, d: Command,
                 f: Surroundings, k: Check, start: Time, claim: Time, at: Time)
    returns (events: seq<Event>, q: Process)
    requires Chained(h, s, iids, c, e, d, f, k) && claim < StartAi.Deadline(c.settings, start)
    requires start <= at < StartAi.Deadline(c.settings, start)
    ensures
      var w := Run(h, EMPTY_WORLD, events);
      && w.processes == map[0 := q] && q.call == VerifyCall(k) && q.pc.Checked?
      && q.pc.answer == Verified(e.ids.credentialId)
      && |w.log| == 3 && PlaintextOf(w.log[1], e.ids.credentialId) && StartOf(w.log[2], e.ids.attemptId)
  {
    hide Run, AfterCall, Apply, StartAi.OpaqueCredential, IsSha256Hex, Fillable, GraphSound, IdentifierTaken,
         VerificationOn, StartedOn, ClaimedOn, Submitted, Claimable;
    var entry: Entry, more: seq<Event>;
    events, entry := SubmissionAlone(h, s, e.ids, iids);
    ReachableTables(h, events);
    ClaimReady(h, s, iids, c, e, d, f, k, start, claim);
    SubmittedIsBare(s, iids);
    StartSucceeds(h, Submitted(s, iids), c, start, e);
    more := SoloCallIsExecute(h, events, c, start, e, iids);
    RunConcat(h, EMPTY_WORLD, events, more);
    events := events + more;
    var started := StartedOn(h, Submitted(s, iids), c, start, e);
    assert Run(h, EMPTY_WORLD, events).db == started;
    ReachableTables(h, events);
    ClaimSucceeds(h, started, d, claim, f);
    more := SoloCallIsExecute(h, events, d, claim, f, iids);
    RunConcat(h, EMPTY_WORLD, events, more);
    events := events + more;
    ReachableTables(h, events);
    CheckReady(h, s, iids, c, e, d, f, k, start, claim, at);
    more, q := SoloVerification(h, events, k, at, e.ids, iids);
    RunConcat(h, EMPTY_WORLD, events, more);
    events := events + more;
  }

  lemma SubmittedIsBare(s: Intake.Submission, iids: Intake.IntakeIds)
    requires s.Valid?
    ensures var db := Submitted(s, iids);
            db.records == map[] && db.operations == map[] && db.attempts == map[] && db.credentials == map[]
  {
  }
}
