/** What commands answer: the decision on the database of the commit, spelled out, and the decision of Start AI
    in terms of what has been answered before. */
module EngineDecisions {
  import opened Model
  import opened Sessions
  import opened CommandExecution
  import opened CommandIdempotency
  import opened Commands
  import opened Invariants
  import opened Engine
  import opened EngineAtomicity
  import opened EngineCommits
  import opened EngineProcesses
  import opened EngineReplies
  import opened EngineRuns
  import opened EngineSteps
  import opened EngineTheorems
  import AttemptStart
  import StartAi = StartAiInterpretationCommand

  // ------------------------------------------------------------------ the answer of a commit

  function Refusal(v: Verdict, commandId: Uuid): Outcome
    requires v.Refused?
  {
    Outcome(v.status, commandId, ErrorSnapshot(v.code, v.currentVersion), false, None)
  }

  /** The 202 of Start AI: the new rows, the version after the bump, and the deadline the configured number of
      seconds after the call began; the plaintext goes with it. */
  function Accepted(c: Command, now: Time, commandId: Uuid, ids: Ids, token: string): Outcome
    requires c.StartAi?
  {
    var expiresAt := now + c.settings.callbackSeconds * 1_000_000;
    Outcome(202, commandId,
            StartAiSnapshot(c.requestId, ids.operationId, ids.attemptId, ids.credentialId, 1, expiresAt,
                            c.expectedVersion + 1),
            false, Some(token))
  }

  /** The 200 of claim/start: the attempt as it is, Running from the time the call began, one version on. */
  function Claimed(db: Db, c: Command, now: Time, commandId: Uuid): Outcome
    requires c.ClaimStart? && c.attemptId in db.attempts
  {
    var a := db.attempts[c.attemptId];
    Outcome(200, commandId,
            AttemptStartSnapshot(a.requestId, a.operationId, c.attemptId, a.number, now, a.adapterName,
                                 a.adapterVersion, c.expectedVersion + 1),
            false, None)
  }

  ghost predicate Answers(h: Hashing, db: Db, c: Command, now: Time, commandId: Uuid, ids: Ids, token: string,
                          o: Outcome)
  {
    var v := if c.StartAi? then StartOutcome(h, db, c) else ClaimOutcome(db, c, now);
    if v.Refused? then o == Refusal(v, commandId)
    else if c.StartAi? then o == Accepted(c, now, commandId, ids, token)
    else c.attemptId in db.attempts && o == Claimed(db, c, now, commandId)
  }

  lemma StartAnswers(h: Hashing, db: Db, p: Process, c: Command)
    requires GraphSound(h, db) && CommandInv(h, db, p, c) && p.call == CommandCall(c) && c.StartAi? && p.pc.Completing?
    requires !TargetAppeared(db, c, p.pc.rows)
    ensures Committable(p) && CommittedReply(h, p).Answered?
    ensures Answers(h, db, c, p.now, p.pc.record.commandId, p.pc.ids, p.pc.token, CommittedReply(h, p).outcome)
  {
    hide GraphSound, HoldsKey, InsertsHeld, NoOperationFor, StartAi.ExistingOperationVerdict, StartAi.FindOperation;
    CommandEndsCompleting(h, db, p, c);
    StartDecided(h, db, c);
    if !TargetAbsent(c, p.pc.rows) {
      VerdictMonotone(h, c, p.now, p.pc.rows, RowsIn(h, db, c));
      if p.pc.verdict.Granted? { GrantedStart(h, db, p, c); }
    }
  }

  lemma CommandEndsCompleting(h: Hashing, db: Db, p: Process, c: Command)
    requires CommandInv(h, db, p, c) && p.call == CommandCall(c) && p.pc.Completing?
    ensures Committable(p)
  {
    hide HoldsKey, RowsHeld, InsertsHeld;
  }

  lemma ClaimAnswers(h: Hashing, db: Db, p: Process, c: Command)
    requires GraphSound(h, db) && CommandInv(h, db, p, c) && p.call == CommandCall(c) && c.ClaimStart?
             && p.pc.Completing?
    requires !TargetAppeared(db, c, p.pc.rows)
    ensures Committable(p) && CommittedReply(h, p).Answered?
    ensures Answers(h, db, c, p.now, p.pc.record.commandId, p.pc.ids, p.pc.token, CommittedReply(h, p).outcome)
  {
    hide GraphSound, HoldsKey, AttemptStart.GraphVerdict, AttemptStart.CredentialVerdict;
    CommandEndsCompleting(h, db, p, c);
    ClaimDecided(h, db, c, p.now);
    if !TargetAbsent(c, p.pc.rows) {
      VerdictMonotone(h, c, p.now, p.pc.rows, RowsIn(h, db, c));
      if p.pc.verdict.Granted? { GrantedClaim(h, db, p, c); }
    }
  }

  lemma AbsentAnswers(h: Hashing, db: Db, p: Process, c: Command)
    requires CommandInv(h, db, p, c) && p.call == CommandCall(c) && p.pc.Completing? && TargetAbsent(c, p.pc.rows)
    ensures Committable(p)
    ensures CommittedReply(h, p) ==
              Answered(Refusal(Refused(404, if c.StartAi? then ResourceNotFound else AttemptNotFound, None),
                               p.pc.record.commandId))
  {
    hide HoldsKey, InsertsHeld;
  }

  /** A command that commits answers what its question decides on the database of the commit: Start AI by existence,
      version and configuration, claim/start by caller, version, state and deadline; status, code, version,
      identifiers, times and plaintext are those written here.  Only a call that found its target missing
      answers 404 whatever has appeared since. */
  lemma CommitIsDecided(h: Hashing, events: seq<Event>, pid: nat, c: Command)
    requires var w := Run(h, EMPTY_WORLD, events);
             pid in w.processes && w.processes[pid].call == CommandCall(c) && w.processes[pid].pc.Completing?
    ensures
      var w := Run(h, EMPTY_WORLD, events);
      var p := w.processes[pid];
      var entry := EntryOf(h, p);
      && entry.Some? && entry.value.CommandEntry? && entry.value.reply.Answered?
      && if TargetAppeared(w.db, c, p.pc.rows) then entry.value.reply.outcome.httpStatus == 404
         else Answers(h, w.db, c, p.now, p.pc.record.commandId, p.pc.ids, p.pc.token, entry.value.reply.outcome)
  {
    hide WorldInv, CommandInv, Answers, CommittedReply, GraphSound;
    var w := Run(h, EMPTY_WORLD, events);
    ReachableInv(h, events);
    CommandKnown(h, w, pid);
    var p := w.processes[pid];
    if TargetAppeared(w.db, c, p.pc.rows) { AbsentAnswers(h, w.db, p, c); }
    else if c.StartAi? { StartAnswers(h, w.db, p, c); }
    else { ClaimAnswers(h, w.db, p, c); }
  }

  /** A command whose execution raised was a Start AI that its question grants: 503 exactly when it drew no usable
      token, and 500 when it did, and then a column is unfit or its rows collide with others. */
  lemma RaiseIsDecided(h: Hashing, events: seq<Event>, pid: nat, c: Command)
    requires var w := Run(h, EMPTY_WORLD, events);
             && pid in w.processes && w.processes[pid].call == CommandCall(c)
             && w.processes[pid].pc.Failing? && w.processes[pid].pc.cause.Undone?
    ensures
      var w := Run(h, EMPTY_WORLD, events);
      var p := w.processes[pid];
      var ids, token := p.pc.cause.ids, p.pc.cause.token;
      && c.StartAi? && c.requestId in w.db.requests && StartOutcome(h, w.db, c) == Granted
      && if !StartAi.Usable(token) then p.pc.error == ApiError(503, DependencyUnavailable)
         else
           && p.pc.error == ApiError(500, InternalError)
           && (StartAi.Unfit(c) || StartAi.Collides(h, w.db, c, w.db.requests[c.requestId], ids, token.value))
  {
    hide WorldInv, CommandInv, GraphSound, StartOutcome, StartAi.Insertable, StartAi.Unfit, StartAi.Collides,
         StartAi.Usable, StartAi.OpaqueCredential;
    var w := Run(h, EMPTY_WORLD, events);
    ReachableInv(h, events);
    CommandKnown(h, w, pid);
    RaisedFromGrant(h, w.db, w.processes[pid], c);
    StartDecided(h, w.db, c);
    var cause := w.processes[pid].pc.cause;
    StartAi.TokenExact(cause.token);
    if cause.token.Some? {
      StartAi.InsertsExact(h, w.db, c, w.db.requests[c.requestId], cause.ids, w.processes[pid].now, cause.token.value);
    }
  }

  lemma RaisedFromGrant(h: Hashing, db: Db, p: Process, c: Command)
    requires CommandInv(h, db, p, c) && p.pc.Failing? && p.pc.cause.Undone?
    ensures c.StartAi? && c.requestId in db.requests && StartAi.StartDecision(h, db, c) == Some(Granted)
    ensures InsertsFail(h, db, c, p.now, db.requests[c.requestId], p.pc.cause.ids, p.pc.cause.token, p.pc.error)
  {
    hide HoldsKey, InsertsFail, StartAi.ExistingOperationVerdict;
    VerdictMonotone(h, c, p.now, p.pc.cause.rows, RowsIn(h, db, c));
  }

  // ------------------------------------------------------------------ Start AI and its past

  predicate SameConfiguration(s: Settings, t: Settings) {
    && s.promptVersion == t.promptVersion && s.resultSchemaVersion == t.resultSchemaVersion
    && s.providerName == t.providerName && s.modelName == t.modelName
    && s.adapterName == t.adapterName && s.adapterVersion == t.adapterVersion
  }

  ghost predicate CollisionFree(h: Hashing) { forall m, n :: h.configuration(m) == h.configuration(n) ==> m == n }

  /** The configuration hash depends on all six settings and on nothing else. */
  lemma ConfigurationExact(h: Hashing, s: Settings, t: Settings)
    requires CollisionFree(h)
    ensures h.ConfigurationHash(s) == h.ConfigurationHash(t) <==> SameConfiguration(s, t)
  {
  }

  /** The input hash depends on the location, the description and the timing, and on nothing else. */
  lemma InputExact(h: Hashing, r: ServiceRequest, q: ServiceRequest)
    requires forall m, n :: h.input(m) == h.input(n) ==> m == n
    ensures h.InputHash(r) == h.InputHash(q) <==>
              r.location == q.location && r.description == q.description && r.timing == q.timing
  {
  }

  /** An earlier Start AI of the same request with the same configuration that succeeded. */
  predicate StartedAlready(e: Entry, c: Command)
    requires c.StartAi?
  {
    && FirstReply(e) && e.reply.outcome.snapshot.StartAiSnapshot?
    && e.command.StartAi? && e.command.requestId == c.requestId && SameConfiguration(e.command.settings, c.settings)
  }

  /** On a request at the expected version, Start AI is refused as already active exactly when a Start AI of that
      request with the same six settings has succeeded before, under whatever key and by whatever caller; any
      other configuration is granted. */
  lemma StartIsDecidedByItsPast(h: Hashing, events: seq<Event>, c: Command)
    requires CollisionFree(h) && c.StartAi?
    ensures
      var w := Run(h, EMPTY_WORLD, events);
      c.requestId in w.db.requests && w.db.requests[c.requestId].version == c.expectedVersion ==>
        StartOutcome(h, w.db, c) ==
          if exists i :: 0 <= i < |w.log| && StartedAlready(w.log[i], c) then Refused(409, ActiveAttemptExists, None)
          else Granted
  {
    hide Run, WorldInv, GraphSound, LogTrue, Accounted, StartedAlready, NoOperationFor, EntryTrue;
    var w := Run(h, EMPTY_WORLD, events);
    ReachableTables(h, events);
    ReachableInv(h, events);
    WorldLog(h, w);
    RunTrue(h, events);
    RunAccounted(h, events);
    forall i | 0 <= i < |w.log| ensures EntryTrue(h, w.db, w.log[i]) { LoggedIsTrue(h, w, i); }
    if c.requestId in w.db.requests {
      if !NoOperationFor(h, w.db, c) { var i := OperationHasStart(h, w.db, w.log, c); }
      forall i | 0 <= i < |w.log| && StartedAlready(w.log[i], c) ensures !NoOperationFor(h, w.db, c) {
        StartHasOperation(h, w.db, w.log[i], c);
      }
    }
  }

  lemma LoggedIsTrue(h: Hashing, w: World, i: nat)
    requires LogTrue(h, w) && i < |w.log|
    ensures EntryTrue(h, w.db, w.log[i])
  {
    hide EntryTrue;
  }

  lemma StartHasOperation(h: Hashing, db: Db, e: Entry, c: Command)
    requires c.StartAi? && c.requestId in db.requests && EntryTrue(h, db, e) && StartedAlready(e, c)
    ensures !NoOperationFor(h, db, c)
  {
    hide SnapshotTrue, SuccessEvidenced, RecordAsAsked, AttemptAsAsked;
    var o := e.reply.outcome.snapshot.operationId;
    assert StartAi.HasIdentity(db.operations[o], c.requestId, h.InputHash(db.requests[c.requestId]),
                               h.ConfigurationHash(c.settings));
  }

  lemma OperationHasStart(h: Hashing, db: Db, log: seq<Entry>, c: Command) returns (i: nat)
    requires CollisionFree(h) && c.StartAi? && c.requestId in db.requests && !NoOperationFor(h, db, c)
    requires GraphSound(h, db) && LogSound(h, db, log) && Accounted(db, log)
    requires forall i :: 0 <= i < |log| ==> EntryTrue(h, db, log[i])
    ensures i < |log| && StartedAlready(log[i], c)
  {
    hide GraphSound, LogSound, Accounted, EntryTrue, StartedAlready;
    var o :| o in db.operations
             && StartAi.HasIdentity(db.operations[o], c.requestId, h.InputHash(db.requests[c.requestId]),
                                    h.ConfigurationHash(c.settings));
    var a, k := AttemptAndCredential(h, db, o);
    CredentialsAccounted(db, log, k);
    i :| 0 <= i < |log| && PlaintextOf(log[i], k);
    BackedAt(h, db, log, i);
    StartOfOperation(h, db, log[i], c, o, a, k);
  }

  lemma AttemptAndCredential(h: Hashing, db: Db, o: Uuid) returns (a: Uuid, k: Uuid)
    requires GraphSound(h, db) && o in db.operations
    ensures a in db.attempts && db.attempts[a].operationId == o
    ensures k in db.credentials && db.credentials[k].attemptId == a
  {
    hide OperationConstraints, AttemptConstraints, CredentialConstraints;
    a :| a in db.attempts && db.attempts[a].operationId == o;
    k :| k in db.credentials && db.credentials[k].attemptId == a;
  }

  lemma StartOfOperation(h: Hashing, db: Db, e: Entry, c: Command, o: Uuid, a: Uuid, k: Uuid)
    requires CollisionFree(h) && c.StartAi? && PlaintextOf(e, k) && EntryBacked(h, db, e) && EntryTrue(h, db, e)
    requires o in db.operations && a in db.attempts && db.attempts[a].operationId == o
    requires k in db.credentials && db.credentials[k].attemptId == a
    requires db.operations[o].requestId == c.requestId
             && db.operations[o].configurationHash == h.ConfigurationHash(c.settings)
    ensures StartedAlready(e, c)
  {
    hide AgreesWithRecord, SuccessEvidenced, RecordAsAsked, AttemptAsAsked;
    ConfigurationExact(h, e.command.settings, c.settings);
  }

  // ------------------------------------------------------------------ what a start leaves

  /** Whatever runs later, the rows of a first 202 are the ones its command asked for: the operation has the
      input and the six settings, the attempt and its credential are the caller's, and the announced expiry
      is the attempt's creation time plus the configured seconds. */
  lemma StartsAreAsConfigured(h: Hashing, events: seq<Event>, later: seq<Event>, i: nat)
    requires var w := Run(h, EMPTY_WORLD, events);
             i < |w.log| && FirstReply(w.log[i]) && w.log[i].reply.outcome.snapshot.StartAiSnapshot?
    ensures
      var e, db := Run(h, EMPTY_WORLD, events).log[i], Run(h, EMPTY_WORLD, events + later).db;
      var c, s := e.command, e.reply.outcome.snapshot;
      && c.StartAi? && c.requestId in db.requests
      && s.operationId in db.operations && s.attemptId in db.attempts && s.credentialId in db.credentials
      && OperationAsAsked(h, db.operations[s.operationId], db.requests[c.requestId], c)
      && AttemptAsAsked(db.attempts[s.attemptId], db.credentials[s.credentialId], c)
      && s.credentialExpiresAt == db.attempts[s.attemptId].createdAt + c.settings.callbackSeconds * 1_000_000
  {
    hide Run, SuccessEvidenced, RecordAsAsked;
    AnswersAreTrue(h, events, later, i);
  }
}
