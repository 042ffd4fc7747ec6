/** Replies stay true: what an outcome says about rows can be read in the database of every later world. */
module EngineReplies {
  import opened Model
  import opened CommandIdempotency
  import opened Commands
  import opened Invariants
  import opened Engine
  import opened EngineCommits
  import opened EngineMoves
  import opened EngineProcesses
  import opened EngineRuns
  import opened EngineTheorems
  import StartAi = StartAiInterpretationCommand
  import Intake

  /** An event of the command's caller, under its correlation and command id, with that name, for that version of
      the aggregate. */
  ghost predicate Evidenced(db: Db, g: Aggregate, version: int, name: EventName, commandId: Uuid, c: Command) {
    exists k :: 0 <= k < |db.audit| && Evidences(db.audit[k], g, version, name, commandId, c)
  }

  predicate Evidences(e: AuditEvent, g: Aggregate, version: int, name: EventName, commandId: Uuid, c: Command) {
    && e.aggregate == g && e.version == version && e.name == name
    && e.commandId == Some(commandId) && e.correlationId == c.correlationId
    && e.actor == WorkflowService && e.actorId == c.machine.identityId
  }

  /** An event of the customer, about the first version of an aggregate that the delivery `id` brought. */
  ghost predicate Reported(db: Db, g: Aggregate, name: EventName, id: Uuid, correlationId: Uuid) {
    exists k :: 0 <= k < |db.audit| && Reports(db.audit[k], g, name, id, correlationId)
  }

  predicate Reports(e: AuditEvent, g: Aggregate, name: EventName, id: Uuid, correlationId: Uuid) {
    && e.aggregate == g && e.version == 1 && e.name == name && e.commandId == None && e.correlationId == correlationId
    && e.actor == Customer && e.actorId == id
  }

  /** The rows a Start AI snapshot names exist and belong to one another as it says. */
  ghost predicate StartTrue(db: Db, s: Snapshot)
    requires s.StartAiSnapshot?
  {
    && s.requestId in db.requests && s.requestVersion <= db.requests[s.requestId].version
    && s.operationId in db.operations && db.operations[s.operationId].requestId == s.requestId
    && s.attemptId in db.attempts && db.attempts[s.attemptId].operationId == s.operationId
    && s.credentialId in db.credentials && db.credentials[s.credentialId].attemptId == s.attemptId
    && db.credentials[s.credentialId].version == s.credentialVersion
    && db.credentials[s.credentialId].expiresAt == s.credentialExpiresAt == db.attempts[s.attemptId].deadline
  }

  /** The attempt a claim/start snapshot names is Running, as it says. */
  ghost predicate ClaimTrue(db: Db, s: Snapshot)
    requires s.AttemptStartSnapshot?
  {
    && s.attemptId in db.attempts
    && var a := db.attempts[s.attemptId];
    && a.state == Running && a.version == s.attemptVersion && a.startedAt == Some(s.startedAt)
    && a.operationId == s.operationId && a.requestId == s.requestId && a.number == s.attemptNumber
    && a.adapterName == s.adapterName && a.adapterVersion == s.adapterVersion
  }

  ghost predicate SnapshotTrue(db: Db, s: Snapshot) {
    match s
    case ErrorSnapshot(_, _) => true
    case StartAiSnapshot(_, _, _, _, _, _, _) => StartTrue(db, s)
    case AttemptStartSnapshot(_, _, _, _, _, _, _, _) => ClaimTrue(db, s)
  }

  ghost predicate SuccessEvidenced(db: Db, c: Command, o: Outcome) {
    match o.snapshot
    case ErrorSnapshot(_, _) => true
    case StartAiSnapshot(requestId, _, attemptId, _, _, _, requestVersion) =>
      && Evidenced(db, RequestAggregate(requestId), requestVersion, AiInterpretationStarted, o.commandId, c)
      && Evidenced(db, AttemptAggregate(attemptId), 1, AttemptCreated, o.commandId, c)
    case AttemptStartSnapshot(_, _, attemptId, _, _, _, _, version) =>
      Evidenced(db, AttemptAggregate(attemptId), version, AttemptStarted, o.commandId, c)
  }

  // ------------------------------------------------------------------ what the caller asked for

  /** The operation is for the caller's request, with its input and the configured prompt, schema, provider, model
      and adapter. */
  predicate OperationAsAsked(h: Hashing, o: Operation, r: ServiceRequest, c: Command)
    requires c.StartAi?
  {
    && o.kind == AIInterpretation && o.requestId == c.requestId && o.inputHash == h.InputHash(r)
    && o.configurationHash == h.ConfigurationHash(c.settings)
    && o.promptVersion == c.settings.promptVersion && o.resultSchemaVersion == c.settings.resultSchemaVersion
    && o.providerName == c.settings.providerName && o.modelName == c.settings.modelName
    && o.adapterName == c.settings.adapterName && o.adapterVersion == c.settings.adapterVersion
  }

  /** The first attempt is assigned to the caller, and its callback may come for the configured number of seconds
      after it was created; the first credential was issued then, for as long. */
  predicate AttemptAsAsked(a: Attempt, k: Credential, c: Command)
    requires c.StartAi?
  {
    && a.number == 1 && a.kind == AIInterpretation && a.requestId == c.requestId
    && a.adapterName == c.settings.adapterName && a.adapterVersion == c.settings.adapterVersion
    && a.service == c.machine.serviceId && a.environment == c.machine.environment
    && a.deadline == a.createdAt + c.settings.callbackSeconds * 1_000_000
    && k.issuedAt == a.createdAt && k.expiresAt == a.deadline && k.version == 1 && k.kind == AIInterpretation
    && k.service == c.machine.serviceId && k.environment == c.machine.environment
  }

  /** The rows a first success names are those its command asks for. */
  ghost predicate AsAsked(h: Hashing, db: Db, c: Command, s: Snapshot) {
    match s
    case ErrorSnapshot(_, _) => true
    case StartAiSnapshot(requestId, operationId, attemptId, credentialId, _, _, _) =>
      && c.StartAi? && requestId == c.requestId && s.requestVersion == c.expectedVersion + 1
      && requestId in db.requests && operationId in db.operations
      && attemptId in db.attempts && credentialId in db.credentials
      && OperationAsAsked(h, db.operations[operationId], db.requests[requestId], c)
      && AttemptAsAsked(db.attempts[attemptId], db.credentials[credentialId], c)
    case AttemptStartSnapshot(_, _, attemptId, _, _, _, _, version) =>
      && c.ClaimStart? && attemptId == c.attemptId && version == c.expectedVersion + 1 && attemptId in db.attempts
      && db.attempts[attemptId].service == c.machine.serviceId
      && db.attempts[attemptId].environment == c.machine.environment
  }

  /** The stored record completes at the time of its call, and remembers the credential handed out, if any. */
  ghost predicate RecordAsAsked(db: Db, c: Command, o: Outcome) {
    && ScopeOf(c) in db.records
    && var r := db.records[ScopeOf(c)];
       && r.correlationId == c.correlationId && r.completedAt == Some(r.createdAt) && r.authorization == None
       && r.delivery == match o.snapshot
          case StartAiSnapshot(_, _, _, id, version, expiresAt, _) => Some(SecretDelivery(id, version, expiresAt))
          case _ => None
  }

  /** The delivery a submission's reply names records this submission and the outcome the reply announces. */
  ghost predicate DeliveryTrue(db: Db, s: Intake.Submission, id: Uuid, outcome: IntakeOutcome) {
    && id in db.deliveries && db.deliveries[id].outcome == outcome
    && db.deliveries[id].keyDigest == s.keyDigest && db.deliveries[id].correlationId == s.correlationId
    && if outcome == NewDelivery || outcome == IdempotentReplay then
         && s.Valid? && db.deliveries[id].processing == Accepted && db.deliveries[id].payloadHash == Some(s.payloadHash)
         && Reported(db, DeliveryAggregate(id), DeliveryAccepted, id, s.correlationId)
       else
         && db.deliveries[id].processing == Rejected && db.deliveries[id].payloadHash == None
         && Reported(db, DeliveryAggregate(id), DeliveryRejected, id, s.correlationId)
  }

  /** The request and its contact hold the submitted payload. */
  ghost predicate PayloadKept(db: Db, s: Intake.Submission, requestId: Uuid) {
    && s.Valid? && requestId in db.requests && db.requests[requestId].contactId in db.contacts
    && var r, contact, p := db.requests[requestId], db.contacts[db.requests[requestId].contactId], s.payload;
    && (r.description, r.location, r.timing) == (p.description, p.location, p.timing)
    && (contact.displayLabel, contact.email) == (p.displayName, p.email)
    && (contact.phone, contact.preferredChannel) == (p.phone, p.preferredChannel)
  }

  ghost predicate SubmissionTrue(db: Db, s: Intake.Submission, reply: Intake.IntakeReply) {
    match reply
    case Created(id, requestId) =>
      && DeliveryTrue(db, s, id, NewDelivery) && PayloadKept(db, s, requestId)
      && Reported(db, RequestAggregate(requestId), RequestCreated, id, s.correlationId)
    case Replayed(id, requestId, _, _) => DeliveryTrue(db, s, id, IdempotentReplay) && requestId in db.requests
    case Conflicting(id) => DeliveryTrue(db, s, id, IdempotencyConflict)
    case Refused(id) => DeliveryTrue(db, s, id, Invalid)
    case IntakeFailed => true
  }

  ghost predicate EntryTrue(h: Hashing, db: Db, e: Entry) {
    match e
    case CommandEntry(c, Answered(o)) =>
      || o.isReplay
      || (SnapshotTrue(db, o.snapshot) && SuccessEvidenced(db, c, o) && AsAsked(h, db, c, o.snapshot)
          && RecordAsAsked(db, c, o))
    case CommandEntry(_, Failed(_)) => true
    case IntakeEntry(s, reply) => SubmissionTrue(db, s, reply)
  }

  // ------------------------------------------------------------------ true when committed

  lemma EventAt(db: Db, g: Aggregate, version: int, name: EventName, commandId: Uuid, c: Command, k: nat)
    requires k < |db.audit| && Evidences(db.audit[k], g, version, name, commandId, c)
    ensures Evidenced(db, g, version, name, commandId, c)
  {
  }

  lemma ReportAt(db: Db, g: Aggregate, name: EventName, id: Uuid, correlationId: Uuid, k: nat)
    requires k < |db.audit| && Reports(db.audit[k], g, name, id, correlationId)
    ensures Reported(db, g, name, id, correlationId)
  {
  }

  lemma CommandEntryTrue(h: Hashing, db: Db, p: Process, c: Command)
    requires GraphSound(h, db) && CommandInv(h, db, p, c) && p.call == CommandCall(c) && EntryOf(h, p).Some?
    ensures EntryTrue(h, Apply(db, EffectsOf(h, p)), EntryOf(h, p).value)
  {
    hide GraphSound, RowsHeld, VerdictOf, InsertsHeld, IdentifierTaken, EntryTrue, StartOutcome;
    CommandEnds(h, db, p, c);
    if p.pc.Completing? && p.pc.verdict.Granted? {
      if c.StartAi? {
        GrantedStart(h, db, p, c);
        StartedAtVersion(h, db, c);
        SoundRequest(h, db, c.requestId);
        StartEntryTrue(h, db, p, c);
      } else {
        GrantedClaim(h, db, p, c);
        ClaimDecided(h, db, c, p.now);
        ClaimEntryTrue(h, db, p, c);
      }
    } else {
      OtherEntryTrue(h, db, p, c);
    }
  }

  lemma StartedAtVersion(h: Hashing, db: Db, c: Command)
    requires c.StartAi? && GraphSound(h, db) && StartAi.StartDecision(h, db, c) == Some(Granted)
    ensures c.requestId in db.requests && db.requests[c.requestId].version == c.expectedVersion
  {
    hide GraphSound, StartAi.StartDecision, NoOperationFor;
    StartDecided(h, db, c);
  }

  lemma OtherEntryTrue(h: Hashing, db: Db, p: Process, c: Command)
    requires p.call == CommandCall(c) && EntryOf(h, p).Some? && !(p.pc.Completing? && p.pc.verdict.Granted?)
    requires p.pc.Completing? ==>
               p.pc.record ==
                 ProcessingRecord(p.pc.record.id, p.pc.record.commandId, c.correlationId, c.bodyHash, p.now)
    ensures EntryTrue(h, Apply(db, EffectsOf(h, p)), EntryOf(h, p).value)
  {
  }

  lemma StartEntryTrue(h: Hashing, db: Db, p: Process, c: Command)
    requires p.call == CommandCall(c) && c.StartAi? && p.pc.Completing? && p.pc.verdict.Granted?
    requires c.requestId in db.requests && p.pc.rows.request == Read(db.requests[c.requestId])
    requires db.requests[c.requestId].id == c.requestId && db.requests[c.requestId].version == c.expectedVersion
    requires p.pc.record == ProcessingRecord(p.pc.record.id, p.pc.record.commandId, c.correlationId, c.bodyHash, p.now)
    ensures EntryOf(h, p).Some? && EntryTrue(h, Apply(db, EffectsOf(h, p)), EntryOf(h, p).value)
  {
    hide Evidenced, RecordAsAsked, AsAsked;
    var after, o := Apply(db, EffectsOf(h, p)), EntryOf(h, p).value.reply.outcome;
    EventAt(after, RequestAggregate(c.requestId), o.snapshot.requestVersion, AiInterpretationStarted, o.commandId, c,
            |db.audit|);
    EventAt(after, AttemptAggregate(o.snapshot.attemptId), 1, AttemptCreated, o.commandId, c, |db.audit| + 1);
    StartAsAsked(h, db, p, c);
  }

  lemma StartAsAsked(h: Hashing, db: Db, p: Process, c: Command)
    requires p.call == CommandCall(c) && c.StartAi? && p.pc.Completing? && p.pc.verdict.Granted?
    requires c.requestId in db.requests && p.pc.rows.request == Read(db.requests[c.requestId])
    requires db.requests[c.requestId].id == c.requestId && db.requests[c.requestId].version == c.expectedVersion
    requires p.pc.record == ProcessingRecord(p.pc.record.id, p.pc.record.commandId, c.correlationId, c.bodyHash, p.now)
    ensures EntryOf(h, p).Some? && EntryOf(h, p).value.CommandEntry? && EntryOf(h, p).value.reply.Answered?
    ensures AsAsked(h, Apply(db, EffectsOf(h, p)), c, EntryOf(h, p).value.reply.outcome.snapshot)
    ensures RecordAsAsked(Apply(db, EffectsOf(h, p)), c, EntryOf(h, p).value.reply.outcome)
  {
  }

  lemma ClaimEntryTrue(h: Hashing, db: Db, p: Process, c: Command)
    requires p.call == CommandCall(c) && c.ClaimStart? && p.pc.Completing? && p.pc.verdict.Granted?
    requires c.attemptId in db.attempts && p.pc.rows.attempt == Read(db.attempts[c.attemptId])
    requires db.attempts[c.attemptId].id == c.attemptId && Claimable(db.attempts[c.attemptId], c, p.now)
    requires p.pc.record == ProcessingRecord(p.pc.record.id, p.pc.record.commandId, c.correlationId, c.bodyHash, p.now)
    ensures EntryOf(h, p).Some? && EntryTrue(h, Apply(db, EffectsOf(h, p)), EntryOf(h, p).value)
  {
    hide Evidenced;
    var after, o := Apply(db, EffectsOf(h, p)), EntryOf(h, p).value.reply.outcome;
    EventAt(after, AttemptAggregate(c.attemptId), o.snapshot.attemptVersion, AttemptStarted, o.commandId, c,
            |db.audit|);
  }

  lemma SubmissionEntryTrue(h: Hashing, db: Db, p: Process, s: Intake.Submission)
    requires IntakeConserved(db) && IntakeInv(db, p, s) && p.call == IntakeCall(s) && p.pc.Recorded?
    ensures EntryTrue(h, Apply(db, EffectsOf(h, p)), EntryOf(h, p).value)
  {
    hide IntakeConserved, RecordedAgainstKey, RecordedAsInvalid, RecordedAsNew, SubmissionTrue, Apply;
    var reply, e, ids, seen := p.pc.reply, p.pc.effects, p.pc.intakeIds, p.pc.seen;
    if RecordedAgainstKey(db, s, reply, e, ids, seen) {
      AcceptedKeyFits(db, s.keyDigest);
      AgainstKeyTrue(db, s, reply, e, ids, seen);
    } else if RecordedAsInvalid(s, reply, e, ids, seen) {
      InvalidTrue(db, s, reply, e, ids, seen);
    } else if RecordedAsNew(db, s, p.held, reply, e, ids, seen) {
      NewTrue(db, s, p.held, reply, e, ids, seen);
    } else {
      FailedIsTrue(Apply(db, e), s);
    }
  }

  lemma FailedIsTrue(db: Db, s: Intake.Submission)
    ensures SubmissionTrue(db, s, Intake.IntakeFailed)
  {
  }

  lemma AgainstKeyTrue(db: Db, s: Intake.Submission, reply: Intake.IntakeReply, e: Effects, ids: Intake.IntakeIds,
                       seen: Seen<AcceptedKey>)
    requires RecordedAgainstKey(db, s, reply, e, ids, seen)
    requires s.keyDigest in db.keys ==> KeyFits(db.requests, db.deliveries, s.keyDigest, db.keys[s.keyDigest])
    ensures SubmissionTrue(Apply(db, e), s, reply)
  {
    hide Reported;
    ReportAt(Apply(db, e), DeliveryAggregate(ids.deliveryId), e.deliveryEvent.name, ids.deliveryId, s.correlationId,
             |db.audit|);
  }

  lemma InvalidTrue(db: Db, s: Intake.Submission, reply: Intake.IntakeReply, e: Effects, ids: Intake.IntakeIds,
                    seen: Seen<AcceptedKey>)
    requires RecordedAsInvalid(s, reply, e, ids, seen)
    ensures SubmissionTrue(Apply(db, e), s, reply)
  {
    hide Reported;
    ReportAt(Apply(db, e), DeliveryAggregate(ids.deliveryId), DeliveryRejected, ids.deliveryId, s.correlationId,
             |db.audit|);
  }

  lemma NewTrue(db: Db, s: Intake.Submission, held: set<Resource>, reply: Intake.IntakeReply, e: Effects,
                ids: Intake.IntakeIds, seen: Seen<AcceptedKey>)
    requires RecordedAsNew(db, s, held, reply, e, ids, seen)
    ensures SubmissionTrue(Apply(db, e), s, reply)
  {
    hide Intake.Insertable, CreateLocks, Reported;
    var after := Apply(db, e);
    ReportAt(after, DeliveryAggregate(ids.deliveryId), DeliveryAccepted, ids.deliveryId, s.correlationId, |db.audit|);
    ReportAt(after, RequestAggregate(ids.requestId), RequestCreated, ids.deliveryId, s.correlationId, |db.audit| + 1);
  }

  lemma CommitTrue(h: Hashing, db: Db, p: Process)
    requires Sound(h, db) && ProcessInv(h, db, p) && EntryOf(h, p).Some?
    ensures EntryTrue(h, Apply(db, EffectsOf(h, p)), EntryOf(h, p).value)
  {
    hide GraphSound, IntakeConserved, CommandInv, IntakeInv, EntryTrue;
    match p.call {
      case CommandCall(c) => CommandEntryTrue(h, db, p, c);
      case IntakeCall(s) => SubmissionEntryTrue(h, db, p, s);
    }
  }

  // ------------------------------------------------------------------ and true for ever

  lemma EvidencePersists(db: Db, after: Db, g: Aggregate, version: int, name: EventName, commandId: Uuid, c: Command)
    requires db.audit <= after.audit
    ensures Evidenced(db, g, version, name, commandId, c) ==> Evidenced(after, g, version, name, commandId, c)
  {
    if Evidenced(db, g, version, name, commandId, c) {
      var k :| 0 <= k < |db.audit| && Evidences(db.audit[k], g, version, name, commandId, c);
      assert after.audit[k] == db.audit[k];
    }
  }

  lemma ReportPersists(db: Db, after: Db, g: Aggregate, name: EventName, id: Uuid, correlationId: Uuid)
    requires db.audit <= after.audit
    ensures Reported(db, g, name, id, correlationId) ==> Reported(after, g, name, id, correlationId)
  {
    if Reported(db, g, name, id, correlationId) {
      var k :| 0 <= k < |db.audit| && Reports(db.audit[k], g, name, id, correlationId);
      assert after.audit[k] == db.audit[k];
    }
  }

  lemma AsAskedPersists(h: Hashing, db: Db, after: Db, c: Command, o: Outcome)
    requires AsAsked(h, db, c, o.snapshot) && RecordAsAsked(db, c, o) && Evolves(db, after)
    ensures AsAsked(h, after, c, o.snapshot) && RecordAsAsked(after, c, o)
  {
  }

  lemma SnapshotPersists(db: Db, after: Db, s: Snapshot)
    requires SnapshotTrue(db, s) && Evolves(db, after)
    ensures SnapshotTrue(after, s)
  {
  }

  lemma SuccessPersists(db: Db, after: Db, c: Command, o: Outcome)
    requires SuccessEvidenced(db, c, o) && db.audit <= after.audit
    ensures SuccessEvidenced(after, c, o)
  {
    hide Evidenced;
    match o.snapshot {
      case StartAiSnapshot(requestId, _, attemptId, _, _, _, version) =>
        EvidencePersists(db, after, RequestAggregate(requestId), version, AiInterpretationStarted, o.commandId, c);
        EvidencePersists(db, after, AttemptAggregate(attemptId), 1, AttemptCreated, o.commandId, c);
      case AttemptStartSnapshot(_, _, attemptId, _, _, _, _, version) =>
        EvidencePersists(db, after, AttemptAggregate(attemptId), version, AttemptStarted, o.commandId, c);
      case _ =>
    }
  }

  lemma SubmissionPersists(db: Db, after: Db, s: Intake.Submission, reply: Intake.IntakeReply)
    requires SubmissionTrue(db, s, reply) && Evolves(db, after)
    ensures SubmissionTrue(after, s, reply)
  {
    hide Reported;
    if !reply.IntakeFailed? {
      ReportPersists(db, after, DeliveryAggregate(reply.deliveryId), DeliveryAccepted, reply.deliveryId,
                     s.correlationId);
      ReportPersists(db, after, DeliveryAggregate(reply.deliveryId), DeliveryRejected, reply.deliveryId,
                     s.correlationId);
      if reply.Created? {
        ReportPersists(db, after, RequestAggregate(reply.requestId), RequestCreated, reply.deliveryId, s.correlationId);
      }
    }
  }

  lemma EntryStaysTrue(h: Hashing, db: Db, after: Db, e: Entry)
    requires EntryTrue(h, db, e) && Evolves(db, after)
    ensures EntryTrue(h, after, e)
  {
    match e {
      case CommandEntry(c, Answered(o)) =>
        hide SnapshotTrue, SuccessEvidenced, AsAsked, RecordAsAsked, Grows, RequestsEvolve, AttemptsEvolve;
        if !o.isReplay {
          SnapshotPersists(db, after, o.snapshot);
          AsAskedPersists(h, db, after, c, o);
          SuccessPersists(db, after, c, o);
        }
      case CommandEntry(_, Failed(_)) =>
      case IntakeEntry(s, reply) => SubmissionPersists(db, after, s, reply);
    }
  }

  ghost predicate LogTrue(h: Hashing, w: World) { forall i :: 0 <= i < |w.log| ==> EntryTrue(h, w.db, w.log[i]) }

  lemma {:induction false} RunTrue(h: Hashing, events: seq<Event>)
    ensures LogTrue(h, Run(h, EMPTY_WORLD, events))
  {
    hide Step, WorldInv, EntryTrue;
    if events != [] {
      var past, e := events[..|events| - 1], events[|events| - 1];
      RunTrue(h, past);
      ReachableInv(h, past);
      StepTrue(h, Run(h, EMPTY_WORLD, past), e);
    }
  }

  lemma StepTrue(h: Hashing, w: World, e: Event)
    requires WorldInv(h, w) && LogTrue(h, w)
    ensures LogTrue(h, Step(h, w, e))
  {
    hide Sound, ProcessInv, LogSound, EntryTrue, EntryOf, EffectsOf, Apply, StepProcess, Evolves;
    var after := Step(h, w, e);
    StepKeepsInv(h, w, e);
    forall i | 0 <= i < |after.log| ensures EntryTrue(h, after.db, after.log[i]) {
      if i < |w.log| { EntryStaysTrue(h, w.db, after.db, w.log[i]); }
      else { CommitTrue(h, w.db, w.processes[e.pid]); }
    }
  }

  /** Every answer ever given, first or replayed, is true of the database of every later world: the
      request, operation, attempt and credential a Start AI snapshot names are there and belong to one
      another, the attempt a claim/start snapshot names is Running as it says, every first success is
      evidenced under its command id and correlation, and the delivery an intake reply names records
      that submission, with its payload kept. */
  lemma AnswersAreTrue(h: Hashing, events: seq<Event>, later: seq<Event>, i: nat)
    requires i < |Run(h, EMPTY_WORLD, events).log|
    ensures
      var e, db := Run(h, EMPTY_WORLD, events).log[i], Run(h, EMPTY_WORLD, events + later).db;
      && EntryTrue(h, db, e)
      && (e.CommandEntry? && e.reply.Answered? ==> SnapshotTrue(db, e.reply.outcome.snapshot))
  {
    hide WorldInv, Run, EntryTrue, SnapshotTrue, Evolves;
    var w := Run(h, EMPTY_WORLD, events);
    RunTrue(h, events);
    AnswerIsTrue(h, events, i);
    ReachableInv(h, events);
    RunKeepsInv(h, w, later);
    RunConcat(h, EMPTY_WORLD, events, later);
    var after := Run(h, w, later);
    EntryStaysTrue(h, w.db, after.db, w.log[i]);
    if w.log[i].CommandEntry? && w.log[i].reply.Answered? {
      SnapshotPersists(w.db, after.db, w.log[i].reply.outcome.snapshot);
    }
  }

  /** A replayed snapshot is the winner's snapshot. */
  lemma AnswerIsTrue(h: Hashing, events: seq<Event>, i: nat)
    requires i < |Run(h, EMPTY_WORLD, events).log|
    ensures
      var w := Run(h, EMPTY_WORLD, events);
      w.log[i].CommandEntry? && w.log[i].reply.Answered? ==> SnapshotTrue(w.db, w.log[i].reply.outcome.snapshot)
  {
    hide Run, Sound, LogSound, AllProcesses, SnapshotTrue, SuccessEvidenced, Accounted;
    var w := Run(h, EMPTY_WORLD, events);
    RunTrue(h, events);
    RunAccounted(h, events);
    ReachableInv(h, events);
    if w.log[i].CommandEntry? && w.log[i].reply.Answered? {
      var scope := ScopeOf(w.log[i].command);
      BackedAt(h, w.db, w.log, i);
      RecordsAccounted(w.db, w.log, scope);
      var j :| 0 <= j < |w.log| && ExecutionOf(w.log[j], scope);
      BackedAt(h, w.db, w.log, j);
      assert EntryTrue(h, w.db, w.log[j]);
    }
  }
}
