/** Commits are atomic: what a call that ran concurrently answers and writes, against what it would have
    done in one piece. */
module EngineAtomicity {
  import opened Model
  import opened CommandExecution
  import opened CommandIdempotency
  import opened Commands
  import opened Invariants
  import opened Engine
  import opened EngineCommits
  import opened EngineMoves
  import opened EngineProcesses
  import opened EngineRuns
  import opened EngineSteps
  import opened EngineTheorems
  import AttemptStart
  import StartAi = StartAiInterpretationCommand
  import Intake

  // ------------------------------------------------------------------ commands

  /** The same call executed in one piece on the database it commits to. */
  ghost function ExecutionAt(h: Hashing, db: Db, p: Process, c: Command): (Reply, Effects)
    requires p.pc.Completing?
  {
    Execution(h, db, c, p.pc.record, p.now, p.pc.ids, Some(p.pc.token))
  }

  /** The target was missing when the call looked, and is there for this caller when it commits. */
  predicate TargetAppeared(db: Db, c: Command, rows: Rows) {
    TargetAbsent(c, rows) &&
    match c
    case StartAi(requestId, _, _, _, _, _, _) => requestId in db.requests
    case ClaimStart(attemptId, _, _, _, _, machine) =>
      && attemptId in db.attempts
      && db.attempts[attemptId].service == machine.serviceId
      && db.attempts[attemptId].environment == machine.environment
  }

  lemma StartIsAtomic(h: Hashing, db: Db, p: Process, c: Command)
    requires c.StartAi? && GraphSound(h, db) && CommandInv(h, db, p, c) && p.call == CommandCall(c) && p.pc.Completing?
    ensures Committable(p)
    ensures (CommittedReply(h, p), EffectsOf(h, p)) == ExecutionAt(h, db, p, c) <==> !TargetAppeared(db, c, p.pc.rows)
  {
    hide GraphSound, HoldsKey, StartAi.Insertable, StartAi.OpaqueCredential, StartAi.ExistingOperationVerdict,
         StartAi.FindOperation;
    if TargetAbsent(c, p.pc.rows) {
      StartDecided(h, db, c);
    } else {
      VerdictMonotone(h, c, p.now, p.pc.rows, RowsIn(h, db, c));
      if p.pc.verdict.Granted? { GrantedStart(h, db, p, c); }
    }
  }

  lemma ClaimIsAtomic(h: Hashing, db: Db, p: Process, c: Command)
    requires c.ClaimStart? && GraphSound(h, db) && CommandInv(h, db, p, c) && p.call == CommandCall(c)
             && p.pc.Completing?
    ensures Committable(p)
    ensures (CommittedReply(h, p), EffectsOf(h, p)) == ExecutionAt(h, db, p, c) <==> !TargetAppeared(db, c, p.pc.rows)
  {
    hide GraphSound, HoldsKey, AttemptStart.GraphVerdict, AttemptStart.CredentialVerdict;
    if TargetAbsent(c, p.pc.rows) {
      ClaimDecided(h, db, c, p.now);
      if TargetAppeared(db, c, p.pc.rows) { ClaimNotMissing(h, db, c, p.now); }
    } else {
      VerdictMonotone(h, c, p.now, p.pc.rows, RowsIn(h, db, c));
      if p.pc.verdict.Granted? { GrantedClaim(h, db, p, c); }
    }
  }

  lemma ClaimNotMissing(h: Hashing, db: Db, c: Command, now: Time)
    requires c.ClaimStart? && c.attemptId in db.attempts
    requires db.attempts[c.attemptId].service == c.machine.serviceId
             && db.attempts[c.attemptId].environment == c.machine.environment
    ensures var v := AttemptStart.ClaimDecision(h, db, c, now); v.Some? && v.value.Refused? ==> v.value.status == 409
  {
    hide AttemptStart.GraphVerdict, AttemptStart.CredentialVerdict;
  }

  lemma CommandIsAtomic(h: Hashing, db: Db, p: Process, c: Command)
    requires GraphSound(h, db) && CommandInv(h, db, p, c) && p.call == CommandCall(c) && p.pc.Completing?
    ensures Committable(p)
    ensures (CommittedReply(h, p), EffectsOf(h, p)) == ExecutionAt(h, db, p, c) <==> !TargetAppeared(db, c, p.pc.rows)
  {
    hide GraphSound, CommandInv, ExecutionAt, CommittedReply, EffectsOf;
    if c.StartAi? { StartIsAtomic(h, db, p, c); } else { ClaimIsAtomic(h, db, p, c); }
  }

  /** A committing command answers and writes exactly what one uninterrupted execution on the
      database at its commit would, if and only if its target has not appeared since the call found
      it missing: a row that does not exist cannot be locked. */
  lemma CommitIsAtomic(h: Hashing, events: seq<Event>, pid: nat)
    requires var w := Run(h, EMPTY_WORLD, events);
             pid in w.processes && w.processes[pid].call.CommandCall? && w.processes[pid].pc.Completing?
    ensures
      var w := Run(h, EMPTY_WORLD, events);
      var p := w.processes[pid];
      var c := p.call.command;
      && EntryOf(h, p).Some? && EntryOf(h, p).value.CommandEntry?
      && ((EntryOf(h, p).value.reply, EffectsOf(h, p)) == ExecutionAt(h, w.db, p, c) <==>
            !TargetAppeared(w.db, c, p.pc.rows))
  {
    hide WorldInv, CommandInv, ExecutionAt, CommittedReply, EffectsOf;
    var w := Run(h, EMPTY_WORLD, events);
    ReachableInv(h, events);
    CommandKnown(h, w, pid);
    CommandIsAtomic(h, w.db, w.processes[pid], w.processes[pid].call.command);
  }

  lemma CommandKnown(h: Hashing, w: World, pid: nat)
    requires WorldInv(h, w) && pid in w.processes && w.processes[pid].call.CommandCall?
    ensures GraphSound(h, w.db) && CommandInv(h, w.db, w.processes[pid], w.processes[pid].call.command)
  {
    hide LogSound, GraphSound, CommandInv;
    assert ProcessInv(h, w.db, w.processes[pid]);
  }

  // ------------------------------------------------------------------ submissions

  /** The lookup found no key, there is one now, and the delivery could be recorded against it. */
  predicate KeyAppeared(db: Db, s: Intake.Submission, ids: Intake.IntakeIds, seen: Seen<AcceptedKey>) {
    seen.Absent? && s.keyDigest in db.keys && ids.deliveryId !in db.deliveries
  }

  lemma RecordedIsAtomic(h: Hashing, db: Db, p: Process, s: Intake.Submission)
    requires IntakeInv(db, p, s) && p.call == IntakeCall(s) && p.pc.Recorded?
    ensures p.pc.reply == Intake.IntakeFailed ==> EffectsOf(h, p) == NoEffects
    ensures (p.pc.reply, EffectsOf(h, p)) == Intake.Submit(db, s, p.pc.intakeIds) <==>
              !KeyAppeared(db, s, p.pc.intakeIds, p.pc.seen)
  {
    hide Intake.Insertable;
    if Intake.Insertable(db, p.pc.intakeIds) { NewRequestIsNew(db, p.pc.intakeIds); }
  }

  /** A submission answers and writes exactly what one uninterrupted run of it on the database at its
      commit would, if and only if no key under which its delivery could be recorded has been accepted
      since its lookup found none.  (Only an unusable or a failed submission can meet that case: one
      that is accepted holds the key it inserts.)  A submission that failed wrote nothing. */
  lemma SubmissionIsAtomic(h: Hashing, events: seq<Event>, pid: nat)
    requires var w := Run(h, EMPTY_WORLD, events);
             pid in w.processes && w.processes[pid].call.IntakeCall? && w.processes[pid].pc.Recorded?
    ensures
      var w := Run(h, EMPTY_WORLD, events);
      var p := w.processes[pid];
      var s := p.call.submission;
      && (p.pc.reply == Intake.IntakeFailed ==> EffectsOf(h, p) == NoEffects)
      && ((p.pc.reply, EffectsOf(h, p)) == Intake.Submit(w.db, s, p.pc.intakeIds) <==>
            !KeyAppeared(w.db, s, p.pc.intakeIds, p.pc.seen))
  {
    hide WorldInv, IntakeInv, Intake.Submit, EffectsOf;
    var w := Run(h, EMPTY_WORLD, events);
    ReachableInv(h, events);
    SubmissionKnown(h, w, pid);
    RecordedIsAtomic(h, w.db, w.processes[pid], w.processes[pid].call.submission);
  }

  lemma SubmissionKnown(h: Hashing, w: World, pid: nat)
    requires WorldInv(h, w) && pid in w.processes && w.processes[pid].call.IntakeCall?
    ensures IntakeInv(w.db, w.processes[pid], w.processes[pid].call.submission)
  {
    hide LogSound, Sound, IntakeInv;
    assert ProcessInv(h, w.db, w.processes[pid]);
  }

  // ------------------------------------------------------------------ the exceptions are reachable

  /** The run after `events` is in world `w`. */
  ghost predicate Reaches(h: Hashing, events: seq<Event>, w: World) { Run(h, EMPTY_WORLD, events) == w }

  lemma ReachesNext(h: Hashing, events: seq<Event>, w: World, e: Event, next: World)
    requires Reaches(h, events, w) && Step(h, w, e) == next
    ensures Reaches(h, events + [e], next)
  {
    hide Step;
    RunThen(h, EMPTY_WORLD, events, e);
  }

  /** One private statement of a call that is alone on the empty database. */
  lemma AloneNext(h: Hashing, events: seq<Event>, p: Process, ids: Ids, intakeIds: Intake.IntakeIds, q: Process)
    returns (more: seq<Event>)
    requires Reaches(h, events, Alone(EMPTY_DB, [], [], p)) && !p.pc.Delivering? && EntryOf(h, p).None?
    requires StepProcess(h, EMPTY_DB, {}, p, ids, intakeIds, None) == q
    ensures Reaches(h, more, Alone(EMPTY_DB, [], [], q))
  {
    hide Reaches, Step, StepProcess, EntryOf;
    var go := Advance(0, ids, intakeIds, None);
    StepAlone(h, EMPTY_DB, [], [], p, ids, intakeIds, None);
    more := events + [go];
    ReachesNext(h, events, Alone(EMPTY_DB, [], [], p), go, Alone(EMPTY_DB, [], [], q));
  }

  lemma AloneBegins(h: Hashing, call: Call) returns (events: seq<Event>)
    ensures Reaches(h, events, Alone(EMPTY_DB, [], [], Process(call, 0, {}, Opened)))
  {
    events := [] + [Begin(0, call, 0)];
    ReachesNext(h, [], EMPTY_WORLD, Begin(0, call, 0), Alone(EMPTY_DB, [], [], Process(call, 0, {}, Opened)));
  }

  /** A valid submission runs to its commit beside an open call that holds none of its keys. */
  lemma SubmissionCommits(h: Hashing, events: seq<Event>, p: Process, s: Intake.Submission, ids: Ids,
                          intakeIds: Intake.IntakeIds)
    returns (more: seq<Event>, q: Process)
    requires s.Valid? && Reaches(h, events, Alone(EMPTY_DB, [], [], p)) && CreateLocks(s, intakeIds) !! p.held
    ensures Reaches(h, more, Pair(Apply(EMPTY_DB, Intake.CreateEffects(s, intakeIds)),
                                  [IntakeEntry(s, Intake.Created(intakeIds.deliveryId, intakeIds.requestId))], p, q))
  {
    hide Reaches, Step, Apply, Intake.CreateEffects, CreateLocks;
    var begin, go := Begin(1, IntakeCall(s), 0), Advance(1, ids, intakeIds, None);
    var begun := Process(IntakeCall(s), 0, {}, Opened);
    var missing := begun.(pc := KeyMissing);
    var reply, e := Intake.Created(intakeIds.deliveryId, intakeIds.requestId), Intake.CreateEffects(s, intakeIds);
    var created := begun.(held := CreateLocks(s, intakeIds), pc := Recorded(reply, e, intakeIds, Absent));
    MoveBegin(h, Alone(EMPTY_DB, [], [], p), 1, IntakeCall(s), 0);
    assert Alone(EMPTY_DB, [], [], p).processes[1 := begun] == Pair(EMPTY_DB, [], p, begun).processes;
    ReachesNext(h, events, Alone(EMPTY_DB, [], [], p), begin, Pair(EMPTY_DB, [], p, begun));
    StepSecond(h, EMPTY_DB, [], p, begun, ids, intakeIds, None);
    ReachesNext(h, events + [begin], Pair(EMPTY_DB, [], p, begun), go, Pair(EMPTY_DB, [], p, missing));
    StepSecond(h, EMPTY_DB, [], p, missing, ids, intakeIds, None);
    CreateIsFree(p.held, s, missing, intakeIds);
    ReachesNext(h, events + [begin] + [go], Pair(EMPTY_DB, [], p, missing), go, Pair(EMPTY_DB, [], p, created));
    StepSecond(h, EMPTY_DB, [], p, created, ids, intakeIds, None);
    q := Ended(created, 0);
    assert [] + [IntakeEntry(s, reply)] == [IntakeEntry(s, reply)];
    ReachesNext(h, events + [begin] + [go] + [go], Pair(EMPTY_DB, [], p, created), go,
                Pair(Apply(EMPTY_DB, e), [IntakeEntry(s, reply)], p, q));
    more := events + [begin] + [go] + [go] + [go];
  }

  lemma CreateIsFree(held: set<Resource>, s: Intake.Submission, p: Process, ids: Intake.IntakeIds)
    requires s.Valid? && CreateLocks(s, ids) !! held && p.held == {}
    ensures StepCreate(EMPTY_DB, held, p, s, ids) ==
              p.(held := CreateLocks(s, ids),
                 pc := Recorded(Intake.Created(ids.deliveryId, ids.requestId), Intake.CreateEffects(s, ids), ids,
                                Absent))
  {
    hide CreateLocks, Intake.CreateEffects;
    assert {} + CreateLocks(s, ids) == CreateLocks(s, ids);
  }

  /** A Start AI whose request does not exist holds its key and is about to commit a 404. */
  lemma MissingTarget(h: Hashing, c: Command, ids: Ids,
                      intakeIds: Intake.IntakeIds) returns (events: seq<Event>, p: Process)
    requires c.StartAi?
    ensures Reaches(h, events, Alone(EMPTY_DB, [], [], p))
    ensures p.call == CommandCall(c) && p.pc.Completing? && TargetAbsent(c, p.pc.rows)
    ensures p.held == ReservationLocks(ScopeOf(c), ids.recordId, ids.commandId)
  {
    hide Reaches, ReservationLocks, StartAi.FindOperation;
    var record := ProcessingRecord(ids.recordId, ids.commandId, c.correlationId, c.bodyHash, 0);
    var held := ReservationLocks(ScopeOf(c), ids.recordId, ids.commandId);
    var missing := NOTHING_READ.(request := Absent);
    var begun := Process(CommandCall(c), 0, {}, Opened);
    assert held * {} == {} && {} + held == held && held + LocksOf(missing) == held && LocksOf(missing) * {} == {};
    events := AloneBegins(h, CommandCall(c));
    events := AloneNext(h, events, begun, ids, intakeIds, begun.(pc := KeyMissing));
    events := AloneNext(h, events, begun.(pc := KeyMissing), ids, intakeIds,
                        begun.(held := held, pc := Working(record, NOTHING_READ)));
    events := AloneNext(h, events, begun.(held := held, pc := Working(record, NOTHING_READ)), ids, intakeIds,
                        begun.(held := held, pc := Working(record, missing)));
    p := begun.(held := held,
                pc := Completing(record, missing, Commands.Refused(404, ResourceNotFound, None), ids, ""));
    events := AloneNext(h, events, begun.(held := held, pc := Working(record, missing)), ids, intakeIds, p);
  }

  /** Start AI finds no request, a submission creates it and commits, and Start AI is then about to
      commit a 404 for a request that exists. */
  lemma TargetCanAppear(h: Hashing, c: Command, s: Intake.Submission, ids: Ids, intakeIds: Intake.IntakeIds)
    returns (events: seq<Event>)
    requires c.StartAi? && s.Valid? && intakeIds.requestId == c.requestId
    ensures
      var w := Run(h, EMPTY_WORLD, events);
      && 0 in w.processes && w.processes[0].call == CommandCall(c) && w.processes[0].pc.Completing?
      && TargetAppeared(w.db, c, w.processes[0].pc.rows)
  {
    hide Run, Step;
    var p: Process, q: Process;
    events, p := MissingTarget(h, c, ids, intakeIds);
    events, q := SubmissionCommits(h, events, p, s, ids, intakeIds);
  }

  /** An unusable submission finds no key, a valid one is accepted under that key, and the first is then
      about to record Invalid where it would now record a conflict. */
  lemma KeyCanAppear(h: Hashing, unusable: Intake.Submission, valid: Intake.Submission, ids: Ids,
                     first: Intake.IntakeIds, second: Intake.IntakeIds)
    returns (events: seq<Event>)
    requires unusable.Unusable? && valid.Valid? && unusable.keyDigest == valid.keyDigest
    requires first.deliveryId != second.deliveryId
    ensures
      var w := Run(h, EMPTY_WORLD, events);
      && 0 in w.processes && w.processes[0].call == IntakeCall(unusable) && w.processes[0].pc.Recorded?
      && w.processes[0].pc.reply == Intake.Refused(first.deliveryId)
      && KeyAppeared(w.db, unusable, w.processes[0].pc.intakeIds, w.processes[0].pc.seen)
  {
    hide Run, Step;
    var begun := Process(IntakeCall(unusable), 0, {}, Opened);
    var d := Intake.RejectedDelivery(unusable.keyDigest, unusable.correlationId, first.deliveryId);
    var p := begun.(held := {DeliveryRow(first.deliveryId)},
                     pc := Recorded(Intake.Refused(first.deliveryId), Intake.RecordEffects(d, first.deliveryAuditId),
                                    first, Absent));
    events := AloneBegins(h, IntakeCall(unusable));
    events := AloneNext(h, events, begun, ids, first, begun.(pc := KeyMissing));
    assert {} + {DeliveryRow(first.deliveryId)} == {DeliveryRow(first.deliveryId)};
    events := AloneNext(h, events, begun.(pc := KeyMissing), ids, first, p);
    var q: Process;
    events, q := SubmissionCommits(h, events, p, valid, ids, second);
  }
}
