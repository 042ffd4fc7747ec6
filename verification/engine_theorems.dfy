/** The guarantees of the command engine, for every run from the empty database: any number of
    concurrent calls, any interleaving of their statements, any aborts. */
module EngineTheorems {
  import opened Model
  import opened Sessions
  import opened CommandIdempotency
  import opened Commands
  import opened Evidence
  import opened Invariants
  import opened Engine
  import opened EngineProcesses
  import opened EngineSteps
  import opened EngineCommits
  import opened EngineRuns
  import AttemptStart
  import StartAi = StartAiInterpretationCommand
  import Intake

  lemma ReachableInv(h: Hashing, events: seq<Event>)
    ensures WorldInv(h, Run(h, EMPTY_WORLD, events))
  {
    hide WorldInv;
    EmptyWorldInv(h);
    RunKeepsInv(h, EMPTY_WORLD, events);
  }

  lemma ReachableTables(h: Hashing, events: seq<Event>)
    ensures var db := Run(h, EMPTY_WORLD, events).db; RecordsComplete(db.records) && GraphSound(h, db)
  {
    hide Sound, LogSound, AllProcesses, GraphSound, RecordsComplete;
    ReachableInv(h, events);
    SoundGraph(h, Run(h, EMPTY_WORLD, events).db);
  }

  // ------------------------------------------------------------------ structural soundness

  /** The structural failures of both commands are dead code in every reachable world: no process can
      decide one from the rows it holds, and none has ever been reported. */
  lemma NoStructuralFailure(h: Hashing, events: seq<Event>, pid: nat)
    ensures var w := Run(h, EMPTY_WORLD, events);
            && GraphSound(h, w.db)
            && (forall i :: 0 <= i < |w.log| && w.log[i].CommandEntry? ==> w.log[i].reply != Failed(RuntimeFailure))
            && (pid in w.processes && w.processes[pid].call.CommandCall? && w.processes[pid].pc.Working? ==>
                  var p := w.processes[pid];
                  var v := VerdictOf(h, p.call.command, p.now, p.pc.rows);
                  v.Some? ==> !v.value.Broken?)
  {
    hide GraphSound, VerdictOf, RowsHeld, EntryBacked;
    ReachableInv(h, events);
    var w := Run(h, EMPTY_WORLD, events);
    SoundGraph(h, w.db);
    forall i | 0 <= i < |w.log| && w.log[i].CommandEntry?
      ensures w.log[i].reply != Failed(RuntimeFailure)
    {
      NotStructural(h, w.db, w.log[i]);
    }
    if pid in w.processes && w.processes[pid].call.CommandCall? && w.processes[pid].pc.Working? {
      var p := w.processes[pid];
      assert ProcessInv(h, w.db, p);
      if VerdictOf(h, p.call.command, p.now, p.pc.rows).Some? {
        NeverBroken(h, w.db, p.call.command, p.now, p.held, p.pc.rows);
      }
    }
  }

  lemma NotStructural(h: Hashing, db: Db, e: Entry)
    requires EntryBacked(h, db, e) && e.CommandEntry?
    ensures e.reply != Failed(RuntimeFailure)
  {
  }

  // ------------------------------------------------------------------ all or nothing

  /** What one commit may do to the database. */
  ghost predicate WholeUnit(h: Hashing, db: Db, p: Process, e: Effects) {
    match e
    case NoEffects => true
    case GuardCompleted(scope, r) =>
      p.call.CommandCall? && scope == ScopeOf(p.call.command) && scope !in db.records
      && r.status == Completed && RecordChecks(r) && r.delivery == None && r.snapshot.value.ErrorSnapshot?
    case InterpretationStarted(_, r, _, _, _, _, _, _, _) =>
      && p.call.CommandCall? && p.call.command.StartAi? && p.call.command.requestId in db.requests && p.pc.Completing?
      && StartAi.StartDecision(h, db, p.call.command) == Some(Granted)
      && e == StartAi.StartEffects(h, p.call.command, p.pc.record, db.requests[p.call.command.requestId], p.now,
                                   p.pc.ids, p.pc.token)
      && r.status == Completed && r.httpStatus == Some(202)
    case AttemptClaimed(_, r, _, _, _) =>
      && p.call.CommandCall? && p.call.command.ClaimStart? && p.call.command.attemptId in db.attempts
      && p.pc.Completing?
      && AttemptStart.ClaimGranted(h, db, p.call.command, p.now)
      && e == AttemptStart.ClaimEffects(ScopeOf(p.call.command), p.pc.record, db.attempts[p.call.command.attemptId],
                                        p.call.command.machine,
                                        p.call.command.correlationId, p.now, p.pc.ids.attemptAuditId)
      && r.status == Completed && r.httpStatus == Some(200)
    case DeliveryRecorded(_, _, _) => p.call.IntakeCall?
    case RequestAccepted(_, _, _, _, _, _, _, _, _) => p.call.IntakeCall?
  }

  lemma CommitIsWhole(h: Hashing, db: Db, p: Process)
    requires Sound(h, db) && ProcessInv(h, db, p) && EntryOf(h, p).Some?
    ensures WholeUnit(h, db, p, EffectsOf(h, p))
  {
    hide GraphSound, IntakeConserved, EvidenceComplete, RecordsComplete, RowsHeld, VerdictOf, InsertsHeld,
         IdentifierTaken,
         StartAi.StartDecision, AttemptStart.ClaimDecision;
    match p.call {
      case CommandCall(c) =>
        CommandEnds(h, db, p, c);
        if p.pc.Completing? {
          if p.pc.verdict.Refused? { RefusalStatuses(h, c, p.now, p.pc.rows); }
          else if c.StartAi? { GrantedStart(h, db, p, c); }
          else { GrantedClaim(h, db, p, c); }
        }
      case IntakeCall(s) =>
        RecordedShape(db, s, p.held, p.pc.reply, p.pc.effects, p.pc.intakeIds, p.pc.seen);
    }
  }

  /** Every event of every run changes the committed database by nothing or by one whole unit: one
      Completed guard record, the full success graph with its Completed record, or one intake unit.
      So no run ever commits a Processing record. */
  lemma AllOrNothing(h: Hashing, events: seq<Event>, e: Event)
    ensures var w := Run(h, EMPTY_WORLD, events);
            var after := Step(h, w, e);
            && (after.db == w.db
                || (e.Advance? && e.pid in w.processes
                    && WholeUnit(h, w.db, w.processes[e.pid], EffectsOf(h, w.processes[e.pid]))
                    && after.db == Apply(w.db, EffectsOf(h, w.processes[e.pid]))))
            && (forall k :: k in after.db.records ==> after.db.records[k].status == Completed)
  {
    hide Sound, ProcessInv, LogSound, WholeUnit, EffectsOf, EntryOf, StepProcess;
    ReachableInv(h, events);
    var w := Run(h, EMPTY_WORLD, events);
    StepKeepsInv(h, w, e);
    SoundGraph(h, Step(h, w, e).db);
    if e.Advance? && e.pid in w.processes && EntryOf(h, w.processes[e.pid]).Some? {
      CommitIsWhole(h, w.db, w.processes[e.pid]);
    }
  }

  // ------------------------------------------------------------------ exactly once

  predicate ExecutionOf(e: Entry, scope: ScopeKey) { FirstReply(e) && ScopeOf(e.command) == scope }

  predicate StartOf(e: Entry, attemptId: Uuid) {
    FirstReply(e) && e.reply.outcome.snapshot.AttemptStartSnapshot? && e.reply.outcome.snapshot.attemptId == attemptId
  }

  predicate CarriesPlaintext(e: Entry) { e.CommandEntry? && e.reply.Answered? && e.reply.outcome.plaintext.Some? }

  predicate PlaintextOf(e: Entry, credentialId: Uuid) {
    && CarriesPlaintext(e)
    && e.reply.outcome.snapshot.StartAiSnapshot? && e.reply.outcome.snapshot.credentialId == credentialId
  }

  predicate CreationOf(e: Entry, digest: Digest) { IntakeCreated(e) && e.submission.keyDigest == digest }

  ghost predicate Logged(log: seq<Entry>, of: Entry -> bool) {
    exists i :: 0 <= i < |log| && of(log[i])
  }

  /** Every command record, Running attempt, credential and accepted key is the work of a logged outcome,
      whether or not its reply has been received. */
  ghost predicate Accounted(db: Db, log: seq<Entry>) {
    && (forall k :: k in db.records ==> Logged(log, e => ExecutionOf(e, k)))
    && (forall a :: a in db.attempts && db.attempts[a].state == Running ==> Logged(log, e => StartOf(e, a)))
    && (forall c :: c in db.credentials ==> Logged(log, e => PlaintextOf(e, c)))
    && (forall d :: d in db.keys ==> Logged(log, e => CreationOf(e, d)))
  }

  lemma StillLogged(log: seq<Entry>, e: Entry, of: Entry -> bool)
    ensures Logged(log, of) || of(e) ==> Logged(log + [e], of)
  {
    if of(e) { assert of((log + [e])[|log|]); }
    else if Logged(log, of) {
      var i :| 0 <= i < |log| && of(log[i]);
      assert of((log + [e])[i]);
    }
  }

  /** The entry announces whatever the tables gained. */
  ghost predicate Announces(db: Db, after: Db, e: Entry) {
    && (forall k :: k in after.records ==> k in db.records || ExecutionOf(e, k))
    && (forall a :: a in after.attempts && after.attempts[a].state == Running ==>
          (a in db.attempts && db.attempts[a].state == Running) || StartOf(e, a))
    && (forall c :: c in after.credentials ==> c in db.credentials || PlaintextOf(e, c))
    && (forall d :: d in after.keys ==> d in db.keys || CreationOf(e, d))
  }

  predicate Names(e: Entry, effects: Effects) {
    match effects
    case NoEffects => true
    case GuardCompleted(scope, _) => ExecutionOf(e, scope)
    case InterpretationStarted(scope, _, _, _, a, k, _, _, _) =>
      ExecutionOf(e, scope) && PlaintextOf(e, k.id) && a.state == AttemptState.Pending
    case AttemptClaimed(scope, _, a, _, _) => ExecutionOf(e, scope) && StartOf(e, a.id)
    case DeliveryRecorded(_, _, _) => true
    case RequestAccepted(digest, _, _, _, _, _, _, _, _) => CreationOf(e, digest)
  }

  lemma NamedIsAnnounced(db: Db, effects: Effects, e: Entry)
    requires Names(e, effects)
    ensures Announces(db, Apply(db, effects), e)
  {
    hide ExecutionOf, StartOf, PlaintextOf, CreationOf;
  }

  lemma CommandAnnounces(h: Hashing, db: Db, p: Process, c: Command)
    requires WholeUnit(h, db, p, EffectsOf(h, p)) && EntryOf(h, p).Some? && p.call == CommandCall(c)
    requires p.pc.Completing? && !p.pc.verdict.Broken?
    requires p.pc.verdict.Granted? && c.ClaimStart? ==>
               p.pc.rows.attempt.Read? && p.pc.rows.attempt.row.id == c.attemptId
    ensures Names(EntryOf(h, p).value, EffectsOf(h, p))
  {
    hide StartAi.StartDecision, AttemptStart.ClaimDecision, RecordChecks;
  }

  lemma IntakeAnnounces(db: Db, p: Process, s: Intake.Submission, h: Hashing)
    requires IntakeInv(db, p, s) && p.call == IntakeCall(s) && p.pc.Recorded?
    ensures Names(EntryOf(h, p).value, EffectsOf(h, p))
  {
    hide Intake.Insertable;
  }

  /** An outcome names whatever its commit adds. */
  lemma CommitAnnounces(h: Hashing, db: Db, p: Process)
    requires Sound(h, db) && ProcessInv(h, db, p) && EntryOf(h, p).Some?
    ensures Announces(db, Apply(db, EffectsOf(h, p)), EntryOf(h, p).value)
  {
    hide GraphSound, IntakeConserved, EvidenceComplete, RecordsComplete, WholeUnit, CommandInv, IntakeInv, Announces;
    match p.call {
      case CommandCall(c) =>
        CommandEnds(h, db, p, c);
        if p.pc.Completing? {
          CommitIsWhole(h, db, p);
          if p.pc.verdict.Granted? && c.ClaimStart? { GrantedClaim(h, db, p, c); }
          CommandAnnounces(h, db, p, c);
          NamedIsAnnounced(db, EffectsOf(h, p), EntryOf(h, p).value);
        } else {
          NothingToAnnounce(db, EntryOf(h, p).value);
        }
      case IntakeCall(s) =>
        IntakeAnnounces(db, p, s, h);
        NamedIsAnnounced(db, EffectsOf(h, p), EntryOf(h, p).value);
    }
  }

  lemma NothingToAnnounce(db: Db, e: Entry)
    ensures Announces(db, db, e)
  {
  }

  lemma AccountedAfter(db: Db, after: Db, log: seq<Entry>, e: Entry)
    requires Accounted(db, log) && Announces(db, after, e)
    ensures Accounted(after, log + [e])
  {
    hide Logged, ExecutionOf, StartOf, PlaintextOf, CreationOf;
    forall k | k in after.records ensures Logged(log + [e], x => ExecutionOf(x, k)) {
      StillLogged(log, e, x => ExecutionOf(x, k));
    }
    forall a | a in after.attempts && after.attempts[a].state == Running ensures Logged(log + [e], x => StartOf(x, a)) {
      StillLogged(log, e, x => StartOf(x, a));
    }
    forall c | c in after.credentials ensures Logged(log + [e], x => PlaintextOf(x, c)) {
      StillLogged(log, e, x => PlaintextOf(x, c));
    }
    forall d | d in after.keys ensures Logged(log + [e], x => CreationOf(x, d)) {
      StillLogged(log, e, x => CreationOf(x, d));
    }
  }

  lemma {:induction false} RunAccounted(h: Hashing, events: seq<Event>)
    ensures var w := Run(h, EMPTY_WORLD, events); Accounted(w.db, w.log)
  {
    hide WorldInv, Accounted, Apply, EffectsOf, EntryOf, StepProcess;
    if events == [] {
      EmptyAccounted();
    } else {
      var past, e := events[..|events| - 1], events[|events| - 1];
      var before := Run(h, EMPTY_WORLD, past);
      RunAccounted(h, past);
      ReachableInv(h, past);
      if e.Advance? && e.pid in before.processes && EntryOf(h, before.processes[e.pid]).Some? {
        CommitAccounted(h, before, e.pid);
      }
    }
  }

  lemma EmptyAccounted()
    ensures Accounted(EMPTY_DB, [])
  {
  }

  lemma CommitAccounted(h: Hashing, w: World, pid: nat)
    requires WorldInv(h, w) && Accounted(w.db, w.log) && pid in w.processes && EntryOf(h, w.processes[pid]).Some?
    ensures var p := w.processes[pid]; Accounted(Apply(w.db, EffectsOf(h, p)), w.log + [EntryOf(h, p).value])
  {
    hide Sound, ProcessInv, LogSound, Accounted, Announces;
    CommitAnnounces(h, w.db, w.processes[pid]);
    AccountedAfter(w.db, Apply(w.db, EffectsOf(h, w.processes[pid])), w.log, EntryOf(h, w.processes[pid]).value);
  }

  ghost predicate AtMostOnce(log: seq<Entry>, of: Entry -> bool) {
    forall i, j :: 0 <= i < |log| && 0 <= j < |log| && of(log[i]) && of(log[j]) ==> i == j
  }

  /** The first execution of this call: of the same command, by the same actor, for the same target and under
      the same key. */
  predicate Executes(e: Entry, c: Command) { FirstReply(e) && SameCall(e.command, c) }

  /** At most one execution per command, actor, target and key ever commits, and a committed record is the
      mark of exactly one.  Every other answer to that call is the stored one when the body is the winner's,
      or a 409 conflict only when it is not. */
  lemma OneExecutionPerKey(h: Hashing, events: seq<Event>, c: Command)
    ensures var w := Run(h, EMPTY_WORLD, events);
            && AtMostOnce(w.log, e => Executes(e, c))
            && (ScopeOf(c) in w.db.records <==> Logged(w.log, e => Executes(e, c)))
            && (forall i :: 0 <= i < |w.log| ==> AnsweredByRecord(w.db, c, w.log[i]))
  {
    hide Sound, LogSound, Accounted, AgreesWithRecord, AllProcesses, Logged, Executes, ExecutionOf, AtMostOnce,
         AnsweredByRecord;
    ReachableInv(h, events);
    RunAccounted(h, events);
    var w := Run(h, EMPTY_WORLD, events);
    SameExecutions(c);
    OneExecution(h, w.db, w.log, ScopeOf(c));
    SameOccurrences(w.log, e => ExecutionOf(e, ScopeOf(c)), e => Executes(e, c));
    forall i | 0 <= i < |w.log| ensures AnsweredByRecord(w.db, c, w.log[i]) {
      BackedAt(h, w.db, w.log, i);
      AnswersAgree(h, w.db, c, w.log[i]);
    }
  }

  lemma SameExecutions(c: Command)
    ensures forall e :: ExecutionOf(e, ScopeOf(c)) <==> Executes(e, c)
  {
    forall e ensures ExecutionOf(e, ScopeOf(c)) <==> Executes(e, c) {
      if FirstReply(e) { ScopeExact(e.command, c); }
    }
  }

  lemma SameOccurrences(log: seq<Entry>, f: Entry -> bool, g: Entry -> bool)
    requires forall e :: f(e) <==> g(e)
    ensures AtMostOnce(log, f) <==> AtMostOnce(log, g)
    ensures Logged(log, f) <==> Logged(log, g)
  {
  }

  lemma OneExecution(h: Hashing, db: Db, log: seq<Entry>, scope: ScopeKey)
    requires LogSound(h, db, log) && Accounted(db, log)
    ensures AtMostOnce(log, e => ExecutionOf(e, scope))
    ensures scope in db.records <==> Logged(log, e => ExecutionOf(e, scope))
  {
    hide LogSound, Accounted, Logged;
    LoggedAtMostOnce(h, db, log, e => ExecutionOf(e, scope));
    if scope in db.records { RecordsAccounted(db, log, scope); }
    if Logged(log, e => ExecutionOf(e, scope)) { LoggedRecord(h, db, log, scope); }
  }

  ghost predicate AnsweredByRecord(db: Db, c: Command, e: Entry) {
    e.CommandEntry? && SameCall(e.command, c) ==>
      match e.reply
      case Answered(o) => AgreesWithRecord(db, e.command, o)
      case Failed(error) =>
        error == ApiError(409, CommandIdempotencyConflict) ==>
          ScopeOf(c) in db.records && db.records[ScopeOf(c)].bodyHash != e.command.bodyHash
  }

  lemma AnswersAgree(h: Hashing, db: Db, c: Command, e: Entry)
    requires EntryBacked(h, db, e)
    ensures AnsweredByRecord(db, c, e)
  {
    hide AgreesWithRecord;
    if e.CommandEntry? { ScopeExact(e.command, c); }
  }

  lemma BackedAt(h: Hashing, db: Db, log: seq<Entry>, i: nat)
    requires LogSound(h, db, log) && i < |log|
    ensures EntryBacked(h, db, log[i])
  {
    hide EntryBacked, Incompatible;
  }

  lemma LoggedRecord(h: Hashing, db: Db, log: seq<Entry>, scope: ScopeKey)
    requires LogSound(h, db, log) && Logged(log, e => ExecutionOf(e, scope))
    ensures scope in db.records
  {
    hide Incompatible;
    var i :| 0 <= i < |log| && ExecutionOf(log[i], scope);
    assert EntryBacked(h, db, log[i]);
  }

  lemma RecordsAccounted(db: Db, log: seq<Entry>, scope: ScopeKey)
    requires Accounted(db, log) && scope in db.records
    ensures Logged(log, e => ExecutionOf(e, scope))
  {
    hide Logged;
  }

  /** Replies that exclude one another are logged at most once. */
  lemma LoggedAtMostOnce(h: Hashing, db: Db, log: seq<Entry>, of: Entry -> bool)
    requires LogSound(h, db, log)
    requires forall e, f :: of(e) && of(f) ==> Incompatible(e, f)
    ensures AtMostOnce(log, of)
  {
    hide EntryBacked, Incompatible;
  }

  /** An attempt is Running exactly when one claim/start execution, under whatever key and by whatever
      caller, has committed a 200 for it; there is never a second one. */
  lemma OneStartPerAttempt(h: Hashing, events: seq<Event>, a: Uuid)
    ensures var w := Run(h, EMPTY_WORLD, events);
            && AtMostOnce(w.log, e => StartOf(e, a))
            && (a in w.db.attempts && w.db.attempts[a].state == Running <==> Logged(w.log, e => StartOf(e, a)))
            && (a in w.db.attempts && w.db.attempts[a].state != Running ==>
                  w.db.attempts[a].state == AttemptState.Pending && w.db.attempts[a].version == 1)
            && (a in w.db.attempts && w.db.attempts[a].state == Running ==> w.db.attempts[a].version == 2)
  {
    hide Sound, LogSound, AllProcesses, Logged, GraphSound;
    ReachableInv(h, events);
    RunAccounted(h, events);
    var w := Run(h, EMPTY_WORLD, events);
    LoggedAtMostOnce(h, w.db, w.log, e => StartOf(e, a));
    if a in w.db.attempts {
      SoundGraph(h, w.db);
      var k := AroundAttempt(h, w.db, a);
    }
    if Logged(w.log, e => StartOf(e, a)) { LoggedStart(h, w.db, w.log, a); }
  }

  lemma LoggedStart(h: Hashing, db: Db, log: seq<Entry>, a: Uuid)
    requires LogSound(h, db, log) && Logged(log, e => StartOf(e, a))
    ensures a in db.attempts && db.attempts[a].state == Running
  {
    hide Incompatible;
    var i :| 0 <= i < |log| && StartOf(log[i], a);
    assert EntryBacked(h, db, log[i]);
  }

  /** The plaintext of each committed credential is in exactly one outcome, a first 202 that ended with the
      credential's own commit, and hashes to the stored hash.  No replay carries one. */
  lemma OnePlaintextPerCredential(h: Hashing, events: seq<Event>, c: Uuid)
    ensures var w := Run(h, EMPTY_WORLD, events);
            && AtMostOnce(w.log, e => PlaintextOf(e, c))
            && (c in w.db.credentials <==> Logged(w.log, e => PlaintextOf(e, c)))
            && (forall i :: 0 <= i < |w.log| && PlaintextOf(w.log[i], c) ==>
                  var o := w.log[i].reply.outcome;
                  && !o.isReplay && o.httpStatus == 202 && c in w.db.credentials
                  && w.db.credentials[c].hash == h.credential(o.plaintext.value))
            && (forall i :: 0 <= i < |w.log| && CarriesPlaintext(w.log[i]) ==>
                w.log[i].reply.outcome.snapshot.StartAiSnapshot?)
  {
    hide Sound, LogSound, AllProcesses, Logged, GraphSound, Incompatible;
    ReachableInv(h, events);
    RunAccounted(h, events);
    var w := Run(h, EMPTY_WORLD, events);
    PlaintextsExclude(h, w.db, w.log, c);
    forall i | 0 <= i < |w.log| && CarriesPlaintext(w.log[i])
      ensures EntryBacked(h, w.db, w.log[i])
    {
      BackedAt(h, w.db, w.log, i);
    }
    if Logged(w.log, e => PlaintextOf(e, c)) { LoggedPlaintext(h, w.db, w.log, c); }
  }

  lemma PlaintextsExclude(h: Hashing, db: Db, log: seq<Entry>, c: Uuid)
    requires LogSound(h, db, log)
    ensures AtMostOnce(log, e => PlaintextOf(e, c))
  {
    LoggedAtMostOnce(h, db, log, e => PlaintextOf(e, c) && FirstReply(e));
    forall i | 0 <= i < |log| && PlaintextOf(log[i], c) ensures FirstReply(log[i]) {
      BackedAt(h, db, log, i);
    }
  }

  lemma LoggedPlaintext(h: Hashing, db: Db, log: seq<Entry>, c: Uuid)
    requires LogSound(h, db, log) && Logged(log, e => PlaintextOf(e, c))
    ensures c in db.credentials
  {
    hide Incompatible;
    var i :| 0 <= i < |log| && PlaintextOf(log[i], c);
    assert EntryBacked(h, db, log[i]);
  }

  lemma CredentialsAccounted(db: Db, log: seq<Entry>, k: Uuid)
    requires Accounted(db, log) && k in db.credentials
    ensures Logged(log, e => PlaintextOf(e, k))
  {
    hide Logged;
  }

  lemma KeysAccounted(db: Db, log: seq<Entry>, digest: Digest)
    requires Accounted(db, log) && digest in db.keys
    ensures Logged(log, e => CreationOf(e, digest))
  {
    hide Logged;
  }

  lemma CreationsExclude(h: Hashing, db: Db, log: seq<Entry>, digest: Digest)
    requires LogSound(h, db, log)
    ensures AtMostOnce(log, e => CreationOf(e, digest))
  {
    hide LogSound;
    LoggedAtMostOnce(h, db, log, e => CreationOf(e, digest));
  }

  lemma WorldLog(h: Hashing, w: World)
    requires WorldInv(h, w)
    ensures LogSound(h, w.db, w.log)
  {
    hide LogSound;
  }
}
