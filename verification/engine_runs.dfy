/** The invariant of every reachable world: any interleaving of any calls, with commits, rollbacks
    and aborts anywhere. */
module EngineRuns {
  import opened Model
  import opened Sessions
  import opened CommandIdempotency
  import opened Commands
  import opened Evidence
  import opened Invariants
  import opened Engine
  import opened EngineFrames
  import opened EngineProcesses
  import opened EngineSteps
  import opened EngineCommits
  import StartAi = StartAiInterpretationCommand
  import Intake

  // ------------------------------------------------------------------ what a commit touches

  /** Updated rows follow their own evolution. */
  ghost predicate Updates(db: Db, e: Effects)
    requires Fits(db, e)
  {
    match e
    case InterpretationStarted(_, _, request, _, _, _, _, _, _) => RequestEvolves(db.requests[request.id], request)
    case AttemptClaimed(_, _, a, _, _) => AttemptEvolves(db.attempts[a.id], a)
    case _ => true
  }

  lemma FittingEvolves(db: Db, e: Effects)
    requires Fits(db, e) && Updates(db, e)
    ensures Evolves(db, Apply(db, e))
  {
  }

  lemma GuardFootprint(h: Hashing, db: Db, p: Process, c: Command)
    requires CommandInv(h, db, p, c) && p.call == CommandCall(c) && p.pc.Completing? && p.pc.verdict.Refused?
    ensures Fits(db, EffectsOf(h, p)) && Updates(db, EffectsOf(h, p)) && Footprint(EffectsOf(h, p)) <= p.held
  {
    hide RowsHeld, VerdictOf, IdentifierTaken;
  }

  lemma StartFootprint(h: Hashing, db: Db, p: Process, c: Command)
    requires GraphSound(h, db) && CommandInv(h, db, p, c) && p.call == CommandCall(c) && p.pc.Completing?
             && p.pc.verdict.Granted?
    requires c.StartAi?
    ensures Fits(db, EffectsOf(h, p)) && Updates(db, EffectsOf(h, p)) && Footprint(EffectsOf(h, p)) <= p.held
  {
    hide GraphSound, RowsHeld, VerdictOf, StartAi.OpaqueCredential, IdentifierTaken, StartAi.Insertable;
    GrantedStart(h, db, p, c);
    SoundRequest(h, db, c.requestId);
    var ids := p.pc.ids;
    InsertableIsNew(db, StartAi.NewOperation(h, c, p.pc.rows.request.row, ids), StartAi.NewAttempt(c, ids, p.now),
                    StartAi.NewCredential(h, c, ids, p.now, p.pc.token));
  }

  lemma ClaimFootprint(h: Hashing, db: Db, p: Process, c: Command)
    requires GraphSound(h, db) && CommandInv(h, db, p, c) && p.call == CommandCall(c) && p.pc.Completing?
             && p.pc.verdict.Granted?
    requires c.ClaimStart?
    ensures Fits(db, EffectsOf(h, p)) && Updates(db, EffectsOf(h, p)) && Footprint(EffectsOf(h, p)) <= p.held
  {
    hide GraphSound, RowsHeld, VerdictOf, IdentifierTaken;
    GrantedClaim(h, db, p, c);
  }

  lemma CommandFootprint(h: Hashing, db: Db, p: Process, c: Command)
    requires GraphSound(h, db) && CommandInv(h, db, p, c) && p.call == CommandCall(c) && p.pc.Completing?
    ensures Fits(db, EffectsOf(h, p)) && Footprint(EffectsOf(h, p)) <= p.held
    ensures Evolves(db, Apply(db, EffectsOf(h, p)))
  {
    hide GraphSound, HoldsKey, RowsHeld, VerdictOf, InsertsHeld, Fits, Updates, Footprint, Evolves;
    if p.pc.verdict.Refused? { GuardFootprint(h, db, p, c); }
    else if c.StartAi? { StartFootprint(h, db, p, c); }
    else { ClaimFootprint(h, db, p, c); }
    FittingEvolves(db, EffectsOf(h, p));
  }

  lemma IntakeFootprint(db: Db, p: Process, s: Intake.Submission)
    requires IntakeInv(db, p, s) && p.call == IntakeCall(s) && p.pc.Recorded?
    ensures Fits(db, p.pc.effects) && Footprint(p.pc.effects) <= p.held
    ensures Evolves(db, Apply(db, p.pc.effects))
  {
    hide Evolves, RecordedInv, Intake.Insertable, DeliveryOf;
    RecordedShape(db, s, p.held, p.pc.reply, p.pc.effects, p.pc.intakeIds, p.pc.seen);
    if p.pc.effects.RequestAccepted? { NewRequestIsNew(db, p.pc.intakeIds); }
    FittingEvolves(db, p.pc.effects);
  }

  lemma EvolvesReflexive(db: Db)
    ensures Evolves(db, db)
  {
  }

  lemma CommitFrame(h: Hashing, db: Db, p: Process)
    requires GraphSound(h, db) && ProcessInv(h, db, p) && EntryOf(h, p).Some?
    ensures Fits(db, EffectsOf(h, p)) && Footprint(EffectsOf(h, p)) <= p.held
    ensures Evolves(db, Apply(db, EffectsOf(h, p)))
  {
    hide GraphSound, CommandInv, IntakeInv, Evolves;
    match p.call {
      case CommandCall(c) =>
        CommandEnds(h, db, p, c);
        if p.pc.Completing? { CommandFootprint(h, db, p, c); } else { EvolvesReflexive(db); }
      case IntakeCall(s) => IntakeFootprint(db, p, s);
    }
  }

  // ------------------------------------------------------------------ the replies delivered so far

  /** The stored record a reply must agree with. */
  ghost predicate AgreesWithRecord(db: Db, c: Command, o: Outcome) {
    && ScopeOf(c) in db.records
    && var r := db.records[ScopeOf(c)];
    && r.bodyHash == c.bodyHash && r.commandId == o.commandId
    && r.httpStatus == Some(o.httpStatus) && r.snapshot == Some(o.snapshot)
  }

  /** Plaintext leaves only with a first 202 reply, and hashes to the stored credential. */
  ghost predicate PlaintextBacked(h: Hashing, db: Db, c: Command, o: Outcome) {
    o.plaintext.Some? ==>
      && c.StartAi? && !o.isReplay && o.httpStatus == 202 && o.snapshot.StartAiSnapshot?
      && o.snapshot.credentialId in db.credentials
      && db.credentials[o.snapshot.credentialId].hash == h.credential(o.plaintext.value)
  }

  /** A first 200 reply of claim/start means its attempt is Running. */
  ghost predicate ClaimBacked(db: Db, o: Outcome) {
    !o.isReplay && o.snapshot.AttemptStartSnapshot? ==>
      o.snapshot.attemptId in db.attempts && db.attempts[o.snapshot.attemptId].state == Running
  }

  ghost predicate EntryBacked(h: Hashing, db: Db, e: Entry) {
    match e
    case CommandEntry(c, Answered(o)) =>
      AgreesWithRecord(db, c, o) && PlaintextBacked(h, db, c, o) && ClaimBacked(db, o)
    case CommandEntry(c, Failed(error)) =>
      && OrdinaryFailure(error)
      && (error == ApiError(409, CommandIdempotencyConflict) ==>
            ScopeOf(c) in db.records && db.records[ScopeOf(c)].bodyHash != c.bodyHash)
    case IntakeEntry(s, Replayed(_, requestId, originalId, version)) =>
      && s.Valid? && s.keyDigest in db.keys && db.keys[s.keyDigest].payloadHash == s.payloadHash && version == 1
      && db.keys[s.keyDigest].requestId == requestId && db.keys[s.keyDigest].originalDeliveryId == originalId
    case IntakeEntry(s, Conflicting(_)) =>
      && s.keyDigest in db.keys && (s.Unusable? || db.keys[s.keyDigest].payloadHash != s.payloadHash)
    case IntakeEntry(s, Refused(_)) => s.Unusable?
    case IntakeEntry(s, Created(deliveryId, requestId)) =>
      && s.Valid? && s.keyDigest in db.keys && db.keys[s.keyDigest].payloadHash == s.payloadHash
      && db.keys[s.keyDigest].requestId == requestId && db.keys[s.keyDigest].originalDeliveryId == deliveryId
    case IntakeEntry(_, _) => true
  }

  predicate FirstReply(e: Entry) { e.CommandEntry? && e.reply.Answered? && !e.reply.outcome.isReplay }

  predicate IntakeCreated(e: Entry) { e.IntakeEntry? && e.intakeReply.Created? }

  /** Two replies that cannot both be delivered: two executions under one key, two plaintexts of one
      credential, two starts of one attempt, two requests created under one intake key. */
  predicate Incompatible(e: Entry, f: Entry) {
    || (FirstReply(e) && FirstReply(f)
        && (|| ScopeOf(e.command) == ScopeOf(f.command)
            || (e.reply.outcome.plaintext.Some? && f.reply.outcome.plaintext.Some?
                && e.reply.outcome.snapshot.StartAiSnapshot? && f.reply.outcome.snapshot.StartAiSnapshot?
                && e.reply.outcome.snapshot.credentialId == f.reply.outcome.snapshot.credentialId)
            || (e.reply.outcome.snapshot.AttemptStartSnapshot? && f.reply.outcome.snapshot.AttemptStartSnapshot?
                && e.reply.outcome.snapshot.attemptId == f.reply.outcome.snapshot.attemptId)))
    || (IntakeCreated(e) && IntakeCreated(f) && e.submission.keyDigest == f.submission.keyDigest)
  }

  ghost predicate LogSound(h: Hashing, db: Db, log: seq<Entry>) {
    && (forall i :: 0 <= i < |log| ==> EntryBacked(h, db, log[i]))
    && (forall i, j :: 0 <= i < j < |log| ==> !Incompatible(log[i], log[j]))
  }

  lemma EntryPersists(h: Hashing, db: Db, after: Db, e: Entry)
    requires EntryBacked(h, db, e) && Evolves(db, after)
    ensures EntryBacked(h, after, e)
  {
  }

  /** The reply of a commit is backed by the rows that commit writes, and no earlier reply can clash
      with it. */
  lemma CommandEntryBacked(h: Hashing, db: Db, p: Process, c: Command)
    requires GraphSound(h, db) && CommandInv(h, db, p, c) && p.call == CommandCall(c) && EntryOf(h, p).Some?
    ensures EntryBacked(h, Apply(db, EffectsOf(h, p)), EntryOf(h, p).value)
  {
    hide GraphSound, RowsHeld, VerdictOf, InsertsHeld, IdentifierTaken, EntryBacked;
    CommandEnds(h, db, p, c);
    if !p.pc.Completing? { ReplayBacked(h, db, p, c); }
    else if p.pc.verdict.Refused? { RefusalBacked(h, db, p, c); }
    else if c.StartAi? { GrantedStart(h, db, p, c); StartBacked(h, db, p, c); }
    else { GrantedClaim(h, db, p, c); ClaimReplyBacked(h, db, p, c); }
  }

  lemma ReplayBacked(h: Hashing, db: Db, p: Process, c: Command)
    requires CommandInv(h, db, p, c) && p.call == CommandCall(c) && (p.pc.Replaying? || p.pc.Failing?)
    ensures EntryBacked(h, db, EntryOf(h, p).value)
  {
  }

  lemma RefusalBacked(h: Hashing, db: Db, p: Process, c: Command)
    requires p.call == CommandCall(c) && p.pc.Completing? && p.pc.verdict.Refused?
    requires p.pc.record.bodyHash == c.bodyHash
    ensures EntryBacked(h, Apply(db, EffectsOf(h, p)), EntryOf(h, p).value)
  {
  }

  lemma StartBacked(h: Hashing, db: Db, p: Process, c: Command)
    requires p.call == CommandCall(c) && c.StartAi? && p.pc.Completing? && p.pc.verdict.Granted?
             && p.pc.rows.request.Read?
    requires p.pc.record.bodyHash == c.bodyHash
    ensures EntryBacked(h, Apply(db, EffectsOf(h, p)), EntryOf(h, p).value)
  {
  }

  lemma ClaimReplyBacked(h: Hashing, db: Db, p: Process, c: Command)
    requires p.call == CommandCall(c) && c.ClaimStart? && p.pc.Completing? && p.pc.verdict.Granted?
             && p.pc.rows.attempt.Read?
    requires p.pc.record.bodyHash == c.bodyHash
    ensures EntryBacked(h, Apply(db, EffectsOf(h, p)), EntryOf(h, p).value)
  {
  }

  lemma CommandEntryIsNew(h: Hashing, db: Db, p: Process, c: Command, earlier: Entry)
    requires GraphSound(h, db) && CommandInv(h, db, p, c) && p.call == CommandCall(c) && EntryOf(h, p).Some?
    requires EntryBacked(h, db, earlier)
    ensures !Incompatible(earlier, EntryOf(h, p).value)
  {
    hide GraphSound, RowsHeld, VerdictOf, StartAi.OpaqueCredential, IdentifierTaken;
    CommandEnds(h, db, p, c);
    if p.pc.Completing? && p.pc.verdict.Granted? {
      if c.StartAi? { GrantedStart(h, db, p, c); } else { GrantedClaim(h, db, p, c); }
    }
  }

  lemma IntakeEntryBacked(h: Hashing, db: Db, p: Process, s: Intake.Submission)
    requires IntakeConserved(db) && IntakeInv(db, p, s) && p.call == IntakeCall(s) && p.pc.Recorded?
    ensures EntryBacked(h, Apply(db, EffectsOf(h, p)), EntryOf(h, p).value)
  {
    hide IntakeConserved, Intake.Insertable;
    AcceptedKeyFits(db, s.keyDigest);
  }

  lemma IntakeEntryIsNew(h: Hashing, db: Db, p: Process, s: Intake.Submission, earlier: Entry)
    requires IntakeInv(db, p, s) && p.call == IntakeCall(s) && p.pc.Recorded? && EntryBacked(h, db, earlier)
    ensures !Incompatible(earlier, EntryOf(h, p).value)
  {
    hide Intake.Insertable;
  }

  lemma LogAppend(h: Hashing, db: Db, after: Db, log: seq<Entry>, e: Entry)
    requires LogSound(h, db, log) && Evolves(db, after) && EntryBacked(h, after, e)
    requires forall i :: 0 <= i < |log| ==> !Incompatible(log[i], e)
    ensures LogSound(h, after, log + [e])
  {
    hide Evolves, EntryBacked, Incompatible;
    forall i | 0 <= i < |log + [e]|
      ensures EntryBacked(h, after, (log + [e])[i])
    {
      if i < |log| { EntryPersists(h, db, after, log[i]); }
    }
  }

  lemma LogAfterCommit(h: Hashing, db: Db, log: seq<Entry>, p: Process)
    requires Sound(h, db) && ProcessInv(h, db, p) && EntryOf(h, p).Some? && LogSound(h, db, log)
    ensures LogSound(h, Apply(db, EffectsOf(h, p)), log + [EntryOf(h, p).value])
  {
    hide GraphSound, IntakeConserved, EvidenceComplete, RecordsComplete, CommandInv, IntakeInv, Evolves, EntryBacked,
         Incompatible;
    CommitFrame(h, db, p);
    match p.call {
      case CommandCall(c) =>
        CommandEntryBacked(h, db, p, c);
        forall i | 0 <= i < |log|
          ensures !Incompatible(log[i], EntryOf(h, p).value)
        {
          CommandEntryIsNew(h, db, p, c, log[i]);
        }
      case IntakeCall(s) =>
        IntakeEntryBacked(h, db, p, s);
        forall i | 0 <= i < |log|
          ensures !Incompatible(log[i], EntryOf(h, p).value)
        {
          IntakeEntryIsNew(h, db, p, s, log[i]);
        }
    }
    LogAppend(h, db, Apply(db, EffectsOf(h, p)), log, EntryOf(h, p).value);
  }

  // ------------------------------------------------------------------ the world invariant

  ghost predicate LocksDisjoint(processes: map<nat, Process>) {
    forall p, q :: p in processes && q in processes && p != q ==> processes[p].held !! processes[q].held
  }

  ghost predicate AllProcesses(h: Hashing, db: Db, processes: map<nat, Process>) {
    forall p :: p in processes ==> ProcessInv(h, db, processes[p])
  }

  ghost predicate WorldInv(h: Hashing, w: World) {
    && Sound(h, w.db)
    && AllProcesses(h, w.db, w.processes)
    && LocksDisjoint(w.processes)
    && LogSound(h, w.db, w.log)
  }

  lemma EndedInv(h: Hashing, db: Db, p: Process, position: nat)
    ensures ProcessInv(h, db, Ended(p, position))
  {
  }

  lemma ProcessesAfterCommit(h: Hashing, w: World, pid: nat)
    requires WorldInv(h, w) && pid in w.processes && EntryOf(h, w.processes[pid]).Some?
    ensures AllProcesses(h, Apply(w.db, EffectsOf(h, w.processes[pid])),
                         w.processes[pid := Ended(w.processes[pid], |w.log|)])
  {
    hide Sound, LogSound, ProcessInv, Evolves, Stable, Fits, Ended;
    var p := w.processes[pid];
    var after := Apply(w.db, EffectsOf(h, p));
    SoundGraph(h, w.db);
    CommitFrame(h, w.db, p);
    EvolvesKeeps(w.db, after);
    EndedInv(h, after, p, |w.log|);
    forall q | q in w.processes && q != pid
      ensures ProcessInv(h, after, w.processes[q])
    {
      CommitIsStable(w.db, EffectsOf(h, p), w.processes[q].held);
      ProcessStable(h, w.db, after, w.processes[q]);
    }
  }

  lemma SoundGraph(h: Hashing, db: Db)
    requires Sound(h, db)
    ensures RecordsComplete(db.records) && GraphSound(h, db)
  {
    hide GraphSound, IntakeConserved, EvidenceComplete;
  }

  lemma EvolvesKeeps(db: Db, after: Db)
    requires Evolves(db, after)
    ensures RowsPersist(db, after)
  {
  }

  lemma StepKeepsInv(h: Hashing, w: World, e: Event)
    requires WorldInv(h, w)
    ensures WorldInv(h, Step(h, w, e))
    ensures Evolves(w.db, Step(h, w, e).db)
  {
    hide Sound, LogSound, ProcessInv, Evolves;
    EvolvesReflexive(w.db);
    match e {
      case Begin(pid, call, now) => BeginKeeps(h, w.db, call, now);
      case Abort(pid) =>
      case Advance(pid, ids, intakeIds, token) =>
        if pid in w.processes && !w.processes[pid].pc.Delivering? {
          if EntryOf(h, w.processes[pid]).Some? {
            CommitKeepsInv(h, w, pid);
          } else {
            PrivateKeepsInv(h, w, pid, ids, intakeIds, token);
          }
        }
    }
  }

  lemma BeginKeeps(h: Hashing, db: Db, call: Call, now: Time)
    ensures ProcessInv(h, db, Process(call, now, {}, Opened))
  {
  }

  lemma CommitKeepsInv(h: Hashing, w: World, pid: nat)
    requires WorldInv(h, w) && pid in w.processes && EntryOf(h, w.processes[pid]).Some?
    ensures
      var p := w.processes[pid];
      var after := w.(db := Apply(w.db, EffectsOf(h, p)), log := w.log + [EntryOf(h, p).value],
                      processes := w.processes[pid := Ended(p, |w.log|)]);
      WorldInv(h, after) && Evolves(w.db, after.db)
  {
    hide Sound, LogSound, ProcessInv, Evolves, AllProcesses;
    SoundGraph(h, w.db);
    ProcessOf(h, w, pid);
    CommitFrame(h, w.db, w.processes[pid]);
    CommitKeepsSound(h, w.db, w.processes[pid]);
    ProcessesAfterCommit(h, w, pid);
    LogAfterCommit(h, w.db, w.log, w.processes[pid]);
  }

  lemma ProcessOf(h: Hashing, w: World, pid: nat)
    requires AllProcesses(h, w.db, w.processes) && pid in w.processes
    ensures ProcessInv(h, w.db, w.processes[pid])
  {
    hide ProcessInv;
  }

  lemma PrivateKeepsInv(h: Hashing, w: World, pid: nat, ids: Ids, intakeIds: Intake.IntakeIds, token: Option<string>)
    requires WorldInv(h, w) && pid in w.processes
    ensures
      var q := StepProcess(h, w.db, Taken(w, pid), w.processes[pid], ids, intakeIds, token);
      WorldInv(h, w.(processes := w.processes[pid := q]))
  {
    hide Sound, LogSound, ProcessInv, StepProcess;
    SoundGraph(h, w.db);
    ProcessKeeps(h, w.db, Taken(w, pid), w.processes[pid], ids, intakeIds, token);
    StepAcquires(h, w.db, Taken(w, pid), w.processes[pid], ids, intakeIds, token);
    var q := StepProcess(h, w.db, Taken(w, pid), w.processes[pid], ids, intakeIds, token);
    forall r | r in w.processes && r != pid
      ensures q.held !! w.processes[r].held
    {
      assert w.processes[r].held <= Taken(w, pid);
    }
  }

  /** Every world reachable from the empty database satisfies the invariant, and every later world
      only evolves the earlier one. */
  lemma {:induction false} RunKeepsInv(h: Hashing, w: World, events: seq<Event>)
    requires WorldInv(h, w)
    ensures WorldInv(h, Run(h, w, events))
    ensures Evolves(w.db, Run(h, w, events).db)
  {
    hide WorldInv, Evolves, Step;
    if events == [] {
      EvolvesReflexive(w.db);
    } else {
      var before := Run(h, w, events[..|events| - 1]);
      RunKeepsInv(h, w, events[..|events| - 1]);
      StepKeepsInv(h, before, events[|events| - 1]);
      EvolvesTransitive(w.db, before.db, Run(h, w, events).db);
    }
  }

  lemma EmptyWorldInv(h: Hashing)
    ensures WorldInv(h, EMPTY_WORLD)
  {
    EmptyIsSound(h);
  }
}
