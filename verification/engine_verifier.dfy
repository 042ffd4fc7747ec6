/** The callback verifier as a call among the others: what it answers, and how long its answer holds. */
module EngineVerifier {
  import opened Model
  import opened CallbackVerifier
  import opened CommandIdempotency
  import opened Commands
  import opened CredentialHistory
  import opened Invariants
  import opened Engine
  import opened EngineAtomicity
  import opened EngineMoves
  import opened EngineProcesses
  import opened EngineReplies
  import opened EngineRuns
  import opened EngineSolo
  import opened EngineTheorems
  import AttemptStart
  import Intake

  /** What the verifier says of `db` when it reads all of it at once. */
  ghost function VerificationOn(db: Db, k: Check, now: Time): Verification {
    VerifyRows(AttemptStart.ClaimRows(db, k.attemptId), k.machine, k.digest, now)
  }

  // ------------------------------------------------------------------ the decision on a sound database

  predicate Admits(c: Credential, digest: Digest, now: Time) {
    c.hash == digest && c.issuedAt <= now < c.expiresAt
  }

  lemma OnlyCredential(credentials: map<Uuid, Credential>, a: Uuid, k: Uuid, digest: Digest, now: Time)
    requires k in credentials && CredentialsOf(credentials, a) == map[k := credentials[k]]
    ensures Admits(credentials[k], digest, now) <==>
              exists c :: c in credentials && credentials[c].attemptId == a && Admits(credentials[c], digest, now)
  {
    var m := CredentialsOf(credentials, a);
    assert k in m;
    forall c | c in credentials && credentials[c].attemptId == a ensures c == k {
      assert c in m;
    }
  }

  lemma AnotherCallers(rows: Rows, machine: Machine, digest: Digest, now: Time)
    requires rows.attempt.Read? ==>
               rows.attempt.row.service != machine.serviceId || rows.attempt.row.environment != machine.environment
    ensures VerifyRows(rows, machine, digest, now) == NotFound
  {
  }

  lemma LoneVerification(rows: Rows, machine: Machine, k: Uuid, digest: Digest, now: Time)
    requires rows.attempt.Read? && rows.operation.Read? && rows.request.Read? && rows.siblings.Read?
             && rows.credentials.Read?
    requires var a, o, r := rows.attempt.row, rows.operation.row, rows.request.row;
             && AttemptChecks(a) && o.kind == AIInterpretation
             && a.adapterName == o.adapterName && a.adapterVersion == o.adapterVersion
             && o.requestId == r.id == a.requestId && o.succeededAttemptId == None
             && rows.siblings.row == map[a.id := a]
             && a.service == machine.serviceId && a.environment == machine.environment
             && k in rows.credentials.row && rows.credentials.row == map[k := rows.credentials.row[k]]
             && LoneCredentialFits(a, rows.credentials.row[k])
    ensures VerifyRows(rows, machine, digest, now) ==
              if rows.attempt.row.state == Running && Admits(rows.credentials.row[k], digest, now) then Verified(k)
              else Forbidden
  {
    LoneCredentialVerified(rows.attempt.row, machine, rows.credentials.row, k, digest, now);
  }

  predicate LoneCredentialFits(a: Attempt, d: Credential) {
    && CredentialChecks(d) && d.attemptId == a.id && d.state == Active && d.version == 1
    && d.expiresAt == a.deadline && d.service == a.service && d.environment == a.environment
  }

  lemma LoneCredentialVerified(a: Attempt, machine: Machine, creds: map<Uuid, Credential>, k: Uuid, digest: Digest,
                               now: Time)
    requires k in creds && creds == map[k := creds[k]] && LoneCredentialFits(a, creds[k])
    requires a.service == machine.serviceId && a.environment == machine.environment
    ensures CredentialVerification(a, machine, creds, digest, now) ==
              if Admits(creds[k], digest, now) then Verified(k) else Forbidden
  {
    assert ActiveIds(creds) == {k};
    assert TheActive(creds) == k;
    assert Matches(creds, digest) == if creds[k].hash == digest then {k} else {};
  }

  /** A definite answer: 404 for an attempt that is not the caller's; otherwise success exactly for a Running
      attempt with a credential that admits the digest at that time, and 403 for everything else. */
  ghost predicate Decides(db: Db, k: Check, now: Time, v: Verification) {
    if !CallersAttempt(db, AsClaim(k)) then v == NotFound
    else
      && !v.Internal? && !v.NotFound?
      && (v.Verified? <==> db.attempts[k.attemptId].state == Running && SomeAdmits(db, k, now))
  }

  ghost predicate SomeAdmits(db: Db, k: Check, now: Time) {
    exists c :: c in db.credentials && db.credentials[c].attemptId == k.attemptId
                && Admits(db.credentials[c], k.digest, now)
  }

  lemma SoundIsDecided(h: Hashing, db: Db, k: Check, now: Time)
    requires GraphSound(h, db)
    ensures Decides(db, k, now, VerificationOn(db, k, now))
  {
    hide GraphSound, VerifyRows;
    var rows := AttemptStart.ClaimRows(db, k.attemptId);
    if CallersAttempt(db, AsClaim(k)) {
      var c := AroundAttempt(h, db, k.attemptId);
      assert c in CredentialsOf(db.credentials, k.attemptId);
      LoneVerification(rows, k.machine, c, k.digest, now);
      OnlyCredential(db.credentials, k.attemptId, c, k.digest, now);
    } else {
      AnotherCallers(rows, k.machine, k.digest, now);
    }
  }

  /** On every reachable database the callback verifier has a definite answer, and its internal errors are
      dead code. */
  lemma VerifierIsDecided(h: Hashing, events: seq<Event>, k: Check, now: Time)
    ensures var db := Run(h, EMPTY_WORLD, events).db; Decides(db, k, now, VerificationOn(db, k, now))
  {
    hide GraphSound, Decides, VerificationOn;
    ReachableTables(h, events);
    SoundIsDecided(h, Run(h, EMPTY_WORLD, events).db, k, now);
  }

  // ------------------------------------------------------------------ the plaintext handed out

  /** Wherever an outcome carries the plaintext of a credential, the verifier accepts that plaintext: for the
      attempt the outcome names, from the caller it is assigned to, once it is Running and until the expiry the
      outcome announces, and it names that credential. */
  lemma PlaintextVerifies(h: Hashing, events: seq<Event>, i: nat, k: Check, now: Time)
    requires var w := Run(h, EMPTY_WORLD, events);
             i < |w.log| && CarriesPlaintext(w.log[i]) && w.log[i].reply.outcome.snapshot.StartAiSnapshot?
    requires var o := Run(h, EMPTY_WORLD, events).log[i].reply.outcome;
             k.attemptId == o.snapshot.attemptId && k.digest == h.credential(o.plaintext.value)
    ensures
      var db := Run(h, EMPTY_WORLD, events).db;
      var s := Run(h, EMPTY_WORLD, events).log[i].reply.outcome.snapshot;
      && s.credentialId in db.credentials && s.attemptId in db.attempts
      && (VerificationOn(db, k, now) == Verified(s.credentialId) <==>
            && CallersAttempt(db, AsClaim(k)) && db.attempts[s.attemptId].state == Running
            && db.credentials[s.credentialId].issuedAt <= now < s.credentialExpiresAt)
  {
    hide Run, GraphSound, VerificationOn, Decides, WorldInv, EntryBacked;
    var w := Run(h, EMPTY_WORLD, events);
    ReachableTables(h, events);
    ReachableInv(h, events);
    WorldLog(h, w);
    BackedAt(h, w.db, w.log, i);
    assert events + [] == events;
    AnswersAreTrue(h, events, [], i);
    var c := PlaintextRow(h, w.db, w.log[i]);
    OwnVerification(h, w.db, k, c, now);
  }

  lemma PlaintextRow(h: Hashing, db: Db, e: Entry) returns (c: Uuid)
    requires CarriesPlaintext(e) && e.reply.outcome.snapshot.StartAiSnapshot?
    requires EntryBacked(h, db, e) && SnapshotTrue(db, e.reply.outcome.snapshot)
    ensures c == e.reply.outcome.snapshot.credentialId && c in db.credentials
    ensures db.credentials[c].hash == h.credential(e.reply.outcome.plaintext.value)
    ensures db.credentials[c].attemptId == e.reply.outcome.snapshot.attemptId
    ensures db.credentials[c].attemptId in db.attempts
    ensures db.credentials[c].expiresAt == e.reply.outcome.snapshot.credentialExpiresAt
  {
    hide AgreesWithRecord;
    c := e.reply.outcome.snapshot.credentialId;
  }

  /** The credential of an attempt verifies with its own digest. */
  lemma OwnVerification(h: Hashing, db: Db, k: Check, c: Uuid, now: Time)
    requires GraphSound(h, db) && k.attemptId in db.attempts && c in db.credentials
    requires db.credentials[c].attemptId == k.attemptId && db.credentials[c].hash == k.digest
    ensures VerificationOn(db, k, now) == Verified(c) <==>
              && CallersAttempt(db, AsClaim(k)) && db.attempts[k.attemptId].state == Running
              && db.credentials[c].issuedAt <= now < db.credentials[c].expiresAt
  {
    hide GraphSound, VerifyRows;
    var d := AroundAttempt(h, db, k.attemptId);
    assert c in CredentialsOf(db.credentials, k.attemptId);
    var rows := AttemptStart.ClaimRows(db, k.attemptId);
    if CallersAttempt(db, AsClaim(k)) { LoneVerification(rows, k.machine, c, k.digest, now); }
    else { AnotherCallers(rows, k.machine, k.digest, now); }
  }

  // ------------------------------------------------------------------ an answer read row by row

  /** When nothing is left to read, the rows read give the answer of all the rows. */
  lemma DoneIsAll(db: Db, k: Check, now: Time, rows: Rows)
    requires Agrees(rows, AttemptStart.ClaimRows(db, k.attemptId)) && ReadingDone(rows, k.machine)
    ensures VerifyRows(rows, k.machine, k.digest, now) == VerificationOn(db, k, now)
  {
    hide GraphFault, CredentialVerification, LifecycleOk;
  }

  ghost predicate Answering(w: World, pid: nat, k: Check) {
    pid in w.processes && w.processes[pid].call == VerifyCall(k) && w.processes[pid].pc.Checked?
  }

  lemma VerifierKnown(h: Hashing, events: seq<Event>, pid: nat, k: Check)
    requires Answering(Run(h, EMPTY_WORLD, events), pid, k)
    ensures var w := Run(h, EMPTY_WORLD, events); GraphSound(h, w.db) && VerifyInv(h, w.db, w.processes[pid], k)
  {
    hide Sound, LogSound, GraphSound, VerifyInv;
    ReachableInv(h, events);
    var w := Run(h, EMPTY_WORLD, events);
    SoundGraph(h, w.db);
    assert ProcessInv(h, w.db, w.processes[pid]);
  }

  lemma AnswerOn(h: Hashing, db: Db, p: Process, k: Check)
    requires GraphSound(h, db) && VerifyInv(h, db, p, k) && p.pc.Checked?
    ensures p.pc.answer == VerificationOn(db, k, p.now) <==> !TargetAppeared(db, AsClaim(k), p.pc.rows)
    ensures !p.pc.answer.Internal?
    ensures !p.pc.answer.NotFound? ==> p.pc.rows == AttemptStart.ClaimRows(db, k.attemptId)
  {
    hide GraphSound, VerifyRows, LocksOf;
    SoundIsDecided(h, db, k, p.now);
    if TargetAbsent(AsClaim(k), p.pc.rows) {
      AnotherCallers(p.pc.rows, k.machine, k.digest, p.now);
    } else {
      DoneIsAll(db, k, p.now, p.pc.rows);
      if NotTheCallers(p.pc.rows, k.machine) { AnotherCallers(p.pc.rows, k.machine, k.digest, p.now); }
    }
  }

  /** The answer of a verification that read row by row under lock, between the statements and commits of
      other calls, is the answer all at once on the database of the moment, not only at its last read
      but for as long as its transaction is open; the one exception is an attempt it found missing,
      which it could not lock, and which exists now.  It is never an internal error. */
  lemma AnswerIsCurrent(h: Hashing, events: seq<Event>, pid: nat, k: Check)
    requires Answering(Run(h, EMPTY_WORLD, events), pid, k)
    ensures
      var w := Run(h, EMPTY_WORLD, events);
      var p := w.processes[pid];
      && (p.pc.answer == VerificationOn(w.db, k, p.now) <==> !TargetAppeared(w.db, AsClaim(k), p.pc.rows))
      && !p.pc.answer.Internal?
  {
    hide Run, GraphSound, VerifyInv, VerificationOn, TargetAppeared;
    VerifierKnown(h, events, pid, k);
    AnswerOn(h, Run(h, EMPTY_WORLD, events).db, Run(h, EMPTY_WORLD, events).processes[pid], k);
  }

  // ------------------------------------------------------------------ how long authority lasts

  lemma StepKeepsAnswer(h: Hashing, w: World, e: Event, pid: nat, k: Check)
    requires Answering(w, pid, k) && e != Abort(pid)
    ensures Answering(Step(h, w, e), pid, k) && Step(h, w, e).processes[pid] == w.processes[pid]
  {
    hide Apply, EffectsOf, StepCommand, StepIntake, CommittedReply, Committable;
  }

  lemma {:induction false} RunKeepsAnswer(h: Hashing, w: World, later: seq<Event>, pid: nat, k: Check)
    requires Answering(w, pid, k) && Abort(pid) !in later
    ensures Answering(Run(h, w, later), pid, k) && Run(h, w, later).processes[pid] == w.processes[pid]
  {
    hide Step, Answering;
    if later != [] {
      RunKeepsAnswer(h, w, later[..|later| - 1], pid, k);
      StepKeepsAnswer(h, Run(h, w, later[..|later| - 1]), later[|later| - 1], pid, k);
    }
  }

  /** Authority lasts exactly as long as its transaction: until that ends, whatever other calls do and
      whenever, the attempt, operation, request, sibling and credential rows it was established on
      stay as they are, so the attempt stays Running and the credential stays the one verified. */
  lemma AuthorityLasts(h: Hashing, events: seq<Event>, later: seq<Event>, pid: nat, k: Check)
    requires var w := Run(h, EMPTY_WORLD, events); Answering(w, pid, k) && w.processes[pid].pc.answer.Verified?
    requires Abort(pid) !in later
    ensures
      var w := Run(h, EMPTY_WORLD, events);
      var after := Run(h, EMPTY_WORLD, events + later);
      var p := w.processes[pid];
      && Answering(after, pid, k) && after.processes[pid] == p
      && AttemptStart.ClaimRows(after.db, k.attemptId) == AttemptStart.ClaimRows(w.db, k.attemptId)
      && p.pc.answer == VerificationOn(after.db, k, p.now)
      && k.attemptId in after.db.attempts && after.db.attempts[k.attemptId].state == Running
      && p.pc.answer.credentialId in after.db.credentials
      && Admits(after.db.credentials[p.pc.answer.credentialId], k.digest, p.now)
  {
    hide Run, GraphSound, VerifyInv, VerificationOn, TargetAppeared, Admits;
    var w := Run(h, EMPTY_WORLD, events);
    RunConcat(h, EMPTY_WORLD, events, later);
    RunKeepsAnswer(h, w, later, pid, k);
    var after := Run(h, EMPTY_WORLD, events + later);
    VerifierOn(h, events, pid, k);
    VerifierOn(h, events + later, pid, k);
    VerifiedRows(after.db, k, after.processes[pid].now);
  }

  lemma VerifierOn(h: Hashing, events: seq<Event>, pid: nat, k: Check)
    requires var w := Run(h, EMPTY_WORLD, events); Answering(w, pid, k) && w.processes[pid].pc.answer.Verified?
    ensures
      var w := Run(h, EMPTY_WORLD, events);
      var p := w.processes[pid];
      && p.pc.rows == AttemptStart.ClaimRows(w.db, k.attemptId)
      && p.pc.answer == VerificationOn(w.db, k, p.now)
  {
    hide Run, GraphSound;
    var w := Run(h, EMPTY_WORLD, events);
    VerifierKnown(h, events, pid, k);
    AnswerOn(h, w.db, w.processes[pid], k);
  }

  lemma VerifiedRows(db: Db, k: Check, now: Time)
    requires VerificationOn(db, k, now).Verified?
    ensures
      var v := VerificationOn(db, k, now);
      && k.attemptId in db.attempts && db.attempts[k.attemptId].state == Running
      && v.credentialId in db.credentials && Admits(db.credentials[v.credentialId], k.digest, now)
  {
    hide GraphFault, CredentialVerification, LifecycleOk;
    var a := db.attempts[k.attemptId];
    OnlyVerifiedMatches(a, k.machine, CredentialsOf(db.credentials, k.attemptId), k.digest, now);
  }

  // ------------------------------------------------------------------ a verification that runs alone

  lemma VerifierReads(h: Hashing, db: Db, k: Check, rows: Rows)
    requires Agrees(rows, AttemptStart.ClaimRows(db, k.attemptId)) && !ReadingDone(rows, k.machine)
    ensures
      var next := NextRows(h, db, AsClaim(k), rows);
      Agrees(next, AttemptStart.ClaimRows(db, k.attemptId)) && Unreads(next) < Unreads(rows)
  {
  }

  /** The rest of a verification from some of the rows. */
  lemma {:induction false} ReadAlone(h: Hashing, db: Db, log: seq<Entry>, received: seq<nat>, k: Check, p: Process,
                                     rows: Rows, ids: Ids, intakeIds: Intake.IntakeIds)
    returns (events: seq<Event>, q: Process)
    requires p.call == VerifyCall(k) && (p.pc == Verifying(rows) || (p.pc == Opened && rows == NOTHING_READ))
    requires Agrees(rows, AttemptStart.ClaimRows(db, k.attemptId))
    ensures Run(h, Alone(db, log, received, p), events) == Alone(db, log, received, q)
    ensures q.call == p.call && q.now == p.now && q.pc.Checked? && q.pc.answer == VerificationOn(db, k, p.now)
    decreases Unreads(rows)
  {
    hide Step, Run, NextRows, LocksOf, ReadingDone, VerifyRows, VerificationOn, Agrees, Unreads;
    var go := Advance(0, ids, intakeIds, None);
    StepAlone(h, db, log, received, p, ids, intakeIds, None);
    if ReadingDone(rows, k.machine) {
      DoneIsAll(db, k, p.now, rows);
      q := p.(pc := Checked(rows, VerifyRows(rows, k.machine, k.digest, p.now)));
      events := [go] + [];
      RunFrom(h, Alone(db, log, received, p), go, []);
      RunNothing(h, Alone(db, log, received, q));
    } else {
      var next := NextRows(h, db, AsClaim(k), rows);
      VerifierReads(h, db, k, rows);
      assert LocksOf(next) * {} == {};
      var read := p.(held := p.held + LocksOf(next), pc := Verifying(next));
      var rest;
      rest, q := ReadAlone(h, db, log, received, k, read, next, ids, intakeIds);
      events := [go] + rest;
      RunFrom(h, Alone(db, log, received, p), go, rest);
    }
  }

  lemma RunNothing(h: Hashing, w: World)
    ensures Run(h, w, []) == w
  {
  }

  /** From any reachable world with nothing open, a verification that runs alone through its statements and
      row locks answers what the verifier method answers on the tables, and writes nothing. */
  lemma SoloVerification(h: Hashing, past: seq<Event>, k: Check, now: Time, ids: Ids, intakeIds: Intake.IntakeIds)
    returns (events: seq<Event>, q: Process)
    requires Run(h, EMPTY_WORLD, past).processes == map[]
    ensures
      var w := Run(h, EMPTY_WORLD, past);
      && Run(h, w, events) == w.(processes := map[0 := q])
      && q.call == VerifyCall(k) && q.pc.Checked? && q.pc.answer == VerificationOn(w.db, k, now)
  {
    hide Run, VerificationOn;
    var w := Run(h, EMPTY_WORLD, past);
    var begin, p := Begin(0, VerifyCall(k), now), Process(VerifyCall(k), now, {}, Opened);
    assert Step(h, w, begin) == Alone(w.db, w.log, w.received, p);
    var rest;
    rest, q := ReadAlone(h, w.db, w.log, w.received, k, p, NOTHING_READ, ids, intakeIds);
    events := [begin] + rest;
    RunFrom(h, w, begin, rest);
  }
}
