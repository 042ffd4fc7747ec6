/** Every answer has its reason in the log: the earlier first execution behind a replay or a conflict, and the
    earlier acceptance behind a submission that creates nothing. */
module EngineAnswers {
  import opened Model
  import opened Sessions
  import opened CommandIdempotency
  import opened Commands
  import opened Evidence
  import opened Invariants
  import opened Engine
  import opened EngineCommits
  import opened EngineProcesses
  import opened EngineRuns
  import opened EngineTheorems
  import Intake

  // ------------------------------------------------------------------ commands

  /** `o` repeats the outcome `first`, marked as a replay and without its plaintext. */
  predicate Repeats(first: Outcome, o: Outcome) { o == first.(isReplay := true, plaintext := None) }

  predicate IsReplay(e: Entry) { e.CommandEntry? && e.reply.Answered? && e.reply.outcome.isReplay }

  predicate IsConflict(e: Entry) { e.CommandEntry? && e.reply == Failed(ApiError(409, CommandIdempotencyConflict)) }

  /** The entry answers the same call as the first execution `first`: by repeating it when the body is the
      same, and with a conflict when it is not. */
  predicate AnsweredFrom(first: Entry, e: Entry) {
    && e.CommandEntry? && Executes(first, e.command)
    && (IsReplay(e) ==> e.command.bodyHash == first.command.bodyHash && Repeats(first.reply.outcome, e.reply.outcome))
    && (IsConflict(e) ==> e.command.bodyHash != first.command.bodyHash)
  }

  /** A replay or a conflict comes after the first execution of the same call. */
  ghost predicate Won(log: seq<Entry>, i: nat)
    requires i < |log|
  {
    IsReplay(log[i]) || IsConflict(log[i]) ==> exists j :: 0 <= j < i && AnsweredFrom(log[j], log[i])
  }

  // ------------------------------------------------------------------ submissions

  /** The submission that was accepted under this key. */
  predicate Accepts(e: Entry, digest: Digest) { CreationOf(e, digest) && e.submission.Valid? }

  predicate SamePayload(s: Intake.Submission, t: Intake.Submission) {
    s.Valid? && t.Valid? && s.payloadHash == t.payloadHash
  }

  predicate ReplaysFrom(first: Entry, s: Intake.Submission, reply: Intake.IntakeReply) {
    && Accepts(first, s.keyDigest) && SamePayload(s, first.submission) && reply.Replayed?
    && reply.requestId == first.intakeReply.requestId && reply.originalDeliveryId == first.intakeReply.deliveryId
    && reply.requestVersion == 1
  }

  predicate ConflictsWith(first: Entry, s: Intake.Submission) {
    Accepts(first, s.keyDigest) && !SamePayload(s, first.submission)
  }

  /** A replay repeats an earlier acceptance of the same payload, a conflict meets one of another payload, a
      refusal is of an unusable submission, and a creation is the first under its key. */
  ghost predicate Resolved(log: seq<Entry>, i: nat)
    requires i < |log|
  {
    log[i].IntakeEntry? ==>
      var s := log[i].submission;
      match log[i].intakeReply
      case Replayed(_, _, _, _) => exists j :: 0 <= j < i && ReplaysFrom(log[j], s, log[i].intakeReply)
      case Conflicting(_) => exists j :: 0 <= j < i && ConflictsWith(log[j], s)
      case Refused(_) => s.Unusable?
      case Created(_, _) => s.Valid?
      case IntakeFailed => true
  }

  ghost predicate Reasoned(log: seq<Entry>) { forall i :: 0 <= i < |log| ==> Won(log, i) && Resolved(log, i) }

  // ------------------------------------------------------------------ over every run

  /** A call that is answered from a stored record repeats or contradicts the execution that stored it. */
  lemma CommandWon(h: Hashing, db: Db, log: seq<Entry>, p: Process, c: Command)
    requires CommandInv(h, db, p, c) && p.call == CommandCall(c) && EntryOf(h, p).Some?
    requires LogSound(h, db, log) && Accounted(db, log)
    ensures Won(log + [EntryOf(h, p).value], |log|)
  {
    hide LogSound, Accounted, Incompatible, RowsHeld, InsertsHeld, HoldsKey, VerdictOf, IdentifierTaken;
    var e := EntryOf(h, p).value;
    CommandEnds(h, db, p, c);
    if IsReplay(e) || IsConflict(e) {
      StoredBefore(h, db, p, c);
      RecordsAccounted(db, log, ScopeOf(c));
      var j :| 0 <= j < |log| && ExecutionOf(log[j], ScopeOf(c));
      BackedAt(h, db, log, j);
      ScopeExact(log[j].command, c);
      RepeatsRecord(h, db, log[j], p, c);
      assert (log + [e])[j] == log[j] && (log + [e])[|log|] == e;
    }
  }

  lemma StoredBefore(h: Hashing, db: Db, p: Process, c: Command)
    requires CommandInv(h, db, p, c) && p.call == CommandCall(c) && EntryOf(h, p).Some?
    requires IsReplay(EntryOf(h, p).value) || IsConflict(EntryOf(h, p).value)
    ensures ScopeOf(c) in db.records
            && (p.pc.Replaying? || p.pc == Failing(ApiError(409, CommandIdempotencyConflict), OtherBody))
  {
    hide HoldsKey, RowsHeld, InsertsHeld, VerdictOf, IdentifierTaken;
  }

  lemma RepeatsRecord(h: Hashing, db: Db, first: Entry, p: Process, c: Command)
    requires CommandInv(h, db, p, c) && p.call == CommandCall(c) && EntryOf(h, p).Some?
    requires p.pc.Replaying? || p.pc == Failing(ApiError(409, CommandIdempotencyConflict), OtherBody)
    requires EntryBacked(h, db, first) && Executes(first, c) && ScopeOf(first.command) == ScopeOf(c)
    ensures AnsweredFrom(first, EntryOf(h, p).value)
  {
    hide HoldsKey, RowsHeld, InsertsHeld, VerdictOf, IdentifierTaken, PlaintextBacked, ClaimBacked;
  }

  lemma SubmissionResolved(h: Hashing, db: Db, log: seq<Entry>, p: Process, s: Intake.Submission)
    requires IntakeConserved(db) && IntakeInv(db, p, s) && p.call == IntakeCall(s) && p.pc.Recorded?
    requires LogSound(h, db, log) && Accounted(db, log)
    ensures Resolved(log + [EntryOf(h, p).value], |log|)
  {
    hide LogSound, Accounted, Incompatible, IntakeConserved, Intake.Insertable;
    var e := EntryOf(h, p).value;
    AcceptedKeyFits(db, s.keyDigest);
    if e.intakeReply.Replayed? || e.intakeReply.Conflicting? {
      KeysAccounted(db, log, s.keyDigest);
      var j :| 0 <= j < |log| && CreationOf(log[j], s.keyDigest);
      BackedAt(h, db, log, j);
      assert (log + [e])[j] == log[j] && (log + [e])[|log|] == e;
      if e.intakeReply.Replayed? { assert ReplaysFrom(log[j], s, e.intakeReply); }
      else { assert ConflictsWith(log[j], s); }
    }
  }

  /** What is reasoned stays so when the log grows. */
  lemma ReasonedAppend(log: seq<Entry>, e: Entry)
    requires Reasoned(log) && Won(log + [e], |log|) && Resolved(log + [e], |log|)
    ensures Reasoned(log + [e])
  {
    hide AnsweredFrom, ReplaysFrom, ConflictsWith;
    var after := log + [e];
    forall i | 0 <= i < |after| ensures Won(after, i) && Resolved(after, i) {
      if i < |log| { StaysReasoned(log, e, i); }
    }
  }

  lemma StaysReasoned(log: seq<Entry>, e: Entry, i: nat)
    requires i < |log| && Won(log, i) && Resolved(log, i)
    ensures Won(log + [e], i) && Resolved(log + [e], i)
  {
    hide AnsweredFrom, ReplaysFrom, ConflictsWith;
    forall j | 0 <= j < i ensures (log + [e])[j] == log[j] {}
  }

  lemma EndIsReasoned(h: Hashing, w: World, pid: nat)
    requires WorldInv(h, w) && Accounted(w.db, w.log) && Reasoned(w.log)
    requires pid in w.processes && EntryOf(h, w.processes[pid]).Some?
    ensures Reasoned(w.log + [EntryOf(h, w.processes[pid]).value])
  {
    hide Accounted, GraphSound, IntakeConserved, EvidenceComplete, RecordsComplete, CommandInv, IntakeInv, LogSound,
         Reasoned;
    var p := w.processes[pid];
    assert ProcessInv(h, w.db, p);
    match p.call {
      case CommandCall(c) =>
        CommandWon(h, w.db, w.log, p, c);
        assert EntryOf(h, p).value.CommandEntry?;
      case IntakeCall(s) =>
        SubmissionResolved(h, w.db, w.log, p, s);
        assert EntryOf(h, p).value.IntakeEntry?;
    }
    ReasonedAppend(w.log, EntryOf(h, p).value);
  }

  lemma {:induction false} RunReasoned(h: Hashing, events: seq<Event>)
    ensures Reasoned(Run(h, EMPTY_WORLD, events).log)
  {
    hide WorldInv, Reasoned, Apply, EffectsOf, EntryOf, StepProcess;
    if events == [] {
      NothingLogged();
    } else {
      var past, e := events[..|events| - 1], events[|events| - 1];
      var before := Run(h, EMPTY_WORLD, past);
      RunReasoned(h, past);
      RunAccounted(h, past);
      ReachableInv(h, past);
      if e.Advance? && e.pid in before.processes && EntryOf(h, before.processes[e.pid]).Some? {
        EndIsReasoned(h, before, e.pid);
      }
    }
  }

  lemma NothingLogged()
    ensures Reasoned([])
  {
  }

  /** A call is answered with a replay or a 409 key conflict only after the first execution of the very same call:
      same command, actor, target and key.  A replay repeats that outcome and has its body, a conflict has
      another.  So a call with a fresh key is never answered from the key of another. */
  lemma AnswersHaveWinners(h: Hashing, events: seq<Event>, i: nat)
    requires i < |Run(h, EMPTY_WORLD, events).log|
    ensures Won(Run(h, EMPTY_WORLD, events).log, i)
  {
    hide Run, Won, Resolved;
    RunReasoned(h, events);
  }

  /** Under one key the payload decides: a valid submission that does not fail creates its request exactly when
      none was accepted before it, is a replay of that acceptance exactly when its payload hash is the
      accepted one, and is a conflict exactly when it is not.  An unusable one is refused when none was
      accepted before, and is a conflict only when one was. */
  lemma SubmissionsAreAnswered(h: Hashing, events: seq<Event>, i: nat, first: nat)
    requires var log := Run(h, EMPTY_WORLD, events).log;
             i < |log| && log[i].IntakeEntry? && !log[i].intakeReply.IntakeFailed?
    ensures
      var log := Run(h, EMPTY_WORLD, events).log;
      var s, reply := log[i].submission, log[i].intakeReply;
      && (s.Valid? ==> (reply.Created? <==> NoneBefore(log, s.keyDigest, i)))
      && (NoneBefore(log, s.keyDigest, i) && s.Unusable? ==> reply.Refused?)
      && (first < i && Accepts(log[first], s.keyDigest) ==>
            && (s.Valid? ==> (ReplaysFrom(log[first], s, reply) <==> SamePayload(s, log[first].submission)))
            && (s.Valid? ==> (reply.Conflicting? <==> !SamePayload(s, log[first].submission)))
            && (s.Unusable? ==> reply.Refused? || reply.Conflicting?))
  {
    hide Run, Won, WorldInv, LogSound;
    var w := Run(h, EMPTY_WORLD, events);
    RunReasoned(h, events);
    ReachableInv(h, events);
    WorldLog(h, w);
    var s := w.log[i].submission;
    assert Resolved(w.log, i);
    CreationsExclude(h, w.db, w.log, s.keyDigest);
    if first < i && Accepts(w.log[first], s.keyDigest) { OnlyAcceptance(w.log, s.keyDigest, i, first); }
  }

  ghost predicate NoneBefore(log: seq<Entry>, digest: Digest, i: nat)
    requires i <= |log|
  {
    forall j :: 0 <= j < i ==> !Accepts(log[j], digest)
  }

  /** No other entry accepted the key. */
  lemma OnlyAcceptance(log: seq<Entry>, digest: Digest, i: nat, first: nat)
    requires AtMostOnce(log, e => CreationOf(e, digest)) && first < i < |log| && Accepts(log[first], digest)
    ensures !CreationOf(log[i], digest)
    ensures forall j :: 0 <= j < i && Accepts(log[j], digest) ==> j == first
  {
    hide CreationOf;
    var of := (e: Entry) => CreationOf(e, digest);
    assert of(log[first]);
    forall j | 0 <= j <= i && CreationOf(log[j], digest) ensures j == first { assert of(log[j]); }
  }
}
