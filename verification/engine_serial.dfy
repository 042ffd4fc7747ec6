/** Every run is a serial run: its calls, one after another in the order their transactions ended. */
module EngineSerial {
  import opened Model
  import opened CommandExecution
  import opened CommandIdempotency
  import opened Commands
  import opened Invariants
  import opened Engine
  import opened EngineAtomicity
  import opened EngineCommits
  import opened EngineProcesses
  import opened EngineRuns
  import opened EngineSolo
  import opened EngineSteps
  import opened EngineTheorems
  import AttemptStart
  import StartAi = StartAiInterpretationCommand
  import Intake

  /** The database after the calls have ended one after another. */
  function Serially(h: Hashing, calls: seq<Process>): Db {
    if calls == [] then EMPTY_DB
    else Apply(Serially(h, calls[..|calls| - 1]), EffectsOf(h, calls[|calls| - 1]))
  }

  datatype Draws = Draws(ids: Ids, token: Option<string>)

  const NO_DRAWS := Draws(Ids(0, 0, 0, 0, 0, 0, 0), None)

  /** What a command that ends has drawn; one that replays or conflicts has drawn nothing it uses. */
  function DrawsOf(pc: Pc): Draws {
    match pc
    case Completing(record, _, _, ids, token) =>
      Draws(ids.(recordId := record.id, commandId := record.commandId), Some(token))
    case Failing(_, NoWinner(ids)) => Draws(ids, None)
    case Failing(_, Undone(record, _, ids, token)) =>
      Draws(ids.(recordId := record.id, commandId := record.commandId), token)
    case _ => NO_DRAWS
  }

  /** What the call did not find has been committed since: its target, the record of its key, or the
      accepted key of its submission. */
  predicate Overtaken(db: Db, p: Process) {
    match p.call
    case CommandCall(c) =>
      (match p.pc
       case Completing(_, rows, _, _, _) => TargetAppeared(db, c, rows)
       case Failing(_, NoWinner(_)) => ScopeOf(c) in db.records
       case _ => false)
    case IntakeCall(s) => p.pc.Recorded? && KeyAppeared(db, s, p.pc.intakeIds, p.pc.seen)
    case VerifyCall(_) => false
  }

  /** What `p` answers and writes, with success or failure, is what its whole call with the same draws, alone
      on `db`, answers and writes, except exactly where it has been overtaken. */
  ghost predicate EndsSerially(h: Hashing, db: Db, p: Process) {
    match p.call
    case CommandCall(c) =>
      && EntryOf(h, p).Some? && EntryOf(h, p).value.CommandEntry?
      && var alone := Served(h, db, c, p.now, DrawsOf(p.pc).ids, DrawsOf(p.pc).token);
         ((EntryOf(h, p).value.reply, EffectsOf(h, p)) == alone <==> !Overtaken(db, p))
    case IntakeCall(s) =>
      && p.pc.Recorded?
      && ((p.pc.reply, EffectsOf(h, p)) == Intake.Submit(db, s, p.pc.intakeIds) <==> !Overtaken(db, p))
    case VerifyCall(_) => false
  }

  /** An execution takes the identifiers of its record from the reservation. */
  lemma ReservedIds(h: Hashing, db: Db, c: Command, record: Record, now: Time, ids: Ids, token: Option<string>,
                    id: Uuid, commandId: Uuid)
    ensures Execution(h, db, c, record, now, ids.(recordId := id, commandId := commandId), token) ==
              Execution(h, db, c, record, now, ids, token)
  {
    hide StartAi.StartDecision, AttemptStart.ClaimDecision, StartAi.Insertable, StartAi.OpaqueCredential;
  }

  /** A call that holds its reservation serves what it executes. */
  lemma ReservedIsServed(h: Hashing, db: Db, c: Command, now: Time, held: set<Resource>, record: Record, ids: Ids,
                         token: Option<string>)
    requires GraphSound(h, db) && HoldsKey(db, c, now, held, record)
    ensures Served(h, db, c, now, ids.(recordId := record.id, commandId := record.commandId), token) ==
              Execution(h, db, c, record, now, ids, token)
  {
    hide GraphSound, Execution, IdentifierTaken;
    FailuresAreReported(h, db, c, record, now, ids, token);
    ReservedIds(h, db, c, record, now, ids, token, record.id, record.commandId);
  }

  lemma CommitIsSerial(h: Hashing, db: Db, p: Process, c: Command)
    requires GraphSound(h, db) && CommandInv(h, db, p, c) && p.call == CommandCall(c) && p.pc.Completing?
    ensures EndsSerially(h, db, p)
  {
    hide GraphSound, RowsHeld, InsertsHeld, HoldsKey, VerdictOf, Execution, Served, TargetAppeared, CommittedReply;
    CommandIsAtomic(h, db, p, c);
    ReservedIsServed(h, db, c, p.now, p.held, p.pc.record, p.pc.ids, Some(p.pc.token));
  }

  lemma ReplayIsSerial(h: Hashing, db: Db, p: Process, c: Command)
    requires CommandInv(h, db, p, c) && p.call == CommandCall(c)
    requires p.pc.Replaying? || (p.pc.Failing? && !p.pc.cause.Undone?)
    ensures EndsSerially(h, db, p)
  {
    hide Execution, IdentifierTaken;
  }

  lemma UndoneIsSerial(h: Hashing, db: Db, p: Process, c: Command)
    requires GraphSound(h, db) && CommandInv(h, db, p, c) && p.call == CommandCall(c)
    requires p.pc.Failing? && p.pc.cause.Undone?
    ensures EndsSerially(h, db, p)
  {
    hide GraphSound, HoldsKey, RowsHeld, VerdictOf, Execution, Served, InsertsFail;
    var cause := p.pc.cause;
    ReservedIsServed(h, db, c, p.now, p.held, cause.record, cause.ids, cause.token);
    RaisedExecution(h, db, p, c, cause.record, cause.rows, cause.ids, cause.token);
  }

  lemma RaisedExecution(h: Hashing, db: Db, p: Process, c: Command, record: Record, rows: Rows, ids: Ids,
                        token: Option<string>)
    requires c.StartAi? && RowsHeld(h, db, c, p.held, rows) && VerdictOf(h, c, p.now, rows) == Some(Granted)
    requires rows.request.Read? && p.pc.Failing?
    requires InsertsFail(h, db, c, p.now, rows.request.row, ids, token, p.pc.error)
    ensures Execution(h, db, c, record, p.now, ids, token) == (Failed(p.pc.error), NoEffects)
  {
    hide StartAi.Insertable, StartAi.OpaqueCredential, StartAi.ExistingOperationVerdict;
    VerdictMonotone(h, c, p.now, rows, RowsIn(h, db, c));
  }

  lemma EndIsSerial(h: Hashing, db: Db, p: Process)
    requires Sound(h, db) && ProcessInv(h, db, p) && EntryOf(h, p).Some?
    ensures EndsSerially(h, db, p)
  {
    match p.call {
      case CommandCall(c) =>
        hide IntakeConserved, GraphSound, CommandInv, EndsSerially;
        CommandEnds(h, db, p, c);
        if p.pc.Completing? { CommitIsSerial(h, db, p, c); }
        else if p.pc.Failing? && p.pc.cause.Undone? { UndoneIsSerial(h, db, p, c); }
        else { ReplayIsSerial(h, db, p, c); }
      case IntakeCall(s) =>
        hide Sound, IntakeInv, Intake.Submit;
        RecordedIsAtomic(h, db, p, s);
    }
  }

  /** The calls that have ended in `w`, in order: each with the entry it logged, each serial on the database
      its predecessors leave. */
  ghost predicate SerialHistory(h: Hashing, w: World, calls: seq<Process>) {
    && |calls| == |w.log| && w.db == Serially(h, calls)
    && forall i :: 0 <= i < |calls| ==>
         EntryOf(h, calls[i]) == Some(w.log[i]) && EndsSerially(h, Serially(h, calls[..i]), calls[i])
  }

  lemma HistoryGrows(h: Hashing, w: World, calls: seq<Process>, p: Process, after: World)
    requires SerialHistory(h, w, calls) && EntryOf(h, p).Some? && EndsSerially(h, w.db, p)
    requires after.db == Apply(w.db, EffectsOf(h, p)) && after.log == w.log + [EntryOf(h, p).value]
    ensures SerialHistory(h, after, calls + [p])
  {
    hide EntryOf, EndsSerially, Apply, EffectsOf;
    var all := calls + [p];
    assert all[..|calls|] == calls;
    forall i | 0 <= i < |all|
      ensures EntryOf(h, all[i]) == Some(after.log[i]) && EndsSerially(h, Serially(h, all[..i]), all[i])
    {
      if i < |calls| { assert all[..i] == calls[..i]; }
    }
  }

  /** The database and the outcomes of any run are those of its ended calls taken one after another, in the
      order their transactions ended: each, whether it succeeds or fails, is on the database its
      predecessors leave what the same call with the same draws does alone, except exactly where what it
      did not find was committed before it ended. */
  lemma {:induction false} RunIsSerial(h: Hashing, events: seq<Event>) returns (calls: seq<Process>)
    ensures SerialHistory(h, Run(h, EMPTY_WORLD, events), calls)
  {
    hide WorldInv, Apply, EffectsOf, EntryOf, StepProcess, EndsSerially;
    if events == [] {
      calls := [];
    } else {
      var past, e := events[..|events| - 1], events[|events| - 1];
      var w := Run(h, EMPTY_WORLD, past);
      calls := RunIsSerial(h, past);
      if e.Advance? && e.pid in w.processes && !w.processes[e.pid].pc.Delivering?
         && EntryOf(h, w.processes[e.pid]).Some? {
        ReachableInv(h, past);
        ProcessKnown(h, w, e.pid);
        EndIsSerial(h, w.db, w.processes[e.pid]);
        HistoryGrows(h, w, calls, w.processes[e.pid], Run(h, EMPTY_WORLD, events));
        calls := calls + [w.processes[e.pid]];
      }
    }
  }

  lemma ProcessKnown(h: Hashing, w: World, pid: nat)
    requires WorldInv(h, w) && pid in w.processes
    ensures Sound(h, w.db) && ProcessInv(h, w.db, w.processes[pid])
  {
    hide Sound, LogSound, ProcessInv;
  }
}
