/** Guarantees about the keys of commands: what a later caller, a loser of the race and a caller after
    a rollback meet. */
module EngineGuarantees {
  import opened Model
  import opened Sessions
  import opened CommandIdempotency
  import opened Commands
  import opened Invariants
  import opened Engine
  import opened EngineCommits
  import opened EngineMoves
  import opened EngineProcesses
  import opened EngineRuns
  import opened EngineTheorems
  import Intake

  // ------------------------------------------------------------------ replay stability

  /** What every later caller of a completed key is answered. */
  function LaterReply(r: Record, c: Command): Reply
    requires r.httpStatus.Some? && r.snapshot.Some?
  {
    if c.bodyHash == r.bodyHash then Answered(Outcome(r.httpStatus.value, r.commandId, r.snapshot.value, true, None))
    else Failed(ApiError(409, CommandIdempotencyConflict))
  }

  /** A lookup that finds a completed record is about to answer with it and writes nothing. */
  lemma FoundIsAnswered(h: Hashing, p: Process, c: Command, r: Record)
    requires p.call == CommandCall(c) && r.status == Completed && RecordChecks(r)
    requires p.pc == AfterLookup(Classify(r, c.bodyHash))
    ensures EntryOf(h, p) == Some(CommandEntry(c, LaterReply(r, c))) && EffectsOf(h, p) == NoEffects
    ensures !p.pc.Delivering?
  {
  }

  /** Once a command has committed, then after any further events a call under the same key gets the
      stored command id, status and snapshot if its body is the same, a 409 if it is not, and changes
      no row. */
  lemma ReplayStable(h: Hashing, events: seq<Event>, later: seq<Event>, c: Command, pid: nat, now: Time, ids: Ids,
                     intakeIds: Intake.IntakeIds, token: Option<string>)
    requires ScopeOf(c) in Run(h, EMPTY_WORLD, events).db.records
    requires pid !in Run(h, Run(h, EMPTY_WORLD, events), later).processes
    ensures
      var r := Run(h, EMPTY_WORLD, events).db.records[ScopeOf(c)];
      var w := Run(h, Run(h, EMPTY_WORLD, events), later);
      var go := Advance(pid, ids, intakeIds, token);
      && r.httpStatus.Some? && r.snapshot.Some?
      && Run(h, Step(h, w, Begin(pid, CommandCall(c), now)), [go] + ([go] + [go])) ==
           World(w.db, w.processes, w.log + [CommandEntry(c, LaterReply(r, c))], w.received + [|w.log|])
  {
    hide WorldInv, Apply, Evolves, Step, Run, Classify, LaterReply;
    var start := Run(h, EMPTY_WORLD, events);
    var w := Run(h, start, later);
    ReachableInv(h, events);
    RunKeepsInv(h, start, later);
    CompletedStays(h, start, w, ScopeOf(c));
    MoveBegin(h, w, pid, CommandCall(c), now);
    var begun := w.(processes := w.processes[pid := Process(CommandCall(c), now, {}, Opened)]);
    LookupIsAnswered(h, begun, pid, c, ids, intakeIds, token);
    ThreeSteps(h, begun, Advance(pid, ids, intakeIds, token));
  }

  /** From the lookup of a completed key to the received reply: three steps, no row changed. */
  lemma LookupIsAnswered(h: Hashing, w: World, pid: nat, c: Command, ids: Ids, intakeIds: Intake.IntakeIds,
                         token: Option<string>)
    requires pid in w.processes && w.processes[pid].call == CommandCall(c) && w.processes[pid].pc == Opened
    requires ScopeOf(c) in w.db.records
    requires var r := w.db.records[ScopeOf(c)]; r.status == Completed && RecordChecks(r)
    ensures
      var go := Advance(pid, ids, intakeIds, token);
      Step(h, Step(h, Step(h, w, go), go), go) ==
        World(w.db, w.processes - {pid}, w.log + [CommandEntry(c, LaterReply(w.db.records[ScopeOf(c)], c))],
              w.received + [|w.log|])
  {
    hide Step, Apply, Classify, LaterReply;
    var r := w.db.records[ScopeOf(c)];
    var p := w.processes[pid].(pc := AfterLookup(Classify(r, c.bodyHash)));
    MoveInside(h, w, pid, ids, intakeIds, token, p);
    FoundIsAnswered(h, p, c, r);
    var found := w.(processes := w.processes[pid := p]);
    MoveEndAndDeliver(h, found, pid, ids, intakeIds, token, CommandEntry(c, LaterReply(r, c)));
    ApplyNothing(w.db);
    assert found.processes - {pid} == w.processes - {pid};
  }

  lemma CompletedStays(h: Hashing, w: World, later: World, scope: ScopeKey)
    requires WorldInv(h, w) && scope in w.db.records && Evolves(w.db, later.db)
    ensures w.db.records[scope].status == Completed && RecordChecks(w.db.records[scope])
    ensures scope in later.db.records && later.db.records[scope] == w.db.records[scope]
  {
    SoundGraph(h, w.db);
  }

  /** A caller that lost the race for the key reads the winner again and ends where a later caller
      does: its insert is blocked while the winner is open and fails once the winner has committed,
      and it reads the winner as soon as nobody else has it locked. */
  lemma LoserMeetsWinner(h: Hashing, events: seq<Event>, pid: nat, c: Command, ids: Ids,
                         intakeIds: Intake.IntakeIds, token: Option<string>)
    requires var w := Run(h, EMPTY_WORLD, events);
             && pid in w.processes && w.processes[pid].call == CommandCall(c) && w.processes[pid].pc.KeyMissing?
             && ScopeOf(c) in w.db.records && RecordKey(ScopeOf(c)) !in Taken(w, pid)
    ensures
      var w := Run(h, EMPTY_WORLD, events);
      var r := w.db.records[ScopeOf(c)];
      var go := Advance(pid, ids, intakeIds, token);
      && r.httpStatus.Some? && r.snapshot.Some?
      && Run(h, Step(h, w, go), [go] + ([go] + [go])) ==
           World(w.db, w.processes - {pid}, w.log + [CommandEntry(c, LaterReply(r, c))], w.received + [|w.log|])
  {
    hide WorldInv, Apply, IdentifierTaken, Step, Run, Evolves, Classify, LaterReply;
    var w := Run(h, EMPTY_WORLD, events);
    ReachableInv(h, events);
    EvolvesReflexive(w.db);
    CompletedStays(h, w, w, ScopeOf(c));
    var go := Advance(pid, ids, intakeIds, token);
    var p := w.processes[pid];
    var lost := w.(processes := w.processes[pid := p.(pc := KeyLost(ids))]);
    InsertLoses(h, w, pid, c, ids, intakeIds, token);
    assert lost.processes - {pid} == w.processes - {pid};
    TakenByOthers(w, lost, pid);
    WinnerIsAnswered(h, lost, pid, c, ids, intakeIds, token);
    ThreeSteps(h, lost, go);
  }

  lemma InsertLoses(h: Hashing, w: World, pid: nat, c: Command, ids: Ids, intakeIds: Intake.IntakeIds,
                    token: Option<string>)
    requires pid in w.processes && w.processes[pid].call == CommandCall(c) && w.processes[pid].pc.KeyMissing?
    requires ScopeOf(c) in w.db.records
    ensures Step(h, w, Advance(pid, ids, intakeIds, token)) ==
              w.(processes := w.processes[pid := w.processes[pid].(pc := KeyLost(ids))])
  {
    hide Step, IdentifierTaken, ReservationLocks;
    MoveInside(h, w, pid, ids, intakeIds, token, w.processes[pid].(pc := KeyLost(ids)));
  }

  /** From the second lookup to the received reply. */
  lemma WinnerIsAnswered(h: Hashing, w: World, pid: nat, c: Command, ids: Ids, intakeIds: Intake.IntakeIds,
                         token: Option<string>)
    requires pid in w.processes && w.processes[pid].call == CommandCall(c) && w.processes[pid].pc.KeyLost?
    requires ScopeOf(c) in w.db.records && RecordKey(ScopeOf(c)) !in Taken(w, pid)
    requires var r := w.db.records[ScopeOf(c)]; r.status == Completed && RecordChecks(r)
    ensures
      var go := Advance(pid, ids, intakeIds, token);
      Step(h, Step(h, Step(h, w, go), go), go) ==
        World(w.db, w.processes - {pid}, w.log + [CommandEntry(c, LaterReply(w.db.records[ScopeOf(c)], c))],
              w.received + [|w.log|])
  {
    hide Step, Apply, Classify, LaterReply;
    var r, reader := w.db.records[ScopeOf(c)], w.processes[pid];
    var p := reader.(held := reader.held + {RecordKey(ScopeOf(c))}, pc := AfterLookup(Classify(r, c.bodyHash)));
    MoveInside(h, w, pid, ids, intakeIds, token, p);
    FoundIsAnswered(h, p, c, r);
    var found := w.(processes := w.processes[pid := p]);
    MoveEndAndDeliver(h, found, pid, ids, intakeIds, token, CommandEntry(c, LaterReply(r, c)));
    ApplyNothing(w.db);
    assert found.processes - {pid} == w.processes - {pid};
  }

  // ------------------------------------------------------------------ a rolled-back winner

  predicate HasReserved(p: Process, scope: ScopeKey) {
    p.call.CommandCall? && ScopeOf(p.call.command) == scope && (p.pc.Working? || p.pc.Completing?)
  }

  /** While a winner is open every other insert of its key is blocked; when it rolls back, nothing of
      it remains and the blocked insert goes through. */
  lemma AbortFreesKey(h: Hashing, events: seq<Event>, winner: nat, loser: nat, c: Command, ids: Ids,
                      intakeIds: Intake.IntakeIds, token: Option<string>)
    requires var w := Run(h, EMPTY_WORLD, events);
             && winner in w.processes && HasReserved(w.processes[winner], ScopeOf(c))
             && loser in w.processes && loser != winner
             && w.processes[loser].call == CommandCall(c) && w.processes[loser].pc.KeyMissing?
    ensures
      var w := Run(h, EMPTY_WORLD, events);
      var freed := Step(h, w, Abort(winner));
      var go := Advance(loser, ids, intakeIds, token);
      && Step(h, w, go) == w
      && freed.db == w.db && freed.log == w.log && freed.received == w.received
      && (ReservationLocks(ScopeOf(c), ids.recordId, ids.commandId) !! Taken(freed, loser)
          && !IdentifierTaken(w.db.records, ids.recordId, ids.commandId) ==>
            loser in freed.processes && loser in Step(h, freed, go).processes
            && HasReserved(Step(h, freed, go).processes[loser], ScopeOf(c)))
  {
    hide WorldInv, Apply, IdentifierTaken, RowsHeld, InsertsHeld, VerdictOf;
    var w := Run(h, EMPTY_WORLD, events);
    ReachableInv(h, events);
    WinnerHolds(h, w, winner, ScopeOf(c));
    assert RecordKey(ScopeOf(c)) in Taken(w, loser);
    assert RecordKey(ScopeOf(c)) in ReservationLocks(ScopeOf(c), ids.recordId, ids.commandId) * Taken(w, loser);
    assert w.processes[loser := w.processes[loser]] == w.processes;
  }

  lemma WinnerHolds(h: Hashing, w: World, pid: nat, scope: ScopeKey)
    requires WorldInv(h, w) && pid in w.processes && HasReserved(w.processes[pid], scope)
    ensures RecordKey(scope) in w.processes[pid].held && scope !in w.db.records
  {
    hide Sound, LogSound, RowsHeld, InsertsHeld, VerdictOf, IdentifierTaken;
    assert ProcessInv(h, w.db, w.processes[pid]);
  }
}
