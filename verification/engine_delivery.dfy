/** Replies after commits: which outcomes reach their callers, and what a lost reply leaves behind. */
module EngineDelivery {
  import opened Model
  import opened CommandIdempotency
  import opened Commands
  import opened Invariants
  import opened Engine
  import opened EngineGuarantees
  import opened EngineRuns
  import opened EngineTheorems
  import Intake

  // ------------------------------------------------------------------ the fate of an outcome

  /** The transaction has ended and the reply is on its way. */
  ghost predicate Pending(w: World, i: nat) {
    exists p :: p in w.processes && w.processes[p].pc == Delivering(i)
  }

  /** The outcome is committed and its reply will never arrive. */
  ghost predicate Lost(w: World, i: nat) { i < |w.log| && i !in w.received && !Pending(w, i) }

  ghost predicate NoRepeats(s: seq<nat>) { forall j, k :: 0 <= j < k < |s| ==> s[j] != s[k] }

  predicate EntryFor(e: Entry, call: Call) {
    match e
    case CommandEntry(c, _) => call == CommandCall(c)
    case IntakeEntry(s, _) => call == IntakeCall(s)
  }

  /** A call that is delivering is delivering its own outcome, which nobody has received. */
  ghost predicate DeliveryOk(w: World, p: Process) {
    p.pc.Delivering? ==>
      && p.pc.position < |w.log| && p.pc.position !in w.received
      && EntryFor(w.log[p.pc.position], p.call)
  }

  ghost predicate DeliveryInv(w: World) {
    && (forall k :: 0 <= k < |w.received| ==> w.received[k] < |w.log|)
    && NoRepeats(w.received)
    && (forall p :: p in w.processes ==> DeliveryOk(w, w.processes[p]))
    && (forall p, q :: p in w.processes && q in w.processes && p != q && w.processes[p].pc.Delivering? ==>
          w.processes[p].pc != w.processes[q].pc)
  }

  lemma EntryOfIsFor(h: Hashing, p: Process)
    requires EntryOf(h, p).Some?
    ensures EntryFor(EntryOf(h, p).value, p.call)
  {
    hide CommittedReply, Committable;
  }

  lemma StepsNeverDeliver(h: Hashing, db: Db, taken: set<Resource>, p: Process, ids: Ids,
                          intakeIds: Intake.IntakeIds, token: Option<string>)
    requires !p.pc.Delivering?
    ensures !StepProcess(h, db, taken, p, ids, intakeIds, token).pc.Delivering?
  {
    hide VerdictOf, NextRows, LocksOf, InsertLocks, IdentifierTaken, Classify, Intake.Insertable, Intake.AgainstKey;
  }

  lemma StepKeepsDelivery(h: Hashing, w: World, e: Event)
    requires DeliveryInv(w)
    ensures DeliveryInv(Step(h, w, e)) && w.log <= Step(h, w, e).log && w.received <= Step(h, w, e).received
    ensures forall i: nat :: Lost(w, i) ==> Lost(Step(h, w, e), i)
  {
    hide StepProcess, EntryOf, EffectsOf, Apply;
    if e.Advance? && e.pid in w.processes && !w.processes[e.pid].pc.Delivering? {
      if EntryOf(h, w.processes[e.pid]).Some? { EntryOfIsFor(h, w.processes[e.pid]); }
      else { StepsNeverDeliver(h, w.db, Taken(w, e.pid), w.processes[e.pid], e.ids, e.intakeIds, e.token); }
    }
  }

  lemma {:induction false} RunKeepsDelivery(h: Hashing, w: World, events: seq<Event>)
    requires DeliveryInv(w)
    ensures DeliveryInv(Run(h, w, events)) && w.log <= Run(h, w, events).log && w.received <= Run(h, w, events).received
    ensures forall i: nat :: Lost(w, i) ==> Lost(Run(h, w, events), i)
  {
    hide Step, DeliveryInv, Lost;
    if events != [] {
      RunKeepsDelivery(h, w, events[..|events| - 1]);
      StepKeepsDelivery(h, Run(h, w, events[..|events| - 1]), events[|events| - 1]);
    }
  }

  lemma EmptyDelivery()
    ensures DeliveryInv(EMPTY_WORLD)
  {
  }

  lemma ReachableDelivery(h: Hashing, events: seq<Event>)
    ensures DeliveryInv(Run(h, EMPTY_WORLD, events))
  {
    hide DeliveryInv;
    EmptyDelivery();
    RunKeepsDelivery(h, EMPTY_WORLD, events);
  }

  /** Every outcome reaches its caller at most once, and only after the commit that produced it.  An
      outcome that is neither received nor on its way is lost, and stays lost whatever runs later. */
  lemma RepliesArriveAtMostOnce(h: Hashing, events: seq<Event>, later: seq<Event>)
    ensures
      var w := Run(h, EMPTY_WORLD, events);
      var after := Run(h, w, later);
      && NoRepeats(w.received)
      && (forall k :: 0 <= k < |w.received| ==> w.received[k] < |w.log|)
      && (forall i: nat :: Pending(w, i) ==> i < |w.log| && i !in w.received)
      && (forall i: nat :: Lost(w, i) ==> Lost(after, i) && after.log[i] == w.log[i])
  {
    hide Run;
    ReachableDelivery(h, events);
    RunKeepsDelivery(h, Run(h, EMPTY_WORLD, events), later);
  }

  /** A caller whose connection ends after the commit: the database and every other call are untouched,
      and the reply is lost. */
  lemma ReplyCanBeLost(h: Hashing, events: seq<Event>, pid: nat)
    requires var w := Run(h, EMPTY_WORLD, events); pid in w.processes && w.processes[pid].pc.Delivering?
    ensures
      var w := Run(h, EMPTY_WORLD, events);
      var after := Step(h, w, Abort(pid));
      && Lost(after, w.processes[pid].pc.position)
      && after == w.(processes := w.processes - {pid})
  {
    hide Run;
    ReachableDelivery(h, events);
  }

  /** The reply received as number `k` satisfies `of`. */
  ghost predicate ReceivedAs(w: World, k: int, of: Entry -> bool) {
    0 <= k < |w.received| && w.received[k] < |w.log| && of(w.log[w.received[k]])
  }

  ghost predicate Arrived(w: World, of: Entry -> bool) { exists k :: ReceivedAs(w, k, of) }

  ghost predicate ArrivedOnce(w: World, of: Entry -> bool) {
    forall j, k :: ReceivedAs(w, j, of) && ReceivedAs(w, k, of) ==> j == k
  }

  /** What only one outcome can carry arrives at most once. */
  lemma ArrivesOnce(w: World, of: Entry -> bool)
    requires DeliveryInv(w) && AtMostOnce(w.log, of)
    ensures ArrivedOnce(w, of)
  {
  }

  /** What only one outcome can carry never arrives once that outcome is lost. */
  lemma LostNeverArrives(w: World, i: nat, of: Entry -> bool)
    requires DeliveryInv(w) && AtMostOnce(w.log, of) && Lost(w, i) && of(w.log[i])
    ensures !Arrived(w, of)
  {
  }

  /** The plaintext of a credential reaches a caller at most once, and not at all once the reply that
      carries it is lost: nothing that runs later brings it back. */
  lemma PlaintextReceivedAtMostOnce(h: Hashing, events: seq<Event>, later: seq<Event>, c: Uuid)
    ensures
      var w := Run(h, EMPTY_WORLD, events);
      && ArrivedOnce(w, e => PlaintextOf(e, c))
      && (forall i: nat :: Lost(w, i) && PlaintextOf(w.log[i], c) ==>
          !Arrived(Run(h, w, later), e => PlaintextOf(e, c)))
  {
    hide Run, PlaintextOf;
    var w := Run(h, EMPTY_WORLD, events);
    ReachableDelivery(h, events);
    RunKeepsDelivery(h, w, later);
    PlaintextLoggedOnce(h, events, later, c);
    ArrivesOnce(w, e => PlaintextOf(e, c));
    forall i: nat | Lost(w, i) && PlaintextOf(w.log[i], c) ensures !Arrived(Run(h, w, later), e => PlaintextOf(e, c)) {
      LostNeverArrives(Run(h, w, later), i, e => PlaintextOf(e, c));
    }
  }

  lemma PlaintextLoggedOnce(h: Hashing, events: seq<Event>, later: seq<Event>, c: Uuid)
    ensures AtMostOnce(Run(h, EMPTY_WORLD, events).log, e => PlaintextOf(e, c))
    ensures AtMostOnce(Run(h, Run(h, EMPTY_WORLD, events), later).log, e => PlaintextOf(e, c))
  {
    hide WorldInv, PlaintextOf;
    ReachableInv(h, events);
    RunKeepsInv(h, Run(h, EMPTY_WORLD, events), later);
    WorldLog(h, Run(h, EMPTY_WORLD, events));
    WorldLog(h, Run(h, Run(h, EMPTY_WORLD, events), later));
    PlaintextsExclude(h, Run(h, EMPTY_WORLD, events).db, Run(h, EMPTY_WORLD, events).log, c);
    var after := Run(h, Run(h, EMPTY_WORLD, events), later);
    PlaintextsExclude(h, after.db, after.log, c);
  }

  // ------------------------------------------------------------------ recovering from a lost reply

  predicate SameRequest(c: Command, d: Command) { SameCall(c, d) && c.bodyHash == d.bodyHash }

  /** The retry of a command whose reply was lost, at any later time, receives the stored outcome: its
      status, command id and snapshot, marked as a replay and without the plaintext.  It changes no row,
      and the plaintext never arrives. */
  lemma RetryAfterLostReply(h: Hashing, events: seq<Event>, later: seq<Event>, i: nat, c: Command, pid: nat,
                            now: Time, ids: Ids, intakeIds: Intake.IntakeIds, token: Option<string>)
    requires var w := Run(h, EMPTY_WORLD, events);
             Lost(w, i) && w.log[i].CommandEntry? && w.log[i].reply.Answered? && SameRequest(c, w.log[i].command)
    requires pid !in Run(h, Run(h, EMPTY_WORLD, events), later).processes
    ensures
      var lost := Run(h, EMPTY_WORLD, events).log[i].reply.outcome;
      var w := Run(h, Run(h, EMPTY_WORLD, events), later);
      var go := Advance(pid, ids, intakeIds, token);
      var stored := Outcome(lost.httpStatus, lost.commandId, lost.snapshot, true, None);
      && Run(h, Step(h, w, Begin(pid, CommandCall(c), now)), [go] + ([go] + [go])) ==
           World(w.db, w.processes, w.log + [CommandEntry(c, Answered(stored))], w.received + [|w.log|])
      && (lost.plaintext.Some? ==>
            && lost.snapshot.StartAiSnapshot?
            && forall rest ::
                !Arrived(Run(h, Run(h, EMPTY_WORLD, events), rest), e => PlaintextOf(e, lost.snapshot.credentialId)))
  {
    hide WorldInv, Run, Step, PlaintextOf, Lost, Arrived;
    var w := Run(h, EMPTY_WORLD, events);
    ReachableInv(h, events);
    LostIsLogged(w, i);
    ScopeExact(c, w.log[i].command);
    StoredOutcome(h, w, i);
    ReplayStable(h, events, later, c, pid, now, ids, intakeIds, token);
    var lost := w.log[i].reply.outcome;
    if lost.plaintext.Some? {
      LostPlaintext(h, w, i);
      forall rest ensures !Arrived(Run(h, w, rest), e => PlaintextOf(e, lost.snapshot.credentialId)) {
        PlaintextReceivedAtMostOnce(h, events, rest, lost.snapshot.credentialId);
      }
    }
  }

  lemma LostIsLogged(w: World, i: nat)
    requires Lost(w, i)
    ensures i < |w.log|
  {
  }

  lemma LostPlaintext(h: Hashing, w: World, i: nat)
    requires WorldInv(h, w) && i < |w.log| && w.log[i].CommandEntry? && w.log[i].reply.Answered?
    requires w.log[i].reply.outcome.plaintext.Some?
    ensures w.log[i].reply.outcome.snapshot.StartAiSnapshot?
    ensures PlaintextOf(w.log[i], w.log[i].reply.outcome.snapshot.credentialId)
  {
    hide Sound, AllProcesses, LogSound;
    BackedAt(h, w.db, w.log, i);
  }

  lemma StoredOutcome(h: Hashing, w: World, i: nat)
    requires WorldInv(h, w) && i < |w.log| && w.log[i].CommandEntry? && w.log[i].reply.Answered?
    ensures AgreesWithRecord(w.db, w.log[i].command, w.log[i].reply.outcome)
  {
    hide Sound, AllProcesses, LogSound, AgreesWithRecord;
    BackedAt(h, w.db, w.log, i);
  }
}
