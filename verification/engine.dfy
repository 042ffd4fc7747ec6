/** Concurrent service calls over one database.

    A call is a process that runs its transactions statement by statement.  A statement that takes a
    row lock or inserts under a unique key is disabled while another open transaction holds that
    lock or key, except that an insert under a committed key fails at once; reads see committed rows;
    private writes become visible at commit.  The reply is a step of its own after the commit.  Any
    process may be aborted at any point: before its commit that is a rollback, after it the reply is
    lost.  The transaction of the callback verifier belongs to its caller and writes nothing, so
    however it ends, it ends by an abort. */
module Engine {
  import opened Model
  import opened Sessions
  import opened CommandIdempotency
  import opened Commands
  import opened CallbackVerifier
  import AttemptStart
  import StartAi = StartAiInterpretationCommand
  import Intake

  /** What a transaction can hold until it ends: a locked or inserted row, or an inserted unique key. */
  datatype Resource =
    | RecordKey(scope: ScopeKey) | RecordId(id: Uuid) | CommandId(id: Uuid)
    | RequestRow(id: Uuid) | OperationRow(id: Uuid) | AttemptRow(id: Uuid) | CredentialRow(id: Uuid)
    | CredentialHash(digest: Digest)
    | IntakeKey(digest: Digest) | IntakeKeyId(id: Uuid) | DeliveryRow(id: Uuid) | ContactRow(id: Uuid)

  /** The arguments of one callback verification. */
  datatype Check = Check(attemptId: Uuid, machine: Machine, digest: Digest)

  datatype Call =
    | CommandCall(command: Command)
    | IntakeCall(submission: Intake.Submission)
    | VerifyCall(check: Check)

  /** Why a command fails, with what it drew. */
  datatype Cause =
    | OtherBody                                          // the stored body is another one
    | NoWinner(ids: Ids)                                 // the insert failed, and no record has the key
    | Undone(record: Record, rows: Rows, ids: Ids, token: Option<string>)  // the execution raised

  /** Where a process is.  A process that is completing, replaying, recorded or failing ends its
      transaction at the next step; its outcome is then `Delivering` until the reply is received or lost. */
  datatype Pc =
    | Opened                                             // transaction begun
    | KeyMissing                                         // the key lookup found no row
    | KeyLost(ids: Ids)                                  // the insert violated a unique constraint
    | Working(record: Record, rows: Rows)                // reserved; reading under lock
    | KeyFound(key: AcceptedKey)                         // intake: the key was accepted before
    | AcceptLost(intakeIds: Intake.IntakeIds)            // intake: an insert violated a constraint
    | Completing(record: Record, rows: Rows, verdict: Verdict, ids: Ids, token: string)
    | Replaying(result: CommandResult)
    | Recorded(reply: Intake.IntakeReply, effects: Effects, intakeIds: Intake.IntakeIds, seen: Seen<AcceptedKey>)
    | Failing(error: Exception, cause: Cause)
    | Verifying(rows: Rows)                              // the verifier is reading under lock
    | Checked(rows: Rows, answer: Verification)          // the verifier has answered its caller
    | Delivering(position: nat)                          // transaction ended; the reply is on its way

  datatype Process = Process(call: Call, now: Time, held: set<Resource>, pc: Pc)

  /** The outcome a call ended with. */
  datatype Entry =
    | CommandEntry(command: Command, reply: Reply)
    | IntakeEntry(submission: Intake.Submission, intakeReply: Intake.IntakeReply)

  /** The committed database, the open processes, the outcomes of ended transactions in the order they
      ended, and the positions of the outcomes whose reply reached its caller, in order of arrival. */
  datatype World = World(db: Db, processes: map<nat, Process>, log: seq<Entry>, received: seq<nat>)

  datatype Event =
    | Begin(pid: nat, call: Call, now: Time)
    | Advance(pid: nat, ids: Ids, intakeIds: Intake.IntakeIds, token: Option<string>)
    | Abort(pid: nat)

  const EMPTY_WORLD := World(EMPTY_DB, map[], [], [])

  // ------------------------------------------------------------------ one command, row by row

  /** The decision of a command on the rows it has read. */
  ghost function VerdictOf(h: Hashing, c: Command, now: Time, rows: Rows): Option<Verdict> {
    match c
    case StartAi(_, expectedVersion, _, _, _, _, _) => StartAi.StartVerdict(expectedVersion, rows)
    case ClaimStart(_, expectedVersion, _, _, _, machine) =>
      AttemptStart.ClaimVerdict(h, machine, expectedVersion, now, rows)
  }

  /** Every row the command would read in `db`. */
  ghost function RowsIn(h: Hashing, db: Db, c: Command): Rows {
    match c
    case StartAi(requestId, _, _, _, _, _, settings) => StartAi.StartRows(h, db, requestId, settings)
    case ClaimStart(attemptId, _, _, _, _, _) => AttemptStart.ClaimRows(db, attemptId)
  }

  /** The rows after the next SELECT ... FOR UPDATE of the command, reading committed rows. */
  ghost function NextRows(h: Hashing, db: Db, c: Command, rows: Rows): Rows {
    var full := RowsIn(h, db, c);
    match c
    case StartAi(_, _, _, _, _, _, _) =>
      if rows.request.Unread? then rows.(request := full.request)
      else if rows.operation.Unread? then rows.(operation := full.operation)
      else rows.(siblings := full.siblings)
    case ClaimStart(_, _, _, _, _, _) =>
      if rows.attempt.Unread? then rows.(attempt := full.attempt)
      else if rows.operation.Unread? then rows.(operation := full.operation)
      else if rows.request.Unread? then rows.(request := full.request)
      else if rows.siblings.Unread? then rows.(siblings := full.siblings)
      else rows.(credentials := full.credentials)
  }

  /** The row locks that come with the rows read. */
  function LocksOf(rows: Rows): set<Resource> {
    (if rows.attempt.Read? then {AttemptRow(rows.attempt.row.id)} else {}) +
    (if rows.operation.Read? then {OperationRow(rows.operation.row.id)} else {}) +
    (if rows.request.Read? then {RequestRow(rows.request.row.id)} else {}) +
    (if rows.siblings.Read? then set b | b in rows.siblings.row :: AttemptRow(b) else {}) +
    (if rows.credentials.Read? then set c | c in rows.credentials.row :: CredentialRow(c) else {})
  }

  function ReservationLocks(scope: ScopeKey, recordId: Uuid, commandId: Uuid): set<Resource> {
    {RecordKey(scope), RecordId(recordId), CommandId(commandId)}
  }

  /** The unique keys of the three rows Start AI inserts. */
  function InsertLocks(o: Operation, a: Attempt, k: Credential): set<Resource> {
    {OperationRow(o.id), AttemptRow(a.id), CredentialRow(k.id), CredentialHash(k.hash)}
  }

  function AfterLookup(r: Resolution): Pc {
    match r
    case Replay(result) => Replaying(result)
    case Raised(error) => Failing(error, OtherBody)
    case Reserved(_) => KeyMissing
  }

  ghost function StepLookup(db: Db, p: Process, c: Command): Process {
    if ScopeOf(c) in db.records then p.(pc := AfterLookup(Classify(db.records[ScopeOf(c)], c.bodyHash)))
    else p.(pc := KeyMissing)
  }

  ghost function StepReserve(db: Db, taken: set<Resource>, p: Process, c: Command, ids: Ids): Process {
    var locks := ReservationLocks(ScopeOf(c), ids.recordId, ids.commandId);
    if ScopeOf(c) in db.records then p.(pc := KeyLost(ids))
    else if locks * taken != {} then p
    else if IdentifierTaken(db.records, ids.recordId, ids.commandId) then p.(pc := KeyLost(ids))
    else p.(held := p.held + locks,
            pc := Working(ProcessingRecord(ids.recordId, ids.commandId, c.correlationId, c.bodyHash, p.now),
                          NOTHING_READ))
  }

  /** Read the winner again, now with FOR UPDATE. */
  ghost function StepRefind(db: Db, taken: set<Resource>, p: Process, c: Command, ids: Ids): Process {
    if ScopeOf(c) !in db.records then p.(pc := Failing(ApiError(503, DependencyUnavailable), NoWinner(ids)))
    else if RecordKey(ScopeOf(c)) in taken then p
    else p.(held := p.held + {RecordKey(ScopeOf(c))}, pc := AfterLookup(Classify(db.records[ScopeOf(c)], c.bodyHash)))
  }

  ghost function StepInsert(h: Hashing, db: Db, taken: set<Resource>, p: Process, c: Command, record: Record,
                            rows: Rows, ids: Ids, token: Option<string>): Process
    requires c.StartAi? && rows.request.Read?
  {
    var undone := Undone(record, rows, ids, token);
    if token.None? || !StartAi.OpaqueCredential(token.value) then
      p.(pc := Failing(ApiError(503, DependencyUnavailable), undone))
    else
      var o := StartAi.NewOperation(h, c, rows.request.row, ids);
      var a, k := StartAi.NewAttempt(c, ids, p.now), StartAi.NewCredential(h, c, ids, p.now, token.value);
      if !StartAi.Insertable(db, o, a, k) then p.(pc := Failing(ApiError(500, InternalError), undone))
      else if InsertLocks(o, a, k) * taken != {} then p
      else p.(held := p.held + InsertLocks(o, a, k), pc := Completing(record, rows, Granted, ids, token.value))
  }

  ghost function StepWork(h: Hashing, db: Db, taken: set<Resource>, p: Process, c: Command, record: Record,
                          rows: Rows, ids: Ids, token: Option<string>): Process {
    var v := VerdictOf(h, c, p.now, rows);
    if v.None? then
      var next := NextRows(h, db, c, rows);
      if LocksOf(next) * taken != {} then p
      else p.(held := p.held + LocksOf(next), pc := Working(record, next))
    else if v.value.Broken? then p.(pc := Failing(RuntimeFailure, Undone(record, rows, ids, token)))
    else if v.value.Granted? && c.StartAi? then StepInsert(h, db, taken, p, c, record, rows, ids, token)
    else p.(pc := Completing(record, rows, v.value, ids, ""))
  }

  ghost function StepCommand(h: Hashing, db: Db, taken: set<Resource>, p: Process, c: Command, ids: Ids,
                             token: Option<string>): Process {
    match p.pc
    case Opened => StepLookup(db, p, c)
    case KeyMissing => StepReserve(db, taken, p, c, ids)
    case KeyLost(drawn) => StepRefind(db, taken, p, c, drawn)
    case Working(record, rows) => StepWork(h, db, taken, p, c, record, rows, ids, token)
    case _ => p
  }

  // ------------------------------------------------------------------ one submission, step by step

  function CreateLocks(s: Intake.Submission, ids: Intake.IntakeIds): set<Resource> {
    {IntakeKey(s.keyDigest), IntakeKeyId(ids.keyId), DeliveryRow(ids.deliveryId), RequestRow(ids.requestId),
     ContactRow(ids.contactId)}
  }

  /** `seen` is what the lookup of the key found. */
  function StepRecord(db: Db, taken: set<Resource>, p: Process, reply: Intake.IntakeReply, d: Delivery,
                      ids: Intake.IntakeIds, seen: Seen<AcceptedKey>): Process {
    if ids.deliveryId in db.deliveries then p.(pc := Recorded(Intake.IntakeFailed, NoEffects, ids, seen))
    else if DeliveryRow(ids.deliveryId) in taken then p
    else p.(held := p.held + {DeliveryRow(ids.deliveryId)},
            pc := Recorded(reply, Intake.RecordEffects(d, ids.deliveryAuditId), ids, seen))
  }

  function StepCreate(db: Db, taken: set<Resource>, p: Process, s: Intake.Submission, ids: Intake.IntakeIds): Process
    requires s.Valid?
  {
    if s.keyDigest in db.keys || !Intake.Insertable(db, ids) then p.(pc := AcceptLost(ids))
    else if CreateLocks(s, ids) * taken != {} then p
    else p.(held := p.held + CreateLocks(s, ids),
            pc := Recorded(Intake.Created(ids.deliveryId, ids.requestId), Intake.CreateEffects(s, ids), ids, Absent))
  }

  function StepIntake(db: Db, taken: set<Resource>, p: Process, s: Intake.Submission, ids: Intake.IntakeIds): Process {
    match p.pc
    case Opened => if s.keyDigest in db.keys then p.(pc := KeyFound(db.keys[s.keyDigest])) else p.(pc := KeyMissing)
    case KeyFound(key) =>
      StepRecord(db, taken, p, Intake.AgainstKey(s, key, ids).0, Intake.AgainstKey(s, key, ids).1, ids, Read(key))
    case KeyMissing =>
      if s.Unusable? then
        StepRecord(db, taken, p, Intake.Refused(ids.deliveryId),
                   Intake.RejectedDelivery(s.keyDigest, s.correlationId, ids.deliveryId), ids, Absent)
      else StepCreate(db, taken, p, s, ids)
    case AcceptLost(drawn) =>
      if s.keyDigest in db.keys then p.(pc := KeyFound(db.keys[s.keyDigest]))
      else p.(pc := Recorded(Intake.IntakeFailed, NoEffects, drawn, Absent))
    case _ => p
  }

  // ------------------------------------------------------------------ one verification, row by row

  /** The verifier reads and locks the rows a claim/start of the attempt does, in the same order. */
  function AsClaim(k: Check): Command { ClaimStart(k.attemptId, 0, "", "", 0, k.machine) }

  predicate NotTheCallers(rows: Rows, machine: Machine) {
    || rows.attempt.Absent?
    || (rows.attempt.Read?
        && (rows.attempt.row.service != machine.serviceId || rows.attempt.row.environment != machine.environment))
  }

  predicate AllRead(rows: Rows) {
    && rows.attempt.Read? && rows.operation.Read? && rows.request.Read?
    && rows.siblings.Read? && rows.credentials.Read?
  }

  /** Nothing is left to read: every row is there, or one that is needed is missing. */
  predicate ReadingDone(rows: Rows, machine: Machine) {
    || NotTheCallers(rows, machine) || AllRead(rows)
    || (rows.attempt.Read? && (rows.operation.Absent? || (rows.operation.Read? && rows.request.Absent?)))
  }

  ghost function StepRead(h: Hashing, db: Db, taken: set<Resource>, p: Process, k: Check, rows: Rows): Process {
    if ReadingDone(rows, k.machine) then p.(pc := Checked(rows, VerifyRows(rows, k.machine, k.digest, p.now)))
    else
      var next := NextRows(h, db, AsClaim(k), rows);
      if LocksOf(next) * taken != {} then p
      else p.(held := p.held + LocksOf(next), pc := Verifying(next))
  }

  ghost function StepVerify(h: Hashing, db: Db, taken: set<Resource>, p: Process, k: Check): Process {
    match p.pc
    case Opened => StepRead(h, db, taken, p, k, NOTHING_READ)
    case Verifying(rows) => StepRead(h, db, taken, p, k, rows)
    case _ => p
  }

  // ------------------------------------------------------------------ the world

  /** What the other open transactions hold. */
  ghost function Taken(w: World, pid: nat): set<Resource> {
    set q, r | q in w.processes && q != pid && r in w.processes[q].held :: r
  }

  /** The private writes a completing command commits. */
  function CommittedEffects(h: Hashing, p: Process): Effects
    requires p.call.CommandCall? && p.pc.Completing? && !p.pc.verdict.Broken?
    requires p.pc.verdict.Granted? ==>
               if p.call.command.StartAi? then p.pc.rows.request.Read? else p.pc.rows.attempt.Read?
  {
    var c, record, rows := p.call.command, p.pc.record, p.pc.rows;
    if p.pc.verdict.Refused? then GuardEffects(ScopeOf(c), record, p.pc.verdict, p.now)
    else if c.StartAi? then StartAi.StartEffects(h, c, record, rows.request.row, p.now, p.pc.ids, p.pc.token)
    else AttemptStart.ClaimEffects(ScopeOf(c), record, rows.attempt.row, c.machine, c.correlationId, p.now,
                                   p.pc.ids.attemptAuditId)
  }

  function CommittedReply(h: Hashing, p: Process): Reply
    requires p.call.CommandCall? && p.pc.Completing? && !p.pc.verdict.Broken?
    requires p.pc.verdict.Granted? ==>
               if p.call.command.StartAi? then p.pc.rows.request.Read? else p.pc.rows.attempt.Read?
  {
    var c, record, rows := p.call.command, p.pc.record, p.pc.rows;
    if p.pc.verdict.Refused? then GuardReply(record, p.pc.verdict)
    else if c.StartAi? then StartAi.StartReply(c, record, rows.request.row, p.now, p.pc.ids, p.pc.token)
    else AttemptStart.ClaimReply(record, rows.attempt.row, p.now)
  }

  predicate Committable(p: Process) {
    && p.call.CommandCall? && p.pc.Completing? && !p.pc.verdict.Broken?
    && (p.pc.verdict.Granted? ==> if p.call.command.StartAi? then p.pc.rows.request.Read? else p.pc.rows.attempt.Read?)
  }

  /** What the process commits when it ends. */
  function EffectsOf(h: Hashing, p: Process): Effects {
    if Committable(p) then CommittedEffects(h, p)
    else if p.pc.Recorded? then p.pc.effects
    else NoEffects
  }

  /** The outcome the process ends its transaction with. */
  function EntryOf(h: Hashing, p: Process): Option<Entry> {
    match p.call
    case CommandCall(c) =>
      (match p.pc
       case Completing(_, _, _, _, _) => if Committable(p) then Some(CommandEntry(c, CommittedReply(h, p))) else None
       case Replaying(result) => Some(CommandEntry(c, ReplayReply(result)))
       case Failing(error, _) => Some(CommandEntry(c, Failed(error)))
       case _ => None)
    case IntakeCall(s) => if p.pc.Recorded? then Some(IntakeEntry(s, p.pc.reply)) else None
    case VerifyCall(_) => None
  }

  ghost function StepProcess(h: Hashing, db: Db, taken: set<Resource>, p: Process, ids: Ids,
                             intakeIds: Intake.IntakeIds, token: Option<string>): Process {
    match p.call
    case CommandCall(c) => StepCommand(h, db, taken, p, c, ids, token)
    case IntakeCall(s) => StepIntake(db, taken, p, s, intakeIds)
    case VerifyCall(k) => StepVerify(h, db, taken, p, k)
  }

  /** The process of a call whose transaction has just ended: its locks are released, its reply is due. */
  function Ended(p: Process, position: nat): Process { p.(held := {}, pc := Delivering(position)) }

  /** One event.  A disabled event changes nothing. */
  ghost function Step(h: Hashing, w: World, e: Event): World {
    match e
    case Begin(pid, call, now) =>
      if pid in w.processes then w else w.(processes := w.processes[pid := Process(call, now, {}, Opened)])
    case Abort(pid) =>
      w.(processes := w.processes - {pid})
    case Advance(pid, ids, intakeIds, token) =>
      if pid !in w.processes then w
      else
        var p := w.processes[pid];
        var entry := EntryOf(h, p);
        if p.pc.Delivering? then w.(processes := w.processes - {pid}, received := w.received + [p.pc.position])
        else if entry.Some? then
          w.(db := Apply(w.db, EffectsOf(h, p)), log := w.log + [entry.value],
             processes := w.processes[pid := Ended(p, |w.log|)])
        else w.(processes := w.processes[pid := StepProcess(h, w.db, Taken(w, pid), p, ids, intakeIds, token)])
  }

  /** The world after any sequence of events, so any interleaving of any number of calls. */
  ghost function Run(h: Hashing, w: World, events: seq<Event>): World {
    if events == [] then w
    else Step(h, Run(h, w, events[..|events| - 1]), events[|events| - 1])
  }
}
