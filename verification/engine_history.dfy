/** What a run leaves behind: rows that never change again, a gapless audit log with its outbox, and
    intake rows in bijection. */
module EngineHistory {
  import opened Model
  import opened Commands
  import opened Evidence
  import opened Invariants
  import opened Engine
  import opened EngineCommits
  import opened EngineFrames
  import opened EngineProcesses
  import opened EngineRuns
  import opened EngineTheorems
  import AttemptStart
  import Intake

  // ------------------------------------------------------------------ rows

  /** Only the three lifecycle fields can move, and not once the attempt is Running. */
  predicate AttemptFrozen(a: Attempt, b: Attempt) {
    && (a.state == Running ==> b == a)
    && b == a.(state := b.state, version := b.version, startedAt := b.startedAt)
  }

  /** Whatever runs later, a Running attempt row is final, operations and credentials are immutable,
      and a request changes in nothing but its version. */
  lemma RowsAreFrozen(h: Hashing, events: seq<Event>, later: seq<Event>)
    ensures
      var db, after := Run(h, EMPTY_WORLD, events).db, Run(h, Run(h, EMPTY_WORLD, events), later).db;
      && (forall a :: a in db.attempts ==> a in after.attempts && AttemptFrozen(db.attempts[a], after.attempts[a]))
      && (forall o :: o in db.operations ==> o in after.operations && after.operations[o] == db.operations[o])
      && (forall c :: c in db.credentials ==> c in after.credentials && after.credentials[c] == db.credentials[c])
      && (forall r :: r in db.requests ==>
            r in after.requests && after.requests[r].(version := db.requests[r].version) == db.requests[r])
  {
    hide WorldInv;
    ReachableInv(h, events);
    RunKeepsInv(h, Run(h, EMPTY_WORLD, events), later);
  }

  /** The step that starts an attempt writes that attempt's three lifecycle fields and nothing else
      outside the evidence and the command's own record: no request, operation, credential or other
      attempt.  It is announced by a 200 reply for that attempt. */
  lemma StartTouchesOneAttempt(h: Hashing, events: seq<Event>, e: Event, a: Uuid)
    requires var w := Run(h, EMPTY_WORLD, events);
             a in w.db.attempts && a in Step(h, w, e).db.attempts && Step(h, w, e).db.attempts[a] != w.db.attempts[a]
    ensures
      var w := Run(h, EMPTY_WORLD, events);
      var after := Step(h, w, e);
      && w.db.attempts[a].state == AttemptState.Pending && w.db.attempts[a].version == 1
      && after.db.attempts[a].startedAt.Some?
      && after.db.attempts ==
          w.db.attempts[a := AttemptStart.RunningAttempt(w.db.attempts[a], after.db.attempts[a].startedAt.value)]
      && after.db.requests == w.db.requests && after.db.operations == w.db.operations
      && after.db.credentials == w.db.credentials
      && after.db.keys == w.db.keys && after.db.contacts == w.db.contacts && after.db.deliveries == w.db.deliveries
      && |after.log| == |w.log| + 1 && StartOf(after.log[|w.log|], a)
      && after.log[|w.log|].reply.outcome.httpStatus == 200
  {
    hide Run, Sound, ProcessInv, LogSound, EffectsOf, EntryOf, StepProcess, StartOf, AttemptStart.RunningAttempt, Apply;
    ReachableInv(h, events);
    var w := Run(h, EMPTY_WORLD, events);
    if e.Advance? && e.pid in w.processes && EntryOf(h, w.processes[e.pid]).Some? {
      var p := w.processes[e.pid];
      ClaimCommitted(h, w.db, p, a);
      PendingIsFirst(h, w.db, a);
      ClaimWrites(w.db, EffectsOf(h, p), p.now);
    }
  }

  lemma PendingIsFirst(h: Hashing, db: Db, a: Uuid)
    requires Sound(h, db) && a in db.attempts && db.attempts[a].state == AttemptState.Pending
    ensures db.attempts[a].version == 1
  {
    hide IntakeConserved, EvidenceComplete, RecordsComplete;
    assert AttemptFits(db.operations, db.attempts[a]);
  }

  lemma ClaimWrites(db: Db, e: Effects, now: Time)
    requires e.AttemptClaimed? && e.attempt.id in db.attempts
             && e.attempt == AttemptStart.RunningAttempt(db.attempts[e.attempt.id], now)
    ensures
      var after := Apply(db, e);
      && e.attempt.startedAt == Some(now) && after.attempts == db.attempts[e.attempt.id := e.attempt]
      && after.requests == db.requests && after.operations == db.operations && after.credentials == db.credentials
      && after.keys == db.keys && after.contacts == db.contacts && after.deliveries == db.deliveries
  {
  }

  lemma ClaimCommitted(h: Hashing, db: Db, p: Process, a: Uuid)
    requires Sound(h, db) && ProcessInv(h, db, p) && EntryOf(h, p).Some? && a in db.attempts
    requires var after := Apply(db, EffectsOf(h, p)); a in after.attempts && after.attempts[a] != db.attempts[a]
    ensures EffectsOf(h, p).AttemptClaimed? && EffectsOf(h, p).attempt.id == a
    ensures db.attempts[a].state == AttemptState.Pending
            && EffectsOf(h, p).attempt == AttemptStart.RunningAttempt(db.attempts[a], p.now)
    ensures StartOf(EntryOf(h, p).value, a) && EntryOf(h, p).value.reply.outcome.httpStatus == 200
  {
    hide GraphSound, IntakeConserved, EvidenceComplete, RecordsComplete, CommandInv, IntakeInv, WholeUnit, Fits,
         Footprint, Evolves, Apply,
         EffectsOf, EntryOf;
    CommitFrame(h, db, p);
    CommitIsWhole(h, db, p);
    OnlyClaimsChangeAttempts(db, EffectsOf(h, p), a);
    ClaimUnit(h, db, p, EffectsOf(h, p));
    var c := p.call.command;
    CommandEnds(h, db, p, c);
    ClaimEntry(h, db, p, c);
  }

  lemma OnlyClaimsChangeAttempts(db: Db, e: Effects, a: Uuid)
    requires Fits(db, e) && a in db.attempts && a in Apply(db, e).attempts && Apply(db, e).attempts[a] != db.attempts[a]
    ensures e.AttemptClaimed? && e.attempt.id == a
  {
  }

  lemma ClaimUnit(h: Hashing, db: Db, p: Process, e: Effects)
    requires WholeUnit(h, db, p, e) && e.AttemptClaimed?
    ensures p.call.CommandCall? && p.call.command.ClaimStart? && p.call.command.attemptId in db.attempts
            && p.pc.Completing?
    ensures e.attempt == AttemptStart.RunningAttempt(db.attempts[p.call.command.attemptId], p.now)
    ensures AttemptStart.ClaimGranted(h, db, p.call.command, p.now)
  {
    hide AttemptStart.ClaimGranted;
  }

  lemma ClaimEntry(h: Hashing, db: Db, p: Process, c: Command)
    requires GraphSound(h, db) && CommandInv(h, db, p, c) && p.call == CommandCall(c) && c.ClaimStart?
    requires Committable(p) && EffectsOf(h, p).AttemptClaimed?
    ensures c.attemptId in db.attempts && EffectsOf(h, p).attempt.id == db.attempts[c.attemptId].id
    ensures db.attempts[c.attemptId].state == AttemptState.Pending && db.attempts[c.attemptId].id == c.attemptId
    ensures EntryOf(h, p).Some? && StartOf(EntryOf(h, p).value, c.attemptId)
            && EntryOf(h, p).value.reply.outcome.httpStatus == 200
  {
    hide GraphSound, CommandInv;
    GrantedClaim(h, db, p, c);
  }

  // ------------------------------------------------------------------ evidence

  /** The audit log is a gapless history: every request, attempt and delivery has events for the versions
      1..v, once each and in order, where v is its current version; folding the events of any aggregate
      gives its current state, and an aggregate that does not exist has none; and the outbox is the log
      without the interpretation-started events, each message with its event's name, aggregate, version, id,
      correlation and command. */
  lemma AuditIsGapless(h: Hashing, events: seq<Event>)
    ensures
      var db := Run(h, EMPTY_WORLD, events).db;
      && (forall g :: Fold(db.audit, g) == Current(db, g))
      && (forall r :: r in db.requests ==> VersionsOf(db.audit, RequestAggregate(r)) == UpTo(db.requests[r].version))
      && (forall a :: a in db.attempts ==> VersionsOf(db.audit, AttemptAggregate(a)) == UpTo(db.attempts[a].version))
      && (forall d :: d in db.deliveries ==>
          VersionsOf(db.audit, DeliveryAggregate(d)) == UpTo(db.deliveries[d].version))
      && (forall g :: Current(db, g) == Nothing ==> VersionsOf(db.audit, g) == [])
      && db.outbox == Messages(db.audit) && Published(db.audit, db.outbox)
  {
    hide Run, Published, Messages, VersionsOf, Fold;
    var db := Run(h, EMPTY_WORLD, events).db;
    EvidenceOf(h, events);
    MessagesMirror(db.audit);
    forall g ensures Current(db, g) == Nothing ==> VersionsOf(db.audit, g) == []
             ensures Current(db, g).At? ==> VersionsOf(db.audit, g) == UpTo(Current(db, g).version)
    {
      Gapless(db.audit, g);
    }
    forall r | r in db.requests ensures VersionsOf(db.audit, RequestAggregate(r)) == UpTo(db.requests[r].version) {
      assert Current(db, RequestAggregate(r)).At?;
    }
    forall a | a in db.attempts ensures VersionsOf(db.audit, AttemptAggregate(a)) == UpTo(db.attempts[a].version) {
      assert Current(db, AttemptAggregate(a)).At?;
    }
    forall d | d in db.deliveries ensures VersionsOf(db.audit, DeliveryAggregate(d)) == UpTo(db.deliveries[d].version) {
      assert Current(db, DeliveryAggregate(d)).At?;
    }
  }

  lemma EvidenceOf(h: Hashing, events: seq<Event>)
    ensures EvidenceComplete(Run(h, EMPTY_WORLD, events).db)
  {
    hide EvidenceComplete, LogSound, AllProcesses, GraphSound, IntakeConserved;
    ReachableInv(h, events);
  }

  // ------------------------------------------------------------------ operations

  /** At most one operation per request, input hash and configuration hash; and since a request's input
      never changes, at most one per request and configuration hash. */
  lemma OneOperationPerIdentity(h: Hashing, events: seq<Event>, o: Uuid, p: Uuid)
    requires var db := Run(h, EMPTY_WORLD, events).db;
             && o in db.operations && p in db.operations
             && db.operations[o].requestId == db.operations[p].requestId
             && db.operations[o].configurationHash == db.operations[p].configurationHash
    ensures o == p
  {
    hide Run, GraphSound;
    ReachableTables(h, events);
    SameInput(h, Run(h, EMPTY_WORLD, events).db, o, p);
  }

  lemma SameInput(h: Hashing, db: Db, o: Uuid, p: Uuid)
    requires GraphSound(h, db) && o in db.operations && p in db.operations
    requires db.operations[o].requestId == db.operations[p].requestId
    requires db.operations[o].configurationHash == db.operations[p].configurationHash
    ensures o == p
  {
    hide OperationChecks;
    assert OperationFits(h, db.requests, db.operations[o]) && OperationFits(h, db.requests, db.operations[p]);
    assert SameIdentity(db.operations[o], db.operations[p]);
  }

  // ------------------------------------------------------------------ intake

  /** A New delivery belongs to the key it was accepted under, and to it alone. */
  ghost predicate KeysMatchDeliveries(db: Db) {
    && (forall k :: k in db.keys ==> db.keys[k].originalDeliveryId in NewDeliveries(db.deliveries))
    && (forall d :: d in NewDeliveries(db.deliveries) ==>
          db.deliveries[d].keyDigest in db.keys && db.keys[db.deliveries[d].keyDigest].originalDeliveryId == d)
    && (forall k :: k in db.keys ==> db.deliveries[db.keys[k].originalDeliveryId].keyDigest == k)
  }

  /** A request belongs to the key it was created under, and to it alone. */
  ghost predicate KeysMatchRequests(db: Db) {
    && (forall k :: k in db.keys ==> db.keys[k].requestId in db.requests)
    && (forall k, l :: k in db.keys && l in db.keys && db.keys[k].requestId == db.keys[l].requestId ==> k == l)
    && (forall r :: r in db.requests ==> exists k :: k in db.keys && db.keys[k].requestId == r)
  }

  /** A contact belongs to the request it was created with, and to it alone. */
  ghost predicate RequestsMatchContacts(db: Db) {
    && (forall r :: r in db.requests ==> db.requests[r].contactId in db.contacts)
    && (forall q, r :: q in db.requests && r in db.requests && db.requests[q].contactId == db.requests[r].contactId ==>
        q == r)
    && (forall c :: c in db.contacts ==> exists r :: r in db.requests && db.requests[r].contactId == c)
  }

  /** Every replayed delivery names the request and the original delivery its key was accepted with. */
  ghost predicate ReplaysNameTheWinner(db: Db) {
    forall d :: d in db.deliveries && db.deliveries[d].outcome == IdempotentReplay ==>
      && db.deliveries[d].keyDigest in db.keys
      && db.deliveries[d].logicalRequestId == Some(db.keys[db.deliveries[d].keyDigest].requestId)
      && db.deliveries[d].originalDeliveryId == Some(db.keys[db.deliveries[d].keyDigest].originalDeliveryId)
  }

  /** Accepted keys, contacts, requests and New deliveries are in bijection, with one of each per key
      digest; every replayed delivery names the winner's request and original delivery; and there are as
      many intake events, and as many intake messages, as deliveries and New deliveries together. */
  lemma IntakeIsConserved(h: Hashing, events: seq<Event>)
    ensures
      var db := Run(h, EMPTY_WORLD, events).db;
      && KeysMatchDeliveries(db) && KeysMatchRequests(db) && RequestsMatchContacts(db) && ReplaysNameTheWinner(db)
      && |db.keys| == |db.requests| == |db.contacts| == |NewDeliveries(db.deliveries)|
      && IntakeEvents(db.audit) == IntakeMessages(db.outbox) == |db.deliveries| + |NewDeliveries(db.deliveries)|
  {
    hide Run, IntakeEvents, IntakeMessages, NewDeliveries, IntakeLinked, KeysMatchDeliveries, KeysMatchRequests,
         RequestsMatchContacts, ReplaysNameTheWinner;
    var db := Run(h, EMPTY_WORLD, events).db;
    IntakeOf(h, events);
    EvidenceOf(h, events);
    IntakeIsPublished(db.audit);
    LinkedDeliveries(db);
    LinkedRequests(db);
    LinkedContacts(db);
  }

  lemma LinkedDeliveries(db: Db)
    requires IntakeLinked(db.keys, db.contacts, db.deliveries, db.requests)
    ensures KeysMatchDeliveries(db) && ReplaysNameTheWinner(db)
  {
  }

  lemma LinkedRequests(db: Db)
    requires IntakeLinked(db.keys, db.contacts, db.deliveries, db.requests)
    ensures KeysMatchRequests(db)
  {
    forall r | r in db.requests ensures exists k :: k in db.keys && db.keys[k].requestId == r {
      var d := db.requests[r].originatingDeliveryId;
      assert DeliveryFits(db.keys, d, db.deliveries[d]);
      assert db.keys[db.deliveries[d].keyDigest].requestId == r;
    }
  }

  lemma LinkedContacts(db: Db)
    requires IntakeLinked(db.keys, db.contacts, db.deliveries, db.requests) && |db.requests| == |db.contacts|
    ensures RequestsMatchContacts(db)
  {
    ContactsOf(db.requests, db.requests.Keys);
    var used := set r | r in db.requests :: db.requests[r].contactId;
    assert |db.contacts.Keys| == |db.contacts| && |db.requests.Keys| == |db.requests|;
    assert used <= db.contacts.Keys;
    SubsetOfSameSize(used, db.contacts.Keys);
  }

  /** Distinct contacts are as many as the requests that have them. */
  lemma {:induction false} ContactsOf(requests: map<Uuid, ServiceRequest>, ids: set<Uuid>)
    requires ids <= requests.Keys
    requires forall q, r :: q in ids && r in ids && requests[q].contactId == requests[r].contactId ==> q == r
    ensures |set r | r in ids :: requests[r].contactId| == |ids|
  {
    if ids != {} {
      var x :| x in ids;
      ContactsOf(requests, ids - {x});
      var rest := set r | r in ids - {x} :: requests[r].contactId;
      assert (set r | r in ids :: requests[r].contactId) == rest + {requests[x].contactId};
    }
  }

  lemma SubsetOfSameSize(a: set<Uuid>, b: set<Uuid>)
    requires a <= b && |a| == |b|
    ensures a == b
  {
    assert |b - a| == 0;
  }

  lemma IntakeOf(h: Hashing, events: seq<Event>)
    ensures IntakeConserved(Run(h, EMPTY_WORLD, events).db)
  {
    hide EvidenceComplete, LogSound, AllProcesses, GraphSound, IntakeConserved;
    ReachableInv(h, events);
  }

  /** At most one submission per key digest ever commits a 201, a key is accepted exactly when one did, and
      every 200 names that submission's request and delivery. */
  lemma OneCreationPerKey(h: Hashing, events: seq<Event>, digest: Digest)
    ensures
      var w := Run(h, EMPTY_WORLD, events);
      && AtMostOnce(w.log, e => CreationOf(e, digest))
      && (digest in w.db.keys <==> Logged(w.log, e => CreationOf(e, digest)))
      && (forall i, j :: 0 <= i < |w.log| && 0 <= j < |w.log|
                         && CreationOf(w.log[i], digest) && ReplayOf(w.log[j], digest) ==>
            NamesWinner(w.log[i].intakeReply, w.log[j].intakeReply))
  {
    hide Sound, LogSound, Accounted, AllProcesses, Logged, EntryBacked, Incompatible;
    ReachableInv(h, events);
    RunAccounted(h, events);
    var w := Run(h, EMPTY_WORLD, events);
    CreationsExclude(h, w.db, w.log, digest);
    if digest in w.db.keys { KeysAccounted(w.db, w.log, digest); }
    if Logged(w.log, e => CreationOf(e, digest)) { LoggedCreation(h, w.db, w.log, digest); }
    forall i, j | 0 <= i < |w.log| && 0 <= j < |w.log| && CreationOf(w.log[i], digest) && ReplayOf(w.log[j], digest)
      ensures NamesWinner(w.log[i].intakeReply, w.log[j].intakeReply)
    {
      BackedAt(h, w.db, w.log, i);
      BackedAt(h, w.db, w.log, j);
      SameKeySameWinner(h, w.db, w.log[i], w.log[j], digest);
    }
  }

  predicate ReplayOf(e: Entry,
                     digest: Digest) { e.IntakeEntry? && e.intakeReply.Replayed? && e.submission.keyDigest == digest }

  predicate NamesWinner(created: Intake.IntakeReply, replayed: Intake.IntakeReply) {
    && created.Created? && replayed.Replayed?
    && replayed.requestId == created.requestId && replayed.originalDeliveryId == created.deliveryId
  }

  lemma SameKeySameWinner(h: Hashing, db: Db, e: Entry, f: Entry, digest: Digest)
    requires EntryBacked(h, db, e) && EntryBacked(h, db, f) && CreationOf(e, digest) && ReplayOf(f, digest)
    ensures NamesWinner(e.intakeReply, f.intakeReply)
  {
  }

  lemma LoggedCreation(h: Hashing, db: Db, log: seq<Entry>, digest: Digest)
    requires LogSound(h, db, log) && Logged(log, e => CreationOf(e, digest))
    ensures digest in db.keys
  {
    hide Incompatible;
    var i :| 0 <= i < |log| && CreationOf(log[i], digest);
    assert EntryBacked(h, db, log[i]);
  }
}
