/** The audit log as the history of every aggregate, and the outbox as its projection. */
module Evidence {
  import opened Model

  /** The state of one aggregate as its audit events tell it. */
  datatype History = Nothing | At(version: int, outcome: EventOutcome) | Corrupt

  /** One event extends a history only when its version is the next one. */
  function Extend(past: History, e: AuditEvent): History {
    match past
    case Nothing => if e.version == 1 then At(1, e.outcome) else Corrupt
    case At(v, _) => if e.version == v + 1 then At(e.version, e.outcome) else Corrupt
    case Corrupt => Corrupt
  }

  /** The fold of the audit log over aggregate `g`. */
  function Fold(audit: seq<AuditEvent>, g: Aggregate): History {
    if audit == [] then Nothing
    else
      var past := Fold(audit[..|audit| - 1], g);
      var e := audit[|audit| - 1];
      if e.aggregate == g then Extend(past, e) else past
  }

  function VersionsOf(audit: seq<AuditEvent>, g: Aggregate): seq<int> {
    if audit == [] then []
    else
      var past := VersionsOf(audit[..|audit| - 1], g);
      var e := audit[|audit| - 1];
      if e.aggregate == g then past + [e.version] else past
  }

  /** 1, 2, ..., n */
  function UpTo(n: int): seq<int> {
    if n <= 0 then [] else UpTo(n - 1) + [n]
  }

  /** A history that did not corrupt has the versions 1..v, each exactly once and in order. */
  lemma {:induction false} Gapless(audit: seq<AuditEvent>, g: Aggregate)
    requires Fold(audit, g) != Corrupt
    ensures Fold(audit, g) == Nothing ==> VersionsOf(audit, g) == []
    ensures Fold(audit, g).At? ==> Fold(audit, g).version >= 1 && VersionsOf(audit, g) == UpTo(Fold(audit, g).version)
  {
    if audit != [] {
      Gapless(audit[..|audit| - 1], g);
    }
  }

  lemma FoldAppend(audit: seq<AuditEvent>, e: AuditEvent, g: Aggregate)
    ensures Fold(audit + [e], g) == if e.aggregate == g then Extend(Fold(audit, g), e) else Fold(audit, g)
  {
    assert (audit + [e])[..|audit|] == audit;
  }

  lemma FoldAppend2(audit: seq<AuditEvent>, e: AuditEvent, f: AuditEvent, g: Aggregate)
    ensures var mid := if e.aggregate == g then Extend(Fold(audit, g), e) else Fold(audit, g);
            Fold(audit + [e, f], g) == if f.aggregate == g then Extend(mid, f) else mid
  {
    FoldAppend(audit, e, g);
    FoldAppend(audit + [e], f, g);
    assert audit + [e, f] == audit + [e] + [f];
  }

  /** The message an event publishes; a request's `ai_interpretation_started` publishes none. */
  function MessageOf(e: AuditEvent): OutboxMessage {
    OutboxMessage(e.name, e.aggregate, e.version, e.id, e.correlationId, e.commandId)
  }

  function MessagesOf(e: AuditEvent): seq<OutboxMessage> {
    if e.name == AiInterpretationStarted then [] else [MessageOf(e)]
  }

  function Messages(audit: seq<AuditEvent>): seq<OutboxMessage> {
    if audit == [] then []
    else Messages(audit[..|audit| - 1]) + MessagesOf(audit[|audit| - 1])
  }

  lemma MessagesAppend(audit: seq<AuditEvent>, e: AuditEvent)
    ensures Messages(audit + [e]) == Messages(audit) + MessagesOf(e)
  {
    assert (audit + [e])[..|audit|] == audit;
  }

  lemma MessagesAppend2(audit: seq<AuditEvent>, e: AuditEvent, f: AuditEvent)
    ensures Messages(audit + [e, f]) == Messages(audit) + MessagesOf(e) + MessagesOf(f)
  {
    MessagesAppend(audit, e);
    MessagesAppend(audit + [e], f);
    assert audit + [e, f] == audit + [e] + [f];
  }

  predicate Mirrors(m: OutboxMessage, e: AuditEvent) {
    && m.name == e.name && m.aggregate == e.aggregate && m.version == e.version
    && m.auditEventId == e.id && m.correlationId == e.correlationId && m.causationId == e.commandId
  }

  /** Every message mirrors an event, and every event but an interpretation-started one has its message. */
  ghost predicate Published(audit: seq<AuditEvent>, outbox: seq<OutboxMessage>) {
    && (forall m :: m in outbox ==> exists e :: e in audit && e.name != AiInterpretationStarted && Mirrors(m, e))
    && (forall e :: e in audit && e.name != AiInterpretationStarted ==> exists m :: m in outbox && Mirrors(m, e))
  }

  lemma {:induction false} MessagesMirror(audit: seq<AuditEvent>)
    ensures Published(audit, Messages(audit))
  {
    if audit != [] {
      var past, e := audit[..|audit| - 1], audit[|audit| - 1];
      MessagesMirror(past);
      assert audit == past + [e];
      forall m | m in Messages(audit)
        ensures exists f :: f in audit && f.name != AiInterpretationStarted && Mirrors(m, f)
      {
        if m in Messages(past) {
          var f :| f in past && f.name != AiInterpretationStarted && Mirrors(m, f);
          assert f in audit;
        } else {
          assert m == MessageOf(e) && e in audit && Mirrors(m, e);
        }
      }
      forall f | f in audit && f.name != AiInterpretationStarted
        ensures exists m :: m in Messages(audit) && Mirrors(m, f)
      {
        if f in past {
          var m :| m in Messages(past) && Mirrors(m, f);
          assert m in Messages(audit);
        } else {
          assert MessageOf(e) in Messages(audit) && Mirrors(MessageOf(e), f);
        }
      }
    }
  }

  /** The events public intake records. */
  predicate IsIntake(name: EventName) { name == DeliveryAccepted || name == DeliveryRejected || name == RequestCreated }

  function IntakeEvents(audit: seq<AuditEvent>): nat {
    if audit == [] then 0
    else IntakeEvents(audit[..|audit| - 1]) + if IsIntake(audit[|audit| - 1].name) then 1 else 0
  }

  function IntakeMessages(outbox: seq<OutboxMessage>): nat {
    if outbox == [] then 0
    else IntakeMessages(outbox[..|outbox| - 1]) + if IsIntake(outbox[|outbox| - 1].name) then 1 else 0
  }

  lemma IntakeEventsAppend(audit: seq<AuditEvent>, e: AuditEvent)
    ensures IntakeEvents(audit + [e]) == IntakeEvents(audit) + if IsIntake(e.name) then 1 else 0
  {
    assert (audit + [e])[..|audit|] == audit;
  }

  lemma IntakeEventsAppend2(audit: seq<AuditEvent>, e: AuditEvent, f: AuditEvent)
    ensures IntakeEvents(audit + [e, f]) ==
              IntakeEvents(audit) + (if IsIntake(e.name) then 1 else 0) + (if IsIntake(f.name) then 1 else 0)
  {
    IntakeEventsAppend(audit, e);
    IntakeEventsAppend(audit + [e], f);
    assert audit + [e, f] == audit + [e] + [f];
  }

  /** Every intake event is published, and no other message is an intake message. */
  lemma {:induction false} IntakeIsPublished(audit: seq<AuditEvent>)
    ensures IntakeMessages(Messages(audit)) == IntakeEvents(audit)
  {
    if audit != [] {
      var past, e := audit[..|audit| - 1], audit[|audit| - 1];
      IntakeIsPublished(past);
      if e.name == AiInterpretationStarted {
        assert Messages(audit) == Messages(past);
      } else {
        assert Messages(audit)[..|Messages(audit)| - 1] == Messages(past);
      }
    }
  }

  /** The current row of an aggregate, in the terms its events use. */
  function Current(db: Db, g: Aggregate): History {
    match g
    case RequestAggregate(id) =>
      if id !in db.requests then Nothing
      else
        var v := db.requests[id].version;
        At(v, if v == 1 then RequestCreatedOutcome else StartedOutcome)
    case AttemptAggregate(id) =>
      if id !in db.attempts then Nothing
      else At(db.attempts[id].version, AttemptOutcome(db.attempts[id].state))
    case DeliveryAggregate(id) =>
      if id !in db.deliveries then Nothing
      else At(db.deliveries[id].version, DeliveryOutcome(db.deliveries[id].outcome))
  }

  /** Folding the log gives every current row, and the outbox is the log's projection. */
  ghost predicate EvidenceComplete(db: Db) {
    && (forall g :: Fold(db.audit, g) == Current(db, g))
    && db.outbox == Messages(db.audit)
  }
}
