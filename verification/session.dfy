/** The mutable view one database session has of the tables inside its transaction. */
module Sessions {
  import opened Model

  /** A SQLAlchemy session transaction: its identity, whether it is active, and whether the
      caller opened it with an explicit begin. */
  datatype Transaction = Transaction(id: nat, active: bool, explicitBegin: bool)

  /** Exceptions the services raise. */
  datatype Exception =
    | ApiError(status: int, code: ErrorCode)
    | RuntimeFailure
    | ValueFailure

  class Session {
    var transaction: Option<Transaction>
    var now: Time
    var records: map<ScopeKey, Record>
    var requests: map<Uuid, ServiceRequest>
    var operations: map<Uuid, Operation>
    var attempts: map<Uuid, Attempt>
    var credentials: map<Uuid, Credential>
    var keys: map<Digest, AcceptedKey>
    var contacts: map<Uuid, Contact>
    var deliveries: map<Uuid, Delivery>
    var audit: seq<AuditEvent>
    var outbox: seq<OutboxMessage>

    /** The abstract database the session sees: committed rows overlaid with its own writes. */
    function State(): Db
      reads this
    {
      Db(records, requests, operations, attempts, credentials, keys, contacts, deliveries, audit, outbox)
    }

    /** True when an explicit, caller-owned transaction is active. */
    predicate InOuterTransaction()
      reads this
    {
      transaction.Some? && transaction.value.active && transaction.value.explicitBegin
    }

    /** Roll back to the rows that were visible outside this transaction. */
    method Rollback(db: Db)
      modifies this
      ensures State() == db && transaction == old(transaction) && now == old(now)
    {
      records, requests, operations, attempts := db.records, db.requests, db.operations, db.attempts;
      credentials, keys, contacts, deliveries := db.credentials, db.keys, db.contacts, db.deliveries;
      audit, outbox := db.audit, db.outbox;
    }

    constructor (db: Db, transaction: Option<Transaction>, now: Time)
      ensures State() == db && this.transaction == transaction && this.now == now
    {
      this.transaction := transaction;
      this.now := now;
      records, requests, operations, attempts := db.records, db.requests, db.operations, db.attempts;
      credentials, keys, contacts, deliveries := db.credentials, db.keys, db.contacts, db.deliveries;
      audit, outbox := db.audit, db.outbox;
    }
  }
}
