/** Concurrent authentications: each reads the identity, then its credential versions, checks, and inserts
    its nonce in a second transaction.  Identities and credential versions may change between any two
    statements, and any call may be abandoned at any point, also after it succeeded. */
module NonceRuns {
  import opened Model
  import opened Utf8
  import opened Signing
  import opened MachineAuth

  datatype Tables = Tables(identities: seq<Identity>, versions: seq<CredentialVersion>)

  datatype Decision = Proceed(row: NonceRow) | Unauthorized | Unreachable

  datatype Phase = Reading | Identified | Verified(row: NonceRow) | Inserted(row: NonceRow)

  /** One call; `seen` are the identities and the credential versions as its two statements read them. */
  datatype AuthCall = AuthCall(request: SignedRequest, settings: AuthSettings, now: Time, seen: Tables, phase: Phase)

  datatype Success = Success(call: AuthCall, row: NonceRow)

  datatype AuthWorld = AuthWorld(tables: Tables, nonces: map<NonceKey, NonceRow>, calls: map<nat, AuthCall>,
                                 log: seq<Success>)

  datatype AuthEvent =
    | Arrive(pid: nat, request: SignedRequest, settings: AuthSettings, now: Time)
    | Proceeds(pid: nat)
    | Administer(tables: Tables)
    | Abandon(pid: nat)

  function KeyOf(row: NonceRow): NonceKey { NonceKey(row.identityId, row.environment, row.digest) }

  function FindIdentity(identities: seq<Identity>, environment: string, serviceId: seq<Byte>): Option<Identity> {
    if identities == [] then None
    else
      var i := identities[0];
      if i.environment == environment && i.serviceId == serviceId && i.isWorkflowService && i.isActive then Some(i)
      else FindIdentity(identities[1..], environment, serviceId)
  }

  function VerificationSet(versions: seq<CredentialVersion>, identityId: Uuid): seq<CredentialVersion> {
    if versions == [] then []
    else
      var v := versions[0];
      (if v.identityId == identityId && (v.status == Current || v.status == Previous) then [v] else [])
      + VerificationSet(versions[1..], identityId)
  }

  /** The request passes the header checks and its identity is there. */
  function Identify(q: SignedRequest, settings: AuthSettings, now: Time, identities: seq<Identity>): Option<Identity> {
    if !HeadersOk(q, settings, now) then None else FindIdentity(identities, settings.environment, q.serviceId)
  }

  /** Everything authenticate decides before it inserts the nonce, on the tables it read. */
  function Check(crypto: Crypto, q: SignedRequest, settings: AuthSettings, now: Time, seen: Tables): Decision {
    match Identify(q, settings, now, seen.identities)
    case None => Unauthorized
    case Some(identity) =>
      HeadersAccepted(crypto, q, settings, now);
      match Choose(crypto, identity.id, VerificationSet(seen.versions, identity.id), now,
                   SigningBytes(crypto.sha256, q.request).value, q.signature)
      case Refused => Unauthorized
      case Unavailable => Unreachable
      case Chosen(v) =>
        Proceed(NonceRow(identity.id, v.id, settings.environment, v.number, crypto.sha256(q.request.nonce),
                         SignedAt(q.request.timestamp, now, settings.skewSeconds).value,
                         now + settings.retentionSeconds * 1_000_000))
  }

  function Decided(crypto: Crypto, c: AuthCall): Decision { Check(crypto, c.request, c.settings, c.now, c.seen) }

  /** Another open transaction has inserted the same key. */
  ghost predicate Held(w: AuthWorld, pid: nat, key: NonceKey) {
    exists p :: p in w.calls && p != pid && w.calls[p].phase.Inserted? && KeyOf(w.calls[p].phase.row) == key
  }

  ghost function StepCall(crypto: Crypto, w: AuthWorld, pid: nat): AuthWorld
    requires pid in w.calls
  {
    var c := w.calls[pid];
    match c.phase
    case Reading =>
      if Identify(c.request, c.settings, c.now, w.tables.identities).None? then w.(calls := w.calls - {pid})
      else w.(calls := w.calls[pid := c.(seen := Tables(w.tables.identities, []), phase := Identified)])
    case Identified =>
      var read := c.(seen := Tables(c.seen.identities, w.tables.versions));
      (match Decided(crypto, read)
       case Proceed(row) => w.(calls := w.calls[pid := read.(phase := Verified(row))])
       case Unauthorized => w.(calls := w.calls - {pid})
       case Unreachable => w.(calls := w.calls - {pid}))
    case Verified(row) =>
      if Held(w, pid, KeyOf(row)) then w
      else if KeyOf(row) in w.nonces then w.(calls := w.calls - {pid})
      else w.(calls := w.calls[pid := c.(phase := Inserted(row))])
    case Inserted(row) =>
      AuthWorld(w.tables, w.nonces[KeyOf(row) := row], w.calls - {pid}, w.log + [Success(c, row)])
  }

  ghost function AuthStep(crypto: Crypto, w: AuthWorld, e: AuthEvent): AuthWorld {
    match e
    case Arrive(pid, request, settings, now) =>
      if pid in w.calls then w else w.(calls := w.calls[pid := AuthCall(request, settings, now, w.tables, Reading)])
    case Proceeds(pid) => if pid in w.calls then StepCall(crypto, w, pid) else w
    case Administer(tables) => w.(tables := tables)
    case Abandon(pid) => w.(calls := w.calls - {pid})
  }

  ghost function AuthRun(crypto: Crypto, tables: Tables, events: seq<AuthEvent>): AuthWorld {
    if events == [] then AuthWorld(tables, map[], map[], [])
    else AuthStep(crypto, AuthRun(crypto, tables, events[..|events| - 1]), events[|events| - 1])
  }

  // ------------------------------------------------------------------ the invariant

  ghost predicate CallOk(crypto: Crypto, nonces: map<NonceKey, NonceRow>, c: AuthCall) {
    && (c.phase.Verified? || c.phase.Inserted? ==> Decided(crypto, c) == Proceed(c.phase.row))
    && (c.phase.Inserted? ==> KeyOf(c.phase.row) !in nonces)
  }

  ghost predicate KeysDistinct(calls: map<nat, AuthCall>) {
    forall p, q :: p in calls && q in calls && p != q && calls[p].phase.Inserted? && calls[q].phase.Inserted? ==>
      KeyOf(calls[p].phase.row) != KeyOf(calls[q].phase.row)
  }

  ghost predicate SuccessOk(crypto: Crypto, nonces: map<NonceKey, NonceRow>, s: Success) {
    && Decided(crypto, s.call) == Proceed(s.row)
    && KeyOf(s.row) in nonces && nonces[KeyOf(s.row)] == s.row
  }

  ghost predicate LogOk(crypto: Crypto, nonces: map<NonceKey, NonceRow>, log: seq<Success>) {
    && (forall i :: 0 <= i < |log| ==> SuccessOk(crypto, nonces, log[i]))
    && (forall i, j :: 0 <= i < j < |log| ==> KeyOf(log[i].row) != KeyOf(log[j].row))
  }

  ghost predicate AuthInv(crypto: Crypto, w: AuthWorld) {
    && (forall p :: p in w.calls ==> CallOk(crypto, w.nonces, w.calls[p]))
    && KeysDistinct(w.calls)
    && LogOk(crypto, w.nonces, w.log)
  }

  lemma CommitKeepsAuthInv(crypto: Crypto, w: AuthWorld, pid: nat)
    requires AuthInv(crypto, w) && pid in w.calls && w.calls[pid].phase.Inserted?
    ensures AuthInv(crypto, StepCall(crypto, w, pid))
  {
    hide Check;
    var row := w.calls[pid].phase.row;
    assert CallOk(crypto, w.nonces, w.calls[pid]);
    var after := StepCall(crypto, w, pid);
    forall p | p in after.calls ensures CallOk(crypto, after.nonces, after.calls[p]) {
      assert CallOk(crypto, w.nonces, w.calls[p]);
    }
    forall i | 0 <= i < |after.log| ensures SuccessOk(crypto, after.nonces, after.log[i]) {
      if i < |w.log| { assert SuccessOk(crypto, w.nonces, w.log[i]); }
    }
  }

  lemma CallIsOk(crypto: Crypto, w: AuthWorld, pid: nat)
    requires AuthInv(crypto, w) && pid in w.calls
    ensures CallOk(crypto, w.nonces, w.calls[pid])
  {
    hide CallOk, KeysDistinct, LogOk;
  }

  /** A call changes its phase; it inserts only a key nobody else has inserted. */
  lemma PutKeepsAuthInv(crypto: Crypto, w: AuthWorld, pid: nat, c: AuthCall)
    requires AuthInv(crypto, w) && CallOk(crypto, w.nonces, c)
    requires c.phase.Inserted? ==> !Held(w, pid, KeyOf(c.phase.row))
    ensures AuthInv(crypto, w.(calls := w.calls[pid := c]))
  {
    hide CallOk, LogOk;
  }

  lemma RemoveKeepsAuthInv(crypto: Crypto, w: AuthWorld, pid: nat)
    requires AuthInv(crypto, w)
    ensures AuthInv(crypto, w.(calls := w.calls - {pid}))
  {
    hide CallOk, LogOk;
  }

  lemma AdministerKeepsAuthInv(crypto: Crypto, w: AuthWorld, tables: Tables)
    requires AuthInv(crypto, w)
    ensures AuthInv(crypto, w.(tables := tables))
  {
    hide CallOk, LogOk, KeysDistinct;
  }

  lemma CallKeepsAuthInv(crypto: Crypto, w: AuthWorld, pid: nat)
    requires AuthInv(crypto, w) && pid in w.calls
    ensures AuthInv(crypto, StepCall(crypto, w, pid))
  {
    hide AuthInv, Check, Identify, Held;
    CallIsOk(crypto, w, pid);
    var after := StepCall(crypto, w, pid);
    if w.calls[pid].phase.Inserted? { CommitKeepsAuthInv(crypto, w, pid); }
    else if pid in after.calls { PutKeepsAuthInv(crypto, w, pid, after.calls[pid]); }
    else { RemoveKeepsAuthInv(crypto, w, pid); }
    assert w.calls[pid := w.calls[pid]] == w.calls;
  }

  lemma StepKeepsAuthInv(crypto: Crypto, w: AuthWorld, e: AuthEvent)
    requires AuthInv(crypto, w)
    ensures AuthInv(crypto, AuthStep(crypto, w, e))
  {
    hide AuthInv, StepCall, Check;
    match e {
      case Arrive(pid, request, settings, now) =>
        if pid !in w.calls { PutKeepsAuthInv(crypto, w, pid, AuthCall(request, settings, now, w.tables, Reading)); }
      case Proceeds(pid) => if pid in w.calls { CallKeepsAuthInv(crypto, w, pid); }
      case Administer(tables) => AdministerKeepsAuthInv(crypto, w, tables);
      case Abandon(pid) => RemoveKeepsAuthInv(crypto, w, pid);
    }
  }

  lemma {:induction false} RunKeepsAuthInv(crypto: Crypto, tables: Tables, events: seq<AuthEvent>)
    ensures AuthInv(crypto, AuthRun(crypto, tables, events))
  {
    hide Check, AuthStep;
    if events != [] {
      RunKeepsAuthInv(crypto, tables, events[..|events| - 1]);
      StepKeepsAuthInv(crypto, AuthRun(crypto, tables, events[..|events| - 1]), events[|events| - 1]);
    }
  }

  // ------------------------------------------------------------------ single use

  /** A version the identity may sign with at `now`: current, or previous until the end of its grace period. */
  predicate Usable(v: CredentialVersion, identityId: Uuid, now: Time) {
    && v.identityId == identityId
    && (v.status == Current || (v.status == Previous && v.previousUntil.Some? && now <= v.previousUntil.value))
  }

  /** The signature is the HMAC of the signing bytes under the secret of the version. */
  predicate SignedWith(crypto: Crypto, q: SignedRequest, v: CredentialVersion) {
    var signing, secret := SigningBytes(crypto.sha256, q.request), crypto.resolve(v.reference);
    signing.Some? && secret.Some? && crypto.hmac(secret.value, signing.value) == q.signature
  }

  predicate IsCaller(identity: Identity, q: SignedRequest, settings: AuthSettings) {
    && identity.isActive && identity.isWorkflowService
    && identity.serviceId == q.serviceId && identity.environment == settings.environment
  }

  /** What a success used: a well-formed request; an active identity with its service id and environment; and of
      the versions read, the only usable one whose secret signs the request, already activated. */
  ghost predicate Justified(crypto: Crypto, s: Success, identity: Identity, v: CredentialVersion) {
    var q, now, settings, versions := s.call.request, s.call.now, s.call.settings, s.call.seen.versions;
    && WellFormed(q, settings, now)
    && identity in s.call.seen.identities && IsCaller(identity, q, settings)
    && v in versions && Usable(v, identity.id, now) && SignedWith(crypto, q, v) && v.activatedAt <= now
    && (forall d :: d in versions && Usable(d, identity.id, now) && SignedWith(crypto, q, d) ==> d == v)
    && s.row == NonceOf(crypto, q, settings, now, identity, v)
  }

  /** The nonce row: the identity and version, the time the request was signed, and how long it is kept. */
  function NonceOf(crypto: Crypto, q: SignedRequest, settings: AuthSettings, now: Time, identity: Identity,
                   v: CredentialVersion): NonceRow
    requires WellFormed(q, settings, now)
  {
    NonceRow(identity.id, v.id, settings.environment, v.number, crypto.sha256(q.request.nonce),
             Decimal(q.request.timestamp) * 1_000_000, now + settings.retentionSeconds * 1_000_000)
  }

  ghost predicate IsJustified(crypto: Crypto, s: Success) {
    exists identity, v :: Justified(crypto, s, identity, v)
  }

  lemma {:induction false} FoundIdentity(identities: seq<Identity>, environment: string, serviceId: seq<Byte>)
    ensures
      var found := FindIdentity(identities, environment, serviceId);
      found.Some? ==> found.value in identities && found.value.isActive && found.value.isWorkflowService
                      && found.value.environment == environment && found.value.serviceId == serviceId
  {
    if identities != [] { FoundIdentity(identities[1..], environment, serviceId); }
  }

  lemma {:induction false} VerificationSetExact(versions: seq<CredentialVersion>, identityId: Uuid,
                                                v: CredentialVersion)
    ensures v in VerificationSet(versions, identityId) <==>
              v in versions && v.identityId == identityId && (v.status == Current || v.status == Previous)
  {
    if versions != [] {
      VerificationSetExact(versions[1..], identityId, v);
      assert versions == [versions[0]] + versions[1..];
    }
  }

  lemma ProceedIsJustified(crypto: Crypto, s: Success) returns (identity: Identity, v: CredentialVersion)
    requires Decided(crypto, s.call) == Proceed(s.row)
    ensures Justified(crypto, s, identity, v)
  {
    hide Choose, SoleSigner, SetOk, HeadersOk, SigningBytes, SignedAt, WellFormed, Usable, SignedWith;
    var c := s.call;
    FoundIdentity(c.seen.identities, c.settings.environment, c.request.serviceId);
    identity := FindIdentity(c.seen.identities, c.settings.environment, c.request.serviceId).value;
    HeadersAccepted(crypto, c.request, c.settings, c.now);
    HeadersExact(c.request, c.settings, c.now);
    var signing := SigningBytes(crypto.sha256, c.request.request).value;
    var versions := VerificationSet(c.seen.versions, identity.id);
    v := Choose(crypto, identity.id, versions, c.now, signing, c.request.signature).credential;
    ChoiceExact(crypto, identity.id, versions, c.now, signing, c.request.signature, v);
    ChosenActivated(crypto, versions, identity.id, c.now, signing, c.request.signature, v);
    SoleSignerIsUsable(crypto, c.seen.versions, identity.id, c.now, c.request, v);
  }

  lemma ChosenActivated(crypto: Crypto, rows: seq<CredentialVersion>, identityId: Uuid, now: Time,
                        signing: seq<Byte>, signature: seq<Byte>, v: CredentialVersion)
    requires SetOk(rows, identityId, now) && SoleSigner(crypto, rows, now, signing, signature, v)
    ensures v.activatedAt <= now
  {
    hide Signs;
  }

  /** Being the sole effective signer of the verification set, in terms of the table. */
  lemma SoleSignerIsUsable(crypto: Crypto, versions: seq<CredentialVersion>, identityId: Uuid, now: Time,
                           q: SignedRequest, v: CredentialVersion)
    requires SigningBytes(crypto.sha256, q.request).Some?
    ensures
      var signing := SigningBytes(crypto.sha256, q.request).value;
      SoleSigner(crypto, VerificationSet(versions, identityId), now, signing, q.signature, v) <==>
        && v in versions && Usable(v, identityId, now) && SignedWith(crypto, q, v)
        && forall d :: d in versions && Usable(d, identityId, now) && SignedWith(crypto, q, d) ==> d == v
  {
    hide SigningBytes, VerificationSet;
    forall d ensures d in VerificationSet(versions, identityId) && Effective(d, now) <==>
                       d in versions && Usable(d, identityId, now)
    {
      VerificationSetExact(versions, identityId, d);
    }
  }

  /** Over any run, with credential versions rotating and calls failing anywhere, at most one
      authentication succeeds per identity, environment and nonce digest, and each success used the one
      effective version that signs its request, inside the clock window. */
  lemma NonceUsedOnce(crypto: Crypto, tables: Tables, events: seq<AuthEvent>)
    ensures
      var w := AuthRun(crypto, tables, events);
      && (forall i, j :: 0 <= i < j < |w.log| ==> !SameNonce(w.log[i].row, w.log[j].row))
      && (forall i :: 0 <= i < |w.log| ==> IsJustified(crypto, w.log[i]))
  {
    hide Check, Justified, CallOk, SameNonce, KeyOf;
    RunKeepsAuthInv(crypto, tables, events);
    var w := AuthRun(crypto, tables, events);
    forall i, j | 0 <= i < j < |w.log| ensures !SameNonce(w.log[i].row, w.log[j].row) {
      KeyExact(w.log[i].row, w.log[j].row);
    }
    forall i | 0 <= i < |w.log| ensures IsJustified(crypto, w.log[i]) {
      assert SuccessOk(crypto, w.nonces, w.log[i]);
      var identity, v := ProceedIsJustified(crypto, w.log[i]);
      assert Justified(crypto, w.log[i], identity, v);
    }
  }

  /** Two requests that sign with the same nonce under the same identity cannot both be accepted, whatever
      else they sign. */
  lemma ReplayRejected(crypto: Crypto, tables: Tables, events: seq<AuthEvent>, i: nat, j: nat)
    requires var w := AuthRun(crypto, tables, events);
             && i < |w.log| && j < |w.log|
             && w.log[i].row.identityId == w.log[j].row.identityId
             && w.log[i].call.settings.environment == w.log[j].call.settings.environment
             && w.log[i].call.request.request.nonce == w.log[j].call.request.request.nonce
    ensures i == j
  {
    hide Check, Justified, CallOk;
    RunKeepsAuthInv(crypto, tables, events);
    var w := AuthRun(crypto, tables, events);
    assert SuccessOk(crypto, w.nonces, w.log[i]) && SuccessOk(crypto, w.nonces, w.log[j]);
    RowKey(crypto, w.log[i]);
    RowKey(crypto, w.log[j]);
  }

  // ------------------------------------------------------------------ acceptance

  predicate SameNonce(r: NonceRow, s: NonceRow) {
    r.identityId == s.identityId && r.environment == s.environment && r.digest == s.digest
  }

  /** The unique key of a nonce row is its identity, its environment and its digest. */
  lemma KeyExact(r: NonceRow, s: NonceRow)
    ensures KeyOf(r) == KeyOf(s) <==> SameNonce(r, s)
  {
  }

  lemma KeyIsRow(r: NonceRow)
    ensures KeyOf(r) == NonceKey(r.identityId, r.environment, r.digest)
  {
  }

  predicate OnlyCaller(identities: seq<Identity>, identity: Identity, q: SignedRequest, settings: AuthSettings) {
    identity in identities && IsCaller(identity, q, settings)
    && forall j :: j in identities && IsCaller(j, q, settings) ==> j == identity
  }

  lemma {:induction false} FindsOnlyCaller(identities: seq<Identity>, identity: Identity, q: SignedRequest,
                                           settings: AuthSettings)
    requires OnlyCaller(identities, identity, q, settings)
    ensures FindIdentity(identities, settings.environment, q.serviceId) == Some(identity)
  {
    assert identities == [identities[0]] + identities[1..];
    if !IsCaller(identities[0], q, settings) { FindsOnlyCaller(identities[1..], identity, q, settings); }
  }

  /** The identity's versions are in order, every usable secret resolves, and `v` is the one that signs. */
  ghost predicate SignsAlone(crypto: Crypto, versions: seq<CredentialVersion>, identity: Identity, q: SignedRequest,
                             now: Time, v: CredentialVersion)
  {
    && SetOk(VerificationSet(versions, identity.id), identity.id, now)
    && Resolvable(crypto, VerificationSet(versions, identity.id), now)
    && v in versions && Usable(v, identity.id, now) && SignedWith(crypto, q, v)
    && forall d :: d in versions && Usable(d, identity.id, now) && SignedWith(crypto, q, d) ==> d == v
  }

  lemma CorrectProceeds(crypto: Crypto, q: SignedRequest, settings: AuthSettings, now: Time, seen: Tables,
                        identity: Identity, v: CredentialVersion)
    requires WellFormed(q, settings, now) && OnlyCaller(seen.identities, identity, q, settings)
    requires SignsAlone(crypto, seen.versions, identity, q, now, v)
    ensures Identify(q, settings, now, seen.identities) == Some(identity)
    ensures Check(crypto, q, settings, now, seen) == Proceed(NonceOf(crypto, q, settings, now, identity, v))
  {
    hide Choose, SoleSigner, SetOk, Resolvable, HeadersOk, SigningBytes, SignedAt, WellFormed, Usable, SignedWith;
    FindsOnlyCaller(seen.identities, identity, q, settings);
    HeadersExact(q, settings, now);
    HeadersAccepted(crypto, q, settings, now);
    SoleSignerIsUsable(crypto, seen.versions, identity.id, now, q, v);
    ChoiceExact(crypto, identity.id, VerificationSet(seen.versions, identity.id), now,
                SigningBytes(crypto.sha256, q.request).value, q.signature, v);
  }

  /** A well-formed request of the one active identity with its service id, signed with the identity's only
      usable signing version, under a nonce nobody has used or is using, succeeds in five steps from any
      world, and its nonce row is stored. */
  lemma CorrectRequestSucceeds(crypto: Crypto, w: AuthWorld, pid: nat, q: SignedRequest, settings: AuthSettings,
                               now: Time, identity: Identity, v: CredentialVersion)
    returns (s: Success)
    requires pid !in w.calls && WellFormed(q, settings, now) && OnlyCaller(w.tables.identities, identity, q, settings)
    requires SignsAlone(crypto, w.tables.versions, identity, q, now, v)
    requires NonceKey(identity.id, settings.environment, crypto.sha256(q.request.nonce)) !in w.nonces
    requires forall p :: p in w.calls && w.calls[p].phase.Inserted? ==>
               !SameNonce(w.calls[p].phase.row, NonceOf(crypto, q, settings, now, identity, v))
    ensures s.call.request == q && s.row == NonceOf(crypto, q, settings, now, identity, v)
    ensures
      var go := Proceeds(pid);
      var arrived := AuthStep(crypto, w, Arrive(pid, q, settings, now));
      AuthStep(crypto, AuthStep(crypto, AuthStep(crypto, AuthStep(crypto, arrived, go), go), go), go) ==
        AuthWorld(w.tables, w.nonces[KeyOf(s.row) := s.row], w.calls, w.log + [s])
  {
    hide Check, Identify, WellFormed, SignsAlone, OnlyCaller, KeyOf, SameNonce;
    var row := NonceOf(crypto, q, settings, now, identity, v);
    KeyIsRow(row);
    forall p | p in w.calls && w.calls[p].phase.Inserted? ensures KeyOf(w.calls[p].phase.row) != KeyOf(row) {
      KeyExact(w.calls[p].phase.row, row);
    }
    CorrectProceeds(crypto, q, settings, now, w.tables, identity, v);
    var begun := AuthCall(q, settings, now, w.tables, Reading);
    var identified := begun.(seen := Tables(w.tables.identities, []), phase := Identified);
    var verified := begun.(phase := Verified(row));
    s := Success(begun.(phase := Inserted(row)), row);
    var w1 := w.(calls := w.calls[pid := begun]);
    var w2 := w.(calls := w.calls[pid := identified]);
    var w3 := w.(calls := w.calls[pid := verified]);
    var w4 := w.(calls := w.calls[pid := s.call]);
    assert w1.calls[pid := identified] == w2.calls && w2.calls[pid := verified] == w3.calls;
    assert w3.calls[pid := s.call] == w4.calls && w4.calls - {pid} == w.calls;
    assert AuthStep(crypto, w1, Proceeds(pid)) == w2;
    assert AuthStep(crypto, w2, Proceeds(pid)) == w3;
    assert !Held(w3, pid, KeyOf(row));
    assert AuthStep(crypto, w3, Proceeds(pid)) == w4;
  }

  lemma RowKey(crypto: Crypto, s: Success)
    requires Decided(crypto, s.call) == Proceed(s.row)
    ensures s.row.environment == s.call.settings.environment
            && s.row.digest == crypto.sha256(s.call.request.request.nonce)
  {
    hide Choose, HeadersOk, SigningBytes;
  }
}
