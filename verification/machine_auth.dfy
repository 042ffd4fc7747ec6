/** WorkflowService authentication: the clock window, the choice of the credential version that
    verifies the signature, and the single use of each nonce. */
module MachineAuth {
  import opened Model
  import opened Utf8
  import opened Canonicalization
  import opened CanonicalQueries
  import opened Signing

  datatype Identity = Identity(id: Uuid, environment: string, serviceId: seq<Byte>, isWorkflowService: bool,
                               isActive: bool)

  datatype VersionStatus = Current | Previous | Retired | RevokedVersion

  datatype CredentialVersion = CredentialVersion(
    id: Uuid, identityId: Uuid, number: int, reference: string, status: VersionStatus, activatedAt: Time,
    previousUntil: Option<Time>)

  datatype NonceRow = NonceRow(identityId: Uuid, credentialId: Uuid, environment: string, number: int,
                               digest: HexDigest,
                               signedAt: Time, expiresAt: Time)

  /** uq_machine_request_nonces_identity_environment_digest */
  datatype NonceKey = NonceKey(identityId: Uuid, environment: string, digest: HexDigest)

  datatype AuthSettings = AuthSettings(environment: string, skewSeconds: nat, retentionSeconds: nat)

  datatype SignedRequest = SignedRequest(serviceId: seq<Byte>, signature: seq<Byte>, request: Request)

  /** SHA-256, HMAC-SHA-256 and the secret resolver, left uninterpreted; the resolver may be unavailable. */
  datatype Crypto = Crypto(
    sha256: seq<Byte> -> HexDigest, hmac: (seq<Byte>, seq<Byte>) -> HexDigest, resolve: string -> Option<seq<Byte>>)

  // ------------------------------------------------------------------ the headers

  function Decimal(s: seq<Byte>): nat
    requires forall i :: 0 <= i < |s| ==> IsDigit(s[i])
  {
    if s == [] then 0
    else
      assert IsDigit(s[|s| - 1]);
      Decimal(s[..|s| - 1]) * 10 + (s[|s| - 1] as int - 0x30)
  }

  function PowerOfTen(n: nat): nat { if n == 0 then 1 else 10 * PowerOfTen(n - 1) }

  predicate Digits(s: seq<Byte>) { forall i :: 0 <= i < |s| ==> '0' <= s[i] as char <= '9' }

  lemma TimesTen(v: nat, p: nat, low: nat)
    ensures (v * p + low) * 10 == v * (10 * p) + low * 10
  {
  }

  /** The number is positional: a leading digit counts for its power of ten. */
  lemma {:induction false} DecimalIsPositional(d: Byte, rest: seq<Byte>)
    requires Digits([d] + rest)
    ensures Digits(rest) && Decimal([d] + rest) == (d - 0x30) * PowerOfTen(|rest|) + Decimal(rest)
  {
    var s := [d] + rest;
    assert forall i :: 0 <= i < |rest| ==> rest[i] == s[i + 1];
    assert s[0] == d;
    if rest == [] {
      assert s[..|s| - 1] == [];
    } else {
      assert s[..|s| - 1] == [d] + rest[..|rest| - 1];
      DecimalIsPositional(d, rest[..|rest| - 1]);
      TimesTen(d - 0x30, PowerOfTen(|rest| - 1), Decimal(rest[..|rest| - 1]));
    }
  }

  /** 9999-12-31T23:59:59Z, the last second a datetime can hold. */
  const LAST_SECOND := 253402300799

  /** validate_timestamp, in microseconds; None when it raises. */
  function SignedAt(value: seq<Byte>, now: Time, skewSeconds: nat): Option<Time> {
    if value == [] || exists i :: 0 <= i < |value| && !IsDigit(value[i]) then None
    else if Decimal(value) > LAST_SECOND then None
    else
      var at := Decimal(value) * 1_000_000;
      if at - now > skewSeconds * 1_000_000 || now - at > skewSeconds * 1_000_000 then None else Some(at)
  }

  predicate ServiceIdOk(s: seq<Byte>) {
    && 1 <= |s| <= 128
    && forall i :: 0 <= i < |s| ==>
         IsDigit(s[i]) || 0x41 <= s[i] <= 0x5A || 0x61 <= s[i] <= 0x7A || s[i] in [0x2E, 0x5F, 0x3A, 0x2D]
  }

  predicate SignatureOk(s: seq<Byte>) {
    |s| == 64 && forall i :: 0 <= i < |s| ==> IsDigit(s[i]) || 0x61 <= s[i] <= 0x66
  }

  predicate HeadersOk(q: SignedRequest, settings: AuthSettings, now: Time) {
    && ServiceIdOk(q.serviceId) && SignatureOk(q.signature)
    && SignedAt(q.request.timestamp, now, settings.skewSeconds).Some?
    && 16 <= |q.request.nonce| <= 128 && Printable(q.request.nonce)
    && AcceptedPath(q.request.path) && CanonicalQuery(q.request.query).Some?
  }

  predicate ServiceIdCharacter(c: char) {
    'A' <= c <= 'Z' || 'a' <= c <= 'z' || '0' <= c <= '9' || c == '.' || c == '_' || c == ':' || c == '-'
  }

  /** The request as its caller must form it, header by header: a service id, a signature, a timestamp in whole
      seconds not further from the clock than the skew, a nonce, and a path and query that can be read. */
  predicate WellFormed(q: SignedRequest, settings: AuthSettings, now: Time) {
    var id, signature := q.serviceId, q.signature;
    var timestamp, nonce, path := q.request.timestamp, q.request.nonce, q.request.path;
    var skew := settings.skewSeconds * 1_000_000;
    && 1 <= |id| <= 128 && (forall i :: 0 <= i < |id| ==> ServiceIdCharacter(id[i] as char))
    && |signature| == 64
    && (forall i :: 0 <= i < |signature| ==> '0' <= signature[i] as char <= '9' || 'a' <= signature[i] as char <= 'f')
    && timestamp != [] && Digits(timestamp) && Decimal(timestamp) < 253402300800
    && now - skew <= Decimal(timestamp) * 1_000_000 <= now + skew
    && 16 <= |nonce| <= 128 && (forall i :: 0 <= i < |nonce| ==> '!' <= nonce[i] as char <= '~')
    && path != [] && path[0] as char == '/'
    && (forall i :: 0 <= i < |path| ==>
        '!' <= path[i] as char <= '~' && path[i] as char != '?' && path[i] as char != '#')
    && Tokens(path).Some? && ParseQuery(q.request.query).Some?
  }

  /** The header checks pass exactly for the well-formed requests, and the time they read is the timestamp. */
  lemma HeadersExact(q: SignedRequest, settings: AuthSettings, now: Time)
    ensures HeadersOk(q, settings, now) <==> WellFormed(q, settings, now)
    ensures WellFormed(q, settings, now) ==>
              SignedAt(q.request.timestamp, now, settings.skewSeconds) == Some(Decimal(q.request.timestamp) * 1_000_000)
  {
    hide Tokens, ParseQuery, UpperEscapes, Decimal;
    PathExact(q.request.path);
    TimestampExact(q.request.timestamp, now, settings.skewSeconds);
    hide AcceptedPath, SignedAt, Digits;
    CanonicalQueryParses(q.request.query);
  }

  lemma PathExact(path: seq<Byte>)
    ensures AcceptedPath(path) <==>
              && path != [] && path[0] as char == '/'
              && (forall i :: 0 <= i < |path| ==>
                  '!' <= path[i] as char <= '~' && path[i] as char != '?' && path[i] as char != '#')
              && Tokens(path).Some?
  {
    hide Tokens, UpperEscapes;
  }

  lemma TimestampExact(value: seq<Byte>, now: Time, skewSeconds: nat)
    ensures SignedAt(value, now, skewSeconds).Some? <==>
              && value != [] && Digits(value) && Decimal(value) < 253402300800
              && now - skewSeconds * 1_000_000 <= Decimal(value) * 1_000_000 <= now + skewSeconds * 1_000_000
    ensures SignedAt(value, now, skewSeconds).Some? ==>
              SignedAt(value, now, skewSeconds).value == Decimal(value) * 1_000_000
  {
    hide Decimal;
  }

  /** Headers that pass are accepted for signing. */
  lemma HeadersAccepted(crypto: Crypto, q: SignedRequest, settings: AuthSettings, now: Time)
    requires HeadersOk(q, settings, now)
    ensures Signable(q.request) && SigningBytes(crypto.sha256, q.request).Some?
    ensures SignedAt(q.request.timestamp, now, settings.skewSeconds).Some?
  {
  }

  // ------------------------------------------------------------------ the credential version

  /** The version is current, or it is previous and its grace period has not ended. */
  predicate Effective(c: CredentialVersion, now: Time) {
    c.status == Current || (c.status == Previous && c.previousUntil.Some? && c.previousUntil.value >= now)
  }

  predicate Signs(crypto: Crypto, c: CredentialVersion, signing: seq<Byte>, signature: seq<Byte>) {
    var secret := crypto.resolve(c.reference);
    secret.Some? && crypto.hmac(secret.value, signing) == signature
  }

  datatype Choice = Chosen(credential: CredentialVersion) | Refused | Unavailable

  function WithStatus(rows: seq<CredentialVersion>, status: VersionStatus): seq<CredentialVersion> {
    if rows == [] then []
    else (if rows[0].status == status then [rows[0]] else []) + WithStatus(rows[1..], status)
  }

  predicate InGrace(c: CredentialVersion, now: Time) { c.previousUntil.Some? && c.previousUntil.value >= now }

  function Candidates(current: CredentialVersion, previous: seq<CredentialVersion>, now: Time): seq<CredentialVersion> {
    [current] + if previous != [] && InGrace(previous[0], now) then [previous[0]] else []
  }

  /** The rows that verify the signature, or None when a secret cannot be resolved. */
  function Matching(crypto: Crypto, candidates: seq<CredentialVersion>, signing: seq<Byte>,
                    signature: seq<Byte>): Option<seq<CredentialVersion>> {
    if candidates == [] then Some([])
    else
      var rest := Matching(crypto, candidates[1..], signing, signature);
      if crypto.resolve(candidates[0].reference).None? || rest.None? then None
      else Some((if Signs(crypto, candidates[0], signing, signature) then [candidates[0]] else []) + rest.value)
  }

  function Choose(crypto: Crypto, identityId: Uuid, rows: seq<CredentialVersion>, now: Time, signing: seq<Byte>,
                  signature: seq<Byte>): Choice {
    var current, previous := WithStatus(rows, Current), WithStatus(rows, Previous);
    if |current| != 1 || |previous| > 1 || current[0].activatedAt > now then Refused
    else if previous != [] && previous[0].activatedAt > now then Refused
    else
      var candidates := Candidates(current[0], previous, now);
      if exists i :: 0 <= i < |candidates| && candidates[i].identityId != identityId then Refused
      else
        var matches := Matching(crypto, candidates, signing, signature);
        if matches.None? then Unavailable
        else if |matches.value| != 1 then Refused
        else Chosen(matches.value[0])
  }

  function Following(matches: seq<CredentialVersion>,
                     rest: Option<seq<CredentialVersion>>): Option<seq<CredentialVersion>> {
    if rest.None? then None else Some(matches + rest.value)
  }

  lemma NothingBefore(rest: Option<seq<CredentialVersion>>)
    ensures Following([], rest) == rest
  {
    if rest.Some? { assert [] + rest.value == rest.value; }
  }

  lemma MatchNext(crypto: Crypto, candidates: seq<CredentialVersion>, i: nat, signing: seq<Byte>,
                  signature: seq<Byte>, matches: seq<CredentialVersion>)
    requires i < |candidates|
    ensures
      var rest := Matching(crypto, candidates[i + 1..], signing, signature);
      Following(matches, Matching(crypto, candidates[i..], signing, signature)) ==
        if crypto.resolve(candidates[i].reference).None? then None
        else if Signs(crypto, candidates[i], signing, signature) then Following(matches + [candidates[i]], rest)
        else Following(matches, rest)
  {
    hide Signs;
    assert candidates[i..][0] == candidates[i] && candidates[i..][1..] == candidates[i + 1..];
    var rest := Matching(crypto, candidates[i + 1..], signing, signature);
    if rest.Some? {
      assert matches + ([candidates[i]] + rest.value) == matches + [candidates[i]] + rest.value;
      assert matches + ([] + rest.value) == matches + rest.value;
    }
  }

  /** The list comprehension over one status. */
  method FilterStatus(rows: seq<CredentialVersion>, status: VersionStatus) returns (kept: seq<CredentialVersion>)
    ensures kept == WithStatus(rows, status)
  {
    kept := [];
    for i := 0 to |rows|
      invariant kept + WithStatus(rows[i..], status) == WithStatus(rows, status)
    {
      assert rows[i..][1..] == rows[i + 1..];
      if rows[i].status == status { kept := kept + [rows[i]]; }
    }
  }

  /** The loop over the candidates: it stops at a secret that cannot be resolved. */
  method MatchCandidates(crypto: Crypto, candidates: seq<CredentialVersion>, signing: seq<Byte>, signature: seq<Byte>)
    returns (matching: Option<seq<CredentialVersion>>)
    ensures matching == Matching(crypto, candidates, signing, signature)
  {
    var matches := [];
    assert candidates[0..] == candidates;
    NothingBefore(Matching(crypto, candidates, signing, signature));
    for i := 0 to |candidates|
      invariant Matching(crypto, candidates, signing, signature) ==
                  Following(matches, Matching(crypto, candidates[i..], signing, signature))
    {
      MatchNext(crypto, candidates, i, signing, signature, matches);
      var secret := crypto.resolve(candidates[i].reference);
      if secret.None? { return None; }
      if crypto.hmac(secret.value, signing) == signature { matches := matches + [candidates[i]]; }
    }
    assert candidates[|candidates|..] == [] && matches + [] == matches;
    matching := Some(matches);
  }

  method ChooseCredential(crypto: Crypto, identityId: Uuid, rows: seq<CredentialVersion>, now: Time,
                          signing: seq<Byte>, signature: seq<Byte>)
    returns (choice: Choice)
    ensures choice == Choose(crypto, identityId, rows, now, signing, signature)
  {
    hide WithStatus, Matching;
    var current := FilterStatus(rows, Current);
    var previous := FilterStatus(rows, Previous);
    if |current| != 1 || |previous| > 1 || current[0].activatedAt > now { return Refused; }
    if previous != [] && previous[0].activatedAt > now { return Refused; }
    var candidates := [current[0]];
    if previous != [] && previous[0].previousUntil.Some? && previous[0].previousUntil.value >= now {
      candidates := candidates + [previous[0]];
    }
    assert candidates == Candidates(current[0], previous, now);
    if exists i :: 0 <= i < |candidates| && candidates[i].identityId != identityId { return Refused; }
    var matches := MatchCandidates(crypto, candidates, signing, signature);
    if matches.None? { return Unavailable; }
    if |matches.value| != 1 { return Refused; }
    choice := Chosen(matches.value[0]);
  }

  lemma {:induction false} WithStatusExact(rows: seq<CredentialVersion>, status: VersionStatus, c: CredentialVersion)
    ensures c in WithStatus(rows, status) <==> c in rows && c.status == status
  {
    if rows != [] {
      WithStatusExact(rows[1..], status, c);
      assert rows == [rows[0]] + rows[1..];
    }
  }

  /** One Current version, at most one Previous, all of them activated, the effective ones the identity's own. */
  predicate SetOk(rows: seq<CredentialVersion>, identityId: Uuid, now: Time) {
    && |WithStatus(rows, Current)| == 1 && |WithStatus(rows, Previous)| <= 1
    && (forall c :: c in rows && (c.status == Current || c.status == Previous) ==> c.activatedAt <= now)
    && (forall c :: c in rows && Effective(c, now) ==> c.identityId == identityId)
  }

  predicate Resolvable(crypto: Crypto, rows: seq<CredentialVersion>, now: Time) {
    forall c :: c in rows && Effective(c, now) ==> crypto.resolve(c.reference).Some?
  }

  predicate SoleSigner(crypto: Crypto, rows: seq<CredentialVersion>, now: Time, signing: seq<Byte>,
                       signature: seq<Byte>, c: CredentialVersion) {
    && c in rows && Effective(c, now) && Signs(crypto, c, signing, signature)
    && forall d :: d in rows && Effective(d, now) && Signs(crypto, d, signing, signature) ==> d == c
  }

  /** The candidates are exactly the effective rows. */
  lemma CandidatesExact(rows: seq<CredentialVersion>, now: Time)
    requires |WithStatus(rows, Current)| == 1 && |WithStatus(rows, Previous)| <= 1
    ensures forall c :: c in Candidates(WithStatus(rows, Current)[0], WithStatus(rows, Previous), now) <==>
              c in rows && Effective(c, now)
  {
    var current, previous := WithStatus(rows, Current), WithStatus(rows, Previous);
    forall c ensures c in Candidates(current[0], previous, now) <==> c in rows && Effective(c, now) {
      WithStatusExact(rows, Current, c);
      WithStatusExact(rows, Previous, c);
      assert c in current <==> c == current[0];
      assert c in previous <==> previous != [] && c == previous[0];
      assert Effective(current[0], now);
    }
  }

  /** A version is chosen exactly when the set is well formed, every effective secret resolves, and it
      is the only effective version whose secret signs the request; 503 is answered exactly when the
      set is well formed and an effective secret does not resolve. */
  lemma ChoiceExact(crypto: Crypto, identityId: Uuid, rows: seq<CredentialVersion>, now: Time, signing: seq<Byte>,
                    signature: seq<Byte>, c: CredentialVersion)
    ensures
      var choice := Choose(crypto, identityId, rows, now, signing, signature);
      && (choice == Unavailable <==> SetOk(rows, identityId, now) && !Resolvable(crypto, rows, now))
      && (choice == Chosen(c) <==>
            SetOk(rows, identityId, now) && Resolvable(crypto, rows, now)
               && SoleSigner(crypto, rows, now, signing, signature, c))
  {
    hide Signs, Effective, Matching, SetOk, Resolvable, SoleSigner, Candidates;
    var current, previous := WithStatus(rows, Current), WithStatus(rows, Previous);
    if |current| == 1 && |previous| <= 1 {
      var candidates := Candidates(current[0], previous, now);
      SetOkExact(rows, identityId, now);
      SignersExact(crypto, rows, candidates, now, signing, signature, c);
    } else {
      CountsRequired(rows, identityId, now);
    }
  }

  lemma CountsRequired(rows: seq<CredentialVersion>, identityId: Uuid, now: Time)
    ensures SetOk(rows, identityId, now) ==> |WithStatus(rows, Current)| == 1 && |WithStatus(rows, Previous)| <= 1
  {
  }

  /** The structural checks on the two lists are the well-formedness of the set. */
  lemma SetOkExact(rows: seq<CredentialVersion>, identityId: Uuid, now: Time)
    requires |WithStatus(rows, Current)| == 1 && |WithStatus(rows, Previous)| <= 1
    ensures
      var current, previous := WithStatus(rows, Current), WithStatus(rows, Previous);
      var candidates := Candidates(current[0], previous, now);
      SetOk(rows, identityId, now) <==>
        && current[0].activatedAt <= now && (previous != [] ==> previous[0].activatedAt <= now)
        && !exists i :: 0 <= i < |candidates| && candidates[i].identityId != identityId
  {
    hide Effective, Candidates;
    CandidatesExact(rows, now);
    ActivatedExact(rows, now);
    var candidates := Candidates(WithStatus(rows, Current)[0], WithStatus(rows, Previous), now);
    assert (exists i :: 0 <= i < |candidates| && candidates[i].identityId != identityId) <==>
             exists c :: c in candidates && c.identityId != identityId;
  }

  /** The matches of the candidate loop are the effective signers. */
  lemma SignersExact(crypto: Crypto, rows: seq<CredentialVersion>, candidates: seq<CredentialVersion>, now: Time,
                     signing: seq<Byte>, signature: seq<Byte>, c: CredentialVersion)
    requires |WithStatus(rows, Current)| == 1 && |WithStatus(rows, Previous)| <= 1
    requires candidates == Candidates(WithStatus(rows, Current)[0], WithStatus(rows, Previous), now)
    ensures
      var matches := Matching(crypto, candidates, signing, signature);
      && (matches.Some? <==> Resolvable(crypto, rows, now))
      && (matches.Some? ==>
          (|matches.value| == 1 && matches.value[0] == c <==> SoleSigner(crypto, rows, now, signing, signature, c)))
  {
    hide Signs, Effective, Matching, Candidates;
    CandidatesExact(rows, now);
    TwoCandidates(rows, now);
    MatchingExact(crypto, candidates, signing, signature);
  }

  lemma TwoCandidates(rows: seq<CredentialVersion>, now: Time)
    requires |WithStatus(rows, Current)| == 1 && |WithStatus(rows, Previous)| <= 1
    ensures
      var candidates := Candidates(WithStatus(rows, Current)[0], WithStatus(rows, Previous), now);
      1 <= |candidates| <= 2 && (|candidates| == 2 ==> candidates[0] != candidates[1])
  {
    hide Effective;
    var current, previous := WithStatus(rows, Current), WithStatus(rows, Previous);
    WithStatusExact(rows, Current, current[0]);
    if previous != [] { WithStatusExact(rows, Previous, previous[0]); }
  }

  lemma SoleOfStatus(rows: seq<CredentialVersion>, status: VersionStatus, c: CredentialVersion)
    requires |WithStatus(rows, status)| <= 1
    ensures c in rows && c.status == status <==> WithStatus(rows, status) != [] && c == WithStatus(rows, status)[0]
  {
    hide WithStatus;
    WithStatusExact(rows, status, c);
  }

  lemma ActivatedExact(rows: seq<CredentialVersion>, now: Time)
    requires |WithStatus(rows, Current)| == 1 && |WithStatus(rows, Previous)| <= 1
    ensures (forall c :: c in rows && (c.status == Current || c.status == Previous) ==> c.activatedAt <= now) <==>
              && WithStatus(rows, Current)[0].activatedAt <= now
              && (WithStatus(rows, Previous) != [] ==> WithStatus(rows, Previous)[0].activatedAt <= now)
  {
    hide WithStatus;
    forall c ensures c in rows && c.status == Current <==> c == WithStatus(rows, Current)[0] {
      SoleOfStatus(rows, Current, c);
    }
    forall c
      ensures c in rows && c.status == Previous <==>
                WithStatus(rows, Previous) != [] && c == WithStatus(rows, Previous)[0]
    {
      SoleOfStatus(rows, Previous, c);
    }
  }

  /** Matching keeps exactly the signers, when every secret resolves. */
  lemma MatchingExact(crypto: Crypto, candidates: seq<CredentialVersion>, signing: seq<Byte>, signature: seq<Byte>)
    requires 1 <= |candidates| <= 2 && (|candidates| == 2 ==> candidates[0] != candidates[1])
    ensures
      var matches := Matching(crypto, candidates, signing, signature);
      && (matches.Some? <==> forall c :: c in candidates ==> crypto.resolve(c.reference).Some?)
      && (matches.Some? ==> forall c :: (|matches.value| == 1 && matches.value[0] == c) <==>
            && c in candidates && Signs(crypto, c, signing, signature)
            && forall d :: d in candidates && Signs(crypto, d, signing, signature) ==> d == c)
  {
    hide Signs;
    MatchingOne(crypto, candidates[|candidates| - 1], signing, signature);
    if |candidates| == 1 {
      assert candidates == [candidates[0]];
    } else {
      assert candidates == [candidates[0], candidates[1]] && candidates[1..] == [candidates[1]];
    }
  }

  lemma MatchingOne(crypto: Crypto, c: CredentialVersion, signing: seq<Byte>, signature: seq<Byte>)
    ensures Matching(crypto, [c], signing, signature) ==
              if crypto.resolve(c.reference).None? then None
              else Some(if Signs(crypto, c, signing, signature) then [c] else [])
  {
    hide Signs;
    var none: seq<CredentialVersion> := [];
    assert [c][1..] == none && [c] + none == [c] && none + none == none;
  }
}
