/** The callback-credential history of one attempt: what claim/start and the callback verifier
    both require of it, and why an accepted history is well founded. */
module CredentialHistory {
  import opened Model

  function ActiveIds(creds: map<Uuid, Credential>): set<Uuid> {
    set c | c in creds && creds[c].state == Active
  }

  predicate VersionsConsistent(creds: map<Uuid, Credential>) {
    && (forall c :: c in creds ==> creds[c].version > 0)
    && (forall c, d :: c in creds && d in creds && c != d ==> creds[c].version != creds[d].version)
  }

  /** credential_version == max(credential_versions) */
  predicate IsCurrent(creds: map<Uuid, Credential>, id: Uuid)
    requires id in creds
  {
    forall c :: c in creds ==> creds[c].version <= creds[id].version
  }

  /** The `valid_history` decision on one historical row. */
  predicate LinkOk(creds: map<Uuid, Credential>, c: Credential) {
    match c.state
    case Replaced =>
      && c.consumedAt == None && c.replacedAt != None && c.revokedAt == None
      && c.replacementId.Some?
      && c.replacementId.value in creds
      && creds[c.replacementId.value].version == c.version + 1
    case Revoked => c.consumedAt == None && c.replacedAt == None && c.revokedAt != None && c.replacementId == None
    case Consumed => c.consumedAt != None && c.replacedAt == None && c.revokedAt == None && c.replacementId == None
    case Active => false
  }

  /** The structural checks shared by claim/start and the callback verifier. */
  predicate AcceptedHistory(creds: map<Uuid, Credential>, active: Uuid) {
    && active in creds
    && ActiveIds(creds) == {active}
    && VersionsConsistent(creds)
    && IsCurrent(creds, active)
    && (forall c :: c in creds && c != active ==> LinkOk(creds, creds[c]))
  }

  /** The only Active credential. */
  ghost function TheActive(creds: map<Uuid, Credential>): (id: Uuid)
    requires |ActiveIds(creds)| == 1
    ensures ActiveIds(creds) == {id}
  {
    var id :| id in ActiveIds(creds);
    SingletonSet(ActiveIds(creds), id);
    id
  }

  lemma SingletonSet(s: set<Uuid>, x: Uuid)
    requires |s| == 1 && x in s
    ensures s == {x}
  {
    assert |s - {x}| == 0;
  }

  /** The row reached from `id` after following `n` replacement links. */
  function Follow(creds: map<Uuid, Credential>, id: Uuid, n: nat): Option<Uuid> {
    if n == 0 then
      if id in creds then Some(id) else None
    else
      match Follow(creds, id, n - 1)
      case None => None
      case Some(x) =>
        if x in creds && creds[x].state == Replaced then creds[x].replacementId else None
  }

  /** Every link raises the version by exactly one. */
  lemma {:induction false} FollowRaisesVersion(creds: map<Uuid, Credential>, active: Uuid, id: Uuid, n: nat)
    requires AcceptedHistory(creds, active) && id in creds && Follow(creds, id, n).Some?
    ensures Follow(creds, id, n).value in creds
    ensures creds[Follow(creds, id, n).value].version == creds[id].version + n
    ensures creds[id].version + n <= creds[active].version
  {
    if n > 0 {
      FollowRaisesVersion(creds, active, id, n - 1);
      var x := Follow(creds, id, n - 1).value;
      assert x != active;
      assert LinkOk(creds, creds[x]);
    }
  }

  /** Following links from any row ends, within max version - version steps, at a row that is not
      Replaced. */
  lemma {:induction false} ChainEnds(creds: map<Uuid, Credential>, active: Uuid, id: Uuid, n: nat)
    returns (steps: nat)
    requires AcceptedHistory(creds, active) && id in creds && Follow(creds, id, n).Some?
    ensures n <= steps <= creds[active].version - creds[id].version
    ensures Follow(creds, id, steps).Some?
    ensures Follow(creds, id, steps).value in creds
    ensures creds[Follow(creds, id, steps).value].state != Replaced
    decreases creds[active].version - creds[id].version - n
  {
    FollowRaisesVersion(creds, active, id, n);
    var x := Follow(creds, id, n).value;
    if creds[x].state != Replaced {
      steps := n;
    } else {
      assert LinkOk(creds, creds[x]);
      assert Follow(creds, id, n + 1) == creds[x].replacementId;
      FollowRaisesVersion(creds, active, id, n + 1);
      steps := ChainEnds(creds, active, id, n + 1);
    }
  }

  /** An accepted history is well founded: replacement links are injective and never cycle, every
      chain stops within the version gap at a row that was not replaced, and the Active row is the
      one row of greatest version. */
  lemma HistoryWellFounded(creds: map<Uuid, Credential>, active: Uuid)
    requires AcceptedHistory(creds, active)
    ensures forall c, d :: c in creds && d in creds && SameReplacement(creds[c], creds[d]) ==> c == d
    ensures forall c, n: nat :: c in creds && n > 0 ==> Follow(creds, c, n) != Some(c)
    ensures forall c :: c in creds ==>
              exists n: nat :: n <= creds[active].version - creds[c].version && EndsAt(creds, c, n)
    ensures forall c :: c in creds && c != active ==> creds[c].version < creds[active].version
  {
    forall c, d | c in creds && d in creds && SameReplacement(creds[c], creds[d])
      ensures c == d
    {
      assert LinkOk(creds, creds[c]) && LinkOk(creds, creds[d]);
    }
    forall c, n: nat | c in creds && n > 0
      ensures Follow(creds, c, n) != Some(c)
    {
      if Follow(creds, c, n).Some? { FollowRaisesVersion(creds, active, c, n); }
    }
    forall c | c in creds
      ensures exists n: nat :: n <= creds[active].version - creds[c].version && EndsAt(creds, c, n)
    {
      assert Follow(creds, c, 0) == Some(c);
      var n := ChainEnds(creds, active, c, 0);
      assert EndsAt(creds, c, n);
    }
  }

  predicate SameReplacement(c: Credential, d: Credential) {
    c.state == Replaced && d.state == Replaced && c.replacementId == d.replacementId
  }

  predicate EndsAt(creds: map<Uuid, Credential>, id: Uuid, n: nat) {
    var end := Follow(creds, id, n);
    end.Some? && end.value in creds && creds[end.value].state != Replaced
  }

  /** Distinct positive versions bounded by the Active row's version leave room for at most that
      many rows. */
  lemma HistorySize(creds: map<Uuid, Credential>, active: Uuid)
    requires AcceptedHistory(creds, active)
    ensures |creds| <= creds[active].version
  {
    DistinctVersionsBound(creds, creds.Keys, creds[active].version);
    assert |creds| == |creds.Keys|;
  }

  lemma {:induction false} DistinctVersionsBound(creds: map<Uuid, Credential>, ids: set<Uuid>, bound: int)
    requires ids <= creds.Keys && bound >= 0
    requires VersionsConsistent(creds)
    requires forall c :: c in ids ==> creds[c].version <= bound
    ensures |ids| <= bound
    decreases bound
  {
    if ids == {} {
    } else if top :| top in ids && creds[top].version == bound {
      DistinctVersionsBound(creds, ids - {top}, bound - 1);
    } else {
      var c :| c in ids;
      assert 0 < creds[c].version < bound;
      DistinctVersionsBound(creds, ids, bound - 1);
    }
  }
}
