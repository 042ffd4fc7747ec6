/** JSON values, and the snapshots that are safe to store with a completed command. */
module Snapshots {
  import opened Model

  datatype Json =
    | Null | Boolean(flag: bool) | Number(number: real) | Text(text: string)
    | List(items: seq<Json>) | Object(fields: map<string, Json>)

  const MAX_SAFE_SNAPSHOT_BYTES := 16 * 1024

  const FORBIDDEN_KEYS := {
    "plaintext", "credential_plaintext", "callback_credential_plaintext", "credential_hash",
    "callback_credential_hash", "secret", "secret_value", "hmac_secret", "access_token", "refresh_token",
    "api_key", "authorization", "signature", "raw_nonce", "private_key", "password"}

  /** The length in bytes of the compact UTF-8 encoding, and str.casefold, left uninterpreted. */
  datatype Encoding = Encoding(encodedSize: Json -> nat, casefold: string -> string)

  /** inspect: false when it raises. */
  predicate Inspect(e: Encoding, value: Json) {
    match value
    case Object(fields) => forall k :: k in fields ==> e.casefold(k) !in FORBIDDEN_KEYS && Inspect(e, fields[k])
    case List(items) => forall i :: 0 <= i < |items| ==> Inspect(e, items[i])
    case _ => true
  }

  /** validate_safe_snapshot: None when it raises.  Encoding and decoding again gives an equal value. */
  function ValidateSafeSnapshot(e: Encoding, snapshot: Json): Option<Json> {
    if !snapshot.Object? then None
    else if e.encodedSize(snapshot) > MAX_SAFE_SNAPSHOT_BYTES then None
    else if !Inspect(e, snapshot) then None
    else Some(snapshot)
  }

  // ------------------------------------------------------------------ what an accepted snapshot is

  datatype Step = Key(name: string) | Index(position: nat)

  /** The value at the end of a path. */
  function At(value: Json, path: seq<Step>): Option<Json> {
    if path == [] then Some(value)
    else
      match path[0]
      case Key(k) => if value.Object? && k in value.fields then At(value.fields[k], path[1..]) else None
      case Index(i) => if value.List? && i < |value.items| then At(value.items[i], path[1..]) else None
  }

  const PLAINTEXT_KEYS := {"plaintext", "credential_plaintext", "callback_credential_plaintext"}
  const DIGEST_KEYS := {"credential_hash", "callback_credential_hash", "signature", "raw_nonce"}
  const SECRET_KEYS := {"secret", "secret_value", "hmac_secret", "private_key", "password"}
  const BEARER_KEYS := {"access_token", "refresh_token", "api_key", "authorization"}

  /** What must not be stored: plaintexts, digests and nonces, secrets, and bearer tokens. */
  predicate Sensitive(key: string) {
    key in PLAINTEXT_KEYS || key in DIGEST_KEYS || key in SECRET_KEYS || key in BEARER_KEYS
  }

  lemma ForbiddenIsSensitive(key: string)
    ensures key in FORBIDDEN_KEYS <==> Sensitive(key)
  {
  }

  /** A sensitive key, in any letter case, of the object at the end of the path. */
  predicate ForbiddenAt(e: Encoding, value: Json, path: seq<Step>, key: string) {
    var node := At(value, path);
    node.Some? && node.value.Object? && key in node.value.fields && Sensitive(e.casefold(key))
  }

  lemma {:induction false} InspectedAt(e: Encoding, value: Json, path: seq<Step>, key: string)
    requires Inspect(e, value)
    ensures !ForbiddenAt(e, value, path, key)
    decreases value
  {
    ForbiddenIsSensitive(e.casefold(key));
    hide Sensitive;
    if path != [] {
      match path[0] {
        case Key(k) => if value.Object? && k in value.fields { InspectedAt(e, value.fields[k], path[1..], key); }
        case Index(i) => if value.List? && i < |value.items| { InspectedAt(e, value.items[i], path[1..], key); }
      }
    }
  }

  lemma {:induction false} RefusedAt(e: Encoding, value: Json) returns (path: seq<Step>, key: string)
    requires !Inspect(e, value)
    ensures ForbiddenAt(e, value, path, key)
    decreases value
  {
    hide Sensitive;
    if value.Object? {
      key :| key in value.fields && (e.casefold(key) in FORBIDDEN_KEYS || !Inspect(e, value.fields[key]));
      ForbiddenIsSensitive(e.casefold(key));
      if e.casefold(key) in FORBIDDEN_KEYS {
        path := [];
      } else {
        var k := key;
        path, key := RefusedAt(e, value.fields[k]);
        path := [Key(k)] + path;
        assert At(value, path) == At(value.fields[k], path[1..]);
      }
    } else {
      var i :| 0 <= i < |value.items| && !Inspect(e, value.items[i]);
      path, key := RefusedAt(e, value.items[i]);
      path := [Index(i)] + path;
      assert At(value, path) == At(value.items[i], path[1..]);
    }
  }

  /** A snapshot is accepted exactly when it is an object of at most 16384 bytes with no sensitive key
      at any depth; what is accepted comes back unchanged and is accepted again. */
  lemma SafeSnapshotExact(e: Encoding, snapshot: Json)
    ensures ValidateSafeSnapshot(e, snapshot).Some? <==>
              && snapshot.Object? && e.encodedSize(snapshot) <= 16384
              && forall path, key :: !ForbiddenAt(e, snapshot, path, key)
    ensures ValidateSafeSnapshot(e, snapshot).Some? ==>
              ValidateSafeSnapshot(e, ValidateSafeSnapshot(e, snapshot).value) == Some(snapshot)
  {
    hide Sensitive, At;
    if Inspect(e, snapshot) {
      forall path, key ensures !ForbiddenAt(e, snapshot, path, key) { InspectedAt(e, snapshot, path, key); }
    } else {
      var path, key := RefusedAt(e, snapshot);
    }
  }

  // ------------------------------------------------------------------ the snapshots the commands store

  /** How identifiers, times and error codes are written, and the aggregate whose version an error names. */
  datatype Format = Format(uuid: Uuid -> string, time: Time -> string, code: ErrorCode -> string,
                           message: ErrorCode -> string,
                           versionName: string)

  function Versions(f: Format, current: Option<int>): map<string, Json> {
    if current.Some? then map[f.versionName := Number(current.value as real)] else map[]
  }

  function StartResult(f: Format, s: Snapshot): map<string, Json>
    requires s.StartAiSnapshot?
  {
    map["service_request_id" := Text(f.uuid(s.requestId)), "logical_operation_id" := Text(f.uuid(s.operationId)),
        "integration_attempt_id" := Text(f.uuid(s.attemptId)), "attempt_number" := Number(1.0),
        "attempt_state" := Text("Pending"),
        "callback_credential_id" := Text(f.uuid(s.credentialId)),
        "callback_credential_version" := Number(s.credentialVersion as real),
        "callback_credential_expires_at" := Text(f.time(s.credentialExpiresAt))]
  }

  function JsonOf(f: Format, s: Snapshot): Json {
    match s
    case ErrorSnapshot(code, current) =>
      Object(map["error" := Object(map[
        "schema_version" := Text("1.0"), "code" := Text(f.code(code)), "message" := Text(f.message(code)),
        "retryable" := Boolean(false), "current_versions" := Object(Versions(f, current)), "details" := List([])])])
    case StartAiSnapshot(_, _, _, _, _, _, requestVersion) =>
      Object(map[
        "result" := Object(StartResult(f, s)),
        "versions" := Object(map[
          "service_request" := Number(requestVersion as real), "logical_operation" := Number(1.0),
          "integration_attempt" := Number(1.0)])])
    case AttemptStartSnapshot(requestId, operationId, attemptId, number, startedAt, adapterName, adapterVersion,
                              version) =>
      Object(map[
        "result" := Object(map[
          "service_request_id" := Text(f.uuid(requestId)), "logical_operation_id" := Text(f.uuid(operationId)),
          "integration_attempt_id" := Text(f.uuid(attemptId)), "attempt_number" := Number(number as real),
          "operation_kind" := Text("AIInterpretation"), "attempt_state" := Text("Running"),
          "started_at" := Text(f.time(startedAt)),
          "adapter_name" := Text(adapterName), "adapter_version" := Text(adapterVersion)]),
        "versions" := Object(map["integration_attempt" := Number(version as real)])])
  }

  /** The keys the commands write. */
  const SNAPSHOT_KEYS := {
    "error", "schema_version", "code", "message", "retryable", "current_versions", "details", "result", "versions",
    "service_request_id", "logical_operation_id", "integration_attempt_id", "attempt_number", "attempt_state",
    "callback_credential_id", "callback_credential_version", "callback_credential_expires_at", "service_request",
    "logical_operation", "integration_attempt", "operation_kind", "started_at", "adapter_name", "adapter_version"}

  /** No snapshot either command stores is refused for its keys, so completing a reservation fails on
      no snapshot within the size bound. */
  lemma CommandSnapshotsAreSafe(e: Encoding, f: Format, s: Snapshot)
    requires forall k :: k in SNAPSHOT_KEYS ==> e.casefold(k) == k
    requires f.versionName in {"service_request", "integration_attempt"}
    requires e.encodedSize(JsonOf(f, s)) <= MAX_SAFE_SNAPSHOT_BYTES
    ensures ValidateSafeSnapshot(e, JsonOf(f, s)) == Some(JsonOf(f, s))
  {
    hide Inspect, JsonOf;
    match s {
      case ErrorSnapshot(code, current) => ErrorIsSafe(e, f, code, current);
      case StartAiSnapshot(_, _, _, _, _, _, _) => StartIsSafe(e, f, s);
      case AttemptStartSnapshot(_, _, _, _, _, _, _, _) => ClaimIsSafe(e, f, s);
    }
  }

  lemma ErrorIsSafe(e: Encoding, f: Format, code: ErrorCode, current: Option<int>)
    requires forall k :: k in SNAPSHOT_KEYS ==> e.casefold(k) == k
    requires f.versionName in {"service_request", "integration_attempt"}
    ensures Inspect(e, JsonOf(f, ErrorSnapshot(code, current))) && JsonOf(f, ErrorSnapshot(code, current)).Object?
  {
    hide Inspect;
    var whole := JsonOf(f, ErrorSnapshot(code, current)).fields;
    var error := whole["error"].fields;
    LeafObject(e, Versions(f, current));
    forall k | k in error && k != "current_versions" ensures Inspect(e, error[k]) { LeafValue(e, error[k]); }
    SafeObject(e, error);
    SafeObject(e, whole);
  }

  lemma StartResultIsSafe(e: Encoding, f: Format, s: Snapshot)
    requires s.StartAiSnapshot? && forall k :: k in SNAPSHOT_KEYS ==> e.casefold(k) == k
    ensures Inspect(e, Object(StartResult(f, s)))
  {
    hide Inspect;
    LeafObject(e, StartResult(f, s));
  }

  lemma StartIsSafe(e: Encoding, f: Format, s: Snapshot)
    requires s.StartAiSnapshot? && forall k :: k in SNAPSHOT_KEYS ==> e.casefold(k) == k
    ensures Inspect(e, JsonOf(f, s)) && JsonOf(f, s).Object?
  {
    hide Inspect, StartResult;
    var whole := JsonOf(f, s).fields;
    StartResultIsSafe(e, f, s);
    LeafObject(e, whole["versions"].fields);
    SafeObject(e, whole);
  }

  lemma ClaimIsSafe(e: Encoding, f: Format, s: Snapshot)
    requires s.AttemptStartSnapshot? && forall k :: k in SNAPSHOT_KEYS ==> e.casefold(k) == k
    ensures Inspect(e, JsonOf(f, s)) && JsonOf(f, s).Object?
  {
    hide Inspect;
    var whole := JsonOf(f, s).fields;
    LeafObject(e, whole["result"].fields);
    LeafObject(e, whole["versions"].fields);
    SafeObject(e, whole);
  }

  lemma LeafValue(e: Encoding, value: Json)
    requires !value.Object? && (value.List? ==> value.items == [])
    ensures Inspect(e, value)
  {
  }

  lemma SafeObject(e: Encoding, fields: map<string, Json>)
    requires fields.Keys <= SNAPSHOT_KEYS && forall k :: k in SNAPSHOT_KEYS ==> e.casefold(k) == k
    requires forall k :: k in fields ==> Inspect(e, fields[k])
    ensures Inspect(e, Object(fields))
  {
    KeysApart();
  }

  lemma LeafObject(e: Encoding, fields: map<string, Json>)
    requires fields.Keys <= SNAPSHOT_KEYS && forall k :: k in SNAPSHOT_KEYS ==> e.casefold(k) == k
    requires forall k :: k in fields ==> !fields[k].Object? && !fields[k].List?
    ensures Inspect(e, Object(fields))
  {
    forall k | k in fields ensures Inspect(e, fields[k]) { LeafValue(e, fields[k]); }
    SafeObject(e, fields);
  }

  lemma KeysApart()
    ensures SNAPSHOT_KEYS !! FORBIDDEN_KEYS
  {
  }
}
