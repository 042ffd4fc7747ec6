/** The bytes a signed request signs. */
module Signing {
  import opened Model
  import opened Utf8
  import opened LexicographicSort
  import opened Canonicalization
  import opened CanonicalQueries

  /** The lower-case hexadecimal form of a SHA-256 digest. */
  type HexDigest = d: seq<Byte> | |d| == 64 && forall i :: 0 <= i < |d| ==> IsHex(d[i]) witness seq(64, _ => 0x30)

  datatype Request = Request(verb: seq<Byte>, path: seq<Byte>, query: seq<Byte>, timestamp: seq<Byte>, nonce: seq<Byte>,
                             body: seq<Byte>)

  predicate Printable(s: seq<Byte>) { forall i :: 0 <= i < |s| ==> 0x21 <= s[i] <= 0x7E }

  /** extract_request_target accepts the raw path. */
  predicate AcceptedPath(path: seq<Byte>) {
    && path != [] && path[0] == 0x2F && Printable(path)
    && Without(path, QUESTION) && Without(path, 0x23)
    && CanonicalPath(path).Some?
  }

  /** canonical_path_and_query: None when it raises. */
  function CanonicalTarget(path: seq<Byte>, query: seq<Byte>): Option<seq<Byte>> {
    if CanonicalPath(path).None? || CanonicalQuery(query).None? then None
    else
      var p, q := CanonicalPath(path).value, CanonicalQuery(query).value;
      Some(if q != [] then p + [QUESTION] + q else p)
  }

  function UpperCase(s: seq<Byte>): (r: seq<Byte>)
    ensures |r| == |s| && forall i :: 0 <= i < |s| ==> r[i] == Upper(s[i])
  {
    if s == [] then [] else [Upper(s[0])] + UpperCase(s[1..])
  }

  function Lines(a: seq<Byte>, b: seq<Byte>): seq<Byte> { a + [NEWLINE] + b }

  /** canonical_signing_bytes: None when it raises. */
  function SigningBytes(sha256: seq<Byte> -> HexDigest, r: Request): Option<seq<Byte>> {
    match CanonicalTarget(r.path, r.query)
    case None => None
    case Some(target) =>
      Some(Lines(Lines(Lines(Lines(UpperCase(r.verb), target), r.timestamp), r.nonce), sha256(r.body)))
  }

  /** What the authenticator has checked before it signs: the path, the digits of the timestamp and the
      16 to 128 printable characters of the nonce.  Nothing is known of the method. */
  predicate Signable(r: Request) {
    && AcceptedPath(r.path) && CanonicalQuery(r.query).Some?
    && r.timestamp != [] && (forall i :: 0 <= i < |r.timestamp| ==> IsDigit(r.timestamp[i]))
    && 16 <= |r.nonce| <= 128 && Printable(r.nonce)
  }

  // ------------------------------------------------------------------ where the bytes can be cut

  lemma LastLine(a: seq<Byte>, b: seq<Byte>, c: seq<Byte>, d: seq<Byte>)
    requires Without(b, NEWLINE) && Without(d, NEWLINE) && Lines(a, b) == Lines(c, d)
    ensures a == c && b == d
  {
    var s := Lines(a, b);
    assert s[|a|] == NEWLINE && s[|c|] == NEWLINE;
    forall k | |a| < k < |s| ensures s[k] != NEWLINE { assert s[k] == b[k - |a| - 1]; }
    forall k | |c| < k < |s| ensures s[k] != NEWLINE { assert s[k] == d[k - |c| - 1]; }
    assert a == s[..|a|] && c == s[..|c|];
    assert b == s[|a| + 1..] && d == s[|c| + 1..];
  }

  lemma FirstQuestion(a: seq<Byte>, b: seq<Byte>, c: seq<Byte>, d: seq<Byte>)
    requires Without(a, QUESTION) && Without(c, QUESTION) && a + [QUESTION] + b == c + [QUESTION] + d
    ensures a == c && b == d
  {
    var s := a + [QUESTION] + b;
    assert s[|a|] == QUESTION && s[|c|] == QUESTION;
    forall k | 0 <= k < |a| ensures s[k] != QUESTION { assert s[k] == a[k]; }
    forall k | 0 <= k < |c| ensures s[k] != QUESTION { assert s[k] == c[k]; }
    assert a == s[..|a|] && c == s[..|c|];
    assert b == s[|a| + 1..] && d == s[|c| + 1..];
  }

  lemma HasQuestion(a: seq<Byte>, b: seq<Byte>)
    ensures !Without(a + [QUESTION] + b, QUESTION)
  {
    assert (a + [QUESTION] + b)[|a|] == QUESTION;
  }

  lemma {:induction false} UpperPath(s: seq<Byte>)
    requires Printable(s) && Without(s, QUESTION)
    ensures Printable(UpperEscapes(s)) && Without(UpperEscapes(s), QUESTION)
  {
    if s == [] {
    } else if |s| >= 3 && IsEscape(s[..3]) {
      UpperPath(s[3..]);
    } else {
      UpperPath(s[1..]);
    }
  }

  lemma {:induction false} JoinPrintable(fields: seq<seq<Byte>>)
    requires forall i :: 0 <= i < |fields| ==> Printable(fields[i])
    ensures Printable(Join(fields, AMPERSAND))
  {
    if |fields| > 1 { JoinPrintable(fields[1..]); }
  }

  lemma {:induction false} FieldsPrintable(ps: seq<Pair>)
    ensures forall i :: 0 <= i < |ps| ==> Printable(Fields(ps)[i])
  {
    hide Quote, DecodeComponent, Tokens;
    if ps != [] {
      FieldsPrintable(ps[1..]);
      DecodeOfQuote(ps[0].key);
      DecodeOfQuote(ps[0].value);
      assert Printable(Field(ps[0]));
      forall i | 0 < i < |ps| ensures Printable(Fields(ps)[i]) { assert Fields(ps)[i] == Fields(ps[1..])[i - 1]; }
    }
  }

  lemma QueryPrintable(raw: seq<Byte>)
    requires CanonicalQuery(raw).Some?
    ensures Printable(CanonicalQuery(raw).value)
  {
    hide Fields, ParseQuery, Sort;
    var ps := Sort(ParseQuery(raw).value);
    FieldsPrintable(ps);
    JoinPrintable(Fields(ps));
  }

  /** Equal targets come from equal canonical paths and equal canonical queries: no accepted path
      holds a question mark. */
  lemma TargetInjective(p: seq<Byte>, q: seq<Byte>, r: seq<Byte>, s: seq<Byte>)
    requires AcceptedPath(p) && AcceptedPath(r) && CanonicalQuery(q).Some? && CanonicalQuery(s).Some?
    requires CanonicalTarget(p, q) == CanonicalTarget(r, s)
    ensures CanonicalPath(p) == CanonicalPath(r) && CanonicalQuery(q) == CanonicalQuery(s)
  {
    hide CanonicalQuery, UpperEscapes;
    UpperPath(p);
    UpperPath(r);
    var a, b, c, d := CanonicalPath(p).value, CanonicalQuery(q).value, CanonicalPath(r).value, CanonicalQuery(s).value;
    HasQuestion(a, b);
    HasQuestion(c, d);
    if b != [] && d != [] { FirstQuestion(a, b, c, d); }
  }

  lemma TargetPrintable(p: seq<Byte>, q: seq<Byte>)
    requires AcceptedPath(p) && CanonicalQuery(q).Some?
    ensures CanonicalTarget(p, q).Some? && Printable(CanonicalTarget(p, q).value)
  {
    hide CanonicalQuery, UpperEscapes;
    UpperPath(p);
    QueryPrintable(q);
  }

  /** Two accepted requests sign the same bytes exactly when they agree on the upper-case method, the
      canonical path, the multiset of decoded query pairs, the timestamp, the nonce and the body
      digest: no field can hold the separator that would let one pass for another. */
  lemma SigningInjective(sha256: seq<Byte> -> HexDigest, a: Request, b: Request)
    requires Signable(a) && Signable(b)
    ensures SigningBytes(sha256, a).Some?
    ensures SigningBytes(sha256, a) == SigningBytes(sha256, b) <==>
              && UpperCase(a.verb) == UpperCase(b.verb)
              && CanonicalPath(a.path) == CanonicalPath(b.path)
              && multiset(ParseQuery(a.query).value) == multiset(ParseQuery(b.query).value)
              && a.timestamp == b.timestamp && a.nonce == b.nonce && sha256(a.body) == sha256(b.body)
  {
    hide CanonicalQuery, ParseQuery, CanonicalPath, CanonicalTarget, AcceptedPath, UpperCase, Lines;
    TargetPrintable(a.path, a.query);
    TargetPrintable(b.path, b.query);
    CanonicalQueryParses(a.query);
    CanonicalQueryParses(b.query);
    CanonicalQueryExact(a.query, b.query);
    if SigningBytes(sha256, a) == SigningBytes(sha256, b) {
      var s, t := CanonicalTarget(a.path, a.query).value, CanonicalTarget(b.path, b.query).value;
      var m, n := Lines(UpperCase(a.verb), s), Lines(UpperCase(b.verb), t);
      LastLine(Lines(Lines(m, a.timestamp), a.nonce), sha256(a.body), Lines(Lines(n, b.timestamp), b.nonce),
               sha256(b.body));
      LastLine(Lines(m, a.timestamp), a.nonce, Lines(n, b.timestamp), b.nonce);
      LastLine(m, a.timestamp, n, b.timestamp);
      LastLine(UpperCase(a.verb), s, UpperCase(b.verb), t);
      TargetInjective(a.path, a.query, b.path, b.query);
    } else {
      SameTarget(a, b);
    }
  }

  /** The signed text has five lines: the upper-case method, the target, the timestamp, the nonce and the body
      digest, in this order.  The target is the canonical path, followed by a question mark and the
      canonical query exactly when the request has a query. */
  lemma SigningLines(sha256: seq<Byte> -> HexDigest, r: Request)
    requires Signable(r) && Without(r.verb, NEWLINE)
    ensures
      var path, query := CanonicalPath(r.path).value, CanonicalQuery(r.query).value;
      var target := if r.query == [] then path else path + [QUESTION] + query;
      && SigningBytes(sha256, r).Some?
      && Split(SigningBytes(sha256, r).value, NEWLINE) ==
          [UpperCase(r.verb), target, r.timestamp, r.nonce, sha256(r.body)]
  {
    hide CanonicalQuery, CanonicalPath, AcceptedPath, Split;
    TargetPrintable(r.path, r.query);
    EmptyQueries(r.query);
    UpperLine(r.verb);
    var target := CanonicalTarget(r.path, r.query).value;
    var digest := sha256(r.body);
    var lines := [UpperCase(r.verb), target, r.timestamp, r.nonce, digest];
    FiveLines(lines[0], lines[1], lines[2], lines[3], lines[4]);
    SplitOfJoin(lines, NEWLINE);
  }

  lemma UpperLine(verb: seq<Byte>)
    requires Without(verb, NEWLINE)
    ensures Without(UpperCase(verb), NEWLINE)
  {
  }

  lemma FiveLines(a: seq<Byte>, b: seq<Byte>, c: seq<Byte>, d: seq<Byte>, e: seq<Byte>)
    ensures Lines(Lines(Lines(Lines(a, b), c), d), e) == Join([a, b, c, d, e], NEWLINE)
  {
    assert [a, b, c, d, e][1..] == [b, c, d, e] && [b, c, d, e][1..] == [c, d, e];
    assert [c, d, e][1..] == [d, e] && [d, e][1..] == [e];
    assert Join([d, e], NEWLINE) == d + [NEWLINE] + e;
    assert Join([c, d, e], NEWLINE) == c + [NEWLINE] + (d + [NEWLINE] + e);
  }

  lemma CanonicalQueryParses(raw: seq<Byte>)
    ensures CanonicalQuery(raw).Some? <==> ParseQuery(raw).Some?
  {
  }

  lemma SameTarget(a: Request, b: Request)
    ensures CanonicalPath(a.path) == CanonicalPath(b.path) && CanonicalQuery(a.query) == CanonicalQuery(b.query) ==>
              CanonicalTarget(a.path, a.query) == CanonicalTarget(b.path, b.query)
  {
  }
}
