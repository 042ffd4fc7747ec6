/** Canonical form of a signed request: its path, its query and the bytes that are signed. */
module Canonicalization {
  import opened Model
  import opened Utf8

  const AMPERSAND: Byte := 0x26
  const EQUALS: Byte := 0x3D
  const PERCENT: Byte := 0x25
  const PLUS: Byte := 0x2B
  const QUESTION: Byte := 0x3F
  const NEWLINE: Byte := 0x0A

  // ------------------------------------------------------------------ percent escapes

  predicate IsDigit(b: Byte) { 0x30 <= b <= 0x39 }
  predicate IsUpperHex(b: Byte) { IsDigit(b) || 0x41 <= b <= 0x46 }
  predicate IsHex(b: Byte) { IsUpperHex(b) || 0x61 <= b <= 0x66 }

  function HexValue(b: Byte): (v: nat)
    requires IsHex(b)
    ensures v < 16
  {
    if IsDigit(b) then b - 0x30 else if b <= 0x46 then b - 0x41 + 10 else b - 0x61 + 10
  }

  function HexDigit(v: nat): (b: Byte)
    requires v < 16
    ensures IsUpperHex(b) && HexValue(b) == v
  {
    if v < 10 then 0x30 + v else 0x41 + v - 10
  }

  predicate IsEscape(s: seq<Byte>) { |s| == 3 && s[0] == PERCENT && IsHex(s[1]) && IsHex(s[2]) }

  /** One literal byte or one percent escape. */
  datatype Token = Literal(byte: Byte) | Escape(value: Byte)

  /** The tokens of a byte string; None when a percent sign starts no escape. */
  function Tokens(s: seq<Byte>): Option<seq<Token>> {
    if s == [] then Some([])
    else if s[0] == PERCENT then
      if |s| < 3 || !IsEscape(s[..3]) then None
      else
        match Tokens(s[3..])
        case None => None
        case Some(rest) => Some([Escape(HexValue(s[1]) * 16 + HexValue(s[2]))] + rest)
    else
      match Tokens(s[1..])
      case None => None
      case Some(rest) => Some([Literal(s[0])] + rest)
  }

  function Text(t: Token): seq<Byte> {
    match t
    case Literal(b) => [b]
    case Escape(v) => [PERCENT, HexDigit(v / 16), HexDigit(v % 16)]
  }

  function Texts(ts: seq<Token>): seq<Byte> {
    if ts == [] then [] else Text(ts[0]) + Texts(ts[1..])
  }

  predicate NoLiteralPercent(ts: seq<Token>) {
    forall i :: 0 <= i < |ts| ==> ts[i] != Literal(PERCENT)
  }

  lemma {:induction false} TokensOfTexts(ts: seq<Token>)
    requires NoLiteralPercent(ts)
    ensures Tokens(Texts(ts)) == Some(ts)
  {
    if ts != [] {
      TokensOfTexts(ts[1..]);
      var t := Text(ts[0]);
      assert Texts(ts)[|t|..] == Texts(ts[1..]);
      assert Texts(ts)[..|t|] == t;
      assert [ts[0]] + ts[1..] == ts;
      if ts[0].Escape? { assert Texts(ts)[1] == t[1] && Texts(ts)[2] == t[2]; }
    }
  }

  lemma {:induction false} TokensHaveNoPercent(s: seq<Byte>)
    requires Tokens(s).Some?
    ensures NoLiteralPercent(Tokens(s).value)
  {
    if s != [] {
      TokensHaveNoPercent(if s[0] == PERCENT then s[3..] else s[1..]);
    }
  }

  /** _reject_malformed_percent: every percent sign starts an escape. */
  method RejectMalformedPercent(value: seq<Byte>) returns (ok: bool)
    ensures ok == Tokens(value).Some?
  {
    var index := 0;
    while index < |value|
      invariant 0 <= index <= |value|
      invariant Tokens(value).Some? <==> Tokens(value[index..]).Some?
    {
      if value[index] == PERCENT {
        if index + 3 > |value| || !IsEscape(value[index..index + 3]) { return false; }
        assert value[index..][..3] == value[index..index + 3] && value[index..][3..] == value[index + 3..];
        index := index + 3;
      } else {
        assert value[index..][1..] == value[index + 1..];
        index := index + 1;
      }
    }
    ok := true;
  }

  // ------------------------------------------------------------------ the path

  function Upper(b: Byte): Byte { if 0x61 <= b <= 0x7A then b - 0x20 else b }

  /** re.sub of every escape by its upper-case form, left to right. */
  function UpperEscapes(s: seq<Byte>): seq<Byte> {
    if s == [] then []
    else if |s| >= 3 && IsEscape(s[..3]) then [s[0], Upper(s[1]), Upper(s[2])] + UpperEscapes(s[3..])
    else [s[0]] + UpperEscapes(s[1..])
  }

  predicate Ascii(s: seq<Byte>) { forall i :: 0 <= i < |s| ==> s[i] < 0x80 }

  /** canonical_path: None when it raises. */
  function CanonicalPath(raw: seq<Byte>): Option<seq<Byte>> {
    if Tokens(raw).None? || !Ascii(raw) then None else Some(UpperEscapes(raw))
  }

  lemma {:induction false} UpperEscapesIsTexts(s: seq<Byte>)
    requires Tokens(s).Some?
    ensures UpperEscapes(s) == Texts(Tokens(s).value)
  {
    if s == [] {
    } else if s[0] == PERCENT {
      UpperEscapesIsTexts(s[3..]);
      var v := HexValue(s[1]) * 16 + HexValue(s[2]);
      assert HexDigit(v / 16) == Upper(s[1]) && HexDigit(v % 16) == Upper(s[2]);
      assert Tokens(s).value[1..] == Tokens(s[3..]).value;
    } else {
      UpperEscapesIsTexts(s[1..]);
      assert Tokens(s).value[1..] == Tokens(s[1..]).value;
    }
  }

  /** Two accepted paths have the same canonical form exactly when they have the same tokens, that is,
      when they differ only in the case of hexadecimal digits; an escape is never confused with the
      byte it encodes.  The canonical form writes each token out, escapes in upper case; it is accepted and is its
      own canonical form. */
  lemma CanonicalPathExact(a: seq<Byte>, b: seq<Byte>)
    requires CanonicalPath(a).Some? && CanonicalPath(b).Some?
    ensures CanonicalPath(a) == CanonicalPath(b) <==> Tokens(a) == Tokens(b)
    ensures CanonicalPath(a).value == Texts(Tokens(a).value)
    ensures CanonicalPath(CanonicalPath(a).value) == CanonicalPath(a)
  {
    UpperEscapesIsTexts(a);
    UpperEscapesIsTexts(b);
    TokensHaveNoPercent(a);
    TokensHaveNoPercent(b);
    TokensOfTexts(Tokens(a).value);
    TokensOfTexts(Tokens(b).value);
    UpperEscapesIsTexts(UpperEscapes(a));
    UpperKeepsAscii(a);
  }

  lemma {:induction false} UpperKeepsAscii(s: seq<Byte>)
    requires Ascii(s)
    ensures Ascii(UpperEscapes(s))
  {
    if s == [] {
    } else if |s| >= 3 && IsEscape(s[..3]) {
      UpperKeepsAscii(s[3..]);
    } else {
      UpperKeepsAscii(s[1..]);
    }
  }

  // ------------------------------------------------------------------ one query component

  /** The byte a token of a query stands for: a literal plus is a space. */
  function ValueOf(t: Token): Byte {
    match t
    case Literal(b) => if b == PLUS then 0x20 else b
    case Escape(v) => v
  }

  function Values(ts: seq<Token>): seq<Byte> {
    if ts == [] then [] else [ValueOf(ts[0])] + Values(ts[1..])
  }

  /** _decode_query_component: None when it raises. */
  function DecodeComponent(s: seq<Byte>): Option<seq<Scalar>> {
    if Tokens(s).None? then None else Decode(Values(Tokens(s).value))
  }

  lemma ValuesCons(t: Token, ts: seq<Token>)
    ensures Values([t] + ts) == [ValueOf(t)] + Values(ts)
  {
  }

  /** One step of the decoding loop at a percent sign. */
  lemma DecodeEscape(s: seq<Byte>)
    requires s != [] && Tokens(s).Some? && s[0] == PERCENT
    ensures |s| >= 3 && IsHex(s[1]) && IsHex(s[2]) && Tokens(s[3..]).Some?
    ensures Values(Tokens(s).value) == [HexValue(s[1]) * 16 + HexValue(s[2])] + Values(Tokens(s[3..]).value)
  {
    hide HexValue, IsHex, Values;
    ValuesCons(Escape(HexValue(s[1]) * 16 + HexValue(s[2])), Tokens(s[3..]).value);
  }

  /** One step of the decoding loop at any other byte. */
  lemma DecodeLiteral(s: seq<Byte>)
    requires s != [] && Tokens(s).Some? && s[0] != PERCENT
    ensures Tokens(s[1..]).Some?
    ensures Values(Tokens(s).value) == [if s[0] == PLUS then 0x20 else s[0]] + Values(Tokens(s[1..]).value)
  {
    hide Values;
    ValuesCons(Literal(s[0]), Tokens(s[1..]).value);
  }

  method DecodeQueryComponent(value: seq<Byte>) returns (component: Option<seq<Scalar>>)
    ensures component == DecodeComponent(value)
  {
    hide Tokens, Values, Decode;
    var wellFormed := RejectMalformedPercent(value);
    if !wellFormed { return None; }
    var output: seq<Byte> := [];
    var index := 0;
    assert value[0..] == value;
    while index < |value|
      invariant 0 <= index <= |value|
      invariant Tokens(value[index..]).Some?
      invariant output + Values(Tokens(value[index..]).value) == Values(Tokens(value).value)
    {
      if value[index] == PERCENT {
        DecodeEscape(value[index..]);
        assert value[index..][3..] == value[index + 3..];
        output := output + [HexValue(value[index + 1]) * 16 + HexValue(value[index + 2])];
        index := index + 3;
      } else {
        DecodeLiteral(value[index..]);
        assert value[index..][1..] == value[index + 1..];
        output := output + [if value[index] == PLUS then 0x20 else value[index]];
        index := index + 1;
      }
    }
    NoValues(value[index..]);
    assert output == Values(Tokens(value).value);
    component := Decode(output);
  }

  function Prepend(t: Token, rest: Option<seq<Token>>): Option<seq<Token>> {
    if rest.None? then None else Some([t] + rest.value)
  }

  /** The first token is the same whatever follows. */
  lemma FirstToken(a: seq<Byte>, b: seq<Byte>) returns (t: Token, n: nat)
    requires a != [] && Tokens(a).Some?
    ensures 1 <= n <= |a|
    ensures Tokens(a) == Prepend(t, Tokens(a[n..])) && Tokens(a + b) == Prepend(t, Tokens(a[n..] + b))
  {
    hide HexValue, IsHex;
    if a[0] == PERCENT {
      n := 3;
      t := Escape(HexValue(a[1]) * 16 + HexValue(a[2]));
      assert (a + b)[..3] == a[..3];
    } else {
      n := 1;
      t := Literal(a[0]);
    }
    assert (a + b)[n..] == a[n..] + b;
  }

  lemma {:induction false} TokensOfConcat(a: seq<Byte>, b: seq<Byte>)
    requires Tokens(a).Some?
    ensures Tokens(a + b).Some? <==> Tokens(b).Some?
    ensures Tokens(b).Some? ==> Tokens(a + b).value == Tokens(a).value + Tokens(b).value
  {
    if a == [] {
      assert a + b == b;
      if Tokens(b).Some? { assert [] + Tokens(b).value == Tokens(b).value; }
    } else {
      hide Tokens;
      var t, n := FirstToken(a, b);
      TokensOfConcat(a[n..], b);
      if Tokens(b).Some? {
        assert [t] + (Tokens(a[n..]).value + Tokens(b).value) == [t] + Tokens(a[n..]).value + Tokens(b).value;
      }
    }
  }

  lemma {:induction false} ValuesOfConcat(ts: seq<Token>, us: seq<Token>)
    ensures Values(ts + us) == Values(ts) + Values(us)
  {
    if ts == [] {
      assert ts + us == us;
    } else {
      ValuesOfConcat(ts[1..], us);
      assert (ts + us)[1..] == ts[1..] + us;
    }
  }

  /** A plus sign anywhere in a component reads as an escaped space. */
  lemma PlusIsSpace(a: seq<Byte>, b: seq<Byte>)
    requires Tokens(a).Some? && Tokens(b).Some?
    ensures DecodeComponent(a + [PLUS] + b) == DecodeComponent(a + [PERCENT, 0x32, 0x30] + b)
  {
    hide Tokens, Values;
    var plus, space := [PLUS], [PERCENT, 0x32, 0x30];
    TokensOfPlus();
    TokensOfSpace();
    TokensOfConcat(a, plus);
    TokensOfConcat(a, space);
    TokensOfConcat(a + plus, b);
    TokensOfConcat(a + space, b);
    OneValue(Literal(PLUS));
    OneValue(Escape(0x20));
    ValuesOfConcat(Tokens(a).value, [Literal(PLUS)]);
    ValuesOfConcat(Tokens(a).value, [Escape(0x20)]);
    ValuesOfConcat(Tokens(a).value + [Literal(PLUS)], Tokens(b).value);
    ValuesOfConcat(Tokens(a).value + [Escape(0x20)], Tokens(b).value);
  }

  lemma TokensOfPlus()
    ensures Tokens([PLUS]) == Some([Literal(PLUS)])
  {
    var rest: seq<Token> := [];
    assert [PLUS][1..] == [] && [Literal(PLUS)] + rest == [Literal(PLUS)];
  }

  lemma TokensOfSpace()
    ensures Tokens([PERCENT, 0x32, 0x30]) == Some([Escape(0x20)])
  {
    var s: seq<Byte>, rest: seq<Token> := [PERCENT, 0x32, 0x30], [];
    assert s[..3] == s && s[3..] == [] && [Escape(0x20)] + rest == [Escape(0x20)];
    assert HexValue(0x32) == 2 && HexValue(0x30) == 0;
  }

  lemma OneValue(t: Token)
    ensures Values([t]) == [ValueOf(t)]
  {
  }

  lemma NoValues(s: seq<Byte>)
    requires s == []
    ensures Tokens(s).Some? && Values(Tokens(s).value) == []
  {
  }

  predicate IsUnreserved(b: Byte) {
    IsDigit(b) || 0x41 <= b <= 0x5A || 0x61 <= b <= 0x7A || b in [0x2D, 0x2E, 0x5F, 0x7E]
  }

  function QuoteToken(b: Byte): Token { if IsUnreserved(b) then Literal(b) else Escape(b) }

  function QuoteTokens(s: seq<Byte>): seq<Token> {
    if s == [] then [] else [QuoteToken(s[0])] + QuoteTokens(s[1..])
  }

  /** urllib.parse.quote with safe characters "-._~" */
  function Quote(s: seq<Scalar>): seq<Byte> { Texts(QuoteTokens(Encode(s))) }

  predicate Clean(s: seq<Byte>) { forall i :: 0 <= i < |s| ==> IsUnreserved(s[i]) || s[i] == PERCENT }

  const HEX_DIGITS := "0123456789ABCDEF"

  /** The unreserved characters of RFC 3986 section 2.3. */
  predicate Unreserved(c: char) {
    'A' <= c <= 'Z' || 'a' <= c <= 'z' || '0' <= c <= '9' || c == '-' || c == '.' || c == '_' || c == '~'
  }

  lemma UnreservedExact(b: Byte)
    ensures IsUnreserved(b) <==> Unreserved(b as char)
  {
  }

  lemma HexExact(v: nat)
    requires v < 16
    ensures HexDigit(v) as char == HEX_DIGITS[v]
  {
  }

  /** Upper-casing turns each letter into its upper-case letter and leaves every other byte. */
  lemma UpperExact(b: Byte)
    ensures 'a' <= b as char <= 'z' ==> 'A' <= Upper(b) as char <= 'Z' && Upper(b) - 'A' as int == b - 'a' as int
    ensures !('a' <= b as char <= 'z') ==> Upper(b) == b
  {
  }

  /** How one byte is quoted: an unreserved character stands for itself, every other byte becomes a percent
      sign and its two upper-case hexadecimal digits. */
  function QuotedByte(b: Byte): string {
    if Unreserved(b as char) then [b as char]
    else ['%', HEX_DIGITS[b / 16], HEX_DIGITS[b % 16]]
  }

  function QuotedBytes(s: seq<Byte>): string {
    if s == [] then "" else QuotedByte(s[0]) + QuotedBytes(s[1..])
  }

  function Characters(s: seq<Byte>): string { seq(|s|, i requires 0 <= i < |s| => s[i] as char) }

  lemma QuotedOne(b: Byte)
    ensures Characters(Text(QuoteToken(b))) == QuotedByte(b)
  {
    UnreservedExact(b);
    HexExact(b / 16);
    HexExact(b % 16);
  }

  lemma CharactersConcat(a: seq<Byte>, b: seq<Byte>)
    ensures Characters(a + b) == Characters(a) + Characters(b)
  {
  }

  lemma {:induction false} QuotedExact(s: seq<Byte>)
    ensures Characters(Texts(QuoteTokens(s))) == QuotedBytes(s)
  {
    hide Text, QuotedByte, IsUnreserved, Characters;
    if s == [] {
      NoCharacters();
    } else {
      QuotedExact(s[1..]);
      QuotedOne(s[0]);
      CharactersConcat(Text(QuoteToken(s[0])), Texts(QuoteTokens(s[1..])));
      assert QuoteTokens(s)[0] == QuoteToken(s[0]) && QuoteTokens(s)[1..] == QuoteTokens(s[1..]);
    }
  }

  lemma NoCharacters()
    ensures Characters([]) == ""
  {
  }

  /** The quoted form is that of RFC 3986 over the UTF-8 bytes of the string. */
  lemma QuoteExact(s: seq<Scalar>)
    ensures Characters(Quote(s)) == QuotedBytes(Encode(s))
  {
    QuotedExact(Encode(s));
  }

  lemma {:induction false} QuoteTokensFit(s: seq<Byte>)
    ensures NoLiteralPercent(QuoteTokens(s)) && Values(QuoteTokens(s)) == s && Clean(Texts(QuoteTokens(s)))
  {
    if s != [] {
      QuoteTokensFit(s[1..]);
      assert QuoteTokens(s)[1..] == QuoteTokens(s[1..]);
      assert s == [s[0]] + s[1..];
    }
  }

  /** Decoding undoes quoting for every string, and the quoted form holds only unreserved bytes and
      well-formed escapes: no separator, no plus, no stray percent sign. */
  lemma DecodeOfQuote(s: seq<Scalar>)
    ensures DecodeComponent(Quote(s)) == Some(s)
    ensures Clean(Quote(s)) && Tokens(Quote(s)).Some?
  {
    QuoteTokensFit(Encode(s));
    TokensOfTexts(QuoteTokens(Encode(s)));
    DecodeEncoded(s);
  }
}
