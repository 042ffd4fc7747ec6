/** The canonical query: fields decoded, sorted and quoted again. */
module CanonicalQueries {
  import opened Model
  import opened Utf8
  import opened LexicographicSort
  import opened Canonicalization

  // ------------------------------------------------------------------ fields

  predicate Without(s: seq<Byte>, b: Byte) { forall i :: 0 <= i < |s| ==> s[i] != b }

  /** bytes.split: the pieces between separators, at least one. */
  function Split(s: seq<Byte>, separator: Byte): (r: seq<seq<Byte>>)
    ensures |r| >= 1
  {
    if s == [] then [[]]
    else if s[0] == separator then [[]] + Split(s[1..], separator)
    else
      var rest := Split(s[1..], separator);
      [[s[0]] + rest[0]] + rest[1..]
  }

  /** bytes.join with a one-byte separator. */
  function Join(fields: seq<seq<Byte>>, separator: Byte): seq<Byte> {
    if fields == [] then []
    else if |fields| == 1 then fields[0]
    else fields[0] + [separator] + Join(fields[1..], separator)
  }

  /** bytes.partition on the equals sign, without the separator. */
  function Partition(field: seq<Byte>): (seq<Byte>, seq<Byte>) {
    if field == [] then ([], [])
    else if field[0] == EQUALS then ([], field[1..])
    else
      var (key, value) := Partition(field[1..]);
      ([field[0]] + key, value)
  }

  lemma {:induction false} SplitFirst(field: seq<Byte>, rest: seq<Byte>, separator: Byte)
    requires Without(field, separator)
    ensures Split(field, separator) == [field]
    ensures Split(field + [separator] + rest, separator) == [field] + Split(rest, separator)
  {
    var all := field + [separator] + rest;
    if field == [] {
      assert all[1..] == rest;
    } else {
      SplitFirst(field[1..], rest, separator);
      assert all[1..] == field[1..] + [separator] + rest;
      assert [field[0]] + field[1..] == field;
    }
  }

  lemma {:induction false} SplitOfJoin(fields: seq<seq<Byte>>, separator: Byte)
    requires fields != [] && forall i :: 0 <= i < |fields| ==> Without(fields[i], separator)
    ensures Split(Join(fields, separator), separator) == fields
  {
    if |fields| == 1 {
      SplitFirst(fields[0], [], separator);
    } else {
      SplitFirst(fields[0], Join(fields[1..], separator), separator);
      SplitOfJoin(fields[1..], separator);
      assert [fields[0]] + fields[1..] == fields;
    }
  }

  lemma {:induction false} PartitionAt(key: seq<Byte>, value: seq<Byte>)
    requires Without(key, EQUALS)
    ensures Partition(key + [EQUALS] + value) == (key, value)
  {
    var field := key + [EQUALS] + value;
    if key == [] {
      assert field[1..] == value;
    } else {
      PartitionAt(key[1..], value);
      assert field[1..] == key[1..] + [EQUALS] + value;
      assert [key[0]] + key[1..] == key;
    }
  }

  /** A field without an equals sign is a key with the empty value. */
  lemma {:induction false} PartitionWithout(key: seq<Byte>)
    requires Without(key, EQUALS)
    ensures Partition(key) == (key, [])
  {
    if key != [] {
      PartitionWithout(key[1..]);
      assert [key[0]] + key[1..] == key;
    }
  }

  // ------------------------------------------------------------------ parsing

  function ParseField(field: seq<Byte>): Option<Pair> {
    var (key, value) := Partition(field);
    if DecodeComponent(key).None? || DecodeComponent(value).None? then None
    else Some(Pair(DecodeComponent(key).value, DecodeComponent(value).value))
  }

  /** Every field, or None when one is malformed. */
  function ParseFields(fields: seq<seq<Byte>>): (r: Option<seq<Pair>>)
    ensures r.Some? ==> |r.value| == |fields|
  {
    if fields == [] then Some([])
    else if ParseField(fields[0]).None? || ParseFields(fields[1..]).None? then None
    else Some([ParseField(fields[0]).value] + ParseFields(fields[1..]).value)
  }

  /** The decoded pairs of a raw query: none of the empty query, one or more of any other. */
  function ParseQuery(raw: seq<Byte>): Option<seq<Pair>> {
    if raw == [] then Some([]) else ParseFields(Split(raw, AMPERSAND))
  }

  // ------------------------------------------------------------------ rendering

  function Field(p: Pair): seq<Byte> { Quote(p.key) + [EQUALS] + Quote(p.value) }

  function Fields(ps: seq<Pair>): (r: seq<seq<Byte>>)
    ensures |r| == |ps|
  {
    if ps == [] then [] else [Field(ps[0])] + Fields(ps[1..])
  }

  function Render(ps: seq<Pair>): seq<Byte> { Join(Fields(ps), AMPERSAND) }

  lemma FieldRoundTrip(p: Pair)
    ensures ParseField(Field(p)) == Some(p)
    ensures Without(Field(p), AMPERSAND)
  {
    hide Quote, DecodeComponent, Partition, Tokens;
    DecodeOfQuote(p.key);
    DecodeOfQuote(p.value);
    PartitionAt(Quote(p.key), Quote(p.value));
  }

  lemma {:induction false} FieldsRoundTrip(ps: seq<Pair>)
    ensures ParseFields(Fields(ps)) == Some(ps)
    ensures forall i :: 0 <= i < |ps| ==> Without(Fields(ps)[i], AMPERSAND)
  {
    hide Field, ParseField, Without;
    if ps != [] {
      FieldRoundTrip(ps[0]);
      FieldsRoundTrip(ps[1..]);
      assert Fields(ps)[1..] == Fields(ps[1..]);
      assert [ps[0]] + ps[1..] == ps;
    }
  }

  /** Parsing undoes rendering, for every list of pairs including the empty one. */
  lemma ParseOfRender(ps: seq<Pair>)
    ensures ParseQuery(Render(ps)) == Some(ps)
  {
    hide Field, ParseField, Without, Split;
    if ps != [] {
      FieldsRoundTrip(ps);
      SplitOfJoin(Fields(ps), AMPERSAND);
      FieldNotEmpty(ps);
    }
  }

  lemma FieldNotEmpty(ps: seq<Pair>)
    requires ps != []
    ensures Render(ps) != []
  {
    assert |Field(ps[0])| >= 1;
  }

  // ------------------------------------------------------------------ the canonical query

  /** canonical_query: None when it raises. */
  function CanonicalQuery(raw: seq<Byte>): Option<seq<Byte>> {
    match ParseQuery(raw)
    case None => None
    case Some(ps) => Some(Render(Sort(ps)))
  }

  /** The loops of canonical_query over the fields and over the sorted pairs. */
  method ComputeCanonicalQuery(raw: seq<Byte>) returns (query: Option<seq<Byte>>)
    ensures query == CanonicalQuery(raw)
  {
    hide ParseField, Field, Split;
    if raw == [] { return Some([]); }
    var fields := Split(raw, AMPERSAND);
    var pairs: seq<Pair> := [];
    assert fields[0..] == fields;
    AppendedNothing(ParseFields(fields));
    for i := 0 to |fields|
      invariant ParseFields(fields) == Appended(pairs, ParseFields(fields[i..]))
    {
      var (rawKey, rawValue) := Partition(fields[i]);
      var key := DecodeQueryComponent(rawKey);
      if key.None? { FieldFails(fields, i); return None; }
      var value := DecodeQueryComponent(rawValue);
      if value.None? { FieldFails(fields, i); return None; }
      FieldParses(fields[i], key.value, value.value);
      AppendNext(pairs, fields, i);
      pairs := pairs + [Pair(key.value, value.value)];
    }
    assert fields[|fields|..] == [] && pairs + [] == pairs;
    pairs := Sort(pairs);
    var text := RenderPairs(pairs);
    query := Some(text);
  }

  function Appended(pairs: seq<Pair>, rest: Option<seq<Pair>>): Option<seq<Pair>> {
    if rest.None? then None else Some(pairs + rest.value)
  }

  lemma AppendNext(pairs: seq<Pair>, fields: seq<seq<Byte>>, i: nat)
    requires i < |fields| && ParseField(fields[i]).Some?
    ensures Appended(pairs, ParseFields(fields[i..])) ==
              Appended(pairs + [ParseField(fields[i]).value], ParseFields(fields[i + 1..]))
  {
    hide ParseField;
    assert fields[i..][0] == fields[i] && fields[i..][1..] == fields[i + 1..];
    var p, rest := ParseField(fields[i]).value, ParseFields(fields[i + 1..]);
    if rest.Some? { assert pairs + ([p] + rest.value) == pairs + [p] + rest.value; }
  }

  lemma AppendedNothing(rest: Option<seq<Pair>>)
    ensures Appended([], rest) == rest
  {
    if rest.Some? { assert [] + rest.value == rest.value; }
  }

  lemma FieldParses(field: seq<Byte>, key: seq<Scalar>, value: seq<Scalar>)
    requires DecodeComponent(Partition(field).0) == Some(key) && DecodeComponent(Partition(field).1) == Some(value)
    ensures ParseField(field) == Some(Pair(key, value))
  {
  }

  lemma FieldFails(fields: seq<seq<Byte>>, i: nat)
    requires i < |fields|
    requires DecodeComponent(Partition(fields[i]).0).None? || DecodeComponent(Partition(fields[i]).1).None?
    ensures ParseFields(fields[i..]).None?
  {
    assert fields[i..][0] == fields[i];
  }

  method RenderPairs(pairs: seq<Pair>) returns (text: seq<Byte>)
    ensures text == Render(pairs)
  {
    var done: seq<seq<Byte>> := [];
    for i := 0 to |pairs|
      invariant done + Fields(pairs[i..]) == Fields(pairs)
    {
      assert pairs[i..][1..] == pairs[i + 1..];
      done := done + [Field(pairs[i])];
    }
    assert done == Fields(pairs);
    text := Join(done, AMPERSAND);
  }

  /** Two accepted queries have the same canonical form exactly when they decode to the same pairs
      equally often: the form ignores the order of the fields and the choice of escapes, and nothing
      else. */
  lemma CanonicalQueryExact(a: seq<Byte>, b: seq<Byte>)
    requires CanonicalQuery(a).Some? && CanonicalQuery(b).Some?
    ensures CanonicalQuery(a) == CanonicalQuery(b) <==> multiset(ParseQuery(a).value) == multiset(ParseQuery(b).value)
  {
    hide ParseQuery, Render, Sort;
    ParseOfRender(Sort(ParseQuery(a).value));
    ParseOfRender(Sort(ParseQuery(b).value));
    SortIffSameElements(ParseQuery(a).value, ParseQuery(b).value);
  }

  /** The canonical form lists the decoded pairs of the query in ascending code-point order of key, then of
      value, each as its quoted key, an equals sign and its quoted value, even where the value is empty. */
  lemma CanonicalQueryShape(raw: seq<Byte>)
    requires CanonicalQuery(raw).Some? && raw != []
    ensures
      var fields := Split(CanonicalQuery(raw).value, AMPERSAND);
      var ps := Sort(ParseQuery(raw).value);
      && |fields| == |ps| && multiset(ps) == multiset(ParseQuery(raw).value)
      && (forall i :: 0 <= i < |ps| ==> fields[i] == Quote(ps[i].key) + [EQUALS] + Quote(ps[i].value))
      && (forall i, j :: 0 <= i < j < |ps| ==> PairPrecedes(ps[i], ps[j]))
  {
    hide Quote, PairPrecedes, Split, Sort, ParseFields;
    var ps := Sort(ParseQuery(raw).value);
    SortAscends(ParseQuery(raw).value);
    SameLength(ps, ParseQuery(raw).value);
    SplitOfFields(ps);
  }

  lemma SplitOfFields(ps: seq<Pair>)
    requires ps != []
    ensures
      var fields := Split(Render(ps), AMPERSAND);
      |fields| == |ps| && forall i :: 0 <= i < |ps| ==> fields[i] == Quote(ps[i].key) + [EQUALS] + Quote(ps[i].value)
  {
    hide Quote, Split, ParseField;
    FieldsRoundTrip(ps);
    SplitOfJoin(Fields(ps), AMPERSAND);
    forall i | 0 <= i < |ps| ensures Fields(ps)[i] == Quote(ps[i].key) + [EQUALS] + Quote(ps[i].value) {
      FieldsAt(ps, i);
    }
  }

  lemma {:induction false} FieldsAt(ps: seq<Pair>, i: nat)
    requires i < |ps|
    ensures Fields(ps)[i] == Quote(ps[i].key) + [EQUALS] + Quote(ps[i].value)
  {
    hide Quote;
    if i > 0 { FieldsAt(ps[1..], i - 1); }
  }

  /** A canonical query is accepted and is its own canonical form. */
  lemma CanonicalQueryIdempotent(raw: seq<Byte>)
    requires CanonicalQuery(raw).Some?
    ensures CanonicalQuery(CanonicalQuery(raw).value) == CanonicalQuery(raw)
  {
    hide ParseQuery, Render, Sort;
    var ps := ParseQuery(raw).value;
    ParseOfRender(Sort(ps));
    SortSorts(ps);
    SortIffSameElements(Sort(ps), ps);
  }

  /** The canonical query of no field is empty; that of any field, even an empty one, is not. */
  lemma EmptyQueries(raw: seq<Byte>)
    requires CanonicalQuery(raw).Some?
    ensures CanonicalQuery(raw) == Some([]) <==> raw == []
  {
    if raw != [] {
      var ps := ParseQuery(raw).value;
      SortSorts(ps);
      assert |Sort(ps)| == |multiset(Sort(ps))| == |multiset(ps)| == |ps|;
      FieldNotEmpty(Sort(ps));
    }
  }

  /** A key that stands alone reads as the key with an empty value. */
  lemma BareKey(key: seq<Byte>)
    requires Without(key, EQUALS) && Without(key, AMPERSAND)
    ensures key != [] ==> ParseQuery(key) == ParseQuery(key + [EQUALS])
  {
    hide DecodeComponent, Partition;
    var marked := key + [EQUALS];
    PartitionWithout(key);
    PartitionAt(key, []);
    assert key + [EQUALS] + [] == marked;
    SplitFirst(key, [], AMPERSAND);
    SplitFirst(marked, [], AMPERSAND);
  }

  // ------------------------------------------------------------------ the order of the fields

  /** The parsed pairs as a multiset, None when a field is malformed. */
  ghost function ParsedBag(fields: seq<seq<Byte>>): Option<multiset<Pair>> {
    if ParseFields(fields).None? then None else Some(multiset(ParseFields(fields).value))
  }

  ghost function Add(p: Option<Pair>, bag: Option<multiset<Pair>>): Option<multiset<Pair>> {
    if p.None? || bag.None? then None else Some(multiset{p.value} + bag.value)
  }

  lemma BagOfFirst(fields: seq<seq<Byte>>)
    requires fields != []
    ensures ParsedBag(fields) == Add(ParseField(fields[0]), ParsedBag(fields[1..]))
  {
    hide ParseField;
  }

  lemma {:induction false} BagWithout(fields: seq<seq<Byte>>, i: nat)
    requires i < |fields|
    ensures ParsedBag(fields) == Add(ParseField(fields[i]), ParsedBag(fields[..i] + fields[i + 1..]))
  {
    hide ParseField, ParsedBag;
    BagOfFirst(fields);
    var rest := fields[..i] + fields[i + 1..];
    if i == 0 {
      assert rest == fields[1..];
    } else {
      BagWithout(fields[1..], i - 1);
      BagOfFirst(rest);
      assert rest[1..] == fields[1..][..i - 1] + fields[1..][i..];
      AddCommutes(ParseField(fields[0]), ParseField(fields[i]), ParsedBag(rest[1..]));
    }
  }

  lemma AddCommutes(p: Option<Pair>, q: Option<Pair>, bag: Option<multiset<Pair>>)
    ensures Add(p, Add(q, bag)) == Add(q, Add(p, bag))
  {
    if p.Some? && q.Some? && bag.Some? {
      assert multiset{p.value} + (multiset{q.value} + bag.value) == multiset{q.value} + (multiset{p.value} + bag.value);
    }
  }

  lemma DropOne(fields: seq<seq<Byte>>, others: seq<seq<Byte>>, i: nat)
    requires fields != [] && i < |others| && others[i] == fields[0] && multiset(fields) == multiset(others)
    ensures multiset(fields[1..]) == multiset(others[..i] + others[i + 1..])
  {
    assert fields == [fields[0]] + fields[1..] && others == others[..i] + [others[i]] + others[i + 1..];
    assert multiset(fields[1..]) == multiset(fields) - multiset{fields[0]};
    assert multiset(others[..i] + others[i + 1..]) == multiset(others) - multiset{others[i]};
  }

  lemma {:induction false} BagOfPermutation(fields: seq<seq<Byte>>, others: seq<seq<Byte>>)
    requires multiset(fields) == multiset(others)
    ensures ParsedBag(fields) == ParsedBag(others)
  {
    hide ParseField, ParsedBag;
    if fields == [] {
      assert |others| == |multiset(others)| == 0;
    } else {
      assert fields[0] in multiset(others);
      var i :| 0 <= i < |others| && others[i] == fields[0];
      var rest := others[..i] + others[i + 1..];
      DropOne(fields, others, i);
      BagOfFirst(fields);
      BagWithout(others, i);
      BagOfPermutation(fields[1..], rest);
    }
  }

  /** Reordering the fields of a query never changes whether it is accepted, nor its canonical form. */
  lemma FieldOrderIrrelevant(a: seq<Byte>, b: seq<Byte>)
    requires multiset(Split(a, AMPERSAND)) == multiset(Split(b, AMPERSAND))
    ensures CanonicalQuery(a) == CanonicalQuery(b)
  {
    hide ParseField, Sort, Render;
    BagOfPermutation(Split(a, AMPERSAND), Split(b, AMPERSAND));
    OnlyEmptySplitsToEmpty(a);
    OnlyEmptySplitsToEmpty(b);
    if a != [] && b != [] && ParseQuery(a).Some? {
      SortIffSameElements(ParseQuery(a).value, ParseQuery(b).value);
    }
  }

  lemma OnlyEmptySplitsToEmpty(s: seq<Byte>)
    ensures multiset(Split(s, AMPERSAND)) == multiset{[]} <==> s == []
  {
    hide Split;
    var fields := Split(s, AMPERSAND);
    if multiset(fields) == multiset{[]} {
      assert |fields| == |multiset(fields)| == 1;
      assert fields[0] in multiset(fields);
      JoinOfSplit(s);
    }
    JoinOfSplit([]);
  }

  lemma {:induction false} JoinOfSplit(s: seq<Byte>)
    ensures Join(Split(s, AMPERSAND), AMPERSAND) == s
    ensures s == [] ==> Split(s, AMPERSAND) == [[]]
  {
    if s != [] {
      JoinOfSplit(s[1..]);
      var rest := Split(s[1..], AMPERSAND);
      assert [s[0]] + s[1..] == s;
      if s[0] == AMPERSAND {
        assert ([[]] + rest)[1..] == rest;
      } else {
        assert ([[s[0]] + rest[0]] + rest[1..])[1..] == rest[1..];
      }
    }
  }
}
