/** The order of Python tuples of strings, and sorting by it. */
module LexicographicSort {
  import opened Utf8

  datatype Pair = Pair(key: seq<Scalar>, value: seq<Scalar>)

  predicate LexLeq(a: seq<Scalar>, b: seq<Scalar>) {
    a == [] || (b != [] && (a[0] < b[0] || (a[0] == b[0] && LexLeq(a[1..], b[1..]))))
  }

  lemma {:induction false} LexTotal(a: seq<Scalar>, b: seq<Scalar>)
    ensures LexLeq(a, b) || LexLeq(b, a)
    ensures LexLeq(a, b) && LexLeq(b, a) ==> a == b
  {
    if a != [] && b != [] {
      LexTotal(a[1..], b[1..]);
      assert a == [a[0]] + a[1..] && b == [b[0]] + b[1..];
    }
  }

  lemma {:induction false} LexTransitive(a: seq<Scalar>, b: seq<Scalar>, c: seq<Scalar>)
    requires LexLeq(a, b) && LexLeq(b, c)
    ensures LexLeq(a, c)
  {
    if a != [] && a[0] == b[0] == c[0] { LexTransitive(a[1..], b[1..], c[1..]); }
  }

  predicate DiffersAt(a: seq<Scalar>, b: seq<Scalar>, i: int) {
    0 <= i < |a| && i < |b| && a[i] != b[i] && forall k :: 0 <= k < i ==> a[k] == b[k]
  }

  /** Alphabetical order by code point: a proper prefix comes first, and otherwise the string with the smaller
      code point at the first place where they differ. */
  ghost predicate Precedes(a: seq<Scalar>, b: seq<Scalar>) {
    a < b || exists i :: DiffersAt(a, b, i) && a[i] < b[i]
  }

  /** The recursive comparison is the order by the first difference. */
  lemma {:induction false} LexExact(a: seq<Scalar>, b: seq<Scalar>)
    ensures LexLeq(a, b) <==> a == b || Precedes(a, b)
  {
    if a != [] && b != [] {
      assert a == [a[0]] + a[1..] && b == [b[0]] + b[1..];
      if a[0] == b[0] {
        LexExact(a[1..], b[1..]);
        DifferenceShifts(a, b);
      } else {
        assert DiffersAt(a, b, 0);
      }
    }
  }

  lemma DifferenceShifts(a: seq<Scalar>, b: seq<Scalar>)
    requires a != [] && b != [] && a[0] == b[0]
    ensures Precedes(a, b) <==> Precedes(a[1..], b[1..])
  {
    assert a == [a[0]] + a[1..] && b == [b[0]] + b[1..];
    if i :| DiffersAt(a, b, i) && a[i] < b[i] {
      assert DiffersAt(a[1..], b[1..], i - 1);
    }
    if i :| DiffersAt(a[1..], b[1..], i) && a[1..][i] < b[1..][i] {
      assert DiffersAt(a, b, i + 1);
    }
  }

  predicate PairLeq(p: Pair, q: Pair) {
    if p.key == q.key then LexLeq(p.value, q.value) else LexLeq(p.key, q.key)
  }

  lemma PairTotal(p: Pair, q: Pair)
    ensures PairLeq(p, q) || PairLeq(q, p)
    ensures PairLeq(p, q) && PairLeq(q, p) ==> p == q
  {
    LexTotal(p.key, q.key);
    LexTotal(p.value, q.value);
  }

  lemma PairTransitive(p: Pair, q: Pair, r: Pair)
    requires PairLeq(p, q) && PairLeq(q, r)
    ensures PairLeq(p, r)
  {
    if p.key == q.key == r.key { LexTransitive(p.value, q.value, r.value); }
    else if p.key != q.key && q.key != r.key {
      LexTransitive(p.key, q.key, r.key);
      LexTotal(p.key, q.key);
    }
  }

  ghost predicate Sorted(ps: seq<Pair>) {
    forall i, j :: 0 <= i < j < |ps| ==> PairLeq(ps[i], ps[j])
  }

  function Insert(p: Pair, ps: seq<Pair>): seq<Pair> {
    if ps == [] || PairLeq(p, ps[0]) then [p] + ps else [ps[0]] + Insert(p, ps[1..])
  }

  function Sort(ps: seq<Pair>): seq<Pair> {
    if ps == [] then [] else Insert(ps[0], Sort(ps[1..]))
  }

  lemma {:induction false} InsertSorted(p: Pair, ps: seq<Pair>)
    requires Sorted(ps)
    ensures Sorted(Insert(p, ps)) && multiset(Insert(p, ps)) == multiset(ps) + multiset{p}
  {
    if ps == [] {
    } else if PairLeq(p, ps[0]) {
      forall i | 0 <= i < |ps| ensures PairLeq(p, ps[i]) {
        if i > 0 { PairTransitive(p, ps[0], ps[i]); }
      }
    } else {
      var rest := Insert(p, ps[1..]);
      InsertSorted(p, ps[1..]);
      PairTotal(p, ps[0]);
      assert ps == [ps[0]] + ps[1..];
      forall i | 0 <= i < |rest| ensures PairLeq(ps[0], rest[i]) {
        assert rest[i] in multiset(rest);
        assert rest[i] == p || rest[i] in ps[1..];
      }
    }
  }

  lemma {:induction false} SortSorts(ps: seq<Pair>)
    ensures Sorted(Sort(ps)) && multiset(Sort(ps)) == multiset(ps)
  {
    if ps != [] {
      SortSorts(ps[1..]);
      InsertSorted(ps[0], Sort(ps[1..]));
      assert ps == [ps[0]] + ps[1..];
    }
  }

  lemma SameFirst(ps: seq<Pair>, qs: seq<Pair>)
    requires Sorted(ps) && Sorted(qs) && multiset(ps) == multiset(qs) && ps != [] && qs != []
    ensures ps[0] == qs[0]
  {
    hide PairLeq;
    assert ps[0] in multiset(qs) && qs[0] in multiset(ps);
    var i :| 0 <= i < |qs| && qs[i] == ps[0];
    var j :| 0 <= j < |ps| && ps[j] == qs[0];
    PairTotal(ps[0], qs[0]);
  }

  lemma {:induction false} SortedUnique(ps: seq<Pair>, qs: seq<Pair>)
    requires Sorted(ps) && Sorted(qs) && multiset(ps) == multiset(qs)
    ensures ps == qs
  {
    hide PairLeq;
    SameLength(ps, qs);
    if ps != [] {
      SameFirst(ps, qs);
      DropFirst(ps);
      DropFirst(qs);
      SortedUnique(ps[1..], qs[1..]);
      assert ps == [ps[0]] + ps[1..] && qs == [qs[0]] + qs[1..];
    }
  }

  lemma SameLength(ps: seq<Pair>, qs: seq<Pair>)
    requires multiset(ps) == multiset(qs)
    ensures |ps| == |qs|
  {
    assert |ps| == |multiset(ps)| == |multiset(qs)| == |qs|;
  }

  lemma DropFirst(ps: seq<Pair>)
    requires ps != []
    ensures multiset(ps[1..]) == multiset(ps) - multiset{ps[0]}
    ensures Sorted(ps) ==> Sorted(ps[1..])
  {
    hide PairLeq;
    assert ps == [ps[0]] + ps[1..];
    if Sorted(ps) {
      forall i, j | 0 <= i < j < |ps[1..]| ensures PairLeq(ps[1..][i], ps[1..][j]) {
        assert PairLeq(ps[i + 1], ps[j + 1]);
      }
    }
  }

  /** By key, and among equal keys by value. */
  ghost predicate PairPrecedes(p: Pair, q: Pair) {
    Precedes(p.key, q.key) || (p.key == q.key && (p.value == q.value || Precedes(p.value, q.value)))
  }

  lemma PairExact(p: Pair, q: Pair)
    ensures PairLeq(p, q) <==> PairPrecedes(p, q)
  {
    hide Precedes;
    LexExact(p.key, q.key);
    LexExact(p.value, q.value);
    LexExact(p.key, p.key);
    NotBeforeItself(p.key);
  }

  lemma NotBeforeItself(a: seq<Scalar>)
    ensures !Precedes(a, a)
  {
  }

  /** Sorting keeps the pairs and puts them in ascending order of key, then of value. */
  lemma SortAscends(ps: seq<Pair>)
    ensures multiset(Sort(ps)) == multiset(ps)
    ensures forall i, j :: 0 <= i < j < |Sort(ps)| ==> PairPrecedes(Sort(ps)[i], Sort(ps)[j])
  {
    hide PairLeq, PairPrecedes;
    SortSorts(ps);
    forall i, j | 0 <= i < j < |Sort(ps)| ensures PairPrecedes(Sort(ps)[i], Sort(ps)[j]) {
      PairExact(Sort(ps)[i], Sort(ps)[j]);
    }
  }

  // ------------------------------------------------------------------ the order of the encodings

  lemma {:induction false} LexUnderPrefix(p: seq<Scalar>, a: seq<Scalar>, b: seq<Scalar>)
    ensures LexLeq(p + a, p + b) <==> LexLeq(a, b)
  {
    if p == [] {
      assert p + a == a && p + b == b;
    } else {
      LexUnderPrefix(p[1..], a, b);
      assert (p + a)[1..] == p[1..] + a && (p + b)[1..] == p[1..] + b;
    }
  }

  /** A smaller scalar has the smaller encoding, decided at a byte both have. */
  lemma EncodingAscends(c: Scalar, d: Scalar) returns (i: nat)
    requires c < d
    ensures i < |EncodeScalar(c)| && i < |EncodeScalar(d)|
    ensures EncodeScalar(c)[..i] == EncodeScalar(d)[..i] && EncodeScalar(c)[i] < EncodeScalar(d)[i]
  {
    if |EncodeScalar(c)| != |EncodeScalar(d)| || c / 64 / 64 / 64 != d / 64 / 64 / 64 { i := 0; }
    else if |EncodeScalar(c)| == 1 { i := 0; }
    else if c / 64 / 64 != d / 64 / 64 { i := if |EncodeScalar(c)| == 4 then 1 else 0; }
    else if c / 64 != d / 64 { i := |EncodeScalar(c)| - 2; }
    else { i := |EncodeScalar(c)| - 1; }
  }

  /** Order by code point is order by the bytes of the encoding (RFC 3629 section 1). */
  lemma {:induction false} EncodingKeepsOrder(a: seq<Scalar>, b: seq<Scalar>)
    ensures LexLeq(a, b) <==> LexLeq(Encode(a), Encode(b))
  {
    hide EncodeScalar;
    if a != [] && b != [] {
      if a[0] == b[0] {
        EncodingKeepsOrder(a[1..], b[1..]);
        LexUnderPrefix(EncodeScalar(a[0]), Encode(a[1..]), Encode(b[1..]));
      } else if a[0] < b[0] {
        EarlierEncoding(a, b);
      } else {
        EarlierEncoding(b, a);
      }
    }
  }

  lemma EarlierEncoding(a: seq<Scalar>, b: seq<Scalar>)
    requires a != [] && b != [] && a[0] < b[0]
    ensures LexLeq(Encode(a), Encode(b)) && !LexLeq(Encode(b), Encode(a))
  {
    hide EncodeScalar, LexLeq;
    var i := EncodingAscends(a[0], b[0]);
    var x, y := Encode(a), Encode(b);
    forall k | 0 <= k < i ensures x[k] == y[k] {
      assert EncodeScalar(a[0])[k] == EncodeScalar(a[0])[..i][k] && EncodeScalar(b[0])[k] == EncodeScalar(b[0])[..i][k];
    }
    assert DiffersAt(x, y, i);
    LexExact(x, y);
    LexTotal(x, y);
  }

  /** Two lists sort alike exactly when they hold the same pairs equally often. */
  lemma SortIffSameElements(ps: seq<Pair>, qs: seq<Pair>)
    ensures Sort(ps) == Sort(qs) <==> multiset(ps) == multiset(qs)
  {
    SortSorts(ps);
    SortSorts(qs);
    if multiset(ps) == multiset(qs) { SortedUnique(Sort(ps), Sort(qs)); }
  }
}
