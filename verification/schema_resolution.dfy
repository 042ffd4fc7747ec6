/** Inlining the local references of a JSON schema. */
module SchemaResolution {
  import opened Model

  /** A JSON value whose objects keep the order of their keys, as Python dictionaries do. */
  datatype Schema = Text(text: string) | Scalar(literal: string) | List(items: seq<Schema>) | Object(fields: seq<Field>)
  datatype Field = Field(key: string, value: Schema)

  const LOCAL := "#/$defs/"

  predicate IsLocal(text: string) { LOCAL <= text }

  /** rsplit("/", 1)[-1]: what follows the last slash. */
  function LastSegment(text: string): string {
    if text == "" then ""
    else if text[|text| - 1] == '/' then ""
    else LastSegment(text[..|text| - 1]) + [text[|text| - 1]]
  }

  function Get(fields: seq<Field>, key: string): Option<Schema> {
    if fields == [] then None
    else if fields[0].key == key then Some(fields[0].value)
    else Get(fields[1..], key)
  }

  predicate IsReferenceText(value: Schema) { value.Text? && IsLocal(value.text) }

  /** The object is a local reference. */
  predicate RefersLocally(value: Schema) {
    value.Object? && Get(value.fields, "$ref").Some? && IsReferenceText(Get(value.fields, "$ref").value)
  }

  function Referred(value: Schema): string
    requires RefersLocally(value)
  {
    LastSegment(Get(value.fields, "$ref").value.text)
  }

  /** The outcome of resolving with at most a given number of nested references: a schema, a definition
      that does not exist, or more references than that. */
  datatype Outcome = Resolved(value: Schema) | MissingDefinition | TooDeep

  /** resolve, cut off after `hops` nested references.  The first failure in document order decides. */
  function Resolve(defs: map<string, Schema>, value: Schema, hops: nat): Outcome
    decreases hops, value, 0
  {
    match value
    case Object(fields) =>
      if RefersLocally(value) then
        if Referred(value) !in defs then MissingDefinition
        else if hops == 0 then TooDeep
        else Resolve(defs, defs[Referred(value)], hops - 1)
      else ResolveFields(defs, fields, hops)
    case List(items) => ResolveItems(defs, items, hops)
    case _ => Resolved(value)
  }

  function ResolveFields(defs: map<string, Schema>, fields: seq<Field>, hops: nat): (r: Outcome)
    ensures r.Resolved? ==> r.value.Object?
    decreases hops, fields, 0
  {
    if fields == [] then Resolved(Object([]))
    else
      var first := Resolve(defs, fields[0].value, hops);
      if !first.Resolved? then first
      else
        var rest := ResolveFields(defs, fields[1..], hops);
        if !rest.Resolved? then rest else Resolved(Object([Field(fields[0].key, first.value)] + rest.value.fields))
  }

  function ResolveItems(defs: map<string, Schema>, items: seq<Schema>, hops: nat): (r: Outcome)
    ensures r.Resolved? ==> r.value.List?
    decreases hops, items, 0
  {
    if items == [] then Resolved(List([]))
    else
      var first := Resolve(defs, items[0], hops);
      if !first.Resolved? then first
      else
        var rest := ResolveItems(defs, items[1..], hops);
        if !rest.Resolved? then rest else Resolved(List([first.value] + rest.value.items))
  }

  // ------------------------------------------------------------------ what the result is

  /** `result` is `value` with every local reference replaced by what its definition resolves to: lists keep
      their length and order, objects their keys and order, and everything else is as it was. */
  ghost predicate Dereferences(defs: map<string, Schema>, value: Schema, result: Schema, hops: nat)
    decreases hops, value
  {
    if RefersLocally(value) then
      hops > 0 && Referred(value) in defs && Dereferences(defs, defs[Referred(value)], result, hops - 1)
    else
      match value
      case Object(fields) =>
        && result.Object? && |result.fields| == |fields|
        && forall i :: 0 <= i < |fields| ==>
             result.fields[i].key == fields[i].key && Dereferences(defs, fields[i].value, result.fields[i].value, hops)
      case List(items) =>
        && result.List? && |result.items| == |items|
        && forall i :: 0 <= i < |items| ==> Dereferences(defs, items[i], result.items[i], hops)
      case _ => result == value
  }

  ghost predicate FieldsDereference(defs: map<string, Schema>, fields: seq<Field>, result: seq<Field>, hops: nat) {
    && |result| == |fields|
    && forall i :: 0 <= i < |fields| ==>
         result[i].key == fields[i].key && Dereferences(defs, fields[i].value, result[i].value, hops)
  }

  ghost predicate ItemsDereference(defs: map<string, Schema>, items: seq<Schema>, result: seq<Schema>, hops: nat) {
    && |result| == |items|
    && forall i :: 0 <= i < |items| ==> Dereferences(defs, items[i], result[i], hops)
  }

  /** Resolution gives exactly the dereferenced schema: one that is, and no other. */
  lemma {:induction false} ResolveExact(defs: map<string, Schema>, value: Schema, result: Schema, hops: nat)
    ensures Resolve(defs, value, hops) == Resolved(result) <==> Dereferences(defs, value, result, hops)
    decreases hops, value, 0
  {
    hide RefersLocally, Referred;
    if RefersLocally(value) {
      IsObject(value);
      if Referred(value) in defs && hops > 0 { ResolveExact(defs, defs[Referred(value)], result, hops - 1); }
    } else {
      match value {
        case Object(fields) =>
          if result.Object? { FieldsExact(defs, fields, result.fields, hops); }
        case List(items) =>
          if result.List? { ItemsExact(defs, items, result.items, hops); }
        case _ =>
      }
    }
  }

  lemma IsObject(value: Schema)
    requires RefersLocally(value)
    ensures value.Object?
  {
  }

  lemma {:induction false} FieldsExact(defs: map<string, Schema>, fields: seq<Field>, result: seq<Field>, hops: nat)
    ensures ResolveFields(defs, fields, hops) == Resolved(Object(result)) <==>
              FieldsDereference(defs, fields, result, hops)
    decreases hops, fields, 0
  {
    hide Resolve, Dereferences;
    if fields != [] && result != [] {
      ResolveExact(defs, fields[0].value, result[0].value, hops);
      FieldsExact(defs, fields[1..], result[1..], hops);
      FirstField(defs, fields, result, hops);
      assert result == [result[0]] + result[1..];
    }
  }

  lemma FirstField(defs: map<string, Schema>, fields: seq<Field>, result: seq<Field>, hops: nat)
    requires fields != [] && result != []
    ensures FieldsDereference(defs, fields, result, hops) <==>
              && result[0].key == fields[0].key && Dereferences(defs, fields[0].value, result[0].value, hops)
              && FieldsDereference(defs, fields[1..], result[1..], hops)
  {
    hide Dereferences;
    if FieldsDereference(defs, fields[1..], result[1..], hops) {
      forall i | 0 < i < |fields|
        ensures fields[i] == fields[1..][i - 1] && result[i] == result[1..][i - 1]
      {
      }
    }
  }

  lemma {:induction false} ItemsExact(defs: map<string, Schema>, items: seq<Schema>, result: seq<Schema>, hops: nat)
    ensures ResolveItems(defs, items, hops) == Resolved(List(result)) <==> ItemsDereference(defs, items, result, hops)
    decreases hops, items, 0
  {
    hide Resolve, Dereferences;
    if items != [] && result != [] {
      ResolveExact(defs, items[0], result[0], hops);
      ItemsExact(defs, items[1..], result[1..], hops);
      FirstItem(defs, items, result, hops);
      assert result == [result[0]] + result[1..];
    }
  }

  lemma FirstItem(defs: map<string, Schema>, items: seq<Schema>, result: seq<Schema>, hops: nat)
    requires items != [] && result != []
    ensures ItemsDereference(defs, items, result, hops) <==>
              Dereferences(defs, items[0], result[0], hops) && ItemsDereference(defs, items[1..], result[1..], hops)
  {
    hide Dereferences;
    if ItemsDereference(defs, items[1..], result[1..], hops) {
      forall i | 0 < i < |items| ensures items[i] == items[1..][i - 1] && result[i] == result[1..][i - 1] {}
    }
  }

  /** A schema without local references is its own result, whatever the definitions: so resolving a clean
      result again changes nothing. */
  lemma CleanResolvesToItself(defs: map<string, Schema>, value: Schema, hops: nat)
    requires NoLocalReference(value)
    ensures Resolve(defs, value, hops) == Resolved(value)
  {
    CleanIsDereferenced(defs, value, hops);
    ResolveExact(defs, value, value, hops);
  }

  lemma {:induction false} CleanIsDereferenced(defs: map<string, Schema>, value: Schema, hops: nat)
    requires NoLocalReference(value)
    ensures Dereferences(defs, value, value, hops)
    decreases value
  {
    hide RefersLocally, Referred;
    match value {
      case Object(fields) =>
        forall i | 0 <= i < |fields| ensures Dereferences(defs, fields[i].value, fields[i].value, hops) {
          CleanIsDereferenced(defs, fields[i].value, hops);
        }
      case List(items) =>
        OnlyObjectsRefer(value);
        forall i | 0 <= i < |items| ensures Dereferences(defs, items[i], items[i], hops) {
          CleanIsDereferenced(defs, items[i], hops);
        }
      case _ => OnlyObjectsRefer(value);
    }
  }

  lemma OnlyObjectsRefer(value: Schema)
    requires !value.Object?
    ensures !RefersLocally(value)
  {
  }

  /** What a local reference is: an object whose "$ref" is a text that begins with "#/$defs/" and whose last
      segment is the name.  A reference to anything else, or a "$ref" that is no text, is left alone. */
  lemma ReferenceExact(fields: seq<Field>)
    ensures RefersLocally(Object(fields)) <==>
              && Get(fields, "$ref").Some? && Get(fields, "$ref").value.Text?
              && |Get(fields, "$ref").value.text| >= 8 && Get(fields, "$ref").value.text[..8] == "#/$defs/"
    ensures RefersLocally(Object(fields)) ==>
              forall name: string :: '/' !in name && Get(fields, "$ref").value.text == "#/$defs/" + name ==>
                Referred(Object(fields)) == name
  {
    if RefersLocally(Object(fields)) {
      var text := Get(fields, "$ref").value.text;
      forall name: string | '/' !in name && text == "#/$defs/" + name ensures Referred(Object(fields)) == name {
        assert "#/$defs/" + name == "#/$defs" + "/" + name;
        LastSegmentOf("#/$defs", name);
      }
    }
  }

  // ------------------------------------------------------------------ the references alone decide

  /** The names a value refers to, in document order. */
  function Names(value: Schema): seq<string> {
    match value
    case Object(fields) => if RefersLocally(value) then [Referred(value)] else NamesOfFields(fields)
    case List(items) => NamesOfItems(items)
    case _ => []
  }

  function NamesOfFields(fields: seq<Field>): seq<string> {
    if fields == [] then [] else Names(fields[0].value) + NamesOfFields(fields[1..])
  }

  function NamesOfItems(items: seq<Schema>): seq<string> {
    if items == [] then [] else Names(items[0]) + NamesOfItems(items[1..])
  }

  datatype Fate = Fine | Missing | Deep

  function FateOf(r: Outcome): Fate {
    match r
    case Resolved(_) => Fine
    case MissingDefinition => Missing
    case TooDeep => Deep
  }

  /** What becomes of following the names one after another. */
  function Follow(defs: map<string, Schema>, names: seq<string>, hops: nat): Fate
    decreases hops, |names|
  {
    if names == [] then Fine
    else
      var first :=
        if names[0] !in defs then Missing
        else if hops == 0 then Deep
        else Follow(defs, Names(defs[names[0]]), hops - 1);
      if first != Fine then first else Follow(defs, names[1..], hops)
  }

  function FollowOne(defs: map<string, Schema>, name: string, hops: nat): Fate {
    if name !in defs then Missing else if hops == 0 then Deep else Follow(defs, Names(defs[name]), hops - 1)
  }

  lemma {:induction false} FollowConcat(defs: map<string, Schema>, a: seq<string>, b: seq<string>, hops: nat)
    ensures Follow(defs, a + b, hops) ==
              if Follow(defs, a, hops) != Fine then Follow(defs, a, hops) else Follow(defs, b, hops)
    decreases |a|
  {
    if a == [] {
      assert a + b == b;
    } else {
      FollowConcat(defs, a[1..], b, hops);
      assert (a + b)[0] == a[0] && (a + b)[1..] == a[1..] + b;
    }
  }

  /** Resolving a value fares exactly as following its names. */
  lemma {:induction false} ResolveFollows(defs: map<string, Schema>, value: Schema, hops: nat)
    ensures FateOf(Resolve(defs, value, hops)) == Follow(defs, Names(value), hops)
    decreases hops, value, 0
  {
    hide RefersLocally, Referred;
    match value {
      case Object(fields) =>
        if RefersLocally(value) {
          var name := Referred(value);
          assert [name][1..] == [];
          if name in defs && hops > 0 { ResolveFollows(defs, defs[name], hops - 1); }
        } else {
          FieldsFollow(defs, fields, hops);
        }
      case List(items) => ItemsFollow(defs, items, hops);
      case _ =>
    }
  }

  lemma {:induction false} FieldsFollow(defs: map<string, Schema>, fields: seq<Field>, hops: nat)
    ensures FateOf(ResolveFields(defs, fields, hops)) == Follow(defs, NamesOfFields(fields), hops)
    decreases hops, fields, 0
  {
    if fields != [] {
      ResolveFollows(defs, fields[0].value, hops);
      FieldsFollow(defs, fields[1..], hops);
      FollowConcat(defs, Names(fields[0].value), NamesOfFields(fields[1..]), hops);
    }
  }

  lemma {:induction false} ItemsFollow(defs: map<string, Schema>, items: seq<Schema>, hops: nat)
    ensures FateOf(ResolveItems(defs, items, hops)) == Follow(defs, NamesOfItems(items), hops)
    decreases hops, items, 0
  {
    if items != [] {
      ResolveFollows(defs, items[0], hops);
      ItemsFollow(defs, items[1..], hops);
      FollowConcat(defs, Names(items[0]), NamesOfItems(items[1..]), hops);
    }
  }

  /** Allowing more nested references never changes a fate that did not run out of them. */
  lemma {:induction false} MoreHopsAgree(defs: map<string, Schema>, names: seq<string>, hops: nat, more: nat)
    requires Follow(defs, names, hops) != Deep && hops <= more
    ensures Follow(defs, names, more) == Follow(defs, names, hops)
    decreases hops, |names|
  {
    if names != [] {
      if names[0] in defs { MoreHopsAgree(defs, Names(defs[names[0]]), hops - 1, more - 1); }
      if FollowOne(defs, names[0], hops) == Fine { MoreHopsAgree(defs, names[1..], hops, more); }
    }
  }

  // ------------------------------------------------------------------ when resolution ends

  /** Some number of nested references suffices: the recursion ends, in a schema or in a KeyError. */
  ghost predicate Ends(defs: map<string, Schema>, value: Schema) {
    exists hops: nat :: Resolve(defs, value, hops) != TooDeep
  }

  /** The names resolve, each to a definition of lower rank. */
  ghost predicate AllGood(defs: map<string, Schema>, rank: map<string, nat>, good: set<string>, names: seq<string>,
                          below: nat)
    requires defs.Keys <= rank.Keys
  {
    forall i :: 0 <= i < |names| ==> names[i] in defs && names[i] in good && rank[names[i]] < below
  }

  /** The name cuts resolution short: it is not defined, or its definition of lower rank is cut short. */
  ghost predicate Cuts(defs: map<string, Schema>, rank: map<string, nat>, good: set<string>, name: string, below: nat)
    requires defs.Keys <= rank.Keys
  {
    name !in defs || (name !in good && rank[name] < below)
  }

  /** The names before the `i`th resolve, and that one cuts. */
  ghost predicate CutAt(defs: map<string, Schema>, rank: map<string, nat>, good: set<string>, names: seq<string>,
                        i: int, below: nat)
    requires defs.Keys <= rank.Keys
  {
    0 <= i < |names| && AllGood(defs, rank, good, names[..i], below) && Cuts(defs, rank, good, names[i], below)
  }

  /** The definition resolves through definitions of lower rank, or is cut short by the first name that does not. */
  ghost predicate DefinitionSettled(defs: map<string, Schema>, rank: map<string, nat>, good: set<string>, n: string)
    requires defs.Keys <= rank.Keys && n in defs
  {
    var names := Names(defs[n]);
    if n in good then AllGood(defs, rank, good, names, rank[n])
    else exists i :: CutAt(defs, rank, good, names, i, rank[n])
  }

  /** `rank` and `good` settle every definition, reading nothing but the names each one refers to. */
  ghost predicate Settled(defs: map<string, Schema>, rank: map<string, nat>, good: set<string>) {
    defs.Keys <= rank.Keys && forall n :: n in defs ==> DefinitionSettled(defs, rank, good, n)
  }

  lemma {:induction false} FollowGood(defs: map<string, Schema>, rank: map<string, nat>, good: set<string>,
                                      names: seq<string>, hops: nat)
    requires Settled(defs, rank, good) && AllGood(defs, rank, good, names, hops)
    ensures Follow(defs, names, hops) == Fine
    decreases hops, |names|
  {
    if names != [] {
      var n := names[0];
      SettledFate(defs, rank, good, n, hops - 1);
      FollowGood(defs, rank, good, names[1..], hops);
    }
  }

  /** A settled definition fares as `good` says, within its rank. */
  lemma {:induction false} SettledFate(defs: map<string, Schema>, rank: map<string, nat>, good: set<string>,
                                       n: string, hops: nat)
    requires Settled(defs, rank, good) && n in defs && rank[n] <= hops
    ensures Follow(defs, Names(defs[n]), hops) == if n in good then Fine else Missing
    decreases hops, |Names(defs[n])| + 1
  {
    var names := Names(defs[n]);
    assert DefinitionSettled(defs, rank, good, n);
    if n in good {
      FollowGood(defs, rank, good, names, hops);
    } else {
      var i :| CutAt(defs, rank, good, names, i, rank[n]);
      FollowGood(defs, rank, good, names[..i], hops);
      if names[i] in defs { SettledFate(defs, rank, good, names[i], hops - 1); }
      FollowCut(defs, names, i, hops);
    }
  }

  lemma FollowCut(defs: map<string, Schema>, names: seq<string>, i: nat, hops: nat)
    requires i < |names| && Follow(defs, names[..i], hops) == Fine && FollowOne(defs, names[i], hops) == Missing
    ensures Follow(defs, names, hops) == Missing
  {
    FollowConcat(defs, names[..i], names[i..], hops);
    assert names == names[..i] + names[i..] && names[i..][0] == names[i];
  }

  /** Following any names ends above every rank. */
  lemma {:induction false} FollowSettled(defs: map<string, Schema>, rank: map<string, nat>, good: set<string>,
                                         names: seq<string>, bound: nat)
    requires Settled(defs, rank, good) && forall n :: n in defs ==> rank[n] < bound
    ensures Follow(defs, names, bound) != Deep
    decreases |names|
  {
    if names != [] {
      if names[0] in defs { SettledFate(defs, rank, good, names[0], bound - 1); }
      FollowSettled(defs, rank, good, names[1..], bound);
    }
  }

  /** The least number of nested references that suffices. */
  ghost function Depth(defs: map<string, Schema>, names: seq<string>, hops: nat): (d: nat)
    requires Follow(defs, names, hops) != Deep
    ensures Follow(defs, names, d) != Deep
    ensures d > 0 ==> Follow(defs, names, d - 1) == Deep
  {
    if hops == 0 || Follow(defs, names, hops - 1) == Deep then hops else Depth(defs, names, hops - 1)
  }

  /** Each definition with its least depth. */
  ghost predicate Depths(defs: map<string, Schema>, depth: map<string, nat>) {
    && depth.Keys == defs.Keys
    && forall n :: n in defs ==>
         && Follow(defs, Names(defs[n]), depth[n]) != Deep
         && (depth[n] > 0 ==> Follow(defs, Names(defs[n]), depth[n] - 1) == Deep)
  }

  lemma DepthIsLeast(defs: map<string, Schema>, depth: map<string, nat>, n: string, hops: nat)
    requires Depths(defs, depth) && n in defs && Follow(defs, Names(defs[n]), hops) != Deep
    ensures depth[n] <= hops && Follow(defs, Names(defs[n]), hops) == Follow(defs, Names(defs[n]), depth[n])
  {
    if hops < depth[n] {
      MoreHopsAgree(defs, Names(defs[n]), hops, depth[n] - 1);
    } else {
      MoreHopsAgree(defs, Names(defs[n]), depth[n], hops);
    }
  }

  ghost predicate Resolves(defs: map<string, Schema>, depth: map<string, nat>, n: string)
    requires Depths(defs, depth) && n in defs
  {
    Follow(defs, Names(defs[n]), depth[n]) == Fine
  }

  /** Names that follow well are good and less deep; a name that does not is the one that cuts. */
  lemma {:induction false} FateSettles(defs: map<string, Schema>, depth: map<string, nat>, good: set<string>,
                                       names: seq<string>, hops: nat)
    requires Depths(defs, depth) && (forall n :: n in good <==> n in defs && Resolves(defs, depth, n))
    requires Follow(defs, names, hops) != Deep
    ensures Follow(defs, names, hops) == Fine ==> AllGood(defs, depth, good, names, hops)
    ensures Follow(defs, names, hops) == Missing ==>
              exists i :: CutAt(defs, depth, good, names, i, hops)
    decreases |names|
  {
    hide AllGood, Cuts;
    if names == [] {
      NoneIsGood(defs, depth, good, hops);
    } else {
      var n := names[0];
      if n in defs { DepthIsLeast(defs, depth, n, hops - 1); }
      if FollowOne(defs, n, hops) == Fine {
        FateSettles(defs, depth, good, names[1..], hops);
        if Follow(defs, names, hops) == Fine {
          OneMoreGood(defs, depth, good, names, hops);
        } else {
          var i :| CutAt(defs, depth, good, names[1..], i, hops);
          CutLater(defs, depth, good, names, i, hops);
        }
      } else {
        CutFirst(defs, depth, good, names, hops);
      }
    }
  }

  lemma NoneIsGood(defs: map<string, Schema>, rank: map<string, nat>, good: set<string>, below: nat)
    requires defs.Keys <= rank.Keys
    ensures AllGood(defs, rank, good, [], below)
  {
  }

  lemma OneMoreGood(defs: map<string, Schema>, rank: map<string, nat>, good: set<string>, names: seq<string>,
                    below: nat)
    requires defs.Keys <= rank.Keys && names != [] && AllGood(defs, rank, good, names[1..], below)
    requires names[0] in defs && names[0] in good && rank[names[0]] < below
    ensures AllGood(defs, rank, good, names, below)
  {
    forall i | 0 <= i < |names| ensures names[i] in defs && names[i] in good && rank[names[i]] < below {
      if i > 0 { assert names[i] == names[1..][i - 1]; }
    }
  }

  lemma CutLater(defs: map<string, Schema>, rank: map<string, nat>, good: set<string>, names: seq<string>, i: int,
                 below: nat)
    requires defs.Keys <= rank.Keys && names != [] && CutAt(defs, rank, good, names[1..], i, below)
    requires names[0] in defs && names[0] in good && rank[names[0]] < below
    ensures CutAt(defs, rank, good, names, i + 1, below)
  {
    assert names[..i + 1][1..] == names[1..][..i] && names[i + 1] == names[1..][i];
    OneMoreGood(defs, rank, good, names[..i + 1], below);
  }

  lemma CutFirst(defs: map<string, Schema>, rank: map<string, nat>, good: set<string>, names: seq<string>, below: nat)
    requires defs.Keys <= rank.Keys && names != [] && Cuts(defs, rank, good, names[0], below)
    ensures CutAt(defs, rank, good, names, 0, below)
  {
    NoneIsGood(defs, rank, good, below);
    assert names[..0] == [];
  }

  /** Where every definition ends, the depths settle them. */
  lemma DepthsSettle(defs: map<string, Schema>, depth: map<string, nat>) returns (good: set<string>)
    requires Depths(defs, depth)
    ensures Settled(defs, depth, good)
  {
    hide Follow, AllGood, Cuts;
    good := set n | n in defs && Resolves(defs, depth, n);
    forall n | n in defs ensures DefinitionSettled(defs, depth, good, n) {
      FateSettles(defs, depth, good, Names(defs[n]), depth[n]);
    }
  }

  lemma DepthsExist(defs: map<string, Schema>) returns (depth: map<string, nat>)
    requires forall value :: Ends(defs, value)
    ensures Depths(defs, depth)
  {
    hide Resolve, Follow, Names;
    forall n | n in defs ensures EventuallyEnds(defs, Names(defs[n])) { EndsFollows(defs, defs[n]); }
    depth := map n | n in defs :: DepthOf(defs, Names(defs[n]));
  }

  ghost predicate EventuallyEnds(defs: map<string, Schema>, names: seq<string>) {
    exists hops: nat :: Follow(defs, names, hops) != Deep
  }

  ghost function DepthOf(defs: map<string, Schema>, names: seq<string>): (d: nat)
    requires EventuallyEnds(defs, names)
    ensures Follow(defs, names, d) != Deep
    ensures d > 0 ==> Follow(defs, names, d - 1) == Deep
  {
    var hops: nat :| Follow(defs, names, hops) != Deep;
    Depth(defs, names, hops)
  }

  lemma EndsFollows(defs: map<string, Schema>, value: Schema)
    requires Ends(defs, value)
    ensures EventuallyEnds(defs, Names(value))
  {
    hide Resolve, Follow, Names;
    var hops: nat :| Resolve(defs, value, hops) != TooDeep;
    ResolveFollows(defs, value, hops);
  }

  /** A number above every rank. */
  lemma Bound(rank: map<string, nat>) returns (bound: nat)
    ensures forall n :: n in rank ==> rank[n] < bound
  {
    bound := 0;
    var todo := rank.Keys;
    while todo != {}
      invariant todo <= rank.Keys
      invariant forall n :: n in rank.Keys - todo ==> rank[n] < bound
      decreases |todo|
    {
      var n :| n in todo;
      bound := if rank[n] < bound then bound else rank[n] + 1;
      todo := todo - {n};
    }
  }

  ghost predicate Settleable(defs: map<string, Schema>) { exists rank, good :: Settled(defs, rank, good) }

  /** Resolution ends on every schema exactly when the definitions can be settled in some order: each
      either resolves through earlier ones, or is cut short by the first of its names that is undefined or
      itself cut short.  A cycle behind such a name is never entered. */
  lemma EndsIffSettleable(defs: map<string, Schema>)
    ensures (forall value :: Ends(defs, value)) <==> Settleable(defs)
  {
    hide Resolve, Follow, Names;
    if Settleable(defs) {
      var rank, good :| Settled(defs, rank, good);
      SettledEnds(defs, rank, good);
    }
    if forall value :: Ends(defs, value) {
      var depth := DepthsExist(defs);
      var good := DepthsSettle(defs, depth);
    }
  }

  lemma SettledEnds(defs: map<string, Schema>, rank: map<string, nat>, good: set<string>)
    requires Settled(defs, rank, good)
    ensures forall value :: Ends(defs, value)
  {
    hide Resolve, Follow, Names, DefinitionSettled;
    var bound := Bound(rank);
    forall value ensures Ends(defs, value) {
      FollowSettled(defs, rank, good, Names(value), bound);
      ResolveFollows(defs, value, bound);
      assert Resolve(defs, value, bound) != TooDeep;
    }
  }

  // ------------------------------------------------------------------ acyclic definitions

  /** Every definition only refers to definitions of lower rank. */
  ghost predicate Ranked(defs: map<string, Schema>, rank: map<string, nat>) {
    && defs.Keys <= rank.Keys
    && forall n, m :: n in defs && m in defs && m in Names(defs[n]) ==> rank[m] < rank[n]
  }

  ghost predicate Acyclic(defs: map<string, Schema>) { exists rank :: Ranked(defs, rank) }

  /** Every name a definition refers to is defined. */
  predicate Closed(defs: map<string, Schema>) {
    forall n :: n in defs ==> forall i :: 0 <= i < |Names(defs[n])| ==> Names(defs[n])[i] in defs
  }

  /** The definitions that resolve, when their names can be ranked: those whose names all are defined and resolve. */
  ghost predicate Completes(defs: map<string, Schema>, rank: map<string, nat>, n: string)
    requires Ranked(defs, rank) && n in defs
    decreases rank[n]
  {
    forall i :: 0 <= i < |Names(defs[n])| ==> Names(defs[n])[i] in defs && Completes(defs, rank, Names(defs[n])[i])
  }

  /** Acyclic references suffice, with or without undefined names. */
  lemma RankedSettles(defs: map<string, Schema>, rank: map<string, nat>) returns (good: set<string>)
    requires Ranked(defs, rank)
    ensures Settled(defs, rank, good)
  {
    hide Names;
    good := set n | n in defs && Completes(defs, rank, n);
    forall n | n in defs ensures DefinitionSettled(defs, rank, good, n) {
      if n !in good { FirstUnsound(defs, rank, good, n, Names(defs[n]), 0); }
    }
  }

  lemma {:induction false} FirstUnsound(defs: map<string, Schema>, rank: map<string, nat>, good: set<string>,
                                        n: string, names: seq<string>, k: nat)
    requires Ranked(defs, rank) && (forall m :: m in good <==> m in defs && Completes(defs, rank, m))
    requires n in defs && names == Names(defs[n]) && k <= |names|
    requires forall i :: 0 <= i < k ==> names[i] in good
    requires exists i :: k <= i < |names| && names[i] !in good
    ensures exists i :: CutAt(defs, rank, good, names, i, rank[n])
    decreases |names| - k
  {
    hide Names;
    if names[k] in good {
      FirstUnsound(defs, rank, good, n, names, k + 1);
    } else {
      assert CutAt(defs, rank, good, names, k, rank[n]);
    }
  }

  /** Acyclic definitions always suffice; where every name is defined they are also necessary. */
  lemma EndsIffAcyclic(defs: map<string, Schema>)
    ensures Acyclic(defs) ==> forall value :: Ends(defs, value)
    ensures Closed(defs) ==> ((forall value :: Ends(defs, value)) <==> Acyclic(defs))
  {
    hide Names, Ends, DefinitionSettled;
    EndsIffSettleable(defs);
    if Acyclic(defs) {
      var rank :| Ranked(defs, rank);
      var good := RankedSettles(defs, rank);
    }
    if Closed(defs) && Settleable(defs) {
      var rank, good :| Settled(defs, rank, good);
      ClosedIsRanked(defs, rank, good);
    }
  }

  /** With every name defined nothing cuts resolution short. */
  lemma {:induction false} ClosedIsGood(defs: map<string, Schema>, rank: map<string, nat>, good: set<string>, n: string)
    requires Closed(defs) && Settled(defs, rank, good) && n in defs
    ensures n in good
    decreases rank[n]
  {
    hide Names;
    assert DefinitionSettled(defs, rank, good, n);
    if n !in good {
      var names := Names(defs[n]);
      var i :| CutAt(defs, rank, good, names, i, rank[n]);
      ClosedIsGood(defs, rank, good, names[i]);
    }
  }

  lemma ClosedIsRanked(defs: map<string, Schema>, rank: map<string, nat>, good: set<string>)
    requires Closed(defs) && Settled(defs, rank, good)
    ensures Ranked(defs, rank)
  {
    hide Names;
    forall n, m | n in defs && m in defs && m in Names(defs[n]) ensures rank[m] < rank[n] {
      ClosedIsGood(defs, rank, good, n);
      assert DefinitionSettled(defs, rank, good, n);
    }
  }

  /** A cycle that is never entered: A refers to the undefined Z before it refers to itself, so its
      definition is cyclic, and yet resolution ends, in a KeyError, on every schema that mentions it. */
  lemma MissingNameCutsCycle(value: Schema) returns (defs: map<string, Schema>)
    ensures !Acyclic(defs) && Ends(defs, value)
  {
    hide Resolve, Names;
    var a := SelfAfterMissing();
    defs := map["A" := a];
    assert Names(defs["A"])[1] == "A";
    forall rank ensures !Ranked(defs, rank) {}
    assert Follow(defs, ["Z", "A"], 0) == Missing;
    CutFollow(defs, Names(value));
    ResolveFollows(defs, value, 1);
    assert Resolve(defs, value, 1) != TooDeep;
  }

  lemma SelfAfterMissing() returns (a: Schema)
    ensures Names(a) == ["Z", "A"]
  {
    hide Names, Get;
    var x, y := Object([Field("$ref", Text("#/$defs/" + "Z"))]), Object([Field("$ref", Text("#/$defs/" + "A"))]);
    a := Object([Field("x", x), Field("y", y)]);
    NameOfReference("Z");
    NameOfReference("A");
    NamesOfTwo(a, x, y);
  }

  lemma NameOfReference(name: string)
    requires '/' !in name
    ensures Names(Object([Field("$ref", Text("#/$defs/" + name))])) == [name]
  {
    assert "#/$defs/" + name == "#/$defs" + "/" + name;
    LastSegmentOf("#/$defs", name);
  }

  lemma NamesOfTwo(a: Schema, x: Schema, y: Schema)
    requires a == Object([Field("x", x), Field("y", y)])
    ensures Names(a) == Names(x) + Names(y)
  {
    var fields := a.fields;
    assert fields[1..] == [Field("y", y)] && fields[1..][1..] == [];
    assert Get(fields[1..][1..], "$ref") == None;
    assert Get(fields[1..], "$ref") == None;
    assert Get(fields, "$ref") == None;
    assert NamesOfFields(fields[1..]) == Names(y) + [];
  }

  lemma {:induction false} CutFollow(defs: map<string, Schema>, names: seq<string>)
    requires defs.Keys == {"A"} && Follow(defs, Names(defs["A"]), 0) == Missing
    ensures Follow(defs, names, 1) != Deep
    decreases |names|
  {
    if names != [] { CutFollow(defs, names[1..]); }
  }

  // ------------------------------------------------------------------ what is left in the result

  predicate NoLocalReference(value: Schema) {
    match value
    case Object(fields) => !RefersLocally(value) && forall i :: 0 <= i < |fields| ==> NoLocalReference(fields[i].value)
    case List(items) => forall i :: 0 <= i < |items| ==> NoLocalReference(items[i])
    case _ => true
  }

  /** No definition a reference can name is itself the text of a local reference.  Definitions that are
      objects, as in generated schemas, satisfy this. */
  predicate ProperDefinitions(defs: map<string, Schema>) {
    forall n :: n in defs && '/' !in n ==> !IsReferenceText(defs[n])
  }

  lemma {:induction false} LastSegmentHasNoSlash(text: string)
    ensures '/' !in LastSegment(text)
  {
    if text != "" { LastSegmentHasNoSlash(text[..|text| - 1]); }
  }

  lemma {:induction false} LastSegmentOf(prefix: string, name: string)
    requires '/' !in name
    ensures LastSegment(prefix + "/" + name) == name
  {
    var text := prefix + "/" + name;
    if name != "" {
      assert text[..|text| - 1] == prefix + "/" + name[..|name| - 1];
      LastSegmentOf(prefix, name[..|name| - 1]);
    }
  }

  lemma {:induction false} ResolvedIsClean(defs: map<string, Schema>, value: Schema, hops: nat)
    requires ProperDefinitions(defs) && Resolve(defs, value, hops).Resolved?
    ensures NoLocalReference(Resolve(defs, value, hops).value)
    ensures IsReferenceText(Resolve(defs, value, hops).value) ==> IsReferenceText(value)
    decreases hops, value, 0
  {
    match value {
      case Object(fields) =>
        if RefersLocally(value) {
          LastSegmentHasNoSlash(Get(fields, "$ref").value.text);
          ResolvedIsClean(defs, defs[Referred(value)], hops - 1);
        } else {
          ResolvedFieldsAreClean(defs, fields, hops);
        }
      case List(items) => ResolvedItemsAreClean(defs, items, hops);
      case _ =>
    }
  }

  /** The resolved fields are clean, and their $ref is the text of a reference only if it was. */
  lemma {:induction false} ResolvedFieldsAreClean(defs: map<string, Schema>, fields: seq<Field>, hops: nat)
    requires ProperDefinitions(defs) && ResolveFields(defs, fields, hops).Resolved?
    ensures
      var r := ResolveFields(defs, fields, hops).value.fields;
      && (forall i :: 0 <= i < |r| ==> NoLocalReference(r[i].value))
      && (Get(r, "$ref").Some? ==> Get(fields, "$ref").Some?)
      && (Get(r, "$ref").Some? && IsReferenceText(Get(r, "$ref").value) ==> IsReferenceText(Get(fields, "$ref").value))
    decreases hops, fields, 0
  {
    if fields != [] {
      ResolvedIsClean(defs, fields[0].value, hops);
      ResolvedFieldsAreClean(defs, fields[1..], hops);
      var r := ResolveFields(defs, fields, hops).value.fields;
      assert r[1..] == ResolveFields(defs, fields[1..], hops).value.fields;
      forall i | 0 <= i < |r| ensures NoLocalReference(r[i].value) {
        if i > 0 { assert r[i] == r[1..][i - 1]; }
      }
    }
  }

  lemma {:induction false} ResolvedItemsAreClean(defs: map<string, Schema>, items: seq<Schema>, hops: nat)
    requires ProperDefinitions(defs) && ResolveItems(defs, items, hops).Resolved?
    ensures NoLocalReference(ResolveItems(defs, items, hops).value)
    decreases hops, items, 0
  {
    if items != [] {
      ResolvedIsClean(defs, items[0], hops);
      ResolvedItemsAreClean(defs, items[1..], hops);
    }
  }

  /** Every schema that resolves has no local reference left exactly when the definitions are proper: a
      definition that is the text of a reference would turn {"$ref": {"$ref": ...}} into a reference. */
  lemma CleanIffProper(defs: map<string, Schema>)
    ensures ProperDefinitions(defs) <==>
              forall value, hops: nat :: Resolve(defs, value, hops).Resolved? ==>
                NoLocalReference(Resolve(defs, value, hops).value)
  {
    if ProperDefinitions(defs) {
      forall value, hops: nat | Resolve(defs, value, hops).Resolved?
        ensures NoLocalReference(Resolve(defs, value, hops).value)
      {
        ResolvedIsClean(defs, value, hops);
      }
    } else {
      var name :| name in defs && '/' !in name && IsReferenceText(defs[name]);
      ReferenceFromText(defs, name);
    }
  }

  lemma ReferenceFromText(defs: map<string, Schema>, name: string)
    requires name in defs && '/' !in name && IsReferenceText(defs[name])
    ensures
      var value := Object([Field("$ref", Object([Field("$ref", Text(LOCAL + name))]))]);
      var result := Object([Field("$ref", defs[name])]);
      Resolve(defs, value, 1) == Resolved(result) && !NoLocalReference(result)
  {
    var inner := Object([Field("$ref", Text(LOCAL + name))]);
    var value := Object([Field("$ref", inner)]);
    assert LOCAL + name == "#/$defs" + "/" + name;
    LastSegmentOf("#/$defs", name);
    assert Resolve(defs, inner, 1) == Resolve(defs, defs[name], 0) == Resolved(defs[name]);
    assert value.fields[1..] == [];
    assert [Field("$ref", defs[name])] + [] == [Field("$ref", defs[name])];
    assert ResolveFields(defs, value.fields, 1) == Resolved(Object([Field("$ref", defs[name])]));
  }
}
