/**
 On an incoming boundary the comparison is exact: with no breaking change and
 no fallback evidence, the two schemas differ at most in newly declared
 optional properties, and agree on every instance that uses none of them.
 */
module IncomingExactness {
  import opened Wrappers
  import opened Json
  import opened Schema
  import opened SchemaDiff
  import opened SchemaEquality
  import opened ScalarSoundness
  import opened DiffSoundness
  import BM = BranchMatching
  import NameOrder

  /** The name a property change is about. */
  function LastName(p: Path): string {
    if p != [] && p[|p| - 1].Name? then p[|p| - 1].s else ""
  }

  /** The property names a comparison reports as newly declared. */
  function NewNames(cs: seq<Change>): set<string> {
    set i | 0 <= i < |cs| && cs[i].kind == OptionalPropertyAdded :: LastName(cs[i].path)
  }

  /** No object in x, at any depth, uses one of the names. */
  predicate Avoids(x: Json, names: set<string>) {
    match x
    case Arr(s) => forall i :: 0 <= i < |s| ==> Avoids(s[i], names)
    case Obj(m) => forall k :: k in m ==> k !in names && Avoids(m[k], names)
    case _ => true
  }

  predicate NoEvidence(cs: seq<Change>) { forall i :: 0 <= i < |cs| ==> !cs[i].evidence }

  predicate QuietOne(c: Change, names: set<string>) {
    !c.breaking && c.kind == OptionalPropertyAdded && LastName(c.path) in names
  }

  /** Nothing but additive declarations of the given names. */
  predicate Quiet(cs: seq<Change>, names: set<string>) {
    forall i :: 0 <= i < |cs| ==> QuietOne(cs[i], names)
  }

  lemma QuietSplit(s: seq<Change>, t: seq<Change>, n: set<string>)
    ensures Quiet(s + t, n) <==> Quiet(s, n) && Quiet(t, n)
  {
    if Quiet(s + t, n) {
      forall i | 0 <= i < |s| ensures QuietOne(s[i], n) {
        assert (s + t)[i] == s[i];
      }
      forall i | 0 <= i < |t| ensures QuietOne(t[i], n) {
        assert (s + t)[|s| + i] == t[i];
      }
    }
  }

  lemma QuietHead(cs: seq<Change>, n: set<string>)
    requires Quiet(cs, n)
    ensures cs != [] ==> QuietOne(cs[0], n)
  {}

  lemma QuietIsSafe(cs: seq<Change>, n: set<string>)
    requires Quiet(cs, n)
    ensures Safe(cs, false)
  {
    assert forall i :: 0 <= i < |cs| ==> QuietOne(cs[i], n);
  }

  /** Hardening leaves only property declarations additive. */
  lemma HardenedIsQuiet(b: Schema, a: Schema, p: Path, ctx: Context)
    requires ctx.incoming
    requires Clean(Diff(b, a, p, ctx)) && NoEvidence(Diff(b, a, p, ctx))
    ensures Quiet(Diff(b, a, p, ctx), NewNames(Diff(b, a, p, ctx)))
    ensures b.Flag? || a.Flag? ==> b == a
  {
    var d := Diff(b, a, p, ctx);
    if b.Flag? || a.Flag? {
      SafeHead(d, true);
    } else {
      HardenQuiet(DictDiff(b, a, p, ctx));
    }
  }

  lemma HardenQuiet(raw: seq<Change>)
    requires Clean(Harden(raw, true)) && NoEvidence(Harden(raw, true))
    ensures Quiet(Harden(raw, true), NewNames(Harden(raw, true)))
  {
    var d := Harden(raw, true);
    forall i | 0 <= i < |d| ensures QuietOne(d[i], NewNames(d)) {
      assert d[i] == HardenOne(raw[i]);
    }
  }

  lemma QuietBefore(raw: seq<Change>, n: set<string>)
    requires Quiet(Harden(raw, true), n)
    ensures Quiet(raw, n)
  {
    var d := Harden(raw, true);
    forall i | 0 <= i < |raw| ensures QuietOne(raw[i], n) {
      assert d[i] == HardenOne(raw[i]);
    }
  }

  lemma QuietRaw(b: Schema, a: Schema, p: Path, ctx: Context, n: set<string>)
    requires ctx.incoming && b.Dict? && a.Dict?
    requires Quiet(Diff(b, a, p, ctx), n)
    ensures Quiet(DictDiff(b, a, p, ctx), n)
  {
    QuietBefore(DictDiff(b, a, p, ctx), n);
  }

  // ------------------------------------------------------------- scalars

  lemma FiniteExact(b: Finite, a: Finite, x: Json, p: Path, ctx: Context, n: set<string>)
    requires Quiet(FiniteDiff(b, a, p, ctx), n)
    ensures FiniteOk(b, x) <==> FiniteOk(a, x)
  {
    FiniteMeaning(b, x);
    FiniteMeaning(a, x);
    QuietHead(FiniteDiff(b, a, p, ctx), n);
    if FiniteValues(b).Some? && FiniteValues(a).Some? {
      var s, t := Keys(FiniteValues(b).value), Keys(FiniteValues(a).value);
      assert s - t == {} && t - s == {};
      assert Canon(x) !in s - t && Canon(x) !in t - s;
    }
  }

  lemma TypesExact(b: TypeSpec, a: TypeSpec, x: Json, p: Path, n: set<string>)
    requires Quiet(TypesDiff(b, a, p), n)
    requires (b.TypeList? ==> |b.names| > 0) && (a.TypeList? ==> |a.names| > 0)
    ensures TypeOk(b, x) <==> TypeOk(a, x)
  {
    TypeMeaning(b, x);
    TypeMeaning(a, x);
    QuietHead(TypesDiff(b, a, p), n);
    if !b.AnyType? && !a.AnyType? {
      assert AtomOf(x) !in Atoms(b) - Atoms(a) && AtomOf(x) !in Atoms(a) - Atoms(b);
    }
  }

  lemma BoundExact(prev: Option<real>, next: Option<real>, p: Path, k: Bound, minimum: bool, n: set<string>)
    requires Quiet(BoundDiff(prev, next, p, k, minimum), n)
    ensures prev == next
  {
    QuietHead(BoundDiff(prev, next, p, k, minimum), n);
  }

  lemma LowerExact(b: Schema, a: Schema, p: Path, n: set<string>)
    requires b.Dict? && a.Dict? && Quiet(LowerDiff(b, a, p), n)
    ensures NumReal(b.range.minimum) == NumReal(a.range.minimum)
    ensures NumReal(b.range.exclusiveMinimum) == NumReal(a.range.exclusiveMinimum)
    ensures AsReal(b.sizes.minLength) == AsReal(a.sizes.minLength)
    ensures AsReal(b.sizes.minItems) == AsReal(a.sizes.minItems)
    ensures AsReal(b.sizes.minProperties) == AsReal(a.sizes.minProperties)
  {
    var r, q, s, t := b.range, a.range, b.sizes, a.sizes;
    var d1 := BoundDiff(NumReal(r.minimum), NumReal(q.minimum), p, Minimum, true);
    var d2 := BoundDiff(NumReal(r.exclusiveMinimum), NumReal(q.exclusiveMinimum), p, ExclusiveMinimum, true);
    var d3 := BoundDiff(AsReal(s.minLength), AsReal(t.minLength), p, MinLength, true);
    var d4 := BoundDiff(AsReal(s.minItems), AsReal(t.minItems), p, MinItems, true);
    var d5 := BoundDiff(AsReal(s.minProperties), AsReal(t.minProperties), p, MinProperties, true);
    QuietSplit(d1 + d2 + d3 + d4, d5, n);
    QuietSplit(d1 + d2 + d3, d4, n);
    QuietSplit(d1 + d2, d3, n);
    QuietSplit(d1, d2, n);
    BoundExact(NumReal(r.minimum), NumReal(q.minimum), p, Minimum, true, n);
    BoundExact(NumReal(r.exclusiveMinimum), NumReal(q.exclusiveMinimum), p, ExclusiveMinimum, true, n);
    BoundExact(AsReal(s.minLength), AsReal(t.minLength), p, MinLength, true, n);
    BoundExact(AsReal(s.minItems), AsReal(t.minItems), p, MinItems, true, n);
    BoundExact(AsReal(s.minProperties), AsReal(t.minProperties), p, MinProperties, true, n);
  }

  lemma UpperExact(b: Schema, a: Schema, p: Path, n: set<string>)
    requires b.Dict? && a.Dict? && Quiet(UpperDiff(b, a, p), n)
    ensures NumReal(b.range.maximum) == NumReal(a.range.maximum)
    ensures NumReal(b.range.exclusiveMaximum) == NumReal(a.range.exclusiveMaximum)
    ensures AsReal(b.sizes.maxLength) == AsReal(a.sizes.maxLength)
    ensures AsReal(b.sizes.maxItems) == AsReal(a.sizes.maxItems)
    ensures AsReal(b.sizes.maxProperties) == AsReal(a.sizes.maxProperties)
  {
    var r, q, s, t := b.range, a.range, b.sizes, a.sizes;
    var d1 := BoundDiff(NumReal(r.maximum), NumReal(q.maximum), p, Maximum, false);
    var d2 := BoundDiff(NumReal(r.exclusiveMaximum), NumReal(q.exclusiveMaximum), p, ExclusiveMaximum, false);
    var d3 := BoundDiff(AsReal(s.maxLength), AsReal(t.maxLength), p, MaxLength, false);
    var d4 := BoundDiff(AsReal(s.maxItems), AsReal(t.maxItems), p, MaxItems, false);
    var d5 := BoundDiff(AsReal(s.maxProperties), AsReal(t.maxProperties), p, MaxProperties, false);
    QuietSplit(d1 + d2 + d3 + d4, d5, n);
    QuietSplit(d1 + d2 + d3, d4, n);
    QuietSplit(d1 + d2, d3, n);
    QuietSplit(d1, d2, n);
    BoundExact(NumReal(r.maximum), NumReal(q.maximum), p, Maximum, false, n);
    BoundExact(NumReal(r.exclusiveMaximum), NumReal(q.exclusiveMaximum), p, ExclusiveMaximum, false, n);
    BoundExact(AsReal(s.maxLength), AsReal(t.maxLength), p, MaxLength, false, n);
    BoundExact(AsReal(s.maxItems), AsReal(t.maxItems), p, MaxItems, false, n);
    BoundExact(AsReal(s.maxProperties), AsReal(t.maxProperties), p, MaxProperties, false, n);
  }

  lemma BoundsExact(b: Schema, a: Schema, x: Json, p: Path, n: set<string>)
    requires b.Dict? && a.Dict? && Quiet(LowerDiff(b, a, p), n) && Quiet(UpperDiff(b, a, p), n)
    ensures SizesOk(b.sizes, x) <==> SizesOk(a.sizes, x)
    ensures RangeOk(b.range, x) <==> RangeOk(a.range, x)
  {
    LowerExact(b, a, p, n);
    UpperExact(b, a, p, n);
  }

  lemma ScalarsExact(b: Schema, a: Schema, x: Json, p: Path, ctx: Context, n: set<string>)
    requires b.Dict? && a.Dict? && NodeShaped(b) && NodeShaped(a) && ctx.keyed
    requires Quiet(ValuesDiff(b, a, p, ctx), n) && Quiet(ScalarsDiff(b, a, p, ctx), n)
    ensures ScalarsOk(b, x, ctx.re) <==> ScalarsOk(a, x, ctx.re)
  {
    var d1, d2 := LowerDiff(b, a, p), UpperDiff(b, a, p);
    var d3, d4 := TextDiff(b.pattern, a.pattern, p, Pattern), TextDiff(b.format, a.format, p, Format);
    var d5 := MultipleDiff(b.multipleOf, a.multipleOf, p, ctx);
    var d6 := UniqueDiff(b.arrays.uniqueItems, a.arrays.uniqueItems, p);
    QuietSplit(TypesDiff(b.types, a.types, p), FiniteDiff(b.finite, a.finite, p, ctx), n);
    QuietSplit(d1 + d2 + d3 + d4 + d5, d6, n);
    QuietSplit(d1 + d2 + d3 + d4, d5, n);
    QuietSplit(d1 + d2 + d3, d4, n);
    QuietSplit(d1 + d2, d3, n);
    QuietSplit(d1, d2, n);
    TypesExact(b.types, a.types, x, p, n);
    FiniteExact(b.finite, a.finite, x, p, ctx, n);
    BoundsExact(b, a, x, p, n);
    QuietHead(d3, n);
    QuietHead(d4, n);
    QuietHead(d5, n);
    QuietHead(d6, n);
    assert b.pattern == a.pattern && b.format == a.format;
    EqMultipleValid(b.multipleOf, a.multipleOf, x);
  }

  // ------------------------------------------------------------- objects

  lemma NoNamesExact(names: set<string>, breaking: bool, kind: Kind, p: Path, n: set<string>)
    requires kind != OptionalPropertyAdded
    requires Quiet(ForNames(NameOrder.Sorted(names), breaking, kind, p), n)
    ensures names == {}
  {
    var l := NameOrder.Sorted(names);
    QuietHead(ForNames(l, breaking, kind, p), n);
    assert forall k :: k in names ==> k in l;
  }

  lemma SharedQuiet(
      b: ObjectRules, a: ObjectRules, names: seq<string>, p: Path, ctx: Context, n: set<string>, key: string)
    requires forall k :: k in names ==> k in Props(b.properties) && k in Props(a.properties)
    requires Quiet(SharedProperties(b, a, names, p, ctx), n)
    requires key in names
    ensures key in Props(b.properties) && key in Props(a.properties)
    ensures Quiet(Diff(b.properties.map_[key], a.properties.map_[key], At(p, "properties", key), ctx), n)
  {
    var l, d, r := SharedContains(b, a, names, p, ctx, key);
    QuietSplit(l + d, r, n);
    QuietSplit(l, d, n);
  }

  lemma PropertiesExactParts(b: ObjectRules, a: ObjectRules, p: Path, ctx: Context, n: set<string>)
    requires Quiet(PropertiesDiff(b, a, p, ctx), n)
    ensures Props(b.properties).Keys <= Props(a.properties).Keys
    ensures var added := NameOrder.Sorted(Props(a.properties).Keys - Props(b.properties).Keys);
            Quiet(AddedProperties(b, a, added, p, ctx), n)
    ensures Quiet(SharedProperties(b, a, SharedNames(b, a), p, ctx), n)
    ensures NewlyRequired(b, a) == {} && Names(b.required) - Names(a.required) == {}
  {
    var prev, next := Props(b.properties).Keys, Props(a.properties).Keys;
    var d1 := ForNames(NameOrder.Sorted(prev - next), true, PropertyRemoved, p);
    var d2 := AddedProperties(b, a, NameOrder.Sorted(next - prev), p, ctx);
    var d3 := SharedProperties(b, a, SharedNames(b, a), p, ctx);
    var gone := Names(b.required) - Names(a.required);
    var d4 := ForNames(NameOrder.Sorted(NewlyRequired(b, a)), true, PropertyBecameRequired, p);
    var d5 := ForNames(NameOrder.Sorted(gone), false, PropertyBecameOptional, p);
    QuietSplit(d1 + d2 + d3, d4 + d5, n);
    QuietSplit(d1 + d2, d3, n);
    QuietSplit(d1, d2, n);
    QuietSplit(d4, d5, n);
    NoNamesExact(prev - next, true, PropertyRemoved, p, n);
    NoNamesExact(NewlyRequired(b, a), true, PropertyBecameRequired, p, n);
    NoNamesExact(gone, false, PropertyBecameOptional, p, n);
  }

  lemma AddedExact(
      b: ObjectRules, a: ObjectRules, names: set<string>, p: Path, ctx: Context, n: set<string>, key: string)
    requires names <= Props(a.properties).Keys && key in names
    requires Quiet(AddedProperties(b, a, NameOrder.Sorted(names), p, ctx), n)
    ensures key !in Names(a.required) && key in n
  {
    var l := NameOrder.Sorted(names);
    assert key in l;
    var i :| 0 <= i < |l| && l[i] == key;
    var c := AddedProperties(b, a, l, p, ctx)[i];
    assert QuietOne(c, n);
    assert c == AddedProperty(b, a, key, p, ctx);
    LastOfAt(p, key);
  }

  lemma LastOfAt(p: Path, key: string)
    ensures LastName(At(p, "properties", key)) == key
  {
    var at := At(p, "properties", key);
    assert at[|at| - 1] == Name(key);
  }

  lemma PropertiesExact(b: ObjectRules, a: ObjectRules, p: Path, ctx: Context, n: set<string>)
    requires Quiet(PropertiesDiff(b, a, p, ctx), n)
    ensures Props(b.properties).Keys <= Props(a.properties).Keys
    ensures forall key :: key in Props(a.properties) && key !in Props(b.properties) ==> key in n
    ensures Names(b.required) == Names(a.required)
  {
    PropertiesExactParts(b, a, p, ctx, n);
    var added := Props(a.properties).Keys - Props(b.properties).Keys;
    forall key | key in added ensures key in n && key !in Names(a.required) {
      AddedExact(b, a, added, p, ctx, n, key);
    }
    forall k | k in Names(a.required) ensures k in Names(b.required) {
      assert k !in NewlyRequired(b, a);
      assert k !in added;
      assert k !in Names(a.required) - Names(b.required) - added;
    }
    forall k | k in Names(b.required) ensures k in Names(a.required) {
      assert k !in Names(b.required) - Names(a.required);
    }
  }

  /** A quiet additionalProperties comparison is an equality or a recursion. */
  lemma AdditionalQuiet(b: ObjectRules, a: ObjectRules, p: Path, ctx: Context, n: set<string>)
    requires ctx.keyed && Quiet(AdditionalDiff(b, a, p, ctx), n)
    requires !EqSchema(true, Effective(b.additional), Effective(a.additional))
    ensures b.additional.ASchema? && a.additional.ASchema?
    ensures Quiet(Diff(b.additional.schema, a.additional.schema, p + [Name("additionalProperties")], ctx), n)
  {
    QuietHead(AdditionalDiff(b, a, p, ctx), n);
  }

  lemma {:induction false} AdditionalExact(
      b: ObjectRules, a: ObjectRules, v: Json, p: Path, ctx: Context, n: set<string>)
    requires EveryObject(b, NodeShaped) && EveryObject(a, NodeShaped)
    requires ctx.keyed && ctx.incoming && Avoids(v, n)
    requires Quiet(AdditionalDiff(b, a, p, ctx), n)
    ensures ValidMaybe(b.additional, v, ctx.re) <==> ValidMaybe(a.additional, v, ctx.re)
    decreases b, 0
  {
    if !EqSchema(true, Effective(b.additional), Effective(a.additional)) {
      AdditionalQuiet(b, a, p, ctx, n);
      Exact(b.additional.schema, a.additional.schema, v, p + [Name("additionalProperties")], ctx, n);
    } else if b.additional.ASchema? && a.additional.ASchema? {
      EqSchemaValid(b.additional.schema, a.additional.schema, v, ctx.re);
    }
  }

  lemma {:induction false} MemberExact(
      b: ObjectRules, a: ObjectRules, key: string, v: Json, p: Path, ctx: Context, n: set<string>)
    requires EveryObject(b, NodeShaped) && EveryObject(a, NodeShaped)
    requires ctx.keyed && ctx.incoming && Avoids(v, n) && key !in n
    requires Quiet(AdditionalDiff(b, a, p, ctx), n) && Quiet(PropertiesDiff(b, a, p, ctx), n)
    requires EqMap(true, b.patterns, a.patterns)
    ensures MemberOk(b, key, v, ctx.re) <==> MemberOk(a, key, v, ctx.re)
    decreases b, 1
  {
    PropertiesExact(b, a, p, ctx, n);
    EqMapValid(b.patterns, a.patterns, v, ctx.re);
    assert MatchesPattern(b.patterns, key, ctx.re) <==> MatchesPattern(a.patterns, key, ctx.re);
    assert key in Props(b.properties) <==> key in Props(a.properties);
    if key in Props(b.properties) {
      PropertiesExactParts(b, a, p, ctx, n);
      SharedQuiet(b, a, SharedNames(b, a), p, ctx, n, key);
      var s, t := b.properties.map_[key], a.properties.map_[key];
      assert Shaped(s) && Shaped(t);
      Exact(s, t, v, At(p, "properties", key), ctx, n);
    } else {
      AdditionalExact(b, a, v, p, ctx, n);
    }
  }

  lemma {:induction false} ObjectsExact(b: ObjectRules, a: ObjectRules, x: Json, p: Path, ctx: Context, n: set<string>)
    requires EveryObject(b, NodeShaped) && EveryObject(a, NodeShaped)
    requires ctx.keyed && ctx.incoming && Avoids(x, n)
    requires Quiet(AdditionalDiff(b, a, p, ctx), n) && Quiet(PropertiesDiff(b, a, p, ctx), n)
    requires EqMap(true, b.patterns, a.patterns) && EqDependencies(true, b.dependencies, a.dependencies)
    ensures ObjectOk(b, x, ctx.re) <==> ObjectOk(a, x, ctx.re)
    decreases b, 2
  {
    if x.Obj? {
      EqDependenciesValid(b.dependencies, a.dependencies, x, ctx.re);
      PropertiesExact(b, a, p, ctx, n);
      forall key | key in x.members
        ensures MemberOk(b, key, x.members[key], ctx.re) <==> MemberOk(a, key, x.members[key], ctx.re)
      {
        MemberExact(b, a, key, x.members[key], p, ctx, n);
      }
    }
  }

  // -------------------------------------------------------------- arrays

  lemma TupleQuiet(prev: seq<Schema>, next: seq<Schema>, k: nat, p: Path, ctx: Context, n: set<string>, i: nat)
    requires i < k <= |prev| && k <= |next|
    requires Quiet(TupleDiff(prev, next, k, p, ctx), n)
    ensures Quiet(Diff(prev[i], next[i], p + [Name("items"), Index(i)], ctx), n)
  {
    var l, d, r := TupleContains(prev, next, k, p, ctx, i);
    QuietSplit(l + d, r, n);
    QuietSplit(l, d, n);
  }

  lemma {:induction false} TupleExact(
      b: ArrayRules, a: ArrayRules, xs: seq<Json>, p: Path, ctx: Context, n: set<string>)
    requires b.items.Tuple? && a.items.Tuple?
    requires EveryArray(b, NodeShaped) && EveryArray(a, NodeShaped)
    requires ctx.keyed && ctx.incoming && Avoids(Arr(xs), n)
    requires Quiet(ItemsDiff(b, a, p, ctx), n)
    requires EqMaybe(true, b.additionalItems, a.additionalItems)
    ensures ItemsOk(b, xs, ctx.re) <==> ItemsOk(a, xs, ctx.re)
    decreases b, 0
  {
    var prev, next := b.items.list, a.items.list;
    var shared := if |prev| <= |next| then |prev| else |next|;
    var at := p + [Name("items")];
    var d1 := TupleDiff(prev, next, shared, p, ctx);
    var d2 := If_(|prev| > shared,
                  if Unrestricted(a.additionalItems) then Additive(TupleConstraintsRemoved, at)
                  else Breaking(TupleShortened, at));
    var d3 := If_(|next| > shared, Breaking(TupleConstraintsAdded, at));
    QuietSplit(d1 + d2, d3, n);
    QuietSplit(d1, d2, n);
    QuietHead(d2, n);
    QuietHead(d3, n);
    assert EveryItem(b.items, NodeShaped) && EveryItem(a.items, NodeShaped);
    assert EverySeq(prev, NodeShaped) && EverySeq(next, NodeShaped);
    forall i | 0 <= i < |xs| && i < |next| ensures Valid(prev[i], xs[i], ctx.re) <==> Valid(next[i], xs[i], ctx.re) {
      TupleQuiet(prev, next, shared, p, ctx, n, i);
      Exact(prev[i], next[i], xs[i], p + [Name("items"), Index(i)], ctx, n);
    }
    forall i | |next| <= i < |xs|
      ensures ValidMaybe(b.additionalItems, xs[i], ctx.re) <==> ValidMaybe(a.additionalItems, xs[i], ctx.re)
    {
      EqMaybeValid(b.additionalItems, a.additionalItems, xs[i], ctx.re);
    }
  }

  lemma {:induction false} ArraysExact(b: ArrayRules, a: ArrayRules, x: Json, p: Path, ctx: Context, n: set<string>)
    requires EveryArray(b, NodeShaped) && EveryArray(a, NodeShaped)
    requires ctx.keyed && ctx.incoming && Avoids(x, n)
    requires Quiet(ItemsDiff(b, a, p, ctx), n)
    requires EqMaybe(true, b.additionalItems, a.additionalItems) && EqMaybe(true, b.contains, a.contains)
    ensures ArrayOk(b, x, ctx.re) <==> ArrayOk(a, x, ctx.re)
    decreases b, 1
  {
    if x.Arr? {
      forall i | 0 <= i < |x.items| && b.contains.ASchema?
        ensures Valid(b.contains.schema, x.items[i], ctx.re) <==> Valid(a.contains.schema, x.items[i], ctx.re)
      {
        EqMaybeValid(b.contains, a.contains, x.items[i], ctx.re);
      }
      assert ContainsOk(b.contains, x.items, ctx.re) <==> ContainsOk(a.contains, x.items, ctx.re);
      QuietHead(ItemsDiff(b, a, p, ctx), n);
      match (b.items, a.items)
      case (NoItems, NoItems) =>
      case (Each(s), Each(t)) =>
        forall i | 0 <= i < |x.items| ensures Valid(s, x.items[i], ctx.re) <==> Valid(t, x.items[i], ctx.re) {
          Exact(s, t, x.items[i], p + [Name("items")], ctx, n);
        }
      case (Tuple(_), Tuple(_)) => TupleExact(b, a, x.items, p, ctx, n);
      case _ =>
    }
  }

  // ---------------------------------------------------------- combinators

  lemma PairsQuiet(
      prev: seq<Schema>, next: seq<Schema>, pairs: seq<(nat, nat)>, p: Path, ctx: Context, n: set<string>,
      k: nat)
    requires BM.InRange(pairs, |prev|, |next|) && k < |pairs|
    requires Quiet(PairsDiff(prev, next, pairs, p, ctx), n)
    ensures Quiet(Diff(prev[pairs[k].0], next[pairs[k].1], p + [Index(pairs[k].1)], ctx), n)
  {
    var l, d, r := PairsContain(prev, next, pairs, p, ctx, k);
    QuietSplit(l + d, r, n);
    QuietSplit(l, d, n);
  }

  lemma VariantsExactParts(c: Combinator, prev: seq<Schema>, next: seq<Schema>, p: Path, ctx: Context, n: set<string>)
    requires Quiet(VariantsDiff(c, prev, next, p, ctx), n)
    ensures var m := Match(prev, next);
            && Quiet(PairsDiff(prev, next, m.pairs, p + [Name(CombinatorName(c))], ctx), n)
            && m.oldLeft == {} && m.newLeft == {}
            && (c == OneOf ==> SameOrPureAddition(prev, next))
  {
    var m := Match(prev, next);
    var d1 := PairsDiff(prev, next, m.pairs, p + [Name(CombinatorName(c))], ctx);
    var d2 := If_(m.oldLeft != {}, Change(c != AllOf, VariantsRemoved(c), p, false, false));
    var d3 := If_(m.newLeft != {}, AddedVariants(c, prev, next, m.newLeft, p, ctx));
    var d4 := If_(c == OneOf && !SameOrPureAddition(prev, next) && Clean(d1 + d2 + d3),
                  Breaking(OneOfExclusivityUnproven, p));
    QuietSplit(d1 + d2 + d3, d4, n);
    QuietSplit(d1 + d2, d3, n);
    QuietSplit(d1, d2, n);
    QuietHead(d2, n);
    QuietHead(d3, n);
    QuietHead(d4, n);
  }

  lemma {:induction false} PairExact(
      c: Combinator, prev: seq<Schema>, next: seq<Schema>, x: Json, p: Path, ctx: Context, n: set<string>,
      k: nat)
    requires EverySeq(prev, NodeShaped) && EverySeq(next, NodeShaped)
    requires ctx.keyed && ctx.incoming && Avoids(x, n)
    requires Quiet(VariantsDiff(c, prev, next, p, ctx), n)
    requires k < |Match(prev, next).pairs|
    ensures var pair := Match(prev, next).pairs[k];
            Valid(prev[pair.0], x, ctx.re) <==> Valid(next[pair.1], x, ctx.re)
    decreases prev, 0
  {
    var m := Match(prev, next);
    VariantsExactParts(c, prev, next, p, ctx, n);
    var at := p + [Name(CombinatorName(c))];
    PairsQuiet(prev, next, m.pairs, at, ctx, n, k);
    Exact(prev[m.pairs[k].0], next[m.pairs[k].1], x, at + [Index(m.pairs[k].1)], ctx, n);
  }

  /** Some branch of l accepts x just when s does. */
  predicate HasTwin(s: Schema, l: seq<Schema>, x: Json, re: Regex) {
    exists j :: 0 <= j < |l| && (Valid(l[j], x, re) <==> Valid(s, x, re))
  }

  lemma {:induction false} OldTwin(
      c: Combinator, prev: seq<Schema>, next: seq<Schema>, x: Json, p: Path, ctx: Context, n: set<string>,
      i: nat)
    requires EverySeq(prev, NodeShaped) && EverySeq(next, NodeShaped)
    requires ctx.keyed && ctx.incoming && Avoids(x, n)
    requires Quiet(VariantsDiff(c, prev, next, p, ctx), n)
    requires i < |prev|
    ensures HasTwin(prev[i], next, x, ctx.re)
    decreases prev, 1
  {
    var m := Match(prev, next);
    VariantsExactParts(c, prev, next, p, ctx, n);
    if BM.OldPaired(m, i) {
      var k :| 0 <= k < |m.pairs| && m.pairs[k].0 == i;
      PairExact(c, prev, next, x, p, ctx, n, k);
    } else {
      assert prev[i] in next;
    }
  }

  lemma {:induction false} NewTwin(
      c: Combinator, prev: seq<Schema>, next: seq<Schema>, x: Json, p: Path, ctx: Context, n: set<string>,
      j: nat)
    requires EverySeq(prev, NodeShaped) && EverySeq(next, NodeShaped)
    requires ctx.keyed && ctx.incoming && Avoids(x, n)
    requires Quiet(VariantsDiff(c, prev, next, p, ctx), n)
    requires j < |next|
    ensures HasTwin(next[j], prev, x, ctx.re)
    decreases prev, 1
  {
    var m := Match(prev, next);
    VariantsExactParts(c, prev, next, p, ctx, n);
    if BM.NewPaired(m, j) {
      var k :| 0 <= k < |m.pairs| && m.pairs[k].1 == j;
      PairExact(c, prev, next, x, p, ctx, n, k);
    } else {
      assert next[j] in prev;
    }
  }

  lemma TwinsAgree(l: seq<Schema>, k: seq<Schema>, x: Json, re: Regex)
    requires forall i :: 0 <= i < |l| ==> HasTwin(l[i], k, x, re)
    ensures (forall j :: 0 <= j < |k| ==> Valid(k[j], x, re)) ==> forall i :: 0 <= i < |l| ==> Valid(l[i], x, re)
    ensures Count(l, x, re) > 0 ==> Count(k, x, re) > 0
  {
    CountPositive(l, x, re);
    CountPositive(k, x, re);
    if i :| 0 <= i < |l| && Valid(l[i], x, re) {
      assert HasTwin(l[i], k, x, re);
    }
  }

  lemma OneOfExact(prev: seq<Schema>, next: seq<Schema>, x: Json, p: Path, ctx: Context, n: set<string>)
    requires Quiet(VariantsDiff(OneOf, prev, next, p, ctx), n)
    ensures Count(prev, x, ctx.re) == Count(next, x, ctx.re)
  {
    VariantsExactParts(OneOf, prev, next, p, ctx, n);
    var ok := (s: Schema) => Valid(s, x, ctx.re);
    BM.PureAdditionMatchesAll(prev, next, KeysOf(prev), KeysOf(next));
    BM.ExactBalance(prev, next, |prev|, ok);
    BM.CountZero(prev, {}, |prev|, ok);
    BM.CountZero(next, {}, |next|, ok);
    CountIsTotal(prev, x, ctx.re);
    CountIsTotal(next, x, ctx.re);
  }

  lemma {:induction false} CombinatorExact(
      c: Combinator, b: SchemaList, a: SchemaList, x: Json, p: Path, ctx: Context, n: set<string>)
    requires EveryList(b, NodeShaped) && EveryList(a, NodeShaped)
    requires ctx.keyed && ctx.incoming && Avoids(x, n)
    requires Quiet(CombinatorDiff(c, b, a, p, ctx), n)
    ensures c == AnyOf ==> (AnyOfOk(b, x, ctx.re) <==> AnyOfOk(a, x, ctx.re))
    ensures c == AllOf ==> (AllOfOk(b, x, ctx.re) <==> AllOfOk(a, x, ctx.re))
    ensures c == OneOf ==> (OneOfOk(b, x, ctx.re) <==> OneOfOk(a, x, ctx.re))
    decreases b
  {
    QuietHead(CombinatorDiff(c, b, a, p, ctx), n);
    if a.AList? && b.AList? {
      assert EverySeq(b.list, NodeShaped) && EverySeq(a.list, NodeShaped);
      if c == OneOf {
        OneOfExact(b.list, a.list, x, p, ctx, n);
      } else {
        forall i | 0 <= i < |b.list| ensures HasTwin(b.list[i], a.list, x, ctx.re) {
          OldTwin(c, b.list, a.list, x, p, ctx, n, i);
        }
        forall j | 0 <= j < |a.list| ensures HasTwin(a.list[j], b.list, x, ctx.re) {
          NewTwin(c, b.list, a.list, x, p, ctx, n, j);
        }
        TwinsAgree(b.list, a.list, x, ctx.re);
        TwinsAgree(a.list, b.list, x, ctx.re);
      }
    }
  }

  lemma {:induction false} LogicExact(b: Logic, a: Logic, x: Json, p: Path, ctx: Context, n: set<string>)
    requires EveryLogic(b, NodeShaped) && EveryLogic(a, NodeShaped)
    requires ctx.keyed && ctx.incoming && Avoids(x, n)
    requires Quiet(LogicDiff(b, a, p, ctx), n)
    ensures LogicOk(b, x, ctx.re) <==> LogicOk(a, x, ctx.re)
    decreases b
  {
    var d1 := CombinatorDiff(AnyOf, b.anyOf, a.anyOf, p, ctx);
    var d2 := CombinatorDiff(OneOf, b.oneOf, a.oneOf, p, ctx);
    var d3 := CombinatorDiff(AllOf, b.allOf, a.allOf, p, ctx);
    var d4, d5 := WholeDiff(b.negation, a.negation, p, Not, ctx), WholeDiff(b.condition, a.condition, p, If, ctx);
    var d6 := WholeDiff(b.consequent, a.consequent, p, Then, ctx);
    var d7 := WholeDiff(b.alternative, a.alternative, p, Else, ctx);
    QuietSplit(d1 + d2 + d3 + d4 + d5 + d6, d7, n);
    QuietSplit(d1 + d2 + d3 + d4 + d5, d6, n);
    QuietSplit(d1 + d2 + d3 + d4, d5, n);
    QuietSplit(d1 + d2 + d3, d4, n);
    QuietSplit(d1 + d2, d3, n);
    QuietSplit(d1, d2, n);
    CombinatorExact(AnyOf, b.anyOf, a.anyOf, x, p, ctx, n);
    CombinatorExact(OneOf, b.oneOf, a.oneOf, x, p, ctx, n);
    CombinatorExact(AllOf, b.allOf, a.allOf, x, p, ctx, n);
    QuietHead(d4, n);
    QuietHead(d5, n);
    QuietHead(d6, n);
    QuietHead(d7, n);
    EqMaybeValid(b.negation, a.negation, x, ctx.re);
    EqMaybeValid(b.condition, a.condition, x, ctx.re);
    EqMaybeValid(b.consequent, a.consequent, x, ctx.re);
    EqMaybeValid(b.alternative, a.alternative, x, ctx.re);
  }

  lemma DictExactParts(b: Schema, a: Schema, p: Path, ctx: Context, n: set<string>)
    requires b.Dict? && a.Dict? && Quiet(DictDiff(b, a, p, ctx), n)
    ensures Quiet(ValuesDiff(b, a, p, ctx), n) && Quiet(ScalarsDiff(b, a, p, ctx), n)
    ensures Quiet(AdditionalDiff(b.objects, a.objects, p, ctx), n)
    ensures Quiet(PropertiesDiff(b.objects, a.objects, p, ctx), n)
    ensures Quiet(ItemsDiff(b.arrays, a.arrays, p, ctx), n)
    ensures Quiet(LogicDiff(b.logic, a.logic, p, ctx), n)
    ensures Quiet(UnknownDiff(b, a, p, ctx), n)
  {
    var d1, d2 := ValuesDiff(b, a, p, ctx), AdditionalDiff(b.objects, a.objects, p, ctx);
    var d3, d4 := ScalarsDiff(b, a, p, ctx), PropertiesDiff(b.objects, a.objects, p, ctx);
    var d5, d6 := ItemsDiff(b.arrays, a.arrays, p, ctx), LogicDiff(b.logic, a.logic, p, ctx);
    var d7 := UnknownDiff(b, a, p, ctx);
    QuietSplit(d1 + d2 + d3 + d4 + d5 + d6, d7, n);
    QuietSplit(d1 + d2 + d3 + d4 + d5, d6, n);
    QuietSplit(d1 + d2 + d3 + d4, d5, n);
    QuietSplit(d1 + d2 + d3, d4, n);
    QuietSplit(d1 + d2, d3, n);
    QuietSplit(d1, d2, n);
  }

  /** The induction behind IncomingIsExact. */
  lemma {:induction false} Exact(b: Schema, a: Schema, x: Json, p: Path, ctx: Context, n: set<string>)
    requires Shaped(b) && Shaped(a)
    requires ctx.keyed && ctx.incoming && Avoids(x, n)
    requires Quiet(Diff(b, a, p, ctx), n)
    ensures Valid(b, x, ctx.re) <==> Valid(a, x, ctx.re)
    decreases b
  {
    if b.Flag? || a.Flag? {
      QuietHead(Diff(b, a, p, ctx), n);
    } else {
      QuietRaw(b, a, p, ctx, n);
      DictExactParts(b, a, p, ctx, n);
      QuietIsSafe(UnknownDiff(b, a, p, ctx), n);
      UnknownSafe(b, a, p, ctx, false);
      ScalarsExact(b, a, x, p, ctx, n);
      ObjectsExact(b.objects, a.objects, x, p, ctx, n);
      ArraysExact(b.arrays, a.arrays, x, p, ctx, n);
      LogicExact(b.logic, a.logic, x, p, ctx, n);
    }
  }

  /** Incoming exactness, for reports in which Python's == hid nothing. */
  lemma IncomingIsExact(b: Schema, a: Schema, x: Json, p: Path, ctx: Context)
    requires Shaped(b) && Shaped(a)
    requires ctx.incoming
    requires Diff(b, a, p, ctx) == KeyedDiff(b, a, p, ctx)
    requires Clean(Diff(b, a, p, ctx)) && NoEvidence(Diff(b, a, p, ctx))
    requires Avoids(x, NewNames(Diff(b, a, p, ctx)))
    ensures Valid(b, x, ctx.re) <==> Valid(a, x, ctx.re)
  {
    var keyed := ctx.(keyed := true);
    HardenedIsQuiet(b, a, p, keyed);
    Exact(b, a, x, p, keyed, NewNames(Diff(b, a, p, ctx)));
  }
}
