/**
 A comparison that reports no breaking change never rejects an instance that
 was accepted before.
 */
module DiffSoundness {
  import opened Wrappers
  import opened Json
  import opened Schema
  import opened SchemaDiff
  import opened SchemaEquality
  import opened ScalarSoundness
  import BM = BranchMatching
  import NameOrder

  // ------------------------------------------------------------- objects

  lemma NoNames(names: set<string>, kind: Kind, p: Path, e: bool)
    requires Safe(ForNames(NameOrder.Sorted(names), true, kind, p), e)
    ensures names == {}
  {
    var l := NameOrder.Sorted(names);
    SafeHead(ForNames(l, true, kind, p), e);
    assert forall k :: k in names ==> k in l;
  }

  lemma SharedSafe(b: ObjectRules, a: ObjectRules, names: seq<string>, p: Path, ctx: Context, e: bool, key: string)
    requires forall k :: k in names ==> k in Props(b.properties) && k in Props(a.properties)
    requires Safe(SharedProperties(b, a, names, p, ctx), e)
    requires key in names
    ensures key in Props(b.properties) && key in Props(a.properties)
    ensures Safe(Diff(b.properties.map_[key], a.properties.map_[key], At(p, "properties", key), ctx), e)
  {
    var l, d, r := SharedContains(b, a, names, p, ctx, key);
    SafeSplit(l + d, r, e);
    SafeSplit(l, d, e);
  }

  lemma PropertiesParts(b: ObjectRules, a: ObjectRules, p: Path, ctx: Context, e: bool)
    requires Safe(PropertiesDiff(b, a, p, ctx), e)
    ensures Props(b.properties).Keys <= Props(a.properties).Keys
    ensures var added := NameOrder.Sorted(Props(a.properties).Keys - Props(b.properties).Keys);
            Safe(AddedProperties(b, a, added, p, ctx), e)
    ensures Safe(SharedProperties(b, a, SharedNames(b, a), p, ctx), e)
    ensures NewlyRequired(b, a) == {}
  {
    var prev, next := Props(b.properties).Keys, Props(a.properties).Keys;
    var d1 := ForNames(NameOrder.Sorted(prev - next), true, PropertyRemoved, p);
    var d2 := AddedProperties(b, a, NameOrder.Sorted(next - prev), p, ctx);
    var d3 := SharedProperties(b, a, SharedNames(b, a), p, ctx);
    var d4 := ForNames(NameOrder.Sorted(NewlyRequired(b, a)), true, PropertyBecameRequired, p);
    var d5 := ForNames(NameOrder.Sorted(Names(b.required) - Names(a.required)), false, PropertyBecameOptional, p);
    SafeSplit(d1 + d2 + d3, d4 + d5, e);
    SafeSplit(d1 + d2, d3, e);
    SafeSplit(d1, d2, e);
    SafeSplit(d4, d5, e);
    NoNames(prev - next, PropertyRemoved, p, e);
    NoNames(NewlyRequired(b, a), PropertyBecameRequired, p, e);
  }

  lemma AddedSafe(b: ObjectRules, a: ObjectRules, names: set<string>, p: Path, ctx: Context, e: bool, key: string)
    requires names <= Props(a.properties).Keys && key in names
    requires Safe(AddedProperties(b, a, NameOrder.Sorted(names), p, ctx), e)
    ensures key !in Names(a.required) && AdditionIsAdditive(b, key, Props(a.properties)[key], ctx.re)
  {
    var l := NameOrder.Sorted(names);
    assert key in l;
    var i :| 0 <= i < |l| && l[i] == key;
    assert AddedProperties(b, a, l, p, ctx)[i] == AddedProperty(b, a, key, p, ctx);
  }

  /** What a clean properties comparison says about one key. */
  lemma PropertySafe(b: ObjectRules, a: ObjectRules, p: Path, ctx: Context, e: bool, key: string)
    requires Safe(PropertiesDiff(b, a, p, ctx), e)
    ensures key in Props(b.properties) ==>
              && key in Props(a.properties)
              && Safe(Diff(b.properties.map_[key], a.properties.map_[key], At(p, "properties", key), ctx), e)
    ensures key in Props(a.properties) && key !in Props(b.properties) ==>
              key !in Names(a.required) && AdditionIsAdditive(b, key, Props(a.properties)[key], ctx.re)
    ensures key in Names(a.required) ==> key in Names(b.required)
  {
    PropertiesParts(b, a, p, ctx, e);
    assert key !in NewlyRequired(b, a);
    if key in Props(b.properties) {
      SharedSafe(b, a, SharedNames(b, a), p, ctx, e, key);
    } else if key in Props(a.properties) {
      AddedSafe(b, a, Props(a.properties).Keys - Props(b.properties).Keys, p, ctx, e, key);
    }
  }

  lemma EmptyAccepts(x: Json, re: Regex)
    ensures Valid(EMPTY, x, re)
  {
    assert ScalarsOk(EMPTY, x, re);
    assert LogicOk(EMPTY.logic, x, re);
    assert ArrayOk(EMPTY.arrays, x, re);
    assert ObjectOk(EMPTY.objects, x, re);
  }

  lemma {:induction false} AdditionalSound(b: ObjectRules, a: ObjectRules, v: Json, p: Path, ctx: Context, e: bool)
    requires EveryObject(b, NodeShaped) && EveryObject(a, NodeShaped)
    requires ctx.keyed && !ctx.incoming && (e ==> Integral(v))
    requires Safe(AdditionalDiff(b, a, p, ctx), e)
    requires ValidMaybe(b.additional, v, ctx.re)
    ensures ValidMaybe(a.additional, v, ctx.re)
    decreases b, 0
  {
    var d := AdditionalDiff(b, a, p, ctx);
    var prev, next := Effective(b.additional), Effective(a.additional);
    SafeHead(d, e);
    if EqSchema(true, prev, next) {
      if b.additional.ASchema? && a.additional.ASchema? {
        EqSchemaValid(prev, next, v, ctx.re);
      }
    } else if prev != Flag(true) && next != Flag(true) && prev != Flag(false) {
      Sound(prev, next, v, p + [Name("additionalProperties")], ctx, e);
    }
  }

  lemma {:induction false} PatternsSound(b: ObjectRules, a: ObjectRules, key: string, v: Json, re: Regex)
    requires EveryObject(b, NodeShaped) && EveryObject(a, NodeShaped)
    requires EqMap(true, b.patterns, a.patterns)
    requires MemberOk(b, key, v, re)
    ensures a.patterns.AMap? ==> forall p :: p in a.patterns.map_ && re(p, key) ==> Valid(a.patterns.map_[p], v, re)
    ensures MatchesPattern(b.patterns, key, re) <==> MatchesPattern(a.patterns, key, re)
  {
    EqMapValid(b.patterns, a.patterns, v, re);
  }

  /** A key that only the new schema declares. */
  lemma DeclaredSound(b: ObjectRules, key: string, child: Schema, v: Json, re: Regex)
    requires key !in Props(b.properties)
    requires AdditionIsAdditive(b, key, child, re)
    requires MemberOk(b, key, v, re)
    ensures Valid(child, v, re)
  {
    EmptyAccepts(v, re);
    if child != Flag(true) && child != EMPTY {
      assert ValidMaybe(b.additional, v, re);
      assert Valid(b.additional.schema, v, re);
    }
  }

  lemma {:induction false} MemberSound(
      b: ObjectRules, a: ObjectRules, key: string, v: Json, p: Path, ctx: Context, e: bool)
    requires EveryObject(b, NodeShaped) && EveryObject(a, NodeShaped)
    requires ctx.keyed && !ctx.incoming && (e ==> Integral(v))
    requires Safe(AdditionalDiff(b, a, p, ctx), e) && Safe(PropertiesDiff(b, a, p, ctx), e)
    requires EqMap(true, b.patterns, a.patterns)
    requires MemberOk(b, key, v, ctx.re)
    ensures MemberOk(a, key, v, ctx.re)
    decreases b, 1
  {
    PropertySafe(b, a, p, ctx, e, key);
    PatternsSound(b, a, key, v, ctx.re);
    if key in Props(b.properties) {
      var s, t := b.properties.map_[key], a.properties.map_[key];
      assert Shaped(s) && Shaped(t);
      Sound(s, t, v, At(p, "properties", key), ctx, e);
    } else if key in Props(a.properties) {
      DeclaredSound(b, key, a.properties.map_[key], v, ctx.re);
    } else if !MatchesPattern(b.patterns, key, ctx.re) {
      AdditionalSound(b, a, v, p, ctx, e);
    }
  }

  lemma {:induction false} ObjectsSound(b: ObjectRules, a: ObjectRules, x: Json, p: Path, ctx: Context, e: bool)
    requires EveryObject(b, NodeShaped) && EveryObject(a, NodeShaped)
    requires ctx.keyed && !ctx.incoming && (e ==> Integral(x))
    requires Safe(AdditionalDiff(b, a, p, ctx), e) && Safe(PropertiesDiff(b, a, p, ctx), e)
    requires EqMap(true, b.patterns, a.patterns) && EqDependencies(true, b.dependencies, a.dependencies)
    requires ObjectOk(b, x, ctx.re)
    ensures ObjectOk(a, x, ctx.re)
    decreases b, 2
  {
    if x.Obj? {
      EqDependenciesValid(b.dependencies, a.dependencies, x, ctx.re);
      forall name | name in Names(a.required) ensures name in x.members {
        PropertySafe(b, a, p, ctx, e, name);
      }
      forall key | key in x.members ensures MemberOk(a, key, x.members[key], ctx.re) {
        MemberSound(b, a, key, x.members[key], p, ctx, e);
      }
    }
  }

  // -------------------------------------------------------------- arrays

  lemma TupleSafe(prev: seq<Schema>, next: seq<Schema>, n: nat, p: Path, ctx: Context, e: bool, i: nat)
    requires i < n <= |prev| && n <= |next|
    requires Safe(TupleDiff(prev, next, n, p, ctx), e)
    ensures Safe(Diff(prev[i], next[i], p + [Name("items"), Index(i)], ctx), e)
  {
    var l, d, r := TupleContains(prev, next, n, p, ctx, i);
    SafeSplit(l + d, r, e);
    SafeSplit(l, d, e);
  }

  lemma {:induction false} TupleSound(b: ArrayRules, a: ArrayRules, xs: seq<Json>, p: Path, ctx: Context, e: bool)
    requires b.items.Tuple? && a.items.Tuple?
    requires EveryArray(b, NodeShaped) && EveryArray(a, NodeShaped)
    requires ctx.keyed && !ctx.incoming && (e ==> Integral(Arr(xs)))
    requires Safe(ItemsDiff(b, a, p, ctx), e)
    requires EqMaybe(true, b.additionalItems, a.additionalItems)
    requires ItemsOk(b, xs, ctx.re)
    ensures ItemsOk(a, xs, ctx.re)
    decreases b, 0
  {
    var prev, next := b.items.list, a.items.list;
    var shared := if |prev| <= |next| then |prev| else |next|;
    var at := p + [Name("items")];
    var d1 := TupleDiff(prev, next, shared, p, ctx);
    var d2 := If_(|prev| > shared,
                  if Unrestricted(a.additionalItems) then Additive(TupleConstraintsRemoved, at)
                  else Breaking(TupleShortened, at));
    var d3 := If_(|next| > shared, Breaking(TupleConstraintsAdded, at));
    SafeSplit(d1 + d2, d3, e);
    SafeSplit(d1, d2, e);
    SafeHead(d2, e);
    SafeHead(d3, e);
    assert EveryItem(b.items, NodeShaped) && EveryItem(a.items, NodeShaped);
    assert EverySeq(prev, NodeShaped) && EverySeq(next, NodeShaped);
    forall i | 0 <= i < |xs| && i < |next| ensures Valid(next[i], xs[i], ctx.re) {
      TupleSafe(prev, next, shared, p, ctx, e, i);
      Sound(prev[i], next[i], xs[i], p + [Name("items"), Index(i)], ctx, e);
    }
    forall i | |next| <= i < |xs| ensures ValidMaybe(a.additionalItems, xs[i], ctx.re) {
      EmptyAccepts(xs[i], ctx.re);
      if |prev| == |next| {
        EqMaybeValid(b.additionalItems, a.additionalItems, xs[i], ctx.re);
      } else {
        assert Unrestricted(a.additionalItems);
      }
    }
  }

  lemma {:induction false} ArraysSound(b: ArrayRules, a: ArrayRules, x: Json, p: Path, ctx: Context, e: bool)
    requires EveryArray(b, NodeShaped) && EveryArray(a, NodeShaped)
    requires ctx.keyed && !ctx.incoming && (e ==> Integral(x))
    requires Safe(ItemsDiff(b, a, p, ctx), e)
    requires EqMaybe(true, b.additionalItems, a.additionalItems) && EqMaybe(true, b.contains, a.contains)
    requires ArrayOk(b, x, ctx.re)
    ensures ArrayOk(a, x, ctx.re)
    decreases b, 1
  {
    if x.Arr? {
      forall i | 0 <= i < |x.items| && b.contains.ASchema?
        ensures Valid(b.contains.schema, x.items[i], ctx.re) <==> Valid(a.contains.schema, x.items[i], ctx.re)
      {
        EqMaybeValid(b.contains, a.contains, x.items[i], ctx.re);
      }
      assert ContainsOk(a.contains, x.items, ctx.re);
      SafeHead(ItemsDiff(b, a, p, ctx), e);
      match (b.items, a.items)
      case (_, NoItems) =>
      case (Each(s), Each(t)) =>
        forall i | 0 <= i < |x.items| ensures Valid(t, x.items[i], ctx.re) {
          Sound(s, t, x.items[i], p + [Name("items")], ctx, e);
        }
      case (Tuple(_), Tuple(_)) => TupleSound(b, a, x.items, p, ctx, e);
      case _ =>
    }
  }

  // ---------------------------------------------------------- combinators

  lemma {:induction false} CountIsTotal(l: seq<Schema>, x: Json, re: Regex)
    ensures Count(l, x, re) == BM.Total(l, (s: Schema) => Valid(s, x, re))
  {
    PrefixCount(l, |l|, x, re);
    assert l[..|l|] == l;
  }

  lemma {:induction false} PrefixCount(l: seq<Schema>, n: nat, x: Json, re: Regex)
    requires n <= |l|
    ensures Count(l[..n], x, re) == BM.CountIn(l, BM.Upto(|l|), n, (s: Schema) => Valid(s, x, re))
  {
    if n > 0 {
      PrefixCount(l, n - 1, x, re);
      assert l[..n][..n - 1] == l[..n - 1];
    }
  }

  lemma PairsSafe(prev: seq<Schema>, next: seq<Schema>, pairs: seq<(nat, nat)>, p: Path, ctx: Context, e: bool, k: nat)
    requires BM.InRange(pairs, |prev|, |next|) && k < |pairs|
    requires Safe(PairsDiff(prev, next, pairs, p, ctx), e)
    ensures Safe(Diff(prev[pairs[k].0], next[pairs[k].1], p + [Index(pairs[k].1)], ctx), e)
  {
    var l, d, r := PairsContain(prev, next, pairs, p, ctx, k);
    SafeSplit(l + d, r, e);
    SafeSplit(l, d, e);
  }

  /** The parts of a clean union comparison. */
  lemma VariantsParts(c: Combinator, prev: seq<Schema>, next: seq<Schema>, p: Path, ctx: Context, e: bool)
    requires Safe(VariantsDiff(c, prev, next, p, ctx), e)
    ensures var m := Match(prev, next);
            && Safe(PairsDiff(prev, next, m.pairs, p + [Name(CombinatorName(c))], ctx), e)
            && (c != AllOf ==> m.oldLeft == {})
            && (m.newLeft != {} ==> !AddedVariants(c, prev, next, m.newLeft, p, ctx).breaking)
            && (c == OneOf ==> SameOrPureAddition(prev, next))
  {
    var m := Match(prev, next);
    var d1 := PairsDiff(prev, next, m.pairs, p + [Name(CombinatorName(c))], ctx);
    var d2 := If_(m.oldLeft != {}, Change(c != AllOf, VariantsRemoved(c), p, false, false));
    var d3 := If_(m.newLeft != {}, AddedVariants(c, prev, next, m.newLeft, p, ctx));
    var d4 := If_(c == OneOf && !SameOrPureAddition(prev, next) && Clean(d1 + d2 + d3),
                  Breaking(OneOfExclusivityUnproven, p));
    SafeSplit(d1 + d2 + d3, d4, e);
    SafeSplit(d1 + d2, d3, e);
    SafeSplit(d1, d2, e);
    SafeHead(d2, e);
    SafeHead(d3, e);
    SafeHead(d4, e);
  }

  lemma {:induction false} PairSound(
      c: Combinator, prev: seq<Schema>, next: seq<Schema>, x: Json, p: Path, ctx: Context, e: bool, k: nat)
    requires EverySeq(prev, NodeShaped) && EverySeq(next, NodeShaped)
    requires ctx.keyed && !ctx.incoming && (e ==> Integral(x))
    requires Safe(VariantsDiff(c, prev, next, p, ctx), e)
    requires k < |Match(prev, next).pairs|
    requires Valid(prev[Match(prev, next).pairs[k].0], x, ctx.re)
    ensures Valid(next[Match(prev, next).pairs[k].1], x, ctx.re)
    decreases prev, 0
  {
    var m := Match(prev, next);
    VariantsParts(c, prev, next, p, ctx, e);
    var at := p + [Name(CombinatorName(c))];
    PairsSafe(prev, next, m.pairs, at, ctx, e, k);
    Sound(prev[m.pairs[k].0], next[m.pairs[k].1], x, at + [Index(m.pairs[k].1)], ctx, e);
  }

  lemma {:induction false} AnyOfSound(prev: seq<Schema>, next: seq<Schema>, x: Json, p: Path, ctx: Context, e: bool)
    requires EverySeq(prev, NodeShaped) && EverySeq(next, NodeShaped)
    requires ctx.keyed && !ctx.incoming && (e ==> Integral(x))
    requires Safe(VariantsDiff(AnyOf, prev, next, p, ctx), e)
    requires Count(prev, x, ctx.re) > 0
    ensures Count(next, x, ctx.re) > 0
    decreases prev, 1
  {
    var m := Match(prev, next);
    VariantsParts(AnyOf, prev, next, p, ctx, e);
    CountPositive(prev, x, ctx.re);
    CountPositive(next, x, ctx.re);
    var i :| 0 <= i < |prev| && Valid(prev[i], x, ctx.re);
    assert i !in m.oldLeft;
    if BM.OldPaired(m, i) {
      var k :| 0 <= k < |m.pairs| && m.pairs[k].0 == i;
      PairSound(AnyOf, prev, next, x, p, ctx, e, k);
      assert Valid(next[m.pairs[k].1], x, ctx.re);
    } else {
      assert prev[i] in next;
    }
  }

  lemma {:induction false} AllOfSound(prev: seq<Schema>, next: seq<Schema>, x: Json, p: Path, ctx: Context, e: bool)
    requires EverySeq(prev, NodeShaped) && EverySeq(next, NodeShaped)
    requires ctx.keyed && !ctx.incoming && (e ==> Integral(x))
    requires Safe(VariantsDiff(AllOf, prev, next, p, ctx), e)
    requires forall i :: 0 <= i < |prev| ==> Valid(prev[i], x, ctx.re)
    ensures forall j :: 0 <= j < |next| ==> Valid(next[j], x, ctx.re)
    decreases prev, 1
  {
    var m := Match(prev, next);
    VariantsParts(AllOf, prev, next, p, ctx, e);
    forall j | 0 <= j < |next| ensures Valid(next[j], x, ctx.re) {
      assert j !in m.newLeft;
      if BM.NewPaired(m, j) {
        var k :| 0 <= k < |m.pairs| && m.pairs[k].1 == j;
        PairSound(AllOf, prev, next, x, p, ctx, e, k);
      } else {
        assert next[j] in prev;
      }
    }
  }

  lemma {:induction false} FirstTagPinned(o: ObjectRules, names: seq<string>)
    ensures var t := FirstTag(o, names);
            t.Some? ==> t.value.Tag? && Pinned(o, t.value.name) == Some(t.value.value)
  {
    if names != [] && Pinned(o, names[0]).None? { FirstTagPinned(o, names[1..]); }
  }

  /** A tagged object branch fixes the value of its tag. */
  lemma TagFixes(s: Schema, x: Json, re: Regex)
    requires s.Dict? && x.Obj? && Valid(s, x, re)
    requires KeyOf(s).Some? && KeyOf(s).value.Tag?
    ensures KeyOf(s).value.name in x.members && Canon(x.members[KeyOf(s).value.name]) == KeyOf(s).value.value
  {
    var names := NameOrder.Sorted(Props(s.objects.properties).Keys);
    FirstTagPinned(s.objects, names);
    var name := KeyOf(s).value.name;
    assert Pinned(s.objects, name).Some?;
    assert name in x.members;
    assert MemberOk(s.objects, name, x.members[name], re);
    var child := s.objects.properties.map_[name];
    assert Valid(child, x.members[name], re);
    FiniteMeaning(child.finite, x.members[name]);
    var vs := FiniteValues(child.finite).value;
    var i :| 0 <= i < |vs| && Canon(vs[i]) == Canon(x.members[name]);
    assert i == 0;
  }

  /** Branches proved disjoint never both accept. */
  lemma DisjointExclusive(l: Schema, r: Schema, x: Json, re: Regex)
    requires Disjoint(l, r) && NodeShaped(l) && NodeShaped(r)
    ensures !(Valid(l, x, re) && Valid(r, x, re))
  {
    TypeMeaning(l.types, x);
    TypeMeaning(r.types, x);
    if Valid(l, x, re) && Valid(r, x, re) {
      assert AtomOf(x) in Atoms(l.types) && AtomOf(x) in Atoms(r.types);
      assert x.Obj?;
      TagFixes(l, x, re);
      TagFixes(r, x, re);
    }
  }

  /** Additions disjoint from every old branch accept nothing an old branch does. */
  lemma AdditionsReject(prev: seq<Schema>, next: seq<Schema>, added: set<nat>, x: Json, re: Regex)
    requires AdditionsDisjoint(prev, next, added)
    requires forall i :: 0 <= i < |prev| ==> NodeShaped(prev[i])
    requires forall j :: 0 <= j < |next| ==> NodeShaped(next[j])
    requires Count(prev, x, re) > 0
    ensures BM.CountIn(next, added, |next|, (s: Schema) => Valid(s, x, re)) == 0
  {
    CountPositive(prev, x, re);
    var i :| 0 <= i < |prev| && Valid(prev[i], x, re);
    forall j | 0 <= j < |next| && j in added ensures !Valid(next[j], x, re) {
      assert Disjoint(next[j], prev[i]);
      DisjointExclusive(next[j], prev[i], x, re);
    }
    BM.CountZero(next, added, |next|, (s: Schema) => Valid(s, x, re));
  }

  /** oneOf keeps its count at exactly one: the surviving branches contribute
      what they did before and the additions contribute nothing. */
  lemma OneOfKeepsCount(prev: seq<Schema>, next: seq<Schema>, x: Json, re: Regex)
    requires forall i :: 0 <= i < |prev| ==> NodeShaped(prev[i])
    requires forall j :: 0 <= j < |next| ==> NodeShaped(next[j])
    requires SameOrPureAddition(prev, next)
    requires AdditionsDisjoint(prev, next, Match(prev, next).newLeft)
    requires Count(prev, x, re) > 0
    ensures Count(next, x, re) == Count(prev, x, re)
    ensures Match(prev, next).oldLeft == {} && Match(prev, next).pairs == []
  {
    var ok := (s: Schema) => Valid(s, x, re);
    BM.PureAdditionMatchesAll(prev, next, KeysOf(prev), KeysOf(next));
    BM.ExactAccounted(prev, next, |prev|);
    BM.ExactBalance(prev, next, |prev|, ok);
    BM.CountZero(prev, {}, |prev|, ok);
    AdditionsReject(prev, next, Match(prev, next).newLeft, x, re);
    CountIsTotal(prev, x, re);
    CountIsTotal(next, x, re);
  }

  lemma OneOfSound(prev: seq<Schema>, next: seq<Schema>, x: Json, p: Path, ctx: Context, e: bool)
    requires forall i :: 0 <= i < |prev| ==> NodeShaped(prev[i])
    requires forall j :: 0 <= j < |next| ==> NodeShaped(next[j])
    requires Safe(VariantsDiff(OneOf, prev, next, p, ctx), e)
    requires Count(prev, x, ctx.re) == 1
    ensures Count(next, x, ctx.re) == 1
  {
    VariantsParts(OneOf, prev, next, p, ctx, e);
    OneOfKeepsCount(prev, next, x, ctx.re);
  }

  lemma AllShaped(l: seq<Schema>)
    requires EverySeq(l, NodeShaped)
    ensures forall i :: 0 <= i < |l| ==> NodeShaped(l[i])
  {
    forall i | 0 <= i < |l| ensures NodeShaped(l[i]) {
      assert Shaped(l[i]);
    }
  }

  lemma {:induction false} CombinatorSound(
      c: Combinator, b: SchemaList, a: SchemaList, x: Json, p: Path, ctx: Context, e: bool)
    requires EveryList(b, NodeShaped) && EveryList(a, NodeShaped)
    requires ctx.keyed && !ctx.incoming && (e ==> Integral(x))
    requires Safe(CombinatorDiff(c, b, a, p, ctx), e)
    ensures c == AnyOf && AnyOfOk(b, x, ctx.re) ==> AnyOfOk(a, x, ctx.re)
    ensures c == AllOf && AllOfOk(b, x, ctx.re) ==> AllOfOk(a, x, ctx.re)
    ensures c == OneOf && OneOfOk(b, x, ctx.re) ==> OneOfOk(a, x, ctx.re)
    decreases b
  {
    if a.AList? {
      CombinatorLists(c, b, a, p, ctx, e);
      if c == AnyOf && AnyOfOk(b, x, ctx.re) {
        AnyOfSound(b.list, a.list, x, p, ctx, e);
      } else if c == AllOf && AllOfOk(b, x, ctx.re) {
        AllOfSound(b.list, a.list, x, p, ctx, e);
      } else if c == OneOf && OneOfOk(b, x, ctx.re) {
        AllShaped(b.list);
        AllShaped(a.list);
        OneOfSound(b.list, a.list, x, p, ctx, e);
      }
    }
  }

  /** A union that is there afterwards was there before. */
  lemma CombinatorLists(c: Combinator, b: SchemaList, a: SchemaList, p: Path, ctx: Context, e: bool)
    requires Safe(CombinatorDiff(c, b, a, p, ctx), e) && a.AList?
    ensures b.AList? && Safe(VariantsDiff(c, b.list, a.list, p, ctx), e)
  {
    SafeHead(CombinatorDiff(c, b, a, p, ctx), e);
  }

  lemma WholeSafe(b: MaybeSchema, a: MaybeSchema, p: Path, k: Keyword, ctx: Context, e: bool)
    requires ctx.keyed && Safe(WholeDiff(b, a, p, k, ctx), e)
    ensures EqMaybe(true, b, a) || (k == Not && b.ASchema? && a.NoSchema?)
  {
    var d := WholeDiff(b, a, p, k, ctx);
    SafeHead(d, e);
  }

  lemma {:induction false} LogicSound(b: Logic, a: Logic, x: Json, p: Path, ctx: Context, e: bool)
    requires EveryLogic(b, NodeShaped) && EveryLogic(a, NodeShaped)
    requires ctx.keyed && !ctx.incoming && (e ==> Integral(x))
    requires Safe(LogicDiff(b, a, p, ctx), e)
    requires LogicOk(b, x, ctx.re)
    ensures LogicOk(a, x, ctx.re)
    decreases b
  {
    var d1 := CombinatorDiff(AnyOf, b.anyOf, a.anyOf, p, ctx);
    var d2 := CombinatorDiff(OneOf, b.oneOf, a.oneOf, p, ctx);
    var d3 := CombinatorDiff(AllOf, b.allOf, a.allOf, p, ctx);
    var d4, d5 := WholeDiff(b.negation, a.negation, p, Not, ctx), WholeDiff(b.condition, a.condition, p, If, ctx);
    var d6 := WholeDiff(b.consequent, a.consequent, p, Then, ctx);
    var d7 := WholeDiff(b.alternative, a.alternative, p, Else, ctx);
    SafeSplit(d1 + d2 + d3 + d4 + d5 + d6, d7, e);
    SafeSplit(d1 + d2 + d3 + d4 + d5, d6, e);
    SafeSplit(d1 + d2 + d3 + d4, d5, e);
    SafeSplit(d1 + d2 + d3, d4, e);
    SafeSplit(d1 + d2, d3, e);
    SafeSplit(d1, d2, e);
    CombinatorSound(AnyOf, b.anyOf, a.anyOf, x, p, ctx, e);
    CombinatorSound(OneOf, b.oneOf, a.oneOf, x, p, ctx, e);
    CombinatorSound(AllOf, b.allOf, a.allOf, x, p, ctx, e);
    WholeSafe(b.negation, a.negation, p, Not, ctx, e);
    WholeSafe(b.condition, a.condition, p, If, ctx, e);
    WholeSafe(b.consequent, a.consequent, p, Then, ctx, e);
    WholeSafe(b.alternative, a.alternative, p, Else, ctx, e);
    if EqMaybe(true, b.negation, a.negation) {
      EqMaybeValid(b.negation, a.negation, x, ctx.re);
    }
    EqMaybeValid(b.condition, a.condition, x, ctx.re);
    EqMaybeValid(b.consequent, a.consequent, x, ctx.re);
    EqMaybeValid(b.alternative, a.alternative, x, ctx.re);
  }

  // --------------------------------------------------------- whole schemas

  lemma {:induction false} UnknownSame(b: Schema, a: Schema, names: seq<string>, p: Path, ctx: Context, e: bool, k: nat)
    requires b.Dict? && a.Dict? && Safe(UnknownFrom(b, a, names, p, ctx), e)
    requires k < |names|
    ensures !UnknownDiffers(b, a, names[k], ctx)
  {
    var d := If_(UnknownDiffers(b, a, names[0], ctx),
                 Breaking(UnknownConstraintChanged(names[0]), p + [Name(names[0])]));
    SafeSplit(d, UnknownFrom(b, a, names[1..], p, ctx), e);
    SafeHead(d, e);
    if k > 0 {
      UnknownSame(b, a, names[1..], p, ctx, e, k - 1);
    }
  }

  lemma UnknownSafe(b: Schema, a: Schema, p: Path, ctx: Context, e: bool)
    requires b.Dict? && a.Dict? && ctx.keyed && Safe(UnknownDiff(b, a, p, ctx), e)
    ensures EqMap(true, b.objects.patterns, a.objects.patterns)
    ensures EqDependencies(true, b.objects.dependencies, a.objects.dependencies)
    ensures EqMaybe(true, b.arrays.additionalItems, a.arrays.additionalItems)
    ensures EqMaybe(true, b.arrays.contains, a.arrays.contains)
  {
    forall k: Unhandled ensures Same(b, a, k, ctx) { UnhandledSame(b, a, p, ctx, e, k); }
    assert Same(b, a, Patterns, ctx) && Same(b, a, Needs, ctx);
    assert Same(b, a, MoreItems, ctx) && Same(b, a, Containing, ctx);
  }

  lemma UnhandledSame(b: Schema, a: Schema, p: Path, ctx: Context, e: bool, k: Unhandled)
    requires b.Dict? && a.Dict? && Safe(UnknownDiff(b, a, p, ctx), e)
    ensures Same(b, a, k, ctx)
  {
    var name, names := NameOf(k), NameOrder.Sorted(UnknownNames(b, a));
    assert name in UnknownNames(b, a);
    var i :| 0 <= i < |names| && names[i] == name;
    UnknownSame(b, a, names, p, ctx, e, i);
    NamesDiffer(k);
  }

  lemma DictParts(b: Schema, a: Schema, p: Path, ctx: Context, e: bool)
    requires b.Dict? && a.Dict? && Safe(DictDiff(b, a, p, ctx), e)
    ensures Safe(ValuesDiff(b, a, p, ctx), e) && Safe(ScalarsDiff(b, a, p, ctx), e)
    ensures Safe(AdditionalDiff(b.objects, a.objects, p, ctx), e)
    ensures Safe(PropertiesDiff(b.objects, a.objects, p, ctx), e)
    ensures Safe(ItemsDiff(b.arrays, a.arrays, p, ctx), e)
    ensures Safe(LogicDiff(b.logic, a.logic, p, ctx), e)
    ensures Safe(UnknownDiff(b, a, p, ctx), e)
  {
    var d1, d2 := ValuesDiff(b, a, p, ctx), AdditionalDiff(b.objects, a.objects, p, ctx);
    var d3, d4 := ScalarsDiff(b, a, p, ctx), PropertiesDiff(b.objects, a.objects, p, ctx);
    var d5, d6 := ItemsDiff(b.arrays, a.arrays, p, ctx), LogicDiff(b.logic, a.logic, p, ctx);
    var d7 := UnknownDiff(b, a, p, ctx);
    SafeSplit(d1 + d2 + d3 + d4 + d5 + d6, d7, e);
    SafeSplit(d1 + d2 + d3 + d4 + d5, d6, e);
    SafeSplit(d1 + d2 + d3 + d4, d5, e);
    SafeSplit(d1 + d2 + d3, d4, e);
    SafeSplit(d1 + d2, d3, e);
    SafeSplit(d1, d2, e);
  }

  /** The induction behind DiffIsSound. */
  lemma {:induction false} Sound(b: Schema, a: Schema, x: Json, p: Path, ctx: Context, e: bool)
    requires Shaped(b) && Shaped(a)
    requires ctx.keyed && !ctx.incoming && (e ==> Integral(x))
    requires Safe(Diff(b, a, p, ctx), e)
    requires Valid(b, x, ctx.re)
    ensures Valid(a, x, ctx.re)
    decreases b
  {
    if b.Flag? || a.Flag? {
      var d := FlagDiff(b, a, p, ctx);
      SafeHead(d, e);
    } else {
      DictParts(b, a, p, ctx, e);
      UnknownSafe(b, a, p, ctx, e);
      ScalarsSound(b, a, x, p, ctx, e);
      ObjectsSound(b.objects, a.objects, x, p, ctx, e);
      ArraysSound(b.arrays, a.arrays, x, p, ctx, e);
      LogicSound(b.logic, a.logic, x, p, ctx, e);
    }
  }

  // ------------------------------------------------------ the main result

  /** What the report would be if keywords compared whole were compared by
      their JSON keys. */
  function KeyedDiff(b: Schema, a: Schema, p: Path, ctx: Context): seq<Change> {
    Diff(b, a, p, ctx.(keyed := true))
  }

  /** Every widened multipleOf in the report leaves x accepted. */
  predicate MultiplesHeld(cs: seq<Change>, x: Json) {
    forall i :: 0 <= i < |cs| ==> MultipleHeld(cs[i], Integral(x))
  }

  /** Diff soundness. When the comparison of an outgoing boundary reports no
      breaking change, everything the validator accepted it still accepts,
      unless Python's == hid a change (the report by keys differs) or a
      multipleOf was widened under a float. */
  lemma DiffIsSound(b: Schema, a: Schema, x: Json, p: Path, ctx: Context)
    requires Shaped(b) && Shaped(a)
    requires !ctx.incoming
    requires Diff(b, a, p, ctx) == KeyedDiff(b, a, p, ctx)
    requires Clean(Diff(b, a, p, ctx)) && MultiplesHeld(Diff(b, a, p, ctx), x)
    requires Valid(b, x, ctx.re)
    ensures Valid(a, x, ctx.re)
  {
    Sound(b, a, x, p, ctx.(keyed := true), Integral(x));
  }
}
