/** Comparing a schema with itself reports nothing, whichever equality is used. */
module DiffIdentity {
  import opened Wrappers
  import opened Json
  import opened Schema
  import opened SchemaDiff
  import BM = BranchMatching
  import NameOrder

  // ------------------------------------------------ equality is reflexive

  lemma {:induction false} PyEqReflexive(v: Json)
    ensures PyEq(v, v)
  {
    match v
    case Arr(s) => forall i | 0 <= i < |s| ensures PyEq(s[i], s[i]) { PyEqReflexive(s[i]); }
    case Obj(m) => forall k | k in m ensures PyEq(m[k], m[k]) { PyEqReflexive(m[k]); }
    case _ =>
  }

  lemma ScalarsSelf(keyed: bool, s: Schema)
    requires s.Dict?
    ensures EqScalars(keyed, s, s)
  {
    PyEqReflexive(Obj(s.inert));
    PyEqReflexive(Obj(s.notes));
    if s.finite.constant.Some? { PyEqReflexive(s.finite.constant.value); }
    if s.finite.values.Some? { PyEqReflexive(Arr(s.finite.values.value)); }
  }

  lemma {:induction false} SeqSelf(keyed: bool, l: seq<Schema>)
    ensures EqSeq(keyed, l, l)
    decreases l
  {
    forall i | 0 <= i < |l| ensures EqSchema(keyed, l[i], l[i]) { SchemaSelf(keyed, l[i]); }
  }

  lemma {:induction false} MaybeSelf(keyed: bool, m: MaybeSchema)
    ensures EqMaybe(keyed, m, m)
    decreases m
  {
    if m.ASchema? { SchemaSelf(keyed, m.schema); }
  }

  lemma {:induction false} MapSelf(keyed: bool, m: SchemaMap)
    ensures EqMap(keyed, m, m)
    decreases m
  {
    if m.AMap? {
      forall k | k in m.map_ ensures EqSchema(keyed, m.map_[k], m.map_[k]) { SchemaSelf(keyed, m.map_[k]); }
    }
  }

  lemma {:induction false} DependenciesSelf(keyed: bool, d: Dependencies)
    ensures EqDependencies(keyed, d, d)
    decreases d
  {
    if d.SomeDependencies? {
      forall k | k in d.map_ ensures EqDependency(keyed, d.map_[k], d.map_[k]) {
        if d.map_[k].NeedsSchema? { SchemaSelf(keyed, d.map_[k].schema); }
      }
    }
  }

  lemma {:induction false} LogicSelf(keyed: bool, l: Logic)
    ensures EqLogic(keyed, l, l)
    decreases l
  {
    if l.allOf.AList? { SeqSelf(keyed, l.allOf.list); }
    if l.anyOf.AList? { SeqSelf(keyed, l.anyOf.list); }
    if l.oneOf.AList? { SeqSelf(keyed, l.oneOf.list); }
    MaybeSelf(keyed, l.negation);
    MaybeSelf(keyed, l.condition);
    MaybeSelf(keyed, l.consequent);
    MaybeSelf(keyed, l.alternative);
  }

  lemma {:induction false} SchemaSelf(keyed: bool, s: Schema)
    ensures EqSchema(keyed, s, s)
    decreases s
  {
    if s.Dict? {
      ScalarsSelf(keyed, s);
      MapSelf(keyed, s.objects.properties);
      MapSelf(keyed, s.objects.patterns);
      MaybeSelf(keyed, s.objects.additional);
      DependenciesSelf(keyed, s.objects.dependencies);
      MaybeSelf(keyed, s.arrays.additionalItems);
      MaybeSelf(keyed, s.arrays.contains);
      match s.arrays.items {
        case NoItems =>
        case Each(t) => SchemaSelf(keyed, t);
        case Tuple(l) => SeqSelf(keyed, l);
      }
      LogicSelf(keyed, s.logic);
    }
  }

  // ---------------------------------------------------- nothing is reported

  lemma ValuesSilent(s: Schema, p: Path, ctx: Context)
    requires s.Dict?
    ensures ValuesDiff(s, s, p, ctx) == []
  {
    assert Atoms(s.types) - Atoms(s.types) == {};
    var vs := FiniteValues(s.finite);
    if vs.Some? {
      assert Keys(vs.value) - Keys(vs.value) == {};
    }
  }

  lemma {:induction false} SharedSilent(o: ObjectRules, names: seq<string>, p: Path, ctx: Context)
    requires forall k :: k in names ==> k in Props(o.properties)
    ensures SharedProperties(o, o, names, p, ctx) == []
    decreases o, |names|
  {
    if names != [] {
      assert names[0] in names && names[0] in Props(o.properties);
      Silent(o.properties.map_[names[0]], At(p, "properties", names[0]), ctx);
      SharedSilent(o, names[1..], p, ctx);
    }
  }

  lemma {:induction false} PropertiesSilent(o: ObjectRules, p: Path, ctx: Context)
    ensures PropertiesDiff(o, o, p, ctx) == []
    decreases o, |Props(o.properties)| + 1
  {
    var keys, names := Props(o.properties).Keys, Names(o.required);
    SharedSilent(o, SharedNames(o, o), p, ctx);
    assert keys - keys == {} && names - names == {} && NewlyRequired(o, o) == {};
    assert NameOrder.Sorted({}) == [];
  }

  predicate SelfSilent(s: Schema, p: Path, ctx: Context) { Diff(s, s, p, ctx) == [] }

  lemma {:induction false} TupleSilent(l: seq<Schema>, n: nat, p: Path, ctx: Context)
    requires n <= |l| && forall i :: 0 <= i < |l| ==> SelfSilent(l[i], p + [Name("items"), Index(i)], ctx)
    ensures TupleDiff(l, l, n, p, ctx) == []
  {
    if n > 0 {
      TupleSilent(l, n - 1, p, ctx);
      assert SelfSilent(l[n - 1], p + [Name("items"), Index(n - 1)], ctx);
    }
  }

  lemma {:induction false} ItemsSilent(a: ArrayRules, p: Path, ctx: Context)
    ensures ItemsDiff(a, a, p, ctx) == []
    decreases a
  {
    match a.items
    case NoItems =>
    case Each(s) => Silent(s, p + [Name("items")], ctx);
    case Tuple(l) =>
      forall i | 0 <= i < |l| ensures SelfSilent(l[i], p + [Name("items"), Index(i)], ctx) {
        Silent(l[i], p + [Name("items"), Index(i)], ctx);
      }
      TupleSilent(l, |l|, p, ctx);
  }

  /** Branches matched against themselves leave nothing over. */
  lemma MatchSelf(l: seq<Schema>)
    ensures Match(l, l) == BM.Matching({}, {}, [])
  {
    var m := BM.MatchExact(l, l, |l|);
    BM.PureAdditionMatchesAll(l, l, KeysOf(l), KeysOf(l));
    BM.ExactAccounted(l, l, |l|);
    forall j | j in m.newLeft ensures BM.CountIn(l, m.newLeft, |l|, Any) > 0 {
      LeftCounts(l, m.newLeft, j);
    }
    BM.ExactBalance(l, l, |l|, Any);
    BM.CountZero(l, {}, |l|, Any);
    assert m.newLeft == {};
  }

  predicate Any(s: Schema) { true }

  lemma LeftCounts(l: seq<Schema>, left: set<nat>, j: nat)
    requires j in left && j < |l|
    ensures BM.CountIn(l, left, |l|, Any) > 0
  {
    BM.CountZero(l, left, |l|, Any);
    assert Any(l[j]);
  }

  lemma CombinatorSilent(c: Combinator, l: SchemaList, p: Path, ctx: Context)
    ensures CombinatorDiff(c, l, l, p, ctx) == []
  {
    if l.AList? {
      MatchSelf(l.list);
      assert PairsDiff(l.list, l.list, [], p + [Name(CombinatorName(c))], ctx) == [];
      assert SameOrPureAddition(l.list, l.list);
    }
  }

  lemma LogicSilent(l: Logic, p: Path, ctx: Context)
    ensures LogicDiff(l, l, p, ctx) == []
  {
    CombinatorSilent(AnyOf, l.anyOf, p, ctx);
    CombinatorSilent(OneOf, l.oneOf, p, ctx);
    CombinatorSilent(AllOf, l.allOf, p, ctx);
    MaybeSelf(ctx.keyed, l.negation);
    MaybeSelf(ctx.keyed, l.condition);
    MaybeSelf(ctx.keyed, l.consequent);
    MaybeSelf(ctx.keyed, l.alternative);
  }

  lemma {:induction false} UnknownSilent(s: Schema, names: seq<string>, p: Path, ctx: Context)
    requires s.Dict?
    ensures UnknownFrom(s, s, names, p, ctx) == []
  {
    if names != [] {
      UnhandledSelf(s, ctx);
      PyEqReflexive(InertValue(s.inert, names[0]));
      UnknownSilent(s, names[1..], p, ctx);
    }
  }

  lemma UnhandledSelf(s: Schema, ctx: Context)
    requires s.Dict?
    ensures forall k: Unhandled :: Same(s, s, k, ctx)
  {
    MapSelf(ctx.keyed, s.objects.patterns);
    DependenciesSelf(ctx.keyed, s.objects.dependencies);
    MaybeSelf(ctx.keyed, s.arrays.additionalItems);
    MaybeSelf(ctx.keyed, s.arrays.contains);
  }

  /** A schema compared with itself: no change at all, on either boundary. */
  lemma {:induction false} Silent(s: Schema, p: Path, ctx: Context)
    ensures Diff(s, s, p, ctx) == []
    decreases s
  {
    if s.Dict? {
      ValuesSilent(s, p, ctx);
      SchemaSelf(ctx.keyed, Effective(s.objects.additional));
      PropertiesSilent(s.objects, p, ctx);
      ItemsSilent(s.arrays, p, ctx);
      LogicSilent(s.logic, p, ctx);
      UnknownSilent(s, NameOrder.Sorted(UnknownNames(s, s)), p, ctx);
      DictSilent(s, p, ctx);
      QuietWhenEmpty(s, s, p, ctx, Diff(s, s, p, ctx));
    }
  }

  lemma ScalarsSilent(s: Schema, p: Path, ctx: Context)
    requires s.Dict?
    ensures ScalarsDiff(s, s, p, ctx) == []
  {
    assert LowerDiff(s, s, p) == [] && UpperDiff(s, s, p) == [];
  }

  lemma AdditionalSilent(o: ObjectRules, p: Path, ctx: Context)
    requires EqSchema(ctx.keyed, Effective(o.additional), Effective(o.additional))
    ensures AdditionalDiff(o, o, p, ctx) == []
  {}

  lemma DictSilent(s: Schema, p: Path, ctx: Context)
    requires s.Dict? && ValuesDiff(s, s, p, ctx) == []
    requires EqSchema(ctx.keyed, Effective(s.objects.additional), Effective(s.objects.additional))
    requires PropertiesDiff(s.objects, s.objects, p, ctx) == [] && ItemsDiff(s.arrays, s.arrays, p, ctx) == []
    requires LogicDiff(s.logic, s.logic, p, ctx) == [] && UnknownDiff(s, s, p, ctx) == []
    ensures DictDiff(s, s, p, ctx) == []
  {
    ScalarsSilent(s, p, ctx);
    AdditionalSilent(s.objects, p, ctx);
    var d1, d2 := ValuesDiff(s, s, p, ctx), AdditionalDiff(s.objects, s.objects, p, ctx);
    var d3, d4 := ScalarsDiff(s, s, p, ctx), PropertiesDiff(s.objects, s.objects, p, ctx);
    var d5, d6 := ItemsDiff(s.arrays, s.arrays, p, ctx), LogicDiff(s.logic, s.logic, p, ctx);
    assert DictDiff(s, s, p, ctx) == d1 + d2 + d3 + d4 + d5 + d6 + UnknownDiff(s, s, p, ctx);
  }
}
