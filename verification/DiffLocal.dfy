/**
 A change inside one place of a schema is reported there and nowhere else: the
 report of the whole is the report of the part that changed, on either
 boundary. Applied again and again this carries every law about one schema to
 any depth.
 */
module DiffLocal {
  import opened Wrappers
  import opened Schema
  import opened SchemaDiff
  import opened SchemaEquality
  import opened DiffIdentity
  import opened DiffAdditive
  import BM = BranchMatching
  import NameOrder

  // ----------------------------------------------- hardening is done once

  predicate Hardened(cs: seq<Change>) {
    forall i :: 0 <= i < |cs| ==> cs[i].breaking || cs[i].kind == OptionalPropertyAdded || cs[i].evidence
  }

  lemma DiffHardened(b: Schema, a: Schema, p: Path, ctx: Context)
    requires ctx.incoming
    ensures Hardened(Diff(b, a, p, ctx))
  {
    if b.Flag? || a.Flag? {
      FlagHardened(b, a, p, ctx);
    } else {
      HardenHardens(DictDiff(b, a, p, ctx));
    }
  }

  lemma FlagHardened(b: Schema, a: Schema, p: Path, ctx: Context)
    requires ctx.incoming
    ensures Hardened(FlagDiff(b, a, p, ctx))
  {
  }

  lemma HardenHardens(cs: seq<Change>)
    ensures Hardened(Harden(cs, true))
  {
  }

  lemma HardenedStays(cs: seq<Change>, incoming: bool)
    requires incoming ==> Hardened(cs)
    ensures Harden(cs, incoming) == cs
  {
  }

  /** The keywords of two schemas gave what the comparison of a part gave. */
  lemma PartReport(b: Schema, a: Schema, p: Path, ctx: Context, d: seq<Change>)
    requires b.Dict? && a.Dict? && DictDiff(b, a, p, ctx) == d && (ctx.incoming ==> Hardened(d))
    ensures Diff(b, a, p, ctx) == d
  {
    ReportOf(b, a, p, ctx, d);
    HardenedStays(d, ctx.incoming);
  }

  lemma PartHardened(x: Schema, y: Schema, q: Path, ctx: Context, d: seq<Change>)
    requires d == Diff(x, y, q, ctx)
    ensures ctx.incoming ==> Hardened(d)
  {
    if ctx.incoming { DiffHardened(x, y, q, ctx); }
  }

  // ------------------------------------------------------------ properties

  lemma {:induction false} SharedOnly(
      b: ObjectRules, a: ObjectRules, names: seq<string>, p: Path, ctx: Context, name: string)
    requires forall k :: k in names ==> k in Props(b.properties) && k in Props(a.properties)
    requires name in names && forall i, j :: 0 <= i < j < |names| ==> names[i] != names[j]
    requires forall k :: k in names && k != name ==> Props(b.properties)[k] == Props(a.properties)[k]
    ensures SharedProperties(b, a, names, p, ctx) ==
            Diff(Props(b.properties)[name], Props(a.properties)[name], At(p, "properties", name), ctx)
    decreases |names|
  {
    var d := Diff(Props(b.properties)[name], Props(a.properties)[name], At(p, "properties", name), ctx);
    var rest := names[1..];
    assert names[0] in names;
    if names[0] == name {
      assert name !in rest;
      SharedSame(b, a, rest, p, ctx);
    } else {
      assert name in rest;
      Silent(Props(b.properties)[names[0]], At(p, "properties", names[0]), ctx);
      SharedOnly(b, a, rest, p, ctx, name);
    }
    AllButOne([], d);
  }

  lemma PropertyReport(b: ObjectRules, a: ObjectRules, name: string, p: Path, ctx: Context)
    requires name in Props(b.properties) && Props(b.properties).Keys == Props(a.properties).Keys
    requires b.required == a.required
    requires forall k :: k in Props(b.properties) && k != name ==> Props(b.properties)[k] == Props(a.properties)[k]
    ensures PropertiesDiff(b, a, p, ctx) ==
            Diff(Props(b.properties)[name], Props(a.properties)[name], At(p, "properties", name), ctx)
  {
    var keys := Props(b.properties).Keys;
    assert keys - keys == {} && NameOrder.Sorted({}) == [];
    RequiredSame(b, a, p);
    PropertyParts(b, a, p, ctx, [], []);
    SharedOnly(b, a, SharedNames(b, a), p, ctx, name);
    assert ForNames([], true, PropertyRemoved, p) == [] && AddedProperties(b, a, [], p, ctx) == [];
    AllButOne([], SharedProperties(b, a, SharedNames(b, a), p, ctx));
  }

  lemma PropertyDict(s: Schema, name: string, child: Schema, p: Path, ctx: Context, d: seq<Change>)
    requires s.Dict? && name in Props(s.objects.properties)
    requires PropertiesDiff(s.objects, WithProperty(s, name, child).objects, p, ctx) == d
    ensures DictDiff(s, WithProperty(s, name, child), p, ctx) == d
  {
    OnlyProperties(s, WithProperty(s, name, child), p, ctx);
  }

  /** Another schema for a declared property. */
  lemma PropertyIsLocal(s: Schema, name: string, child: Schema, p: Path, ctx: Context)
    requires s.Dict? && name in Props(s.objects.properties)
    ensures Diff(s, WithProperty(s, name, child), p, ctx) ==
            Diff(Props(s.objects.properties)[name], child, At(p, "properties", name), ctx)
  {
    var t := WithProperty(s, name, child);
    var d := PropertyPart(s, name, child, p, ctx);
    PropertyDict(s, name, child, p, ctx, d);
    PartHardened(Props(s.objects.properties)[name], child, At(p, "properties", name), ctx, d);
    PartReport(s, t, p, ctx, d);
  }

  lemma PropertyPart(s: Schema, name: string, child: Schema, p: Path, ctx: Context) returns (d: seq<Change>)
    requires s.Dict? && name in Props(s.objects.properties)
    ensures d == Diff(Props(s.objects.properties)[name], child, At(p, "properties", name), ctx)
    ensures d == PropertiesDiff(s.objects, WithProperty(s, name, child).objects, p, ctx)
  {
    var t := WithProperty(s, name, child);
    assert Props(t.objects.properties).Keys == Props(s.objects.properties).Keys;
    PropertyReport(s.objects, t.objects, name, p, ctx);
    d := Diff(Props(s.objects.properties)[name], child, At(p, "properties", name), ctx);
  }

  /** Another schema for undeclared properties, unless the two count as equal. */
  lemma AdditionalIsLocal(s: Schema, x: Schema, y: Schema, p: Path, ctx: Context)
    requires s.Dict? && s.objects.additional == ASchema(x) && x.Dict? && y.Dict?
    ensures Diff(s, WithAdditional(s, ASchema(y)), p, ctx) ==
            if EqSchema(ctx.keyed, x, y) then [] else Diff(x, y, p + [Name("additionalProperties")], ctx)
  {
    var d := AdditionalPart(s.objects, WithAdditional(s, ASchema(y)).objects, x, y, p, ctx);
    AdditionalDict(s, ASchema(y), p, ctx, d);
    PartReport(s, WithAdditional(s, ASchema(y)), p, ctx, d);
  }

  lemma AdditionalDict(s: Schema, m: MaybeSchema, p: Path, ctx: Context, d: seq<Change>)
    requires s.Dict? && AdditionalDiff(s.objects, WithAdditional(s, m).objects, p, ctx) == d
    ensures DictDiff(s, WithAdditional(s, m), p, ctx) == d
  {
    OnlyAdditional(s, WithAdditional(s, m), p, ctx);
  }

  lemma AdditionalPart(b: ObjectRules, a: ObjectRules, x: Schema, y: Schema, p: Path, ctx: Context)
    returns (d: seq<Change>)
    requires b.additional == ASchema(x) && a.additional == ASchema(y) && x.Dict? && y.Dict?
    ensures d == if EqSchema(ctx.keyed, x, y) then [] else Diff(x, y, p + [Name("additionalProperties")], ctx)
    ensures d == AdditionalDiff(b, a, p, ctx) && (ctx.incoming ==> Hardened(d))
  {
    var same, at := EqSchema(ctx.keyed, x, y), p + [Name("additionalProperties")];
    d := AdditionalDiff(b, a, p, ctx);
    AdditionalIs(b, a, x, y, p, ctx, same);
    if same { return; }
    PartHardened(x, y, at, ctx, d);
  }

  lemma AdditionalIs(b: ObjectRules, a: ObjectRules, x: Schema, y: Schema, p: Path, ctx: Context, same: bool)
    requires b.additional == ASchema(x) && a.additional == ASchema(y) && x.Dict? && y.Dict?
    requires same == EqSchema(ctx.keyed, x, y)
    ensures AdditionalDiff(b, a, p, ctx) == if same then [] else Diff(x, y, p + [Name("additionalProperties")], ctx)
  {
    if same {
      AdditionalEqual(b, a, p, ctx);
    } else {
      AdditionalDiffers(b, a, p, ctx);
    }
  }

  lemma AdditionalEqual(b: ObjectRules, a: ObjectRules, p: Path, ctx: Context)
    requires EqSchema(ctx.keyed, Effective(b.additional), Effective(a.additional))
    ensures AdditionalDiff(b, a, p, ctx) == []
  {
  }

  lemma AdditionalDiffers(b: ObjectRules, a: ObjectRules, p: Path, ctx: Context)
    requires b.additional.ASchema? && a.additional.ASchema? && b.additional.schema.Dict? && a.additional.schema.Dict?
    requires !EqSchema(ctx.keyed, b.additional.schema, a.additional.schema)
    ensures AdditionalDiff(b, a, p, ctx) ==
            Diff(b.additional.schema, a.additional.schema, p + [Name("additionalProperties")], ctx)
  {
    var prev, next := Effective(b.additional), Effective(a.additional);
    assert prev.Dict? && next.Dict? && prev == b.additional.schema && next == a.additional.schema;
    assert prev != Flag(true) && next != Flag(true) && prev != Flag(false) && next != Flag(false);
  }

  // ----------------------------------------------------------------- items

  function WithItems(s: Schema, items: Items): Schema
    requires s.Dict?
  {
    s.(arrays := s.arrays.(items := items))
  }

  lemma ItemsDict(s: Schema, items: Items, p: Path, ctx: Context, d: seq<Change>)
    requires s.Dict? && ItemsDiff(s.arrays, WithItems(s, items).arrays, p, ctx) == d
    ensures DictDiff(s, WithItems(s, items), p, ctx) == d
  {
    OnlyItems(s, WithItems(s, items), p, ctx);
  }

  /** Another schema for every item. */
  lemma ItemsAreLocal(s: Schema, x: Schema, y: Schema, p: Path, ctx: Context)
    requires s.Dict? && s.arrays.items == Each(x)
    ensures Diff(s, WithItems(s, Each(y)), p, ctx) == Diff(x, y, p + [Name("items")], ctx)
  {
    var d := Diff(x, y, p + [Name("items")], ctx);
    ItemsDict(s, Each(y), p, ctx, d);
    PartHardened(x, y, p + [Name("items")], ctx, d);
    PartReport(s, WithItems(s, Each(y)), p, ctx, d);
  }

  lemma TupleStep(prev: seq<Schema>, next: seq<Schema>, n: nat, p: Path, ctx: Context)
    requires n < |prev| && n < |next|
    ensures TupleDiff(prev, next, n + 1, p, ctx) ==
            TupleDiff(prev, next, n, p, ctx) + Diff(prev[n], next[n], p + [Name("items"), Index(n)], ctx)
  {
  }

  lemma {:induction false} TupleBefore(l: seq<Schema>, k: nat, child: Schema, n: nat, p: Path, ctx: Context)
    requires n <= k < |l|
    ensures TupleDiff(l, l[k := child], n, p, ctx) == []
  {
    if n > 0 {
      TupleBefore(l, k, child, n - 1, p, ctx);
      TupleQuiet(l, l[k := child], n - 1, p, ctx);
    }
  }

  lemma {:induction false} TupleOnly(l: seq<Schema>, k: nat, child: Schema, n: nat, p: Path, ctx: Context)
    requires k < n <= |l|
    ensures TupleDiff(l, l[k := child], n, p, ctx) == Diff(l[k], child, p + [Name("items"), Index(k)], ctx)
  {
    var d := Diff(l[k], child, p + [Name("items"), Index(k)], ctx);
    TupleStep(l, l[k := child], n - 1, p, ctx);
    if k == n - 1 {
      TupleBefore(l, k, child, k, p, ctx);
    } else {
      TupleOnly(l, k, child, n - 1, p, ctx);
      Silent(l[n - 1], p + [Name("items"), Index(n - 1)], ctx);
    }
    AllButOne([], d);
  }

  lemma TuplePart(b: ArrayRules, a: ArrayRules, l: seq<Schema>, k: nat, child: Schema, p: Path, ctx: Context)
    returns (d: seq<Change>)
    requires k < |l| && b.items == Tuple(l) && a.items == Tuple(l[k := child])
    ensures d == Diff(l[k], child, p + [Name("items"), Index(k)], ctx) && d == ItemsDiff(b, a, p, ctx)
  {
    d := Diff(l[k], child, p + [Name("items"), Index(k)], ctx);
    TupleOnly(l, k, child, |l|, p, ctx);
    AllButOne([], d);
  }

  /** Another schema for the item at one position. */
  lemma PositionIsLocal(s: Schema, l: seq<Schema>, k: nat, child: Schema, p: Path, ctx: Context)
    requires s.Dict? && s.arrays.items == Tuple(l) && k < |l|
    ensures Diff(s, WithItems(s, Tuple(l[k := child])), p, ctx) ==
            Diff(l[k], child, p + [Name("items"), Index(k)], ctx)
  {
    var items := Tuple(l[k := child]);
    var d := TuplePart(s.arrays, WithItems(s, items).arrays, l, k, child, p, ctx);
    ItemsDict(s, items, p, ctx, d);
    PartHardened(l[k], child, p + [Name("items"), Index(k)], ctx, d);
    PartReport(s, WithItems(s, items), p, ctx, d);
  }

  // ---------------------------------------------------------------- unions

  function EqualTo(v: Schema): Schema -> bool { x => x == v }

  /** Another branch at one position occurs as often as before elsewhere. */
  lemma SameTotal(l: seq<Schema>, k: nat, child: Schema, v: Schema)
    requires k < |l| && v != l[k] && v != child
    ensures BM.Total(l, EqualTo(v)) == BM.Total(l[k := child], EqualTo(v))
  {
    SameCount(l, k, child, v, |l|);
  }

  lemma {:induction false} SameCount(l: seq<Schema>, k: nat, child: Schema, v: Schema, n: nat)
    requires k < |l| && v != l[k] && v != child && n <= |l|
    ensures BM.CountIn(l, BM.Upto(|l|), n, EqualTo(v)) == BM.CountIn(l[k := child], BM.Upto(|l|), n, EqualTo(v))
  {
    if n > 0 { SameCount(l, k, child, v, n - 1); }
  }

  /** A branch replaced by one found nowhere before. */
  predicate Replaces(l: seq<Schema>, k: nat, child: Schema) {
    k < |l| && child !in l && forall i :: 0 <= i < |l| && i != k ==> l[i] != l[k]
  }

  /** All the other branches are matched with identical ones. */
  lemma OthersMatch(l: seq<Schema>, k: nat, child: Schema)
    requires Replaces(l, k, child)
    ensures BM.MatchExact(l, l[k := child], |l|) == BM.Matching({k}, {k}, [])
  {
    var next := l[k := child];
    var m := BM.MatchExact(l, next, |l|);
    BM.ExactAccounted(l, next, |l|);
    assert l[k] !in next && next[k] == child;
    assert k in m.oldLeft && k in m.newLeft;
    forall i | i in m.oldLeft ensures i == k {
      if i != k { OldMatched(l, k, child, i); }
    }
    assert m.oldLeft == {k};
    forall j | j in m.newLeft ensures j == k {
      if j != k { NewMatched(l, k, child, j); }
    }
    assert m.newLeft == {k};
  }

  lemma OldMatched(l: seq<Schema>, k: nat, child: Schema, i: nat)
    requires Replaces(l, k, child) && i < |l| && i != k
    ensures i !in BM.MatchExact(l, l[k := child], |l|).oldLeft
  {
    var next, v := l[k := child], l[i];
    var m := BM.MatchExact(l, next, |l|);
    assert EqualTo(v)(l[i]);
    if i in m.oldLeft {
      BM.ExactBalance(l, next, |l|, EqualTo(v));
      SameTotal(l, k, child, v);
      forall j | 0 <= j < |next| && j in m.newLeft ensures !EqualTo(v)(next[j]) {
        BM.ExactExhausted(l, next, |l|, i, j);
      }
      BM.CountZero(next, m.newLeft, |next|, EqualTo(v));
      BM.CountZero(l, m.oldLeft, |l|, EqualTo(v));
    }
  }

  lemma NewMatched(l: seq<Schema>, k: nat, child: Schema, j: nat)
    requires Replaces(l, k, child) && j < |l| && j != k && BM.MatchExact(l, l[k := child], |l|).oldLeft == {k}
    ensures j !in BM.MatchExact(l, l[k := child], |l|).newLeft
  {
    var next, v := l[k := child], l[j];
    var m := BM.MatchExact(l, next, |l|);
    assert EqualTo(v)(next[j]);
    if j in m.newLeft {
      BM.ExactBalance(l, next, |l|, EqualTo(v));
      SameTotal(l, k, child, v);
      assert !EqualTo(v)(l[k]);
      BM.CountZero(l, m.oldLeft, |l|, EqualTo(v));
      BM.CountZero(next, m.newLeft, |next|, EqualTo(v));
    }
  }

  lemma {:induction false} KeysPair<K>(pk: seq<Option<K>>, nk: seq<Option<K>>, k: nat, n: nat)
    requires n <= |pk| && k < |nk|
    ensures var m := BM.MatchKeys(pk, nk, n, BM.Matching({k}, {k}, []));
            m == BM.Matching({k}, {k}, []) || m == BM.Matching({}, {}, [(k, k)])
  {
    if n > 0 {
      KeysPair(pk, nk, k, n - 1);
      var c := BM.WithKey(nk, {k}, pk[n - 1]);
      assert c <= {k};
      if |c| == 1 { assert BM.Only(c) in c; }
    }
  }

  lemma {:induction false} PositionsPair(k: nat, n: nat)
    ensures BM.MatchPositions(n, BM.Matching({k}, {k}, [])) ==
            if k < n then BM.Matching({}, {}, [(k, k)]) else BM.Matching({k}, {k}, [])
  {
    if n > 0 { PositionsPair(k, n - 1); }
  }

  /** The branch and its replacement are compared, and nothing else. */
  lemma ReplacedMatch(l: seq<Schema>, k: nat, child: Schema)
    requires Replaces(l, k, child)
    ensures Match(l, l[k := child]) == BM.Matching({}, {}, [(k, k)])
  {
    var next := l[k := child];
    OthersMatch(l, k, child);
    KeysPair(KeysOf(l), KeysOf(next), k, |l|);
    PositionsPair(k, |l|);
    BM.IdlePositions(|l|, BM.Matching({}, {}, [(k, k)]));
  }

  /** What a replaced branch of a union is reported as; a oneOf whose branches
      changed without a breaking report is not known to stay exclusive. */
  function ReplacedReport(c: Combinator, d: seq<Change>, p: Path): seq<Change> {
    d + if c == OneOf && Clean(d) then [Breaking(OneOfExclusivityUnproven, p)] else []
  }

  lemma ReplacedPairs(c: Combinator, l: seq<Schema>, k: nat, child: Schema, p: Path, ctx: Context)
    returns (d: seq<Change>)
    requires k < |l|
    ensures d == Diff(l[k], child, p + [Name(CombinatorName(c)), Index(k)], ctx)
    ensures d == PairsDiff(l, l[k := child], [(k, k)], p + [Name(CombinatorName(c))], ctx)
  {
    var at := p + [Name(CombinatorName(c))];
    assert p + [Name(CombinatorName(c)), Index(k)] == at + [Index(k)];
    d := Diff(l[k], child, at + [Index(k)], ctx);
    assert PairsDiff(l, l[k := child], [], at, ctx) == [];
    assert [(k, k)][..0] == [];
    AllButOne([], d);
  }

  lemma ReplacedDiff(c: Combinator, l: seq<Schema>, k: nat, child: Schema, p: Path, ctx: Context, d: seq<Change>)
    requires Replaces(l, k, child)
    requires d == PairsDiff(l, l[k := child], [(k, k)], p + [Name(CombinatorName(c))], ctx)
    ensures CombinatorDiff(c, AList(l), AList(l[k := child]), p, ctx) == ReplacedReport(c, d, p)
  {
    var next := l[k := child];
    ReplacedMatch(l, k, child);
    assert l[k] in multiset(l) && l[k] !in multiset(next);
    AllButOne([], d);
  }

  function WithUnion(s: Schema, c: Combinator, l: SchemaList): Schema
    requires s.Dict?
  {
    match c
    case AnyOf => s.(logic := s.logic.(anyOf := l))
    case OneOf => s.(logic := s.logic.(oneOf := l))
    case AllOf => s.(logic := s.logic.(allOf := l))
  }

  /** Another schema for one branch of a union. */
  lemma BranchIsLocal(s: Schema, c: Combinator, k: nat, child: Schema, p: Path, ctx: Context)
    requires s.Dict? && UnionOf(s, c).AList? && Replaces(UnionOf(s, c).list, k, child)
    ensures var l := UnionOf(s, c).list;
            Diff(s, WithUnion(s, c, AList(l[k := child])), p, ctx) ==
            ReplacedReport(c, Diff(l[k], child, p + [Name(CombinatorName(c)), Index(k)], ctx), p)
  {
    var d := BranchDict(s, c, k, child, p, ctx);
    PartReport(s, WithUnion(s, c, AList(UnionOf(s, c).list[k := child])), p, ctx, ReplacedReport(c, d, p));
  }

  lemma BranchDict(s: Schema, c: Combinator, k: nat, child: Schema, p: Path, ctx: Context) returns (d: seq<Change>)
    requires s.Dict? && UnionOf(s, c).AList? && Replaces(UnionOf(s, c).list, k, child)
    ensures var l := UnionOf(s, c).list;
            && d == Diff(l[k], child, p + [Name(CombinatorName(c)), Index(k)], ctx)
            && DictDiff(s, WithUnion(s, c, AList(l[k := child])), p, ctx) == ReplacedReport(c, d, p)
    ensures ctx.incoming ==> Hardened(ReplacedReport(c, d, p))
  {
    var l := UnionOf(s, c).list;
    d := ReplacedPairs(c, l, k, child, p, ctx);
    ReplacedDiff(c, l, k, child, p, ctx, d);
    UnionDict(s, c, AList(l[k := child]), p, ctx, ReplacedReport(c, d, p));
    PartHardened(l[k], child, p + [Name(CombinatorName(c)), Index(k)], ctx, d);
    ReplacedHardened(c, d, p);
  }

  lemma ReplacedHardened(c: Combinator, d: seq<Change>, p: Path)
    ensures Hardened(d) ==> Hardened(ReplacedReport(c, d, p))
  {
  }

  lemma UnionDict(s: Schema, c: Combinator, l: SchemaList, p: Path, ctx: Context, d: seq<Change>)
    requires s.Dict? && CombinatorDiff(c, UnionOf(s, c), l, p, ctx) == d
    ensures DictDiff(s, WithUnion(s, c, l), p, ctx) == d
  {
    var t := WithUnion(s, c, l);
    OnlyLogic(s, t, p, ctx);
    UnionParts(s.logic, t.logic, p, ctx, c);
  }
}
