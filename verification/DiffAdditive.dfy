/**
 The other half of the comparison: what a schema change loosens is reported,
 and not as breaking. Each law takes any schema, changes some keywords of it,
 and says what the report of that change alone is.
 */
module DiffAdditive {
  import opened Wrappers
  import opened Json
  import opened Schema
  import opened SchemaDiff
  import opened SchemaEquality
  import opened ScalarSoundness
  import opened DiffIdentity
  import BM = BranchMatching
  import NameOrder

  // ---------------------------------------------- keywords left unchanged

  lemma ValuesSame(b: Schema, a: Schema, p: Path, ctx: Context)
    requires b.Dict? && a.Dict? && b.types == a.types && b.finite == a.finite
    ensures ValuesDiff(b, a, p, ctx) == []
  {
    ValuesSilent(b, p, ctx);
  }

  lemma ScalarsSame(b: Schema, a: Schema, p: Path, ctx: Context)
    requires b.Dict? && a.Dict? && b.sizes == a.sizes && b.range == a.range && b.multipleOf == a.multipleOf
    requires b.pattern == a.pattern && b.format == a.format && b.arrays.uniqueItems == a.arrays.uniqueItems
    ensures ScalarsDiff(b, a, p, ctx) == []
  {
    assert LowerDiff(b, a, p) == [] && UpperDiff(b, a, p) == [];
  }

  lemma AdditionalSame(b: ObjectRules, a: ObjectRules, p: Path, ctx: Context)
    requires b.additional == a.additional
    ensures AdditionalDiff(b, a, p, ctx) == []
  {
    SchemaSelf(ctx.keyed, Effective(b.additional));
  }

  lemma {:induction false} SharedSame(b: ObjectRules, a: ObjectRules, names: seq<string>, p: Path, ctx: Context)
    requires forall k :: k in names ==> k in Props(b.properties) && k in Props(a.properties)
    requires forall k :: k in names ==> Props(b.properties)[k] == Props(a.properties)[k]
    ensures SharedProperties(b, a, names, p, ctx) == []
    decreases |names|
  {
    if names != [] {
      assert names[0] in names && names[0] in Props(b.properties);
      Silent(b.properties.map_[names[0]], At(p, "properties", names[0]), ctx);
      SharedSame(b, a, names[1..], p, ctx);
    }
  }

  lemma PropertiesSame(b: ObjectRules, a: ObjectRules, p: Path, ctx: Context)
    requires b.properties == a.properties && b.required == a.required
    ensures PropertiesDiff(b, a, p, ctx) == []
  {
    var keys, names := Props(b.properties).Keys, Names(b.required);
    SharedSame(b, a, SharedNames(b, a), p, ctx);
    assert keys - keys == {} && names - names == {} && NewlyRequired(b, a) == {};
    assert NameOrder.Sorted({}) == [];
  }

  lemma ItemsSame(b: ArrayRules, a: ArrayRules, p: Path, ctx: Context)
    requires b.items == a.items
    ensures ItemsDiff(b, a, p, ctx) == []
  {
    ItemsSilent(b, p, ctx);
  }

  lemma {:induction false} UnknownSame(b: Schema, a: Schema, names: seq<string>, p: Path, ctx: Context)
    requires b.Dict? && a.Dict? && b.inert == a.inert && forall k: Unhandled :: Same(b, a, k, ctx)
    ensures UnknownFrom(b, a, names, p, ctx) == []
  {
    if names != [] {
      PyEqReflexive(InertValue(b.inert, names[0]));
      UnknownSame(b, a, names[1..], p, ctx);
    }
  }

  lemma UnhandledSame(b: Schema, a: Schema, p: Path, ctx: Context)
    requires b.Dict? && a.Dict? && b.inert == a.inert
    requires b.objects.patterns == a.objects.patterns && b.objects.dependencies == a.objects.dependencies
    requires b.arrays.additionalItems == a.arrays.additionalItems && b.arrays.contains == a.arrays.contains
    ensures UnknownDiff(b, a, p, ctx) == []
  {
    UnhandledSelf(b, ctx);
    forall k: Unhandled ensures Same(b, a, k, ctx) { assert Same(b, b, k, ctx); }
    UnknownSame(b, a, NameOrder.Sorted(UnknownNames(b, a)), p, ctx);
  }

  /** Everything but these six parts of two schemas is the same. */
  predicate SameRest(b: Schema, a: Schema) {
    && b.Dict? && a.Dict? && b.inert == a.inert
    && b.objects.patterns == a.objects.patterns && b.objects.dependencies == a.objects.dependencies
    && b.arrays.additionalItems == a.arrays.additionalItems && b.arrays.contains == a.arrays.contains
  }

  predicate SameValues(b: Schema, a: Schema)
    requires b.Dict? && a.Dict?
  {
    b.types == a.types && b.finite == a.finite
  }

  predicate SameScalars(b: Schema, a: Schema)
    requires b.Dict? && a.Dict?
  {
    && b.sizes == a.sizes && b.range == a.range && b.multipleOf == a.multipleOf && b.pattern == a.pattern
    && b.format == a.format && b.arrays.uniqueItems == a.arrays.uniqueItems
  }

  predicate SameObjects(b: Schema, a: Schema)
    requires b.Dict? && a.Dict?
  {
    b.objects.properties == a.objects.properties && b.objects.required == a.objects.required
  }

  /** The report of a comparison in parts. */
  lemma InParts(b: Schema, a: Schema, p: Path, ctx: Context)
    requires SameRest(b, a)
    ensures DictDiff(b, a, p, ctx) ==
            ValuesDiff(b, a, p, ctx) + AdditionalDiff(b.objects, a.objects, p, ctx) + ScalarsDiff(b, a, p, ctx) +
            PropertiesDiff(b.objects, a.objects, p, ctx) + ItemsDiff(b.arrays, a.arrays, p, ctx) +
            LogicDiff(b.logic, a.logic, p, ctx)
  {
    UnhandledSame(b, a, p, ctx);
    var d1, d2 := ValuesDiff(b, a, p, ctx), AdditionalDiff(b.objects, a.objects, p, ctx);
    var d3, d4 := ScalarsDiff(b, a, p, ctx), PropertiesDiff(b.objects, a.objects, p, ctx);
    var d5, d6 := ItemsDiff(b.arrays, a.arrays, p, ctx), LogicDiff(b.logic, a.logic, p, ctx);
    Nothing(d1 + d2 + d3 + d4 + d5 + d6);
  }

  lemma OnlyValues(b: Schema, a: Schema, p: Path, ctx: Context)
    requires SameRest(b, a) && SameScalars(b, a) && SameObjects(b, a)
    requires b.objects.additional == a.objects.additional && b.arrays.items == a.arrays.items && b.logic == a.logic
    ensures DictDiff(b, a, p, ctx) == ValuesDiff(b, a, p, ctx)
  {
    InParts(b, a, p, ctx);
    AdditionalSame(b.objects, a.objects, p, ctx);
    ScalarsSame(b, a, p, ctx);
    PropertiesSame(b.objects, a.objects, p, ctx);
    ItemsSame(b.arrays, a.arrays, p, ctx);
    LogicSilent(b.logic, p, ctx);
    AllButOne([], ValuesDiff(b, a, p, ctx));
  }

  lemma OnlyScalars(b: Schema, a: Schema, p: Path, ctx: Context)
    requires SameRest(b, a) && SameValues(b, a) && SameObjects(b, a)
    requires b.objects.additional == a.objects.additional && b.arrays.items == a.arrays.items && b.logic == a.logic
    ensures DictDiff(b, a, p, ctx) == ScalarsDiff(b, a, p, ctx)
  {
    InParts(b, a, p, ctx);
    ValuesSame(b, a, p, ctx);
    AdditionalSame(b.objects, a.objects, p, ctx);
    PropertiesSame(b.objects, a.objects, p, ctx);
    ItemsSame(b.arrays, a.arrays, p, ctx);
    LogicSilent(b.logic, p, ctx);
    AllButOne([], ScalarsDiff(b, a, p, ctx));
  }

  lemma OnlyAdditional(b: Schema, a: Schema, p: Path, ctx: Context)
    requires SameRest(b, a) && SameValues(b, a) && SameScalars(b, a) && SameObjects(b, a)
    requires b.arrays.items == a.arrays.items && b.logic == a.logic
    ensures DictDiff(b, a, p, ctx) == AdditionalDiff(b.objects, a.objects, p, ctx)
  {
    InParts(b, a, p, ctx);
    ValuesSame(b, a, p, ctx);
    ScalarsSame(b, a, p, ctx);
    PropertiesSame(b.objects, a.objects, p, ctx);
    ItemsSame(b.arrays, a.arrays, p, ctx);
    LogicSilent(b.logic, p, ctx);
    AllButOne([], AdditionalDiff(b.objects, a.objects, p, ctx));
  }

  lemma OnlyProperties(b: Schema, a: Schema, p: Path, ctx: Context)
    requires SameRest(b, a) && SameValues(b, a) && SameScalars(b, a)
    requires b.objects.additional == a.objects.additional && b.arrays.items == a.arrays.items && b.logic == a.logic
    ensures DictDiff(b, a, p, ctx) == PropertiesDiff(b.objects, a.objects, p, ctx)
  {
    InParts(b, a, p, ctx);
    ValuesSame(b, a, p, ctx);
    AdditionalSame(b.objects, a.objects, p, ctx);
    ScalarsSame(b, a, p, ctx);
    ItemsSame(b.arrays, a.arrays, p, ctx);
    LogicSilent(b.logic, p, ctx);
    AllButOne([], PropertiesDiff(b.objects, a.objects, p, ctx));
  }

  lemma OnlyItems(b: Schema, a: Schema, p: Path, ctx: Context)
    requires SameRest(b, a) && SameValues(b, a) && SameScalars(b, a) && SameObjects(b, a)
    requires b.objects.additional == a.objects.additional && b.logic == a.logic
    ensures DictDiff(b, a, p, ctx) == ItemsDiff(b.arrays, a.arrays, p, ctx)
  {
    InParts(b, a, p, ctx);
    ValuesSame(b, a, p, ctx);
    AdditionalSame(b.objects, a.objects, p, ctx);
    ScalarsSame(b, a, p, ctx);
    PropertiesSame(b.objects, a.objects, p, ctx);
    LogicSilent(b.logic, p, ctx);
    AllButOne([], ItemsDiff(b.arrays, a.arrays, p, ctx));
  }

  lemma OnlyLogic(b: Schema, a: Schema, p: Path, ctx: Context)
    requires SameRest(b, a) && SameValues(b, a) && SameScalars(b, a) && SameObjects(b, a)
    requires b.objects.additional == a.objects.additional && b.arrays.items == a.arrays.items
    ensures DictDiff(b, a, p, ctx) == LogicDiff(b.logic, a.logic, p, ctx)
  {
    InParts(b, a, p, ctx);
    ValuesSame(b, a, p, ctx);
    AdditionalSame(b.objects, a.objects, p, ctx);
    ScalarsSame(b, a, p, ctx);
    PropertiesSame(b.objects, a.objects, p, ctx);
    ItemsSame(b.arrays, a.arrays, p, ctx);
    AllButOne([], LogicDiff(b.logic, a.logic, p, ctx));
  }

  lemma AllButOne(none: seq<Change>, d: seq<Change>)
    requires none == []
    ensures none + d == d && d + none == d && none + none == none
  {
  }

  // ------------------------------------------------- reading a report

  lemma CleanSplit(s: seq<Change>, t: seq<Change>)
    ensures Clean(s + t) <==> Clean(s) && Clean(t)
  {
    if Clean(s + t) {
      forall i | 0 <= i < |s| ensures !s[i].breaking { assert (s + t)[i] == s[i]; }
      forall i | 0 <= i < |t| ensures !t[i].breaking { assert (s + t)[|s| + i] == t[i]; }
    }
  }

  lemma NoneSplit(s: seq<Change>, t: seq<Change>)
    ensures s + t == [] <==> s == [] && t == []
  {
    assert |s + t| == |s| + |t|;
  }

  /** The report of two schemas, from what their keywords gave. */
  lemma ReportOf(b: Schema, a: Schema, p: Path, ctx: Context, d: seq<Change>)
    requires b.Dict? && a.Dict? && DictDiff(b, a, p, ctx) == d
    ensures Diff(b, a, p, ctx) == Harden(d, ctx.incoming)
  {
  }

  /** Annotations are no part of the comparison. */
  lemma AnnotationsAreIgnored(s: Schema, notes: map<string, Json>, p: Path, ctx: Context)
    requires s.Dict?
    ensures Diff(s, s.(notes := notes), p, ctx) == []
  {
    var t := s.(notes := notes);
    OnlyValues(s, t, p, ctx);
    ValuesSame(s, t, p, ctx);
    QuietWhenEmpty(s, t, p, ctx, Diff(s, t, p, ctx));
  }

  // ------------------------------------------------- declared properties

  function WithProperty(s: Schema, name: string, child: Schema): Schema
    requires s.Dict?
  {
    s.(objects := s.objects.(properties := AMap(Props(s.objects.properties)[name := child])))
  }

  lemma SortedOne(name: string)
    ensures NameOrder.Sorted({name}) == [name]
  {
    var r := NameOrder.Sorted({name});
    assert name in r && |r| == 1;
    assert r[0] in r;
  }

  lemma AddedKeys(s: Schema, name: string, child: Schema)
    requires s.Dict? && name !in Props(s.objects.properties)
    ensures var b, a := s.objects, WithProperty(s, name, child).objects;
            var prev, next := Props(b.properties).Keys, Props(a.properties).Keys;
            prev - next == {} && next - prev == {name}
  {
    var b, a := s.objects, WithProperty(s, name, child).objects;
    assert Props(a.properties).Keys == Props(b.properties).Keys + {name};
  }

  lemma SharedWithout(s: Schema, name: string, child: Schema, p: Path, ctx: Context)
    requires s.Dict? && name !in Props(s.objects.properties)
    ensures var b, a := s.objects, WithProperty(s, name, child).objects;
            SharedProperties(b, a, SharedNames(b, a), p, ctx) == []
  {
    var b, a := s.objects, WithProperty(s, name, child).objects;
    SharedSame(b, a, SharedNames(b, a), p, ctx);
  }

  lemma AddedReport(s: Schema, name: string, child: Schema, p: Path, ctx: Context)
    requires s.Dict? && name !in Props(s.objects.properties)
    ensures var b, a := s.objects, WithProperty(s, name, child).objects;
            PropertiesDiff(b, a, p, ctx) == [AddedProperty(b, a, name, p, ctx)]
  {
    AddedKeys(s, name, child);
    SharedWithout(s, name, child, p, ctx);
    AddedAlone(s.objects, WithProperty(s, name, child).objects, name, p, ctx);
  }

  lemma AddedAlone(b: ObjectRules, a: ObjectRules, name: string, p: Path, ctx: Context)
    requires b.required == a.required && SharedProperties(b, a, SharedNames(b, a), p, ctx) == []
    requires Props(b.properties).Keys - Props(a.properties).Keys == {}
    requires name in Props(a.properties) && Props(a.properties).Keys - Props(b.properties).Keys == {name}
    ensures PropertiesDiff(b, a, p, ctx) == [AddedProperty(b, a, name, p, ctx)]
  {
    SortedOne(name);
    assert NameOrder.Sorted({}) == [];
    RequiredSame(b, a, p);
    var c := AddedProperty(b, a, name, p, ctx);
    PropertyParts(b, a, p, ctx, [], [name]);
    AddedOne(b, a, name, p, ctx);
    OneOfFour([c], [], [], []);
  }

  lemma AddedOne(b: ObjectRules, a: ObjectRules, name: string, p: Path, ctx: Context)
    requires name in Props(a.properties)
    ensures AddedProperties(b, a, [name], p, ctx) == [AddedProperty(b, a, name, p, ctx)]
    ensures ForNames([], true, PropertyRemoved, p) == []
  {
  }

  lemma PropertyParts(
      b: ObjectRules, a: ObjectRules, p: Path, ctx: Context, removed: seq<string>, added: seq<string>)
    requires removed == NameOrder.Sorted(Props(b.properties).Keys - Props(a.properties).Keys)
    requires added == NameOrder.Sorted(Props(a.properties).Keys - Props(b.properties).Keys)
    ensures PropertiesDiff(b, a, p, ctx) ==
            ForNames(removed, true, PropertyRemoved, p) + AddedProperties(b, a, added, p, ctx) +
            SharedProperties(b, a, SharedNames(b, a), p, ctx) + RequiredDiff(b, a, p)
  {
  }

  lemma RequiredSame(b: ObjectRules, a: ObjectRules, p: Path)
    requires b.required == a.required
    ensures RequiredDiff(b, a, p) == []
  {
    assert Names(b.required) - Names(a.required) == {} && NewlyRequired(b, a) == {};
    assert NameOrder.Sorted({}) == [];
  }

  /** The report of a new optional property that cannot break anything. */
  function Declared(p: Path, name: string): Change {
    Change(false, OptionalPropertyAdded, At(p, "properties", name), false, false)
  }

  lemma DeclaredReport(s: Schema, name: string, child: Schema, p: Path, ctx: Context)
    requires s.Dict? && name !in Props(s.objects.properties)
    requires AddedProperty(s.objects, WithProperty(s, name, child).objects, name, p, ctx) == Declared(p, name)
    ensures Diff(s, WithProperty(s, name, child), p, ctx) == [Declared(p, name)]
  {
    DeclaredDict(s, name, child, p, ctx);
    ReportOf(s, WithProperty(s, name, child), p, ctx, [Declared(p, name)]);
    HardenKeeps(Declared(p, name), ctx.incoming);
  }

  lemma DeclaredDict(s: Schema, name: string, child: Schema, p: Path, ctx: Context)
    requires s.Dict? && name !in Props(s.objects.properties)
    requires AddedProperty(s.objects, WithProperty(s, name, child).objects, name, p, ctx) == Declared(p, name)
    ensures DictDiff(s, WithProperty(s, name, child), p, ctx) == [Declared(p, name)]
  {
    AddedReport(s, name, child, p, ctx);
    OnlyProperties(s, WithProperty(s, name, child), p, ctx);
  }

  lemma HardenKeeps(c: Change, incoming: bool)
    requires c.breaking || c.kind == OptionalPropertyAdded || c.evidence
    ensures Harden([c], incoming) == [c]
  {
  }

  /** An object that admitted nothing undeclared may declare one more optional
      property, with any schema: exactly that is reported, as additive, on
      either boundary. */
  lemma ClosedObjectMayGrow(s: Schema, name: string, child: Schema, p: Path, ctx: Context)
    requires s.Dict? && s.objects.additional == ASchema(Flag(false))
    requires name !in Props(s.objects.properties) && name !in Names(s.objects.required)
    requires !MatchesPattern(s.objects.patterns, name, ctx.re)
    ensures Diff(s, WithProperty(s, name, child), p, ctx) == [Declared(p, name)]
  {
    DeclaredReport(s, name, child, p, ctx);
  }

  /** So may any object, with a property that admits every value. */
  lemma FreePropertyMayBeDeclared(s: Schema, name: string, child: Schema, p: Path, ctx: Context)
    requires s.Dict? && name !in Props(s.objects.properties) && name !in Names(s.objects.required)
    requires child == Flag(true) || child == EMPTY
    ensures Diff(s, WithProperty(s, name, child), p, ctx) == [Declared(p, name)]
  {
    DeclaredReport(s, name, child, p, ctx);
  }

  /** And one with the schema undeclared properties had to meet before. */
  lemma KnownPropertyMayBeDeclared(s: Schema, name: string, child: Schema, p: Path, ctx: Context)
    requires s.Dict? && s.objects.additional == ASchema(child) && child.Dict?
    requires name !in Props(s.objects.properties) && name !in Names(s.objects.required)
    requires !MatchesPattern(s.objects.patterns, name, ctx.re)
    ensures Diff(s, WithProperty(s, name, child), p, ctx) == [Declared(p, name)]
  {
    DeclaredReport(s, name, child, p, ctx);
  }

  function WithRequired(s: Schema, names: Option<seq<string>>): Schema
    requires s.Dict?
  {
    s.(objects := s.objects.(required := names))
  }

  /** Requiring fewer properties is reported name by name, as additive. */
  lemma PropertiesMayBecomeOptional(s: Schema, names: Option<seq<string>>, p: Path, ctx: Context)
    requires s.Dict? && !ctx.incoming && Names(names) <= Names(s.objects.required)
    ensures var gone := NameOrder.Sorted(Names(s.objects.required) - Names(names));
            Diff(s, WithRequired(s, names), p, ctx) == ForNames(gone, false, PropertyBecameOptional, p)
  {
    var t := WithRequired(s, names);
    OnlyProperties(s, t, p, ctx);
    ReportOf(s, t, p, ctx, PropertiesDiff(s.objects, t.objects, p, ctx));
    var b, a := s.objects, t.objects;
    var keys := Props(b.properties).Keys;
    assert keys - keys == {} && NewlyRequired(b, a) == {};
    assert NameOrder.Sorted({}) == [];
    SharedSame(b, a, SharedNames(b, a), p, ctx);
    var gone := ForNames(NameOrder.Sorted(Names(b.required) - Names(a.required)), false, PropertyBecameOptional, p);
    assert ForNames([], true, PropertyBecameRequired, p) == [] && ForNames([], true, PropertyRemoved, p) == [];
    assert AddedProperties(b, a, [], p, ctx) == [];
    AllButOne([], gone);
  }

  function WithAdditional(s: Schema, m: MaybeSchema): Schema
    requires s.Dict?
  {
    s.(objects := s.objects.(additional := m))
  }

  /** Opening an object that was closed, or freeing what it admits, is one
      additive change. */
  lemma ObjectMayOpen(s: Schema, m: MaybeSchema, p: Path, ctx: Context)
    requires s.Dict? && !ctx.incoming && Effective(s.objects.additional) != Effective(m)
    requires s.objects.additional == ASchema(Flag(false)) || (Effective(m) == Flag(true))
    requires Effective(s.objects.additional).Dict? || Effective(s.objects.additional) == Flag(false)
    ensures Diff(s, WithAdditional(s, m), p, ctx) == [Additive(AdditionalPropertiesWidened, p)]
  {
    var t := WithAdditional(s, m);
    OnlyAdditional(s, t, p, ctx);
    WidenedReport(s.objects, t.objects, p, ctx);
    ReportOf(s, t, p, ctx, [Additive(AdditionalPropertiesWidened, p)]);
  }

  lemma WidenedReport(b: ObjectRules, a: ObjectRules, p: Path, ctx: Context)
    requires Effective(b.additional) != Effective(a.additional)
    requires b.additional == ASchema(Flag(false)) || Effective(a.additional) == Flag(true)
    requires Effective(b.additional).Dict? || Effective(b.additional) == Flag(false)
    ensures AdditionalDiff(b, a, p, ctx) == [Additive(AdditionalPropertiesWidened, p)]
  {
    assert !EqSchema(ctx.keyed, Effective(b.additional), Effective(a.additional));
  }

  // ------------------------------------------------------------- scalars

  function Bounded(s: Schema, sizes: Sizes, range: Range): Schema
    requires s.Dict?
  {
    s.(sizes := sizes, range := range)
  }

  predicate LooserSizes(b: Sizes, a: Sizes) {
    && LooserMin(AsReal(b.minLength), AsReal(a.minLength)) && LooserMax(AsReal(b.maxLength), AsReal(a.maxLength))
    && LooserMin(AsReal(b.minItems), AsReal(a.minItems)) && LooserMax(AsReal(b.maxItems), AsReal(a.maxItems))
    && LooserMin(AsReal(b.minProperties), AsReal(a.minProperties))
    && LooserMax(AsReal(b.maxProperties), AsReal(a.maxProperties))
  }

  predicate LooserRange(b: Range, a: Range) {
    && LooserMin(NumReal(b.minimum), NumReal(a.minimum)) && LooserMax(NumReal(b.maximum), NumReal(a.maximum))
    && LooserMin(NumReal(b.exclusiveMinimum), NumReal(a.exclusiveMinimum))
    && LooserMax(NumReal(b.exclusiveMaximum), NumReal(a.exclusiveMaximum))
  }

  lemma BoundReport(prev: Option<real>, next: Option<real>, p: Path, k: Bound, minimum: bool)
    ensures BoundDiff(prev, next, p, k, minimum) == [] <==> prev == next
    ensures Clean(BoundDiff(prev, next, p, k, minimum)) <==>
            if minimum then LooserMin(prev, next) else LooserMax(prev, next)
  {
    var d := BoundDiff(prev, next, p, k, minimum);
    if d != [] { assert Clean(d) <==> !d[0].breaking; }
  }

  lemma LowerReport(b: Schema, a: Schema, p: Path)
    requires b.Dict? && a.Dict?
    ensures Clean(LowerDiff(b, a, p)) <==>
            && LooserMin(NumReal(b.range.minimum), NumReal(a.range.minimum))
            && LooserMin(NumReal(b.range.exclusiveMinimum), NumReal(a.range.exclusiveMinimum))
            && LooserMin(AsReal(b.sizes.minLength), AsReal(a.sizes.minLength))
            && LooserMin(AsReal(b.sizes.minItems), AsReal(a.sizes.minItems))
            && LooserMin(AsReal(b.sizes.minProperties), AsReal(a.sizes.minProperties))
    ensures LowerDiff(b, a, p) == [] ==>
            && NumReal(b.range.minimum) == NumReal(a.range.minimum)
            && NumReal(b.range.exclusiveMinimum) == NumReal(a.range.exclusiveMinimum)
            && b.sizes.minLength == a.sizes.minLength && b.sizes.minItems == a.sizes.minItems
            && b.sizes.minProperties == a.sizes.minProperties
  {
    var r, q, s, t := b.range, a.range, b.sizes, a.sizes;
    var d1 := BoundDiff(NumReal(r.minimum), NumReal(q.minimum), p, Minimum, true);
    var d2 := BoundDiff(NumReal(r.exclusiveMinimum), NumReal(q.exclusiveMinimum), p, ExclusiveMinimum, true);
    var d3 := BoundDiff(AsReal(s.minLength), AsReal(t.minLength), p, MinLength, true);
    var d4 := BoundDiff(AsReal(s.minItems), AsReal(t.minItems), p, MinItems, true);
    var d5 := BoundDiff(AsReal(s.minProperties), AsReal(t.minProperties), p, MinProperties, true);
    FiveParts(d1, d2, d3, d4, d5);
    BoundReport(NumReal(r.minimum), NumReal(q.minimum), p, Minimum, true);
    BoundReport(NumReal(r.exclusiveMinimum), NumReal(q.exclusiveMinimum), p, ExclusiveMinimum, true);
    BoundReport(AsReal(s.minLength), AsReal(t.minLength), p, MinLength, true);
    BoundReport(AsReal(s.minItems), AsReal(t.minItems), p, MinItems, true);
    BoundReport(AsReal(s.minProperties), AsReal(t.minProperties), p, MinProperties, true);
  }

  lemma UpperReport(b: Schema, a: Schema, p: Path)
    requires b.Dict? && a.Dict?
    ensures Clean(UpperDiff(b, a, p)) <==>
            && LooserMax(NumReal(b.range.maximum), NumReal(a.range.maximum))
            && LooserMax(NumReal(b.range.exclusiveMaximum), NumReal(a.range.exclusiveMaximum))
            && LooserMax(AsReal(b.sizes.maxLength), AsReal(a.sizes.maxLength))
            && LooserMax(AsReal(b.sizes.maxItems), AsReal(a.sizes.maxItems))
            && LooserMax(AsReal(b.sizes.maxProperties), AsReal(a.sizes.maxProperties))
    ensures UpperDiff(b, a, p) == [] ==>
            && NumReal(b.range.maximum) == NumReal(a.range.maximum)
            && NumReal(b.range.exclusiveMaximum) == NumReal(a.range.exclusiveMaximum)
            && b.sizes.maxLength == a.sizes.maxLength && b.sizes.maxItems == a.sizes.maxItems
            && b.sizes.maxProperties == a.sizes.maxProperties
  {
    var r, q, s, t := b.range, a.range, b.sizes, a.sizes;
    var d1 := BoundDiff(NumReal(r.maximum), NumReal(q.maximum), p, Maximum, false);
    var d2 := BoundDiff(NumReal(r.exclusiveMaximum), NumReal(q.exclusiveMaximum), p, ExclusiveMaximum, false);
    var d3 := BoundDiff(AsReal(s.maxLength), AsReal(t.maxLength), p, MaxLength, false);
    var d4 := BoundDiff(AsReal(s.maxItems), AsReal(t.maxItems), p, MaxItems, false);
    var d5 := BoundDiff(AsReal(s.maxProperties), AsReal(t.maxProperties), p, MaxProperties, false);
    FiveParts(d1, d2, d3, d4, d5);
    BoundReport(NumReal(r.maximum), NumReal(q.maximum), p, Maximum, false);
    BoundReport(NumReal(r.exclusiveMaximum), NumReal(q.exclusiveMaximum), p, ExclusiveMaximum, false);
    BoundReport(AsReal(s.maxLength), AsReal(t.maxLength), p, MaxLength, false);
    BoundReport(AsReal(s.maxItems), AsReal(t.maxItems), p, MaxItems, false);
    BoundReport(AsReal(s.maxProperties), AsReal(t.maxProperties), p, MaxProperties, false);
  }

  lemma FiveParts(d1: seq<Change>, d2: seq<Change>, d3: seq<Change>, d4: seq<Change>, d5: seq<Change>)
    ensures Clean(d1 + d2 + d3 + d4 + d5) <==> Clean(d1) && Clean(d2) && Clean(d3) && Clean(d4) && Clean(d5)
    ensures d1 + d2 + d3 + d4 + d5 == [] <==> d1 == [] && d2 == [] && d3 == [] && d4 == [] && d5 == []
  {
    CleanSplit(d1 + d2 + d3 + d4, d5);
    CleanSplit(d1 + d2 + d3, d4);
    CleanSplit(d1 + d2, d3);
    CleanSplit(d1, d2);
    NoneSplit(d1 + d2 + d3 + d4, d5);
    NoneSplit(d1 + d2 + d3, d4);
    NoneSplit(d1 + d2, d3);
    NoneSplit(d1, d2);
  }

  /** Every limit has the same value in both, written alike or not. */
  predicate SameBounds(r: Range, q: Range, b: Sizes, a: Sizes) {
    && b == a && NumReal(r.minimum) == NumReal(q.minimum) && NumReal(r.maximum) == NumReal(q.maximum)
    && NumReal(r.exclusiveMinimum) == NumReal(q.exclusiveMinimum)
    && NumReal(r.exclusiveMaximum) == NumReal(q.exclusiveMaximum)
  }

  /** A change of limits alone is free of breaking changes exactly when no limit
      is stricter, and is reported whenever a limit differs. */
  lemma BoundsReported(s: Schema, sizes: Sizes, range: Range, p: Path, ctx: Context)
    requires s.Dict? && !ctx.incoming
    ensures var d := Diff(s, Bounded(s, sizes, range), p, ctx);
            && (Clean(d) <==> LooserSizes(s.sizes, sizes) && LooserRange(s.range, range))
            && (d == [] ==> SameBounds(s.range, range, s.sizes, sizes))
  {
    var t := Bounded(s, sizes, range);
    OnlyScalars(s, t, p, ctx);
    ReportOf(s, t, p, ctx, ScalarsDiff(s, t, p, ctx));
    var d1, d2 := LowerDiff(s, t, p), UpperDiff(s, t, p);
    LowerReport(s, t, p);
    UpperReport(s, t, p);
    CleanSplit(d1, d2);
    NoneSplit(d1, d2);
    assert ScalarsDiff(s, t, p, ctx) == d1 + d2 + [] + [] + [] + [];
    Nothing(d1 + d2);
  }

  /** Two schemas that differ at most in pattern, format, multipleOf and
      uniqueItems. */
  predicate AlikeBut(s: Schema, t: Schema) {
    && SameRest(s, t) && SameValues(s, t) && SameObjects(s, t)
    && s.objects.additional == t.objects.additional && s.arrays.items == t.arrays.items && s.logic == t.logic
    && s.sizes == t.sizes && s.range == t.range
  }

  lemma ScalarParts(s: Schema, t: Schema, p: Path, ctx: Context)
    requires AlikeBut(s, t)
    ensures ScalarsDiff(s, t, p, ctx) ==
            TextDiff(s.pattern, t.pattern, p, Pattern) + TextDiff(s.format, t.format, p, Format) +
            MultipleDiff(s.multipleOf, t.multipleOf, p, ctx) +
            UniqueDiff(s.arrays.uniqueItems, t.arrays.uniqueItems, p)
  {
    assert LowerDiff(s, t, p) == [] && UpperDiff(s, t, p) == [];
    var d := TextDiff(s.pattern, t.pattern, p, Pattern);
    AllButOne([], d);
  }

  lemma OneOfFour(d: seq<Change>, x: seq<Change>, y: seq<Change>, z: seq<Change>)
    requires x == [] && y == [] && z == []
    ensures d + x + y + z == d && x + d + y + z == d && x + y + d + z == d && x + y + z + d == d
  {
  }

  lemma ScalarReport(s: Schema, t: Schema, p: Path, ctx: Context, c: Change)
    requires AlikeBut(s, t) && !ctx.incoming && ScalarsDiff(s, t, p, ctx) == [c]
    ensures Diff(s, t, p, ctx) == [c]
  {
    OnlyScalars(s, t, p, ctx);
    ReportOf(s, t, p, ctx, [c]);
  }

  /** Dropping uniqueItems is one additive change, */
  lemma UniqueMayGo(s: Schema, to: Option<bool>, p: Path, ctx: Context)
    requires s.Dict? && !ctx.incoming && s.arrays.uniqueItems == Some(true) && to != Some(true)
    ensures Diff(s, s.(arrays := s.arrays.(uniqueItems := to)), p, ctx) == [Additive(UniqueItemsDisabled, p)]
  {
    var t := s.(arrays := s.arrays.(uniqueItems := to));
    ScalarParts(s, t, p, ctx);
    ScalarReport(s, t, p, ctx, Additive(UniqueItemsDisabled, p));
  }

  /** and so is dropping a pattern, */
  lemma PatternMayGo(s: Schema, p: Path, ctx: Context)
    requires s.Dict? && !ctx.incoming && s.pattern.Some?
    ensures Diff(s, s.(pattern := None), p, ctx) == [Additive(ConstraintRemoved(Pattern), p)]
  {
    ScalarParts(s, s.(pattern := None), p, ctx);
    OneOfFour([Additive(ConstraintRemoved(Pattern), p)], [], [], []);
    ScalarReport(s, s.(pattern := None), p, ctx, Additive(ConstraintRemoved(Pattern), p));
  }

  /** a format, */
  lemma FormatMayGo(s: Schema, p: Path, ctx: Context)
    requires s.Dict? && !ctx.incoming && s.format.Some?
    ensures Diff(s, s.(format := None), p, ctx) == [Additive(ConstraintRemoved(Format), p)]
  {
    ScalarParts(s, s.(format := None), p, ctx);
    OneOfFour([Additive(ConstraintRemoved(Format), p)], [], [], []);
    ScalarReport(s, s.(format := None), p, ctx, Additive(ConstraintRemoved(Format), p));
  }

  /** or a multipleOf. */
  lemma MultipleMayGo(s: Schema, p: Path, ctx: Context)
    requires s.Dict? && !ctx.incoming && s.multipleOf.Some?
    ensures Diff(s, s.(multipleOf := None), p, ctx) == [Additive(MultipleOfRemoved, p)]
  {
    ScalarParts(s, s.(multipleOf := None), p, ctx);
    OneOfFour([Additive(MultipleOfRemoved, p)], [], [], []);
    ScalarReport(s, s.(multipleOf := None), p, ctx, Additive(MultipleOfRemoved, p));
  }

  /** A multipleOf replaced by a proper divisor is one additive change, and by
      anything that does not divide it a breaking one. */
  lemma MultipleReported(s: Schema, m: Num, p: Path, ctx: Context)
    requires s.Dict? && !ctx.incoming && s.multipleOf.Some?
    requires Val(s.multipleOf.value) > 0.0 && Val(m) > 0.0 && Val(m) != Val(s.multipleOf.value)
    ensures var o := s.multipleOf.value;
            Diff(s, s.(multipleOf := Some(m)), p, ctx) ==
            [Change(!Whole(Val(o) / Val(m)), MultipleOfChanged(o, m), p, false, false)]
  {
    var t, o := s.(multipleOf := Some(m)), s.multipleOf.value;
    var c := Change(!Whole(Val(o) / Val(m)), MultipleOfChanged(o, m), p, false, false);
    NotBothWhole(Val(o), Val(m));
    assert MultipleDiff(s.multipleOf, t.multipleOf, p, ctx) == [c];
    ScalarParts(s, t, p, ctx);
    ScalarReport(s, t, p, ctx, c);
  }

  lemma NotBothWhole(o: real, n: real)
    requires o > 0.0 && n > 0.0 && o != n
    ensures !(Whole(o / n) && Whole(n / o))
  {
    var x, y := o / n, n / o;
    assert x * n == o && y * o == n;
    Inverse(x, y, o, n);
    if o < n {
      BelowOne(x, o, n);
    } else {
      BelowOne(y, n, o);
    }
  }

  lemma Inverse(x: real, y: real, o: real, n: real)
    requires o > 0.0 && n > 0.0 && x * n == o && y * o == n
    ensures x > 0.0 && y > 0.0
  {
    assert x <= 0.0 ==> x * n <= 0.0;
    assert y <= 0.0 ==> y * o <= 0.0;
  }

  lemma BelowOne(x: real, o: real, n: real)
    requires 0.0 < o < n && x * n == o && x > 0.0
    ensures x < 1.0 && !Whole(x)
  {
    assert x >= 1.0 ==> x * n >= n;
  }

  // ---------------------------------------------------- types and values

  /** A value of each kind. */
  function Example(a: Atom): (x: Json)
    ensures AtomOf(x) == a
  {
    match a
    case ANull => Null
    case ABoolean => Bool(true)
    case AInteger => Number(Int(0))
    case ANonInteger => Number(Flt(1, 1))
    case AString => Str("")
    case AArray => Arr([])
    case AObject => Obj(map[])
  }

  predicate NamesSome(t: TypeSpec) { t.TypeList? ==> |t.names| > 0 }

  /** Every value of one type has the other. */
  ghost predicate TypeWithin(b: TypeSpec, a: TypeSpec) { forall x :: TypeOk(b, x) ==> TypeOk(a, x) }

  lemma TypeWithinMeans(b: TypeSpec, a: TypeSpec)
    requires NamesSome(b) && NamesSome(a) && !b.AnyType? && !a.AnyType?
    ensures TypeWithin(b, a) <==> Atoms(b) - Atoms(a) == {}
  {
    if TypeWithin(b, a) {
      forall atom | atom in Atoms(b) ensures atom in Atoms(a) {
        TypeMeaning(b, Example(atom));
        TypeMeaning(a, Example(atom));
        assert TypeOk(b, Example(atom));
      }
    }
    if Atoms(b) - Atoms(a) == {} {
      forall x | TypeOk(b, x) ensures TypeOk(a, x) {
        TypeMeaning(b, x);
        TypeMeaning(a, x);
        assert AtomOf(x) !in Atoms(b) - Atoms(a);
      }
    }
  }

  lemma OneChange(c: Change)
    ensures Clean([c]) <==> !c.breaking
  {
    assert [c][0] == c;
  }

  /** A change of type alone is free of breaking changes exactly when the type
      is dropped or widened, and is reported whenever it admits anything new. */
  lemma TypeReported(s: Schema, types: TypeSpec, p: Path, ctx: Context)
    requires s.Dict? && !ctx.incoming && NamesSome(s.types) && NamesSome(types)
    ensures var d := Diff(s, s.(types := types), p, ctx);
            && (Clean(d) <==> types.AnyType? || (!s.types.AnyType? && TypeWithin(s.types, types)))
            && (d == [] ==> TypeWithin(types, s.types))
  {
    var t := s.(types := types);
    OnlyValues(s, t, p, ctx);
    TypePart(s, types, p, ctx);
    ReportOf(s, t, p, ctx, TypesDiff(s.types, types, p));
    TypesReport(s.types, types, p);
  }

  lemma TypesReport(b: TypeSpec, a: TypeSpec, p: Path)
    requires NamesSome(b) && NamesSome(a)
    ensures var d := TypesDiff(b, a, p);
            && (Clean(d) <==> a.AnyType? || (!b.AnyType? && TypeWithin(b, a)))
            && (d == [] ==> TypeWithin(a, b))
  {
    var d := TypesDiff(b, a, p);
    if d != [] { OneChange(d[0]); }
    if !b.AnyType? && !a.AnyType? {
      TypeWithinMeans(b, a);
      TypeWithinMeans(a, b);
    }
  }

  lemma TypePart(s: Schema, types: TypeSpec, p: Path, ctx: Context)
    requires s.Dict?
    ensures ValuesDiff(s, s.(types := types), p, ctx) == TypesDiff(s.types, types, p)
  {
    var vs := FiniteValues(s.finite);
    if vs.Some? { assert Keys(vs.value) - Keys(vs.value) == {}; }
    AllButOne([], TypesDiff(s.types, types, p));
  }

  /** Every listed value stays listed. */
  ghost predicate ValuesWithin(b: Finite, a: Finite) { forall x :: FiniteOk(b, x) ==> FiniteOk(a, x) }

  /** Some number is in none of finitely many values. */
  lemma {:induction false} OneOutside(keys: set<Json>, n: nat) returns (m: nat)
    ensures m >= n && Number(Int(m)) !in keys
    decreases |keys|
  {
    if Number(Int(n)) in keys {
      m := OneOutside(keys - {Number(Int(n))}, n + 1);
    } else {
      m := n;
    }
  }

  lemma ValuesWithinMeans(b: Finite, a: Finite)
    ensures var prev, next := FiniteValues(b), FiniteValues(a);
            ValuesWithin(b, a) <==>
            next.None? || (prev.Some? && Keys(prev.value) - Keys(next.value) == {})
  {
    var prev, next := FiniteValues(b), FiniteValues(a);
    if next.Some? && prev.None? {
      var m := OneOutside(Keys(next.value), 0);
      FiniteMeaning(b, Number(Int(m)));
      FiniteMeaning(a, Number(Int(m)));
    } else if next.Some? && ValuesWithin(b, a) {
      forall k | k in Keys(prev.value) ensures k in Keys(next.value) {
        var i :| 0 <= i < |prev.value| && Canon(prev.value[i]) == k;
        FiniteMeaning(b, prev.value[i]);
        FiniteMeaning(a, prev.value[i]);
        assert FiniteOk(b, prev.value[i]);
      }
    }
    if next.None? || (prev.Some? && Keys(prev.value) - Keys(next.value) == {}) {
      forall x | FiniteOk(b, x) ensures FiniteOk(a, x) {
        FiniteMeaning(b, x);
        FiniteMeaning(a, x);
        if next.Some? { assert Canon(x) !in Keys(prev.value) - Keys(next.value); }
      }
    }
  }

  lemma FinitePart(s: Schema, finite: Finite, p: Path, ctx: Context)
    requires s.Dict?
    ensures ValuesDiff(s, s.(finite := finite), p, ctx) == FiniteDiff(s.finite, finite, p, ctx)
  {
    assert Atoms(s.types) - Atoms(s.types) == {};
    AllButOne([], FiniteDiff(s.finite, finite, p, ctx));
  }

  lemma FiniteReport(b: Finite, a: Finite, p: Path, ctx: Context)
    requires !ctx.incoming
    ensures var d := FiniteDiff(b, a, p, ctx);
            && (Clean(d) <==> ValuesWithin(b, a)) && (d == [] ==> ValuesWithin(a, b))
  {
    ValuesWithinMeans(b, a);
    ValuesWithinMeans(a, b);
    var d := FiniteDiff(b, a, p, ctx);
    if d != [] { assert Clean(d) ==> !d[0].breaking; }
  }

  /** A change of enum and const alone is free of breaking changes exactly when
      every value admitted stays admitted, and is reported whenever a value is
      newly admitted. */
  lemma ValuesReported(s: Schema, finite: Finite, p: Path, ctx: Context)
    requires s.Dict? && !ctx.incoming
    ensures var d := Diff(s, s.(finite := finite), p, ctx);
            && (Clean(d) <==> ValuesWithin(s.finite, finite)) && (d == [] ==> ValuesWithin(finite, s.finite))
  {
    var t := s.(finite := finite);
    OnlyValues(s, t, p, ctx);
    FinitePart(s, finite, p, ctx);
    ReportOf(s, t, p, ctx, FiniteDiff(s.finite, finite, p, ctx));
    FiniteReport(s.finite, finite, p, ctx);
  }

  // -------------------------------------------------------------- unions

  lemma UnionParts(b: Logic, a: Logic, p: Path, ctx: Context, c: Combinator)
    requires b.negation == a.negation && b.condition == a.condition
    requires b.consequent == a.consequent && b.alternative == a.alternative
    requires (c != AnyOf ==> b.anyOf == a.anyOf) && (c != OneOf ==> b.oneOf == a.oneOf)
    requires c != AllOf ==> b.allOf == a.allOf
    ensures LogicDiff(b, a, p, ctx) ==
            match c
            case AnyOf => CombinatorDiff(AnyOf, b.anyOf, a.anyOf, p, ctx)
            case OneOf => CombinatorDiff(OneOf, b.oneOf, a.oneOf, p, ctx)
            case AllOf => CombinatorDiff(AllOf, b.allOf, a.allOf, p, ctx)
  {
    var d1 := CombinatorDiff(AnyOf, b.anyOf, a.anyOf, p, ctx);
    var d2 := CombinatorDiff(OneOf, b.oneOf, a.oneOf, p, ctx);
    var d3 := CombinatorDiff(AllOf, b.allOf, a.allOf, p, ctx);
    WholesSame(b, a, p, ctx);
    if c != AnyOf { CombinatorSilent(AnyOf, b.anyOf, p, ctx); }
    if c != OneOf { CombinatorSilent(OneOf, b.oneOf, p, ctx); }
    if c != AllOf { CombinatorSilent(AllOf, b.allOf, p, ctx); }
    Nothing(d1 + d2);
    Nothing(d1);
    Nothing(d2);
    Nothing(d3);
  }

  lemma WholesSame(b: Logic, a: Logic, p: Path, ctx: Context)
    requires b.negation == a.negation && b.condition == a.condition
    requires b.consequent == a.consequent && b.alternative == a.alternative
    ensures LogicDiff(b, a, p, ctx) ==
            CombinatorDiff(AnyOf, b.anyOf, a.anyOf, p, ctx) + CombinatorDiff(OneOf, b.oneOf, a.oneOf, p, ctx) +
            CombinatorDiff(AllOf, b.allOf, a.allOf, p, ctx)
  {
    MaybeSelf(ctx.keyed, b.negation);
    MaybeSelf(ctx.keyed, b.condition);
    MaybeSelf(ctx.keyed, b.consequent);
    MaybeSelf(ctx.keyed, b.alternative);
    Nothing(CombinatorDiff(AnyOf, b.anyOf, a.anyOf, p, ctx) + CombinatorDiff(OneOf, b.oneOf, a.oneOf, p, ctx) +
            CombinatorDiff(AllOf, b.allOf, a.allOf, p, ctx));
  }

  /** Branches appended to a union, matched against what was there. */
  lemma {:induction false} AppendedExact(prev: seq<Schema>, more: seq<Schema>, n: nat)
    requires n <= |prev|
    ensures BM.MatchExact(prev, prev + more, n) ==
            BM.Matching(BM.Upto(|prev|) - BM.Upto(n), BM.Upto(|prev| + |more|) - BM.Upto(n), [])
  {
    if n > 0 {
      AppendedExact(prev, more, n - 1);
      var next, free := prev + more, BM.Upto(|prev| + |more|) - BM.Upto(n - 1);
      FirstFree(next, prev[n - 1], free, 0, n - 1);
      assert BM.Upto(n) == BM.Upto(n - 1) + {n - 1};
    } else {
      assert BM.Upto(|prev|) - {} == BM.Upto(|prev|);
    }
  }

  lemma {:induction false} FirstFree(next: seq<Schema>, target: Schema, free: set<nat>, j: nat, i: nat)
    requires j <= i < |next| && i in free && next[i] == target && forall k: nat :: k < i ==> k !in free
    ensures BM.Candidate(next, target, free, j) == Some(i)
    decreases i - j
  {
    if j < i { FirstFree(next, target, free, j + 1, i); }
  }

  lemma AppendedMatch(prev: seq<Schema>, more: seq<Schema>)
    ensures Match(prev, prev + more) ==
            BM.Matching({}, BM.Upto(|prev| + |more|) - BM.Upto(|prev|), [])
  {
    AppendedExact(prev, more, |prev|);
    assert BM.Upto(|prev|) - BM.Upto(|prev|) == {};
    assert multiset(prev + more) == multiset(prev) + multiset(more);
    BM.PureAdditionMatchesAll(prev, prev + more, KeysOf(prev), KeysOf(prev + more));
  }

  /** The new branches of a oneOf exclude every other branch. */
  predicate Exclusive(prev: seq<Schema>, more: seq<Schema>) {
    && (forall i, j :: 0 <= i < |more| && 0 <= j < |prev| ==> Disjoint(more[i], prev[j]))
    && (forall i, j :: 0 <= j < i < |more| ==> Disjoint(more[i], more[j]))
  }

  lemma AppendedReport(c: Combinator, prev: seq<Schema>, more: seq<Schema>, p: Path, ctx: Context)
    requires !ctx.incoming && more != [] && c != AllOf && (c == OneOf ==> Exclusive(prev, more))
    ensures CombinatorDiff(c, AList(prev), AList(prev + more), p, ctx) == [Additive(VariantsAdded(c), p)]
  {
    var next := prev + more;
    AppendedMatch(prev, more);
    var added := Match(prev, next).newLeft;
    assert |prev| in added;
    assert multiset(next) == multiset(prev) + multiset(more);
    if c == OneOf { AppendedDisjoint(prev, more, added); }
    assert PairsDiff(prev, next, [], p + [Name(CombinatorName(c))], ctx) == [];
    assert AddedVariants(c, prev, next, added, p, ctx) == Additive(VariantsAdded(c), p);
  }

  lemma AppendedDisjoint(prev: seq<Schema>, more: seq<Schema>, added: set<nat>)
    requires Exclusive(prev, more) && added == BM.Upto(|prev| + |more|) - BM.Upto(|prev|)
    ensures AdditionsDisjoint(prev, prev + more, added)
  {
    var next := prev + more;
    forall j | j in added && j < |next|
      ensures forall i :: 0 <= i < |prev| ==> Disjoint(next[j], prev[i])
      ensures forall k :: k in added && k < j ==> Disjoint(next[j], next[k])
    {
      assert next[j] == more[j - |prev|];
      forall k | k in added && k < j ensures Disjoint(next[j], next[k]) { assert next[k] == more[k - |prev|]; }
    }
  }

  function WithAnyOf(s: Schema, l: SchemaList): Schema
    requires s.Dict?
  {
    s.(logic := s.logic.(anyOf := l))
  }

  function WithOneOf(s: Schema, l: SchemaList): Schema
    requires s.Dict?
  {
    s.(logic := s.logic.(oneOf := l))
  }

  /** New alternatives of an anyOf are one additive change. */
  lemma AnyOfMayGrow(s: Schema, more: seq<Schema>, p: Path, ctx: Context)
    requires s.Dict? && !ctx.incoming && s.logic.anyOf.AList? && more != []
    ensures Diff(s, WithAnyOf(s, AList(s.logic.anyOf.list + more)), p, ctx) == [Additive(VariantsAdded(AnyOf), p)]
  {
    var t := WithAnyOf(s, AList(s.logic.anyOf.list + more));
    OnlyLogic(s, t, p, ctx);
    UnionParts(s.logic, t.logic, p, ctx, AnyOf);
    AppendedReport(AnyOf, s.logic.anyOf.list, more, p, ctx);
    ReportOf(s, t, p, ctx, [Additive(VariantsAdded(AnyOf), p)]);
  }

  /** So are new alternatives of a oneOf that exclude the others. */
  lemma OneOfMayGrow(s: Schema, more: seq<Schema>, p: Path, ctx: Context)
    requires s.Dict? && !ctx.incoming && s.logic.oneOf.AList? && more != []
    requires Exclusive(s.logic.oneOf.list, more)
    ensures Diff(s, WithOneOf(s, AList(s.logic.oneOf.list + more)), p, ctx) == [Additive(VariantsAdded(OneOf), p)]
  {
    var t := WithOneOf(s, AList(s.logic.oneOf.list + more));
    OnlyLogic(s, t, p, ctx);
    UnionParts(s.logic, t.logic, p, ctx, OneOf);
    AppendedReport(OneOf, s.logic.oneOf.list, more, p, ctx);
    ReportOf(s, t, p, ctx, [Additive(VariantsAdded(OneOf), p)]);
  }

  /** The schema without one of its unions. */
  function WithoutUnion(s: Schema, c: Combinator): Schema
    requires s.Dict?
  {
    match c
    case AnyOf => s.(logic := s.logic.(anyOf := NoList))
    case OneOf => s.(logic := s.logic.(oneOf := NoList))
    case AllOf => s.(logic := s.logic.(allOf := NoList))
  }

  function UnionOf(s: Schema, c: Combinator): SchemaList
    requires s.Dict?
  {
    match c case AnyOf => s.logic.anyOf case OneOf => s.logic.oneOf case AllOf => s.logic.allOf
  }

  /** Dropping a whole union is one additive change. */
  lemma UnionMayGo(s: Schema, c: Combinator, p: Path, ctx: Context)
    requires s.Dict? && !ctx.incoming && UnionOf(s, c).AList?
    ensures Diff(s, WithoutUnion(s, c), p, ctx) == [Additive(CombinatorRemoved(c), p)]
  {
    UnionGoes(s, c, p, ctx);
    ReportOf(s, WithoutUnion(s, c), p, ctx, [Additive(CombinatorRemoved(c), p)]);
  }

  lemma UnionGoes(s: Schema, c: Combinator, p: Path, ctx: Context)
    requires s.Dict? && UnionOf(s, c).AList?
    ensures DictDiff(s, WithoutUnion(s, c), p, ctx) == [Additive(CombinatorRemoved(c), p)]
  {
    var t := WithoutUnion(s, c);
    OnlyLogic(s, t, p, ctx);
    UnionParts(s.logic, t.logic, p, ctx, c);
    RemovedReport(c, UnionOf(s, c), p, ctx);
  }

  lemma RemovedReport(c: Combinator, l: SchemaList, p: Path, ctx: Context)
    requires l.AList?
    ensures CombinatorDiff(c, l, NoList, p, ctx) == [Additive(CombinatorRemoved(c), p)]
  {
  }

  /** Dropping the item schemas is one additive change. */
  lemma ItemsMayGo(s: Schema, p: Path, ctx: Context)
    requires s.Dict? && !ctx.incoming && !s.arrays.items.NoItems?
    ensures Diff(s, s.(arrays := s.arrays.(items := NoItems)), p, ctx) ==
            [Additive(ItemsConstraintRemoved, p + [Name("items")])]
  {
    var t := s.(arrays := s.arrays.(items := NoItems));
    OnlyItems(s, t, p, ctx);
    ReportOf(s, t, p, ctx, [Additive(ItemsConstraintRemoved, p + [Name("items")])]);
  }

  /** Dropping a `not` is one additive change. */
  lemma NotMayGo(s: Schema, p: Path, ctx: Context)
    requires s.Dict? && !ctx.incoming && s.logic.negation.ASchema?
    ensures Diff(s, s.(logic := s.logic.(negation := NoSchema)), p, ctx) == [Additive(ConstraintChanged(Not), p)]
  {
    var t := s.(logic := s.logic.(negation := NoSchema));
    OnlyLogic(s, t, p, ctx);
    NotGoes(s.logic, p, ctx);
    ReportOf(s, t, p, ctx, [Additive(ConstraintChanged(Not), p)]);
  }

  lemma NotGoes(l: Logic, p: Path, ctx: Context)
    requires l.negation.ASchema?
    ensures LogicDiff(l, l.(negation := NoSchema), p, ctx) == [Additive(ConstraintChanged(Not), p)]
  {
    CombinatorSilent(AnyOf, l.anyOf, p, ctx);
    CombinatorSilent(OneOf, l.oneOf, p, ctx);
    CombinatorSilent(AllOf, l.allOf, p, ctx);
    MaybeSelf(ctx.keyed, l.condition);
    MaybeSelf(ctx.keyed, l.consequent);
    MaybeSelf(ctx.keyed, l.alternative);
  }

  // ------------------------------------------------- incoming boundaries

  predicate Lists(f: Finite) { f.values.Some? || f.constant.Some? }

  /** On an incoming boundary new values are additive exactly when reviewed
      evidence names the place, and the report says so. */
  lemma EvidenceOpensValues(s: Schema, finite: Finite, p: Path, ctx: Context)
    requires s.Dict? && ctx.incoming && Lists(s.finite) && Lists(finite)
    requires ValuesWithin(s.finite, finite) && !ValuesWithin(finite, s.finite)
    ensures Diff(s, s.(finite := finite), p, ctx) ==
            [if ctx.fallback(p, false) then Change(false, FiniteValuesAdded, p, true, false)
             else Breaking(IncomingClosedValuesAdded, p)]
  {
    var t := s.(finite := finite);
    var c := if ctx.fallback(p, false) then Change(false, FiniteValuesAdded, p, true, false)
             else Breaking(IncomingClosedValuesAdded, p);
    OnlyValues(s, t, p, ctx);
    FinitePart(s, finite, p, ctx);
    IncomingValues(s.finite, finite, p, ctx, c);
    ReportOf(s, t, p, ctx, [c]);
    HardenKeeps(c, true);
  }

  lemma IncomingValues(b: Finite, a: Finite, p: Path, ctx: Context, c: Change)
    requires ctx.incoming && Lists(b) && Lists(a) && ValuesWithin(b, a) && !ValuesWithin(a, b)
    requires c == if ctx.fallback(p, false) then Change(false, FiniteValuesAdded, p, true, false)
                  else Breaking(IncomingClosedValuesAdded, p)
    ensures FiniteDiff(b, a, p, ctx) == [c]
  {
    ValuesWithinMeans(b, a);
    ValuesWithinMeans(a, b);
    assert FiniteValues(b).Some? && FiniteValues(a).Some?;
  }

  /** The same for new alternatives of an anyOf. */
  lemma EvidenceOpensUnions(s: Schema, more: seq<Schema>, p: Path, ctx: Context)
    requires s.Dict? && ctx.incoming && s.logic.anyOf.AList? && more != []
    ensures Diff(s, WithAnyOf(s, AList(s.logic.anyOf.list + more)), p, ctx) ==
            [if ctx.fallback(p, true) then Change(false, VariantsAdded(AnyOf), p, true, false)
             else Breaking(IncomingClosedUnionVariantsAdded, p)]
  {
    var t := WithAnyOf(s, AList(s.logic.anyOf.list + more));
    var c := if ctx.fallback(p, true) then Change(false, VariantsAdded(AnyOf), p, true, false)
             else Breaking(IncomingClosedUnionVariantsAdded, p);
    OnlyLogic(s, t, p, ctx);
    UnionParts(s.logic, t.logic, p, ctx, AnyOf);
    IncomingAppended(s.logic.anyOf.list, more, p, ctx, c);
    ReportOf(s, t, p, ctx, [c]);
    HardenKeeps(c, true);
  }

  lemma IncomingAppended(prev: seq<Schema>, more: seq<Schema>, p: Path, ctx: Context, c: Change)
    requires ctx.incoming && more != []
    requires c == if ctx.fallback(p, true) then Change(false, VariantsAdded(AnyOf), p, true, false)
                  else Breaking(IncomingClosedUnionVariantsAdded, p)
    ensures CombinatorDiff(AnyOf, AList(prev), AList(prev + more), p, ctx) == [c]
  {
    var next := prev + more;
    AppendedMatch(prev, more);
    var added := Match(prev, next).newLeft;
    assert |prev| in added;
    assert PairsDiff(prev, next, [], p + [Name(CombinatorName(AnyOf))], ctx) == [];
    assert AddedVariants(AnyOf, prev, next, added, p, ctx) == c;
  }

  // ------------------------------------------------------ tagged branches

  /** Objects whose required property `name`, and no other, is fixed to v. */
  predicate TaggedBy(s: Schema, name: string, v: Json) {
    && s.Dict? && !s.types.AnyType? && Atoms(s.types) == {AObject}
    && name in Names(s.objects.required) && name in Props(s.objects.properties)
    && Props(s.objects.properties)[name].Dict?
    && Props(s.objects.properties)[name].finite == Finite(None, Some(v))
    && forall k :: k in Props(s.objects.properties) && k != name ==> Unfixed(s.objects, k)
  }

  predicate Unfixed(o: ObjectRules, k: string)
    requires k in Props(o.properties)
  {
    k !in Names(o.required) || Props(o.properties)[k].Flag? || Props(o.properties)[k].finite == Finite(None, None)
  }

  lemma {:induction false} TagIsFound(s: Schema, name: string, v: Json, names: seq<string>)
    requires TaggedBy(s, name, v) && name in names && forall k :: k in names ==> k in Props(s.objects.properties)
    ensures FirstTag(s.objects, names) == Some(Tag(name, Canon(v)))
  {
    if names[0] != name {
      assert names[0] in names && Unfixed(s.objects, names[0]);
      assert Pinned(s.objects, names[0]).None?;
      assert forall k :: k in names[1..] ==> k in names;
      TagIsFound(s, name, v, names[1..]);
    }
  }

  /** Two object branches with the same tag and different values exclude each
      other, and so may stand in one oneOf. */
  lemma TagsExclude(l: Schema, r: Schema, name: string, v: Json, w: Json)
    requires TaggedBy(l, name, v) && TaggedBy(r, name, w) && !SameJson(v, w)
    ensures Disjoint(l, r)
  {
    SameJsonIsCanon(v, w);
    TagIsFound(l, name, v, NameOrder.Sorted(Props(l.objects.properties).Keys));
    TagIsFound(r, name, w, NameOrder.Sorted(Props(r.objects.properties).Keys));
  }

  /** So may branches of types that share no value. */
  lemma TypesExclude(l: Schema, r: Schema)
    requires l.Dict? && r.Dict? && NamesSome(l.types) && NamesSome(r.types)
    requires !l.types.AnyType? && !r.types.AnyType? && forall x :: !(TypeOk(l.types, x) && TypeOk(r.types, x))
    ensures Disjoint(l, r)
  {
    forall atom | atom in Atoms(l.types) ensures atom !in Atoms(r.types) {
      TypeMeaning(l.types, Example(atom));
      TypeMeaning(r.types, Example(atom));
    }
  }

  // ---------------------------------------------- fewer demands, the rest

  /** Between a boolean schema and any other every difference is reported, and
      as breaking exactly when everything was accepted or nothing is now. */
  lemma BooleanReported(b: Schema, a: Schema, p: Path, ctx: Context)
    requires (b.Flag? || a.Flag?) && !ctx.incoming
    ensures var d := Diff(b, a, p, ctx);
            && (d == [] <==> b == a)
            && (Clean(d) <==> b == a || (b != Flag(true) && a != Flag(false)))
  {
    if b != a { OneChange(FlagDiff(b, a, p, ctx)[0]); }
  }

  function WithTuple(s: Schema, l: seq<Schema>): Schema
    requires s.Dict?
  {
    s.(arrays := s.arrays.(items := Tuple(l)))
  }

  /** Dropping the last positions of a tuple whose further items are free is one
      additive change. */
  lemma TupleMayShrink(s: Schema, keep: seq<Schema>, gone: seq<Schema>, p: Path, ctx: Context)
    requires s.Dict? && !ctx.incoming && s.arrays.items == Tuple(keep + gone) && gone != []
    requires Unrestricted(s.arrays.additionalItems)
    ensures Diff(s, WithTuple(s, keep), p, ctx) == [Additive(TupleConstraintsRemoved, p + [Name("items")])]
  {
    var t, c := WithTuple(s, keep), Additive(TupleConstraintsRemoved, p + [Name("items")]);
    OnlyItems(s, t, p, ctx);
    ShrunkItems(s.arrays, t.arrays, keep, gone, p, ctx);
    ReportOf(s, t, p, ctx, [c]);
  }

  lemma ShrunkItems(b: ArrayRules, a: ArrayRules, keep: seq<Schema>, gone: seq<Schema>, p: Path, ctx: Context)
    requires b.items == Tuple(keep + gone) && a.items == Tuple(keep) && gone != [] && Unrestricted(a.additionalItems)
    ensures ItemsDiff(b, a, p, ctx) == [Additive(TupleConstraintsRemoved, p + [Name("items")])]
  {
    KeptItems(keep, gone, |keep|, p, ctx);
    AllButOne([], [Additive(TupleConstraintsRemoved, p + [Name("items")])]);
  }

  lemma TupleQuiet(prev: seq<Schema>, next: seq<Schema>, n: nat, p: Path, ctx: Context)
    requires n < |prev| && n < |next| && prev[n] == next[n] && TupleDiff(prev, next, n, p, ctx) == []
    ensures TupleDiff(prev, next, n + 1, p, ctx) == []
  {
    Silent(prev[n], p + [Name("items"), Index(n)], ctx);
  }

  lemma {:induction false} KeptItems(keep: seq<Schema>, gone: seq<Schema>, n: nat, p: Path, ctx: Context)
    requires n <= |keep|
    ensures TupleDiff(keep + gone, keep, n, p, ctx) == []
  {
    if n > 0 {
      KeptItems(keep, gone, n - 1, p, ctx);
      TupleQuiet(keep + gone, keep, n - 1, p, ctx);
    }
  }

  /** Branches dropped from the end of a union, matched against what stays. */
  lemma {:induction false} DroppedExact(keep: seq<Schema>, gone: seq<Schema>, n: nat)
    requires n <= |keep + gone|
    ensures BM.MatchExact(keep + gone, keep, n) ==
            var m := if n <= |keep| then n else |keep|;
            BM.Matching(BM.Upto(|keep| + |gone|) - BM.Upto(m), BM.Upto(|keep|) - BM.Upto(m), [])
  {
    if n == 0 {
      assert BM.Upto(|keep| + |gone|) - {} == BM.Upto(|keep| + |gone|);
    } else {
      DroppedExact(keep, gone, n - 1);
      if n <= |keep| {
        FirstFree(keep, (keep + gone)[n - 1], BM.Upto(|keep|) - BM.Upto(n - 1), 0, n - 1);
        assert BM.Upto(n) == BM.Upto(n - 1) + {n - 1};
      } else {
        assert BM.Upto(|keep|) - BM.Upto(|keep|) == {};
      }
    }
  }

  lemma {:induction false} NoneFree<K>(pk: seq<Option<K>>, nk: seq<Option<K>>, n: nat, m: BM.Matching)
    requires n <= |pk| && m.newLeft == {}
    ensures BM.MatchKeys(pk, nk, n, m) == m
  {
    if n > 0 { NoneFree(pk, nk, n - 1, m); }
  }

  lemma {:induction false} NoPosition(n: nat, m: BM.Matching)
    requires m.newLeft == {}
    ensures BM.MatchPositions(n, m) == m
  {
    if n > 0 { NoPosition(n - 1, m); }
  }

  lemma DroppedMatch(keep: seq<Schema>, gone: seq<Schema>)
    ensures Match(keep + gone, keep) == BM.Matching(BM.Upto(|keep| + |gone|) - BM.Upto(|keep|), {}, [])
  {
    var prev := keep + gone;
    DroppedExact(keep, gone, |prev|);
    assert BM.Upto(|keep|) - BM.Upto(|keep|) == {};
    var m := BM.Matching(BM.Upto(|keep| + |gone|) - BM.Upto(|keep|), {}, []);
    NoneFree(KeysOf(prev), KeysOf(keep), |prev|, m);
    NoPosition(|prev|, m);
  }

  function WithAllOf(s: Schema, l: SchemaList): Schema
    requires s.Dict?
  {
    s.(logic := s.logic.(allOf := l))
  }

  /** Dropping conjuncts of an allOf is one additive change. */
  lemma AllOfMayShrink(s: Schema, keep: seq<Schema>, gone: seq<Schema>, p: Path, ctx: Context)
    requires s.Dict? && !ctx.incoming && s.logic.allOf == AList(keep + gone) && gone != []
    ensures Diff(s, WithAllOf(s, AList(keep)), p, ctx) == [Additive(VariantsRemoved(AllOf), p)]
  {
    var t := WithAllOf(s, AList(keep));
    OnlyLogic(s, t, p, ctx);
    UnionParts(s.logic, t.logic, p, ctx, AllOf);
    DroppedReport(keep, gone, p, ctx);
    ReportOf(s, t, p, ctx, [Additive(VariantsRemoved(AllOf), p)]);
  }

  lemma DroppedReport(keep: seq<Schema>, gone: seq<Schema>, p: Path, ctx: Context)
    requires gone != []
    ensures CombinatorDiff(AllOf, AList(keep + gone), AList(keep), p, ctx) == [Additive(VariantsRemoved(AllOf), p)]
  {
    DroppedMatch(keep, gone);
    assert |keep| in Match(keep + gone, keep).oldLeft;
    assert PairsDiff(keep + gone, keep, [], p + [Name("allOf")], ctx) == [];
  }
}
