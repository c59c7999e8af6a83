/**
 compare_named_schemas and compare_combinator of tools/codex_schema.py, as
 functions from two schemas to the list of classified changes they append.
 */
module SchemaDiff {
  import opened Wrappers
  import opened Json
  import opened Schema
  import NameOrder
  import BM = BranchMatching

  datatype Token = Name(s: string) | Index(i: nat)
  type Path = seq<Token>

  datatype Bound =
    | Minimum | ExclusiveMinimum | MinLength | MinItems | MinProperties
    | Maximum | ExclusiveMaximum | MaxLength | MaxItems | MaxProperties

  datatype Combinator = AnyOf | OneOf | AllOf

  datatype Keyword = Pattern | Format | Not | If | Then | Else

  datatype Kind =
    | BooleanSchemaNarrowed | BooleanSchemaWidened
    | TypeNarrowedOrChanged | TypeWidened | TypeNarrowed | TypeConstraintRemoved
    | FiniteValuesRemoved | FiniteValuesAdded | IncomingClosedValuesAdded
    | FiniteConstraintAdded | FiniteConstraintRemoved
    | AdditionalPropertiesNarrowed | AdditionalPropertiesWidened
    | BoundAdded(b: Bound) | BoundRemoved(b: Bound) | BoundNarrowed(b: Bound) | BoundWidened(b: Bound)
    | ConstraintAdded(k: Keyword) | ConstraintRemoved(k: Keyword) | ConstraintChanged(k: Keyword)
    | MultipleOfAdded | MultipleOfRemoved | MultipleOfChanged(before: Num, after: Num)
    | UniqueItemsEnabled | UniqueItemsDisabled
    | PropertyRemoved | RequiredPropertyAdded | OptionalPropertyAdded
    | PropertyBecameRequired | PropertyBecameOptional
    | ItemsConstraintAdded | ItemsConstraintRemoved | ItemsShapeChanged
    | TupleConstraintsRemoved | TupleShortened | TupleConstraintsAdded
    | CombinatorAdded(c: Combinator) | CombinatorRemoved(c: Combinator)
    | VariantsRemoved(c: Combinator) | VariantsAdded(c: Combinator)
    | IncomingClosedUnionVariantsAdded | OneOfVariantUnprovenOrClosed | OneOfExclusivityUnproven
    | UnknownConstraintChanged(name: string)

  /** `evidence` is fallbackEvidence; `hardened` is incomingDirection. */
  datatype Change = Change(breaking: bool, kind: Kind, path: Path, evidence: bool, hardened: bool)

  /** What a comparison is told besides the two schemas. `fallback` is
      open_incoming_fallback: whether reviewed evidence names this path. The
      tool runs with `keyed` false; see EqSchema. */
  datatype Context = Context(incoming: bool, re: Regex, fallback: (Path, bool) -> bool, keyed: bool)

  function Breaking(kind: Kind, path: Path): Change { Change(true, kind, path, false, false) }
  function Additive(kind: Kind, path: Path): Change { Change(false, kind, path, false, false) }

  function If_(cond: bool, c: Change): seq<Change> { if cond then [c] else [] }

  /** No change is classified as breaking. */
  predicate Clean(changes: seq<Change>) {
    forall i :: 0 <= i < |changes| ==> !changes[i].breaking
  }

  // -------------------------------------------------- schema equality
  //
  // Several keywords are compared whole. With `keyed` false this is Python's
  // ==, as the tool compares them; with `keyed` true constants are compared by
  // their JSON keys and multipleOf as the validator reads it. Annotations and
  // unknown keywords, which no validator reads, are compared by == in both.

  predicate EqJson(keyed: bool, v: Json, w: Json) {
    if keyed then Canon(v) == Canon(w) else PyEq(v, w)
  }

  predicate EqMaybe(keyed: bool, m: MaybeSchema, n: MaybeSchema) {
    m.ASchema? == n.ASchema? && (m.ASchema? ==> EqSchema(keyed, m.schema, n.schema))
  }
  predicate EqSeq(keyed: bool, l: seq<Schema>, k: seq<Schema>) {
    |l| == |k| && forall i :: 0 <= i < |l| ==> EqSchema(keyed, l[i], k[i])
  }
  predicate EqList(keyed: bool, l: SchemaList, k: SchemaList) {
    l.AList? == k.AList? && (l.AList? ==> EqSeq(keyed, l.list, k.list))
  }
  predicate EqMap(keyed: bool, m: SchemaMap, n: SchemaMap) {
    m.AMap? == n.AMap? &&
    (m.AMap? ==>
       m.map_.Keys == n.map_.Keys && forall k :: k in m.map_ ==> EqSchema(keyed, m.map_[k], n.map_[k]))
  }
  predicate EqItems(keyed: bool, m: Items, n: Items) {
    match (m, n)
    case (NoItems, NoItems) => true
    case (Each(s), Each(t)) => EqSchema(keyed, s, t)
    case (Tuple(l), Tuple(k)) => EqSeq(keyed, l, k)
    case _ => false
  }
  predicate EqDependencies(keyed: bool, m: Dependencies, n: Dependencies) {
    m.SomeDependencies? == n.SomeDependencies? &&
    (m.SomeDependencies? ==>
       && m.map_.Keys == n.map_.Keys
       && forall k :: k in m.map_ ==> EqDependency(keyed, m.map_[k], n.map_[k]))
  }
  predicate EqDependency(keyed: bool, d: Dependency, e: Dependency) {
    match (d, e)
    case (NeedsNames(a), NeedsNames(b)) => a == b
    case (NeedsSchema(s), NeedsSchema(t)) => EqSchema(keyed, s, t)
    case _ => false
  }
  predicate EqNum(x: Option<Num>, y: Option<Num>) {
    x.Some? == y.Some? && (x.Some? ==> Val(x.value) == Val(y.value))
  }

  /** Multiples of x and of y are the same numbers, given equal values: the
      validator takes an exact remainder only between two integers. */
  predicate SameMultiple(x: Num, y: Num) {
    x.Int? == y.Int? || Val(x) < FINE
  }
  predicate EqMultiple(keyed: bool, x: Option<Num>, y: Option<Num>) {
    EqNum(x, y) && (keyed && x.Some? ==> SameMultiple(x.value, y.value))
  }
  predicate EqFinite(keyed: bool, f: Finite, g: Finite) {
    && f.values.Some? == g.values.Some? && f.constant.Some? == g.constant.Some?
    && (f.constant.Some? ==> EqJson(keyed, f.constant.value, g.constant.value))
    && (f.values.Some? ==> EqJson(keyed, Arr(f.values.value), Arr(g.values.value)))
  }
  predicate EqRange(r: Range, q: Range) {
    && EqNum(r.minimum, q.minimum) && EqNum(r.maximum, q.maximum)
    && EqNum(r.exclusiveMinimum, q.exclusiveMinimum) && EqNum(r.exclusiveMaximum, q.exclusiveMaximum)
  }
  predicate EqScalars(keyed: bool, s: Schema, t: Schema)
    requires s.Dict? && t.Dict?
  {
    && s.types == t.types && EqFinite(keyed, s.finite, t.finite) && s.sizes == t.sizes
    && EqRange(s.range, t.range) && EqMultiple(keyed, s.multipleOf, t.multipleOf)
    && s.pattern == t.pattern && s.format == t.format
    && s.arrays.uniqueItems == t.arrays.uniqueItems
    && PyEq(Obj(s.inert), Obj(t.inert)) && PyEq(Obj(s.notes), Obj(t.notes))
  }
  predicate EqObjects(keyed: bool, o: ObjectRules, q: ObjectRules) {
    && EqMap(keyed, o.properties, q.properties) && o.required == q.required
    && EqMaybe(keyed, o.additional, q.additional) && EqMap(keyed, o.patterns, q.patterns)
    && EqDependencies(keyed, o.dependencies, q.dependencies)
  }
  predicate EqArrays(keyed: bool, a: ArrayRules, b: ArrayRules) {
    EqItems(keyed, a.items, b.items) && EqMaybe(keyed, a.additionalItems, b.additionalItems)
    && EqMaybe(keyed, a.contains, b.contains)
  }
  predicate EqLogic(keyed: bool, l: Logic, k: Logic) {
    && EqList(keyed, l.allOf, k.allOf) && EqList(keyed, l.anyOf, k.anyOf) && EqList(keyed, l.oneOf, k.oneOf)
    && EqMaybe(keyed, l.negation, k.negation) && EqMaybe(keyed, l.condition, k.condition)
    && EqMaybe(keyed, l.consequent, k.consequent) && EqMaybe(keyed, l.alternative, k.alternative)
  }

  /** Equality of two schemas as parsed JSON. */
  predicate EqSchema(keyed: bool, s: Schema, t: Schema) {
    match (s, t)
    case (Flag(a), Flag(b)) => a == b
    case (Dict(_, _, _, _, _, _, _, o, a, l, _, _), Dict(_, _, _, _, _, _, _, q, b, k, _, _)) =>
      EqScalars(keyed, s, t) && EqObjects(keyed, o, q) && EqArrays(keyed, a, b) && EqLogic(keyed, l, k)
    case _ => false
  }

  // ------------------------------------------------------- scalar changes

  datatype Atom = ANull | ABoolean | AInteger | ANonInteger | AString | AArray | AObject

  function AtomsOf(t: TypeName): set<Atom> {
    match t
    case TNull => {ANull}
    case TBoolean => {ABoolean}
    case TInteger => {AInteger}
    case TNumber => {AInteger, ANonInteger}
    case TString => {AString}
    case TArray => {AArray}
    case TObject => {AObject}
  }

  /** type_atoms(schema_types(s)); meaningful when a type is given. */
  function Atoms(t: TypeSpec): set<Atom> {
    match t
    case AnyType => {}
    case OneType(n) => AtomsOf(n)
    case TypeList(ns) => set i, a | 0 <= i < |ns| && a in AtomsOf(ns[i]) :: a
  }

  function TypesDiff(b: TypeSpec, a: TypeSpec, p: Path): seq<Change> {
    if !b.AnyType? && !a.AnyType? then
      if Atoms(b) - Atoms(a) != {} then [Breaking(TypeNarrowedOrChanged, p)]
      else If_(Atoms(a) - Atoms(b) != {}, Additive(TypeWidened, p))
    else if !a.AnyType? then [Breaking(TypeNarrowed, p)]
    else If_(!b.AnyType?, Additive(TypeConstraintRemoved, p))
  }

  /** finite_values: the values enum and const leave possible. */
  function FiniteValues(f: Finite): Option<seq<Json>> {
    if f.constant.None? then f.values
    else if f.values.None? then Some([f.constant.value])
    else if exists i :: 0 <= i < |f.values.value| && Canon(f.values.value[i]) == Canon(f.constant.value)
    then Some([f.constant.value])
    else Some([])
  }

  function Keys(vs: seq<Json>): set<Json> { set i | 0 <= i < |vs| :: Canon(vs[i]) }

  function FiniteDiff(b: Finite, a: Finite, p: Path, ctx: Context): seq<Change> {
    var prev, next := FiniteValues(b), FiniteValues(a);
    if prev.Some? && next.Some? then
      var fallback := ctx.incoming && ctx.fallback(p, false);
      If_(Keys(prev.value) - Keys(next.value) != {}, Breaking(FiniteValuesRemoved, p)) +
      If_(Keys(next.value) - Keys(prev.value) != {},
          if ctx.incoming && !fallback then Breaking(IncomingClosedValuesAdded, p)
          else Change(false, FiniteValuesAdded, p, fallback, false))
    else If_(next.Some?, Breaking(FiniteConstraintAdded, p)) +
         If_(prev.Some?, Additive(FiniteConstraintRemoved, p))
  }

  function AsReal(n: Option<nat>): Option<real> { if n.Some? then Some(n.value as real) else None }
  function NumReal(n: Option<Num>): Option<real> { if n.Some? then Some(Val(n.value)) else None }

  function BoundDiff(prev: Option<real>, next: Option<real>, p: Path, b: Bound, minimum: bool): seq<Change> {
    if prev.None? && next.None? then []
    else if prev.None? then [Breaking(BoundAdded(b), p)]
    else if next.None? then [Additive(BoundRemoved(b), p)]
    else if prev == next then []
    else if (if minimum then next.value > prev.value else next.value < prev.value)
    then [Breaking(BoundNarrowed(b), p)]
    else [Additive(BoundWidened(b), p)]
  }

  function LowerDiff(b: Schema, a: Schema, p: Path): seq<Change>
    requires b.Dict? && a.Dict?
  {
    BoundDiff(NumReal(b.range.minimum), NumReal(a.range.minimum), p, Minimum, true) +
    BoundDiff(NumReal(b.range.exclusiveMinimum), NumReal(a.range.exclusiveMinimum), p, ExclusiveMinimum, true) +
    BoundDiff(AsReal(b.sizes.minLength), AsReal(a.sizes.minLength), p, MinLength, true) +
    BoundDiff(AsReal(b.sizes.minItems), AsReal(a.sizes.minItems), p, MinItems, true) +
    BoundDiff(AsReal(b.sizes.minProperties), AsReal(a.sizes.minProperties), p, MinProperties, true)
  }

  function UpperDiff(b: Schema, a: Schema, p: Path): seq<Change>
    requires b.Dict? && a.Dict?
  {
    BoundDiff(NumReal(b.range.maximum), NumReal(a.range.maximum), p, Maximum, false) +
    BoundDiff(NumReal(b.range.exclusiveMaximum), NumReal(a.range.exclusiveMaximum), p, ExclusiveMaximum, false) +
    BoundDiff(AsReal(b.sizes.maxLength), AsReal(a.sizes.maxLength), p, MaxLength, false) +
    BoundDiff(AsReal(b.sizes.maxItems), AsReal(a.sizes.maxItems), p, MaxItems, false) +
    BoundDiff(AsReal(b.sizes.maxProperties), AsReal(a.sizes.maxProperties), p, MaxProperties, false)
  }

  function TextDiff(prev: Option<string>, next: Option<string>, p: Path, k: Keyword): seq<Change> {
    if prev == next then []
    else if prev.None? then [Breaking(ConstraintAdded(k), p)]
    else if next.None? then [Additive(ConstraintRemoved(k), p)]
    else [Breaking(ConstraintChanged(k), p)]
  }

  predicate Whole(q: real) { q.Floor as real == q }

  function MultipleDiff(prev: Option<Num>, next: Option<Num>, p: Path, ctx: Context): seq<Change> {
    if EqMultiple(ctx.keyed, prev, next) then []
    else if prev.None? then [Breaking(MultipleOfAdded, p)]
    else if next.None? then [Additive(MultipleOfRemoved, p)]
    else
      var o, n := Val(prev.value), Val(next.value);
      var widened := o > 0.0 && n > 0.0 && Whole(o / n) && !Whole(n / o);
      [Change(!widened, MultipleOfChanged(prev.value, next.value), p, false, false)]
  }

  function UniqueDiff(prev: Option<bool>, next: Option<bool>, p: Path): seq<Change> {
    var o, n := prev == Some(true), next == Some(true);
    if o == n then [] else if n then [Breaking(UniqueItemsEnabled, p)] else [Additive(UniqueItemsDisabled, p)]
  }

  /** The keywords compared before additionalProperties. */
  function ValuesDiff(b: Schema, a: Schema, p: Path, ctx: Context): seq<Change>
    requires b.Dict? && a.Dict?
  {
    TypesDiff(b.types, a.types, p) + FiniteDiff(b.finite, a.finite, p, ctx)
  }

  /** The keywords compared after it. */
  function ScalarsDiff(b: Schema, a: Schema, p: Path, ctx: Context): seq<Change>
    requires b.Dict? && a.Dict?
  {
    LowerDiff(b, a, p) + UpperDiff(b, a, p) +
    TextDiff(b.pattern, a.pattern, p, Pattern) + TextDiff(b.format, a.format, p, Format) +
    MultipleDiff(b.multipleOf, a.multipleOf, p, ctx) +
    UniqueDiff(b.arrays.uniqueItems, a.arrays.uniqueItems, p)
  }

  // -------------------------------------------------------- object changes

  function Effective(m: MaybeSchema): Schema { if m.ASchema? then m.schema else Flag(true) }

  const EMPTY: Schema := Dict(
    AnyType, Finite(None, None), Sizes(None, None, None, None, None, None), Range(None, None, None, None),
    None, None, None, ObjectRules(NoMap, None, NoSchema, NoMap, NoDependencies),
    ArrayRules(NoItems, NoSchema, NoSchema, None),
    Logic(NoList, NoList, NoList, NoSchema, NoSchema, NoSchema, NoSchema), map[], map[])

  /** optional_property_addition_is_additive */
  predicate AdditionIsAdditive(b: ObjectRules, name: string, child: Schema, re: Regex) {
    || child == Flag(true) || child == EMPTY
    || (&& !MatchesPattern(b.patterns, name, re)
        && var prev := Effective(b.additional);
           prev == Flag(false) || (prev.Dict? && child.Dict? && prev == child))
  }

  function AdditionalDiff(b: ObjectRules, a: ObjectRules, p: Path, ctx: Context): seq<Change>
    decreases b, 0
  {
    var prev, next := Effective(b.additional), Effective(a.additional);
    if EqSchema(ctx.keyed, prev, next) then []
    else if prev == Flag(true) then [Breaking(AdditionalPropertiesNarrowed, p)]
    else if next == Flag(true) then [Additive(AdditionalPropertiesWidened, p)]
    else if prev == Flag(false) then [Additive(AdditionalPropertiesWidened, p)]
    else if next == Flag(false) then [Breaking(AdditionalPropertiesNarrowed, p)]
    else if b.additional.ASchema? then
      Diff(b.additional.schema, next, p + [Name("additionalProperties")], ctx)
    else []
  }

  function At(p: Path, group: string, name: string): Path { p + [Name(group), Name(name)] }

  function AddedProperty(b: ObjectRules, a: ObjectRules, name: string, p: Path, ctx: Context): Change
    requires name in Props(a.properties)
  {
    var required := name in Names(a.required);
    Change(required || !AdditionIsAdditive(b, name, Props(a.properties)[name], ctx.re),
           if required then RequiredPropertyAdded else OptionalPropertyAdded,
           At(p, "properties", name), false, false)
  }

  function AddedProperties(b: ObjectRules, a: ObjectRules, names: seq<string>, p: Path, ctx: Context): seq<Change>
    requires forall k :: k in names ==> k in Props(a.properties)
  {
    seq(|names|, i requires 0 <= i < |names| => AddedProperty(b, a, names[i], p, ctx))
  }

  function SharedProperties(b: ObjectRules, a: ObjectRules, names: seq<string>, p: Path, ctx: Context): seq<Change>
    requires forall k :: k in names ==> k in Props(b.properties) && k in Props(a.properties)
    decreases b, |names|
  {
    if names == [] then []
    else
      (assert names[0] in names && names[0] in Props(b.properties) && names[0] in Props(a.properties);
       Diff(b.properties.map_[names[0]], a.properties.map_[names[0]], At(p, "properties", names[0]), ctx)) +
      SharedProperties(b, a, names[1..], p, ctx)
  }

  /** One change per name, in order. */
  function ForNames(names: seq<string>, breaking: bool, kind: Kind, p: Path): seq<Change> {
    seq(|names|, i requires 0 <= i < |names| => Change(breaking, kind, At(p, "properties", names[i]), false, false))
  }

  function NewlyRequired(b: ObjectRules, a: ObjectRules): set<string> {
    Names(a.required) - Names(b.required) - (Props(a.properties).Keys - Props(b.properties).Keys)
  }

  function RequiredDiff(b: ObjectRules, a: ObjectRules, p: Path): seq<Change> {
    ForNames(NameOrder.Sorted(NewlyRequired(b, a)), true, PropertyBecameRequired, p) +
    ForNames(NameOrder.Sorted(Names(b.required) - Names(a.required)), false, PropertyBecameOptional, p)
  }

  function PropertiesDiff(b: ObjectRules, a: ObjectRules, p: Path, ctx: Context): seq<Change>
    decreases b, |Props(b.properties)| + 1
  {
    var prev, next := Props(b.properties).Keys, Props(a.properties).Keys;
    ForNames(NameOrder.Sorted(prev - next), true, PropertyRemoved, p) +
    AddedProperties(b, a, NameOrder.Sorted(next - prev), p, ctx) +
    SharedProperties(b, a, SharedNames(b, a), p, ctx) +
    RequiredDiff(b, a, p)
  }

  function SharedNames(b: ObjectRules, a: ObjectRules): (r: seq<string>)
    ensures |r| <= |Props(b.properties)|
    ensures forall k :: k in r <==> k in Props(b.properties) && k in Props(a.properties)
  {
    var prev, next := Props(b.properties).Keys, Props(a.properties).Keys;
    var both := set k | k in prev && k in next;
    assert both <= prev;
    SubsetSize(both, prev);
    NameOrder.Sorted(both)
  }

  lemma {:induction false} SubsetSize<T>(s: set<T>, t: set<T>)
    requires s <= t
    ensures |s| <= |t|
  {
    if s != {} {
      var x :| x in s;
      SubsetSize(s - {x}, t - {x});
    }
  }

  // --------------------------------------------------------- array changes

  function TupleDiff(prev: seq<Schema>, next: seq<Schema>, n: nat, p: Path, ctx: Context): seq<Change>
    requires n <= |prev| && n <= |next|
    decreases prev, n
  {
    if n == 0 then []
    else TupleDiff(prev, next, n - 1, p, ctx) +
         Diff(prev[n - 1], next[n - 1], p + [Name("items"), Index(n - 1)], ctx)
  }

  predicate Unrestricted(m: MaybeSchema) {
    Effective(m) == Flag(true) || Effective(m) == EMPTY
  }

  function ItemsDiff(b: ArrayRules, a: ArrayRules, p: Path, ctx: Context): seq<Change>
    decreases b, 0
  {
    var at := p + [Name("items")];
    match (b.items, a.items)
    case (NoItems, NoItems) => []
    case (Each(s), Each(t)) => Diff(s, t, at, ctx)
    case (Tuple(prev), Tuple(next)) =>
      var shared := if |prev| <= |next| then |prev| else |next|;
      TupleDiff(prev, next, shared, p, ctx) +
      If_(|prev| > shared,
          if Unrestricted(a.additionalItems) then Additive(TupleConstraintsRemoved, at)
          else Breaking(TupleShortened, at)) +
      If_(|next| > shared, Breaking(TupleConstraintsAdded, at))
    case (NoItems, _) => [Breaking(ItemsConstraintAdded, at)]
    case (_, NoItems) => [Additive(ItemsConstraintRemoved, at)]
    case _ => [Breaking(ItemsShapeChanged, at)]
  }

  // --------------------------------------------------- branch matching

  datatype BranchKey = Tag(name: string, value: Json) | TypeKey(atom: Atom)

  /** The single value a required property is pinned to. */
  function Pinned(o: ObjectRules, name: string): Option<Json> {
    if name in Names(o.required) && name in Props(o.properties) && Props(o.properties)[name].Dict? then
      var vs := FiniteValues(Props(o.properties)[name].finite);
      if vs.Some? && |vs.value| == 1 then Some(Canon(vs.value[0])) else None
    else None
  }

  function FirstTag(o: ObjectRules, names: seq<string>): Option<BranchKey> {
    if names == [] then None
    else if Pinned(o, names[0]).Some? then Some(Tag(names[0], Pinned(o, names[0]).value))
    else FirstTag(o, names[1..])
  }

  function TheAtom(s: set<Atom>): (a: Atom)
    requires |s| == 1
    ensures s == {a}
  {
    BM.SingletonUnique(s);
    var a :| a in s;
    assert s == {a};
    a
  }

  /** branch_key */
  function KeyOf(s: Schema): Option<BranchKey> {
    if s.Flag? then None
    else
      var tag := FirstTag(s.objects, NameOrder.Sorted(Props(s.objects.properties).Keys));
      if tag.Some? then tag
      else if !s.types.AnyType? && |Atoms(s.types)| == 1 then Some(TypeKey(TheAtom(Atoms(s.types))))
      else None
  }

  function KeysOf(l: seq<Schema>): seq<Option<BranchKey>> {
    seq(|l|, i requires 0 <= i < |l| => KeyOf(l[i]))
  }

  predicate DifferentTags(k: BranchKey, l: BranchKey) {
    k.Tag? && l.Tag? && k.name == l.name && k.value != l.value
  }

  /** branches_provably_disjoint */
  predicate Disjoint(l: Schema, r: Schema) {
    l.Dict? && r.Dict? && !l.types.AnyType? && !r.types.AnyType? &&
    (|| Atoms(l.types) !! Atoms(r.types)
     || (&& Atoms(l.types) == {AObject} && Atoms(r.types) == {AObject}
         && KeyOf(l).Some? && KeyOf(r).Some? && DifferentTags(KeyOf(l).value, KeyOf(r).value)))
  }

  function Match(prev: seq<Schema>, next: seq<Schema>): (m: BM.Matching)
    ensures BM.Accounted(m, prev, next)
    ensures |m.pairs| <= 2 * |prev|
  {
    BM.MatchAccounted(prev, next, KeysOf(prev), KeysOf(next));
    BM.Match(prev, next, KeysOf(prev), KeysOf(next))
  }

  // ------------------------------------------------ combinator changes

  function CombinatorName(c: Combinator): string {
    match c case AnyOf => "anyOf" case OneOf => "oneOf" case AllOf => "allOf"
  }

  function PairsDiff(prev: seq<Schema>, next: seq<Schema>, pairs: seq<(nat, nat)>, p: Path, ctx: Context): seq<Change>
    requires BM.InRange(pairs, |prev|, |next|)
    decreases prev, |pairs|
  {
    if pairs == [] then []
    else
      var last := pairs[|pairs| - 1];
      PairsDiff(prev, next, pairs[..|pairs| - 1], p, ctx) +
      Diff(prev[last.0], next[last.1], p + [Index(last.1)], ctx)
  }

  /** Every added oneOf branch is disjoint from all old ones and from the
      additions before it. */
  predicate AdditionsDisjoint(prev: seq<Schema>, next: seq<Schema>, added: set<nat>) {
    forall j :: j in added && j < |next| ==>
      && (forall i :: 0 <= i < |prev| ==> Disjoint(next[j], prev[i]))
      && (forall k :: k in added && k < j ==> Disjoint(next[j], next[k]))
  }

  function AddedVariants(
      c: Combinator, prev: seq<Schema>, next: seq<Schema>, added: set<nat>, p: Path, ctx: Context): Change {
    var fallback := ctx.incoming && ctx.fallback(p, true);
    match c
    case AllOf => Breaking(VariantsAdded(AllOf), p)
    case AnyOf =>
      if ctx.incoming && !fallback then Breaking(IncomingClosedUnionVariantsAdded, p)
      else Change(false, VariantsAdded(AnyOf), p, fallback, false)
    case OneOf =>
      if AdditionsDisjoint(prev, next, added) && (!ctx.incoming || fallback)
      then Change(false, VariantsAdded(OneOf), p, fallback, false)
      else Breaking(OneOfVariantUnprovenOrClosed, p)
  }

  /** The branches are the same multiset, or new ones were only added. */
  predicate SameOrPureAddition(prev: seq<Schema>, next: seq<Schema>) {
    multiset(prev) == multiset(next) || (|next| > |prev| && multiset(prev) <= multiset(next))
  }

  function VariantsDiff(c: Combinator, prev: seq<Schema>, next: seq<Schema>, p: Path, ctx: Context): seq<Change>
    decreases prev, 2 * |prev| + 1
  {
    var m := Match(prev, next);
    var found :=
      PairsDiff(prev, next, m.pairs, p + [Name(CombinatorName(c))], ctx) +
      If_(m.oldLeft != {}, Change(c != AllOf, VariantsRemoved(c), p, false, false)) +
      If_(m.newLeft != {}, AddedVariants(c, prev, next, m.newLeft, p, ctx));
    found +
    If_(c == OneOf && !SameOrPureAddition(prev, next) && Clean(found), Breaking(OneOfExclusivityUnproven, p))
  }

  function CombinatorDiff(c: Combinator, b: SchemaList, a: SchemaList, p: Path, ctx: Context): seq<Change>
    decreases b
  {
    if b.NoList? && a.NoList? then []
    else if b.NoList? then [Breaking(CombinatorAdded(c), p)]
    else if a.NoList? then [Additive(CombinatorRemoved(c), p)]
    else VariantsDiff(c, b.list, a.list, p, ctx)
  }

  // ------------------------------------- nested comparisons are contiguous

  lemma Assoc(a: seq<Change>, b: seq<Change>, c: seq<Change>)
    ensures (a + b) + c == a + (b + c)
  {}

  lemma Nothing(a: seq<Change>)
    ensures a + [] == a && [] + a == a
  {}

  lemma {:induction false} PairsContain(
      prev: seq<Schema>, next: seq<Schema>, pairs: seq<(nat, nat)>, p: Path, ctx: Context, k: nat)
    returns (l: seq<Change>, d: seq<Change>, r: seq<Change>)
    requires BM.InRange(pairs, |prev|, |next|) && k < |pairs|
    ensures PairsDiff(prev, next, pairs, p, ctx) == (l + d) + r
    ensures d == Diff(prev[pairs[k].0], next[pairs[k].1], p + [Index(pairs[k].1)], ctx)
  {
    var n := |pairs| - 1;
    var x, y := pairs[n].0, pairs[n].1;
    var last := Diff(prev[x], next[y], p + [Index(y)], ctx);
    assert PairsDiff(prev, next, pairs, p, ctx) == PairsDiff(prev, next, pairs[..n], p, ctx) + last;
    if k < n {
      assert pairs[..n][k] == pairs[k];
      l, d, r := PairsContain(prev, next, pairs[..n], p, ctx, k);
      Assoc(l + d, r, last);
      r := r + last;
    } else {
      l, d, r := PairsDiff(prev, next, pairs[..n], p, ctx), last, [];
      Nothing(l + d);
    }
  }

  lemma {:induction false} TupleContains(prev: seq<Schema>, next: seq<Schema>, n: nat, p: Path, ctx: Context, i: nat)
    returns (l: seq<Change>, d: seq<Change>, r: seq<Change>)
    requires i < n <= |prev| && n <= |next|
    ensures TupleDiff(prev, next, n, p, ctx) == (l + d) + r
    ensures d == Diff(prev[i], next[i], p + [Name("items"), Index(i)], ctx)
  {
    var last := Diff(prev[n - 1], next[n - 1], p + [Name("items"), Index(n - 1)], ctx);
    if i < n - 1 {
      l, d, r := TupleContains(prev, next, n - 1, p, ctx, i);
      Assoc(l + d, r, last);
      r := r + last;
    } else {
      l, d, r := TupleDiff(prev, next, n - 1, p, ctx), last, [];
      Nothing(l + d);
    }
  }

  lemma {:induction false} SharedContains(
      b: ObjectRules, a: ObjectRules, names: seq<string>, p: Path, ctx: Context, key: string)
    returns (l: seq<Change>, d: seq<Change>, r: seq<Change>)
    requires forall k :: k in names ==> k in Props(b.properties) && k in Props(a.properties)
    requires key in names
    ensures key in Props(b.properties) && key in Props(a.properties)
    ensures SharedProperties(b, a, names, p, ctx) == (l + d) + r
    ensures d == Diff(b.properties.map_[key], a.properties.map_[key], At(p, "properties", key), ctx)
  {
    var n := names[0];
    assert n in Props(b.properties) && n in Props(a.properties);
    var first := Diff(b.properties.map_[n], a.properties.map_[n], At(p, "properties", n), ctx);
    if key == n {
      l, d, r := [], first, SharedProperties(b, a, names[1..], p, ctx);
      Nothing(d);
    } else {
      l, d, r := SharedContains(b, a, names[1..], p, ctx, key);
      Assoc(first, l + d, r);
      Assoc(first, l, d);
      l := first + l;
    }
  }

  // ---------------------------------------------- keywords compared whole

  function WholeDiff(b: MaybeSchema, a: MaybeSchema, p: Path, k: Keyword, ctx: Context): seq<Change> {
    if EqMaybe(ctx.keyed, b, a) then []
    else [Change(!(k == Not && b.ASchema? && a.NoSchema?), ConstraintChanged(k), p, false, false)]
  }

  function InertValue(m: map<string, Json>, k: string): Json { if k in m then m[k] else Null }

  /** Keywords the validator reads and the comparison only compares whole. */
  datatype Unhandled = Patterns | Needs | MoreItems | Containing

  function NameOf(k: Unhandled): (name: string)
    ensures |name| == (match k case Patterns => 17 case Needs => 12 case MoreItems => 15 case Containing => 8)
  {
    match k
    case Patterns => "patternProperties"
    case Needs => "dependencies"
    case MoreItems => "additionalItems"
    case Containing => "contains"
  }

  function UnhandledOf(name: string): Option<Unhandled> {
    if name == NameOf(Patterns) then Some(Patterns)
    else if name == NameOf(Needs) then Some(Needs)
    else if name == NameOf(MoreItems) then Some(MoreItems)
    else if name == NameOf(Containing) then Some(Containing)
    else None
  }

  lemma NamesDiffer(k: Unhandled)
    ensures UnhandledOf(NameOf(k)) == Some(k)
  {
  }

  predicate Same(b: Schema, a: Schema, k: Unhandled, ctx: Context)
    requires b.Dict? && a.Dict?
  {
    match k
    case Patterns => EqMap(ctx.keyed, b.objects.patterns, a.objects.patterns)
    case Needs => EqDependencies(ctx.keyed, b.objects.dependencies, a.objects.dependencies)
    case MoreItems => EqMaybe(ctx.keyed, b.arrays.additionalItems, a.arrays.additionalItems)
    case Containing => EqMaybe(ctx.keyed, b.arrays.contains, a.arrays.contains)
  }

  /** The keyword differs, for one that no branch above handles. */
  predicate UnknownDiffers(b: Schema, a: Schema, name: string, ctx: Context)
    requires b.Dict? && a.Dict?
  {
    match UnhandledOf(name)
    case Some(k) => !Same(b, a, k, ctx)
    case None => !PyEq(InertValue(b.inert, name), InertValue(a.inert, name))
  }

  function UnknownNames(b: Schema, a: Schema): set<string>
    requires b.Dict? && a.Dict?
  {
    {NameOf(Patterns), NameOf(Needs), NameOf(MoreItems), NameOf(Containing)} + b.inert.Keys + a.inert.Keys
  }

  function UnknownFrom(b: Schema, a: Schema, names: seq<string>, p: Path, ctx: Context): seq<Change>
    requires b.Dict? && a.Dict?
  {
    if names == [] then []
    else
      If_(UnknownDiffers(b, a, names[0], ctx), Breaking(UnknownConstraintChanged(names[0]), p + [Name(names[0])])) +
      UnknownFrom(b, a, names[1..], p, ctx)
  }

  function UnknownDiff(b: Schema, a: Schema, p: Path, ctx: Context): seq<Change>
    requires b.Dict? && a.Dict?
  {
    UnknownFrom(b, a, NameOrder.Sorted(UnknownNames(b, a)), p, ctx)
  }

  function LogicDiff(b: Logic, a: Logic, p: Path, ctx: Context): seq<Change>
    decreases b
  {
    CombinatorDiff(AnyOf, b.anyOf, a.anyOf, p, ctx) +
    CombinatorDiff(OneOf, b.oneOf, a.oneOf, p, ctx) +
    CombinatorDiff(AllOf, b.allOf, a.allOf, p, ctx) +
    WholeDiff(b.negation, a.negation, p, Not, ctx) + WholeDiff(b.condition, a.condition, p, If, ctx) +
    WholeDiff(b.consequent, a.consequent, p, Then, ctx) + WholeDiff(b.alternative, a.alternative, p, Else, ctx)
  }

  // --------------------------------------------------------- whole schemas

  /** On an incoming boundary only declared-property additions and evidenced
      openings stay additive. */
  function HardenOne(c: Change): Change {
    if c.breaking || c.kind == OptionalPropertyAdded || c.evidence then c
    else c.(breaking := true, hardened := true)
  }

  function Harden(cs: seq<Change>, incoming: bool): seq<Change> {
    if incoming then seq(|cs|, i requires 0 <= i < |cs| => HardenOne(cs[i])) else cs
  }

  function FlagDiff(b: Schema, a: Schema, p: Path, ctx: Context): seq<Change> {
    if b == a then []
    else
      var narrowed := b == Flag(true) || a == Flag(false);
      [Change(narrowed || ctx.incoming, if narrowed then BooleanSchemaNarrowed else BooleanSchemaWidened,
              p, false, !narrowed && ctx.incoming)]
  }

  function DictDiff(b: Schema, a: Schema, p: Path, ctx: Context): seq<Change>
    requires b.Dict? && a.Dict?
    decreases b, 0
  {
    ValuesDiff(b, a, p, ctx) +
    AdditionalDiff(b.objects, a.objects, p, ctx) +
    ScalarsDiff(b, a, p, ctx) +
    PropertiesDiff(b.objects, a.objects, p, ctx) +
    ItemsDiff(b.arrays, a.arrays, p, ctx) +
    LogicDiff(b.logic, a.logic, p, ctx) +
    UnknownDiff(b, a, p, ctx)
  }

  /** The changes compare_named_schemas appends. */
  function Diff(b: Schema, a: Schema, p: Path, ctx: Context): seq<Change>
    decreases b, 1
  {
    if b.Flag? || a.Flag? then FlagDiff(b, a, p, ctx)
    else Harden(DictDiff(b, a, p, ctx), ctx.incoming)
  }

  lemma QuietWhenEmpty(b: Schema, a: Schema, p: Path, ctx: Context, d: seq<Change>)
    requires b.Dict? && a.Dict? && d == Diff(b, a, p, ctx) && DictDiff(b, a, p, ctx) == []
    ensures d == []
  {
  }
}
