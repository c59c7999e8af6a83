/**
 Reference-free JSON Schemas of the shape validate_schema_keyword_shapes
 admits, and the validator of tools/codex_schema.py.

 Every keyword the tool recognises is a typed field, because the shape check
 runs before any semantic consumer; a field records whether its keyword is
 present, since the comparison looks at canonical text. Keywords the validator
 never reads are kept in `inert` (compared for equality) or `notes` (ignored).
 */
module Schema {
  import opened Wrappers
  import opened Json

  datatype TypeName = TNull | TBoolean | TInteger | TNumber | TString | TArray | TObject

  datatype TypeSpec = AnyType | OneType(name: TypeName) | TypeList(names: seq<TypeName>)

  datatype Finite = Finite(values: Option<seq<Json>>, constant: Option<Json>)

  datatype Sizes = Sizes(
    minLength: Option<nat>, maxLength: Option<nat>,
    minItems: Option<nat>, maxItems: Option<nat>,
    minProperties: Option<nat>, maxProperties: Option<nat>)

  datatype Range = Range(
    minimum: Option<Num>, maximum: Option<Num>,
    exclusiveMinimum: Option<Num>, exclusiveMaximum: Option<Num>)

  // Option is not used around schemas: these monomorphic wrappers let
  // recursion through lists and maps of schemas be structural.
  datatype MaybeSchema = NoSchema | ASchema(schema: Schema)
  datatype SchemaList = NoList | AList(list: seq<Schema>)
  datatype SchemaMap = NoMap | AMap(map_: map<string, Schema>)
  datatype Items = NoItems | Each(schema: Schema) | Tuple(list: seq<Schema>)
  datatype Dependency = NeedsNames(names: seq<string>) | NeedsSchema(schema: Schema)
  datatype Dependencies = NoDependencies | SomeDependencies(map_: map<string, Dependency>)

  datatype ObjectRules = ObjectRules(
    properties: SchemaMap, required: Option<seq<string>>, additional: MaybeSchema,
    patterns: SchemaMap, dependencies: Dependencies)

  datatype ArrayRules = ArrayRules(
    items: Items, additionalItems: MaybeSchema, contains: MaybeSchema, uniqueItems: Option<bool>)

  datatype Logic = Logic(
    allOf: SchemaList, anyOf: SchemaList, oneOf: SchemaList,
    negation: MaybeSchema, condition: MaybeSchema, consequent: MaybeSchema, alternative: MaybeSchema)

  datatype Schema =
    | Flag(allow: bool)
    | Dict(
        types: TypeSpec, finite: Finite, sizes: Sizes, range: Range,
        multipleOf: Option<Num>, pattern: Option<string>, format: Option<string>,
        objects: ObjectRules, arrays: ArrayRules, logic: Logic,
        inert: map<string, Json>, notes: map<string, Json>)

  /** Regex search, uninterpreted. */
  type Regex = (string, string) -> bool

  // ------------------------------------------------------------ shape check

  function Props(m: SchemaMap): map<string, Schema> {
    if m.AMap? then m.map_ else map[]
  }

  function Names(r: Option<seq<string>>): set<string> {
    if r.Some? then set s | s in r.value else {}
  }

  // P holds at a schema and at every schema nested in it.

  predicate EveryMaybe(m: MaybeSchema, P: Schema -> bool) { m.ASchema? ==> Everywhere(m.schema, P) }
  predicate EverySeq(l: seq<Schema>, P: Schema -> bool) {
    forall i :: 0 <= i < |l| ==> Everywhere(l[i], P)
  }
  predicate EveryList(l: SchemaList, P: Schema -> bool) { l.AList? ==> EverySeq(l.list, P) }
  predicate EveryMap(m: SchemaMap, P: Schema -> bool) {
    m.AMap? ==> forall k :: k in m.map_ ==> Everywhere(m.map_[k], P)
  }
  predicate EveryDependency(d: Dependencies, P: Schema -> bool) {
    d.SomeDependencies? ==>
      forall k :: k in d.map_ && d.map_[k].NeedsSchema? ==> Everywhere(d.map_[k].schema, P)
  }
  predicate EveryItem(i: Items, P: Schema -> bool) {
    match i
    case NoItems => true
    case Each(s) => Everywhere(s, P)
    case Tuple(l) => EverySeq(l, P)
  }
  predicate EveryObject(o: ObjectRules, P: Schema -> bool) {
    && EveryMap(o.properties, P) && EveryMaybe(o.additional, P) && EveryMap(o.patterns, P)
    && EveryDependency(o.dependencies, P)
  }
  predicate EveryArray(a: ArrayRules, P: Schema -> bool) {
    EveryItem(a.items, P) && EveryMaybe(a.additionalItems, P) && EveryMaybe(a.contains, P)
  }
  predicate EveryLogic(l: Logic, P: Schema -> bool) {
    && EveryList(l.allOf, P) && EveryList(l.anyOf, P) && EveryList(l.oneOf, P)
    && EveryMaybe(l.negation, P) && EveryMaybe(l.condition, P)
    && EveryMaybe(l.consequent, P) && EveryMaybe(l.alternative, P)
  }
  predicate Everywhere(s: Schema, P: Schema -> bool) {
    P(s) &&
    match s
    case Flag(_) => true
    case Dict(_, _, _, _, _, _, _, o, a, l, _, _) => EveryObject(o, P) && EveryArray(a, P) && EveryLogic(l, P)
  }

  predicate NonemptyList(l: SchemaList) { l.AList? ==> |l.list| > 0 }

  /** The part of the shape check the types above do not already express. */
  predicate NodeShaped(s: Schema) {
    s.Dict? ==>
      && (s.types.TypeList? ==> |s.types.names| > 0)
      && (s.finite.values.Some? ==> |s.finite.values.value| > 0)
      && (s.multipleOf.Some? ==> Val(s.multipleOf.value) > 0.0)
      && (s.arrays.items.Tuple? ==> |s.arrays.items.list| > 0)
      && NonemptyList(s.logic.allOf) && NonemptyList(s.logic.anyOf) && NonemptyList(s.logic.oneOf)
  }

  predicate Shaped(s: Schema) { Everywhere(s, NodeShaped) }

  // -------------------------------------------------- scalar assertions

  predicate HasType(x: Json, t: TypeName) {
    match t
    case TNull => x.Null?
    case TBoolean => x.Bool?
    case TInteger => x.Number? && x.x.Int?
    case TNumber => x.Number?
    case TString => x.Str?
    case TArray => x.Arr?
    case TObject => x.Obj?
  }

  /** An empty list of types constrains nothing. */
  predicate TypeOk(t: TypeSpec, x: Json) {
    match t
    case AnyType => true
    case OneType(n) => HasType(x, n)
    case TypeList(ns) => ns == [] || exists i :: 0 <= i < |ns| && HasType(x, ns[i])
  }

  predicate FiniteOk(f: Finite, x: Json) {
    && (f.constant.Some? ==> Canon(x) == Canon(f.constant.value))
    && (f.values.Some? ==>
          exists i :: 0 <= i < |f.values.value| && Canon(f.values.value[i]) == Canon(x))
  }

  predicate AtLeast(bound: Option<nat>, n: nat) { bound.Some? ==> n >= bound.value }
  predicate AtMost(bound: Option<nat>, n: nat) { bound.Some? ==> n <= bound.value }

  predicate SizesOk(s: Sizes, x: Json) {
    && (x.Obj? ==> AtLeast(s.minProperties, |x.members|) && AtMost(s.maxProperties, |x.members|))
    && (x.Arr? ==> AtLeast(s.minItems, |x.items|) && AtMost(s.maxItems, |x.items|))
    && (x.Str? ==> AtLeast(s.minLength, |x.s|) && AtMost(s.maxLength, |x.s|))
  }

  predicate RangeOk(r: Range, x: Json) {
    x.Number? ==>
      && (r.minimum.Some? ==> Val(x.x) >= Val(r.minimum.value))
      && (r.maximum.Some? ==> Val(x.x) <= Val(r.maximum.value))
      && (r.exclusiveMinimum.Some? ==> Val(x.x) > Val(r.exclusiveMinimum.value))
      && (r.exclusiveMaximum.Some? ==> Val(x.x) < Val(r.exclusiveMaximum.value))
  }

  const TOLERANCE: real := 0.000000000001

  /** 1 / TOLERANCE: below it a quotient of integers is near an integer only
      by being one. */
  const FINE: real := 1_000_000_000_000.0

  /** abs(q - round(q)) <= 1e-12 */
  predicate NearInteger(q: real) {
    var d := q - q.Floor as real;
    d <= TOLERANCE || 1.0 - d <= TOLERANCE
  }

  predicate IsMultiple(x: Num, m: Num)
    requires Val(m) > 0.0
  {
    if x.Int? && m.Int? then x.n % m.n == 0 else NearInteger(Val(x) / Val(m))
  }

  predicate MultipleOk(m: Option<Num>, x: Json) {
    m.Some? && Val(m.value) > 0.0 && x.Number? ==> IsMultiple(x.x, m.value)
  }

  predicate PatternOk(p: Option<string>, x: Json, re: Regex) {
    p.Some? && x.Str? ==> re(p.value, x.s)
  }

  function FormatBounds(f: string): Option<(int, int)> {
    if f == "int32" then Some((-0x8000_0000, 0x7fff_ffff))
    else if f == "uint16" then Some((0, 0xffff))
    else if f == "uint32" then Some((0, 0xffff_ffff))
    else if f == "int64" then Some((-0x8000_0000_0000_0000, 0x7fff_ffff_ffff_ffff))
    else if f == "uint64" || f == "uint" then Some((0, 0xffff_ffff_ffff_ffff))
    else None
  }

  predicate FormatOk(f: Option<string>, x: Json) {
    f.Some? && FormatBounds(f.value).Some? && x.Number? ==>
      var b := FormatBounds(f.value).value;
      b.0 as real <= Val(x.x) <= b.1 as real
  }

  predicate UniqueOk(u: Option<bool>, x: Json) {
    x.Arr? && u == Some(true) ==>
      forall i, j :: 0 <= i < j < |x.items| ==> Canon(x.items[i]) != Canon(x.items[j])
  }

  /** The assertions that mention no sub-schema. */
  predicate ScalarsOk(s: Schema, x: Json, re: Regex)
    requires s.Dict?
  {
    && TypeOk(s.types, x) && FiniteOk(s.finite, x) && SizesOk(s.sizes, x) && RangeOk(s.range, x)
    && MultipleOk(s.multipleOf, x) && PatternOk(s.pattern, x, re) && FormatOk(s.format, x)
    && UniqueOk(s.arrays.uniqueItems, x)
  }

  // --------------------------------------------------------- applicators

  predicate ValidMaybe(m: MaybeSchema, x: Json, re: Regex) {
    m.ASchema? ==> Valid(m.schema, x, re)
  }

  predicate MatchesPattern(patterns: SchemaMap, key: string, re: Regex) {
    patterns.AMap? && exists p :: p in patterns.map_ && re(p, key)
  }

  predicate MemberOk(o: ObjectRules, key: string, v: Json, re: Regex)
    decreases o, 0
  {
    && (o.properties.AMap? && key in o.properties.map_ ==> Valid(o.properties.map_[key], v, re))
    && (o.patterns.AMap? ==>
          forall p :: p in o.patterns.map_ && re(p, key) ==> Valid(o.patterns.map_[p], v, re))
    && (key !in Props(o.properties) && !MatchesPattern(o.patterns, key, re) ==>
          ValidMaybe(o.additional, v, re))
  }

  predicate DependencyOk(d: Dependency, x: Json, re: Regex)
    requires x.Obj?
  {
    match d
    case NeedsNames(ns) => forall i :: 0 <= i < |ns| ==> ns[i] in x.members
    case NeedsSchema(s) => Valid(s, x, re)
  }

  predicate DependenciesOk(d: Dependencies, x: Json, re: Regex)
    requires x.Obj?
  {
    d.SomeDependencies? ==>
      forall k :: k in d.map_ && k in x.members ==> DependencyOk(d.map_[k], x, re)
  }

  predicate ObjectOk(o: ObjectRules, x: Json, re: Regex)
    decreases o, 1
  {
    x.Obj? ==>
      && (forall name :: name in Names(o.required) ==> name in x.members)
      && (forall key :: key in x.members ==> MemberOk(o, key, x.members[key], re))
      && DependenciesOk(o.dependencies, x, re)
  }

  predicate ItemsOk(a: ArrayRules, xs: seq<Json>, re: Regex)
    decreases a, 0
  {
    match a.items
    case NoItems => true
    case Each(s) => forall i :: 0 <= i < |xs| ==> Valid(s, xs[i], re)
    case Tuple(l) =>
      && (forall i :: 0 <= i < |xs| && i < |l| ==> Valid(l[i], xs[i], re))
      && (forall i :: |l| <= i < |xs| ==> ValidMaybe(a.additionalItems, xs[i], re))
  }

  predicate ContainsOk(c: MaybeSchema, xs: seq<Json>, re: Regex) {
    c.ASchema? ==> exists i :: 0 <= i < |xs| && Valid(c.schema, xs[i], re)
  }

  predicate ArrayOk(a: ArrayRules, x: Json, re: Regex)
    decreases a, 1
  {
    x.Arr? ==> ItemsOk(a, x.items, re) && ContainsOk(a.contains, x.items, re)
  }

  /** How many branches accept. */
  function Count(l: seq<Schema>, x: Json, re: Regex): nat {
    if l == [] then 0
    else Count(l[..|l|-1], x, re) + if Valid(l[|l|-1], x, re) then 1 else 0
  }

  predicate AllOfOk(l: SchemaList, x: Json, re: Regex) {
    l.AList? ==> forall i :: 0 <= i < |l.list| ==> Valid(l.list[i], x, re)
  }
  predicate AnyOfOk(l: SchemaList, x: Json, re: Regex) {
    l.AList? ==> Count(l.list, x, re) > 0
  }
  predicate OneOfOk(l: SchemaList, x: Json, re: Regex) {
    l.AList? ==> Count(l.list, x, re) == 1
  }

  predicate ConditionOk(l: Logic, x: Json, re: Regex)
    decreases l, 0
  {
    l.condition.ASchema? ==>
      if Valid(l.condition.schema, x, re) then ValidMaybe(l.consequent, x, re)
      else ValidMaybe(l.alternative, x, re)
  }

  predicate LogicOk(l: Logic, x: Json, re: Regex)
    decreases l, 1
  {
    && AllOfOk(l.allOf, x, re) && AnyOfOk(l.anyOf, x, re) && OneOfOk(l.oneOf, x, re)
    && (l.negation.ASchema? ==> !Valid(l.negation.schema, x, re))
    && ConditionOk(l, x, re)
  }

  /** validate_instance: true exactly when it raises no ValidationFailure. */
  predicate Valid(s: Schema, x: Json, re: Regex) {
    match s
    case Flag(b) => b
    case Dict(_, _, _, _, _, _, _, objects, arrays, logic, _, _) =>
      ScalarsOk(s, x, re) && ObjectOk(objects, x, re) && ArrayOk(arrays, x, re) && LogicOk(logic, x, re)
  }

  lemma {:induction false} CountPositive(l: seq<Schema>, x: Json, re: Regex)
    ensures Count(l, x, re) > 0 <==> exists i :: 0 <= i < |l| && Valid(l[i], x, re)
  {
    if l != [] {
      var front := l[..|l|-1];
      CountPositive(front, x, re);
      if i :| 0 <= i < |l| && Valid(l[i], x, re) {
        if i < |l| - 1 {
          assert front[i] == l[i];
        }
      }
      if Count(front, x, re) > 0 {
        var i :| 0 <= i < |front| && Valid(front[i], x, re);
        assert l[i] == front[i];
      }
    }
  }
}
