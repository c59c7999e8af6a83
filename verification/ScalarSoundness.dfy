/** Keywords without sub-schemas: no breaking change means no new rejection. */
module ScalarSoundness {
  import opened Wrappers
  import opened Json
  import opened Schema
  import opened SchemaDiff
  import opened SchemaEquality

  /** The validator's tolerance cannot pass an integer off as a multiple. */
  predicate Coarse(m: Num) { m.Int? || m.num as real < FINE }

  /** A widened multipleOf leaves the instances in question accepted: they
      hold no float (`exact`), and the old divisor is coarse. */
  predicate MultipleHeld(c: Change, exact: bool) {
    c.kind.MultipleOfChanged? ==> exact && Coarse(c.kind.before)
  }

  /** Neither a breaking change nor a widening that loses a multiple. */
  predicate Safe(cs: seq<Change>, exact: bool) {
    forall i :: 0 <= i < |cs| ==> !cs[i].breaking && MultipleHeld(cs[i], exact)
  }

  lemma SafeSplit(s: seq<Change>, t: seq<Change>, e: bool)
    ensures Safe(s + t, e) <==> Safe(s, e) && Safe(t, e)
  {
    if Safe(s + t, e) {
      forall i | 0 <= i < |s| ensures !s[i].breaking && MultipleHeld(s[i], e) {
        assert (s + t)[i] == s[i];
      }
      forall i | 0 <= i < |t| ensures !t[i].breaking && MultipleHeld(t[i], e) {
        assert (s + t)[|s| + i] == t[i];
      }
    }
  }

  lemma SafeHead(cs: seq<Change>, e: bool)
    requires Safe(cs, e)
    ensures cs != [] ==> !cs[0].breaking && MultipleHeld(cs[0], e)
  {}

  // ------------------------------------------------------------- scalars

  function AtomOf(x: Json): Atom {
    match x
    case Null => ANull
    case Bool(_) => ABoolean
    case Number(n) => if n.Int? then AInteger else ANonInteger
    case Str(_) => AString
    case Arr(_) => AArray
    case Obj(_) => AObject
  }

  lemma TypeMeaning(t: TypeSpec, x: Json)
    requires t.TypeList? ==> |t.names| > 0
    ensures TypeOk(t, x) <==> t.AnyType? || AtomOf(x) in Atoms(t)
  {
    assert forall n :: HasType(x, n) <==> AtomOf(x) in AtomsOf(n);
  }

  lemma TypesSound(b: TypeSpec, a: TypeSpec, x: Json, p: Path, e: bool)
    requires Safe(TypesDiff(b, a, p), e)
    requires (b.TypeList? ==> |b.names| > 0) && (a.TypeList? ==> |a.names| > 0)
    requires TypeOk(b, x)
    ensures TypeOk(a, x)
  {
    TypeMeaning(b, x);
    TypeMeaning(a, x);
    var d := TypesDiff(b, a, p);
    SafeHead(d, e);
    if !a.AnyType? {
      assert !b.AnyType? && Atoms(b) - Atoms(a) == {};
      assert AtomOf(x) !in Atoms(b) - Atoms(a);
    }
  }

  lemma FiniteMeaning(f: Finite, x: Json)
    ensures FiniteOk(f, x) <==> (FiniteValues(f).Some? ==> Canon(x) in Keys(FiniteValues(f).value))
  {
    if f.values.Some? && Canon(x) in Keys(f.values.value) {
      var i :| 0 <= i < |f.values.value| && Canon(f.values.value[i]) == Canon(x);
    }
    if f.constant.Some? && Canon(x) in Keys([f.constant.value]) {
      assert Canon(x) == Canon([f.constant.value][0]);
    }
    if f.constant.Some? {
      assert Canon([f.constant.value][0]) in Keys([f.constant.value]);
    }
  }

  lemma FiniteSound(b: Finite, a: Finite, x: Json, p: Path, ctx: Context, e: bool)
    requires Safe(FiniteDiff(b, a, p, ctx), e)
    requires FiniteOk(b, x)
    ensures FiniteOk(a, x)
  {
    FiniteMeaning(b, x);
    FiniteMeaning(a, x);
    var d := FiniteDiff(b, a, p, ctx);
    SafeHead(d, e);
    if FiniteValues(a).Some? {
      var gone := Keys(FiniteValues(b).value) - Keys(FiniteValues(a).value);
      assert Canon(x) !in gone;
    }
  }

  lemma BoundSound(prev: Option<real>, next: Option<real>, p: Path, k: Bound, minimum: bool, e: bool)
    requires Safe(BoundDiff(prev, next, p, k, minimum), e)
    ensures if minimum then LooserMin(prev, next) else LooserMax(prev, next)
  {
    if next.Some? {
      var d := BoundDiff(prev, next, p, k, minimum);
      SafeHead(d, e);
    }
  }

  /** The new bound is no stricter. */
  predicate LooserMin(prev: Option<real>, next: Option<real>) {
    next.Some? ==> prev.Some? && next.value <= prev.value
  }
  predicate LooserMax(prev: Option<real>, next: Option<real>) {
    next.Some? ==> prev.Some? && prev.value <= next.value
  }

  lemma LowerSound(b: Schema, a: Schema, p: Path, e: bool)
    requires b.Dict? && a.Dict? && Safe(LowerDiff(b, a, p), e)
    ensures LooserMin(NumReal(b.range.minimum), NumReal(a.range.minimum))
    ensures LooserMin(NumReal(b.range.exclusiveMinimum), NumReal(a.range.exclusiveMinimum))
    ensures LooserMin(AsReal(b.sizes.minLength), AsReal(a.sizes.minLength))
    ensures LooserMin(AsReal(b.sizes.minItems), AsReal(a.sizes.minItems))
    ensures LooserMin(AsReal(b.sizes.minProperties), AsReal(a.sizes.minProperties))
  {
    var r, q, s, t := b.range, a.range, b.sizes, a.sizes;
    var d1 := BoundDiff(NumReal(r.minimum), NumReal(q.minimum), p, Minimum, true);
    var d2 := BoundDiff(NumReal(r.exclusiveMinimum), NumReal(q.exclusiveMinimum), p, ExclusiveMinimum, true);
    var d3 := BoundDiff(AsReal(s.minLength), AsReal(t.minLength), p, MinLength, true);
    var d4 := BoundDiff(AsReal(s.minItems), AsReal(t.minItems), p, MinItems, true);
    var d5 := BoundDiff(AsReal(s.minProperties), AsReal(t.minProperties), p, MinProperties, true);
    SafeSplit(d1 + d2 + d3 + d4, d5, e);
    SafeSplit(d1 + d2 + d3, d4, e);
    SafeSplit(d1 + d2, d3, e);
    SafeSplit(d1, d2, e);
    BoundSound(NumReal(r.minimum), NumReal(q.minimum), p, Minimum, true, e);
    BoundSound(NumReal(r.exclusiveMinimum), NumReal(q.exclusiveMinimum), p, ExclusiveMinimum, true, e);
    BoundSound(AsReal(s.minLength), AsReal(t.minLength), p, MinLength, true, e);
    BoundSound(AsReal(s.minItems), AsReal(t.minItems), p, MinItems, true, e);
    BoundSound(AsReal(s.minProperties), AsReal(t.minProperties), p, MinProperties, true, e);
  }

  lemma UpperSound(b: Schema, a: Schema, p: Path, e: bool)
    requires b.Dict? && a.Dict? && Safe(UpperDiff(b, a, p), e)
    ensures LooserMax(NumReal(b.range.maximum), NumReal(a.range.maximum))
    ensures LooserMax(NumReal(b.range.exclusiveMaximum), NumReal(a.range.exclusiveMaximum))
    ensures LooserMax(AsReal(b.sizes.maxLength), AsReal(a.sizes.maxLength))
    ensures LooserMax(AsReal(b.sizes.maxItems), AsReal(a.sizes.maxItems))
    ensures LooserMax(AsReal(b.sizes.maxProperties), AsReal(a.sizes.maxProperties))
  {
    var r, q, s, t := b.range, a.range, b.sizes, a.sizes;
    var d1 := BoundDiff(NumReal(r.maximum), NumReal(q.maximum), p, Maximum, false);
    var d2 := BoundDiff(NumReal(r.exclusiveMaximum), NumReal(q.exclusiveMaximum), p, ExclusiveMaximum, false);
    var d3 := BoundDiff(AsReal(s.maxLength), AsReal(t.maxLength), p, MaxLength, false);
    var d4 := BoundDiff(AsReal(s.maxItems), AsReal(t.maxItems), p, MaxItems, false);
    var d5 := BoundDiff(AsReal(s.maxProperties), AsReal(t.maxProperties), p, MaxProperties, false);
    SafeSplit(d1 + d2 + d3 + d4, d5, e);
    SafeSplit(d1 + d2 + d3, d4, e);
    SafeSplit(d1 + d2, d3, e);
    SafeSplit(d1, d2, e);
    BoundSound(NumReal(r.maximum), NumReal(q.maximum), p, Maximum, false, e);
    BoundSound(NumReal(r.exclusiveMaximum), NumReal(q.exclusiveMaximum), p, ExclusiveMaximum, false, e);
    BoundSound(AsReal(s.maxLength), AsReal(t.maxLength), p, MaxLength, false, e);
    BoundSound(AsReal(s.maxItems), AsReal(t.maxItems), p, MaxItems, false, e);
    BoundSound(AsReal(s.maxProperties), AsReal(t.maxProperties), p, MaxProperties, false, e);
  }

  lemma TextSound(prev: Option<string>, next: Option<string>, p: Path, k: Keyword, e: bool)
    requires Safe(TextDiff(prev, next, p, k), e)
    ensures next.Some? ==> prev == next
  {
    var d := TextDiff(prev, next, p, k);
    SafeHead(d, e);
  }

  /** An integer multiple of o is one of n when n divides o. */
  lemma MultipleThrough(x: int, o: Num, n: Num)
    requires 0.0 < Val(o) && 0.0 < Val(n) && Whole(Val(o) / Val(n)) && Coarse(o)
    requires IsMultiple(Int(x), o)
    ensures IsMultiple(Int(x), n)
  {
    if o.Int? {
      WholeRatio(x, o.n);
    } else {
      NearIsWhole(x, o);
    }
    WholeProduct(x as real, Val(o), Val(n));
    if n.Int? {
      WholeRatio(x, n.n);
    }
  }

  lemma WholeProduct(x: real, o: real, n: real)
    requires 0.0 < o && 0.0 < n && Whole(x / o) && Whole(o / n)
    ensures Whole(x / n)
  {
    var k, m := (x / o).Floor, (o / n).Floor;
    assert x == k as real * o && o == m as real * n;
    var q := x / n;
    assert q * n == x;
    assert (k * m) as real == k as real * m as real;
    assert x == (k * m) as real * n;
    assert (q - (k * m) as real) * n == 0.0;
    assert q == (k * m) as real;
  }

  lemma MultipleSound(b: Option<Num>, a: Option<Num>, x: Json, p: Path, ctx: Context, e: bool)
    requires ctx.keyed && Safe(MultipleDiff(b, a, p, ctx), e)
    requires e ==> Integral(x)
    requires b.Some? ==> Val(b.value) > 0.0
    requires MultipleOk(b, x)
    ensures MultipleOk(a, x)
  {
    var d := MultipleDiff(b, a, p, ctx);
    SafeHead(d, e);
    if EqMultiple(true, b, a) {
      EqMultipleValid(b, a, x);
    } else if a.Some? && x.Number? {
      MultipleThrough(x.x.n, b.value, a.value);
    }
  }

  lemma UniqueSound(b: Option<bool>, a: Option<bool>, x: Json, p: Path, e: bool)
    requires Safe(UniqueDiff(b, a, p), e)
    requires UniqueOk(b, x)
    ensures UniqueOk(a, x)
  {
    var d := UniqueDiff(b, a, p);
    SafeHead(d, e);
  }

  lemma BoundsSound(b: Schema, a: Schema, x: Json, p: Path, e: bool)
    requires b.Dict? && a.Dict? && Safe(LowerDiff(b, a, p), e) && Safe(UpperDiff(b, a, p), e)
    requires SizesOk(b.sizes, x) && RangeOk(b.range, x)
    ensures SizesOk(a.sizes, x) && RangeOk(a.range, x)
  {
    LowerSound(b, a, p, e);
    UpperSound(b, a, p, e);
  }

  /** What the comparison says of the keywords without sub-schemas. */
  lemma ScalarsParts(b: Schema, a: Schema, p: Path, ctx: Context, e: bool)
    requires b.Dict? && a.Dict? && Safe(ScalarsDiff(b, a, p, ctx), e)
    ensures Safe(LowerDiff(b, a, p), e) && Safe(UpperDiff(b, a, p), e)
    ensures Safe(TextDiff(b.pattern, a.pattern, p, Pattern), e) && Safe(TextDiff(b.format, a.format, p, Format), e)
    ensures Safe(MultipleDiff(b.multipleOf, a.multipleOf, p, ctx), e)
    ensures Safe(UniqueDiff(b.arrays.uniqueItems, a.arrays.uniqueItems, p), e)
  {
    var d1, d2 := LowerDiff(b, a, p), UpperDiff(b, a, p);
    var d3, d4 := TextDiff(b.pattern, a.pattern, p, Pattern), TextDiff(b.format, a.format, p, Format);
    var d5 := MultipleDiff(b.multipleOf, a.multipleOf, p, ctx);
    var d6 := UniqueDiff(b.arrays.uniqueItems, a.arrays.uniqueItems, p);
    SafeSplit(d1 + d2 + d3 + d4 + d5, d6, e);
    SafeSplit(d1 + d2 + d3 + d4, d5, e);
    SafeSplit(d1 + d2 + d3, d4, e);
    SafeSplit(d1 + d2, d3, e);
    SafeSplit(d1, d2, e);
  }

  lemma ScalarsSound(b: Schema, a: Schema, x: Json, p: Path, ctx: Context, e: bool)
    requires b.Dict? && a.Dict? && NodeShaped(b) && NodeShaped(a)
    requires ctx.keyed && (e ==> Integral(x))
    requires Safe(ValuesDiff(b, a, p, ctx), e) && Safe(ScalarsDiff(b, a, p, ctx), e)
    requires ScalarsOk(b, x, ctx.re)
    ensures ScalarsOk(a, x, ctx.re)
  {
    SafeSplit(TypesDiff(b.types, a.types, p), FiniteDiff(b.finite, a.finite, p, ctx), e);
    ScalarsParts(b, a, p, ctx, e);
    TypesSound(b.types, a.types, x, p, e);
    FiniteSound(b.finite, a.finite, x, p, ctx, e);
    BoundsSound(b, a, x, p, e);
    TextSound(b.pattern, a.pattern, p, Pattern, e);
    TextSound(b.format, a.format, p, Format, e);
    MultipleSound(b.multipleOf, a.multipleOf, x, p, ctx, e);
    UniqueSound(b.arrays.uniqueItems, a.arrays.uniqueItems, x, p, e);
  }
}
