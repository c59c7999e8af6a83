/**
 Where the comparison is not sound, and exactly when it is: constants that
 only Python's == identifies, and widened multipleOf against the validator's
 tolerance.
 */
module DiffLimits {
  import opened Wrappers
  import opened Json
  import opened Schema
  import opened SchemaDiff
  import opened SchemaEquality
  import opened ScalarSoundness
  import opened DiffSoundness
  import opened DiffIdentity
  import NameOrder

  const OUTGOING: Context := Context(false, (p, s) => true, (p, t) => false, false)

  // -------------------------------------------- constants equal only to Python

  function ConstOf(v: Json): Schema { EMPTY.(finite := Finite(None, Some(v))) }

  /** additionalProperties: {const: v} */
  function OpenOn(v: Json): Schema {
    EMPTY.(objects := EMPTY.objects.(additional := ASchema(ConstOf(v))))
  }

  lemma ConstAccepts(v: Json, x: Json, re: Regex)
    ensures Valid(ConstOf(v), x, re) <==> Canon(x) == Canon(v)
  {
    EmptyParts(x, re);
    ConstScalars(v, x, re);
  }

  lemma EmptyParts(x: Json, re: Regex)
    ensures ObjectOk(EMPTY.objects, x, re) && ArrayOk(EMPTY.arrays, x, re) && LogicOk(EMPTY.logic, x, re)
  {
    EmptyAccepts(x, re);
  }

  lemma ConstScalars(v: Json, x: Json, re: Regex)
    ensures ScalarsOk(ConstOf(v), x, re) <==> Canon(x) == Canon(v)
  {
  }

  predicate AllMembers(x: Json, v: Json) {
    x.Obj? ==> forall key :: key in x.members ==> Canon(x.members[key]) == Canon(v)
  }

  lemma OpenMembers(v: Json, x: Json, re: Regex)
    requires x.Obj?
    ensures ObjectOk(OpenOn(v).objects, x, re) <==> AllMembers(x, v)
  {
    var o := OpenOn(v).objects;
    forall key | key in x.members
      ensures MemberOk(o, key, x.members[key], re) <==> Canon(x.members[key]) == Canon(v)
    {
      ConstAccepts(v, x.members[key], re);
      assert !MatchesPattern(o.patterns, key, re);
    }
  }

  lemma OpenAccepts(v: Json, x: Json, re: Regex)
    ensures Valid(OpenOn(v), x, re) <==> AllMembers(x, v)
  {
    var s := OpenOn(v);
    assert ScalarsOk(s, x, re);
    assert ArrayOk(s.arrays, x, re) && LogicOk(s.logic, x, re);
    if x.Obj? { OpenMembers(v, x, re); }
  }

  /** The instance {"k": v}. */
  function Sample(v: Json): Json { Obj(map["k" := v]) }

  lemma SampleMembers(v: Json, w: Json)
    ensures AllMembers(Sample(v), w) <==> Canon(v) == Canon(w)
  {
    assert Sample(v).members["k"] == v;
  }

  /** additionalProperties {const: v} becoming {const: w} with v == w to
      Python goes unreported. It keeps the accepted instances exactly when the
      constants are equal as JSON, and so exactly when the report by keys is
      the same. */
  lemma ConstantShortcutExact(v: Json, w: Json, re: Regex)
    requires PyEq(v, w)
    ensures Clean(Diff(OpenOn(v), OpenOn(w), [], OUTGOING))
    ensures (forall x :: Valid(OpenOn(v), x, re) ==> Valid(OpenOn(w), x, re)) <==> SameJson(v, w)
    ensures Diff(OpenOn(v), OpenOn(w), [], OUTGOING) == KeyedDiff(OpenOn(v), OpenOn(w), [], OUTGOING) <==>
            SameJson(v, w)
  {
    QuietOpen(v, w, OUTGOING);
    SameJsonIsCanon(v, w);
    if SameJson(v, w) {
      QuietOpen(v, w, OUTGOING.(keyed := true));
    } else if KeyedDiff(OpenOn(v), OpenOn(w), [], OUTGOING) == [] {
      SilentMeansSame(v, w);
    }
    forall x | Valid(OpenOn(v), x, re) && SameJson(v, w) ensures Valid(OpenOn(w), x, re) {
      OpenAccepts(v, x, re);
      OpenAccepts(w, x, re);
    }
    OpenAccepts(v, Sample(v), re);
    OpenAccepts(w, Sample(v), re);
    SampleMembers(v, v);
    SampleMembers(v, w);
  }

  /** additionalProperties {const: true} becoming {const: 1} goes unreported,
      and {"k": true} stops validating. */
  lemma TrueIsNotOne(re: Regex)
    ensures Clean(Diff(OpenOn(Bool(true)), OpenOn(Number(Int(1))), [], OUTGOING))
    ensures Valid(OpenOn(Bool(true)), Sample(Bool(true)), re)
    ensures !Valid(OpenOn(Number(Int(1))), Sample(Bool(true)), re)
  {
    ShortcutBreaks(Bool(true), Number(Int(1)), re);
  }

  lemma ShortcutBreaks(v: Json, w: Json, re: Regex)
    requires PyEq(v, w) && Canon(v) != Canon(w)
    ensures Clean(Diff(OpenOn(v), OpenOn(w), [], OUTGOING))
    ensures Valid(OpenOn(v), Sample(v), re) && !Valid(OpenOn(w), Sample(v), re)
  {
    OpenAccepts(v, Sample(v), re);
    OpenAccepts(w, Sample(v), re);
    SampleMembers(v, v);
    SampleMembers(v, w);
    QuietOpen(v, w, OUTGOING);
  }

  /** The parts of the comparison outside additionalProperties are silent. */
  lemma OpenParts(v: Json, w: Json, ctx: Context)
    ensures DictDiff(OpenOn(v), OpenOn(w), [], ctx) == AdditionalDiff(OpenOn(v).objects, OpenOn(w).objects, [], ctx)
  {
    var b, a := OpenOn(v), OpenOn(w);
    NoScalarChange(v, w, ctx);
    NoPropertyChange(v, w, ctx);
    NoOtherChange(v, w, ctx);
    var d := AdditionalDiff(b.objects, a.objects, [], ctx);
    assert DictDiff(b, a, [], ctx) ==
      ValuesDiff(b, a, [], ctx) + d + ScalarsDiff(b, a, [], ctx) +
      PropertiesDiff(b.objects, a.objects, [], ctx) + ItemsDiff(b.arrays, a.arrays, [], ctx) +
      LogicDiff(b.logic, a.logic, [], ctx) + UnknownDiff(b, a, [], ctx);
  }

  lemma NoScalarChange(v: Json, w: Json, ctx: Context)
    ensures ValuesDiff(OpenOn(v), OpenOn(w), [], ctx) == [] && ScalarsDiff(OpenOn(v), OpenOn(w), [], ctx) == []
  {
    var b, a := OpenOn(v), OpenOn(w);
    assert FiniteDiff(b.finite, a.finite, [], ctx) == [];
    assert LowerDiff(b, a, []) == [] && UpperDiff(b, a, []) == [];
  }

  lemma NoPropertyChange(v: Json, w: Json, ctx: Context)
    ensures PropertiesDiff(OpenOn(v).objects, OpenOn(w).objects, [], ctx) == []
  {
    var b, a := OpenOn(v).objects, OpenOn(w).objects;
    assert Props(b.properties).Keys == {} == Props(a.properties).Keys;
    assert Names(b.required) == {} == Names(a.required);
    assert NewlyRequired(b, a) == {};
    assert SharedNames(b, a) == [];
    assert NameOrder.Sorted({}) == [];
  }

  lemma NoOtherChange(v: Json, w: Json, ctx: Context)
    ensures LogicDiff(OpenOn(v).logic, OpenOn(w).logic, [], ctx) == []
    ensures UnknownDiff(OpenOn(v), OpenOn(w), [], ctx) == []
    ensures ItemsDiff(OpenOn(v).arrays, OpenOn(w).arrays, [], ctx) == []
  {
    NoUnknownChange(OpenOn(v), OpenOn(w), NameOrder.Sorted(UnknownNames(OpenOn(v), OpenOn(w))), ctx);
  }

  lemma {:induction false} NoUnknownChange(b: Schema, a: Schema, names: seq<string>, ctx: Context)
    requires b.Dict? && a.Dict? && b.inert == map[] == a.inert
    requires b.objects.patterns.NoMap? && a.objects.patterns.NoMap?
    requires b.objects.dependencies.NoDependencies? && a.objects.dependencies.NoDependencies?
    requires b.arrays == EMPTY.arrays == a.arrays
    ensures UnknownFrom(b, a, names, [], ctx) == []
  {
    if names != [] { NoUnknownChange(b, a, names[1..], ctx); }
  }

  lemma ConstEq(v: Json, w: Json, keyed: bool)
    requires EqJson(keyed, v, w)
    ensures EqSchema(keyed, ConstOf(v), ConstOf(w))
  {
    var b, a := ConstOf(v), ConstOf(w);
    PyEqReflexive(Obj(map[]));
    assert EqScalars(keyed, b, a);
    assert EqObjects(keyed, b.objects, a.objects) && EqArrays(keyed, b.arrays, a.arrays);
    assert EqLogic(keyed, b.logic, a.logic);
  }

  lemma QuietOpen(v: Json, w: Json, ctx: Context)
    requires EqJson(ctx.keyed, v, w)
    ensures Diff(OpenOn(v), OpenOn(w), [], ctx) == []
  {
    OpenParts(v, w, ctx);
    ConstEq(v, w, ctx.keyed);
    QuietWhenEmpty(OpenOn(v), OpenOn(w), [], ctx, Diff(OpenOn(v), OpenOn(w), [], ctx));
  }

  lemma OpenShaped(v: Json)
    ensures Shaped(OpenOn(v))
  {
    ConstShaped(v);
    var s := OpenOn(v);
    assert EveryMaybe(s.objects.additional, NodeShaped);
    assert EveryObject(s.objects, NodeShaped) && EveryArray(s.arrays, NodeShaped) && EveryLogic(s.logic, NodeShaped);
  }

  lemma ConstShaped(v: Json)
    ensures Shaped(ConstOf(v))
  {
    var s := ConstOf(v);
    assert EveryObject(s.objects, NodeShaped) && EveryArray(s.arrays, NodeShaped) && EveryLogic(s.logic, NodeShaped);
  }

  /** By keys, a silent comparison means equal constants. */
  lemma SilentMeansSame(v: Json, w: Json)
    requires Diff(OpenOn(v), OpenOn(w), [], OUTGOING) == [] == KeyedDiff(OpenOn(v), OpenOn(w), [], OUTGOING)
    ensures Canon(v) == Canon(w)
  {
    OpenShaped(v);
    OpenShaped(w);
    OpenAccepts(v, Sample(v), OUTGOING.re);
    OpenAccepts(w, Sample(v), OUTGOING.re);
    SampleMembers(v, v);
    SampleMembers(v, w);
    DiffIsSound(OpenOn(v), OpenOn(w), Sample(v), [], OUTGOING);
  }

  // ----------------------------------------------------- widened multipleOf

  /** num / 2^exp as a float. */
  function Dyadic(num: int, exp: nat): (x: Num)
    ensures x.Flt? && Val(x) == num as real / Pow2(exp) as real
    decreases exp
  {
    if exp > 0 && num % 2 == 0 then
      Halve(num, exp);
      Dyadic(num / 2, exp - 1)
    else Flt(num, exp)
  }

  lemma Halve(num: int, exp: nat)
    requires exp > 0 && num % 2 == 0
    ensures num as real / Pow2(exp) as real == (num / 2) as real / Pow2(exp - 1) as real
  {
    CrossMultiply(num, Pow2(exp), num / 2, Pow2(exp - 1));
    var h, q := num / 2, Pow2(exp - 1);
    assert num == 2 * h && Pow2(exp) == 2 * q;
    assert (2 * h) * q == h * (2 * q);
  }

  lemma {:induction false} PowGrows(e: nat, f: nat)
    ensures Pow2(e + f) == Pow2(e) * Pow2(f)
  {
    if e > 0 {
      PowGrows(e - 1, f);
      assert (2 * Pow2(e - 1)) * Pow2(f) == 2 * (Pow2(e - 1) * Pow2(f));
    }
  }

  lemma Pow40()
    ensures Pow2(40) == 1_099_511_627_776
  {
    assert Pow2(5) == 32;
    PowGrows(5, 5);
    PowGrows(10, 10);
    PowGrows(20, 20);
  }

  /** The float has a one-bit significand, so it is a double. */
  ghost predicate OneBit(x: Num) {
    x.Flt? && exists s: nat :: x.num == Pow2(s)
  }

  lemma {:induction false} DyadicPower(f: nat, e: nat)
    ensures OneBit(Dyadic(Pow2(f), e))
    decreases e
  {
    if e > 0 && f > 0 {
      assert Pow2(f) / 2 == Pow2(f - 1) && Pow2(f) % 2 == 0;
      DyadicPower(f - 1, e - 1);
    } else {
      assert Pow2(0) == 1;
      assert Dyadic(Pow2(f), e).num == Pow2(f);
    }
  }

  /** The least power of two above n. */
  lemma {:induction false} PowerAbove(n: nat, f: nat) returns (g: nat)
    requires f == 0 || Pow2(f - 1) <= n
    ensures Pow2(g) > n && (g == 0 || Pow2(g - 1) <= n)
    decreases n - Pow2(f)
  {
    if Pow2(f) > n {
      g := f;
    } else {
      assert Pow2(f + 1) == 2 * Pow2(f);
      g := PowerAbove(n, f + 1);
    }
  }

  lemma Above(a: real, b: real, c: real)
    requires b > 0.0 && a > c * b
    ensures a / b > c
  {
    var q := a / b;
    assert q * b == a;
    assert (q - c) * b > 0.0;
  }

  lemma Below(a: real, b: real, c: real)
    requires b > 0.0 && a <= c * b
    ensures a / b <= c
  {
    var q := a / b;
    assert q * b == a;
    assert (q - c) * b <= 0.0;
  }

  /** A power of two between the tolerance and twice the tolerance of n. */
  lemma TinyPower(n: Num) returns (x: Num)
    requires Val(n) > 0.0
    ensures OneBit(x) && Val(n) * TOLERANCE < Val(x) <= Val(n) * (2.0 * TOLERANCE)
  {
    ValIsRatio(n);
    var m, e := Numerator(n), Exponent(n);
    PositiveRatio(m, Pow2(e));
    Pow40();
    var bar := m * Pow2(40) / 1_000_000_000_000;
    var f := PowerAbove(bar, 0);
    assert bar >= 1;
    assert Pow2(f) == 2 * Pow2(f - 1);
    x := Dyadic(Pow2(f), 40 + e);
    DyadicPower(f, 40 + e);
    PowGrows(40, e);
    Scale(m, Pow2(e), Pow2(f), Pow2(40));
  }

  /** t / (c d) against multiples of n == m / d. */
  lemma Scale(m: int, d: nat, t: int, c: nat)
    requires d > 0 && c > 0 && m > 0
    requires m * c < t * 1_000_000_000_000 <= 2 * (m * c)
    ensures var n, x := m as real / d as real, t as real / (c * d) as real;
            n * TOLERANCE < x <= n * (2.0 * TOLERANCE)
  {
    var n := m as real / d as real;
    var cd := (c * d) as real;
    assert n * d as real == m as real;
    assert cd == c as real * d as real;
    assert cd > 0.0;
    var mc := (m * c) as real;
    assert mc == m as real * c as real;
    assert n * cd == mc;
    Above(t as real, cd, n * TOLERANCE);
    Below(t as real, cd, n * (2.0 * TOLERANCE));
  }

  /** A power of two that counts as a multiple of o and not of its divisor n. */
  lemma WideningWitness(o: Num, n: Num) returns (x: Num)
    requires Val(o) > 0.0 && Val(n) > 0.0
    requires Whole(Val(o) / Val(n)) && !Whole(Val(n) / Val(o))
    ensures OneBit(x) && IsMultiple(x, o) && !IsMultiple(x, n)
  {
    x := TinyPower(n);
    TwiceAsLarge(Val(o), Val(n));
    NearOnlyOne(Val(x), Val(o), Val(n));
  }

  lemma NearOnlyOne(x: real, o: real, n: real)
    requires o >= 2.0 * n > 0.0 && n * TOLERANCE < x <= n * (2.0 * TOLERANCE)
    ensures NearInteger(x / o) && !NearInteger(x / n)
  {
    Above(x, n, TOLERANCE);
    Below(x, n, 2.0 * TOLERANCE);
    Below(x, o, TOLERANCE);
    Above(x, o, 0.0);
    var q, r := x / n, x / o;
    assert q.Floor == 0 && r.Floor == 0;
  }

  lemma SelfRatio(o: real)
    requires o > 0.0
    ensures o / o == 1.0 && Whole(o / o)
  {}

  lemma TwiceAsLarge(o: real, n: real)
    requires o > 0.0 && n > 0.0 && Whole(o / n) && !Whole(n / o)
    ensures o >= 2.0 * n
  {
    var k := (o / n).Floor;
    assert o == k as real * n;
    assert k >= 1;
    SelfRatio(o);
    assert k == 1 ==> o == n;
    assert k >= 2;
    assert (k as real - 2.0) * n >= 0.0;
  }

  /** A change of multipleOf the comparison calls a widening keeps every
      integer that was a multiple, when the old divisor is coarse, and always
      loses a number: a widening is never sound for all doubles. */
  lemma WideningExact(o: Num, n: Num)
    requires Val(o) > 0.0 && Val(n) > 0.0
    requires Whole(Val(o) / Val(n)) && !Whole(Val(n) / Val(o))
    ensures Coarse(o) ==> forall j: int :: IsMultiple(Int(j), o) ==> IsMultiple(Int(j), n)
    ensures exists x: Num :: OneBit(x) && IsMultiple(x, o) && !IsMultiple(x, n)
  {
    if Coarse(o) {
      forall j: int | IsMultiple(Int(j), o) ensures IsMultiple(Int(j), n) {
        MultipleThrough(j, o, n);
      }
    }
    var x := WideningWitness(o, n);
  }

  /** An integer divisor and the float of the same value accept the same
      numbers exactly when they are below the tolerance's reciprocal, or 1. */
  lemma WholeFloatExact(n: int)
    requires n > 1
    ensures (forall x: Num :: IsMultiple(x, Int(n)) <==> IsMultiple(x, Flt(n, 0))) <==> n as real < FINE
  {
    var m: Num := Flt(n, 0);
    assert Pow2(0) == 1;
    assert Val(m) == n as real;
    if n as real < FINE {
      forall x: Num ensures IsMultiple(x, Int(n)) <==> IsMultiple(x, m) {
        FloatOfInteger(n, m, x);
      }
    } else {
      Below(1.0, n as real, TOLERANCE);
      Above(1.0, n as real, 0.0);
      assert (1.0 / n as real).Floor == 0;
      assert IsMultiple(Int(1), m) && !IsMultiple(Int(1), Int(n));
    }
  }
}
