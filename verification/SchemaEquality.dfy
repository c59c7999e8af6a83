/**
 Schemas equal by their JSON keys accept the same instances. Python's ==,
 which the comparison uses on keywords it compares whole, promises less.
 */
module SchemaEquality {
  import opened Wrappers
  import opened Json
  import opened Schema
  import opened SchemaDiff

  /** A fraction with numerator below the tolerance's reciprocal is near an
      integer only by being one. */
  lemma NearIsWhole(x: int, m: Num)
    requires 0.0 < Val(m) && Numerator(m) as real < FINE
    ensures NearInteger(x as real / Val(m)) <==> Whole(x as real / Val(m))
  {
    ValIsRatio(m);
    var n, d := Numerator(m), Pow2(Exponent(m));
    PositiveRatio(n, d);
    FractionOf(x, n, d);
    NearFraction(x * d, n);
  }

  lemma PositiveRatio(n: int, d: nat)
    requires d > 0 && n as real / d as real > 0.0
    ensures n > 0
  {
    var q := n as real / d as real;
    assert q * d as real == n as real;
  }

  lemma FractionOf(x: int, n: int, d: nat)
    requires d > 0 && n > 0
    ensures x as real / (n as real / d as real) == (x * d) as real / n as real
  {
    var m := n as real / d as real;
    assert m * d as real == n as real;
    var q := x as real / m;
    assert q * m == x as real;
    assert (x * d) as real == x as real * d as real;
    assert q * n as real == q * (m * d as real) == (q * m) * d as real;
  }

  lemma NearFraction(a: int, n: int)
    requires 0 < n && n as real < FINE
    ensures NearInteger(a as real / n as real) <==> Whole(a as real / n as real)
  {
    var q := a as real / n as real;
    var d := q - q.Floor as real;
    assert q * n as real == a as real;
    var r := a - q.Floor * n;
    assert (q.Floor * n) as real == q.Floor as real * n as real;
    assert d * n as real == r as real;
    if 0 < r {
      Larger(d, n as real, 1.0);
    }
    if d > 0.0 {
      assert r > 0;
      assert (1.0 - d) * n as real == (n - r) as real;
      assert n - r > 0;
      Larger(1.0 - d, n as real, 1.0);
    }
  }

  lemma Larger(d: real, n: real, c: real)
    requires 0.0 < n < FINE && d * n >= c > 0.0
    ensures d > c * TOLERANCE
  {
    assert d > 0.0;
    assert d * FINE > d * n;
  }

  lemma MultipleModZero(k: int, n: int)
    requires n > 0
    ensures (k * n) % n == 0
  {
    var q, r := (k * n) / n, (k * n) % n;
    assert k * n == q * n + r;
    assert (k - q) * n == r;
    assert k - q >= 1 ==> (k - q) * n >= n;
    assert k - q <= -1 ==> (k - q) * n <= -n;
  }

  lemma WholeRatio(o: int, n: int)
    requires n > 0
    ensures Whole(o as real / n as real) <==> o % n == 0
  {
    var q := o as real / n as real;
    assert q * n as real == o as real;
    if Whole(q) {
      var k := q.Floor;
      assert (k * n) as real == k as real * n as real;
      assert o == k * n;
      MultipleModZero(k, n);
    }
    if o % n == 0 {
      ExactRatio(o / n, n);
      assert o == (o / n) * n;
      assert q == (o / n) as real;
    }
  }

  lemma ExactRatio(k: int, n: int)
    requires n > 0
    ensures (k * n) as real / n as real == k as real
  {
    var q := (k * n) as real / n as real;
    assert q * n as real == (k * n) as real == k as real * n as real;
    assert (q - k as real) * n as real == 0.0;
  }

  /** An integer and the float of the same value have the same multiples. */
  lemma FloatOfInteger(n: int, m: Num, x: Num)
    requires m.Flt? && 0.0 < Val(m) == n as real < FINE
    ensures IsMultiple(x, Int(n)) <==> IsMultiple(x, m)
  {
    NumValueIsCanon(Int(n), m);
    if x.Int? {
      NearIsWhole(x.n, m);
      WholeRatio(x.n, n);
    }
  }

  lemma EqMultipleValid(a: Option<Num>, b: Option<Num>, x: Json)
    requires EqMultiple(true, a, b)
    ensures MultipleOk(a, x) <==> MultipleOk(b, x)
  {
    if a.Some? && Val(a.value) > 0.0 && x.Number? {
      if a.value.Int? && b.value.Flt? {
        FloatOfInteger(a.value.n, b.value, x.x);
      } else if a.value.Flt? && b.value.Int? {
        FloatOfInteger(b.value.n, a.value, x.x);
      }
    }
  }

  lemma EqFiniteValid(f: Finite, g: Finite, x: Json)
    requires EqFinite(true, f, g)
    ensures FiniteOk(f, x) <==> FiniteOk(g, x)
  {
    if f.values.Some? {
      var s, t := f.values.value, g.values.value;
      assert Canon(Arr(s)).items == Canon(Arr(t)).items;
      forall i | 0 <= i < |s| ensures |s| == |t| && Canon(s[i]) == Canon(t[i]) {
        assert |Canon(Arr(s)).items| == |s| && |Canon(Arr(t)).items| == |t|;
        assert Canon(Arr(s)).items[i] == Canon(Arr(t)).items[i];
      }
    }
  }

  lemma EqScalarsValid(s: Schema, t: Schema, x: Json, re: Regex)
    requires s.Dict? && t.Dict? && EqScalars(true, s, t)
    ensures ScalarsOk(s, x, re) <==> ScalarsOk(t, x, re)
  {
    EqFiniteValid(s.finite, t.finite, x);
    EqMultipleValid(s.multipleOf, t.multipleOf, x);
  }

  lemma {:induction false} EqSeqValid(l: seq<Schema>, k: seq<Schema>, x: Json, re: Regex)
    requires EqSeq(true, l, k)
    ensures |l| == |k| && forall i :: 0 <= i < |l| ==> (Valid(l[i], x, re) <==> Valid(k[i], x, re))
    ensures Count(l, x, re) == Count(k, x, re)
    decreases l, 1
  {
    forall i | 0 <= i < |l| ensures Valid(l[i], x, re) <==> Valid(k[i], x, re) {
      EqSchemaValid(l[i], k[i], x, re);
    }
    SameCount(l, k, x, re);
  }

  lemma {:induction false} SameCount(l: seq<Schema>, k: seq<Schema>, x: Json, re: Regex)
    requires |l| == |k| && forall i :: 0 <= i < |l| ==> (Valid(l[i], x, re) <==> Valid(k[i], x, re))
    ensures Count(l, x, re) == Count(k, x, re)
  {
    if l != [] {
      var n := |l| - 1;
      assert forall i :: 0 <= i < n ==> l[..n][i] == l[i] && k[..n][i] == k[i];
      SameCount(l[..n], k[..n], x, re);
    }
  }

  lemma {:induction false} EqMaybeValid(m: MaybeSchema, n: MaybeSchema, x: Json, re: Regex)
    requires EqMaybe(true, m, n)
    ensures ValidMaybe(m, x, re) <==> ValidMaybe(n, x, re)
    ensures m.ASchema? ==> (Valid(m.schema, x, re) <==> Valid(n.schema, x, re))
    decreases m
  {
    if m.ASchema? { EqSchemaValid(m.schema, n.schema, x, re); }
  }

  lemma {:induction false} EqMapValid(m: SchemaMap, n: SchemaMap, x: Json, re: Regex)
    requires EqMap(true, m, n)
    ensures m.AMap? == n.AMap?
    ensures m.AMap? ==> m.map_.Keys == n.map_.Keys
    ensures m.AMap? ==>
              forall k :: k in m.map_ ==> (Valid(m.map_[k], x, re) <==> Valid(n.map_[k], x, re))
    decreases m
  {
    if m.AMap? {
      forall k | k in m.map_ ensures Valid(m.map_[k], x, re) <==> Valid(n.map_[k], x, re) {
        EqSchemaValid(m.map_[k], n.map_[k], x, re);
      }
    }
  }

  lemma {:induction false} EqDependenciesValid(m: Dependencies, n: Dependencies, x: Json, re: Regex)
    requires x.Obj?
    requires EqDependencies(true, m, n)
    ensures DependenciesOk(m, x, re) <==> DependenciesOk(n, x, re)
    decreases m
  {
    if m.SomeDependencies? {
      forall k | k in m.map_ ensures DependencyOk(m.map_[k], x, re) <==> DependencyOk(n.map_[k], x, re) {
        assert EqDependency(true, m.map_[k], n.map_[k]);
        if m.map_[k].NeedsSchema? {
          EqSchemaValid(m.map_[k].schema, n.map_[k].schema, x, re);
        }
      }
    }
  }

  lemma {:induction false} EqMemberValid(o: ObjectRules, q: ObjectRules, key: string, v: Json, re: Regex)
    requires EqObjects(true, o, q)
    ensures MemberOk(o, key, v, re) <==> MemberOk(q, key, v, re)
    decreases o, 0
  {
    EqMapValid(o.properties, q.properties, v, re);
    EqMapValid(o.patterns, q.patterns, v, re);
    EqMaybeValid(o.additional, q.additional, v, re);
    assert MatchesPattern(o.patterns, key, re) <==> MatchesPattern(q.patterns, key, re);
  }

  lemma {:induction false} EqObjectsValid(o: ObjectRules, q: ObjectRules, x: Json, re: Regex)
    requires EqObjects(true, o, q)
    ensures ObjectOk(o, x, re) <==> ObjectOk(q, x, re)
    decreases o, 1
  {
    if x.Obj? {
      forall key | key in x.members
        ensures MemberOk(o, key, x.members[key], re) <==> MemberOk(q, key, x.members[key], re)
      {
        EqMemberValid(o, q, key, x.members[key], re);
      }
      EqDependenciesValid(o.dependencies, q.dependencies, x, re);
    }
  }

  lemma {:induction false} EqItemValid(a: ArrayRules, b: ArrayRules, i: nat, v: Json, re: Regex)
    requires EqArrays(true, a, b)
    ensures a.items.Each? ==>
              b.items.Each? && (Valid(a.items.schema, v, re) <==> Valid(b.items.schema, v, re))
    ensures a.items.Tuple? ==> b.items.Tuple? && |a.items.list| == |b.items.list|
    ensures a.items.Tuple? && i < |a.items.list| ==>
              (Valid(a.items.list[i], v, re) <==> Valid(b.items.list[i], v, re))
    ensures ValidMaybe(a.additionalItems, v, re) <==> ValidMaybe(b.additionalItems, v, re)
    ensures a.contains.ASchema? ==>
              b.contains.ASchema? && (Valid(a.contains.schema, v, re) <==> Valid(b.contains.schema, v, re))
    decreases a, 0
  {
    EqMaybeValid(a.additionalItems, b.additionalItems, v, re);
    EqMaybeValid(a.contains, b.contains, v, re);
    if a.items.Each? {
      EqSchemaValid(a.items.schema, b.items.schema, v, re);
    } else if a.items.Tuple? {
      assert EqSeq(true, a.items.list, b.items.list);
      if i < |a.items.list| {
        EqSchemaValid(a.items.list[i], b.items.list[i], v, re);
      }
    }
  }

  lemma {:induction false} EqArraysValid(a: ArrayRules, b: ArrayRules, x: Json, re: Regex)
    requires EqArrays(true, a, b)
    ensures ArrayOk(a, x, re) <==> ArrayOk(b, x, re)
    decreases a, 1
  {
    if x.Arr? {
      assert EqItems(true, a.items, b.items) && EqMaybe(true, a.contains, b.contains);
      assert a.items.Tuple? ==> EqSeq(true, a.items.list, b.items.list);
      forall i | 0 <= i < |x.items|
        ensures a.items.Each? ==> (Valid(a.items.schema, x.items[i], re) <==> Valid(b.items.schema, x.items[i], re))
        ensures a.items.Tuple? && i < |a.items.list| ==>
                  (Valid(a.items.list[i], x.items[i], re) <==> Valid(b.items.list[i], x.items[i], re))
        ensures ValidMaybe(a.additionalItems, x.items[i], re) <==> ValidMaybe(b.additionalItems, x.items[i], re)
        ensures a.contains.ASchema? ==>
                  (Valid(a.contains.schema, x.items[i], re) <==> Valid(b.contains.schema, x.items[i], re))
      {
        EqItemValid(a, b, i, x.items[i], re);
      }
      assert ContainsOk(a.contains, x.items, re) <==> ContainsOk(b.contains, x.items, re);
      assert ItemsOk(a, x.items, re) <==> ItemsOk(b, x.items, re);
    }
  }

  lemma {:induction false} EqListValid(l: SchemaList, k: SchemaList, x: Json, re: Regex)
    requires EqList(true, l, k)
    ensures AllOfOk(l, x, re) <==> AllOfOk(k, x, re)
    ensures AnyOfOk(l, x, re) <==> AnyOfOk(k, x, re)
    ensures OneOfOk(l, x, re) <==> OneOfOk(k, x, re)
    decreases l
  {
    if l.AList? { EqSeqValid(l.list, k.list, x, re); }
  }

  lemma {:induction false} EqLogicValid(l: Logic, k: Logic, x: Json, re: Regex)
    requires EqLogic(true, l, k)
    ensures LogicOk(l, x, re) <==> LogicOk(k, x, re)
    decreases l, 1
  {
    EqListValid(l.allOf, k.allOf, x, re);
    EqListValid(l.anyOf, k.anyOf, x, re);
    EqListValid(l.oneOf, k.oneOf, x, re);
    EqMaybeValid(l.negation, k.negation, x, re);
    EqMaybeValid(l.condition, k.condition, x, re);
    EqMaybeValid(l.consequent, k.consequent, x, re);
    EqMaybeValid(l.alternative, k.alternative, x, re);
  }

  /** Schemas equal by their keys accept the same instances. */
  lemma {:induction false} EqSchemaValid(s: Schema, t: Schema, x: Json, re: Regex)
    requires EqSchema(true, s, t)
    ensures Valid(s, x, re) <==> Valid(t, x, re)
    decreases s
  {
    if s.Dict? {
      EqScalarsValid(s, t, x, re);
      EqObjectsValid(s.objects, t.objects, x, re);
      EqArraysValid(s.arrays, t.arrays, x, re);
      EqLogicValid(s.logic, t.logic, x, re);
    }
  }
}
